/** The notification event the report service publishes on the bus and the
    notification worker consumes. */
module Events {
  import opened Common
  import opened Store

  const ReportGeneratedType := "REPORT_GENERATED"

  /** The message the report service serialises and publishes. */
  datatype NotificationEvent = NotificationEvent(
    eventType: string,
    inspectionId: string,
    reportId: string,
    propertyAddress: string,
    inspectorEmail: string,
    clientEmail: string,
    generatedAt: Timestamp)

  /** The fields the worker destructures from a parsed message. `None` is a field
      the message does not carry (`undefined` after destructuring). */
  datatype EventMessage = EventMessage(
    eventType: Option<string>,
    inspectionId: Option<string>,
    propertyAddress: Option<string>,
    inspectorEmail: Option<string>,
    clientEmail: Option<string>,
    generatedAt: Option<Timestamp>)

  /** What the worker reads back from a published event: serialising an object of
      present string fields and parsing it again yields the same fields. */
  function Delivered(e: NotificationEvent): EventMessage
  {
    EventMessage(Some(e.eventType), Some(e.inspectionId), Some(e.propertyAddress),
                 Some(e.inspectorEmail), Some(e.clientEmail), Some(e.generatedAt))
  }
}
