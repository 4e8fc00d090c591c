/** How the pieces fit together: a record created by the inspection API, a report
    generated and read back by the report service, and the event the worker turns
    into notifications. */
module Workflow {
  import opened Common
  import opened Store
  import opened Events
  import ReportService
  import SendNotification
  import InspectionApi

  /** Right after a successful generate, get-report returns the same report. */
  method GenerateThenGet(t: Table, inspectionId: string, now: Timestamp, topicArn: Option<string>, publishSucceeds: bool)
    returns (generated: Result<ReportService.Report>, fetched: Result<ReportService.Report>)
    requires t.Valid()
    modifies t
    ensures t.Valid()
    ensures generated.Ok? ==> fetched == generated
    ensures generated == Err(NotFound) ==> fetched == Err(NotFound)
  {
    var publication;
    generated, publication := ReportService.Generate(t, inspectionId, now, topicArn, publishSucceeds);
    fetched := ReportService.GetReport(t, inspectionId);
  }

  /** A freshly created inspection has an empty checklist, so generating its
      report is refused and changes nothing. */
  method CreateThenGenerate(t: Table, req: InspectionApi.CreateRequest, uuid: string, now: Timestamp,
                            later: Timestamp, topicArn: Option<string>, publishSucceeds: bool)
    returns (created: Result<InspectionApi.Created>, generated: Result<ReportService.Report>)
    requires t.Valid()
    modifies t
    ensures t.Valid()
    ensures created.Ok? ==> generated == Err(Invalid(ChecklistIncomplete))
    ensures created.Ok? ==>
      && InspectionApi.HasRequiredFields(req)
      && created.value.inspectionId == InspectionApi.InspectionIdFor(uuid)
      && t.items == old(t.items)[created.value.inspectionId := InspectionApi.NewInspection(created.value.inspectionId, req, now)]
  {
    created := InspectionApi.Create(t, req, uuid, now);
    if created.Ok? {
      var publication;
      generated, publication := ReportService.Generate(t, created.value.inspectionId, later, topicArn, publishSucceeds);
      assert publication == ReportService.NotPublished;
    } else {
      generated := Err(NotFound);
    }
  }

  /** The report is rebuilt on every read: notes edited after generation show up
      in it, while its generation time stays that of the generate call. */
  method EditAfterGenerate(t: Table, inspectionId: string, now: Timestamp, later: Timestamp, notes: string)
    returns (generated: Result<ReportService.Report>, fetched: Result<ReportService.Report>)
    requires t.Valid()
    modifies t
    ensures t.Valid()
    ensures generated.Ok? ==>
      && fetched.Ok?
      && fetched.value.summary.notes == notes
      && fetched.value.generatedAt == generated.value.generatedAt == Some(now)
  {
    var publication;
    generated, publication := ReportService.Generate(t, inspectionId, now, None, true);
    var edit := InspectionApi.UpdateRequest(None, Some(notes), None, None, None, None);
    var updated := InspectionApi.Update(t, inspectionId, edit, later);
    fetched := ReportService.GetReport(t, inspectionId);
  }

  /** The event published for a generated report reaches the worker as a
      REPORT_GENERATED message: one entry whose recipients are the inspector's and,
      when non-empty, the client's email, and one notification per recipient slot. */
  lemma PublishedEventIsNotified(inspectionId: string, rec: Inspection, now: Timestamp, messageId: string)
    ensures
      var event := ReportService.EventFor(inspectionId, rec, now);
      var record := SendNotification.SqsRecord(messageId,
        SendNotification.Parsed(SendNotification.SnsEnvelope(SendNotification.Parsed(Delivered(event)))));
      && SendNotification.EntryFor(record) ==
           [SendNotification.NotificationsLogged(Some(inspectionId),
              (if rec.inspectorEmail != "" then [rec.inspectorEmail] else []) +
              (if rec.clientEmail != "" then [rec.clientEmail] else []))]
      && |SendNotification.NotificationsFor(record)| == (if rec.clientEmail != "" then 2 else 1)
  {
    var event := ReportService.EventFor(inspectionId, rec, now);
    SendNotification.RecipientsAreTruthyEmails(Delivered(event));
  }
}
