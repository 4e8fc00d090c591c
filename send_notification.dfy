/** The notification worker: for each queue record of a batch, parse the bus
    envelope and the event inside it, derive the notifications a generated report
    calls for, and collect one outcome per handled record. */
module SendNotification {
  import opened Common
  import opened Events

  /** The outcome of a parse step: the parsed value, or the message of the exception
      it raised (malformed JSON, or a property read or destructuring of `null`). */
  datatype Parse<+T> = Threw(error: string) | Parsed(value: T)

  /** The bus envelope inside a queue record's body; its `Message` holds the event. */
  datatype SnsEnvelope = SnsEnvelope(message: Parse<EventMessage>)

  /** One queue record of the batch. */
  datatype SqsRecord = SqsRecord(messageId: string, body: Parse<SnsEnvelope>)

  /** A notification the worker would send (its body text is not modelled). */
  datatype Notification = Notification(to: Option<string>, subject: string)

  /** One entry of `results`. */
  datatype Outcome =
    | NotificationsLogged(inspectionId: Option<string>, recipients: seq<string>)
    | ProcessingError(recordId: string, error: string)

  /** The handler's answer: `{ statusCode, body: { processed, results } }`. */
  datatype Response = Response(statusCode: int, processed: nat, results: seq<Outcome>)

  /** A field inside a template literal: a missing field renders as `undefined`. */
  function Render(s: Option<string>): string
  {
    if s.Some? then s.value else "undefined"
  }

  // ---------------------------------------------------------------------------
  // One event

  function InspectorNotification(m: EventMessage): (n: Notification)
    ensures n.to == m.inspectorEmail
    ensures EndsWith(n.subject, Render(m.propertyAddress))
  {
    Notification(m.inspectorEmail, "Inspection Report Ready - " + Render(m.propertyAddress))
  }

  function ClientNotification(m: EventMessage): (n: Option<Notification>)
    ensures n.Some? <==> Truthy(m.clientEmail)
    ensures n.Some? ==> n.value.to == m.clientEmail
    ensures n.Some? ==> EndsWith(n.value.subject, Render(m.propertyAddress))
  {
    if Truthy(m.clientEmail) then
      Some(Notification(m.clientEmail, "Property Inspection Report Available - " + Render(m.propertyAddress)))
    else None
  }

  /** `values.filter(Boolean)` over possibly-missing strings. */
  function FilterTruthy(values: seq<Option<string>>): (r: seq<string>)
    ensures |r| <= |values|
  {
    if values == [] then []
    else (if Truthy(values[0]) then [values[0].value] else []) + FilterTruthy(values[1..])
  }

  /** Filtering a concatenation filters each part and keeps their order. */
  lemma {:induction false} FilterTruthyAppend(a: seq<Option<string>>, b: seq<Option<string>>)
    ensures FilterTruthy(a + b) == FilterTruthy(a) + FilterTruthy(b)
    decreases |a|
  {
    if a == [] {
      assert a + b == b;
    } else {
      assert (a + b)[0] == a[0] && (a + b)[1..] == a[1..] + b;
      FilterTruthyAppend(a[1..], b);
    }
  }

  /** The filter keeps exactly the present, non-empty strings. */
  lemma {:induction false} FilterTruthyKeepsTruthy(values: seq<Option<string>>, s: string)
    ensures s in FilterTruthy(values) <==> s != "" && Some(s) in values
    decreases |values|
  {
    if values != [] {
      FilterTruthyKeepsTruthy(values[1..], s);
      assert values == [values[0]] + values[1..];
    }
  }

  /** `[inspectorEmail, clientEmail].filter(Boolean)`. */
  function Recipients(m: EventMessage): seq<string>
  {
    FilterTruthy([m.inspectorEmail, m.clientEmail])
  }

  /** The recipients are the truthy emails, inspector first. */
  lemma RecipientsAreTruthyEmails(m: EventMessage)
    ensures Recipients(m) ==
      (if Truthy(m.inspectorEmail) then [m.inspectorEmail.value] else []) +
      (if Truthy(m.clientEmail) then [m.clientEmail.value] else [])
  {
    var both := [m.inspectorEmail, m.clientEmail];
    assert both[1..] == [m.clientEmail] && both[1..][1..] == [];
    assert FilterTruthy([m.clientEmail]) == (if Truthy(m.clientEmail) then [m.clientEmail.value] else []) + FilterTruthy([]);
  }

  /** Whether the handler reaches the REPORT_GENERATED branch for this record. */
  predicate ReportEvent(r: SqsRecord)
  {
    r.body.Parsed? && r.body.value.message.Parsed? &&
    r.body.value.message.value.eventType == Some(ReportGeneratedType)
  }

  /** Whether one of the parse steps throws for this record. */
  predicate Failing(r: SqsRecord)
  {
    r.body.Threw? || r.body.value.message.Threw?
  }

  /** The message of the exception a failing record raises. */
  function ErrorOf(r: SqsRecord): string
    requires Failing(r)
  {
    if r.body.Threw? then r.body.error else r.body.value.message.error
  }

  /** The entries one record adds to `results`. */
  function EntryFor(r: SqsRecord): (e: seq<Outcome>)
    ensures |e| <= 1
    ensures |e| == 1 <==> Failing(r) || ReportEvent(r)
    ensures Failing(r) ==> e == [ProcessingError(r.messageId, ErrorOf(r))]
    ensures ReportEvent(r) ==>
      var m := r.body.value.message.value;
      e == [NotificationsLogged(m.inspectionId, Recipients(m))]
  {
    match r.body
    case Threw(error) => [ProcessingError(r.messageId, error)]
    case Parsed(body) =>
      match body.message
      case Threw(error) => [ProcessingError(r.messageId, error)]
      case Parsed(m) =>
        if m.eventType == Some(ReportGeneratedType) then [NotificationsLogged(m.inspectionId, Recipients(m))]
        else []
  }

  /** The notifications one record makes the worker log. */
  function NotificationsFor(r: SqsRecord): (ns: seq<Notification>)
    ensures !ReportEvent(r) ==> ns == []
    ensures ReportEvent(r) ==>
      var m := r.body.value.message.value;
      && |ns| == (if Truthy(m.clientEmail) then 2 else 1)
      && ns[0] == InspectorNotification(m)
      && (Truthy(m.clientEmail) ==> ns[1] == ClientNotification(m).value)
  {
    if ReportEvent(r) then
      var m := r.body.value.message.value;
      var client := ClientNotification(m);
      [InspectorNotification(m)] + (if client.Some? then [client.value] else [])
    else []
  }

  // ---------------------------------------------------------------------------
  // The batch

  /** The `results` of a batch: each record's entries, in input order. */
  function Outcomes(rs: seq<SqsRecord>): (results: seq<Outcome>)
    ensures |results| <= |rs|
  {
    if rs == [] then [] else EntryFor(rs[0]) + Outcomes(rs[1..])
  }

  /** The notifications logged for a batch, in input order. */
  function Notifications(rs: seq<SqsRecord>): seq<Notification>
  {
    if rs == [] then [] else NotificationsFor(rs[0]) + Notifications(rs[1..])
  }

  function CountFailing(rs: seq<SqsRecord>): nat
  {
    if rs == [] then 0 else (if Failing(rs[0]) then 1 else 0) + CountFailing(rs[1..])
  }

  function CountReportEvents(rs: seq<SqsRecord>): nat
  {
    if rs == [] then 0 else (if ReportEvent(rs[0]) then 1 else 0) + CountReportEvents(rs[1..])
  }

  /** Records are handled independently: the results of a concatenated batch are
      the results of its parts, concatenated. */
  lemma {:induction false} OutcomesConcatenate(a: seq<SqsRecord>, b: seq<SqsRecord>)
    ensures Outcomes(a + b) == Outcomes(a) + Outcomes(b)
    decreases |a|
  {
    if a == [] {
      assert a + b == b;
    } else {
      assert (a + b)[1..] == a[1..] + b;
      OutcomesConcatenate(a[1..], b);
    }
  }

  /** The same holds of the logged notifications. */
  lemma {:induction false} NotificationsConcatenate(a: seq<SqsRecord>, b: seq<SqsRecord>)
    ensures Notifications(a + b) == Notifications(a) + Notifications(b)
    decreases |a|
  {
    if a == [] {
      assert a + b == b;
    } else {
      assert (a + b)[1..] == a[1..] + b;
      NotificationsConcatenate(a[1..], b);
    }
  }

  /** A record whose parse throws yields exactly its error entry, and the records
      before and after it are handled as if it were not there. */
  lemma FailureIsIsolated(a: seq<SqsRecord>, bad: SqsRecord, b: seq<SqsRecord>)
    requires Failing(bad)
    ensures Outcomes(a + [bad] + b) == Outcomes(a) + [ProcessingError(bad.messageId, ErrorOf(bad))] + Outcomes(b)
  {
    var single := [bad];
    assert Outcomes(single) == [ProcessingError(bad.messageId, ErrorOf(bad))] by {
      assert single[1..] == [];
      assert Outcomes(single) == EntryFor(bad) + Outcomes([]);
    }
    OutcomesConcatenate(a, single);
    OutcomesConcatenate(a + single, b);
  }

  /** A failing record logs no notification. */
  lemma FailureLogsNothing(a: seq<SqsRecord>, bad: SqsRecord, b: seq<SqsRecord>)
    requires Failing(bad)
    ensures Notifications(a + [bad] + b) == Notifications(a) + Notifications(b)
  {
    var single := [bad];
    assert Notifications(single) == [] by {
      assert single[1..] == [];
      assert !ReportEvent(bad);
      assert Notifications(single) == NotificationsFor(bad) + Notifications([]);
    }
    NotificationsConcatenate(a, single);
    NotificationsConcatenate(a + single, b);
    assert Notifications(a) + [] == Notifications(a);
  }

  /** `processed` counts the failing records and the REPORT_GENERATED records, not
      the batch: records of other types contribute nothing. */
  lemma {:induction false} ProcessedCount(rs: seq<SqsRecord>)
    ensures |Outcomes(rs)| == CountFailing(rs) + CountReportEvents(rs)
    ensures |Outcomes(rs)| <= |rs|
  {
    if rs != [] {
      ProcessedCount(rs[1..]);
    }
  }

  /** When every record fails or carries a generated report, entry i of the
      results belongs to record i. */
  lemma {:induction false} ResultsFollowInputOrder(rs: seq<SqsRecord>)
    requires forall i :: 0 <= i < |rs| ==> Failing(rs[i]) || ReportEvent(rs[i])
    ensures |Outcomes(rs)| == |rs|
    ensures forall i :: 0 <= i < |rs| ==> EntryFor(rs[i]) == [Outcomes(rs)[i]]
  {
    if rs != [] {
      ResultsFollowInputOrder(rs[1..]);
      assert Outcomes(rs) == EntryFor(rs[0]) + Outcomes(rs[1..]);
      forall i | 0 <= i < |rs|
        ensures EntryFor(rs[i]) == [Outcomes(rs)[i]]
      {
        if i > 0 {
          assert rs[1..][i - 1] == rs[i];
        }
      }
    }
  }

  /** A batch of a malformed record and a REPORT_GENERATED event with both emails:
      two results, the error first, and two notifications. */
  lemma ExampleBatchWithMalformedRecord()
    ensures
      var bad := SqsRecord("m1", Threw("Unexpected token"));
      var m := EventMessage(Some(ReportGeneratedType), Some("insp_1"), Some("1 Main St"),
                            Some("inspector@example.com"), Some("client@example.com"), Some(0));
      var good := SqsRecord("m2", Parsed(SnsEnvelope(Parsed(m))));
      && Outcomes([bad, good]) == [ProcessingError("m1", "Unexpected token"),
                                   NotificationsLogged(Some("insp_1"), ["inspector@example.com", "client@example.com"])]
      && |Notifications([bad, good])| == 2
  {
    var m := EventMessage(Some(ReportGeneratedType), Some("insp_1"), Some("1 Main St"),
                          Some("inspector@example.com"), Some("client@example.com"), Some(0));
    RecipientsAreTruthyEmails(m);
    assert Truthy(m.inspectorEmail) && Truthy(m.clientEmail);
    assert Recipients(m) == ["inspector@example.com", "client@example.com"];
    var bad := SqsRecord("m1", Threw("Unexpected token"));
    var good := SqsRecord("m2", Parsed(SnsEnvelope(Parsed(m))));
    assert [bad, good][1..] == [good] && [good][1..] == [];
    assert ReportEvent(good) && Failing(bad);
    assert EntryFor(bad) == [ProcessingError("m1", "Unexpected token")];
    assert EntryFor(good) == [NotificationsLogged(Some("insp_1"), ["inspector@example.com", "client@example.com"])];
    assert Outcomes([good]) == EntryFor(good) + Outcomes([]);
    assert Outcomes([bad, good]) == EntryFor(bad) + Outcomes([good]);
    assert Notifications([good]) == NotificationsFor(good) + Notifications([]);
    assert Notifications([bad, good]) == NotificationsFor(bad) + Notifications([good]);
  }

  /** Processing one more record extends the results and the log by that record's share. */
  lemma AppendRecord(rs: seq<SqsRecord>, r: SqsRecord)
    ensures Outcomes(rs + [r]) == Outcomes(rs) + EntryFor(r)
    ensures Notifications(rs + [r]) == Notifications(rs) + NotificationsFor(r)
  {
    OutcomesConcatenate(rs, [r]);
    NotificationsConcatenate(rs, [r]);
    assert [r][1..] == [];
  }

  /** The body of the handler's `try` block, with its `catch`, for one record: the
      result entry it pushes and the notifications it logs. */
  method ProcessRecord(record: SqsRecord) returns (entry: seq<Outcome>, sent: seq<Notification>)
    ensures entry == EntryFor(record)
    ensures sent == NotificationsFor(record)
  {
    entry, sent := [], [];
    match record.body {
      case Threw(error) =>
        entry := [ProcessingError(record.messageId, error)];
      case Parsed(body) =>
        match body.message {
          case Threw(error) =>
            entry := [ProcessingError(record.messageId, error)];
          case Parsed(message) =>
            if message.eventType == Some(ReportGeneratedType) {
              var inspectorNotification := InspectorNotification(message);
              var clientNotification := ClientNotification(message);
              sent := [inspectorNotification];
              if clientNotification.Some? {
                sent := sent + [clientNotification.value];
              }
              entry := [NotificationsLogged(message.inspectionId, Recipients(message))];
            }
        }
    }
  }

  /** `exports.handler`: every record is handled inside its own try/catch. */
  method Handler(records: seq<SqsRecord>) returns (response: Response, logged: seq<Notification>)
    ensures response.statusCode == 200
    ensures response.results == Outcomes(records)
    ensures response.processed == |response.results|
    ensures logged == Notifications(records)
  {
    var results: seq<Outcome> := [];
    logged := [];
    for i := 0 to |records|
      invariant results == Outcomes(records[..i])
      invariant logged == Notifications(records[..i])
    {
      var entry, sent := ProcessRecord(records[i]);
      AppendRecord(records[..i], records[i]);
      PrefixSnoc(records, i);
      results := results + entry;
      logged := logged + sent;
    }
    assert records[..|records|] == records;
    response := Response(200, |results|, results);
  }
}
