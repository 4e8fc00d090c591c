/** The report service: overall-condition scoring, the report projection of an
    inspection, and the generate and get-report handlers over the shared table. */
module ReportService {
  import opened Common
  import opened Store
  import opened Events

  datatype Condition = Good | Fair | Poor

  // ---------------------------------------------------------------------------
  // Overall condition

  /** The score of one checklist value: Good 3, Fair 2, Poor 1, anything else 0. */
  function Score(r: Rating): (s: nat)
    ensures s == 3 <==> r == Rated("Good")
    ensures s == 2 <==> r == Rated("Fair")
    ensures s == 1 <==> r == Rated("Poor")
    ensures s == 0 <==> r != Rated("Good") && r != Rated("Fair") && r != Rated("Poor")
  {
    if r == Rated("Good") then 3
    else if r == Rated("Fair") then 2
    else if r == Rated("Poor") then 1
    else 0
  }

  /** The sum of the scores of the checklist values. */
  function TotalScore(rs: seq<Rating>): (total: nat)
    ensures total <= 3 * |rs|
  {
    if rs == [] then 0 else Score(rs[0]) + TotalScore(rs[1..])
  }

  /** A checklist reaches the full score of 3 per value exactly when every value is Good. */
  lemma {:induction false} FullScoreIffAllGood(rs: seq<Rating>)
    ensures TotalScore(rs) == 3 * |rs| <==> forall i :: 0 <= i < |rs| ==> rs[i] == Rated("Good")
    decreases |rs|
  {
    if rs != [] {
      FullScoreIffAllGood(rs[1..]);
      if forall i :: 0 <= i < |rs| ==> rs[i] == Rated("Good") {
        forall i | 0 <= i < |rs[1..]|
          ensures rs[1..][i] == Rated("Good")
        {
          assert rs[1..][i] == rs[i + 1];
        }
      } else if rs[0] == Rated("Good") {
        var k :| 0 <= k < |rs| && rs[k] != Rated("Good");
        assert rs[1..][k - 1] == rs[k];
      }
    }
  }

  /** The overall condition: the average score thresholded at 2.5 and 1.5, with the
      comparisons cross-multiplied. An empty checklist has average NaN, which fails
      both comparisons, so it is Poor. */
  function OverallCondition(rs: seq<Rating>): (c: Condition)
    ensures |rs| == 0 ==> c == Poor
    ensures |rs| > 0 && (forall i :: 0 <= i < |rs| ==> rs[i] == Rated("Good")) ==> c == Good
  {
    FullScoreIffAllGood(rs);
    var n, total := |rs|, TotalScore(rs);
    if n > 0 && 2 * total >= 5 * n then Good
    else if n > 0 && 2 * total >= 3 * n then Fair
    else Poor
  }

  /** The average score, as the policy states it. */
  function AverageScore(rs: seq<Rating>): real
    requires |rs| > 0
  {
    TotalScore(rs) as real / |rs| as real
  }

  lemma DivideAtLeast(t: real, n: real, k: real)
    requires n > 0.0
    ensures t / n >= k <==> t >= k * n
  {
    var q := t / n;
    assert q * n == t;
    if q >= k {
      assert (q - k) * n >= 0.0;
    } else {
      assert (k - q) * n > 0.0;
    }
  }

  /** The policy in its own terms: Good from an average of exactly 2.5 up, Fair
      from exactly 1.5 up to below 2.5, Poor below 1.5 and for an empty checklist. */
  lemma ConditionByAverage(rs: seq<Rating>)
    ensures OverallCondition(rs) == Good <==> |rs| > 0 && AverageScore(rs) >= 2.5
    ensures OverallCondition(rs) == Fair <==> |rs| > 0 && 1.5 <= AverageScore(rs) < 2.5
    ensures OverallCondition(rs) == Poor <==> |rs| == 0 || AverageScore(rs) < 1.5
  {
    if |rs| > 0 {
      var t, n := TotalScore(rs) as real, |rs| as real;
      DivideAtLeast(t, n, 2.5);
      DivideAtLeast(t, n, 1.5);
    }
  }

  /** Ratings Good, Good, Fair, Good, Poor score 3, 3, 2, 3, 1: average 2.4, Fair. */
  lemma ExampleChecklistIsFair()
    ensures var rs := [Rated("Good"), Rated("Good"), Rated("Fair"), Rated("Good"), Rated("Poor")];
            TotalScore(rs) == 12 && AverageScore(rs) == 2.4 && OverallCondition(rs) == Fair
  {
  }

  // ---------------------------------------------------------------------------
  // The score lookup as written: `scores[v] || 0` on an object literal

  /** The names an object literal inherits from Object.prototype. Looking one of them
      up in the score table yields a function (or, for __proto__, an object): truthy,
      so `|| 0` keeps it, and it is not a number. */
  const InheritedNames: set<string> := {
    "constructor", "__defineGetter__", "__defineSetter__", "hasOwnProperty",
    "__lookupGetter__", "__lookupSetter__", "isPrototypeOf", "propertyIsEnumerable",
    "toString", "valueOf", "__proto__", "toLocaleString"}

  /** What `scores[v] || 0` yields: a number, or an inherited non-number. */
  datatype Addend = Number(n: int) | NonNumber

  /** What the running sum of the reduce is: a number, or a string once a
      non-number has been added (JavaScript's `+` then concatenates). */
  datatype Sum = Numeric(n: int) | Concatenated

  predicate Inherited(r: Rating)
  {
    r.Rated? && r.text in InheritedNames
  }

  /** `scores[v] || 0` on the literal { Good: 3, Fair: 2, Poor: 1 }; a null value
      looks up the key "null", which is undefined. */
  function LookupAsWritten(r: Rating): (a: Addend)
    ensures a == NonNumber <==> Inherited(r)
    ensures !Inherited(r) ==> a == Number(Score(r))
  {
    match r
    case Unrated => Number(0)
    case Rated(k) =>
      if k == "Good" then Number(3)
      else if k == "Fair" then Number(2)
      else if k == "Poor" then Number(1)
      else if k in InheritedNames then NonNumber
      else Number(0)
  }

  function Plus(acc: Sum, a: Addend): Sum
  {
    match (acc, a)
    case (Numeric(x), Number(y)) => Numeric(x + y)
    case _ => Concatenated
  }

  /** `values.reduce((sum, v) => sum + (scores[v] || 0), acc)`, left to right. */
  function ReduceAsWritten(acc: Sum, rs: seq<Rating>): Sum
    decreases |rs|
  {
    if rs == [] then acc else ReduceAsWritten(Plus(acc, LookupAsWritten(rs[0])), rs[1..])
  }

  /** calculateOverallCondition as written: a concatenated sum divided by the count
      is NaN, which fails both comparisons, so it is Poor. */
  function ConditionAsWritten(rs: seq<Rating>): (c: Condition)
    ensures |rs| == 0 ==> c == Poor
  {
    match ReduceAsWritten(Numeric(0), rs)
    case Concatenated => Poor
    case Numeric(total) =>
      var n := |rs|;
      if n > 0 && 2 * total >= 5 * n then Good
      else if n > 0 && 2 * total >= 3 * n then Fair
      else Poor
  }

  lemma {:induction false} ReduceConcatenatedStays(rs: seq<Rating>)
    ensures ReduceAsWritten(Concatenated, rs) == Concatenated
    decreases |rs|
  {
    if rs != [] {
      ReduceConcatenatedStays(rs[1..]);
    }
  }

  lemma {:induction false} ReduceWithoutInherited(acc: int, rs: seq<Rating>)
    requires forall i :: 0 <= i < |rs| ==> !Inherited(rs[i])
    ensures ReduceAsWritten(Numeric(acc), rs) == Numeric(acc + TotalScore(rs))
    decreases |rs|
  {
    if rs != [] {
      ReduceWithoutInherited(acc + Score(rs[0]), rs[1..]);
    }
  }

  lemma {:induction false} ReduceWithInherited(acc: Sum, rs: seq<Rating>, k: nat)
    requires k < |rs| && Inherited(rs[k])
    ensures ReduceAsWritten(acc, rs) == Concatenated
    decreases |rs|
  {
    var next := Plus(acc, LookupAsWritten(rs[0]));
    if k == 0 {
      ReduceConcatenatedStays(rs[1..]);
    } else {
      ReduceWithInherited(next, rs[1..], k - 1);
    }
  }

  /** As written, the scoring agrees with the policy on every checklist whose
      values name no inherited member. */
  lemma ConditionAsWrittenAgrees(rs: seq<Rating>)
    requires forall i :: 0 <= i < |rs| ==> !Inherited(rs[i])
    ensures ConditionAsWritten(rs) == OverallCondition(rs)
  {
    ReduceWithoutInherited(0, rs);
  }

  /** As written, one value naming an inherited member makes the condition Poor,
      whatever the other values are. */
  lemma ConditionAsWrittenInheritedIsPoor(rs: seq<Rating>, k: nat)
    requires k < |rs| && Inherited(rs[k])
    ensures ConditionAsWritten(rs) == Poor
  {
    ReduceWithInherited(Numeric(0), rs, k);
  }

  /** Four Good values and the value "toString": the policy says 12 / 5 = 2.4, Fair;
      as written the sum becomes a string and the condition is Poor. */
  lemma InheritedNameCounterexample()
    ensures var rs := [Rated("Good"), Rated("Good"), Rated("Good"), Rated("Good"), Rated("toString")];
            ConditionAsWritten(rs) == Poor && OverallCondition(rs) == Fair
  {
    var rs := [Rated("Good"), Rated("Good"), Rated("Good"), Rated("Good"), Rated("toString")];
    ConditionAsWrittenInheritedIsPoor(rs, 4);
  }

  // ---------------------------------------------------------------------------
  // The report projection

  datatype Contact = Contact(name: string, email: string)

  datatype Summary = Summary(checklist: Checklist, overallCondition: Condition, notes: string, totalImages: nat)

  /** The report object. `generatedAt` is `None` when the item has no
      `reportGeneratedAt` (`undefined`, so the field is dropped from the JSON). */
  datatype Report = Report(
    reportId: string,
    inspectionId: string,
    generatedAt: Option<Timestamp>,
    propertyAddress: string,
    inspector: Contact,
    client: Contact,
    summary: Summary,
    images: seq<ImageRef>)

  /** The report identifier, derived from the inspection identifier. */
  function ReportId(inspectionId: string): (r: string)
    ensures |r| == |inspectionId| + 7 && r[..7] == "report_" && r[7..] == inspectionId
  {
    "report_" + inspectionId
  }

  /** The report both handlers assemble from a stored inspection. */
  function BuildReport(inspectionId: string, rec: Inspection, generatedAt: Option<Timestamp>): (r: Report)
    requires rec.checklist.Some?
    ensures r.reportId == ReportId(inspectionId) && r.inspectionId == inspectionId
    ensures r.summary.checklist == rec.checklist.value
    ensures r.summary.overallCondition == OverallCondition(Ratings(rec.checklist.value))
    ensures r.summary.totalImages == |r.images|
    ensures r.images == (if rec.images.Some? then rec.images.value else [])
  {
    var images := if rec.images.Some? then rec.images.value else [];
    Report(
      ReportId(inspectionId),
      inspectionId,
      generatedAt,
      rec.propertyAddress,
      Contact(rec.inspectorName, rec.inspectorEmail),
      Contact(rec.clientName, rec.clientEmail),
      Summary(rec.checklist.value, OverallCondition(Ratings(rec.checklist.value)), rec.notes, |images|),
      images)
  }

  /** The stored item after generation: four attributes change. */
  function Generated(rec: Inspection, now: Timestamp): (r: Inspection)
    ensures r.status == ReportGenerated && r.reportGeneratedAt == Some(now) && r.updatedAt == now
    ensures forall id :: WellFormed(id, rec) ==> WellFormed(id, r)
    ensures r.(status := rec.status, gsi1pk := rec.gsi1pk, reportGeneratedAt := rec.reportGeneratedAt,
               updatedAt := rec.updatedAt) == rec
  {
    rec.(status := ReportGenerated, gsi1pk := StatusKey(ReportGenerated),
         reportGeneratedAt := Some(now), updatedAt := now)
  }

  /** The projection reads none of the attributes generation writes. */
  lemma ReportIgnoresGeneratedFields(inspectionId: string, rec: Inspection, now: Timestamp, at: Option<Timestamp>)
    requires rec.checklist.Some?
    ensures BuildReport(inspectionId, Generated(rec, now), at) == BuildReport(inspectionId, rec, at)
  {
  }

  /** The event announcing a generated report. */
  function EventFor(inspectionId: string, rec: Inspection, now: Timestamp): (e: NotificationEvent)
    ensures e.eventType == ReportGeneratedType && e.inspectionId == inspectionId
    ensures e.reportId == ReportId(inspectionId) && e.generatedAt == now
    ensures e.inspectorEmail == rec.inspectorEmail && e.clientEmail == rec.clientEmail
  {
    NotificationEvent(ReportGeneratedType, inspectionId, ReportId(inspectionId),
                      rec.propertyAddress, rec.inspectorEmail, rec.clientEmail, now)
  }

  /** What the publish step did: nothing, or a publish the bus accepted or refused. */
  datatype Publication = NotPublished | Published(event: NotificationEvent, delivered: bool)

  // ---------------------------------------------------------------------------
  // Handlers

  /** POST /api/reports/:inspectionId. `now` is the request's clock reading,
      `topicArn` the configured topic, `publishSucceeds` the bus's answer. */
  method Generate(t: Table, inspectionId: string, now: Timestamp, topicArn: Option<string>, publishSucceeds: bool)
    returns (res: Result<Report>, publication: Publication)
    requires t.Valid()
    modifies t
    ensures t.Valid()
    ensures inspectionId !in old(t.items) ==>
      && res == Err(NotFound)
      && publication == NotPublished
      && t.items == old(t.items)
    ensures inspectionId in old(t.items) && !Complete(old(t.items)[inspectionId].checklist) ==>
      && res == Err(Invalid(ChecklistIncomplete))
      && publication == NotPublished
      && t.items == old(t.items)
    ensures inspectionId in old(t.items) && Complete(old(t.items)[inspectionId].checklist) ==>
      var rec := old(t.items)[inspectionId];
      && t.items == old(t.items)[inspectionId := Generated(rec, now)]
      && res == Ok(BuildReport(inspectionId, rec, Some(now)))
      && publication == (if Truthy(topicArn) then Published(EventFor(inspectionId, rec, now), publishSucceeds)
                         else NotPublished)
  {
    if inspectionId !in t.items {
      return Err(NotFound), NotPublished;
    }
    var inspection := t.items[inspectionId];
    if !Complete(inspection.checklist) {
      return Err(Invalid(ChecklistIncomplete)), NotPublished;
    }
    var report := BuildReport(inspectionId, inspection, Some(now));
    var sets := [SetStatus(ReportGenerated), SetStatusKey(StatusKey(ReportGenerated)),
                 SetReportGeneratedAt(now), SetUpdatedAt(now)];
    ghost var r1 := Assign(inspection, sets[0]);
    ghost var r2 := Assign(r1, sets[1]);
    ghost var r3 := Assign(r2, sets[2]);
    ApplyAllCons(inspection, sets[0], sets[1..]);
    ApplyAllCons(r1, sets[1], sets[2..]);
    ApplyAllCons(r2, sets[2], sets[3..]);
    ApplyAllCons(r3, sets[3], []);
    var updated := t.Update(inspectionId, sets);
    assert updated == Generated(inspection, now);
    publication := NotPublished;
    if Truthy(topicArn) {
      // A refused publish is logged and swallowed: the outcome does not depend on it.
      publication := Published(EventFor(inspectionId, inspection, now), publishSucceeds);
    }
    res := Ok(report);
  }

  /** GET /api/reports/:inspectionId: the report rebuilt from the current item.
      A generated item without a checklist makes Object.values throw. */
  method GetReport(t: Table, inspectionId: string) returns (res: Result<Report>)
    ensures inspectionId !in t.items ==> res == Err(NotFound)
    ensures inspectionId in t.items && t.items[inspectionId].status != ReportGenerated ==>
      res == Err(Invalid(ReportNotGenerated))
    ensures inspectionId in t.items && t.items[inspectionId].status == ReportGenerated ==>
      var rec := t.items[inspectionId];
      res == if rec.checklist.None? then Err(Unexpected)
             else Ok(BuildReport(inspectionId, rec, rec.reportGeneratedAt))
  {
    if inspectionId !in t.items {
      return Err(NotFound);
    }
    var inspection := t.items[inspectionId];
    if inspection.status != ReportGenerated {
      return Err(Invalid(ReportNotGenerated));
    }
    if inspection.checklist.None? {
      return Err(Unexpected);
    }
    res := Ok(BuildReport(inspectionId, inspection, inspection.reportGeneratedAt));
  }
}
