/** The shared inspection table: the record layout both services read and write,
    the SET assignments of an update command, and the table itself as a map from
    inspection identifier to record. */
module Store {
  import opened Common

  /** An instant, as the milliseconds the stored ISO-8601 text denotes. */
  type Timestamp = int

  /** One checklist value: `null`, or a non-null value given by the property-key
      text it converts to (for the ratings the frontend sends, the string itself). */
  datatype Rating = Unrated | Rated(text: string)

  /** One checklist entry, `category: value`, in the object's key order. */
  datatype ChecklistItem = ChecklistItem(category: string, rating: Rating)

  type Checklist = seq<ChecklistItem>

  /** An image attached to an inspection, as the frontend records it after upload. */
  datatype ImageRef = ImageRef(imageId: string, s3Key: string, description: string, uploadedAt: Timestamp)

  /** A stored inspection item, key attributes included. `checklist` and `images`
      are optional because the report service tests for their absence; `None` is an
      attribute the item does not carry (`undefined` once read). */
  datatype Inspection = Inspection(
    pk: string,
    sk: string,
    gsi1pk: string,
    gsi1sk: Timestamp,
    inspectionId: string,
    propertyAddress: string,
    inspectorName: string,
    inspectorEmail: string,
    clientName: string,
    clientEmail: string,
    status: string,
    createdAt: Timestamp,
    updatedAt: Timestamp,
    checklist: Option<Checklist>,
    notes: string,
    images: Option<seq<ImageRef>>,
    reportGeneratedAt: Option<Timestamp>)

  const SortKey := "METADATA"
  const Draft := "DRAFT"
  const ReportGenerated := "REPORT_GENERATED"

  /** The partition key of an inspection item. */
  function PrimaryKey(inspectionId: string): string
  {
    "INSPECTION#" + inspectionId
  }

  /** The status-index partition key for a status. */
  function StatusKey(status: string): string
  {
    "STATUS#" + status
  }

  /** `Object.values(checklist)`: the ratings in key order. */
  function Ratings(c: Checklist): (r: seq<Rating>)
    ensures |r| == |c|
    ensures forall i :: 0 <= i < |c| ==> r[i] == c[i].rating
  {
    if c == [] then [] else [c[0].rating] + Ratings(c[1..])
  }

  /** A checklist is complete when it is present and none of its values is null. */
  predicate Complete(c: Option<Checklist>): (b: bool)
    ensures b <==> c.Some? && Unrated !in Ratings(c.value)
  {
    c.Some? && forall i :: 0 <= i < |c.value| ==> c.value[i].rating != Unrated
  }

  /** The invariant every writer of the table keeps for the item stored under `id`:
      its key attributes are derived from its identifier, status and creation time. */
  predicate WellFormed(id: string, rec: Inspection)
  {
    && rec.inspectionId == id
    && rec.pk == PrimaryKey(id)
    && rec.sk == SortKey
    && rec.gsi1pk == StatusKey(rec.status)
    && rec.gsi1sk == rec.createdAt
  }

  /** Every item of a table is well formed. */
  predicate AllWellFormed(items: map<string, Inspection>)
  {
    forall id | id in items :: WellFormed(id, items[id])
  }

  /** Storing a well-formed item keeps every item well formed. */
  lemma AllWellFormedPut(items: map<string, Inspection>, id: string, rec: Inspection)
    requires AllWellFormed(items) && WellFormed(id, rec)
    ensures AllWellFormed(items[id := rec])
  {
  }

  /** One `attribute = :value` clause of an update expression. */
  datatype Assignment =
    | SetUpdatedAt(at: Timestamp)
    | SetChecklist(checklist: Checklist)
    | SetNotes(notes: string)
    | SetImages(images: seq<ImageRef>)
    | SetClientName(name: string)
    | SetClientEmail(email: string)
    | SetStatus(status: string)
    | SetStatusKey(key: string)
    | SetReportGeneratedAt(at: Timestamp)

  /** The item after one SET clause: the named attribute takes the value, nothing else changes. */
  function Assign(rec: Inspection, a: Assignment): Inspection
  {
    match a
    case SetUpdatedAt(t) => rec.(updatedAt := t)
    case SetChecklist(c) => rec.(checklist := Some(c))
    case SetNotes(n) => rec.(notes := n)
    case SetImages(im) => rec.(images := Some(im))
    case SetClientName(n) => rec.(clientName := n)
    case SetClientEmail(e) => rec.(clientEmail := e)
    case SetStatus(s) => rec.(status := s)
    case SetStatusKey(k) => rec.(gsi1pk := k)
    case SetReportGeneratedAt(t) => rec.(reportGeneratedAt := Some(t))
  }

  /** The item after an update expression's SET clauses, left to right. */
  function ApplyAll(rec: Inspection, sets: seq<Assignment>): Inspection
    decreases |sets|
  {
    if sets == [] then rec else ApplyAll(Assign(rec, sets[0]), sets[1..])
  }

  /** The first clause of an update expression is applied first. */
  lemma ApplyAllCons(rec: Inspection, a: Assignment, rest: seq<Assignment>)
    ensures ApplyAll(rec, [a] + rest) == ApplyAll(Assign(rec, a), rest)
  {
    assert ([a] + rest)[1..] == rest;
  }

  /** Appending a clause to an update expression applies it after the others. */
  lemma {:induction false} ApplyAllAppend(rec: Inspection, sets: seq<Assignment>, a: Assignment)
    ensures ApplyAll(rec, sets + [a]) == Assign(ApplyAll(rec, sets), a)
    decreases |sets|
  {
    if sets == [] {
      assert [a][1..] == [];
    } else {
      assert (sets + [a])[1..] == sets[1..] + [a];
      ApplyAllAppend(Assign(rec, sets[0]), sets[1..], a);
    }
  }

  /** The inspection table, keyed by inspection identifier. */
  class Table {
    var items: map<string, Inspection>

    ghost predicate Valid()
      reads this
    {
      AllWellFormed(items)
    }

    constructor ()
      ensures items == map[]
      ensures Valid()
    {
      items := map[];
    }

    /** A put: stores `rec` under its identifier, replacing any item already there. */
    method Put(rec: Inspection)
      modifies this
      ensures items == old(items)[rec.inspectionId := rec]
    {
      items := items[rec.inspectionId := rec];
    }

    /** An update of an existing item with SET clauses, returning the new item. */
    method Update(id: string, sets: seq<Assignment>) returns (updated: Inspection)
      requires id in items
      modifies this
      ensures updated == ApplyAll(old(items)[id], sets)
      ensures items == old(items)[id := updated]
    {
      updated := ApplyAll(items[id], sets);
      items := items[id := updated];
    }
  }
}
