/** The inspection API: create, read, update and list inspection records in the
    shared table, and derive the object key and expiry of a presigned image URL. */
module InspectionApi {
  import opened Common
  import opened Store

  // ---------------------------------------------------------------------------
  // The record without its key attributes

  /** An inspection as the API returns it: the item without PK, SK, GSI1PK, GSI1SK. */
  datatype InspectionView = InspectionView(
    inspectionId: string,
    propertyAddress: string,
    inspectorName: string,
    inspectorEmail: string,
    clientName: string,
    clientEmail: string,
    status: string,
    createdAt: Timestamp,
    updatedAt: Timestamp,
    checklist: Option<Checklist>,
    notes: string,
    images: Option<seq<ImageRef>>,
    reportGeneratedAt: Option<Timestamp>)

  /** `({ PK, SK, GSI1PK, GSI1SK, ...rest }) => rest`. */
  function Strip(rec: Inspection): (v: InspectionView)
    ensures Restore(v) == rec <==> WellFormed(rec.inspectionId, rec)
  {
    InspectionView(rec.inspectionId, rec.propertyAddress, rec.inspectorName, rec.inspectorEmail,
                   rec.clientName, rec.clientEmail, rec.status, rec.createdAt, rec.updatedAt,
                   rec.checklist, rec.notes, rec.images, rec.reportGeneratedAt)
  }

  /** The item a view came from, with its key attributes derived again. */
  function Restore(v: InspectionView): (rec: Inspection)
    ensures WellFormed(v.inspectionId, rec)
  {
    Inspection(PrimaryKey(v.inspectionId), SortKey, StatusKey(v.status), v.createdAt,
               v.inspectionId, v.propertyAddress, v.inspectorName, v.inspectorEmail,
               v.clientName, v.clientEmail, v.status, v.createdAt, v.updatedAt,
               v.checklist, v.notes, v.images, v.reportGeneratedAt)
  }

  /** Stripping loses nothing but the key attributes, which a well-formed item
      derives from the rest. */
  lemma StripLosesOnlyKeys(id: string, rec: Inspection)
    requires WellFormed(id, rec)
    ensures Restore(Strip(rec)) == rec
  {
  }

  // ---------------------------------------------------------------------------
  // Create

  /** The fields of a create request body. `None` is a field the body does not carry
      (`undefined`); a JSON `null` behaves the same in every test the handler makes. */
  datatype CreateRequest = CreateRequest(
    propertyAddress: Option<string>,
    inspectorName: Option<string>,
    inspectorEmail: Option<string>,
    clientName: Option<string>,
    clientEmail: Option<string>)

  /** The summary a successful create answers with (HTTP 201). */
  datatype Created = Created(inspectionId: string, propertyAddress: string, inspectorName: string,
                             status: string, createdAt: Timestamp)

  const Categories: seq<string> := ["roof", "foundation", "plumbing", "electrical", "hvac"]

  predicate HasRequiredFields(req: CreateRequest)
  {
    Truthy(req.propertyAddress) && Truthy(req.inspectorName) && Truthy(req.inspectorEmail)
  }

  /** `insp_` followed by the first eight characters of a random UUID. */
  function InspectionIdFor(uuid: string): (id: string)
    ensures 5 <= |id| <= 13 && id[..5] == "insp_" && id[5..] == Take(uuid, 8)
  {
    "insp_" + Take(uuid, 8)
  }

  /** The checklist of a new inspection. */
  function EmptyChecklist(): (c: Checklist)
    ensures |c| == |Categories|
    ensures forall i :: 0 <= i < |c| ==> c[i] == ChecklistItem(Categories[i], Unrated)
  {
    seq(|Categories|, i requires 0 <= i < |Categories| => ChecklistItem(Categories[i], Unrated))
  }

  /** The item a create request stores. */
  function NewInspection(id: string, req: CreateRequest, now: Timestamp): (rec: Inspection)
    requires HasRequiredFields(req)
    ensures WellFormed(id, rec)
    ensures rec.status == Draft && rec.gsi1pk == "STATUS#DRAFT"
    ensures rec.createdAt == now && rec.updatedAt == now && rec.reportGeneratedAt == None
    ensures rec.checklist.Some? && |rec.checklist.value| == 5
    ensures forall i :: 0 <= i < 5 ==> rec.checklist.value[i] == ChecklistItem(Categories[i], Unrated)
    ensures !Complete(rec.checklist)
    ensures rec.notes == "" && rec.images == Some([])
    ensures rec.clientName == OrEmpty(req.clientName) && rec.clientEmail == OrEmpty(req.clientEmail)
  {
    var checklist := EmptyChecklist();
    assert checklist[0].rating == Unrated;
    Inspection(
      PrimaryKey(id), SortKey, StatusKey(Draft), now,
      id, req.propertyAddress.value, req.inspectorName.value, req.inspectorEmail.value,
      OrEmpty(req.clientName), OrEmpty(req.clientEmail),
      Draft, now, now, Some(checklist), "", Some([]), None)
  }

  /** POST /api/inspections. `uuid` and `now` are the random UUID and the clock reading. */
  method Create(t: Table, req: CreateRequest, uuid: string, now: Timestamp) returns (res: Result<Created>)
    requires t.Valid()
    modifies t
    ensures t.Valid()
    ensures !HasRequiredFields(req) ==> res == Err(Invalid(MissingCreateFields)) && t.items == old(t.items)
    ensures HasRequiredFields(req) ==>
      var id := InspectionIdFor(uuid);
      && t.items == old(t.items)[id := NewInspection(id, req, now)]
      && res == Ok(Created(id, req.propertyAddress.value, req.inspectorName.value, Draft, now))
  {
    if !Truthy(req.propertyAddress) || !Truthy(req.inspectorName) || !Truthy(req.inspectorEmail) {
      return Err(Invalid(MissingCreateFields));
    }
    var inspectionId := InspectionIdFor(uuid);
    var inspection := NewInspection(inspectionId, req, now);
    t.Put(inspection);
    res := Ok(Created(inspectionId, req.propertyAddress.value, req.inspectorName.value, Draft, now));
  }

  // ---------------------------------------------------------------------------
  // Read

  /** GET /api/inspections/:inspectionId. */
  method GetInspection(t: Table, inspectionId: string) returns (res: Result<InspectionView>)
    ensures inspectionId !in t.items <==> res == Err(NotFound)
    ensures inspectionId in t.items ==> res == Ok(Strip(t.items[inspectionId]))
    ensures t.Valid() && res.Ok? ==> Restore(res.value) == t.items[inspectionId]
  {
    if inspectionId !in t.items {
      return Err(NotFound);
    }
    if t.Valid() {
      StripLosesOnlyKeys(inspectionId, t.items[inspectionId]);
    }
    res := Ok(Strip(t.items[inspectionId]));
  }

  // ---------------------------------------------------------------------------
  // Update

  /** The fields of an update request body. `None` is a field the body does not
      carry (`undefined`); a JSON `null` is not represented. */
  datatype UpdateRequest = UpdateRequest(
    checklist: Option<Checklist>,
    notes: Option<string>,
    images: Option<seq<ImageRef>>,
    clientName: Option<string>,
    clientEmail: Option<string>,
    status: Option<string>)

  /** The merge an update performs, field by field. Any object or array is truthy,
      so a given checklist or image list always replaces the stored one; notes are
      replaced whenever given, even by ""; client fields and status only by a
      non-empty string. A new status brings its index key along. */
  function Merged(rec: Inspection, req: UpdateRequest, now: Timestamp): (r: Inspection)
    ensures r.updatedAt == now
    ensures rec.gsi1pk == StatusKey(rec.status) ==> r.gsi1pk == StatusKey(r.status)
    ensures r.(updatedAt := rec.updatedAt, checklist := rec.checklist, notes := rec.notes,
               images := rec.images, clientName := rec.clientName, clientEmail := rec.clientEmail,
               status := rec.status, gsi1pk := rec.gsi1pk) == rec
  {
    rec.(
      updatedAt := now,
      checklist := if req.checklist.Some? then req.checklist else rec.checklist,
      notes := if req.notes.Some? then req.notes.value else rec.notes,
      images := if req.images.Some? then req.images else rec.images,
      clientName := if Truthy(req.clientName) then req.clientName.value else rec.clientName,
      clientEmail := if Truthy(req.clientEmail) then req.clientEmail.value else rec.clientEmail,
      status := if Truthy(req.status) then req.status.value else rec.status,
      gsi1pk := if Truthy(req.status) then StatusKey(req.status.value) else rec.gsi1pk)
  }

  /** An update keeps the status-index key in sync with the status. */
  lemma MergedKeepsWellFormed(id: string, rec: Inspection, req: UpdateRequest, now: Timestamp)
    requires WellFormed(id, rec)
    ensures WellFormed(id, Merged(rec, req, now))
  {
  }

  /** Sending the same update twice at the same instant stores the same record. */
  lemma MergedIsIdempotent(rec: Inspection, req: UpdateRequest, now: Timestamp)
    ensures Merged(Merged(rec, req, now), req, now) == Merged(rec, req, now)
  {
  }

  /** `notes: ""` clears the notes, `clientName: ""` leaves the client name. */
  lemma EmptyNotesClearEmptyNameKeeps(rec: Inspection, now: Timestamp)
    requires rec.notes != "" && rec.clientName != ""
    ensures var req := UpdateRequest(None, Some(""), None, Some(""), None, None);
            Merged(rec, req, now).notes == "" && Merged(rec, req, now).clientName == rec.clientName
  {
  }

  /** The SET clauses of an update expression, appended one by one as the request
      body is inspected; applied to any stored item they perform the merge. */
  method UpdateClauses(ghost rec: Inspection, req: UpdateRequest, now: Timestamp) returns (sets: seq<Assignment>)
    ensures ApplyAll(rec, sets) == Merged(rec, req, now)
  {
    sets := [SetUpdatedAt(now)];
    ghost var expected := rec.(updatedAt := now);
    ApplyAllCons(rec, SetUpdatedAt(now), []);
    assert ApplyAll(rec, sets) == expected;
    if req.checklist.Some? {
      ApplyAllAppend(rec, sets, SetChecklist(req.checklist.value));
      sets := sets + [SetChecklist(req.checklist.value)];
      expected := expected.(checklist := req.checklist);
      assert ApplyAll(rec, sets) == expected;
    }
    if req.notes.Some? {
      ApplyAllAppend(rec, sets, SetNotes(req.notes.value));
      sets := sets + [SetNotes(req.notes.value)];
      expected := expected.(notes := req.notes.value);
      assert ApplyAll(rec, sets) == expected;
    }
    if req.images.Some? {
      ApplyAllAppend(rec, sets, SetImages(req.images.value));
      sets := sets + [SetImages(req.images.value)];
      expected := expected.(images := req.images);
      assert ApplyAll(rec, sets) == expected;
    }
    if Truthy(req.clientName) {
      ApplyAllAppend(rec, sets, SetClientName(req.clientName.value));
      sets := sets + [SetClientName(req.clientName.value)];
      expected := expected.(clientName := req.clientName.value);
      assert ApplyAll(rec, sets) == expected;
    }
    if Truthy(req.clientEmail) {
      ApplyAllAppend(rec, sets, SetClientEmail(req.clientEmail.value));
      sets := sets + [SetClientEmail(req.clientEmail.value)];
      expected := expected.(clientEmail := req.clientEmail.value);
      assert ApplyAll(rec, sets) == expected;
    }
    if Truthy(req.status) {
      ApplyAllAppend(rec, sets, SetStatus(req.status.value));
      sets := sets + [SetStatus(req.status.value)];
      ApplyAllAppend(rec, sets, SetStatusKey(StatusKey(req.status.value)));
      sets := sets + [SetStatusKey(StatusKey(req.status.value))];
      expected := expected.(status := req.status.value, gsi1pk := StatusKey(req.status.value));
      assert ApplyAll(rec, sets) == expected;
    }
  }

  /** PUT /api/inspections/:inspectionId: the item is updated with the request's
      SET clauses and returned without its keys. */
  method Update(t: Table, inspectionId: string, req: UpdateRequest, now: Timestamp)
    returns (res: Result<InspectionView>)
    requires t.Valid()
    modifies t
    ensures t.Valid()
    ensures inspectionId !in old(t.items) ==> res == Err(NotFound) && t.items == old(t.items)
    ensures inspectionId in old(t.items) ==>
      && t.items == old(t.items)[inspectionId := Merged(old(t.items)[inspectionId], req, now)]
      && res == Ok(Strip(t.items[inspectionId]))
  {
    if inspectionId !in t.items {
      return Err(NotFound);
    }
    ghost var rec := t.items[inspectionId];
    var sets := UpdateClauses(rec, req, now);
    MergedKeepsWellFormed(inspectionId, rec, req, now);
    AllWellFormedPut(t.items, inspectionId, Merged(rec, req, now));
    var updated := t.Update(inspectionId, sets);
    res := Ok(Strip(updated));
  }

  // ---------------------------------------------------------------------------
  // List

  datatype ListResponse = ListResponse(count: nat, inspections: seq<InspectionView>)

  function StripAll(items: seq<Inspection>): (vs: seq<InspectionView>)
    ensures |vs| == |items|
    ensures forall i :: 0 <= i < |items| ==> vs[i] == Strip(items[i])
  {
    if items == [] then [] else [Strip(items[0])] + StripAll(items[1..])
  }

  /** Newest first: `createdAt` never increases along the sequence. */
  predicate NewestFirst(vs: seq<InspectionView>)
  {
    forall i, j :: 0 <= i < j < |vs| ==> vs[i].createdAt >= vs[j].createdAt
  }

  predicate AdjacentNewestFirst(vs: seq<InspectionView>)
  {
    forall i :: 0 <= i < |vs| - 1 ==> vs[i].createdAt >= vs[i + 1].createdAt
  }

  lemma {:induction false} AdjacentIsNewestFirst(vs: seq<InspectionView>)
    requires AdjacentNewestFirst(vs)
    ensures NewestFirst(vs)
    decreases |vs|
  {
    if |vs| > 1 {
      AdjacentIsNewestFirst(vs[1..]);
      forall j | 1 <= j < |vs|
        ensures vs[0].createdAt >= vs[j].createdAt
      {
        assert vs[1..][0] == vs[1] && vs[1..][j - 1] == vs[j];
      }
    }
  }

  /** Places `x` before the first element that is not newer than it. */
  function InsertNewestFirst(x: InspectionView, vs: seq<InspectionView>): (r: seq<InspectionView>)
    ensures multiset(r) == multiset(vs) + multiset{x}
    ensures |r| == |vs| + 1
    ensures r[0] == x || (vs != [] && r[0] == vs[0])
  {
    if vs == [] || vs[0].createdAt <= x.createdAt then [x] + vs
    else
      assert vs == [vs[0]] + vs[1..];
      [vs[0]] + InsertNewestFirst(x, vs[1..])
  }

  /** Inserting into a list that is newest first keeps it newest first. */
  lemma {:induction false} InsertKeepsOrder(x: InspectionView, vs: seq<InspectionView>)
    requires AdjacentNewestFirst(vs)
    ensures AdjacentNewestFirst(InsertNewestFirst(x, vs))
    decreases |vs|
  {
    if vs == [] || vs[0].createdAt <= x.createdAt {
      var r := [x] + vs;
      assert r == InsertNewestFirst(x, vs);
      forall i | 0 <= i < |r| - 1
        ensures r[i].createdAt >= r[i + 1].createdAt
      {
        if i > 0 {
          assert r[i] == vs[i - 1] && r[i + 1] == vs[i];
        }
      }
    } else {
      var tail := vs[1..];
      forall i | 0 <= i < |tail| - 1
        ensures tail[i].createdAt >= tail[i + 1].createdAt
      {
        assert tail[i] == vs[i + 1] && tail[i + 1] == vs[i + 2];
      }
      InsertKeepsOrder(x, tail);
      var rest := InsertNewestFirst(x, tail);
      var r := [vs[0]] + rest;
      assert r == InsertNewestFirst(x, vs);
      forall i | 0 <= i < |r| - 1
        ensures r[i].createdAt >= r[i + 1].createdAt
      {
        if i > 0 {
          assert r[i] == rest[i - 1] && r[i + 1] == rest[i];
        } else {
          assert r[1] == rest[0];
          assert rest[0] == x || rest[0] == vs[1];
        }
      }
    }
  }

  /** `sort((a, b) => new Date(b.createdAt) - new Date(a.createdAt))`: a stable
      sort, newest first. */
  function SortNewestFirst(vs: seq<InspectionView>): (r: seq<InspectionView>)
    ensures multiset(r) == multiset(vs)
    ensures AdjacentNewestFirst(r)
    ensures NewestFirst(r)
  {
    if vs == [] then []
    else
      assert vs == [vs[0]] + vs[1..];
      var sorted := InsertNewestFirst(vs[0], SortNewestFirst(vs[1..]));
      InsertKeepsOrder(vs[0], SortNewestFirst(vs[1..]));
      AdjacentIsNewestFirst(sorted);
      sorted
  }

  /** The elements created at instant `at`, in order. */
  function CreatedAt(vs: seq<InspectionView>, at: Timestamp): seq<InspectionView>
  {
    if vs == [] then []
    else (if vs[0].createdAt == at then [vs[0]] else []) + CreatedAt(vs[1..], at)
  }

  lemma CreatedAtCons(y: InspectionView, ws: seq<InspectionView>, at: Timestamp)
    ensures CreatedAt([y] + ws, at) == (if y.createdAt == at then [y] else []) + CreatedAt(ws, at)
  {
    assert ([y] + ws)[1..] == ws;
  }

  /** Two inspections, at most one of them created at `at`, contribute the same
      ties in either order. */
  lemma TiesCommute(a: InspectionView, b: InspectionView, tail: seq<InspectionView>, at: Timestamp)
    requires !(a.createdAt == at && b.createdAt == at)
    ensures (if a.createdAt == at then [a] else []) + ((if b.createdAt == at then [b] else []) + tail)
         == (if b.createdAt == at then [b] else []) + ((if a.createdAt == at then [a] else []) + tail)
  {
  }

  lemma {:induction false} InsertKeepsTies(x: InspectionView, vs: seq<InspectionView>, at: Timestamp)
    ensures CreatedAt(InsertNewestFirst(x, vs), at) == (if x.createdAt == at then [x] else []) + CreatedAt(vs, at)
    decreases |vs|
  {
    if vs == [] || vs[0].createdAt <= x.createdAt {
      CreatedAtCons(x, vs, at);
    } else {
      var rest := InsertNewestFirst(x, vs[1..]);
      assert InsertNewestFirst(x, vs) == [vs[0]] + rest;
      CreatedAtCons(vs[0], rest, at);
      InsertKeepsTies(x, vs[1..], at);
      assert vs == [vs[0]] + vs[1..];
      CreatedAtCons(vs[0], vs[1..], at);
      TiesCommute(vs[0], x, CreatedAt(vs[1..], at), at);
    }
  }

  /** The sort is stable: inspections created at the same instant keep their relative order. */
  lemma {:induction false} SortIsStable(vs: seq<InspectionView>, at: Timestamp)
    ensures CreatedAt(SortNewestFirst(vs), at) == CreatedAt(vs, at)
    decreases |vs|
  {
    if vs != [] {
      SortIsStable(vs[1..], at);
      InsertKeepsTies(vs[0], SortNewestFirst(vs[1..]), at);
    }
  }

  /** GET /api/inspections. `storeItems` is what the query (status given) or the
      scan (no status) returned, in the store's order. */
  function ListInspections(storeItems: Option<seq<Inspection>>, status: Option<string>): (r: ListResponse)
    ensures r.count == |r.inspections|
    ensures multiset(r.inspections) == multiset(StripAll(if storeItems.Some? then storeItems.value else []))
    ensures Truthy(status) ==> r.inspections == StripAll(if storeItems.Some? then storeItems.value else [])
    ensures !Truthy(status) ==> NewestFirst(r.inspections)
    ensures !Truthy(status) ==> r.inspections == SortNewestFirst(StripAll(if storeItems.Some? then storeItems.value else []))
  {
    var inspections := StripAll(if storeItems.Some? then storeItems.value else []);
    var listed := if Truthy(status) then inspections else SortNewestFirst(inspections);
    ListResponse(|listed|, listed)
  }

  /** Without a status filter, inspections created at the same instant are listed
      in the order the scan returned them. */
  lemma ListKeepsTies(storeItems: Option<seq<Inspection>>, status: Option<string>, at: Timestamp)
    requires !Truthy(status)
    ensures CreatedAt(ListInspections(storeItems, status).inspections, at)
         == CreatedAt(StripAll(if storeItems.Some? then storeItems.value else []), at)
  {
    SortIsStable(StripAll(if storeItems.Some? then storeItems.value else []), at);
  }

  // ---------------------------------------------------------------------------
  // Presigned URL keys

  /** `s.split(sep)`. */
  function Split(s: string, sep: char): (parts: seq<string>)
    ensures |parts| > 0
    ensures sep !in s ==> parts == [s]
    ensures sep in s ==> |parts| > 1
  {
    if s == [] then [""]
    else
      var rest := Split(s[1..], sep);
      if s[0] == sep then [""] + rest
      else
        assert s == [s[0]] + s[1..];
        [[s[0]] + rest[0]] + rest[1..]
  }

  function Last<T>(xs: seq<T>): T
    requires |xs| > 0
  {
    xs[|xs| - 1]
  }

  /** `fileName.split(".").pop()`. */
  function Extension(fileName: string): (ext: string)
    ensures '.' !in fileName ==> ext == fileName
  {
    Last(Split(fileName, '.'))
  }

  /** The extension is the text after the last dot, or the whole name when there is none. */
  lemma {:induction false} ExtensionAfterLastDot(s: string)
    ensures '.' !in Extension(s)
    ensures EndsWith(s, Extension(s))
    ensures '.' !in s ==> Extension(s) == s
    ensures '.' in s ==> |Extension(s)| < |s| && s[|s| - |Extension(s)| - 1] == '.'
    decreases |s|
  {
    if s != [] {
      var e := Extension(s);
      var rest := Split(s[1..], '.');
      ExtensionAfterLastDot(s[1..]);
      if s[0] == '.' {
        assert Split(s, '.') == [""] + rest;
        assert e == Extension(s[1..]);
      } else if '.' in s[1..] {
        assert Split(s, '.') == [[s[0]] + rest[0]] + rest[1..];
        assert e == Extension(s[1..]);
      } else {
        assert s == [s[0]] + s[1..];
      }
    }
  }

  /** A name ending in "." and a dot-free extension has that extension. */
  lemma {:induction false} ExtensionOfDottedName(prefix: string, ext: string)
    requires '.' !in ext
    ensures Extension(prefix + "." + ext) == ext
    decreases |prefix|
  {
    var s := prefix + "." + ext;
    if prefix == [] {
      assert s == "." + ext && s[1..] == ext;
    } else {
      assert s[1..] == prefix[1..] + "." + ext;
      ExtensionOfDottedName(prefix[1..], ext);
      assert '.' in s[1..] by {
        assert s[1..][|prefix| - 1] == '.';
      }
    }
  }

  /** The object key of an image. */
  function ObjectKey(inspectionId: string, imageId: string, ext: string): (key: string)
    ensures |key| >= 12 && key[..12] == "inspections/"
  {
    "inspections/" + inspectionId + "/" + imageId + "." + ext
  }

  /** The stored object keeps the uploaded file's extension. */
  lemma KeyKeepsExtension(inspectionId: string, imageId: string, fileName: string)
    ensures Extension(ObjectKey(inspectionId, imageId, Extension(fileName))) == Extension(fileName)
  {
    ExtensionAfterLastDot(fileName);
    ExtensionOfDottedName("inspections/" + inspectionId + "/" + imageId, Extension(fileName));
  }

  /** The fields of a presigned-URL request body. `None` is a field the body does not
      carry (`undefined`); a JSON `null` behaves the same in every test the handler makes. */
  datatype PresignRequest = PresignRequest(
    inspectionId: Option<string>,
    fileName: Option<string>,
    contentType: Option<string>,
    operation: Option<string>,
    s3Key: Option<string>)

  /** What the URL authorises: a put with a content type, or a get. */
  datatype Access = Upload(contentType: string) | Download

  /** The answer to a presigned-URL request: the access and the key the URL is signed
      for, and the derived key, image id and expiry returned beside the URL. */
  datatype Grant = Grant(access: Access, signedKey: string, s3Key: string, imageId: string, expiresIn: nat)

  /** POST /api/presigned-url, up to the signing. `uuid` is the random UUID. */
  function Presign(req: PresignRequest, uuid: string): (r: Result<Grant>)
    ensures r.Err? <==> !Truthy(req.inspectionId) || !Truthy(req.fileName)
    ensures r.Err? ==> r.failure == Invalid(MissingPresignFields)
    ensures r.Ok? ==>
      && r.value.imageId == "img_" + Take(uuid, 8)
      && r.value.s3Key == ObjectKey(req.inspectionId.value, r.value.imageId, Extension(req.fileName.value))
      && r.value.expiresIn == (if req.operation == Some("download") then 3600 else 300)
      && (r.value.access == Download <==> req.operation == Some("download"))
    ensures r.Ok? && r.value.access.Upload? ==>
      && r.value.signedKey == r.value.s3Key
      && r.value.access.contentType == (if Truthy(req.contentType) then req.contentType.value else "image/jpeg")
    ensures r.Ok? && r.value.access == Download ==>
      r.value.signedKey == (if Truthy(req.s3Key) then req.s3Key.value else r.value.s3Key)
  {
    if !Truthy(req.inspectionId) || !Truthy(req.fileName) then Err(Invalid(MissingPresignFields))
    else
      var imageId := "img_" + Take(uuid, 8);
      var s3Key := ObjectKey(req.inspectionId.value, imageId, Extension(req.fileName.value));
      if req.operation == Some("download") then
        Ok(Grant(Download, if Truthy(req.s3Key) then req.s3Key.value else s3Key, s3Key, imageId, 3600))
      else
        var contentType := if Truthy(req.contentType) then req.contentType.value else "image/jpeg";
        Ok(Grant(Upload(contentType), s3Key, s3Key, imageId, 300))
  }
}
