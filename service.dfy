/** The salary routes: the record store they share and the eight handlers
    (`list`, `getOne`, `create`, `update`, `remove`, `listDocs`, `uploadDocs`,
    `deleteDoc`) as methods that change it. */
module SalaryService {
  import opened SalaryTypes
  import opened Validation
  import opened AccessPolicy
  import opened FileIntake

  predicate Distinct(ids: seq<string>) {
    forall i, j :: 0 <= i < j < |ids| ==> ids[i] != ids[j]
  }

  /** `ids` without `x`, in the same order. */
  function Without(ids: seq<string>, x: string): (r: seq<string>)
    ensures forall y :: y in r <==> y in ids && y != x
    ensures Distinct(ids) ==> Distinct(r)
  {
    if ids == [] then []
    else if ids[0] == x then Without(ids[1..], x)
    else
      var rest := Without(ids[1..], x);
      assert Distinct(ids) ==> ids[0] !in ids[1..];
      [ids[0]] + rest
  }

  /** Removing an id keeps the order of the rest: removing from a
      concatenation concatenates the parts with it removed. */
  lemma {:induction false} WithoutAppend(a: seq<string>, b: seq<string>, x: string)
    ensures Without(a + b, x) == Without(a, x) + Without(b, x)
  {
    if a == [] {
      assert a + b == b;
    } else {
      assert (a + b)[1..] == a[1..] + b;
      WithoutAppend(a[1..], b, x);
    }
  }

  /** The records of `m` listed in the order of `ids`. */
  function InOrder(ids: seq<string>, m: map<string, SalaryRecord>): (r: seq<SalaryRecord>)
    requires forall k :: k in ids ==> k in m
    ensures |r| == |ids| && forall i :: 0 <= i < |ids| ==> r[i] == m[ids[i]]
  {
    seq(|ids|, i requires 0 <= i < |ids| => m[ids[i]])
  }

  /** When `ids` lists exactly the keys of `m`, and each record is stored under
      its own id, the listing holds every record and nothing else. */
  lemma InOrderMembers(ids: seq<string>, m: map<string, SalaryRecord>)
    requires forall k :: k in ids <==> k in m
    requires forall k :: k in m ==> m[k].id == k
    ensures forall r :: r in InOrder(ids, m) ==> r.id in m && m[r.id] == r
    ensures forall k :: k in m ==> m[k] in InOrder(ids, m)
  {
  }

  /** The documents of one salary without those whose id is `docId`, in the same order. */
  function WithoutDocument(docs: seq<SalaryDocument>, docId: string): (r: seq<SalaryDocument>)
    ensures |r| <= |docs|
    ensures forall d :: d in r <==> d in docs && d.id != docId
  {
    if docs == [] then []
    else if docs[0].id == docId then WithoutDocument(docs[1..], docId)
    else [docs[0]] + WithoutDocument(docs[1..], docId)
  }

  /** Deleting a document keeps the order of the others. */
  lemma {:induction false} WithoutDocumentAppend(a: seq<SalaryDocument>, b: seq<SalaryDocument>, docId: string)
    ensures WithoutDocument(a + b, docId) == WithoutDocument(a, docId) + WithoutDocument(b, docId)
  {
    if a == [] {
      assert a + b == b;
    } else {
      assert (a + b)[1..] == a[1..] + b;
      WithoutDocumentAppend(a[1..], b, docId);
    }
  }

  /** The metadata `uploadDocs` records for one stored file. */
  function NewDocument(salaryId: string, f: StoredFile, docId: string, now: string): (d: SalaryDocument)
    ensures d.salaryId == salaryId && d.url == BuildDocUrl(f.filename)
    ensures d.id == docId && d.createdAt == now
    ensures d.originalName == f.originalname && d.filename == f.filename
    ensures d.mimeType == f.mimetype && d.size == f.size
  {
    SalaryDocument(docId, salaryId, f.originalname, f.filename, f.mimetype, f.size, BuildDocUrl(f.filename), now)
  }

  /** One document per stored file, in file order, each with its own drawn id and timestamp. */
  function NewDocuments(salaryId: string, files: seq<StoredFile>, docIds: seq<string>, stamps: seq<string>)
    : (r: seq<SalaryDocument>)
    requires |docIds| == |files| && |stamps| == |files|
    ensures |r| == |files|
    ensures forall i :: 0 <= i < |files| ==> r[i] == NewDocument(salaryId, files[i], docIds[i], stamps[i])
  {
    seq(|files|, i requires 0 <= i < |files| => NewDocument(salaryId, files[i], docIds[i], stamps[i]))
  }

  /** Every document of an upload belongs to the salary and is served from
      `/uploads/` under its stored filename. */
  lemma NewDocumentsBelong(salaryId: string, files: seq<StoredFile>, docIds: seq<string>, stamps: seq<string>, i: nat)
    requires |docIds| == |files| && |stamps| == |files| && i < |files|
    ensures var d := NewDocuments(salaryId, files, docIds, stamps)[i];
      d.salaryId == salaryId && d.filename == files[i].filename && d.url == "/uploads/" + files[i].filename
  {
  }

  /** What `POST /salaries/:id/documents` ends in: the upload middleware
      rejected the request before the handler ran, or the handler answered. */
  datatype UploadOutcome =
    | Rejected(error: IntakeError)
    | Handled(status: int, items: seq<SalaryDocument>)

  /** The store behind the salary routes: salary records by id, the order in
      which the store lists them, and each salary's documents. */
  class SalaryStore {
    var records: map<string, SalaryRecord>
    var order: seq<string>
    var documents: map<string, seq<SalaryDocument>>

    ghost predicate Valid()
      reads this
    {
      && Distinct(order)
      && (forall id :: id in records <==> id in order)
      && (forall id :: id in records ==> records[id].id == id && RecordWellFormed(records[id]))
      && (forall sid :: sid in documents ==> forall d :: d in documents[sid] ==> d.salaryId == sid)
    }

    constructor ()
      ensures Valid()
      ensures records == map[] && order == [] && documents == map[]
    {
      records, order, documents := map[], [], map[];
    }

    /** `db.getSalaries()` */
    function Salaries(): seq<SalaryRecord>
      reads this
      requires Valid()
    {
      InOrder(order, records)
    }

    /** `db.getDocumentsForSalary(salaryId)` */
    function DocumentsFor(salaryId: string): seq<SalaryDocument>
      reads this
    {
      if salaryId in documents then documents[salaryId] else []
    }

    // The store's writes.

    /** `db.upsertSalary(record)`: replaces a record in place, or appends a new one. */
    method UpsertSalary(record: SalaryRecord)
      requires Valid() && RecordWellFormed(record)
      modifies this
      ensures Valid()
      ensures records == old(records)[record.id := record]
      ensures order == if record.id in old(records) then old(order) else old(order) + [record.id]
      ensures documents == old(documents)
    {
      if record.id !in records {
        order := order + [record.id];
      }
      records := records[record.id := record];
    }

    /** `db.deleteSalary(id)`: the documents stay. */
    method DeleteSalary(id: string)
      requires Valid()
      modifies this
      ensures Valid()
      ensures records == old(records) - {id}
      ensures order == Without(old(order), id)
      ensures documents == old(documents)
    {
      records := records - {id};
      order := Without(order, id);
    }

    /** `db.addDocument(doc)`: appends to the salary's documents. */
    method AddDocument(doc: SalaryDocument)
      requires Valid()
      modifies this
      ensures Valid()
      ensures records == old(records) && order == old(order)
      ensures documents == old(documents)[doc.salaryId := old(DocumentsFor(doc.salaryId)) + [doc]]
    {
      documents := documents[doc.salaryId := DocumentsFor(doc.salaryId) + [doc]];
    }

    /** `db.deleteDocument(salaryId, docId)` */
    method DeleteDocument(salaryId: string, docId: string)
      requires Valid()
      modifies this
      ensures Valid()
      ensures records == old(records) && order == old(order)
      ensures documents == if salaryId in old(documents)
        then old(documents)[salaryId := WithoutDocument(old(documents)[salaryId], docId)]
        else old(documents)
    {
      if salaryId in documents {
        documents := documents[salaryId := WithoutDocument(documents[salaryId], docId)];
      }
    }

    // The handlers.

    /** `GET /salaries`: everything for an admin, otherwise the caller's own
        records, in store order. */
    method List(caller: Caller) returns (status: int, items: seq<SalaryRecord>)
      requires Valid()
      ensures status == STATUS_OK
      ensures items == Visible(caller, Salaries())
      ensures forall r :: r in items ==> r.id in records && records[r.id] == r && CanAccess(caller, r.userId)
      ensures forall id :: id in records && CanAccess(caller, records[id].userId) ==> records[id] in items
    {
      var all := Salaries();
      InOrderMembers(order, records);
      var role := EffectiveRole(caller);
      var userId := EffectiveUserId(caller);
      items := if role == "admin" then all else OwnedBy(all, userId);
      status := STATUS_OK;
    }

    /** `GET /salaries/:id`: 404 before 403; the owner or an admin gets the
        record with its documents. */
    method GetOne(caller: Caller, id: string) returns (status: int, full: Option<SalaryWithDocs>)
      ensures id !in records ==> status == STATUS_NOT_FOUND && full.None?
      ensures id in records && !CanAccess(caller, records[id].userId) ==> status == STATUS_FORBIDDEN && full.None?
      ensures id in records && CanAccess(caller, records[id].userId)
        ==> status == STATUS_OK && full == Some(SalaryWithDocs(records[id], DocumentsFor(id)))
    {
      if id !in records {
        return STATUS_NOT_FOUND, None;
      }
      var record := records[id];
      if EffectiveRole(caller) != "admin" && record.userId != EffectiveUserId(caller) {
        return STATUS_FORBIDDEN, None;
      }
      status, full := STATUS_OK, Some(SalaryWithDocs(record, DocumentsFor(id)));
    }

    /** `POST /salaries`: any caller; the owner is the body's `userId`. */
    method Create(body: Json, freshId: string, now: string) returns (status: int, created: Option<SalaryRecord>)
      requires Valid()
      modifies this
      ensures Valid()
      ensures ParseCreate(body).None? ==> status == STATUS_BAD_REQUEST && created.None? && unchanged(this)
      ensures ParseCreate(body).Some? ==>
        var record := NewRecord(ParseCreate(body).value, freshId, now);
        && status == STATUS_CREATED && created == Some(record)
        && records == old(records)[freshId := record]
        && order == (if freshId in old(records) then old(order) else old(order) + [freshId])
        && documents == old(documents)
    {
      var parsed := ParseCreate(body);
      if parsed.None? {
        return STATUS_BAD_REQUEST, None;
      }
      var record := NewRecord(parsed.value, freshId, now);
      UpsertSalary(record);
      status, created := STATUS_CREATED, Some(record);
    }

    /** `PUT /salaries/:id`, behind the admin gate: 404 before validation, then
        the merged record with a new `updatedAt`. */
    method Update(caller: Caller, id: string, body: Json, now: string) returns (status: int, updated: Option<SalaryRecord>)
      requires Valid() && IsAdmin(caller)
      modifies this
      ensures Valid()
      ensures id !in old(records) ==> status == STATUS_NOT_FOUND && updated.None? && unchanged(this)
      ensures id in old(records) && ParseUpdate(body).None?
        ==> status == STATUS_BAD_REQUEST && updated.None? && unchanged(this)
      ensures id in old(records) && ParseUpdate(body).Some? ==>
        var merged := Merge(old(records)[id], ParseUpdate(body).value, now);
        && status == STATUS_OK && updated == Some(merged)
        && records == old(records)[id := merged]
        && order == old(order) && documents == old(documents)
    {
      if id !in records {
        return STATUS_NOT_FOUND, None;
      }
      var record := records[id];
      var parsed := ParseUpdate(body);
      if parsed.None? {
        return STATUS_BAD_REQUEST, None;
      }
      var merged := Merge(record, parsed.value, now);
      MergeKeepsWellFormed(record, parsed.value, now);
      UpsertSalary(merged);
      status, updated := STATUS_OK, Some(merged);
    }

    /** `DELETE /salaries/:id`, behind the admin gate: removes that record only. */
    method Remove(caller: Caller, id: string) returns (status: int)
      requires Valid() && IsAdmin(caller)
      modifies this
      ensures Valid()
      ensures id !in old(records) ==> status == STATUS_NOT_FOUND && unchanged(this)
      ensures id in old(records) ==>
        && status == STATUS_NO_CONTENT
        && records == old(records) - {id}
        && order == Without(old(order), id)
        && documents == old(documents)
    {
      if id !in records {
        return STATUS_NOT_FOUND;
      }
      DeleteSalary(id);
      status := STATUS_NO_CONTENT;
    }

    /** `GET /salaries/:id/documents`: the same gate as `GetOne`. */
    method ListDocs(caller: Caller, id: string) returns (status: int, items: seq<SalaryDocument>)
      ensures id !in records ==> status == STATUS_NOT_FOUND && items == []
      ensures id in records && !CanAccess(caller, records[id].userId) ==> status == STATUS_FORBIDDEN && items == []
      ensures id in records && CanAccess(caller, records[id].userId) ==> status == STATUS_OK && items == DocumentsFor(id)
    {
      if id !in records {
        return STATUS_NOT_FOUND, [];
      }
      var record := records[id];
      if EffectiveRole(caller) != "admin" && record.userId != EffectiveUserId(caller) {
        return STATUS_FORBIDDEN, [];
      }
      status, items := STATUS_OK, DocumentsFor(id);
    }

    /** The loop of `uploadDocs`: one `db.addDocument` per stored file, in file
        order, each document with its own drawn id and timestamp. */
    method AddDocuments(id: string, files: seq<StoredFile>, docIds: seq<string>, stamps: seq<string>)
      requires Valid() && |files| > 0 && |docIds| == |files| && |stamps| == |files|
      modifies this
      ensures Valid()
      ensures records == old(records) && order == old(order)
      ensures documents == old(documents)[id := old(DocumentsFor(id)) + NewDocuments(id, files, docIds, stamps)]
    {
      var i := 0;
      ghost var added: seq<SalaryDocument> := [];
      while i < |files|
        invariant 0 <= i <= |files|
        invariant Valid()
        invariant records == old(records) && order == old(order)
        invariant |added| == i
        invariant forall k :: 0 <= k < i ==> added[k] == NewDocument(id, files[k], docIds[k], stamps[k])
        invariant i == 0 ==> documents == old(documents)
        invariant i > 0 ==> documents == old(documents)[id := old(DocumentsFor(id)) + added]
      {
        var doc := NewDocument(id, files[i], docIds[i], stamps[i]);
        assert DocumentsFor(id) == old(DocumentsFor(id)) + added;
        AddDocument(doc);
        assert old(DocumentsFor(id)) + added + [doc] == old(DocumentsFor(id)) + (added + [doc]);
        added := added + [doc];
        i := i + 1;
      }
      assert added == NewDocuments(id, files, docIds, stamps);
    }

    /** `uploadDocs`: the same gate as `GetOne`, then 400 without files, then
        one document per stored file, appended in file order. */
    method UploadDocs(caller: Caller, id: string, files: seq<StoredFile>, docIds: seq<string>, stamps: seq<string>)
      returns (status: int, items: seq<SalaryDocument>)
      requires Valid() && |docIds| == |files| && |stamps| == |files|
      modifies this
      ensures Valid()
      ensures records == old(records) && order == old(order)
      ensures id !in records ==> status == STATUS_NOT_FOUND && items == [] && documents == old(documents)
      ensures id in records && !CanAccess(caller, records[id].userId)
        ==> status == STATUS_FORBIDDEN && items == [] && documents == old(documents)
      ensures id in records && CanAccess(caller, records[id].userId) && files == []
        ==> status == STATUS_BAD_REQUEST && items == [] && documents == old(documents)
      ensures id in records && CanAccess(caller, records[id].userId) && files != [] ==>
        && status == STATUS_CREATED
        && documents == old(documents)[id := old(DocumentsFor(id)) + NewDocuments(id, files, docIds, stamps)]
        && items == DocumentsFor(id)
    {
      if id !in records {
        return STATUS_NOT_FOUND, [];
      }
      var record := records[id];
      if EffectiveRole(caller) != "admin" && record.userId != EffectiveUserId(caller) {
        return STATUS_FORBIDDEN, [];
      }
      if |files| == 0 {
        return STATUS_BAD_REQUEST, [];
      }
      AddDocuments(id, files, docIds, stamps);
      status, items := STATUS_CREATED, DocumentsFor(id);
    }

    /** `POST /salaries/:id/documents`: the upload middleware runs first, on
        every request, and a rejection leaves the store untouched; otherwise
        `uploadDocs` sees the stored files. */
    method PostDocuments(caller: Caller, id: string, incoming: seq<IncomingFile>, nameIds: seq<string>,
                         table: map<string, string>, docIds: seq<string>, stamps: seq<string>)
      returns (outcome: UploadOutcome)
      requires Valid()
      requires |nameIds| == |incoming| && |docIds| == |incoming| && |stamps| == |incoming|
      modifies this
      ensures Valid()
      ensures records == old(records) && order == old(order)
      ensures Intake(incoming, nameIds, table).Err?
        ==> outcome == Rejected(Intake(incoming, nameIds, table).error) && documents == old(documents)
      ensures Intake(incoming, nameIds, table).Ok? && id !in records
        ==> outcome == Handled(STATUS_NOT_FOUND, []) && documents == old(documents)
      ensures Intake(incoming, nameIds, table).Ok? && id in records && !CanAccess(caller, records[id].userId)
        ==> outcome == Handled(STATUS_FORBIDDEN, []) && documents == old(documents)
      ensures Intake(incoming, nameIds, table).Ok? && id in records && CanAccess(caller, records[id].userId)
              && incoming == []
        ==> outcome == Handled(STATUS_BAD_REQUEST, []) && documents == old(documents)
      ensures Intake(incoming, nameIds, table).Ok? && id in records && CanAccess(caller, records[id].userId)
              && incoming != [] ==>
        && documents == old(documents)[id := old(DocumentsFor(id))
                          + NewDocuments(id, Intake(incoming, nameIds, table).value, docIds, stamps)]
        && outcome == Handled(STATUS_CREATED, DocumentsFor(id))
    {
      var intake := Intake(incoming, nameIds, table);
      if intake.Err? {
        return Rejected(intake.error);
      }
      var status, items := UploadDocs(caller, id, intake.value, docIds, stamps);
      outcome := Handled(status, items);
    }

    /** `DELETE /salaries/:id/documents/:docId`, behind the admin gate: 404 only
        for a missing salary; 204 whether or not the document existed. */
    method DeleteDoc(caller: Caller, id: string, docId: string) returns (status: int)
      requires Valid() && IsAdmin(caller)
      modifies this
      ensures Valid()
      ensures records == old(records) && order == old(order)
      ensures id !in records ==> status == STATUS_NOT_FOUND && documents == old(documents)
      ensures id in records ==>
        && status == STATUS_NO_CONTENT
        && documents == if id in old(documents)
             then old(documents)[id := WithoutDocument(old(documents)[id], docId)]
             else old(documents)
    {
      if id !in records {
        return STATUS_NOT_FOUND;
      }
      DeleteDocument(id, docId);
      status := STATUS_NO_CONTENT;
    }
  }

  /** Creating a record and then fetching it as its owner (or as an admin)
      returns the created fields, with the documents already filed under the
      new id, if any. */
  method CreateThenFetch(store: SalaryStore, body: Json, freshId: string, now: string, caller: Caller)
    returns (status: int, full: Option<SalaryWithDocs>)
    requires store.Valid() && ParseCreate(body).Some?
    requires CanAccess(caller, ParseCreate(body).value.userId)
    modifies store
    ensures store.Valid()
    ensures status == STATUS_OK
    ensures full == Some(SalaryWithDocs(NewRecord(ParseCreate(body).value, freshId, now), old(store.DocumentsFor(freshId))))
  {
    var created: Option<SalaryRecord>;
    status, created := store.Create(body, freshId, now);
    status, full := store.GetOne(caller, freshId);
  }
}
