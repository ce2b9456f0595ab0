/** The two request-body schemas of the salary routes (create and update),
    the record a successful create builds, and the merge an update performs. */
module Validation {
  import opened SalaryTypes

  /** The validated body of `POST /salaries`. */
  datatype CreateInput = CreateInput(
    userId: string,
    employeeName: string,
    month: int,
    year: int,
    amount: real,
    notes: Option<string>)

  /** The validated body of `PUT /salaries/:id`: every field is optional. */
  datatype UpdatePatch = UpdatePatch(
    employeeName: Option<string>,
    month: Option<int>,
    year: Option<int>,
    amount: Option<real>,
    notes: Option<string>)

  /** The keys each schema reads; any other key of the body is stripped. */
  const CREATE_KEYS: set<string> := {"userId", "employeeName", "month", "year", "amount", "notes"}
  const UPDATE_KEYS: set<string> := {"employeeName", "month", "year", "amount", "notes"}

  /** `Number.isInteger` on a finite JSON number. */
  predicate IsInteger(x: real) {
    x.Floor as real == x
  }

  predicate MonthInRange(m: int) { 1 <= m <= 12 }

  predicate YearInRange(y: int) { 1900 <= y <= 3000 }

  /** The create rules stated on typed values. */
  predicate InputValid(x: CreateInput) {
    && x.userId != ""
    && x.employeeName != ""
    && MonthInRange(x.month)
    && YearInRange(x.year)
    && x.amount >= 0.0
  }

  /** The update rules: each field that is present obeys its create rule. */
  predicate PatchValid(p: UpdatePatch) {
    && (p.employeeName.Some? ==> p.employeeName.value != "")
    && (p.month.Some? ==> MonthInRange(p.month.value))
    && (p.year.Some? ==> YearInRange(p.year.value))
    && (p.amount.Some? ==> p.amount.value >= 0.0)
  }

  /** What every stored salary record satisfies. */
  predicate RecordWellFormed(r: SalaryRecord) {
    && r.userId != ""
    && r.employeeName != ""
    && MonthInRange(r.month)
    && YearInRange(r.year)
    && r.amount >= 0.0
  }

  /** The part of a body that a schema looks at. */
  function Restrict(f: map<string, Json>, keys: set<string>): (r: map<string, Json>)
    ensures r.Keys == f.Keys * keys
    ensures forall k :: k in r ==> r[k] == f[k]
  {
    map k | k in f && k in keys :: f[k]
  }

  // Checks on single JSON values, one per zod rule used by the schemas.

  /** `z.string().min(1)` */
  predicate IsNonEmptyString(v: Json) { v.JString? && |v.s| >= 1 }

  /** `z.number().int().min(lo).max(hi)` */
  predicate IsIntBetween(v: Json, lo: int, hi: int) {
    v.JNumber? && IsInteger(v.n) && lo as real <= v.n <= hi as real
  }

  /** `z.number().min(0)` */
  predicate IsNonNegativeNumber(v: Json) { v.JNumber? && v.n >= 0.0 }

  /** The object rules of `createSchema`. */
  predicate CreateShape(f: map<string, Json>) {
    && "userId" in f && IsNonEmptyString(f["userId"])
    && "employeeName" in f && IsNonEmptyString(f["employeeName"])
    && "month" in f && IsIntBetween(f["month"], 1, 12)
    && "year" in f && IsIntBetween(f["year"], 1900, 3000)
    && "amount" in f && IsNonNegativeNumber(f["amount"])
    && ("notes" in f ==> f["notes"].JString?)
  }

  /** The object rules of `updateSchema`. */
  predicate UpdateShape(f: map<string, Json>) {
    && ("employeeName" in f ==> IsNonEmptyString(f["employeeName"]))
    && ("month" in f ==> IsIntBetween(f["month"], 1, 12))
    && ("year" in f ==> IsIntBetween(f["year"], 1900, 3000))
    && ("amount" in f ==> IsNonNegativeNumber(f["amount"]))
    && ("notes" in f ==> f["notes"].JString?)
  }

  /** The JSON object a client sends to create `x`. */
  function CreateBody(x: CreateInput): (b: Json)
    ensures b.JObject? && b.fields.Keys <= CREATE_KEYS
  {
    var f := map["userId" := JString(x.userId), "employeeName" := JString(x.employeeName),
                 "month" := JNumber(x.month as real), "year" := JNumber(x.year as real),
                 "amount" := JNumber(x.amount)];
    JObject(if x.notes.Some? then f["notes" := JString(x.notes.value)] else f)
  }

  /** The JSON value patch `p` sends under update key `k`, if it sends one. */
  function PatchField(p: UpdatePatch, k: string): Option<Json> {
    if k == "employeeName" then (if p.employeeName.Some? then Some(JString(p.employeeName.value)) else None)
    else if k == "month" then (if p.month.Some? then Some(JNumber(p.month.value as real)) else None)
    else if k == "year" then (if p.year.Some? then Some(JNumber(p.year.value as real)) else None)
    else if k == "amount" then (if p.amount.Some? then Some(JNumber(p.amount.value)) else None)
    else if k == "notes" then (if p.notes.Some? then Some(JString(p.notes.value)) else None)
    else None
  }

  /** The JSON object a client sends to apply patch `p`: only the present fields. */
  function PatchBody(p: UpdatePatch): (b: Json)
    ensures b.JObject? && b.fields.Keys <= UPDATE_KEYS
  {
    JObject(map k | k in UPDATE_KEYS && PatchField(p, k).Some? :: PatchField(p, k).value)
  }

  /** `createSchema.safeParse(body)`: None is the 400 path. A result is always
      valid, and it is exactly what the schema's keys of the body encode. */
  function ParseCreate(body: Json): (r: Option<CreateInput>)
    ensures r.Some? <==> body.JObject? && CreateShape(body.fields)
    ensures r.Some? ==> InputValid(r.value)
    ensures r.Some? ==> Restrict(body.fields, CREATE_KEYS) == CreateBody(r.value).fields
  {
    if body.JObject? && CreateShape(body.fields) then
      var f := body.fields;
      var x := CreateInput(f["userId"].s, f["employeeName"].s, f["month"].n.Floor, f["year"].n.Floor,
                           f["amount"].n, if "notes" in f then Some(f["notes"].s) else None);
      assert Restrict(f, CREATE_KEYS) == CreateBody(x).fields;
      Some(x)
    else
      None
  }

  /** `updateSchema.safeParse(body)`: None is the 400 path. A result is always
      valid, and it is exactly what the schema's keys of the body encode. */
  function ParseUpdate(body: Json): (r: Option<UpdatePatch>)
    ensures r.Some? <==> body.JObject? && UpdateShape(body.fields)
    ensures r.Some? ==> PatchValid(r.value)
    ensures r.Some? ==> Restrict(body.fields, UPDATE_KEYS) == PatchBody(r.value).fields
  {
    if body.JObject? && UpdateShape(body.fields) then
      var f := body.fields;
      var p := UpdatePatch(
        if "employeeName" in f then Some(f["employeeName"].s) else None,
        if "month" in f then Some(f["month"].n.Floor) else None,
        if "year" in f then Some(f["year"].n.Floor) else None,
        if "amount" in f then Some(f["amount"].n) else None,
        if "notes" in f then Some(f["notes"].s) else None);
      forall k | k in UPDATE_KEYS
        ensures (k in f <==> PatchField(p, k).Some?) && (k in f ==> f[k] == PatchField(p, k).value)
      {
      }
      assert Restrict(f, UPDATE_KEYS) == PatchBody(p).fields;
      Some(p)
    else
      None
  }

  /** Encoding then parsing a create body gives the input back exactly when the
      input obeys the rules, and is rejected otherwise. */
  lemma CreateRoundTrip(x: CreateInput)
    ensures ParseCreate(CreateBody(x)) == if InputValid(x) then Some(x) else None
  {
  }

  /** Encoding then parsing a patch gives the patch back exactly when it obeys the rules. */
  lemma UpdateRoundTrip(p: UpdatePatch)
    ensures ParseUpdate(PatchBody(p)) == if PatchValid(p) then Some(p) else None
  {
  }

  lemma CreateBodyInjective(x: CreateInput, y: CreateInput)
    requires CreateBody(x) == CreateBody(y)
    ensures x == y
  {
    var f, g := CreateBody(x).fields, CreateBody(y).fields;
    assert f["userId"] == g["userId"] && f["employeeName"] == g["employeeName"];
    assert f["month"] == g["month"] && f["year"] == g["year"] && f["amount"] == g["amount"];
    assert x.month as real == y.month as real;
    assert ("notes" in f) == ("notes" in g);
  }

  /** The create parse accepts a body exactly when the schema's keys of it are
      the encoding of some valid input, and then returns that input: any other
      key of the body (an `id`, a `createdAt`) has no effect. */
  lemma ParseCreateExact(body: Json, x: CreateInput)
    ensures ParseCreate(body) == Some(x)
        <==> body.JObject? && InputValid(x) && Restrict(body.fields, CREATE_KEYS) == CreateBody(x).fields
  {
    if body.JObject? && InputValid(x) && Restrict(body.fields, CREATE_KEYS) == CreateBody(x).fields {
      var f, g := body.fields, CreateBody(x).fields;
      forall k | k in g ensures k in f && f[k] == g[k] {
        assert k in Restrict(f, CREATE_KEYS);
      }
      assert "notes" in f ==> "notes" in Restrict(f, CREATE_KEYS);
      assert CreateShape(f);
      var y := ParseCreate(body).value;
      assert CreateBody(y).fields == g;
      CreateBodyInjective(x, y);
    }
  }

  /** `userId` is not an update key, so no update body can change it. */
  lemma ParseUpdateIgnoresOwner(f: map<string, Json>, v: Json)
    ensures ParseUpdate(JObject(f["userId" := v])) == ParseUpdate(JObject(f))
  {
  }

  /** The record `create` stores: the input's fields, the fresh id, and one
      timestamp used for both `createdAt` and `updatedAt`. */
  function NewRecord(x: CreateInput, id: string, now: string): (r: SalaryRecord)
    ensures r.id == id && r.createdAt == r.updatedAt == now
    ensures r.userId == x.userId && r.employeeName == x.employeeName && r.month == x.month
    ensures r.year == x.year && r.amount == x.amount && r.notes == x.notes
    ensures InputValid(x) ==> RecordWellFormed(r)
  {
    SalaryRecord(id, x.userId, x.employeeName, x.month, x.year, x.amount, x.notes, now, now)
  }

  function Pick<T>(patch: Option<T>, prior: T): T {
    if patch.Some? then patch.value else prior
  }

  /** `{ ...record, ...patch, updatedAt: now }` */
  function Merge(r: SalaryRecord, p: UpdatePatch, now: string): (m: SalaryRecord)
    ensures m.id == r.id && m.userId == r.userId && m.createdAt == r.createdAt
    ensures m.updatedAt == now
    ensures m.employeeName == (if p.employeeName.Some? then p.employeeName.value else r.employeeName)
    ensures m.month == (if p.month.Some? then p.month.value else r.month)
    ensures m.year == (if p.year.Some? then p.year.value else r.year)
    ensures m.amount == (if p.amount.Some? then p.amount.value else r.amount)
    ensures m.notes == (if p.notes.Some? then p.notes else r.notes)
  {
    r.(employeeName := Pick(p.employeeName, r.employeeName),
       month := Pick(p.month, r.month),
       year := Pick(p.year, r.year),
       amount := Pick(p.amount, r.amount),
       notes := if p.notes.Some? then p.notes else r.notes,
       updatedAt := now)
  }

  /** A valid patch keeps a well-formed record well-formed. */
  lemma MergeKeepsWellFormed(r: SalaryRecord, p: UpdatePatch, now: string)
    requires RecordWellFormed(r) && PatchValid(p)
    ensures RecordWellFormed(Merge(r, p, now))
  {
  }

  /** Applying the same patch twice is the same as applying it once. */
  lemma MergeIdempotent(r: SalaryRecord, p: UpdatePatch, now: string)
    ensures Merge(Merge(r, p, now), p, now) == Merge(r, p, now)
  {
  }

  /** An empty body changes nothing but `updatedAt`. */
  lemma MergeEmptyPatch(r: SalaryRecord, now: string)
    ensures Merge(r, UpdatePatch(None, None, None, None, None), now) == r.(updatedAt := now)
  {
  }
}
