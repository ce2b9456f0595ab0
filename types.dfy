/** Data model shared by the salary routes: request bodies, salary records,
    salary documents, the caller identity and the HTTP status codes used. */
module SalaryTypes {

  datatype Option<+T> = None | Some(value: T)

  datatype Result<+T, +E> = Ok(value: T) | Err(error: E)

  /** A request body as the JSON body parser hands it to a handler. */
  datatype Json =
    | JNull
    | JBool(b: bool)
    | JNumber(n: real)
    | JString(s: string)
    | JArray(items: seq<Json>)
    | JObject(fields: map<string, Json>)

  /** A stored salary record. `amount` is a JSON number (no floating point
      behaviour is modelled); timestamps are ISO-8601 strings. */
  datatype SalaryRecord = SalaryRecord(
    id: string,
    userId: string,
    employeeName: string,
    month: int,
    year: int,
    amount: real,
    notes: Option<string>,
    createdAt: string,
    updatedAt: string)

  /** Metadata of an uploaded file attached to a salary record. */
  datatype SalaryDocument = SalaryDocument(
    id: string,
    salaryId: string,
    originalName: string,
    filename: string,
    mimeType: string,
    size: nat,
    url: string,
    createdAt: string)

  /** The body of `GET /salaries/:id`: the record spread together with its documents. */
  datatype SalaryWithDocs = SalaryWithDocs(record: SalaryRecord, documents: seq<SalaryDocument>)

  /** What the authentication middleware attached to a request:
      `req.userRole` and `req.userId`, each of which may be missing. */
  datatype Caller = Caller(userRole: Option<string>, userId: Option<string>)

  const STATUS_OK: int := 200
  const STATUS_CREATED: int := 201
  const STATUS_NO_CONTENT: int := 204
  const STATUS_BAD_REQUEST: int := 400
  const STATUS_FORBIDDEN: int := 403
  const STATUS_NOT_FOUND: int := 404
}
