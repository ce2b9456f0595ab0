# Salary records and salary documents, modelled in Dafny

This project models the salary routes of an inventory and payroll backend
(`server/routes/salaries.ts`). Those routes keep salary records (owner, employee
name, month, year, amount, optional notes, two timestamps) and the files
uploaded for each record. The model covers:

- the two request-body schemas (create and update), as parsers over a JSON body;
- the access rule: admins may do anything, anyone else only what they own;
- the listing filter;
- the upload middleware's media-type allow-list, its limits and the generated
  on-disk filename;
- the eight handlers, as methods of a store class.

Files, one module each:

- `types.dfy` (`SalaryTypes`): records, documents, the JSON body, the caller, status codes.
- `validation.dfy` (`Validation`): `createSchema`, `updateSchema`, the record a
  create builds, and the merge an update performs.
- `access.dfy` (`AccessPolicy`): the role and user-id defaults, owner-or-admin
  access, and the list filter.
- `intake.dfy` (`FileIntake`): `path.extname`, the extension fallback chain, the
  generated filename, `buildDocUrl`, the allow-list and the upload limits.
- `service.dfy` (`SalaryService`): the `SalaryStore` class with the store's
  four writes and the eight handlers.

The database behind `db` (`server/data/store`) is not part of this model. Its
state is the class's three fields:

- `records`, a map from id to record;
- `order`, the order in which `getSalaries` lists records;
- `documents`, a map from salary id to that salary's documents in upload order.

The store is assumed to behave as follows:

- `upsertSalary` replaces an existing record in place and appends a new one;
- `deleteSalary` removes only the record;
- `addDocument` appends;
- `deleteDocument` drops the salary's documents with that id.

The class invariant `Valid()` says four things: ids in `order` are distinct and
are exactly the keys of `records`; every record is stored under its own id;
every stored record obeys the create rules; every document is filed under its
own `salaryId`.

Nondeterministic inputs are parameters:

- the `nanoid` draws: `freshId` for a record, `nameIds` for filenames, `docIds` for documents;
- the timestamps `now` and `stamps`;
- the `mime.extension` table (`table`);
- the caller's `req.userRole` and `req.userId` (`Caller`).

Behaviour of the code worth noting:

- Deleting a document answers 204 even when the salary has no document with
  that id. Only a missing salary gives 404.
- A rejected upload is not given a status code. The rejection goes to Express's
  error handler, which is not part of this model. The model records the reason
  (`UploadOutcome.Rejected`).
- The upload middleware runs before `uploadDocs`. So a bad file type is
  rejected even for a salary id that does not exist.
- `update` answers 404 for a missing id only to admins. For anyone else, the
  admin gate has already stopped the request.
- `create` takes the owner from the body's `userId`, not from the caller.
  Any caller may create a record for any owner.
- Removing a record keeps its documents. A record later created under the same
  id shows them again (`CreateThenFetch` states this).

## Model

| member | source | states |
|---|---|---|
| `Validation.ParseCreate` | server/routes/salaries.ts:54-61 | the body is accepted exactly when it is an object with non-empty string `userId` and `employeeName`, integral `month` in 1..12 and `year` in 1900..3000, a number `amount` >= 0, and `notes` absent or a string; an accepted input is valid and is what those keys of the body encode |
| `Validation.ParseCreateExact` | server/routes/salaries.ts:54-61 | parsing returns `x` exactly when `x` is valid and the schema's keys of the body encode `x`; every other key (`id`, `createdAt`, ...) is ignored |
| `Validation.CreateRoundTrip` | server/routes/salaries.ts:54-61 | the body a client sends for an input parses back to that input when it is valid, and is rejected otherwise |
| `Validation.ParseUpdate` | server/routes/salaries.ts:63-69 | the body is accepted exactly when each present update field obeys its create rule; the patch holds exactly the present fields |
| `Validation.UpdateRoundTrip` | server/routes/salaries.ts:63-69 | a patch's body parses back to that patch when it is valid, and is rejected otherwise |
| `Validation.ParseUpdateIgnoresOwner` | server/routes/salaries.ts:63-69 | a `userId` key in an update body has no effect on the parsed patch |
| `Validation.NewRecord` | server/routes/salaries.ts:103-114 | the created record carries the input's fields and the fresh id, has `createdAt == updatedAt == now`, and is well-formed when the input is valid |
| `Validation.Merge` | server/routes/salaries.ts:128-132 | `id`, `userId` and `createdAt` are preserved; each field present in the patch replaces the stored one; absent fields keep their values; `updatedAt` becomes `now` |
| `Validation.MergeKeepsWellFormed` | server/routes/salaries.ts:124-133 | a valid patch merged into a well-formed record gives a well-formed record |
| `Validation.MergeIdempotent` | server/routes/salaries.ts:128-132 | applying the same patch twice equals applying it once |
| `Validation.MergeEmptyPatch` | server/routes/salaries.ts:128-132 | an empty patch changes only `updatedAt` |
| `AccessPolicy.EffectiveRole` | server/routes/salaries.ts:76 | a missing or empty role counts as "user"; a given role is used as is |
| `AccessPolicy.EffectiveUserId` | server/routes/salaries.ts:77 | a missing or empty user id counts as "anonymous"; a given id is used as is |
| `AccessPolicy.IsAdmin` | server/routes/salaries.ts:76-78 | a caller is an admin exactly when the request names the role "admin"; the default role never does |
| `AccessPolicy.CanAccess` | server/routes/salaries.ts:87-89 | a record is readable by an admin, by its owner, and, for a request without a user id, when its owner is "anonymous" (the same test at lines 151 and 164) |
| `AccessPolicy.AnonymousAccess` | server/routes/salaries.ts:87-89 | a caller with no role and no id reaches exactly the records owned by "anonymous" |
| `AccessPolicy.OwnedBy` | server/routes/salaries.ts:78 | the filter keeps exactly the records with the given owner, and never lengthens the list |
| `AccessPolicy.OwnedByAppend` | server/routes/salaries.ts:78 | the filter preserves store order: filtering a concatenation is concatenating the filtered parts |
| `AccessPolicy.Visible` | server/routes/salaries.ts:74-81 | an admin sees every record; any caller sees exactly the records it may read |
| `AccessPolicy.VisibleAppend` | server/routes/salaries.ts:78 | the listing preserves store order for every caller |
| `FileIntake.AllowedMime` | server/routes/salaries.ts:34-46 | the file filter admits only `application/pdf` and `image/...` types, and refuses text, HTML, SVG and unknown binary types |
| `FileIntake.ExtNameMeaning` | server/routes/salaries.ts:28 | with `b` the last segment of the name after trailing slashes are dropped, the extension is empty exactly when `b` is ".." or has no dot after its first character; otherwise it is the tail of `b` from its last dot |
| `FileIntake.LastSegmentIsTail` | server/routes/salaries.ts:28 | the segment `path.extname` looks at is the tail of the path after its last slash |
| `FileIntake.TrailingDotSkipsMimeFallback` | server/routes/salaries.ts:27-30 | for every name whose last segment ends in a dot after a non-dot, the extension is "." and the stored name is the id followed by that bare dot, whatever the media type |
| `FileIntake.DotFileUsesMimeFallback` | server/routes/salaries.ts:27-30 | for every name whose last segment is a dot followed by no other dot, there is no extension, so the stored name is the id, a dot and the media type's extension when known and non-empty, and the id plus ".bin" otherwise |
| `FileIntake.ChooseExtension` | server/routes/salaries.ts:27-29 | the extension is the original's when non-empty, else "." plus the media type's extension when known and non-empty, else ".bin"; it always starts with a dot |
| `FileIntake.GeneratedFilename` | server/routes/salaries.ts:25-31 | the stored name is the fresh id followed by exactly the extension the fallback chain chooses, which starts with a dot |
| `FileIntake.ExtensionHasNoSlash` | server/routes/salaries.ts:27-29 | the chosen extension contains no slash whenever the media-type table's extensions contain none, whatever the original name |
| `FileIntake.GeneratedFilenameIsSafe` | server/routes/salaries.ts:25-31 | with a nanoid prefix the stored name has no slash, does not start with a dot and is neither "." nor "..", whatever the client named the file |
| `FileIntake.GeneratedFilenameInjective` | server/routes/salaries.ts:26-30 | distinct ids of equal length give distinct stored names |
| `FileIntake.BuildDocUrl` | server/routes/salaries.ts:71 | the URL is "/uploads/" followed by the stored name |
| `FileIntake.BuildDocUrlInjective` | server/routes/salaries.ts:71 | distinct stored names have distinct URLs |
| `FileIntake.FileError` | server/routes/salaries.ts:43-52 | a file passes exactly when it is among the first five, has an allowed type and is at most 10 MiB; beyond the fifth file the error is always too-many-files; among the first five a disallowed type always gives the unsupported-type error, and an allowed type over 10 MiB the too-large error |
| `FileIntake.FirstRejection` | server/routes/salaries.ts:43-52 | no error exactly when every file is within the count limit, has an allowed type and fits the size limit; otherwise the error of the first offending file |
| `FileIntake.Intake` | server/routes/salaries.ts:48-52 | an accepted request yields one stored file per incoming file, in order, named by the id drawn for it; a rejection carries the first offending file's error |
| `FileIntake.IntakeAccepts` | server/routes/salaries.ts:43-52 | a request passes exactly when it has at most five files, each of an allowed type and at most 10 MiB |
| `FileIntake.UnsupportedTypeRejectsBatch` | server/routes/salaries.ts:43-46 | one file of a disallowed type rejects the whole request |
| `SalaryService.NewDocument` | server/routes/salaries.ts:172-181 | the document has the drawn id, the salary's id, the stored file's original name, filename, type and size, the URL built from the stored name, and the given timestamp |
| `SalaryService.NewDocuments` | server/routes/salaries.ts:171-183 | one document per file, in file order, each with its own drawn id and timestamp |
| `SalaryService.NewDocumentsBelong` | server/routes/salaries.ts:172-181 | every uploaded document has the salary's id, the stored filename, and the URL "/uploads/" plus that filename |
| `SalaryService.WithoutDocument` | server/routes/salaries.ts:193 | exactly the documents whose id differs from the deleted one remain |
| `SalaryService.WithoutDocumentAppend` | server/routes/salaries.ts:193 | deleting a document keeps the remaining documents in their order: filtering a concatenation concatenates the filtered parts |
| `SalaryService.SalaryStore.UpsertSalary` | server/routes/salaries.ts:115 | the record is stored under its id; a new id is listed last, an existing one keeps its place; documents are unchanged |
| `SalaryService.SalaryStore.DeleteSalary` | server/routes/salaries.ts:141 | only that record is removed from the records and the listing order; documents are unchanged |
| `SalaryService.WithoutAppend` | server/routes/salaries.ts:141 | removing a record keeps the other records in listing order: removing an id from a concatenation concatenates the parts with it removed |
| `SalaryService.SalaryStore.AddDocument` | server/routes/salaries.ts:182 | the document is appended to its salary's documents; nothing else changes |
| `SalaryService.SalaryStore.DeleteDocument` | server/routes/salaries.ts:193 | only that salary's documents with that id are removed |
| `SalaryService.SalaryStore.List` | server/routes/salaries.ts:74-81 | 200 with every record for an admin, otherwise exactly the records the caller owns, in store order; every listed record is readable by the caller and every readable record is listed |
| `SalaryService.SalaryStore.GetOne` | server/routes/salaries.ts:83-95 | 404 when the id is absent; 403 when the caller is neither admin nor owner; otherwise 200 with the record and its documents |
| `SalaryService.SalaryStore.Create` | server/routes/salaries.ts:97-117 | an invalid body gives 400 and leaves the store unchanged; a valid one gives 201 with the new record, now stored under the fresh id, and touches nothing else |
| `SalaryService.SalaryStore.Update` | server/routes/salaries.ts:119-135 | 404 for a missing id before any validation; 400 for an invalid patch with the store unchanged; otherwise 200 with the merged record stored in place and nothing else changed |
| `SalaryService.SalaryStore.Remove` | server/routes/salaries.ts:137-143 | 404 for a missing id with the store unchanged; otherwise 204, that record alone removed and every document kept |
| `SalaryService.SalaryStore.ListDocs` | server/routes/salaries.ts:145-156 | 404 when the salary is absent; 403 when the caller is neither admin nor owner; otherwise 200 with the salary's documents |
| `SalaryService.SalaryStore.UploadDocs` | server/routes/salaries.ts:158-187 | 404, then 403, then 400 for no files, each leaving the store unchanged; otherwise 201, exactly one new document per file appended in order, and the response lists all of the salary's documents |
| `SalaryService.SalaryStore.AddDocuments` | server/routes/salaries.ts:171-183 | one `addDocument` per stored file, in file order: the salary's documents become the old ones followed by exactly `NewDocuments` of the files; records and other salaries are unchanged |
| `SalaryService.SalaryStore.PostDocuments` | server/routes/salaries.ts:205 | the upload middleware runs first: a rejected request carries the first offending file's error and records nothing; an accepted one gets 404, then 403, then 400 for no files, each recording nothing, and otherwise 201 with one document per stored file appended and the salary's documents in the response |
| `SalaryService.SalaryStore.DeleteDoc` | server/routes/salaries.ts:189-195 | 404 when the salary is absent; otherwise 204 with only that document removed and the records unchanged |
| `SalaryService.CreateThenFetch` | server/routes/salaries.ts:104-116 | a record read back by its owner or an admin right after creation has the created fields, plus the documents already filed under its id |

## Left out

- Express routing, the JSON body parser and zod's error format. Errors are status codes only.
- The admin gate. `server/middleware/auth` is not part of this model. `Update`, `Remove` and
  `DeleteDoc` require `IsAdmin(caller)`, meaning the effective role is "admin".
- The status code of a rejected upload. Express's error handler is not part of this model.
- Disk I/O: creating the upload directory, writing files, and the files left on disk when a
  request is rejected or a store write fails.
- Two upload-middleware checks: rejecting file parts sent under a field other than `files`,
  and skipping parts without a filename. The model assumes every part is a named file under
  `files`.
- The internals of `nanoid`, `Date.toISOString` and `mime.extension`. Each is a parameter.
- `FileIntake.ExtName` models `path.extname` for POSIX separators only.
- `amount`, `month` and `year` are read as real numbers. Floating-point rounding is not modelled, so a literal that a double would round to an integer (and so pass `.int()`) is not covered.
- Asynchrony and concurrency. Each handler runs as one atomic step, so interleaved requests
  and last-write-wins races are not modelled.
- `server/data/store` is not part of this model. Its behaviour is assumed as described above.
- Store calls are assumed never to fail. A failing `addDocument` midway through the upload loop (server/routes/salaries.ts:171-183) would leave the earlier documents recorded with no rollback; that path is not modelled.
- The other routes (`employees.ts`, `system-assets.ts`, `pc-laptops.ts`) only forward to the
  database library. `SystemAsset.ts` and `PCLaptop.ts` only declare schemas. `db.ts` manages
  a connection. The client files are a spreadsheet-sync network client, fetch wrappers and UI
  components. None of these has logic to state.
