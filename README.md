# 9 Star Renovations service requests, modelled in Dafny

This project models the request pipeline of the 9 Star Renovations web
application:

- the landlord and tenant submission validators (`shared/schema.ts`);
- the SQLite request table with its CHECK constraints, ticket ids, filtered
  newest-first listing and status updates (`server/storage.ts`);
- the HTTP handlers: submission, admin password gate, admin list, CSV
  export, PDF download, status update, and the blank forms drawn at start-up
  (`server/routes.ts`);
- the request and blank-form PDF layouts, line by line, with `yPosition`
  advanced as the code does (`server/services/pdfGenerator.ts`);
- the operations notification and the auto-reply (`server/services/emailService.ts`);
- admin accounts, login and token checks (`server/services/authService.ts`,
  `server/middleware/authMiddleware.ts`) and the default-admin bootstrap
  (`server/dbInit.ts`);
- the client-side file picker (`client/src/components/forms/FileUpload.tsx`).

Files and their modules:

| file | module | form |
|---|---|---|
| `wrappers.dfy` | `Wrappers` | `Option` and `Result` |
| `text.dfy` | `Text` | the JavaScript string operations the code uses: `trim`, `split`, `join`, `toUpperCase`, `startsWith`, `endsWith`, `toString(radix)` |
| `json.dfy` | `Json` | `JSON.stringify` / `JSON.parse` of an array of strings |
| `schema.dfy` | `Schema` | pure: validators as functions from a submitted form to a payload or issues |
| `storage.dfy` | `Storage` | a `RequestStore` class whose methods update the row sequence |
| `pdf_generator.dfy` | `PdfGenerator` | imperative drawing methods proved against the document functions; a `Disk` class holding the files written |
| `email_service.dfy` | `EmailService` | pure: each message as a value |
| `auth_service.dfy` | `AuthService` | an `AdminStore` class over the admin table |
| `auth_middleware.dfy` | `AuthMiddleware` | a method that updates the request, the response and the handler chain |
| `db_init.dfy` | `DbInit` | a method over the admin store |
| `routes.dfy` | `Routes` | one method per handler, over the store, the disk and an outbox |
| `file_upload.dfy` | `FileUpload` | a `FileUploader` class holding the selection state |

Outside inputs are parameters:

- the e-mail grammar of the validator is a predicate `isEmail`;
- the row id, clock, UUID and SQL time of an insert are a `Generated` value;
- time formatting and font metrics are a `Renderer`;
- `SMTP_USER`, `BASE_URL` and the Winnipeg time format are a `MailEnv`;
- bcrypt and the JSON Web Token library are function fields of a `Crypto`
  value, and the `Sound` predicate says what login relies on;
- whether the SMTP server accepts each message is a boolean;
- a database outage at start-up is an optional error.

Where the documented behaviour and the code differ, the model follows the code:

- Keys that belong to the other role are dropped, not rejected. The schemas
  are plain zod extensions, and zod strips unknown keys.
- A non-boolean `consent` gets zod's type issue ("Expected boolean"), not
  "Consent is required".
- The token check takes the second space-separated word of the header and
  never checks the `Bearer` scheme.
- The upper date bound of the admin list compares texts, so a bare date
  excludes the later times of that same day.
- When a stored PDF exists, the download serves it as it is, even if it was
  never finished.
- The wildcard `image/*` accepts every type that starts with `image`, for
  example `imagery`.

## Model

| member | source | states |
|---|---|---|
| Schema.LiteralCheck | shared/schema.ts:46 | no issue exactly when the key holds that literal text; otherwise one issue about that key |
| Schema.RequiredTextCheck | shared/schema.ts:47-50 | no issue exactly when the key holds a non-empty text; at most one issue, about that key |
| Schema.EmailCheck | shared/schema.ts:48 | no issue exactly when `email` is a text the address grammar accepts |
| Schema.OptionalTextCheck | shared/schema.ts:53-54 | no issue exactly when the key is absent or a text |
| Schema.EnumCheck | shared/schema.ts:52 | no issue exactly when the key holds one of the listed texts |
| Schema.OptionalEnumCheck | shared/schema.ts:55 | no issue exactly when the key is absent or one of the listed texts |
| Schema.DescriptionCheck | shared/schema.ts:56 | no issue exactly when the description is a text of 1 to 1000 characters |
| Schema.ConsentCheck | shared/schema.ts:58 | no issue exactly when consent is the boolean `true` |
| Schema.ContactIssuesMeaning | shared/schema.ts:46-50 | the five contact checks find nothing exactly when the contact rules hold, and name only contact keys |
| Schema.LandlordIssuesMeaning | shared/schema.ts:45-59 | the landlord checks find nothing exactly when every landlord rule holds, and only name landlord keys |
| Schema.TenantIssuesMeaning | shared/schema.ts:61-73 | the tenant checks find nothing exactly when every tenant rule holds, and only name tenant keys |
| Schema.ParseLandlord | shared/schema.ts:45-59 | succeeds exactly when every landlord rule holds. A failure has at least one issue, each about a landlord key. The payload carries every landlord field unchanged and has no unit or entry permission |
| Schema.ParseTenant | shared/schema.ts:61-73 | succeeds exactly when every tenant rule holds. A failure has at least one issue, each about a tenant key. The payload carries every tenant field, a non-empty unit and a listed entry permission, and no landlord-only field |
| Schema.Parse | shared/schema.ts:45-73 | the role's validator: success exactly when the role's rules hold; the payload's role is the role name, consent is true and the shared fields are carried |
| Schema.ConsentRejected | shared/schema.ts:58 | consent other than `true` is rejected, with an issue about consent whose message depends on what was sent |
| Schema.DescriptionTooLong | shared/schema.ts:56 | a description over 1000 characters is rejected with "Description too long", not truncated |
| Schema.DescriptionEmpty | shared/schema.ts:56 | an empty description is rejected with "Description is required" |
| Schema.DescriptionWithinBounds | shared/schema.ts:56 | in an accepted form any description of 1 to 1000 characters is accepted too, and lands in the payload |
| Schema.LandlordDescription | shared/schema.ts:45-59 | an accepted landlord form with another description of allowed length yields the same payload with that description |
| Schema.TenantDescription | shared/schema.ts:61-73 | an accepted tenant form with another description of allowed length yields the same payload with that description |
| Schema.LandlordIgnores | shared/schema.ts:45-59 | setting a key outside the landlord schema leaves the landlord issues unchanged |
| Schema.TenantIgnores | shared/schema.ts:61-73 | setting a key outside the tenant schema leaves the tenant issues unchanged |
| Schema.IgnoresForeignKey | shared/schema.ts:37-73 | validation does not depend on keys outside the role's schema: generated columns and the other role's fields are dropped |
| Storage.TicketId | server/storage.ts:61 | a ticket id starts with `9SR-`, and its length is 13 plus the length of the clock digits |
| Storage.TicketTimeRoundTrip | server/storage.ts:61 | the ticket id reads back, through its base-36 middle part, as the clock value it was built from |
| Storage.NormalizeFiles | server/storage.ts:66-67 | an array is stored as JSON text that parses back to it; a non-empty text is kept; anything else is NULL |
| Storage.InsertedCarries | server/storage.ts:60-71 | the created row carries every payload field unchanged. Its status is `new`, both timestamps are the insert time, and the ticket encodes the clock |
| Storage.Inserted | server/storage.ts:60-71 | the row an insert produces: the payload fields, the files column normalised, status `new`, the ticket built from the clock and the UUID, both timestamps the SQL default; `InsertedCarries` is its partner |
| Storage.FindFirst | server/storage.ts:74-82 | nothing exactly when no row has the key; otherwise the first row that has it |
| Storage.RequestStore.CreateRequest | server/storage.ts:60-72 | succeeds exactly when the type passes the CHECK constraint and the row id is new. On success the created row is appended; on failure nothing changes; the table invariant is kept |
| Storage.RequestStore.GetRequest | server/storage.ts:74-77 | nothing exactly when no row has that id, otherwise a stored row with that id |
| Storage.RequestStore.GetRequestByTicketId | server/storage.ts:79-82 | nothing exactly when no row has that ticket, otherwise a stored row with that ticket |
| Storage.RequestStore.GetRequestUnique | server/storage.ts:74-77 | since ids are unique, a lookup by a row's id finds exactly that row |
| Storage.WhereMembers | server/storage.ts:89-105 | a row is in the filtered list exactly when it is stored and matches every supplied filter |
| Storage.Matches | server/storage.ts:91-101 | a row passes a filter only when the filter is set: the type unless it is `all`, `createdAt` at or after `dateFrom`, at or before `dateTo`, compared as texts |
| Storage.Where | server/storage.ts:89-105 | the rows that pass every set filter, in table order; `WhereMembers` and `SelectWhere` are its partners |
| Storage.SelectWhere | server/storage.ts:89-107 | the conjunction of the pushed SQL conditions selects the same rows as the filters |
| Storage.SortDescCorrect | server/storage.ts:106 | the newest-first order is sorted by `createdAt` and a permutation of its input |
| Storage.RequestStore.GetAllRequests | server/storage.ts:84-110 | exactly the rows matching every filter, each once, sorted newest first |
| Storage.RequestStore.UpdateRequestStatus | server/storage.ts:112-117 | sets status and update time on the rows with that id and nothing else. It fails, changing nothing, exactly when a matching row would break the status CHECK constraint |
| Storage.Updated | server/storage.ts:112-117 | a table of the same size in which the rows with that id take the status and update time and every other row is kept; `UpdatedLookup` and `UpdatedUnknownId` are its partners |
| Storage.UpdatedUnknownId | server/storage.ts:112-117 | an update of an unknown id changes nothing |
| Storage.UpdatedLookup | server/storage.ts:112-117 | after an update the row with that id has the new status and time; lookups of other ids are unchanged |
| Storage.DateFromAdmitsSameDay | server/storage.ts:95-97 | a bare date as lower bound admits every time on that day |
| Storage.DateToExcludesSameDay | server/storage.ts:99-101 | a bare date as upper bound excludes every later time on that day |
| Text.Trim | server/services/pdfGenerator.ts:111 | the trimmed text is the input without its leading and trailing whitespace, and it neither starts nor ends with whitespace |
| Text.Split | server/middleware/authMiddleware.ts:13 | never empty, and no part contains the separator |
| Text.JoinSplit | server/middleware/authMiddleware.ts:13 | joining the parts of a split with the separator gives back the text |
| Text.SplitJoin | server/routes.ts:218 | parts free of the separator split back out of their join |
| Text.ToUpper | server/storage.ts:61 | same length, each character upper-cased |
| Text.RadixShape | server/storage.ts:61 | `toString(36)` is non-empty, has no leading zero and holds only digits |
| Text.RadixRoundTrip | server/storage.ts:61 | `toString(radix)` read back, in either letter case, gives the number |
| Json.ParseStringify | server/storage.ts:66 | `JSON.parse(JSON.stringify(names))` gives back the names |
| PdfGenerator.Scan | server/services/pdfGenerator.ts:107 | every match of `/.{1,80}(\s|$)/g` has 1 to 81 characters, and an 81st character is the whitespace it ends with |
| PdfGenerator.ChunkTrimBound | server/services/pdfGenerator.ts:107-111 | a match, once trimmed, has at most 80 characters |
| PdfGenerator.WrappedLineBound | server/services/pdfGenerator.ts:106-111 | when the description is wrapped, every line drawn for it has at most 80 characters |
| PdfGenerator.LongWordLosesHead | server/services/pdfGenerator.ts:107 | a word over 80 characters without whitespace wraps to its last 80 characters only |
| PdfGenerator.RenderRequest | server/services/pdfGenerator.ts:22-132 | the lines drawn, statement by statement with `yPosition`, are the request document, or the error where a time or the files text is invalid |
| PdfGenerator.RequestDocument | server/services/pdfGenerator.ts:22-132 | the request document: title block, details, description, the files block when set and the footer; an invalid creation time or files text fails. `RequestDocumentFails` and `RequestDocumentShape` are its partners |
| PdfGenerator.DrawDetails | server/services/pdfGenerator.ts:51-113 | the field block and the description block drawn below the details heading |
| PdfGenerator.DrawFields | server/services/pdfGenerator.ts:55-99 | one line per field 15 apart, and `yPosition` ends 15 per field lower |
| PdfGenerator.DrawRequired | server/services/pdfGenerator.ts:56-57 | a mandatory field line is drawn at `yPosition`, which then moves down 15 |
| PdfGenerator.DrawOptional | server/services/pdfGenerator.ts:59-62 | an optional field line is drawn and `yPosition` moved only when the value is set |
| PdfGenerator.DrawDescriptionBlock | server/services/pdfGenerator.ts:101-113 | the description heading 10 below the fields, then the description lines from 15 below it |
| PdfGenerator.DrawDescription | server/services/pdfGenerator.ts:110-113 | each description line trimmed and drawn 15 apart |
| PdfGenerator.DescriptionLines | server/services/pdfGenerator.ts:104-111 | the chunks of the regular expression when the text is wider than 500, the whole description otherwise, each one trimmed; `WrappedLineBound` bounds them |
| PdfGenerator.DrawClosing | server/services/pdfGenerator.ts:115-132 | the files heading and bullets when files are set, then the footer; fails where the files text is no JSON array |
| PdfGenerator.DrawFiles | server/services/pdfGenerator.ts:121-124 | one bullet per name at x = 70, 15 apart |
| PdfGenerator.RenderBlank | server/services/pdfGenerator.ts:161-224 | the lines drawn are the role's blank template |
| PdfGenerator.BlankDocument | server/services/pdfGenerator.ts:161-224 | the role's blank template: its title, its field captions and its consent sentence; `BlankLayoutShape` gives the positions |
| PdfGenerator.DrawBlank | server/services/pdfGenerator.ts:161-224 | the template of any title, field lines and consent sentence, drawn statement by statement |
| PdfGenerator.DrawBlankFields | server/services/pdfGenerator.ts:206-209 | the template's field lines 25 apart |
| PdfGenerator.FieldCaptions | server/services/pdfGenerator.ts:56-99 | the field captions: mandatory ones always, each optional one exactly when its value is set, in the code's order |
| PdfGenerator.FieldCount | server/services/pdfGenerator.ts:56-99 | five field lines plus one per optional value that is set |
| PdfGenerator.DescriptionHeadingPosition | server/services/pdfGenerator.ts:101-102 | the description heading sits at 265 plus 15 per field line |
| PdfGenerator.RequestDocumentFails | server/services/pdfGenerator.ts:48-120 | the document fails exactly when the creation time is invalid, or files are set but are no JSON array of names |
| PdfGenerator.DetailsShape | server/services/pdfGenerator.ts:51-113 | the positions of every field line, of the description heading and of every description line |
| PdfGenerator.ClosingShape | server/services/pdfGenerator.ts:115-132 | the body is kept, the files heading and one bullet per name follow when files are set, and the footer is last |
| PdfGenerator.RequestDocumentShape | server/services/pdfGenerator.ts:22-132 | a request document: eight header and time lines, the field lines, the description heading and lines, the files block when set, and the footer last |
| PdfGenerator.FilesListed | server/services/pdfGenerator.ts:115-125 | files stored as the JSON array of the uploads are listed one bullet per name, in order |
| PdfGenerator.NoFilesNoBlock | server/services/pdfGenerator.ts:115-132 | without files the footer follows the description directly |
| PdfGenerator.BlankLayoutShape | server/services/pdfGenerator.ts:161-224 | the template: title, field lines 25 apart from 170, check box and consent sentence 20 below them, the footer |
| PdfGenerator.BlankFieldCount | server/services/pdfGenerator.ts:174-204 | 16 field lines for landlords, 12 for tenants |
| PdfGenerator.ConsentTextsDiffer | server/services/pdfGenerator.ts:214-216 | each role's template has its own consent sentence |
| PdfGenerator.Disk.GenerateRequestPdf | server/services/pdfGenerator.ts:13-144 | on success the ticket's file holds the document and its path is returned; on failure the opened file stays behind unfinished; no other file changes |
| PdfGenerator.Disk.GenerateBlankPdf | server/services/pdfGenerator.ts:146-236 | the role's template is written to `<role>-blank.pdf` and no other file changes |
| EmailService.OperationsEnvelope | server/services/emailService.ts:61-72 | goes to the operations mailbox from the configured sender, with one attachment, the generated document under its file name; fails exactly when files are set but are no JSON array |
| EmailService.OperationsNotification | server/services/emailService.ts:19-72 | the notification: the configured sender, the operations mailbox, the role subject, the HTML body and the document attached; fails where the files text cannot be parsed. `OperationsEnvelope` and the label lemmas are its partners |
| EmailService.SenderFallback | server/services/emailService.ts:62 | the sender is `SMTP_USER` when set, the no-reply address otherwise |
| EmailService.SubjectByRole | server/services/emailService.ts:20 | the subject starts with `[New Landlord Request] ` exactly for landlord requests, otherwise with `[New Tenant Request] ` |
| EmailService.SubjectNamesRequester | server/services/emailService.ts:20 | the subject contains the address and ends with the requester's name |
| EmailService.DetailLabels | server/services/emailService.ts:26-41 | the details list: mandatory items always, each optional one exactly when set, in the code's order |
| EmailService.AccessSectionWhenSet | server/services/emailService.ts:43-46 | the access-instructions section appears exactly when instructions are set |
| EmailService.OperationsFiles | server/services/emailService.ts:51-56 | with files set, the bullets are exactly the parsed file names, in order |
| EmailService.OperationsNoFiles | server/services/emailService.ts:51-56 | without files the body builds and has no bullets |
| EmailService.OperationsListsUploads | server/services/emailService.ts:51-56 | files stored as JSON of the uploads are listed as exactly those names |
| EmailService.AutoReplyContents | server/services/emailService.ts:75-108 | to the requester, fixed subject, no attachment, names the ticket and gives the emergency number |
| EmailService.AutoReply | server/services/emailService.ts:75-108 | the acknowledgement to the requester: the thanks, the ticket, the emergency number and the signature, without attachment; `AutoReplyContents` is its partner |
| AuthService.IndexOf | server/services/authService.ts:53-57 | nothing exactly when no account has the name, otherwise the first account with it |
| AuthService.GenerateToken | server/services/authService.ts:24-30 | the token signs the account's id and name, and under a sound library it verifies back to them |
| AuthService.VerifyToken | server/services/authService.ts:32-39 | the library's verification: the claims, or nothing where it throws; `SessionTokenVerifies` is its partner |
| AuthService.AdminStore.CreateAdminUser | server/services/authService.ts:41-50 | stores the name and the password's hash under the next id. It fails, leaving the accounts unchanged, when the name is wider than 100 characters or already taken; a taken name still uses up an id of the `serial` column |
| AuthService.AdminStore.FindByUsername | server/services/authService.ts:53-57 | nothing exactly when no account has the name, otherwise a stored account with it |
| AuthService.AdminStore.AuthenticateAdmin | server/services/authService.ts:52-72 | a session exactly when the account exists and the password matches its hash; its token signs the account's id and name |
| AuthService.AdminStore.CheckIfAdminExists | server/services/authService.ts:74-77 | true exactly when some account is stored |
| AuthService.CreatedAccountLogsIn | server/services/authService.ts:41-72 | with a sound library, a created account stores no clear password, and logging in with that password succeeds |
| AuthService.SessionTokenVerifies | server/services/authService.ts:24-39 | with a sound library, a login's token verifies to the account's id and name |
| AuthMiddleware.BearerToken | server/middleware/authMiddleware.ts:12-13 | a token, when there is one, is a non-empty text without spaces |
| AuthMiddleware.Decide | server/middleware/authMiddleware.ts:15-26 | 401 without a token, 403 when the token does not verify, otherwise the verified claims; `DecideRefusals` is its partner |
| AuthMiddleware.TokenAfterScheme | server/middleware/authMiddleware.ts:13 | the word after the first space is the token, whatever the scheme word is |
| AuthMiddleware.NoSpaceNoToken | server/middleware/authMiddleware.ts:13-17 | a header without a space carries no token |
| AuthMiddleware.DecideRefusals | server/middleware/authMiddleware.ts:15-23 | refused exactly when there is no token or it does not verify; 401 for a missing header; an accepted request gets the verified claims |
| AuthMiddleware.SessionAccepted | server/middleware/authMiddleware.ts:11-26 | with a sound library, a login's token sent as `Bearer <token>` is accepted with that account's claims |
| AuthMiddleware.AuthenticateToken | server/middleware/authMiddleware.ts:11-27 | on refusal the status and error are set and the chain is not called; on acceptance `req.user` holds the claims and the chain is called once |
| DbInit.InitializeDatabase | server/dbInit.ts:7-25 | a database error is passed on and changes nothing. Otherwise, with no account, exactly the default `admin` account is created; with one, nothing changes; an administrator exists afterwards |
| Routes.CoerceConsent | server/routes.ts:42-44 | the texts `"true"` and `"false"` become booleans, any other consent is kept, and no other key changes |
| Routes.ConsentAccepted | server/routes.ts:43-54 | consent passes exactly when the body sent the text `"true"` or the boolean `true` |
| Routes.ClientFilesIgnored | server/routes.ts:51-54 | a `files` value sent by the client never reaches the validator |
| Routes.UploadsStored | server/routes.ts:47-57 | the uploads are stored as their JSON text, or NULL when there are none, and that text reads back as the names |
| Routes.Outbox.Send | server/routes.ts:64-67 | the message is recorded exactly when the server accepts it |
| Routes.SendBoth | server/routes.ts:63-70 | the notification, when it can be built, then the auto-reply, each recorded only when accepted |
| Routes.SendMails | server/routes.ts:63-70 | the messages of the request that get through are appended to what was sent |
| Routes.Publish | server/routes.ts:59-76 | when the document cannot be drawn: 500, an unfinished file, no mail. Otherwise: the finished file, the mails that got through and the ticket reply |
| Routes.Persist | server/routes.ts:56-76 | a failing insert is answered 500 and changes nothing; after an insert the row stays stored whatever follows |
| Routes.SubmitRequest | server/routes.ts:39-90 | both submission routes: a rejected body gets 400 with the issues and changes nothing; an accepted one is stored, drawn and mailed; only a failing insert or document gives 500 |
| Routes.AdminGate | server/routes.ts:147-155 | admits only a non-empty text password: `admin123` when no password is configured, otherwise exactly the configured one |
| Routes.AdminAllowed | server/routes.ts:147-155 | the `password` query value is exactly `ADMIN_PASSWORD`, or `admin123` when that is unset or empty; `AdminGate` is its partner |
| Routes.QueryFilters | server/routes.ts:160-170 | an absent type means all types; the date bounds are passed through |
| Routes.UnfilteredKeepsAll | server/routes.ts:160-170 | without filters every row is kept |
| Routes.ListRequests | server/routes.ts:158-177 | 401 without the password; otherwise the matching rows, each once, newest first |
| Routes.HeaderLineUnbroken | server/routes.ts:195-200 | the header line holds no line break |
| Routes.HeaderLineCells | server/routes.ts:195-200 | the header line splits back into the thirteen headers |
| Routes.CsvCells | server/routes.ts:203-217 | thirteen cells per row, one per header |
| Routes.CsvLines | server/routes.ts:202-219 | one line per request, in order |
| Routes.PushRows | server/routes.ts:202-219 | the loop appends exactly the request lines, in order, after the lines already there |
| Routes.BuildCsv | server/routes.ts:195-223 | the export text: the header line, then the request lines, joined by newlines |
| Routes.UnescapeDoubled | server/routes.ts:216 | doubling the quotes of a text can be undone by reading it as in section 2 of RFC 4180 |
| Routes.DescriptionCellReadsBack | server/routes.ts:216 | the description cell reads back as the description, whatever quotes it holds |
| Routes.QuotedNameUnreadable | server/routes.ts:207-210 | a name holding a quote does not read back from its cell, since its quotes are not doubled |
| Routes.RowCells | server/routes.ts:203-218 | a row without commas in its cells splits into as many cells as the header line |
| Routes.ExportLines | server/routes.ts:200-223 | without line breaks inside cells, the export splits into the header line and one line per request |
| Routes.ExportCsv | server/routes.ts:180-229 | 401 without the password; otherwise the export of exactly the matching rows, newest first |
| Routes.ServePdf | server/routes.ts:239-247 | an existing file is sent as it is; otherwise the document is drawn anew and sent, or a 500 with an unfinished file |
| Routes.DownloadPdf | server/routes.ts:232-253 | 401 without the password, 404 for an unknown id, otherwise as `ServePdf` says |
| Routes.WhitelistIsConstraint | server/routes.ts:260 | the handler's status list is the table's CHECK constraint |
| Routes.UpdateStatus | server/routes.ts:256-271 | 401 without the password; 400 and no change for a status outside the list; otherwise the rows with that id take the status and time, and success even when none has that id |
| Routes.GenerateBlankForms | server/routes.ts:31-36 | both blank templates are written at start-up |
| FileUpload.Rejection | client/src/components/forms/FileUpload.tsx:29-46 | no complaint exactly when the size is within the limit and some accepted pattern matches |
| FileUpload.Kept | client/src/components/forms/FileUpload.tsx:28-49 | exactly the files of the batch that pass both checks |
| FileUpload.Take | client/src/components/forms/FileUpload.tsx:52 | a prefix of at most `maxFiles` entries, the whole list when it is short enough |
| FileUpload.SizeBoundary | client/src/components/forms/FileUpload.tsx:30 | exactly `maxSizeMB` MiB is allowed, one byte more is not |
| FileUpload.WildcardPrefix | client/src/components/forms/FileUpload.tsx:37-39 | `<base>/*` matches exactly the types starting with `base` |
| FileUpload.PatternMatches | client/src/components/forms/FileUpload.tsx:36-41 | a pattern ending in `/*` is a prefix test on the type without those two characters; any other pattern needs the identical type. `WildcardPrefix` and `ExactPattern` are its partners |
| FileUpload.ImagePatternAcceptsImagery | client/src/components/forms/FileUpload.tsx:36-41 | `image/*` accepts `imagery` as well as `image/png`; `video/mp4` rejects `video/webm` |
| FileUpload.ExactPattern | client/src/components/forms/FileUpload.tsx:40 | a pattern without `/*` matches only the identical type |
| FileUpload.KeptOrComplained | client/src/components/forms/FileUpload.tsx:28-49 | every file of a batch is either kept or complained about |
| FileUpload.WithoutIndex | client/src/components/forms/FileUpload.tsx:64 | removing an index in range drops that entry alone and keeps the order |
| FileUpload.WithoutOutside | client/src/components/forms/FileUpload.tsx:64 | removing an index out of range changes nothing |
| FileUpload.WithoutLength | client/src/components/forms/FileUpload.tsx:64 | removal never lengthens the selection |
| FileUpload.SelectionGrows | client/src/components/forms/FileUpload.tsx:52 | the old selection is a prefix of the new one, new entries passed both checks, the count stays within the maximum, and at the maximum nothing changes |
| FileUpload.FileUploader.constructor | client/src/components/forms/FileUpload.tsx:12-18 | an empty selection with the given limits |
| FileUpload.FileUploader.HandleFiles | client/src/components/forms/FileUpload.tsx:22-61 | no list changes nothing. Otherwise the accepted files are appended, the result is capped and reported, and the complaints are returned |
| FileUpload.FileUploader.RemoveFile | client/src/components/forms/FileUpload.tsx:63-67 | the selection without that position, reported |

## Left out

- Writing the PDF bytes, PDFKit's font metrics, and date formatting are outside this model. A document is its sequence of text lines. Width and time formatting come from the `Renderer` parameter.
- The page height is the default LETTER height of 792 points; PDFKit's automatic page breaks are not modelled.
- Sending the mails over SMTP is outside this model. A message is a value, and whether the server accepts it is a parameter.
- The two sends run through `Promise.all`; they are modelled in order, notification first. A failure of either is only logged and does not change the reply.
- The HTML text of the messages is modelled as a sequence of blocks. Whitespace and markup are not modelled.
- bcrypt and JSON Web Tokens are function parameters. Salt rounds, the secret and the 24-hour expiry are inside the library; `JWT_SECRET` missing at load time is not modelled.
- Schema.EmailCheck: zod's e-mail grammar is a predicate parameter, not zod's regular expression.
- Zod's default messages for missing and mistyped values are shortened to "Required", "Expected string", "Expected boolean", "Invalid enum value" and "Invalid literal value". Zod's issue codes and the order within one key (zod may report several) are not modelled; each check reports at most one issue.
- Json.Parse: it accepts only arrays of strings written without insignificant whitespace. `JSON.parse` also accepts whitespace between tokens and arrays holding other values, such as `[ "a" ]` and `[1]`; on those the document and the notification fail in the model where the code lists the items. The code fails later only on values that are not arrays, which have no `forEach` or `map`. The routes never hand either of these to the generator or the mailer: `UploadsStored` proves the stored `files` text is always the output of `Json.Stringify` or NULL.
- Text.ToUpper: upper-cases ASCII letters only. The texts it is applied to (base-36 digits and a UUID prefix) are ASCII.
- Strings are sequences of code points; UTF-16 surrogates and Unicode normalisation are not modelled.
- The rate limiter and the multer upload middleware are not part of this model. The uploads reach `SubmitRequest` as the stored file names.
- The `/forms/:filename` route (server/routes.ts:19-28) serves a static file and is not modelled.
- The `Content-Disposition` header, with the export's `Date.now()` file name, is not modelled.
- Routes.ListRequests: the 500 answer for a failing database is not modelled. The same holds for ExportCsv, DownloadPdf and UpdateStatus. Only the insert failures and the drawing failures of the submission are modelled.
- Routes.SubmitRequest: the tenant route (server/routes.ts:93-144) is the same code under the tenant schema and is modelled by the same method with `Kind.Tenant`.
- The ORM's row conversions are not modelled. Booleans stored as 0 and 1, the `returning()` row and timestamp texts are taken as given.
- Storage.RequestStore.CreateRequest: the UUID and the row id are given, not drawn; the column widths of the PostgreSQL schema in shared/schema.ts are not enforced on the SQLite table.
- AuthService.AdminStore.CreateAdminUser: the 255-character width of the hash column is not checked. For a name over 100 characters the contract does not say whether the `serial` id was drawn before PostgreSQL refused the value (it allows either); for a taken name it states that the id is used up, since the unique index rejects the row only after `nextval`.
- The `ADMIN_PASSWORD` environment variable is a parameter of the admin handlers.
- File-system errors (a directory that cannot be created, a stream that fails) are not modelled. The file a failed drawing leaves behind is marked `Incomplete`.
- `formatFileSize` and the drag-and-drop state of the file picker are presentation only; `formatFileSize` uses floating point. Neither is modelled.
- FileUpload.FileUploader.HandleFiles: the errors are returned instead of logged to the console.
- Console logging everywhere is left out.
