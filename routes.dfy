/**
 * The HTTP handlers of the server: the landlord and tenant submissions
 * (validate, store, draw the document, send the two mails best-effort,
 * answer with the ticket), the admin password gate, and the admin list,
 * CSV export, document download and status update, plus the blank forms
 * drawn at start-up. Each handler is a method over the request table, the
 * files on disk and the mail transport; what the libraries and the clock
 * decide arrives as parameters.
 */
module Routes {
  import opened Wrappers
  import opened Text
  import Json
  import opened Schema
  import opened Storage
  import PdfGenerator
  import EmailService

  // ---------------------------------------------------------------------------
  // Replies

  /** What a handler answers with. */
  datatype Reply =
    | Submitted(ticketId: string, message: string)  // 200 `{ success: true, ticketId, message }`
    | Invalid(details: seq<Issue>)                   // 400 `{ error: "Validation error", details }`
    | Error(status: nat, error: string)              // `{ error }` under that status
    | Listed(requests: seq<Request>)                 // 200, the rows as JSON
    | Csv(text: string)                              // 200, `text/csv`
    | PdfSent(path: string)                          // the file at that path
    | StatusChanged                                  // 200 `{ success: true }`

  const SubmittedMessage: string := "Request submitted successfully"
  const InternalError: string := "Internal server error"
  const InvalidPassword: string := "Invalid admin password"
  const RequestNotFound: string := "Request not found"
  const InvalidStatus: string := "Invalid status"
  const DefaultAdminPassword: string := "admin123"
  const AllowedStatuses: seq<string> := ["new", "in-progress", "closed"]

  /** The HTTP status of a reply. */
  function StatusOf(reply: Reply): nat
  {
    match reply
    case Invalid(_) => 400
    case Error(status, _) => status
    case _ => 200
  }

  // ---------------------------------------------------------------------------
  // The submitted form

  /** A multipart body carries consent as text: `"true"` and `"false"` become booleans, anything else is kept. */
  function CoerceConsent(body: Form): (form: Form)
    ensures Get(body, "consent") == Str("true") ==> Get(form, "consent") == Bool(true)
    ensures Get(body, "consent") == Str("false") ==> Get(form, "consent") == Bool(false)
    ensures Get(body, "consent") != Str("true") && Get(body, "consent") != Str("false") ==> form == body
    ensures forall k :: k != "consent" ==> Get(form, k) == Get(body, k)
  {
    if Get(body, "consent") == Str("true") then body["consent" := Bool(true)]
    else if Get(body, "consent") == Str("false") then body["consent" := Bool(false)]
    else body
  }

  /** The `files` value the handler validates: the JSON text of the stored upload names, or nothing when there are none. */
  function UploadsValue(uploads: seq<string>): Value
  {
    if |uploads| > 0 then Str(Json.Stringify(uploads)) else Missing
  }

  /** The object handed to the validator: the coerced body with `files` replaced by the uploads. */
  function SubmissionForm(body: Form, uploads: seq<string>): Form
  {
    CoerceConsent(body)["files" := UploadsValue(uploads)]
  }

  /** Consent passes validation exactly when the body sent the text `"true"` or the boolean `true`. */
  lemma ConsentAccepted(body: Form, uploads: seq<string>)
    ensures ConsentCheck(SubmissionForm(body, uploads)) == [] <==>
      Get(body, "consent") == Str("true") || Get(body, "consent") == Bool(true)
  {
    assert Get(SubmissionForm(body, uploads), "consent") == Get(CoerceConsent(body), "consent");
  }

  /** A `files` field the client sends itself never reaches the validator: the uploads alone decide it. */
  lemma ClientFilesIgnored(body: Form, uploads: seq<string>, v: Value)
    ensures SubmissionForm(body["files" := v], uploads) == SubmissionForm(body, uploads)
  {
    var a := SubmissionForm(body["files" := v], uploads);
    var b := SubmissionForm(body, uploads);
    assert forall k :: k in a <==> k in b;
    assert forall k :: k in a ==> Get(a, k) == Get(b, k);
  }

  /**
   * The uploads of an accepted submission are stored as their JSON text, or
   * as NULL when there are none, and that text reads back as the names.
   */
  lemma UploadsStored(kind: Kind, body: Form, uploads: seq<string>, isEmail: string -> bool)
    requires Parse(kind, SubmissionForm(body, uploads), isEmail).Success?
    ensures var files := NormalizeFiles(Parse(kind, SubmissionForm(body, uploads), isEmail).value.files);
      && (|uploads| == 0 ==> files == None)
      && (|uploads| > 0 ==> files == Some(Json.Stringify(uploads)) && Json.Parse(files.value) == Some(uploads))
  {
    Json.ParseStringify(uploads);
  }

  // ---------------------------------------------------------------------------
  // The mail transport

  /** The transport: the messages the SMTP server accepted, in the order they were handed over. */
  class Outbox {
    var sent: seq<EmailService.Mail>

    constructor()
      ensures sent == []
    {
      sent := [];
    }

    /** `transporter.sendMail(mail)`; `accepted` is whether the server took it. */
    method Send(mail: EmailService.Mail, accepted: bool)
      modifies this
      ensures sent == old(sent) + (if accepted then [mail] else [])
    {
      if accepted {
        sent := sent + [mail];
      }
    }
  }

  /**
   * What the environment decides for one submission: the e-mail check of the
   * validator, the generated row values, the PDF renderer, the mail settings,
   * and whether the server accepts each of the two messages.
   */
  datatype Context = Context(
    isEmail: string -> bool,
    gen: Generated,
    rd: PdfGenerator.Renderer,
    mailEnv: EmailService.MailEnv,
    notificationAccepted: bool,
    autoReplyAccepted: bool)

  /** The messages that get through of a notification (when its body could be built) and an auto-reply, each sent only when accepted. */
  function Accepted(notification: Result<EmailService.Mail, string>, autoReply: EmailService.Mail,
                    notificationAccepted: bool, autoReplyAccepted: bool): seq<EmailService.Mail>
  {
    (if notification.Success? && notificationAccepted then [notification.value] else [])
    + (if autoReplyAccepted then [autoReply] else [])
  }

  /** The messages of a stored request that get through. */
  function Delivered(r: Request, pdfPath: string, ctx: Context): seq<EmailService.Mail>
  {
    Accepted(EmailService.OperationsNotification(r, pdfPath, ctx.mailEnv), EmailService.AutoReply(r, ctx.mailEnv),
             ctx.notificationAccepted, ctx.autoReplyAccepted)
  }

  /**
   * What drawing the document and sending the mails for a stored request
   * leave behind: when the document cannot be drawn, a 500, the unfinished
   * file and no mail; otherwise the finished file, the mails that got
   * through and the 200 with the ticket.
   */
  predicate Published(
    request: Request, ctx: Context, reply: Reply,
    filesBefore: map<string, PdfGenerator.StoredFile>, filesAfter: map<string, PdfGenerator.StoredFile>,
    sentBefore: seq<EmailService.Mail>, sentAfter: seq<EmailService.Mail>)
  {
    var path := PdfGenerator.RequestPdfPath(request.ticketId);
    var document := PdfGenerator.RequestDocument(request, ctx.rd);
    match document
    case Failure(_) =>
      && reply == Error(500, InternalError)
      && filesAfter == filesBefore[path := PdfGenerator.Incomplete]
      && sentAfter == sentBefore
    case Success(lines) =>
      && reply == Submitted(request.ticketId, SubmittedMessage)
      && filesAfter == filesBefore[path := PdfGenerator.Complete(lines)]
      && sentAfter == sentBefore + Delivered(request, path, ctx)
  }

  /** Both sends, each failure only logged. */
  method SendBoth(notification: Result<EmailService.Mail, string>, autoReply: EmailService.Mail,
                  notificationAccepted: bool, autoReplyAccepted: bool, outbox: Outbox)
    modifies outbox
    ensures outbox.sent == old(outbox.sent) + Accepted(notification, autoReply, notificationAccepted, autoReplyAccepted)
  {
    if notification.Success? {
      outbox.Send(notification.value, notificationAccepted);
    }
    outbox.Send(autoReply, autoReplyAccepted);
  }

  /** `Promise.all` of the two sends inside a `try` whose failure is only logged. */
  method SendMails(request: Request, pdfPath: string, ctx: Context, outbox: Outbox)
    modifies outbox
    ensures outbox.sent == old(outbox.sent) + Delivered(request, pdfPath, ctx)
  {
    SendBoth(EmailService.OperationsNotification(request, pdfPath, ctx.mailEnv), EmailService.AutoReply(request, ctx.mailEnv),
             ctx.notificationAccepted, ctx.autoReplyAccepted, outbox);
  }

  /** The steps after the insert: the document, then the mails, then the answer. */
  method Publish(request: Request, ctx: Context, disk: PdfGenerator.Disk, outbox: Outbox)
    returns (reply: Reply)
    modifies disk, outbox
    ensures Published(request, ctx, reply, old(disk.files), disk.files, old(outbox.sent), outbox.sent)
  {
    var drawn := disk.GenerateRequestPdf(request, ctx.rd);
    if drawn.Failure? {
      return Error(500, InternalError);
    }
    SendMails(request, drawn.value, ctx, outbox);
    reply := Submitted(request.ticketId, SubmittedMessage);
  }

  /**
   * The steps after validation: a failing insert is answered 500 and changes
   * nothing; after a successful insert the row stays stored whatever follows,
   * and the rest is as `Published` says.
   */
  method Persist(data: InsertRequest, ctx: Context, store: RequestStore, disk: PdfGenerator.Disk, outbox: Outbox)
    returns (reply: Reply)
    requires store.Valid() && data.role in Roles
    modifies store, disk, outbox
    ensures store.Valid()
    ensures HasId(old(store.rows), ctx.gen.rowId) ==>
      reply == Error(500, InternalError) && unchanged(store, disk, outbox)
    ensures !HasId(old(store.rows), ctx.gen.rowId) ==>
      && store.rows == old(store.rows) + [Inserted(data, ctx.gen)]
      && Published(Inserted(data, ctx.gen), ctx, reply, old(disk.files), disk.files, old(outbox.sent), outbox.sent)
  {
    var created := store.CreateRequest(data, ctx.gen);
    if created.Failure? {
      return Error(500, InternalError);
    }
    reply := Publish(created.value, ctx, disk, outbox);
  }

  /**
   * `POST /api/requests/landlord` and `POST /api/requests/tenant`. A body the
   * validator rejects is answered 400 with the issues and nothing is stored,
   * drawn or sent; an accepted one goes on as `Persist` says: the mails are
   * sent best-effort and only a failing insert or document turns the answer
   * into 500.
   */
  method SubmitRequest(
    kind: Kind, body: Form, uploads: seq<string>, ctx: Context,
    store: RequestStore, disk: PdfGenerator.Disk, outbox: Outbox)
    returns (reply: Reply)
    requires store.Valid()
    modifies store, disk, outbox
    ensures store.Valid()
    ensures var parsed := Parse(kind, SubmissionForm(body, uploads), ctx.isEmail);
      parsed.Failure? ==> reply == Invalid(parsed.error) && unchanged(store, disk, outbox)
    ensures var parsed := Parse(kind, SubmissionForm(body, uploads), ctx.isEmail);
      parsed.Success? && HasId(old(store.rows), ctx.gen.rowId) ==>
        reply == Error(500, InternalError) && unchanged(store, disk, outbox)
    ensures var parsed := Parse(kind, SubmissionForm(body, uploads), ctx.isEmail);
      parsed.Success? && !HasId(old(store.rows), ctx.gen.rowId) ==>
        && store.rows == old(store.rows) + [Inserted(parsed.value, ctx.gen)]
        && Published(Inserted(parsed.value, ctx.gen), ctx, reply, old(disk.files), disk.files, old(outbox.sent), outbox.sent)
  {
    var parsed := Parse(kind, SubmissionForm(body, uploads), ctx.isEmail);
    if parsed.Failure? {
      return Invalid(parsed.error);
    }
    reply := Persist(parsed.value, ctx, store, disk, outbox);
  }

  // ---------------------------------------------------------------------------
  // The admin gate

  /** `process.env.ADMIN_PASSWORD || "admin123"`. */
  function AdminPassword(configured: Option<string>): string
  {
    EmailService.OrElse(configured, DefaultAdminPassword)
  }

  /** `requireAdminAuth`: the `password` query value is exactly the admin password. */
  predicate AdminAllowed(password: Value, configured: Option<string>)
  {
    password == Str(AdminPassword(configured))
  }

  /**
   * The gate never admits a request without a password or with an empty one;
   * with no password configured, or an empty one, it admits `admin123` alone,
   * and otherwise the configured text alone.
   */
  lemma AdminGate(password: Value, configured: Option<string>)
    ensures AdminAllowed(password, configured) ==> password.Str? && password.s != ""
    ensures !Truthy(configured) ==> (AdminAllowed(password, configured) <==> password == Str("admin123"))
    ensures Truthy(configured) ==> (AdminAllowed(password, configured) <==> password == Str(configured.value))
  {
  }

  /** The query of the admin list and export: the password and the three optional filters. */
  datatype AdminQuery = AdminQuery(password: Value, role: Option<string>, dateFrom: Option<string>, dateTo: Option<string>)

  /** `const { type = 'all', date_from, date_to } = req.query`: an absent type means every type. */
  function QueryFilters(q: AdminQuery): (f: Filters)
    ensures q.role.None? ==> f.role == Some("all")
    ensures q.role.Some? ==> f.role == q.role
    ensures f.dateFrom == q.dateFrom && f.dateTo == q.dateTo
  {
    Filters(if q.role.Some? then q.role else Some("all"), q.dateFrom, q.dateTo)
  }

  /** With no filters the store filter keeps every row. */
  lemma {:induction false} UnfilteredKeepsAll(rows: seq<Request>, q: AdminQuery)
    requires q.role.None? && !Truthy(q.dateFrom) && !Truthy(q.dateTo)
    ensures Where(rows, QueryFilters(q)) == rows
  {
    if |rows| > 0 {
      UnfilteredKeepsAll(rows[1..], q);
      assert [rows[0]] + rows[1..] == rows;
    }
  }

  /** `GET /api/admin/requests`: the rows matching the filters, newest first. */
  method ListRequests(q: AdminQuery, configured: Option<string>, store: RequestStore) returns (reply: Reply)
    ensures !AdminAllowed(q.password, configured) ==> reply == Error(401, InvalidPassword)
    ensures AdminAllowed(q.password, configured) ==>
      && reply.Listed?
      && SortedDesc(reply.requests)
      && multiset(reply.requests) == multiset(Where(store.rows, QueryFilters(q)))
  {
    if !AdminAllowed(q.password, configured) {
      return Error(401, InvalidPassword);
    }
    var requests := store.GetAllRequests(QueryFilters(q));
    reply := Listed(requests);
  }

  // ---------------------------------------------------------------------------
  // CSV export

  const CsvHeaders: seq<string> :=
    ["ID", "Type", "Ticket ID", "Name", "Email", "Phone", "Address", "Unit",
     "Company", "Request Type", "Status", "Created At", "Description"]

  /** `headers.join(',')`. */
  const HeaderLine: string := Join(CsvHeaders, ",")

  /** The header line holds no line break. */
  lemma HeaderLineUnbroken()
    ensures '\n' !in HeaderLine
  {
    JoinFree(CsvHeaders, ",", '\n');
  }

  /** The header line splits back into the thirteen headers. */
  lemma HeaderLineCells()
    ensures Split(HeaderLine, ',') == CsvHeaders
  {
    SplitJoin(CsvHeaders, ',');
  }

  /** `s.replace(/"/g, '""')`. */
  function DoubleQuotes(s: string): string
  {
    if |s| == 0 then ""
    else (if s[0] == '"' then "\"\"" else [s[0]]) + DoubleQuotes(s[1..])
  }

  function Quoted(s: string): string
  {
    "\"" + s + "\""
  }

  /** The thirteen cells of a request's row, in header order. */
  function CsvCells(r: Request): (cells: seq<string>)
    ensures |cells| == |CsvHeaders|
  {
    [r.id, r.role, r.ticketId, Quoted(r.fullName), r.email, r.phone, Quoted(r.address),
     EmailService.OrElse(r.unit, ""), EmailService.OrElse(r.company, ""), r.requestType,
     r.status, r.createdAt, Quoted(DoubleQuotes(r.description))]
  }

  function CsvLine(r: Request): string
  {
    Join(CsvCells(r), ",")
  }

  function CsvLines(requests: seq<Request>): (lines: seq<string>)
    ensures |lines| == |requests|
    ensures forall i :: 0 <= i < |requests| ==> lines[i] == CsvLine(requests[i])
  {
    if |requests| == 0 then [] else [CsvLine(requests[0])] + CsvLines(requests[1..])
  }

  lemma {:induction false} CsvLinesSnoc(requests: seq<Request>, r: Request)
    ensures CsvLines(requests + [r]) == CsvLines(requests) + [CsvLine(r)]
  {
    assert |CsvLines(requests + [r])| == |CsvLines(requests) + [CsvLine(r)]|;
    forall i | 0 <= i < |requests| + 1
      ensures CsvLines(requests + [r])[i] == (CsvLines(requests) + [CsvLine(r)])[i]
    {
      assert (requests + [r])[i] == if i < |requests| then requests[i] else r;
    }
  }

  /** The export: the header line, then one line per request, joined by newlines. */
  function CsvText(requests: seq<Request>): string
  {
    Join([HeaderLine] + CsvLines(requests), "\n")
  }

  /** `requests.forEach(req => csvRows.push(row.join(',')))`: one line per request after the rows already there. */
  method PushRows(first: seq<string>, requests: seq<Request>) returns (csvRows: seq<string>)
    ensures csvRows == first + CsvLines(requests)
  {
    csvRows := first;
    var i := 0;
    while i < |requests|
      invariant 0 <= i <= |requests|
      invariant csvRows == first + CsvLines(requests[..i])
    {
      CsvLinesSnoc(requests[..i], requests[i]);
      assert requests[..i + 1] == requests[..i] + [requests[i]];
      csvRows := csvRows + [CsvLine(requests[i])];
      i := i + 1;
    }
    assert requests[..i] == requests;
  }

  /** Builds the export: the header line, the request lines, joined by newlines. */
  method BuildCsv(requests: seq<Request>) returns (text: string)
    ensures text == CsvText(requests)
  {
    var csvRows := PushRows([HeaderLine], requests);
    text := Join(csvRows, "\n");
  }

  /**
   * Reading a double-quoted CSV cell the way section 2 of RFC 4180 says: the
   * text between the outer quotes, with each `""` standing for one quote; a
   * lone quote inside makes the cell unreadable.
   */
  function Unescape(t: string): Option<string>
  {
    if |t| == 0 then Some("")
    else if t[0] != '"' then
      match Unescape(t[1..])
      case None => None
      case Some(rest) => Some([t[0]] + rest)
    else if |t| >= 2 && t[1] == '"' then
      match Unescape(t[2..])
      case None => None
      case Some(rest) => Some("\"" + rest)
    else None
  }

  function ReadQuoted(cell: string): Option<string>
  {
    if |cell| >= 2 && cell[0] == '"' && cell[|cell| - 1] == '"' then Unescape(cell[1..|cell| - 1]) else None
  }

  lemma {:induction false} UnescapeDoubled(s: string)
    ensures Unescape(DoubleQuotes(s)) == Some(s)
  {
    if |s| > 0 {
      UnescapeDoubled(s[1..]);
      var t := DoubleQuotes(s);
      if s[0] == '"' {
        assert t[2..] == DoubleQuotes(s[1..]);
      } else {
        assert t[1..] == DoubleQuotes(s[1..]);
      }
      assert [s[0]] + s[1..] == s;
    }
  }

  /** The description cell reads back as the description, whatever quotes it holds. */
  lemma DescriptionCellReadsBack(r: Request)
    ensures ReadQuoted(CsvCells(r)[12]) == Some(r.description)
  {
    UnescapeDoubled(r.description);
    var cell := Quoted(DoubleQuotes(r.description));
    assert cell[1..|cell| - 1] == DoubleQuotes(r.description);
  }

  /** Reading back never lengthens a text, and shortens any text holding a quote. */
  lemma {:induction false} UnescapeShortens(t: string)
    requires Unescape(t).Some?
    ensures |Unescape(t).value| <= |t|
    ensures '"' in t ==> |Unescape(t).value| < |t|
  {
    if |t| > 0 {
      if t[0] != '"' {
        UnescapeShortens(t[1..]);
        assert '"' in t ==> '"' in t[1..];
      } else {
        UnescapeShortens(t[2..]);
      }
    }
  }

  /**
   * Name and address are quoted without doubling their quotes, so a name or
   * address holding a quote does not read back as itself.
   */
  lemma QuotedNameUnreadable(r: Request)
    requires '"' in r.fullName
    ensures ReadQuoted(CsvCells(r)[3]) != Some(r.fullName)
  {
    var cell := Quoted(r.fullName);
    assert cell[1..|cell| - 1] == r.fullName;
    if Unescape(r.fullName).Some? {
      UnescapeShortens(r.fullName);
    }
  }

  /** A row whose cells hold no comma splits back into its thirteen cells, one per header. */
  lemma RowCells(r: Request)
    requires forall i :: 0 <= i < |CsvHeaders| ==> ',' !in CsvCells(r)[i]
    ensures Split(CsvLine(r), ',') == CsvCells(r)
    ensures |Split(CsvLine(r), ',')| == |Split(HeaderLine, ',')|
  {
    SplitJoin(CsvCells(r), ',');
    HeaderLineCells();
  }

  /** A join of parts and a separator that all lack a character lacks it too. */
  lemma {:induction false} JoinFree(parts: seq<string>, sep: string, c: char)
    requires c !in sep
    requires forall i :: 0 <= i < |parts| ==> c !in parts[i]
    ensures c !in Join(parts, sep)
  {
    if |parts| > 1 {
      JoinFree(parts[1..], sep, c);
    }
  }

  /** A first line and further lines, none holding a line break, split back out of their join. */
  lemma SplitLines(first: string, rest: seq<string>)
    requires '\n' !in first
    requires forall i :: 0 <= i < |rest| ==> '\n' !in rest[i]
    ensures Split(Join([first] + rest, "\n"), '\n') == [first] + rest
  {
    var lines := [first] + rest;
    assert forall i :: 0 < i < |lines| ==> lines[i] == rest[i - 1];
    SplitJoin(lines, '\n');
  }

  /** When no line breaks inside a cell, the export splits into the header line and one line per request, in order. */
  lemma ExportLines(requests: seq<Request>)
    requires forall i :: 0 <= i < |requests| ==> '\n' !in CsvLine(requests[i])
    ensures Split(CsvText(requests), '\n') == [HeaderLine] + CsvLines(requests)
  {
    var lines := CsvLines(requests);
    assert forall i :: 0 <= i < |lines| ==> '\n' !in lines[i];
    HeaderLineUnbroken();
    SplitLines(HeaderLine, lines);
    assert CsvText(requests) == Join([HeaderLine] + lines, "\n");
  }

  /** `GET /api/admin/requests/export.csv`: the export of the rows the list would show, in that order. */
  method ExportCsv(q: AdminQuery, configured: Option<string>, store: RequestStore) returns (reply: Reply)
    ensures !AdminAllowed(q.password, configured) ==> reply == Error(401, InvalidPassword)
    ensures AdminAllowed(q.password, configured) ==>
      && reply.Csv?
      && exists requests ::
           && SortedDesc(requests)
           && multiset(requests) == multiset(Where(store.rows, QueryFilters(q)))
           && reply.text == CsvText(requests)
  {
    if !AdminAllowed(q.password, configured) {
      return Error(401, InvalidPassword);
    }
    var requests := store.GetAllRequests(QueryFilters(q));
    var text := BuildCsv(requests);
    reply := Csv(text);
  }

  // ---------------------------------------------------------------------------
  // Download and status

  /**
   * What serving a request's document leaves behind: the stored file when
   * one exists at the ticket's path, finished or not; otherwise the document
   * drawn anew and sent, or a 500 and an unfinished file when drawing fails.
   */
  predicate Served(
    request: Request, rd: PdfGenerator.Renderer, reply: Reply,
    filesBefore: map<string, PdfGenerator.StoredFile>, filesAfter: map<string, PdfGenerator.StoredFile>)
  {
    var path := PdfGenerator.RequestPdfPath(request.ticketId);
    if path in filesBefore then reply == PdfSent(path) && filesAfter == filesBefore
    else
      match PdfGenerator.RequestDocument(request, rd)
      case Success(lines) => reply == PdfSent(path) && filesAfter == filesBefore[path := PdfGenerator.Complete(lines)]
      case Failure(_) => reply == Error(500, InternalError) && filesAfter == filesBefore[path := PdfGenerator.Incomplete]
  }

  method ServePdf(request: Request, disk: PdfGenerator.Disk, rd: PdfGenerator.Renderer) returns (reply: Reply)
    modifies disk
    ensures Served(request, rd, reply, old(disk.files), disk.files)
  {
    var pdfPath := PdfGenerator.PdfDir + "/" + "request-" + request.ticketId + ".pdf";
    assert pdfPath == PdfGenerator.RequestPdfPath(request.ticketId);
    if pdfPath in disk.files {
      return PdfSent(pdfPath);
    }
    var drawn := disk.GenerateRequestPdf(request, rd);
    match drawn {
      case Success(newPath) => reply := PdfSent(newPath);
      case Failure(_) => reply := Error(500, InternalError);
    }
  }

  /** `GET /api/admin/requests/:id.pdf`: 404 for an unknown id, otherwise the request's document as `Served` says. */
  method DownloadPdf(
    id: string, password: Value, configured: Option<string>,
    store: RequestStore, disk: PdfGenerator.Disk, rd: PdfGenerator.Renderer)
    returns (reply: Reply)
    modifies disk
    ensures !AdminAllowed(password, configured) ==> reply == Error(401, InvalidPassword) && unchanged(disk)
    ensures AdminAllowed(password, configured) && store.GetRequest(id).None? ==>
      reply == Error(404, RequestNotFound) && unchanged(disk)
    ensures AdminAllowed(password, configured) && store.GetRequest(id).Some? ==>
      Served(store.GetRequest(id).value, rd, reply, old(disk.files), disk.files)
  {
    if !AdminAllowed(password, configured) {
      return Error(401, InvalidPassword);
    }
    var request := store.GetRequest(id);
    if request.None? {
      return Error(404, RequestNotFound);
    }
    reply := ServePdf(request.value, disk, rd);
  }

  /** The handler's status whitelist is the table's CHECK constraint. */
  lemma WhitelistIsConstraint(status: string)
    ensures status in AllowedStatuses <==> status in Statuses
  {
  }

  /**
   * `PATCH /api/admin/requests/:id/status`: a status outside `new`,
   * `in-progress` and `closed` (or not a text) is answered 400 and nothing
   * changes; otherwise the row with that id, if any, takes the status and
   * the update time, and the answer is success even when no row has that id.
   */
  method UpdateStatus(
    id: string, status: Value, password: Value, configured: Option<string>, isoNow: string,
    store: RequestStore)
    returns (reply: Reply)
    requires store.Valid()
    modifies store
    ensures store.Valid()
    ensures !AdminAllowed(password, configured) ==> reply == Error(401, InvalidPassword) && unchanged(store)
    ensures AdminAllowed(password, configured) && !(status.Str? && status.s in AllowedStatuses) ==>
      reply == Error(400, InvalidStatus) && unchanged(store)
    ensures AdminAllowed(password, configured) && status.Str? && status.s in AllowedStatuses ==>
      reply == StatusChanged && store.rows == Updated(old(store.rows), id, status.s, isoNow)
  {
    if !AdminAllowed(password, configured) {
      return Error(401, InvalidPassword);
    }
    if !(status.Str? && status.s in AllowedStatuses) {
      return Error(400, InvalidStatus);
    }
    var updated := store.UpdateRequestStatus(id, status.s, isoNow);
    reply := StatusChanged;
  }

  // ---------------------------------------------------------------------------
  // Start-up

  /** The blank landlord and tenant forms drawn when the routes are registered. */
  method GenerateBlankForms(disk: PdfGenerator.Disk)
    modifies disk
    ensures disk.files == old(disk.files)
      [PdfGenerator.BlankPdfPath(Landlord) := PdfGenerator.Complete(PdfGenerator.BlankDocument(Landlord))]
      [PdfGenerator.BlankPdfPath(Tenant) := PdfGenerator.Complete(PdfGenerator.BlankDocument(Tenant))]
  {
    var landlordPath := disk.GenerateBlankPdf(Landlord);
    var tenantPath := disk.GenerateBlankPdf(Tenant);
  }
}
