/**
 * The two messages the email service composes for a stored request: the
 * notification to the operations mailbox, with the request's document
 * attached, and the acknowledgement to the requester. A message body is
 * modelled as its sequence of HTML blocks; the mail transport is not part
 * of this model.
 */
module EmailService {
  import opened Wrappers
  import opened Text
  import Json
  import opened Storage
  import PdfGenerator

  /** One element of a message body. */
  datatype Block =
    | Heading(level: nat, text: string)
    | Item(caption: string, value: string)      // `<li><strong>caption</strong> value</li>`
    | Labelled(caption: string, value: string)  // `<p><strong>caption</strong> value</p>`
    | Emphasis(text: string)                    // `<p><strong>text</strong></p>`
    | Paragraph(text: string)
    | Bullet(text: string)                      // `<li>text</li>`
    | Link(href: string, text: string)
    | Rule
    | Signature(lines: seq<string>)

  datatype Attachment = Attachment(filename: string, path: string)

  datatype Mail = Mail(from: string, to: string, subject: string, body: seq<Block>, attachments: seq<Attachment>)

  /**
   * What the service reads from its environment: the `SMTP_USER` and
   * `BASE_URL` variables, and `toLocaleString` in the Winnipeg time zone.
   */
  datatype MailEnv = MailEnv(smtpUser: Option<string>, baseUrl: Option<string>, winnipegTime: string -> string)

  const OperationsAddress: string := "info@9starrenovations.com"
  const DefaultSender: string := "noreply@9starrenovations.com"
  const DefaultBaseUrl: string := "http://localhost:5000"
  const AutoReplySubject: string := "9 Star Renovations — Request Received"
  const EmergencyPhone: string := "(204) 481-4243"

  /** `value || fallback` for an environment variable: the fallback when it is unset or empty. */
  function OrElse(value: Option<string>, fallback: string): string
  {
    if Truthy(value) then value.value else fallback
  }

  function Sender(env: MailEnv): string
  {
    OrElse(env.smtpUser, DefaultSender)
  }

  function RoleWord(role: string): string
  {
    if role == "landlord" then "Landlord" else "Tenant"
  }

  // ---------------------------------------------------------------------------
  // Operations notification

  function OperationsSubject(r: Request): string
  {
    "[New " + RoleWord(r.role) + " Request] " + r.address + " — " + r.fullName
  }

  /** A list item that is written only when its value is present and non-empty. */
  function OptionalItem(caption: string, value: Option<string>): seq<Block>
  {
    if Truthy(value) then [Item(caption, value.value)] else []
  }

  /** The items of the details list, in their fixed order, optional ones only when set. */
  function DetailItems(r: Request, env: MailEnv): seq<Block>
  {
    [Item("Ticket ID:", r.ticketId)]
    + [Item("Name:", r.fullName)]
    + OptionalItem("Company:", r.company)
    + [Item("Email:", r.email)]
    + [Item("Phone:", r.phone)]
    + [Item("Address:", r.address)]
    + OptionalItem("Unit:", r.unit)
    + [Item("Type:", r.requestType)]
    + OptionalItem("Budget:", r.budgetRange)
    + OptionalItem("Preferred Time:", r.preferredDateTime)
    + OptionalItem("Entry Permission:", r.entryPermission)
    + [Item("Submitted:", env.winnipegTime(r.createdAt) + " (Winnipeg time)")]
  }

  /** The access-instructions section, only when instructions are set. */
  function AccessSection(r: Request): seq<Block>
  {
    if Truthy(r.accessInstructions) then [Heading(3, "Access Instructions:"), Paragraph(r.accessInstructions.value)] else []
  }

  /** Everything above the attached files: title, details list, access instructions, description. */
  function BodyHead(r: Request, env: MailEnv): seq<Block>
  {
    [Heading(2, "New " + RoleWord(r.role) + " Service Request"), Heading(3, "Request Details:")]
      + DetailItems(r, env) + AccessSection(r)
      + [Heading(3, "Description:"), Paragraph(r.description)]
  }

  function FileItems(names: seq<string>): (r: seq<Block>)
    ensures |r| == |names|
  {
    seq(|names|, i requires 0 <= i < |names| => Bullet(names[i]))
  }

  /** The link to the request's document on the admin side. */
  function DownloadLink(r: Request, env: MailEnv): Block
  {
    Link(OrElse(env.baseUrl, DefaultBaseUrl) + "/admin/requests/" + r.id + ".pdf", "Download PDF")
  }

  /** The notification body; building it fails where `JSON.parse` of the files text throws. */
  function OperationsBody(r: Request, env: MailEnv): Result<seq<Block>, string>
  {
    if Truthy(r.files) then
      match Json.Parse(r.files.value)
      case None => Failure(PdfGenerator.InvalidJson)
      case Some(names) =>
        Success(BodyHead(r, env) + [Heading(3, "Attached Files:")] + FileItems(names) + [DownloadLink(r, env)])
    else Success(BodyHead(r, env) + [DownloadLink(r, env)])
  }

  /** The message `sendOperationsNotification` hands to the transport. */
  function OperationsNotification(r: Request, pdfPath: string, env: MailEnv): Result<Mail, string>
  {
    match OperationsBody(r, env)
    case Failure(e) => Failure(e)
    case Success(body) =>
      Success(Mail(Sender(env), OperationsAddress, OperationsSubject(r), body,
                   [Attachment("request-" + r.ticketId + ".pdf", pdfPath)]))
  }

  // ---------------------------------------------------------------------------
  // Auto-reply

  /** The message `sendAutoReply` hands to the transport. */
  function AutoReply(r: Request, env: MailEnv): Mail
  {
    Mail(Sender(env), r.email, AutoReplySubject,
      [Heading(2, "Thank you for your service request!"),
       Paragraph("Dear " + r.fullName + ","),
       Paragraph("We've received your " + r.role + " service request and will be in touch shortly."),
       Labelled("Your Ticket ID:", r.ticketId),
       Emphasis("For emergencies, please call " + EmergencyPhone + " immediately."),
       Paragraph("We'll review your request and contact you within 24 hours to schedule service."),
       Paragraph("Thank you for choosing 9 Star Renovations!"),
       Rule,
       Signature(["9 Star Renovations", EmergencyPhone, OperationsAddress, "Serving Winnipeg"])],
      [])
  }

  // ---------------------------------------------------------------------------
  // Properties

  /** The labels of the list items, in order. */
  function Labels(blocks: seq<Block>): (r: seq<string>)
    ensures |r| == |blocks|
  {
    seq(|blocks|, i requires 0 <= i < |blocks| => if blocks[i].Item? then blocks[i].caption else "")
  }

  /** The texts of the bare bullets, in order. */
  function BulletTexts(blocks: seq<Block>): seq<string>
  {
    if |blocks| == 0 then []
    else (if blocks[0].Bullet? then [blocks[0].text] else []) + BulletTexts(blocks[1..])
  }

  /**
   * The notification goes to the operations mailbox from the configured
   * sender, under the subject naming the role, address and requester, with
   * exactly one attachment: the generated document, under the file name the
   * generator gives it. It fails exactly when files are set but are no JSON
   * array of names.
   */
  lemma OperationsEnvelope(r: Request, pdfPath: string, env: MailEnv)
    ensures OperationsNotification(r, pdfPath, env).Failure? <==> Truthy(r.files) && Json.Parse(r.files.value).None?
    ensures OperationsNotification(r, pdfPath, env).Success? ==>
      var m := OperationsNotification(r, pdfPath, env).value;
      && m.to == OperationsAddress && m.from == Sender(env) && m.subject == OperationsSubject(r)
      && |m.attachments| == 1 && m.attachments[0].path == pdfPath
      && PdfGenerator.RequestPdfPath(r.ticketId) == PdfGenerator.PdfDir + "/" + m.attachments[0].filename
  {
  }

  /** Both messages come from `SMTP_USER` when it is set and from the no-reply address otherwise. */
  lemma SenderFallback(env: MailEnv)
    ensures Truthy(env.smtpUser) ==> Sender(env) == env.smtpUser.value
    ensures !Truthy(env.smtpUser) ==> Sender(env) == DefaultSender
  {
  }

  /** The subject starts with `[New Landlord Request] ` exactly for landlord requests, and with `[New Tenant Request] ` otherwise. */
  lemma {:induction false} SubjectByRole(r: Request)
    ensures StartsWith(OperationsSubject(r), "[New Landlord Request] ") <==> r.role == "landlord"
    ensures r.role != "landlord" ==> StartsWith(OperationsSubject(r), "[New Tenant Request] ")
  {
    var s := OperationsSubject(r);
    var lead := "[New " + RoleWord(r.role) + " Request] ";
    assert s == lead + (r.address + " — " + r.fullName);
    assert s[..|lead|] == lead;
    if r.role != "landlord" {
      assert s[5] == 'T';
    }
  }

  /** The subject names the property address and ends with the requester's name. */
  lemma {:induction false} SubjectNamesRequester(r: Request)
    ensures Contains(OperationsSubject(r), r.address)
    ensures EndsWith(OperationsSubject(r), " — " + r.fullName)
  {
    var lead := "[New " + RoleWord(r.role) + " Request] ";
    ContainsMiddle(lead, r.address, " — " + r.fullName);
    assert OperationsSubject(r) == (lead + r.address) + (" — " + r.fullName);
  }

  lemma LabelsRequired(done: seq<Block>, caption: string, value: string)
    ensures Labels(done + [Item(caption, value)]) == Labels(done) + [caption]
  {
  }

  lemma LabelsOptional(done: seq<Block>, caption: string, value: Option<string>)
    ensures Labels(done + OptionalItem(caption, value)) == Labels(done) + if Truthy(value) then [caption] else []
  {
    if !Truthy(value) {
      assert done + OptionalItem(caption, value) == done;
    }
  }

  /** The details list: the mandatory items always, each optional one exactly when its field is set, in a fixed order. */
  lemma {:induction false} DetailLabels(r: Request, env: MailEnv)
    ensures Labels(DetailItems(r, env)) ==
      ["Ticket ID:"] + ["Name:"] + (if Truthy(r.company) then ["Company:"] else [])
      + ["Email:"] + ["Phone:"] + ["Address:"] + (if Truthy(r.unit) then ["Unit:"] else [])
      + ["Type:"] + (if Truthy(r.budgetRange) then ["Budget:"] else [])
      + (if Truthy(r.preferredDateTime) then ["Preferred Time:"] else [])
      + (if Truthy(r.entryPermission) then ["Entry Permission:"] else [])
      + ["Submitted:"]
  {
    var p1 := [Item("Ticket ID:", r.ticketId)];
    var p2 := p1 + [Item("Name:", r.fullName)];
    var p3 := p2 + OptionalItem("Company:", r.company);
    var p4 := p3 + [Item("Email:", r.email)];
    var p5 := p4 + [Item("Phone:", r.phone)];
    var p6 := p5 + [Item("Address:", r.address)];
    var p7 := p6 + OptionalItem("Unit:", r.unit);
    var p8 := p7 + [Item("Type:", r.requestType)];
    var p9 := p8 + OptionalItem("Budget:", r.budgetRange);
    var p10 := p9 + OptionalItem("Preferred Time:", r.preferredDateTime);
    var p11 := p10 + OptionalItem("Entry Permission:", r.entryPermission);
    var p12 := p11 + [Item("Submitted:", env.winnipegTime(r.createdAt) + " (Winnipeg time)")];
    assert p12 == DetailItems(r, env);
    LabelsRequired([], "Ticket ID:", r.ticketId);
    assert [] + p1 == p1;
    var c1 := ["Ticket ID:"];
    assert Labels(p1) == c1;
    LabelsRequired(p1, "Name:", r.fullName);
    var c2 := c1 + ["Name:"];
    assert Labels(p2) == c2;
    LabelsOptional(p2, "Company:", r.company);
    var c3 := c2 + (if Truthy(r.company) then ["Company:"] else []);
    assert Labels(p3) == c3;
    LabelsRequired(p3, "Email:", r.email);
    var c4 := c3 + ["Email:"];
    assert Labels(p4) == c4;
    LabelsRequired(p4, "Phone:", r.phone);
    var c5 := c4 + ["Phone:"];
    assert Labels(p5) == c5;
    LabelsRequired(p5, "Address:", r.address);
    var c6 := c5 + ["Address:"];
    assert Labels(p6) == c6;
    LabelsOptional(p6, "Unit:", r.unit);
    var c7 := c6 + (if Truthy(r.unit) then ["Unit:"] else []);
    assert Labels(p7) == c7;
    LabelsRequired(p7, "Type:", r.requestType);
    var c8 := c7 + ["Type:"];
    assert Labels(p8) == c8;
    LabelsOptional(p8, "Budget:", r.budgetRange);
    var c9 := c8 + (if Truthy(r.budgetRange) then ["Budget:"] else []);
    assert Labels(p9) == c9;
    LabelsOptional(p9, "Preferred Time:", r.preferredDateTime);
    var c10 := c9 + (if Truthy(r.preferredDateTime) then ["Preferred Time:"] else []);
    assert Labels(p10) == c10;
    LabelsOptional(p10, "Entry Permission:", r.entryPermission);
    var c11 := c10 + (if Truthy(r.entryPermission) then ["Entry Permission:"] else []);
    assert Labels(p11) == c11;
    LabelsRequired(p11, "Submitted:", env.winnipegTime(r.createdAt) + " (Winnipeg time)");
  }

  /** The access instructions get their own section, exactly when they are set. */
  lemma AccessSectionWhenSet(r: Request)
    ensures Heading(3, "Access Instructions:") in AccessSection(r) <==> Truthy(r.accessInstructions)
    ensures Truthy(r.accessInstructions) ==> Paragraph(r.accessInstructions.value) in AccessSection(r)
  {
  }

  lemma {:induction false} BulletTextsConcat(a: seq<Block>, b: seq<Block>)
    ensures BulletTexts(a + b) == BulletTexts(a) + BulletTexts(b)
    decreases |a|
  {
    if |a| == 0 {
      assert a + b == b;
    } else {
      var head := if a[0].Bullet? then [a[0].text] else [];
      assert (a + b)[0] == a[0] && (a + b)[1..] == a[1..] + b;
      assert BulletTexts(a + b) == head + BulletTexts(a[1..] + b);
      BulletTextsConcat(a[1..], b);
      assert BulletTexts(a) == head + BulletTexts(a[1..]);
    }
  }

  lemma {:induction false} BulletFree(blocks: seq<Block>)
    requires forall b :: b in blocks ==> !b.Bullet?
    ensures BulletTexts(blocks) == []
    decreases |blocks|
  {
    if |blocks| > 0 {
      assert blocks[0] in blocks;
      assert forall b :: b in blocks[1..] ==> b in blocks;
      BulletFree(blocks[1..]);
    }
  }

  lemma {:induction false} FileItemTexts(names: seq<string>)
    ensures BulletTexts(FileItems(names)) == names
    decreases |names|
  {
    if |names| > 0 {
      FileItemTexts(names[1..]);
      assert FileItems(names)[1..] == FileItems(names[1..]);
    }
  }

  lemma HeadBulletFree(r: Request, env: MailEnv)
    ensures BulletTexts(BodyHead(r, env)) == []
  {
    forall b | b in BodyHead(r, env)
      ensures !b.Bullet?
    {
    }
    BulletFree(BodyHead(r, env));
  }

  /** With files set, the bare bullets of a notification are the file names, each once and in order. */
  lemma {:induction false} OperationsFiles(r: Request, env: MailEnv)
    requires OperationsBody(r, env).Success? && Truthy(r.files)
    ensures BulletTexts(OperationsBody(r, env).value) == Json.Parse(r.files.value).value
  {
    var head := BodyHead(r, env);
    var link := [DownloadLink(r, env)];
    var heading := [Heading(3, "Attached Files:")];
    var names := Json.Parse(r.files.value).value;
    assert OperationsBody(r, env).value == head + heading + FileItems(names) + link;
    HeadBulletFree(r, env);
    BulletFree(link);
    BulletFree(heading);
    BulletTextsConcat(head, heading);
    BulletTextsConcat(head + heading, FileItems(names));
    FileItemTexts(names);
    BulletTextsConcat(head + heading + FileItems(names), link);
  }

  /** Without files a notification has no bullets at all. */
  lemma {:induction false} OperationsNoFiles(r: Request, env: MailEnv)
    requires !Truthy(r.files)
    ensures OperationsBody(r, env).Success? && BulletTexts(OperationsBody(r, env).value) == []
  {
    var head := BodyHead(r, env);
    var link := [DownloadLink(r, env)];
    assert OperationsBody(r, env).value == head + link;
    HeadBulletFree(r, env);
    BulletFree(link);
    BulletTextsConcat(head, link);
  }

  /** Files stored as the JSON array of the uploaded names are listed as exactly those names. */
  lemma OperationsListsUploads(r: Request, env: MailEnv, names: seq<string>)
    requires |names| > 0 && r.files == Some(Json.Stringify(names))
    ensures OperationsBody(r, env).Success?
    ensures BulletTexts(OperationsBody(r, env).value) == names
  {
    Json.ParseStringify(names);
    assert Json.Stringify(names)[0] == '[';
    OperationsFiles(r, env);
  }

  /**
   * The acknowledgement goes to the requester under the fixed subject,
   * carries no attachment, names the ticket and gives the emergency number.
   */
  lemma AutoReplyContents(r: Request, env: MailEnv)
    ensures var m := AutoReply(r, env);
      && m.to == r.email && m.subject == AutoReplySubject && m.from == Sender(env) && m.attachments == []
      && Labelled("Your Ticket ID:", r.ticketId) in m.body
      && exists i :: 0 <= i < |m.body| && m.body[i].Emphasis? && Contains(m.body[i].text, EmergencyPhone)
  {
    var m := AutoReply(r, env);
    ContainsMiddle("For emergencies, please call ", EmergencyPhone, " immediately.");
    assert m.body[4].Emphasis?;
  }
}
