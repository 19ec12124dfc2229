/**
 * The documents the PDF generator draws: for a stored request, and the two
 * blank templates. A document is modelled as the sequence of text lines it
 * draws, each with its x and y position and font size; drawing itself, font
 * metrics and date formatting are left to a `Renderer` given as a parameter.
 */
module PdfGenerator {
  import opened Wrappers
  import opened Text
  import Json
  import opened Storage

  /** One `doc.text(text, x, y)` call at the current font size. */
  datatype Line = Line(x: int, y: int, size: nat, text: string)

  /**
   * What the generator takes from its libraries: local (Winnipeg) time and
   * ISO-8601 formatting of a stored timestamp, the latter failing on a text
   * that is no valid time, and the width of a text at the 12-point body font.
   */
  datatype Renderer = Renderer(localTime: string -> string, isoTime: string -> Option<string>, widthOf: string -> int)

  const PdfDir: string := "storage/pdfs"
  const FormsDir: string := "public/forms"
  /** Height of the default LETTER page, in points. */
  const PageHeight: int := 792
  const WrapThreshold: int := 500

  const Brand: string := "9★ 9 Star Renovations"
  const Tagline: string := "Professional Property Maintenance"
  const Contact: string := "(204) 481-4243 • info@9starrenovations.com • Serving Winnipeg"
  const RequestFooter: string :=
    "This request was generated automatically. For urgent issues, please call (204) 481-4243."
  const BlankFooter: string :=
    "Complete this form and submit online at 9starrenovations.com or email to info@9starrenovations.com"
  const InvalidTime: string := "RangeError: Invalid time value"
  const InvalidJson: string := "SyntaxError: files is not a JSON array of names"

  /** Where the document of a request is written. */
  function RequestPdfPath(ticketId: string): string
  {
    PdfDir + "/request-" + ticketId + ".pdf"
  }

  /** Where the blank template of a role is written. */
  function BlankPdfPath(kind: Schema.Kind): string
  {
    FormsDir + "/" + Schema.KindName(kind) + "-blank.pdf"
  }

  // ---------------------------------------------------------------------------
  // Layout helpers

  /** The brand header and the title, common to both documents. */
  function Header(title: string): seq<Line>
  {
    [Line(50, 50, 20, Brand), Line(50, 75, 12, Tagline), Line(50, 90, 12, Contact), Line(50, 130, 16, title)]
  }

  /** Texts drawn one under the other at 12 points, `step` apart, the first at `y0`. */
  function Stack(texts: seq<string>, x: int, y0: int, step: int): (r: seq<Line>)
    ensures |r| == |texts|
  {
    seq(|texts|, i requires 0 <= i < |texts| => Line(x, y0 + step * i, 12, texts[i]))
  }

  lemma StackSnoc(texts: seq<string>, t: string, x: int, y0: int, step: int)
    ensures Stack(texts + [t], x, y0, step) == Stack(texts, x, y0, step) + [Line(x, y0 + step * |texts|, 12, t)]
  {
    assert forall i :: 0 <= i < |texts| ==> (texts + [t])[i] == texts[i];
  }

  // ---------------------------------------------------------------------------
  // Request fields

  /** A labelled field line: its caption (with the colon) and the value. */
  datatype Field = Field(caption: string, value: string)

  function FieldText(f: Field): string { f.caption + f.value }

  function Texts(fields: seq<Field>): (r: seq<string>)
    ensures |r| == |fields|
    ensures forall i :: 0 <= i < |fields| ==> r[i] == FieldText(fields[i])
  {
    seq(|fields|, i requires 0 <= i < |fields| => FieldText(fields[i]))
  }

  /** A field that is drawn only when its value is present and non-empty. */
  function Optional(caption: string, value: Option<string>): seq<Field>
  {
    if Truthy(value) then [Field(caption, value.value)] else []
  }

  /** The field lines of a request in their fixed order, optional ones only when set. */
  function FieldList(r: Request): seq<Field>
  {
    [Field("Full Name: ", r.fullName)]
    + Optional("Company: ", r.company)
    + [Field("Email: ", r.email)]
    + [Field("Phone: ", r.phone)]
    + [Field("Property Address: ", r.address)]
    + Optional("Unit/Apartment: ", r.unit)
    + [Field("Request Type: ", r.requestType)]
    + Optional("Budget Range: ", r.budgetRange)
    + Optional("Preferred Date/Time: ", r.preferredDateTime)
    + Optional("Entry Permission: ", r.entryPermission)
    + Optional("Access Instructions: ", r.accessInstructions)
  }

  function Captions(fields: seq<Field>): (r: seq<string>)
    ensures |r| == |fields|
  {
    seq(|fields|, i requires 0 <= i < |fields| => fields[i].caption)
  }

  // ---------------------------------------------------------------------------
  // Description wrapping: `description.match(/.{1,80}(\s|$)/g)`

  const WrapWidth: nat := 80

  /** How many characters `.{1,80}` can take from position `i`: non-line-terminators, at most `cap`. */
  function Run(s: string, i: nat, cap: nat): (n: nat)
    requires i <= |s|
    ensures n <= cap && i + n <= |s|
    ensures forall j :: i <= j < i + n ==> !IsLineTerminator(s[j])
    ensures n < cap && i + n < |s| ==> IsLineTerminator(s[i + n])
    decreases cap
  {
    if cap == 0 || i == |s| || IsLineTerminator(s[i]) then 0 else 1 + Run(s, i + 1, cap - 1)
  }

  /**
   * The backtracking of `.{k}(\s|$)` from `k` down to 1: the match length
   * for the longest `k` after which comes a whitespace character (taken into
   * the match) or the end of the text.
   */
  function Backtrack(s: string, i: nat, k: nat): (r: Option<nat>)
    requires i + k <= |s|
    ensures r.Some? ==> 1 <= r.value <= k + 1 && i + r.value <= |s|
    ensures r.Some? && r.value == k + 1 ==> IsJsSpace(s[i + k])
    decreases k
  {
    if k == 0 then None
    else if i + k < |s| && IsJsSpace(s[i + k]) then Some(k + 1)
    else if i + k == |s| then Some(k)
    else Backtrack(s, i, k - 1)
  }

  /** The length of the match starting exactly at `i`, if there is one. */
  function MatchAt(s: string, i: nat): (r: Option<nat>)
    requires i <= |s|
    ensures r.Some? ==> 1 <= r.value <= WrapWidth + 1 && i + r.value <= |s|
    ensures r.Some? && r.value == WrapWidth + 1 ==> IsJsSpace(s[i + WrapWidth])
  {
    Backtrack(s, i, Run(s, i, WrapWidth))
  }

  /** All matches from position `p` on, as the global flag finds them: next match at or after the last one's end. */
  function Scan(s: string, p: nat): (r: seq<string>)
    requires p <= |s|
    ensures forall j :: 0 <= j < |r| ==> 1 <= |r[j]| <= WrapWidth + 1
    ensures forall j :: 0 <= j < |r| ==> |r[j]| == WrapWidth + 1 ==> IsJsSpace(r[j][WrapWidth])
    decreases |s| - p
  {
    if p == |s| then []
    else
      match MatchAt(s, p)
      case Some(n) => [s[p..p + n]] + Scan(s, p + n)
      case None => Scan(s, p + 1)
  }

  /** `text.match(/.{1,80}(\s|$)/g) || [text]`. */
  function WrapLines(text: string): seq<string>
  {
    var chunks := Scan(text, 0);
    if |chunks| == 0 then [text] else chunks
  }

  /** The description before trimming: wrapped when wider than the threshold. */
  function RawDescriptionLines(description: string, rd: Renderer): seq<string>
  {
    if rd.widthOf(description) > WrapThreshold then WrapLines(description) else [description]
  }

  function TrimAll(raw: seq<string>): (r: seq<string>)
    ensures |r| == |raw|
  {
    seq(|raw|, i requires 0 <= i < |raw| => Trim(raw[i]))
  }

  /** The description lines as drawn: wrapped when wider than the threshold, each one trimmed. */
  function DescriptionLines(description: string, rd: Renderer): seq<string>
  {
    TrimAll(RawDescriptionLines(description, rd))
  }

  // ---------------------------------------------------------------------------
  // The documents

  function RequestTitle(role: string): string
  {
    if role == "landlord" then "Landlord Service Request" else "Tenant Maintenance Request"
  }

  function Bullets(names: seq<string>): (r: seq<string>)
    ensures |r| == |names|
  {
    seq(|names|, i requires 0 <= i < |names| => "• " + names[i])
  }

  /** The header and the ticket and time lines, down to the details heading. */
  function TopLines(r: Request, rd: Renderer, iso: string): seq<Line>
  {
    Header(RequestTitle(r.role))
      + [Line(50, 160, 12, "Ticket ID: " + r.ticketId),
         Line(50, 180, 12, "Submitted: " + rd.localTime(r.createdAt) + " (Winnipeg time)"),
         Line(50, 200, 12, "UTC: " + iso),
         Line(50, 230, 14, "Request Details:")]
  }

  /** The y position just below the field lines. */
  function FieldsEnd(r: Request): int
  {
    255 + 15 * |FieldList(r)|
  }

  /** The field lines and the description below the details heading. */
  function Details(r: Request, rd: Renderer): seq<Line>
  {
    DetailsOf(Texts(FieldList(r)), DescriptionLines(r.description, rd))
  }

  /** Field lines 15 apart from y = 255, the description heading 10 below them, the description lines 15 apart below it. */
  function DetailsOf(fields: seq<string>, desc: seq<string>): seq<Line>
  {
    Stack(fields, 50, 255, 15)
      + [Line(50, 255 + 15 * |fields| + 10, 12, "Description:")]
      + Stack(desc, 50, 255 + 15 * |fields| + 25, 15)
  }

  /** The lines of a request document down to its last description line. */
  function RequestDocumentBody(r: Request, rd: Renderer, iso: string): seq<Line>
  {
    TopLines(r, rd, iso) + Details(r, rd)
  }

  /**
   * The document of a request. From y = 160: ticket, submission time (+20),
   * UTC time (+20), the details heading (+30), then one line per field 15
   * apart starting at 255; the description heading 10 further down, its lines
   * 15 apart, and when files are set the files heading 10 further down and one
   * bullet per name at x = 70; the footer 100 above the bottom of the page.
   * Fails when the creation time is no valid time or the files text is no
   * JSON array of names.
   */
  function RequestDocument(r: Request, rd: Renderer): Result<seq<Line>, string>
  {
    match rd.isoTime(r.createdAt)
    case None => Failure(InvalidTime)
    case Some(iso) => Closing(RequestDocumentBody(r, rd, iso), BodyEnd(r, rd), r.files)
  }

  /** The y position just below the last description line. */
  function BodyEnd(r: Request, rd: Renderer): int
  {
    FieldsEnd(r) + 25 + 15 * |RawDescriptionLines(r.description, rd)|
  }

  /** The files block, when files are set, and the footer, after the body ending at `yEnd`. */
  function Closing(body: seq<Line>, yEnd: int, files: Option<string>): Result<seq<Line>, string>
  {
    var footer := Line(50, PageHeight - 100, 10, RequestFooter);
    if Truthy(files) then
      match Json.Parse(files.value)
      case None => Failure(InvalidJson)
      case Some(names) =>
        Success(body + [Line(50, yEnd + 10, 12, "Attached Files:")] + Stack(Bullets(names), 70, yEnd + 25, 15) + [footer])
    else Success(body + [footer])
  }

  const LandlordBlankFields: seq<string> := [
    "Full Name: ________________________________",
    "Company: ________________________________",
    "Email: ________________________________",
    "Phone: ________________________________",
    "Property Address: ________________________________",
    "Request Type: ________________________________",
    "Budget Range: ________________________________",
    "Preferred Date/Time: ________________________________",
    "Access Instructions:",
    "________________________________________________",
    "________________________________________________",
    "Description:",
    "________________________________________________",
    "________________________________________________",
    "________________________________________________",
    "________________________________________________"]

  const TenantBlankFields: seq<string> := [
    "Full Name: ________________________________",
    "Email: ________________________________",
    "Phone: ________________________________",
    "Property Address: ________________________________",
    "Unit/Apartment #: ________________________________",
    "Issue Type: ________________________________",
    "Permission to Enter: ________________________________",
    "Description:",
    "________________________________________________",
    "________________________________________________",
    "________________________________________________",
    "________________________________________________"]

  function BlankFields(kind: Schema.Kind): seq<string>
  {
    match kind
    case Landlord => LandlordBlankFields
    case Tenant => TenantBlankFields
  }

  function BlankTitle(kind: Schema.Kind): string
  {
    match kind
    case Landlord => "Landlord Service Request Form"
    case Tenant => "Tenant Maintenance Request Form"
  }

  function ConsentText(kind: Schema.Kind): string
  {
    match kind
    case Landlord => "I confirm I am authorized to request service at this property."
    case Tenant => "I confirm this request is accurate and authorize contact regarding this issue."
  }

  /**
   * A blank template: the field lines 25 apart from y = 170, then 20 further
   * down a check box at x = 50 and the role's consent sentence beside it at
   * x = 70, and the footer 100 above the bottom of the page.
   */
  function BlankDocument(kind: Schema.Kind): seq<Line>
  {
    BlankLayout(BlankTitle(kind), BlankFields(kind), ConsentText(kind))
  }

  function BlankLayout(title: string, fields: seq<string>, consent: string): seq<Line>
  {
    Header(title) + Stack(fields, 50, 170, 25)
      + [Line(50, 170 + 25 * |fields| + 20, 12, "☐ "), Line(70, 170 + 25 * |fields| + 20, 12, consent),
         Line(50, PageHeight - 100, 10, BlankFooter)]
  }

  // ---------------------------------------------------------------------------
  // Drawing, statement by statement

  /** `generateRequestPDF` up to the file: the lines drawn, advancing `yPosition` as it goes. */
  method RenderRequest(r: Request, rd: Renderer) returns (result: Result<seq<Line>, string>)
    ensures result == RequestDocument(r, rd)
  {
    var lines := Header(RequestTitle(r.role));
    var y := 160;
    lines := lines + [Line(50, y, 12, "Ticket ID: " + r.ticketId)];
    y := y + 20;
    lines := lines + [Line(50, y, 12, "Submitted: " + rd.localTime(r.createdAt) + " (Winnipeg time)")];
    y := y + 20;
    var iso := rd.isoTime(r.createdAt);
    if iso.None? {
      return Failure(InvalidTime);
    }
    lines := lines + [Line(50, y, 12, "UTC: " + iso.value)];
    y := y + 30;
    lines := lines + [Line(50, y, 14, "Request Details:")];
    y := y + 25;
    assert lines == TopLines(r, rd, iso.value);
    lines, y := DrawDetails(r, rd, lines, y);
    result := DrawClosing(lines, y, r.files);
  }

  /** After the body: the files heading and one bullet per name when files are set, then the footer. */
  method DrawClosing(body: seq<Line>, yEnd: int, files: Option<string>) returns (result: Result<seq<Line>, string>)
    ensures result == Closing(body, yEnd, files)
  {
    var lines, y := body, yEnd;
    var footer := Line(50, PageHeight - 100, 10, RequestFooter);
    if Truthy(files) {
      y := y + 10;
      lines := lines + [Line(50, y, 12, "Attached Files:")];
      y := y + 15;
      var parsed := Json.Parse(files.value);
      if parsed.None? {
        return Failure(InvalidJson);
      }
      lines, y := DrawFiles(parsed.value, lines, y);
      lines := lines + [footer];
      result := Success(lines);
    } else {
      lines := lines + [footer];
      result := Success(lines);
    }
  }

  /** The field block and the description block, below the details heading. */
  method DrawDetails(r: Request, rd: Renderer, lines0: seq<Line>, y0: int) returns (lines: seq<Line>, y: int)
    requires y0 == 255
    ensures lines == lines0 + Details(r, rd) && y == BodyEnd(r, rd)
  {
    var fieldLines;
    fieldLines, y := DrawFields(r, [], y0);
    var details;
    details, y := DrawDescriptionBlock(Texts(FieldList(r)), fieldLines, y, RawDescriptionLines(r.description, rd));
    lines := lines0 + details;
  }

  /** The description heading 10 below the field lines, then the description lines from 15 below it. */
  method DrawDescriptionBlock(ghost fields: seq<string>, fieldLines: seq<Line>, y0: int, raw: seq<string>)
    returns (lines: seq<Line>, y: int)
    requires fieldLines == Stack(fields, 50, 255, 15) && y0 == 255 + 15 * |fields|
    ensures lines == DetailsOf(fields, TrimAll(raw))
    ensures y == 255 + 15 * |fields| + 25 + 15 * |raw|
  {
    y := y0 + 10;
    var heading := [Line(50, y, 12, "Description:")];
    y := y + 15;
    var descLines;
    descLines, y := DrawDescription(raw, [], y);
    lines := fieldLines + heading + descLines;
  }

  /** The field block: each field line drawn at `y`, then `y` advanced by 15. */
  method DrawFields(r: Request, lines0: seq<Line>, y0: int) returns (lines: seq<Line>, y: int)
    ensures lines == lines0 + Stack(Texts(FieldList(r)), 50, y0, 15)
    ensures y == y0 + 15 * |FieldList(r)|
  {
    ghost var done: seq<Field> := [];
    assert Stack(Texts(done), 50, y0, 15) == [];
    lines, y := DrawRequired(Field("Full Name: ", r.fullName), lines0, y0, lines0, y0, done);
    done := done + [Field("Full Name: ", r.fullName)];
    lines, y := DrawOptional("Company: ", r.company, lines, y, lines0, y0, done);
    done := done + Optional("Company: ", r.company);
    lines, y := DrawRequired(Field("Email: ", r.email), lines, y, lines0, y0, done);
    done := done + [Field("Email: ", r.email)];
    lines, y := DrawRequired(Field("Phone: ", r.phone), lines, y, lines0, y0, done);
    done := done + [Field("Phone: ", r.phone)];
    lines, y := DrawRequired(Field("Property Address: ", r.address), lines, y, lines0, y0, done);
    done := done + [Field("Property Address: ", r.address)];
    lines, y := DrawOptional("Unit/Apartment: ", r.unit, lines, y, lines0, y0, done);
    done := done + Optional("Unit/Apartment: ", r.unit);
    lines, y := DrawRequired(Field("Request Type: ", r.requestType), lines, y, lines0, y0, done);
    done := done + [Field("Request Type: ", r.requestType)];
    lines, y := DrawOptional("Budget Range: ", r.budgetRange, lines, y, lines0, y0, done);
    done := done + Optional("Budget Range: ", r.budgetRange);
    lines, y := DrawOptional("Preferred Date/Time: ", r.preferredDateTime, lines, y, lines0, y0, done);
    done := done + Optional("Preferred Date/Time: ", r.preferredDateTime);
    lines, y := DrawOptional("Entry Permission: ", r.entryPermission, lines, y, lines0, y0, done);
    done := done + Optional("Entry Permission: ", r.entryPermission);
    lines, y := DrawOptional("Access Instructions: ", r.accessInstructions, lines, y, lines0, y0, done);
    done := done + Optional("Access Instructions: ", r.accessInstructions);
    assert done == FieldList(r);
  }

  /** The lines drawn so far are the field lines of `done`, stacked from `start`, and `y` is just below them. */
  ghost predicate Drawn(lines: seq<Line>, y: int, base: seq<Line>, start: int, done: seq<Field>)
  {
    lines == base + Stack(Texts(done), 50, start, 15) && y == start + 15 * |done|
  }

  /** `doc.text(caption + value, 50, yPosition); yPosition += 15;` */
  method DrawRequired(f: Field, lines0: seq<Line>, y0: int, ghost base: seq<Line>, ghost start: int, ghost done: seq<Field>)
    returns (lines: seq<Line>, y: int)
    requires Drawn(lines0, y0, base, start, done)
    ensures Drawn(lines, y, base, start, done + [f])
  {
    EmitField(base, done, f, start);
    lines := lines0 + [Line(50, y0, 12, FieldText(f))];
    y := y0 + 15;
  }

  /** `if (value) { doc.text(caption + value, 50, yPosition); yPosition += 15; }` */
  method DrawOptional(caption: string, value: Option<string>, lines0: seq<Line>, y0: int,
                      ghost base: seq<Line>, ghost start: int, ghost done: seq<Field>)
    returns (lines: seq<Line>, y: int)
    requires Drawn(lines0, y0, base, start, done)
    ensures Drawn(lines, y, base, start, done + Optional(caption, value))
  {
    lines, y := lines0, y0;
    if Truthy(value) {
      var f := Field(caption, value.value);
      EmitField(base, done, f, start);
      lines := lines + [Line(50, y, 12, FieldText(f))];
      y := y + 15;
    } else {
      assert done + Optional(caption, value) == done;
    }
  }

  /** One field line more: the stacked field lines grow by that line, 15 below the last. */
  lemma EmitField(head: seq<Line>, done: seq<Field>, f: Field, y0: int)
    ensures head + Stack(Texts(done + [f]), 50, y0, 15)
      == head + Stack(Texts(done), 50, y0, 15) + [Line(50, y0 + 15 * |done|, 12, FieldText(f))]
  {
    assert Texts(done + [f]) == Texts(done) + [FieldText(f)];
    StackSnoc(Texts(done), FieldText(f), 50, y0, 15);
  }

  /** The description block: each line trimmed and drawn at `y`, then `y` advanced by 15. */
  method DrawDescription(raw: seq<string>, lines0: seq<Line>, y0: int) returns (lines: seq<Line>, y: int)
    ensures lines == lines0 + Stack(TrimAll(raw), 50, y0, 15)
    ensures y == y0 + 15 * |raw|
  {
    ghost var desc := TrimAll(raw);
    lines, y := lines0, y0;
    var i := 0;
    while i < |raw|
      invariant 0 <= i <= |raw|
      invariant lines == lines0 + Stack(desc[..i], 50, y0, 15)
      invariant y == y0 + 15 * i
    {
      StackSnoc(desc[..i], Trim(raw[i]), 50, y0, 15);
      assert desc[..i + 1] == desc[..i] + [Trim(raw[i])];
      lines := lines + [Line(50, y, 12, Trim(raw[i]))];
      y := y + 15;
      i := i + 1;
    }
    assert desc[..|raw|] == desc;
  }

  /** The files block: one bullet per name at x = 70, then `y` advanced by 15. */
  method DrawFiles(names: seq<string>, lines0: seq<Line>, y0: int) returns (lines: seq<Line>, y: int)
    ensures lines == lines0 + Stack(Bullets(names), 70, y0, 15)
    ensures y == y0 + 15 * |names|
  {
    ghost var bullets := Bullets(names);
    lines, y := lines0, y0;
    var k := 0;
    while k < |names|
      invariant 0 <= k <= |names|
      invariant lines == lines0 + Stack(bullets[..k], 70, y0, 15)
      invariant y == y0 + 15 * k
    {
      StackSnoc(bullets[..k], "• " + names[k], 70, y0, 15);
      assert bullets[..k + 1] == bullets[..k] + ["• " + names[k]];
      lines := lines + [Line(70, y, 12, "• " + names[k])];
      y := y + 15;
      k := k + 1;
    }
    assert bullets[..|names|] == bullets;
  }

  /** `generateBlankPDF` up to the file: the template lines drawn, advancing `yPosition` as it goes. */
  method RenderBlank(kind: Schema.Kind) returns (lines: seq<Line>)
    ensures lines == BlankDocument(kind)
  {
    lines := DrawBlank(BlankTitle(kind), BlankFields(kind), ConsentText(kind));
  }

  /** The template of the given title, field lines and consent sentence. */
  method DrawBlank(title: string, fields: seq<string>, consent: string) returns (lines: seq<Line>)
    ensures lines == BlankLayout(title, fields, consent)
  {
    var y;
    lines, y := DrawBlankFields(fields, Header(title), 170);
    y := y + 20;
    lines := lines + [Line(50, y, 12, "☐ ")];
    lines := lines + [Line(70, y, 12, consent)];
    lines := lines + [Line(50, PageHeight - 100, 10, BlankFooter)];
  }

  /** The template's field lines: each drawn at `y`, then `y` advanced by 25. */
  method DrawBlankFields(fields: seq<string>, lines0: seq<Line>, y0: int) returns (lines: seq<Line>, y: int)
    ensures lines == lines0 + Stack(fields, 50, y0, 25)
    ensures y == y0 + 25 * |fields|
  {
    lines, y := lines0, y0;
    var i := 0;
    while i < |fields|
      invariant 0 <= i <= |fields|
      invariant lines == lines0 + Stack(fields[..i], 50, y0, 25)
      invariant y == y0 + 25 * i
    {
      StackSnoc(fields[..i], fields[i], 50, y0, 25);
      assert fields[..i + 1] == fields[..i] + [fields[i]];
      lines := lines + [Line(50, y, 12, fields[i])];
      y := y + 25;
      i := i + 1;
    }
    assert fields[..|fields|] == fields;
  }

  // ---------------------------------------------------------------------------
  // Properties of the documents

  /** The optional field values of a request, in the order their captions are listed. */
  function OptionalValues(r: Request): seq<Option<string>>
  {
    [r.company, r.unit, r.budgetRange, r.preferredDateTime, r.entryPermission, r.accessInstructions]
  }

  /** How many of the values are present and non-empty. */
  function CountTruthy(values: seq<Option<string>>): nat
  {
    if |values| == 0 then 0 else (if Truthy(values[0]) then 1 else 0) + CountTruthy(values[1..])
  }

  /** The captions of the field list: mandatory ones always, each optional one exactly when its value is set, in a fixed order. */
  lemma {:induction false} FieldCaptions(r: Request)
    ensures Captions(FieldList(r)) ==
      ["Full Name: "] + (if Truthy(r.company) then ["Company: "] else [])
      + ["Email: "] + ["Phone: "] + ["Property Address: "] + (if Truthy(r.unit) then ["Unit/Apartment: "] else [])
      + ["Request Type: "] + (if Truthy(r.budgetRange) then ["Budget Range: "] else [])
      + (if Truthy(r.preferredDateTime) then ["Preferred Date/Time: "] else [])
      + (if Truthy(r.entryPermission) then ["Entry Permission: "] else [])
      + (if Truthy(r.accessInstructions) then ["Access Instructions: "] else [])
  {
    var p1 := [Field("Full Name: ", r.fullName)];
    var p2 := p1 + Optional("Company: ", r.company);
    var p3 := p2 + [Field("Email: ", r.email)];
    var p4 := p3 + [Field("Phone: ", r.phone)];
    var p5 := p4 + [Field("Property Address: ", r.address)];
    var p6 := p5 + Optional("Unit/Apartment: ", r.unit);
    var p7 := p6 + [Field("Request Type: ", r.requestType)];
    var p8 := p7 + Optional("Budget Range: ", r.budgetRange);
    var p9 := p8 + Optional("Preferred Date/Time: ", r.preferredDateTime);
    var p10 := p9 + Optional("Entry Permission: ", r.entryPermission);
    var p11 := p10 + Optional("Access Instructions: ", r.accessInstructions);
    assert p11 == FieldList(r);
    CaptionsRequired([], "Full Name: ", r.fullName);
    assert [] + p1 == p1;
    var c1 := ["Full Name: "];
    assert Captions(p1) == c1;
    CaptionsOptional(p1, "Company: ", r.company);
    var c2 := c1 + (if Truthy(r.company) then ["Company: "] else []);
    assert Captions(p2) == c2;
    CaptionsRequired(p2, "Email: ", r.email);
    var c3 := c2 + ["Email: "];
    assert Captions(p3) == c3;
    CaptionsRequired(p3, "Phone: ", r.phone);
    var c4 := c3 + ["Phone: "];
    assert Captions(p4) == c4;
    CaptionsRequired(p4, "Property Address: ", r.address);
    var c5 := c4 + ["Property Address: "];
    assert Captions(p5) == c5;
    CaptionsOptional(p5, "Unit/Apartment: ", r.unit);
    var c6 := c5 + (if Truthy(r.unit) then ["Unit/Apartment: "] else []);
    assert Captions(p6) == c6;
    CaptionsRequired(p6, "Request Type: ", r.requestType);
    var c7 := c6 + ["Request Type: "];
    assert Captions(p7) == c7;
    CaptionsOptional(p7, "Budget Range: ", r.budgetRange);
    var c8 := c7 + (if Truthy(r.budgetRange) then ["Budget Range: "] else []);
    assert Captions(p8) == c8;
    CaptionsOptional(p8, "Preferred Date/Time: ", r.preferredDateTime);
    var c9 := c8 + (if Truthy(r.preferredDateTime) then ["Preferred Date/Time: "] else []);
    assert Captions(p9) == c9;
    CaptionsOptional(p9, "Entry Permission: ", r.entryPermission);
    var c10 := c9 + (if Truthy(r.entryPermission) then ["Entry Permission: "] else []);
    assert Captions(p10) == c10;
    CaptionsOptional(p10, "Access Instructions: ", r.accessInstructions);
    assert Captions(p11) == c10 + (if Truthy(r.accessInstructions) then ["Access Instructions: "] else []);
  }

  lemma CaptionsRequired(done: seq<Field>, caption: string, value: string)
    ensures Captions(done + [Field(caption, value)]) == Captions(done) + [caption]
  {
  }

  lemma CaptionsOptional(done: seq<Field>, caption: string, value: Option<string>)
    ensures Captions(done + Optional(caption, value)) == Captions(done) + if Truthy(value) then [caption] else []
  {
    if !Truthy(value) {
      assert done + Optional(caption, value) == done;
    }
  }

  /** There is one field line per mandatory field and one per optional field that is set. */
  lemma {:induction false} FieldCount(r: Request)
    ensures |FieldList(r)| == 5 + CountTruthy(OptionalValues(r))
  {
    var a, b, c, d, e, f := r.company, r.unit, r.budgetRange, r.preferredDateTime, r.entryPermission, r.accessInstructions;
    OptionalLength("Company: ", a);
    OptionalLength("Unit/Apartment: ", b);
    OptionalLength("Budget Range: ", c);
    OptionalLength("Preferred Date/Time: ", d);
    OptionalLength("Entry Permission: ", e);
    OptionalLength("Access Instructions: ", f);
    var n := |FieldList(r)|;
    assert n == 5 + |Optional("Company: ", a)| + |Optional("Unit/Apartment: ", b)| + |Optional("Budget Range: ", c)|
      + |Optional("Preferred Date/Time: ", d)| + |Optional("Entry Permission: ", e)| + |Optional("Access Instructions: ", f)|;
    CountConcat([a], [b, c, d, e, f]);
    CountConcat([b], [c, d, e, f]);
    CountConcat([c], [d, e, f]);
    CountConcat([d], [e, f]);
    CountConcat([e], [f]);
    assert [a] + [b, c, d, e, f] == OptionalValues(r);
  }

  lemma OptionalLength(caption: string, value: Option<string>)
    ensures |Optional(caption, value)| == CountTruthy([value])
  {
    assert [value][1..] == [];
  }

  lemma {:induction false} CountConcat(a: seq<Option<string>>, b: seq<Option<string>>)
    ensures CountTruthy(a + b) == CountTruthy(a) + CountTruthy(b)
    decreases |a|
  {
    if |a| == 0 {
      assert a + b == b;
    } else {
      CountConcat(a[1..], b);
      assert (a + b)[1..] == a[1..] + b;
    }
  }

  /** The y position of the description heading: 10 below the field lines, which start at 255 and step 15. */
  lemma DescriptionHeadingPosition(r: Request, rd: Renderer)
    ensures Details(r, rd)[|FieldList(r)|] == Line(50, 265 + 15 * (5 + CountTruthy(OptionalValues(r))), 12, "Description:")
  {
    FieldCount(r);
  }

  /** A wrapped chunk, once trimmed, is at most 80 characters: an 81st is always the whitespace it ends with. */
  lemma ChunkTrimBound(chunk: string)
    requires 1 <= |chunk| <= WrapWidth + 1
    requires |chunk| == WrapWidth + 1 ==> IsJsSpace(chunk[WrapWidth])
    ensures |Trim(chunk)| <= WrapWidth
  {
  }

  /** When the description is wrapped into matches, every line drawn for it is at most 80 characters. */
  lemma WrappedLineBound(description: string, rd: Renderer)
    requires rd.widthOf(description) > WrapThreshold && |Scan(description, 0)| > 0
    ensures forall j :: 0 <= j < |DescriptionLines(description, rd)| ==> |DescriptionLines(description, rd)[j]| <= WrapWidth
  {
    var chunks := Scan(description, 0);
    assert RawDescriptionLines(description, rd) == chunks;
    forall j | 0 <= j < |chunks|
      ensures |Trim(chunks[j])| <= WrapWidth
    {
      ChunkTrimBound(chunks[j]);
    }
  }

  /** `.{1,80}` takes every character up to the cap or the end when there is no line terminator. */
  lemma {:induction false} RunAll(s: string, i: nat, cap: nat)
    requires i <= |s|
    requires forall j :: 0 <= j < |s| ==> !IsJsSpace(s[j])
    ensures Run(s, i, cap) == if cap <= |s| - i then cap else |s| - i
    decreases cap
  {
    if cap > 0 && i < |s| {
      RunAll(s, i + 1, cap - 1);
    }
  }

  /** With no whitespace and the text going on past the run, no length of `.{k}` is followed by `(\s|$)`. */
  lemma {:induction false} BacktrackFails(s: string, i: nat, k: nat)
    requires i + k < |s|
    requires forall j :: 0 <= j < |s| ==> !IsJsSpace(s[j])
    ensures Backtrack(s, i, k) == None
    decreases k
  {
    if k > 0 {
      BacktrackFails(s, i, k - 1);
    }
  }

  /** In a text without whitespace, no match starts more than 80 characters before the end. */
  lemma NoMatchFarFromEnd(s: string, p: nat)
    requires p + WrapWidth < |s|
    requires forall j :: 0 <= j < |s| ==> !IsJsSpace(s[j])
    ensures Scan(s, p) == Scan(s, p + 1)
  {
    RunAll(s, p, WrapWidth);
    BacktrackFails(s, p, WrapWidth);
    assert MatchAt(s, p) == None;
  }

  /** In a text without whitespace, the match starting 80 characters before the end takes the rest. */
  lemma LastMatch(s: string, p: nat)
    requires p + WrapWidth == |s|
    requires forall j :: 0 <= j < |s| ==> !IsJsSpace(s[j])
    ensures Scan(s, p) == [s[|s| - WrapWidth..]]
  {
    RunAll(s, p, WrapWidth);
    assert Run(s, p, WrapWidth) == WrapWidth;
    assert MatchAt(s, p) == Some(WrapWidth);
    assert Scan(s, |s|) == [];
    assert p + WrapWidth == |s| && p == |s| - WrapWidth;
    assert Scan(s, p) == [s[p..p + WrapWidth]] + Scan(s, p + WrapWidth);
    assert s[p..p + WrapWidth] == s[|s| - WrapWidth..];
  }

  /** In a text without whitespace, a match only starts 80 or fewer characters before the end. */
  lemma {:induction false} ScanLongWord(s: string, p: nat)
    requires p + WrapWidth <= |s|
    requires forall j :: 0 <= j < |s| ==> !IsJsSpace(s[j])
    ensures Scan(s, p) == [s[|s| - WrapWidth..]]
    decreases |s| - p
  {
    if p + WrapWidth == |s| {
      LastMatch(s, p);
    } else {
      NoMatchFarFromEnd(s, p);
      ScanLongWord(s, p + 1);
    }
  }

  /**
   * A word longer than 80 characters with no whitespace in it wraps to its
   * last 80 characters only: the matches cannot start earlier, so the head
   * of the description is not drawn.
   */
  lemma LongWordLosesHead(s: string)
    requires |s| > WrapWidth
    requires forall j :: 0 <= j < |s| ==> !IsJsSpace(s[j])
    ensures WrapLines(s) == [s[|s| - WrapWidth..]]
  {
    ScanLongWord(s, 0);
  }

  /** The document fails exactly when the creation time is no valid time, or files are set and are no JSON array of names. */
  lemma RequestDocumentFails(r: Request, rd: Renderer)
    ensures RequestDocument(r, rd).Failure? <==>
      rd.isoTime(r.createdAt).None? || (Truthy(r.files) && Json.Parse(r.files.value).None?)
    ensures rd.isoTime(r.createdAt).None? ==> RequestDocument(r, rd) == Failure(InvalidTime)
  {
  }

  /** The details block: one line per field from y = 255, the description heading, then the description lines. */
  lemma {:induction false} DetailsShape(fields: seq<string>, desc: seq<string>)
    ensures var d := DetailsOf(fields, desc);
      && |d| == |fields| + 1 + |desc|
      && (forall i :: 0 <= i < |fields| ==> d[i] == Line(50, 255 + 15 * i, 12, fields[i]))
      && d[|fields|] == Line(50, 255 + 15 * |fields| + 10, 12, "Description:")
      && (forall i :: 0 <= i < |desc| ==> d[|fields| + 1 + i] == Line(50, 255 + 15 * |fields| + 25 + 15 * i, 12, desc[i]))
  {
    var d := DetailsOf(fields, desc);
    var a := Stack(fields, 50, 255, 15);
    var c := Stack(desc, 50, 255 + 15 * |fields| + 25, 15);
    forall i | 0 <= i < |fields|
      ensures d[i] == Line(50, 255 + 15 * i, 12, fields[i])
    {
      assert d[i] == a[i];
    }
    forall i | 0 <= i < |desc|
      ensures d[|fields| + 1 + i] == Line(50, 255 + 15 * |fields| + 25 + 15 * i, 12, desc[i])
    {
      assert d[|fields| + 1 + i] == c[i];
    }
  }

  /** After the body: the files heading and one bullet per name when files are set, and the footer last. */
  lemma {:induction false} ClosingShape(body: seq<Line>, yEnd: int, files: Option<string>)
    requires Closing(body, yEnd, files).Success?
    ensures var doc := Closing(body, yEnd, files).value;
      && doc[..|body|] == body
      && doc[|doc| - 1] == Line(50, PageHeight - 100, 10, RequestFooter)
      && (!Truthy(files) ==> |doc| == |body| + 1)
      && (Truthy(files) ==>
        var names := Json.Parse(files.value).value;
        && |doc| == |body| + 1 + |names| + 1
        && doc[|body|] == Line(50, yEnd + 10, 12, "Attached Files:")
        && forall k :: 0 <= k < |names| ==> doc[|body| + 1 + k] == Line(70, yEnd + 25 + 15 * k, 12, "• " + names[k]))
  {
    var doc := Closing(body, yEnd, files).value;
    if Truthy(files) {
      var names := Json.Parse(files.value).value;
      var bullets := Stack(Bullets(names), 70, yEnd + 25, 15);
      assert doc == body + [Line(50, yEnd + 10, 12, "Attached Files:")] + bullets + [Line(50, PageHeight - 100, 10, RequestFooter)];
      forall k | 0 <= k < |names|
        ensures doc[|body| + 1 + k] == Line(70, yEnd + 25 + 15 * k, 12, "• " + names[k])
      {
        assert doc[|body| + 1 + k] == bullets[k];
      }
    }
  }

  /**
   * A drawn request document: the eight header and time lines, then one line
   * per field, the description heading and its lines, the files block when
   * files are set, and the footer last.
   */
  lemma {:induction false} RequestDocumentShape(r: Request, rd: Renderer)
    requires RequestDocument(r, rd).Success?
    ensures var doc := RequestDocument(r, rd).value;
      var fields := FieldList(r);
      && doc[..8] == TopLines(r, rd, rd.isoTime(r.createdAt).value)
      && (forall i :: 0 <= i < |fields| ==> doc[8 + i] == Line(50, 255 + 15 * i, 12, FieldText(fields[i])))
      && doc[8 + |fields|] == Line(50, 255 + 15 * |fields| + 10, 12, "Description:")
      && doc[|doc| - 1] == Line(50, PageHeight - 100, 10, RequestFooter)
      && |doc| == 8 + |fields| + 1 + |RawDescriptionLines(r.description, rd)| + 1
        + (if Truthy(r.files) then 1 + |Json.Parse(r.files.value).value| else 0)
  {
    var iso := rd.isoTime(r.createdAt).value;
    var texts := Texts(FieldList(r));
    var desc := DescriptionLines(r.description, rd);
    DocumentIsClosing(r, rd);
    BodyShape(TopLines(r, rd, iso), texts, desc, BodyEnd(r, rd), r.files);
  }

  lemma DocumentIsClosing(r: Request, rd: Renderer)
    requires rd.isoTime(r.createdAt).Some?
    ensures var top := TopLines(r, rd, rd.isoTime(r.createdAt).value);
      && |top| == 8
      && RequestDocument(r, rd)
        == Closing(top + DetailsOf(Texts(FieldList(r)), DescriptionLines(r.description, rd)), BodyEnd(r, rd), r.files)
  {
  }

  /** The layout of a request document over any eight top lines, field texts, description lines and files. */
  lemma {:induction false} BodyShape(top: seq<Line>, texts: seq<string>, desc: seq<string>, yEnd: int, files: Option<string>)
    requires |top| == 8 && Closing(top + DetailsOf(texts, desc), yEnd, files).Success?
    ensures var doc := Closing(top + DetailsOf(texts, desc), yEnd, files).value;
      && doc[..8] == top
      && (forall i :: 0 <= i < |texts| ==> doc[8 + i] == Line(50, 255 + 15 * i, 12, texts[i]))
      && doc[8 + |texts|] == Line(50, 255 + 15 * |texts| + 10, 12, "Description:")
      && doc[|doc| - 1] == Line(50, PageHeight - 100, 10, RequestFooter)
      && |doc| == 8 + |texts| + 1 + |desc| + 1 + (if Truthy(files) then 1 + |Json.Parse(files.value).value| else 0)
  {
    var details := DetailsOf(texts, desc);
    var body := top + details;
    var doc := Closing(body, yEnd, files).value;
    ClosingShape(body, yEnd, files);
    DetailsShape(texts, desc);
    assert doc[..8] == body[..8] == top;
    forall i | 0 <= i < |texts|
      ensures doc[8 + i] == Line(50, 255 + 15 * i, 12, texts[i])
    {
      assert doc[8 + i] == body[8 + i] == details[i];
    }
    assert doc[8 + |texts|] == body[8 + |texts|] == details[|texts|];
  }

  /**
   * Files stored as the JSON array of the uploaded names are listed one
   * bullet per name, in order, 15 apart from 25 below the last description line.
   */
  lemma {:induction false} FilesListed(r: Request, rd: Renderer, names: seq<string>)
    requires rd.isoTime(r.createdAt).Some? && |names| > 0 && r.files == Some(Json.Stringify(names))
    ensures RequestDocument(r, rd).Success?
    ensures var doc := RequestDocument(r, rd).value;
      var start := |RequestDocumentBody(r, rd, rd.isoTime(r.createdAt).value)|;
      && doc[start] == Line(50, BodyEnd(r, rd) + 10, 12, "Attached Files:")
      && |doc| == start + 1 + |names| + 1
      && forall k :: 0 <= k < |names| ==> doc[start + 1 + k] == Line(70, BodyEnd(r, rd) + 25 + 15 * k, 12, "• " + names[k])
  {
    Json.ParseStringify(names);
    assert Json.Stringify(names)[0] == '[';
    var body := RequestDocumentBody(r, rd, rd.isoTime(r.createdAt).value);
    ClosingShape(body, BodyEnd(r, rd), r.files);
  }

  /** Without files the footer follows the description directly: no files heading is drawn. */
  lemma NoFilesNoBlock(r: Request, rd: Renderer)
    requires rd.isoTime(r.createdAt).Some? && !Truthy(r.files)
    ensures RequestDocument(r, rd) ==
      Success(RequestDocumentBody(r, rd, rd.isoTime(r.createdAt).value) + [Line(50, PageHeight - 100, 10, RequestFooter)])
  {
  }

  /** The template layout: the four header lines, the field lines 25 apart from y = 170, the check box and consent 20 below them, the footer. */
  lemma {:induction false} BlankLayoutShape(title: string, fields: seq<string>, consent: string)
    ensures var doc := BlankLayout(title, fields, consent);
      && |doc| == 4 + |fields| + 3
      && doc[3] == Line(50, 130, 16, title)
      && (forall i :: 0 <= i < |fields| ==> doc[4 + i] == Line(50, 170 + 25 * i, 12, fields[i]))
      && doc[4 + |fields|] == Line(50, 170 + 25 * |fields| + 20, 12, "☐ ")
      && doc[5 + |fields|] == Line(70, 170 + 25 * |fields| + 20, 12, consent)
      && doc[6 + |fields|] == Line(50, PageHeight - 100, 10, BlankFooter)
  {
    var doc := BlankLayout(title, fields, consent);
    var stack := Stack(fields, 50, 170, 25);
    forall i | 0 <= i < |fields|
      ensures doc[4 + i] == Line(50, 170 + 25 * i, 12, fields[i])
    {
      assert doc[4 + i] == stack[i];
    }
  }

  /** A landlord template has 16 field lines, a tenant template 12. */
  lemma BlankFieldCount(kind: Schema.Kind)
    ensures |BlankFields(kind)| == if kind == Schema.Landlord then 16 else 12
  {
  }

  /** Each role's template closes with its own consent sentence. */
  lemma ConsentTextsDiffer(kind: Schema.Kind)
    ensures ConsentText(kind) != ConsentText(if kind == Schema.Landlord then Schema.Tenant else Schema.Landlord)
  {
    assert |ConsentText(Schema.Landlord)| != |ConsentText(Schema.Tenant)|;
  }

  // ---------------------------------------------------------------------------
  // Files on disk

  /** A file the generator wrote: a finished document, or the remains of a drawing that failed. */
  datatype StoredFile = Complete(lines: seq<Line>) | Incomplete

  class Disk {
    var files: map<string, StoredFile>

    constructor()
      ensures files == map[]
    {
      files := map[];
    }

    /**
     * `generateRequestPDF`: opens `request-<ticket>.pdf` in the pdfs directory,
     * then draws the document into it. On success the file holds the document
     * and its path is returned; on failure the opened file stays behind
     * unfinished.
     */
    method GenerateRequestPdf(r: Request, rd: Renderer) returns (result: Result<string, string>)
      modifies this
      ensures RequestDocument(r, rd).Success? ==>
        result == Success(RequestPdfPath(r.ticketId))
        && files == old(files)[RequestPdfPath(r.ticketId) := Complete(RequestDocument(r, rd).value)]
      ensures RequestDocument(r, rd).Failure? ==>
        result == Failure(RequestDocument(r, rd).error)
        && files == old(files)[RequestPdfPath(r.ticketId) := Incomplete]
    {
      var path := PdfDir + "/" + "request-" + r.ticketId + ".pdf";
      assert path == RequestPdfPath(r.ticketId);
      files := files[path := Incomplete];
      var drawn := RenderRequest(r, rd);
      match drawn {
        case Success(lines) =>
          files := files[path := Complete(lines)];
          result := Success(path);
        case Failure(e) =>
          result := Failure(e);
      }
    }

    /** `generateBlankPDF`: writes the role's template to `<role>-blank.pdf` in the forms directory. */
    method GenerateBlankPdf(kind: Schema.Kind) returns (path: string)
      modifies this
      ensures path == BlankPdfPath(kind)
      ensures files == old(files)[path := Complete(BlankDocument(kind))]
    {
      path := FormsDir + "/" + Schema.KindName(kind) + "-blank.pdf";
      var lines := RenderBlank(kind);
      files := files[path := Complete(lines)];
    }
  }
}
