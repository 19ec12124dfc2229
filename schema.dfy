/**
 * The request record shape and the two role-specific submission validators
 * (landlord and tenant). A validator reads a submitted form, checks each key
 * of its schema in the schema's key order, and either returns the typed
 * insert payload or the list of issues it found. Keys outside the schema
 * are dropped, never rejected.
 */
module Schema {
  import opened Wrappers

  /** A value of the submitted form, as the validator sees it. */
  datatype Value = Missing | Str(s: string) | Bool(b: bool) | Other

  /** A submitted form: field name to value; an absent key reads as `Missing`. */
  type Form = map<string, Value>

  function Get(form: Form, key: string): Value
  {
    if key in form then form[key] else Missing
  }

  datatype Kind = Landlord | Tenant

  function KindName(kind: Kind): string
  {
    match kind
    case Landlord => "landlord"
    case Tenant => "tenant"
  }

  /** What the `files` field of an insert payload may hold: nothing, a JSON text, or a list of names. */
  datatype FilesValue = NoFiles | FilesText(text: string) | FilesList(names: seq<string>)

  /**
   * The insert payload: the columns of a request without the generated
   * `id`, `ticketId`, `status`, `createdAt` and `updatedAt`.
   */
  datatype InsertRequest = InsertRequest(
    role: string,
    fullName: string,
    email: string,
    phone: string,
    address: string,
    unit: Option<string>,
    company: Option<string>,
    requestType: string,
    preferredDateTime: Option<string>,
    accessInstructions: Option<string>,
    budgetRange: Option<string>,
    entryPermission: Option<string>,
    description: string,
    files: FilesValue,
    consent: bool)

  /** One validation issue: the key it concerns and its message. */
  datatype Issue = Issue(path: string, message: string)

  const LandlordRequestTypes: seq<string> := ["emergency", "maintenance", "turnover", "renovation", "other"]
  const TenantRequestTypes: seq<string> :=
    ["emergency", "plumbing", "electrical", "heating", "appliance", "maintenance", "other"]
  const BudgetRanges: seq<string> := ["under-500", "500-1000", "1000-2500", "2500-5000", "over-5000"]
  const EntryPermissions: seq<string> := ["yes-anytime", "yes-scheduled", "emergency-only", "no"]
  const MaxDescriptionLength: nat := 1000

  /** The keys each schema knows, in its key order. */
  const ContactKeys: seq<string> := ["type", "fullName", "email", "phone", "address"]
  const LandlordDetailKeys: seq<string> :=
    ["company", "requestType", "preferredDateTime", "accessInstructions", "budgetRange", "description", "files", "consent"]
  const TenantDetailKeys: seq<string> := ["unit", "requestType", "entryPermission", "description", "files", "consent"]
  const LandlordKeys: seq<string> := ContactKeys + LandlordDetailKeys
  const TenantKeys: seq<string> := ContactKeys + TenantDetailKeys

  function KeysOf(kind: Kind): seq<string>
  {
    match kind
    case Landlord => LandlordKeys
    case Tenant => TenantKeys
  }

  // ---------------------------------------------------------------------------
  // What an acceptable value is, key by key

  predicate NonEmptyText(v: Value) { v.Str? && |v.s| >= 1 }

  predicate OptionalText(v: Value) { v.Missing? || v.Str? }

  predicate OneOf(v: Value, values: seq<string>) { v.Str? && v.s in values }

  predicate OptionalOneOf(v: Value, values: seq<string>) { v.Missing? || OneOf(v, values) }

  predicate DescriptionText(v: Value) { v.Str? && 1 <= |v.s| <= MaxDescriptionLength }

  /** The rules both schemas open with: the role literal, the name, the address for mail, the phone and the property address. */
  predicate ContactAcceptable(form: Form, role: string, isEmail: string -> bool)
  {
    && Get(form, "type") == Str(role)
    && NonEmptyText(Get(form, "fullName"))
    && Get(form, "email").Str? && isEmail(Get(form, "email").s)
    && NonEmptyText(Get(form, "phone"))
    && NonEmptyText(Get(form, "address"))
  }

  /** The landlord rules after the contact ones. */
  predicate LandlordDetailsAcceptable(form: Form)
  {
    && OptionalText(Get(form, "company"))
    && OneOf(Get(form, "requestType"), LandlordRequestTypes)
    && OptionalText(Get(form, "preferredDateTime"))
    && OptionalText(Get(form, "accessInstructions"))
    && OptionalOneOf(Get(form, "budgetRange"), BudgetRanges)
    && DescriptionText(Get(form, "description"))
    && OptionalText(Get(form, "files"))
    && Get(form, "consent") == Bool(true)
  }

  /** The tenant rules after the contact ones. */
  predicate TenantDetailsAcceptable(form: Form)
  {
    && NonEmptyText(Get(form, "unit"))
    && OneOf(Get(form, "requestType"), TenantRequestTypes)
    && OneOf(Get(form, "entryPermission"), EntryPermissions)
    && DescriptionText(Get(form, "description"))
    && OptionalText(Get(form, "files"))
    && Get(form, "consent") == Bool(true)
  }

  /** Every landlord rule holds of the form. */
  predicate LandlordAcceptable(form: Form, isEmail: string -> bool)
  {
    ContactAcceptable(form, "landlord", isEmail) && LandlordDetailsAcceptable(form)
  }

  /** Every tenant rule holds of the form. */
  predicate TenantAcceptable(form: Form, isEmail: string -> bool)
  {
    ContactAcceptable(form, "tenant", isEmail) && TenantDetailsAcceptable(form)
  }

  predicate Acceptable(kind: Kind, form: Form, isEmail: string -> bool)
  {
    match kind
    case Landlord => LandlordAcceptable(form, isEmail)
    case Tenant => TenantAcceptable(form, isEmail)
  }

  // ---------------------------------------------------------------------------
  // The checks, each reporting at most one issue for its key

  /** `z.literal(lit)`. */
  function LiteralCheck(form: Form, key: string, lit: string): (issues: seq<Issue>)
    ensures issues == [] <==> Get(form, key) == Str(lit)
    ensures |issues| <= 1 && forall x :: x in issues ==> x.path == key
  {
    if Get(form, key) == Str(lit) then [] else [Issue(key, "Invalid literal value, expected \"" + lit + "\"")]
  }

  /** `z.string().min(1, message)`. */
  function RequiredTextCheck(form: Form, key: string, message: string): (issues: seq<Issue>)
    ensures issues == [] <==> NonEmptyText(Get(form, key))
    ensures |issues| <= 1 && forall x :: x in issues ==> x.path == key
  {
    match Get(form, key)
    case Missing => [Issue(key, "Required")]
    case Str(s) => if |s| >= 1 then [] else [Issue(key, message)]
    case _ => [Issue(key, "Expected string")]
  }

  /** `z.string().email("Valid email is required")`, the address grammar being `isEmail`. */
  function EmailCheck(form: Form, isEmail: string -> bool): (issues: seq<Issue>)
    ensures issues == [] <==> Get(form, "email").Str? && isEmail(Get(form, "email").s)
    ensures |issues| <= 1 && forall x :: x in issues ==> x.path == "email"
  {
    match Get(form, "email")
    case Missing => [Issue("email", "Required")]
    case Str(s) => if isEmail(s) then [] else [Issue("email", "Valid email is required")]
    case _ => [Issue("email", "Expected string")]
  }

  /** `z.string().optional()`. */
  function OptionalTextCheck(form: Form, key: string): (issues: seq<Issue>)
    ensures issues == [] <==> OptionalText(Get(form, key))
    ensures |issues| <= 1 && forall x :: x in issues ==> x.path == key
  {
    match Get(form, key)
    case Missing => []
    case Str(_) => []
    case _ => [Issue(key, "Expected string")]
  }

  /** `z.enum(values)`. */
  function EnumCheck(form: Form, key: string, values: seq<string>): (issues: seq<Issue>)
    ensures issues == [] <==> OneOf(Get(form, key), values)
    ensures |issues| <= 1 && forall x :: x in issues ==> x.path == key
  {
    match Get(form, key)
    case Missing => [Issue(key, "Required")]
    case Str(s) => if s in values then [] else [Issue(key, "Invalid enum value")]
    case _ => [Issue(key, "Invalid enum value")]
  }

  /** `z.enum(values).optional()`. */
  function OptionalEnumCheck(form: Form, key: string, values: seq<string>): (issues: seq<Issue>)
    ensures issues == [] <==> OptionalOneOf(Get(form, key), values)
    ensures |issues| <= 1 && forall x :: x in issues ==> x.path == key
  {
    if Get(form, key).Missing? then [] else EnumCheck(form, key, values)
  }

  /** `z.string().min(1, "Description is required").max(1000, "Description too long")`. */
  function DescriptionCheck(form: Form): (issues: seq<Issue>)
    ensures issues == [] <==> DescriptionText(Get(form, "description"))
    ensures |issues| <= 1 && forall x :: x in issues ==> x.path == "description"
  {
    match Get(form, "description")
    case Missing => [Issue("description", "Required")]
    case Str(s) =>
      if |s| < 1 then [Issue("description", "Description is required")]
      else if |s| > MaxDescriptionLength then [Issue("description", "Description too long")]
      else []
    case _ => [Issue("description", "Expected string")]
  }

  /** `z.boolean().refine(val => val === true, "Consent is required")`. */
  function ConsentCheck(form: Form): (issues: seq<Issue>)
    ensures issues == [] <==> Get(form, "consent") == Bool(true)
    ensures |issues| <= 1 && forall x :: x in issues ==> x.path == "consent"
  {
    match Get(form, "consent")
    case Missing => [Issue("consent", "Required")]
    case Bool(b) => if b then [] else [Issue("consent", "Consent is required")]
    case _ => [Issue("consent", "Expected boolean")]
  }

  /** The issues of the contact keys, in schema order. */
  function ContactIssues(form: Form, role: string, isEmail: string -> bool): seq<Issue>
  {
    LiteralCheck(form, "type", role)
    + RequiredTextCheck(form, "fullName", "Full name is required")
    + EmailCheck(form, isEmail)
    + RequiredTextCheck(form, "phone", "Phone number is required")
    + RequiredTextCheck(form, "address", "Property address is required")
  }

  /** The issues of the landlord keys after the contact ones, in schema order. */
  function LandlordDetailIssues(form: Form): seq<Issue>
  {
    OptionalTextCheck(form, "company")
    + EnumCheck(form, "requestType", LandlordRequestTypes)
    + OptionalTextCheck(form, "preferredDateTime")
    + OptionalTextCheck(form, "accessInstructions")
    + OptionalEnumCheck(form, "budgetRange", BudgetRanges)
    + DescriptionCheck(form)
    + OptionalTextCheck(form, "files")
    + ConsentCheck(form)
  }

  /** The issues of the tenant keys after the contact ones, in schema order. */
  function TenantDetailIssues(form: Form): seq<Issue>
  {
    RequiredTextCheck(form, "unit", "Unit number is required")
    + EnumCheck(form, "requestType", TenantRequestTypes)
    + EnumCheck(form, "entryPermission", EntryPermissions)
    + DescriptionCheck(form)
    + OptionalTextCheck(form, "files")
    + ConsentCheck(form)
  }

  /** The issues of the landlord schema, key by key in schema order. */
  function LandlordIssues(form: Form, isEmail: string -> bool): seq<Issue>
  {
    ContactIssues(form, "landlord", isEmail) + LandlordDetailIssues(form)
  }

  /** The issues of the tenant schema, key by key in schema order. */
  function TenantIssues(form: Form, isEmail: string -> bool): seq<Issue>
  {
    ContactIssues(form, "tenant", isEmail) + TenantDetailIssues(form)
  }

  function Issues(kind: Kind, form: Form, isEmail: string -> bool): seq<Issue>
  {
    match kind
    case Landlord => LandlordIssues(form, isEmail)
    case Tenant => TenantIssues(form, isEmail)
  }

  // ---------------------------------------------------------------------------
  // The validated payload

  /** The text of a string value; only read where the value is known to be a string. */
  function TextOf(v: Value): string
  {
    if v.Str? then v.s else ""
  }

  function OptionalValue(v: Value): Option<string>
  {
    if v.Str? then Some(v.s) else None
  }

  function FilesOf(v: Value): FilesValue
  {
    if v.Str? then FilesText(v.s) else NoFiles
  }

  /** The payload a validated landlord form becomes. */
  function LandlordPayload(form: Form): InsertRequest
  {
    InsertRequest(
      "landlord", TextOf(Get(form, "fullName")), TextOf(Get(form, "email")), TextOf(Get(form, "phone")),
      TextOf(Get(form, "address")), None, OptionalValue(Get(form, "company")), TextOf(Get(form, "requestType")),
      OptionalValue(Get(form, "preferredDateTime")), OptionalValue(Get(form, "accessInstructions")),
      OptionalValue(Get(form, "budgetRange")), None, TextOf(Get(form, "description")),
      FilesOf(Get(form, "files")), true)
  }

  /** The payload a validated tenant form becomes. */
  function TenantPayload(form: Form): InsertRequest
  {
    InsertRequest(
      "tenant", TextOf(Get(form, "fullName")), TextOf(Get(form, "email")), TextOf(Get(form, "phone")),
      TextOf(Get(form, "address")), Some(TextOf(Get(form, "unit"))), None, TextOf(Get(form, "requestType")),
      None, None, None, Some(TextOf(Get(form, "entryPermission"))), TextOf(Get(form, "description")),
      FilesOf(Get(form, "files")), true)
  }

  /** The value for `key` was taken over unchanged. */
  predicate Carries(form: Form, key: string, text: string) { Get(form, key) == Str(text) }

  predicate CarriesOptional(form: Form, key: string, field: Option<string>)
  {
    if Get(form, key).Str? then field == Some(Get(form, key).s) else field == None
  }

  /** What a validated payload says about the form it came from, common to both roles. */
  predicate SharedFieldsCarried(form: Form, out: InsertRequest)
  {
    && Carries(form, "type", out.role)
    && Carries(form, "fullName", out.fullName)
    && Carries(form, "email", out.email)
    && Carries(form, "phone", out.phone)
    && Carries(form, "address", out.address)
    && Carries(form, "requestType", out.requestType)
    && Carries(form, "description", out.description)
    && (if Get(form, "files").Str? then out.files == FilesText(Get(form, "files").s) else out.files == NoFiles)
    && out.consent
  }

  /** The contact checks find nothing exactly when the contact rules hold, and report only contact keys. */
  lemma ContactIssuesMeaning(form: Form, role: string, isEmail: string -> bool)
    ensures ContactIssues(form, role, isEmail) == [] <==> ContactAcceptable(form, role, isEmail)
    ensures forall x :: x in ContactIssues(form, role, isEmail) ==> x.path in ContactKeys
  {
    assert ContactKeys == ["type", "fullName", "email", "phone", "address"];
  }

  lemma LandlordDetailsMeaning(form: Form)
    ensures LandlordDetailIssues(form) == [] <==> LandlordDetailsAcceptable(form)
    ensures forall x :: x in LandlordDetailIssues(form) ==> x.path in LandlordDetailKeys
  {
    assert LandlordDetailKeys[0] == "company" && LandlordDetailKeys[1] == "requestType";
    assert LandlordDetailKeys[2] == "preferredDateTime" && LandlordDetailKeys[3] == "accessInstructions";
    assert LandlordDetailKeys[4] == "budgetRange" && LandlordDetailKeys[5] == "description";
    assert LandlordDetailKeys[6] == "files" && LandlordDetailKeys[7] == "consent";
  }

  lemma TenantDetailsMeaning(form: Form)
    ensures TenantDetailIssues(form) == [] <==> TenantDetailsAcceptable(form)
    ensures forall x :: x in TenantDetailIssues(form) ==> x.path in TenantDetailKeys
  {
    assert TenantDetailKeys[0] == "unit" && TenantDetailKeys[1] == "requestType";
    assert TenantDetailKeys[2] == "entryPermission" && TenantDetailKeys[3] == "description";
    assert TenantDetailKeys[4] == "files" && TenantDetailKeys[5] == "consent";
  }

  /** The landlord checks find nothing exactly when every landlord rule holds, and report only landlord keys. */
  lemma LandlordIssuesMeaning(form: Form, isEmail: string -> bool)
    ensures LandlordIssues(form, isEmail) == [] <==> LandlordAcceptable(form, isEmail)
    ensures forall x :: x in LandlordIssues(form, isEmail) ==> x.path in LandlordKeys
  {
    ContactIssuesMeaning(form, "landlord", isEmail);
    LandlordDetailsMeaning(form);
  }

  /** The tenant checks find nothing exactly when every tenant rule holds, and report only tenant keys. */
  lemma TenantIssuesMeaning(form: Form, isEmail: string -> bool)
    ensures TenantIssues(form, isEmail) == [] <==> TenantAcceptable(form, isEmail)
    ensures forall x :: x in TenantIssues(form, isEmail) ==> x.path in TenantKeys
  {
    ContactIssuesMeaning(form, "tenant", isEmail);
    TenantDetailsMeaning(form);
  }

  /**
   * `landlordRequestSchema.safeParse(form)`: the payload exactly when every
   * landlord rule holds, otherwise at least one issue, each about a landlord key.
   * The payload takes every landlord field over unchanged and has no unit and
   * no entry permission.
   */
  function ParseLandlord(form: Form, isEmail: string -> bool): (r: Result<InsertRequest, seq<Issue>>)
    ensures r.Success? <==> LandlordAcceptable(form, isEmail)
    ensures r.Failure? ==> |r.error| >= 1 && forall x :: x in r.error ==> x.path in LandlordKeys
    ensures r.Success? ==>
      && SharedFieldsCarried(form, r.value)
      && r.value.role == "landlord"
      && CarriesOptional(form, "company", r.value.company)
      && CarriesOptional(form, "preferredDateTime", r.value.preferredDateTime)
      && CarriesOptional(form, "accessInstructions", r.value.accessInstructions)
      && CarriesOptional(form, "budgetRange", r.value.budgetRange)
      && r.value.unit == None && r.value.entryPermission == None
  {
    LandlordIssuesMeaning(form, isEmail);
    var issues := LandlordIssues(form, isEmail);
    if issues == [] then Success(LandlordPayload(form)) else Failure(issues)
  }

  /**
   * `tenantRequestSchema.safeParse(form)`: the payload exactly when every
   * tenant rule holds, otherwise at least one issue, each about a tenant key.
   * The payload takes every tenant field over unchanged and has no company,
   * preferred time, access instructions or budget.
   */
  function ParseTenant(form: Form, isEmail: string -> bool): (r: Result<InsertRequest, seq<Issue>>)
    ensures r.Success? <==> TenantAcceptable(form, isEmail)
    ensures r.Failure? ==> |r.error| >= 1 && forall x :: x in r.error ==> x.path in TenantKeys
    ensures r.Success? ==>
      && SharedFieldsCarried(form, r.value)
      && r.value.role == "tenant"
      && r.value.unit == Some(Get(form, "unit").s) && |Get(form, "unit").s| >= 1
      && r.value.entryPermission == Some(Get(form, "entryPermission").s)
      && r.value.entryPermission.value in EntryPermissions
      && r.value.company == None && r.value.preferredDateTime == None
      && r.value.accessInstructions == None && r.value.budgetRange == None
  {
    TenantIssuesMeaning(form, isEmail);
    var issues := TenantIssues(form, isEmail);
    if issues == [] then Success(TenantPayload(form)) else Failure(issues)
  }

  /** The validator for a role. */
  function Parse(kind: Kind, form: Form, isEmail: string -> bool): (r: Result<InsertRequest, seq<Issue>>)
    ensures r.Success? <==> Acceptable(kind, form, isEmail)
    ensures r.Success? ==> r.value.role == KindName(kind) && r.value.consent && SharedFieldsCarried(form, r.value)
  {
    match kind
    case Landlord => ParseLandlord(form, isEmail)
    case Tenant => ParseTenant(form, isEmail)
  }

  // ---------------------------------------------------------------------------
  // Properties

  /** A form whose consent is not the boolean `true` is rejected with an issue about consent, worded by what was sent. */
  lemma ConsentRejected(kind: Kind, form: Form, isEmail: string -> bool)
    requires Get(form, "consent") != Bool(true)
    ensures Parse(kind, form, isEmail).Failure?
    ensures Issue("consent", match Get(form, "consent")
                             case Missing => "Required"
                             case Bool(_) => "Consent is required"
                             case _ => "Expected boolean") in Issues(kind, form, isEmail)
  {
  }

  /** A description longer than 1000 characters is rejected, not truncated. */
  lemma DescriptionTooLong(kind: Kind, form: Form, isEmail: string -> bool)
    requires Get(form, "description").Str? && |Get(form, "description").s| > MaxDescriptionLength
    ensures Parse(kind, form, isEmail).Failure?
    ensures Issue("description", "Description too long") in Issues(kind, form, isEmail)
  {
  }

  /** An empty description is rejected. */
  lemma DescriptionEmpty(kind: Kind, form: Form, isEmail: string -> bool)
    requires Get(form, "description") == Str("")
    ensures Parse(kind, form, isEmail).Failure?
    ensures Issue("description", "Description is required") in Issues(kind, form, isEmail)
  {
  }

  /** In an accepted form, any description of 1 to 1000 characters (1000 included) is accepted as well. */
  lemma DescriptionWithinBounds(kind: Kind, form: Form, isEmail: string -> bool, d: string)
    requires Acceptable(kind, form, isEmail)
    requires 1 <= |d| <= MaxDescriptionLength
    ensures Parse(kind, form["description" := Str(d)], isEmail) ==
      Success(Parse(kind, form, isEmail).value.(description := d))
  {
    match kind {
      case Landlord => LandlordDescription(form, isEmail, d);
      case Tenant => TenantDescription(form, isEmail, d);
    }
  }

  lemma LandlordDescription(form: Form, isEmail: string -> bool, d: string)
    requires LandlordAcceptable(form, isEmail)
    requires 1 <= |d| <= MaxDescriptionLength
    ensures ParseLandlord(form["description" := Str(d)], isEmail) == Success(LandlordPayload(form).(description := d))
  {
    var f := form["description" := Str(d)];
    GetOther(form, "description", Str(d), "type");
    GetOther(form, "description", Str(d), "fullName");
    GetOther(form, "description", Str(d), "email");
    GetOther(form, "description", Str(d), "phone");
    GetOther(form, "description", Str(d), "address");
    assert ContactAcceptable(f, "landlord", isEmail);
    GetOther(form, "description", Str(d), "company");
    GetOther(form, "description", Str(d), "requestType");
    GetOther(form, "description", Str(d), "preferredDateTime");
    GetOther(form, "description", Str(d), "accessInstructions");
    GetOther(form, "description", Str(d), "budgetRange");
    GetOther(form, "description", Str(d), "files");
    GetOther(form, "description", Str(d), "consent");
    assert LandlordDetailsAcceptable(f);
    assert ParseLandlord(f, isEmail) == Success(LandlordPayload(f));
  }

  lemma TenantDescription(form: Form, isEmail: string -> bool, d: string)
    requires TenantAcceptable(form, isEmail)
    requires 1 <= |d| <= MaxDescriptionLength
    ensures ParseTenant(form["description" := Str(d)], isEmail) == Success(TenantPayload(form).(description := d))
  {
    var f := form["description" := Str(d)];
    GetOther(form, "description", Str(d), "type");
    GetOther(form, "description", Str(d), "fullName");
    GetOther(form, "description", Str(d), "email");
    GetOther(form, "description", Str(d), "phone");
    GetOther(form, "description", Str(d), "address");
    assert ContactAcceptable(f, "tenant", isEmail);
    GetOther(form, "description", Str(d), "unit");
    GetOther(form, "description", Str(d), "requestType");
    GetOther(form, "description", Str(d), "entryPermission");
    GetOther(form, "description", Str(d), "files");
    GetOther(form, "description", Str(d), "consent");
    assert TenantDetailsAcceptable(f);
    assert ParseTenant(f, isEmail) == Success(TenantPayload(f));
  }

  lemma GetOther(form: Form, key: string, v: Value, k: string)
    requires k != key
    ensures Get(form[key := v], k) == Get(form, k)
  {
  }

  lemma ContactIgnores(form: Form, role: string, isEmail: string -> bool, key: string, v: Value)
    requires key !in ContactKeys
    ensures ContactIssues(form[key := v], role, isEmail) == ContactIssues(form, role, isEmail)
  {
    assert ContactKeys == ["type", "fullName", "email", "phone", "address"];
    GetOther(form, key, v, "type");
    GetOther(form, key, v, "fullName");
    GetOther(form, key, v, "email");
    GetOther(form, key, v, "phone");
    GetOther(form, key, v, "address");
  }

  lemma LandlordDetailsIgnore(form: Form, key: string, v: Value)
    requires key !in LandlordDetailKeys
    ensures LandlordDetailIssues(form[key := v]) == LandlordDetailIssues(form)
  {
    var f := form[key := v];
    assert LandlordDetailKeys == ["company", "requestType", "preferredDateTime", "accessInstructions", "budgetRange", "description", "files", "consent"];
    GetOther(form, key, v, "company");
    assert OptionalTextCheck(f, "company") == OptionalTextCheck(form, "company");
    GetOther(form, key, v, "requestType");
    assert EnumCheck(f, "requestType", LandlordRequestTypes) == EnumCheck(form, "requestType", LandlordRequestTypes);
    GetOther(form, key, v, "preferredDateTime");
    assert OptionalTextCheck(f, "preferredDateTime") == OptionalTextCheck(form, "preferredDateTime");
    GetOther(form, key, v, "accessInstructions");
    assert OptionalTextCheck(f, "accessInstructions") == OptionalTextCheck(form, "accessInstructions");
    GetOther(form, key, v, "budgetRange");
    assert OptionalEnumCheck(f, "budgetRange", BudgetRanges) == OptionalEnumCheck(form, "budgetRange", BudgetRanges);
    GetOther(form, key, v, "description");
    assert DescriptionCheck(f) == DescriptionCheck(form);
    GetOther(form, key, v, "files");
    assert OptionalTextCheck(f, "files") == OptionalTextCheck(form, "files");
    GetOther(form, key, v, "consent");
    assert ConsentCheck(f) == ConsentCheck(form);
  }

  lemma TenantDetailsIgnore(form: Form, key: string, v: Value)
    requires key !in TenantDetailKeys
    ensures TenantDetailIssues(form[key := v]) == TenantDetailIssues(form)
  {
    var f := form[key := v];
    assert TenantDetailKeys == ["unit", "requestType", "entryPermission", "description", "files", "consent"];
    GetOther(form, key, v, "unit");
    assert RequiredTextCheck(f, "unit", "Unit number is required") == RequiredTextCheck(form, "unit", "Unit number is required");
    GetOther(form, key, v, "requestType");
    assert EnumCheck(f, "requestType", TenantRequestTypes) == EnumCheck(form, "requestType", TenantRequestTypes);
    GetOther(form, key, v, "entryPermission");
    assert EnumCheck(f, "entryPermission", EntryPermissions) == EnumCheck(form, "entryPermission", EntryPermissions);
    GetOther(form, key, v, "description");
    assert DescriptionCheck(f) == DescriptionCheck(form);
    GetOther(form, key, v, "files");
    assert OptionalTextCheck(f, "files") == OptionalTextCheck(form, "files");
    GetOther(form, key, v, "consent");
    assert ConsentCheck(f) == ConsentCheck(form);
  }

  lemma LandlordIgnores(form: Form, isEmail: string -> bool, key: string, v: Value)
    requires key !in LandlordKeys
    ensures LandlordIssues(form[key := v], isEmail) == LandlordIssues(form, isEmail)
  {
    ContactIgnores(form, "landlord", isEmail, key, v);
    LandlordDetailsIgnore(form, key, v);
  }

  lemma TenantIgnores(form: Form, isEmail: string -> bool, key: string, v: Value)
    requires key !in TenantKeys
    ensures TenantIssues(form[key := v], isEmail) == TenantIssues(form, isEmail)
  {
    ContactIgnores(form, "tenant", isEmail, key, v);
    TenantDetailsIgnore(form, key, v);
  }

  /**
   * The result of validation does not depend on keys outside the schema:
   * the generated columns (`id`, `ticketId`, `status`, `createdAt`,
   * `updatedAt`) and the other role's fields are dropped, whatever they hold.
   */
  lemma IgnoresForeignKey(kind: Kind, form: Form, isEmail: string -> bool, key: string, v: Value)
    requires key !in KeysOf(kind)
    ensures Parse(kind, form[key := v], isEmail) == Parse(kind, form, isEmail)
    ensures Issues(kind, form[key := v], isEmail) == Issues(kind, form, isEmail)
  {
    match kind {
      case Landlord => LandlordIgnores(form, isEmail, key, v);
      case Tenant => TenantIgnores(form, isEmail, key, v);
    }
  }
}
