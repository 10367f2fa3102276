/**
 The input sanitiser and the two validators of the combined application form
 (web/src/validators/caf.validators.js). How JavaScript reads numbers and dates from text
 is a parameter.
 */
module CafValidators {
  import opened Options
  import opened Strings
  import opened Json
  import opened ObjectPath
  import opened FieldDiff
  import opened ApprovalTracks
  import opened CafModel
  import opened CafShapes

  datatype Parsers = Parsers(
    number: string -> Option<int>,
    date: string -> Option<string>,
    after: (string, string) -> bool)

  // ---------------------------------------------------------------- the fields of the form

  datatype Kind = TextField | LowerField | UpperField | NumberField | FlagField | DateField

  predicate IsFlag(k: string)
  {
    k in {"hazardousProcess", "boilerInstalled", "buildingPlanAvailable", "occupancyCertificateAvailable",
          "effluentGenerated", "emissionsGenerated", "hazardousWasteGenerated", "backupGenerator",
          "transformerRequired", "fireNocRequired", "storageOfFlammables", "emergencyExitsProvided",
          "factoryLicenseRequired", "machineryInstalled", "pressureVessels", "boilers",
          "workerSafetyPlanAvailable", "interstateMigrantWorkers", "shopsEstablishmentRequired",
          "labourRegistrationRequired"}
  }

  predicate IsNumber(k: string)
  {
    k in {"investmentAmount", "employmentExpected", "landAreaSqM", "builtUpAreaSqM", "powerRequirementKw",
          "waterRequirementKld", "workersCount", "shiftsCount", "connectedLoadKw", "contractDemandKva",
          "buildingHeightM", "employeeCount", "contractLabourCount"}
  }

  predicate IsLower(k: string)
  {
    k in {"organisationType", "contactEmail", "authorisedSignatoryEmail", "pollutionCategory", "occupancyType"}
  }

  predicate IsUpper(k: string)
  {
    k in {"pan", "gstin", "udyamNumber"}
  }

  predicate IsDate(k: string)
  {
    k in {"proposedStartDate", "proposedCommercialOperationDate"}
  }

  function KindOf(k: string): Kind
  {
    if IsFlag(k) then FlagField
    else if IsNumber(k) then NumberField
    else if IsLower(k) then LowerField
    else if IsUpper(k) then UpperField
    else if IsDate(k) then DateField
    else TextField
  }

  datatype Section =
    | EnterpriseSection | ProjectSection | LandSection | EnvironmentSection
    | PowerSection | FireSection | SafetySection | LabourSection

  /** The keys sanitizeInput gives a section. */
  function KeysOf(section: Section): set<string>
  {
    match section
    case EnterpriseSection =>
      {"legalName", "tradeName", "organisationType", "registrationNumber", "pan", "gstin", "udyamNumber",
       "contactEmail", "contactPhone", "registeredAddress", "district", "taluk", "pincode",
       "authorisedSignatoryName", "authorisedSignatoryDesignation", "authorisedSignatoryEmail",
       "authorisedSignatoryPhone"}
    case ProjectSection =>
      {"projectName", "projectType", "sector", "investmentAmount", "employmentExpected", "projectDescription",
       "proposedStartDate", "proposedCommercialOperationDate", "projectAddress", "projectDistrict", "projectTaluk",
       "projectPincode", "landAreaSqM", "builtUpAreaSqM", "powerRequirementKw", "waterRequirementKld",
       "hazardousProcess", "boilerInstalled", "workersCount", "shiftsCount"}
    case LandSection =>
      {"landOwnershipType", "landSurveyNumber", "landUseType", "zoningStatus", "buildingPlanAvailable",
       "occupancyCertificateAvailable"}
    case EnvironmentSection =>
      {"pollutionCategory", "effluentGenerated", "emissionsGenerated", "hazardousWasteGenerated", "waterSource",
       "consentTypeRequested"}
    case PowerSection =>
      {"connectionType", "connectedLoadKw", "contractDemandKva", "backupGenerator", "transformerRequired"}
    case FireSection =>
      {"buildingHeightM", "occupancyType", "fireNocRequired", "storageOfFlammables", "emergencyExitsProvided"}
    case SafetySection =>
      {"factoryLicenseRequired", "machineryInstalled", "pressureVessels", "boilers", "workerSafetyPlanAvailable"}
    case LabourSection =>
      {"employeeCount", "contractLabourCount", "interstateMigrantWorkers", "shopsEstablishmentRequired",
       "labourRegistrationRequired"}
  }

  function SectionKeys(s: string): set<string>
  {
    if s == "enterprise" then KeysOf(EnterpriseSection)
    else if s == "project" then KeysOf(ProjectSection)
    else if s == "land" then KeysOf(LandSection)
    else if s == "environment" then KeysOf(EnvironmentSection)
    else if s == "power" then KeysOf(PowerSection)
    else if s == "fire" then KeysOf(FireSection)
    else if s == "industrialSafety" then KeysOf(SafetySection)
    else if s == "labour" then KeysOf(LabourSection)
    else {}
  }

  /** The keys beside the sections. */
  function FlatKeys(): set<string>
  {
    {"sourceSystem", "sourceReferenceId", "duplicateOverrideConfirmed", "duplicateOverrideReason",
     "idempotencyKey", "attachments"}
  }

  function CafSchema(): Schema
  {
    Schema(map s | s in SECTIONS :: SectionKeys(s), FlatKeys())
  }

  // ---------------------------------------------------------------- cleaning a value

  /** cleanString. */
  function CleanText(v: Json): string
  {
    if v.Undefined? || v.Null? then "" else Trim(Text(v))
  }

  /** toBoolean. */
  function CleanFlag(v: Json): Json
  {
    if v.Bool? then v else Bool(Lower(CleanText(v)) in ["true", "1", "yes", "on"])
  }

  /** toNumber. */
  function CleanNumber(p: Parsers, v: Json): Json
  {
    match v
    case Undefined => Null
    case Null => Null
    case Num(n) => v
    case Bool(b) => Num(if b then 1 else 0)
    case _ =>
      if v == Str("") then Null
      else match p.number(Text(v)) case Some(n) => Num(n) case None => Null
  }

  /** toDate. */
  function CleanDate(p: Parsers, v: Json): Json
  {
    if CleanText(v) == "" then Null
    else match p.date(CleanText(v)) case Some(date) => Str(date) case None => Null
  }

  function Clean(p: Parsers, kind: Kind, v: Json): (c: Json)
    ensures Flat(c)
  {
    match kind
    case TextField => Str(CleanText(v))
    case LowerField => Str(Lower(CleanText(v)))
    case UpperField => Str(Upper(CleanText(v)))
    case NumberField => CleanNumber(p, v)
    case FlagField => CleanFlag(v)
    case DateField => CleanDate(p, v)
  }

  function AttachmentKeys(): set<string>
  {
    {"documentType", "title", "fileName", "mimeType", "fileSize", "checksum", "objectKey", "metadata"}
  }

  /** `Math.max(0, toNumber(v) || 0)`. */
  function CleanSize(p: Parsers, v: Json): Json
  {
    var size := CleanNumber(p, v);
    Num(if size.Num? && size.n > 0 then size.n else 0)
  }

  function AttachmentValue(p: Parsers, item: Json, k: string): Json
  {
    var v := Step(item, k);
    if k == "documentType" then Str(Lower(CleanText(v)))
    else if k == "title" && CleanText(v) == "" then Str(CleanText(Step(item, "documentType")))
    else if k == "mimeType" && CleanText(v) == "" then Str("application/pdf")
    else if k == "fileSize" then CleanSize(p, v)
    else if k == "metadata" then (if IsContainer(v) then v else Obj(map[]))
    else Str(CleanText(v))
  }

  /** sanitizeAttachment. */
  function CleanAttachment(p: Parsers, item: Json): Json
  {
    Obj(map k | k in AttachmentKeys() :: AttachmentValue(p, item, k))
  }

  lemma DocumentTypeOf(p: Parsers, item: Json)
    ensures Step(CleanAttachment(p, item), "documentType") == Str(Lower(CleanText(Step(item, "documentType"))))
  {
  }

  /** `attachments.map(sanitizeAttachment).filter((item) => item.documentType)`. */
  function CleanAttachments(p: Parsers, items: seq<Json>): seq<Json>
  {
    if items == [] then []
    else
      var item := CleanAttachment(p, items[0]);
      (if Step(item, "documentType") == Str("") then [] else [item]) + CleanAttachments(p, items[1..])
  }

  // ---------------------------------------------------------------- sanitizeInput

  function SectionInput(input: map<string, Json>, s: string): Json
  {
    if Truthy(Field(input, s)) then Field(input, s)
    else if s == "industrialSafety" && Truthy(Field(input, "factorySafety")) then Field(input, "factorySafety")
    else Obj(map[])
  }

  function CleanSection(p: Parsers, section: Json, keys: set<string>): Json
  {
    Obj(map k | k in keys :: Clean(p, KindOf(k), Step(section, k)))
  }

  function CleanFlat(p: Parsers, input: map<string, Json>, k: string): Json
  {
    var v := Field(input, k);
    if k == "attachments" then Arr(if v.Arr? then CleanAttachments(p, v.items) else [])
    else if k == "duplicateOverrideConfirmed" then CleanFlag(v)
    else if k == "sourceSystem" && CleanText(v) == "" then Str("sws_portal")
    else Str(CleanText(v))
  }

  /** The sanitiser for a given schema: its keys, and no others. */
  function SanitiseTo(p: Parsers, schema: Schema, input: map<string, Json>): map<string, Json>
  {
    map k | k in schema.sections.Keys + schema.flat ::
      if k in schema.sections then CleanSection(p, SectionInput(input, k), schema.sections[k])
      else CleanFlat(p, input, k)
  }

  function Sanitise(p: Parsers, input: map<string, Json>): map<string, Json>
  {
    SanitiseTo(p, CafSchema(), input)
  }

  lemma MetadataProper(item: Json)
    requires Proper(item)
    ensures IsContainer(Step(item, "metadata")) ==> Proper(Step(item, "metadata"))
  {
  }

  lemma AttachmentValueProper(p: Parsers, item: Json, k: string)
    requires Proper(item)
    ensures Proper(AttachmentValue(p, item, k))
  {
    MetadataProper(item);
  }

  lemma AttachmentProper(p: Parsers, item: Json)
    requires Proper(item)
    ensures Proper(CleanAttachment(p, item))
  {
    forall k | k in AttachmentKeys()
      ensures Proper(AttachmentValue(p, item, k))
    {
      AttachmentValueProper(p, item, k);
    }
  }

  lemma {:induction false} AttachmentsProper(p: Parsers, items: seq<Json>)
    requires forall item <- items :: Proper(item)
    ensures forall item <- CleanAttachments(p, items) :: Proper(item)
  {
    if items != [] {
      AttachmentProper(p, items[0]);
      AttachmentsProper(p, items[1..]);
    }
  }

  lemma FlatClean(p: Parsers, input: map<string, Json>, k: string)
    requires k == "attachments" && k in input ==> Proper(input[k])
    ensures Flat(CleanFlat(p, input, k))
  {
    if k == "attachments" && Field(input, k).Arr? {
      var items := input[k].items;
      forall item | item in items ensures Proper(item) {
        var i :| 0 <= i < |items| && items[i] == item;
      }
      AttachmentsProper(p, items);
    }
  }

  lemma SectionClean(p: Parsers, section: Json, keys: set<string>)
    ensures SectionShape(CleanSection(p, section, keys), keys)
  {
  }

  /** Whatever is sent, what is stored has the shape of the schema. */
  lemma SanitisedHasShape(p: Parsers, schema: Schema, input: map<string, Json>)
    requires schema.flat !! schema.sections.Keys
    requires "attachments" in input ==> Proper(input["attachments"])
    ensures HasShape(schema, SanitiseTo(p, schema, input))
  {
    var form := SanitiseTo(p, schema, input);
    forall s | s in schema.sections
      ensures SectionShape(form[s], schema.sections[s])
    {
      SectionClean(p, SectionInput(input, s), schema.sections[s]);
    }
    forall k | k in schema.flat
      ensures Flat(form[k])
    {
      FlatClean(p, input, k);
    }
  }

  lemma FlatIsNoSection(k: string)
    requires k in FlatKeys()
    ensures k !in SECTIONS
  {
    assert "attachments"[0] != "environment"[0];
  }

  // ---------------------------------------------------------------- the schema is safe

  predicate AllSafe(keys: set<string>)
  {
    forall k <- keys :: SafeKey(k)
  }

  lemma EnterpriseSafe()
    ensures AllSafe(KeysOf(EnterpriseSection))
  {
  }

  lemma ProjectSafe()
    ensures AllSafe(KeysOf(ProjectSection))
  {
  }

  lemma LandSafe()
    ensures AllSafe(KeysOf(LandSection))
  {
  }

  lemma EnvironmentSafe()
    ensures AllSafe(KeysOf(EnvironmentSection))
  {
  }

  lemma PowerSafe()
    ensures AllSafe(KeysOf(PowerSection))
  {
  }

  lemma FireSafe()
    ensures AllSafe(KeysOf(FireSection))
  {
  }

  lemma SafetySafe()
    ensures AllSafe(KeysOf(SafetySection))
  {
  }

  lemma LabourSafe()
    ensures AllSafe(KeysOf(LabourSection))
  {
  }

  lemma SectionSafe(s: string)
    ensures AllSafe(SectionKeys(s))
  {
    EnterpriseSafe();
    ProjectSafe();
    LandSafe();
    EnvironmentSafe();
    PowerSafe();
    FireSafe();
    SafetySafe();
    LabourSafe();
  }

  lemma FlatSafe()
    ensures AllSafe(FlatKeys())
  {
  }

  lemma SectionNamesSafe()
    ensures AllSafe(SECTIONS)
  {
  }

  lemma FlatIsApart()
    ensures FlatKeys() !! SECTIONS
  {
    forall k | k in FlatKeys() ensures k !in SECTIONS { FlatIsNoSection(k); }
  }

  /** The sanitiser's keys are none that a dotted path could not lead to. */
  lemma CafSchemaSafe()
    ensures SafeSchema(CafSchema())
  {
    FlatSafe();
    SectionNamesSafe();
    FlatIsApart();
    forall s | s in SECTIONS
      ensures AllSafe(CafSchema().sections[s])
    {
      SectionSafe(s);
    }
  }

  // ---------------------------------------------------------------- the two validators

  /** validateDraftInput, on the sanitised form. */
  predicate DraftAccepts(data: map<string, Json>)
  {
    TextIn(Obj(data), "enterprise", "legalName") != "" || TextIn(Obj(data), "project", "projectName") != ""
  }

  predicate Filled(v: Json)
  {
    !v.Undefined? && !v.Null? && v != Str("")
  }

  /** The fields of a section that final submission requires. */
  function RequiredIn(s: string): seq<string>
  {
    if s == "enterprise" then
      ["legalName", "organisationType", "contactEmail", "contactPhone", "district", "authorisedSignatoryName",
       "authorisedSignatoryEmail"]
    else if s == "project" then
      ["projectName", "projectType", "sector", "investmentAmount", "employmentExpected", "projectAddress",
       "projectDistrict", "projectTaluk", "projectPincode", "landAreaSqM", "powerRequirementKw"]
    else if s == "labour" then ["employeeCount"]
    else []
  }

  predicate RequiredPresent(data: map<string, Json>, s: string)
  {
    forall k <- RequiredIn(s) :: Filled(Read(Obj(data), s, k))
  }

  predicate AllCapitals(s: string)
  {
    forall i :: 0 <= i < |s| ==> 'A' <= s[i] <= 'Z'
  }

  predicate IsPhone(s: string) { |s| == 10 && '6' <= s[0] <= '9' && AllDigits(s) }
  predicate IsPincode(s: string) { |s| == 6 && AllDigits(s) }
  predicate IsPan(s: string) { |s| == 10 && AllCapitals(s[..5]) && AllDigits(s[5..9]) && AllCapitals(s[9..]) }

  predicate IsGstin(s: string)
  {
    |s| == 15 && AllDigits(s[..2]) && AllCapitals(s[2..7]) && AllDigits(s[7..11]) && AllCapitals(s[11..12]) &&
    (AllCapitals(s[12..13]) || AllDigits(s[12..13])) && s[13] == 'Z' && (AllCapitals(s[14..]) || AllDigits(s[14..]))
  }

  /** One at-sign, and a dot behind it with something on either side; no blanks. */
  predicate IsEmail(s: string)
  {
    exists i, j :: 1 <= i && i + 2 <= j && j + 2 <= |s| && s[i] == '@' && s[j] == '.' &&
                   forall k :: 0 <= k < |s| && k != i ==> s[k] != '@' && !IsBlank(s[k])
  }

  predicate BlankOr(s: string, test: string -> bool)
  {
    s == "" || test(s)
  }

  predicate WellFormed(data: map<string, Json>)
  {
    var text := (s: string, k: string) => TextIn(Obj(data), s, k);
    BlankOr(text("enterprise", "contactEmail"), s => IsEmail(s)) &&
    BlankOr(text("enterprise", "authorisedSignatoryEmail"), s => IsEmail(s)) &&
    BlankOr(text("enterprise", "contactPhone"), s => IsPhone(s)) &&
    BlankOr(text("enterprise", "pan"), s => IsPan(s)) &&
    BlankOr(text("enterprise", "gstin"), s => IsGstin(s)) &&
    BlankOr(text("enterprise", "pincode"), s => IsPincode(s)) &&
    BlankOr(text("project", "projectPincode"), s => IsPincode(s))
  }

  predicate AtLeast(data: map<string, Json>, s: string, k: string, least: int)
  {
    var v := Read(Obj(data), s, k);
    v.Num? ==> v.n >= least
  }

  predicate InRange(p: Parsers, data: map<string, Json>)
  {
    AtLeast(data, "project", "investmentAmount", 1) &&
    AtLeast(data, "project", "employmentExpected", 0) &&
    AtLeast(data, "project", "landAreaSqM", 0) &&
    AtLeast(data, "project", "powerRequirementKw", 0) &&
    AtLeast(data, "labour", "employeeCount", 0) &&
    AtLeast(data, "labour", "contractLabourCount", 0) &&
    var start, commercial := TextIn(Obj(data), "project", "proposedStartDate"),
                             TextIn(Obj(data), "project", "proposedCommercialOperationDate");
    (start != "" && commercial != "" ==> p.after(commercial, start))
  }

  predicate Attached(data: map<string, Json>, documentType: string)
  {
    var attachments := Field(data, "attachments");
    attachments.Arr? && exists item <- attachments.items :: Step(item, "documentType") == Str(documentType)
  }

  /** validateFinalSubmit, on the sanitised form. */
  predicate FinalAccepts(p: Parsers, data: map<string, Json>, requiredAttachments: seq<string>)
  {
    DraftAccepts(data) && RequiredPresent(data, "enterprise") && RequiredPresent(data, "project") &&
    RequiredPresent(data, "labour") && WellFormed(data) && InRange(p, data) &&
    forall documentType <- requiredAttachments :: Attached(data, documentType)
  }

  // ---------------------------------------------------------------- what the case service gets from them

  function AttachmentCount(data: map<string, Json>): nat
  {
    var attachments := Field(data, "attachments");
    if attachments.Arr? then |attachments.items| else 0
  }

  /** createDraft's and updateDraft's verdict on what was sent. */
  function DraftChecked(p: Parsers, input: map<string, Json>): Checked
  {
    var data := Sanitise(p, input);
    Checked(DraftAccepts(data), data, AttachmentCount(data))
  }

  /** validateDraft's verdict on a stored form whose attachments are on file. */
  function FinalChecked(p: Parsers, caf: map<string, Json>): Checked
  {
    var data := Sanitise(p, caf);
    Checked(FinalAccepts(p, data, ApprovalInfoOf(Obj(caf)).requiredAttachments), data, AttachmentCount(data))
  }

  lemma NamesAreText()
    ensures KindOf("projectName") == TextField && KindOf("projectDistrict") == TextField
    ensures "projectName" in RequiredIn("project") && "projectDistrict" in RequiredIn("project")
  {
    assert RequiredIn("project")[0] == "projectName" && RequiredIn("project")[6] == "projectDistrict";
  }

  lemma SanitisedSection(p: Parsers, schema: Schema, input: map<string, Json>, s: string, k: string)
    requires s in schema.sections && k in schema.sections[s]
    ensures Read(Obj(SanitiseTo(p, schema, input)), s, k) == Clean(p, KindOf(k), Step(SectionInput(input, s), k))
  {
  }

  lemma SanitisedText(p: Parsers, schema: Schema, input: map<string, Json>, s: string, k: string)
    requires s in schema.sections && k in schema.sections[s] && KindOf(k) == TextField
    requires Filled(Read(Obj(SanitiseTo(p, schema, input)), s, k))
    ensures TextIn(Obj(SanitiseTo(p, schema, input)), s, k) != ""
  {
    SanitisedSection(p, schema, input, s, k);
  }

  /** What passes final validation names its project and its district. */
  lemma FinalNamesProject(p: Parsers, input: map<string, Json>, requiredAttachments: seq<string>)
    requires FinalAccepts(p, Sanitise(p, input), requiredAttachments)
    ensures var f := FormOf(Obj(Sanitise(p, input)));
            f.projectName != "" && f.projectDistrict != ""
  {
    NamesAreText();
    SanitisedText(p, CafSchema(), input, "project", "projectName");
    SanitisedText(p, CafSchema(), input, "project", "projectDistrict");
  }
}
