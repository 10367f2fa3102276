/**
 A form the validators accept that needs no department, and the run that submits it: the
 case lifecycle on an input it can receive (web/src/validators/caf.validators.js,
 web/src/services/caf.service.js).
 */
module CafWitness {
  import opened Lists
  import opened Strings
  import opened Json
  import opened ObjectPath
  import opened ApprovalTracks
  import opened DuplicateDetection
  import opened CaseIds
  import opened CafModel
  import opened CafInvariant
  import opened CafPreservation
  import opened CafTheorems
  import opened CafDuplicates
  import opened CafShapes
  import opened CafValidators

  // ---------------------------------------------------------------- the form

  /** Some acceptable text for a field. */
  function SomeText(k: string): string
  {
    if k in {"contactEmail", "authorisedSignatoryEmail"} then "a@b.in"
    else if k == "contactPhone" then "9000000000"
    else if k in {"pincode", "projectPincode"} then "560001"
    else if IsUpper(k) || IsDate(k) then ""
    else "na"
  }

  /** No flag is set, no date and no tax number given, and every quantity is zero but the investment. */
  function ValueOf(kind: Kind, k: string): Json
  {
    match kind
    case FlagField => Bool(false)
    case NumberField => Num(if k == "investmentAmount" then 1 else 0)
    case DateField => Null
    case UpperField => Str("")
    case _ => Str(SomeText(k))
  }

  function SomeValue(k: string): Json
  {
    ValueOf(KindOf(k), k)
  }

  function ZeroSection(keys: set<string>): Json
  {
    Obj(map k | k in keys :: SomeValue(k))
  }

  const REPORT := Obj(map["documentType" := Str("project_report")])

  /** What is sent: 0 kW, no employees, and the project report attached. */
  function ZeroInput(schema: Schema): map<string, Json>
  {
    map k | k in schema.sections.Keys + schema.flat ::
      if k in schema.sections then ZeroSection(schema.sections[k])
      else if k == "attachments" then Arr([REPORT]) else Str("")
  }

  /** A form with these sections, the report among its attachments, and no source reference. */
  predicate IsZero(schema: Schema, form: map<string, Json>)
  {
    (forall s <- schema.sections :: Field(form, s) == ZeroSection(schema.sections[s])) &&
    Field(form, "sourceReferenceId") == Str("") &&
    var attachments := Field(form, "attachments");
    attachments.Arr? && |attachments.items| == 1 && Step(attachments.items[0], "documentType") == Str("project_report")
  }

  /** The two keys that matter beside the sections. */
  predicate HasOwnFlat(schema: Schema)
  {
    schema.flat !! schema.sections.Keys && "sourceReferenceId" in schema.flat && "attachments" in schema.flat
  }

  lemma InputIsZero(schema: Schema)
    requires HasOwnFlat(schema)
    ensures IsZero(schema, ZeroInput(schema))
  {
    assert Step(REPORT, "documentType") == Str("project_report");
    assert "sourceReferenceId" != "attachments";
  }

  // ---------------------------------------------------------------- the sanitiser keeps it

  /** No capitals, and no blanks at the ends: cleaning leaves it alone. */
  predicate Neat(t: string)
  {
    (t != "" ==> !IsBlank(t[0]) && !IsBlank(t[|t| - 1])) &&
    forall i :: 0 <= i < |t| ==> !('A' <= t[i] <= 'Z')
  }

  lemma NeatIsClean(t: string)
    requires Neat(t)
    ensures Trim(t) == t && Lower(t) == t
  {
    TightIsTrimmed(t);
  }

  lemma EmailIsNeat()
    ensures Neat("a@b.in")
  {
  }

  lemma NumbersAreNeat()
    ensures Neat("9000000000") && Neat("560001")
  {
  }

  lemma OthersAreNeat()
    ensures Neat("na") && Neat("")
  {
  }

  lemma TextClean(k: string)
    ensures Trim(SomeText(k)) == SomeText(k) && Lower(SomeText(k)) == SomeText(k)
  {
    EmailIsNeat();
    NumbersAreNeat();
    OthersAreNeat();
    NeatIsClean(SomeText(k));
  }

  lemma EmptyClean(t: string)
    requires t == ""
    ensures Trim(t) == t && Upper(t) == t
  {
  }

  lemma ValueClean(p: Parsers, kind: Kind, k: string)
    ensures Clean(p, kind, ValueOf(kind, k)) == ValueOf(kind, k)
  {
    TextClean(k);
    if kind == UpperField {
      EmptyClean(ValueOf(kind, k).s);
    }
  }

  lemma SectionKept(p: Parsers, keys: set<string>)
    ensures CleanSection(p, ZeroSection(keys), keys) == ZeroSection(keys)
  {
    forall k | k in keys
      ensures Clean(p, KindOf(k), Step(ZeroSection(keys), k)) == SomeValue(k)
    {
      ValueClean(p, KindOf(k), k);
    }
  }

  lemma ReportIsNeat()
    ensures Neat("project_report")
  {
  }

  lemma AttachmentsKept(p: Parsers, items: seq<Json>, t: string)
    requires |items| == 1 && Step(items[0], "documentType") == Str(t) && t != "" && Neat(t)
    ensures CleanAttachments(p, items) == [CleanAttachment(p, items[0])]
    ensures Step(CleanAttachment(p, items[0]), "documentType") == Str(t)
  {
    NeatIsClean(t);
    DocumentTypeOf(p, items[0]);
    assert items[1..] == [];
  }

  lemma FlatKept(p: Parsers, schema: Schema, form: map<string, Json>)
    requires HasOwnFlat(schema) && IsZero(schema, form)
    ensures var data := SanitiseTo(p, schema, form);
            Field(data, "sourceReferenceId") == Str("") &&
            Field(data, "attachments") == Arr(CleanAttachments(p, form["attachments"].items))
  {
    EmptyClean(form["sourceReferenceId"].s);
  }

  lemma ZeroKept(p: Parsers, schema: Schema, form: map<string, Json>)
    requires HasOwnFlat(schema) && IsZero(schema, form)
    ensures IsZero(schema, SanitiseTo(p, schema, form))
  {
    var data := SanitiseTo(p, schema, form);
    forall s | s in schema.sections
      ensures Field(data, s) == ZeroSection(schema.sections[s])
    {
      SectionKept(p, schema.sections[s]);
    }
    FlatKept(p, schema, form);
    ReportIsNeat();
    AttachmentsKept(p, form["attachments"].items, "project_report");
  }

  lemma CafHasOwnFlat()
    ensures HasOwnFlat(CafSchema())
  {
    FlatIsApart();
  }

  // ---------------------------------------------------------------- it needs no department

  lemma ZeroRead(form: map<string, Json>, s: string, k: string)
    requires IsZero(CafSchema(), form) && s in SECTIONS
    ensures Read(Obj(form), s, k) == if k in SectionKeys(s) then SomeValue(k) else Undefined
  {
    assert Field(form, s) == ZeroSection(CafSchema().sections[s]);
  }

  lemma ZeroFlag(form: map<string, Json>, s: string, k: string)
    requires IsZero(CafSchema(), form) && s in SECTIONS && IsFlag(k)
    ensures !Flag(Obj(form), s, k)
  {
    ZeroRead(form, s, k);
  }

  lemma ZeroQuantity(form: map<string, Json>, s: string, k: string)
    requires IsZero(CafSchema(), form) && s in SECTIONS && k != "investmentAmount"
    ensures Quantity(Obj(form), s, k) == 0
  {
    ZeroRead(form, s, k);
  }

  lemma TextsOfValues(kind: Kind, k: string)
    ensures ValueOf(kind, k).Str? ==> ValueOf(kind, k).s in ["", "a@b.in", "9000000000", "560001", "na"]
  {
  }

  lemma ZeroText(form: map<string, Json>, s: string, k: string, t: string)
    requires IsZero(CafSchema(), form) && s in SECTIONS && t !in ["", "a@b.in", "9000000000", "560001", "na"]
    ensures Read(Obj(form), s, k) != Str(t)
  {
    ZeroRead(form, s, k);
    TextsOfValues(KindOf(k), k);
  }

  lemma NoPollution(form: map<string, Json>)
    requires IsZero(CafSchema(), form)
    ensures !Needed(Pollution, Obj(form))
  {
    ZeroText(form, "environment", "pollutionCategory", "red");
    ZeroText(form, "environment", "pollutionCategory", "orange");
    ZeroText(form, "environment", "pollutionCategory", "green");
    ZeroFlag(form, "environment", "effluentGenerated");
    ZeroFlag(form, "environment", "emissionsGenerated");
    ZeroFlag(form, "environment", "hazardousWasteGenerated");
    ZeroQuantity(form, "project", "waterRequirementKld");
  }

  lemma NoPower(form: map<string, Json>)
    requires IsZero(CafSchema(), form)
    ensures !Needed(Power, Obj(form))
  {
    ZeroQuantity(form, "project", "powerRequirementKw");
    ZeroQuantity(form, "power", "connectedLoadKw");
    ZeroQuantity(form, "power", "contractDemandKva");
    ZeroFlag(form, "power", "transformerRequired");
  }

  lemma NoFireOccupancy(form: map<string, Json>)
    requires IsZero(CafSchema(), form)
    ensures Read(Obj(form), "fire", "occupancyType") !in [Str("industrial"), Str("warehouse"), Str("public")]
  {
    ZeroText(form, "fire", "occupancyType", "industrial");
    ZeroText(form, "fire", "occupancyType", "warehouse");
    ZeroText(form, "fire", "occupancyType", "public");
  }

  lemma NoFire(form: map<string, Json>)
    requires IsZero(CafSchema(), form)
    ensures !Needed(Fire, Obj(form))
  {
    ZeroFlag(form, "fire", "fireNocRequired");
    ZeroQuantity(form, "fire", "buildingHeightM");
    ZeroFlag(form, "fire", "storageOfFlammables");
    NoFireOccupancy(form);
  }

  lemma NoLabourQuantities(form: map<string, Json>)
    requires IsZero(CafSchema(), form)
    ensures Quantity(Obj(form), "labour", "employeeCount") == 0
    ensures Quantity(Obj(form), "labour", "contractLabourCount") == 0
  {
    ZeroQuantity(form, "labour", "employeeCount");
    ZeroQuantity(form, "labour", "contractLabourCount");
  }

  lemma NoHazard(form: map<string, Json>)
    requires IsZero(CafSchema(), form)
    ensures !Flag(Obj(form), "project", "hazardousProcess")
  {
    ZeroFlag(form, "project", "hazardousProcess");
  }

  lemma NoSafetyFlags(form: map<string, Json>)
    requires IsZero(CafSchema(), form)
    ensures !Flag(Obj(form), "industrialSafety", "factoryLicenseRequired")
    ensures !Flag(Obj(form), "industrialSafety", "machineryInstalled")
    ensures !Flag(Obj(form), "industrialSafety", "boilers")
    ensures !Flag(Obj(form), "industrialSafety", "pressureVessels")
  {
    ZeroFlag(form, "industrialSafety", "factoryLicenseRequired");
    ZeroFlag(form, "industrialSafety", "machineryInstalled");
    ZeroFlag(form, "industrialSafety", "boilers");
    ZeroFlag(form, "industrialSafety", "pressureVessels");
  }

  lemma NoSafety(form: map<string, Json>)
    requires IsZero(CafSchema(), form)
    ensures !Needed(IndustrialSafety, Obj(form))
  {
    NoSafetyFlags(form);
    NoHazard(form);
    NoLabourQuantities(form);
  }

  lemma NoLabourFlags(form: map<string, Json>)
    requires IsZero(CafSchema(), form)
    ensures !Flag(Obj(form), "labour", "interstateMigrantWorkers")
    ensures !Flag(Obj(form), "labour", "shopsEstablishmentRequired")
    ensures !Flag(Obj(form), "labour", "labourRegistrationRequired")
  {
    ZeroFlag(form, "labour", "interstateMigrantWorkers");
    ZeroFlag(form, "labour", "shopsEstablishmentRequired");
    ZeroFlag(form, "labour", "labourRegistrationRequired");
  }

  lemma NoLabour(form: map<string, Json>)
    requires IsZero(CafSchema(), form)
    ensures !Needed(Labour, Obj(form))
  {
    NoLabourQuantities(form);
    NoLabourFlags(form);
  }

  lemma ZeroDemandForm(form: map<string, Json>, d: Department)
    requires IsZero(CafSchema(), form)
    ensures !Needed(d, Obj(form))
  {
    match d
    case Pollution => NoPollution(form);
    case Power => NoPower(form);
    case Fire => NoFire(form);
    case IndustrialSafety => NoSafety(form);
    case Labour => NoLabour(form);
  }

  // ---------------------------------------------------------------- the validators accept it

  lemma SomeValueFilled(k: string)
    requires !IsUpper(k) && !IsDate(k)
    ensures Filled(SomeValue(k))
  {
  }

  lemma RequiredKnown(s: string)
    ensures forall k <- RequiredIn(s) :: k in SectionKeys(s)
  {
  }

  lemma RequiredFilled(s: string)
    ensures forall k <- RequiredIn(s) :: !IsUpper(k) && !IsDate(k)
  {
  }

  lemma ZeroPresent(form: map<string, Json>, s: string)
    requires IsZero(CafSchema(), form) && s in SECTIONS
    ensures RequiredPresent(form, s)
  {
    RequiredKnown(s);
    RequiredFilled(s);
    forall k | k in RequiredIn(s)
      ensures Filled(Read(Obj(form), s, k))
    {
      ZeroRead(form, s, k);
      SomeValueFilled(k);
    }
  }

  lemma TextOfValue(kind: Kind, k: string)
    ensures ValueOf(kind, k).Str? ==> ValueOf(kind, k).s in {"", SomeText(k)}
  {
  }

  lemma ZeroTextIn(form: map<string, Json>, s: string, k: string)
    requires IsZero(CafSchema(), form) && s in SECTIONS
    ensures TextIn(Obj(form), s, k) == "" || TextIn(Obj(form), s, k) == SomeText(k)
  {
    ZeroRead(form, s, k);
    TextOfValue(KindOf(k), k);
  }

  lemma SomeTextsWellFormed()
    ensures IsEmail("a@b.in") && IsPhone("9000000000") && IsPincode("560001")
  {
    var s := "a@b.in";
    assert s[1] == '@' && s[3] == '.' && |s| == 6;
    assert forall k :: 0 <= k < |s| && k != 1 ==> s[k] != '@' && !IsBlank(s[k]);
  }

  lemma ZeroEmails(form: map<string, Json>)
    requires IsZero(CafSchema(), form)
    ensures BlankOr(TextIn(Obj(form), "enterprise", "contactEmail"), s => IsEmail(s))
    ensures BlankOr(TextIn(Obj(form), "enterprise", "authorisedSignatoryEmail"), s => IsEmail(s))
  {
    SomeTextsWellFormed();
    ZeroTextIn(form, "enterprise", "contactEmail");
    ZeroTextIn(form, "enterprise", "authorisedSignatoryEmail");
  }

  lemma ZeroPhone(form: map<string, Json>)
    requires IsZero(CafSchema(), form)
    ensures BlankOr(TextIn(Obj(form), "enterprise", "contactPhone"), s => IsPhone(s))
  {
    SomeTextsWellFormed();
    ZeroTextIn(form, "enterprise", "contactPhone");
  }

  lemma ZeroTaxNumbers(form: map<string, Json>)
    requires IsZero(CafSchema(), form)
    ensures TextIn(Obj(form), "enterprise", "pan") == "" && TextIn(Obj(form), "enterprise", "gstin") == ""
  {
    ZeroTextIn(form, "enterprise", "pan");
    ZeroTextIn(form, "enterprise", "gstin");
  }

  lemma ZeroPincodes(form: map<string, Json>)
    requires IsZero(CafSchema(), form)
    ensures BlankOr(TextIn(Obj(form), "enterprise", "pincode"), s => IsPincode(s))
    ensures BlankOr(TextIn(Obj(form), "project", "projectPincode"), s => IsPincode(s))
  {
    SomeTextsWellFormed();
    ZeroTextIn(form, "enterprise", "pincode");
    ZeroTextIn(form, "project", "projectPincode");
  }

  lemma ZeroWellFormed(form: map<string, Json>)
    requires IsZero(CafSchema(), form)
    ensures WellFormed(form)
  {
    ZeroEmails(form);
    ZeroPhone(form);
    ZeroTaxNumbers(form);
    ZeroPincodes(form);
  }

  lemma ZeroAtLeast(form: map<string, Json>, s: string, k: string)
    requires IsZero(CafSchema(), form) && s in SECTIONS
    ensures AtLeast(form, s, k, if k == "investmentAmount" then 1 else 0)
  {
    ZeroRead(form, s, k);
  }

  lemma ZeroInRange(p: Parsers, form: map<string, Json>)
    requires IsZero(CafSchema(), form)
    ensures InRange(p, form)
  {
    ZeroAtLeast(form, "project", "investmentAmount");
    ZeroAtLeast(form, "project", "employmentExpected");
    ZeroAtLeast(form, "project", "landAreaSqM");
    ZeroAtLeast(form, "project", "powerRequirementKw");
    ZeroAtLeast(form, "labour", "employeeCount");
    ZeroAtLeast(form, "labour", "contractLabourCount");
    ZeroTextIn(form, "project", "proposedStartDate");
  }

  lemma NameIsText()
    ensures KindOf("legalName") == TextField
  {
  }

  lemma ZeroDraftAccepted(form: map<string, Json>)
    requires IsZero(CafSchema(), form)
    ensures DraftAccepts(form)
  {
    NameIsText();
    ZeroRead(form, "enterprise", "legalName");
  }

  lemma ZeroFinalAccepted(p: Parsers, form: map<string, Json>)
    requires IsZero(CafSchema(), form)
    ensures FinalAccepts(p, form, ["project_report"])
  {
    ZeroDraftAccepted(form);
    ZeroPresent(form, "enterprise");
    ZeroPresent(form, "project");
    ZeroPresent(form, "labour");
    ZeroWellFormed(form);
    ZeroInRange(p, form);
    assert form["attachments"].items[0] in form["attachments"].items;
  }

  // ---------------------------------------------------------------- the run that submits it

  const EXAMPLE_ID := DraftCaseId(2026, 1, 15, 12345)

  /** What is stored of it. */
  function ZeroStored(p: Parsers): map<string, Json>
  {
    Sanitise(p, ZeroInput(CafSchema()))
  }

  function ZeroDraft(p: Parsers, actor: Actor, now: int): CaseDoc
  {
    NewDraft(EXAMPLE_ID, actor, ZeroStored(p), now)
  }

  function DraftStep(p: Parsers, actor: Actor, now: int): Op
  {
    OpCreateDraft(2026, 1, 15, 12345, actor, DraftChecked(p, ZeroInput(CafSchema())), now)
  }

  /** Its submission: the query finds the draft itself, which the investor confirms. */
  function ZeroSubmission(p: Parsers, actor: Actor, now: int): SubmitRequest
  {
    SubmitRequest("key", true, "", FinalChecked(p, ZeroStored(p)), [AsCandidate(ZeroDraft(p, actor, now))], 2026, now)
  }

  lemma StoredIsZero(p: Parsers)
    ensures IsZero(CafSchema(), ZeroStored(p))
  {
    CafHasOwnFlat();
    InputIsZero(CafSchema());
    ZeroKept(p, CafSchema(), ZeroInput(CafSchema()));
  }

  /** Both validators accept what is sent and what is stored. */
  lemma ZeroAccepted(p: Parsers)
    ensures DraftChecked(p, ZeroInput(CafSchema())).valid && FinalChecked(p, ZeroStored(p)).valid
  {
    var stored := ZeroStored(p);
    StoredIsZero(p);
    ZeroDraftAccepted(stored);
    CafHasOwnFlat();
    ZeroKept(p, CafSchema(), stored);
    ZeroFinalAccepted(p, Sanitise(p, stored));
    NoneNeeded(stored);
    OnlyReportRequired(stored);
  }

  lemma NoneNeeded(form: map<string, Json>)
    requires IsZero(CafSchema(), form)
    ensures NeededDepartments(Obj(form)) == []
  {
    forall d ensures !Needed(d, Obj(form)) { ZeroDemandForm(form, d); }
    NoneNeededIff(Obj(form));
  }

  lemma OnlyReportRequired(form: map<string, Json>)
    requires NeededDepartments(Obj(form)) == []
    ensures ApprovalInfoOf(Obj(form)).requiredAttachments == ["project_report"]
  {
    var report := ["project_report"];
    assert AttachmentsFor([]) == [] && report + [] == report;
    assert report[..0] == [] && Unique<string>([]) == [];
    assert Unique(report) == report;
  }

  lemma {:induction false} DraftStepStores(p: Parsers, actor: Actor, now: int)
    ensures Run(EMPTY_WORLD, [DraftStep(p, actor, now)]).cases == map[EXAMPLE_ID := ZeroDraft(p, actor, now)]
  {
    var v := DraftChecked(p, ZeroInput(CafSchema()));
    ZeroAccepted(p);
    DraftStored(EXAMPLE_ID, actor, v, now);
    RunOne(DraftStep(p, actor, now));
  }

  lemma DraftStored(id: string, actor: Actor, v: Checked, now: int)
    requires v.valid
    ensures CreateDraft(EMPTY_WORLD, id, actor, v, now).0.cases == map[id := NewDraft(id, actor, v.fields, now)]
  {
  }

  lemma RunOne(op: Op)
    ensures Run(EMPTY_WORLD, [op]) == Apply(EMPTY_WORLD, op).0
  {
    assert [op][..0] == [];
  }

  lemma SoleAnswer(c: CaseDoc, caf: Json, actor: Actor, lookback: int)
    requires MatchesQuery(c, caf, actor, lookback)
    ensures AnswersQuery([AsCandidate(c)], map[c.caseId := c], caf, actor, lookback)
  {
    assert Enumerated([c.caseId], [AsCandidate(c)], map[c.caseId := c], caf, actor, lookback);
  }

  lemma NoSourceIn(schema: Schema, form: map<string, Json>)
    requires IsZero(schema, form)
    ensures !HasSource(FormOf(Obj(form)))
  {
    assert TextAt(Obj(form), "sourceReferenceId") == "";
  }

  lemma ZeroHasNoSource(p: Parsers, actor: Actor, now: int)
    ensures !HasSource(FormOf(Obj(ZeroDraft(p, actor, now).cafData)))
  {
    StoredIsZero(p);
    NoSourceIn(CafSchema(), ZeroStored(p));
  }

  /** The true answer of the duplicate query at that point. */
  lemma ZeroAnswer(p: Parsers, actor: Actor, now: int)
    ensures AnswersQuery(ZeroSubmission(p, actor, now).candidates, map[EXAMPLE_ID := ZeroDraft(p, actor, now)],
                         Obj(ZeroStored(p)), actor, now)
  {
    ZeroHasNoSource(p, actor, now);
    MatchesItselfIff(ZeroDraft(p, actor, now), actor, now);
    SoleAnswer(ZeroDraft(p, actor, now), Obj(ZeroStored(p)), actor, now);
  }

  lemma ZeroAdmissible(p: Parsers, actor: Actor, now: int)
    ensures Admissible(ZeroDraft(p, actor, now), actor, ZeroSubmission(p, actor, now))
  {
    ZeroAccepted(p);
    ZeroHasNoSource(p, actor, now);
    var form := FormOf(Obj(ZeroDraft(p, actor, now).cafData));
    BlockingIffSameSource(form, actor.id, ZeroSubmission(p, actor, now).candidates);
  }

  lemma ZeroSubmitted(p: Parsers, w: World, actor: Actor, now: int)
    requires Inv(w) && w.cases == map[EXAMPLE_ID := ZeroDraft(p, actor, now)]
    ensures SubmittedTaskless(SubmitCase(w, EXAMPLE_ID, actor, ZeroSubmission(p, actor, now)).0, actor)
  {
    assert Locate(w.cases, EXAMPLE_ID, actor) == Found(ZeroDraft(p, actor, now));
    ZeroAdmissible(p, actor, now);
    StoredIsZero(p);
    forall d ensures !Needed(d, Obj(ZeroStored(p))) { ZeroDemandForm(ZeroStored(p), d); }
    SubmittedWithoutTasks(w, EXAMPLE_ID, actor, ZeroSubmission(p, actor, now));
    SubmissionRecordsKey(w, EXAMPLE_ID, actor, ZeroSubmission(p, actor, now));
  }

  ghost predicate SubmittedTaskless(w: World, actor: Actor)
  {
    EXAMPLE_ID in w.cases && w.cases[EXAMPLE_ID].status == Submitted && w.cases[EXAMPLE_ID].owner == actor.id &&
    TasksOf(w.tasks, EXAMPLE_ID) == []
  }

  lemma RunTwo(a: Op, b: Op, w: World)
    requires Apply(Run(EMPTY_WORLD, [a]), b).0 == w
    ensures Run(EMPTY_WORLD, [a, b]) == w
  {
    assert [a, b][..1] == [a];
  }

  lemma SubmitNext(create: Op, actor: Actor, r: SubmitRequest, w: World)
    requires SubmitCase(Run(EMPTY_WORLD, [create]), EXAMPLE_ID, actor, r).0 == w
    ensures Run(EMPTY_WORLD, [create, OpSubmitCase(EXAMPLE_ID, actor, r)]) == w
  {
    RunTwo(create, OpSubmitCase(EXAMPLE_ID, actor, r), w);
  }

  /** Two operations on validated input, from the empty store to a submitted case without tasks. */
  lemma {:induction false} RunToNoTasks(p: Parsers, actor: Actor, now: int, create: Op, r: SubmitRequest)
    requires create == DraftStep(p, actor, now) && r == ZeroSubmission(p, actor, now)
    ensures SubmittedTaskless(Run(EMPTY_WORLD, [create, OpSubmitCase(EXAMPLE_ID, actor, r)]), actor)
  {
    DraftStepStores(p, actor, now);
    ReachableInv([create]);
    var w := Run(EMPTY_WORLD, [create]);
    ZeroSubmitted(p, w, actor, now);
    SubmitNext(create, actor, r, SubmitCase(w, EXAMPLE_ID, actor, r).0);
  }

  // ---------------------------------------------------------------- the run that leaves the tasks behind

  /** A later request for a transformer. */
  function TransformerInput(): map<string, Json>
  {
    map["power" := Obj(map["transformerRequired" := Bool(true)])]
  }

  lemma TransformerIsField()
    ensures "transformerRequired" in SectionKeys("power") && KindOf("transformerRequired") == FlagField
  {
    assert SectionKeys("power") == KeysOf(PowerSection);
    assert IsFlag("transformerRequired");
  }

  lemma TransformerPatch(p: Parsers)
    ensures var patch := Sanitise(p, TransformerInput());
            "power" in patch && patch["power"].Obj? && "transformerRequired" in patch["power"].fields &&
            Read(Obj(patch), "power", "transformerRequired") == Bool(true)
  {
    TransformerIsField();
    SanitisedSection(p, CafSchema(), TransformerInput(), "power", "transformerRequired");
  }

  /** A field of the patch is what the merged form has there. */
  lemma MergedRead(caf: map<string, Json>, patch: map<string, Json>, s: string, k: string)
    requires s in SECTIONS && s in patch && patch[s].Obj? && k in patch[s].fields
    ensures Read(Obj(Merge(caf, patch)), s, k) == Read(Obj(patch), s, k)
  {
    MergeFrame(caf, patch, s, k);
  }

  lemma TransformerNeedsPower(p: Parsers, caf: map<string, Json>)
    ensures Needed(Power, Obj(Merge(caf, Sanitise(p, TransformerInput()))))
  {
    TransformerPatch(p);
    MergedRead(caf, Sanitise(p, TransformerInput()), "power", "transformerRequired");
  }

  /** An amendment of a submitted case leaves it without tasks, whatever its form needs then. */
  lemma AmendedTaskless(w: World, actor: Actor, reason: string, patch: map<string, Json>)
    requires Inv(w) && SubmittedTaskless(w, actor) && reason != ""
    requires Needed(Power, Obj(Merge(w.cases[EXAMPLE_ID].cafData, patch)))
    ensures Stale(AmendCase(w, EXAMPLE_ID, actor, reason, patch).0)
  {
    LookupFindsTheCase(w, EXAMPLE_ID);
    assert CaseSound(w, EXAMPLE_ID);
  }

  /** The case has no tasks, and its form needs the power department. */
  ghost predicate Stale(w: World)
  {
    EXAMPLE_ID in w.cases && w.cases[EXAMPLE_ID].status == Reopened &&
    TasksOf(w.tasks, EXAMPLE_ID) == [] && Needed(Power, Obj(w.cases[EXAMPLE_ID].cafData))
  }

  lemma StaleNext(p: Parsers, w: World, actor: Actor)
    requires Inv(w) && SubmittedTaskless(w, actor)
    ensures Stale(AmendCase(w, EXAMPLE_ID, actor, "load", Sanitise(p, TransformerInput())).0)
  {
    TransformerNeedsPower(p, w.cases[EXAMPLE_ID].cafData);
    AmendedTaskless(w, actor, "load", Sanitise(p, TransformerInput()));
  }

  lemma RunThree(a: Op, b: Op, c: Op, w: World)
    requires Apply(Run(EMPTY_WORLD, [a, b]), c).0 == w
    ensures Run(EMPTY_WORLD, [a, b, c]) == w
  {
    assert [a, b, c][..2] == [a, b];
  }

  lemma AmendLast(create: Op, submit: Op, actor: Actor, patch: map<string, Json>, w: World)
    requires AmendCase(Run(EMPTY_WORLD, [create, submit]), EXAMPLE_ID, actor, "load", patch).0 == w
    ensures Run(EMPTY_WORLD, [create, submit, OpAmendCase(EXAMPLE_ID, actor, "load", patch)]) == w
  {
    RunThree(create, submit, OpAmendCase(EXAMPLE_ID, actor, "load", patch), w);
  }

  /** One more operation on validated input, an amendment: the form needs a department that has no task. */
  lemma {:induction false} RunToStaleTasks(p: Parsers, actor: Actor, now: int, create: Op, r: SubmitRequest,
                                           submit: Op, patch: map<string, Json>)
    requires create == DraftStep(p, actor, now) && r == ZeroSubmission(p, actor, now)
    requires submit == OpSubmitCase(EXAMPLE_ID, actor, r) && patch == Sanitise(p, TransformerInput())
    ensures Stale(Run(EMPTY_WORLD, [create, submit, OpAmendCase(EXAMPLE_ID, actor, "load", patch)]))
  {
    RunToNoTasks(p, actor, now, create, r);
    ReachableInv([create, submit]);
    var w := Run(EMPTY_WORLD, [create, submit]);
    StaleNext(p, w, actor);
    AmendLast(create, submit, actor, patch, AmendCase(w, EXAMPLE_ID, actor, "load", patch).0);
  }
}
