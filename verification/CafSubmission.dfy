/**
 What a submission does to a validated form: the form assessed is the stored draft, the form
 stored is that draft sanitised once more. When the two are the same, what they have in
 common in any case, and how the tasks relate to the form after later amendments.
 */
module CafSubmission {
  import opened Options
  import opened Strings
  import opened Json
  import opened ObjectPath
  import opened ApprovalTracks
  import opened CaseIds
  import opened CafModel
  import opened CafTheorems
  import opened CafDuplicates
  import opened CafShapes
  import opened CafValidators

  // ---------------------------------------------------------------- cleaning a value twice

  lemma CleanTextTwice(v: Json)
    ensures CleanText(Str(CleanText(v))) == CleanText(v) && Tight(CleanText(v))
  {
    if !v.Undefined? && !v.Null? {
      TrimIsTight(Text(v));
    }
  }

  lemma FlagTwice(v: Json)
    ensures CleanFlag(CleanFlag(v)) == CleanFlag(v)
  {
    var flag := CleanFlag(v);
    assert flag.Bool?;
  }

  lemma NumberTwice(p: Parsers, v: Json)
    ensures CleanNumber(p, CleanNumber(p, v)) == CleanNumber(p, v)
  {
    var number := CleanNumber(p, v);
    assert number.Null? || number.Num?;
  }

  lemma CleanStr(t: string)
    ensures CleanText(Str(t)) == Trim(t)
  {
  }

  /** Lower- and upper-case fields. */
  lemma TextsTwice(t: string)
    requires Tight(t)
    ensures Lower(CleanText(Str(Lower(t)))) == Lower(t) && Upper(CleanText(Str(Upper(t)))) == Upper(t)
    ensures CleanText(Str(Lower(t))) == Lower(t)
  {
    LowerTwice(t);
    UpperTwice(t);
    CleanStr(Lower(t));
    CleanStr(Upper(t));
  }

  /** But for dates, cleaning a clean value changes nothing. */
  lemma CleanTwice(p: Parsers, kind: Kind, v: Json)
    requires kind != DateField
    ensures Clean(p, kind, Clean(p, kind, v)) == Clean(p, kind, v)
  {
    match kind
    case TextField => CleanTextTwice(v);
    case LowerField =>
      CleanTextTwice(v);
      TextsTwice(CleanText(v));
    case UpperField =>
      CleanTextTwice(v);
      TextsTwice(CleanText(v));
    case NumberField => NumberTwice(p, v);
    case FlagField => FlagTwice(v);
  }

  lemma AttachmentEntry(p: Parsers, item: Json, k: string)
    requires k in AttachmentKeys()
    ensures Step(CleanAttachment(p, item), k) == AttachmentValue(p, item, k)
  {
  }

  /** The entries of an attachment that do not depend on another one. */
  lemma OwnEntryTwice(p: Parsers, item: Json, again: Json, k: string)
    requires k != "title" && Step(again, k) == AttachmentValue(p, item, k)
    ensures AttachmentValue(p, again, k) == AttachmentValue(p, item, k)
  {
    var v := Step(item, k);
    CleanTextTwice(v);
    if k == "documentType" {
      TextsTwice(CleanText(v));
    } else if k == "mimeType" {
      PdfIsTight();
    } else if k == "fileSize" {
      SizeTwice(p, v);
    }
  }

  lemma SizeTwice(p: Parsers, v: Json)
    ensures CleanSize(p, CleanSize(p, v)) == CleanSize(p, v)
  {
  }

  lemma PdfIsTight()
    ensures CleanText(Str("application/pdf")) == "application/pdf" != ""
  {
    TightIsTrimmed("application/pdf");
  }

  /** The title, which falls back on the type of the document. */
  lemma TitleTwice(p: Parsers, item: Json, again: Json)
    requires Step(again, "title") == AttachmentValue(p, item, "title")
    requires Step(again, "documentType") == AttachmentValue(p, item, "documentType")
    ensures AttachmentValue(p, again, "title") == AttachmentValue(p, item, "title")
  {
    var v, t := Step(item, "title"), Step(item, "documentType");
    CleanTextTwice(v);
    CleanTextTwice(t);
    TextsTwice(CleanText(t));
  }

  lemma SameObjects(a: Json, b: Json)
    requires a.Obj? && b.Obj? && a.fields.Keys == b.fields.Keys
    requires forall k :: k in a.fields ==> Step(a, k) == Step(b, k)
    ensures a == b
  {
    assert forall k :: k in a.fields ==> a.fields[k] == Step(a, k) == Step(b, k) == b.fields[k];
    assert a.fields == b.fields;
  }

  lemma TypeIsKey()
    ensures "documentType" in AttachmentKeys()
  {
  }

  lemma EntryTwice(p: Parsers, item: Json, k: string)
    requires k in AttachmentKeys()
    ensures var once := CleanAttachment(p, item);
            Step(CleanAttachment(p, once), k) == Step(once, k)
  {
    var once := CleanAttachment(p, item);
    TypeIsKey();
    AttachmentEntry(p, item, k);
    AttachmentEntry(p, item, "documentType");
    AttachmentEntry(p, once, k);
    if k == "title" {
      TitleTwice(p, item, once);
    } else {
      OwnEntryTwice(p, item, once, k);
    }
  }

  lemma AttachmentTwice(p: Parsers, item: Json)
    ensures CleanAttachment(p, CleanAttachment(p, item)) == CleanAttachment(p, item)
  {
    var once := CleanAttachment(p, item);
    forall k | k in once.fields
      ensures Step(CleanAttachment(p, once), k) == Step(once, k)
    {
      EntryTwice(p, item, k);
    }
    SameObjects(CleanAttachment(p, once), once);
  }

  lemma {:induction false} AttachmentsTwice(p: Parsers, items: seq<Json>)
    ensures CleanAttachments(p, CleanAttachments(p, items)) == CleanAttachments(p, items)
  {
    if items != [] {
      var item, rest := CleanAttachment(p, items[0]), CleanAttachments(p, items[1..]);
      AttachmentTwice(p, items[0]);
      AttachmentsTwice(p, items[1..]);
      if Step(item, "documentType") != Str("") {
        assert ([item] + rest)[0] == item && ([item] + rest)[1..] == rest;
      } else {
        assert [] + rest == rest;
      }
    }
  }

  lemma FlatTwice(p: Parsers, input: map<string, Json>, form: map<string, Json>, k: string)
    requires Field(form, k) == CleanFlat(p, input, k)
    ensures CleanFlat(p, form, k) == CleanFlat(p, input, k)
  {
    var v := Field(input, k);
    CleanTextTwice(v);
    if k == "attachments" && v.Arr? {
      AttachmentsTwice(p, v.items);
    }
    TightIsTrimmed("sws_portal");
  }

  // ---------------------------------------------------------------- sanitising a form twice

  lemma SectionAgain(input: map<string, Json>, s: string)
    requires s in input && input[s].Obj?
    ensures SectionInput(input, s) == input[s]
  {
  }

  lemma SanitisedIsObject(p: Parsers, schema: Schema, input: map<string, Json>, s: string)
    requires s in schema.sections
    ensures var form := SanitiseTo(p, schema, input);
            s in form && form[s] == CleanSection(p, SectionInput(input, s), schema.sections[s])
  {
  }

  /** One field of a section, sanitised again. */
  lemma ReadAgain(p: Parsers, schema: Schema, input: map<string, Json>, s: string, k: string)
    requires s in schema.sections
    ensures var form := SanitiseTo(p, schema, input);
            Read(Obj(SanitiseTo(p, schema, form)), s, k) ==
            if k in schema.sections[s] then Clean(p, KindOf(k), Read(Obj(form), s, k)) else Undefined
  {
    var form := SanitiseTo(p, schema, input);
    SanitisedIsObject(p, schema, input, s);
    SectionAgain(form, s);
    SanitisedIsObject(p, schema, form, s);
  }

  /** It is the same as before, unless it is a date. */
  lemma SameField(p: Parsers, schema: Schema, input: map<string, Json>, s: string, k: string)
    requires s in schema.sections && KindOf(k) != DateField
    ensures var form := SanitiseTo(p, schema, input);
            Read(Obj(SanitiseTo(p, schema, form)), s, k) == Read(Obj(form), s, k)
  {
    ReadAgain(p, schema, input, s, k);
    SanitisedIsObject(p, schema, input, s);
    if k in schema.sections[s] {
      SanitisedSection(p, schema, input, s, k);
      CleanTwice(p, KindOf(k), Step(SectionInput(input, s), k));
    }
  }

  /** Every date of the form, printed and read, is that date again. */
  predicate DatesReadBack(p: Parsers, schema: Schema, form: map<string, Json>)
  {
    forall s, k :: s in schema.sections && k in schema.sections[s] && KindOf(k) == DateField ==>
      CleanDate(p, Read(Obj(form), s, k)) == Read(Obj(form), s, k)
  }

  lemma FieldTwice(p: Parsers, schema: Schema, input: map<string, Json>, s: string, k: string)
    requires s in schema.sections && k in schema.sections[s]
    requires DatesReadBack(p, schema, SanitiseTo(p, schema, input))
    ensures var form := SanitiseTo(p, schema, input);
            Read(Obj(SanitiseTo(p, schema, form)), s, k) == Read(Obj(form), s, k)
  {
    if KindOf(k) == DateField {
      ReadAgain(p, schema, input, s, k);
    } else {
      SameField(p, schema, input, s, k);
    }
  }

  lemma SectionTwice(p: Parsers, schema: Schema, input: map<string, Json>, s: string)
    requires s in schema.sections && DatesReadBack(p, schema, SanitiseTo(p, schema, input))
    ensures var form := SanitiseTo(p, schema, input);
            s in form && s in SanitiseTo(p, schema, form) && SanitiseTo(p, schema, form)[s] == form[s]
  {
    var form := SanitiseTo(p, schema, input);
    var again := SanitiseTo(p, schema, form);
    SanitisedIsObject(p, schema, input, s);
    SanitisedIsObject(p, schema, form, s);
    forall k | k in again[s].fields
      ensures Step(again[s], k) == Step(form[s], k)
    {
      FieldTwice(p, schema, input, s, k);
    }
    SameObjects(again[s], form[s]);
  }

  /** Sanitising a sanitised form changes nothing if and only if its dates read back. */
  lemma SanitiseTwiceIff(p: Parsers, schema: Schema, input: map<string, Json>)
    requires schema.flat !! schema.sections.Keys
    ensures var form := SanitiseTo(p, schema, input);
            SanitiseTo(p, schema, form) == form <==> DatesReadBack(p, schema, form)
  {
    var form := SanitiseTo(p, schema, input);
    var again := SanitiseTo(p, schema, form);
    if again == form {
      forall s, k | s in schema.sections && k in schema.sections[s] && KindOf(k) == DateField
        ensures CleanDate(p, Read(Obj(form), s, k)) == Read(Obj(form), s, k)
      {
        ReadAgain(p, schema, input, s, k);
      }
    }
    if DatesReadBack(p, schema, form) {
      forall k | k in form
        ensures again[k] == form[k]
      {
        if k in schema.sections {
          SectionTwice(p, schema, input, k);
        } else {
          FlatTwice(p, input, form, k);
        }
      }
      assert again.Keys == form.Keys;
    }
  }

  // ---------------------------------------------------------------- the rules read no dates

  /** The two forms agree in every field of the sections that is not a date. */
  ghost predicate AgreeButDates(a: Json, b: Json)
  {
    forall s, k :: s in SECTIONS && !IsDate(k) ==> Read(a, s, k) == Read(b, s, k)
  }

  lemma SameReading(a: Json, b: Json, s: string, k: string)
    requires AgreeButDates(a, b) && s in SECTIONS && !IsDate(k)
    ensures Read(a, s, k) == Read(b, s, k)
    ensures Flag(a, s, k) <==> Flag(b, s, k)
    ensures Quantity(a, s, k) == Quantity(b, s, k)
  {
  }

  lemma NoDateField(k: string)
    requires !IsDate(k)
    ensures KindOf(k) != DateField
  {
  }

  lemma SamePollution(a: Json, b: Json)
    requires AgreeButDates(a, b)
    ensures Needed(Pollution, a) <==> Needed(Pollution, b)
  {
    SameReading(a, b, "environment", "pollutionCategory");
    SameReading(a, b, "environment", "effluentGenerated");
    SameReading(a, b, "environment", "emissionsGenerated");
    SameReading(a, b, "environment", "hazardousWasteGenerated");
    SameReading(a, b, "project", "waterRequirementKld");
  }

  lemma SamePower(a: Json, b: Json)
    requires AgreeButDates(a, b)
    ensures Needed(Power, a) <==> Needed(Power, b)
  {
    SameReading(a, b, "project", "powerRequirementKw");
    SameReading(a, b, "power", "connectedLoadKw");
    SameReading(a, b, "power", "contractDemandKva");
    SameReading(a, b, "power", "transformerRequired");
  }

  lemma SameFire(a: Json, b: Json)
    requires AgreeButDates(a, b)
    ensures Needed(Fire, a) <==> Needed(Fire, b)
  {
    SameReading(a, b, "fire", "fireNocRequired");
    SameReading(a, b, "fire", "buildingHeightM");
    SameReading(a, b, "fire", "storageOfFlammables");
    SameReading(a, b, "fire", "occupancyType");
  }

  lemma SameSafety(a: Json, b: Json)
    requires AgreeButDates(a, b)
    ensures Needed(IndustrialSafety, a) <==> Needed(IndustrialSafety, b)
  {
    SameReading(a, b, "industrialSafety", "factoryLicenseRequired");
    SameReading(a, b, "industrialSafety", "machineryInstalled");
    SameReading(a, b, "industrialSafety", "boilers");
    SameReading(a, b, "industrialSafety", "pressureVessels");
    SameReading(a, b, "project", "hazardousProcess");
    SameReading(a, b, "labour", "employeeCount");
  }

  lemma SameLabour(a: Json, b: Json)
    requires AgreeButDates(a, b)
    ensures Needed(Labour, a) <==> Needed(Labour, b)
  {
    SameReading(a, b, "labour", "employeeCount");
    SameReading(a, b, "labour", "contractLabourCount");
    SameReading(a, b, "labour", "interstateMigrantWorkers");
    SameReading(a, b, "labour", "shopsEstablishmentRequired");
    SameReading(a, b, "labour", "labourRegistrationRequired");
  }

  lemma SameNeeds(a: Json, b: Json, d: Department)
    requires AgreeButDates(a, b)
    ensures Needed(d, a) <==> Needed(d, b)
  {
    match d
    case Pollution => SamePollution(a, b);
    case Power => SamePower(a, b);
    case Fire => SameFire(a, b);
    case IndustrialSafety => SameSafety(a, b);
    case Labour => SameLabour(a, b);
  }

  /** The form stored at a submission, read in its sections, is what the validator made of the draft. */
  lemma StoredSections(r: SubmitRequest, s: string, k: string)
    requires s in SECTIONS
    ensures Read(Obj(SubmittedForm(r)), s, k) == Read(Obj(r.final.fields), s, k)
  {
    CafSchemaSafe();
  }

  /** The form assessed at a submission and the form stored by it need the same departments. */
  lemma AssessedAndStoredAgree(p: Parsers, input: map<string, Json>, r: SubmitRequest)
    requires r.final.fields == Sanitise(p, Sanitise(p, input))
    ensures NeededDepartments(Obj(SubmittedForm(r))) == NeededDepartments(Obj(Sanitise(p, input)))
  {
    var a, b := Obj(SubmittedForm(r)), Obj(Sanitise(p, input));
    forall s, k | s in SECTIONS && !IsDate(k)
      ensures Read(a, s, k) == Read(b, s, k)
    {
      NoDateField(k);
      StoredSections(r, s, k);
      SameField(p, CafSchema(), input, s, k);
    }
    forall d ensures Needed(d, a) <==> Needed(d, b) { SameNeeds(a, b, d); }
    SameDepartmentsIff(a, b);
  }

  // ---------------------------------------------------------------- runs on validated input

  /** What JSON text can carry, as far as the sanitiser passes it on. */
  predicate ProperInput(input: map<string, Json>)
  {
    "attachments" in input ==> Proper(input["attachments"])
  }

  ghost predicate IsSanitised(p: Parsers, form: map<string, Json>)
  {
    exists input :: ProperInput(input) && form == Sanitise(p, input)
  }

  /** The final verdict on a stored form; attachments missing on file can still turn it down. */
  predicate FinalVerdict(p: Parsers, final: Checked, caf: map<string, Json>)
  {
    final.fields == FinalChecked(p, caf).fields && (final.valid ==> FinalChecked(p, caf).valid)
  }

  /** The operation gets what the validators make of its input, or of the form stored. */
  ghost predicate Validated(p: Parsers, w: World, op: Op)
  {
    match op
    case OpCreateDraft(_, _, _, _, _, v, _) => IsSanitised(p, v.fields)
    case OpUpdateDraft(_, _, v) => IsSanitised(p, v.fields)
    case OpSubmitCase(key, actor, r) =>
      Locate(w.cases, key, actor).Found? ==> FinalVerdict(p, r.final, Locate(w.cases, key, actor).doc.cafData)
    case OpAmendCase(_, _, _, patch) => IsSanitised(p, patch)
    case _ => true
  }

  ghost predicate ValidatedRun(p: Parsers, ops: seq<Op>)
  {
    forall i :: 0 <= i < |ops| ==> Validated(p, Run(EMPTY_WORLD, ops[..i]), ops[i])
  }

  /** A draft holds a sanitised form. */
  ghost predicate CleanDraft(p: Parsers, c: CaseDoc)
  {
    c.status == Draft ==> IsSanitised(p, c.cafData)
  }

  /** The form assessed and the form stored at a submission need the same departments. */
  ghost predicate SubmittedAlike(s: Submission)
  {
    NeededDepartments(Obj(s.form)) == NeededDepartments(Obj(s.assessed))
  }

  ghost predicate AllClean(p: Parsers, w: World)
  {
    (forall id :: id in w.cases ==> CleanDraft(p, w.cases[id])) &&
    forall id :: id in w.submissions ==> SubmittedAlike(w.submissions[id])
  }

  lemma CommitClean(p: Parsers, w: World, c: CaseDoc, notes: seq<Note>)
    requires AllClean(p, w) && CleanDraft(p, c)
    ensures AllClean(p, Commit(w, c, notes))
  {
  }

  lemma FoundClean(p: Parsers, w: World, key: string, actor: Actor)
    requires AllClean(p, w) && Locate(w.cases, key, actor).Found?
    ensures CleanDraft(p, Locate(w.cases, key, actor).doc)
  {
  }

  lemma SubmissionAlike(p: Parsers, c: CaseDoc, r: SubmitRequest)
    requires CleanDraft(p, c) && c.status == Draft && FinalVerdict(p, r.final, c.cafData)
    ensures SubmittedAlike(SubmissionFor(c, r))
  {
    var input :| ProperInput(input) && c.cafData == Sanitise(p, input);
    AssessedAndStoredAgree(p, input, r);
  }

  lemma StoresClean(p: Parsers, w: World, later: World, c: CaseDoc, submission: Submission)
    requires AllClean(p, w) && CleanDraft(p, c) && SubmittedAlike(submission)
    requires later.cases == w.cases[c.caseId := c] && later.submissions == w.submissions[c.caseId := submission]
    ensures AllClean(p, later)
  {
  }

  lemma SubmitClean(p: Parsers, w: World, c: CaseDoc, actor: Actor, r: SubmitRequest)
    requires AllClean(p, w) && CleanDraft(p, c) && c.status == Draft && FinalVerdict(p, r.final, c.cafData)
    ensures AllClean(p, Submit(w, c, actor, r))
  {
    SubmissionAlike(p, c, r);
    SubmitStores(w, c, actor, r);
    StoresClean(p, w, Submit(w, c, actor, r), SubmittedDoc(c, actor, r, IdFor(w, c, r.year)), SubmissionFor(c, r));
  }

  lemma SubmitCaseClean(p: Parsers, w: World, key: string, actor: Actor, r: SubmitRequest)
    requires AllClean(p, w) && Validated(p, w, OpSubmitCase(key, actor, r))
    ensures AllClean(p, SubmitCase(w, key, actor, r).0)
  {
    var found := Locate(w.cases, key, actor);
    if found.Found? && found.doc.status == Draft {
      FoundClean(p, w, key, actor);
      if Admissible(found.doc, actor, r) {
        SubmitClean(p, w, found.doc, actor, r);
      } else {
        CommitClean(p, w, found.doc, AttemptNotes(found.doc, actor, r));
      }
    }
  }

  lemma SanitisedShape(p: Parsers, form: map<string, Json>)
    requires IsSanitised(p, form)
    ensures HasShape(CafSchema(), form) && SafeSchema(CafSchema())
  {
    var input :| ProperInput(input) && form == Sanitise(p, input);
    CafSchemaSafe();
    SanitisedHasShape(p, CafSchema(), input);
  }

  /** Amending a draft leaves a sanitised form. */
  lemma AmendedClean(p: Parsers, c: CaseDoc, reason: string, patch: map<string, Json>)
    requires CleanDraft(p, c) && IsSanitised(p, patch)
    ensures CleanDraft(p, AmendedDoc(c, reason, patch))
  {
    if c.status == Draft {
      SanitisedShape(p, c.cafData);
      SanitisedShape(p, patch);
      AmendmentReplacesForm(CafSchema(), c.cafData, patch);
    }
  }

  lemma AmendCaseClean(p: Parsers, w: World, key: string, actor: Actor, reason: string, patch: map<string, Json>)
    requires AllClean(p, w) && IsSanitised(p, patch)
    ensures AllClean(p, AmendCase(w, key, actor, reason, patch).0)
  {
    var found := Locate(w.cases, key, actor);
    if found.Found? && found.doc.status != Closed && found.doc.status != Withdrawn && reason != "" {
      FoundClean(p, w, key, actor);
      var updated := AmendedDoc(found.doc, reason, patch);
      AmendedClean(p, found.doc, reason, patch);
      CommitClean(p, w, updated, [Note("case.amended.v1", StatusChange(Some(found.doc.status), updated.status))]);
    }
  }

  lemma UpdateDraftClean(p: Parsers, w: World, key: string, actor: Actor, v: Checked)
    requires AllClean(p, w) && IsSanitised(p, v.fields)
    ensures AllClean(p, UpdateDraft(w, key, actor, v).0)
  {
    var found := Locate(w.cases, key, actor);
    if found.Found? {
      CommitClean(p, w, UpdatedDoc(found.doc, v), UpdateNotes(found.doc, v));
    }
  }

  lemma ValidateDraftClean(p: Parsers, w: World, key: string, actor: Actor)
    requires AllClean(p, w)
    ensures AllClean(p, ValidateDraft(w, key, actor).0)
  {
    var found := Locate(w.cases, key, actor);
    if found.Found? {
      FoundClean(p, w, key, actor);
      CommitClean(p, w, found.doc, [Validation(found.doc)]);
    }
  }

  lemma ResubmitCaseClean(p: Parsers, w: World, key: string, actor: Actor, reason: string, changedFields: seq<string>)
    requires AllClean(p, w)
    ensures AllClean(p, ResubmitCase(w, key, actor, reason, changedFields).0)
  {
    var found := Locate(w.cases, key, actor);
    if found.Found? {
      CommitClean(p, w, ResubmittedDoc(found.doc, reason, changedFields),
                  [Note("case.resubmitted.v1", StatusChange(Some(found.doc.status), ResponseSubmitted))]);
    }
  }

  lemma StepClean(p: Parsers, w: World, op: Op)
    requires AllClean(p, w) && Validated(p, w, op)
    ensures AllClean(p, Apply(w, op).0)
  {
    match op
    case OpCreateDraft(y, m, d, suffix, actor, v, now) =>
      CommitClean(p, w, NewDraft(DraftCaseId(y, m, d, suffix), actor, v.fields, now), CreateNotes(v));
    case OpUpdateDraft(key, actor, v) => UpdateDraftClean(p, w, key, actor, v);
    case OpValidateDraft(key, actor) => ValidateDraftClean(p, w, key, actor);
    case OpSubmitCase(key, actor, r) => SubmitCaseClean(p, w, key, actor, r);
    case OpAmendCase(key, actor, reason, patch) => AmendCaseClean(p, w, key, actor, reason, patch);
    case OpResubmitCase(key, actor, reason, changedFields) =>
      ResubmitCaseClean(p, w, key, actor, reason, changedFields);
  }

  /** After every run on validated input every draft is sanitised, and submissions stored what they assessed. */
  lemma {:induction false} RunClean(p: Parsers, ops: seq<Op>)
    requires ValidatedRun(p, ops)
    ensures AllClean(p, Run(EMPTY_WORLD, ops))
  {
    if ops != [] {
      var n := |ops| - 1;
      var init := ops[..n];
      forall i | 0 <= i < n
        ensures Validated(p, Run(EMPTY_WORLD, init[..i]), init[i])
      {
        assert init[..i] == ops[..i];
        assert Validated(p, Run(EMPTY_WORLD, ops[..i]), ops[i]);
      }
      RunClean(p, init);
      StepClean(p, Run(EMPTY_WORLD, init), ops[n]);
    }
  }

  // ---------------------------------------------------------------- what holds on such runs

  lemma NamesKept(p: Parsers, input: map<string, Json>, k: string)
    requires KindOf(k) == TextField
    ensures TextIn(Obj(Sanitise(p, Sanitise(p, input))), "project", k) == TextIn(Obj(Sanitise(p, input)), "project", k)
  {
    SameField(p, CafSchema(), input, "project", k);
  }

  /** A stored form that final validation accepts names its project and its district itself. */
  lemma FinalNamesStored(p: Parsers, input: map<string, Json>)
    requires FinalChecked(p, Sanitise(p, input)).valid
    ensures var f := FormOf(Obj(Sanitise(p, input)));
            f.projectName != "" && f.projectDistrict != ""
  {
    var stored := Sanitise(p, input);
    FinalNamesProject(p, stored, ApprovalInfoOf(Obj(stored)).requiredAttachments);
    NamesAreText();
    NamesKept(p, input, "projectName");
    NamesKept(p, input, "projectDistrict");
  }

  /**
   In every state reached on validated input: a draft that no other case matches can be
   submitted exactly when it is valid and, if recent and own, confirmed and without its source.
   */
  lemma SubmittableOnRuns(p: Parsers, ops: seq<Op>, id: string, actor: Actor, r: SubmitRequest, lookback: int)
    requires ValidatedRun(p, ops) && id in Run(EMPTY_WORLD, ops).cases
    requires var cases := Run(EMPTY_WORLD, ops).cases;
             cases[id].status == Draft && NoOtherMatch(cases, id, actor, lookback) &&
             AnswersQuery(r.candidates, cases, Obj(cases[id].cafData), actor, lookback) &&
             FinalVerdict(p, r.final, cases[id].cafData)
    ensures var c := Run(EMPTY_WORLD, ops).cases[id];
            Admissible(c, actor, r) <==>
            r.final.valid && (RecentOwn(c, actor, lookback) ==> !SourceKept(c) && Confirmed(c, r))
  {
    var cases := Run(EMPTY_WORLD, ops).cases;
    RunClean(p, ops);
    if r.final.valid {
      assert CleanDraft(p, cases[id]);
      var input :| ProperInput(input) && cases[id].cafData == Sanitise(p, input);
      FinalNamesStored(p, input);
      SubmittableIff(cases, id, actor, r, lookback);
    }
  }

  /**
   On such runs only amendments make tasks stale: they name the departments the current form
   needs exactly when that form fires the rules the submitted form fires.
   */
  lemma TasksStaleIff(p: Parsers, ops: seq<Op>, id: string)
    requires ValidatedRun(p, ops) && id in Run(EMPTY_WORLD, ops).cases
    requires Run(EMPTY_WORLD, ops).cases[id].status != Draft
    ensures var w := Run(EMPTY_WORLD, ops);
            id in w.submissions &&
            (DepartmentsOfTasks(TasksOf(w.tasks, id)) == NeededDepartments(Obj(w.cases[id].cafData)) <==>
             forall d :: Needed(d, Obj(w.submissions[id].form)) <==> Needed(d, Obj(w.cases[id].cafData)))
  {
    var w := Run(EMPTY_WORLD, ops);
    RunClean(p, ops);
    TasksCurrentIff(ops, id);
    assert SubmittedAlike(w.submissions[id]);
    SameDepartmentsIff(Obj(w.submissions[id].form), Obj(w.submissions[id].assessed));
  }
}
