/**
 The shape of the forms the case service stores. The input sanitiser gives every form the
 same keys, whatever was sent; what that means for amendments and the fields they record.
 */
module CafShapes {
  import opened Options
  import opened Json
  import opened ObjectPath
  import opened FieldDiff
  import opened CaseIds
  import opened CafModel
  import opened CafInvariant
  import opened CafPreservation
  import opened CafTheorems

  /** The keys of each section, and the keys beside the sections. */
  datatype Schema = Schema(sections: map<string, set<string>>, flat: set<string>)

  /** The eight sections, the two override fields among the others, and no empty or dotted key. */
  predicate SafeSchema(schema: Schema)
  {
    schema.sections.Keys == SECTIONS && schema.flat !! SECTIONS &&
    "duplicateOverrideConfirmed" in schema.flat && "duplicateOverrideReason" in schema.flat &&
    (forall k <- schema.flat :: SafeKey(k)) &&
    forall s <- schema.sections :: SafeKey(s) && forall k <- schema.sections[s] :: SafeKey(k)
  }

  predicate Flat(v: Json)
  {
    Proper(v) && !v.Obj?
  }

  predicate SectionShape(section: Json, keys: set<string>)
  {
    section.Obj? && section.fields.Keys == keys && forall k <- keys :: Flat(section.fields[k])
  }

  /** Exactly the keys of the schema, at both levels. */
  predicate HasShape(schema: Schema, form: map<string, Json>)
  {
    form.Keys == schema.sections.Keys + schema.flat &&
    (forall s <- schema.sections :: SectionShape(form[s], schema.sections[s])) &&
    forall k <- schema.flat :: Flat(form[k])
  }

  // ---------------------------------------------------------------- what the shape gives

  lemma SectionSafe(section: Json, keys: set<string>)
    requires SectionShape(section, keys) && forall k <- keys :: SafeKey(k)
    ensures Proper(section) && DotFreeKeys(section)
  {
  }

  /** Forms of the shape are ones the differ's paths can address. */
  lemma ShapeAddressable(schema: Schema, form: map<string, Json>)
    requires SafeSchema(schema) && HasShape(schema, form)
    ensures Addressable(Obj(form)) && Proper(Obj(form))
  {
    forall k | k in form
      ensures Proper(form[k]) && SafeKey(k) && DotFreeKeys(form[k])
    {
      if k in schema.sections {
        SectionSafe(form[k], schema.sections[k]);
      }
    }
  }

  /**
   An amendment through the service replaces the whole form: the merge is there to keep what
   a patch leaves out, but a sanitised patch leaves out nothing.
   */
  lemma AmendmentReplacesForm(schema: Schema, caf: map<string, Json>, patch: map<string, Json>)
    requires SafeSchema(schema) && HasShape(schema, caf) && HasShape(schema, patch)
    ensures Merge(caf, patch) == patch
  {
    var merged := Merge(caf, patch);
    assert merged.Keys == patch.Keys;
    forall k | k in merged
      ensures merged[k] == patch[k]
    {
      if k in SECTIONS {
        SectionReplaced(caf, patch, k, schema.sections[k]);
      }
    }
  }

  lemma SectionReplaced(caf: map<string, Json>, patch: map<string, Json>, section: string, keys: set<string>)
    requires section in SECTIONS && section in caf && section in patch
    requires SectionShape(caf[section], keys) && SectionShape(patch[section], keys)
    ensures Merge(caf, patch)[section] == patch[section]
  {
    assert SectionFields(caf, section) + SectionFields(patch, section) == patch[section].fields;
  }

  // ---------------------------------------------------------------- every reachable form has it

  /** What the operation stores has gone through the sanitiser. */
  predicate Sanitised(schema: Schema, op: Op)
  {
    match op
    case OpCreateDraft(_, _, _, _, _, v, _) => HasShape(schema, v.fields)
    case OpUpdateDraft(_, _, v) => HasShape(schema, v.fields)
    case OpSubmitCase(_, _, r) => HasShape(schema, r.final.fields)
    case OpAmendCase(_, _, _, patch) => HasShape(schema, patch)
    case _ => true
  }

  ghost predicate CaseShaped(schema: Schema, c: CaseDoc)
  {
    HasShape(schema, c.cafData) &&
    forall i :: 0 <= i < |c.amendmentHistory| ==> HasShape(schema, c.amendmentHistory[i].patch)
  }

  ghost predicate AllShaped(schema: Schema, w: World)
  {
    (forall id :: id in w.cases ==> CaseShaped(schema, w.cases[id])) &&
    forall id :: id in w.submissions ==> HasShape(schema, w.submissions[id].form)
  }

  lemma CommitShaped(schema: Schema, w: World, c: CaseDoc, notes: seq<Note>)
    requires AllShaped(schema, w) && CaseShaped(schema, c)
    ensures AllShaped(schema, Commit(w, c, notes))
  {
  }

  lemma SubmittedFormShaped(schema: Schema, r: SubmitRequest)
    requires SafeSchema(schema) && HasShape(schema, r.final.fields)
    ensures HasShape(schema, SubmittedForm(r))
  {
  }

  lemma StoresShaped(schema: Schema, w: World, later: World, c: CaseDoc, submission: Submission)
    requires AllShaped(schema, w) && CaseShaped(schema, c) && HasShape(schema, submission.form)
    requires later.cases == w.cases[c.caseId := c] && later.submissions == w.submissions[c.caseId := submission]
    ensures AllShaped(schema, later)
  {
  }

  lemma SubmitShaped(schema: Schema, w: World, c: CaseDoc, actor: Actor, r: SubmitRequest)
    requires SafeSchema(schema) && AllShaped(schema, w) && CaseShaped(schema, c) && HasShape(schema, r.final.fields)
    ensures AllShaped(schema, Submit(w, c, actor, r))
  {
    SubmittedFormShaped(schema, r);
    SubmitStores(w, c, actor, r);
    var submitted := SubmittedDoc(c, actor, r, IdFor(w, c, r.year));
    StoresShaped(schema, w, Submit(w, c, actor, r), submitted, SubmissionFor(c, r));
  }

  ghost predicate FindsShaped(schema: Schema, w: World, key: string, actor: Actor)
  {
    Locate(w.cases, key, actor).Found? ==> CaseShaped(schema, Locate(w.cases, key, actor).doc)
  }

  /** What an operation finds is shaped. */
  lemma FoundShaped(schema: Schema, w: World, key: string, actor: Actor)
    requires AllShaped(schema, w)
    ensures FindsShaped(schema, w, key, actor)
  {
  }

  lemma SubmitDraftShaped(schema: Schema, w: World, c: CaseDoc, actor: Actor, r: SubmitRequest)
    requires SafeSchema(schema) && AllShaped(schema, w) && CaseShaped(schema, c) && HasShape(schema, r.final.fields)
    ensures AllShaped(schema, if Admissible(c, actor, r) then Submit(w, c, actor, r)
            else Commit(w, c, AttemptNotes(c, actor, r)))
  {
    if Admissible(c, actor, r) {
      SubmitShaped(schema, w, c, actor, r);
    } else {
      CommitShaped(schema, w, c, AttemptNotes(c, actor, r));
    }
  }

  lemma SubmitCaseShaped(schema: Schema, w: World, key: string, actor: Actor, r: SubmitRequest)
    requires SafeSchema(schema) && AllShaped(schema, w) && HasShape(schema, r.final.fields)
    requires FindsShaped(schema, w, key, actor)
    ensures AllShaped(schema, SubmitCase(w, key, actor, r).0)
  {
    var found := Locate(w.cases, key, actor);
    if found.Found? && found.doc.status == Draft {
      SubmitDraftShaped(schema, w, found.doc, actor, r);
    }
  }

  lemma AmendedDocShaped(schema: Schema, c: CaseDoc, reason: string, patch: map<string, Json>)
    requires SafeSchema(schema) && CaseShaped(schema, c) && HasShape(schema, patch)
    ensures CaseShaped(schema, AmendedDoc(c, reason, patch))
  {
    AmendmentReplacesForm(schema, c.cafData, patch);
  }

  lemma AmendCaseShaped(schema: Schema, w: World, key: string, actor: Actor, reason: string, patch: map<string, Json>)
    requires SafeSchema(schema) && AllShaped(schema, w) && HasShape(schema, patch)
    ensures AllShaped(schema, AmendCase(w, key, actor, reason, patch).0)
  {
    var found := Locate(w.cases, key, actor);
    if found.Found? && found.doc.status != Closed && found.doc.status != Withdrawn && reason != "" {
      FoundShaped(schema, w, key, actor);
      var c := found.doc;
      var updated := AmendedDoc(c, reason, patch);
      AmendedDocShaped(schema, c, reason, patch);
      CommitShaped(schema, w, updated, [Note("case.amended.v1", StatusChange(Some(c.status), updated.status))]);
    }
  }

  lemma UpdateDraftShaped(schema: Schema, w: World, key: string, actor: Actor, v: Checked)
    requires AllShaped(schema, w) && HasShape(schema, v.fields)
    ensures AllShaped(schema, UpdateDraft(w, key, actor, v).0)
  {
    var found := Locate(w.cases, key, actor);
    if found.Found? {
      FoundShaped(schema, w, key, actor);
      CommitShaped(schema, w, UpdatedDoc(found.doc, v), UpdateNotes(found.doc, v));
    }
  }

  lemma ValidateDraftShaped(schema: Schema, w: World, key: string, actor: Actor)
    requires AllShaped(schema, w)
    ensures AllShaped(schema, ValidateDraft(w, key, actor).0)
  {
    var found := Locate(w.cases, key, actor);
    if found.Found? {
      FoundShaped(schema, w, key, actor);
      CommitShaped(schema, w, found.doc, [Validation(found.doc)]);
    }
  }

  lemma ResubmitCaseShaped(schema: Schema, w: World, key: string, actor: Actor, reason: string,
                           changedFields: seq<string>)
    requires AllShaped(schema, w)
    ensures AllShaped(schema, ResubmitCase(w, key, actor, reason, changedFields).0)
  {
    var found := Locate(w.cases, key, actor);
    if found.Found? {
      FoundShaped(schema, w, key, actor);
      CommitShaped(schema, w, ResubmittedDoc(found.doc, reason, changedFields),
                   [Note("case.resubmitted.v1", StatusChange(Some(found.doc.status), ResponseSubmitted))]);
    }
  }

  lemma StepShaped(schema: Schema, w: World, op: Op)
    requires SafeSchema(schema) && AllShaped(schema, w) && Sanitised(schema, op)
    ensures AllShaped(schema, Apply(w, op).0)
  {
    match op
    case OpCreateDraft(y, m, d, suffix, actor, v, now) =>
      CommitShaped(schema, w, NewDraft(DraftCaseId(y, m, d, suffix), actor, v.fields, now), CreateNotes(v));
    case OpUpdateDraft(key, actor, v) => UpdateDraftShaped(schema, w, key, actor, v);
    case OpValidateDraft(key, actor) => ValidateDraftShaped(schema, w, key, actor);
    case OpSubmitCase(key, actor, r) =>
      FoundShaped(schema, w, key, actor);
      SubmitCaseShaped(schema, w, key, actor, r);
    case OpAmendCase(key, actor, reason, patch) => AmendCaseShaped(schema, w, key, actor, reason, patch);
    case OpResubmitCase(key, actor, reason, changedFields) =>
      ResubmitCaseShaped(schema, w, key, actor, reason, changedFields);
  }

  lemma {:induction false} RunShaped(schema: Schema, ops: seq<Op>)
    requires SafeSchema(schema) && forall i :: 0 <= i < |ops| ==> Sanitised(schema, ops[i])
    ensures AllShaped(schema, Run(EMPTY_WORLD, ops))
  {
    if ops != [] {
      var init := ops[..|ops| - 1];
      RunShaped(schema, init);
      StepShaped(schema, Run(EMPTY_WORLD, init), ops[|ops| - 1]);
    }
  }

  // ---------------------------------------------------------------- the fields an amendment records

  lemma {:induction false} AmendedShaped(schema: Schema, form: map<string, Json>, amendments: seq<Amendment>)
    requires SafeSchema(schema) && HasShape(schema, form)
    requires forall i :: 0 <= i < |amendments| ==> HasShape(schema, amendments[i].patch)
    ensures HasShape(schema, Amended(form, amendments))
  {
    if amendments != [] {
      var init := amendments[..|amendments| - 1];
      AmendedShaped(schema, form, init);
      AmendmentReplacesForm(schema, Amended(form, init), amendments[|amendments| - 1].patch);
    }
  }

  /**
   The fields an amendment recorded are those a listing of the differ prints, and writing the
   later values at them, in the listed order, turns the form before it into the form after it.
   */
  ghost predicate RecordReplays(form: map<string, Json>, since: seq<Amendment>, i: nat, trail: seq<Path>)
    requires i < |since|
  {
    var before, after := Obj(Amended(form, since[..i])), Obj(Amended(form, since[..i + 1]));
    Enumerates(trail, before, after) ==>
      (set p | p in Rendered(trail)) == since[i].changedFields && Patch(before, after, Rendered(trail)) == after
  }

  lemma AmendmentReplays(schema: Schema, form: map<string, Json>, since: seq<Amendment>, i: nat, trail: seq<Path>)
    requires SafeSchema(schema) && HasShape(schema, form) && DiffsRecorded(form, since) && i < |since|
    requires forall k :: 0 <= k < |since| ==> HasShape(schema, since[k].patch)
    ensures RecordReplays(form, since, i, trail)
  {
    var before := Amended(form, since[..i]);
    AmendedShaped(schema, form, since[..i]);
    assert since[..i + 1][..i] == since[..i];
    AmendmentReplacesForm(schema, before, since[i].patch);
    ShapeAddressable(schema, before);
    ShapeAddressable(schema, since[i].patch);
    if Enumerates(trail, Obj(before), Obj(Merge(before, since[i].patch))) {
      ChangedFieldsReplayAmendment(before, since[i], trail);
    }
  }

  /** The form a case was submitted with, and its amendments since. */
  function SubmittedWith(w: World, id: string): map<string, Json>
  {
    if id in w.submissions then w.submissions[id].form else map[]
  }

  function Since(w: World, id: string): seq<Amendment>
  {
    if id in w.cases && id in w.submissions && w.submissions[id].amendments <= |w.cases[id].amendmentHistory| then
      w.cases[id].amendmentHistory[w.submissions[id].amendments..]
    else []
  }

  lemma SinceSound(schema: Schema, w: World, id: string)
    requires Inv(w) && AllShaped(schema, w) && Since(w, id) != []
    ensures HasShape(schema, SubmittedWith(w, id)) && DiffsRecorded(SubmittedWith(w, id), Since(w, id))
    ensures forall k :: 0 <= k < |Since(w, id)| ==> HasShape(schema, Since(w, id)[k].patch)
  {
    assert CaseSound(w, id) && CaseShaped(schema, w.cases[id]);
  }

  /** In every state the service reaches on sanitised input this holds of all amendments since a submission. */
  lemma RecordedFieldsReplay(schema: Schema, ops: seq<Op>, id: string, i: nat, trail: seq<Path>)
    requires SafeSchema(schema) && forall k :: 0 <= k < |ops| ==> Sanitised(schema, ops[k])
    requires i < |Since(Run(EMPTY_WORLD, ops), id)|
    ensures RecordReplays(SubmittedWith(Run(EMPTY_WORLD, ops), id), Since(Run(EMPTY_WORLD, ops), id), i, trail)
  {
    var w := Run(EMPTY_WORLD, ops);
    ReachableInv(ops);
    RunShaped(schema, ops);
    SinceSound(schema, w, id);
    AmendmentReplays(schema, SubmittedWith(w, id), Since(w, id), i, trail);
  }
}
