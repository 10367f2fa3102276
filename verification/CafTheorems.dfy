/** What holds of the case lifecycle over whole runs. */
module CafTheorems {
  import opened Options
  import opened Lists
  import opened Json
  import opened ObjectPath
  import opened FieldDiff
  import opened ApprovalTracks
  import opened DuplicateDetection
  import opened CaseIds
  import opened CafModel
  import opened CafInvariant
  import opened CafPreservation

  // ---------------------------------------------------------------- views of one case agree

  /**
   In every reachable state the timeline mirrors the domain log entry by entry, and folding
   the events of a case gives its stored status; a case that does not exist has no history.
   */
  lemma {:induction false} EventLogReplaysToStatus(ops: seq<Op>, id: string)
    ensures var w := Run(EMPTY_WORLD, ops);
            w.timeline == Timeline(w.events) &&
            Replay(w.events, id) == At(if id in w.cases then Some(w.cases[id].status) else None)
  {
    ReachableInv(ops);
    var w := Run(EMPTY_WORLD, ops);
    if id in w.cases {
      assert CaseSound(w, id);
    } else {
      assert Unused(w, id);
    }
  }

  /**
   The form of a submitted case is the submitted form with the amendments since then merged
   in, each of which recorded exactly the fields it changed; the histories count from 1.
   */
  lemma {:induction false} AmendmentsReplayForm(ops: seq<Op>, id: string)
    requires id in Run(EMPTY_WORLD, ops).cases && Run(EMPTY_WORLD, ops).cases[id].status != Draft
    ensures var w := Run(EMPTY_WORLD, ops);
            var c := w.cases[id];
            id in w.submissions && w.submissions[id].amendments <= |c.amendmentHistory| &&
            var since := c.amendmentHistory[w.submissions[id].amendments..];
            Amended(w.submissions[id].form, since) == c.cafData &&
            DiffsRecorded(w.submissions[id].form, since) && Numbered(c)
  {
    ReachableInv(ops);
    assert CaseSound(Run(EMPTY_WORLD, ops), id);
  }

  /**
   A case has a universal id exactly once it has left draft, and from then on its tasks,
   its approval tracks and its required departments name the same distinct departments.
   */
  lemma {:induction false} SubmissionAgrees(ops: seq<Op>, id: string)
    requires id in Run(EMPTY_WORLD, ops).cases
    ensures var w := Run(EMPTY_WORLD, ops);
            var c, tasks := w.cases[id], TasksOf(w.tasks, id);
            (c.universalCaseId.None? <==> c.status == Draft) &&
            (c.status == Draft ==> tasks == [] && c.approvalTracks == [] && c.requiredDepartments == []) &&
            DepartmentsOfTasks(tasks) == DepartmentsOfTracks(c.approvalTracks) ==
              DepartmentsRequired(c.requiredDepartments) &&
            NoRepeats(DepartmentsOfTasks(tasks))
  {
    ReachableInv(ops);
    var w := Run(EMPTY_WORLD, ops);
    assert CaseSound(w, id);
    if w.cases[id].status != Draft {
      NeededDepartmentsExact(Obj(w.submissions[id].assessed));
    }
  }

  /** A case has no tasks exactly while it is a draft, or when its form needed no department. */
  lemma NoTasksIff(ops: seq<Op>, id: string)
    requires id in Run(EMPTY_WORLD, ops).cases
    ensures var w := Run(EMPTY_WORLD, ops);
            TasksOf(w.tasks, id) == [] <==>
            w.cases[id].status == Draft ||
            (id in w.submissions && forall d :: !Needed(d, Obj(w.submissions[id].assessed)))
  {
    ReachableInv(ops);
    var w := Run(EMPTY_WORLD, ops);
    assert CaseSound(w, id);
    if w.cases[id].status != Draft {
      NoneNeededIff(Obj(w.submissions[id].assessed));
      assert |TasksOf(w.tasks, id)| == |NeededDepartments(Obj(w.submissions[id].assessed))|;
    }
  }

  /**
   Amendments leave tasks, tracks and required departments as they were: they name the
   departments the current form needs exactly when it fires the rules the assessed form fired.
   */
  lemma TasksCurrentIff(ops: seq<Op>, id: string)
    requires id in Run(EMPTY_WORLD, ops).cases && Run(EMPTY_WORLD, ops).cases[id].status != Draft
    ensures var w := Run(EMPTY_WORLD, ops);
            var c, tasks := w.cases[id], DepartmentsOfTasks(TasksOf(w.tasks, id));
            id in w.submissions &&
            tasks == DepartmentsOfTracks(c.approvalTracks) == DepartmentsRequired(c.requiredDepartments) &&
            (tasks == NeededDepartments(Obj(c.cafData)) <==>
             forall d :: Needed(d, Obj(w.submissions[id].assessed)) <==> Needed(d, Obj(c.cafData)))
  {
    ReachableInv(ops);
    var w := Run(EMPTY_WORLD, ops);
    assert CaseSound(w, id);
    SameDepartmentsIff(Obj(w.submissions[id].assessed), Obj(w.cases[id].cafData));
  }

  /** So a submitted case can be without tasks: "no tasks" does not mean "draft". */
  lemma {:induction false} SubmittedWithoutTasks(w: World, key: string, actor: Actor, r: SubmitRequest)
    requires Inv(w) && Locate(w.cases, key, actor).Found?
    requires var c := Locate(w.cases, key, actor).doc;
             c.status == Draft && Admissible(c, actor, r) && forall d :: !Needed(d, Obj(c.cafData))
    ensures var c := Locate(w.cases, key, actor).doc;
            var (w', outcome) := SubmitCase(w, key, actor, r);
            outcome == Done && c.caseId in w'.cases && w'.cases[c.caseId].status == Submitted &&
            TasksOf(w'.tasks, c.caseId) == []
  {
    FoundIsStored(w, key, actor);
    var c := Locate(w.cases, key, actor).doc;
    NoneNeededIff(Obj(c.cafData));
    assert CaseSound(w, c.caseId);
    assert w.tasks + [] == w.tasks;
  }

  // ---------------------------------------------------------------- what later operations keep

  /** Histories only grow; what a submission fixed stays fixed; a submitted case never is a draft again. */
  ghost predicate CaseExtends(c: CaseDoc, later: CaseDoc)
  {
    later.caseId == c.caseId && later.owner == c.owner &&
    c.amendmentHistory <= later.amendmentHistory &&
    c.resubmissionHistory <= later.resubmissionHistory &&
    (c.status != Draft ==>
      later.status != Draft &&
      later.universalCaseId == c.universalCaseId &&
      later.approvalTracks == c.approvalTracks &&
      later.requiredDepartments == c.requiredDepartments &&
      later.acknowledgement == c.acknowledgement &&
      later.submissionIdempotencyKeys == c.submissionIdempotencyKeys)
  }

  /** What holds of one id in an earlier and a later state. */
  ghost predicate IdExtends(w: World, later: World, id: string)
  {
    id in w.cases ==>
      id in later.cases && CaseExtends(w.cases[id], later.cases[id]) &&
      (w.cases[id].status != Draft ==>
        TasksOf(later.tasks, id) == TasksOf(w.tasks, id) &&
        SubmissionOf(later.submissions, id) == SubmissionOf(w.submissions, id))
  }

  ghost predicate Extends(w: World, later: World)
  {
    w.events <= later.events && w.timeline <= later.timeline && forall id :: IdExtends(w, later, id)
  }

  lemma ExtendsReflexive(w: World)
    ensures Extends(w, w)
  {
  }

  lemma CommitExtends(w: World, c: CaseDoc, notes: seq<Note>)
    requires c.caseId in w.cases ==> CaseExtends(w.cases[c.caseId], c)
    ensures Extends(w, Commit(w, c, notes))
  {
  }

  lemma SubmitExtends(w: World, c: CaseDoc, actor: Actor, r: SubmitRequest)
    requires c.caseId in w.cases && w.cases[c.caseId] == c && c.status == Draft
    ensures Extends(w, Submit(w, c, actor, r))
  {
    var universalCaseId := IdFor(w, c, r.year);
    var created := TasksFor(c, actor, r, universalCaseId);
    forall id
      ensures IdExtends(w, Submit(w, c, actor, r), id)
    {
      TasksOfAppend(w.tasks, created, c.caseId, id);
    }
  }

  /** Rewriting the document an operation has found, within what CaseExtends allows. */
  lemma FoundCommitExtends(w: World, key: string, actor: Actor, updated: CaseDoc, notes: seq<Note>)
    requires Inv(w) && Locate(w.cases, key, actor).Found? && CaseExtends(Locate(w.cases, key, actor).doc, updated)
    ensures Extends(w, Commit(w, updated, notes))
  {
    FoundIsStored(w, key, actor);
    CommitExtends(w, updated, notes);
  }

  lemma UpdateDraftExtends(w: World, key: string, actor: Actor, v: Checked)
    requires Inv(w)
    ensures Extends(w, UpdateDraft(w, key, actor, v).0)
  {
    ExtendsReflexive(w);
    var found := Locate(w.cases, key, actor);
    if found.Found? && found.doc.status == Draft && v.valid {
      FoundCommitExtends(w, key, actor, UpdatedDoc(found.doc, v), UpdateNotes(found.doc, v));
    }
  }

  lemma SubmitCaseExtends(w: World, key: string, actor: Actor, r: SubmitRequest)
    requires Inv(w)
    ensures Extends(w, SubmitCase(w, key, actor, r).0)
  {
    ExtendsReflexive(w);
    var found := Locate(w.cases, key, actor);
    if found.Found? && found.doc.status == Draft {
      var c := found.doc;
      if Admissible(c, actor, r) {
        FoundIsStored(w, key, actor);
        SubmitExtends(w, c, actor, r);
      } else {
        FoundCommitExtends(w, key, actor, c, AttemptNotes(c, actor, r));
      }
    }
  }

  lemma AmendCaseExtends(w: World, key: string, actor: Actor, reason: string, patch: map<string, Json>)
    requires Inv(w)
    ensures Extends(w, AmendCase(w, key, actor, reason, patch).0)
  {
    ExtendsReflexive(w);
    var found := Locate(w.cases, key, actor);
    if found.Found? && found.doc.status != Closed && found.doc.status != Withdrawn && reason != "" {
      var updated := AmendedDoc(found.doc, reason, patch);
      var note := Note("case.amended.v1", StatusChange(Some(found.doc.status), updated.status));
      FoundCommitExtends(w, key, actor, updated, [note]);
    }
  }

  lemma ResubmitCaseExtends(w: World, key: string, actor: Actor, reason: string, changedFields: seq<string>)
    requires Inv(w)
    ensures Extends(w, ResubmitCase(w, key, actor, reason, changedFields).0)
  {
    ExtendsReflexive(w);
    var found := Locate(w.cases, key, actor);
    if found.Found? && found.doc.status in {QueryRaised, ResponseSubmitted, Rejected, Reopened} && reason != "" {
      FoundCommitExtends(w, key, actor, ResubmittedDoc(found.doc, reason, changedFields),
                         [Note("case.resubmitted.v1", StatusChange(Some(found.doc.status), ResponseSubmitted))]);
    }
  }

  lemma ValidateDraftExtends(w: World, key: string, actor: Actor)
    requires Inv(w)
    ensures Extends(w, ValidateDraft(w, key, actor).0)
  {
    ExtendsReflexive(w);
    var found := Locate(w.cases, key, actor);
    if found.Found? {
      FoundCommitExtends(w, key, actor, found.doc, [Validation(found.doc)]);
    }
  }

  lemma {:induction false} StepExtends(w: World, op: Op)
    requires Inv(w)
    ensures Extends(w, Apply(w, op).0)
  {
    match op
    case OpCreateDraft(y, m, d, suffix, actor, v, now) =>
      ExtendsReflexive(w);
      if v.valid && DraftCaseId(y, m, d, suffix) !in w.cases {
        CommitExtends(w, NewDraft(DraftCaseId(y, m, d, suffix), actor, v.fields, now), CreateNotes(v));
      }
    case OpUpdateDraft(key, actor, v) => UpdateDraftExtends(w, key, actor, v);
    case OpValidateDraft(key, actor) => ValidateDraftExtends(w, key, actor);
    case OpSubmitCase(key, actor, r) => SubmitCaseExtends(w, key, actor, r);
    case OpAmendCase(key, actor, reason, patch) => AmendCaseExtends(w, key, actor, reason, patch);
    case OpResubmitCase(key, actor, reason, changedFields) => ResubmitCaseExtends(w, key, actor, reason, changedFields);
  }

  lemma ExtendsTransitive(a: World, b: World, c: World)
    requires Extends(a, b) && Extends(b, c)
    ensures Extends(a, c)
  {
    forall id
      ensures IdExtends(a, c, id)
    {
      assert IdExtends(a, b, id) && IdExtends(b, c, id);
    }
  }

  ghost predicate Reaches(w: World, later: World)
  {
    Inv(later) && Extends(w, later)
  }

  lemma StepReaches(w: World, later: World, op: Op)
    requires Reaches(w, later)
    ensures Reaches(w, Apply(later, op).0)
  {
    StepKeepsInv(later, op);
    StepExtends(later, op);
    ExtendsTransitive(w, later, Apply(later, op).0);
  }

  lemma {:induction false} RunReaches(w: World, ops: seq<Op>)
    requires Inv(w)
    ensures Reaches(w, Run(w, ops))
  {
    if ops == [] {
      ExtendsReflexive(w);
    } else {
      RunReaches(w, ops[..|ops| - 1]);
      StepReaches(w, Run(w, ops[..|ops| - 1]), ops[|ops| - 1]);
    }
  }

  /** Whatever is done later, in any number of operations, on any cases. */
  lemma {:induction false} RunExtends(w: World, ops: seq<Op>)
    requires Inv(w)
    ensures Extends(w, Run(w, ops))
  {
    RunReaches(w, ops);
  }

  // ---------------------------------------------------------------- lookups are unambiguous

  /** A case is found by its case id and, once it has one, by its universal id: never another case. */
  lemma {:induction false} LookupFindsTheCase(w: World, id: string)
    requires Inv(w) && id in w.cases
    ensures Resolve(w.cases, id) == Some(id)
    ensures w.cases[id].universalCaseId.Some? ==> Resolve(w.cases, w.cases[id].universalCaseId.value) == Some(id)
  {
    assert CaseSound(w, id);
    if w.cases[id].universalCaseId.Some? {
      var universalCaseId := w.cases[id].universalCaseId.value;
      var year: nat, sequence: nat :| universalCaseId == UniversalId(CASE_ID_PREFIX, year, sequence);
      if universalCaseId in w.cases {
        assert CaseSound(w, universalCaseId);
        var y: nat, m: nat, d: nat, suffix: nat :| universalCaseId == DraftCaseId(y, m, d, suffix);
        DraftIdIsNoUniversalId(y, m, d, suffix, year, sequence);
      }
    }
  }

  /** No two cases share a universal id, or an acknowledgement number. */
  lemma {:induction false} IdsAndAcknowledgementsDistinct(ops: seq<Op>, a: string, b: string)
    requires a in Run(EMPTY_WORLD, ops).cases && b in Run(EMPTY_WORLD, ops).cases && a != b
    requires Run(EMPTY_WORLD, ops).cases[a].status != Draft && Run(EMPTY_WORLD, ops).cases[b].status != Draft
    ensures var cases := Run(EMPTY_WORLD, ops).cases;
            cases[a].universalCaseId != cases[b].universalCaseId && cases[a].acknowledgement != cases[b].acknowledgement
  {
    ReachableInv(ops);
    var w := Run(EMPTY_WORLD, ops);
    assert CaseSound(w, a) && CaseSound(w, b);
    var y: nat, s: nat :| w.cases[a].universalCaseId == Some(UniversalId(CASE_ID_PREFIX, y, s));
    var y': nat, s': nat :| w.cases[b].universalCaseId == Some(UniversalId(CASE_ID_PREFIX, y', s'));
    AcknowledgementInjective(ACK_PREFIX, CASE_ID_PREFIX, y, s, y', s');
  }

  // ---------------------------------------------------------------- submitting once

  /** A draft leaves draft in a submission exactly when it is admissible; each refusal has its own cause. */
  lemma LeavesDraftIff(w: World, key: string, actor: Actor, r: SubmitRequest)
    requires Inv(w) && Locate(w.cases, key, actor).Found? && Locate(w.cases, key, actor).doc.status == Draft
    ensures var c := Locate(w.cases, key, actor).doc;
            var (w', outcome) := SubmitCase(w, key, actor, r);
            c.caseId in w'.cases &&
            (w'.cases[c.caseId].status != Draft <==> outcome == Done) &&
            (outcome == Done <==> Admissible(c, actor, r)) &&
            (outcome != Done ==> w'.cases == w.cases && w'.tasks == w.tasks && w'.counters == w.counters)
  {
    FoundIsStored(w, key, actor);
    var c := Locate(w.cases, key, actor).doc;
    CommitSame(w, c, AttemptNotes(c, actor, r));
  }

  /** One of the four rules fires on some candidate, for the draft's form and the actor. */
  predicate SomeRuleFires(c: CaseDoc, actor: Actor, candidates: seq<Candidate>)
  {
    exists k <- candidates :: SomeRule(FormOf(Obj(c.cafData)), actor.id, k)
  }

  lemma RefusalCauses(w: World, key: string, actor: Actor, r: SubmitRequest)
    requires Locate(w.cases, key, actor).Found? && Locate(w.cases, key, actor).doc.status == Draft
    ensures var c := Locate(w.cases, key, actor).doc;
            var form, outcome := FormOf(Obj(c.cafData)), SubmitCase(w, key, actor, r).1;
            var blocked := exists k <- r.candidates :: SameSource(form, k);
            var confirmed := r.overrideConfirmed || Truthy(Step(Obj(c.cafData), "duplicateOverrideConfirmed"));
            (outcome == Refused(ValidationError) <==> !r.final.valid) &&
            (outcome == Refused(DuplicateBlocked) <==> r.final.valid && blocked) &&
            (outcome == Refused(DuplicateConfirmationRequired) <==>
              r.final.valid && !blocked && !confirmed && SomeRuleFires(c, actor, r.candidates))
  {
    var c := Locate(w.cases, key, actor).doc;
    BlockingIffSameSource(FormOf(Obj(c.cafData)), actor.id, r.candidates);
    DuplicateIffSomeRuleFires(FormOf(Obj(c.cafData)), actor.id, r.candidates);
  }

  /** Resubmission is open exactly to the cases amended since their submission. */
  lemma {:induction false} ResubmittableIffAmended(ops: seq<Op>, key: string, actor: Actor, reason: string,
                                                   changedFields: seq<string>)
    requires Locate(Run(EMPTY_WORLD, ops).cases, key, actor).Found? && reason != ""
    ensures var w := Run(EMPTY_WORLD, ops);
            var c := Locate(w.cases, key, actor).doc;
            ResubmitCase(w, key, actor, reason, changedFields).1 == Done <==>
            c.caseId in w.submissions && |c.amendmentHistory| > w.submissions[c.caseId].amendments
  {
    ReachableInv(ops);
    FoundIsStored(Run(EMPTY_WORLD, ops), key, actor);
  }

  lemma SubmitStores(w: World, c: CaseDoc, actor: Actor, r: SubmitRequest)
    ensures Submit(w, c, actor, r).cases == w.cases[c.caseId := SubmittedDoc(c, actor, r, IdFor(w, c, r.year))]
  {
  }

  /** A stored field is the validated one, unless a given confirmation or reason is written into it. */
  predicate StoresField(r: SubmitRequest, field: string, given: Json, stored: Json)
  {
    if field == "duplicateOverrideConfirmed" then Truthy(stored) == (r.overrideConfirmed || Truthy(given))
    else if field == "duplicateOverrideReason" && r.overrideReason != "" then stored == Str(r.overrideReason)
    else stored == given
  }

  lemma FormStored(r: SubmitRequest, field: string)
    ensures StoresField(r, field, Field(r.final.fields, field), Field(SubmittedForm(r), field))
  {
  }

  /** The form of a stored case, one field of it. */
  predicate HasField(cases: map<string, CaseDoc>, id: string, r: SubmitRequest, field: string)
  {
    id in cases && StoresField(r, field, Field(r.final.fields, field), Field(cases[id].cafData, field))
  }

  lemma SubmitHasField(w: World, c: CaseDoc, actor: Actor, r: SubmitRequest, field: string)
    ensures HasField(Submit(w, c, actor, r).cases, c.caseId, r, field)
  {
    SubmitStores(w, c, actor, r);
    FormStored(r, field);
  }

  /** What an admitted submission stores as the form, field by field. */
  lemma SubmissionStoresForm(w: World, key: string, actor: Actor, r: SubmitRequest, field: string)
    requires SubmitCase(w, key, actor, r).1 == Done
    ensures HasField(SubmitCase(w, key, actor, r).0.cases, Locate(w.cases, key, actor).doc.caseId, r, field)
  {
    SubmitHasField(w, Locate(w.cases, key, actor).doc, actor, r, field);
  }

  lemma KeyRecorded(keys: seq<string>, key: string)
    requires key != ""
    ensures key in WithKey(keys, key)
  {
    assert (keys + [key])[|keys|] == key;
  }

  /** The case has left draft with this key on record. */
  predicate HasKey(cases: map<string, CaseDoc>, c: CaseDoc, key: string)
  {
    c.caseId in cases &&
    var submitted := cases[c.caseId];
    submitted.status == Submitted && submitted.owner == c.owner && submitted.universalCaseId.Some? &&
    key in submitted.submissionIdempotencyKeys
  }

  lemma SubmitHasKey(w: World, c: CaseDoc, actor: Actor, r: SubmitRequest)
    requires r.idempotencyKey != ""
    ensures HasKey(Submit(w, c, actor, r).cases, c, r.idempotencyKey)
  {
    SubmitStores(w, c, actor, r);
    KeyRecorded(c.submissionIdempotencyKeys, r.idempotencyKey);
  }

  /** An admitted submission records its key with the case. */
  lemma {:induction false} SubmissionRecordsKey(w: World, key: string, actor: Actor, r: SubmitRequest)
    requires SubmitCase(w, key, actor, r).1 == Done && r.idempotencyKey != ""
    ensures HasKey(SubmitCase(w, key, actor, r).0.cases, Locate(w.cases, key, actor).doc, r.idempotencyKey)
  {
    SubmitHasKey(w, Locate(w.cases, key, actor).doc, actor, r);
  }

  /** A submission with a recorded key, by either name of the case, answers with its tasks. */
  lemma {:induction false} RecordedKeyReplays(w: World, id: string, byUniversalId: bool, actor: Actor, r: SubmitRequest)
    requires Inv(w) && id in w.cases && w.cases[id].status != Draft && w.cases[id].universalCaseId.Some?
    requires r.idempotencyKey != "" && r.idempotencyKey in w.cases[id].submissionIdempotencyKeys
    requires MayAccess(w.cases[id], actor)
    ensures var name := if byUniversalId then w.cases[id].universalCaseId.value else id;
            SubmitCase(w, name, actor, r) == (w, Replayed(TasksOf(w.tasks, id)))
  {
    assert CaseSound(w, id);
    LookupFindsTheCase(w, id);
  }

  /**
   Submitting again with a recorded idempotency key, any operations later and by either
   name of the case, returns the tasks of the first submission and changes nothing.
   */
  lemma {:induction false} ResubmissionReplays(w: World, key: string, actor: Actor, r: SubmitRequest, between: seq<Op>,
                            byUniversalId: bool, actor': Actor, r': SubmitRequest)
    requires Inv(w) && SubmitCase(w, key, actor, r).1 == Done
    requires r.idempotencyKey != "" && r'.idempotencyKey == r.idempotencyKey
    requires MayAccess(Locate(w.cases, key, actor).doc, actor')
    ensures var id := Locate(w.cases, key, actor).doc.caseId;
            var w1 := SubmitCase(w, key, actor, r).0;
            var w2 := Run(w1, between);
            id in w2.cases && w2.cases[id].universalCaseId.Some? &&
            var name := if byUniversalId then w2.cases[id].universalCaseId.value else id;
            SubmitCase(w2, name, actor', r') == (w2, Replayed(TasksOf(w1.tasks, id)))
  {
    var id := Locate(w.cases, key, actor).doc.caseId;
    var w1 := SubmitCase(w, key, actor, r).0;
    SubmissionRecordsKey(w, key, actor, r);
    SubmitCaseKeepsInv(w, key, actor, r);
    RunKeepsInv(w1, between);
    RunExtends(w1, between);
    var w2 := Run(w1, between);
    assert IdExtends(w1, w2, id);
    RecordedKeyReplays(w2, id, byUniversalId, actor', r');
  }

  // ---------------------------------------------------------------- the amendment merge

  /** An amendment changes nothing outside the keys of its patch, nor outside its fields in a section. */
  lemma MergeFrame(caf: map<string, Json>, patch: map<string, Json>, key: string, field: string)
    ensures key !in SECTIONS && key !in patch ==> Field(Merge(caf, patch), key) == Field(caf, key)
    ensures key !in SECTIONS && key in patch ==> Field(Merge(caf, patch), key) == patch[key]
    ensures key in SECTIONS ==>
              Field(SectionFields(Merge(caf, patch), key), field) ==
              if field in SectionFields(patch, key) then SectionFields(patch, key)[field]
              else Field(SectionFields(caf, key), field)
  {
  }

  lemma MergeSectionsTwice(sections: set<string>, caf: map<string, Json>, patch: map<string, Json>)
    ensures var once := MergeSections(sections, caf, patch);
            MergeSections(sections, once, patch) == once
  {
    var once := MergeSections(sections, caf, patch);
    var twice := MergeSections(sections, once, patch);
    forall k | k in once
      ensures twice[k] == once[k]
    {
      if k in sections {
        assert SectionFields(once, k) + SectionFields(patch, k) == SectionFields(once, k);
      }
    }
    assert twice.Keys == once.Keys;
  }

  /** Applying an amendment twice is applying it once. */
  lemma MergeIdempotent(caf: map<string, Json>, patch: map<string, Json>)
    ensures Merge(Merge(caf, patch), patch) == Merge(caf, patch)
  {
    MergeSectionsTwice(SECTIONS, caf, patch);
  }

  /** The fields an amendment records carry the form before it to the form after it. */
  lemma ChangedFieldsReplayAmendment(before: map<string, Json>, amendment: Amendment, trail: seq<Path>)
    requires var after := Merge(before, amendment.patch);
             Addressable(Obj(before)) && Addressable(Obj(after)) && Proper(Obj(before)) && Proper(Obj(after)) &&
             amendment.changedFields == FormDiff(before, after) && Enumerates(trail, Obj(before), Obj(after))
    ensures (set p | p in Rendered(trail)) == amendment.changedFields
    ensures Patch(Obj(before), Obj(Merge(before, amendment.patch)), Rendered(trail)) ==
            Obj(Merge(before, amendment.patch))
  {
    var after := Merge(before, amendment.patch);
    PatchRestores(Obj(before), Obj(before), Obj(after), trail);
    ListingIsDiff(Obj(before), Obj(after), "", Rendered(trail), trail);
  }
}
