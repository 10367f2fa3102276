/** Every operation of the case lifecycle keeps the invariant, so every run does. */
module CafPreservation {
  import opened Options
  import opened Lists
  import opened Json
  import opened ApprovalTracks
  import opened DuplicateDetection
  import opened CaseIds
  import opened CafModel
  import opened CafInvariant

  // ---------------------------------------------------------------- lookup

  /** What an operation finds is a stored, sound case under its own id. */
  lemma FoundIsStored(w: World, key: string, actor: Actor)
    requires Inv(w) && Locate(w.cases, key, actor).Found?
    ensures var c := Locate(w.cases, key, actor).doc;
            c.caseId in w.cases && w.cases[c.caseId] == c && CaseSound(w, c.caseId) && MayAccess(c, actor)
  {
    var id := Resolve(w.cases, key).value;
    assert CaseSound(w, id);
  }

  // ---------------------------------------------------------------- drafts

  lemma {:induction false} CreateDraftKeepsInv(w: World, y: nat, m: nat, d: nat, suffix: nat, actor: Actor,
                                               v: Checked, now: int)
    requires Inv(w)
    ensures Inv(CreateDraft(w, DraftCaseId(y, m, d, suffix), actor, v, now).0)
  {
    var caseId := DraftCaseId(y, m, d, suffix);
    if v.valid && caseId !in w.cases {
      var c := NewDraft(caseId, actor, v.fields, now);
      FollowHeadThenPlain(Replay(w.events, caseId), CreateNotes(v)[0], Repeat(v.attachments, "document.uploaded.v1"));
      assert Unused(w, caseId);
      assert IsDraftId(caseId);
      CommitKeepsInv(w, c, CreateNotes(v));
    }
  }

  lemma UpdatedDraftSound(c: CaseDoc, v: Checked, tasks: seq<Task>, chain: Chain,
                          submission: Option<Submission>, counters: map<string, nat>)
    requires Sound(c, tasks, chain, submission, counters) && c.status == Draft
    ensures Sound(UpdatedDoc(c, v), tasks, FollowAll(chain, UpdateNotes(c, v)), submission, counters)
  {
    FollowHeadThenPlain(chain, UpdateNotes(c, v)[0], Repeat(v.attachments, "document.uploaded.v1"));
  }

  lemma {:induction false} UpdateDraftKeepsInv(w: World, key: string, actor: Actor, v: Checked)
    requires Inv(w)
    ensures Inv(UpdateDraft(w, key, actor, v).0)
  {
    var found := Locate(w.cases, key, actor);
    if found.Found? && found.doc.status == Draft && v.valid {
      FoundIsStored(w, key, actor);
      var c, id := found.doc, found.doc.caseId;
      UpdatedDraftSound(c, v, TasksOf(w.tasks, id), Replay(w.events, id), SubmissionOf(w.submissions, id), w.counters);
      CommitKeepsInv(w, UpdatedDoc(c, v), UpdateNotes(c, v));
    }
  }

  lemma {:induction false} ValidateDraftKeepsInv(w: World, key: string, actor: Actor)
    requires Inv(w)
    ensures Inv(ValidateDraft(w, key, actor).0)
  {
    var found := Locate(w.cases, key, actor);
    if found.Found? {
      FoundIsStored(w, key, actor);
      FollowOne(Replay(w.events, found.doc.caseId), Validation(found.doc));
      CommitKeepsInv(w, found.doc, [Validation(found.doc)]);
    }
  }

  // ---------------------------------------------------------------- submission

  lemma AttemptKeepsStatus(c: CaseDoc, actor: Actor, r: SubmitRequest, chain: Chain)
    requires chain == At(Some(c.status))
    ensures FollowAll(chain, AttemptNotes(c, actor, r)) == chain
  {
    var rest := if r.final.valid && VerdictFor(c, actor, r).isDuplicate then
        [Note("case.duplicate_detected.v1", Plain)] else [];
    FollowHeadThenPlain(chain, Validation(c), rest);
  }

  lemma SubmitMovesChain(c: CaseDoc, actor: Actor, r: SubmitRequest, chain: Chain, taskCount: nat)
    requires chain == At(Some(Draft)) && c.status == Draft
    ensures FollowAll(chain, SubmissionNotes(c, actor, r, taskCount)) == At(Some(Submitted))
  {
    AttemptKeepsStatus(c, actor, r, chain);
    FollowConcat(chain, AttemptNotes(c, actor, r), SubmittedNotes(taskCount));
    var head := Note("case.submitted.v1", StatusChange(Some(Draft), Submitted));
    var rest := [Note("acknowledgement.generated.v1", Plain)] + Repeat(taskCount, "task.created.v1");
    assert SubmittedNotes(taskCount) == [head] + rest;
    FollowHeadThenPlain(chain, head, rest);
  }

  /** A freshly counted id is new to every case. */
  lemma NextIdIsNew(w: World, year: nat)
    requires Inv(w)
    ensures var id := UniversalId(CASE_ID_PREFIX, year, NextSequence(w.counters, CounterKey(year)));
            forall b :: b in w.cases ==> w.cases[b].universalCaseId != Some(id)
  {
    var key := CounterKey(year);
    var id := UniversalId(CASE_ID_PREFIX, year, NextSequence(w.counters, key));
    forall b | b in w.cases
      ensures w.cases[b].universalCaseId != Some(id)
    {
      assert CaseSound(w, b);
      if w.cases[b].universalCaseId == Some(id) {
        var year': nat, sequence: nat :| id == UniversalId(CASE_ID_PREFIX, year', sequence) &&
          CounterKey(year') in w.counters && sequence <= w.counters[CounterKey(year')];
        IdInjective(CASE_ID_PREFIX, year, NextSequence(w.counters, key), year', sequence);
      }
    }
  }

  /** A submission leaves the case in step with its tasks, tracks and amendment history. */
  lemma SubmittedInStep(c: CaseDoc, actor: Actor, r: SubmitRequest, universalCaseId: string)
    ensures OnceSubmitted(SubmittedDoc(c, actor, r, universalCaseId), TasksFor(c, actor, r, universalCaseId),
                          Some(SubmissionFor(c, r)))
  {
    ListsAgree(Obj(c.cafData), c.caseId, universalCaseId, r.now);
    assert c.amendmentHistory[|c.amendmentHistory|..] == [];
  }

  lemma {:induction false} SubmittedSound(c: CaseDoc, actor: Actor, r: SubmitRequest, universalCaseId: string,
                                          tasks: seq<Task>, chain: Chain, submission: Option<Submission>,
                                          before: map<string, nat>, after: map<string, nat>)
    requires Sound(c, tasks, chain, submission, before) && c.status == Draft && IsIssued(universalCaseId, after)
    ensures var created := TasksFor(c, actor, r, universalCaseId);
            Sound(SubmittedDoc(c, actor, r, universalCaseId), tasks + created,
                  FollowAll(chain, SubmissionNotes(c, actor, r, |created|)), Some(SubmissionFor(c, r)), after)
  {
    var created := TasksFor(c, actor, r, universalCaseId);
    assert tasks + created == created;
    SubmitMovesChain(c, actor, r, chain, |created|);
    SubmittedInStep(c, actor, r, universalCaseId);
  }

  lemma NewIdIssued(w: World, c: CaseDoc, year: nat)
    requires c.universalCaseId.None?
    ensures IsIssued(IdFor(w, c, year), CountersFor(w, c, year)) && CountersGrow(w.counters, CountersFor(w, c, year))
  {
    assert CounterKey(year) in CountersFor(w, c, year);
  }

  lemma {:induction false} SubmitKeepsInv(w: World, c: CaseDoc, actor: Actor, r: SubmitRequest)
    requires Inv(w) && c.caseId in w.cases && w.cases[c.caseId] == c && c.status == Draft
    ensures Inv(Submit(w, c, actor, r))
  {
    var id, universalCaseId, counters := c.caseId, IdFor(w, c, r.year), CountersFor(w, c, r.year);
    assert CaseSound(w, id);
    NewIdIssued(w, c, r.year);
    SubmittedSound(c, actor, r, universalCaseId, TasksOf(w.tasks, id), Replay(w.events, id),
                   SubmissionOf(w.submissions, id), w.counters, counters);
    NextIdIsNew(w, r.year);
    var created := TasksFor(c, actor, r, universalCaseId);
    RewriteKeepsInv(w, SubmittedDoc(c, actor, r, universalCaseId), SubmissionNotes(c, actor, r, |created|), created,
                    counters, w.submissions[id := SubmissionFor(c, r)]);
  }

  lemma {:induction false} SubmitCaseKeepsInv(w: World, key: string, actor: Actor, r: SubmitRequest)
    requires Inv(w)
    ensures Inv(SubmitCase(w, key, actor, r).0)
  {
    var found := Locate(w.cases, key, actor);
    if found.Found? && found.doc.status == Draft {
      FoundIsStored(w, key, actor);
      var c := found.doc;
      if Admissible(c, actor, r) {
        SubmitKeepsInv(w, c, actor, r);
      } else {
        AttemptKeepsStatus(c, actor, r, Replay(w.events, c.caseId));
        CommitKeepsInv(w, c, AttemptNotes(c, actor, r));
      }
    }
  }

  // ---------------------------------------------------------------- after submission

  /** An amendment of a submitted case extends the replay of its form by one step. */
  lemma {:induction false} AmendmentExtendsReplay(c: CaseDoc, reason: string, patch: map<string, Json>,
                                                  tasks: seq<Task>, submission: Option<Submission>)
    requires OnceSubmitted(c, tasks, submission)
    ensures OnceSubmitted(AmendedDoc(c, reason, patch), tasks, submission)
  {
    var s, updated := submission.value, AmendedDoc(c, reason, patch);
    var since := c.amendmentHistory[s.amendments..];
    var a := updated.amendmentHistory[|c.amendmentHistory|];
    assert updated.amendmentHistory[s.amendments..] == since + [a];
    AmendedAppend(s.form, since, a);
  }

  lemma {:induction false} AmendedSound(c: CaseDoc, reason: string, patch: map<string, Json>, note: Note,
                                        tasks: seq<Task>, chain: Chain,
                     submission: Option<Submission>, counters: map<string, nat>)
    requires Sound(c, tasks, chain, submission, counters)
    requires note.payload == StatusChange(Some(c.status), AmendedDoc(c, reason, patch).status)
    ensures Sound(AmendedDoc(c, reason, patch), tasks, FollowAll(chain, [note]), submission, counters)
  {
    FollowOne(chain, note);
    if c.status != Draft {
      AmendmentExtendsReplay(c, reason, patch, tasks, submission);
    }
  }

  lemma {:induction false} AmendCaseKeepsInv(w: World, key: string, actor: Actor, reason: string,
                                             patch: map<string, Json>)
    requires Inv(w)
    ensures Inv(AmendCase(w, key, actor, reason, patch).0)
  {
    var found := Locate(w.cases, key, actor);
    if found.Found? && found.doc.status != Closed && found.doc.status != Withdrawn && reason != "" {
      FoundIsStored(w, key, actor);
      var c, id, updated := found.doc, found.doc.caseId, AmendedDoc(found.doc, reason, patch);
      var note := Note("case.amended.v1", StatusChange(Some(c.status), updated.status));
      AmendedSound(c, reason, patch, note, TasksOf(w.tasks, id), Replay(w.events, id),
                   SubmissionOf(w.submissions, id), w.counters);
      CommitKeepsInv(w, updated, [note]);
    }
  }

  lemma ResubmittedSound(c: CaseDoc, reason: string, changedFields: seq<string>, note: Note, tasks: seq<Task>,
                         chain: Chain,
                         submission: Option<Submission>, counters: map<string, nat>)
    requires Sound(c, tasks, chain, submission, counters) && c.status != Draft && c.status != Submitted
    requires note.payload == StatusChange(Some(c.status), ResponseSubmitted)
    ensures Sound(ResubmittedDoc(c, reason, changedFields), tasks, FollowAll(chain, [note]), submission, counters)
  {
    FollowOne(chain, note);
  }

  lemma {:induction false} ResubmitCaseKeepsInv(w: World, key: string, actor: Actor, reason: string,
                                                changedFields: seq<string>)
    requires Inv(w)
    ensures Inv(ResubmitCase(w, key, actor, reason, changedFields).0)
  {
    var found := Locate(w.cases, key, actor);
    if found.Found? && found.doc.status in {QueryRaised, ResponseSubmitted, Rejected, Reopened} && reason != "" {
      FoundIsStored(w, key, actor);
      var c, id := found.doc, found.doc.caseId;
      var note := Note("case.resubmitted.v1", StatusChange(Some(c.status), ResponseSubmitted));
      ResubmittedSound(c, reason, changedFields, note, TasksOf(w.tasks, id), Replay(w.events, id),
                       SubmissionOf(w.submissions, id), w.counters);
      CommitKeepsInv(w, ResubmittedDoc(c, reason, changedFields), [note]);
    }
  }

  // ---------------------------------------------------------------- every run

  lemma {:induction false} StepKeepsInv(w: World, op: Op)
    requires Inv(w)
    ensures Inv(Apply(w, op).0)
  {
    match op
    case OpCreateDraft(y, m, d, suffix, actor, v, now) => CreateDraftKeepsInv(w, y, m, d, suffix, actor, v, now);
    case OpUpdateDraft(key, actor, v) => UpdateDraftKeepsInv(w, key, actor, v);
    case OpValidateDraft(key, actor) => ValidateDraftKeepsInv(w, key, actor);
    case OpSubmitCase(key, actor, r) => SubmitCaseKeepsInv(w, key, actor, r);
    case OpAmendCase(key, actor, reason, patch) => AmendCaseKeepsInv(w, key, actor, reason, patch);
    case OpResubmitCase(key, actor, reason, changedFields) =>
      ResubmitCaseKeepsInv(w, key, actor, reason, changedFields);
  }

  lemma {:induction false} RunKeepsInv(w: World, ops: seq<Op>)
    requires Inv(w)
    ensures Inv(Run(w, ops))
  {
    if ops != [] {
      RunKeepsInv(w, ops[..|ops| - 1]);
      StepKeepsInv(Run(w, ops[..|ops| - 1]), ops[|ops| - 1]);
    }
  }

  lemma EmptyWorldInv()
    ensures Inv(EMPTY_WORLD)
  {
    assert Timeline([]) == [];
    forall id
      ensures Unused(EMPTY_WORLD, id)
    {
      assert Filter([], OfCase(id)) == [];
    }
  }

  /** Every state a run of the service's operations can reach. */
  lemma {:induction false} ReachableInv(ops: seq<Op>)
    ensures Inv(Run(EMPTY_WORLD, ops))
  {
    EmptyWorldInv();
    RunKeepsInv(EMPTY_WORLD, ops);
  }
}
