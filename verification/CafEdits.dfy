/**
 What each operation of the case service stores, field by field, when it is refused and for
 what cause (web/src/services/caf.service.js), and over runs: which form a submission assesses.
 */
module CafEdits {
  import opened Options
  import opened Json
  import opened FieldDiff
  import opened Lists
  import opened ApprovalTracks
  import opened DuplicateDetection
  import opened CaseIds
  import opened CafModel
  import opened CafInvariant
  import opened CafPreservation
  import opened CafTheorems

  // ---------------------------------------------------------------- who may do what

  /** Some case goes by this name, as its case id or as its universal id. */
  predicate GoesBy(c: CaseDoc, key: string)
  {
    c.caseId == key || c.universalCaseId == Some(key)
  }

  /** The investor is named, the case has an owner, and that is someone else; administrators may. */
  predicate Stranger(c: CaseDoc, actor: Actor)
  {
    actor.id != "" && c.owner != "" && actor.id != c.owner && !actor.admin
  }

  /** A name finds nothing, a case the actor may not see, or the case that goes by it. */
  lemma {:induction false} LocateExact(w: World, key: string, actor: Actor)
    requires Inv(w)
    ensures var found := Locate(w.cases, key, actor);
            (found == Missing(NotFound) <==> forall id :: id in w.cases ==> !GoesBy(w.cases[id], key)) &&
            (found == Missing(AccessDenied) <==>
              exists id :: id in w.cases && GoesBy(w.cases[id], key) && Stranger(w.cases[id], actor)) &&
            (found.Found? <==>
              exists id :: id in w.cases && GoesBy(w.cases[id], key) && !Stranger(w.cases[id], actor)) &&
            (found.Found? ==> GoesBy(found.doc, key) && found.doc.caseId in w.cases &&
                              w.cases[found.doc.caseId] == found.doc)
  {
    forall id | id in w.cases
      ensures w.cases[id].caseId == id
      ensures GoesBy(w.cases[id], key) ==> Resolve(w.cases, key) == Some(id)
    {
      assert CaseSound(w, id);
      LookupFindsTheCase(w, id);
    }
  }

  // ---------------------------------------------------------------- what stays

  /** Only the case with this id may differ. */
  ghost predicate OthersKept(w: World, later: World, id: string)
  {
    later.cases.Keys == w.cases.Keys + {id} &&
    (forall other :: other in w.cases && other != id ==> later.cases[other] == w.cases[other]) &&
    later.tasks == w.tasks && later.counters == w.counters && later.submissions == w.submissions
  }

  /** The log gets an event of this name and payload about the case, and `more` further ones of one name. */
  ghost predicate Logs(w: World, later: World, id: string, name: string, payload: Payload, more: nat, extra: string)
  {
    var n := |w.events|;
    |later.events| == n + 1 + more && later.events[..n] == w.events &&
    later.events[n] == DomainEvent(n, name, id, payload) &&
    forall i :: n < i < |later.events| ==> later.events[i] == DomainEvent(i, extra, id, Plain)
  }

  lemma CommitStores(w: World, c: CaseDoc, notes: seq<Note>)
    ensures OthersKept(w, Commit(w, c, notes), c.caseId) && Commit(w, c, notes).cases[c.caseId] == c
  {
  }

  lemma CommitLogs(w: World, c: CaseDoc, head: Note, more: nat, extra: string)
    ensures Logs(w, Commit(w, c, [head] + Repeat(more, extra)), c.caseId, head.eventName, head.payload, more, extra)
  {
  }

  lemma CommitLogsOne(w: World, c: CaseDoc, note: Note)
    ensures Logs(w, Commit(w, c, [note]), c.caseId, note.eventName, note.payload, 0, "")
  {
  }

  /** What an operation finds is stored under its own id. */
  lemma FoundStored(w: World, key: string, actor: Actor)
    requires Inv(w) && Locate(w.cases, key, actor).Found?
    ensures var c := Locate(w.cases, key, actor).doc; c.caseId in w.cases && w.cases[c.caseId] == c
  {
    FoundIsStored(w, key, actor);
  }

  // ---------------------------------------------------------------- createDraft

  /** A draft is stored exactly when its form is valid and its id is free; a refusal changes nothing. */
  lemma CreateStores(w: World, id: string, actor: Actor, v: Checked, now: int)
    ensures var (w', r) := CreateDraft(w, id, actor, v, now);
            (r == Done <==> v.valid && id !in w.cases) &&
            (r == Refused(ValidationError) <==> !v.valid) &&
            (r == Refused(DuplicateKey) <==> v.valid && id in w.cases) &&
            (r != Done ==> w' == w) &&
            (r == Done ==>
              OthersKept(w, w', id) &&
              var c := w'.cases[id];
              c.caseId == id && c.owner == actor.id && c.createdAt == now && c.status == Draft &&
              c.cafData == v.fields && c.draftVersion == 1 &&
              c.sourceSystem == TextAt(Obj(v.fields), "sourceSystem") &&
              c.sourceReferenceId == TextAt(Obj(v.fields), "sourceReferenceId") &&
              c.universalCaseId == None && c.acknowledgement == None && c.duplicateCheck == None &&
              c.requiredDepartments == [] && c.approvalTracks == [] && c.amendmentHistory == [] &&
              c.resubmissionHistory == [] && c.submissionIdempotencyKeys == [])
  {
  }

  lemma CreateLogs(w: World, id: string, actor: Actor, v: Checked, now: int)
    requires CreateDraft(w, id, actor, v, now).1 == Done
    ensures Logs(w, CreateDraft(w, id, actor, v, now).0, id, "case.draft_created.v1", StatusChange(None, Draft),
                 v.attachments, "document.uploaded.v1")
  {
    CommitLogs(w, NewDraft(id, actor, v.fields, now), Note("case.draft_created.v1", StatusChange(None, Draft)),
               v.attachments, "document.uploaded.v1");
  }

  // ---------------------------------------------------------------- updateDraft

  /**
   An update stores every field of the validated form and no other, and counts the version;
   everything else in the document, and every other case, stays.
   */
  lemma UpdateStores(w: World, key: string, actor: Actor, v: Checked, field: string)
    requires Inv(w) && UpdateDraft(w, key, actor, v).1 == Done
    ensures var w', c := UpdateDraft(w, key, actor, v).0, Locate(w.cases, key, actor).doc;
            OthersKept(w, w', c.caseId) &&
            var c' := w'.cases[c.caseId];
            c'.cafData.Keys == v.fields.Keys && Field(c'.cafData, field) == Field(v.fields, field) &&
            c'.draftVersion == c.draftVersion + 1 && c' == c.(cafData := v.fields, draftVersion := c'.draftVersion)
  {
    FoundStored(w, key, actor);
    var c := Locate(w.cases, key, actor).doc;
    CommitStores(w, UpdatedDoc(c, v), UpdateNotes(c, v));
  }

  lemma UpdateLogs(w: World, key: string, actor: Actor, v: Checked)
    requires UpdateDraft(w, key, actor, v).1 == Done
    ensures Logs(w, UpdateDraft(w, key, actor, v).0, Locate(w.cases, key, actor).doc.caseId, "case.draft_updated.v1",
                 StatusChange(Some(Draft), Draft), v.attachments, "document.uploaded.v1")
  {
    CommitLogs(w, UpdatedDoc(Locate(w.cases, key, actor).doc, v),
               Note("case.draft_updated.v1", StatusChange(Some(Draft), Draft)), v.attachments, "document.uploaded.v1");
  }

  /** When it is answered Done, and the cause of each refusal; a refusal changes nothing. */
  lemma UpdateIff(w: World, key: string, actor: Actor, v: Checked)
    ensures var (w', r) := UpdateDraft(w, key, actor, v);
            var found := Locate(w.cases, key, actor);
            (r == Done <==> found.Found? && found.doc.status == Draft && v.valid) &&
            (r == Refused(CaseNotEditable) <==> found.Found? && found.doc.status != Draft) &&
            (r == Refused(ValidationError) <==> found.Found? && found.doc.status == Draft && !v.valid) &&
            (found.Missing? ==> r == Refused(found.error)) && (r != Done ==> w' == w)
  {
  }

  // ---------------------------------------------------------------- validateDraft

  /** A validation stores nothing but its event. */
  lemma ValidateStores(w: World, key: string, actor: Actor)
    requires Inv(w)
    ensures var (w', r) := ValidateDraft(w, key, actor);
            var found := Locate(w.cases, key, actor);
            if found.Missing? then r == Refused(found.error) && w' == w
            else
              r == Done && w'.cases == w.cases && OthersKept(w, w', found.doc.caseId) &&
              Logs(w, w', found.doc.caseId, "case.validation_requested.v1",
                   StatusChange(Some(found.doc.status), found.doc.status), 0, "")
  {
    var found := Locate(w.cases, key, actor);
    if found.Found? {
      FoundStored(w, key, actor);
      CommitStores(w, found.doc, [Validation(found.doc)]);
      CommitLogsOne(w, found.doc, Validation(found.doc));
    }
  }

  // ---------------------------------------------------------------- amendCase

  /**
   An amendment stores the merged form and one more entry with its number, reason, patch and
   the diff of the two forms; a draft stays one and any other case is reopened.
   */
  lemma AmendStores(w: World, key: string, actor: Actor, reason: string, patch: map<string, Json>)
    requires Inv(w) && AmendCase(w, key, actor, reason, patch).1 == Done
    ensures var w', c := AmendCase(w, key, actor, reason, patch).0, Locate(w.cases, key, actor).doc;
            OthersKept(w, w', c.caseId) &&
            var c', n := w'.cases[c.caseId], |c.amendmentHistory|;
            c'.cafData == Merge(c.cafData, patch) &&
            c'.status == (if c.status == Draft then Draft else Reopened) &&
            |c'.amendmentHistory| == n + 1 && c'.amendmentHistory[..n] == c.amendmentHistory &&
            c'.amendmentHistory[n] ==
              Amendment(n + 1, reason, patch, ChangedPaths(Obj(c.cafData), Obj(c'.cafData), "")) &&
            c' == c.(cafData := c'.cafData, status := c'.status, amendmentHistory := c'.amendmentHistory)
  {
    FoundStored(w, key, actor);
    var updated := AmendedDoc(Locate(w.cases, key, actor).doc, reason, patch);
    CommitStores(w, updated, [AmendmentNote(w, key, actor)]);
  }

  /** The one event of an amendment. */
  ghost function AmendmentNote(w: World, key: string, actor: Actor): Note
    requires Locate(w.cases, key, actor).Found?
  {
    var status := Locate(w.cases, key, actor).doc.status;
    Note("case.amended.v1", StatusChange(Some(status), if status == Draft then Draft else Reopened))
  }

  lemma AmendLogs(w: World, key: string, actor: Actor, reason: string, patch: map<string, Json>)
    requires AmendCase(w, key, actor, reason, patch).1 == Done
    ensures var c := Locate(w.cases, key, actor).doc;
            Logs(w, AmendCase(w, key, actor, reason, patch).0, c.caseId, "case.amended.v1",
                 StatusChange(Some(c.status), if c.status == Draft then Draft else Reopened), 0, "")
  {
    CommitLogsOne(w, AmendedDoc(Locate(w.cases, key, actor).doc, reason, patch), AmendmentNote(w, key, actor));
  }

  lemma AmendIff(w: World, key: string, actor: Actor, reason: string, patch: map<string, Json>)
    ensures var (w', r) := AmendCase(w, key, actor, reason, patch);
            var found := Locate(w.cases, key, actor);
            var over := found.Found? && (found.doc.status == Closed || found.doc.status == Withdrawn);
            (r == Done <==> found.Found? && !over && reason != "") &&
            (r == Refused(AmendmentNotAllowed) <==> over) &&
            (r == Refused(ValidationError) <==> found.Found? && !over && reason == "") &&
            (found.Missing? ==> r == Refused(found.error)) && (r != Done ==> w' == w)
  {
  }

  // ---------------------------------------------------------------- resubmitCase

  /** A resubmission stores one more entry with its number, reason and fields, and the status. */
  lemma ResubmitStores(w: World, key: string, actor: Actor, reason: string, changedFields: seq<string>)
    requires Inv(w) && ResubmitCase(w, key, actor, reason, changedFields).1 == Done
    ensures var w', c := ResubmitCase(w, key, actor, reason, changedFields).0, Locate(w.cases, key, actor).doc;
            OthersKept(w, w', c.caseId) &&
            var c', n := w'.cases[c.caseId], |c.resubmissionHistory|;
            c'.status == ResponseSubmitted &&
            |c'.resubmissionHistory| == n + 1 && c'.resubmissionHistory[..n] == c.resubmissionHistory &&
            c'.resubmissionHistory[n] == Resubmission(n + 1, reason, changedFields) &&
            c' == c.(status := c'.status, resubmissionHistory := c'.resubmissionHistory) &&
            Logs(w, w', c.caseId, "case.resubmitted.v1", StatusChange(Some(c.status), ResponseSubmitted), 0, "")
  {
    FoundStored(w, key, actor);
    var c := Locate(w.cases, key, actor).doc;
    var note := Note("case.resubmitted.v1", StatusChange(Some(c.status), ResponseSubmitted));
    CommitStores(w, ResubmittedDoc(c, reason, changedFields), [note]);
    CommitLogsOne(w, ResubmittedDoc(c, reason, changedFields), note);
  }

  lemma ResubmitIff(w: World, key: string, actor: Actor, reason: string, changedFields: seq<string>)
    ensures var (w', r) := ResubmitCase(w, key, actor, reason, changedFields);
            var found := Locate(w.cases, key, actor);
            var allowed := found.Found? && (found.doc.status == QueryRaised || found.doc.status == ResponseSubmitted ||
                                         found.doc.status == Rejected || found.doc.status == Reopened);
            (r == Done <==> allowed && reason != "") &&
            (r == Refused(ResubmissionNotAllowed) <==> found.Found? && !allowed) &&
            (r == Refused(ValidationError) <==> allowed && reason == "") &&
            (found.Missing? ==> r == Refused(found.error)) && (r != Done ==> w' == w)
  {
  }

  // ---------------------------------------------------------------- submitCase

  /**
   A submission of a case that has left draft answers with the tasks when its key is given
   and on record, and is refused for the status otherwise; nothing is changed by either.
   */
  lemma SubmittedAlready(w: World, key: string, actor: Actor, r: SubmitRequest)
    requires Inv(w)
    ensures var (w', outcome) := SubmitCase(w, key, actor, r);
            var found := Locate(w.cases, key, actor);
            (found.Missing? ==> outcome == Refused(found.error) && w' == w) &&
            (outcome.Replayed? <==> found.Found? && found.doc.status != Draft && r.idempotencyKey != "" &&
                                    r.idempotencyKey in found.doc.submissionIdempotencyKeys) &&
            (outcome.Replayed? ==> outcome.tasks == TasksOf(w.tasks, found.doc.caseId) && w' == w) &&
            (outcome == Refused(InvalidCaseStatus) <==>
              found.Found? && found.doc.status != Draft && !outcome.Replayed?) &&
            (outcome == Refused(InvalidCaseStatus) ==> w' == w)
  {
    if Locate(w.cases, key, actor).Found? {
      FoundIsStored(w, key, actor);
    }
  }

  /** What a submission may write of a document, and what it must. */
  ghost predicate SubmittedFrom(c: CaseDoc, c': CaseDoc)
  {
    c'.status == Submitted &&
    c' == c.(universalCaseId := c'.universalCaseId, cafData := c'.cafData, status := c'.status,
             requiredDepartments := c'.requiredDepartments, approvalTracks := c'.approvalTracks,
             acknowledgement := c'.acknowledgement, duplicateCheck := c'.duplicateCheck,
             submissionIdempotencyKeys := c'.submissionIdempotencyKeys)
  }

  /** One case, its submission record and tasks for it are written, and nothing of any other case. */
  ghost predicate OnlySubmits(w: World, w': World, c: CaseDoc)
  {
    w'.cases.Keys == w.cases.Keys + {c.caseId} && w'.submissions.Keys == w.submissions.Keys + {c.caseId} &&
    (forall other :: other in w.cases && other != c.caseId ==> w'.cases[other] == w.cases[other]) &&
    (forall other :: other in w.submissions && other != c.caseId ==>
      w'.submissions[other] == w.submissions[other]) &&
    SubmittedFrom(c, w'.cases[c.caseId]) &&
    w'.submissions[c.caseId] == Submission(c.cafData, w'.cases[c.caseId].cafData, |c.amendmentHistory|)
  }

  lemma SubmitOnly(w: World, c: CaseDoc, actor: Actor, r: SubmitRequest)
    ensures OnlySubmits(w, Submit(w, c, actor, r), c)
  {
    SubmitStores(w, c, actor, r);
  }

  /** The frame of an admitted submission: which documents and fields it writes, and the form it assessed. */
  lemma SubmissionStores(w: World, key: string, actor: Actor, r: SubmitRequest)
    requires Inv(w) && SubmitCase(w, key, actor, r).1 == Done
    ensures var c := Locate(w.cases, key, actor).doc;
            c.caseId in w.cases && c.status == Draft && c.universalCaseId == None &&
            OnlySubmits(w, SubmitCase(w, key, actor, r).0, c)
  {
    DraftIsBare(w, key, actor);
    FoundStored(w, key, actor);
    SubmitOnly(w, Locate(w.cases, key, actor).doc, actor, r);
  }

  lemma DraftIsBare(w: World, key: string, actor: Actor)
    requires Inv(w) && Locate(w.cases, key, actor).Found? && Locate(w.cases, key, actor).doc.status == Draft
    ensures var c := Locate(w.cases, key, actor).doc; c.universalCaseId == None && c.submissionIdempotencyKeys == []
  {
    FoundIsStored(w, key, actor);
  }

  /** The counter of the year moves by one and gives the id, and the acknowledgement the same number. */
  ghost predicate TakesNextNumber(w: World, w': World, caseId: string, year: nat)
  {
    var counter := CounterKey(year);
    w'.counters.Keys == w.counters.Keys + {counter} &&
    (forall k :: k in w.counters && k != counter ==> w'.counters[k] == w.counters[k]) &&
    w'.counters[counter] == 1 + (if counter in w.counters then w.counters[counter] else 0) &&
    caseId in w'.cases &&
    w'.cases[caseId].universalCaseId == Some(UniversalId(CASE_ID_PREFIX, year, w'.counters[counter])) &&
    w'.cases[caseId].acknowledgement == Some(UniversalId(ACK_PREFIX, year, w'.counters[counter]))
  }

  lemma SubmitTakesNextNumber(w: World, c: CaseDoc, actor: Actor, r: SubmitRequest)
    requires c.universalCaseId == None
    ensures TakesNextNumber(w, Submit(w, c, actor, r), c.caseId, r.year)
  {
    SubmitStores(w, c, actor, r);
    AcknowledgementOfId(ACK_PREFIX, CASE_ID_PREFIX, r.year, NextSequence(w.counters, CounterKey(r.year)));
  }

  /** An admitted submission takes the next number of its year, and records its key alone. */
  lemma SubmissionNumbers(w: World, key: string, actor: Actor, r: SubmitRequest)
    requires Inv(w) && SubmitCase(w, key, actor, r).1 == Done
    ensures var w', id := SubmitCase(w, key, actor, r).0, Locate(w.cases, key, actor).doc.caseId;
            TakesNextNumber(w, w', id, r.year) &&
            w'.cases[id].submissionIdempotencyKeys == if r.idempotencyKey != "" then [r.idempotencyKey] else []
  {
    DraftIsBare(w, key, actor);
    var c := Locate(w.cases, key, actor).doc;
    SubmitTakesNextNumber(w, c, actor, r);
    SubmitStores(w, c, actor, r);
    FirstKey(r.idempotencyKey);
  }

  lemma FirstKey(key: string)
    ensures WithKey([], key) == if key != "" then [key] else []
  {
    assert [] + [key] == [key];
    assert Unique([key]) == [key] by {
      assert [key][..0] == [];
      assert Unique<string>([]) == [];
    }
  }

  /** It stores the verdict on the draft's form: no source shared with any candidate. */
  lemma SubmissionVerdict(w: World, key: string, actor: Actor, r: SubmitRequest)
    requires SubmitCase(w, key, actor, r).1 == Done
    ensures var w', c := SubmitCase(w, key, actor, r).0, Locate(w.cases, key, actor).doc;
            c.caseId in w'.cases && w'.cases[c.caseId].duplicateCheck.Some? &&
            var v := w'.cases[c.caseId].duplicateCheck.value;
            v == VerdictOn(FormOf(Obj(c.cafData)), actor.id, r.candidates) && !v.blocking &&
            (v.isDuplicate <==> SomeRuleFires(c, actor, r.candidates))
  {
    var c := Locate(w.cases, key, actor).doc;
    SubmitStores(w, c, actor, r);
    DuplicateIffSomeRuleFires(FormOf(Obj(c.cafData)), actor.id, r.candidates);
  }

  /** One task per department, in order, each of its department's type and title, due its SLA after now. */
  ghost predicate TasksFollow(w: World, w': World, c: CaseDoc, ds: seq<Department>, now: int)
  {
    var n := |w.tasks|;
    c.caseId in w'.cases && |w'.tasks| == n + |ds| && w'.tasks[..n] == w.tasks &&
    forall i :: 0 <= i < |ds| ==>
      TaskOf(w'.tasks[n + i], c.caseId, w'.cases[c.caseId].universalCaseId, ds[i], now)
  }

  ghost predicate TaskOf(t: Task, caseId: string, universalCaseId: Option<string>, d: Department, now: int)
  {
    t.caseId == caseId && Some(t.universalCaseId) == universalCaseId && t.departmentCode == d &&
    t.taskType == TaskType(d) && t.title == Title(d) && Scheduled(t, SlaDays(d), now)
  }

  /** The initial tasks are the ones of the departments whose tracks they come from. */
  lemma TasksOfTracks(caseId: string, universalCaseId: string, ds: seq<Department>, now: int)
    ensures var created := InitialTasks(caseId, universalCaseId, Tracks(ds), now);
            |created| == |ds| &&
            forall i :: 0 <= i < |ds| ==> TaskOf(created[i], caseId, Some(universalCaseId), ds[i], now)
  {
  }

  lemma SubmitTasksFollow(w: World, c: CaseDoc, actor: Actor, r: SubmitRequest)
    ensures TasksFollow(w, Submit(w, c, actor, r), c, NeededDepartments(Obj(c.cafData)), r.now)
  {
    SubmitStores(w, c, actor, r);
    TasksOfTracks(c.caseId, IdFor(w, c, r.year), NeededDepartments(Obj(c.cafData)), r.now);
  }

  /** An admitted submission creates the tasks of the departments the draft needs, and no other. */
  lemma SubmissionTasks(w: World, key: string, actor: Actor, r: SubmitRequest)
    requires SubmitCase(w, key, actor, r).1 == Done
    ensures var c := Locate(w.cases, key, actor).doc;
            TasksFollow(w, SubmitCase(w, key, actor, r).0, c, NeededDepartments(Obj(c.cafData)), r.now)
  {
    SubmitTasksFollow(w, Locate(w.cases, key, actor).doc, actor, r);
  }

  /** The two events every attempt may leave: a validation, and a duplicate if one was found. */
  ghost predicate AttemptLogged(w: World, w': World, id: string, reported: bool)
  {
    var n := |w.events|;
    |w'.events| > n && w'.events[..n] == w.events &&
    w'.events[n] == DomainEvent(n, "case.validation_requested.v1", id, StatusChange(Some(Draft), Draft)) &&
    (reported ==> |w'.events| > n + 1 &&
                  w'.events[n + 1] == DomainEvent(n + 1, "case.duplicate_detected.v1", id, Plain))
  }

  /** What an admitted submission adds to them: itself, its acknowledgement and its tasks. */
  ghost predicate SubmissionLogged(w: World, w': World, id: string, from: nat)
  {
    var n := |w.events| + from;
    |w'.events| == n + 2 + |w'.tasks| - |w.tasks| && |w'.tasks| >= |w.tasks| &&
    w'.events[n] == DomainEvent(n, "case.submitted.v1", id, StatusChange(Some(Draft), Submitted)) &&
    w'.events[n + 1] == DomainEvent(n + 1, "acknowledgement.generated.v1", id, Plain) &&
    forall i :: n + 1 < i < |w'.events| ==> w'.events[i] == DomainEvent(i, "task.created.v1", id, Plain)
  }

  lemma SubmitAttemptLogged(w: World, c: CaseDoc, actor: Actor, r: SubmitRequest)
    requires c.status == Draft
    ensures AttemptLogged(w, Submit(w, c, actor, r), c.caseId, r.final.valid && VerdictFor(c, actor, r).isDuplicate)
  {
  }

  lemma SubmitLogged(w: World, c: CaseDoc, actor: Actor, r: SubmitRequest)
    requires c.status == Draft
    ensures var reported := r.final.valid && VerdictFor(c, actor, r).isDuplicate;
            SubmissionLogged(w, Submit(w, c, actor, r), c.caseId, if reported then 2 else 1)
  {
  }

  lemma RefusalLogged(w: World, c: CaseDoc, actor: Actor, r: SubmitRequest)
    requires c.status == Draft
    ensures var w' := Commit(w, c, AttemptNotes(c, actor, r));
            var reported := r.final.valid && VerdictFor(c, actor, r).isDuplicate;
            AttemptLogged(w, w', c.caseId, reported) && |w'.events| == |w.events| + if reported then 2 else 1
  {
  }

  /** The events of an attempt on a draft: a duplicate is reported exactly when a valid form has one. */
  lemma AttemptLogs(w: World, key: string, actor: Actor, r: SubmitRequest)
    requires Locate(w.cases, key, actor).Found? && Locate(w.cases, key, actor).doc.status == Draft
    ensures var (w', outcome) := SubmitCase(w, key, actor, r);
            var c := Locate(w.cases, key, actor).doc;
            var reported := r.final.valid && SomeRuleFires(c, actor, r.candidates);
            AttemptLogged(w, w', c.caseId, reported) &&
            if outcome == Done then SubmissionLogged(w, w', c.caseId, if reported then 2 else 1)
            else |w'.events| == |w.events| + if reported then 2 else 1
  {
    var c := Locate(w.cases, key, actor).doc;
    DuplicateIffSomeRuleFires(FormOf(Obj(c.cafData)), actor.id, r.candidates);
    SubmitAttemptLogged(w, c, actor, r);
    SubmitLogged(w, c, actor, r);
    RefusalLogged(w, c, actor, r);
  }

  // ---------------------------------------------------------------- the form over runs

  /** The case of this id goes by this name. */
  predicate Names(w: World, id: string, key: string)
  {
    id in w.cases && GoesBy(w.cases[id], key)
  }

  /** The form one operation leaves for a draft, seen from outside: what was accepted about it. */
  ghost function EditedBy(w: World, op: Op, outcome: Outcome, id: string, form: Option<map<string, Json>>)
    : Option<map<string, Json>>
  {
    if outcome != Done then form
    else
      match op
      case OpCreateDraft(y, m, d, suffix, _, v, _) =>
        if DraftCaseId(y, m, d, suffix) == id then Some(v.fields) else form
      case OpUpdateDraft(key, _, v) => if Names(w, id, key) then Some(v.fields) else form
      case OpAmendCase(key, _, _, patch) =>
        if Names(w, id, key) && w.cases[id].status == Draft && form.Some? then Some(Merge(form.value, patch)) else form
      case _ => form
  }

  /** The form of the last accepted create or update of a case, with the draft amendments since merged in. */
  ghost function LastEdit(ops: seq<Op>, id: string): Option<map<string, Json>>
  {
    if ops == [] then None
    else
      var earlier, op := ops[..|ops| - 1], ops[|ops| - 1];
      var w := Run(EMPTY_WORLD, earlier);
      EditedBy(w, op, Apply(w, op).1, id, LastEdit(earlier, id))
  }

  /** The stored draft is this form, or the submission assessed it. */
  ghost predicate HoldsForm(w: World, id: string, form: Option<map<string, Json>>)
  {
    if id !in w.cases then form == None
    else if w.cases[id].status == Draft then form == Some(w.cases[id].cafData)
    else id in w.submissions && form == Some(w.submissions[id].assessed)
  }

  /** One document rewritten: a draft holds the new form, any other case is as submitted. */
  lemma RewriteHolds(w: World, later: World, c: CaseDoc, id: string, form: Option<map<string, Json>>,
                     edited: Option<map<string, Json>>)
    requires HoldsForm(w, id, form) && c.caseId in w.cases && w.cases[c.caseId] == c && OthersKept(w, later, c.caseId)
    requires c.status == Draft <==> later.cases[c.caseId].status == Draft
    requires edited == if id == c.caseId && c.status == Draft then Some(later.cases[id].cafData) else form
    ensures HoldsForm(later, id, edited)
  {
  }

  /** A submission assesses the form of the draft. */
  lemma SubmittedHolds(w: World, later: World, c: CaseDoc, id: string, form: Option<map<string, Json>>)
    requires HoldsForm(w, id, form) && c.caseId in w.cases && w.cases[c.caseId] == c && c.status == Draft
    requires OnlySubmits(w, later, c)
    ensures HoldsForm(later, id, form)
  {
  }

  /** Of two names for a case the lookup by the one finds, both are its own. */
  lemma NamesFound(w: World, key: string, actor: Actor, id: string)
    requires Inv(w) && Locate(w.cases, key, actor).Found?
    ensures Names(w, id, key) <==> id == Locate(w.cases, key, actor).doc.caseId
  {
    FoundStored(w, key, actor);
    LocateExact(w, key, actor);
    if Names(w, id, key) {
      assert CaseSound(w, id);
      LookupFindsTheCase(w, id);
    }
  }

  lemma UpdateHolds(w: World, key: string, actor: Actor, v: Checked, id: string, form: Option<map<string, Json>>)
    requires Inv(w) && HoldsForm(w, id, form)
    ensures var (w', outcome) := UpdateDraft(w, key, actor, v);
            HoldsForm(w', id, EditedBy(w, OpUpdateDraft(key, actor, v), outcome, id, form))
  {
    UpdateIff(w, key, actor, v);
    if UpdateDraft(w, key, actor, v).1 == Done {
      UpdateStores(w, key, actor, v, "");
      NamesFound(w, key, actor, id);
    }
  }

  lemma CreateHolds(w: World, op: Op, id: string, form: Option<map<string, Json>>)
    requires op.OpCreateDraft? && HoldsForm(w, id, form)
    ensures var (w', outcome) := CreateDraft(w, DraftCaseId(op.y, op.m, op.d, op.suffix), op.actor, op.v, op.now);
            HoldsForm(w', id, EditedBy(w, op, outcome, id, form))
  {
    CreateStores(w, DraftCaseId(op.y, op.m, op.d, op.suffix), op.actor, op.v, op.now);
  }

  lemma ValidateHolds(w: World, key: string, actor: Actor, id: string, form: Option<map<string, Json>>)
    requires Inv(w) && HoldsForm(w, id, form)
    ensures HoldsForm(ValidateDraft(w, key, actor).0, id, form)
  {
    ValidateStores(w, key, actor);
  }

  /** What an accepted amendment is seen to do from outside. */
  lemma AmendEdits(w: World, key: string, actor: Actor, reason: string, patch: map<string, Json>, id: string,
                   form: Option<map<string, Json>>)
    requires Inv(w) && Locate(w.cases, key, actor).Found? && HoldsForm(w, id, form)
    ensures var c := Locate(w.cases, key, actor).doc;
            EditedBy(w, OpAmendCase(key, actor, reason, patch), Done, id, form) ==
            if id == c.caseId && c.status == Draft then Some(Merge(c.cafData, patch)) else form
  {
    NamesFound(w, key, actor, id);
    FoundStored(w, key, actor);
  }

  lemma AmendHoldsDone(w: World, key: string, actor: Actor, reason: string, patch: map<string, Json>, id: string,
                       form: Option<map<string, Json>>)
    requires Inv(w) && HoldsForm(w, id, form) && AmendCase(w, key, actor, reason, patch).1 == Done
    ensures HoldsForm(AmendCase(w, key, actor, reason, patch).0, id,
                      EditedBy(w, OpAmendCase(key, actor, reason, patch), Done, id, form))
  {
    var w', c := AmendCase(w, key, actor, reason, patch).0, Locate(w.cases, key, actor).doc;
    var edited := EditedBy(w, OpAmendCase(key, actor, reason, patch), Done, id, form);
    AmendEdits(w, key, actor, reason, patch, id, form);
    FoundStored(w, key, actor);
    AmendStores(w, key, actor, reason, patch);
    RewriteHolds(w, w', c, id, form, edited);
  }

  lemma AmendHolds(w: World, key: string, actor: Actor, reason: string, patch: map<string, Json>, id: string,
                   form: Option<map<string, Json>>)
    requires Inv(w) && HoldsForm(w, id, form)
    ensures var (w', outcome) := AmendCase(w, key, actor, reason, patch);
            HoldsForm(w', id, EditedBy(w, OpAmendCase(key, actor, reason, patch), outcome, id, form))
  {
    AmendIff(w, key, actor, reason, patch);
    if AmendCase(w, key, actor, reason, patch).1 == Done {
      AmendHoldsDone(w, key, actor, reason, patch, id, form);
    }
  }

  lemma ResubmitHolds(w: World, key: string, actor: Actor, reason: string, changedFields: seq<string>, id: string,
                      form: Option<map<string, Json>>)
    requires Inv(w) && HoldsForm(w, id, form)
    ensures HoldsForm(ResubmitCase(w, key, actor, reason, changedFields).0, id, form)
  {
    ResubmitIff(w, key, actor, reason, changedFields);
    if ResubmitCase(w, key, actor, reason, changedFields).1 == Done {
      ResubmitStores(w, key, actor, reason, changedFields);
    }
  }

  lemma SubmitHolds(w: World, key: string, actor: Actor, r: SubmitRequest, id: string, form: Option<map<string, Json>>)
    requires Inv(w) && HoldsForm(w, id, form)
    ensures HoldsForm(SubmitCase(w, key, actor, r).0, id, form)
  {
    if SubmitCase(w, key, actor, r).1 == Done {
      SubmissionStores(w, key, actor, r);
      FoundStored(w, key, actor);
      SubmittedHolds(w, SubmitCase(w, key, actor, r).0, Locate(w.cases, key, actor).doc, id, form);
    } else {
      RefusedSubmissionStores(w, key, actor, r);
    }
  }

  /** A submission not admitted, or replayed, stores no document, task, counter or submission. */
  lemma RefusedSubmissionStores(w: World, key: string, actor: Actor, r: SubmitRequest)
    requires Inv(w) && SubmitCase(w, key, actor, r).1 != Done
    ensures var w' := SubmitCase(w, key, actor, r).0;
            w'.cases == w.cases && w'.tasks == w.tasks && w'.counters == w.counters && w'.submissions == w.submissions
  {
    var found := Locate(w.cases, key, actor);
    if found.Found? && found.doc.status == Draft {
      FoundStored(w, key, actor);
      CommitSame(w, found.doc, AttemptNotes(found.doc, actor, r));
    }
  }

  lemma {:induction false} StepHolds(w: World, op: Op, id: string, form: Option<map<string, Json>>)
    requires Inv(w) && HoldsForm(w, id, form)
    ensures HoldsForm(Apply(w, op).0, id, EditedBy(w, op, Apply(w, op).1, id, form))
  {
    match op
    case OpCreateDraft(_, _, _, _, _, _, _) => CreateHolds(w, op, id, form);
    case OpUpdateDraft(key, actor, v) => UpdateHolds(w, key, actor, v, id, form);
    case OpValidateDraft(key, actor) => ValidateHolds(w, key, actor, id, form);
    case OpSubmitCase(key, actor, r) => SubmitHolds(w, key, actor, r, id, form);
    case OpAmendCase(key, actor, reason, patch) => AmendHolds(w, key, actor, reason, patch, id, form);
    case OpResubmitCase(key, actor, reason, fields) => ResubmitHolds(w, key, actor, reason, fields, id, form);
  }

  lemma {:induction false} RunHolds(ops: seq<Op>, id: string)
    ensures HoldsForm(Run(EMPTY_WORLD, ops), id, LastEdit(ops, id))
  {
    if ops != [] {
      var earlier := ops[..|ops| - 1];
      RunHolds(earlier, id);
      ReachableInv(earlier);
      StepHolds(Run(EMPTY_WORLD, earlier), ops[|ops| - 1], id, LastEdit(earlier, id));
    }
  }

  /**
   After every run a draft holds the form of its last accepted create or update with the
   amendments since merged in, and a submitted case was assessed, and got its tasks, on it.
   */
  lemma {:induction false} SubmissionAssessesLastEdit(ops: seq<Op>, id: string)
    ensures var w, form := Run(EMPTY_WORLD, ops), LastEdit(ops, id);
            (id in w.cases <==> form.Some?) &&
            (id in w.cases ==>
              if w.cases[id].status == Draft then w.cases[id].cafData == form.value
              else id in w.submissions && w.submissions[id].assessed == form.value &&
                   DepartmentsOfTasks(TasksOf(w.tasks, id)) == NeededDepartments(Obj(form.value)))
  {
    RunHolds(ops, id);
    ReachableInv(ops);
    var w := Run(EMPTY_WORLD, ops);
    if id in w.cases {
      assert CaseSound(w, id);
    }
  }
}
