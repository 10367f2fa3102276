/**
 The service itself: the case operations as methods that rewrite stored state in place
 (web/src/services/caf.service.js with web/src/repositories/case.repository.js and
 web/src/repositories/domain-event.repository.js). Each method is proved against its
 function on the state, and keeps the invariant.
 */
module CafService {
  import opened Options
  import opened Json
  import opened ObjectPath
  import opened FieldDiff
  import opened ApprovalTracks
  import opened DuplicateDetection
  import opened CaseIds
  import opened CafModel
  import opened CafInvariant
  import opened CafPreservation

  class CafService {
    var cases: map<string, CaseDoc>
    var tasks: seq<Task>
    var events: seq<DomainEvent>
    var timeline: seq<TimelineEntry>
    const counter: CounterRepository
    ghost var submissions: map<string, Submission>

    ghost function State(): World
      reads this, counter
    {
      World(cases, tasks, events, timeline, counter.counters, submissions)
    }

    ghost predicate Valid()
      reads this, counter
    {
      Inv(State())
    }

    constructor ()
      ensures State() == EMPTY_WORLD && Valid() && fresh(counter)
    {
      counter := new CounterRepository();
      cases, tasks, events, timeline, submissions := map[], [], [], [], map[];
      new;
      EmptyWorldInv();
    }

    // -------------------------------------------------------------- the repositories

    /** The domain log first, then the timeline, for a list of events about one case. */
    method AppendMany(caseId: string, notes: seq<Note>)
      modifies this`events, this`timeline
      ensures State() == Logged(old(State()), caseId, notes)
    {
      var stored := Stamp(|events|, caseId, notes);
      events := events + stored;
      timeline := timeline + Timeline(stored);
    }

    /** Store a case document and append the events about it. */
    method Save(c: CaseDoc, notes: seq<Note>)
      modifies this`cases, this`events, this`timeline
      ensures State() == Commit(old(State()), c, notes)
    {
      cases := cases[c.caseId := c];
      AppendMany(c.caseId, notes);
    }

    /** findById and assertInvestorAccess. */
    method Find(key: string, actor: Actor) returns (found: Lookup)
      requires Valid()
      ensures found == Locate(cases, key, actor)
    {
      var id := FindOne(key);
      if id.None? {
        return Missing(NotFound);
      }
      return if MayAccess(cases[id.value], actor) then Found(cases[id.value]) else Missing(AccessDenied);
    }

    /** The id of the document a key stands for: a case id, or a universal id, of which there are no two alike. */
    method FindOne(key: string) returns (id: Option<string>)
      requires DistinctUniversalIds(cases)
      ensures id == Resolve(cases, key)
    {
      if key in cases {
        return Some(key);
      }
      if exists other :: other in cases && cases[other].universalCaseId == Some(key) {
        var other :| other in cases && cases[other].universalCaseId == Some(key);
        return Some(other);
      }
      return None;
    }

    // -------------------------------------------------------------- the operations

    method CreateDraft(y: nat, m: nat, d: nat, suffix: nat, actor: Actor, v: Checked, now: int) returns (r: Outcome)
      requires Valid()
      modifies this
      ensures (State(), r) == CafModel.CreateDraft(old(State()), DraftCaseId(y, m, d, suffix), actor, v, now)
      ensures Valid()
    {
      CreateDraftKeepsInv(State(), y, m, d, suffix, actor, v, now);
      if !v.valid {
        return Refused(ValidationError);
      }
      var caseId := DraftCaseId(y, m, d, suffix);
      if caseId in cases {
        return Refused(DuplicateKey);
      }
      Save(NewDraft(caseId, actor, v.fields, now), CreateNotes(v));
      return Done;
    }

    method UpdateDraft(key: string, actor: Actor, v: Checked) returns (r: Outcome)
      requires Valid()
      modifies this
      ensures (State(), r) == CafModel.UpdateDraft(old(State()), key, actor, v)
      ensures Valid()
    {
      UpdateDraftKeepsInv(State(), key, actor, v);
      var found := Find(key, actor);
      if found.Missing? {
        return Refused(found.error);
      }
      r := UpdateFound(found.doc, v);
    }

    method UpdateFound(c: CaseDoc, v: Checked) returns (r: Outcome)
      modifies this`cases, this`events, this`timeline
      ensures (State(), r) ==
              if c.status != Draft then (old(State()), Refused(CaseNotEditable))
              else if !v.valid then (old(State()), Refused(ValidationError))
              else (Commit(old(State()), UpdatedDoc(c, v), UpdateNotes(c, v)), Done)
    {
      if c.status != Draft {
        return Refused(CaseNotEditable);
      }
      if !v.valid {
        return Refused(ValidationError);
      }
      Save(c.(cafData := v.fields, draftVersion := c.draftVersion + 1), UpdateNotes(c, v));
      return Done;
    }

    method ValidateDraft(key: string, actor: Actor) returns (r: Outcome)
      requires Valid()
      modifies this
      ensures (State(), r) == CafModel.ValidateDraft(old(State()), key, actor)
      ensures Valid()
    {
      ValidateDraftKeepsInv(State(), key, actor);
      var found := Find(key, actor);
      if found.Missing? {
        return Refused(found.error);
      }
      FoundIsStored(State(), key, actor);
      CommitSame(State(), found.doc, [Validation(found.doc)]);
      AppendMany(found.doc.caseId, [Validation(found.doc)]);
      return Done;
    }

    method AmendCase(key: string, actor: Actor, reason: string, patch: map<string, Json>) returns (r: Outcome)
      requires Valid()
      modifies this
      ensures (State(), r) == CafModel.AmendCase(old(State()), key, actor, reason, patch)
      ensures Valid()
    {
      AmendCaseKeepsInv(State(), key, actor, reason, patch);
      var found := Find(key, actor);
      if found.Missing? {
        return Refused(found.error);
      }
      r := AmendFound(found.doc, reason, patch);
    }

    method AmendFound(c: CaseDoc, reason: string, patch: map<string, Json>) returns (r: Outcome)
      modifies this`cases, this`events, this`timeline
      ensures (State(), r) ==
              if c.status == Closed || c.status == Withdrawn then (old(State()), Refused(AmendmentNotAllowed))
              else if reason == "" then (old(State()), Refused(ValidationError))
              else
                var updated := AmendedDoc(c, reason, patch);
                var note := Note("case.amended.v1", StatusChange(Some(c.status), updated.status));
                (Commit(old(State()), updated, [note]), Done)
    {
      if c.status == Closed || c.status == Withdrawn {
        return Refused(AmendmentNotAllowed);
      }
      if reason == "" {
        return Refused(ValidationError);
      }
      var merged := Merge(c.cafData, patch);
      var changed := ListChangedFields(c.cafData, merged);
      var amendment := Amendment(|c.amendmentHistory| + 1, reason, patch, set p | p in changed);
      var updated := c.(cafData := merged,
                        status := if c.status == Draft then Draft else Reopened,
                        amendmentHistory := c.amendmentHistory + [amendment]);
      Save(updated, [Note("case.amended.v1", StatusChange(Some(c.status), updated.status))]);
      return Done;
    }

    method ResubmitCase(key: string, actor: Actor, reason: string, changedFields: seq<string>) returns (r: Outcome)
      requires Valid()
      modifies this
      ensures (State(), r) == CafModel.ResubmitCase(old(State()), key, actor, reason, changedFields)
      ensures Valid()
    {
      ResubmitCaseKeepsInv(State(), key, actor, reason, changedFields);
      var found := Find(key, actor);
      if found.Missing? {
        return Refused(found.error);
      }
      r := ResubmitFound(found.doc, reason, changedFields);
    }

    method ResubmitFound(c: CaseDoc, reason: string, changedFields: seq<string>) returns (r: Outcome)
      modifies this`cases, this`events, this`timeline
      ensures (State(), r) ==
              if c.status !in {QueryRaised, ResponseSubmitted, Rejected, Reopened} then
                (old(State()), Refused(ResubmissionNotAllowed))
              else if reason == "" then (old(State()), Refused(ValidationError))
              else
                (Commit(old(State()), ResubmittedDoc(c, reason, changedFields),
                        [Note("case.resubmitted.v1", StatusChange(Some(c.status), ResponseSubmitted))]),
                 Done)
    {
      if c.status !in {QueryRaised, ResponseSubmitted, Rejected, Reopened} {
        return Refused(ResubmissionNotAllowed);
      }
      if reason == "" {
        return Refused(ValidationError);
      }
      var entry := Resubmission(|c.resubmissionHistory| + 1, reason, changedFields);
      var updated := c.(status := ResponseSubmitted, resubmissionHistory := c.resubmissionHistory + [entry]);
      Save(updated, [Note("case.resubmitted.v1", StatusChange(Some(c.status), ResponseSubmitted))]);
      return Done;
    }

    method SubmitCase(key: string, actor: Actor, request: SubmitRequest) returns (r: Outcome)
      requires Valid()
      modifies this, counter
      ensures (State(), r) == CafModel.SubmitCase(old(State()), key, actor, request)
      ensures Valid()
    {
      SubmitCaseKeepsInv(State(), key, actor, request);
      var found := Find(key, actor);
      if found.Missing? {
        return Refused(found.error);
      }
      FoundIsStored(State(), key, actor);
      var c := found.doc;
      if c.status != Draft {
        if request.idempotencyKey != "" && request.idempotencyKey in c.submissionIdempotencyKeys &&
           c.universalCaseId.Some? {
          return Replayed(TasksOf(tasks, c.caseId));
        }
        return Refused(InvalidCaseStatus);
      }
      r := SubmitDraft(c, actor, request);
    }

    /** submitCase from validateDraft on, for a draft. */
    method SubmitDraft(c: CaseDoc, actor: Actor, request: SubmitRequest) returns (r: Outcome)
      requires c.caseId in cases && cases[c.caseId] == c
      modifies this, counter
      ensures if Admissible(c, actor, request) then r == Done && State() == Submit(old(State()), c, actor, request)
              else r == Refused(RefusalFor(c, actor, request)) &&
                   State() == Commit(old(State()), c, AttemptNotes(c, actor, request))
    {
      ghost var w := State();
      var verdict := Attempt(c, actor, request);
      if !request.final.valid {
        return Refused(ValidationError);
      }
      if verdict.blocking {
        return Refused(DuplicateBlocked);
      }
      if verdict.isDuplicate && !Truthy(Step(Obj(c.cafData), "duplicateOverrideConfirmed")) &&
         !request.overrideConfirmed {
        return Refused(DuplicateConfirmationRequired);
      }
      Transact(c, actor, request, verdict);
      AttemptThenTransaction(w, c, actor, request);
      return Done;
    }

    /** The checks: validateDraft logs its event, and a duplicate of a valid form is logged too. */
    method Attempt(c: CaseDoc, actor: Actor, request: SubmitRequest) returns (verdict: Verdict)
      requires c.caseId in cases && cases[c.caseId] == c
      modifies this`events, this`timeline
      ensures verdict == VerdictFor(c, actor, request)
      ensures State() == Commit(old(State()), c, AttemptNotes(c, actor, request))
    {
      CommitSame(State(), c, AttemptNotes(c, actor, request));
      LoggedTwice(State(), c.caseId, [Validation(c)], [Note("case.duplicate_detected.v1", Plain)]);
      AppendMany(c.caseId, [Validation(c)]);
      verdict := CheckDuplicate(FormOf(Obj(c.cafData)), actor.id, request.candidates);
      if request.final.valid && verdict.isDuplicate {
        AppendMany(c.caseId, [Note("case.duplicate_detected.v1", Plain)]);
      } else {
        assert AttemptNotes(c, actor, request) == [Validation(c)];
      }
    }

    /** The transaction of submitCase. */
    method Transact(c: CaseDoc, actor: Actor, request: SubmitRequest, verdict: Verdict)
      requires verdict == VerdictFor(c, actor, request)
      modifies this, counter
      ensures State() == Transaction(old(State()), c, actor, request)
    {
      var universalCaseId := NextUniversalId(c, request.year);
      var info := CalculateApprovalTracks(Obj(c.cafData));
      var initialTasks := InitialTasks(c.caseId, universalCaseId, info.approvalTracks, request.now);
      var updated := c.(
        universalCaseId := Some(universalCaseId),
        cafData := SubmittedForm(request),
        status := Submitted,
        requiredDepartments := info.requiredDepartments,
        approvalTracks := info.approvalTracks,
        acknowledgement := Some(AcknowledgementNumber(ACK_PREFIX, universalCaseId)),
        duplicateCheck := Some(verdict),
        submissionIdempotencyKeys := WithKey(c.submissionIdempotencyKeys, request.idempotencyKey));
      assert updated == SubmittedDoc(c, actor, request, universalCaseId);
      tasks := tasks + initialTasks;
      submissions := submissions[c.caseId := SubmissionFor(c, request)];
      Save(updated, SubmittedNotes(|initialTasks|));
    }

    /** `caseDoc.universalCaseId || generateUniversalId(...)`. */
    method NextUniversalId(c: CaseDoc, year: nat) returns (id: string)
      modifies counter
      ensures id == IdFor(old(State()), c, year)
      ensures counter.counters == CountersFor(old(State()), c, year)
    {
      if c.universalCaseId.Some? {
        return c.universalCaseId.value;
      }
      id := counter.GenerateUniversalCaseId(CASE_ID_PREFIX, year);
    }
  }

  /** countChangedFields on two forms. */
  method ListChangedFields(before: map<string, Json>, after: map<string, Json>) returns (changed: seq<string>)
    ensures (set p | p in changed) == FormDiff(before, after)
  {
    ghost var trail;
    changed, trail := CountChangedFields(Obj(before), Obj(after), "");
  }
}
