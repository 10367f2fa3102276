/**
 What every operation of the case lifecycle keeps: the redundant views of a case (status
 and event log, form and amendment history, tasks and approval tracks, ids and counters)
 agree in every reachable state.
 */
module CafInvariant {
  import opened Options
  import opened Lists
  import opened Json
  import opened ApprovalTracks
  import opened CaseIds
  import opened CafModel

  // ---------------------------------------------------------------- replaying the event log

  /** The status a log has led to, or that it contradicted itself on the way. */
  datatype Chain = Broken | At(status: Option<Status>)

  function Follow(chain: Chain, p: Payload): Chain
  {
    match p
    case StatusChange(previous, next) => if chain == At(previous) then At(Some(next)) else Broken
    case Plain => chain
  }

  function FollowAll(chain: Chain, notes: seq<Note>): Chain
  {
    if notes == [] then chain else Follow(FollowAll(chain, notes[..|notes| - 1]), notes[|notes| - 1].payload)
  }

  /** Fold the events of one case over the status, from null. */
  function Replay(events: seq<DomainEvent>, caseId: string): Chain
  {
    if events == [] then At(None)
    else
      var before, e := Replay(events[..|events| - 1], caseId), events[|events| - 1];
      if e.aggregateId == caseId then Follow(before, e.payload) else before
  }

  lemma ReplayAppend(events: seq<DomainEvent>, e: DomainEvent, caseId: string)
    ensures var before := Replay(events, caseId);
            Replay(events + [e], caseId) == if e.aggregateId == caseId then Follow(before, e.payload) else before
  {
    assert (events + [e])[..|events|] == events;
  }

  lemma StampLast(events: seq<DomainEvent>, caseId: string, first: nat, notes: seq<Note>)
    requires notes != []
    ensures var n := |notes| - 1;
            events + Stamp(first, caseId, notes) ==
            events + Stamp(first, caseId, notes[..n])
            + [DomainEvent(first + n, notes[n].eventName, caseId, notes[n].payload)]
  {
  }

  lemma {:induction false} ReplayStamp(events: seq<DomainEvent>, caseId: string, first: nat, notes: seq<Note>,
                                       other: string)
    ensures Replay(events + Stamp(first, caseId, notes), other) ==
            if other == caseId then FollowAll(Replay(events, other), notes) else Replay(events, other)
  {
    if notes == [] {
      assert events + Stamp(first, caseId, notes) == events;
    } else {
      var n := |notes| - 1;
      ReplayStamp(events, caseId, first, notes[..n], other);
      var last := DomainEvent(first + n, notes[n].eventName, caseId, notes[n].payload);
      StampLast(events, caseId, first, notes);
      ReplayAppend(events + Stamp(first, caseId, notes[..n]), last, other);
    }
  }

  lemma {:induction false} FollowConcat(chain: Chain, a: seq<Note>, b: seq<Note>)
    ensures FollowAll(chain, a + b) == FollowAll(FollowAll(chain, a), b)
  {
    if b == [] {
      assert a + b == a;
    } else {
      FollowConcat(chain, a, b[..|b| - 1]);
      assert (a + b)[..|a + b| - 1] == a + b[..|b| - 1];
    }
  }

  lemma FollowOne(chain: Chain, note: Note)
    ensures FollowAll(chain, [note]) == Follow(chain, note.payload)
  {
    assert [note][..0] == [];
    assert FollowAll(chain, []) == chain;
  }

  lemma {:induction false} FollowPlain(chain: Chain, notes: seq<Note>)
    requires forall i :: 0 <= i < |notes| ==> notes[i].payload == Plain
    ensures FollowAll(chain, notes) == chain
  {
    if notes != [] {
      FollowPlain(chain, notes[..|notes| - 1]);
    }
  }

  /** A status note followed by plain ones moves the chain by the one status change. */
  lemma {:induction false} FollowHeadThenPlain(chain: Chain, head: Note, rest: seq<Note>)
    requires forall i :: 0 <= i < |rest| ==> rest[i].payload == Plain
    ensures FollowAll(chain, [head] + rest) == Follow(chain, head.payload)
  {
    FollowConcat(chain, [head], rest);
    FollowOne(chain, head);
    FollowPlain(FollowAll(chain, [head]), rest);
  }

  // ---------------------------------------------------------------- replaying the amendments

  /** The submitted form with the amendments merged in, one after the other. */
  function Amended(form: map<string, Json>, amendments: seq<Amendment>): map<string, Json>
  {
    if amendments == [] then form
    else Merge(Amended(form, amendments[..|amendments| - 1]), amendments[|amendments| - 1].patch)
  }

  /** Each amendment records exactly the paths at which it changed the form. */
  ghost predicate DiffsRecorded(form: map<string, Json>, amendments: seq<Amendment>)
  {
    forall i :: 0 <= i < |amendments| ==>
      amendments[i].changedFields == FormDiff(Amended(form, amendments[..i]), Amended(form, amendments[..i + 1]))
  }

  lemma {:induction false} AmendedAppend(form: map<string, Json>, amendments: seq<Amendment>, a: Amendment)
    requires DiffsRecorded(form, amendments)
    requires a.changedFields == FormDiff(Amended(form, amendments), Merge(Amended(form, amendments), a.patch))
    ensures Amended(form, amendments + [a]) == Merge(Amended(form, amendments), a.patch)
    ensures DiffsRecorded(form, amendments + [a])
  {
    var all := amendments + [a];
    assert all[..|amendments|] == amendments;
    forall i | 0 <= i < |all|
      ensures all[i].changedFields == FormDiff(Amended(form, all[..i]), Amended(form, all[..i + 1]))
    {
      if i < |amendments| {
        assert all[..i] == amendments[..i] && all[..i + 1] == amendments[..i + 1];
      } else {
        assert all[..i + 1] == all;
      }
    }
  }

  ghost predicate Numbered(c: CaseDoc)
  {
    (forall i :: 0 <= i < |c.amendmentHistory| ==> c.amendmentHistory[i].amendmentNumber == i + 1) &&
    forall i :: 0 <= i < |c.resubmissionHistory| ==> c.resubmissionHistory[i].resubmissionNumber == i + 1
  }

  // ---------------------------------------------------------------- the invariant of one case

  ghost predicate IsDraftId(id: string)
  {
    exists y: nat, m: nat, d: nat, suffix: nat :: id == DraftCaseId(y, m, d, suffix)
  }

  /** The id was issued by the counter, some time ago. */
  ghost predicate IsIssued(id: string, counters: map<string, nat>)
  {
    exists year: nat, sequence: nat ::
      id == UniversalId(CASE_ID_PREFIX, year, sequence) &&
      CounterKey(year) in counters && sequence <= counters[CounterKey(year)]
  }

  ghost predicate StillDraft(c: CaseDoc, tasks: seq<Task>, submission: Option<Submission>)
  {
    tasks == [] && submission.None? && c.universalCaseId.None? && c.acknowledgement.None? &&
    c.requiredDepartments == [] && c.approvalTracks == [] && c.submissionIdempotencyKeys == []
  }

  ghost predicate OnceSubmitted(c: CaseDoc, tasks: seq<Task>, submission: Option<Submission>)
  {
    submission.Some? && c.universalCaseId.Some? &&
    var s := submission.value;
    var departments := NeededDepartments(Obj(s.assessed));
    DepartmentsOfTasks(tasks) == departments &&
    DepartmentsOfTracks(c.approvalTracks) == departments &&
    DepartmentsRequired(c.requiredDepartments) == departments &&
    c.acknowledgement == Some(AcknowledgementNumber(ACK_PREFIX, c.universalCaseId.value)) &&
    s.amendments <= |c.amendmentHistory| &&
    (c.status == Submitted <==> s.amendments == |c.amendmentHistory|) &&
    Amended(s.form, c.amendmentHistory[s.amendments..]) == c.cafData &&
    DiffsRecorded(s.form, c.amendmentHistory[s.amendments..])
  }

  ghost predicate Sound(c: CaseDoc, tasks: seq<Task>, chain: Chain, submission: Option<Submission>,
                        counters: map<string, nat>)
  {
    IsDraftId(c.caseId) &&
    chain == At(Some(c.status)) &&
    c.status in {Draft, Submitted, Reopened, ResponseSubmitted} &&
    Numbered(c) &&
    (if c.status == Draft then StillDraft(c, tasks, submission) else OnceSubmitted(c, tasks, submission)) &&
    (c.universalCaseId.Some? ==> IsIssued(c.universalCaseId.value, counters))
  }

  // ---------------------------------------------------------------- the invariant of the store

  function SubmissionOf(submissions: map<string, Submission>, id: string): Option<Submission>
  {
    if id in submissions then Some(submissions[id]) else None
  }

  ghost predicate CaseSound(w: World, id: string)
    requires id in w.cases
  {
    w.cases[id].caseId == id &&
    Sound(w.cases[id], TasksOf(w.tasks, id), Replay(w.events, id), SubmissionOf(w.submissions, id), w.counters)
  }

  /** Nothing is on record about an id that is not in use. */
  ghost predicate Unused(w: World, id: string)
  {
    TasksOf(w.tasks, id) == [] && Replay(w.events, id) == At(None) && id !in w.submissions
  }

  ghost predicate LogsMirror(w: World)
  {
    w.timeline == Timeline(w.events) && forall i :: 0 <= i < |w.events| ==> w.events[i].eventId == i
  }

  ghost predicate DistinctUniversalIds(cases: map<string, CaseDoc>)
  {
    forall a, b :: a in cases && b in cases && a != b && cases[a].universalCaseId.Some? ==>
      cases[a].universalCaseId != cases[b].universalCaseId
  }

  ghost predicate Inv(w: World)
  {
    LogsMirror(w) &&
    DistinctUniversalIds(w.cases) &&
    (forall id :: id in w.cases ==> CaseSound(w, id)) &&
    (forall id :: id !in w.cases ==> Unused(w, id))
  }

  // ---------------------------------------------------------------- one case rewritten

  ghost predicate CountersGrow(before: map<string, nat>, after: map<string, nat>)
  {
    forall k :: k in before ==> k in after && before[k] <= after[k]
  }

  lemma IssuedStays(id: string, before: map<string, nat>, after: map<string, nat>)
    requires IsIssued(id, before) && CountersGrow(before, after)
    ensures IsIssued(id, after)
  {
    var year: nat, sequence: nat :| id == UniversalId(CASE_ID_PREFIX, year, sequence) &&
      CounterKey(year) in before && sequence <= before[CounterKey(year)];
    assert CounterKey(year) in after;
  }

  lemma TasksOfAppend(tasks: seq<Task>, created: seq<Task>, caseId: string, other: string)
    requires forall i :: 0 <= i < |created| ==> created[i].caseId == caseId
    ensures TasksOf(tasks + created, other) ==
            if other == caseId then TasksOf(tasks, other) + created else TasksOf(tasks, other)
  {
    FilterConcat(tasks, created, OfCase(other));
    if other == caseId {
      FilterAll(created, OfCase(other));
    } else {
      FilterNone(created, OfCase(other));
    }
  }

  lemma MirrorCommit(w: World, c: CaseDoc, notes: seq<Note>)
    requires LogsMirror(w)
    ensures LogsMirror(Commit(w, c, notes))
  {
    var stored := Stamp(|w.events|, c.caseId, notes);
    assert Timeline(w.events + stored) == Timeline(w.events) + Timeline(stored);
  }

  /** Rewriting a case leaves what is on record about every other id alone. */
  lemma RewriteFrame(w: World, c: CaseDoc, notes: seq<Note>, created: seq<Task>,
                     counters: map<string, nat>, submissions: map<string, Submission>, id: string)
    requires Inv(w) && CountersGrow(w.counters, counters)
    requires forall i :: 0 <= i < |created| ==> created[i].caseId == c.caseId
    requires forall k :: k != c.caseId ==> SubmissionOf(submissions, k) == SubmissionOf(w.submissions, k)
    requires id != c.caseId
    ensures var w' := Rewrite(w, c, notes, created, counters, submissions);
            if id in w'.cases then CaseSound(w', id) else Unused(w', id)
  {
    var w' := Rewrite(w, c, notes, created, counters, submissions);
    TasksOfAppend(w.tasks, created, c.caseId, id);
    ReplayStamp(w.events, c.caseId, |w.events|, notes, id);
    assert SubmissionOf(submissions, id) == SubmissionOf(w.submissions, id);
    if id in w.cases {
      assert CaseSound(w, id);
      assert w'.cases[id] == w.cases[id];
      if w.cases[id].universalCaseId.Some? {
        IssuedStays(w.cases[id].universalCaseId.value, w.counters, counters);
      }
    } else {
      assert Unused(w, id);
    }
  }

  /** The invariant is kept when the rewritten case is sound by itself and its id is its own. */
  lemma RewriteKeepsInv(w: World, c: CaseDoc, notes: seq<Note>, created: seq<Task>,
                        counters: map<string, nat>, submissions: map<string, Submission>)
    requires Inv(w) && CountersGrow(w.counters, counters)
    requires forall i :: 0 <= i < |created| ==> created[i].caseId == c.caseId
    requires forall k :: k != c.caseId ==> SubmissionOf(submissions, k) == SubmissionOf(w.submissions, k)
    requires Sound(c, TasksOf(w.tasks, c.caseId) + created, FollowAll(Replay(w.events, c.caseId), notes),
                   SubmissionOf(submissions, c.caseId), counters)
    requires c.universalCaseId.Some? ==>
      forall b :: b in w.cases && b != c.caseId ==> w.cases[b].universalCaseId != c.universalCaseId
    ensures Inv(Rewrite(w, c, notes, created, counters, submissions))
  {
    var w' := Rewrite(w, c, notes, created, counters, submissions);
    MirrorCommit(w, c, notes);
    TasksOfAppend(w.tasks, created, c.caseId, c.caseId);
    ReplayStamp(w.events, c.caseId, |w.events|, notes, c.caseId);
    assert CaseSound(w', c.caseId);
    forall id | id != c.caseId
      ensures if id in w'.cases then CaseSound(w', id) else Unused(w', id)
    {
      RewriteFrame(w, c, notes, created, counters, submissions, id);
    }
    DistinctAfterRewrite(w.cases, c);
  }

  lemma DistinctAfterRewrite(cases: map<string, CaseDoc>, c: CaseDoc)
    requires DistinctUniversalIds(cases)
    requires c.universalCaseId.Some? ==>
      forall b :: b in cases && b != c.caseId ==> cases[b].universalCaseId != c.universalCaseId
    ensures DistinctUniversalIds(cases[c.caseId := c])
  {
  }

  /** The common case: only the document and the events change, and the universal id stays. */
  lemma CommitKeepsInv(w: World, c: CaseDoc, notes: seq<Note>)
    requires Inv(w)
    requires c.universalCaseId.Some? ==> c.caseId in w.cases && w.cases[c.caseId].universalCaseId == c.universalCaseId
    requires Sound(c, TasksOf(w.tasks, c.caseId), FollowAll(Replay(w.events, c.caseId), notes),
                   SubmissionOf(w.submissions, c.caseId), w.counters)
    ensures Inv(Commit(w, c, notes))
  {
    var none: seq<Task> := [];
    assert TasksOf(w.tasks, c.caseId) + none == TasksOf(w.tasks, c.caseId);
    assert w.tasks + none == w.tasks;
    RewriteKeepsInv(w, c, notes, none, w.counters, w.submissions);
    assert Rewrite(w, c, notes, none, w.counters, w.submissions) == Commit(w, c, notes);
  }
}
