/**
 The combined-application case lifecycle (web/src/services/caf.service.js) as functions on
 the stored state: what each operation of the service makes of the cases, the tasks, the
 two event logs and the id counters.

 The verdicts of the input validators, the answer of the duplicate query, the current year
 and the clock are parameters.
 */
module CafModel {
  import opened Options
  import opened Lists
  import opened Json
  import opened ObjectPath
  import opened FieldDiff
  import opened ApprovalTracks
  import opened DuplicateDetection
  import opened CaseIds

  datatype Status =
    | Draft | Submitted | UnderScrutiny | QueryRaised | ResponseSubmitted
    | Approved | Rejected | Closed | Reopened | Withdrawn

  // ---------------------------------------------------------------- events

  datatype Payload =
    | StatusChange(previous: Option<Status>, next: Status)
    | Plain

  datatype DomainEvent = DomainEvent(eventId: nat, eventName: string, aggregateId: string, payload: Payload)

  datatype TimelineEntry = TimelineEntry(eventId: nat, name: string, caseId: string, payload: Payload)

  /** An event about a case before it is stored. */
  datatype Note = Note(eventName: string, payload: Payload)

  function Mirror(e: DomainEvent): TimelineEntry
  {
    TimelineEntry(e.eventId, e.eventName, e.aggregateId, e.payload)
  }

  function Timeline(events: seq<DomainEvent>): (entries: seq<TimelineEntry>)
    ensures |entries| == |events| && forall i :: 0 <= i < |events| ==> entries[i] == Mirror(events[i])
  {
    seq(|events|, i requires 0 <= i < |events| => Mirror(events[i]))
  }

  /** The notes as stored events of a case, with fresh event ids from `first` on. */
  function Stamp(first: nat, caseId: string, notes: seq<Note>): (events: seq<DomainEvent>)
    ensures |events| == |notes|
    ensures forall i :: 0 <= i < |notes| ==>
      events[i] == DomainEvent(first + i, notes[i].eventName, caseId, notes[i].payload)
  {
    seq(|notes|, i requires 0 <= i < |notes| =>
      DomainEvent(first + i, notes[i].eventName, caseId, notes[i].payload))
  }

  function Repeat(n: nat, name: string): (notes: seq<Note>)
    ensures |notes| == n && forall i :: 0 <= i < n ==> notes[i] == Note(name, Plain)
  {
    seq(n, i => Note(name, Plain))
  }

  // ---------------------------------------------------------------- stored documents

  datatype Amendment = Amendment(
    amendmentNumber: nat,
    reason: string,
    patch: map<string, Json>,
    changedFields: set<string>)

  datatype Resubmission = Resubmission(resubmissionNumber: nat, reason: string, changedFields: seq<string>)

  datatype CaseDoc = CaseDoc(
    caseId: string,
    owner: string,
    sourceSystem: string,
    sourceReferenceId: string,
    createdAt: int,
    status: Status,
    cafData: map<string, Json>,
    draftVersion: nat,
    universalCaseId: Option<string>,
    requiredDepartments: seq<RequiredDepartment>,
    approvalTracks: seq<Track>,
    acknowledgement: Option<string>,
    duplicateCheck: Option<Verdict>,
    amendmentHistory: seq<Amendment>,
    resubmissionHistory: seq<Resubmission>,
    submissionIdempotencyKeys: seq<string>)

  /** What a case was submitted with: the form assessed, the form stored, the amendments so far. */
  datatype Submission = Submission(assessed: map<string, Json>, form: map<string, Json>, amendments: nat)

  /** `submissions` is a history variable: no operation reads it. */
  datatype World = World(
    cases: map<string, CaseDoc>,
    tasks: seq<Task>,
    events: seq<DomainEvent>,
    timeline: seq<TimelineEntry>,
    counters: map<string, nat>,
    submissions: map<string, Submission>)

  const EMPTY_WORLD := World(map[], [], [], [], map[], map[])

  datatype Actor = Actor(id: string, admin: bool)

  datatype Error =
    | ValidationError | NotFound | AccessDenied | CaseNotEditable | InvalidCaseStatus | DuplicateKey
    | DuplicateBlocked | DuplicateConfirmationRequired | AmendmentNotAllowed | ResubmissionNotAllowed

  datatype Outcome = Done | Replayed(tasks: seq<Task>) | Refused(error: Error)

  /** A validator's verdict on a form: the sanitised data, and how many attachments it lists. */
  datatype Checked = Checked(valid: bool, fields: map<string, Json>, attachments: nat)

  // ---------------------------------------------------------------- reading the form

  function TextAt(caf: Json, key: string): string
  {
    var v := Step(caf, key);
    if v.Str? then v.s else ""
  }

  function TextIn(caf: Json, section: string, key: string): string
  {
    var v := Read(caf, section, key);
    if v.Str? then v.s else ""
  }

  function FormOf(caf: Json): Form
  {
    Form(TextAt(caf, "sourceSystem"), TextAt(caf, "sourceReferenceId"),
         TextIn(caf, "project", "projectName"), TextIn(caf, "project", "projectDistrict"),
         TextIn(caf, "project", "projectAddress"), TextIn(caf, "enterprise", "gstin"))
  }

  function AsCandidate(c: CaseDoc): Candidate
  {
    Candidate(c.caseId, c.owner, c.status == Draft, c.sourceSystem, c.sourceReferenceId, FormOf(Obj(c.cafData)))
  }

  // ---------------------------------------------------------------- lookup and access

  /** findById: by case id or by universal case id. */
  ghost function Resolve(cases: map<string, CaseDoc>, key: string): (r: Option<string>)
    ensures r.Some? ==> r.value in cases && (r.value == key || cases[r.value].universalCaseId == Some(key))
    ensures r.None? ==> key !in cases && forall id :: id in cases ==> cases[id].universalCaseId != Some(key)
  {
    if key in cases then Some(key)
    else if exists id :: id in cases && cases[id].universalCaseId == Some(key) then
      var id :| id in cases && cases[id].universalCaseId == Some(key);
      Some(id)
    else None
  }

  /** assertInvestorAccess does not throw. */
  predicate MayAccess(c: CaseDoc, actor: Actor)
  {
    actor.id == "" || c.owner == "" || actor.id == c.owner || actor.admin
  }

  datatype Lookup = Found(doc: CaseDoc) | Missing(error: Error)

  /** The first steps every operation on a stored case shares. */
  ghost function Locate(cases: map<string, CaseDoc>, key: string, actor: Actor): Lookup
  {
    match Resolve(cases, key)
    case None => Missing(NotFound)
    case Some(id) => if MayAccess(cases[id], actor) then Found(cases[id]) else Missing(AccessDenied)
  }

  function TasksOf(tasks: seq<Task>, caseId: string): seq<Task>
  {
    Filter(tasks, OfCase(caseId))
  }

  function OfCase(caseId: string): Task -> bool
  {
    (t: Task) => t.caseId == caseId
  }

  // ---------------------------------------------------------------- rewriting one case

  /** Append events about a case to both logs. */
  function Logged(w: World, caseId: string, notes: seq<Note>): World
  {
    var stored := Stamp(|w.events|, caseId, notes);
    w.(events := w.events + stored, timeline := w.timeline + Timeline(stored))
  }

  /** Store a case document and append the events about it. */
  function Commit(w: World, c: CaseDoc, notes: seq<Note>): World
  {
    Logged(w.(cases := w.cases[c.caseId := c]), c.caseId, notes)
  }

  /** Storing a document that is stored already only appends the events. */
  lemma CommitSame(w: World, c: CaseDoc, notes: seq<Note>)
    requires c.caseId in w.cases && w.cases[c.caseId] == c
    ensures Commit(w, c, notes) == Logged(w, c.caseId, notes)
  {
    assert w.cases[c.caseId := c] == w.cases;
  }

  /** Events may be appended in one go or in two. */
  lemma LoggedTwice(w: World, caseId: string, a: seq<Note>, b: seq<Note>)
    ensures Logged(Logged(w, caseId, a), caseId, b) == Logged(w, caseId, a + b)
  {
    var first, all := Stamp(|w.events|, caseId, a), Stamp(|w.events|, caseId, a + b);
    var second := Stamp(|w.events| + |first|, caseId, b);
    assert all == first + second;
    assert Timeline(all) == Timeline(first) + Timeline(second);
    assert w.events + all == (w.events + first) + second;
    assert w.timeline + Timeline(all) == (w.timeline + Timeline(first)) + Timeline(second);
  }

  lemma CommitTwice(w: World, c: CaseDoc, a: seq<Note>, updated: CaseDoc, b: seq<Note>)
    requires updated.caseId == c.caseId
    ensures Commit(Commit(w, c, a), updated, b) == Commit(w, updated, a + b)
  {
    LoggedTwice(w.(cases := w.cases[c.caseId := updated]), c.caseId, a, b);
    assert w.cases[c.caseId := c][c.caseId := updated] == w.cases[c.caseId := updated];
  }

  /** The same, with new tasks of the case, new counters and new submission records. */
  function Rewrite(w: World, c: CaseDoc, notes: seq<Note>, created: seq<Task>,
                   counters: map<string, nat>, submissions: map<string, Submission>): World
  {
    Commit(w, c, notes).(tasks := w.tasks + created, counters := counters, submissions := submissions)
  }

  // ---------------------------------------------------------------- createDraft

  function NewDraft(caseId: string, actor: Actor, form: map<string, Json>, now: int): CaseDoc
  {
    CaseDoc(caseId, actor.id, TextAt(Obj(form), "sourceSystem"), TextAt(Obj(form), "sourceReferenceId"),
            now, Draft, form, 1, None, [], [], None, None, [], [], [])
  }

  function CreateNotes(v: Checked): seq<Note>
  {
    [Note("case.draft_created.v1", StatusChange(None, Draft))] + Repeat(v.attachments, "document.uploaded.v1")
  }

  function CreateDraft(w: World, caseId: string, actor: Actor, v: Checked, now: int): (World, Outcome)
  {
    if !v.valid then (w, Refused(ValidationError))
    else if caseId in w.cases then (w, Refused(DuplicateKey))
    else (Commit(w, NewDraft(caseId, actor, v.fields, now), CreateNotes(v)), Done)
  }

  // ---------------------------------------------------------------- updateDraft

  function UpdatedDoc(c: CaseDoc, v: Checked): CaseDoc
  {
    c.(cafData := v.fields, draftVersion := c.draftVersion + 1)
  }

  function UpdateNotes(c: CaseDoc, v: Checked): seq<Note>
  {
    [Note("case.draft_updated.v1", StatusChange(Some(c.status), UpdatedDoc(c, v).status))]
    + Repeat(v.attachments, "document.uploaded.v1")
  }

  ghost function UpdateDraft(w: World, key: string, actor: Actor, v: Checked): (World, Outcome)
  {
    match Locate(w.cases, key, actor)
    case Missing(error) => (w, Refused(error))
    case Found(c) =>
      if c.status != Draft then (w, Refused(CaseNotEditable))
      else if !v.valid then (w, Refused(ValidationError))
      else (Commit(w, UpdatedDoc(c, v), UpdateNotes(c, v)), Done)
  }

  // ---------------------------------------------------------------- validateDraft

  function Validation(c: CaseDoc): Note
  {
    Note("case.validation_requested.v1", StatusChange(Some(c.status), c.status))
  }

  ghost function ValidateDraft(w: World, key: string, actor: Actor): (World, Outcome)
  {
    match Locate(w.cases, key, actor)
    case Missing(error) => (w, Refused(error))
    case Found(c) => (Commit(w, c, [Validation(c)]), Done)
  }

  // ---------------------------------------------------------------- submitCase

  /** The request of a submission and everything it reads from outside the store. */
  datatype SubmitRequest = SubmitRequest(
    idempotencyKey: string,
    overrideConfirmed: bool,
    overrideReason: string,
    final: Checked,
    candidates: seq<Candidate>,
    year: nat,
    now: int)

  /** `input.x || data.x` for the two override fields. */
  function SubmittedForm(r: SubmitRequest): map<string, Json>
  {
    r.final.fields
      ["duplicateOverrideConfirmed" :=
        if r.overrideConfirmed then Bool(true) else Field(r.final.fields, "duplicateOverrideConfirmed")]
      ["duplicateOverrideReason" :=
        if r.overrideReason != "" then Str(r.overrideReason) else Field(r.final.fields, "duplicateOverrideReason")]
  }

  function VerdictFor(c: CaseDoc, actor: Actor, r: SubmitRequest): Verdict
  {
    VerdictOn(FormOf(Obj(c.cafData)), actor.id, r.candidates)
  }

  /** The draft may leave draft: final validation passed and no duplicate stands in the way. */
  predicate Admissible(c: CaseDoc, actor: Actor, r: SubmitRequest)
  {
    var verdict := VerdictFor(c, actor, r);
    r.final.valid && !verdict.blocking &&
    (verdict.isDuplicate ==> Truthy(Step(Obj(c.cafData), "duplicateOverrideConfirmed")) || r.overrideConfirmed)
  }

  function RefusalFor(c: CaseDoc, actor: Actor, r: SubmitRequest): Error
  {
    if !r.final.valid then ValidationError
    else if VerdictFor(c, actor, r).blocking then DuplicateBlocked
    else DuplicateConfirmationRequired
  }

  /** The events every attempt leaves behind, admitted or not. */
  function AttemptNotes(c: CaseDoc, actor: Actor, r: SubmitRequest): seq<Note>
  {
    [Validation(c)]
    + if r.final.valid && VerdictFor(c, actor, r).isDuplicate then [Note("case.duplicate_detected.v1", Plain)] else []
  }

  function WithKey(keys: seq<string>, key: string): seq<string>
  {
    if key != "" then Unique(keys + [key]) else keys
  }

  function SubmittedDoc(c: CaseDoc, actor: Actor, r: SubmitRequest, universalCaseId: string): CaseDoc
  {
    var info := ApprovalInfoOf(Obj(c.cafData));
    c.(universalCaseId := Some(universalCaseId),
       cafData := SubmittedForm(r),
       status := Submitted,
       requiredDepartments := info.requiredDepartments,
       approvalTracks := info.approvalTracks,
       acknowledgement := Some(AcknowledgementNumber(ACK_PREFIX, universalCaseId)),
       duplicateCheck := Some(VerdictFor(c, actor, r)),
       submissionIdempotencyKeys := WithKey(c.submissionIdempotencyKeys, r.idempotencyKey))
  }

  /** The events of an admitted attempt. */
  function SubmissionNotes(c: CaseDoc, actor: Actor, r: SubmitRequest, taskCount: nat): seq<Note>
  {
    AttemptNotes(c, actor, r) + SubmittedNotes(taskCount)
  }

  function SubmittedNotes(taskCount: nat): seq<Note>
  {
    [Note("case.submitted.v1", StatusChange(Some(Draft), Submitted)), Note("acknowledgement.generated.v1", Plain)]
    + Repeat(taskCount, "task.created.v1")
  }

  /** The universal id of a submission: a fresh one, unless the case has one already. */
  function IdFor(w: World, c: CaseDoc, year: nat): string
  {
    if c.universalCaseId.Some? then c.universalCaseId.value
    else UniversalId(CASE_ID_PREFIX, year, NextSequence(w.counters, CounterKey(year)))
  }

  function CountersFor(w: World, c: CaseDoc, year: nat): map<string, nat>
  {
    if c.universalCaseId.Some? then w.counters
    else w.counters[CounterKey(year) := NextSequence(w.counters, CounterKey(year))]
  }

  function TasksFor(c: CaseDoc, actor: Actor, r: SubmitRequest, universalCaseId: string): seq<Task>
  {
    InitialTasks(c.caseId, universalCaseId, SubmittedDoc(c, actor, r, universalCaseId).approvalTracks, r.now)
  }

  function SubmissionFor(c: CaseDoc, r: SubmitRequest): Submission
  {
    Submission(c.cafData, SubmittedForm(r), |c.amendmentHistory|)
  }

  /** An admitted submission: the events of the attempt, and then the transaction. */
  function Submit(w: World, c: CaseDoc, actor: Actor, r: SubmitRequest): World
  {
    var universalCaseId := IdFor(w, c, r.year);
    var created := TasksFor(c, actor, r, universalCaseId);
    Rewrite(w, SubmittedDoc(c, actor, r, universalCaseId), SubmissionNotes(c, actor, r, |created|), created,
            CountersFor(w, c, r.year), w.submissions[c.caseId := SubmissionFor(c, r)])
  }

  /** The transaction alone. */
  function Transaction(w: World, c: CaseDoc, actor: Actor, r: SubmitRequest): World
  {
    var universalCaseId := IdFor(w, c, r.year);
    var created := TasksFor(c, actor, r, universalCaseId);
    Rewrite(w, SubmittedDoc(c, actor, r, universalCaseId), SubmittedNotes(|created|), created,
            CountersFor(w, c, r.year), w.submissions[c.caseId := SubmissionFor(c, r)])
  }

  lemma {:induction false} AttemptThenTransaction(w: World, c: CaseDoc, actor: Actor, r: SubmitRequest)
    ensures Transaction(Commit(w, c, AttemptNotes(c, actor, r)), c, actor, r) == Submit(w, c, actor, r)
  {
    var w1 := Commit(w, c, AttemptNotes(c, actor, r));
    var universalCaseId := IdFor(w, c, r.year);
    var submitted, created := SubmittedDoc(c, actor, r, universalCaseId), TasksFor(c, actor, r, universalCaseId);
    CommitTwice(w, c, AttemptNotes(c, actor, r), submitted, SubmittedNotes(|created|));
    assert IdFor(w1, c, r.year) == universalCaseId && CountersFor(w1, c, r.year) == CountersFor(w, c, r.year);
  }

  ghost function SubmitCase(w: World, key: string, actor: Actor, r: SubmitRequest): (World, Outcome)
  {
    match Locate(w.cases, key, actor)
    case Missing(error) => (w, Refused(error))
    case Found(c) =>
      if c.status != Draft then
        if r.idempotencyKey != "" && r.idempotencyKey in c.submissionIdempotencyKeys && c.universalCaseId.Some? then
          (w, Replayed(TasksOf(w.tasks, c.caseId)))
        else (w, Refused(InvalidCaseStatus))
      else if !Admissible(c, actor, r) then
        (Commit(w, c, AttemptNotes(c, actor, r)), Refused(RefusalFor(c, actor, r)))
      else (Submit(w, c, actor, r), Done)
  }

  // ---------------------------------------------------------------- amendCase

  const SECTIONS := {"enterprise", "project", "land", "environment", "power", "fire", "industrialSafety", "labour"}

  /** `{ ...(v || {}) }` of a section. */
  function SectionFields(caf: map<string, Json>, section: string): map<string, Json>
  {
    match Field(caf, section) case Obj(fields) => fields case _ => map[]
  }

  /** The merge of amendCase: shallow at the top, one level deeper in the sections. */
  function Merge(caf: map<string, Json>, patch: map<string, Json>): map<string, Json>
  {
    MergeSections(SECTIONS, caf, patch)
  }

  function MergeSections(sections: set<string>, caf: map<string, Json>, patch: map<string, Json>): map<string, Json>
  {
    map k | k in caf.Keys + patch.Keys + sections ::
      if k in sections then Obj(SectionFields(caf, k) + SectionFields(patch, k))
      else if k in patch then patch[k] else caf[k]
  }

  /** The dotted paths at which two forms differ. */
  ghost function FormDiff(before: map<string, Json>, after: map<string, Json>): set<string>
  {
    ChangedPaths(Obj(before), Obj(after), "")
  }

  ghost function AmendedDoc(c: CaseDoc, reason: string, patch: map<string, Json>): CaseDoc
  {
    var merged := Merge(c.cafData, patch);
    var amendment := Amendment(|c.amendmentHistory| + 1, reason, patch, FormDiff(c.cafData, merged));
    c.(cafData := merged,
       status := if c.status == Draft then Draft else Reopened,
       amendmentHistory := c.amendmentHistory + [amendment])
  }

  ghost function AmendCase(w: World, key: string, actor: Actor, reason: string,
                           patch: map<string, Json>): (World, Outcome)
  {
    match Locate(w.cases, key, actor)
    case Missing(error) => (w, Refused(error))
    case Found(c) =>
      if c.status == Closed || c.status == Withdrawn then (w, Refused(AmendmentNotAllowed))
      else if reason == "" then (w, Refused(ValidationError))
      else
        var updated := AmendedDoc(c, reason, patch);
        (Commit(w, updated, [Note("case.amended.v1", StatusChange(Some(c.status), updated.status))]), Done)
  }

  // ---------------------------------------------------------------- resubmitCase

  function ResubmittedDoc(c: CaseDoc, reason: string, changedFields: seq<string>): CaseDoc
  {
    c.(status := ResponseSubmitted,
       resubmissionHistory := c.resubmissionHistory
         + [Resubmission(|c.resubmissionHistory| + 1, reason, changedFields)])
  }

  ghost function ResubmitCase(w: World, key: string, actor: Actor, reason: string,
                              changedFields: seq<string>): (World, Outcome)
  {
    match Locate(w.cases, key, actor)
    case Missing(error) => (w, Refused(error))
    case Found(c) =>
      if c.status !in {QueryRaised, ResponseSubmitted, Rejected, Reopened} then (w, Refused(ResubmissionNotAllowed))
      else if reason == "" then (w, Refused(ValidationError))
      else
        (Commit(w, ResubmittedDoc(c, reason, changedFields),
                [Note("case.resubmitted.v1", StatusChange(Some(c.status), ResponseSubmitted))]),
         Done)
  }

  // ---------------------------------------------------------------- runs

  datatype Op =
    | OpCreateDraft(y: nat, m: nat, d: nat, suffix: nat, actor: Actor, v: Checked, now: int)
    | OpUpdateDraft(key: string, actor: Actor, v: Checked)
    | OpValidateDraft(key: string, actor: Actor)
    | OpSubmitCase(key: string, actor: Actor, r: SubmitRequest)
    | OpAmendCase(key: string, actor: Actor, reason: string, patch: map<string, Json>)
    | OpResubmitCase(key: string, actor: Actor, reason: string, changedFields: seq<string>)

  ghost function Apply(w: World, op: Op): (World, Outcome)
  {
    match op
    case OpCreateDraft(y, m, d, suffix, actor, v, now) => CreateDraft(w, DraftCaseId(y, m, d, suffix), actor, v, now)
    case OpUpdateDraft(key, actor, v) => UpdateDraft(w, key, actor, v)
    case OpValidateDraft(key, actor) => ValidateDraft(w, key, actor)
    case OpSubmitCase(key, actor, r) => SubmitCase(w, key, actor, r)
    case OpAmendCase(key, actor, reason, patch) => AmendCase(w, key, actor, reason, patch)
    case OpResubmitCase(key, actor, reason, changedFields) => ResubmitCase(w, key, actor, reason, changedFields)
  }

  /** The state after a run of operations, whatever each of them answers. */
  ghost function Run(w: World, ops: seq<Op>): World
  {
    if ops == [] then w else Apply(Run(w, ops[..|ops| - 1]), ops[|ops| - 1]).0
  }
}
