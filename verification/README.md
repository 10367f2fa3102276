# UdyogSetu 360: a verified model of its state machines and data transformations

UdyogSetu 360 is a single-window platform for industrial approvals: an investor drafts a
combined application form (CAF), submits it, and departments process the tasks that follow.
This project models the parts of it that carry state or rebuild data, and proves properties of
them for every input, every run and every reachable state.

| module | what it models |
|---|---|
| `CafModel`, `CafInvariant`, `CafPreservation`, `CafTheorems` | the lifecycle of a case as functions on the stored state (cases, tasks, domain log, timeline, counters), the invariant every operation keeps, and what follows over whole runs |
| `CafEdits` | what each operation stores, logs and refuses, field by field, and which form a submission assesses |
| `CafService` | the same operations as methods that rewrite stored state in place, each proved equal to its function |
| `CafDuplicates` | the duplicate query of the store, and when a draft is its own duplicate |
| `CafValidators`, `CafShapes` | the input sanitiser and the two validators, and what the fixed shape of sanitised forms means for amendments |
| `CafSubmission` | the form assessed and the form stored by a submission, and runs on validated input |
| `CafWitness` | a form the validators accept that needs no department, the run that submits it, and the run that leaves its tasks behind |
| `FieldDiff` | the recursive differ behind the `changedFields` of an amendment |
| `ApprovalTracks`, `DuplicateDetection`, `CaseIds` | what a submission computes: departments and tasks, the duplicate verdict, identifiers |
| `GatewayIdempotency`, `GatewayScopes` | the lease-based idempotency records of the gateway and the middleware that turns them into execute, replay, conflict or wait; when a success is unique, and when a scope has one handler |
| `GatewayAnswers` | what each request gets and what the end of a handler leaves behind: server errors are retried, other responses replayed |
| `EventConsumer` | the Kafka consumer over its per-handler idempotency records |
| `EventFates` | what becomes of a delivered message, told from the delivery's inputs, and of a message whose handler always asks for a retry |
| `EventProducer` | batching of events by topic |
| `ObjectPath`, `MappingEngine` | reads and writes at dotted paths, and the adapter's interpreter of field mappings, on values |
| `Containers`, `Ownership` | the same reads and writes in place, on a heap of containers that can be shared, and which containers of a target are its own |
| `SharedMapping`, `SharedTheorems` | the interpreter in place, sharing containers with the caller's payload and the profile; when it does what it does on values, and what it does to the caller otherwise |
| `Redaction` | hiding of sensitive values in log data |
| `PublicMetrics`, `MetricsCache` | small-group suppression and stage counts, and the cache in front of them |
| `RetryPolicy` | back-off arithmetic |
| `Sessions` | login, refresh-token rotation and logout |
| `Options`, `Lists`, `Strings`, `Json` | shared vocabulary: optional values; permutations, filters and sums; split, join and decimal text; JSON values |

Code that changes state step by step is a class or a method with a loop, proved equal to a
function on the old state; the theorems are about those functions and about runs of them. Code
made of expressions is a function. Every operation is one atomic step. Input validators, the
clock, random numbers, the answer of the duplicate query, the fate of a handler and of a broker
are parameters, so the theorems hold whatever they are.

## Where the code does not do what one would expect

Each of these is proved, with the inputs for which the expected property fails and, where the
property has a condition, that condition as an if-and-only-if.

- A submitted case can be without tasks: a form that needs no department is submitted with an
  empty task list (`CafTheorems.NoTasksIff`). `CafWitness.RunToNoTasks` is a run of two
  operations from the empty store, on a form both validators accept, that gets there.
- Amendments leave tasks, tracks and required departments as they were. These name the departments
  the current form needs exactly when it fires the same rules as the form assessed
  (`CafTheorems.TasksCurrentIff`), or, on validated input, as the form submitted
  (`CafSubmission.TasksStaleIff`). `CafWitness.RunToStaleTasks` adds one amendment to the run above,
  after which the form needs a department that has no task.
- The form stored by a submission is not the form assessed, but that form sanitised once more, with
  the two override fields written in. Sanitising once more changes nothing exactly when the dates in
  the form read back as themselves (`CafSubmission.SanitiseTwiceIff`); both forms need the same
  departments in any case (`AssessedAndStoredAgree`).
- The duplicate query does not leave out the draft being submitted. With no other matching case a
  draft is reported as a duplicate if and only if it matches the query about itself, and blocked
  if and only if it also kept its source reference (`CafDuplicates.DuplicateOfItselfIff`). It
  matches itself exactly when it is recent and the actor's own, except when its source reference
  was edited and the form holds nothing else to ask for (`MatchesItselfIff`); a stored form that
  passes final validation always does hold something else (`CafSubmission.FinalNamesStored`).
- An amendment through the service replaces the whole form. The merge is written to keep what a
  patch leaves out, but the sanitiser fills every field of a patch, so it leaves nothing out
  (`CafShapes.AmendmentReplacesForm`).
- The paths listed by the differ carry the old form to the new one exactly when no key is empty
  or holds a dot. Dot-free keys are not enough: below an empty top-level key the prefix is
  dropped, and a path can be listed twice, exactly when the empty key is one of several
  (`FieldDiff.RoundTripIffSafeKeys`, `DistinctIff`, `EmptyKeyRepeatsAPath`). Such keys reach the differ
  as a function only: the sanitiser's keys are fixed, so the fields recorded by amendments do
  replay (`CafValidators.CafSchemaSafe`, `CafShapes.RecordedFieldsReplay`).
- A mapping and its inverse restore a source value exactly when it is a boolean (under
  `boolean_to_yes_no`), or text the table translates or a value the table neither translates
  nor produces (under `enum_map`) (`MappingEngine.RoundTrip`).
- The mapping pipeline can rewrite the caller's payload and the profile's own defaults: a copied
  value is the source's container itself, the stages copy the top level only, and the enum stage
  writes in place. With targets and with enum paths that do not overlap and enum paths that read
  plain entries, everything the caller and the profile hold stays as it is throughout the call if and
  only if no enum mapping rewrites a value strictly below a target or a filled default that holds a
  container (`SharedTheorems.CallerKeepsIff`). When none does, the call delivers what the pipeline
  says on values (`MappedAsValues`). When one does, the translation below one copy of a container
  shows in every other copy and in the source (`BothChange`, `CopiesChangeTogether`), and one below a
  default changes the next call with that profile (`NextCallDiffers`); a later mapping can write the
  old value back, so that at the end nothing is to be seen of it (`UndoneLater`).
- An enum mapping about a character or the length of a text destroys the rest of that text
  (`MappingEngine.EnumInsideText`). On a value, where no container is in two places, replacing what is
  there is local exactly when the walk to it meets entries of objects and arrays only, or it is the
  length of an empty text (`ObjectPath.LocalIff`).
- `setByPath` on a number, a boolean or a text writes nothing, and throws exactly when the walk falls
  off it (`Containers.ScalarTarget`). On an object or an array it is read back unless the walk comes to
  the length of an array, where it throws or resizes the array (`ContainerTarget`, `LengthCuts`).
- With random jitter the back-off can decrease; it never does exactly when jitter is off, the
  first step gains 999 ms or it reaches the cap (`RetryPolicy.NeverDecreasesIff`). The shipped
  setting is fine.
- Stage counts add up to what the documents report exactly when the documents of the other kind
  than the first amount to the same read the first one's way, which for documents of one form
  means that they report nothing; without documents, when the mock table sums to zero
  (`PublicMetrics.StageTotalConserved`, `StageTotalOfOneForm`, `FirstDocumentDecides`).
- A request can succeed twice for one idempotency key, its handlers all timely, when the final
  write of the first success is lost: the middleware swallows that failure after the response is
  out. Among the steps of timely handlers it is exactly those torn successes that break exactly
  once (`GatewayIdempotency.StepKeepsInvIff`, `TornSuccessRepeats`). It also happens when a
  handler outlives its lease (`OverrunLeaseRunsTwice`).
- Two timely handlers can be at work for one key, method, route and actor, because a takeover
  renews the lock but not the record's expiry. A handler can be joined exactly when its scope opens
  before its lease ends, that is, when it has no record or one that is failed, or whose lock or life
  ends before (`GatewayScopes.JoinableIff`); while its own record is stored this means that the lease
  outlasts the record (`StoredOpensIff`). Over whole runs two handlers can share a scope for every
  lock time but zero (`SharedScopeIff`).
- docs/kafka-event-backbone.md (line 96) says that a handler runs only once per event, handler
  and group. In the code it runs again after every failure; what happens at most once is its
  success, and exactly as long as no success is torn from its record
  (`EventConsumer.StepKeepsOnceIff`, `AtMostOnce`, `TornSuccessRepeats`).
- A message is dead-lettered once more for every crash between its dead letter and its commit
  (`EventConsumer.DeadLettersExact`), and an event is lost exactly when it is redelivered within
  the stale time of an attempt that began and was never marked (`EventConsumer.LostIff`).
- A message whose handler always throws a retryable error can be dropped all the same: it is
  acknowledged or dead-lettered exactly when a delivery finds its event held, or when the store fails
  a delivery and the dead-letter topic accepts (`EventFates.RetriedSettledIff`). With the store up and
  redeliveries spaced by the stale time it never is (`RetriedForever`).
- The fifteen-minute account lock never ends: the status set with it is looked at before anything
  resets it (`Sessions.LockedForever`).
- A refresh token stays acceptable after its rotation exactly when the new one is signed within
  the same second and the user's claims have not changed: the two are then the same token
  (`Sessions.RefreshIffAccepted`).
- Two metrics can share a cache entry if a metric name holds a colon, and exactly when one pair
  divides the other's text at a colon of its filters (`MetricsCache.KeysCollideIff`).

## Model

| member | source | states |
|---|---|---|
| CafTheorems.EventLogReplaysToStatus | web/src/services/caf.service.js:131-679 | over every run of the service's operations the timeline mirrors the domain log entry by entry, and the status changes logged for a case form an unbroken chain from null whose fold is the stored status; an id without a case has no history |
| CafTheorems.AmendmentsReplayForm | web/src/services/caf.service.js:538-650 | in every reachable state merging the amendments since submission into the submitted form gives the current form, each amendment since submission recorded exactly the paths it changed, and both histories are numbered 1..n |
| CafTheorems.SubmissionAgrees | web/src/services/caf.service.js:384-457 | a case has a universal id exactly when it is not a draft; tasks, approval tracks and required departments always name the same distinct departments in the same order, none while draft |
| CafTheorems.NoTasksIff | web/src/services/caf.service.js:384-457 | a case has no tasks if and only if it is a draft or the form it was submitted with needed no department |
| CafTheorems.TasksCurrentIff | web/src/services/caf.service.js:384-615 | after every run tasks, tracks and required departments of a submitted case name the departments its current form needs if and only if that form fires the rules the assessed form fired |
| CafWitness.ZeroDemandForm | web/src/services/approval-track.service.js:38-139 | a form with 0 kW and no employees, and no flag set, needs no department |
| CafTheorems.SubmittedWithoutTasks | web/src/services/caf.service.js:384-533 | every admissible draft that needs no department ends up submitted and without tasks |
| CafWitness.RunToNoTasks | web/src/services/caf.service.js:131-536 | two operations from the empty store, on what the validators make of one input, that lead to a submitted case without tasks |
| CafWitness.RunToStaleTasks | web/src/services/caf.service.js:538-615 | the same run and one amendment on validated input, after which the case has no tasks and its form needs the power department |
| CafWitness.ZeroAnswer | web/src/repositories/case.repository.js:26-55 | in that run the duplicate query finds the draft itself, and nothing else |
| CafWitness.ZeroAccepted | web/src/validators/caf.validators.js:176-302 | the draft validator accepts that input, and the final validator the stored form, with every required field, format, range and attachment |
| CafWitness.ZeroKept | web/src/validators/caf.validators.js:54-167 | sanitising the stored form again keeps its sections, its report and its lack of a source reference |
| CafTheorems.RunExtends | web/src/services/caf.service.js:131-679 | whatever operations follow, on whatever cases: logs and histories only grow, no case returns to draft, and universal id, tracks, departments, acknowledgement, recorded keys and tasks of a submitted case stay as they are |
| CafTheorems.StepExtends | web/src/services/caf.service.js:131-679 | the same for each single operation, refused ones included |
| CafTheorems.LookupFindsTheCase | web/src/repositories/case.repository.js:3-20 | a case id and a universal id each resolve to their own case and never to another, because no draft id has the form of a universal id |
| CafTheorems.IdsAndAcknowledgementsDistinct | web/src/services/caf.service.js:384-443 | over every run two submitted cases differ in universal id and in acknowledgement number |
| CafTheorems.LeavesDraftIff | web/src/services/caf.service.js:328-384 | a submission moves a draft out of draft if and only if validation passed, no blocking duplicate was found and any other duplicate was confirmed; otherwise cases, tasks and counters are unchanged |
| CafTheorems.RefusalCauses | web/src/services/caf.service.js:328-382 | which of the three refusals a draft meets: failed validation, a candidate with the same source reference, or an unconfirmed duplicate, each if and only if |
| CafTheorems.ResubmittableIffAmended | web/src/services/caf.service.js:624-631 | among the service's own operations a resubmission with a reason succeeds exactly for cases amended since their submission |
| CafTheorems.SubmissionStoresForm | web/src/services/caf.service.js:413-421 | field by field, a submission stores the validated form, with a confirmation or reason given at submission written into it |
| CafTheorems.SubmissionRecordsKey | web/src/services/caf.service.js:407-455 | an admitted submission with an idempotency key leaves the case submitted under its owner with that key recorded |
| CafTheorems.RecordedKeyReplays | web/src/services/caf.service.js:310-326 | submitting a submitted case with a recorded key, by case id or by universal id, answers with its tasks and changes nothing |
| CafTheorems.ResubmissionReplays | web/src/services/caf.service.js:303-536 | submit once: after an admitted submission and any operations in between, a submission with the same key returns the tasks of the first one and leaves the state as it is |
| CafDuplicates.DraftDuplicatesItself | web/src/repositories/case.repository.js:26-55 | a draft that matches the query about itself is always reported as a duplicate, whatever else matches; then submission needs a confirmation, and is blocked if the source reference was kept |
| CafDuplicates.DuplicateOfItselfIff | web/src/repositories/case.repository.js:26-55 | with no other matching case: duplicate if and only if the draft matches the query about itself, blocking if and only if it matches and kept its source reference |
| CafDuplicates.MatchesItselfIff | web/src/repositories/case.repository.js:26-55 | a draft matches itself if and only if it is recent and the actor's own, unless its source reference was edited and its form has no other criterion |
| CafDuplicates.NamedProjectMatches | web/src/repositories/case.repository.js:42-47 | a draft that names project and district matches itself if and only if it is recent and the actor's own |
| CafSubmission.SubmittableOnRuns | web/src/services/caf.service.js:328-382 | in every state reached on validated input a draft that no other case matches is admitted if and only if it is valid and, when recent and own, confirmed and without its source reference |
| CafTheorems.MergeFrame | web/src/services/caf.service.js:556-567 | an amendment changes nothing outside the keys of its patch, nor, in the eight sections, outside the fields of its patch, and these get the patch's values |
| CafTheorems.MergeIdempotent | web/src/services/caf.service.js:556-567 | applying an amendment twice is applying it once |
| CafTheorems.ChangedFieldsReplayAmendment | web/src/services/caf.service.js:569-578 | for an amendment that records the diff of forms the differ can address: writing the merged form's values at the recorded fields turns the form before it into the form after it |
| CafShapes.RecordedFieldsReplay | web/src/services/caf.service.js:554-586 | the same for every amendment since a submission in every state reached on sanitised input: the recorded fields are what the differ lists, and writing the later values at them gives the form after the amendment |
| CafShapes.AmendmentReplacesForm | web/src/services/caf.service.js:555-567 | merging a sanitised patch into a sanitised form gives the patch |
| CafShapes.RunShaped | web/src/services/caf.service.js:131-679 | over every run on sanitised input every stored form and every recorded patch has the sanitiser's keys |
| CafShapes.ShapeAddressable | web/src/services/caf.service.js:65-94 | forms with keys that are neither empty nor dotted are ones the differ's paths can address |
| CafValidators.SanitisedHasShape | web/src/validators/caf.validators.js:54-167 | whatever is sent, the sanitised form has exactly the sanitiser's keys at both levels, and plain values |
| CafValidators.CafSchemaSafe | web/src/validators/caf.validators.js:72-166 | none of the sanitiser's keys is empty or dotted |
| CafSubmission.FinalNamesStored | web/src/validators/caf.validators.js:201-230 | a stored form that final validation accepts names its project and its district itself, although the validator looks at the form sanitised again |
| CafSubmission.SanitiseTwiceIff | web/src/validators/caf.validators.js:17-167 | sanitising a sanitised form, its sections, attachments and flat fields, changes nothing if and only if each of its dates, printed and read, is that date again |
| CafSubmission.AssessedAndStoredAgree | web/src/services/caf.service.js:384-421 | the form stored by a submission, sanitised once more and with the override fields written in, needs the same departments as the form assessed |
| CafSubmission.RunClean | web/src/services/caf.service.js:131-615 | after every run on validated input every draft is a sanitised form, amended drafts included, and every submission stored a form that needs what the assessed one needs |
| CafSubmission.TasksStaleIff | web/src/services/caf.service.js:384-615 | on such runs only amendments make tasks stale: they name what the current form needs if and only if it fires the rules of the submitted form |
| CafPreservation.ReachableInv | web/src/services/caf.service.js:131-679 | the agreement of status and log, form and amendments, tasks and tracks, ids and counters holds after every run from the empty store |
| CafPreservation.StepKeepsInv | web/src/services/caf.service.js:131-679 | every operation, admitted or refused, keeps that agreement |
| CafPreservation.SubmitKeepsInv | web/src/services/caf.service.js:384-533 | an admitted submission keeps it: new id unique, tasks and tracks in step, log moved from draft to submitted |
| CafPreservation.AmendmentExtendsReplay | web/src/services/caf.service.js:554-586 | an amendment of a submitted case extends the replay of its form by one step and leaves what was submitted alone |
| CafPreservation.NextIdIsNew | web/src/utils/universal-case-id.util.js:4-9 | the id the counter gives next belongs to no stored case |
| CafInvariant.RewriteKeepsInv | web/src/repositories/case.repository.js:12-59 | rewriting one case with its tasks and events disturbs no other case, and keeps the agreement when the rewritten case is sound by itself |
| CafModel.AttemptThenTransaction | web/src/services/caf.service.js:328-533 | the events logged by the checks followed by the transaction are the one step of an admitted submission |
| CafEdits.SubmissionAssessesLastEdit | web/src/services/caf.service.js:131-615 | over every run a draft holds the form of its last accepted create or update with the amendments since merged in, and what a submission assessed, and made tasks for, is that form |
| CafEdits.LocateExact | web/src/services/caf.service.js:56-63 | a name finds nothing, a case the actor may not see, or the case that goes by it, each if and only if |
| CafEdits.CreateStores | web/src/services/caf.service.js:131-186 | a draft is stored if and only if its form is valid and its id is free; each of its fields, and that no other case, task or counter changes |
| CafEdits.CreateLogs | web/src/services/caf.service.js:158-183 | its events: one creation from null to draft, one upload per attachment |
| CafEdits.UpdateStores | web/src/services/caf.service.js:204-215 | an accepted update stores every field of the validated form and no other and raises the version by one; the rest of the document, and every other case, stays |
| CafEdits.UpdateIff | web/src/services/caf.service.js:188-203 | an update is accepted if and only if the case is found, is a draft and the form is valid; each refusal has its own cause and changes nothing |
| CafEdits.UpdateLogs | web/src/services/caf.service.js:216-238 | its events: one update that stays in draft, one upload per attachment |
| CafEdits.ValidateStores | web/src/services/caf.service.js:243-301 | a validation stores nothing but one event that leaves the status where it is |
| CafEdits.AmendStores | web/src/services/caf.service.js:554-586 | an accepted amendment stores the merged form and one entry with its number, reason, patch and the diff of the two forms; a draft stays one, any other case is reopened, and nothing else changes |
| CafEdits.AmendIff | web/src/services/caf.service.js:538-553 | an amendment is accepted if and only if the case is found, neither closed nor withdrawn, and a reason is given; each refusal has its own cause |
| CafEdits.AmendLogs | web/src/services/caf.service.js:588-600 | its one event |
| CafEdits.ResubmitStores | web/src/services/caf.service.js:632-679 | an accepted resubmission stores one entry with its number, reason and fields, and the status; its one event |
| CafEdits.ResubmitIff | web/src/services/caf.service.js:617-631 | a resubmission is accepted if and only if the case is in one of the four states and a reason is given; each refusal has its own cause |
| CafEdits.SubmissionStores | web/src/services/caf.service.js:384-443 | an admitted submission writes one document, in eight of its fields, and assesses the form the draft held |
| CafEdits.SubmissionNumbers | web/src/services/caf.service.js:385-453 | the counter of the year moves by one and no other; id and acknowledgement carry its number, and the key, if given, is the only one on record |
| CafEdits.SubmissionVerdict | web/src/services/caf.service.js:339-442 | the verdict stored is the one on the draft's form: a duplicate if and only if a rule fires on a candidate, and never a blocking one |
| CafEdits.SubmissionTasks | web/src/services/caf.service.js:384-457 | one new task per department the draft needs, in order, of its type and title, due its SLA after the submission; no other task changes |
| CafEdits.AttemptLogs | web/src/services/caf.service.js:328-533 | the events of an attempt on a draft, admitted or refused: a duplicate is reported if and only if the form is valid and a rule fires |
| CafEdits.SubmittedAlready | web/src/services/caf.service.js:310-326 | a case that has left draft answers with its tasks if and only if the key is given and on record, and is refused for its status otherwise; neither changes anything |
| CafEdits.RefusedSubmissionStores | web/src/services/caf.service.js:328-382 | a submission that is not admitted stores no document, task, counter or submission |
| CafService.CafService.constructor | web/src/services/caf.service.js:96-105 | the service starts on the empty store, in which everything agrees |
| CafService.CafService.CreateDraft | web/src/services/caf.service.js:131-186 | stores the draft and logs its creation from null to draft, or refuses and changes nothing |
| CafService.CafService.UpdateDraft | web/src/services/caf.service.js:188-241 | takes the update step: the form of a draft is replaced (field by field: CafEdits.UpdateStores) and its version counted; refuses non-drafts and invalid forms without a change (CafEdits.UpdateIff) |
| CafService.CafService.UpdateFound | web/src/services/caf.service.js:195-240 | the part of it after the lookup: status check first, then validation, then the write that CafEdits.UpdateStores describes |
| CafService.CafService.ValidateDraft | web/src/services/caf.service.js:243-301 | logs a validation that leaves the status where it is, and changes nothing else |
| CafService.CafService.SubmitCase | web/src/services/caf.service.js:303-536 | replays, refuses or submits exactly as the step function of a submission says, and keeps the invariant |
| CafService.CafService.SubmitDraft | web/src/services/caf.service.js:328-536 | for a draft: submitted when admissible, otherwise refused for the first reason that applies, with only the events of the attempt logged |
| CafService.CafService.Attempt | web/src/services/caf.service.js:328-358 | the checks return the duplicate verdict and log a validation, and a duplicate if the form was valid |
| CafService.CafService.Transact | web/src/services/caf.service.js:384-533 | the transaction issues the id, rewrites the case, creates the tasks and appends the events, all of it or as one step |
| CafService.CafService.NextUniversalId | web/src/services/caf.service.js:385-386 | keeps the id a case already has, otherwise takes the next one from the counter repository |
| CafService.CafService.AmendCase | web/src/services/caf.service.js:538-615 | appends a numbered amendment with the diff it causes, merges it and reopens the case, except that a draft stays a draft; refuses closed and withdrawn cases |
| CafService.CafService.AmendFound | web/src/services/caf.service.js:545-615 | the part of it after the lookup: status, reason, then the merge, the diff and the event |
| CafService.CafService.ResubmitCase | web/src/services/caf.service.js:617-679 | appends a numbered resubmission and moves the case to response_submitted, from the four states that allow it |
| CafService.CafService.ResubmitFound | web/src/services/caf.service.js:624-679 | the part of it after the lookup |
| CafService.CafService.AppendMany | web/src/repositories/domain-event.repository.js:4-35 | appends the same events, with the same fresh ids and in the same order, to the domain log and to the timeline |
| CafService.CafService.Save | web/src/repositories/case.repository.js:12-14 | stores one document and logs the events about it; every other document stays |
| CafService.CafService.Find | web/src/repositories/case.repository.js:3-18 | finds a case by either id and checks access |
| CafService.CafService.FindOne | web/src/repositories/case.repository.js:3-18 | the document a case id or a universal id stands for |
| CafService.ListChangedFields | web/src/services/caf.service.js:577 | the paths recorded with an amendment are exactly those at which the two forms differ |
| FieldDiff.CountChangedFields | web/src/services/caf.service.js:65-94 | lists every path at which two objects disagree, each once, printed with dots below the prefix; terminates on the size of the tree |
| FieldDiff.ChangedAtKey | web/src/services/caf.service.js:69-91 | one key: recursion when both sides are objects, otherwise the path itself exactly when the values differ |
| FieldDiff.ListingIsDiff | web/src/services/caf.service.js:65-94 | whatever order the keys are visited in, the listed strings are the set of changed paths |
| FieldDiff.EmptyIffEqual | web/src/services/caf.service.js:65-94 | nothing is listed if and only if the two forms are equal |
| FieldDiff.ChangedIffLeafDiffers | web/src/services/caf.service.js:65-94 | a path is listed if and only if both forms hold objects all the way to it, and at it different values that are not both objects |
| FieldDiff.PathsDistinct | web/src/services/caf.service.js:72-89 | on forms without dotted or empty keys the listed strings are pairwise distinct |
| FieldDiff.PathReadsBack | web/src/services/caf.service.js:72 | on such forms a listed string splits back into the keys it was built from |
| FieldDiff.WriteSettles | web/src/services/caf.service.js:72-89 | copying the new value, or its absence, at a changed path takes exactly that path out of the diff |
| FieldDiff.PatchRestores | web/src/services/caf.service.js:65-94 | round trip: copying the new values at the listed paths, in the listed order, turns the old form into the new one |
| FieldDiff.RoundTripIffSafeKeys | web/src/services/caf.service.js:72 | the round trip holds for all forms over a set of keys if and only if no key is empty or dotted |
| FieldDiff.UnsafeKeyLost | web/src/services/caf.service.js:72 | for every empty or dotted key, a form whose change is lost |
| FieldDiff.DistinctIff | web/src/services/caf.service.js:72-89 | over a set of dot-free keys every listing is without repeats if and only if the empty key is not among them, or is the only one |
| FieldDiff.EmptyKeyRepeatsAPath | web/src/services/caf.service.js:72 | for every key but the empty one, two forms whose listing repeats it, once from below an empty top-level key |
| ApprovalTracks.CalculateApprovalTracks | web/src/services/approval-track.service.js:25-165 | the five blocks push exactly the departments whose rule fires, with their tracks and explanations, and the attachments without repeats |
| ApprovalTracks.Consider | web/src/services/approval-track.service.js:45-60 | one block: pushes to all the lists, or to none |
| ApprovalTracks.PushBlocks | web/src/services/approval-track.service.js:45-156 | the five blocks in order |
| ApprovalTracks.BlocksFilter | web/src/services/approval-track.service.js:45-156 | the five blocks amount to filtering the fixed list of departments |
| ApprovalTracks.NeededDepartmentsExact | web/src/services/approval-track.service.js:38-156 | a department is listed if and only if its rule fires, and once |
| ApprovalTracks.NoneNeededIff | web/src/services/approval-track.service.js:38-156 | no department is listed if and only if no rule fires |
| ApprovalTracks.ListsAgree | web/src/services/approval-track.service.js:158-211 | required departments, tracks and initial tasks name the same departments in the same order |
| ApprovalTracks.ReasonsAgree | web/src/services/approval-track.service.js:45-163 | required department, track and explanation of a department carry the same reason and type, its own, and are mandatory |
| ApprovalTracks.AttachmentsAgree | web/src/services/approval-track.service.js:161-171 | the attachments returned with the tracks are those computed back from the tracks, up to order and without repeats |
| ApprovalTracks.AttachmentsExact | web/src/services/approval-track.service.js:25-165 | a document is asked for if and only if it is the project report or a needed department asks for it |
| ApprovalTracks.NeededIffTriggered | web/src/services/approval-track.service.js:38-139 | a department is needed if and only if one of its triggers, listed as a table of single-field tests, fires |
| ApprovalTracks.SoleFieldDecides | web/src/services/approval-track.service.js:38-139 | a form with a single field filled needs a department if and only if that field passes one of its tests |
| ApprovalTracks.InitialTasks | web/src/services/approval-track.service.js:173-211 | one task per track, for the case and in the order of the tracks, due after the SLA days of its track, the warning on the last whole day within four fifths of them |
| DuplicateDetection.CheckDuplicate | web/src/services/duplicate-detection.service.js:17-98 | the accumulating loop computes the verdict: maximum score, matches, distinct reasons, blocking at 100 |
| DuplicateDetection.ScoreCandidate | web/src/services/duplicate-detection.service.js:40-78 | the rule-by-rule updates of one candidate give the score of the strongest rule that fires and the reasons of all that do; only the source rule blocks |
| DuplicateDetection.ConfidenceIsMaximum | web/src/services/duplicate-detection.service.js:33-98 | the confidence is an upper bound of the candidates' scores and is reached, or 0 |
| DuplicateDetection.BlockingIffSameSource | web/src/services/duplicate-detection.service.js:43-52 | blocking if and only if some candidate carries the same source reference |
| DuplicateDetection.DuplicateIffSomeRuleFires | web/src/services/duplicate-detection.service.js:43-97 | a duplicate is reported if and only if one of the four rules fires on some candidate |
| DuplicateDetection.VerdictPermutes | web/src/services/duplicate-detection.service.js:33-97 | confidence, verdict, blocking and the set of reasons do not depend on the order of candidates, and no reason repeats |
| DuplicateDetection.ConfidenceLevels | web/src/services/duplicate-detection.service.js:40-78 | the confidence is 0, 70, 75, 80 or 100, and which rules fired on some candidate can be read off it, in both directions |
| DuplicateDetection.MatchedExact | web/src/services/duplicate-detection.service.js:81-92 | the matched cases are the candidates some rule fires on, in their order, each with the confidence it gives by itself |
| DuplicateDetection.ReasonsExact | web/src/services/duplicate-detection.service.js:43-93 | the sentence of a rule is among the reasons if and only if the rule fires on some candidate |
| DuplicateDetection.WhatCannotMatch | web/src/services/duplicate-detection.service.js:43-78 | no block without both parts of a source reference, no site without a tax number, no draft of somebody else, no project of another district |
| DuplicateDetection.CompareAddressIff | web/src/services/duplicate-detection.service.js:8-12 | two addresses are close if and only if, case and runs of blanks aside, one stands within the other and neither is blank; in either order |
| DuplicateDetection.VerdictIgnoresCase | web/src/services/duplicate-detection.service.js:4-97 | writing the form in capitals changes nothing in the verdict |
| CaseIds.IdReadsBack | web/src/utils/universal-case-id.util.js:4-9 | the last two parts of an id parse to its year and its sequence number, also beyond six digits |
| CaseIds.IdInjective | web/src/utils/universal-case-id.util.js:4-9 | equal ids have equal years and sequence numbers |
| CaseIds.IdSplits | web/src/utils/universal-case-id.util.js:8 | an id splits at its dashes into the parts of the prefix, the year and the padded number |
| CaseIds.AcknowledgementOfId | web/src/services/acknowledgement.service.js:4-9 | the acknowledgement number is the universal id under its own prefix |
| CaseIds.AcknowledgementInjective | web/src/services/acknowledgement.service.js:4-9 | two ids have the same acknowledgement number if and only if they are the same |
| CaseIds.DraftIdIsNoUniversalId | web/src/utils/caseId.js:1-7 | no draft case id is a universal id |
| CaseIds.CounterRepository.GetNextSequence | web/src/repositories/counter.repository.js:3-16 | advances one key by one, from 1, and leaves the other keys alone |
| CaseIds.CounterRepository.GenerateUniversalCaseId | web/src/utils/universal-case-id.util.js:4-9 | the id of the year and of the counter's next number |
| CaseIds.IdsNeverCollide | web/src/utils/universal-case-id.util.js:4-9 | over every run of the generator, through any years in any order, no id is issued twice |
| CaseIds.NumbersConsecutive | web/src/repositories/counter.repository.js:3-16 | the n-th id generated in a year carries the number n, whatever the other years do |
| CaseIds.CounterCountsYear | web/src/repositories/counter.repository.js:3-16 | the counter of a year stands at the number of ids generated in it |
| CaseIds.CounterKeyInjective | web/src/utils/universal-case-id.util.js:7 | different years have different counters |
| GatewayIdempotency.ExactlyOnce | apps/gateway/src/middleware/idempotency.middleware.js:24-80 | in every run whose handlers end within their leases and in which no success is torn from its record, a record has at most one running handler and a legal life: executed for one request, successful at most once, never executed after that; a stored record is completed exactly when it succeeded and holds that response |
| GatewayIdempotency.LegalLifeMeans | apps/gateway/src/middleware/idempotency.middleware.js:33-80 | a legal life in plain terms: all successes, recorded or not, and all replays of a record carry one response, all executions one request, and after a success there are only replays and conflicts |
| GatewayIdempotency.CompletedStays | apps/gateway/src/services/idempotency.service.js:42-116 | no step changes a completed record, except its removal once expired |
| GatewayIdempotency.IdentityStays | apps/gateway/src/services/idempotency.service.js:68-116 | scope, request hash and expiry of a record never change |
| GatewayIdempotency.WaitsIffLocked | apps/gateway/src/services/idempotency.service.js:73-89 | a matching request is told to wait if and only if an unfinished record's lock is in force; from the end of the lease on it is executed or, if completed, replayed |
| GatewayIdempotency.ConflictIffOtherPayload | apps/gateway/src/services/idempotency.service.js:73-75 | a conflict is reported if and only if the payload differs from the recorded one |
| GatewayIdempotency.OverrunLeaseRunsTwice | apps/gateway/src/services/idempotency.service.js:81-116 | in every reachable state with a handler past its lease, one more matching request starts a second one, and if both succeed the stored response is overwritten |
| GatewayScopes.OneHandlerPerScope | apps/gateway/src/services/idempotency.service.js:27-31 | with timely handlers whose leases end before their records may be removed, at most one handler runs per key, method, route and actor |
| GatewayScopes.JoinableIff | apps/gateway/src/services/idempotency.service.js:46-90 | in every state of timely handlers: a handler, its record stored or removed, can get company on its scope if and only if it has company already, or the lock time is not zero and before its lease ends the scope has no record, a failed one, or one whose lock or life ends |
| GatewayScopes.StoredOpensIff | apps/gateway/src/services/idempotency.service.js:85-89 | for a handler whose own record is stored this is so if and only if its lease ends after the expiry of that record |
| GatewayScopes.FirstLeaseCovered | apps/gateway/src/services/idempotency.service.js:46-59 | a first lease ends before its record may be removed if and only if the lock time is at most the time to live |
| GatewayScopes.OpenScopeRunsTwice | apps/gateway/src/services/idempotency.service.js:46-89 | the steps that lead there: a request takes over the record of the scope once its lock is over, or starts a new one once it is gone, as a second timely handler |
| GatewayScopes.TimelyRunWithTwoHandlers | apps/gateway/src/services/idempotency.service.js:42-90 | for every lock time of at least 1 ms and every time to live, a run from the empty collection with timely handlers only that ends with two of them on one scope |
| GatewayScopes.SharedScopeIff | apps/gateway/src/services/idempotency.service.js:42-90 | timely handlers can share a scope under a configuration if and only if its lock time is not zero |
| GatewayIdempotency.StepKeepsInvIff | apps/gateway/src/middleware/idempotency.middleware.js:69-80 | a step from a state of timely handlers keeps unique scopes, leases matching locks and every record matching its life in the log, if and only if it does not tear a success from its record |
| GatewayIdempotency.TornSuccessRepeats | apps/gateway/src/middleware/idempotency.middleware.js:69-80 | in every such state: after a torn success a matching request at the end of the lease is executed and succeeds again, all handlers staying timely |
| GatewayAnswers.NoErrorReplayed | apps/gateway/src/middleware/idempotency.middleware.js:69-80 | over every run, timely or not, no completed record, no replayed response and no logged success carries a status of 500 or more |
| GatewayAnswers.StoredFinish | apps/gateway/src/middleware/idempotency.middleware.js:69-80 | a stored end of a handler fails the record from status 500 on and otherwise completes it with exactly that response; nothing else changes |
| GatewayAnswers.ErrorIsRetried | apps/gateway/src/middleware/idempotency.middleware.js:69-74 | after a server error the next matching request is executed on that record, whatever happens on other scopes in between |
| GatewayAnswers.SuccessIsReplayed | apps/gateway/src/middleware/idempotency.middleware.js:69-80 | after any other response every later matching request is answered with exactly that response, whatever happens in between, until the record expires |
| GatewayAnswers.LostFinish | apps/gateway/src/middleware/idempotency.middleware.js:69-80 | when the write is lost, or the record gone, the store stays as it was |
| GatewayAnswers.FreshRequestRuns | apps/gateway/src/services/idempotency.service.js:42-61 | a request on a scope without a record is executed on a new one, locked for the lock time and expiring after the time to live |
| GatewayAnswers.RepeatedRequestGets | apps/gateway/src/services/idempotency.service.js:68-89 | on a scope with a record: refused, replayed and told to wait without a change, or taken over with the lock renewed and nothing else |
| GatewayAnswers.AnswerExact | apps/gateway/src/middleware/idempotency.middleware.js:34-60 | conflict, replay, wait or execution, each if and only if, told from payload, status and lock of the record |
| GatewayIdempotency.StepKeepsTidy | apps/gateway/src/services/idempotency.service.js:42-116 | unique scopes and leases matching locks are kept by every step of timely handlers, torn successes included |
| GatewayIdempotency.IdempotencyRecords.constructor | apps/gateway/src/services/idempotency.service.js:34-36 | the collection starts empty |
| GatewayIdempotency.IdempotencyRecords.BeginRecord | apps/gateway/src/services/idempotency.service.js:42-90 | inserts, or answers conflict, replayed, processing, or takes over, and writes nothing else |
| GatewayIdempotency.IdempotencyRecords.CompleteRecord | apps/gateway/src/services/idempotency.service.js:92-104 | sets status and response of the record with that id whatever its state, and is without effect if it is gone |
| GatewayIdempotency.IdempotencyRecords.FailRecord | apps/gateway/src/services/idempotency.service.js:106-116 | sets the status to failed and keeps the rest |
| GatewayIdempotency.Middleware.Handle | apps/gateway/src/middleware/idempotency.middleware.js:10-83 | refuses a request without a key, otherwise takes the arrival step of the machine and gives the client the answer that step logs |
| GatewayIdempotency.Middleware.Finish | apps/gateway/src/middleware/idempotency.middleware.js:69-80 | takes the finish step: failed from status 500 on, completed with the response otherwise (GatewayAnswers.StoredFinish); when the write fails, the step of a lost write (LostFinish) |
| EventConsumer.AtMostOnce | packages/shared/src/kafka/event-idempotency.service.js:87-101 | over every sequence of deliveries, failures and crashes that never tears a success from its record, each event succeeds at most once per handler and group, and its record says processed exactly when it did |
| EventConsumer.StepKeepsOnceIff | packages/shared/src/kafka/event-idempotency.service.js:87-101 | a delivery keeps that if and only if it does not tear a success |
| EventConsumer.TornSuccessRepeats | packages/shared/src/kafka/event-idempotency.service.js:93-100 | every torn success is repeated by a redelivery after the stale time that runs through |
| EventConsumer.ProcessedAbsorbing | packages/shared/src/kafka/event-idempotency.service.js:22-53 | a processed record never changes, and a delivery changes no record and no count but its own |
| EventConsumer.HandledOnceThenSkipped | packages/shared/src/kafka/event-idempotency.service.js:22-24 | a redelivery after a recorded success does nothing but commit |
| EventConsumer.UnfinishedIsRetried | packages/shared/src/kafka/event-idempotency.service.js:25-53 | after a crash or a failure without a recorded success, a redelivery at or after the stale time runs the handler |
| EventConsumer.LostIff | packages/shared/src/kafka/event-consumer.js:41-143 | after every run: a delivery loses its event, committed without ever being handled or dead-lettered, if and only if it comes within the stale time of an attempt that began and was never marked, and nothing came of the event before |
| EventConsumer.NothingLost | packages/shared/src/kafka/event-consumer.js:41-143 | over every run with redelivery until the commit and deliveries spaced by the stale time, no event is lost, whatever crashes and failures there are |
| EventConsumer.DeadLettersExact | packages/shared/src/kafka/event-consumer.js:41-143 | over every run with redelivery until the commit, a message is dead-lettered once for every crash between its dead letter and its commit, and once more exactly when it was acknowledged for a dead letter |
| EventConsumer.TornBurialRepeats | packages/shared/src/kafka/event-producer.js:98-127 | such a crash does cause another dead letter |
| EventConsumer.BurialCounts | packages/shared/src/kafka/event-consumer.js:41-143 | under redelivery until the commit a message is committed at most once |
| EventConsumer.DispositionExact | packages/shared/src/kafka/event-consumer.js:41-143 | wherever the process dies: no effect happens twice, a commit is the last one and stands for exactly one of a recorded success, a dead letter, or a message skipped or ignored without any other effect |
| EventFates.RetryableIsRethrown | packages/shared/src/kafka/event-consumer.js:116-128 | a handler that is due and throws a retryable error, with the failure recorded: the effects are exactly the attempt and its mark, nothing is dead-lettered or acknowledged, and the call throws |
| EventFates.DeadLetterIff | packages/shared/src/kafka/event-consumer.js:41-142 | a message is dead-lettered if and only if it cannot be delivered, its attempt cannot be recorded or fails for good, the topic accepts and the process lives so long |
| EventFates.CommittedIff | packages/shared/src/kafka/event-consumer.js:41-143 | a message is acknowledged if and only if it is ignored, held, handled and recorded so, or dead-lettered, and the process lives so long |
| EventFates.FateIff | packages/shared/src/kafka/event-consumer.js:41-143 | the call returns if and only if the message is acknowledged, and throws if and only if the dead-letter topic refuses or a retryable error is on record |
| EventFates.BeganIff | packages/shared/src/kafka/event-idempotency.service.js:15-54 | the attempt is put on record if and only if the message is well-formed and routed, the store is up and the event is not held |
| EventFates.SucceededIff | packages/shared/src/kafka/event-idempotency.service.js:82-101 | the handler succeeds if and only if it is due, returns and the process lives so long |
| EventFates.MarkedProcessedIff | packages/shared/src/kafka/event-idempotency.service.js:82-101 | the success is recorded if and only if the store takes it, too |
| EventFates.MarkedFailedIff | packages/shared/src/kafka/event-idempotency.service.js:82-101 | a failure of the handler, or of recording its success, is recorded if and only if the store takes it |
| EventFates.RecordsAfter | packages/shared/src/kafka/event-idempotency.service.js:15-101 | a delivery writes the record of its own event and no other: processed, failed or still processing, as the case may be |
| EventFates.RetriedForever | packages/shared/src/kafka/event-consumer.js:116-128 | with the store up and redeliveries spaced by the stale time, a message whose handler always throws a retryable error is never acknowledged, dead-lettered or handled, over every run |
| EventFates.RetriedSettledIff | packages/shared/src/kafka/event-consumer.js:96-143 | without these assumptions it is settled if and only if some delivery finds its event held, or the store fails that delivery and the dead-letter topic accepts |
| EventConsumer.EventIdempotencyService.BeginProcessing | packages/shared/src/kafka/event-idempotency.service.js:15-54 | skips processed and freshly processing records unchanged, otherwise marks the record as processing |
| EventConsumer.EventIdempotencyService.MarkProcessed | packages/shared/src/kafka/event-idempotency.service.js:56-70 | sets one record to processed, creating it if needed |
| EventConsumer.EventIdempotencyService.MarkFailed | packages/shared/src/kafka/event-idempotency.service.js:72-85 | sets one record to failed, creating it if needed |
| EventConsumer.Consumer.EachMessage | packages/shared/src/kafka/event-consumer.js:41-143 | performs the effects of the delivery's script in order, up to the crash if there is one, on the records and on the log; what it does is told from its inputs by EventFates.DeadLetterIff, CommittedIff and FateIff |
| EventConsumer.Consumer.WithIdempotency | packages/shared/src/kafka/event-idempotency.service.js:87-101 | the part of it inside withIdempotency and the catch block, with a crash possible after every effect; effect by effect: EventFates.BeganIff to MarkedFailedIff |
| EventConsumer.Consumer.Handle | packages/shared/src/kafka/event-idempotency.service.js:93-96 | the handler and the mark after it; see EventFates.SucceededIff and RecordsAfter |
| EventConsumer.Consumer.Fail | packages/shared/src/kafka/event-consumer.js:116-142 | the catch blocks: the mark, then a rethrow or the dead letter; a retryable error on record is thrown on and settles nothing (EventFates.RetryableIsRethrown) |
| EventConsumer.Consumer.PublishDeadLetter | packages/shared/src/kafka/event-producer.js:98-127 | the dead letter, refused or followed by the commit |
| EventConsumer.Consumer.Return | packages/shared/src/kafka/event-consumer.js:40-42 | the commit of the offset |
| EventProducer.StablePartition | packages/shared/src/kafka/event-producer.js:73-96 | each batch is non-empty, has its own topic and holds, under their partition keys, the in-order subsequence of the events routed there; together the batches are a permutation of the input |
| EventProducer.BatchesPermute | packages/shared/src/kafka/event-producer.js:77-94 | no message is lost, repeated or invented by the grouping |
| EventProducer.AllOrNothingBeforeSending | packages/shared/src/kafka/event-producer.js:78-95 | if any event fails validation or routing nothing is sent; otherwise a prefix of the batches is, all of them exactly when the call succeeds |
| EventProducer.SendsUpToRefusal | packages/shared/src/kafka/event-producer.js:73-96 | the batches go out one by one up to the first refused topic, which is the answer; a disabled producer sends nothing |
| EventProducer.FirstUnacceptableAnswers | packages/shared/src/kafka/event-producer.js:78-80 | the answer is about the first unacceptable event, and a malformed one is reported as such before it is routed |
| EventProducer.RouteExact | packages/shared/src/events/event-topic-router.js:5-20 | a given topic wins; otherwise the topic is that of the one prefix the name starts with, and there is none if and only if it starts with none |
| EventProducer.RoutesExclusive | packages/shared/src/events/event-topic-router.js:5-20 | no event name matches two routes |
| EventProducer.GroupByTopic | packages/shared/src/kafka/event-producer.js:77-89 | the first loop either reports the first event that is invalid or has no topic, or ends with one group per topic in order of first appearance |
| EventProducer.AddToGroup | packages/shared/src/kafka/event-producer.js:80-88 | one event joins the end of its topic's group and no other |
| EventProducer.KafkaProducer.PublishToTopic | packages/shared/src/kafka/event-producer.js:25-55 | one batch is sent, skipped when disabled, or refused |
| EventProducer.KafkaProducer.PublishEvents | packages/shared/src/kafka/event-producer.js:73-96 | outcome and batches sent, with or without a topic override |
| EventProducer.KafkaProducer.Publish | packages/shared/src/kafka/event-producer.js:77-95 | the same for a given routing |
| EventProducer.KafkaProducer.SendAll | packages/shared/src/kafka/event-producer.js:91-95 | batches are sent in order until one is refused |
| ObjectPath.GetPut | services/adapter-runtime/src/utils/object-path.js:1-21 | on a value: a write whose walk assigns keys of objects and items of arrays only is read back at its own path |
| ObjectPath.GetPutDisjoint | services/adapter-runtime/src/utils/object-path.js:1-21 | on a value: such a write changes what is read at a path that does not overlap it if and only if that is the length of an array it extends, or lies inside a text it replaces |
| Containers.Memory.SetByPath | services/adapter-runtime/src/utils/object-path.js:8-21 | the loop, in place on a heap of containers: what it leaves of every container, and whether it throws |
| Containers.ScalarTarget | services/adapter-runtime/src/utils/object-path.js:8-21 | on a number, a boolean or a text nothing is written, and an error is thrown if and only if the walk falls off it before its last segment; on null and undefined always |
| Containers.ContainerTarget | services/adapter-runtime/src/utils/object-path.js:1-21 | on an object or array, keys, items and other names alike: a write is read back unless its walk comes to the length of an array; there it throws, or it is the last segment and a length, and then that length is read back |
| Containers.LengthCuts | services/adapter-runtime/src/utils/object-path.js:20 | setting the length of an array drops the items from there on and keeps everything else |
| Containers.LengthsExact | services/adapter-runtime/src/utils/object-path.js:20 | which values are lengths: numbers of 32 bits, truth values, null, and text of digits that is one |
| Ownership.WriteIsPut | services/adapter-runtime/src/utils/object-path.js:8-21 | when the walk meets only containers the target alone holds, the write in place succeeds, changes nothing older, and the target then holds what the write on values gives |
| Ownership.OwnWalkIffLands | services/adapter-runtime/src/utils/object-path.js:8-21 | on a target that shares no container these are exactly the walks that assign keys of objects and items of arrays |
| ObjectPath.LocalIff | services/adapter-runtime/src/utils/object-path.js:1-21 | on a value, where no container is in two places, replacing what is there lands and touches nothing beside it if and only if the walk to it meets entries of objects and arrays only, or it is the length of an empty text |
| ObjectPath.PutCommutes | services/adapter-runtime/src/utils/object-path.js:8-21 | on a value: two such writes at paths of which neither is a prefix of the other commute |
| MappingEngine.RoundTrip | services/adapter-runtime/src/mappings/mapping-engine.js:76-94 | out through a profile of copy, boolean_to_yes_no and injective enum_map mappings with non-overlapping targets and sources, and back through its inverse, each source path gets its value back if and only if that value is reversible; tables may hold values of any kind |
| MappingEngine.ValueRoundTrip | services/adapter-runtime/src/mappings/mapping-engine.js:15-26 | the same for one transform on one value |
| MappingEngine.OrderIndependent | services/adapter-runtime/src/mappings/mapping-engine.js:77-80 | mappings whose targets do not overlap give the same payload in any order |
| MappingEngine.PayloadOrderIndependent | services/adapter-runtime/src/mappings/mapping-engine.js:76-84 | so does the whole pipeline, the error case included |
| MappingEngine.OverlapOrderMatters | services/adapter-runtime/src/mappings/mapping-engine.js:77-80 | two overlapping targets for which the order decides |
| MappingEngine.TargetHoldsItsValue | services/adapter-runtime/src/mappings/mapping-engine.js:4-40 | every target holds the value of its own mapping |
| MappingEngine.TargetHolds | services/adapter-runtime/src/mappings/mapping-engine.js:4-40 | what that value is, transform by transform: conditional, combine, constant, boolean, enum and copy |
| MappingEngine.CombineJoins | services/adapter-runtime/src/mappings/mapping-engine.js:10-13 | combine gives the texts of the values that are there, joined by the separator or a space, and trimmed |
| MappingEngine.DefaultsFillOnlyGaps | services/adapter-runtime/src/mappings/mapping-engine.js:42-50 | a default fills a key that reads undefined and never overwrites one that does not |
| MappingEngine.RequiredIffFilled | services/adapter-runtime/src/mappings/mapping-engine.js:63-74 | the payload is passed on unchanged if and only if no required path reads undefined, null or the empty text; otherwise exactly those that do are reported, in order |
| MappingEngine.DeliversIff | services/adapter-runtime/src/mappings/mapping-engine.js:76-84 | the same for the whole call on values: delivered if and only if no required path reads one of the three after the enum stage |
| SharedMapping.ApplyDefaultValues | services/adapter-runtime/src/mappings/mapping-engine.js:42-50 | allocates a copy of the top level and, in any order of the defaults, fills exactly its gaps with the defaults themselves; nothing else changes |
| SharedMapping.ApplyEnumMappings | services/adapter-runtime/src/mappings/mapping-engine.js:52-61 | allocates a copy of the top level and applies the enum mappings one after the other, in place, each to the heap the last one left |
| SharedMapping.ApplyFieldMapping | services/adapter-runtime/src/mappings/mapping-engine.js:4-40 | writes what the transform yields, a container of the source or the profile itself included, at the target |
| SharedMapping.ApplyFieldMappings | services/adapter-runtime/src/mappings/mapping-engine.js:77-80 | the mappings one after the other, up to one that throws |
| SharedTheorems.StageTranslates | services/adapter-runtime/src/mappings/mapping-engine.js:52-61 | when no enum mapping rewrites below a shared container: each path of the payload then holds the translation of what was there before the stage |
| SharedTheorems.StageFrame | services/adapter-runtime/src/mappings/mapping-engine.js:52-61 | and every path that overlaps none of them holds what it held before |
| SharedTheorems.StageOrderIndependent | services/adapter-runtime/src/mappings/mapping-engine.js:52-61 | and with the enum mappings in any other order the call delivers the same, changing nothing older |
| MappingEngine.EnumInsideText | services/adapter-runtime/src/mappings/mapping-engine.js:52-61 | plainness is needed: a mapping about the length of a text takes the text's characters away |
| SharedMapping.MapCanonicalToDepartment | services/adapter-runtime/src/mappings/mapping-engine.js:76-94 | the four stages in their order, in place: the heap they leave, the caller's containers and the profile's included, and what is returned or thrown; the inbound direction has the same body; what it delivers and what it reports missing is SharedTheorems.DeliversIffFilled |
| SharedTheorems.FieldStage | services/adapter-runtime/src/mappings/mapping-engine.js:76-80 | with targets that do not overlap the field mappings leave everything older alone, do what MapFields says on values, and put older containers exactly where a mapping's value is one |
| SharedTheorems.DeliversIffFilled | services/adapter-runtime/src/mappings/mapping-engine.js:63-84 | on the heap, whatever is shared: a call that does not throw on the way delivers if and only if no required path finds undefined, null or the empty text, and otherwise reports exactly those that do |
| SharedTheorems.EvaluateStored | services/adapter-runtime/src/mappings/mapping-engine.js:4-40 | every transform, conditional and combine included, yields in place what it yields on values |
| SharedTheorems.EnumStage | services/adapter-runtime/src/mappings/mapping-engine.js:52-61 | on any payload: older containers stay as they are throughout the stage if and only if no mapping rewrites a value below one, and then the stage does what it does on values |
| SharedTheorems.CallerKeepsIff | services/adapter-runtime/src/mappings/mapping-engine.js:76-84 | for a whole call: the caller's payload and the profile stay as they are throughout if and only if no enum mapping rewrites a value strictly below a target or a filled default that holds a container |
| SharedTheorems.MappedAsValues | services/adapter-runtime/src/mappings/mapping-engine.js:76-84 | then everything older is unchanged after the call, and it delivers the payload, or the missing fields, of MapPayload |
| SharedTheorems.BothChange | services/adapter-runtime/src/mappings/mapping-engine.js:52-61 | whenever two paths of a payload find one older container, a rewrite below the one is a rewrite below the other |
| SharedTheorems.CopiesChangeTogether | services/adapter-runtime/src/mappings/mapping-engine.js:38-61 | an input with one container copied to two targets: the translation below one shows below the other and in the caller's payload |
| SharedTheorems.CopiesOnValues | services/adapter-runtime/src/mappings/mapping-engine.js:38-61 | on values the same profile and input translate the one target only |
| SharedTheorems.UndoneLater | services/adapter-runtime/src/mappings/mapping-engine.js:52-61 | a second mapping can write the old value back, so that only the time between shows the change |
| SharedTheorems.NextCallDiffers | services/adapter-runtime/src/mappings/mapping-engine.js:42-61 | a profile whose default is rewritten by a call, so that the next call on the same payload delivers something else |
| Redaction.RedactionExact | packages/shared/src/logger/redaction.js:27-48 | two values redact to the same output if and only if they agree everywhere except below sensitive keys, at any depth |
| Redaction.RedactSensitive | packages/shared/src/logger/redaction.js:33-48 | the entry-by-entry code treats top-level arrays, nested arrays and objects alike |
| Redaction.RedactValue | packages/shared/src/logger/redaction.js:27-31 | containers are redacted inside, anything else is hidden |
| Redaction.RedactEntry | packages/shared/src/logger/redaction.js:36-46 | one entry: hidden, redacted inside or copied |
| Redaction.SensitiveIffSpelled | packages/shared/src/logger/redaction.js:22-25 | a key is sensitive if and only if some piece of it spells a sensitive word, letter case aside |
| Redaction.IndexKeysAreSafe | packages/shared/src/logger/redaction.js:36-37 | no array index is a sensitive key |
| Redaction.RedactedHasNoSecret | packages/shared/src/logger/redaction.js:33-48 | in the output every sensitive key at any depth holds the marker |
| Redaction.UnchangedIffNoSecret | packages/shared/src/logger/redaction.js:33-48 | redaction changes a value if and only if some sensitive key holds something else than the marker |
| Redaction.RedactionIdempotent | packages/shared/src/logger/redaction.js:33-48 | redacting twice is redacting once |
| Redaction.RedactionKeepsShape | packages/shared/src/logger/redaction.js:33-48 | containers, lengths and keys stay, and so do scalars outside sensitive keys |
| PublicMetrics.MergeSmallGroups | apps/public-portal/src/services/public-metrics.service.js:11-21 | the loop keeps the large rows and merges the small ones |
| PublicMetrics.TotalConserved | apps/public-portal/src/services/public-metrics.service.js:11-21 | suppression preserves the sum of the counts |
| PublicMetrics.TotalReads | apps/public-portal/src/services/public-metrics.service.js:11-21 | a row counts by its key field, or by `count` where that is 0 |
| PublicMetrics.NoSmallGroup | apps/public-portal/src/services/public-metrics.service.js:11-21 | a published row is at or above the threshold or is the marked Other row |
| PublicMetrics.StageCountsSuppressed | apps/public-portal/src/services/public-metrics.service.js:69-79 | so is every row published of any documents |
| PublicMetrics.KeptInOrder | apps/public-portal/src/services/public-metrics.service.js:11-21 | the output is the rows at or above the threshold in their order, followed, exactly when the rest is not zero, by a marked Other row that counts the rest |
| PublicMetrics.MergeIdempotent | apps/public-portal/src/services/public-metrics.service.js:11-21 | suppressing twice is suppressing once, also when Other is itself below the threshold |
| PublicMetrics.MergedPermutes | apps/public-portal/src/services/public-metrics.service.js:11-21 | permuted rows give permuted output |
| PublicMetrics.BuildStageCounts | apps/public-portal/src/services/public-metrics.service.js:69-79 | the three cases: mock table, ready rows, accumulated rows |
| PublicMetrics.StageTable | apps/public-portal/src/services/public-metrics.service.js:72-78 | the map of stages ends with one row per stage, in order of first appearance, holding that stage's sum |
| PublicMetrics.AddDocument | apps/public-portal/src/services/public-metrics.service.js:73-77 | the inner loop accounts for every entry of a document |
| PublicMetrics.AddEntry | apps/public-portal/src/services/public-metrics.service.js:75 | one entry adds its count to its own stage |
| PublicMetrics.StageTotalConserved | apps/public-portal/src/services/public-metrics.service.js:69-79 | the published total equals the sum of what each document reports if and only if the documents of the other kind than the first amount to the same read the first one's way; without documents, if and only if the mock table sums to zero |
| PublicMetrics.StageTotalOfOneForm | apps/public-portal/src/services/public-metrics.service.js:69-79 | for documents that carry a stage and a count or counts per stage, and not both: if and only if those of the other kind than the first report nothing |
| PublicMetrics.PublishedTotal | apps/public-portal/src/services/public-metrics.service.js:69-79 | what the published total is in each of the three cases |
| PublicMetrics.FirstDocumentDecides | apps/public-portal/src/services/public-metrics.service.js:71 | two documents of different kinds whose order decides what is published |
| PublicMetrics.KeySumsAddUp | apps/public-portal/src/services/public-metrics.service.js:72-78 | the sums per stage add up to all the entries |
| PublicMetrics.StageRowsPermute | apps/public-portal/src/services/public-metrics.service.js:72-78 | permuted documents give the same rows, up to order |
| PublicMetrics.StageCountsOrderIndependent | apps/public-portal/src/services/public-metrics.service.js:69-79 | as long as the first document stays of the same kind, permuted documents give the same table up to order |
| MetricsCache.Cache.Get | apps/public-portal/src/services/public-metrics-cache.service.js:11-21 | returns the last value stored under the pair's key if it has neither expired nor been invalidated, and null otherwise |
| MetricsCache.Cache.Set | apps/public-portal/src/services/public-metrics-cache.service.js:23-30 | stores under one key and hides nothing of any other |
| MetricsCache.Cache.Invalidate | apps/public-portal/src/services/public-metrics-cache.service.js:32-36 | the sweep removes exactly the keys that contain the pattern |
| MetricsCache.Cache.GetOrSet | apps/public-portal/src/services/public-metrics-cache.service.js:38-44 | a hit exactly on a visible truthy value; otherwise the loaded value is returned and stored |
| MetricsCache.KeyInjective | apps/public-portal/src/services/public-metrics-cache.service.js:7-9 | metric names without a colon keep different pairs apart |
| MetricsCache.KeysCollideIff | apps/public-portal/src/services/public-metrics-cache.service.js:7-9 | in general two pairs share a key if and only if they are the same or one divides the other's text at a colon of its filters |
| MetricsCache.SharedKeyShows | apps/public-portal/src/services/public-metrics-cache.service.js:11-30 | then what is stored for one is shown for the other |
| MetricsCache.HitWasStored | apps/public-portal/src/services/public-metrics-cache.service.js:11-44 | a visible value was stored under the pair's key, is within its time to live, and was neither replaced nor invalidated since |
| MetricsCache.VisibleIff | apps/public-portal/src/services/public-metrics-cache.service.js:11-44 | in both directions: visible if and only if some call stored it under the key, to live until now or later, and no later call stored or invalidated that key |
| MetricsCache.HitAgreesWithLoader | apps/public-portal/src/services/public-metrics-cache.service.js:38-44 | with metric names without a colon, a cache filled only through its loader never disagrees with it |
| MetricsCache.InvalidateAll | apps/public-portal/src/services/public-metrics-cache.service.js:32-36 | the default pattern empties the view of every pair |
| MetricsCache.StoreAgrees | apps/public-portal/src/services/public-metrics-cache.service.js:23-30 | a store keeps the map in agreement with the history of calls, for every pair |
| MetricsCache.InvalidateAgrees | apps/public-portal/src/services/public-metrics-cache.service.js:32-36 | so does an invalidation |
| RetryPolicy.DelayBounds | services/adapter-runtime/src/retry/adapter-retry-policy.js:32-38 | every delay, of any attempt and jitter, lies between the smaller of base and cap, and the cap |
| RetryPolicy.NeverDecreasesIff | services/adapter-runtime/src/retry/adapter-retry-policy.js:32-38 | whatever the jitters the delay never drops from one attempt to the next, if and only if jitter is off, the first step gains 999 ms, or it reaches the cap |
| RetryPolicy.SecondBaseDoublingNeverDecreases | services/adapter-runtime/src/retry/adapter-retry-policy.js:3-9 | which is so for a base of at least a second that at least doubles |
| RetryPolicy.StaysAtCap | services/adapter-runtime/src/retry/adapter-retry-policy.js:32-38 | once the delay without jitter is at the cap, every later delay is, with any jitter |
| RetryPolicy.ReachesCap | services/adapter-runtime/src/retry/adapter-retry-policy.js:32-38 | a positive base that at least doubles gets there |
| RetryPolicy.TotalBelowCap | services/adapter-runtime/src/retry/adapter-retry-policy.js:32-38 | below the cap the jitter-free delays form a geometric series |
| RetryPolicy.DoublingTotal | services/adapter-runtime/src/retry/adapter-retry-policy.js:32-38 | doubling, n attempts below the cap wait base * (2^n - 1) in all |
| Sessions.AcceptsOnlyLastRotated | web/src/services/authService.js:57-174 | after every run a session is active exactly when it has no revocation time, and accepts exactly the last token rotated in, or none once revoked |
| Sessions.RefreshIffAccepted | web/src/services/authService.js:138-174 | a refresh succeeds if and only if the session accepts the token and the user exists; then the new token is accepted, and the old one only if it was signed in the same second with the same claims |
| Sessions.OtherSessionsUntouched | web/src/services/sessionService.js:37-77 | no step changes another session, except that logging out everywhere touches those of its own user |
| Sessions.NeverReactivated | web/src/services/sessionService.js:52-77 | a revoked session stays exactly as revoked over every run |
| Sessions.LockedForever | web/src/models/User.js:114-134 | once an account is locked every later login is refused, at any time and with any password |
| Sessions.FiveFailuresLock | web/src/models/User.js:118-125 | from any failure count, over every run without a right password of its user, at any times and whatever others do, an account is locked exactly when its failures add up to five; before that they are counted |
| Sessions.LoginIff | web/src/services/authService.js:57-127 | a login succeeds if and only if the user is known, neither disabled nor suspended, not locked, the password matches and the session id is new |
| Sessions.LoginRefusals | web/src/services/authService.js:60-100 | each refusal has its own cause, in the order of the checks |
| Sessions.LoginSessions | web/src/services/authService.js:106-127 | a successful login adds one session, which accepts exactly the token answered; any other leaves all sessions and issued tokens as they were |
| Sessions.LoginUsers | web/src/models/User.js:114-134 | a login changes no other user; a wrong password is counted and the fifth locks, a right one clears count and lock |
| Sessions.RefreshRefusals | web/src/services/authService.js:138-160 | each refusal of a refresh has its own cause and changes nothing |
| Sessions.RefreshRotates | web/src/services/authService.js:162-163 | a successful refresh changes the token of its session and nothing else |
| Sessions.LogoutEnds | web/src/services/sessionService.js:52-64 | a logged-out session accepts no token; no other session changes |
| Sessions.LogoutAllEnds | web/src/services/sessionService.js:66-77 | after logging out everywhere no session of the user accepts a token; sessions of others stay |
| Sessions.LoggedOutForGood | web/src/services/sessionService.js:37-77 | nor does it after any steps that follow |
| Sessions.OpenedByLogin | web/src/services/authService.js:57-127 | over every run each session was opened by a login of its own user, known, enabled and unlocked then, with the right password |
| Sessions.AuthService.AuthenticateLocalUser | web/src/services/authService.js:57-127 | the checks in their order, the failure count, and the new session with the token rotated in at once (Sessions.LoginIff, LoginRefusals, LoginSessions, LoginUsers) |
| Sessions.AuthService.RefreshSession | web/src/services/authService.js:138-174 | the three refusals in their order, or the rotation |
| Sessions.AuthService.Logout | web/src/services/authService.js:129-136 | revokes one active session and nothing else |
| Sessions.AuthService.CreateSession | web/src/services/sessionService.js:5-17 | one new active session holding the given token |
| Sessions.AuthService.RotateRefreshToken | web/src/services/sessionService.js:37-50 | replaces the token of a live session, and only of a live one |
| Sessions.AuthService.RevokeAllSessions | web/src/services/sessionService.js:66-77 | revokes the active sessions of one user |

## Left out

- Atomicity: every operation is one atomic step. Interleavings inside beginRecord and takeover, concurrent submissions of one case, and the fallback of runInTransaction without transactions are not modelled; the `created_retry` answer of beginRecord occurs only under such interleavings.
- Object key order: an object is a finite map, so two objects that differ only in key order are equal here, while `JSON.stringify` can tell them apart when they sit inside arrays. Keys are visited in no particular order.
- JavaScript values: numbers are integers, dates are their text, case folding and trimming are ASCII, and properties inherited from prototypes are not read.
- FieldDiff.EmptyIffEqual: for values JSON text can carry; `undefined` stored inside a compared form is left out there.
- ObjectPath: the laws are about values, in which no container is in two places, and about writes that assign keys of objects and items of arrays; Containers has the others. FieldDiff uses these writes on forms only.
- Containers.ToLength: text becomes an array length when it is decimal digits, blanks around them aside; signs, fractions, exponents and other notations are taken for no length.
- SharedMapping: the date_format transform depends on JavaScript date parsing and is left out.
- SharedTheorems.CallerKeepsIff: payload and profile are trees in which containers may be shared, and the payload does not hold the very container a profile compares with.
- MappingEngine.RoundTrip: for profiles without defaults, enum mappings and required fields; it is about the field mappings.
- Input validation: in the lifecycle the verdicts and the sanitised data of the validators are parameters, arbitrary ones. CafValidators models the validators themselves; how JavaScript reads numbers and dates from text, and orders dates, are parameters there, warnings and error messages are left out, and a null among the attachments, on which the code throws, is dropped.
- CafModel.Resolve: when a key is one case's id and another's universal id the database decides; CafTheorems.LookupFindsTheCase shows that this does not occur.
- Case documents: title, description, stage text, metadata other than the draft version, acknowledgement data other than its number, checksums, audit events and stored attachment documents; the reason sentences of the departments are represented by one name each.
- Unique index on source system and source reference: not enforced by the model, which therefore allows more runs. The index on caseId and the immutability of universalCaseId are modelled, the latter as set once.
- Other services: departments also change the status of a case (under scrutiny, query raised, rejected and so on); the runs are those of this service's own operations.
- CafService.ListChangedFields: the changed fields of an amendment are kept as a set; their order is the order of keys.
- Duplicate query: its sort order is left out and its limit of 25 kept; CafDuplicates.DraftDuplicatesItself assumes the limit was not reached.
- Environment overrides of prefixes, SLA, time to live and look-back period; the suppression threshold and the cache switch are parameters.
- Hashes and tokens: a hash is represented by what it hashes, a signed token by its user, session, claims and second. Expiry of tokens and sessions, access tokens, password reset, e-mail and one-time-password flows, changes of a user's status elsewhere, and the `existingSessionId` in a provisional token, which no stored session keeps, are left out.
- EventConsumer.Consumer.EachMessage: with an idempotency service; without one every delivery runs the handler. Errors of the store count as not retryable. Handler results, log lines and the contents of a dead-letter envelope are not modelled.
- EventProducer: event schemas are a parameter, headers and message values stand for their event, and publishEvent and publishDeadLetter, which send one message, are left out.
- PublicMetrics: the overview, department, rate and turnaround builders, percentages, and the approval fields the Other row lacks.
- RetryPolicy: which error codes are retried, a table look-up; multipliers are integers.
- MetricsCache: filters are represented by their JSON text, any text at all; loaders that fail and overlapping loads are not modelled.
- Controllers, routes, views, seed scripts, gateway stubs, scoring rules, roles and permissions, worker runners and the outbox.
