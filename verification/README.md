# Verification model of the Session projection, authentication and Runtime protocols

This project models the stateful cores of the repository in Dafny 4.11 and proves what
they promise over whole runs. `dafny verify dfyconfig.toml` checks the whole project.

## What is modelled

**The Session projection.** `Reducer.Reduce` is `reduceStreamEvent`: one event folded
into a projection of executions with runs, messages with parts, steps, statistics, the
pending queue, reminders and child links (`SessionTypes`). `ExecutionLifecycle` is the
lifecycle validator that answers valid, duplicate or invalid, together with the effect of
an accepted event. The proofs rest on one normal form: each block, tool or recovery event
is an edit of one part of one message (`PartEvents`), so that invariants are shown edit by
edit. The invariants are: message and part identity (`MessageIdentity`), agreement of
executions, steps and messages (`Correspondence`), final answers (`FinalAnswer`), tool
parts and live output (`ToolMachine`, `LiveOutput`), statistics as a census (`Census`),
output blocks as a finite map (`Blocks`), compaction (`Compaction`), queue and reminders
(`Inputs`), and child links (`ChildLinks`). `Runs` lifts all of them to every projection
reachable from the empty one and to any pair of an earlier and a later projection.
`Steps` relates a projection to the next one by one lemma per event. What an operation must
achieve, told without naming it, is in `Acceptance` (which lifecycle events are valid),
`FinalSelection` (how a step becomes the final answer), `StepLife` (when a step is active),
`ToolCalls` and `EndTable` (tables of what events make of parts) and `Arrivals` (queue,
commits, reminders). `AfterEnd` and
`EndedExecutions` are about what can reopen the conversation, or the messages of an
execution, after it has ended, `Outcomes` about what some
events decide for good, and `RoundTrips` says what complete event sequences leave behind,
field by field. `Witnesses` holds concrete runs from the empty projection, each within the
assumptions below, that end where a reader might not expect.

Loops and in-place steps of the source are methods proved equal to the functions the
lemmas are about: `Utf8.Utf8Suffix`, `Utf8.AppendLiveOutput`, `Messages.ScanLatestUnsettled`,
`ChildLinks.SelectLatestLinks`, `Compaction.CompactMessages`,
`RecoveryNotices.UpsertRecoveryNotice`.

**Authentication.** `AuthState` is the transition system, `AuthService.ServerAuthService`
the object whose methods perform it. A login is two steps, before and after its awaited
password verification, so that everything else can interleave. `LoginLimit` tells the login
limit from the log of failed logins, `SessionLife` what each operation achieves for sessions
and streams.

**Two concurrent protocols.** `Reconciliation` with `ReconciliationService` is the
per-project reconciliation of the Runtime, with `Withdrawal` on what shutdown and
cancellation stop; `RuntimeOwnership` with `ServerHost` is the
activation of the Runtime by the control plane, and `LateBoot` what a boot call out of
order can lead to; `HostProgress` shows that no failure is a dead end. Each stretch between awaits is one step.

**Values.** `Utf8` holds UTF-16 text with its UTF-8 size (section 3 of RFC 3629;
surrogates as in section 2.2 of RFC 2781), `Encoding` the encoding itself. `Json` holds structural comparison and the
bounded walk with one shared mutable budget.

## Assumptions

- Projection: ids from `generateId` are new among message and part ids, are not empty, and
  never have the form `recovery:<scope>:<id>`; the clock is positive (`step-end` tests
  `!step.completedAt`, `isActiveOpenStep` tests `=== undefined`); committed messages
  satisfy `isCommittedUserMessage` and arrive not compacted (`MessageIdentity.Admissible`).
  Nothing is assumed about the order of events.
- The statements about queue and conversation assume in addition that generated message ids
  are not queued (`Runs.UnqueuedIds`).
- Records compared with `equal` are represented by a `Snapshot`, a value up to that
  comparison; `Json.EqualIsSameMeaning` shows that the comparison is an equality of meanings.
- `unwrapAssistantProjectionEnvelope` is an arbitrary function on texts. `localeCompare` is an
  arbitrary real weight, distinct for distinct ids only where the sort order is claimed.
- Timestamps are integers. Each authentication operation reads the clock once, login starts
  see a clock that does not run backwards, tokens are new, and `maxLoginFailures` is at least 1.
- Reconciliation: registry reads answer, and workspace paths contain no NUL character.
- Runtime ownership: each boot call of `startRuntimeActivation` is safe when issued
  (`RuntimeOwnership.BootSafe`), which one boot call before any request is
  (`RuntimeOwnership.BootFirstIsSafe`); nothing is claimed after `shutdown()` begins.

## Findings

- The streamed preview equals the batch truncation without any assumption on where deltas
  are cut. Only the byte account depends on it: it is short by exactly two for each delta
  boundary that cuts a surrogate pair (`Utf8.StreamEqualsBatch`, `Utf8.SplitPairLosesTwoBytes`).
- An old suspend delivered again is not always a no-op: it is applied exactly when the
  execution runs a run that began at or before the suspend's end time
  (`Runs.OldSuspendAppliesIff`; a run in which it happens is `Witnesses.OldSuspendAppliesAgain`).
  An old suspension update is applied again exactly when the execution waits for the same tool
  batch, on other HITL blockers or, for a readiness, after another run
  (`Runs.OldUpdateAppliesIff`, `Witnesses.OldUpdateAppliesAgain`,
  `Witnesses.OldReadinessAppliesAgain`).
- A duration can exceed the elapsed time when a resume is dated before the previous run
  ended (`Witnesses.LateResumeOverruns`). It stays within it exactly when the time between
  runs, summed with its sign, and the time after the last run are together not negative
  (`ExecutionLifecycle.WithinElapsedIff`); every valid end of an open execution does so
  exactly when the former alone is not negative (`ExecutionLifecycle.EveryEndWithinIff`).
- After an execution end nothing in the conversation is incomplete, but it does not always
  stay so: until the next start, an event leaves something incomplete exactly when it is a
  tool attempt that finds an unsettled call, or a retry notice, not internal, that finds its
  message (`AfterEnd.RevivesIff`, `AfterEnd.CompleteAfterEndIff`; both happen in
  `Witnesses.LateAttemptRevives` and `Witnesses.LateRetryRevives`). For the messages of the
  ended execution the same holds for ever, whatever executions follow
  (`EndedExecutions.EndedStaysCompleteIff`).
- Accepting a queued message under an id in use makes that id queued twice, or both queued
  and canonical; nothing else does (`Runs.QueueSoundIff`, `Witnesses.StaleAcceptBreaksQueue`).
- The validator does not compare `memoryPolicy` when a start is repeated: such a start is a
  duplicate, and the record keeps its first policy (`ExecutionLifecycle.RestartDuplicateIff`).
- A late boot call can lead to a second Runtime, beside the one installed by a setup whose
  activation was running, or beside an unclean candidate (`LateBoot.LateBootCreatesTwice`,
  `LateBoot.LateBootBesideUnclean`). Some run after a boot call creates a Runtime beside an
  installed one or an unclean candidate exactly when the call takes effect while a setup is
  activating or such a candidate is held (`LateBoot.BootCreatesBesideIff`, over runs
  `LateBoot.NeverBesideIff`); a recovery caller yet to resume does no harm.
- Reminder keys join session and execution ids with a colon; they tell subjects apart as long
  as session ids have none (`Arrivals.KeyIsSubject`).
- The second comparison of a finishing login, that of the hashes, never decides
  (`AuthState.GenerationDecides`).

## Model

| member | source | states |
|---|---|---|
| ExecutionLifecycle.ApplyKeepsLifecycle | packages/protocol/src/reduce.ts:100-206 | after any accepted lifecycle event ids are unique, all records but the last are terminal, runs are nonempty with ordinals 0..n-1, only the last may be open and exactly when running, and the duration is the time in closed runs |
| ExecutionLifecycle.AcceptedAt | packages/protocol/src/execution.ts:23-41 | an accepted event other than a start changes exactly the record it names, which the per-record validator accepts |
| Acceptance.ValidIff | packages/protocol/src/execution.ts:23-200 | exactly which lifecycle events are valid: a start once all earlier executions are terminal and its id is new; a suspend or end of an open run in order; an update of what is waited for; a resume of a ready suspension under the next ordinal; an end of a suspended execution with any outcome |
| Acceptance.SuspendedCanEnd | packages/protocol/src/execution.ts:190-199 | a suspended execution can be ended with any outcome, without run fields, exactly from its last run's end on |
| Acceptance.RunningCanEnd | packages/protocol/src/execution.ts:175-189 | a running execution can be ended with any outcome exactly by an end that closes its open run in order |
| Acceptance.NextCanStart | packages/protocol/src/execution.ts:66-70 | once an execution was ended, a start under a new id is valid |
| Acceptance.DuplicateIff | packages/protocol/src/execution.ts:71-174 | right after an accepted event, which further event of its kind is a duplicate: one that repeats it, where an end may leave out the run fields or name those of the last closed run |
| ExecutionLifecycle.WithinElapsedIff | packages/protocol/src/reduce.ts:1200-1262 | active time is at most elapsed time exactly when the signed time between runs and the time after the last run are together not negative |
| ExecutionLifecycle.EveryEndWithinIff | packages/protocol/src/reduce.ts:186-206 | all valid ends of an open execution stay within the elapsed time exactly when the signed time between its runs is not negative |
| ExecutionLifecycle.IdleAfter | packages/protocol/src/reduce.ts:1243-1262 | among accepted events only a resume changes the signed time between runs, by its distance from the previous run's end |
| ExecutionLifecycle.DurationWithinElapsed | packages/protocol/src/reduce.ts:1200-1262 | in particular, active time is at most elapsed time when no resume precedes the previous run's end |
| Witnesses.LateResumeOverruns | packages/protocol/src/reduce.ts:1243-1262 | an admissible run from the empty projection with a resume dated early ends with 19 units active in 14 elapsed |
| ExecutionLifecycle.ApplyExtends | packages/protocol/src/reduce.ts:100-206 | accepted events only append records or continue them: the start is never rewritten, closed runs and terminal records are final but for a growing stop time, and a suspension ready to resume stays so until a run or the end |
| ExecutionLifecycle.AcceptedThenDuplicate | packages/protocol/src/execution.ts:47-200 | every accepted lifecycle event repeated at once is answered duplicate |
| ExecutionLifecycle.OnceAcceptedNeverAgain | packages/protocol/src/execution.ts:47-200 | a start, resume or end that was accepted is never valid again in any extension of the records |
| ExecutionLifecycle.OldSuspendAcceptedIff | packages/protocol/src/execution.ts:71-99 | an accepted suspend is valid again exactly when that execution runs a run begun by the suspend's end time |
| ExecutionLifecycle.OldUpdateAcceptedIff | packages/protocol/src/execution.ts:101-122 | an accepted suspension update is valid again exactly when its execution waits for the same tool batch: for a readiness, suspended after another run; otherwise, on other HITL blockers |
| Witnesses.OldSuspendAppliesAgain | packages/protocol/src/execution.ts:71-99 | an admissible run from the empty projection in which the suspend of the first run, delivered again, closes the second |
| Witnesses.OldReadinessAppliesAgain | packages/protocol/src/execution.ts:101-122 | that run continued: the readiness of the first suspension, delivered again, makes the second one ready |
| Witnesses.OldUpdateAppliesAgain | packages/protocol/src/execution.ts:101-122 | an admissible run from the empty projection in which an old update brings back blockers that a later one replaced |
| ExecutionLifecycle.RestartDuplicateIff | packages/protocol/src/execution.ts:47-70 | at any later point a start repeated after an accepted one is never valid, and a duplicate exactly when it agrees in all but the memory policy, whose first value the record keeps |
| Messages.ScanLatestUnsettled | packages/protocol/src/reduce.ts:1553-1569 | the backward scan returns the latest message's first unsettled part of the call |
| Messages.UpdateIsReplace | packages/protocol/src/reduce.ts:1462-1476 | updating by message id and part id replaces exactly one part |
| Messages.RemoveIsRemove | packages/protocol/src/reduce.ts:1478-1488 | removing by message id and part id removes exactly one part |
| PartEvents.BlockEndIsEdit | packages/protocol/src/reduce.ts:315-342 | an end removes the addressed open block if it is empty and otherwise closes it with its unwrapped text, and changes nothing else |
| PartEvents.ToolResultIsEdit | packages/protocol/src/reduce.ts:572-599 | a result settles one part exactly when the lookup finds an unsettled one of that call: that part keeps its input and start and gets the given result and time, and is counted |
| ToolCalls.ToolEventMoves | packages/protocol/src/reduce.ts:401-599 | an event about a call moves exactly the part it finds, in the current message or else the latest unsettled one, by a table of states and events: input, start, attempt, live output, result and times |
| ToolCalls.ToolEventMisses | packages/protocol/src/reduce.ts:401-599 | one that finds none appends the call to the current message if it announces or makes it, and otherwise changes nothing |
| ToolCalls.LatestUnsettledIs | packages/protocol/src/reduce.ts:1553-1569 | the search for an open call finds the first unsettled part of the last message that has one, and nothing exactly when there is none |
| ToolCalls.ToolEventThrowsIff | packages/protocol/src/reduce.ts:1420-1439 | an event throws exactly when it announces or makes a call while no Assistant message is current |
| ToolCalls.CallsCounted | packages/protocol/src/reduce.ts:430-503 | over every event, the count of calls grows by one exactly when a call is made that the current message does not hold or holds announced only |
| PartEvents.RecoveryIsEdit | packages/protocol/src/reduce.ts:766-830 | a recovery event does nothing exactly when it is internal (and no give-up) or finds no message; otherwise it appends its notice to that message, or merges it into the one with its id |
| EndTable.RecoveryFollowsTable | packages/protocol/src/reduce.ts:766-830 | a recovery event that is told renews the notice about the same thing in the message of its step, or else the current one, or appends its own; status, times, error and attempt are given field by field |
| EndTable.RecoveryUntold | packages/protocol/src/reduce.ts:1440-1460 | a recovery event that is internal (and no give-up) or has no message changes nothing |
| EndTable.EndFollowsTable | packages/protocol/src/reduce.ts:1279-1365 | an accepted end makes of every part and message what a table says: open calls interrupted with input and start, open output closed and discarded unless completed, notices closed, the selected step's message promoted |
| EndTable.StepEndFollowsTable | packages/protocol/src/reduce.ts:1367-1397 | an end of a step that changes anything completes the messages of that step, once, closes and discards their text if it was interrupted or failed, and leaves all other messages alone |
| RecoveryNotices.UpsertRecoveryNotice | packages/protocol/src/reduce.ts:1629-1664 | the mapping pass with its found flag merges into the existing notice or appends |
| MessageIdentity.ReduceKeepsMessagesOk | packages/protocol/src/reduce.ts:84-915 | every event keeps Assistant ids unique, and per message part ids, tool call ids and block keys unique, with live output on running Bash parts only |
| Correspondence.ReduceKeepsCoherent | packages/protocol/src/reduce.ts:84-915 | every event keeps flags and executions in agreement, Assistant messages in one-to-one ordered correspondence with steps, completed steps with completed messages, and the current message within the current execution |
| Correspondence.CurrentMessageFound | packages/protocol/src/reduce.ts:1420-1439 | in a coherent projection a current message id always names an Assistant message, so that throw cannot happen |
| FinalAnswer.ReduceKeepsFinal | packages/protocol/src/reduce.ts:186-206 | every event keeps: a message is a final answer exactly when its execution completed selecting its step; the step is the last, stopped; the output is trusted; and existing final answers keep their visible output |
| FinalAnswer.FinalAnswerUnique | packages/protocol/src/reduce.ts:964-976 | two different final answers belong to different executions |
| FinalAnswer.SelectedAnswerExists | packages/protocol/src/reduce.ts:929-962 | a selected step has a message, it is the final answer, its output is trusted and the step is the last and stopped |
| FinalSelection.SelectionAcceptedIff | packages/protocol/src/reduce.ts:929-962 | an end valid for the lifecycle is accepted exactly when it selects nothing, or completes and selects the last step of its execution, stopped, whose message has visible output that is complete and neither interrupted nor discarded |
| FinalSelection.SelectedBecomesFinal | packages/protocol/src/reduce.ts:186-206 | the messages of the selected step, and no others, become final answers, with their visible output as it was |
| FinalSelection.AnsweredStep | packages/protocol/src/reduce.ts:186-206 | from any projection with a current run, a new step that is started, outputs a text that is not blank when unwrapped, and stops, can be selected, and its message with exactly that text is then the final answer |
| Witnesses.SecondStepAnswers | packages/protocol/src/reduce.ts:929-962 | an admissible run from the empty projection in which the second step of an execution becomes its final answer |
| ToolMachine.EndLeavesNothingIncomplete | packages/protocol/src/reduce.ts:1279-1365 | right after an accepted end no Assistant message has an incomplete part |
| ToolMachine.ReduceKeepsTools | packages/protocol/src/reduce.ts:401-599 | no event removes a tool part, and a completed or failed one keeps its outcome, times and result |
| LiveOutput.LiveStep | packages/protocol/src/reduce.ts:538-570 | while a tool part runs, each event appends its own delta to its live output or leaves it alone |
| Utf8.Utf8Suffix | packages/protocol/src/reduce.ts:1776-1808 | the backward scan keeps exactly what the forward reference keeps, and reports the bytes dropped |
| Encoding.ByteLengthIsEncodedSize | packages/protocol/src/reduce.ts:1776-1808 | the byte count of any text is the length of its UTF-8 encoding by the bit layout of section 3 of RFC 3629, unpaired surrogates as U+FFFD |
| Encoding.EncodesScalars | packages/protocol/src/reduce.ts:1776-1808 | for the code units of any scalar values that encoding is theirs |
| Encoding.EncodingRoundTrip | packages/protocol/src/reduce.ts:1776-1808 | decoded, the bytes give back the scalar values of the text, and the text exactly when no surrogate is unpaired |
| Encoding.CodePointsAreScalars | packages/protocol/src/session-capacity.ts:60-91 | code points are counted as scalar values |
| Encoding.SpacesAre | packages/protocol/src/reduce.ts:937-953 | a text is blank when it holds only the white space and line terminators that `trim` removes, listed one by one |
| Utf8.KeepSuffixIsLongest | packages/protocol/src/reduce.ts:1776-1808 | what is kept is the longest code-point-aligned suffix within the byte limit |
| Utf8.AppendLiveOutput | packages/protocol/src/reduce.ts:1697-1713 | one delta updates preview, omitted bytes and limit flag as specified |
| Utf8.StreamEqualsBatch | packages/protocol/src/reduce.ts:1697-1713 | for any deltas the streamed preview is the batch truncation within 51200 bytes, and kept plus omitted bytes are the announced bytes less two per boundary that cut a pair |
| Utf8.BytesConservedIffNoSplit | packages/protocol/src/reduce.ts:1776-1808 | bytes are conserved exactly when no delta boundary cuts a surrogate pair |
| Utf8.SplitPairLosesTwoBytes | packages/protocol/src/reduce.ts:1697-1713 | a pair sent in two deltas loses two bytes from the account |
| Census.ReduceKeepsCensus | packages/protocol/src/reduce.ts:1138-1188 | every event keeps step, tool and message counters and the usage sum equal to what the projection holds; counted messages without content grow exactly when an unwrapped end empties one |
| Census.ReplaceStep | packages/protocol/src/usage.ts:59-67 | completing one step adds one completed step and its usage to the totals |
| Census.UsageIsSum | packages/protocol/src/usage.ts:59-67 | for each kind of tokens the statistics hold the sum over the completed steps |
| Blocks.BlocksRefineMap | packages/protocol/src/reduce.ts:278-399 | at every key (step, channel, block) the message list holds what the map operation of the event prescribes, so an event on one key leaves all others alone |
| Compaction.CompactMessages | packages/protocol/src/reduce.ts:855-913 | the mapped copy with its index assignment or splice is the specified list |
| Compaction.CompactEffect | packages/protocol/src/reduce.ts:855-913 | exactly the entries before the tail start and those compacted earlier are compacted; one message carries the new summary and is not compacted |
| Compaction.ReduceKeepsCompaction | packages/protocol/src/reduce.ts:855-913 | every event keeps at most one compaction message, compacted entries a prefix, and all entries in order with flags never cleared |
| Inputs.AcceptKeepsQueueIff | packages/protocol/src/reduce.ts:217-219 | accepting a message keeps the queue free of repeated and of canonical ids exactly when its id is in neither |
| Inputs.ReduceKeepsQueueIff | packages/protocol/src/reduce.ts:217-243 | of all events, exactly the acceptance of an id in use makes an id both queued and canonical, or queued twice |
| Witnesses.StaleAcceptBreaksQueue | packages/protocol/src/reduce.ts:217-219 | an admissible run from the empty projection, a commit and an acceptance of the same id, after which that id is queued and canonical |
| Inputs.RecommitIsNoOp | packages/protocol/src/reduce.ts:234-243 | a commit whose ids are canonical adds no message and no count |
| Inputs.ReduceKeepsReminders | packages/protocol/src/reduce.ts:627-662 | reminder ids and sub-agent keys stay distinct, reminders are only added, and a consumption time is written once |
| Arrivals.CommitTakesIn | packages/protocol/src/reduce.ts:234-243 | a commit appends exactly the new messages of its batch, in their order, counts them, and takes exactly the ids of the batch off the queue |
| Arrivals.QueueTakesIn | packages/protocol/src/reduce.ts:217-233 | accepting appends, replacing edits in place, deleting takes out one id; all else keeps its place |
| Arrivals.ReminderTakenIn | packages/protocol/src/reduce.ts:627-649 | a reminder is appended, not consumed, exactly when neither its id nor its subject is known, as long as session ids have no colon |
| Arrivals.RemindersConsumedIs | packages/protocol/src/reduce.ts:650-662 | consuming writes the time on exactly the listed reminders that have none |
| ChildLinks.SelectLatestLinks | packages/protocol/src/session-capacity.ts:92-116 | the pass over the links followed by the sort yields the specified list |
| ChildLinks.LatestLinksCorrect | packages/protocol/src/session-capacity.ts:92-116 | exactly one link for every child that occurs, and no link of that child supersedes it |
| ChildLinks.LatestIsNewest | packages/protocol/src/session-capacity.ts:92-116 | the selected link is the newest of its child, and of equally new ones that of the greatest tool call |
| ChildLinks.LatestLinksSorted | packages/protocol/src/session-capacity.ts:92-116 | sorted by child id |
| ChildLinks.LatestLinksOrderIndependent | packages/protocol/src/session-capacity.ts:92-116 | independent of input order when creation time and tool call are distinct within a child |
| ChildLinks.RecordedIff | packages/protocol/src/reduce.ts:601-620 | a link is recorded exactly when it is valid and its child is linked already or fewer than 64 children are, so updates of linked children are never dropped |
| ChildLinks.RecordedAs | packages/protocol/src/reduce.ts:1091-1105 | the link of the same four ids is replaced, or the link appended, exactly when agent, profile, status and a title of at most 80 code points are admissible and its child is linked or fewer than 64 are; all other links stay |
| ChildLinks.RecordLinkKeepsInvariant | packages/protocol/src/reduce.ts:1091-1105 | four-field link keys stay unique, links valid, and at most 64 children linked |
| Runs.ReachableOk | packages/protocol/src/reduce.ts:84-915 | every projection reachable from the empty one satisfies all invariants |
| Runs.RunRemembers | packages/protocol/src/reduce.ts:84-915 | any later projection keeps closed runs, terminal records, completed steps, final answers, tool results, entries in order with flags, reminder consumption and canonical ids |
| Runs.RepeatedAtOnceIsNoOp | packages/protocol/src/reduce.ts:90-97 | an accepted lifecycle event repeated at once changes nothing |
| Runs.RedeliveryIsNoOp | packages/protocol/src/reduce.ts:90-97 | an accepted start, resume or end is a no-op at every later point of every run |
| Runs.OldSuspendAppliesIff | packages/protocol/src/reduce.ts:135-163 | an accepted suspend is applied again later exactly when a run begun by its end time is open |
| Runs.OldUpdateAppliesIff | packages/protocol/src/reduce.ts:164-172 | an accepted suspension update is applied again at a later point of any run exactly under the same condition as on the records |
| Runs.RecommitAddsNothing | packages/protocol/src/reduce.ts:234-243 | a commit delivered again at any later point adds no message and no count |
| Runs.QueueSoundIff | packages/protocol/src/reduce.ts:217-243 | over any run, queue and conversation are disjoint and the queue without repetition at every point exactly when no message is accepted under an id in use |
| Runs.AssistantCountExact | packages/protocol/src/reduce.ts:1525-1540 | the surplus of counted over content-bearing Assistant messages is the number of emptying unwraps in the run |
| Runs.LiveOutputIsStream | packages/protocol/src/reduce.ts:538-570 | over any run during which a tool part runs, its live output is the fold of the deltas addressed to it |
| Runs.PreviewIsBatchTruncation | packages/protocol/src/reduce.ts:1697-1713 | over such a run the preview is the longest aligned suffix within the limit of everything sent to the part |
| Runs.ActiveBackward | packages/protocol/src/reduce.ts:1399-1410 | a step that is active later was active at every earlier point since it was started |
| Runs.BlockTextIsConcatenation | packages/protocol/src/reduce.ts:294-399 | until its end, a block's text is its text at the start plus all its deltas in order, under any interleaving, while its step stays active |
| RoundTrips.CallSettlesAsSent | packages/protocol/src/reduce.ts:401-599 | announced, called, its input resolved and settled, a tool part carries the resolved input, all times and the result, and is counted once as call and result |
| AfterEnd.RevivesIff | packages/protocol/src/reduce.ts:504-785 | in a complete conversation without current execution or message, an event leaves something incomplete exactly when it is an attempt finding an unsettled call or a retry notice, not internal, finding its message |
| AfterEnd.CompleteAfterEndIff | packages/protocol/src/reduce.ts:186-206 | after any accepted end, until the next start, nothing is incomplete at any point of any run exactly when no such event occurs |
| EndedExecutions.RevivesInIff | packages/protocol/src/reduce.ts:84-915 | over every event, and whatever execution is current, the complete messages of an ended execution stay complete exactly unless an attempt finds an unsettled call in them or a retry notice finds one of them |
| EndedExecutions.EndedStaysCompleteIff | packages/protocol/src/reduce.ts:186-206 | from an accepted end on, over any run and any later executions, the messages of that execution are complete at every point exactly when no such event occurs |
| AfterEnd.LateAttemptRestores | packages/protocol/src/reduce.ts:1735-1750 | such an attempt turns one interrupted call back into a running one with its input and start time, without live output, and changes nothing else |
| Witnesses.LateAttemptRevives | packages/protocol/src/reduce.ts:1735-1750 | an admissible run from the empty projection whose end leaves nothing incomplete, and whose late attempt does |
| Witnesses.LateRetryRevives | packages/protocol/src/reduce.ts:1629-1664 | the same with a late retry notice for a known step |
| RoundTrips.RetryThenOutcome | packages/protocol/src/reduce.ts:766-830 | a retry and its outcome about the same thing leave one notice, created by the first and completed by the second |
| Outcomes.InterruptedStepDiscards | packages/protocol/src/reduce.ts:1367-1397 | after an accepted end that interrupts or fails a step, its message holds the same text, all of it complete, interrupted and discarded |
| Outcomes.NeverFinalAnswer | packages/protocol/src/reduce.ts:929-976 | once a step was ended other than by a stop of the model, no later projection of any run has its message as a final answer |
| Outcomes.OpenBlockAtEnd | packages/protocol/src/reduce.ts:1279-1341 | an accepted end completes every open block of every message at the end's time, keeps its text, and leaves it trusted exactly when the execution completed |
| Outcomes.StopTimeIsLatest | packages/protocol/src/reduce.ts:245-256 | after any run an execution's stop time is the latest of the earlier one and all requests for it, and absent exactly when there were none |
| Outcomes.LatestStopUnique | packages/protocol/src/reduce.ts:245-256 | that time depends only on which times were requested, not on their order |
| RoundTrips.StepRecordsBothEnds | packages/protocol/src/reduce.ts:664-734 | a started and ended step and its message carry the fields of both events |
| StepLife.StepStarts | packages/protocol/src/reduce.ts:664-700 | a step start is taken in exactly when an execution is current and the step is new; the step is then active |
| StepLife.BlockOpens | packages/protocol/src/reduce.ts:278-293 | a block start on an active step opens an empty block in its message and makes it current, unless it has that block; on any other step it changes nothing |
| StepLife.StepEnds | packages/protocol/src/reduce.ts:701-734 | an end of an active step under its number completes exactly that step, wherever it stands, and its message |
| StepLife.ActiveStaysIff | packages/protocol/src/reduce.ts:1399-1410 | an active step stays active under every event exactly but its own end and the resume or end of its execution |
| StepLife.ErrorNoted | packages/protocol/src/reduce.ts:736-760 | an error is noted at exactly the step of the current run that it names |
| StepLife.StreamingIs | packages/protocol/src/reduce.ts:664-734 | the model streams exactly from an accepted step start to the next accepted step end, suspension, resume, start or end |
| RoundTrips.ExecutionRecordsItsRuns | packages/protocol/src/reduce.ts:100-206 | after any earlier, terminal executions, start, suspend, ready, resume and end of a new one are each valid and append exactly its record with both runs and the summed duration |
| RoundTrips.QueuedThenCommitted | packages/protocol/src/reduce.ts:217-243 | accepted, edited and committed, a message leaves the queue as it was and is appended and counted |
| Json.EqualIsSameMeaning | packages/protocol/src/execution.ts:202-220 | on values with distinct keys the comparison holds exactly when both mean the same, objects being finite maps |
| Json.IsBoundedObject | packages/protocol/src/guards.ts:971-974 | accepts exactly objects of JSON values with depth at most 8, 64 keys and 256 items in all, strings of at most 8192 and keys of at most 128 bytes |
| Json.IsBoundedValue | packages/protocol/src/guards.ts:976-997 | with what is left of the shared budget, accepts exactly the clean values that fit, and then charges exactly their keys and items |
| AuthState.AuthStepKeepsOk | apps/server/src/server-auth-service.ts:133-223 | every operation keeps: stored sessions stem from the current credential, are at most max(1, maxSessions), leases are accounted for, and failures are spaced out |
| AuthState.AuthRunKeepsOk | apps/server/src/server-auth-service.ts:133-279 | so does every interleaving |
| AuthState.FailuresSpanWindow | apps/server/src/server-auth-service.ts:140-167 | any maxLoginFailures + 1 consecutive failures without a reset span at least the window |
| LoginLimit.RefusedIff | apps/server/src/server-auth-service.ts:140-160 | in every interleaving a login that need not wait is refused exactly when at least maxLoginFailures logins that started within the window have failed since a success or a credential change; otherwise it goes ahead under the current credential |
| LoginLimit.LimitEngages | apps/server/src/server-auth-service.ts:140-160 | after wrong passwords within one window the next login is refused exactly when there were maxLoginFailures of them |
| LoginLimit.ForgivenGoesAhead | apps/server/src/server-auth-service.ts:133-166 | after a successful login or a credential change the next login goes ahead |
| AuthState.LimitedUntil | apps/server/src/server-auth-service.ts:143-148 | while nothing is recorded, logins are refused exactly until the oldest remembered failure leaves the window |
| AuthState.RetryAfterRejection | apps/server/src/server-auth-service.ts:143-148 | after a refusal, a login the hinted seconds later goes ahead and one a second earlier does not |
| AuthState.LoginDoesNotSurviveChange | apps/server/src/server-auth-service.ts:150-158 | a login in flight across a credential change issues no session and records no failure |
| AuthState.GenerationDecides | apps/server/src/server-auth-service.ts:153-156 | in every interleaving a login in flight is superseded exactly when the generation changed |
| AuthState.OnlySurplusEvicted | apps/server/src/server-auth-service.ts:173-178 | a new session displaces expired sessions, then the oldest ones, and those only when the table is full |
| AuthState.IssuedUntilExpiry | apps/server/src/server-auth-service.ts:169-199 | a session just issued is authentic exactly until its time to live has passed, and not after a logout |
| SessionLife.LoginIssues | apps/server/src/server-auth-service.ts:164-183 | a successful login issues a session that is authentic for exactly its time to live |
| SessionLife.FailedLoginIssuesNothing | apps/server/src/server-auth-service.ts:153-163 | any other finish leaves sessions and streams alone |
| SessionLife.ActivationTakesEffect | apps/server/src/server-auth-service.ts:133-138 | after a new credential no earlier session, failure or live stream is left |
| SessionLife.UpdateIssues | apps/server/src/server-auth-service.ts:225-256 | after a password update its owner has the one session, and a login in flight is superseded |
| SessionLife.PresentedIs | apps/server/src/server-auth-service.ts:185-195 | presenting a token changes nothing if it is authentic, and otherwise ends its session and streams |
| SessionLife.LogoutEnds | apps/server/src/server-auth-service.ts:197-211 | a logout, and the timer of a stream, end the session with all its streams |
| SessionLife.StreamOpens | apps/server/src/server-auth-service.ts:201-215 | an authentic token opens one live stream listed with its session |
| SessionLife.StreamReleases | apps/server/src/server-auth-service.ts:216-221 | a release cancels one timer, takes the stream off its session and leaves all others alone |
| AuthState.LeaseAccounted | apps/server/src/server-auth-service.ts:201-223 | an unreleased lease is live on a stored session with a timer armed for its expiry, or aborted with its timer cancelled |
| AuthService.ServerAuthService.RevokeSession | apps/server/src/server-auth-service.ts:266-275 | deletes the one session and ends exactly its streams |
| AuthService.ServerAuthService.PruneExpired | apps/server/src/server-auth-service.ts:259-264 | the loop leaves exactly the unexpired sessions, in order, and ends the streams of the others |
| AuthService.ServerAuthService.EvictOldest | apps/server/src/server-auth-service.ts:174-178 | the loop drops the oldest sessions until one more fits |
| AuthService.ServerAuthService.IssueSession | apps/server/src/server-auth-service.ts:169-183 | room is made and the new session stored last, or nothing happens when login is disabled |
| AuthService.ServerAuthService.ActivateCredential | apps/server/src/server-auth-service.ts:133-138 | all sessions go, the generation moves on and failures are forgotten |
| AuthService.ServerAuthService.StartLogin | apps/server/src/server-auth-service.ts:140-152 | waits, refuses with the hint, or starts verifying under the current credential |
| AuthService.ServerAuthService.FinishLogin | apps/server/src/server-auth-service.ts:153-166 | issues a session exactly when the credential is unchanged and the password was verified |
| AuthService.ServerAuthService.CompleteUpdate | apps/server/src/server-auth-service.ts:249-250 | the new credential takes effect and its owner gets the one session |
| AuthService.ServerAuthService.AuthenticateToken | apps/server/src/server-auth-service.ts:185-195 | answers whether the token is that of an unexpired session, revoking it otherwise |
| AuthService.ServerAuthService.OpenSessionStream | apps/server/src/server-auth-service.ts:201-223 | a lease is opened exactly for an authentic token, with a timer due at the session's expiry |
| AuthService.ServerAuthService.ReleaseLease | apps/server/src/server-auth-service.ts:216-221 | cancels the timer and forgets the stream, once |
| AuthService.ServerAuthService.FireTimer | apps/server/src/server-auth-service.ts:209-211 | an expiry timer revokes its session and thereby ends its own stream |
| Reconciliation.StepKeepsOk | packages/agent-core/src/runtime.ts:1983-2066 | every step keeps entries, single flight and wake-ups sound |
| Reconciliation.AtMostOnePass | packages/agent-core/src/runtime.ts:2040-2065 | under every interleaving at most one pass per project is in flight |
| Reconciliation.RequestNotLost | packages/agent-core/src/runtime.ts:1983-2066 | from a request on, until a pass begins or the project is withdrawn, a call is waiting, or a timer is set in a workspace where it will make one |
| Reconciliation.FailureNotLost | packages/agent-core/src/runtime.ts:2061-2064 | a failed pass is followed, until another one begins, by a waiting call or such a timer |
| Reconciliation.NoNewPassAfterShutdown | packages/agent-core/src/runtime.ts:1788-1794 | every pass in flight after shutdown was flagged had begun before |
| Withdrawal.ShutdownStops | packages/agent-core/src/runtime.ts:1788-1794 | from a shutdown on, in every interleaving, each pass in flight had begun before it, no timer is set, and none makes a call |
| Withdrawal.CancellationStops | packages/agent-core/src/runtime.ts:1796-1804 | from a cancellation on, until a project of the workspace is found registered, none of them has a timer set and none of their timers makes a call |
| Withdrawal.CancellationLiftedIff | packages/agent-core/src/runtime.ts:2035-2035 | exactly such a find ends a cancellation |
| Reconciliation.DelayBacksOff | packages/agent-core/src/runtime.ts:1995-1996 | retry delays double up to 30 seconds and never shrink with further attempts |
| Reconciliation.AttemptsCount | packages/agent-core/src/runtime.ts:1983-2019 | in every interleaving the attempt recorded for a project is the number of timers set for it since its last success, withdrawal or stop |
| Reconciliation.NextAttemptIs | packages/agent-core/src/runtime.ts:1995-1996 | so a timer is set with the delay of its place in that streak |
| ReconciliationService.ProjectReconciliation.ScheduleProjectRetry | packages/agent-core/src/runtime.ts:1983-2019 | rethrows when stopped, otherwise leaves a timer set, a new one with the next delay if there was none |
| ReconciliationService.ProjectReconciliation.AfterRegistryRead | packages/agent-core/src/runtime.ts:2030-2049 | begins a pass exactly when the project is registered, nothing is shut down, no timer is set and no pass is in flight; otherwise a registered project is left with a timer set |
| ReconciliationService.ProjectReconciliation.EndPass | packages/agent-core/src/runtime.ts:2060-2065 | the project leaves the in-flight set; success forgets its retry, failure leaves a timer set unless stopped |
| ReconciliationService.ProjectReconciliation.CancelWorkspaceReconciliation | packages/agent-core/src/runtime.ts:1796-1804 | clears the timers and entries of exactly that workspace, and leaves the timers of all others as they were |
| ReconciliationService.ProjectReconciliation.ShutdownReconciliation | packages/agent-core/src/runtime.ts:1788-1794 | flags shutdown; no entry is left, and the timer of every earlier entry is cleared |
| LateBoot.BootCreatesBesideIff | apps/server/src/server-host.ts:196-209 | after a boot call some run without another one creates a Runtime beside an installed one or an unclean candidate exactly when the host was ready with nothing installed or pending and no initial activation started, and a setup was activating or an unclean candidate held |
| LateBoot.NeverBesideIff | apps/server/src/server-host.ts:196-324 | over any run with boot calls anywhere, no point allows a second Runtime without another boot call exactly when every boot call was safe in that sense |
| RuntimeOwnership.BootFirstIsSafe | apps/server/src/server-host.ts:196-209 | one boot call before any request is safe in every interleaving |
| RuntimeOwnership.CreatesOnlyWhenFree | apps/server/src/server-host.ts:797-882 | while boot calls are safe, a Runtime is created only when none is installed, no unclean candidate is held and all earlier ones were shut down cleanly |
| RuntimeOwnership.EveryRuntimeAccounted | apps/server/src/server-host.ts:797-894 | while boot calls are safe, every Runtime is installed, cleanly shut down, in activation or the unclean candidate, and at most one is not shut down |
| RuntimeOwnership.UncleanBlocks | apps/server/src/server-host.ts:916-946 | an unclean candidate stays and blocks every further activation |
| HostProgress.CanInstallIff | apps/server/src/server-host.ts:797-946 | a host that does not wait for its boot call can come to have a Runtime installed, without another boot call, exactly when no unclean candidate is held |
| HostProgress.NoDeadEnd | apps/server/src/server-host.ts:196-946 | so from every point of every run with safe boot calls, once booted |
| HostProgress.CallsJoinQueue | apps/server/src/server-host.ts:196-324 | each call joins the end of the queue exactly when it is admitted, and touches neither Runtimes nor the work at hand |
| HostProgress.HeadEnds | apps/server/src/server-host.ts:240-324 | a mutation that ends without activating leaves the queue, and its outcome decides the mode |
| HostProgress.ActivationEnds | apps/server/src/server-host.ts:797-894 | an activation leaves the queue with its outcome in status, Runtime and candidate; the initial one lets the next mutation in at once, a retry or deletion when its caller resumes |
| RuntimeOwnership.ActivatingHasOwner | apps/server/src/server-host.ts:797-798 | once booted, whenever the status is activating exactly one activation is outstanding |
| LateBoot.LateBootCreatesTwice | apps/server/src/server-host.ts:196-209 | a run in which a boot call after a committed setup leads to a second Runtime beside the installed one |
| LateBoot.LateBootBesideUnclean | apps/server/src/server-host.ts:196-209 | a run in which a boot call after an unclean cleanup leads to a second Runtime beside the unclean candidate |
| ServerHost.ArchCodeServerHost.StartRuntimeActivation | apps/server/src/server-host.ts:196-209 | queues the initial activation once; afterwards a ready host has a Runtime, or an activation was started or a mutation is pending |
| ServerHost.ArchCodeServerHost.IsMutationAvailable | apps/server/src/server-host.ts:916-946 | a retry or deletion is admitted only in a recoverable error, when no activation is outstanding and nothing is held |
| ServerHost.ArchCodeServerHost.AfterCreation | apps/server/src/server-host.ts:818-826 | the new Runtime enters activation while nothing is installed or held; a failed creation leaves nothing outstanding |
| ServerHost.ArchCodeServerHost.AfterStartup | apps/server/src/server-host.ts:824-841 | a started Runtime is installed, nothing is outstanding, and every other Runtime was shut down cleanly |
| ServerHost.ArchCodeServerHost.AfterCleanup | apps/server/src/server-host.ts:842-868 | a failed candidate is shut down cleanly, like all others then, or held as unclean with recovery refused; nothing is outstanding |

## Left out

- Compression snapshots (`compression.*` events) overwrite the projection wholesale and carry no invariant.
- `todo-write`, working directory, model selection, goal and prompt-trace events set single fields.
- Audit and provenance fields of user messages, part metadata beyond the interruption marks, and `normalizeUsage`.
- Field-by-field shape checks in `packages/protocol/src/guards.ts` other than the bounded JSON walk.
- `projectLatestDirectChildContext` copies fields of selected links.
- In `Json.Equal` keys are compared as sorted lists but values in entry order; which value is compared first does not matter. Positive and negative zero are one number.
- `MessageIdentity.Admissible`: ids derived by `generateId` are taken as new; collisions of generated ids are not modelled.
- Password hashing, verification and length checks, random tokens, and the mutation lock of `updatePassword`, whose awaited part changes no state.
- AuthState.LoginStart: a login waiting for the lock is not queued but simply starts later; a login without a configured hash takes two steps although the code does not await there.
- The awaited work of a reconciliation pass, HITL settlement replay, project removal beyond its cancellation, and logging.
- Reconciliation.Resume: a registry read that throws is not modelled.
- RuntimeOwnership.SetupCommitted: a refused setup may be submitted again as soon as its mutation ends, a moment before its caller resumes.
- Config recovery grants: authorisation is checked outside the model; every recovery action holds the one grant of its mode.
- Host behaviour after `shutdown()` begins, restart preparation, HTTP routes, cookies, assets, CLI and user interface.
