# Agent runtime: a verified model

A Dafny model of the agent runtime's hardest parts, with proofs about every input, every
interleaving and every run of the model. Verify it with `dafny verify dfyconfig.toml`.

**Context windows.** `context_spec.dfy` says what a context selection means. `context_select.dfy` is
the materialized selector (one grouping pass, then a greedy walk over indices) and
`context_stream.dfy` the incremental one (an object updated message by message that drops payloads
early and defers errors); both are proved against the same meaning, so they agree on every history,
request and budget, error for error. `context_exchanges.dfy`, `context_groups.dfy` and
`context_cuts.dfy` tell that meaning a second time, from the messages alone: which calls are open,
where groups begin, and a selection as the first of all permitted cuts that leaves few enough bytes,
with every field and every error. `context_laws.dfy`, `context_reselect.dfy` and
`context_retention.dfy` prove what the meaning promises.

**Run ownership.** `runs_store.dfy` is the run store as a transition system: transactions that hold
one thread's lock over a working copy, interleaved with each other and with the clock, phase by
phase (a completion's two owner checks, and a claim's lookup, busy check, insert and conflict, are
separate steps). `runs_sound.dfy` and `runs_steps.dfy` prove what every step keeps, `runs_laws.dfy`
the consequences for whole runs, `runs_progress.dfy` what every operation leaves and answers, field
by field.
`runs_postgres.dfy` has the transactions as the program runs them, assigning rows in place, each
proved to do what the transition system's operation does. `runtime_calls.dfy` puts runtime
invocations on top, with lost replies, cancellations, crashes (a call that takes no more steps) and
retries; `runtime_laws.dfy` proves at-most-once execution and truthful answers,
`runtime_progress.dfy` that a call nobody disturbs gets through, `runtime_owners.dfy` which calls
have a run to settle, and `runtime_failures.dfy` what becomes of a call from before its failure, or
of one that repeats another, to the end.

**Streams and loops.** `sse.dfy`, `sse_frames.dfy`, `sse_lines.dfy` and `utf8.dfy` are the bounded
incremental decoder of server-sent events; `json_values.dfy` the cycle-detecting payload check over a
heap graph, and `json_problems.dfy` which problem it reports; `streams.dfy` the gate that holds a
terminal event back; `native.dfy` and `native_laws.dfy` the model and tool loop in its two forms, and
`native_conversation.dfy` what both are, told round by round; `fragments.dfy` the assembly of streamed
tool calls.
`runtime_stream.dfy` is the bounded event queue between the producer of a stream and its consumer,
tied step by step to a call of the runtime's transition system; `runtime_stream_laws.dfy` says who is
told and who gets free when one side stops, `runtime_stream_delivery.dfy` that what is told is what
was emitted, and `runtime_stream_progress.dfy` what an undisturbed stream shows. `runtime_shutdown.dfy` is the shutdown: nested invocations, the register each task is on,
cleanup tasks with their callbacks, and the wait loop with its budget. `thread_context.dfy` joins the
parts: a thread that native runs wrote can always be selected from, up to the budget.

Modelling conventions: a message is its role, its parts and its canonical JSON encoding, or the
reason it has none. Identifiers are numbers; a call's fresh run id and fresh owner token are both
written as the number of the call. The database clock is one monotone counter. The unique indexes of
the run table are the database's contract.

Four findings, each with a schedule or an input that shows it and with its exact condition, proved for
all.

- A producer cancelled from outside, as a shutdown does, puts no end marker into its queue. A consumer
  that goes on reading can still be told that its stream is over exactly until its producer goes with a
  cancellation before it has put a problem or an end (`RuntimeStreamLaws.ReaderIsToldIff`); cancelling
  right after the start is such a schedule (`RuntimeStreamLaws.CancelledIsSilent`). While nobody cancels
  the producer from outside, a reading consumer is never lost (`RuntimeStreamLaws.UncancelledIsTold`).
- A consumer that closes cancels its producer once. When the cancelled invocation answers with an
  ordinary exception, the producer puts that exception and the end, so it is safe exactly if the queue
  has room for what it owes (`RuntimeStreamLaws.StoppedConsumerFreesProducer`); over a full queue it can
  wait for ever, and closing with it (`RuntimeStreamProgress.SomeStreamHangs`), until it is cancelled
  again (`RuntimeStreamLaws.StuckUntilCancelled`).
- Data comes back unchanged from the event frames exactly when it does not end in a carriage return
  (`SseFrames.UnchangedIffNoCr`). The service is not affected: its three callers of `_sse` pass
  `model_dump_json()`, which never ends in one.
- Two chunkings of the same bytes can be reported differently exactly when the bytes are over the total
  bound and those up to the bound already report an event or a failure (`Sse.ChunkingShowsIff`); any
  frame followed by enough bytes is such an input (`SseFrames.ChunkingShows`).

## Model

| member | source | states |
|---|---|---|
| `Messages.EncodedArrayLength` | src/agent_runtime/context.py:102-103 | Charging every message its bytes and one separator is the length of the real JSON array, off by one, except for the empty array |
| `ContextSelect.TrackParts` | src/agent_runtime/context.py:83-91 | Calls and results of a message open and close exchanges; the first ambiguous or unmatched one is reported |
| `ContextFacts.BreaksAtOffence` | src/agent_runtime/context.py:83-91 | An exchange breaks exactly at a part that reuses an open call id (ambiguous) or answers one that is not open (unmatched) |
| `ContextExchanges.ExchangeIsOpenCalls` | src/agent_runtime/context.py:83-93 | The calls open after any messages are those made and not answered since; a list is broken exactly at a part that calls an open id again or answers one that is not open, with the error of the first such part |
| `ContextSelect.ScanMessages` | src/agent_runtime/context.py:60-95 | The grouping pass yields exactly the groups, protected messages and sizes of the scan, or its first error; `ContextGroups.GroupsSplitIff` says where those groups part |
| `ContextFacts.ScanPartitions` | src/agent_runtime/context.py:65-95 | Every message is a system entry or in exactly one group, and the groups laid end to end are the other messages in order |
| `ContextGroups.GroupsSplitIff` | src/agent_runtime/context.py:76-78 | Two messages with only system messages between them are in different groups exactly when no exchange is open before the second, and it is a user's or the request begins after the first and not after the second |
| `ContextGroups.GroupedIff` | src/agent_runtime/context.py:79-82 | Exactly the messages that are not system ones are in groups |
| `ContextCuts.FirstsAreBeginnings` | src/agent_runtime/context.py:76-82 | The groups begin, in order, exactly at the messages that no open exchange precedes and that are a user's, the first of all, or the first of the request, system messages aside |
| `ContextFacts.MandatoryAreNewest` | src/agent_runtime/context.py:97-100 | The groups that touch the request are the newest ones |
| `ContextSelect.RequestCovered` | src/agent_runtime/context.py:97-100 | The whole current request is among the mandatory messages |
| `ContextSelect.ProtectRequest` | src/agent_runtime/context.py:97-100 | Protecting by index sets selects exactly the system entries and the groups that touch the request |
| `ContextSelect.ByteCount` | src/agent_runtime/context.py:102-103 | The count over a set of indices is the encoded length of the messages it picks |
| `ContextSelect.Fill` | src/agent_runtime/context.py:108-122 | The greedy walk keeps all but the fewest oldest optional groups, with exact bytes |
| `ContextSelect.Select` | src/agent_runtime/context.py:57-131 | The materialized selection is the specified one for every history, request and budget, including which error comes first; the `ContextCuts` rows say which that is, without scan or groups |
| `ContextStreamSpec.RunDescribes` | src/agent_runtime/context.py:182-272 | After any messages the incremental accounting describes the scan of all of them: costs, retained suffix, open group, pending calls, first error |
| `ContextStreamSpec.DemandedAreMandatory` | src/agent_runtime/context.py:195-203 | The mandatory entries charged as groups close are exactly the system entries and the closed mandatory groups |
| `ContextRefinement.StreamRefinesSelection` | src/agent_runtime/context.py:133-295 | Finishing the incremental state gives exactly the materialized outcome: messages, seven fields, or the same first error |
| `ContextRefinement.SortedPick` | src/agent_runtime/context.py:282-286 | Sorting the retained entries by index gives the picked messages in original order |
| `ContextStream.HistoryGroup.Grow` | src/agent_runtime/context.py:248-257 | A group is charged for every message and keeps its payload only while it could fit |
| `ContextStream.StreamingSelection.Trim` | src/agent_runtime/context.py:185-187 | Trimming in place drops oldest groups until the rest fits |
| `ContextStream.StreamingSelection.CloseGroup` | src/agent_runtime/context.py:189-211 | Closing charges a mandatory group or keeps an optional one, with the suffix barrier |
| `ContextStream.StreamingSelection.Add` | src/agent_runtime/context.py:213-272 | One message updates the object exactly as the value-level step |
| `ContextStream.StreamingSelection.Finish` | src/agent_runtime/context.py:274-295 | The answer is the first failure, an open exchange, an overflow, or the accounted selection |
| `ContextStream.SelectStream` | src/agent_runtime/context.py:133-150 | The whole incremental selection equals the materialized one, so the `ContextCuts` rows hold of it too; a failing read wins over any earlier error |
| `ContextCuts.SelectsIff` | src/agent_runtime/context.py:93-107 | A selection succeeds exactly when every message can be encoded, every exchange is closed, and some permitted cut leaves an array within the budget |
| `ContextCuts.SelectionIsFirstCut` | src/agent_runtime/context.py:97-131 | The selection is that of the first permitted cut that leaves few enough bytes: its messages, both byte counts as lengths of encoded arrays, and all four message and group counts |
| `ContextCuts.RejectionIs` | src/agent_runtime/context.py:66-107 | A rejection names the first message that cannot be encoded or breaks an exchange, then an exchange left open, and only then the budget |
| `ContextLaws.SelectionShape` | src/agent_runtime/context.py:97-131 | Every selection is the system messages before one cut and everything after it, the whole request included |
| `ContextLaws.BytesAreExact` | src/agent_runtime/context.py:123-131 | The reported bytes are the lengths of the encoded arrays, and the selected one is within the budget |
| `ContextLaws.SuffixIsLongest` | src/agent_runtime/context.py:109-122 | No longer suffix of optional groups would have fitted |
| `ContextLaws.LargerBudgetSelectsMore` | src/agent_runtime/context.py:105-122 | A larger budget succeeds wherever a smaller one does, on at least the same messages |
| `ContextReselect.ReselectionIsIdentity` | src/agent_runtime/context.py:57-131 | Selecting again from a selection's output, under the same budget, returns it and omits nothing |
| `ContextReselect.ScanMirrors` | src/agent_runtime/context.py:65-95 | From the cut on, scanning the reduced list builds the same groups, a constant number of indices lower |
| `ContextRetention.RetentionBound` | src/agent_runtime/context.py:182-272 | After any number of messages, in any state, the payload held costs at most 2 * (budget - 1) |
| `ContextRetention.DroppedStaysDropped` | src/agent_runtime/context.py:185-211 | A payload dropped once is never held again, whether or not an error comes |
| `ContextRetention.SelectedIsHeld` | src/agent_runtime/context.py:274-286 | Only messages whose payload was held to the end are selected |
| `RunSound.OutcomeIsWarranted` | src/agent_runtime/runs/postgres.py:137-151 | A transition, cleanup, recovery or sweep changes a row only as its owner in time, or because the lease ran out |
| `RunSound.NextKeeps` | src/agent_runtime/runs/postgres.py:61-123 | Every step of any transaction keeps what its working copy and phase rely on |
| `RunSteps.TxnElsewhere` | src/agent_runtime/runs/postgres.py:307-320 | A commit on one thread leaves every fact of a transaction on another thread in place |
| `RunSteps.CommitKeepsHistory` | src/agent_runtime/memory/_message_batch.py:31-48 | A commit extends its thread by its batch, still numbered 1..n |
| `RunSteps.CommitKeepsLog` | src/agent_runtime/runs/postgres.py:192-199 | A commit keeps one batch per succeeded run and none for any other run |
| `RunSteps.StepKeeps` | src/agent_runtime/runs/postgres.py:46-276 | Whatever happens next, the store stays sound |
| `RunLaws.ThreadExclusion` | src/agent_runtime/runs/postgres.py:76-103 | Two runs never hold one thread at the same time, from claim to completion, and never are both unfinished |
| `RunLaws.OneAtATime` | src/agent_runtime/runs/postgres.py:299-320 | Between two transactions on a thread the first was finished or aborted, and stayed the thread's only one until then |
| `RunLaws.AbortLeavesNothing` | src/agent_runtime/runs/postgres.py:61-61 | An aborted transaction frees its thread and leaves nothing else behind |
| `RunLaws.RowsEvolve` | src/agent_runtime/runs/postgres.py:30-36 | Over any run of the store no row is removed, no finished row changes, no claim is rewritten |
| `RunLaws.RowsAreConsistent` | src/agent_runtime/runs/postgres.py:194-199 | A response is present exactly on success, belongs to its run, and came before the lease ran out |
| `RunLaws.ChangesAreWarranted` | src/agent_runtime/runs/postgres.py:322-339 | A row changes only at a commit on its own thread, by its owner in time or after its lease |
| `RunLaws.SuccessIsFenced` | src/agent_runtime/runs/postgres.py:171-201 | A run succeeds only by its claiming token's completion, before the lease ran out, and its messages become the thread's end in the same step |
| `RunLaws.StaleOwnerChangesNothing` | src/agent_runtime/runs/postgres.py:334-339 | Once a successor claimed the thread, no operation on the stale run changes rows, histories or log |
| `RunLaws.LateCompletionKeepsNothing` | src/agent_runtime/runs/postgres.py:192-199 | When time runs out between the two owner checks nothing is kept; when it does not, the run succeeds |
| `RunLaws.SweepFailsOnlyExpired` | src/agent_runtime/runs/postgres.py:252-276 | A sweep or recovery changes only a run that was accepted or running and whose lease had ended: it becomes failed, with the code owner_lease_expired and no response, over at a time from its lease on |
| `RunLaws.BusyIffLive` | src/agent_runtime/runs/postgres.py:76-90 | A claim is turned away as busy exactly when an unfinished run of the thread is still in time |
| `RunLaws.CreationIsNew` | src/agent_runtime/runs/postgres.py:91-113 | A claim that reports created added a new row under a key nobody had |
| `RunLaws.CreatedOnce` | src/agent_runtime/memory/tables.py:92-124 | Over any run of the store at most one claim reports a key, or a run id, as created |
| `RunLaws.HistoryIsCommitted` | src/agent_runtime/memory/_message_batch.py:22-52 | Every thread holds its committed batches end to end, numbered 1, 2, 3 and so on |
| `RunLaws.BatchesAreSuccesses` | src/agent_runtime/runs/postgres.py:187-199 | Exactly the succeeded runs have a batch, each one, ending in the assistant message of its response |
| `RunProgress.OwnerCompletes` | src/agent_runtime/runs/postgres.py:153-201 | An owner in time whom nobody disturbs completes: its row, its thread and the log are given field by field, and nothing else changed |
| `RunProgress.CompletableIff` | src/agent_runtime/runs/postgres.py:171-191 | The first check passes exactly for the right token in time, the run's own response, and its last assistant message |
| `RunProgress.CompletionAnswers` | src/agent_runtime/runs/postgres.py:171-186 | A completion's first check refuses a foreign or late owner, then a run that is not running, a response that is not the run's or a last assistant message that is not the response's, and passes otherwise |
| `RunProgress.FinalCheckAnswers` | src/agent_runtime/runs/postgres.py:188-199 | The second check refuses a foreign or late owner alone, and otherwise stages the success with every field |
| `RunProgress.TransitionAnswers` | src/agent_runtime/runs/postgres.py:125-146 | A transition is refused for its owner first, then for a change not allowed or a response, and made otherwise |
| `RunProgress.TransitionSettles` | src/agent_runtime/runs/postgres.py:137-151 | An owner in time moves its run on: the row is given field by field, and nothing else changes |
| `RunProgress.RecoverySettles` | src/agent_runtime/runs/postgres.py:225-231 | A recovery, or a sweep's visit, fails its run exactly if it is unfinished and its lease has ended, and changes nothing else |
| `RunProgress.DeadRunIsRecoverable` | src/agent_runtime/runs/postgres.py:225-276 | However its owner died, waiting until the lease has ended and then recovering or sweeping fails the run, and changes nothing else |
| `RunProgress.AppendGoesOn` | src/agent_runtime/memory/_message_batch.py:22-52 | An append outside any run becomes the end of its thread, numbered on, and changes nothing else |
| `RunProgress.ClaimAnswersKey` | src/agent_runtime/runs/postgres.py:62-74 | A claim whose key is taken answers with the run that has it, or conflicts if the request is another |
| `RunProgress.ClaimFindsThread` | src/agent_runtime/runs/postgres.py:76-90 | A claim with a free key is turned away exactly if the thread has a live run, and otherwise stages the failure of its dead run and nothing else |
| `RunProgress.ClaimInserts` | src/agent_runtime/runs/postgres.py:91-123 | The insert goes back to the look-up for a key taken meanwhile, fails for a run id taken meanwhile, and otherwise creates the run as it was claimed |
| `RunProgress.FreshClaimCreates` | src/agent_runtime/runs/postgres.py:46-113 | A new key on a thread with no live run gets a row given field by field, for the whole lease; a dead owner's run there is failed as of now, and nothing else changed |
| `RunProgress.CleanupSettles` | src/agent_runtime/runs/postgres.py:203-223 | Cleanup with the right token leaves a finished run as it was, fails one whose lease has ended for that, and settles any other with the code and outcome given; nothing else changes |
| `RunProgress.CleanupAnswers` | src/agent_runtime/runs/postgres.py:203-217 | A cleanup is refused for a foreign token alone |
| `RunsPostgres.RunRow.Expire` | src/agent_runtime/runs/postgres.py:322-332 | Expiring in place fails exactly a row that is unfinished and out of time: failed, owner_lease_expired, over now, no response, same claim |
| `RunsPostgres.RunRow.Transition` | src/agent_runtime/runs/postgres.py:139-151 | The assigned row and the error are those of the allowed transition |
| `RunsPostgres.RunRow.FailIfRunning` | src/agent_runtime/runs/postgres.py:216-223 | Cleanup assigns a failure only to an unfinished row of the right token |
| `RunsPostgres.Database.Claim` | src/agent_runtime/runs/postgres.py:46-123 | The claim transaction, with other threads committing between its lookup and its insert, does what the transition system does and keeps the unique indexes |
| `RunsPostgres.Database.Transition` | src/agent_runtime/runs/postgres.py:125-151 | The transition transaction reports and writes what the operation does, and rolls back every refusal |
| `RunsPostgres.Database.Complete` | src/agent_runtime/runs/postgres.py:153-201 | The completion writes history and success together or neither, with two clock readings |
| `RunsPostgres.Database.FailIfRunning` | src/agent_runtime/runs/postgres.py:203-223 | The cleanup transaction reports and writes what the operation does |
| `RunsPostgres.Database.Recover` | src/agent_runtime/runs/postgres.py:225-231 | Recovery fails the run if it is unfinished and its lease has ended, with every field of that failure, and changes nothing else |
| `RunsPostgres.Database.RecoverExpired` | src/agent_runtime/runs/postgres.py:233-276 | A sweep reports exactly the rows it failed, each failed for its lease at the clock read for it, skips held threads, and leaves none of the others unfinished and out of time |
| `RunsPostgres.ScanIsSwept` | src/agent_runtime/runs/postgres.py:239-252 | A sweep over what its scan found leaves a run out of time only on a held thread or beyond the scan's limit |
| `RunsPostgres.Database.Persist` | src/agent_runtime/runs/postgres.py:192-201 | Messages and success are written together, or neither is when the owner's time is up |
| `RunsPostgres.Database.AppendMessages` | src/agent_runtime/memory/_message_batch.py:15-52 | An append adds its numbered batch to an existing thread |
| `RunsPostgres.NextBatch` | src/agent_runtime/memory/_message_batch.py:31-52 | Numbers go on contiguously after the highest stored one |
| `RunsPostgres.FindAssistant` | src/agent_runtime/runs/postgres.py:187-187 | The newest assistant message, or none |
| `RuntimeLaws.WorldStepKeeps` | src/agent_runtime/runtime.py:292-407 | Every step of any call, transaction or clock keeps executions, claims and answers faithful |
| `RuntimeLaws.AtMostOneExecution` | src/agent_runtime/runtime.py:352-407 | The invoker is started at most once per run and at most once per agent and key, whatever is retried, lost, cancelled or swept |
| `RuntimeLaws.ReturnedIsDurable` | src/agent_runtime/runtime.py:300-333 | Every returned response is the stored one of a succeeded run for that very request, whose invoker was started |
| `RuntimeLaws.SuccessIsForever` | src/agent_runtime/runtime.py:507-549 | No failure, timeout, cancellation, cleanup or sweep overwrites a committed success |
| `RuntimeLaws.LaterCallsReplay` | src/agent_runtime/runtime.py:560-572 | After a success an equal request replays it, a different one is refused, and no other call with the key starts its invoker |
| `RuntimeLaws.KeyHolderOnly` | src/agent_runtime/runtime.py:388-407 | Only the call that claimed a key can ever have started its invoker for it |
| `RuntimeProgress.UndisturbedCallReturns` | src/agent_runtime/runtime.py:370-497 | A call on a free thread with a new key claims, starts, executes once, commits its turn and returns its own response |
| `RuntimeProgress.UncertainCallIsReconciled` | src/agent_runtime/runtime.py:305-333 | The cleanup of a call settles its run and changes nothing else; the call returns a committed response unless it was cancelled, and raises otherwise |
| `RuntimeFailures.InterruptedCallSettles` | src/agent_runtime/runtime.py:300-333 | Interrupt a call whose run exists, wherever it is, and run its cleanup: the run is over, as it was or with the code and outcome of the interruption or the end of its lease, and the call returns a stored success unless cancelled and raises otherwise |
| `RuntimeFailures.AnyInterruptedCallSettles` | src/agent_runtime/runtime.py:300-333 | The same in every run of the world |
| `RuntimeOwners.OwnerCleansUp` | src/agent_runtime/runtime.py:305-333 | No step lets a call whose run exists raise without a cleanup: it goes on, cleans up for what interrupted it or with the code of the refusal, or returns what its run now holds |
| `RuntimeOwners.AlwaysOwning` | src/agent_runtime/runtime.py:378-404 | In every run of the world a call that has not sent its claim, or heard of another's run, has no run and no claim open, and an open claim is the only one for its run |
| `RuntimeOwners.RunsAreAsRequested` | src/agent_runtime/runtime.py:370-399 | A run is on the thread its request names, if it names one, and holds it for the runtime's lease from its claim on; a call claims only on a thread there is, and is cleaned up only as failed or blocked |
| `RuntimeOwners.IssueBegins` | src/agent_runtime/runs/postgres.py:299-320 | Whatever a call asks of the store begins a transaction of its own on a free thread |
| `RuntimeFailures.AbandonedCleanupSettles` | src/agent_runtime/runtime.py:507-549 | A cleanup whose caller is gone settles the run all the same |
| `RuntimeFailures.GivenUpCleanupSettles` | src/agent_runtime/runtime.py:507-524 | A caller that leaves before the cleanup begins raises at once, and the run is settled in the end |
| `RuntimeFailures.LookUpAnswers` | src/agent_runtime/runtime.py:352-368 | A look-up refuses another request with the key, recovers an unfinished run, replays a success and refuses a run that came to nothing |
| `RuntimeFailures.NewKeyOpens` | src/agent_runtime/runtime.py:352-371 | A key that no run has lets the call go on to its thread |
| `RuntimeFailures.RecoveryAnswers` | src/agent_runtime/runtime.py:359-368 | Recovering the run with the key fails it if its lease has ended and touches nothing else; the call replays a success and raises otherwise |
| `RuntimeFailures.RepeatIsAnswered` | src/agent_runtime/runtime.py:352-368 | An equal request with the key of a succeeded run is answered from the look-up, without a transaction and without an execution |
| `RuntimeLaws.LaterAnswersReplay` | src/agent_runtime/runtime.py:388-407 | A later call past its look-up never creates a run under a key that succeeded; a claim or a recovery that reports the run leads to its response |
| `Utf8.RoundTrip` | src/agent_runtime/models_clients/_http.py:62-62 | Decoding an encoded text gives it back |
| `Utf8.DecodeIsExact` | src/agent_runtime/models_clients/_http.py:62-62 | Only an encoding decodes, and only to what it encodes |
| `Utf8.EncodesByTable` | src/agent_runtime/models_clients/_http.py:62-62 | Each character is written by its row of the table in section 3 of RFC 3629 |
| `Sse.SplitConcat` | src/agent_runtime/models_clients/_http.py:53-56 | Cutting at line ends can be resumed from the unfinished line |
| `Sse.FailureIsFinal` | src/agent_runtime/models_clients/_http.py:57-72 | Once a prefix of the bytes fails, every continuation fails the same way after the same events |
| `Sse.Decoder.Feed` | src/agent_runtime/models_clients/_http.py:49-72 | One chunk brings the decoder to the meaning of all bytes so far, and what stays buffered is bounded |
| `Sse.SseData` | src/agent_runtime/models_clients/_http.py:39-72 | Events and outcome are those of the concatenated bytes; only the total bound looks at chunks |
| `Sse.ChunksDoNotMatter` | src/agent_runtime/models_clients/_http.py:49-53 | Within the total bound chunking is invisible; beyond it the stream fails after a prefix of its events |
| `SseFrames.FramesRoundTrip` | src/agent_runtime/service/app.py:316-317 | Decoding any frames under any chunking returns their data in order, and a frame cut short adds nothing |
| `Sse.ChunkingShowsIff` | src/agent_runtime/models_clients/_http.py:49-53 | All chunkings of the same bytes agree exactly when the bytes are within the total bound, or those up to it report nothing |
| `SseFrames.ChunkingShows` | src/agent_runtime/models_clients/_http.py:49-53 | Any frame followed by bytes over the bound is reported under one chunking and not under another |
| `SseFrames.UnchangedIffNoCr` | src/agent_runtime/models_clients/_http.py:62-70 | Decoding written frames, under any chunking, gives the written data exactly when none of it ends in a carriage return |
| `SseFrames.FrameFitsIff` | src/agent_runtime/models_clients/_http.py:57-61 | A frame is decoded exactly when all of it is within the event bound; otherwise nothing of it is reported |
| `SseFrames.MultilineRoundTrip` | src/agent_runtime/models_clients/_http.py:63-70 | An event of several data lines is reported as those lines joined by LFs |
| `SseLines.BlocksRoundTrip` | src/agent_runtime/models_clients/_http.py:54-70 | Any lines in any blocks, under any chunking and either line end, are reported block by block: the values of the data fields, with or without the one space, joined by LFs; other lines and blocks without data say nothing |
| `SseLines.UndecodableFails` | src/agent_runtime/models_clients/_http.py:62-62 | A line that encodes no text fails the stream, after the events before it and whatever follows |
| `SseLines.UnfinishedFitsIff` | src/agent_runtime/models_clients/_http.py:71-72 | An unfinished line fails its event exactly when it is longer than 262144 bytes |
| `SseLines.TrimmedTakesCrs` | src/agent_runtime/models_clients/_http.py:62-62 | A line loses every carriage return at its end, and nothing else |
| `SseFrames.JoinCuts` | src/agent_runtime/models_clients/_http.py:65-65 | Joining fields loses nothing: cutting at LFs gives them back |
| `JsonValues.Walk.Visit` | src/agent_runtime/_json.py:13-37 | The walk reports the first problem of the unfolding and restores the ancestors, whatever it finds |
| `JsonValues.ValidateJsonValue` | src/agent_runtime/_json.py:9-43 | A value is accepted exactly when it unfolds to a finite JSON tree |
| `JsonValues.UnfoldsOnce` | src/agent_runtime/_json.py:19-36 | A graph unfolds to at most one tree |
| `JsonValues.CycleIsRejected` | src/agent_runtime/_json.py:19-36 | A value from which some container is met twice along one path is rejected, so an accepted one is on no cycle and reaches none |
| `JsonValues.AcceptedIffTree` | src/agent_runtime/_json.py:9-43 | Termination and acceptance on every finite graph, shared or cyclic: accepted iff a tree |
| `JsonValues.CyclicIsCycle` | src/agent_runtime/_json.py:20-23 | When the walk says cyclic, some container can be reached from itself |
| `JsonProblems.ReportIsFirstProblem` | src/agent_runtime/_json.py:13-37 | The walk reports a problem exactly when it is that of the first place with one, a container before what it holds and a key before its value |
| `Streams.CheckedStream` | src/agent_runtime/_streams.py:18-41 | The gate passes what precedes the first terminal event and withholds that event until the source has ended |
| `Streams.GateIsExact` | src/agent_runtime/_streams.py:24-41 | A terminal event comes out exactly when it was the only one, last, and the source ended normally |
| `Streams.GateBreaks` | src/agent_runtime/_streams.py:24-41 | What passes ends before the first terminal event; a stream is broken for a late event first, then for what its source raised, and last for want of a terminal event |
| `NativeLoop.Dispatch` | src/agent_runtime/adapters/native.py:116-134 | Tools run in order until one fails, each answered by one tool message; `NativeConversation.InvocationIsConversation` says what the message carries |
| `NativeLoop.Invoke` | src/agent_runtime/adapters/native.py:74-138 | The loop's outcome is that of the played rounds, told apart from them by `NativeConversation.InvocationIsConversation` |
| `NativeLoop.Stream` | src/agent_runtime/adapters/native.py:140-230 | The streaming loop yields the specified events and raises what the same rounds raise, told apart from them by `NativeConversation.InvocationIsConversation` |
| `NativeConversation.InvocationIsConversation` | src/agent_runtime/adapters/native.py:74-230 | Every invocation is some conversation: what each model call was given and answered, each call's output in its tool result and tool message in order, why the last round was the last, and then exactly the outcome and the events of both forms |
| `NativeLaws.FormsAgree` | src/agent_runtime/adapters/native.py:74-230 | On the same answers and ids the stream completes with exactly the returned output, and its tool events are that output's results |
| `NativeLaws.StreamedText` | src/agent_runtime/adapters/native.py:166-171 | The text a completed stream yields is every model call's text, in order |
| `NativeLaws.CallsAreBounded` | src/agent_runtime/adapters/native.py:81-138 | At most N + 1 model calls, one that fails included, and at most N tool rounds; the limit error comes exactly when N + 1 results all asked for tools |
| `NativeLaws.UsageIsSum` | src/agent_runtime/adapters/native.py:32-39 | Usage is the sum over the calls, or unknown exactly when one call's is |
| `ThreadContext.CompletedIsBalanced` | src/agent_runtime/adapters/native.py:103-134 | Every call of a completed output is answered once before the next model message, and the last message calls nothing |
| `ThreadContext.BalancedSelects` | src/agent_runtime/context.py:76-107 | Over balanced messages selection never reports a broken exchange: it succeeds exactly when the mandatory part fits |
| `ThreadContext.BatchIsBalanced` | src/agent_runtime/runtime.py:491-496 | A balanced request followed by a completed native output is a balanced batch |
| `ThreadContext.StepStaysBalanced` | src/agent_runtime/runtime.py:491-496 | Balanced requests and appends and completed native outputs keep every message list on its way to a thread, and every committed batch, balanced |
| `ThreadContext.StoredThreadSelects` | src/agent_runtime/runtime.py:435-440 | In every world of such calls, selecting from any stored thread never meets a broken exchange and succeeds exactly when the mandatory part fits |
| `Fragments.Assemble` | src/agent_runtime/models_clients/openai_compatible.py:172-277 | A completed stream has one call per index, the k-th read from the chunk at the k-th smallest index, with the stream's text and last known usage; each of the five rejections is reported exactly in its own case; the yielded deltas are not empty and concatenate to the text |
| `Fragments.ChunkIsConcatenation` | src/agent_runtime/models_clients/openai_compatible.py:230-250 | A call's id, name and arguments are each the concatenation of their own pieces at its index |
| `Fragments.MeaningCompletes` | src/agent_runtime/models_clients/openai_compatible.py:257-277 | What a stream means is what it completes as, told call by call and rejection by rejection |
| `Fragments.UsageIsLast` | src/agent_runtime/models_clients/openai_compatible.py:193-196 | The usage is the last one that any delta knew |
| `Fragments.ContentInOrder` | src/agent_runtime/models_clients/openai_compatible.py:214-250 | Text and fragments are those of the deltas, end to end, in order |
| `Fragments.SameContentSameCompletion` | src/agent_runtime/models_clients/openai_compatible.py:257-277 | Streams with the same text, indices, concatenations, usage and ending complete alike |
| `Fragments.InterleavingIsFree` | src/agent_runtime/models_clients/openai_compatible.py:230-250 | Fragments of different calls may change places |
| `Fragments.SplittingIsFree` | src/agent_runtime/models_clients/openai_compatible.py:230-250 | A fragment may come in two pieces: no chunk and no index changes |
| `Fragments.RearrangedCompletesAlike` | src/agent_runtime/models_clients/openai_compatible.py:230-277 | Any number of splits, joins and exchanges between calls leaves the completion as it is |
| `RuntimeStream.ChannelKeeps` | src/agent_runtime/runtime.py:191-230 | Every step of producer, consumer or cancellation keeps the order of what is put, what may be waiting, and the bound of 64 |
| `RuntimeStream.ActKeeps` | src/agent_runtime/runtime.py:191-253 | Every step of the stream, or of the runtime around it, keeps what is told in step with what the call was answered |
| `RuntimeStream.ConsumerSeesOrder` | src/agent_runtime/runtime.py:191-230 | In every schedule the consumer sees a beginning of started, progress, one terminal, which an end directly follows; a completion it sees is stored by a succeeded run; the queue never exceeds 64 |
| `RuntimeStreamDelivery.DeliveredIsEmitted` | src/agent_runtime/runtime.py:191-230 | In every schedule the consumer was handed a beginning of what the invocation emitted, in order; undisturbed, all of it by the time it is told the response or a problem |
| `RuntimeStreamDelivery.ToldFailuresHappened` | src/agent_runtime/runtime.py:212-228 | A consumer is told only of a failure that the invocation had |
| `RuntimeStreamDelivery.UndisturbedFailureIsOwn` | src/agent_runtime/runtime.py:197-213 | If no cancellation, closing or deadline disturbed the stream, a consumer that is told of a failure had a call that raised |
| `RuntimeStreamDelivery.ConsumerEndsAsTold` | src/agent_runtime/runtime.py:217-224 | The consumer raises exactly when it is handed a problem, and stops exactly when it is handed the end |
| `RuntimeStreamDelivery.NoRunBeforeStart` | src/agent_runtime/runtime.py:408-417 | A call's invoker is never started before its stream has put that it started |
| `RuntimeStreamDelivery.HandedWhatWas` | src/agent_runtime/runtime.py:408-453 | A consumer that was handed a start has a call whose own run exists or that replayed another's response; one that was handed progress has a call whose invoker was started |
| `RuntimeStreamDelivery.WaitingHoldsCall` | src/agent_runtime/runtime.py:194-195 | A producer that waits for the queue while its invocation streams holds the call where it is |
| `RuntimeStreamDelivery.OthersPassBy` | src/agent_runtime/runtime.py:191-230 | Other calls go on whatever the stream does, and leave its channel alone |
| `RuntimeStreamDelivery.WaitingMayTimeOut` | src/agent_runtime/runtime.py:297-324 | A deadline may pass while the producer waits exactly if it is inside its invocation |
| `RuntimeStreamDelivery.DeadlineFailsCall` | src/agent_runtime/runtime.py:310-324 | A deadline that passes while the producer waits for the queue fails the call with the deadline's code, and its cleanup follows |
| `RuntimeStreamDelivery.InterruptedMayAnswer` | src/agent_runtime/runtime.py:300-333 | An interrupted producer whose call is over may answer with an exception, with the cancellation exactly if it was cancelled, and with a response exactly if it had started and the call returned it |
| `RuntimeStreamLaws.ReaderIsToldIff` | src/agent_runtime/runtime.py:212-230 | A reading consumer can still be told of the end exactly until the producer goes with a cancellation before a problem or the end was put |
| `RuntimeStreamLaws.UncancelledIsTold` | src/agent_runtime/runtime.py:197-230 | Over any schedule in which nobody cancels the producer from outside, a reading consumer is never lost, and can be told of the end without a cancellation |
| `RuntimeStreamLaws.CancelledIsSilent` | src/agent_runtime/runtime.py:205-215 | Cancelled as soon as the stream is opened, the producer puts nothing, and no continuation ends the reading |
| `RuntimeStreamLaws.CancellationLosesIff` | src/agent_runtime/runtime.py:205-230 | A cancellation leaves a reading consumer without an end exactly when the producer had left its invocation and had put neither a problem nor the end |
| `RuntimeStreamLaws.StoppedConsumerFreesProducer` | src/agent_runtime/runtime.py:212-230 | A producer whose consumer stopped never waits for ever exactly if the queue has room for all it owes, and then ends by itself |
| `RuntimeStreamLaws.StuckUntilCancelled` | src/agent_runtime/runtime.py:226-230 | A producer stuck at the full queue stays stuck until it is cancelled again, which frees it |
| `RuntimeStreamProgress.ClosingCanHang` | src/agent_runtime/runtime.py:212-230 | From any running invoker there is a schedule, without a second cancellation, that leaves the producer stuck after the consumer closed |
| `RuntimeStreamProgress.SomeStreamHangs` | src/agent_runtime/runtime.py:212-230 | Some schedule from an empty runtime gets there |
| `RuntimeStreamProgress.UndisturbedStreamCompletes` | src/agent_runtime/runtime.py:191-230 | On a free thread, with a consumer that keeps up, the stream shows its start, every event in order, its own response and its end, after one execution and one commit |
| `RuntimeShutdown.StepKeeps` | src/agent_runtime/runtime.py:139-165 | Every step keeps both registers exact, under nested invocations and late callbacks |
| `RuntimeShutdown.RegisteredIffInside` | src/agent_runtime/runtime.py:241-253 | A task is registered exactly while it is inside an invocation, however deep, and once the runtime closes every such task was asked to cancel |
| `RuntimeShutdown.AnswerIsExact` | src/agent_runtime/runtime.py:153-165 | A look for pending tasks reports success exactly when every invocation was left and every cleanup ended, and failure exactly when something is left and the budget spent |
| `RuntimeShutdown.DrainedIsFinal` | src/agent_runtime/runtime.py:139-165 | After a success no task is ever inside an invocation, every cleanup has ended, and neither can start |
| `RuntimeShutdown.ClosingOnlyShrinks` | src/agent_runtime/runtime.py:239-253 | While the runtime closes no task enters deeper |
| `RuntimeShutdown.NewTaskEntersIff` | src/agent_runtime/runtime.py:239-246 | A new task can enter the runtime, and is then registered, exactly until it closes |
| `RuntimeShutdown.BudgetEndsTheWait` | src/agent_runtime/runtime.py:153-164 | From its deadline on a shutdown can wake, look once more and answer, whatever the tasks do |
| `RuntimeShutdown.WaitCanEnd` | src/agent_runtime/runtime.py:153-165 | A waiting shutdown has its answer after its budget, whatever the tasks do |
| `RuntimeShutdown.FailureSpendsBudget` | src/agent_runtime/runtime.py:153-164 | A shutdown keeps the deadline it set when it was called, and reports failure only once its whole budget has passed |
| `RuntimeShutdown.ShutdownAsksInside` | src/agent_runtime/runtime.py:147-152 | A shutdown comes from outside any invocation and asks exactly the tasks inside one to cancel; it spares the cleanups |
| `RuntimeShutdown.WaiterIsOutside` | src/agent_runtime/runtime.py:147-152 | A task that waits for its own shutdown has not ended, is inside no invocation, and calls no other shutdown meanwhile |
| `RuntimeShutdown.WakesForReason` | src/agent_runtime/runtime.py:153-164 | A waiting shutdown waits for tasks there are, at least one, and wakes only once all of them have ended or its deadline has come |

## Left out

- Deep copies of selected messages, and closing the history iterator: the model's messages are values.
- Serializer exceptions other than the ones the incremental selector defers, and Python's recursion and memory limits.
- JsonValues.ValidateJsonValue: does not model the recursion limit, which turns very deep values into a rejection.
- RunsPostgres.Database.RecoverExpired: takes the ids its unlocked scan found, and the threads held meanwhile, as parameters; what the scan finds is stated as a condition on those ids.
- RunsPostgres.Database.Claim: takes what other threads commit between its lookup and its insert as one parameter; the interleaving itself is in the transition system.
- Unique violations on a request id or a message id abort a transaction; the model lets any transaction abort at any point.
- The `started_at` column, which is the transaction's start and may precede the claim's clock reading; exclusion is about the claim.
- Namespaces, and the check that a replayed run's thread is in the caller's namespace.
- Hooks and guardrails beyond stopping an invocation; telemetry, correlation, logging, configuration and validation of arguments.
- An invoker that swallows its cancellation and goes on emitting: a cancelled invocation of the stream model ends, with the cancellation, an exception, or a response already committed.
- Lock waiting and fairness: a transaction begins when its thread's lock is free.
- The history read and the context selection inside an invocation are not steps of the runtime's transition system: they change nothing the store holds.
- JSON parsing of event data and of tool arguments, and pydantic's limits, are parameters of the fragment assembly.
- Carriage returns alone as line ends, and the `event:`, `id:` and `retry:` fields, which the decoder ignores.
- The Anthropic and Gemini clients, the LangChain and LangGraph adapters, long-term memory, feedback, registries, migrations and command-line tools.
