# AgentMux: verified models of its concurrent cores

This project models the parts of AgentMux in which many goroutines, a durable
store and restarts meet, and proves what they promise over every run.  Each model
has the form of the code it stands for: transition systems for the critical
sections of a protocol, classes and loops for the code that updates state in
place, functions for code that only computes.  Choices the program does not
control (the result of a store write, an agent's answer, the moment of a crash,
map order, the interleaving itself) are arguments of the steps, so a statement
about `Run(...)` is a statement about every schedule.

Check everything with `dafny verify dfyconfig.toml`.

## What is modelled

**The task queue of a conversation** (`TaskQueue*`, `ConversationControl`).  One
active task, a FIFO, a steering flag, a direct (console) turn, goroutines that
still hold work, and the task rows in the store.  A write that succeeds is applied;
a write that fails may or may not have been applied; a crash keeps only the store.
Main results: a prompt reaches the agent at most once over all crashes and
restarts, steering pins its item, one turn at a time, no lost wake-up, one place
per task, launches in admission order, a stop request ends only the turn that ran
when it was made, a clear cancels its user's items only, and controller and target
of a task are fixed when it is admitted.  Some results are exact conditions.  From a
state of a working process every honest future (no failed write that took effect,
no recovery that could not read the rows) launches in creation order over all
restarts *if and only if* launches did so far, everything that may still be
launched is newer than all of them, and no row stored as queued is missing from
the queue.  Because start-up registers the channel before it recovers, and recovery
reads the rows outside the lock, it can append rows that have moved on since.  No
future then delivers a prompt twice *if and only if* every row that was read is
still due when it is appended: not delivered, not running, and not waiting
already, unless the waiting copy is inert because the channel is shut down and it
cannot be steered.  Runs in which all recoveries come late, and append such rows
only, deliver each prompt at most once.  A task that ended in between, by a
cancellation for example, waits again *if and only if* its row was read, and is
then launched in some future.  The sections of `ConversationControl` move a
conversation exactly like the steps and keep it in a state of some run, in
whatever order they are called.

**Agent hot swap with session leases** (`SessionLeases*`, `ChannelRuntime`).
Reference counting over generations and bindings.  Main results: the counter of a
generation is its number of open sessions, a session is open *if and only if* it
is leased or cached and closes with its last lease, a replaced generation is
stopped in the very step that closes its last session, no two generations hold
leases in one directory, and closing the channel leaves everything stopped and
closed exactly once.  A terminal looks the cache up before it waits and not again
afterwards.  After its insert every sound future that ends in a close is settled
*if and only if* the cache still missed, a closed channel that is asked on is
settled *if and only if* no agent was swapped in, its tables are empty and no open
session is missing from them, and directories stay apart *if and only if* no
leased session was overwritten; concrete runs with two waiting terminals show the
leak and the shared directory.

**Following transcripts** (`Transcript*`, `Codex*`).  A
resumable fold with durable checkpoints against one batch read, over any schedule
of appends, partial lines, failed publishes, failed checkpoints and restarts, with
the fingerprint skip included; what is published is also told line by line,
without the fold, and what a scan has read but not stored is bounded.  A scan that
opens the file while its first line is incomplete stores an identity the file
loses later and must relocate its cursor by message id.  From there every parser of
a format publishes in every continuation only what its batch read publishes, and
after a pass all of it, *if and only if* the file kept its identity or no earlier
line carries the id of the last identified one.  All schedules agree with the batch
read if relocation always meets such an id, or no scan reads a torn file; and of
every Codex file with three growing totals, the third under the message id of the
first, a torn open publishes the second usage again, as the whole running total
(if its report does not name the usage of the last request).  Each line of a Codex
file yields exactly the event its record stands for; token deltas of cumulative
counters telescope; what is charged for them does so per field, with the exact
condition for input and totals.

**Turn observation** (`ObservedTurn*`, `TurnRecorder`).  Mixed cumulative and
incremental usage booked on aliased model spans, and a numbered log of spans.  What
a span shows and what the turn totals follow from the list of reports, and every
event is found in the log.  Turn totals equal the sum over spans *if and only if*
no cumulative report ever lowers a counter; every span opens once, first, and is
closed before the run and the turn.

**Inbound order** (`Inbound*`), **group routing** (`Group*`, `ChannelRouter`),
**meeting answers** (`Meeting*`) and **insight selection** (`InsightSelection`).  Receive order
per chat (a waiter that gives up makes an overlap possible *if and only if*
someone before it is not done), no message stuck, retry-stable routing that goes
where the platform said and leaves it on record, loss-free chunking behind
sentence ends of whatever texts arrive, order-free selection (a span without ids
is merged *if and only if* another one spells its key under a runtime called
"unique"; the most trusted witness stands for a call).

## Assumptions

- Task ids stand for creation order: the store's clock is strictly increasing.
- Recovery of a process runs before its first admission in `TaskQueue.Enabled`;
  what happens otherwise is the subject of `TaskQueueLateRecovery` and `TaskQueueLateRuns`.
- Permission checks, capabilities and timeouts are arbitrary choices of a step.
- A transcript file only grows; retention cut-offs do not move during a run.
- `FindTopicConversationKey` finds, for a message that opens a topic of its own,
  no other key than that topic's.
- Span, trace, runtime, request and session ids contain no NUL character, and one
  listing names no span twice.

## Model

| member | source | states |
|---|---|---|
| `TaskQueueTheorems.DeliveredAtMostOnce` | core/channel_remote.go:424-444 | in every run with crashes, restarts and ambiguous writes no task's prompt is launched twice, steered twice, or both |
| `TaskQueueTheorems.OnlyRejectionLeavesLaunchable` | core/channel_queue.go:162-193 | a task that may still be launched, now or after a restart, was so far only ever definitely rejected |
| `TaskQueueTheorems.SteeringIsExclusive` | core/channel_queue.go:129-157 | the flag is set exactly when one queue item is steering; all other items are queued |
| `TaskQueueTheorems.SteerIsPinned` | core/channel_queue.go:98-193 | until a steer settles no step removes its item, lowers the flag or starts a queued task, and the active task is the item's target or none |
| `TaskQueueTheorems.SettleOutcomes` | core/channel_queue.go:162-191 | in every run the settled item waits again exactly for a saved rejection, otherwise it ends steered or unknown, and a prompt that may have arrived is not launched in any future |
| `TaskQueueTheorems.OneTurnAtATime` | core/channel_direct.go:24-43 | an active task and a direct turn never coexist and the live runners are exactly the active task's one |
| `TaskQueueTheorems.NoLostWakeUp` | core/channel_remote.go:399-444 | a non-empty queue of a live channel has an active task, a steer or a direct turn, unless a direct turn is finishing or the last claim failed |
| `TaskQueueTheorems.ExactlyOnePlace` | core/channel_remote.go:97-120 | an admitted task is in exactly one of queue, active slot and finished tasks, and finished means a final status |
| `TaskQueueTheorems.FinalIsForever` | core/channel_remote.go:399-412 | a finished task never changes while the process lives |
| `TaskQueueTheorems.LaunchesFollowAdmission` | core/channel_remote.go:236-246 | the launches of a process are a subsequence of its admissions |
| `TaskQueueRequests.NobodyStartsStopped` | core/channel_remote.go:424-444 | whoever becomes active in any run, by a claim or its own admission, has no stop request |
| `TaskQueueRequests.StopIsRequested` | core/channel_remote_commands.go:230-256 | in every run the stop flag of the active task is up exactly if a stop step happened while that same task was active |
| `TaskQueueRequests.TurnEndsAs` | core/channel_remote.go:289-312 | a turn ends interrupted if and only if it was asked to stop while it ran or was cut off without an error, failed exactly for an error without such a request, succeeded exactly without any of them |
| `TaskQueueRequests.DetachedStartsNobody` | core/channel_remote.go:424-429 | once the channel is detached no task admitted before is started in this process |
| `TaskQueueRequests.LiveUntilDetached` | core/channel_remote.go:424-429 | in every run a process is attached exactly until it is shut down |
| `TaskQueueRequests.DirectIsPinned` | core/channel_direct.go:24-83 | a console turn gets its conversation exactly if nothing else runs there and keeps it until it ends itself or the process dies |
| `TaskQueueRequests.ClearReachesOwnItems` | core/channel_remote_commands.go:323-341 | a clear cancels exactly the queued items of its user, or all for an administrator, whose cancellation was written; every other item waits on unchanged or runs next |
| `TaskQueueOwners.OwnersAreFixed` | core/channel_remote.go:213-246 | whatever a working process does, a task it holds keeps its controller and target, was taken over just now, or was just admitted for the member who asked, to join the task that ran then |
| `TaskQueueOwners.FinishedKeepOwners` | core/channel_remote.go:399-412 | a task that ends was held until then and keeps its controller and target |
| `TaskQueueRecovery.RecoveryClosesRows` | core/channel_remote.go:534-578 | recovery makes "steering" rows unknown, "running" and "waiting" rows interrupted, as far as its statements ran, claims at most the oldest queued row and changes no other |
| `TaskQueueRecovery.FailedCreateStrays` | core/channel_remote.go:230-235 | a row created behind a reported failure is stored as queued and missing from the queue |
| `TaskQueueRecovery.FailedRefusalStrays` | core/channel_queue.go:172-191 | so is a refused item whose "queued" was written behind a reported failure |
| `TaskQueueRecovery.UnreadRowStrays` | core/channel_remote.go:534-566 | so is every queued row that recovery did not read |
| `TaskQueueRecovery.StatusIsShown` | core/channel_remote_interactions.go:45-58 | the active task is shown as waiting or running, and its row agrees if it could be written |
| `TaskQueueRecovery.LateRowIsWritten` | core/channel_remote_commands.go:276-282 | what was shown or taken over can be written at any later time, whatever the task has become |
| `TaskQueueRecovery.RefreshStores` | core/channel_queue.go:18-80 | redrawing a card stores the task as memory knows it and changes nothing else |
| `TaskQueueOnce.RunSafe` | core/channel_remote.go:83-121 | from every safe state, even one in which a task waits twice as an inert copy, no continuation delivers a prompt twice |
| `TaskQueueOnce.ClaimSafe` | core/channel_remote.go:424-444 | the claim keeps deliveries unique: it needs a live process, and there nothing waits twice |
| `TaskQueueOnce.SettleSafe` | core/channel_queue.go:162-193 | settling keeps deliveries unique for all answers and write outcomes |
| `TaskQueueInvariant.RunKeeps` | core/channel_remote.go:83-121 | every step from every reachable state keeps the conjunction of all queue invariants |
| `TaskQueueInvariant.StartNextKeeps` | core/channel_remote.go:424-444 | committing "running" before taking the head keeps order, places and steering and leaves nothing asleep |
| `TaskQueueInvariant.CancelKeeps` | core/channel_queue.go:110-128 | cancelling, with every outcome of its write, keeps them |
| `TaskQueueInvariant.ClearKeeps` | core/channel_remote_commands.go:295-354 | clearing the queue item by item keeps them |
| `TaskQueueInvariant.SteerSettleKeeps` | core/channel_queue.go:162-193 | settling a steer, for all three answers and all write outcomes, keeps them |
| `TaskQueueInvariant.FinishKeeps` | core/channel_remote.go:399-420 | ending a turn keeps them even if the terminal write is lost |
| `TaskQueueOnce.QueuedRowsOk` | store/channel_control.go:136-180 | recovery returns exactly the rows stored as queued, in creation order |
| `TaskQueueRestarts.OrderSurvivesRestarts` | core/channel_remote.go:566-585 | while the store is clean, launches of all processes together are in creation order |
| `TaskQueueRestarts.HonestRunIsClean` | core/channel_queue.go:180-184 | a run in which no "queued" is stored behind a reported failure and recovery reads the rows keeps the store clean |
| `TaskQueueOrder.OrderAcrossRestartsExactly` | core/channel_remote.go:534-586 | from every reachable state of a working process all honest futures launch in creation order over all restarts if and only if launches did so far, what may still be launched is newer than all of them, and no row stored as queued is missing from the queue |
| `TaskQueueRestarts.StrayBreaksOrder` | core/channel_remote.go:534-586 | from any reachable state with a row stored as queued that no queue holds some honest continuation launches out of order |
| `TaskQueueReplay.WaitingLaunches` | core/channel_remote.go:566-578 | whatever a process is doing, an item that waits first under its id is launched next in some honest continuation through a restart |
| `TaskQueueLateRecovery.LateRecoveryExactly` | core/channel_remote.go:534-586 | with any steps between the marking statements, the read and the append, no future delivers a prompt twice if and only if every row read is still due, or waits as an inert copy, at the append |
| `TaskQueueLateRecovery.HarmBreaks` | core/channel_remote.go:566-578 | from every state with a row that is no longer due a continuation that delivers its prompt twice is constructed |
| `TaskQueueLateRecovery.HarmlessIsSafe` | core/channel_remote.go:566-578 | appending harmless rows and claiming the next task is safe |
| `TaskQueueLateRecovery.LateRecoveryDeliversTwice` | core/channel_runtime.go:617-661 | a message is read as queued, launched and finished, and then appended and launched again |
| `TaskQueueLateRecovery.FinishedStayOutExactly` | core/channel_remote.go:566-578 | after the append no finished task waits or runs again if and only if no row that was read has ended since |
| `TaskQueueLateRecovery.FinishedIsLaunched` | core/channel_remote.go:566-586 | such a task is launched next in some future |
| `TaskQueueLateRecovery.CancelledIsAppended` | core/channel_queue.go:110-128 | a run in which a message is cancelled between the read and the append |
| `TaskQueueLateRuns.LateRunsDeliverOnce` | core/channel_runtime.go:617-661 | in every run whose late recoveries append harmless rows only, over all restarts, each prompt reaches the agent at most once |
| `ConversationControl.Conversation.ClaimNext` | core/channel_remote.go:424-444 | the claim moves the conversation as the model's step does, and returns the new active task, without a stop request, exactly when it took the head |
| `ConversationControl.Conversation.Find` | core/channel_queue.go:91-97 | the search loop returns the first item with the id, or the length |
| `ConversationControl.Conversation.Admit` | core/channel_remote.go:97-120 | a message runs at once exactly when nothing runs, waits, is steered or is direct and its row was created |
| `ConversationControl.Conversation.Enqueue` | core/channel_remote.go:213-246 | the item is appended with the active task as target, then the queue is woken; blank or full is refused |
| `ConversationControl.Conversation.Cancel` | core/channel_queue.go:110-128 | removes the item only if the cancellation was written, then wakes the queue |
| `ConversationControl.Conversation.Sweep` | core/channel_remote_commands.go:323-340 | the loop keeps, in order, what it may not or could not cancel, and counts the rest |
| `ConversationControl.Conversation.Clear` | core/channel_remote_commands.go:323-341 | the sweep, then the wake-up of the queue |
| `ConversationControl.Conversation.ClaimSteer` | core/channel_queue.go:129-157 | raises the flag only after "steering" was committed for a queued item whose target is active |
| `ConversationControl.Conversation.RecordAnswer` | core/channel_queue.go:162-191 | only a rejection that could be saved keeps the item queued |
| `ConversationControl.Conversation.RecordAt` | core/channel_queue.go:162-191 | the same for the item found at its place |
| `ConversationControl.Conversation.SettleSteer` | core/channel_queue.go:162-193 | records the answer, lowers the flag, wakes the queue |
| `ConversationControl.Conversation.EndStatus` | core/channel_remote.go:289-312 | succeeded exactly without stop, cut-off and error; failed exactly for an error without stop |
| `ConversationControl.Conversation.Finish` | core/channel_remote.go:399-420 | writes the final status, frees the slot, wakes the queue |
| `ConversationControl.Conversation.BeginDirect` | core/channel_direct.go:24-43 | succeeds exactly when there is neither an active task nor a direct turn |
| `ConversationControl.Conversation.EndDirect` | core/channel_direct.go:45-83 | removes the turn only if it is still the registered one |
| `ConversationControl.Conversation.TakeOver` | core/channel_remote_commands.go:265-285 | changes the controller of the active task and leaves a late write behind |
| `ConversationControl.Conversation.AppendAll` | core/channel_remote.go:567-572 | the loop appends the stored FIFO in order |
| `ConversationControl.Conversation.Load` | core/channel_remote.go:566-578 | the complete FIFO is appended before anything is launched, and a restarted process is then in a state of some run |
| `SessionLeasesTheorems.RunKeeps` | core/channel_runtime.go:173-542 | every sound run keeps tracking, counting, stopping, closing, directory and lease invariants |
| `SessionLeasesTheorems.StoppedExactlyWhenDrained` | core/channel_runtime.go:329-359 | the counter is the number of open sessions, and a generation is stopped exactly when it is replaced and has none |
| `SessionLeasesTheorems.StopComesWithTheLastClose` | core/channel_runtime.go:338-346 | the agent is told to stop in exactly the step that closes the last session or replaces an idle generation |
| `SessionLeasesDirectories.OneGenerationPerDirectory` | core/channel_runtime.go:235-259 | in every run whose terminals overwrite no leased session, leased open sessions in one directory belong to one generation |
| `SessionLeasesUse.OpenExactlyWhileUsed` | core/channel_runtime.go:385-418 | in every sound run before close a session is open if and only if it is leased or cached |
| `SessionLeasesUse.LastLeaseCloses` | core/channel_runtime.go:329-346 | no step but close closes a session that is leased after it, and a session that left the cache closes in exactly the step that returns its last lease |
| `SessionLeasesUse.LeasesAreOutstanding` | core/channel_runtime.go:275-359 | the leases on a session are those taken and not yet given back, over every run |
| `SessionLeasesUse.HandsOutCurrent` | core/channel_runtime.go:275-300 | what is handed out is open, leased once more and of the current generation; a cached session is used again |
| `SessionLeasesUse.ForgetsSession` | core/channel_runtime.go:385-418 | after a drop or a swap the cached session is not handed out again; after a swap the new directory is the current one |
| `SessionLeasesUse.WaitersAreCounted` | core/conversation_terminal.go:26-53 | who waits is who missed the cache and neither opened a session nor gave up |
| `SessionLeasesDirectories.InsertKeepsApartExactly` | core/conversation_terminal.go:53-80 | after a terminal's insert no harmless future shares a directory if and only if it overwrote no leased session |
| `SessionLeasesTheorems.CloseSettlesEverything` | core/channel_runtime.go:494-542 | once closed, every generation ever installed was stopped once and every session closed once |
| `SessionLeasesTheorems.SettledAfterCloseExactly` | core/channel_runtime.go:494-524 | whatever a closed channel is still asked, everything is settled if and only if no agent was swapped in, cache and retired set are empty, and no open session is missing from them; none is while terminals insert on misses |
| `SessionLeasesTheorems.InsertSettlesExactly` | core/conversation_terminal.go:53-80 | after a terminal's insert every sound future that ends in close leaves everything settled if and only if its key was not cached |
| `SessionLeasesTheorems.ReplaceCounts` | core/channel_runtime.go:190-201 | the swap lowers the count of open sessions by exactly the idle cached ones |
| `SessionLeasesStaleMiss.StaleMissIsReachable` | core/conversation_terminal.go:26-53 | two terminals miss, wait for a busy retired session and wake up: the second insert meets a cached, leased session |
| `SessionLeasesStaleMiss.StaleMissLeaks` | core/conversation_terminal.go:26-80 | a run in which an overwritten session is never closed and its generation never stopped, even by close |
| `SessionLeasesStaleMiss.StaleMissShares` | core/conversation_terminal.go:26-80 | a run in which two generations hold leases in one directory |
| `ChannelRuntime.Channel.constructor` | core/channel_runtime.go:52-62 | a new lease table satisfies the invariants |
| `ChannelRuntime.Channel.Blocker` | core/channel_runtime.go:237-243 | the scan finds a busy retired session in the current directory exactly when there is one |
| `ChannelRuntime.Channel.Acquire` | core/channel_runtime.go:275-300 | leases the cached session or opens one of the current generation |
| `ChannelRuntime.Channel.Release` | core/channel_runtime.go:329-359 | the last lease of a retired session closes it and may stop its generation |
| `ChannelRuntime.Channel.Drop` | core/channel_runtime.go:385-418 | a dropped session is retired if leased, else closed |
| `ChannelRuntime.Channel.RetireSessions` | core/channel_runtime.go:190-201 | the sweep, in any order, retires leased and closes idle sessions with one decrement each |
| `ChannelRuntime.Channel.Replace` | core/channel_runtime.go:173-207 | the swap as a whole |
| `ChannelRuntime.Channel.CloseSessions` | core/channel_runtime.go:515-522 | closes each known session once and collects its generation |
| `ChannelRuntime.Channel.StopGenerations` | core/channel_runtime.go:523-525 | stops each collected generation once |
| `ChannelRuntime.Channel.Close` | core/channel_runtime.go:494-542 | after it every generation was stopped once and every session closed once |
| `TranscriptTailTheorems.CursorIsFold` | observability/transcript.go:344-367 | the durable cursor is always the fold of exactly the lines it consumed, and their events are published |
| `TranscriptTailTheorems.OnlyBatchEvents` | observability/transcript.go:368-446 | nothing is ever published that one batch read would not publish |
| `TranscriptTailTheorems.PassAgreesWithBatch` | observability/transcript.go:187-227 | after a pass without error, read or skipped by fingerprint, every line complete at discovery is published; if the file did not grow, exactly the batch events are |
| `TranscriptLines.PublishedComesFromLines` | observability/transcript.go:389-432 | in every sound schedule each published event is among those of a complete line that carries an id and is not stale, parsed in the state the lines before it leave |
| `TranscriptLines.PassPublishesLines` | observability/transcript.go:187-227 | after a pass without error over a file in the window every such event of the lines complete at discovery is published |
| `TranscriptLines.FoldYields` | observability/transcript.go:389-432 | the batch read gives exactly the events that the lines yield |
| `TranscriptLines.UnsavedIsBounded` | observability/transcript.go:340-348 | between two lines a scan has read fewer than 256 lines and 8 MiB since it began or last stored its cursor, whatever failed |
| `TranscriptLines.CheckpointStores` | observability/transcript.go:344-367 | after a line the cursor is stored, at the place reached, exactly if 256 lines or 8 MiB were read |
| `TranscriptLines.SkipIsAPass` | observability/transcript.go:192-207 | a file that looks as after the last pass, or is older than the window, is passed without being opened |
| `TranscriptLines.OldFileIsNotOpened` | observability/transcript.go:199-207 | a file last written before the window is not opened by any step |
| `TranscriptLines.NothingNewIsPassed` | observability/transcript.go:299-341 | a file with nothing behind the cursor is passed without another write |
| `TranscriptLines.FailuresMayTakeEffect` | observability/transcript.go:344-367 | a publish or store that reports failure may leave what a successful one leaves, but ends the scan |
| `TranscriptTailTheorems.RelocatesExactly` | observability/transcript_payload.go:230-258 | relocation resumes right behind the last identified line if and only if no earlier line carries its id |
| `TranscriptRelocation.RelocationIsRightExactly` | observability/transcript.go:319-335 | in every continuation every parser of the format publishes only batch events, and after a pass all of them, if and only if the file kept its identity or no earlier line carries the id of the last identified one |
| `TranscriptTailTheorems.RelocationFollows` | observability/transcript.go:320-335 | if the last id is new, the kept state is the fold at the place found |
| `TranscriptTailTheorems.ResumeFollows` | observability/transcript.go:299-341 | a scan resumes in the fold of the lines before its offset |
| `TranscriptTailTheorems.RunKeeps` | observability/transcript.go:278-446 | every step of a sound schedule keeps the invariants |
| `TranscriptTailSchedules.UntornIsSound` | observability/transcript.go:448-459 | schedules in which no scan reads a first line it saw incomplete are sound |
| `TranscriptTailSchedules.DistinctIsSound` | observability/transcript_payload.go:260-278 | with distinct message ids every schedule is sound |
| `TranscriptTornOpen.TornOpenPublishesStray` | observability/transcript.go:319-335 | on every Codex file whose first line was torn at the open and whose third line repeats its id, with growing totals and no last-request usage in the second, the second scan publishes the middle line again with the whole running total where every batch read gives its growth |
| `TranscriptTornOpen.LettersAreTorn` | observability/transcript_codex.go:96-120 | there is such a file |
| `TranscriptFold.FoldNext` | observability/transcript.go:368-389 | reading the next complete line is one step of the batch fold |
| `TranscriptFold.EventsGrow` | observability/transcript.go:368-446 | a longer read publishes what a shorter one does, then more |
| `TranscriptFold.LastBreak` | observability/transcript.go:374-379 | the consumed part ends at the last newline; a partial record is not consumed |
| `TranscriptScanner.Tailer.ScanFile` | observability/transcript.go:278-446 | however a scan ends the cursor stays the fold of what it consumed and only what the lines yield is added; without error all of that is out, the cursor is at the last newline and the lines read are counted |
| `TranscriptScanner.Tailer.ReadLines` | observability/transcript.go:368-441 | the read loop with its checkpoints, after which fewer than 256 lines and 8 MiB are not covered by a cursor unless a store failed |
| `TranscriptScanner.Tailer.PublishAll` | observability/transcript.go:421-432 | publishes a line's events in order; what is out after a failure are the events before the first send that was not acknowledged, and that one if it took effect |
| `CodexTokens.DeltasTelescope` | observability/transcript_codex.go:96-120 | published deltas add up, per counter, to opening amount plus growth of every stretch without a reset |
| `CodexTokens.NoRestartGivesFinalTotal` | observability/transcript_codex.go:199-207 | without a reset they add up to the final running total |
| `CodexTokens.DeltasAreNonNegative` | observability/transcript_codex.go:199-207 | over any stream no counter is ever charged a negative amount |
| `CodexTokens.NothingEmptyIsPublished` | observability/transcript_codex.go:101-107 | no report that adds nothing is published |
| `CodexTokens.SplitAnywhere` | observability/transcript_codex.go:96-105 | where the stream is cut into scans makes no difference |
| `CodexTranscript.UsageIsDeltas` | observability/transcript_codex.go:12-94 | the usages of a file's events are the converted deltas of its token reports, and the carried meter is theirs |
| `CodexFileEvents.LineYieldsExactly` | observability/transcript_codex.go:12-70 | a line yields the one event its record stands for, under the session named last before it or the file's name, with the charge of what its report adds to the reports before it |
| `CodexFileEvents.TurnIsLastOpened` | observability/transcript_codex.go:37-44 | once a turn was opened its name, or the id of its line, is kept until the next one is opened |
| `CodexTranscript.FileUsageTelescopes` | observability/transcript_codex.go:84-219 | the usage charged for a file is the worth of its stretches: exactly for output, cached and reasoning tokens, for input up to the stated excess of cached tokens, for totals up to the stated filled-in amounts; both vanish if and only if no delta has such an excess, or lacks a total |
| `ObservedTurnTheorems.TotalsCoverSpans` | core/observation_runtime.go:507-521 | per counter the turn total is at least the sum of last usages over distinct spans |
| `ObservedTurnTheorems.TotalsAreExactIff` | core/observation_runtime.go:712-739 | it is equal if and only if no cumulative report lowered that counter |
| `ObservedTurnUsage.SpanUsageIs` | core/observation_runtime.go:507-521 | per counter a span shows the amount of its last cumulative report plus all incremental amounts after it, or the sum of all its amounts if none was cumulative |
| `ObservedTurnUsage.TurnUsageIs` | core/observation_runtime.go:507-521 | the turn total is the sum of all incremental amounts and of the growths of the cumulative ones over what their spans showed |
| `ObservedTurnLog.KeysHaveSpans` | core/observation_runtime.go:429-451 | every key that was named has a span; no two keys but the default one share one, and only the first key, while the default span is open, adopts that one |
| `ObservedTurnLog.KeyStays` | core/observation_runtime.go:429-433 | a key never changes its span |
| `ObservedTurnLog.EndsAreReported` | core/observation_runtime.go:478-505 | the end of a span is reported once for every final response on it, the end of a tool call once for every completion |
| `ObservedTurnLog.ProgressIsReported` | core/observation_runtime.go:453-505 | every request and every response that is not final is reported on its span, the request that opens it as its start |
| `ObservedTurnLog.UpdatesAreReported` | core/observation_runtime.go:554-638 | every update of a known tool call is reported, its input at the first time it is named |
| `ObservedTurnLog.RemarksAreReported` | core/observation_runtime.go:334-348 | what belongs to no span is reported once |
| `ObservedTurnTheorems.LogIsOrderly` | core/observation_runtime.go:334-368 | numbers 1..n, and the first envelope of a span, and only that, is its start |
| `ObservedTurnTheorems.FinishEndsEverything` | core/observation_runtime.go:640-687 | in any map order every span has an end before the run's, the run before the turn, and nothing follows |
| `ObservedTurnLog.FinishEndsTheRest` | core/observation_runtime.go:640-668 | the end of the turn reports the end of exactly those spans and calls whose end was not reported before, once each |
| `ObservedTurn.EnsureModel` | core/observation_runtime.go:429-451 | a key finds its span, adopts the untaken default, or gets exactly one new span; tables stay complete |
| `TurnRecorder.RecordTurn` | core/observation_runtime.go:253-301 | a whole turn yields an orderly, well-ended log and the modelled total |
| `TurnRecorder.Recorder.constructor` | core/observation_runtime.go:350-368 | opens turn, run and default model span in this order |
| `TurnRecorder.Recorder.FindModel` | core/observation_runtime.go:429-451 | the in-place lookup is the modelled one |
| `TurnRecorder.Recorder.AddReport` | core/observation_runtime.go:507-521 | the in-place booking is the modelled one |
| `TurnRecorder.Recorder.ObserveRequest` | core/observation_runtime.go:453-466 | one envelope: start for a new span, else event |
| `TurnRecorder.Recorder.ObserveResponse` | core/observation_runtime.go:468-505 | an inferred start if needed, usage, and end exactly for final states |
| `TurnRecorder.Recorder.ObserveTool` | core/observation_runtime.go:554-638 | start, late input, update and completion of a tool call |
| `TurnRecorder.Recorder.EndOpenTools` | core/observation_runtime.go:640-650 | closes the open tool calls in map order |
| `TurnRecorder.Recorder.EndOpenModels` | core/observation_runtime.go:657-668 | closes each open span once, however many keys lead to it |
| `TurnRecorder.Recorder.EndTurn` | core/observation_runtime.go:640-687 | the finish as a whole |
| `InboundChain.ReceiveOrder` | core/engine.go:495-530 | without cancellation handlers of one chat never overlap and run in receive order |
| `InboundChain.OnlyOwnChatBlocks` | core/engine.go:521-528 | a message may enter exactly when the earlier ones of its own chat are done |
| `InboundChain.TailIsTheLiveEnd` | core/engine.go:504-519 | the map entry is the last message of the chat and is there exactly until that one is gone |
| `InboundChain.OverlapNeedsSkip` | core/engine.go:522-527 | with cancellation an overlap needs a skipped message in between |
| `InboundChain.TightExactly` | core/engine.go:513-530 | no continuation in which nobody gives up makes two handlers of a chat overlap if and only if everyone before a message that was let in is done |
| `InboundChain.SkipIsHarmlessExactly` | core/engine.go:522-527 | a waiter that gives up leaves overlaps impossible if and only if everyone before it in its chat is done |
| `InboundChain.CancellationOverlaps` | core/engine.go:513-530 | a run in which cancellation makes two handlers of one chat overlap |
| `InboundProgress.NobodyIsStuck` | core/engine.go:495-530 | from every state of every run some continuation without a new message or a skip handles all who wait, in receive order, and empties the map |
| `InboundDispatcher.Dispatcher.Receive` | core/engine.go:504-511 | the message becomes the tail and waits for the former tail |
| `InboundDispatcher.Dispatcher.Leave` | core/engine.go:514-519 | the entry is removed exactly when nobody came after |
| `GroupRouting.RoutingsAgree` | core/channel_modes.go:179-243 | any two successful group-mode routings of a message give the same key, unless the platform once reported success for it without a chat id |
| `GroupRouting.CallsAreIdempotent` | core/channel_modes.go:193-217 | all creation calls for a message carry one token and none follows a recorded outcome |
| `GroupRouting.StableExactly` | core/channel_modes.go:205-243 | after a successful attempt later ones agree if and only if the outcome was on record or the platform did not report success without a chat id |
| `GroupRouting.TryIs` | core/channel_modes.go:147-243 | an attempt keeps what is decided and calls the platform only for what is not |
| `GroupRoutes.RoutedAsAnswered` | core/channel_modes.go:179-243 | a message goes to a group only if the platform made that group for it, to a topic only to its own and after a refusal or a blank answer |
| `GroupRoutes.RoutesExactly` | core/channel_modes.go:147-243 | an attempt routes its message if and only if all reads and writes it needs work, and then outcome, owner or topic are on record |
| `GroupRoutes.CallsExactly` | core/channel_modes.go:193-205 | the platform is asked if and only if nothing is decided and the record of the attempt was written |
| `GroupRoutes.CallsAreRecorded` | core/channel_modes.go:193-198 | every call was preceded by a record of its message |
| `ChannelRouter.Router.Decide` | core/channel_modes.go:183-219 | the recorded outcome or a new one, with all early returns |
| `ChannelRouter.Router.Resolve` | core/channel_modes.go:147-243 | returns a key exactly for the attempts the model counts as successful |
| `MeetingAnswer.SplitAnswer` | core/meeting_commands.go:553-585 | the splitting loop computes the modelled cut |
| `MeetingAnswer.SplitKeeps` | core/meeting_commands.go:553-585 | chunks and rest are the text; at most one chunk while live, none left at the end; bounds 80 and 608 |
| `MeetingAnswer.Boundary` | core/meeting_commands.go:587-604 | the loop returns the last sentence end that is far enough |
| `MeetingAnswer.LastCutIsGreatest` | core/meeting_commands.go:587-604 | that is the greatest one, and 0 only if there is none |
| `MeetingAnswer.SkipClosers` | core/meeting_commands.go:594-598 | quotes and brackets stay with their sentence |
| `MeetingAnswer.CutAllKeeps` | core/meeting_commands.go:553-585 | final cutting ends, loses nothing, and only the last chunk may be short |
| `MeetingCuts.NextCutIs` | core/meeting_commands.go:553-604 | the next chunk ends at the last sentence end, with its closing quotes and brackets, among the first 600 runes and 80 or more from the start; without one it has 600 runes, or all that is left at the end |
| `MeetingCuts.LiveSplitIs` | core/meeting_commands.go:553-585 | a live answer is cut once, at that place, when a timer fires, and otherwise left alone |
| `MeetingDelivery.NothingLostOrRepeated` | core/meeting_commands.go:440-538 | for every interleaving chunks followed by pending text are the accumulated answer |
| `MeetingDelivery.ChunksAreSized` | core/meeting_commands.go:475-512 | every chunk has 80 to 608 runes except the last of a finished answer, which is then complete |
| `MeetingDelivery.PendingIsTimed` | core/meeting_commands.go:462-468 | a timer runs exactly while the stream is open and text is pending |
| `MeetingTexts.TickSendsOne` | core/meeting_commands.go:478-481 | when the timer fires exactly one chunk is sent if there is a place to cut or 600 runes are pending, and the timer runs on as long as text is pending |
| `MeetingTexts.AnswerAddsUp` | core/meeting_commands.go:498-551 | for arbitrary texts the answer is the concatenation of what each adds to the longest before it: its continuation, nothing, or all of it; the observer sees it whenever it grows |
| `MeetingTexts.UnrelatedTextsAreKept` | core/meeting_commands.go:540-551 | texts of which none is the beginning of another are all kept |
| `MeetingTexts.LongestIs` | core/meeting_commands.go:517-520 | the text compared with is the latest of the longest ones so far |
| `MeetingTexts.BytesAreEncoded` | core/meeting_commands.go:518 | length is that of the UTF-8 encoding |
| `MeetingTexts.FinalModeSendsOnce` | core/meeting_commands.go:485-497 | in final mode the answer is the only chunk, sent exactly when the stream ends regularly and the answer is not blank |
| `MeetingDelivery.CumulativeAnswer` | core/meeting_commands.go:540-551 | reports that extend each other add up to the last one |
| `MeetingDelivery.Deliver` | core/meeting_commands.go:482-538 | the event loop computes the modelled run |
| `InsightSelection.Select` | observability/insights.go:109-131 | the first pass keeps, per logical call, the preferred listed span |
| `InsightSelection.SelectionIgnoresOrder` | observability/insights.go:109-131 | listings with the same spans select the same spans |
| `InsightSelection.PreferTransitive` | observability/insights.go:559-576 | the preference is transitive |
| `InsightSelection.PreferAsymmetric` | observability/insights.go:559-576 | it is irreflexive and asymmetric |
| `InsightSelection.PreferTotal` | observability/insights.go:559-576 | it is total on distinct spans |
| `InsightSelection.BestIsUnique` | observability/insights.go:127-130 | the best span of a call is unique |
| `InsightSelection.BestWitness` | observability/insights.go:559-629 | the best span comes from the most trusted collector of its call, then has ended, is best known, shows most usage, is latest |
| `InsightSelection.EveryCallCountsOnce` | observability/insights.go:146-156 | the second pass counts every logical call exactly once |
| `InsightSelection.CountCalls` | observability/insights.go:132-156 | the second pass as a loop keeps exactly the selected spans, one per call |
| `InsightSelection.SameCallExactly` | observability/insights.go:495-539 | identified spans share the joined key if and only if kind, runtime and the ids of the call agree |
| `InsightSelection.UnidentifiedStayApart` | observability/insights.go:495-553 | a span without a stable id shares its key with another listed span if and only if that one spells trace and span id under a runtime called "unique" |
| `InsightSelection.PoserIsMerged` | observability/insights.go:495-553 | two listed tool calls that are merged this way: only the second one is counted |

## Left out

- Object identity: tasks, bindings and spans are named by id or position in the classes, so aliasing of one object under two names is only modelled where the code itself keeps several keys (model spans, caches).
- In-process re-attach of a channel whose old runtime still has goroutines; a crash here is the death of the process.
- TaskQueue.Ended: reads the stop flag when the turn ends; the code reads it a moment earlier, so a stop in between is not shown in the status, which is final either way.
- MeetingDelivery.Deliver: chunks are shown before the white space at their ends is trimmed and blank ones are dropped.
- TurnRecorder.RecordTurn: the usage written on single envelopes is not part of the log, only the totals are.
- CodexTranscript.UsageIsDeltas: takes no line for older than retention, so it counts all of them; `TranscriptLines` covers stale lines for every parser.
- Status of direct turns, queue cards, replies, hooks, timestamps and error texts of tasks.
- Several conversations of one channel at once: they share nothing but the lock and the store.
- TranscriptTail.FindMessage: does not model the size limit on lines during the search, because a cursor never passes such a line.
- Truncated or replaced transcript files, and Claude's line format beyond its message ids.
- Cost in dollars, compaction, permission and reasoning envelopes beyond their place in the numbering.
- Modes other than group mode, topic keys of replies in threads, and legacy thread keys in routing.
- InsightSelection.KeyOf: takes ids and runtime names as already extracted, trimmed and lower-cased, because string clean-up is not the point.
- Statistics and findings computed from the selected spans.
- Widths of counters: integers are unbounded where the program uses 64 bits.
- Platform adapters, HTTP, sockets, configuration, signing, tokens and everything under framework/, desktop/, config/ and bootstrap/: plumbing or members settled by reading one function.
