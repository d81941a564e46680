# The run event-stream protocol of the agent backend

This project models how a chat run is written to an append-only public log and how two kinds of
reader tail such logs to clients, and proves what holds over whole runs and over every
interleaving. Four smaller components are modelled beside it: the queued-input dispatcher, three
coalescing caches, the merging of artifact references and the generator of the writing graph.

| files | what they model |
|---|---|
| `ChatRun`, `ChatWriter` | the run writer and the task bridge, as a function of an environment and as the coroutine that mutates its frame, the log and the registry |
| `ChatStream`, `ChatBridge`, `ChatSettlement`, `ChatLoss`, `ChatExit`, `ChatTerminal`, `ChatTouches`, `ChatOrder`, `ChatLog` | what every run offers, settles, exits on, records, keeps running, orders and logs |
| `RuntimeLogTail`, `LogTailStream`, `EventIds`, `LogResume` | the runtime-log tail over a lossy queue, its event ids, and resuming with `Last-Event-ID` (section 9.2 of the WHATWG HTML Living Standard, server-sent events) |
| `LiveSession`, `LiveReader`, `LiveReconnect`, `LiveRun` | the live WebSocket session beside its writer, its reader loop, reconnecting, and the session composed with the run writer |
| `QueueDispatch`, `QueueDispatcher` | the queued-input store and the bounded dispatcher loop |
| `SnapshotCoalescer`, `TokenCache`, `HistoryCoalescer` | single-flight and validated caches under interleaving |
| `ArtifactRefs`, `KeyedMerge`, `ArtifactMerge`, `ArtifactProjection` | artifact references: cleaning, normalising, merging, projecting |
| `GraphGenerator` | write permissions and generated edges of the modular-novel graph |
| `Common`, `Text` | options, ranges, the `int(x or -1)` idiom, and Python's `strip` |

`dafny verify dfyconfig.toml` checks everything.

## How it is modelled

Concurrency is a state machine of atomic steps: a lemma about every sequence of steps is a lemma
about every interleaving. A step that is not enabled changes nothing. What the components read
from outside is arbitrary: the projection filter, the success of registry writes, the places where
an exception or a cancellation strikes, timeouts, scheduling, queue losses and the answers of the
runtime. A payload is its type, its ids and the flags the code branches on. Each loop and each
object that the backend mutates is also a method or a class, proved equal to the function whose
properties are proved; the table lists those with a loop or a whole operation.

Where the code and the intent differ, the model follows the code:

- `int(x or -1)` reads offset 0 as absent. The second frame of a run therefore repeats the first
  sequence (`ChatLog.SequencesAreOffsets`), and the bridge never reads the task event at offset 0
  although it asks for the log from 0 (`ChatBridge.OffsetZeroIsNeverBridged`). In the live session
  the same idiom changes nothing (`LiveSession.GuardIsHarmless`).
- A terminal event that was offered can be lost: to a cancellation at the flush after it, or on the
  bridge path to a filter or registry that does not take it. The run then records an interruption
  too. `ChatLoss.SingleSettlement` gives the exact condition; `ChatLoss.CancelledAfterTerminal` and
  `ChatLoss.BridgeTerminalLost` exhibit the cancellations and the failed mark. The code's filter
  accepts everything today; the model leaves it open.
- An interruption leaves the run's record orphaned, which is one of the ended statuses and points at
  no completion (`ChatTerminal.RegistryFollowsLog`). A live session can therefore end by status in
  the middle of a turn (`LiveRun.InterruptedRunEndsByStatus`), but not before the client was sent
  the whole log (`LiveRun.ClientSeesTheWholeRun`).
- A live session is woken by events only, so an ended status alone does not end it
  (`LiveSession.StatusAloneDoesNotWake`).
- A client that asks for a cursor below -1 of an ended run without events is left waiting
  (`LiveSession.BelowMinusOneParks`).
- Without payloads, a log window holds at most the 240 events of the index, below the nominal 1000;
  the number of events that can be read back is a parameter of `RuntimeLogTail.GapExactness`.
- Cancelling a queued item checks and writes under two locks, so it can overwrite a mark
  (`QueueDispatch.LateCancelOverwrites`); `QueueDispatch.CallSettlesItsClaims` says exactly when.
  The dispatcher claims by policy, not by the item it validated
  (`QueueDispatch.ClaimsWhatItValidated`), and a crash reset can have an item run twice
  (`QueueDispatch.ResetClaimsTwice`, `QueueDispatch.ClaimsPerItem`).
- Until its completion callback runs, a finished snapshot is still joined, and it is recorded only
  then: the TTL bounds a snapshot's age if and only if callbacks are prompt
  (`SnapshotCoalescer.TtlBoundsAgeIff`).
- A runtime-log session whose backlog exceeds the window skips what precedes it without a gap frame
  (`RuntimeLogTail.SnapshotSkips`).
- Cleaning an artifact path is not idempotent (`ArtifactRefs.CleanOnceIsNotEnough`), merging a merged
  list again can replace a path (`ArtifactMerge.SlashedPathIsReplaced`), and a limit below 1 still shows one reference (`ArtifactProjection.LimitedIsPrefix`).

## Model

| member | source | states |
|---|---|---|
| ChatLoss.SingleSettlement | backend/api/chat.py:1339-1625 | every exited run offered one `turn_completed`, as its last event, and recorded nothing, or recorded one interruption and offered none; this holds if and only if the terminal, once offered at position p, was not lost: from the stream, to a cancellation at p + 1 behind a logged and marked terminal; from the bridge, to a filter or registry not taking it at p, or a cancellation at p + 1 |
| ChatLoss.CancelledAfterTerminal | backend/api/chat.py:1562-1590 | a run whose terminal is logged and marked and then cancelled behind: it records an interruption too |
| ChatLoss.BridgeTerminalLost | backend/api/chat.py:1572-1625 | a bridged run that offers its terminal at position 4, over every environment in which nothing goes wrong before: it settles once if and only if the mark there succeeds and no cancellation arrives at the flush after it |
| ChatLoss.StreamedLoss | backend/api/chat.py:1365-1571 | a terminal offered by the stream is cancelled behind exactly when it was logged and marked and a cancellation arrives |
| ChatLoss.BridgedLoss | backend/api/chat.py:1842-1907 | a terminal of the bridge that was logged and marked is cancelled behind exactly when a cancellation arrives |
| ChatSettlement.OrphanedIffInterrupted | backend/harness/runtime/single_agent_host.py:415-422 | in every run, finished or not, the registry record is orphaned exactly when an interruption was recorded |
| ChatSettlement.SettlesWhenAccepted | backend/api/chat.py:1365-1625 | with an accepting filter and registry and no cancellation at a flush, every exit settles exactly once |
| ChatSettlement.StreamedSettles | backend/api/chat.py:1365-1571 | every state of the stream loop offered at most one `turn_completed`, as its last event, and knows whether it did; a handoff terminal is swallowed |
| ChatSettlement.BridgedSettles | backend/api/chat.py:1572-1581 | the bridge's own terminal is offered once and is the last event; the run reads it back from the registry exactly when it was recorded |
| ChatStream.StreamOffersScript | backend/api/chat.py:1365-1571 | what the agent streamed is what is offered, for every run: the start, the turn anchor where the first event binds the turn, and the projections in order, each as it is with its event's task id, or a status in place of content that comes unbound, or with the first bridge start, up to the first completion, handoff or task without a turn; a raised or cancelled run has offered a beginning of it, any other all of it, and has ended as it ends |
| ChatStream.TurnComesFromFirst | backend/api/chat.py:1371-1392 | the turn's ids are those of the first event that binds it |
| ChatExit.ExitsIff | backend/api/chat.py:1339-1625 | where no append raises and no flush is cancelled, a run exits if and only if its stream loop is over and, where it goes on to the bridge, on a handoff or with a bound task when the stream ended without a completion, that is too; nothing of the task is read before |
| ChatExit.StreamHalts | backend/api/chat.py:1365-1625 | in such a run the stream loop returns for want of a turn, raises or is cancelled as the stream does if that ends without a completion or a handoff, and goes on otherwise |
| ChatExit.BridgeEnds | backend/api/chat.py:1827-1909 | in such a run the bridge is over on the first listing that holds the end of its task, raises or is cancelled at the first wait, behind a listing with nothing new, that does, raises if it cannot subscribe, and is over at once without a task |
| ChatStream.FailedStart | backend/api/chat.py:1349-1364 | a run whose first append raises logs nothing and ends orphaned by an exception |
| ChatSettlement.InterruptionNamesCause | backend/api/chat.py:1582-1625 | the one recorded interruption names its cause: a missing context, a cancellation, an exception or an end without a terminal, and whether a bound task lives on |
| ChatOrder.TurnBoundSafety | backend/api/chat.py:1371-1571 | no event that needs a turn is offered before `chat_turn_bound`; it and `task_bridge_started` are offered at most once each, in that order, and the latter names the bridged task |
| ChatOrder.ContextsWrittenOnce | backend/api/chat.py:1371-1543 | the turn and bridge contexts never change once set, even when a second origin-bound event names another task |
| ChatLog.RunKeeps | backend/api/chat.py:1339-1625 | an induction principle: what the start establishes and every write keeps, events and registry touches while the turn is open and the one interruption, holds of every run |
| ChatLog.LogHoldsAccepted | backend/api/chat.py:1628-1699 | the log is the accepted subsequence of the offered events |
| ChatLog.SequencesNeverDecrease | backend/api/chat.py:1667 | whatever registry writes fail, frame sequences never decrease along the log nor pass their offset |
| ChatLog.SequencesAreOffsets | backend/api/chat.py:1667 | with successful marks a frame's sequence is its log offset, except at offset 1 where it is 0 again; sequences repeat there and nowhere else |
| ChatBridge.BridgeExactlyOnce | backend/api/chat.py:1842-1907 | over any listings and wake-ups: the handled task offsets are 1, .., cursor in order, none listed from 1 on is missed while the bridge waits, it ends exactly when an own terminal event was listed, and what it offers is what the handled events contribute, halted or not; if an append raised, what came before the last of them and a beginning of its part |
| ChatBridge.PassesTrace | backend/api/chat.py:1861-1907 | one or more passes from any traced state keep the trace, and a waiting bridge has caught up with its listings |
| ChatBridge.ProjectTaskTrace | backend/api/chat.py:1912-1994 | one task event offers exactly its contribution, with the closing when it ends its own task, or a beginning of that when an append raises; an event of another run ends nothing and changes neither flag |
| ChatBridge.CloseBridgeTrace | backend/api/chat.py:2023-2138 | the terminal pair, preceded by a failed commit exactly when output was shown and nothing settled it; a beginning of that when an append raises |
| ChatBridge.CommitSettlement | backend/api/chat.py:1957-1964 | in every run that went to the bridge, also one cancelled or raised in or behind its closing: `task_bridge_terminal` is offered only after a commit ack, failure or skip if final output was shown before it; the writer adds at most one failed commit, only when output was shown and the task supplied none; a bridge that closed ends with the terminal pair and has that commit exactly then |
| ChatBridge.OffsetZeroIsNeverBridged | backend/api/chat.py:1864-1866 | the task event at offset 0 is never handled; a task whose only event is that one is never bridged to an end |
| ChatTerminal.RegistryFollowsLog | backend/api/chat.py:1686-1699 | in every run, whatever registry writes fail: the record points into the log; it is orphaned exactly when an interruption was recorded; otherwise it is completed, failed or stopped exactly when it points at a logged turn completion, and then of that completion's status; a reader finds it ended exactly when the run was interrupted or it points at a completion |
| ChatTerminal.EndedIsTheLastWord | backend/api/chat.py:1339-1625 | among the writes of every run, after one that ends the record nothing is logged and the record stays ended |
| ChatTerminal.RecordedStatus | backend/api/chat.py:2668-2676 | a run with a terminal record offered one completion, last, and the recorded status is the one it carries |
| ChatTerminal.BridgedStatus | backend/api/chat.py:2237-2243 | the recorded status of a bridged run is the one its task's status maps to |
| ChatTerminal.HandoffIsSwallowed | backend/api/chat.py:1496-1543 | the stream never offers a handoff terminal; a run that observed one goes on to the bridge |
| ChatTouches.WaitingBridgeTouches | backend/api/chat.py:1846-1907 | where the registry takes updates, a bridge that waits has touched the record once at the start of the run, at its opening and before its first listing, and once for each wait that timed out behind a listing with nothing new, and otherwise never |
| ChatWriter.RunWriter.Run | backend/api/chat.py:1339-1625 | the coroutine's whole run ends in the state of `RunChat` |
| ChatWriter.RunWriter.StreamStep | backend/api/chat.py:1365-1571 | one stream event, its projections up to the first that ends the loop |
| ChatWriter.RunWriter.ProjectTask | backend/api/chat.py:1912-1994 | one task event |
| ChatWriter.RunWriter.Pass | backend/api/chat.py:1861-1907 | one listing, and the wait when nothing was new |
| ChatWriter.RunWriter.Bridge | backend/api/chat.py:1827-1909 | the bridge over its listings |
| RuntimeLogTail.TailConservation | backend/api/runtime_logs.py:128-208 | in every reachable live state the delivered offsets and the open ranges of announced gaps partition the interval from the base to the cursor, and delivered offsets strictly increase, whatever the queue dropped; the base is the cursor asked for, or the start of the snapshot's window when that lies further on |
| RuntimeLogTail.SnapshotSkips | backend/api/runtime_logs.py:128-147 | the snapshot skips nothing past the cursor asked for if and only if the backlog fits a page and what the log can return; otherwise exactly what precedes them |
| RuntimeLogTail.QueueDropsOldest | backend/runtime/shared/event_log.py:234-244 | the subscriber's queue holds the events published last, and a publication drops the oldest of them exactly when it holds a page, or a hundred |
| RuntimeLogTail.WakesDrain | backend/api/runtime_logs.py:148-208 | as many wake-ups as there are queued events, among whatever appends, empty the queue and bring the reader to the last event published |
| RuntimeLogTail.HeartbeatsWhenIdle | backend/api/runtime_logs.py:148-165 | a timeout sends a heartbeat with the cursor exactly when the reader is live and has nothing queued |
| RuntimeLogTail.AllAccounted | backend/api/runtime_logs.py:148-208 | the partition at every single frame, with the one offset a gap frame is about to send |
| RuntimeLogTail.DeliveredAscends | backend/api/runtime_logs.py:148-208 | delivered offsets strictly increase up to the cursor |
| RuntimeLogTail.TailCatchesUp | backend/api/runtime_logs.py:148-208 | a live reader with an empty queue, once everything was published, is at the end of the log |
| RuntimeLogTail.SessionKeeps | backend/api/runtime_logs.py:117-208 | every interleaving keeps the frames well traced and the cursor theirs |
| RuntimeLogTail.GapExactness | backend/api/runtime_logs.py:166-201 | a jump sends an unrecovered gap if and only if the log holds more events past the cursor than a page or the jump, whichever is larger, up to a thousand and what the log can return; otherwise every offset to the end of the log, contiguously |
| RuntimeLogTail.EventsAfterRange | backend/api/runtime_logs.py:213-227 | a read returns the events past the cursor among the last ones of the log, as many as asked for, at least one and at most a thousand and what the log can return |
| RuntimeLogTail.SnapshotKeeps | backend/api/runtime_logs.py:128-147 | the snapshot reaches the end of the log it read |
| LogTailStream.TailStream.EventsAfter | backend/api/runtime_logs.py:213-227 | the window filtered by the cursor |
| LogTailStream.TailStream.YieldAll | backend/api/runtime_logs.py:189-199 | the catch-up loop yields every recovered event and moves the cursor to the last |
| LogTailStream.TailStream.Run | backend/api/runtime_logs.py:117-210 | a session beside its writer and publisher |
| EventIds.RoundTrip | backend/api/runtime_logs.py:325-353 | parsing a formatted id returns the offset for every non-negative offset and every run id, colons included |
| EventIds.IdsNeverCrossRuns | backend/api/runtime_logs.py:344-353 | an id is accepted by its own scope and run and by no other |
| EventIds.ResumesAtLastId | backend/api/runtime_logs.py:329-341 | without an explicit cursor a client resumes at the offset of its last id |
| EventIds.ParseIff | backend/api/runtime_logs.py:344-353 | which texts are ids of a run, and of which offset |
| EventIds.ResumesFrom | backend/api/runtime_logs.py:329-353 | an explicit cursor wins, else the event that the last id names in this run; an id of another run counts for nothing |
| EventIds.SubscribesFrom | backend/api/chat_live.py:145-159 | a live subscription starts behind its explicit cursor or the event its id names, whichever is further |
| EventIds.StreamRoundTrip | backend/runtime/shared/stream_replay.py:328-360 | stream ids round-trip exactly for run ids that do not begin with white space |
| EventIds.ParseStreamIff | backend/runtime/shared/stream_replay.py:328-351 | which texts are ids of a run's event stream: both names and the digits, or the digits alone |
| LogResume.ResumesAtCursor | backend/api/runtime_logs.py:325-353 | whatever frames a client received, its last event id resumes at their cursor |
| LogResume.LosslessResume | backend/api/runtime_logs.py:325-353 | a first session cut after any frame and any second session resumed with the last event id: delivered offsets increase across the cut and every offset is delivered or announced, never both, except the event a gap frame was about to send when the cut fell behind it, and a backlog past the window, which is empty if and only if it fits |
| LiveSession.LiveDelivery | backend/api/chat_live.py:162-178 | for every interleaving the client is sent exactly the public events after its cursor, in order and once, none after a terminal one; a status-driven end comes after every public event up to the record's latest offset |
| LiveSession.GuardIsHarmless | backend/api/chat_live.py:175-177 | whenever the status check is made, the `or -1` decides as the plain offset would |
| LiveSession.NoLostWakeUp | backend/api/chat_live.py:71-120 | a reader parked with an empty queue has sent every published public event; once publication is complete, the whole public log past its cursor |
| LiveSession.StatusAloneDoesNotWake | backend/api/chat_live.py:83-120 | no registry change moves a drained session before the next event |
| LiveSession.WakeDecides | backend/api/chat_live.py:100-112 | over every interleaving the catch-up of a wake-up decides by the record in the registry when it reads it, else the one there when it woke, else the one its subscription was resolved against; for an ended record it ends by an event or by status and never parks, but for a record without events and a client that asked for a cursor below -1; for any other it does not end by status |
| LiveSession.BeginDecides | backend/api/chat_live.py:75-80 | the same for the catch-up at the subscription |
| LiveSession.EndedRecordCloses | backend/api/chat_live.py:162-178 | a reader that finds its record ended has closed the session once it has listed the log and made its sends, whatever happens meanwhile |
| LiveSession.BelowMinusOneParks | backend/api/chat_live.py:175-177 | a client that asked for a cursor below -1 of an ended run without events is left parked |
| LiveSession.QueueDropsOldest | backend/runtime/shared/event_log.py:234-244 | the subscriber's queue holds the events published last; a publication drops the oldest exactly when it holds five hundred, and a wake-up takes the oldest |
| LiveReader.SessionCloses | backend/api/chat_live.py:75-120 | the session loop closes exactly when one of its wake-ups lists a terminal event or finds an ended record: that of its second registry read, else of its first, else of the subscription |
| LiveReader.CatchUpIsAtomic | backend/api/chat_live.py:162-178 | a catch-up interleaved with the writer and the publisher ends as the one call does |
| LiveReader.CatchUpDelivers | backend/api/chat_live.py:162-178 | a catch-up sends the public events from its cursor on, and stops short of the listed end only at a terminal event |
| LiveReader.ServeDelivers | backend/api/chat_live.py:75-120 | a whole session sends exactly the public events from the client's cursor to its own and leaves none behind unless it closed |
| LiveReader.Reader.ListAfter | backend/runtime/shared/stream_replay.py:76-82 | the public events after a cursor, in order |
| LiveReader.Reader.SendCatchup | backend/api/chat_live.py:162-178 | the send loop and the status check |
| LiveReader.Reader.Serve | backend/api/chat_live.py:75-120 | the session loop over its wake-ups |
| LiveReconnect.LosslessReconnect | backend/api/chat_live.py:150-159 | cut after any event and reconnected with the last event id, two live sessions send what one would have |
| LiveReconnect.ReconnectsAtLastSent | backend/api/chat_live.py:150-159 | the last event id resolves to the last offset sent |
| LiveRun.CompletionIsLast | backend/api/chat.py:1339-1625 | in every run a logged `turn_completed` is the last line of the log |
| LiveRun.WritesReplay | backend/api/chat.py:1628-1699 | the writes of every run, replayed as a reader sees them, give its log and its record, and every mark is of a line already logged |
| LiveRun.ClientSeesTheWholeRun | backend/api/chat_live.py:71-178 | writer and live session composed, for every run, every point of it at which a client subscribed, and every interleaving: a session that ended, by event or by status, sent every line of the whole log past the client's cursor, in order and once, by event the completion last, by status no completion; a drained session that waits has no completion left to deliver |
| LiveRun.StatusEndMeansSeen | backend/api/chat_live.py:162-178 | beside a run that records no interruption, a session ended by status sent nothing: its client had the completion when it subscribed |
| LiveRun.EndedRunClosesItsSessions | backend/api/chat_live.py:71-178 | a client that subscribed while the run went on and is woken after the run left an ended record: its session closes and has sent every line of the log past its cursor |
| LiveRun.InterruptedRunEndsByStatus | backend/api/chat_live.py:162-178 | beside an interrupted run a session can end by status having sent lines, with no completion in the log |
| QueueDispatch.CallMakesRunIff | backend/api/chat.py:1244-1289 | a call makes a run if and only if one of its attempts finds an auto item first, no active run, a target it cannot steer, an auto item left to claim, and the creation succeeds |
| QueueDispatch.AttemptOutcome | backend/api/chat.py:1253-1289 | an attempt ends the call and touches nothing when nothing is queued, a run is active or the first steer is still admitted; it claims one item, the first of its policy, exactly when it dispatches or fails a steer |
| QueueDispatch.ActiveEndsTheCall | backend/api/chat.py:1263-1264 | an attempt that finds a run active ends the call with nothing claimed, no run and the items as listed |
| QueueDispatch.SteerableRetargets | backend/api/chat.py:1265-1281 | a target that can be steered gets the item as its steer, which ends the call if the item was still queued; nothing is claimed |
| QueueDispatch.OperationTouches | backend/runtime/shared/queued_user_input_store.py:147-300 | each store operation, item by item: which items it changes, to what, and that it changes no other |
| QueueDispatch.CallSettlesItsClaims | backend/api/chat.py:1244-1313 | every call, whatever others do: at most one run, whose item is dispatched at the return if the run is returned and failed if its mark raised; at most eight claims; and each claimed item ends dispatched or failed if and only if no cancel that had passed its check when it was last marked wrote after that |
| QueueDispatch.RunStaysSettledIff | backend/runtime/shared/queued_user_input_store.py:265-281 | after the call the run's item keeps its mark if and only if no cancel that had passed its check by then writes |
| QueueDispatch.SettledIff | backend/runtime/shared/queued_user_input_store.py:265-332 | a settled item stays settled, over any operations that do not mark it, if and only if no such cancel writes |
| QueueDispatch.ClaimsPerItem | backend/runtime/shared/queued_user_input_store.py:147-300 | with crash resets, an item is claimed for a run at most once, and once more for each reset that returned it to the queue |
| QueueDispatch.CallRunsItsAutoClaims | backend/api/chat.py:1266-1284 | a call makes runs only of items claimed as auto in the history it is part of |
| QueueDispatch.SteerNeverRuns | backend/runtime/shared/queued_user_input_store.py:147-165 | a steer item is never claimed for a run of its own, resets included |
| QueueDispatch.ClaimsInEnqueueOrder | backend/runtime/shared/queued_user_input_store.py:147-165 | in every history without crash resets auto items are claimed in enqueue order and none twice, however callers interleave |
| QueueDispatch.RunsInEnqueueOrder | backend/api/chat.py:1244-1313 | over successive calls without crash resets, items are dispatched in enqueue order and none twice |
| QueueDispatch.ResetClaimsTwice | backend/runtime/shared/queued_user_input_store.py:283-300 | a crash reset lets a slow dispatch be claimed a second time |
| QueueDispatch.LateCancelOverwrites | backend/runtime/shared/queued_user_input_store.py:265-274 | a dispatcher call that ends with the item it failed canceled: the cancel checked before the mark and wrote after it |
| QueueDispatch.ClaimsWhatItValidated | backend/api/chat.py:1283-1288 | the claimed item is the validated one if and only if that is still queued with its policy; otherwise it is a later one |
| QueueDispatch.OnlyClaimedChange | backend/api/chat.py:1253-1289 | a call on its own changes the status of at most eight items, those it claimed; other stale steers stay queued |
| QueueDispatcher.Dispatcher.Find | backend/runtime/shared/queued_user_input_store.py:147-165 | the first queued item of the wanted policies |
| QueueDispatcher.Dispatcher.TryAll | backend/api/chat.py:1253-1289 | the loop of at most eight attempts |
| QueueDispatcher.Dispatcher.DispatchNext | backend/api/chat.py:1244-1289 | the whole call, and the run it returns: none when marking its item raised |
| SnapshotCoalescer.SingleFlight | backend/api/harness_run_monitor.py:27-53 | at most one collection per key is running or waiting for its callback |
| SnapshotCoalescer.SharedOnlyAlike | backend/api/harness_run_monitor.py:27-40 | two calls share a collection only if they ask on one event loop, of one service, for one limit |
| SnapshotCoalescer.TtlBoundsAgeIff | backend/api/harness_run_monitor.py:27-53 | every caller of every run gets a snapshot that finished at most the TTL before its call, or after it, if and only if callbacks are prompt |
| SnapshotCoalescer.LagOutlivesTtl | backend/api/harness_run_monitor.py:27-53 | for every lag, a run whose last caller gets a snapshot that finished TTL plus lag before |
| SnapshotCoalescer.SnapshotsAreRecent | backend/api/harness_run_monitor.py:27-53 | a cached snapshot was recorded at most the TTL before the call, and every snapshot finished at most TTL plus lag before it |
| SnapshotCoalescer.JoinedSnapshotAge | backend/api/harness_run_monitor.py:36-40 | a caller that joined a flight gets a snapshot older than its call only if that had finished and its callback had not run, and then by at most the lag |
| SnapshotCoalescer.FinishedFlightIsJoined | backend/api/harness_run_monitor.py:36-40 | a finished collection whose callback has not run is joined |
| SnapshotCoalescer.CacheNeverGoesBack | backend/api/harness_run_monitor.py:42-53 | the recorded time and the collection of a cached snapshot never go back |
| SnapshotCoalescer.FailureFreesTheSlot | backend/api/harness_run_monitor.py:42-53 | a failed or cancelled collection leaves the cache alone and frees its slot for a new one |
| SnapshotCoalescer.Coalescer.Collect | backend/api/harness_run_monitor.py:27-40 | a fresh snapshot, the collection in flight, or a new collection |
| SnapshotCoalescer.Coalescer.Complete | backend/api/harness_run_monitor.py:42-53 | the completion callback |
| TokenCache.NeverOlderThanTheSignature | backend/api/tokens.py:74-123 | a returned payload, cached or built, is at least as new as the signature of its lookup, and that as the stores when the call began |
| TokenCache.HitsAreFresh | backend/api/tokens.py:93-123 | in every interleaving a cached payload is handed out exactly when it was stored under the same signature at most ten ticks ago |
| TokenCache.AloneReturns | backend/api/tokens.py:74-123 | a call that nobody interleaves with, its lock free: it returns and caches what the one call on the dictionaries does, which is the cached payload if that is fresh and of the current signature, and else one built of the current versions |
| TokenCache.OneBuilderPerKey | backend/api/tokens.py:93-108 | one thread per key is past the lock |
| TokenCache.TokenCaches.LockFor | backend/api/tokens.py:161-167 | one lock per key for ever, never shared |
| TokenCache.TokenCaches.Payload | backend/api/tokens.py:74-108 | look, lock, look again, build and store |
| HistoryCoalescer.NeverOlderThanTheSignature | backend/api/sessions.py:299-310 | a caller's history was read at a version at least its signature's, even when another caller asked for it |
| HistoryCoalescer.CallerAsks | backend/api/sessions.py:299-310 | a caller joins the request in flight for its session's current signature, or starts the one that reads it |
| HistoryCoalescer.OneRequestPerKey | backend/api/sessions.py:301-318 | one request per session and signature is in flight, and a finished one gives up its slot |
| ArtifactRefs.NormalizeChooses | backend/artifact_system/artifact_authority.py:170-183 | the path of a normalised reference: the first truthy of `path`, `published_path` and `artifact_path`, cleaned; else the image file that `src` names; else what the artifact reference names; else as given; `artifact_ref` is stripped and every other field kept unless empty |
| ArtifactRefs.CleanIdempotentIff | backend/artifact_system/artifact_authority.py:280-287 | cleaning a path again changes nothing if and only if, in the text without its outer white space, no slashes at an end shield white space |
| ArtifactRefs.NormalizeIdempotentIff | backend/artifact_system/artifact_authority.py:170-183 | normalising again changes nothing if and only if the path chosen from the given fields is a fixed point of cleaning, or cleans to nothing and their fallback does not replace it |
| ArtifactRefs.PathFieldIdempotentIff | backend/artifact_system/artifact_authority.py:170-183 | for a path field that cleans to something twice, that is the condition on its text |
| ArtifactRefs.CleanOnceIsNotEnough | backend/artifact_system/artifact_authority.py:280-287 | the witness "/ a" |
| KeyedMerge.FoldCanonical | backend/artifact_system/artifact_authority.py:220-239 | the fold computes one entry per key, by first occurrence, the merge of the key's group |
| KeyedMerge.FoldAbsorbs | backend/artifact_system/artifact_authority.py:220-239 | where merging keeps keys, folding a fold's result and going on is folding everything |
| KeyedMerge.FoldFixedIff | backend/artifact_system/artifact_authority.py:220-239 | a fold leaves a list as it is if and only if its keys are pairwise distinct |
| KeyedMerge.MergeEach | backend/artifact_system/artifact_authority.py:220-239 | the loop over a mutable result and an index by key |
| ArtifactMerge.DedupeIsCanonical | backend/artifact_system/artifact_authority.py:220-239 | for every list: one entry per key, by first occurrence, each field with its group's first value, or last for `repository_*`, `content_hash` and `collection_id` |
| ArtifactMerge.KeyIsWhereItIs | backend/artifact_system/artifact_authority.py:220-226 | a reference is filed under where it is, else its absolute path, else all its fields |
| ArtifactMerge.MergedField | backend/artifact_system/artifact_authority.py:229-235 | the field rule for one group |
| ArtifactMerge.MergeKeepsKey | backend/artifact_system/artifact_authority.py:228-236 | on plain references, merging under one key keeps the key |
| ArtifactMerge.KeysAreStable | backend/artifact_system/artifact_authority.py:220-239 | on plain references entries keep their keys, which are distinct, and are normal |
| ArtifactMerge.DedupeAbsorbs | backend/artifact_system/artifact_authority.py:220-239 | dedupe(dedupe(a) + b) = dedupe(a + b) for plain a and any b |
| ArtifactMerge.DedupeIdempotent | backend/artifact_system/artifact_authority.py:220-239 | dedupe is idempotent on plain references |
| ArtifactMerge.DedupeFixedIff | backend/artifact_system/artifact_authority.py:220-239 | for every list of payloads: merging leaves it as it is if and only if each is normal and their keys are pairwise distinct |
| ArtifactMerge.SlashedPathIsReplaced | backend/artifact_system/artifact_authority.py:170-239 | two references filed under one name whose merge is merged again under another: a path field "//" beside an artifact reference |
| ArtifactProjection.LimitedIsPrefix | backend/artifact_system/artifact_authority.py:186-217 | a limit of n shows the first n entries of the unlimited projection, and one for n below 1 |
| ArtifactProjection.VisibleKeysDistinct | backend/artifact_system/artifact_authority.py:186-217 | shown keys are non-empty and pairwise distinct, and without a limit none is lost |
| ArtifactProjection.ShowsMerged | backend/artifact_system/artifact_authority.py:186-217 | every shown entry is a merged reference, by its logical path, else its sandbox path, else its absolute path outside the sandboxes, with its artifact reference unless that is the path |
| ArtifactProjection.MergedAreShown | backend/artifact_system/artifact_authority.py:186-217 | without a limit every merged reference with a name is shown, or another by its name |
| ArtifactProjection.ShowRefs | backend/artifact_system/artifact_authority.py:189-217 | the projecting loop with its set of seen keys and its break |
| ArtifactProjection.ModelVisibleRefs | backend/artifact_system/artifact_authority.py:186-217 | the projection of a list of references |
| GraphGenerator.GeneratedWritesAreGrantedWrites | scripts/configure_writing_modular_novel_graph.py:2808-2839 | for every tuple of nodes the commit edges from an id lead exactly to the allowed write targets of its nodes |
| GraphGenerator.MemoryEdgeIff | scripts/configure_writing_modular_novel_graph.py:2808-2839 | the generated edges by name: one for each collection read from a readable repository, or written where the write mode commits, the table's or one default, and one to the artifact index; and no others |
| GraphGenerator.AllowedModes | scripts/configure_writing_modular_novel_graph.py:3283-3295 | which write modes allow which repository |
| GraphGenerator.AllowedAndForbiddenPartition | scripts/configure_writing_modular_novel_graph.py:3283-3300 | every guarded repository is allowed or forbidden and never both |
| GraphGenerator.FlagsAgree | scripts/configure_writing_modular_novel_graph.py:3268-3280 | each permission flag says that its repository is an allowed target |
| GraphGenerator.FilterDropsNothing | scripts/configure_writing_modular_novel_graph.py:2839 | the final filter of the memory edges keeps them all |
| GraphGenerator.GraphClosedIff | scripts/configure_writing_modular_novel_graph.py:2371-2382 | every end of every edge is an emitted node if and only if business edges are well formed and repositories read from are known |
| GraphGenerator.RevisionEdgeIff | scripts/configure_writing_modular_novel_graph.py:2997-3003 | revision edges lead from each node to the stage that revises it, if that is named and a node, and there are no others |
| GraphGenerator.AllowedWriteTargets | scripts/configure_writing_modular_novel_graph.py:3283-3295 | the targets appended branch by branch |
| GraphGenerator.MemoryEdgesFor | scripts/configure_writing_modular_novel_graph.py:2808-2839 | the loop over nodes |
| GraphGenerator.ReadEdgesOf | scripts/configure_writing_modular_novel_graph.py:2812-2824 | the read edges of one node, repository by repository and collection by collection |
| GraphGenerator.RevisionEdgesFor | scripts/configure_writing_modular_novel_graph.py:2997-3003 | the loop that adds revision edges between existing nodes |

## Left out

- ChatOrder.TurnBoundSafety: assumes that the agent stream does not itself emit `chat_turn_bound` or `task_bridge_started`.
- ChatExit.ExitsIff: where an append raises or a flush is cancelled a run may exit earlier; what it has offered and recorded by then is in `ChatStream.StreamOffersScript` and `ChatSettlement.InterruptionNamesCause`.
- QueueDispatch.RunsInEnqueueOrder: assumes that no crash reset takes effect; `QueueDispatch.ResetClaimsTwice` shows why.
- QueueDispatch.CallSettlesItsClaims: the write that marks an item failed is assumed to succeed; if it raises too, the item stays dispatching until a crash reset.
- ArtifactMerge.DedupeAbsorbs: for the references merged first, a normalised path must be a fixed point of cleaning, and a reference left without a path must not carry a published path that is falsy but kept, such as 0; `ArtifactMerge.SlashedPathIsReplaced` shows what a path field that cleans to nothing does.
- GraphGenerator.GraphClosedIff: node payloads, edge payloads and the contents of the collection tables are not modelled; the tables are parameters.
- An append that fails after its log line was written, at the index or at publication: an exception strikes before anything of the append is written, so a line without its registry mark is modelled as a failed mark only.
- Ids and statuses are taken as already stripped and lower-cased, as the code reads them.
- Payload contents of public events: titles, previews, sanitised text and frames are reduced to the type, ids and flags the writer branches on.
- Edits of a run's registry record by others, the interrupt routes and the reconciliation at start-up, and the recording of an interruption failing.
- What the recording of an interruption writes besides the status: diagnostics, owner fields and the turn record.
- Acknowledgements, heartbeats and WebSocket frames of the live session, which carry no event.
- Lines of a log that are not valid JSON and the 8 MB byte limit of the payload window.
- `isdigit` on digits outside ASCII, and control characters inside ids.
- Artifact references without a path or absolute path are keyed by all their fields, so a path that spells such a key's text is kept apart.
- The copied fields of a model-visible reference (kind, title, summary, size) and the sandbox test, which is a parameter.
- Signatures of stores are taken to identify versions; two contents with the same signature are not distinguished.
- Keys that contain object identities are taken not to be reused while the objects live.
- The graph's loop engine, scheduler, checkpoints, task executor and memory system, HTTP routes and models, prompts and constant tables, path containment and attachment checks.
