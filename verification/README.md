# LangOpen: verified model of the run protocol and its companions

A Dafny 4.11 model of the parts of LangOpen in which state, concurrency or text formats make mistakes easy, with
proofs of what the code promises about them. `dafny verify dfyconfig.toml` checks everything.

## What is modelled

| files | what |
|---|---|
| `RunTables`, `WorkerProgram`, `RunProtocol` | Postgres tables with their foreign keys, executeRun as a program with a program counter, and the transition system of API servers, workers, cron dispatchers and crashes over shared tables and Redis keys |
| `RunEffects`, `RunRequests` | what each transaction leaves row by row, requests as sequences of protocol steps, what the history of a run of the system says |
| `RunSafety`, `RunLoad`, `RunLists`, `RunOvertaking`, `RunCancel`, `RunEnding`, `RunCrash`, `RunCron`, `RunJoin`, `RunUnbuffered` | invariants over every interleaving and what follows from them |
| `RunWitnesses` | concrete reachable runs that show where a promise stops |
| `WorkerAlone`, `WorkerOutcome`, `WorkerRefinement`, `Platform` | one execution on its own, all that it leaves, its place in the interleaved system, and the same operations as methods over mutable tables and keys |
| `StreamEvents`, `StreamServer`, `Replica`, `Sse`, `SseCut`, `Decimals`, `Reconnect`, `Reconnections` | the resumable stream end to end: numbering, live delivery, event-stream text (sections 9.2.5 and 9.2.6 of the WHATWG HTML standard), incremental parsing, connections lost anywhere, resuming (section 9.2.4) |
| `Cron`, `Webhook` | catch-up of cron schedules, the webhook outbox |
| `Operator` | reconciliation against a cluster whose calls fail |
| `ControlPlane`, `ControlPlaneApi` | the in-memory store and its handlers |
| `Base64`, `Session` | session tokens |
| `ClaimName`, `Builds` | sandbox names, build metrics |
| `Basics` | options, list and text helpers |

A file that works by changing state in the source is a class or a method with loops here, proved equal to a function;
the theorems are about that function. A step of a transition system that is not possible in a state leaves it as it is,
so a theorem about all sequences of steps is a theorem about all interleavings.

## Hypotheses

- Every SQL transaction and every statement outside one is atomic; an aborted one changes nothing. Identifiers never repeat.
- The executor returns one of the four terminal statuses and no event with a terminal name; the code passes both through
  unchecked. It may write checkpoints of existing runs.
- Claims about order are for resumable runs; for the others see `RunUnbuffered.AtMostOneEvent`.
- The theorems about the portal are about a log that is complete, as read by every connection.
- Redis keys do not expire during a run, and writes whose error the code discards succeed.
- A list is read without malformed items, and JSON decoding gives back what was encoded.
- Creations are serialised where the number of active runs is bounded.
- A cron schedule is any function that gives a strictly later, minimal next fire.
- A Kubernetes read that works does not report an existing object as missing.
- JSON, UTF-8 and HMAC-SHA-256 are functions about which only round trip and non-emptiness are used.

## Where the code does less than one might expect

- A rollback of a cron run, or of a run with a delivery, is refused by a foreign key; executeRun then ends without a terminal
  event and the run stays running (`WorkerAlone.ExecutionDelivers`, verdict Stuck; `RunWitnesses.CancelledCronRunIsStuck`).
- A rollback deletes the event list, but a run_queued that is still to be pushed brings it back, if the run is resumable and
  only then (`RunCancel.ListGoneIff`).
- run_queued is not ordered with the worker: when the worker numbers its first event before run_queued is pushed, both get
  number 1. The list is then no longer numbered once that event is pushed (`RunOvertaking.ListNumberedIff`), and the client that
  created the run misses an event once it is published (`RunJoin.CreatorIsOwedIff`); otherwise neither happens.
  `RunWitnesses.LatePushBreaksNumbering` is such a run.
- A joiner misses the event that lies between its publish and its push when it subscribes and loads in between,
  unless it starts after that event or what it loads ends the stream (`RunJoin.JoinerIsOwed`, `RunWitnesses.JoinerCanMissOne`).
- A streamed run that is not resumable shows its client one event and then nothing until the idle timeout, because all its
  events have number 1 (`RunUnbuffered.AtMostOneEvent`).
- A reconnect replays from after the last id even past a terminal event (`Reconnect.Composition`), and wraps around at the
  int64 maximum (`Reconnect.ReplayAtTheTop`).
- When a stream ends inside an event, the portal shows what has come of it under as much of its number as has come: event 12
  cut after `id: 1` is shown as event 1, and the reconnect starts from 2; cut in its data it is shown incomplete and not sent
  again (`SseCut.CutStream`, `Reconnect.PageSeesLog`). A read that fails does no such harm (`Reconnect.PageSeesLogAfterFailure`); for any
  number of lost connections see `Reconnections.PageSeesLogIff`.
- After a cancel or a delete from the page, a reconnect shows everything again (`Reconnections.OwnEntryReplays`).
- A run whose worker dies is never taken up again: it stays running until somebody cancels or deletes it or a creation makes room
  at its expense (`RunCrash.CrashedRunStays`).
- A webhook whose request cannot be built is selected again and again without counting an attempt
  (`Webhook.RefusedStaysSelectable`). A due webhook can go untried over any number of passes exactly if 50 other
  retryable ones are as old or older (`Webhook.NeglectedIff`); no batch holds it exactly if 50 are strictly older
  (`Webhook.NeverSelectedIff`).
- With several workers a delivered or dead webhook can be revived by a worker that read it earlier (`Webhook.RevivesIff`).
- Two dispatchers whose clocks differ can leave a gap in a job that has no record yet, and only then (`Cron.GapFreeForEverIff`).
- The sandbox keeps the image of the spec while a rollback image is in force, and does not trim it (`Operator.SandboxImageIff`,
  `Operator.SandboxKeepsOldImage`).
- A control-plane request whose write to the cluster fails answers an error although its change is stored
  (`ControlPlane.UnsyncedIff`).

## Model

| member | source | states |
|---|---|---|
| RunTables.CreateRunOnlyConflicts | services/api-server/internal/server/server.go:1977-2028 | A creation is refused exactly by `reject` on a busy thread; every other one inserts the new pending run, so the delete inside `rollback` never meets a foreign key. |
| RunTables.CreateRunKeeps | services/api-server/internal/server/server.go:1919-2028 | Whatever the strategy, a creation keeps foreign keys, one delivery per run, deliveries only for terminal runs and thread-less cron runs, and no run goes back a stage. |
| RunTables.StatelessKeeps | services/api-server/internal/server/server.go:3168-3204 | So does the creation of a run without a thread. |
| RunTables.CancelRunKeeps | services/api-server/internal/server/server.go:2184-2229 | A cancel transaction, committed or aborted, keeps the same invariant and moves no run back. |
| RunTables.DeleteRunKeeps | services/api-server/internal/server/server.go:2231-2277 | So does a run delete. |
| RunTables.DeleteThreadKeeps | services/api-server/internal/server/server.go:2795-2833 | The thread cascade keeps the invariant, fails only for an unknown thread (never on a foreign key) and leaves neither the thread nor a run of it. |
| RunTables.CronRunKeeps | services/worker/internal/engine/engine.go:924-961 | Recording a fire with its run keeps the invariant. |
| RunTables.SetStatusKeeps | services/worker/internal/engine/engine.go:824-841 | Writing any terminal status to a run that exists or is gone keeps the invariant and leaves the run terminal or gone; which status is written where is in ExecutionDelivers, CancelDoes and CreateDoes. |
| RunTables.InsertDeliveryKeeps | services/worker/internal/engine/engine.go:986-990 | Inserting a delivery for a run that is over and has none keeps the invariant and adds a delivery for that run only. |
| RunProtocol.ApplyKeeps | services/worker/internal/engine/engine.go:543-767 | Every single step of the whole system (API call, claim, worker statement, crash) keeps the inductive invariant over tables, claims and worker programs. |
| RunProtocol.WorkTablesKeep | services/worker/internal/engine/engine.go:799-841 | A worker statement keeps the tables consistent and adds a delivery at most for its own run. |
| RunProtocol.RemainingHolds | services/worker/internal/engine/engine.go:635-735 | Wherever a worker branches (cancel reads, executor, rollback), the program it goes on with is well shaped for the new tables: one result, then at most one webhook. |
| RunProtocol.ReachAppend | services/worker/internal/engine/engine.go:294-330 | A run of the system can be cut anywhere and continued. |
| RunSafety.ReachableHolds | services/worker/internal/engine/engine.go:424-541 | The invariant holds in every reachable state. |
| RunSafety.StageNeverFalls | services/worker/internal/engine/engine.go:424-541 | pending < running < terminal < deleted never goes down, over every interleaving. |
| RunSafety.DeletedStaysDeleted | services/api-server/internal/server/server.go:2184-2277 | A run whose row was deleted never gains a row again. |
| RunSafety.ClaimedAtMostOnce | services/worker/internal/engine/engine.go:424-541 | No run is claimed twice, only claimed runs are executed, and no two workers hold the same run. |
| RunSafety.InterruptedWhilePendingNeverRuns | services/api-server/internal/server/server.go:2127-2229 | A run that leaves pending without a claim (interrupt, delete) is never executed, whatever follows. |
| RunSafety.NeverClaimedLater | services/worker/internal/engine/engine.go:424-460 | A run past pending and unclaimed is never claimed or executed in any continuation. |
| RunSafety.DeliveriesAndCronRuns | services/worker/internal/engine/engine.go:963-991 | In every reachable state: one delivery per run, always of an existing terminal run; a cron run has no thread. |
| RunSafety.NoForeignKeyInTheWay | services/api-server/internal/server/server.go:1992-2000 | In every reachable state creations and thread deletes fail only for conflict and unknown thread. |
| RunEffects.CancelDoes | services/api-server/internal/server/server.go:2207-2228 | A rollback cancel succeeds exactly when no delivery and no cron execution refers to the run, then leaves no row and no checkpoint; an interrupt of an existing run always succeeds and sets its status to interrupted; no other row is touched. |
| RunEffects.DeleteDoes | services/api-server/internal/server/server.go:2231-2277 | Which error a run delete gives and when; on success nothing of the run is left and nothing else changed. |
| RunEffects.PickIs | services/api-server/internal/server/server.go:1978-1981 | The run a creation makes room for: none exactly if no run of the thread is pending or running, else one of these than which none is older. |
| RunEffects.CreateDoes | services/api-server/internal/server/server.go:1985-2028 | Row by row what a creation leaves: the pending run under the next identifier; `interrupt` sets the active run found to interrupted and keeps its checkpoints, `rollback` takes it and exactly its checkpoints away, `enqueue` leaves it, `reject` refuses; every other run, checkpoint, delivery and cron row is as before. |
| RunEffects.StatelessDoes | services/api-server/internal/server/server.go:3168-3204 | A creation without a thread adds one pending row and nothing else. |
| RunEffects.DeleteThreadDoes | services/api-server/internal/server/server.go:2795-2833 | A thread delete takes the thread, its runs and what belongs to them, and keeps every run, checkpoint and delivery of the other threads. |
| RunEffects.CronStatusDoes | services/worker/internal/engine/engine.go:819-822 | A cron status is written to the records of its run and to no other record. |
| RunEffects.ClaimDoes | services/worker/internal/engine/engine.go:533-541 | A claim sets one run to running and changes nothing else. |
| RunEffects.DeliveryDoes | services/worker/internal/engine/engine.go:986-990 | A delivery is added for an existing run under the next identifier, and nothing else changes. |
| RunEffects.CronRunDoes | services/worker/internal/engine/engine.go:924-961 | The first dispatch of a fire adds one pending run without thread and one record of it; every later one adds nothing. |
| RunEffects.CheckpointDoes | db/migrations/001_init.sql:74-82 | A checkpoint is added exactly for an existing run and, if it names one, an existing thread, and nothing else changes. |
| RunRequests.CancelIsSteps | services/api-server/internal/server/server.go:2138-2156 | The protocol steps of a cancel request that nobody interferes with: the key is set in any case, the transaction runs, and the list goes exactly after a successful rollback. |
| RunRequests.DeleteIsSteps | services/api-server/internal/server/server.go:2359-2380 | A delete request takes the rows and then the list, or changes nothing; the cancel key is left. |
| RunRequests.CreationIsSteps | services/api-server/internal/server/server.go:1595-1631 | A streamed creation leaves what its transaction leaves and announces the new run: event 1, run_queued, published, and pushed exactly if the run is resumable; a refused one changes nothing. |
| RunRequests.StatelessIsSteps | services/api-server/internal/server/server.go:1700-1722 | The same for a streamed creation without a thread, which is never refused. |
| RunRequests.OtherRequestsAreSteps | services/api-server/internal/server/server.go:2795-2833 | Thread deletes, cron dispatches, checkpoints and unstreamed creations leave what their transaction leaves and no other trace. |
| RunRequests.HistoryIs | services/worker/internal/engine/engine.go:424-541 | Over every run of the system: claimed are exactly the runs that some step took while they were pending, executed exactly those that some worker step handed to the executor. |
| RunRequests.EnqueuedCounts | services/api-server/internal/server/server.go:1985-2004 | The number in the bound on active runs is the number of granted creations with `enqueue` of that thread. |
| RunCrash.CrashedRunStays | services/worker/internal/engine/engine.go:424-541 | After the worker of a running run dies, its row stays exactly as it is, no worker is on it and nothing but a late run_queued is published of it, over every continuation in which nobody cancels or deletes it or makes room at its expense. |
| RunLoad.ActiveRunsBounded | services/api-server/internal/server/server.go:1977-2027 | With serialised creations a thread has at most one plus its `enqueue` creations of pending-or-running runs, over every interleaving. |
| RunLoad.SingleActiveRun | services/api-server/internal/server/server.go:1977-2027 | Without `enqueue` a thread never has two active runs. |
| RunLoad.CreationBound | services/api-server/internal/server/server.go:1985-2004 | What one creation adds to the active runs of each thread, per strategy. |
| RunLists.EventNumbers | services/worker/internal/engine/engine.go:854-874 | From the creation of a resumable run: while its list is not deleted the allocated numbers strictly increase; if run_queued is pushed first or never, the list is numbered 1..n and its only terminal event is its last. |
| RunLists.RemainingSpeaks | services/worker/internal/engine/engine.go:854-865 | Each worker statement keeps the link between the event under way, the list and the numbers handed out. |
| RunOvertaking.ListNumberedIff | services/worker/internal/engine/engine.go:854-874 | From the creation of a resumable run, over every interleaving that does not delete its list: the list is numbered 1..n if and only if run_queued was not pushed after the worker numbered its first event, or no event of the worker was pushed; otherwise two items have number 1. |
| RunOvertaking.ApplyKeepsRace | services/api-server/internal/server/server.go:2088-2103 | Every step keeps what is known of the race: a hasty first event has number 1, is under way until it is pushed, and where it stands in list and channel. |
| RunCancel.InterruptWins | services/api-server/internal/server/server.go:2138-2161 | An interrupt complete before the last cancel-key read leaves the run interrupted once the worker is through, whatever the executor returned, in every interleaving without another cancel, delete or crash. |
| RunCancel.RollbackWins | services/worker/internal/engine/engine.go:635-735 | A rollback complete before the last read leaves no row, checkpoint, delivery or cron execution once the worker is through, whatever the executor returned, and no event but a run_queued that came last. |
| RunCancel.ListGoneIff | services/api-server/internal/server/server.go:2094-2098 | Under the same hypotheses every continuation leaves an empty event list if and only if no run_queued of a resumable run was still to be pushed when the rollback finished; otherwise some continuation brings the list back. |
| RunWitnesses.RollbackBeforeQueuedPush | services/api-server/internal/server/server.go:2138-2161 | A reachable run in which run_queued is still to be pushed when the rollback finishes. |
| RunEnding.TerminalEventMeansOver | services/worker/internal/engine/engine.go:543-767 | Over every interleaving at most one terminal event of a run is ever published, and only once its row is terminal or gone. |
| RunEnding.BranchEnds | services/worker/internal/engine/engine.go:635-735 | A worker that has not written a result has no terminal event ahead of the next result or branch. |
| RunCron.FiresRecordedOnce | services/worker/internal/engine/engine.go:924-961 | However many dispatchers race, no (job, time) pair is recorded twice and no run belongs to two records. |
| RunCron.DispatchKeepsOnce | services/worker/internal/engine/engine.go:924-961 | A fire is recorded together with exactly one new pending run, or was recorded before and nothing changes. |
| WorkerAlone.ExecutionDelivers | services/worker/internal/engine/engine.go:543-767 | For every outcome of setup, both cancel reads and executor: exactly one terminal event, last; it names the status that is written to the run row, with nothing else of the row changed, and the cron row; a webhook is due iff the run asks for one; only a rollback stopped by a foreign key tells and changes nothing. |
| WorkerOutcome.ExecutionIsOutcome | services/worker/internal/engine/engine.go:543-767 | The whole state after an execution, for every answer it gets, equals a reference written without the program: status, cron records, delivery, every event in order with its number, list, cancel key, and all else as before. |
| WorkerOutcome.ProgressWords | services/worker/internal/engine/engine.go:571-615 | The progress events in words: allocated, then started; only started without a sandbox; none when the sandbox fails. |
| RunWitnesses.CancelledCronRunIsStuck | services/worker/internal/engine/engine.go:636-655 | The verdict Stuck is reached in the protocol: after the refused rollback of a cron run its worker is through, the row is still running and no terminal event was published. |
| WorkerAlone.TerminalEventStopsServer | services/api-server/internal/server/server.go:3986-3993 | That last event, and no earlier one, is in the set on which the stream loop of the server stops, and its text names the way the run ended. |
| WorkerAlone.PlayFinish | services/worker/internal/engine/engine.go:750-766 | Result, cron status, terminal event and webhook together conclude a run consistently. |
| WorkerAlone.PlayRelay | services/worker/internal/engine/engine.go:722-734 | Relayed executor events (trimmed, blanks dropped) do not change how the run concludes. |
| WorkerAlone.PlayRollBackDelivers | services/worker/internal/engine/engine.go:636-655 | The rollback branch erases run, checkpoints and list and says so last, or is stuck exactly on a foreign key. |
| WorkerAlone.BeginDelivers | services/worker/internal/engine/engine.go:571-633 | A failing sandbox or env decryption concludes the run at once; otherwise only progress events are sent before the first cancel read. |
| WorkerRefinement.ExecutionIsAlone | services/worker/internal/engine/engine.go:543-767 | In the interleaved protocol, from any state, a worker that takes its steps in a row reaches exactly the tables, keys, lists and channels of the sequential execution. |
| WorkerRefinement.PlayIsAlone | services/worker/internal/engine/engine.go:854-865 | Each straight line of statements is a sequence of protocol steps. |
| StreamEvents.EndsStreamIsServerTest | services/api-server/internal/server/server.go:3986-3993 | The typed notion of a terminal name is isTerminalStreamEvent on its text. |
| StreamEvents.TerminalTextIff | services/api-server/internal/server/server.go:3986-3993 | A name ends the stream exactly if it is one of the five words but for white space around it and the case of its letters; for every text. |
| Platform.Store.CreateRunInPostgres | services/api-server/internal/server/server.go:1919-2028 | The statements of the transaction leave exactly CreateRun for some oldest active run, or, on refusal, the tables as they were. |
| Platform.Store.MakeRoomFor | services/api-server/internal/server/server.go:1985-2004 | The switch over the strategies. |
| Platform.Store.SelectActive | services/api-server/internal/server/server.go:1978-1981 | The selected run is an oldest active run of the thread, and None means there is none. |
| Platform.Store.CancelRunInPostgres | services/api-server/internal/server/server.go:2184-2229 | Leaves CancelRun, or the tables as they were. |
| Platform.Store.CancelRunRequest | services/api-server/internal/server/server.go:2138-2161 | Key, transaction and list in that order: the whole new state, success and failure. |
| Platform.Store.DeleteRunFromPostgres | services/api-server/internal/server/server.go:2231-2277 | Leaves DeleteRun, or the tables as they were. |
| Platform.Store.DeleteRunRequest | services/api-server/internal/server/server.go:2359-2380 | Transaction, then list: the whole new state, success and failure. |
| Platform.Store.DeleteThreadFromPostgres | services/api-server/internal/server/server.go:2795-2833 | Leaves DeleteThread, or the tables as they were. |
| Platform.Store.CreateRunForCron | services/worker/internal/engine/engine.go:924-961 | Leaves CreateCronRun. |
| Platform.Store.FetchNextPendingRun | services/worker/internal/engine/engine.go:424-541 | Sets an oldest pending run to running, and changes nothing exactly when none is pending. |
| Platform.Store.RollbackRun | services/worker/internal/engine/engine.go:799-813 | Both deletes or neither. |
| Platform.Store.EmitStreamEvent | services/worker/internal/engine/engine.go:854-865 | Publishes the numbered event and pushes it if the run is resumable. |
| Platform.Store.EnqueueWebhookForRun | services/worker/internal/engine/engine.go:963-991 | Inserts a delivery exactly if the run exists, asks for one and has none. |
| Platform.Store.RelayEvents | services/worker/internal/engine/engine.go:722-734 | The loop over executor events is Relay. |
| Platform.Store.ExecuteRun | services/worker/internal/engine/engine.go:543-767 | The imperative executeRun leaves exactly Execution, and exactly the reference outcome. |
| StreamServer.StreamSSEWithPubSub | services/api-server/internal/server/server.go:3907-3962 | The two loops write exactly Deliver of buffer, start and received messages. |
| StreamServer.FilterEventsFrom | services/api-server/internal/server/server.go:3964-3973 | The loop is FilterFrom. |
| StreamServer.FilterKeepsOrder | services/api-server/internal/server/server.go:3964-3973 | FilterFrom keeps exactly the events at or above the start, in order. |
| StreamServer.DeliveredInOrder | services/api-server/internal/server/server.go:3917-3960 | From an increasing buffer, whatever arrives on the channel, the identifiers written strictly increase, none is below the start and nothing follows a terminal event. |
| StreamServer.LiveNext | services/api-server/internal/server/server.go:3935-3960 | One more message at the end of the channel changes nothing of what is written before, and is itself written exactly if it parses, is at or above the start, above the last identifier and above every event received before, and nothing terminal was written. |
| StreamServer.TimeoutYieldsPrefix | services/api-server/internal/server/server.go:3923-3931 | Fewer messages (idle timeout, disconnect) yield a prefix of what more messages yield. |
| StreamServer.JoinDelivers | services/api-server/internal/server/server.go:3917-3960 | With the first q events of a numbered log buffered and those after the first p on the channel, the client gets what it is owed of the log without the events in between. |
| StreamServer.MissingIff | services/api-server/internal/server/server.go:3917-3960 | Leaving out events between the buffer and the channel does no harm if and only if none was left out, the client starts after them, or the buffered part ends the stream. |
| RunJoin.JoinerIsOwed | services/api-server/internal/server/server.go:2063-2074 | For every interleaving of subscribe, load, publish and push in which the list is not deleted and no event of the worker overtakes run_queued (`InOrder`; runs that never publish run_queued are included): the joiner is sent the log from its start up to the first terminal event without the event, if any, published before the subscription and not pushed at the load; nothing is missing if and only if there is none, it starts after that event, or what it loads ends the stream. |
| RunJoin.JoiningARun | services/api-server/internal/server/server.go:2030-2075 | The same, with the same exact condition, from the creation of any resumable run on, under the same hypothesis. |
| RunJoin.CreatorIsOwedIff | services/api-server/internal/server/server.go:1616-1650 | The request that created a resumable run subscribes any time after the creation and before run_queued is published, and streams from run_queued: it is sent everything ever published of the run if and only if no event that the worker numbered before run_queued was pushed was published; for every interleaving that does not delete the list. |
| RunJoin.PublishedNumberedIff | services/worker/internal/engine/engine.go:854-865 | What is published of a resumable run whose list is not deleted is numbered 1..n if and only if no event of the worker overtook run_queued, which is the hypothesis of the joiner. |
| RunUnbuffered.AtMostOneEvent | services/api-server/internal/server/server.go:3935-3960 | Over every interleaving from the creation of a run that is not resumable, by a request or a cron fire: its list stays empty, every event has number 1, and a client is sent at most one event; the request that created it is sent run_queued only. |
| RunJoin.ApplyKeepsLinked | services/worker/internal/engine/engine.go:854-865 | Every step keeps the list a prefix of the channel, at most one event behind, with the event under way next, from the first event of the worker on unless it overtook run_queued. |
| RunWitnesses.JoinerCanMissOne | services/worker/internal/engine/engine.go:854-865 | A reachable run in which a joiner misses the event that lies between publish and push. |
| Replica.PersistedIsLoaded | services/api-server/internal/server/server.go:2088-2125 | What persistEvent adds is read back by loadEvents: for a resumable run by every replica, after what could be read before; for any other run, while nothing can be read of the list, by the replica that persisted it and by no other. |
| Replica.Server.PersistEvent | services/api-server/internal/server/server.go:2088-2103 | Published, pushed if the run is resumable, and remembered by the replica; nothing else of it changes. |
| Replica.PersistIsPublishThenPush | services/api-server/internal/server/server.go:2088-2103 | The two steps that the protocol interleaves with the workers are, taken together, persistEvent. |
| Replica.ReadableParts | services/api-server/internal/server/server.go:2105-2125 | Items are read one by one: what parses is kept in its place, what does not is passed over. |
| Replica.Server.LoadEvents | services/api-server/internal/server/server.go:2105-2125 | The readable items of the list, or the memory of the replica if there are none. |
| Sse.WriteSSEEvent | services/api-server/internal/server/server.go:3975-3984 | The printer emits the lines of the event and an empty line. |
| Sse.ParseEvent | portal/app/runs/page.tsx:442-460 | The loop over lines is the fold Parsed. |
| Sse.TakeBlocks | portal/app/runs/page.tsx:417-429 | The inner loop reports and cuts off every complete block. |
| Sse.ConsumeSSE | portal/app/runs/page.tsx:404-440 | The incremental parser reports what the one-shot parser reports of the concatenated text, for every text and every chunking. |
| Sse.ScanAppend | portal/app/runs/page.tsx:414-429 | Scanning can be interrupted anywhere and resumed with what was left. |
| Sse.RoundTrip | portal/app/runs/page.tsx:404-460 | For all events with one-line names and every chunking of the printed text, exactly those events are reported, in order, trimmed. |
| Sse.ShownAsSentIff | portal/app/runs/page.tsx:442-460 | An event is reported unchanged exactly if its name and data lines are trimmed. |
| Sse.ParsedOfPrinted | services/api-server/internal/server/server.go:3975-3984 | One printed event parses to itself up to trimming. |
| Text.TrimIs | portal/app/runs/page.tsx:449-453 | Trimming takes away white space at both ends, as much as there is, and nothing else. |
| Sse.PrintedIs | services/api-server/internal/server/server.go:3975-3984 | The exact text of an event: `id: `, `event: `, one `data: ` line for every line of its data, and an empty line. |
| Sse.ParsedIs | portal/app/runs/page.tsx:442-460 | Of any block whatever: no entry if it has no data line and its last id is blank or missing, otherwise one with the last id or "-", the last name or "message", and every data line, trimmed. |
| SseCut.CutEvent | portal/app/runs/page.tsx:432-439 | Every event lost after any number of characters is reported as nothing, as its number so far, or with the name and data lines so far, trimmed; cuts in the id line, the event line, any data line and the final blank line. |
| SseCut.CutStream | portal/app/runs/page.tsx:404-440 | Of the first c characters of a printed stream, for every c, the complete events are reported as they come, and what has arrived of the next one when the stream ends there. |
| SseCut.IntactIff | portal/app/runs/page.tsx:432-460 | What is reported of a cut event is nothing or the whole event if and only if no character of its number has come, or all of it has and nothing but white space of name and data is missing. |
| SseCut.SeenIff | portal/app/runs/page.tsx:404-440 | The entries shown at a cut of the stream are those of whole events exactly if the cut is intact. |
| Decimals.PrintThenParse | services/api-server/internal/server/server.go:2077-2086 | Printing and parsing is the identity on every int64. |
| Decimals.ParsesNumerals | services/api-server/internal/server/server.go:2077-2086 | Every numeral, with any number of leading zeros and an optional sign, is parsed to its value if that is an int64 and refused otherwise. |
| Decimals.ParsesNothingElse | services/api-server/internal/server/server.go:2077-2086 | What is parsed is an optional sign and at least one digit, and nothing else. |
| Reconnect.StartAfterPrint | services/api-server/internal/server/server.go:2077-2086 | The start read from a printed id is the next id, wrapping around at the top. |
| Reconnect.Composition | services/api-server/internal/server/server.go:2077-2086 | Delivered up to k plus what a reconnect from k delivers is one uninterrupted delivery, exactly unless a terminal event up to k is followed by events after k. |
| Reconnect.ReplayAtTheTop | services/api-server/internal/server/server.go:2085 | At the int64 maximum the reconnect replays everything. |
| Reconnect.PageSeesLog | portal/app/runs/page.tsx:171-187 | From log to page, for a first connection that ends after any number of characters and however both connections are cut into chunks: the page shows exactly the uninterrupted stream if and only if the cut is intact and the stream was not shown to its end while the log goes on. |
| Reconnect.PageSeesLogAfterFailure | portal/app/runs/page.tsx:404-430 | The same for a first connection whose read fails instead of ending: wherever it fails nothing is lost or repeated, unless the stream was complete and the log goes on. |
| Reconnections.PageSeesLogIff | portal/app/runs/page.tsx:103-197 | Over any number of lost connections, each ended or failed after any number of characters: the page finally shows exactly the uninterrupted stream if and only if every stream that ended early ended at an intact cut and none was reopened at its end while the log goes on. |
| Reconnections.OwnEntryReplays | portal/app/runs/page.tsx:199-244 | After the entry that the page appends itself for a cancel or a delete, the next connection shows everything from the start once more. |
| Reconnect.RunsPage.Receive | portal/app/runs/page.tsx:404-440 | A connection appends its entries and leaves the last id. |
| Reconnect.RunsPage.Header | portal/app/runs/page.tsx:182 | The header is the last id, or "-1" when that is empty. |
| Cron.DispatchCronJob | services/worker/internal/engine/engine.go:895-922 | The loop leaves CatchUp from the latest recorded time, or from an hour ago, also when a creation fails midway. |
| Cron.LastScheduled | services/worker/internal/engine/engine.go:902-909 | The maximum of the recorded times, none exactly if there are none. |
| Cron.TickWorks | services/worker/internal/engine/engine.go:895-922 | A tick starts from the latest record, or from an hour ago without one, leaves a gap-free chain, adds at most 12 times, none later than now, and adds 12 or leaves no due fire. |
| Cron.CatchUpWorks | services/worker/internal/engine/engine.go:911-920 | The same for any number of remaining fires, so also for a tick that fails midway. |
| Cron.OneDispatcherStaysGapFree | services/worker/internal/engine/engine.go:876-922 | Over any number of ticks of one dispatcher, whatever its clock does, the chain stays gap-free and only grows. |
| Cron.GapFreeIsChain | services/worker/internal/engine/engine.go:911-920 | Gap-free means that each recorded time is the next fire after the one before. |
| Cron.AloneIsTick | services/worker/internal/engine/engine.go:895-922 | A dispatcher of the crowd that nobody interferes with, from its start to its leaving, does exactly one tick, however often it gets a turn. |
| Cron.CrowdStaysGapFree | services/worker/internal/engine/engine.go:895-961 | Under every interleaving of many dispatchers the chain stays gap-free once the job has a record. |
| Cron.EmptyJobCanGap | services/worker/internal/engine/engine.go:900-909 | For every schedule and every good crowd, a job without a record can be left with a gap by two dispatchers with different clocks. |
| Cron.GapFreeForEverIff | services/worker/internal/engine/engine.go:895-961 | With every dispatcher in its loop on a recorded time, the chain stays gap-free under every interleaving if and only if the job has a record. |
| Webhook.AttemptsNeverExceed | services/worker/internal/engine/engine.go:1029-1077 | For every interleaving of workers with stale reads, attempts never exceed the maximum and what may be retried is strictly below it. |
| Webhook.OneWorkerProgress | services/worker/internal/engine/engine.go:1048-1077 | With one worker, delivered and dead rows are final and every attempt is one step of maximum minus attempts. |
| Webhook.TriesAreBounded | services/worker/internal/engine/engine.go:993-1077 | Over every run with one worker a webhook is posted at most as often as the maximum allows. |
| Webhook.RevivesIff | services/worker/internal/engine/engine.go:1050-1077 | A delivered or dead row can become retryable again, by some sequence of steps, if and only if a worker holds an item of it that it read at least two attempts below the maximum. |
| Webhook.StaleWorkerRevives | services/worker/internal/engine/engine.go:1050-1077 | Such a run, step by step: a delivered row that a stale worker makes retryable again. |
| Webhook.FinalRowTried | services/worker/internal/engine/engine.go:1029-1077 | One attempt writes a delivered or dead row exactly if the worker holds an item of that row next and the request can be built, and makes it retryable exactly if it fails below the maximum. |
| Webhook.RefusedStaysSelectable | services/worker/internal/engine/engine.go:1029-1047 | Attempts whose request cannot be built, however many, change no row; a retryable row stays selectable, and due if it was. |
| Webhook.Starved | services/worker/internal/engine/engine.go:993-1027 | A webhook behind 50 strictly older retryable ones whose requests cannot be built is never tried, over any number of passes and whatever batches they select. |
| Webhook.AlwaysSelectedIff | services/worker/internal/engine/engine.go:994-1000 | Every batch that the query can return holds a retryable webhook if and only if fewer than 50 other retryable ones are as old or older. |
| Webhook.NeverSelectedIff | services/worker/internal/engine/engine.go:994-1000 | No such batch holds it if and only if at least 50 retryable ones are strictly older. |
| Webhook.TriedIff | services/worker/internal/engine/engine.go:993-1077 | A pass tries exactly the selected rows that are due and leaves every other as it is; a tried row is delivered exactly if the receiver accepts, dead exactly if it fails and this attempt was the last allowed, to be retried exactly if it fails below the maximum, with one more attempt and the time of this one; a request that cannot be built leaves its row. |
| Webhook.DeliveredWasAccepted | services/worker/internal/engine/engine.go:1050-1077 | Over every interleaving a delivered row has had an attempt that the receiver accepted. |
| Webhook.StepDoes | services/worker/internal/engine/engine.go:1050-1077 | All that any step does to any row: created waiting without attempts, removed, or written by an attempt, with the status and count that follow from what the worker held; nothing else changes it. |
| Webhook.TriedOldestFirst | services/worker/internal/engine/engine.go:994-1027 | The due rows of a batch are tried oldest first. |
| Webhook.NeglectedIff | services/worker/internal/engine/engine.go:993-1077 | A due webhook that would be answered can go untried over any number of passes if and only if at least 50 other retryable ones are as old or older. |
| Webhook.BackoffGrows | services/worker/internal/engine/engine.go:1091-1100 | Below 63 attempts the backoff never shrinks; it is nothing before the first attempt, the plain power up to 8 attempts and 300 seconds from 9 on. |
| Webhook.Outbox.ProcessWebhookOutbox | services/worker/internal/engine/engine.go:993-1027 | Tries exactly the due rows among the 50 oldest retryable ones, oldest first, for any maximum of attempts. |
| Webhook.Outbox.SelectRetryable | services/worker/internal/engine/engine.go:994-1000 | The oldest retryable rows, at most 50, all of them if fewer. |
| Webhook.Outbox.DeliverWebhook | services/worker/internal/engine/engine.go:1029-1077 | The update of one attempt. |
| Operator.Cluster.Reconcile | services/operator/internal/controllers/agentdeployment_controller.go:53-146 | Wherever calls fail, the objects are those after a first part of the operations; after all of them when it is done and whenever Ready=true is written, with the image, mode and runtime class in force. When no call fails it ends done, or waits for the sandbox kinds exactly if it needs them and they are missing. |
| Operator.Cluster.ReconcileCore | services/operator/internal/controllers/agentdeployment_controller.go:75-123 | The five core kinds in order, up to the first failure. |
| Operator.Cluster.ReconcileObject | services/operator/internal/controllers/agentdeployment_controller.go:148-200 | Get, then create or update: done or not done, done if it reports no error. |
| Operator.Cluster.ReconcileService | services/operator/internal/controllers/agentdeployment_controller.go:161-174 | The same, keeping the cluster IP. |
| Operator.Cluster.ReconcileUnstructured | services/operator/internal/controllers/agentdeployment_controller.go:426-441 | The same, reading a created object back. |
| Operator.Cluster.ReconcileSandboxResources | services/operator/internal/controllers/agentdeployment_controller.go:362-424 | Template, then warm pool. |
| Operator.Cluster.DeleteIngressIfExists | services/operator/internal/controllers/agentdeployment_controller.go:202-212 | No error means that there is no ingress. |
| Operator.Cluster.EgressBlocks | services/operator/internal/controllers/agentdeployment_controller.go:304-315 | The loop is Blocks. |
| Operator.BlocksAre | services/operator/internal/controllers/agentdeployment_controller.go:304-315 | Exactly the entries that are not blank and parse, trimmed. |
| Operator.SettledIsConverged | services/operator/internal/controllers/agentdeployment_controller.go:53-146 | From any cluster contents a complete reconcile leaves every managed object as desired, the ingress exactly when wanted, and the service under the address it had or, when new, the one assigned. |
| Operator.ConvergedRuns | services/operator/internal/controllers/agentdeployment_controller.go:214-424 | Every converged cluster in the terms of the resource alone: image (rollback image first, trimmed), runtime class, replicas, mode and template of both deployments, the service, the egress blocks, the ingress with its host, class and TLS exactly when wanted, and in mode_b the sandbox template and the warm pool that draws on it. |
| Operator.BlocksInOrder | services/operator/internal/controllers/agentdeployment_controller.go:304-315 | The blocks are the entries, trimmed, that are not blank and parse, in their order. |
| Operator.ConvergesAfterFailures | services/operator/internal/controllers/agentdeployment_controller.go:53-146 | The same after any number of reconciles that failed anywhere. |
| Operator.ConvergedIsStable | services/operator/internal/controllers/agentdeployment_controller.go:148-212 | In a converged cluster no part of a reconcile changes anything. |
| Operator.SecondReconcileIsNoop | services/operator/internal/controllers/agentdeployment_controller.go:53-146 | A second reconcile changes nothing, wherever it stops. |
| Operator.ReconcilesCommuteIff | services/operator/internal/controllers/agentdeployment_controller.go:214-424 | Reconciles of two differently named resources commute, whatever the cluster holds, if and only if they do not want different contents of one shared sandbox template. |
| Operator.SandboxImageIff | services/operator/internal/controllers/agentdeployment_controller.go:362-390 | In every converged cluster the sandbox runs the image of the API and worker deployments if and only if there is no rollback image and the image of the spec is trimmed, or the rollback image is the image of the spec. |
| Operator.SandboxKeepsOldImage | services/operator/internal/controllers/agentdeployment_controller.go:71-74 | A resource whose rollback leaves the sandbox on the image that was rolled back, from any contents of the cluster. |
| Operator.DifferentResources | services/operator/internal/controllers/agentdeployment_controller.go:214-360 | Differently named resources manage different objects. |
| ControlPlane.StoreStaysValid | services/control-plane/internal/httpapi/httpapi.go:315-2491 | Over every sequence of requests: references exist, (deployment, key) and (deployment, secret, target) are unique, every log ends with exactly the current digest and holds only trimmed digests. |
| ControlPlane.HandleKeeps | services/control-plane/internal/httpapi/httpapi.go:505-2228 | Each request keeps that invariant. |
| ControlPlane.HandleIsSound | services/control-plane/internal/httpapi/httpapi.go:315-2228 | Each request keeps the store valid and its logs growing, whether or not the write to the cluster works, and a request that is refused as missing or invalid changes nothing. |
| ControlPlane.UnsyncedIff | services/control-plane/internal/httpapi/httpapi.go:394-397 | Whether the write to the cluster works decides nothing but the answer: the store is the same, and the failure is reported exactly for an accepted request that ends with such a write. |
| ControlPlane.CreateDoes | services/control-plane/internal/httpapi/httpapi.go:315-399 | A creation is refused exactly without a repository or for an unknown mode; else it adds one deployment with a new identifier and the fields of the request, blank ones at their defaults, no digest and a log of one entry. |
| ControlPlane.UpdateDoes | services/control-plane/internal/httpapi/httpapi.go:505-646 | Which error an update gives when; on success repository, ref, path, profile and mode are the trimmed new values where the request names them and the old ones elsewhere, identifier, project and digest stay, one entry records the digest, and no other deployment changes. |
| ControlPlane.RollbackDoes | services/control-plane/internal/httpapi/httpapi.go:648-746 | A rollback sets and records the trimmed digest; refused exactly for a blank digest or an unknown deployment. |
| ControlPlane.RollbackV2Does | services/control-plane/internal/httpapi/httpapi.go:748-788 | A digest wins over a revision; without one the first revision of that identifier in the log decides, a missing one is reported, and nothing changes when neither is given. |
| ControlPlane.QueueDoes | services/control-plane/internal/httpapi/httpapi.go:1059-1135 | A build of the given commit is appended under the next identifier for an existing deployment with commit and image named, and nothing else changes. |
| ControlPlane.BindDoes | services/control-plane/internal/httpapi/httpapi.go:1717-1799 | After a successful bind the pair is bound, an existing binding is left alone, and every other binding stays. |
| ControlPlane.UnbindDoes | services/control-plane/internal/httpapi/httpapi.go:1863-1955 | Succeeds exactly if the binding exists and removes exactly it. |
| ControlPlane.SetVariableDoes | services/control-plane/internal/httpapi/httpapi.go:2029-2152 | After success the trimmed key has the given value and flag, under the identifier it had, and the variables of other keys are the same. |
| ControlPlane.DropVariableDoes | services/control-plane/internal/httpapi/httpapi.go:2154-2228 | Succeeds exactly if the variable exists and removes exactly it. |
| ControlPlane.LogsOnlyGrow | services/control-plane/internal/httpapi/httpapi.go:2417-2424 | While a deployment exists its log only grows. |
| ControlPlane.GoneForGood | services/control-plane/internal/httpapi/httpapi.go:1001-1026 | A deleted deployment never comes back. |
| ControlPlane.RollbackRestores | services/control-plane/internal/httpapi/httpapi.go:748-788 | Rolling back to a revision of the log restores and records exactly its digest; it is refused, changing nothing, exactly if that revision holds none. |
| ControlPlane.DeleteRemovesAll | services/control-plane/internal/httpapi/httpapi.go:1001-1050 | A delete removes what refers to the deployment and nothing else. |
| ControlPlaneApi.Api.CreateDeployment | services/control-plane/internal/httpapi/httpapi.go:315-399 | The handler leaves the state of Create and gives its answer, or reports that the write to the cluster failed; the store stays valid, its logs grow, and a request refused as missing or invalid changes nothing. |
| ControlPlaneApi.Api.UpdateDeployment | services/control-plane/internal/httpapi/httpapi.go:505-646 | The handler leaves the state of Update and gives its answer, or reports that the write to the cluster failed; the store stays valid, its logs grow, and a request refused as missing or invalid changes nothing. |
| ControlPlaneApi.Api.RollbackDeployment | services/control-plane/internal/httpapi/httpapi.go:648-668 | The handler leaves the state of Rollback and gives its answer, or reports that the write to the cluster failed; the store stays valid, its logs grow, and a request refused as missing or invalid changes nothing. |
| ControlPlaneApi.Api.RollbackDeploymentByDigest | services/control-plane/internal/httpapi/httpapi.go:670-746 | Likewise RollbackByDigest; for a trimmed digest, as every caller gives it, the store stays valid, its logs grow, and a refusal changes nothing. |
| ControlPlaneApi.Api.RollbackDeploymentV2 | services/control-plane/internal/httpapi/httpapi.go:748-788 | The handler leaves the state of RollbackV2 and gives its answer, or reports that the write to the cluster failed; the store stays valid, its logs grow, and a request refused as missing or invalid changes nothing. |
| ControlPlaneApi.Api.DeleteDeployment | services/control-plane/internal/httpapi/httpapi.go:931-1057 | The handler leaves the state of Delete and gives its answer, or reports that the write to the cluster failed; the store stays valid, its logs grow, and a request refused as missing or invalid changes nothing. |
| ControlPlaneApi.Api.TriggerBuildWithoutBuilder | services/control-plane/internal/httpapi/httpapi.go:1059-1135 | The handler leaves the state and gives the answer of QueueBuild; the store stays valid, its logs grow, and a refused request changes nothing. |
| ControlPlane.PolicyDoes | services/control-plane/internal/httpapi/httpapi.go:1427-1523 | Setting the runtime policy sets profile and mode of one deployment, blank ones to their defaults, changes nothing else, and which error it gives when. |
| ControlPlaneApi.Api.SetRuntimePolicy | services/control-plane/internal/httpapi/httpapi.go:1427-1523 | The handler leaves the state of SetPolicy and gives its answer, or reports that the write to the cluster failed; the store stays valid, its logs grow, and a refused request changes nothing. |
| ControlPlaneApi.Api.BindSecret | services/control-plane/internal/httpapi/httpapi.go:1717-1799 | The handler leaves the state and gives the answer of Bind; the store stays valid, its logs grow, and a refused request changes nothing. |
| ControlPlaneApi.Api.DeleteSecretBinding | services/control-plane/internal/httpapi/httpapi.go:1863-1955 | The handler leaves the state and gives the answer of Unbind; the store stays valid, its logs grow, and a refused request changes nothing. |
| ControlPlaneApi.Api.UpsertDeploymentVariable | services/control-plane/internal/httpapi/httpapi.go:2029-2152 | The handler leaves the state and gives the answer of SetVariable; the store stays valid, its logs grow, and a refused request changes nothing. |
| ControlPlaneApi.Api.DeleteDeploymentVariable | services/control-plane/internal/httpapi/httpapi.go:2154-2228 | The handler leaves the state and gives the answer of DropVariable; the store stays valid, its logs grow, and a refused request changes nothing. |
| ControlPlaneApi.Api.GetDeployment | services/control-plane/internal/httpapi/httpapi.go:2333-2344 | The first deployment of that identifier. |
| ControlPlaneApi.Api.GetRevision | services/control-plane/internal/httpapi/httpapi.go:2483-2490 | The first revision of that identifier. |
| ControlPlaneApi.Api.RecordDeploymentRevision | services/control-plane/internal/httpapi/httpapi.go:2395-2425 | Appends one entry with the trimmed current digest. |
| ControlPlaneApi.Api.ListRevisions | services/control-plane/internal/httpapi/httpapi.go:2453-2459 | The log reversed. |
| ControlPlaneApi.ReverseInPlace | services/control-plane/internal/httpapi/httpapi.go:2456-2458 | The swap loop reverses. |
| ControlPlaneApi.NewestFirst | services/control-plane/internal/httpapi/httpapi.go:2427-2460 | The revision that records exactly the current digest is listed first. |
| Base64.RoundTrip | portal/middleware.ts:75-91 | Stripping the padding and restoring it is the identity on every byte string, for both decoders. |
| Base64.NoDot | portal/lib/auth.ts:23-30 | The text never contains the token separator and is empty only for no bytes. |
| Base64.EncodeURLIs | portal/lib/auth.ts:23-30 | The replacements yield the URL-safe alphabet of section 5 of RFC 4648 without padding. |
| Base64.EncodedBits | portal/lib/auth.ts:23-30 | The character at every place stands, by table 2 of RFC 4648, for the six bits of the bytes at that place, the last ones filled up with zeros; for every byte string. |
| ConstantTime.ConstantTimeEqual | portal/middleware.ts:93-102 | The or/xor loop returns true exactly on equal strings. |
| Session.BinaryString | portal/middleware.ts:76-79 | One character per byte. |
| Session.IssuedTokens | portal/lib/auth.ts:36-56 | Every token from encodeSession is decoded to its payload and accepted by the middleware exactly until it expires. |
| Session.AcceptedIsSigned | portal/middleware.ts:30-61 | Whatever the middleware accepts is a text and its signature. |
| Session.AcceptedIff | portal/middleware.ts:30-61 | Exactly which tokens the middleware accepts: a non-empty text without a dot, its signature and no more, where the text decodes to bytes that parse and have not expired. |
| Session.DecodedIff | portal/lib/auth.ts:42-56 | Exactly what decodeSession makes of a token: the payload of the text before the first dot, if its signature follows up to the next dot or the end. |
| Session.TrailingPartDiffers | portal/lib/auth.ts:42-46 | decodeSession ignores a third part, the middleware rejects it. |
| ClaimName.SandboxClaimName | services/worker/internal/engine/engine.go:1293-1313 | The loop and the two trims compute ClaimName. |
| ClaimName.AlwaysALabel | services/worker/internal/engine/engine.go:1293-1313 | For every run id the name is a host label of at most 63 characters. |
| ClaimName.NameIs | services/worker/internal/engine/engine.go:1293-1313 | For every run id of which more than hyphens is left: `run-` and what lies between the outer hyphens, cut to 63 characters and then at the last one that is not a hyphen. |
| ClaimName.NameOfNothing | services/worker/internal/engine/engine.go:1303-1306 | For every other run id: a name made of a fresh identifier. |
| ClaimName.GeneratedName | services/worker/internal/engine/engine.go:1293-1313 | The name of a generated run spells out its identifier. |
| ClaimName.NamesDiffer | services/worker/internal/engine/engine.go:1293-1313 | Distinct generated run ids get distinct names. |
| Builds.MetricsAreExact | services/builder/internal/api/api.go:611-628 | Over every sequential run each gauge is the number of builds in its status and the failure counter the number of moves into a failed status. |
| Builds.HandleDoes | services/builder/internal/api/api.go:253-289 | What a call does to the builds: a new one is queued with a job and done without, asking takes over a known status of the job, and nothing else ever changes. |
| Builds.ReachAccounts | services/builder/internal/api/api.go:253-289 | The same from any accounted state. |
| Builds.RefreshAccounts | services/builder/internal/api/api.go:397-428 | A status change moves one build between gauges. |
| Builds.Regauged | services/builder/internal/api/api.go:611-628 | Gauges that were the counts before a status change are the counts after it, for every pair of statuses. |
| Builds.AccountIs | services/builder/internal/api/api.go:611-628 | A change of status moves one build from one gauge to another, or only off its gauge when the status is lost, and counts a failure exactly for a failed status. |
| Builds.Builder.TriggerBuild | services/builder/internal/api/api.go:185-256 | A new build, queued with a job or done without. |
| Builds.Builder.GetBuild | services/builder/internal/api/api.go:273-289 | Refreshes, accounts and returns the build. |
| Builds.Builder.RefreshBuildRuntimeStatus | services/builder/internal/api/api.go:397-428 | Takes over the status of the job. |

## Left out

- Assistants, deployments, projects and API keys in the run protocol: their foreign keys and the deployment cascade would only add rows that no step of a run reads.
- The memory-store run handlers of the API server: a stub that completes runs inline.
- JSON payloads, outputs and errors: events carry their data as text, results only their status.
- Platform.Store.FetchNextPendingRun: does not model FOR UPDATE SKIP LOCKED; the claim is one atomic step, and RunProtocol lets a worker claim any pending run.
- Sequential methods of Platform.Store: others may change only the cancel key between two statements; every other interleaving is RunProtocol's.
- nextEventID's fallback to the clock when Redis fails: excluded by the hypothesis on Redis.
- The go-redis channel buffer of 128 messages, which drops messages for a slow reader: the subscription is modelled as lossless.
- streamSSE, the loop without Redis: it writes the filtered buffer and stops.
- Unicode case mapping: `Text.Lower` covers ASCII; ClaimName takes any rune mapping that leaves lower-case ASCII alone.
- Byte chunks that cut a UTF-8 sequence: TextDecoder's streaming mode is taken to make text chunks whose concatenation is the text.
- The page state that appendEntry derives from parsed payloads (run id, missing variables).
- robfig cron parsing and schedules without a next fire.
- The float-to-integer conversion of the backoff from 63 attempts on, which the language leaves to the platform: it is the parameter `far`.
- Operator metrics, owner references and the constant parts of pod specs.
- Project scoping, audit entries and what the Kubernetes sync of the control plane writes (only whether it works is a parameter); its stored builds beyond the placeholder of triggerBuild; timestamps.
- Concurrent requests to the control plane's memory store and to the builder: the theorems are about sequential runs.
- Builder validation of repositories and job submission: a build enters with or without a job.
- Cookies, OIDC and PKCE.
