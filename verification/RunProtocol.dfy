// API replicas, workers and cron dispatchers over shared Postgres tables and Redis keys:
// a transition system whose steps are the single statements and transactions of
// services/api-server/internal/server/server.go and services/worker/internal/engine/engine.go.
// Every sequence of steps is a possible interleaving; a step that is not possible in a
// state leaves it unchanged.

module RunProtocol {
  import opened Basics
  import opened RunTables
  import opened StreamEvents
  import opened WorkerProgram

  type WorkerId = nat

  /** A worker that is executing a run; a free worker has no entry. */
  datatype Worker = Worker(run: RunId, resumable: bool, todo: Program)

  datatype Claim = Claim(worker: WorkerId, run: RunId)

  /** The run_queued event of a streamed creation: to be published, then pushed. */
  datatype Queueing = ToPublish(resumable: bool) | ToPush(resumable: bool)

  /** The Redis keys: cancel keys, event lists, and everything ever published on a channel. */
  datatype Redis = Redis(
    cancel: map<RunId, Action>,
    lists: map<RunId, seq<Event>>,
    channel: map<RunId, seq<Event>>)

  datatype State = State(
    tables: Tables,
    redis: Redis,
    queueing: map<RunId, Queueing>,
    workers: map<WorkerId, Worker>,
    // what happened so far
    claims: seq<Claim>,
    executed: set<RunId>,
    enqueued: map<ThreadId, nat>)

  const START := State(NO_ROWS, Redis(map[], map[], map[]), map[], map[], [], {}, map[])

  datatype ApiStep =
    | CreateThreadRun(thread: ThreadId, strategy: Strategy, row: Run, pick: Option<RunId>, streamed: bool)
    | CreateStatelessRun(row: Run, streamed: bool)
    | PublishQueued(run: RunId)
    | PushQueued(run: RunId)
    | SetCancelKey(run: RunId, action: Action)
    | CancelRow(run: RunId, action: Action)
    | DeleteRunRow(run: RunId, expected: Option<ThreadId>)
    | DeleteList(run: RunId)
    | DeleteThreadRows(thread: ThreadId)
    | DispatchCron(job: JobId, at: int, created: int)
    | WriteCheckpoint(checkpoint: Checkpoint)

  datatype Step =
    | Api(call: ApiStep)
    | ClaimRun(worker: WorkerId, run: RunId, setup: Setup)
    | Work(worker: WorkerId, result: Result)
    | Crash(worker: WorkerId)

  function Get<K, V>(m: map<K, V>, k: K, default: V): V { if k in m then m[k] else default }

  function ListOf(s: State, r: RunId): seq<Event> { Get(s.redis.lists, r, []) }

  function ChannelOf(s: State, r: RunId): seq<Event> { Get(s.redis.channel, r, []) }

  /** The event of a streamed creation. */
  const QUEUED := Event(1, RunQueued, "")

  function CancelKey(s: State, r: RunId): Option<Action>
  {
    if r in s.redis.cancel then Some(s.redis.cancel[r]) else None
  }

  function Append(m: map<RunId, seq<Event>>, r: RunId, e: Event): map<RunId, seq<Event>>
  {
    m[r := Get(m, r, []) + [e]]
  }

  // ---------------------------------------------------------------------------
  // API servers, cron dispatchers, executors
  // ---------------------------------------------------------------------------

  function Creation(t: Tables, a: ApiStep): Tx<Tables>
    requires a.CreateThreadRun? || a.CreateStatelessRun?
  {
    if a.CreateStatelessRun? then InsertRun(t, a.row.(thread := None))
    else if OldestActive(t.runs, a.thread, a.pick) then CreateRun(t, a.thread, a.strategy, a.row, a.pick)
    else Abort(Conflict)
  }

  function ApiTables(t: Tables, a: ApiStep): Tables
  {
    match a
    case CreateThreadRun(_, _, _, _, _) => After(t, Creation(t, a))
    case CreateStatelessRun(_, _) => After(t, Creation(t, a))
    case CancelRow(r, action) => After(t, CancelRun(t, r, action))
    case DeleteRunRow(r, expected) => After(t, DeleteRun(t, r, expected))
    case DeleteThreadRows(thread) => After(t, DeleteThread(t, thread))
    case DispatchCron(job, at, created) => CreateCronRun(t, job, at, created)
    case WriteCheckpoint(c) => AddCheckpoint(t, c)
    case _ => t
  }

  function ApiRedis(s: State, a: ApiStep): Redis
  {
    var redis := s.redis;
    match a
    case PublishQueued(r) =>
      if r in s.queueing && s.queueing[r].ToPublish?
      then redis.(channel := Append(redis.channel, r, QUEUED)) else redis
    case PushQueued(r) =>
      if r in s.queueing && s.queueing[r] == ToPush(true)
      then redis.(lists := Append(redis.lists, r, QUEUED)) else redis
    case SetCancelKey(r, action) => redis.(cancel := redis.cancel[r := action])
    case DeleteList(r) => redis.(lists := redis.lists - {r})
    case _ => redis
  }

  function ApiQueueing(s: State, a: ApiStep): map<RunId, Queueing>
  {
    match a
    case PublishQueued(r) =>
      if r in s.queueing then s.queueing[r := ToPush(s.queueing[r].resumable)] else s.queueing
    case PushQueued(r) =>
      if r in s.queueing && s.queueing[r].ToPush? then s.queueing - {r} else s.queueing
    case CreateThreadRun(_, _, row, _, streamed) =>
      if streamed && Creation(s.tables, a).Ok? then s.queueing[s.tables.issued := ToPublish(row.resumable)] else s.queueing
    case CreateStatelessRun(row, streamed) =>
      if streamed then s.queueing[s.tables.issued := ToPublish(row.resumable)] else s.queueing
    case _ => s.queueing
  }

  function ApiEnqueued(s: State, a: ApiStep): map<ThreadId, nat>
  {
    if a.CreateThreadRun? && a.strategy.Enqueue? && Creation(s.tables, a).Ok?
    then s.enqueued[a.thread := Get(s.enqueued, a.thread, 0) + 1]
    else s.enqueued
  }

  function ApplyApi(s: State, a: ApiStep): State
  {
    s.(tables := ApiTables(s.tables, a), redis := ApiRedis(s, a),
       queueing := ApiQueueing(s, a), enqueued := ApiEnqueued(s, a))
  }

  // ---------------------------------------------------------------------------
  // Workers
  // ---------------------------------------------------------------------------

  function ClaimStep(s: State, w: WorkerId, r: RunId, setup: Setup): State
  {
    if w !in s.workers && r in s.tables.runs && s.tables.runs[r].status.Pending? then
      s.(tables := SetStatus(s.tables, r, Running),
         workers := s.workers[w := Worker(r, s.tables.runs[r].resumable, Begin(setup))],
         claims := s.claims + [Claim(w, r)])
    else s
  }

  function NextEvent(s: State, wk: Worker): Event
    requires Works(wk) && wk.todo.head.Emit?
  {
    Event(|ListOf(s, wk.run)| + 1, wk.todo.head.name, wk.todo.head.data)
  }

  predicate Works(wk: Worker) { wk.todo.Do? }

  /** What the worker does to the tables with its first action. */
  function WorkTables(t: Tables, wk: Worker): Tables
    requires Works(wk)
  {
    match wk.todo.head
    case WriteResult(status) => SetStatus(t, wk.run, status)
    case WriteCron(status) => SetCronStatus(t, wk.run, status)
    case EnqueueWebhook(stage) => if stage.Insert? then After(t, InsertDelivery(t, wk.run)) else t
    case RollBack => After(t, RemoveRun(t, wk.run))
    case _ => t
  }

  function WorkRedis(redis: Redis, wk: Worker): Redis
    requires Works(wk)
  {
    match wk.todo.head
    case PublishEvent(e) => redis.(channel := Append(redis.channel, wk.run, e))
    case PushEvent(e) => if wk.resumable then redis.(lists := Append(redis.lists, wk.run, e)) else redis
    case DropList => redis.(lists := redis.lists - {wk.run})
    case DropCancelKey => redis.(cancel := redis.cancel - {wk.run})
    case _ => redis
  }

  /** What is left to do after the first action; `result` is what the executor returns if it is asked. */
  function Remaining(s: State, wk: Worker, result: Result): Program
    requires Works(wk)
  {
    var t := s.tables;
    var rest := wk.todo.rest;
    match wk.todo.head
    case Emit(_, _) => Do(PublishEvent(NextEvent(s, wk)), Do(PushEvent(NextEvent(s, wk)), rest))
    case EnqueueWebhook(ReadUrl) =>
      if wk.run in t.runs && t.runs[wk.run].webhook then Do(EnqueueWebhook(LookForDelivery), rest) else rest
    case EnqueueWebhook(LookForDelivery) =>
      if HasDelivery(t, wk.run) then rest else Do(EnqueueWebhook(Insert), rest)
    case ReadCancelFirst(executor) => AfterFirstRead(CancelKey(s, wk.run), executor)
    case Execute => Do(ReadCancelLast(result), Stop)
    case ReadCancelLast(res) => AfterLastRead(CancelKey(s, wk.run), res)
    case RollBack => AfterRollBack(RemoveRun(t, wk.run).Ok?)
    case _ => rest
  }

  /** The worker goes on with `todo`, or is free again. */
  function Continue(workers: map<WorkerId, Worker>, w: WorkerId, wk: Worker, todo: Program): map<WorkerId, Worker>
  {
    if todo.Stop? then workers - {w} else workers[w := wk.(todo := todo)]
  }

  predicate CanWork(s: State, w: WorkerId, result: Result)
  {
    w in s.workers && Works(s.workers[w]) && (s.workers[w].todo.head.Execute? ==> LegalResult(result))
  }

  function WorkStep(s: State, w: WorkerId, result: Result): State
    requires CanWork(s, w, result)
  {
    var wk := s.workers[w];
    s.(tables := WorkTables(s.tables, wk),
       redis := WorkRedis(s.redis, wk),
       workers := Continue(s.workers, w, wk, Remaining(s, wk, result)),
       executed := if wk.todo.head.Execute? then s.executed + {wk.run} else s.executed)
  }

  function Apply(s: State, step: Step): State
  {
    match step
    case Api(a) => ApplyApi(s, a)
    case ClaimRun(w, r, setup) => ClaimStep(s, w, r, setup)
    case Work(w, result) => if CanWork(s, w, result) then WorkStep(s, w, result) else s
    case Crash(w) => s.(workers := s.workers - {w})
  }

  function Reach(s: State, steps: seq<Step>): State
    decreases |steps|
  {
    if steps == [] then s else Reach(Apply(s, steps[0]), steps[1..])
  }

  lemma {:induction false} ReachAppend(s: State, a: seq<Step>, b: seq<Step>)
    ensures Reach(s, a + b) == Reach(Reach(s, a), b)
    decreases |a|
  {
    if a == [] {
      assert a + b == b;
    } else {
      assert (a + b)[1..] == a[1..] + b;
      ReachAppend(Apply(s, a[0]), a[1..], b);
    }
  }

  // ---------------------------------------------------------------------------
  // The invariant
  // ---------------------------------------------------------------------------

  predicate Claimed(s: State, r: RunId) { exists i :: 0 <= i < |s.claims| && s.claims[i].run == r }

  /** No run is claimed twice, a claimed run is never pending again, only claimed runs are executed. */
  ghost predicate ClaimsHold(s: State)
  {
    && (forall i, j :: 0 <= i < j < |s.claims| ==> s.claims[i].run != s.claims[j].run)
    && (forall i :: 0 <= i < |s.claims| ==> Stage(s.tables, s.claims[i].run) >= 2)
    && (forall r :: r in s.executed ==> Claimed(s, r))
  }

  /** A program in progress, against the tables it works on. */
  ghost predicate TodoHolds(t: Tables, r: RunId, todo: Program)
  {
    && Shape(todo)
    && (ResultWritten(todo) ==> Stage(t, r) >= 3)
    && (HasDelivery(t, r) ==> Quiet(todo))
  }

  ghost predicate WorkerHolds(s: State, wk: Worker)
  {
    Works(wk) && Claimed(s, wk.run) && TodoHolds(s.tables, wk.run, wk.todo)
  }

  ghost predicate WorkersHold(s: State)
  {
    && (forall w :: w in s.workers ==> WorkerHolds(s, s.workers[w]))
    && (forall w, v :: w in s.workers && v in s.workers && w != v ==> s.workers[w].run != s.workers[v].run)
  }

  ghost predicate Inv(s: State) { Good(s.tables) && ClaimsHold(s) && WorkersHold(s) }

  // API steps --------------------------------------------------------------------

  ghost predicate Forward(t: Tables, t': Tables)
  {
    Good(t') && Advances(t, t') && forall r :: HasDelivery(t', r) ==> HasDelivery(t, r)
  }

  lemma CreationIsForward(t: Tables, a: ApiStep)
    requires Good(t) && (a.CreateThreadRun? || a.CreateStatelessRun?)
    ensures Forward(t, After(t, Creation(t, a)))
  {
    hide Good;
    if a.CreateStatelessRun? {
      StatelessKeeps(t, a.row);
    } else if OldestActive(t.runs, a.thread, a.pick) {
      CreateRunKeeps(t, a.thread, a.strategy, a.row, a.pick);
      CreateRunAddsNoDelivery(t, a.thread, a.strategy, a.row, a.pick);
    }
  }

  lemma CreateRunAddsNoDelivery(t: Tables, thread: ThreadId, strategy: Strategy, row: Run, pick: Option<RunId>)
    ensures After(t, CreateRun(t, thread, strategy, row, pick)).deliveries == t.deliveries
  {
  }

  lemma ApiTablesAreForward(t: Tables, a: ApiStep)
    requires Good(t)
    ensures Forward(t, ApiTables(t, a))
  {
    hide Good;
    match a
    case CreateThreadRun(_, _, _, _, _) => CreationIsForward(t, a);
    case CreateStatelessRun(_, _) => CreationIsForward(t, a);
    case CancelRow(r, action) => CancelRunKeeps(t, r, action);
    case DeleteRunRow(r, expected) => DeleteRunKeeps(t, r, expected);
    case DeleteThreadRows(thread) => DeleteThreadKeeps(t, thread);
    case DispatchCron(job, at, created) => CronRunKeeps(t, job, at, created);
    case WriteCheckpoint(c) => CheckpointKeeps(t, c);
    case _ =>
  }

  lemma ApiKeeps(s: State, a: ApiStep)
    requires Inv(s)
    ensures Inv(ApplyApi(s, a)) && Advances(s.tables, ApplyApi(s, a).tables)
  {
    hide Good, ApiTables, ApiRedis, ApiQueueing, ApiEnqueued;
    var s' := ApplyApi(s, a);
    ApiTablesAreForward(s.tables, a);
    forall w | w in s.workers ensures WorkerHolds(s', s.workers[w]) {
      assert WorkerHolds(s, s.workers[w]);
    }
  }

  // Worker steps -------------------------------------------------------------------

  lemma ClaimKeeps(s: State, w: WorkerId, r: RunId, setup: Setup)
    requires Inv(s)
    ensures var s' := ClaimStep(s, w, r, setup); Inv(s') && Advances(s.tables, s'.tables)
  {
    hide Good, Begin, ClaimsHold, SetStatus;
    var s' := ClaimStep(s, w, r, setup);
    if s' != s {
      ClaimKeepsTables(s.tables, r);
      BeginIsFit(setup);
      NewClaim(s, s', w, r);
      forall v | v in s.workers ensures WorkerHolds(s', s.workers[v]) && s.workers[v].run != r {
        assert WorkerHolds(s, s.workers[v]);
        TodoStillHolds(s.tables, s'.tables, s.workers[v]);
      }
    }
  }

  /** A pending run has not been claimed before. */
  lemma NewClaim(s: State, s': State, w: WorkerId, r: RunId)
    requires ClaimsHold(s) && Stage(s.tables, r) == 1
    requires s'.claims == s.claims + [Claim(w, r)] && s'.executed == s.executed
    requires Advances(s.tables, s'.tables) && Stage(s'.tables, r) == 2
    ensures ClaimsHold(s') && !Claimed(s, r) && Claimed(s', r)
    ensures forall q :: Claimed(s, q) ==> Claimed(s', q)
  {
    hide Stage;
    assert s'.claims[|s.claims|] == Claim(w, r);
    forall q | Claimed(s, q) ensures Claimed(s', q) {
      var i :| 0 <= i < |s.claims| && s.claims[i].run == q;
      assert s'.claims[i].run == q;
    }
  }

  /** The worker moves its own run forward; only the webhook insert adds a delivery, for that run. */
  lemma WorkTablesKeep(t: Tables, wk: Worker)
    requires Good(t) && Works(wk) && TodoHolds(t, wk.run, wk.todo) && Stage(t, wk.run) >= 2
    ensures var t' := WorkTables(t, wk);
            Good(t') && Advances(t, t') && forall r :: r != wk.run && HasDelivery(t', r) ==> HasDelivery(t, r)
  {
    hide Good;
    match wk.todo.head
    case WriteResult(status) => SetStatusKeeps(t, wk.run, status);
    case WriteCron(status) => SetCronStatusKeeps(t, wk.run, status);
    case EnqueueWebhook(stage) =>
      if stage.Insert? {
        InsertDeliveryKeeps(t, wk.run);
      }
    case RollBack => RemoveRunKeeps(t, wk.run);
    case _ =>
  }

  lemma RemainingHolds(s: State, wk: Worker, result: Result)
    requires Good(s.tables) && Works(wk) && TodoHolds(s.tables, wk.run, wk.todo) && Stage(s.tables, wk.run) >= 2
    requires wk.todo.head.Execute? ==> LegalResult(result)
    ensures TodoHolds(WorkTables(s.tables, wk), wk.run, Remaining(s, wk, result))
  {
    hide Good, AfterFirstRead, AfterLastRead, AfterRollBack;
    WorkTablesKeep(s.tables, wk);
    var key := CancelKey(s, wk.run);
    match wk.todo.head
    case Emit(_, _) =>
      var push := Do(PushEvent(NextEvent(s, wk)), wk.todo.rest);
      assert Shape(push) && (ResultWritten(push) ==> ResultWritten(wk.todo)) && (Quiet(wk.todo) ==> Quiet(push));
    case EnqueueWebhook(_) => QuietHasShape(wk.todo.rest);
    case WriteResult(status) =>
      SetStatusKeeps(s.tables, wk.run, status);
      ClosingHasShape(wk.todo.rest);
    case ReadCancelFirst(executor) => AfterFirstReadIsFit(key, executor);
    case ReadCancelLast(res) => AfterLastReadIsFit(key, res);
    case RollBack => AfterRollBackIsQuiet(RemoveRun(s.tables, wk.run).Ok?);
    case _ =>
  }

  lemma WorkKeeps(s: State, w: WorkerId, result: Result)
    requires Inv(s) && CanWork(s, w, result)
    ensures var s' := WorkStep(s, w, result); Inv(s') && Advances(s.tables, s'.tables)
  {
    hide Good, WorkTables, WorkRedis, Remaining, Stage, TodoHolds;
    var wk := s.workers[w];
    var s' := WorkStep(s, w, result);
    assert WorkerHolds(s, wk);
    WorkTablesKeep(s.tables, wk);
    RemainingHolds(s, wk, result);
    forall v | v in s'.workers ensures WorkerHolds(s', s'.workers[v]) {
      if v != w {
        assert WorkerHolds(s, s.workers[v]);
        TodoStillHolds(s.tables, s'.tables, s.workers[v]);
      }
    }
  }

  /** A worker's program keeps making sense while others move their runs forward. */
  lemma TodoStillHolds(t: Tables, t': Tables, wk: Worker)
    requires Works(wk) && TodoHolds(t, wk.run, wk.todo) && Advances(t, t')
    requires HasDelivery(t', wk.run) ==> HasDelivery(t, wk.run)
    ensures TodoHolds(t', wk.run, wk.todo)
  {
  }

  lemma ApplyKeeps(s: State, step: Step)
    requires Inv(s)
    ensures Inv(Apply(s, step)) && Advances(s.tables, Apply(s, step).tables)
  {
    hide Inv, ClaimStep, WorkStep, ApplyApi;
    match step
    case Api(a) => ApiKeeps(s, a);
    case ClaimRun(w, r, setup) => ClaimKeeps(s, w, r, setup);
    case Work(w, result) =>
      if CanWork(s, w, result) {
        WorkKeeps(s, w, result);
      }
    case Crash(w) => CrashKeeps(s, w);
  }

  lemma CrashKeeps(s: State, w: WorkerId)
    requires Inv(s)
    ensures Inv(s.(workers := s.workers - {w}))
  {
    hide Good;
    var s' := s.(workers := s.workers - {w});
    forall v | v in s'.workers ensures WorkerHolds(s', s.workers[v]) {
      assert WorkerHolds(s, s.workers[v]);
    }
  }
}
