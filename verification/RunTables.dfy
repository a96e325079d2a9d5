// The Postgres tables the run protocol lives in, and every SQL transaction on
// them as one atomic function with its foreign-key checks
// (db/migrations/001_init.sql). A transaction that hits a foreign key leaves the
// tables as they were, which is what the deferred ROLLBACK does.

module RunTables {
  import opened Basics

  type RunId = nat
  type ThreadId = nat
  type JobId = nat

  datatype Status = Pending | Running | Success | Error | Timeout | Interrupted

  predicate Active(s: Status) { s.Pending? || s.Running? }

  predicate Terminal(s: Status) { s.Success? || s.Error? || s.Timeout? || s.Interrupted? }

  datatype Strategy = Reject | Rollback | Interrupt | Enqueue

  datatype Action = CancelInterrupt | CancelRollback

  datatype Run = Run(thread: Option<ThreadId>, status: Status, resumable: bool, webhook: bool, created: int)

  datatype CronStatus = Queued | Finished(status: Status) | RolledBack

  datatype CronExec = CronExec(job: JobId, run: RunId, at: int, status: CronStatus)

  datatype Checkpoint = Checkpoint(id: nat, run: RunId, thread: Option<ThreadId>)

  /** `issued` counts the identifiers handed out by NewID, which never repeats one:
      every identifier below it has been used, the next one is `issued` itself. */
  datatype Tables = Tables(
    runs: map<RunId, Run>,
    threads: set<ThreadId>,
    checkpoints: set<Checkpoint>,
    deliveries: map<nat, RunId>,
    cronExecs: map<nat, CronExec>,
    issued: nat)

  const NO_ROWS := Tables(map[], {}, {}, map[], map[], 0)

  /** The pending and running runs of a thread. */
  function ActiveRuns(runs: map<RunId, Run>, thread: ThreadId): set<RunId>
  {
    set r | r in runs && runs[r].thread == Some(thread) && Active(runs[r].status)
  }

  /** What SELECT ... ORDER BY created_at ASC LIMIT 1 may return: any oldest active run. */
  predicate OldestActive(runs: map<RunId, Run>, thread: ThreadId, pick: Option<RunId>)
  {
    match pick
    case None => ActiveRuns(runs, thread) == {}
    case Some(a) =>
      && a in ActiveRuns(runs, thread)
      && forall r :: r in ActiveRuns(runs, thread) ==> runs[a].created <= runs[r].created
  }

  function SetStatus(t: Tables, r: RunId, status: Status): Tables
  {
    if r in t.runs then t.(runs := t.runs[r := t.runs[r].(status := status)]) else t
  }

  // ---------------------------------------------------------------------------
  // Transactions. A statement either yields the next tables or aborts.
  // ---------------------------------------------------------------------------

  datatype Reason = Conflict | NotFound | ForeignKey

  datatype Tx<+T> = Ok(value: T) | Abort(reason: Reason) {
    predicate IsFailure() { Abort? }
    function PropagateFailure<U>(): Tx<U>
      requires Abort?
    {
      Abort(reason)
    }
    function Extract(): T
      requires Ok?
    {
      value
    }
  }

  /** What the tables hold once the transaction is over. */
  function After(t: Tables, tx: Tx<Tables>): Tables
  {
    match tx case Ok(t') => t' case Abort(_) => t
  }

  function DeleteDeliveries(t: Tables, rs: set<RunId>): Tables
  {
    t.(deliveries := map d | d in t.deliveries && t.deliveries[d] !in rs :: t.deliveries[d])
  }

  function DeleteCheckpoints(t: Tables, rs: set<RunId>): Tables
  {
    t.(checkpoints := set c | c in t.checkpoints && c.run !in rs)
  }

  /** A run that webhook_deliveries or cron_executions still reference cannot be deleted;
      its checkpoints go with it. */
  function DeleteRuns(t: Tables, rs: set<RunId>): Tx<Tables>
  {
    if exists d :: d in t.deliveries && t.deliveries[d] in rs then Abort(ForeignKey)
    else if exists e :: e in t.cronExecs && t.cronExecs[e].run in rs then Abort(ForeignKey)
    else Ok(DeleteCheckpoints(t, rs).(runs := t.runs - rs))
  }

  function DeleteThreadRow(t: Tables, thread: ThreadId): Tx<Tables>
  {
    if exists r :: r in t.runs && t.runs[r].thread == Some(thread) then Abort(ForeignKey)
    else if exists c :: c in t.checkpoints && c.thread == Some(thread) then Abort(ForeignKey)
    else Ok(t.(threads := t.threads - {thread}))
  }

  function InsertRun(t: Tables, run: Run): Tx<Tables>
  {
    if run.thread.Some? && run.thread.value !in t.threads then Abort(ForeignKey)
    else Ok(t.(runs := t.runs[t.issued := run.(status := Pending)], issued := t.issued + 1))
  }

  /** The core of every rollback: checkpoints first, then the row. */
  function RemoveRun(t: Tables, r: RunId): Tx<Tables>
  {
    DeleteRuns(DeleteCheckpoints(t, {r}), {r})
  }

  function MakeRoom(t: Tables, strategy: Strategy, pick: Option<RunId>): Tx<Tables>
  {
    if pick.None? then Ok(t)
    else match strategy
      case Reject => Abort(Conflict)
      case Interrupt => Ok(SetStatus(t, pick.value, Interrupted))
      case Rollback => RemoveRun(t, pick.value)
      case Enqueue => Ok(t)
  }

  function CreateRun(t: Tables, thread: ThreadId, strategy: Strategy, run: Run, pick: Option<RunId>): Tx<Tables>
  {
    var t1 := t.(threads := t.threads + {thread});
    var t2 :- MakeRoom(t1, strategy, pick);
    InsertRun(t2, run.(thread := Some(thread)))
  }

  function CancelRun(t: Tables, r: RunId, action: Action): Tx<Tables>
  {
    if r !in t.runs then Abort(NotFound)
    else if action.CancelInterrupt? then Ok(SetStatus(t, r, Interrupted))
    else RemoveRun(t, r)
  }

  /** expected = None when the route names no thread. */
  function DeleteRun(t: Tables, r: RunId, expected: Option<ThreadId>): Tx<Tables>
  {
    if r !in t.runs || (expected.Some? && t.runs[r].thread != expected) then Abort(NotFound)
    else RemoveRun(DeleteDeliveries(t, {r}), r)
  }

  function RunsOf(t: Tables, thread: ThreadId): set<RunId>
  {
    set r | r in t.runs && t.runs[r].thread == Some(thread)
  }

  function DeleteThread(t: Tables, thread: ThreadId): Tx<Tables>
  {
    if thread !in t.threads then Abort(NotFound)
    else
      var t1 := DeleteDeliveries(t, RunsOf(t, thread));
      var t2 := DeleteCheckpoints(t1, RunsOf(t1, thread));
      var t3 := t2.(checkpoints := set c | c in t2.checkpoints && c.thread != Some(thread));
      var t4 :- DeleteRuns(t3, RunsOf(t3, thread));
      DeleteThreadRow(t4, thread)
  }

  function SetCronStatus(t: Tables, r: RunId, status: CronStatus): Tables
  {
    t.(cronExecs := map e | e in t.cronExecs ::
         if t.cronExecs[e].run == r then t.cronExecs[e].(status := status) else t.cronExecs[e])
  }

  predicate HasDelivery(t: Tables, r: RunId)
  {
    exists d :: d in t.deliveries && t.deliveries[d] == r
  }

  predicate HasCronExec(t: Tables, r: RunId)
  {
    exists e :: e in t.cronExecs && t.cronExecs[e].run == r
  }

  function InsertDelivery(t: Tables, r: RunId): Tx<Tables>
  {
    if r !in t.runs then Abort(ForeignKey)
    else Ok(t.(deliveries := t.deliveries[t.issued := r], issued := t.issued + 1))
  }

  predicate Dispatched(t: Tables, job: JobId, at: int)
  {
    exists e :: e in t.cronExecs && t.cronExecs[e].job == job && t.cronExecs[e].at == at
  }

  function CreateCronRun(t: Tables, job: JobId, at: int, created: int): Tables
  {
    if Dispatched(t, job, at) then t
    else
      var run := t.issued;
      t.(runs := t.runs[run := Run(None, Pending, false, false, created)],
         cronExecs := t.cronExecs[run + 1 := CronExec(job, run, at, Queued)],
         issued := run + 2)
  }

  /** The executor may write a checkpoint of an existing run. */
  function AddCheckpoint(t: Tables, c: Checkpoint): Tables
  {
    if c.run in t.runs && (c.thread.Some? ==> c.thread.value in t.threads)
    then t.(checkpoints := t.checkpoints + {c})
    else t
  }

  // ---------------------------------------------------------------------------
  // What every transaction keeps
  // ---------------------------------------------------------------------------

  /** Foreign keys hold, and no identifier is ahead of the generator. */
  ghost predicate ForeignKeys(t: Tables)
  {
    && (forall r :: r in t.runs ==> r < t.issued && (t.runs[r].thread.Some? ==> t.runs[r].thread.value in t.threads))
    && (forall c :: c in t.checkpoints ==> c.run in t.runs && (c.thread.Some? ==> c.thread.value in t.threads))
    && (forall d :: d in t.deliveries ==> d < t.issued && t.deliveries[d] in t.runs)
    && (forall e :: e in t.cronExecs ==> e < t.issued && t.cronExecs[e].run in t.runs)
  }

  /** The facts the code relies on without any constraint in the schema. */
  ghost predicate Disciplined(t: Tables)
  {
    && (forall d, d' :: d in t.deliveries && d' in t.deliveries && t.deliveries[d] == t.deliveries[d'] ==> d == d')
    && (forall d :: d in t.deliveries && t.deliveries[d] in t.runs ==> Terminal(t.runs[t.deliveries[d]].status))
    && (forall e :: e in t.cronExecs && t.cronExecs[e].run in t.runs ==> t.runs[t.cronExecs[e].run].thread == None)
  }

  ghost predicate Good(t: Tables) { ForeignKeys(t) && Disciplined(t) }

  /** 0 before the run exists, then 1 pending, 2 running, 3 terminal, 4 deleted. */
  function Stage(t: Tables, r: RunId): nat
  {
    if r in t.runs then
      if t.runs[r].status.Pending? then 1 else if t.runs[r].status.Running? then 2 else 3
    else if r < t.issued then 4 else 0
  }

  ghost predicate Advances(t: Tables, t': Tables)
  {
    && t.issued <= t'.issued
    && forall r :: Stage(t, r) <= Stage(t', r)
  }

  lemma RemoveRunKeeps(t: Tables, r: RunId)
    requires Good(t)
    ensures var t' := After(t, RemoveRun(t, r)); Good(t') && Advances(t, t')
  {
  }

  lemma MakeRoomKeeps(t: Tables, strategy: Strategy, pick: Option<RunId>)
    requires Good(t) && (pick.Some? ==> Stage(t, pick.value) in {1, 2})
    ensures var t' := After(t, MakeRoom(t, strategy, pick)); Good(t') && Advances(t, t')
  {
    hide Good, Advances, RemoveRun;
    if pick.Some? {
      RemoveRunKeeps(t, pick.value);
      SetStatusKeeps(t, pick.value, Interrupted);
    }
    Unchanged(t);
  }

  lemma Unchanged(t: Tables)
    ensures Advances(t, t)
  {
  }

  lemma InsertRunKeeps(t: Tables, run: Run)
    requires Good(t)
    ensures var t' := After(t, InsertRun(t, run)); Good(t') && Advances(t, t')
  {
  }

  lemma ThreadKeeps(t: Tables, thread: ThreadId)
    requires Good(t)
    ensures var t' := t.(threads := t.threads + {thread}); Good(t') && Advances(t, t')
  {
  }

  lemma CreateRunKeeps(t: Tables, thread: ThreadId, strategy: Strategy, run: Run, pick: Option<RunId>)
    requires Good(t) && OldestActive(t.runs, thread, pick)
    ensures var t' := After(t, CreateRun(t, thread, strategy, run, pick)); Good(t') && Advances(t, t')
  {
    hide Good, MakeRoom, InsertRun;
    var t1 := t.(threads := t.threads + {thread});
    ThreadKeeps(t, thread);
    MakeRoomKeeps(t1, strategy, pick);
    InsertRunKeeps(After(t1, MakeRoom(t1, strategy, pick)), run.(thread := Some(thread)));
  }

  /** The delete inside the rollback strategy never meets a foreign key: a creation is
      refused exactly by reject on a busy thread. */
  lemma CreateRunOnlyConflicts(t: Tables, thread: ThreadId, strategy: Strategy, run: Run, pick: Option<RunId>)
    requires Good(t) && OldestActive(t.runs, thread, pick)
    ensures var tx := CreateRun(t, thread, strategy, run, pick);
            if strategy.Reject? && ActiveRuns(t.runs, thread) != {}
            then tx == Abort(Conflict)
            else tx.Ok? && tx.value.runs[t.issued] == run.(thread := Some(thread), status := Pending)
  {
  }

  lemma CancelRunKeeps(t: Tables, r: RunId, action: Action)
    requires Good(t)
    ensures var t' := After(t, CancelRun(t, r, action)); Good(t') && Advances(t, t')
  {
  }

  lemma DeleteRunKeeps(t: Tables, r: RunId, expected: Option<ThreadId>)
    requires Good(t)
    ensures var t' := After(t, DeleteRun(t, r, expected)); Good(t') && Advances(t, t')
  {
  }

  /** Deleting a thread never meets a foreign key: it fails only when the thread is unknown. */
  lemma DeleteThreadKeeps(t: Tables, thread: ThreadId)
    requires Good(t)
    ensures var tx := DeleteThread(t, thread);
            && Good(After(t, tx)) && Advances(t, After(t, tx))
            && (if thread in t.threads
                then tx.Ok? && thread !in tx.value.threads && RunsOf(tx.value, thread) == {}
                else tx == Abort(NotFound))
  {
  }

  lemma CronRunKeeps(t: Tables, job: JobId, at: int, created: int)
    requires Good(t)
    ensures var t' := CreateCronRun(t, job, at, created); Good(t') && Advances(t, t')
  {
  }

  /** A claimed run may be given any terminal status, even one that replaces another. */
  lemma SetStatusKeeps(t: Tables, r: RunId, status: Status)
    requires Good(t) && Terminal(status) && Stage(t, r) >= 1
    ensures var t' := SetStatus(t, r, status); Good(t') && Advances(t, t') && (Stage(t', r) >= 3)
  {
  }

  lemma SetCronStatusKeeps(t: Tables, r: RunId, status: CronStatus)
    requires Good(t)
    ensures var t' := SetCronStatus(t, r, status); Good(t') && Advances(t, t')
  {
  }

  lemma InsertDeliveryKeeps(t: Tables, r: RunId)
    requires Good(t) && Stage(t, r) >= 3 && !HasDelivery(t, r)
    ensures var t' := After(t, InsertDelivery(t, r)); Good(t') && Advances(t, t')
    ensures forall q :: q != r && HasDelivery(After(t, InsertDelivery(t, r)), q) ==> HasDelivery(t, q)
  {
    var t' := After(t, InsertDelivery(t, r));
    forall q | q != r && HasDelivery(t', q) ensures HasDelivery(t, q) {
      var d :| d in t'.deliveries && t'.deliveries[d] == q;
      assert t.deliveries[d] == q;
    }
  }

  lemma ClaimKeepsTables(t: Tables, r: RunId)
    requires Good(t) && r in t.runs && t.runs[r].status.Pending?
    ensures var t' := SetStatus(t, r, Running); Good(t') && Advances(t, t') && Stage(t', r) == 2 && !HasDelivery(t, r) && t'.deliveries == t.deliveries
  {
  }

  lemma StatelessKeeps(t: Tables, row: Run)
    requires Good(t)
    ensures var t' := After(t, InsertRun(t, row.(thread := None))); Good(t') && Advances(t, t')
  {
  }

  lemma CheckpointKeeps(t: Tables, c: Checkpoint)
    requires Good(t)
    ensures Good(AddCheckpoint(t, c)) && Advances(t, AddCheckpoint(t, c))
  {
  }
}
