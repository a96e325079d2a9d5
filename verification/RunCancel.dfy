// A cancel wins over whatever the executor returns (cancelRun,
// services/api-server/internal/server/server.go:2138-2161, against the two reads of the
// cancel key in services/worker/internal/engine/engine.go:635-735).

module RunCancel {
  import opened Basics
  import opened RunTables
  import opened StreamEvents
  import opened WorkerProgram
  import opened RunProtocol
  import Text

  predicate Speaks(i: Instr) { i.Emit? || i.PublishEvent? || i.PushEvent? }

  /** Events, then a read of the cancel key that still lies ahead. */
  predicate Awaits(p: Program)
  {
    p.Do? && if p.rest.Stop? then Reads(p.head) else Speaks(p.head) && Awaits(p.rest)
  }

  predicate OnlyInterrupts(p: Program)
  {
    p.Do? ==> !Branch(p.head) && (p.head.WriteResult? ==> p.head.status == Interrupted) && OnlyInterrupts(p.rest)
  }

  predicate Writes(p: Program) { p.Do? && (p.head.WriteResult? || Writes(p.rest)) }

  lemma FinishInterrupts()
    ensures OnlyInterrupts(Finish(Interrupted, RunInterrupted)) && Writes(Finish(Interrupted, RunInterrupted))
  {
    assert OnlyInterrupts(Do(Notify(RunInterrupted), Do(EnqueueWebhook(ReadUrl), Do(DropCancelKey, Stop))));
  }

  lemma {:induction false} RelayInterrupts(events: seq<Draft>, rest: Program)
    requires OnlyInterrupts(rest) && Writes(rest)
    ensures OnlyInterrupts(Relay(events, rest)) && Writes(Relay(events, rest))
  {
    hide Text.Trim;
    if events != [] {
      RelayInterrupts(events[1..], rest);
    }
  }

  predicate WorksOn(s: State, w: WorkerId, r: RunId) { w in s.workers && s.workers[w].run == r }

  predicate IsInterrupted(t: Tables, r: RunId) { r in t.runs && t.runs[r].status == Interrupted }

  // ---------------------------------------------------------------------------
  // Interrupt
  // ---------------------------------------------------------------------------

  /** The steps that would be another cancel, a delete of the run, or the end of its worker. */
  predicate Disturbs(s: State, step: Step, w: WorkerId, r: RunId)
  {
    match step
    case Api(SetCancelKey(q, _)) => q == r
    case Api(CancelRow(q, _)) => q == r
    case Api(DeleteRunRow(q, _)) => q == r
    case Api(DeleteThreadRows(thread)) => r in s.tables.runs && s.tables.runs[r].thread == Some(thread)
    case Crash(v) => v == w
    case _ => false
  }

  predicate Undisturbed(s: State, steps: seq<Step>, w: WorkerId, r: RunId)
    decreases |steps|
  {
    steps != [] ==> !Disturbs(s, steps[0], w, r) && Undisturbed(Apply(s, steps[0]), steps[1..], w, r)
  }

  /** The run is over, and the worker either will read the interrupt or has only interrupts to write. */
  ghost predicate Interrupting(s: State, w: WorkerId, r: RunId)
  {
    && Stage(s.tables, r) == 3 && Claimed(s, r)
    && (forall v :: v in s.workers && s.workers[v].run == r ==> v == w)
    && if WorksOn(s, w, r) && Awaits(s.workers[w].todo) then CancelKey(s, r) == Some(CancelInterrupt)
       else if WorksOn(s, w, r) then
         OnlyInterrupts(s.workers[w].todo) && (Writes(s.workers[w].todo) || IsInterrupted(s.tables, r))
       else IsInterrupted(s.tables, r)
  }

  /** A run that is over keeps its row and, when interrupted, its status. */
  lemma ApiKeepsInterrupt(s: State, a: ApiStep, w: WorkerId, r: RunId)
    requires Good(s.tables) && Stage(s.tables, r) == 3 && !Disturbs(s, Api(a), w, r)
    ensures var t' := ApiTables(s.tables, a);
            && Stage(t', r) == 3 && (IsInterrupted(s.tables, r) ==> IsInterrupted(t', r))
  {
  }

  lemma ApiKeepsInterrupting(s: State, a: ApiStep, w: WorkerId, r: RunId)
    requires Inv(s) && Interrupting(s, w, r) && !Disturbs(s, Api(a), w, r)
    ensures Interrupting(ApplyApi(s, a), w, r)
  {
    hide Good, WorkersHold, ApiTables, ApiQueueing, ApiEnqueued;
    ApiKeepsInterrupt(s, a, w, r);
  }

  /** What the worker has left once it has read the interrupt. */
  lemma ReadsInterrupt(executor: bool, result: Result)
    ensures var p := AfterFirstRead(Some(CancelInterrupt), executor);
            OnlyInterrupts(p) && Writes(p) && !Awaits(p)
    ensures var p := AfterLastRead(Some(CancelInterrupt), result);
            OnlyInterrupts(p) && Writes(p) && !Awaits(p)
  {
    FinishInterrupts();
    RelayInterrupts(result.events, Finish(Interrupted, RunInterrupted));
    NoReadAhead(Finish(Interrupted, RunInterrupted));
    NoReadAhead(AfterLastRead(Some(CancelInterrupt), result));
  }

  lemma {:induction false} NoReadAhead(p: Program)
    requires OnlyInterrupts(p)
    ensures !Awaits(p)
  {
    if p.Do? {
      NoReadAhead(p.rest);
    }
  }

  /** One action of the run's own worker. */
  lemma OwnStepInterrupts(s: State, wk: Worker, result: Result)
    requires Works(wk) && Shape(wk.todo)
    requires if Awaits(wk.todo) then CancelKey(s, wk.run) == Some(CancelInterrupt)
             else OnlyInterrupts(wk.todo) && (Writes(wk.todo) || IsInterrupted(s.tables, wk.run))
    requires Stage(s.tables, wk.run) == 3
    ensures var todo := Remaining(s, wk, result);
            var t' := WorkTables(s.tables, wk);
            && Stage(t', wk.run) == 3
            && if Awaits(todo) then Awaits(wk.todo) && WorkRedis(s.redis, wk).cancel == s.redis.cancel
               else OnlyInterrupts(todo) && (Writes(todo) || IsInterrupted(t', wk.run))
  {
    hide AfterFirstRead, AfterLastRead, AfterRollBack;
    if !Awaits(wk.todo) {
      NoReadAhead(wk.todo.rest);
    }
    match wk.todo.head
    case ReadCancelFirst(executor) => ReadsInterrupt(executor, Result(Success, []));
    case ReadCancelLast(res) => ReadsInterrupt(true, res);
    case Emit(_, _) =>
      var push := Do(PushEvent(NextEvent(s, wk)), wk.todo.rest);
      assert Awaits(push) == Awaits(wk.todo);
      assert OnlyInterrupts(push) == OnlyInterrupts(wk.todo) && Writes(push) == Writes(wk.todo);
    case _ =>
  }

  lemma WorkKeepsInterrupting(s: State, v: WorkerId, result: Result, w: WorkerId, r: RunId)
    requires Inv(s) && Interrupting(s, w, r) && CanWork(s, v, result)
    ensures Interrupting(WorkStep(s, v, result), w, r)
  {
    hide Good, WorkerHolds, ClaimsHold, Interrupting;
    assert WorkerHolds(s, s.workers[v]);
    if WorksOn(s, v, r) {
      OwnerKeepsInterrupting(s, v, result, w, r);
    } else {
      OtherKeepsInterrupting(s, v, result, w, r);
    }
  }

  lemma OwnerKeepsInterrupting(s: State, v: WorkerId, result: Result, w: WorkerId, r: RunId)
    requires CanWork(s, v, result) && WorksOn(s, v, r) && WorkerHolds(s, s.workers[v]) && Interrupting(s, w, r)
    ensures Interrupting(WorkStep(s, v, result), w, r)
  {
    hide Remaining, WorkTables, WorkRedis, Awaits, OnlyInterrupts, Writes, Stage;
    OwnStepInterrupts(s, s.workers[v], result);
    StopIsSettled(Remaining(s, s.workers[v], result));
  }

  lemma OtherKeepsInterrupting(s: State, v: WorkerId, result: Result, w: WorkerId, r: RunId)
    requires Interrupting(s, w, r) && CanWork(s, v, result) && !WorksOn(s, v, r)
    ensures Interrupting(WorkStep(s, v, result), w, r)
  {
    hide Remaining, WorkTables, Awaits, OnlyInterrupts, Writes;
    OthersLeaveRun(s.tables, s.workers[v], r);
  }

  lemma StopIsSettled(p: Program)
    ensures p.Stop? ==> !Awaits(p) && !Writes(p)
  {
  }

  lemma OthersLeaveRun(t: Tables, wk: Worker, r: RunId)
    requires Works(wk) && wk.run != r && r in t.runs
    ensures r in WorkTables(t, wk).runs && WorkTables(t, wk).runs[r] == t.runs[r]
  {
  }

  lemma ClaimKeepsInterrupting(s: State, v: WorkerId, q: RunId, setup: Setup, w: WorkerId, r: RunId)
    requires Inv(s) && Interrupting(s, w, r)
    ensures Interrupting(ClaimStep(s, v, q, setup), w, r)
  {
    hide Good, WorkersHold, Awaits, OnlyInterrupts, Writes, Begin;
    var s' := ClaimStep(s, v, q, setup);
    if s' != s {
      ClaimKeepsTables(s.tables, q);
      NewClaim(s, s', v, q);
    }
  }

  lemma ApplyKeepsInterrupting(s: State, step: Step, w: WorkerId, r: RunId)
    requires Inv(s) && Interrupting(s, w, r) && !Disturbs(s, step, w, r)
    ensures Interrupting(Apply(s, step), w, r)
  {
    hide Good, ApplyApi, WorkStep, Awaits, OnlyInterrupts, Writes, Begin;
    match step
    case Api(a) => ApiKeepsInterrupting(s, a, w, r);
    case ClaimRun(v, q, setup) => ClaimKeepsInterrupting(s, v, q, setup, w, r);
    case Work(v, result) =>
      if CanWork(s, v, result) {
        WorkKeepsInterrupting(s, v, result, w, r);
      }
    case Crash(v) =>
  }

  lemma {:induction false} ReachKeepsInterrupting(s: State, steps: seq<Step>, w: WorkerId, r: RunId)
    requires Inv(s) && Interrupting(s, w, r) && Undisturbed(s, steps, w, r)
    ensures Interrupting(Reach(s, steps), w, r)
    decreases |steps|
  {
    hide Inv, Interrupting, Apply;
    if steps != [] {
      ApplyKeepsInterrupting(s, steps[0], w, r);
      ApplyKeeps(s, steps[0]);
      ReachKeepsInterrupting(Apply(s, steps[0]), steps[1..], w, r);
    }
  }

  /** An interrupt that is complete before the worker's last read of the cancel key wins: once the worker
      is through with the run, whatever the executor returned, the run is interrupted. */
  lemma InterruptWins(s: State, steps: seq<Step>, w: WorkerId, r: RunId)
    requires Inv(s) && WorksOn(s, w, r) && Awaits(s.workers[w].todo)
    requires CancelKey(s, r) == Some(CancelInterrupt) && Stage(s.tables, r) == 3
    requires Undisturbed(s, steps, w, r)
    ensures !WorksOn(Reach(s, steps), w, r) ==> IsInterrupted(Reach(s, steps).tables, r)
  {
    hide Good, Reach, Undisturbed;
    assert WorkerHolds(s, s.workers[w]);
    ReachKeepsInterrupting(s, steps, w, r);
  }

  // ---------------------------------------------------------------------------
  // Rollback
  // ---------------------------------------------------------------------------

  predicate DisturbsRollback(step: Step, w: WorkerId, r: RunId)
  {
    match step
    case Api(SetCancelKey(q, _)) => q == r
    case Crash(v) => v == w
    case _ => false
  }

  /** The API server has still to push run_queued, and the run is resumable. */
  predicate Outstanding(s: State, r: RunId) { r in s.queueing && s.queueing[r].resumable }

  /** Nothing of the run's list is left, except a run_queued event that came last of all. */
  predicate ListGone(s: State, r: RunId, late: bool)
  {
    ListOf(s, r) == [] || (late && r !in s.queueing && ListOf(s, r) == [QUEUED])
  }

  /** The list will still be dropped, without another branch before it. */
  predicate WillDrop(p: Program)
  {
    p.Do? && if p.head.DropList? then p.rest == Do(DropCancelKey, Stop)
             else (Speaks(p.head) || p.head.WriteCron?) && WillDrop(p.rest)
  }

  /** How far the worker is with a run that a rollback has already deleted. `late` says that the
      run_queued push was still outstanding when the rollback finished. */
  ghost predicate RollingBack(s: State, w: WorkerId, r: RunId, late: bool)
  {
    && Stage(s.tables, r) == 4 && Claimed(s, r)
    && (Outstanding(s, r) ==> late)
    && (forall v :: v in s.workers && s.workers[v].run == r ==> v == w)
    && if WorksOn(s, w, r) && Awaits(s.workers[w].todo) then CancelKey(s, r) == Some(CancelRollback)
       else if WorksOn(s, w, r) && (s.workers[w].todo == Do(RollBack, Stop) || WillDrop(s.workers[w].todo)) then true
       else ListGone(s, r, late) && (WorksOn(s, w, r) ==> s.workers[w].todo == Do(DropCancelKey, Stop))
  }

  lemma {:induction false} DropsWithoutReading(p: Program)
    ensures WillDrop(p) ==> !Awaits(p)
  {
    if p.Do? {
      DropsWithoutReading(p.rest);
    }
  }

  lemma ApiKeepsRollingBack(s: State, a: ApiStep, w: WorkerId, r: RunId, late: bool)
    requires Inv(s) && RollingBack(s, w, r, late) && !DisturbsRollback(Api(a), w, r)
    ensures RollingBack(ApplyApi(s, a), w, r, late)
  {
    hide Good, WorkersHold, ApiTables, ApiEnqueued, Awaits, WillDrop, Creation;
    ApiTablesAreForward(s.tables, a);
  }

  lemma GoneStaysGone(t: Tables, wk: Worker)
    requires Works(wk) && Stage(t, wk.run) == 4
    ensures Stage(WorkTables(t, wk), wk.run) == 4
    ensures wk.todo.head.RollBack? && Good(t) ==> RemoveRun(t, wk.run).Ok?
  {
  }

  /** One action of the run's own worker. */
  lemma OwnStepRollsBack(s: State, wk: Worker, result: Result)
    requires Good(s.tables) && Works(wk) && Stage(s.tables, wk.run) == 4
    requires if Awaits(wk.todo) then CancelKey(s, wk.run) == Some(CancelRollback)
             else wk.todo == Do(RollBack, Stop) || WillDrop(wk.todo)
    ensures var todo := Remaining(s, wk, result);
            if Awaits(todo) then Awaits(wk.todo) && WorkRedis(s.redis, wk).cancel == s.redis.cancel
            else || todo == Do(RollBack, Stop) || WillDrop(todo)
                 || (todo == Do(DropCancelKey, Stop) && wk.run !in WorkRedis(s.redis, wk).lists)
  {
    hide Good;
    GoneStaysGone(s.tables, wk);
    var rest := wk.todo.rest;
    DropsWithoutReading(rest);
    match wk.todo.head
    case Emit(_, _) =>
      var push := Do(PushEvent(NextEvent(s, wk)), rest);
      assert Awaits(push) == Awaits(wk.todo) && WillDrop(push) == WillDrop(wk.todo);
    case RollBack => assert WillDrop(Do(Notify(RunRolledBack), Do(DropList, Do(DropCancelKey, Stop))));
    case _ =>
  }

  lemma WorkKeepsRollingBack(s: State, v: WorkerId, result: Result, w: WorkerId, r: RunId, late: bool)
    requires Inv(s) && RollingBack(s, w, r, late) && CanWork(s, v, result)
    ensures RollingBack(WorkStep(s, v, result), w, r, late)
  {
    hide Good, WorkersHold, ClaimsHold, RollingBack;
    if WorksOn(s, v, r) {
      OwnerKeepsRollingBack(s, v, result, w, r, late);
    } else {
      OtherKeepsRollingBack(s, v, result, w, r, late);
    }
  }

  lemma OwnerKeepsRollingBack(s: State, v: WorkerId, result: Result, w: WorkerId, r: RunId, late: bool)
    requires Good(s.tables) && RollingBack(s, w, r, late) && CanWork(s, v, result) && WorksOn(s, v, r)
    ensures RollingBack(WorkStep(s, v, result), w, r, late)
  {
    hide Good, Remaining, WorkTables, Awaits, WillDrop, Stage;
    var wk := s.workers[v];
    GoneStaysGone(s.tables, wk);
    StopIsOver(wk.todo);
    StopIsOver(Remaining(s, wk, result));
    if wk.todo == Do(DropCancelKey, Stop) {
      LastAction(s, wk, result);
    } else {
      OwnStepRollsBack(s, wk, result);
    }
  }

  lemma OtherKeepsRollingBack(s: State, v: WorkerId, result: Result, w: WorkerId, r: RunId, late: bool)
    requires RollingBack(s, w, r, late) && CanWork(s, v, result) && !WorksOn(s, v, r)
    ensures RollingBack(WorkStep(s, v, result), w, r, late)
  {
    hide Remaining, WorkTables, Awaits, WillDrop;
    OthersLeaveGone(s.tables, s.workers[v], r);
  }

  lemma LastAction(s: State, wk: Worker, result: Result)
    requires wk.todo == Do(DropCancelKey, Stop)
    ensures Remaining(s, wk, result) == Stop
  {
  }

  lemma StopIsOver(p: Program)
    ensures p.Stop? || p == Do(DropCancelKey, Stop) ==> !Awaits(p) && !WillDrop(p)
  {
  }

  lemma OthersLeaveGone(t: Tables, wk: Worker, r: RunId)
    requires Works(wk) && wk.run != r && Stage(t, r) == 4
    ensures Stage(WorkTables(t, wk), r) == 4
  {
  }

  lemma ClaimKeepsRollingBack(s: State, v: WorkerId, q: RunId, setup: Setup, w: WorkerId, r: RunId, late: bool)
    requires Inv(s) && RollingBack(s, w, r, late)
    ensures RollingBack(ClaimStep(s, v, q, setup), w, r, late)
  {
    hide Good, WorkersHold, Awaits, WillDrop, Begin;
    var s' := ClaimStep(s, v, q, setup);
    if s' != s {
      ClaimKeepsTables(s.tables, q);
      NewClaim(s, s', v, q);
    }
  }

  lemma ApplyKeepsRollingBack(s: State, step: Step, w: WorkerId, r: RunId, late: bool)
    requires Inv(s) && RollingBack(s, w, r, late) && !DisturbsRollback(step, w, r)
    ensures RollingBack(Apply(s, step), w, r, late)
  {
    hide Good, ApplyApi, WorkStep, ClaimStep, Awaits, WillDrop;
    match step
    case Api(a) => ApiKeepsRollingBack(s, a, w, r, late);
    case ClaimRun(v, q, setup) => ClaimKeepsRollingBack(s, v, q, setup, w, r, late);
    case Work(v, result) =>
      if CanWork(s, v, result) {
        WorkKeepsRollingBack(s, v, result, w, r, late);
      }
    case Crash(v) =>
  }

  lemma {:induction false} ReachKeepsRollingBack(s: State, steps: seq<Step>, w: WorkerId, r: RunId, late: bool)
    requires Inv(s) && RollingBack(s, w, r, late)
    requires forall i :: 0 <= i < |steps| ==> !DisturbsRollback(steps[i], w, r)
    ensures RollingBack(Reach(s, steps), w, r, late) && Inv(Reach(s, steps))
    decreases |steps|
  {
    hide Inv, RollingBack, Apply;
    if steps != [] {
      ApplyKeepsRollingBack(s, steps[0], w, r, late);
      ApplyKeeps(s, steps[0]);
      ReachKeepsRollingBack(Apply(s, steps[0]), steps[1..], w, r, late);
    }
  }

  predicate NothingLeft(t: Tables, r: RunId)
  {
    r !in t.runs && (forall c :: c in t.checkpoints ==> c.run != r) && !HasDelivery(t, r) && !HasCronExec(t, r)
  }

  predicate Uncancelled(steps: seq<Step>, w: WorkerId, r: RunId)
  {
    forall i :: 0 <= i < |steps| ==> !DisturbsRollback(steps[i], w, r)
  }

  /** The rollback of `r` is complete, and its worker `w` has still to read the cancel key. */
  ghost predicate RolledBackUnread(s: State, w: WorkerId, r: RunId)
  {
    && Inv(s) && WorksOn(s, w, r) && Awaits(s.workers[w].todo)
    && CancelKey(s, r) == Some(CancelRollback) && Stage(s.tables, r) == 4
  }

  lemma StartsRollingBack(s: State, w: WorkerId, r: RunId)
    requires RolledBackUnread(s, w, r)
    ensures Inv(s) && RollingBack(s, w, r, Outstanding(s, r))
  {
    hide ClaimsHold, Good, Awaits;
    assert WorkerHolds(s, s.workers[w]);
  }

  /** How many statements the worker is from the end of its program, at most. */
  function Weight(i: Instr): nat
  {
    match i
    case Emit(_, _) => 3
    case RollBack => 10
    case ReadCancelFirst(_) => 11
    case ReadCancelLast(_) => 11
    case Execute => 12
    case _ => 1
  }

  function Distance(p: Program): nat { if p.Stop? then 0 else Weight(p.head) + Distance(p.rest) }

  /** Every statement of a worker that rolls back brings it closer to the end. */
  lemma ComesCloser(s: State, wk: Worker, result: Result)
    requires Works(wk)
    requires if Awaits(wk.todo) then CancelKey(s, wk.run) == Some(CancelRollback)
             else wk.todo == Do(RollBack, Stop) || WillDrop(wk.todo) || wk.todo == Do(DropCancelKey, Stop)
    ensures Distance(Remaining(s, wk, result)) < Distance(wk.todo)
  {
    match wk.todo.head
    case Emit(_, _) =>
      var push := Do(PushEvent(NextEvent(s, wk)), wk.todo.rest);
      assert Distance(push) == 1 + Distance(wk.todo.rest);
    case RollBack =>
      var last := Do(DropList, Do(DropCancelKey, Stop));
      assert Distance(last) == 2;
      assert Distance(Do(Notify(RunRolledBack), last)) == 5;
    case _ =>
  }

  const IDLE := Result(Success, [])

  /** A worker that rolls back can finish undisturbed; the API server's side stays as it is. */
  lemma {:induction false} CanFinish(s: State, w: WorkerId, r: RunId, late: bool) returns (steps: seq<Step>)
    requires Inv(s) && RollingBack(s, w, r, late)
    ensures Uncancelled(steps, w, r)
    ensures !WorksOn(Reach(s, steps), w, r) && Reach(s, steps).queueing == s.queueing
    decreases if WorksOn(s, w, r) then 1 + Distance(s.workers[w].todo) else 0
  {
    hide Good, ClaimsHold, Awaits, WillDrop, Distance, Weight, Remaining, WorkTables, WorkRedis, Stage;
    if WorksOn(s, w, r) {
      assert WorkerHolds(s, s.workers[w]);
      var step := Work(w, IDLE);
      ComesCloser(s, s.workers[w], IDLE);
      assert CanWork(s, w, IDLE);
      ApplyKeepsRollingBack(s, step, w, r, late);
      ApplyKeeps(s, step);
      var later := CanFinish(Apply(s, step), w, r, late);
      steps := [step] + later;
      assert steps[1..] == later;
    } else {
      steps := [];
    }
  }

  /** Then run_queued is published, if it was not, and pushed. */
  lemma CanRevive(s: State, w: WorkerId, r: RunId)
    requires !WorksOn(s, w, r) && Outstanding(s, r)
    ensures var s' := Reach(s, [Api(PublishQueued(r)), Api(PushQueued(r))]); !WorksOn(s', w, r) && ListOf(s', r) != []
  {
    hide ApiTables, ApiEnqueued;
    var steps := [Api(PublishQueued(r)), Api(PushQueued(r))];
    var s1 := Apply(s, steps[0]);
    assert s1.queueing[r] == ToPush(true) && s1.workers == s.workers;
    var s2 := Apply(s1, steps[1]);
    assert ListOf(s2, r) == ListOf(s1, r) + [QUEUED] && s2.workers == s.workers;
    assert steps[1..] == [steps[1]] && [steps[1]][1..] == [];
    assert Reach(s1, [steps[1]]) == Reach(s2, []) == s2;
    assert Reach(s, steps) == s2;
  }

  /** A rollback that is complete before the worker's last read of the cancel key wins: once the worker is
      through, whatever the executor returned, no row, no checkpoint, no delivery and no cron execution is left. */
  lemma RollbackWins(s: State, steps: seq<Step>, w: WorkerId, r: RunId)
    requires RolledBackUnread(s, w, r) && Uncancelled(steps, w, r)
    ensures var s' := Reach(s, steps);
            !WorksOn(s', w, r) ==> NothingLeft(s'.tables, r) && ListGone(s', r, Outstanding(s, r))
  {
    hide Reach, ClaimsHold, Awaits;
    StartsRollingBack(s, w, r);
    ReachKeepsRollingBack(s, steps, w, r, Outstanding(s, r));
  }

  /** Nor is any event, in whatever continuation, if and only if no run_queued of a resumable run was still to be
      pushed when the rollback finished. */
  lemma ListGoneIff(s: State, w: WorkerId, r: RunId)
    requires RolledBackUnread(s, w, r)
    ensures (forall steps :: Uncancelled(steps, w, r) && !WorksOn(Reach(s, steps), w, r) ==> ListOf(Reach(s, steps), r) == [])
            <==> !Outstanding(s, r)
  {
    hide Reach, Inv, Awaits, RollingBack, Stage, ListOf, RolledBackUnread;
    if Outstanding(s, r) {
      StartsRollingBack(s, w, r);
      var steps := CanFinish(s, w, r, true);
      var more := [Api(PublishQueued(r)), Api(PushQueued(r))];
      CanRevive(Reach(s, steps), w, r);
      ReachAppend(s, steps, more);
      assert Uncancelled(steps + more, w, r);
    } else {
      forall steps | Uncancelled(steps, w, r) && !WorksOn(Reach(s, steps), w, r) ensures ListOf(Reach(s, steps), r) == [] {
        RollbackWins(s, steps, w, r);
      }
    }
  }
}
