// The resumable event list of one run while the worker and the API server push to it
// (emitStreamEvent/nextEventID, services/worker/internal/engine/engine.go:854-874;
// persistEvent, services/api-server/internal/server/server.go:2088-2103).

module RunLists {
  import opened Basics
  import opened RunTables
  import opened StreamEvents
  import opened WorkerProgram
  import opened RunProtocol
  import RunSafety
  import Text

  // ---------------------------------------------------------------------------
  // Programs as scripts of events
  // ---------------------------------------------------------------------------

  /** No event is to come, whatever happens. */
  predicate Silent(p: Program)
  {
    p.Do? ==> !Branch(p.head) && !p.head.Emit? && !p.head.PublishEvent? && !p.head.PushEvent? && Silent(p.rest)
  }

  /** No event is under way, nothing follows an event that ends the stream, and run_queued is left to the API server. */
  predicate Script(p: Program)
  {
    p.Do? ==>
      && !p.head.PublishEvent? && !p.head.PushEvent?
      && (p.head.Emit? ==> !p.head.name.RunQueued? && (p.head.name.EndsStream() ==> Silent(p.rest)))
      && Script(p.rest)
  }

  /** The event that was given its number but is not pushed yet. */
  function UnderWay(p: Program): Option<Event>
  {
    if p.Do? && p.head.PublishEvent? then Some(p.head.event)
    else if p.Do? && p.head.PushEvent? then Some(p.head.event)
    else None
  }

  predicate AfterPush(e: Event, rest: Program) { !e.name.RunQueued? && Script(rest) && (IsTerminal(e) ==> Silent(rest)) }

  /** A program in progress: a script, behind at most one event under way. */
  predicate InProgress(p: Program)
  {
    if p.Do? && p.head.PublishEvent? then
      p.rest.Do? && p.rest.head == PushEvent(p.head.event) && AfterPush(p.head.event, p.rest.rest)
    else if p.Do? && p.head.PushEvent? then AfterPush(p.head.event, p.rest)
    else Script(p)
  }

  lemma ScriptIsInProgress(p: Program)
    requires Script(p)
    ensures InProgress(p) && UnderWay(p).None?
  {
  }

  lemma FinishIsScript(status: Status, name: Name)
    requires !name.RunQueued?
    ensures Script(Finish(status, name))
  {
    var tail := Do(EnqueueWebhook(ReadUrl), Do(DropCancelKey, Stop));
    assert Silent(tail) && Script(tail);
    assert Script(Do(Notify(name), tail));
  }

  lemma {:induction false} RelayIsScript(events: seq<Draft>, rest: Program)
    requires forall d :: d in events ==> !IsTerminalText(Text.Trim(d.name, Text.GoSpace))
    requires Script(rest)
    ensures Script(Relay(events, rest))
  {
    hide Text.Trim, IsTerminalText;
    if events != [] {
      assert events[0] in events;
      RelayIsScript(events[1..], rest);
    }
  }

  lemma BeginIsScript(setup: Setup)
    ensures Script(Begin(setup))
  {
    FinishIsScript(Error, RunAllocationFailed);
    FinishIsScript(Error, RunFailed);
    assert Script(AfterSandbox(setup));
  }

  lemma AfterReadIsScript(action: Option<Action>, executor: bool, result: Result)
    requires LegalResult(result)
    ensures Script(AfterFirstRead(action, executor)) && Script(AfterLastRead(action, result))
  {
    hide Text.Trim, IsTerminalText, Relay, Finish;
    FinishIsScript(Error, RunFailed);
    FinishIsScript(Interrupted, RunInterrupted);
    var status := if action == Some(CancelInterrupt) then Interrupted else result.status;
    FinishIsScript(status, TerminalName(status));
    RelayIsScript(result.events, Finish(status, TerminalName(status)));
  }

  lemma AfterRollBackIsScript(committed: bool)
    ensures Script(AfterRollBack(committed))
  {
    var tail := Do(DropList, Do(DropCancelKey, Stop));
    assert Silent(tail) && Script(tail);
    assert Script(Do(Notify(RunRolledBack), tail));
  }

  // ---------------------------------------------------------------------------
  // The history of one run
  // ---------------------------------------------------------------------------

  /** The numbers its worker allocated, whether its list was ever deleted, whether run_queued was pushed
      after the worker had started to number events, and whether an event of the worker was published
      (`told`) and pushed (`sent`). */
  datatype Log = Log(ids: seq<int>, dropped: bool, late: bool, told: bool, sent: bool)

  function LogWork(s: State, wk: Worker, log: Log): Log
    requires Works(wk)
  {
    match wk.todo.head
    case Emit(_, _) => log.(ids := log.ids + [NextEvent(s, wk).id])
    case PublishEvent(_) => log.(told := true)
    case PushEvent(_) => log.(sent := true)
    case DropList => log.(dropped := true)
    case _ => log
  }

  function Track(s: State, step: Step, r: RunId, log: Log): Log
  {
    match step
    case Api(DeleteList(q)) => if q == r then log.(dropped := true) else log
    case Api(PushQueued(q)) =>
      if q == r && r in s.queueing && s.queueing[r].ToPush? && log.ids != [] then log.(late := true) else log
    case Work(w, result) =>
      if CanWork(s, w, result) && s.workers[w].run == r then LogWork(s, s.workers[w], log) else log
    case _ => log
  }

  function TrackAll(s: State, steps: seq<Step>, r: RunId, log: Log): Log
    decreases |steps|
  {
    if steps == [] then log else TrackAll(Apply(s, steps[0]), steps[1..], r, Track(s, steps[0], r, log))
  }

  predicate StrictlyIncreasing(ids: seq<int>) { forall i, j :: 0 <= i < j < |ids| ==> ids[i] < ids[j] }

  /** Everybody who handles the run knows that it is resumable. */
  ghost predicate Resumable(s: State, r: RunId)
  {
    && r < s.tables.issued
    && (r in s.tables.runs ==> s.tables.runs[r].resumable)
    && (r in s.queueing ==> s.queueing[r].resumable)
    && (forall w :: w in s.workers && s.workers[w].run == r ==> s.workers[w].resumable)
  }

  /** What links the worker's program to the list and the history. */
  ghost predicate Speaks(list: seq<Event>, todo: Program, log: Log)
  {
    && InProgress(todo)
    && (log.ids != [] && !log.dropped ==>
          log.ids[|log.ids| - 1] <= |list| + if UnderWay(todo).Some? then 1 else 0)
    && (UnderWay(todo).Some? ==> log.ids != [])
    && (!log.dropped && !log.late ==>
          && (UnderWay(todo).Some? ==> UnderWay(todo).value.id == |list| + 1)
          && (Ended(list) ==> Silent(todo)))
  }

  ghost predicate ListHolds(s: State, r: RunId, log: Log)
  {
    var list := ListOf(s, r);
    && (forall w :: w in s.workers && s.workers[w].run == r ==> Speaks(list, s.workers[w].todo, log))
    && (log.ids != [] ==> Claimed(s, r))
    && (!log.dropped ==> StrictlyIncreasing(log.ids))
    && (!log.dropped && !log.late ==>
          && Numbered(list) && EndsOnce(list)
          && (log.ids == [] ==> !Ended(list))
          && (log.ids == [] && r in s.queueing ==> list == []))
  }

  // API steps

  /** A row never changes its resumable flag. */
  ghost predicate SameFlag(t: Tables, t': Tables, r: RunId)
  {
    t.issued <= t'.issued && (r in t'.runs ==> r in t.runs && t'.runs[r].resumable == t.runs[r].resumable)
  }

  lemma ApiKeepsFlag(t: Tables, a: ApiStep, r: RunId)
    requires r < t.issued
    ensures SameFlag(t, ApiTables(t, a), r)
  {
  }

  lemma ApiKeepsResumable(s: State, a: ApiStep, r: RunId)
    requires Resumable(s, r)
    ensures Resumable(ApplyApi(s, a), r)
  {
    hide ApiTables, Creation, ApiRedis, ApiEnqueued;
    ApiKeepsFlag(s.tables, a, r);
  }

  lemma ApiKeepsList(s: State, a: ApiStep, r: RunId, log: Log)
    requires r < s.tables.issued && Resumable(s, r) && ListHolds(s, r, log)
    ensures ListHolds(ApplyApi(s, a), r, Track(s, Api(a), r, log))
  {
    hide Resumable, ListHolds, ApplyApi, Track;
    if a == PushQueued(r) {
      PushKeepsList(s, r, log);
    } else {
      OtherCallsKeepList(s, a, r, log);
    }
  }

  lemma PushKeepsList(s: State, r: RunId, log: Log)
    requires Resumable(s, r) && ListHolds(s, r, log)
    ensures ListHolds(ApplyApi(s, PushQueued(r)), r, Track(s, Api(PushQueued(r)), r, log))
  {
    hide ApiTables, ApiEnqueued;
    var list := ListOf(s, r);
    if r in s.queueing && s.queueing[r].ToPush? {
      assert ListOf(ApplyApi(s, PushQueued(r)), r) == list + [QUEUED];
    }
  }

  lemma OtherCallsKeepList(s: State, a: ApiStep, r: RunId, log: Log)
    requires r < s.tables.issued && ListHolds(s, r, log) && a != PushQueued(r)
    ensures ListHolds(ApplyApi(s, a), r, Track(s, Api(a), r, log))
  {
    hide ApiTables, ApiEnqueued, Creation, Numbered, EndsOnce, Ended, StrictlyIncreasing;
  }

  // Worker steps

  lemma WorkKeepsResumable(s: State, w: WorkerId, result: Result, r: RunId)
    requires CanWork(s, w, result) && Resumable(s, r)
    ensures Resumable(WorkStep(s, w, result), r)
  {
    hide Remaining, WorkRedis;
  }

  /** The program after one action: the next number is taken, or the event moves on. */
  lemma RemainingSpeaks(s: State, wk: Worker, result: Result, log: Log)
    requires Works(wk) && wk.resumable && Shape(wk.todo) && Speaks(ListOf(s, wk.run), wk.todo, log)
    requires wk.todo.head.Execute? ==> LegalResult(result)
    ensures var list' := Get(WorkRedis(s.redis, wk).lists, wk.run, []);
            Speaks(list', Remaining(s, wk, result), LogWork(s, wk, log))
  {
    var list := ListOf(s, wk.run);
    match wk.todo.head
    case PushEvent(e) =>
      assert Get(WorkRedis(s.redis, wk).lists, wk.run, []) == list + [e];
    case Emit(_, _) => assert !Silent(wk.todo) && Script(wk.todo.rest);
    case PublishEvent(_) =>
    case _ =>
      hide Remaining, Shape;
      BetweenEvents(s, wk, result);
      SpeaksAnew(list, wk.todo, Remaining(s, wk, result), log);
  }

  /** An action that is no part of an emission is followed by a script. */
  lemma BetweenEvents(s: State, wk: Worker, result: Result)
    requires Works(wk) && Shape(wk.todo) && InProgress(wk.todo)
    requires wk.todo.head.Execute? ==> LegalResult(result)
    requires !wk.todo.head.Emit? && !wk.todo.head.PublishEvent? && !wk.todo.head.PushEvent?
    ensures Script(Remaining(s, wk, result)) && (Silent(wk.todo) ==> Silent(Remaining(s, wk, result)))
  {
    hide AfterFirstRead, AfterLastRead, AfterRollBack, LegalResult;
    assert Script(wk.todo.rest);
    match wk.todo.head
    case ReadCancelFirst(executor) =>
      AnyResultIsLegal();
      AfterReadIsScript(CancelKey(s, wk.run), executor, Result(Success, []));
    case ReadCancelLast(res) => AfterReadIsScript(CancelKey(s, wk.run), true, res);
    case RollBack => AfterRollBackIsScript(RemoveRun(s.tables, wk.run).Ok?);
    case _ =>
  }

  lemma AnyResultIsLegal()
    ensures LegalResult(Result(Success, []))
  {
  }

  lemma SpeaksAnew(list: seq<Event>, todo: Program, next: Program, log: Log)
    requires Speaks(list, todo, log) && Script(next) && UnderWay(todo).None? && (Silent(todo) ==> Silent(next))
    ensures Speaks(list, next, log) && Speaks([], next, log.(dropped := true)) && Speaks(list, next, log.(dropped := true))
  {
  }

  function NextEventOf(s: State, wk: Worker): Option<Event>
    requires Works(wk)
  {
    if wk.todo.head.Emit? then Some(NextEvent(s, wk)) else None
  }

  lemma WorkKeepsList(s: State, w: WorkerId, result: Result, r: RunId, log: Log)
    requires Inv(s) && CanWork(s, w, result) && Resumable(s, r) && ListHolds(s, r, log)
    ensures ListHolds(WorkStep(s, w, result), r, Track(s, Work(w, result), r, log))
  {
    hide Good, ClaimsHold, WorkersHold, WorkStep, ListHolds, Resumable, LogWork;
    if s.workers[w].run == r {
      OwnWorkKeepsList(s, w, result, log);
    } else {
      OtherWorkKeepsList(s, w, result, r, log);
    }
  }

  lemma OwnWorkKeepsList(s: State, w: WorkerId, result: Result, log: Log)
    requires WorkersHold(s) && CanWork(s, w, result) && Resumable(s, s.workers[w].run) && ListHolds(s, s.workers[w].run, log)
    ensures ListHolds(WorkStep(s, w, result), s.workers[w].run, LogWork(s, s.workers[w], log))
  {
    hide Remaining, WorkTables, Speaks, WorkRedis, Shape, Numbered, EndsOnce, StrictlyIncreasing;
    var wk := s.workers[w];
    assert WorkerHolds(s, wk);
    RemainingSpeaks(s, wk, result, log);
    OwnStepKeepsList(s, wk, log);
  }

  lemma OtherWorkKeepsList(s: State, w: WorkerId, result: Result, r: RunId, log: Log)
    requires CanWork(s, w, result) && ListHolds(s, r, log) && s.workers[w].run != r
    ensures ListHolds(WorkStep(s, w, result), r, log)
  {
    hide Remaining, WorkTables, Speaks, Numbered, EndsOnce, StrictlyIncreasing;
  }

  /** The list and the history after an action of the run's own worker. */
  lemma OwnStepKeepsList(s: State, wk: Worker, log: Log)
    requires Works(wk) && wk.resumable && Speaks(ListOf(s, wk.run), wk.todo, log)
    requires var list := ListOf(s, wk.run);
             && (!log.dropped ==> StrictlyIncreasing(log.ids))
             && (!log.dropped && !log.late ==> Numbered(list) && EndsOnce(list) && (log.ids == [] ==> !Ended(list)))
    ensures var e := NextEventOf(s, wk);
            var ids' := if e.Some? then log.ids + [e.value.id] else log.ids;
            var list' := Get(WorkRedis(s.redis, wk).lists, wk.run, []);
            && (!log.dropped && !wk.todo.head.DropList? ==> StrictlyIncreasing(ids'))
            && (!log.dropped && !log.late && !wk.todo.head.DropList? ==>
                  Numbered(list') && EndsOnce(list') && (ids' == [] ==> !Ended(list') && list' == ListOf(s, wk.run)))
  {
    var list := ListOf(s, wk.run);
    if wk.todo.head.PushEvent? {
      assert Get(WorkRedis(s.redis, wk).lists, wk.run, []) == list + [wk.todo.head.event];
    }
  }

  lemma ClaimKeepsList(s: State, w: WorkerId, q: RunId, setup: Setup, r: RunId, log: Log)
    requires Inv(s) && Resumable(s, r) && ListHolds(s, r, log)
    ensures Resumable(ClaimStep(s, w, q, setup), r) && ListHolds(ClaimStep(s, w, q, setup), r, log)
  {
    hide Good, Begin, WorkerHolds;
    var s' := ClaimStep(s, w, q, setup);
    if s' != s {
      NewClaim(s, s', w, q);
      BeginIsScript(setup);
    }
  }

  lemma ApplyKeepsList(s: State, step: Step, r: RunId, log: Log)
    requires Inv(s) && Resumable(s, r) && ListHolds(s, r, log)
    ensures Resumable(Apply(s, step), r) && ListHolds(Apply(s, step), r, Track(s, step, r, log))
  {
    hide Inv, ApplyApi, ClaimStep, WorkStep;
    match step
    case Api(a) =>
      ApiKeepsResumable(s, a, r);
      ApiKeepsList(s, a, r, log);
    case ClaimRun(w, q, setup) => ClaimKeepsList(s, w, q, setup, r, log);
    case Work(w, result) =>
      if CanWork(s, w, result) {
        WorkKeepsResumable(s, w, result, r);
        WorkKeepsList(s, w, result, r, log);
      }
    case Crash(w) =>
  }

  lemma {:induction false} ReachKeepsList(s: State, steps: seq<Step>, r: RunId, log: Log)
    requires Inv(s) && Resumable(s, r) && ListHolds(s, r, log)
    ensures ListHolds(Reach(s, steps), r, TrackAll(s, steps, r, log))
    decreases |steps|
  {
    hide Inv, Resumable, ListHolds, Apply, Track;
    if steps != [] {
      ApplyKeepsList(s, steps[0], r, log);
      ApplyKeeps(s, steps[0]);
      ReachKeepsList(Apply(s, steps[0]), steps[1..], r, Track(s, steps[0], r, log));
    }
  }

  // ---------------------------------------------------------------------------
  // A run from its creation on
  // ---------------------------------------------------------------------------

  /** Nothing is known yet under an identifier that was not issued. */
  ghost predicate Unused(s: State)
  {
    forall r :: r in s.redis.lists || r in s.redis.channel || r in s.queueing ==> r < s.tables.issued
  }

  lemma ApplyKeepsUnused(s: State, step: Step)
    requires Inv(s) && Unused(s)
    ensures Unused(Apply(s, step))
  {
    hide Inv, ApplyApi, ClaimStep, WorkStep;
    ApplyKeeps(s, step);
    match step
    case Api(a) => ApiKeepsUnused(s, a);
    case ClaimRun(w, r, setup) => ClaimKeepsUnused(s, w, r, setup);
    case Work(w, result) =>
      if CanWork(s, w, result) {
        WorkKeepsUnused(s, w, result);
      }
    case Crash(w) =>
  }

  lemma ApiKeepsUnused(s: State, a: ApiStep)
    requires Inv(s) && Unused(s) && Advances(s.tables, ApplyApi(s, a).tables)
    ensures Unused(ApplyApi(s, a))
  {
    hide Inv, ApiTables, ApiEnqueued, Stage, Creation;
    if a.CreateThreadRun? || a.CreateStatelessRun? {
      CreationIssues(s.tables, a);
    }
  }

  lemma ClaimKeepsUnused(s: State, w: WorkerId, r: RunId, setup: Setup)
    requires Unused(s)
    ensures Unused(ClaimStep(s, w, r, setup))
  {
    hide Begin;
  }

  lemma WorkKeepsUnused(s: State, w: WorkerId, result: Result)
    requires Inv(s) && Unused(s) && CanWork(s, w, result) && Advances(s.tables, WorkStep(s, w, result).tables)
    ensures Unused(WorkStep(s, w, result))
  {
    hide Inv, WorkTables, Remaining, Stage;
    WorkersRunIsIssued(s, w);
  }

  lemma CreationIssues(t: Tables, a: ApiStep)
    requires a.CreateThreadRun? || a.CreateStatelessRun?
    ensures Creation(t, a).Ok? ==> Creation(t, a).value.issued == t.issued + 1
    ensures a.CreateStatelessRun? ==> Creation(t, a).Ok?
    ensures ApiTables(t, a) == After(t, Creation(t, a))
  {
  }

  lemma WorkersRunIsIssued(s: State, w: WorkerId)
    requires Inv(s) && w in s.workers
    ensures s.workers[w].run < s.tables.issued
  {
    assert WorkerHolds(s, s.workers[w]);
  }

  lemma {:induction false} ReachKeepsUnused(s: State, steps: seq<Step>)
    requires Inv(s) && Unused(s)
    ensures Unused(Reach(s, steps))
    decreases |steps|
  {
    hide Inv, Unused, Apply;
    if steps != [] {
      ApplyKeepsUnused(s, steps[0]);
      ApplyKeeps(s, steps[0]);
      ReachKeepsUnused(Apply(s, steps[0]), steps[1..]);
    }
  }

  const NOTHING_YET := Log([], false, false, false, false)

  lemma CreationStartsList(s: State, step: Step, r: RunId)
    requires Inv(s) && Unused(s)
    requires r !in s.tables.runs && r in Apply(s, step).tables.runs && Apply(s, step).tables.runs[r].resumable
    ensures Resumable(Apply(s, step), r) && ListHolds(Apply(s, step), r, NOTHING_YET)
  {
    hide Good, WorkerHolds, ApiEnqueued, ClaimsHold, WorkRedis, Remaining;
    ApplyKeeps(s, step);
    BornHere(s, step, r);
    forall w | w in s.workers ensures s.workers[w].run < r {
      WorkersRunIsIssued(s, w);
    }
    NotClaimedYet(s, r);
  }

  lemma NotClaimedYet(s: State, r: RunId)
    requires Inv(s) && r >= s.tables.issued
    ensures !Claimed(s, r)
  {
  }

  /** Only a creation brings a resumable row into being, under the next identifier. */
  lemma BornHere(s: State, step: Step, r: RunId)
    requires Good(s.tables)
    requires r !in s.tables.runs && r in Apply(s, step).tables.runs && Apply(s, step).tables.runs[r].resumable
    ensures r == s.tables.issued && step.Api?
    ensures step.call.CreateThreadRun? || step.call.CreateStatelessRun?
    ensures step.call.row.resumable && Creation(s.tables, step.call).Ok?
  {
    hide ApiRedis, ApiQueueing, ApiEnqueued, WorkRedis, WorkTables, Remaining, ApiTables, Good;
    match step
    case Api(a) => BornInTables(s.tables, a, r);
    case Work(w, result) =>
      if CanWork(s, w, result) {
        WorkAddsNoRow(s.tables, s.workers[w], r);
      }
    case _ =>
  }

  lemma BornInTables(t: Tables, a: ApiStep, r: RunId)
    requires r !in t.runs && r in ApiTables(t, a).runs && ApiTables(t, a).runs[r].resumable
    ensures r == t.issued && (a.CreateThreadRun? || a.CreateStatelessRun?)
    ensures a.row.resumable && Creation(t, a).Ok?
  {
  }

  lemma WorkAddsNoRow(t: Tables, wk: Worker, r: RunId)
    requires Works(wk) && r !in t.runs
    ensures r !in WorkTables(t, wk).runs
  {
  }

  /** From the creation of a resumable run on, over any interleaving: while its list is not deleted,
      the worker's event numbers strictly increase; if moreover run_queued is pushed before the worker
      starts numbering, or never, the list is numbered 1..n and ends at most once, at its end. */
  lemma EventNumbers(steps: seq<Step>, step: Step, more: seq<Step>, r: RunId)
    requires r !in Reach(START, steps).tables.runs
    requires var born := Apply(Reach(START, steps), step).tables.runs; r in born && born[r].resumable
    ensures var log := TrackAll(Apply(Reach(START, steps), step), more, r, NOTHING_YET);
            var list := ListOf(Reach(START, steps + [step] + more), r);
            && (!log.dropped ==> StrictlyIncreasing(log.ids))
            && (!log.dropped && !log.late ==> Numbered(list) && EndsOnce(list))
  {
    hide Inv, Apply, Resumable, Unused, Track;
    var s := Reach(START, steps);
    RunSafety.ReachableHolds(steps);
    StartUnused();
    ReachKeepsUnused(START, steps);
    CreationStartsList(s, step, r);
    ApplyKeeps(s, step);
    ReachKeepsList(Apply(s, step), more, r, NOTHING_YET);
    ReachAppend(START, steps, [step]);
    ReachAppend(START, steps + [step], more);
    assert Reach(s, [step]) == Apply(s, step) by { assert [step][1..] == []; }
  }

  lemma StartUnused()
    ensures Unused(START) && Inv(START)
  {
  }
}
