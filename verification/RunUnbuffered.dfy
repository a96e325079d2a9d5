// Runs that are not resumable: nothing is pushed to a list, so nextEventID gives every event number 1
// (services/worker/internal/engine/engine.go:854-874), and a stream that writes only larger numbers than the
// last one it wrote stops after one event (services/api-server/internal/server/server.go:3917-3960).

module RunUnbuffered {
  import opened Basics
  import opened RunTables
  import opened StreamEvents
  import opened WorkerProgram
  import opened RunProtocol
  import opened RunLists
  import opened StreamServer
  import RunSafety

  predicate AllOnes(s: seq<Event>) { forall i :: 0 <= i < |s| ==> s[i].id == 1 }

  predicate OneUnderWay(todo: Program)
  {
    InProgress(todo) && (UnderWay(todo).Some? ==> UnderWay(todo).value.id == 1)
  }

  /** Everybody who handles the run knows that it is not resumable; its list is empty, its numbers are all 1. */
  ghost predicate Unbuffered(s: State, r: RunId)
  {
    && r < s.tables.issued
    && (r in s.tables.runs ==> !s.tables.runs[r].resumable)
    && (r in s.queueing ==> !s.queueing[r].resumable)
    && (forall w :: w in s.workers && s.workers[w].run == r ==> !s.workers[w].resumable && OneUnderWay(s.workers[w].todo))
    && ListOf(s, r) == [] && AllOnes(ChannelOf(s, r))
  }

  // One step ----------------------------------------------------------------------------

  lemma ApiKeepsUnbuffered(s: State, a: ApiStep, r: RunId)
    requires Unbuffered(s, r)
    ensures Unbuffered(ApplyApi(s, a), r)
  {
    hide ApiTables, Creation, ApiEnqueued, OneUnderWay;
    ApiKeepsFlag(s.tables, a, r);
  }

  lemma OwnStepStaysOne(s: State, wk: Worker, result: Result)
    requires Works(wk) && Shape(wk.todo) && (wk.todo.head.Execute? ==> LegalResult(result))
    requires OneUnderWay(wk.todo) && ListOf(s, wk.run) == []
    ensures OneUnderWay(Remaining(s, wk, result))
  {
    hide Shape, Script;
    var next := Remaining(s, wk, result);
    match wk.todo.head
    case Emit(_, _) => ScriptGoesOn(wk.todo);
    case PublishEvent(_) =>
    case PushEvent(_) => ScriptIsInProgress(wk.todo.rest);
    case _ =>
      hide InProgress, Remaining;
      BetweenEvents(s, wk, result);
      ScriptIsInProgress(next);
  }

  lemma ScriptGoesOn(p: Program)
    requires p.Do? && p.head.Emit? && InProgress(p)
    ensures Script(p.rest) && !p.head.name.RunQueued? && (p.head.name.EndsStream() ==> Silent(p.rest))
  {
  }

  lemma WorkKeepsUnbuffered(s: State, w: WorkerId, result: Result, r: RunId)
    requires WorkersHold(s) && CanWork(s, w, result) && Unbuffered(s, r)
    ensures Unbuffered(WorkStep(s, w, result), r)
  {
    hide Unbuffered, WorkStep;
    if s.workers[w].run == r {
      OwnWorkKeepsUnbuffered(s, w, result);
    } else {
      OtherWorkKeepsUnbuffered(s, w, result, r);
    }
  }

  lemma OwnWorkKeepsUnbuffered(s: State, w: WorkerId, result: Result)
    requires WorkersHold(s) && CanWork(s, w, result) && Unbuffered(s, s.workers[w].run)
    ensures Unbuffered(WorkStep(s, w, result), s.workers[w].run)
  {
    hide Remaining, OneUnderWay, Shape, SetStatus, RemoveRun, InsertDelivery, SetCronStatus;
    var wk := s.workers[w];
    assert WorkerHolds(s, wk);
    OwnStepStaysOne(s, wk, result);
    UnderWayIsOne(wk.todo);
    WorkKeepsFlag(s.tables, wk, wk.run);
    hide WorkTables;
  }

  lemma OtherWorkKeepsUnbuffered(s: State, w: WorkerId, result: Result, r: RunId)
    requires CanWork(s, w, result) && Unbuffered(s, r) && s.workers[w].run != r
    ensures Unbuffered(WorkStep(s, w, result), r)
  {
    hide Remaining, OneUnderWay, AllOnes, WorkTables;
    WorkKeepsFlag(s.tables, s.workers[w], r);
  }

  lemma WorkKeepsFlag(t: Tables, wk: Worker, r: RunId)
    requires Works(wk)
    ensures SameFlag(t, WorkTables(t, wk), r)
  {
  }

  lemma UnderWayIsOne(todo: Program)
    requires OneUnderWay(todo)
    ensures todo.Do? && todo.head.PublishEvent? ==> todo.head.event.id == 1
  {
  }

  lemma ClaimKeepsUnbuffered(s: State, w: WorkerId, q: RunId, setup: Setup, r: RunId)
    requires Unbuffered(s, r)
    ensures Unbuffered(ClaimStep(s, w, q, setup), r)
  {
    hide Begin, InProgress, UnderWay;
    BeginIsScript(setup);
    ScriptIsInProgress(Begin(setup));
  }

  lemma ApplyKeepsUnbuffered(s: State, step: Step, r: RunId)
    requires Inv(s) && Unbuffered(s, r)
    ensures Unbuffered(Apply(s, step), r)
  {
    match step
    case Api(a) =>
      hide Inv, Unbuffered, ApplyApi;
      ApiKeepsUnbuffered(s, a, r);
    case ClaimRun(w, q, setup) =>
      hide Inv, Unbuffered, ClaimStep;
      ClaimKeepsUnbuffered(s, w, q, setup, r);
    case Work(w, result) =>
      hide Good, ClaimsHold, WorkersHold, Unbuffered, WorkStep, CanWork;
      if CanWork(s, w, result) {
        WorkKeepsUnbuffered(s, w, result, r);
      }
    case Crash(w) =>
      hide Inv, OneUnderWay, AllOnes;
  }

  lemma {:induction false} ReachKeepsUnbuffered(s: State, steps: seq<Step>, r: RunId)
    requires Inv(s) && Unbuffered(s, r)
    ensures Unbuffered(Reach(s, steps), r) && ChannelOf(s, r) <= ChannelOf(Reach(s, steps), r)
    decreases |steps|
  {
    hide Inv, Unbuffered, Apply, ChannelOf;
    if steps != [] {
      ApplyKeepsUnbuffered(s, steps[0], r);
      ApplyKeeps(s, steps[0]);
      ChannelGrows(s, steps[0], r);
      ReachKeepsUnbuffered(Apply(s, steps[0]), steps[1..], r);
    }
  }

  lemma ChannelGrows(s: State, step: Step, r: RunId)
    ensures ChannelOf(s, r) <= ChannelOf(Apply(s, step), r)
  {
    hide ApiTables, ApiQueueing, ApiEnqueued, Remaining, WorkTables, SetStatus, Begin, NextEvent, CancelKey;
  }

  // ---------------------------------------------------------------------------
  // From the creation on
  // ---------------------------------------------------------------------------

  /** The step, taken after `steps`, creates the run `r`, which is not resumable: by a request or by a cron fire. */
  ghost predicate CreatesUnbuffered(steps: seq<Step>, step: Step, r: RunId)
  {
    var born := Apply(Reach(START, steps), step).tables.runs;
    r !in Reach(START, steps).tables.runs && r in born && !born[r].resumable
  }

  lemma BornNext(s: State, step: Step, r: RunId)
    requires r !in s.tables.runs && r in Apply(s, step).tables.runs
    ensures step.Api? && r == s.tables.issued
    ensures r in ApplyApi(s, step.call).queueing ==>
              r in s.queueing || ApplyApi(s, step.call).queueing[r] == ToPublish(Apply(s, step).tables.runs[r].resumable)
  {
    hide ApiRedis, ApiEnqueued, WorkRedis, Remaining;
    match step
    case Api(a) =>
      hide ApiTables, ApiQueueing;
      BornByRequest(s, a, r);
    case Work(w, result) =>
      if CanWork(s, w, result) {
        hide WorkTables;
        WorkAddsNoRow(s.tables, s.workers[w], r);
      }
    case _ =>
  }

  lemma BornByRequest(s: State, a: ApiStep, r: RunId)
    requires r !in s.tables.runs && r in ApiTables(s.tables, a).runs
    ensures r == s.tables.issued
    ensures r in ApiQueueing(s, a) ==>
              r in s.queueing || ApiQueueing(s, a)[r] == ToPublish(ApiTables(s.tables, a).runs[r].resumable)
  {
  }

  lemma CreationIsUnbuffered(s: State, step: Step, r: RunId)
    requires Inv(s) && Unused(s) && r !in s.tables.runs && r in Apply(s, step).tables.runs && !Apply(s, step).tables.runs[r].resumable
    requires r < Apply(s, step).tables.issued
    ensures Unbuffered(Apply(s, step), r)
  {
    hide Good, WorkerHolds, ApiEnqueued, ClaimsHold, WorkRedis, Remaining, OneUnderWay, ApiTables, ApiQueueing;
    BornNext(s, step, r);
    forall w | w in s.workers ensures s.workers[w].run < r {
      WorkersRunIsIssued(s, w);
    }
  }

  lemma {:induction false} LiveOfOnes(last: int, start: int, log: seq<Event>)
    requires AllOnes(log)
    ensures |Live(last, start, Published(log))| <= if last >= 1 then 0 else 1
    decreases |log|
  {
    hide IsTerminal;
    if log != [] {
      var later := log[1..];
      assert Published(log)[1..] == Published(later);
      LiveOfOnes(last, start, later);
      LiveOfOnes(1, start, later);
    }
  }

  lemma NothingCut()
    ensures UpToTerminal([]) == []
  {
  }

  lemma OnesAt(s: seq<Event>, i: nat)
    requires AllOnes(s) && i < |s|
    ensures s[i].id == 1
  {
  }

  lemma OnesAreCutShort(buffer: seq<Event>, start: int, log: seq<Event>)
    requires AllOnes(log) && AllOnes(buffer) && |buffer| <= 1
    ensures |Deliver(buffer, start, Published(log))| <= 1
    ensures buffer != [] && start <= 1 ==> Deliver(buffer, start, Published(log)) == buffer
  {
    hide IsTerminal, Live, UpToTerminal, FilterFrom, Published, AllOnes;
    LiveOfOnes(0, start, log);
    LiveOfOnes(1, start, log);
    NothingCut();
    if buffer == [] {
      EmptyFilter(start);
    } else {
      OnesAt(buffer, 0);
      assert buffer == [buffer[0]];
      FilterOfOne(buffer[0], start);
      CutOfOne(buffer[0]);
      assert buffer + [] == buffer;
    }
  }

  /** Over every interleaving from the creation of a run that is not resumable: its list stays empty, every event has
      number 1, and a client that is sent at most run_queued at first is sent at most one event in all, whatever is
      published after it subscribed; the request that created the run is sent run_queued and nothing more. */
  lemma AtMostOneEvent(steps: seq<Step>, step: Step, before: seq<Step>, more: seq<Step>, r: RunId, buffer: seq<Event>, start: int)
    requires CreatesUnbuffered(steps, step, r) && (buffer == [] || buffer == [QUEUED])
    ensures var subscribed := Reach(Apply(Reach(START, steps), step), before);
            var s := Reach(subscribed, more);
            var p := |ChannelOf(subscribed, r)|;
            && ListOf(s, r) == [] && AllOnes(ChannelOf(s, r)) && p <= |ChannelOf(s, r)|
            && |Deliver(buffer, start, Published(ChannelOf(s, r)[p..]))| <= 1
            && Deliver([QUEUED], 0, Published(ChannelOf(s, r)[p..])) == [QUEUED]
  {
    hide Inv, Apply, Unused, Reach, Deliver, Published, OneUnderWay;
    var s0 := Reach(START, steps);
    RunSafety.ReachableHolds(steps);
    StartUnused();
    ReachKeepsUnused(START, steps);
    ApplyKeeps(s0, step);
    RowIsIssued(Apply(s0, step), r);
    CreationIsUnbuffered(s0, step, r);
    var born := Apply(s0, step);
    ReachKeepsUnbuffered(born, before, r);
    RunSafety.ReachKeeps(born, before);
    var subscribed := Reach(born, before);
    ReachKeepsUnbuffered(subscribed, more, r);
    var rest := ChannelOf(Reach(subscribed, more), r)[|ChannelOf(subscribed, r)|..];
    OnesAreCutShort(buffer, start, rest);
    OnesAreCutShort([QUEUED], 0, rest);
  }

  lemma RowIsIssued(s: State, r: RunId)
    requires Inv(s) && r in s.tables.runs
    ensures r < s.tables.issued
  {
  }
}
