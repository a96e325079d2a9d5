// What a terminal event tells whoever sees it, over every interleaving: the run is over, and
// no other terminal event of the run is ever published.

module RunEnding {
  import opened Basics
  import opened RunTables
  import opened StreamEvents
  import opened WorkerProgram
  import opened RunProtocol
  import opened RunLists
  import RunSafety
  import Text

  /** A terminal event will be sent before any result is written and before any branch. */
  predicate Announces(p: Program)
  {
    p.Do? && !p.head.WriteResult? && !Branch(p.head) && (Tells(p.head) || Announces(p.rest))
  }

  predicate Tells(i: Instr)
  {
    || (i.Emit? && i.name.EndsStream())
    || (i.PublishEvent? && IsTerminal(i.event))
    || (i.PushEvent? && IsTerminal(i.event))
  }

  predicate HasTerminal(s: seq<Event>) { exists i :: 0 <= i < |s| && IsTerminal(s[i]) }

  predicate OneTerminal(s: seq<Event>) { forall i, j :: 0 <= i < j < |s| ==> !(IsTerminal(s[i]) && IsTerminal(s[j])) }

  /** Nothing is to be published any more. */
  predicate Settled(p: Program) { if p.Do? && p.head.PushEvent? then Silent(p.rest) else Silent(p) }

  ghost predicate TodoEnds(t: Tables, r: RunId, chan: seq<Event>, todo: Program)
  {
    InProgress(todo) && (Announces(todo) ==> Stage(t, r) >= 3) && (HasTerminal(chan) ==> Settled(todo))
  }

  ghost predicate EndingHolds(s: State, r: RunId)
  {
    var chan := ChannelOf(s, r);
    && OneTerminal(chan)
    && (HasTerminal(chan) ==> Stage(s.tables, r) >= 3 && Claimed(s, r))
    && (forall w :: w in s.workers && s.workers[w].run == r ==> TodoEnds(s.tables, r, chan, s.workers[w].todo))
  }

  // Programs ------------------------------------------------------------------------

  lemma FinishIsDiscreet(status: Status, name: Name)
    ensures !Announces(Finish(status, name))
  {
  }

  lemma {:induction false} RelayIsDiscreet(events: seq<Draft>, rest: Program)
    requires forall d :: d in events ==> !IsTerminalText(Text.Trim(d.name, Text.GoSpace))
    requires !Announces(rest)
    ensures !Announces(Relay(events, rest))
  {
    hide IsTerminalText, Text.Trim;
    if events != [] {
      assert events[0] in events;
      RelayIsDiscreet(events[1..], rest);
    }
  }

  lemma BeginIsDiscreet(setup: Setup)
    ensures !Announces(Begin(setup))
  {
    FinishIsDiscreet(Error, RunAllocationFailed);
    FinishIsDiscreet(Error, RunFailed);
    assert !Announces(AfterSandbox(setup));
  }

  lemma AfterReadsAreDiscreet(action: Option<Action>, executor: bool, result: Result)
    requires LegalResult(result)
    ensures !Announces(AfterFirstRead(action, executor)) && !Announces(AfterLastRead(action, result))
  {
    hide Finish, IsTerminalText;
    var status := if action == Some(CancelInterrupt) then Interrupted else result.status;
    FinishIsDiscreet(Error, RunFailed);
    FinishIsDiscreet(Interrupted, RunInterrupted);
    FinishIsDiscreet(status, TerminalName(status));
    RelayIsDiscreet(result.events, Finish(status, TerminalName(status)));
  }

  // One step ------------------------------------------------------------------------

  lemma TerminalAppend(chan: seq<Event>, e: Event)
    ensures HasTerminal(chan + [e]) <==> HasTerminal(chan) || IsTerminal(e)
    ensures OneTerminal(chan) && !(HasTerminal(chan) && IsTerminal(e)) ==> OneTerminal(chan + [e])
  {
    hide IsTerminal;
    assert (chan + [e])[|chan|] == e;
    if HasTerminal(chan) {
      var i :| 0 <= i < |chan| && IsTerminal(chan[i]);
      assert (chan + [e])[i] == chan[i];
    }
  }

  lemma ApiKeepsEnding(s: State, a: ApiStep, r: RunId)
    requires Inv(s) && EndingHolds(s, r)
    ensures EndingHolds(ApplyApi(s, a), r)
  {
    hide Good, ClaimsHold, WorkersHold, ApiTables, ApiQueueing, ApiEnqueued, InProgress, Announces, Settled, HasTerminal, OneTerminal, Stage;
    ApiTablesAreForward(s.tables, a);
    if a.PublishQueued? {
      TerminalAppend(ChannelOf(s, r), QUEUED);
    }
  }

  lemma ClaimKeepsEnding(s: State, w: WorkerId, q: RunId, setup: Setup, r: RunId)
    requires Inv(s) && EndingHolds(s, r)
    ensures EndingHolds(ClaimStep(s, w, q, setup), r)
  {
    hide Good, Begin, WorkersHold, InProgress, Announces, Settled, HasTerminal, OneTerminal;
    var s' := ClaimStep(s, w, q, setup);
    if s' != s {
      ClaimKeepsTables(s.tables, q);
      NewClaim(s, s', w, q);
      BeginIsScript(setup);
      BeginIsDiscreet(setup);
      ScriptIsInProgress(Begin(setup));
    }
  }

  /** The next program of the run's own worker, where the action is no emission. */
  lemma BranchEnds(s: State, wk: Worker, result: Result)
    requires Good(s.tables) && Works(wk) && Shape(wk.todo) && Script(wk.todo) && Stage(s.tables, wk.run) >= 2
    requires wk.todo.head.Execute? ==> LegalResult(result)
    requires !wk.todo.head.Emit?
    requires Announces(wk.todo) ==> Stage(s.tables, wk.run) >= 3
    ensures var (todo, t') := (Remaining(s, wk, result), WorkTables(s.tables, wk));
            Script(todo) && (Announces(todo) ==> Stage(t', wk.run) >= 3) && (Silent(wk.todo) ==> Silent(todo))
  {
    hide AfterFirstRead, AfterLastRead, RemoveRun, Good;
    var key := CancelKey(s, wk.run);
    WorkTablesAdvance(s.tables, wk);
    match wk.todo.head
    case ReadCancelFirst(executor) =>
      AfterReadIsScript(key, executor, Result(Success, []));
      AfterReadsAreDiscreet(key, executor, Result(Success, []));
    case ReadCancelLast(res) =>
      AfterReadIsScript(key, true, res);
      AfterReadsAreDiscreet(key, true, res);
    case RollBack =>
      AfterRollBackIsScript(RemoveRun(s.tables, wk.run).Ok?);
      RemovedIsGone(s.tables, wk.run);
    case WriteResult(status) => SetStatusKeeps(s.tables, wk.run, status);
    case _ =>
  }

  lemma WorkTablesAdvance(t: Tables, wk: Worker)
    requires Good(t) && Works(wk) && Stage(t, wk.run) >= 2 && Shape(wk.todo)
    ensures Stage(WorkTables(t, wk), wk.run) >= Stage(t, wk.run)
  {
  }

  lemma RemovedIsGone(t: Tables, r: RunId)
    requires Stage(t, r) >= 2 && Good(t)
    ensures RemoveRun(t, r).Ok? ==> Stage(RemoveRun(t, r).value, r) == 4
  {
  }

  lemma WorkKeepsEnding(s: State, w: WorkerId, result: Result, r: RunId)
    requires Inv(s) && CanWork(s, w, result) && EndingHolds(s, r)
    ensures EndingHolds(WorkStep(s, w, result), r)
  {
    hide Good, ClaimsHold, EndingHolds, Remaining, WorkTables, WorkRedis;
    assert WorkerHolds(s, s.workers[w]);
    if s.workers[w].run == r {
      OwnStepEnds(s, w, result);
    } else {
      OtherStepEnds(s, w, result, r);
    }
  }

  lemma ClaimedIsPast(s: State, r: RunId)
    requires ClaimsHold(s) && Claimed(s, r)
    ensures Stage(s.tables, r) >= 2
  {
  }

  lemma OtherStepEnds(s: State, w: WorkerId, result: Result, r: RunId)
    requires Inv(s) && CanWork(s, w, result) && EndingHolds(s, r) && s.workers[w].run != r
    ensures EndingHolds(WorkStep(s, w, result), r)
  {
    hide Good, ClaimsHold, Remaining, WorkTables, InProgress, Announces, Settled, HasTerminal, OneTerminal, Stage, TodoHolds;
    assert WorkerHolds(s, s.workers[w]);
    ClaimedIsPast(s, s.workers[w].run);
    WorkTablesKeep(s.tables, s.workers[w]);
  }

  lemma OwnStepEnds(s: State, w: WorkerId, result: Result)
    requires Inv(s) && CanWork(s, w, result) && EndingHolds(s, s.workers[w].run)
    ensures EndingHolds(WorkStep(s, w, result), s.workers[w].run)
  {
    hide Good, ClaimsHold, Remaining, WorkTables, WorkRedis, HasTerminal, OneTerminal, TodoHolds, TodoEnds, Stage;
    var wk := s.workers[w];
    assert WorkerHolds(s, wk);
    ClaimedIsPast(s, wk.run);
    WorkTablesKeep(s.tables, wk);
    OwnTodoEnds(s, wk, result);
  }

  /** The channel and the program after one action of the run's own worker. */
  lemma OwnTodoEnds(s: State, wk: Worker, result: Result)
    requires Good(s.tables) && Works(wk) && TodoHolds(s.tables, wk.run, wk.todo) && Stage(s.tables, wk.run) >= 2
    requires wk.todo.head.Execute? ==> LegalResult(result)
    requires var chan := ChannelOf(s, wk.run);
             && OneTerminal(chan) && TodoEnds(s.tables, wk.run, chan, wk.todo)
             && (HasTerminal(chan) ==> Stage(s.tables, wk.run) >= 3)
    ensures var t' := WorkTables(s.tables, wk);
            var chan' := Get(WorkRedis(s.redis, wk).channel, wk.run, []);
            && OneTerminal(chan') && TodoEnds(t', wk.run, chan', Remaining(s, wk, result))
            && (HasTerminal(chan') ==> Stage(t', wk.run) >= 3)
  {
    hide Good, HasTerminal, OneTerminal, IsTerminalText, Stage, Shape;
    var chan := ChannelOf(s, wk.run);
    WorkTablesKeep(s.tables, wk);
    match wk.todo.head
    case PublishEvent(e) =>
      TerminalAppend(chan, e);
      assert Get(WorkRedis(s.redis, wk).channel, wk.run, []) == chan + [e];
    case PushEvent(e) => assert Get(WorkRedis(s.redis, wk).channel, wk.run, []) == chan;
    case Emit(_, _) =>
      var push := Do(PushEvent(NextEvent(s, wk)), wk.todo.rest);
      assert Announces(push) == Announces(wk.todo);
      assert !Silent(wk.todo) && Script(wk.todo);
    case _ =>
      hide Remaining, Announces;
      assert Get(WorkRedis(s.redis, wk).channel, wk.run, []) == chan;
      BranchEnds(s, wk, result);
      ScriptIsInProgress(Remaining(s, wk, result));
  }

  lemma ApplyKeepsEnding(s: State, step: Step, r: RunId)
    requires Inv(s) && EndingHolds(s, r)
    ensures EndingHolds(Apply(s, step), r)
  {
    hide Inv, EndingHolds, ApplyApi, ClaimStep, WorkStep, CanWork;
    match step
    case Api(a) => ApiKeepsEnding(s, a, r);
    case ClaimRun(w, q, setup) => ClaimKeepsEnding(s, w, q, setup, r);
    case Work(w, result) =>
      if CanWork(s, w, result) {
        WorkKeepsEnding(s, w, result, r);
      }
    case Crash(w) => CrashKeepsEnding(s, w, r);
  }

  lemma CrashKeepsEnding(s: State, w: WorkerId, r: RunId)
    requires EndingHolds(s, r)
    ensures EndingHolds(Apply(s, Crash(w)), r)
  {
    hide TodoEnds, OneTerminal, HasTerminal, Stage;
  }

  lemma {:induction false} ReachKeepsEnding(s: State, steps: seq<Step>, r: RunId)
    requires Inv(s) && EndingHolds(s, r)
    ensures EndingHolds(Reach(s, steps), r)
    decreases |steps|
  {
    hide Inv, EndingHolds, Apply;
    if steps != [] {
      ApplyKeepsEnding(s, steps[0], r);
      ApplyKeeps(s, steps[0]);
      ReachKeepsEnding(Apply(s, steps[0]), steps[1..], r);
    }
  }

  /** Over every interleaving: at most one terminal event of a run is ever published, and only once the run's
      row is terminal or gone, so a client that sees it can rely on the run being over. */
  lemma TerminalEventMeansOver(steps: seq<Step>, r: RunId)
    ensures var s := Reach(START, steps);
            && OneTerminal(ChannelOf(s, r))
            && (HasTerminal(ChannelOf(s, r)) ==> (r in s.tables.runs ==> Terminal(s.tables.runs[r].status)) && Claimed(s, r))
  {
    hide Inv, Reach;
    RunSafety.StartHolds();
    ReachKeepsEnding(START, steps, r);
  }
}
