// The race between the API server's run_queued and the worker's first event: both ask for number 1
// when run_queued is not pushed yet. The API server publishes and pushes run_queued after the
// creation has committed (createStreamedRun and persistEvent,
// services/api-server/internal/server/server.go:2028-2061 and 2088-2103); a worker may claim the run at
// once (services/worker/internal/engine/engine.go:854-874).

module RunOvertaking {
  import opened Basics
  import opened RunTables
  import opened StreamEvents
  import opened WorkerProgram
  import opened RunProtocol
  import opened RunLists
  import RunSafety

  /** Where run_queued is: None before a stream is asked for and once it is pushed. */
  function At(s: State, r: RunId): Option<Queueing> { if r in s.queueing then Some(s.queueing[r]) else None }

  /** The worker numbered its first event before run_queued was pushed. */
  predicate Hasty(log: Log, at: Option<Queueing>) { log.ids != [] && (log.late || at.Some?) }

  /** It did, and run_queued is published. */
  predicate Overtaken(log: Log, at: Option<Queueing>)
  {
    log.ids != [] && (log.late || (at.Some? && at.value.ToPush?))
  }

  predicate TwoOnes(s: seq<Event>) { exists i, j :: 0 <= i < j < |s| && s[i].id == 1 && s[j].id == 1 }

  predicate HasOne(s: seq<Event>) { exists i :: 0 <= i < |s| && s[i].id == 1 }

  /** An event of the worker with number 1 comes first, or right after run_queued. */
  predicate EarlyOne(chan: seq<Event>)
  {
    || (chan != [] && chan[0].id == 1 && !chan[0].name.RunQueued?)
    || (|chan| >= 2 && chan[0] == QUEUED && chan[1].id == 1)
  }

  predicate KeysHold(list: seq<Event>, chan: seq<Event>, log: Log, at: Option<Queueing>)
  {
    if log.ids == [] then
      && !log.late && !log.told && !log.sent
      && chan == (if at.Some? && at.value.ToPublish? then [] else if at.Some? || chan != [] then [QUEUED] else [])
      && list == (if at.Some? then [] else chan)
    else Hasty(log, at) ==>
      && (log.late ==> at.None?)
      && (log.sent ==> log.told)
      && (!log.told ==> chan == if Overtaken(log, at) then [QUEUED] else [])
      && (log.told ==> EarlyOne(chan) && (if Overtaken(log, at) then TwoOnes(chan) else !chan[0].name.RunQueued?))
      && (!log.sent ==> list == if log.late then [QUEUED] else [])
      && (log.sent ==> HasOne(list) && (log.late ==> TwoOnes(list)))
  }

  /** The first event of a hasty worker has number 1, and it is under way until it is pushed. */
  predicate FirstUnderWay(todo: Program, log: Log, at: Option<Queueing>)
  {
    && InProgress(todo)
    && (log.ids == [] ==> UnderWay(todo).None?)
    && (Hasty(log, at) && !log.sent ==>
          && UnderWay(todo).Some? && UnderWay(todo).value.id == 1
          && (todo.head.PushEvent? <==> log.told))
  }

  ghost predicate RaceHolds(s: State, r: RunId, log: Log)
  {
    !log.dropped ==>
      && (log.ids != [] ==> Claimed(s, r))
      && KeysHold(ListOf(s, r), ChannelOf(s, r), log, At(s, r))
      && forall w :: w in s.workers && s.workers[w].run == r ==> FirstUnderWay(s.workers[w].todo, log, At(s, r))
  }

  // The keys ----------------------------------------------------------------------------

  lemma MoreOnes(s: seq<Event>, e: Event)
    ensures TwoOnes(s) ==> TwoOnes(s + [e])
    ensures HasOne(s) ==> HasOne(s + [e])
    ensures HasOne(s) && e.id == 1 ==> TwoOnes(s + [e])
    ensures e.id == 1 ==> HasOne(s + [e])
    ensures EarlyOne(s) ==> EarlyOne(s + [e]) && HasOne(s)
  {
    var s' := s + [e];
    assert s'[|s|] == e;
    if TwoOnes(s) {
      var i, j :| 0 <= i < j < |s| && s[i].id == 1 && s[j].id == 1;
      assert s'[i].id == 1 && s'[j].id == 1;
    }
    if HasOne(s) {
      var i :| 0 <= i < |s| && s[i].id == 1;
      assert s'[i].id == 1;
    }
  }

  lemma PublishKeepsKeys(list: seq<Event>, chan: seq<Event>, log: Log, resumable: bool)
    requires KeysHold(list, chan, log, Some(ToPublish(resumable)))
    ensures KeysHold(list, chan + [QUEUED], log, Some(ToPush(resumable)))
  {
    hide TwoOnes, HasOne, EarlyOne;
    MoreOnes(chan, QUEUED);
    assert [] + [QUEUED] == [QUEUED];
  }

  lemma PushKeepsKeys(list: seq<Event>, chan: seq<Event>, log: Log, resumable: bool)
    requires KeysHold(list, chan, log, Some(ToPush(resumable)))
    ensures KeysHold(list + [QUEUED], chan, if log.ids != [] then log.(late := true) else log, None)
  {
    hide TwoOnes, HasOne;
    MoreOnes(list, QUEUED);
    assert [] + [QUEUED] == [QUEUED];
  }

  lemma EmitKeepsKeys(list: seq<Event>, chan: seq<Event>, log: Log, at: Option<Queueing>, id: int)
    requires KeysHold(list, chan, log, at) && (log.ids == [] ==> id == |list| + 1)
    ensures KeysHold(list, chan, log.(ids := log.ids + [id]), at)
  {
    hide TwoOnes, HasOne, EarlyOne;
  }

  lemma TellKeepsKeys(list: seq<Event>, chan: seq<Event>, log: Log, at: Option<Queueing>, e: Event)
    requires KeysHold(list, chan, log, at) && log.ids != []
    requires Hasty(log, at) && !log.told ==> e.id == 1 && !e.name.RunQueued?
    ensures KeysHold(list, chan + [e], log.(told := true), at)
  {
    hide TwoOnes, HasOne;
    MoreOnes(chan, e);
    MoreOnes([], QUEUED);
    MoreOnes([QUEUED], e);
    assert [] + [QUEUED] == [QUEUED];
  }

  lemma SendKeepsKeys(list: seq<Event>, chan: seq<Event>, log: Log, at: Option<Queueing>, e: Event)
    requires KeysHold(list, chan, log, at) && log.ids != []
    requires Hasty(log, at) && !log.sent ==> log.told && e.id == 1
    ensures KeysHold(list + [e], chan, log.(sent := true), at)
  {
    hide TwoOnes, HasOne, EarlyOne;
    MoreOnes(list, e);
    MoreOnes([], QUEUED);
    assert [] + [QUEUED] == [QUEUED];
  }

  // The steps -------------------------------------------------------------------------------

  lemma QueuedCallKeepsRace(s: State, a: ApiStep, r: RunId, log: Log)
    requires Resumable(s, r) && RaceHolds(s, r, log)
    requires a == PublishQueued(r) || a == PushQueued(r)
    ensures RaceHolds(ApplyApi(s, a), r, Track(s, Api(a), r, log))
  {
    hide ApiTables, ApiEnqueued, InProgress, UnderWay, KeysHold;
    var s' := ApplyApi(s, a);
    if !log.dropped && r in s.queueing {
      if a.PublishQueued? && s.queueing[r].ToPublish? {
        PublishKeepsKeys(ListOf(s, r), ChannelOf(s, r), log, s.queueing[r].resumable);
        assert ChannelOf(s', r) == ChannelOf(s, r) + [QUEUED] && ListOf(s', r) == ListOf(s, r);
      } else if a.PushQueued? && s.queueing[r].ToPush? {
        PushKeepsKeys(ListOf(s, r), ChannelOf(s, r), log, s.queueing[r].resumable);
        assert ListOf(s', r) == ListOf(s, r) + [QUEUED] && ChannelOf(s', r) == ChannelOf(s, r);
      } else {
        assert At(s', r) == At(s, r);
      }
    }
  }

  lemma OtherCallKeepsRace(s: State, a: ApiStep, r: RunId, log: Log)
    requires Resumable(s, r) && RaceHolds(s, r, log)
    requires a != PublishQueued(r) && a != PushQueued(r)
    ensures RaceHolds(ApplyApi(s, a), r, Track(s, Api(a), r, log))
  {
    hide ApiTables, ApiEnqueued, Creation, InProgress, UnderWay, KeysHold, FirstUnderWay;
  }

  /** One action of the run's own worker: the keys. */
  lemma OwnStepKeepsKeys(s: State, wk: Worker, log: Log)
    requires Works(wk) && wk.resumable && !wk.todo.head.DropList?
    requires KeysHold(ListOf(s, wk.run), ChannelOf(s, wk.run), log, At(s, wk.run)) && FirstUnderWay(wk.todo, log, At(s, wk.run))
    ensures var redis := WorkRedis(s.redis, wk);
            KeysHold(Get(redis.lists, wk.run, []), Get(redis.channel, wk.run, []), LogWork(s, wk, log), At(s, wk.run))
  {
    hide KeysHold, Script;
    var (list, chan, at) := (ListOf(s, wk.run), ChannelOf(s, wk.run), At(s, wk.run));
    var redis := WorkRedis(s.redis, wk);
    KeysBeforeFirst(list, chan, log, at);
    match wk.todo.head
    case Emit(_, _) => EmitKeepsKeys(list, chan, log, at, NextEvent(s, wk).id);
    case PublishEvent(e) =>
      TellKeepsKeys(list, chan, log, at, e);
      assert Get(redis.channel, wk.run, []) == chan + [e];
    case PushEvent(e) =>
      SendKeepsKeys(list, chan, log, at, e);
      assert Get(redis.lists, wk.run, []) == list + [e];
    case _ =>
  }

  /** And what is left of its program. */
  lemma OwnStepKeepsFirst(s: State, wk: Worker, result: Result, log: Log)
    requires Works(wk) && wk.resumable && Shape(wk.todo) && (wk.todo.head.Execute? ==> LegalResult(result))
    requires !wk.todo.head.DropList?
    requires KeysHold(ListOf(s, wk.run), ChannelOf(s, wk.run), log, At(s, wk.run)) && FirstUnderWay(wk.todo, log, At(s, wk.run))
    ensures FirstUnderWay(Remaining(s, wk, result), LogWork(s, wk, log), At(s, wk.run))
  {
    hide KeysHold, Shape, Script;
    KeysBeforeFirst(ListOf(s, wk.run), ChannelOf(s, wk.run), log, At(s, wk.run));
    var next := Remaining(s, wk, result);
    ProgressContinues(s, wk, result);
    match wk.todo.head
    case Emit(_, _) =>
    case PublishEvent(_) =>
    case PushEvent(_) =>
    case _ =>
      hide InProgress;
      BetweenEvents(s, wk, result);
      ScriptIsInProgress(next);
  }

  lemma KeysBeforeFirst(list: seq<Event>, chan: seq<Event>, log: Log, at: Option<Queueing>)
    requires KeysHold(list, chan, log, at)
    ensures log.ids == [] ==> !log.told && !log.sent && !log.late && (at.Some? ==> list == [])
    ensures Hasty(log, at) && log.sent ==> log.told
  {
  }

  lemma ProgressContinues(s: State, wk: Worker, result: Result)
    requires Works(wk) && wk.resumable && Shape(wk.todo) && InProgress(wk.todo)
    requires wk.todo.head.Execute? ==> LegalResult(result)
    ensures InProgress(Remaining(s, wk, result))
  {
    hide Remaining, InProgress, Shape, WorkRedis, UnderWay;
    RemainingSpeaks(s, wk, result, Log([0], true, true, true, true));
  }

  lemma WorkKeepsRace(s: State, w: WorkerId, result: Result, r: RunId, log: Log)
    requires Inv(s) && CanWork(s, w, result) && Resumable(s, r) && RaceHolds(s, r, log)
    ensures RaceHolds(WorkStep(s, w, result), r, Track(s, Work(w, result), r, log))
  {
    hide Good, ClaimsHold, Remaining, WorkTables, FirstUnderWay, KeysHold, TodoHolds, LogWork, WorkRedis;
    var wk := s.workers[w];
    assert WorkerHolds(s, wk);
    if wk.run == r {
      OwnWorkKeepsRace(s, w, result, log);
    } else {
      OtherWorkKeepsRace(s, w, result, r, log);
    }
  }

  lemma OwnWorkKeepsRace(s: State, w: WorkerId, result: Result, log: Log)
    requires WorkersHold(s) && CanWork(s, w, result) && Resumable(s, s.workers[w].run) && RaceHolds(s, s.workers[w].run, log)
    ensures var r := s.workers[w].run; RaceHolds(WorkStep(s, w, result), r, LogWork(s, s.workers[w], log))
  {
    hide Remaining, WorkTables, FirstUnderWay, KeysHold, WorkRedis, Shape;
    var wk := s.workers[w];
    assert WorkerHolds(s, wk);
    if !log.dropped && !wk.todo.head.DropList? {
      OwnStepKeepsKeys(s, wk, log);
      OwnStepKeepsFirst(s, wk, result, log);
    }
  }

  lemma OtherWorkKeepsRace(s: State, w: WorkerId, result: Result, r: RunId, log: Log)
    requires CanWork(s, w, result) && RaceHolds(s, r, log) && s.workers[w].run != r
    ensures RaceHolds(WorkStep(s, w, result), r, log)
  {
    hide Remaining, WorkTables, FirstUnderWay, KeysHold;
  }

  lemma ClaimKeepsRace(s: State, w: WorkerId, q: RunId, setup: Setup, r: RunId, log: Log)
    requires Inv(s) && Resumable(s, r) && RaceHolds(s, r, log)
    ensures RaceHolds(ClaimStep(s, w, q, setup), r, log)
  {
    hide Good, Begin, WorkerHolds, KeysHold;
    var s' := ClaimStep(s, w, q, setup);
    if s' != s {
      ClaimKeepsTables(s.tables, q);
      NewClaim(s, s', w, q);
      BeginIsScript(setup);
      hide Script;
    }
  }

  lemma ApplyKeepsRace(s: State, step: Step, r: RunId, log: Log)
    requires Inv(s) && Resumable(s, r) && RaceHolds(s, r, log)
    ensures RaceHolds(Apply(s, step), r, Track(s, step, r, log))
  {
    match step
    case Api(a) =>
      hide Inv, Resumable, RaceHolds, ApplyApi, Track;
      if a == PublishQueued(r) || a == PushQueued(r) {
        QueuedCallKeepsRace(s, a, r, log);
      } else {
        OtherCallKeepsRace(s, a, r, log);
      }
    case ClaimRun(w, q, setup) =>
      hide Inv, Resumable, RaceHolds, ClaimStep;
      ClaimKeepsRace(s, w, q, setup, r, log);
    case Work(w, result) =>
      hide Inv, Resumable, RaceHolds, WorkStep, CanWork;
      if CanWork(s, w, result) {
        WorkKeepsRace(s, w, result, r, log);
      }
    case Crash(w) =>
      hide Inv, Resumable, KeysHold, FirstUnderWay;
  }

  lemma {:induction false} ReachKeepsRace(s: State, steps: seq<Step>, r: RunId, log: Log)
    requires Inv(s) && Resumable(s, r) && ListHolds(s, r, log) && RaceHolds(s, r, log)
    ensures var (s', log') := (Reach(s, steps), TrackAll(s, steps, r, log));
            Inv(s') && Resumable(s', r) && ListHolds(s', r, log') && RaceHolds(s', r, log')
    decreases |steps|
  {
    hide Inv, Resumable, ListHolds, RaceHolds, Apply, Track;
    if steps != [] {
      ApplyKeepsList(s, steps[0], r, log);
      ApplyKeepsRace(s, steps[0], r, log);
      ApplyKeeps(s, steps[0]);
      ReachKeepsRace(Apply(s, steps[0]), steps[1..], r, Track(s, steps[0], r, log));
    }
  }

  // ---------------------------------------------------------------------------
  // From the creation on
  // ---------------------------------------------------------------------------

  /** The request in `step`, sent after `steps`, creates the resumable run `r`. */
  ghost predicate Creates(steps: seq<Step>, step: Step, r: RunId)
  {
    var born := Apply(Reach(START, steps), step).tables.runs;
    r !in Reach(START, steps).tables.runs && r in born && born[r].resumable
  }

  lemma CreationStartsRace(s: State, step: Step, r: RunId)
    requires Inv(s) && Unused(s)
    requires r !in s.tables.runs && r in Apply(s, step).tables.runs && Apply(s, step).tables.runs[r].resumable
    ensures RaceHolds(Apply(s, step), r, NOTHING_YET)
    ensures At(Apply(s, step), r).Some? ==> At(Apply(s, step), r).value.ToPublish?
  {
    hide Good, WorkerHolds, ApiEnqueued, ClaimsHold, WorkRedis, Remaining, InProgress, UnderWay;
    BornHere(s, step, r);
    forall w | w in s.workers ensures s.workers[w].run < r {
      WorkersRunIsIssued(s, w);
    }
  }

  lemma CreatedHolds(steps: seq<Step>, step: Step, r: RunId)
    requires Creates(steps, step, r)
    ensures var s := Apply(Reach(START, steps), step);
            && Inv(s) && Resumable(s, r) && ListHolds(s, r, NOTHING_YET) && RaceHolds(s, r, NOTHING_YET)
            && (r in s.queueing ==> s.queueing[r].ToPublish?)
  {
    hide Inv, Apply, Resumable, Unused, ListHolds, RaceHolds;
    var s := Reach(START, steps);
    RunSafety.ReachableHolds(steps);
    StartUnused();
    ReachKeepsUnused(START, steps);
    CreationStartsList(s, step, r);
    CreationStartsRace(s, step, r);
    ApplyKeeps(s, step);
  }

  lemma OnesClash(s: seq<Event>)
    requires TwoOnes(s)
    ensures !Numbered(s)
  {
    var i, j :| 0 <= i < j < |s| && s[i].id == 1 && s[j].id == 1;
    assert s[j].id != j + 1;
  }

  /** From the creation of a resumable run on, over any interleaving that does not delete its list: the list is
      numbered 1..n if and only if run_queued was not pushed after the worker numbered its first event, or no
      event of the worker was pushed. Otherwise two of its events have number 1. */
  lemma ListNumberedIff(steps: seq<Step>, step: Step, more: seq<Step>, r: RunId)
    requires Creates(steps, step, r)
    ensures var born := Apply(Reach(START, steps), step);
            var (log, list) := (TrackAll(born, more, r, NOTHING_YET), ListOf(Reach(born, more), r));
            !log.dropped ==>
              && (Numbered(list) <==> !(log.late && log.sent))
              && (log.late && log.sent ==> TwoOnes(list))
  {
    hide Inv, Apply, Resumable, Creates, TwoOnes, EarlyOne, FirstUnderWay, InProgress, UnderWay;
    CreatedHolds(steps, step, r);
    var s := Apply(Reach(START, steps), step);
    ReachKeepsRace(s, more, r, NOTHING_YET);
    var (log, list) := (TrackAll(s, more, r, NOTHING_YET), ListOf(Reach(s, more), r));
    if TwoOnes(list) {
      OnesClash(list);
    }
  }
}
