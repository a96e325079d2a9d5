// Joining a live stream: a client subscribes to the channel, then loads the list, while the
// worker and the API server go on publishing and pushing in separate steps (joinRunStream,
// services/api-server/internal/server/server.go:2063-2074; emitStreamEvent,
// services/worker/internal/engine/engine.go:854-865).

module RunJoin {
  import opened Basics
  import opened RunTables
  import opened StreamEvents
  import opened WorkerProgram
  import opened RunProtocol
  import opened RunLists
  import opened RunOvertaking
  import opened StreamServer

  /** What the worker is about to push has been published, and nothing else is ahead of the list. */
  ghost predicate InStep(list: seq<Event>, chan: seq<Event>, todo: Program)
  {
    && InProgress(todo)
    && (UnderWay(todo).Some? ==> UnderWay(todo).value.id == |list| + 1)
    && chan == list + if todo.Do? && todo.head.PushEvent? then [todo.head.event] else []
  }

  /** The list is a prefix of the channel, at most one event behind; everything published is numbered. */
  ghost predicate Behind(list: seq<Event>, chan: seq<Event>)
  {
    Numbered(chan) && list <= chan && |chan| <= |list| + 1
  }

  /** Once the worker numbers events, unless one of them overtakes run_queued, the list follows the channel. */
  ghost predicate Linked(s: State, r: RunId, log: Log)
  {
    !log.dropped && log.ids != [] && !Overtaken(log, At(s, r)) ==>
      && Behind(ListOf(s, r), ChannelOf(s, r))
      && forall w :: w in s.workers && s.workers[w].run == r ==> InStep(ListOf(s, r), ChannelOf(s, r), s.workers[w].todo)
  }

  /** Everything that is known of a resumable run and its history. */
  ghost predicate Known(s: State, r: RunId, log: Log)
  {
    Inv(s) && Resumable(s, r) && ListHolds(s, r, log) && RaceHolds(s, r, log) && Linked(s, r, log)
  }

  // One step ------------------------------------------------------------------------

  lemma ApiKeepsLinked(s: State, a: ApiStep, r: RunId, log: Log)
    requires Resumable(s, r) && RaceHolds(s, r, log) && Linked(s, r, log)
    ensures Linked(ApplyApi(s, a), r, Track(s, Api(a), r, log))
  {
    hide ApiTables, ApiEnqueued, Creation, InStep, Behind, KeysHold, FirstUnderWay, InProgress, UnderWay;
    if a != PublishQueued(r) && a != PushQueued(r) {
      OtherCallKeepsLinked(s, a, r, log);
    } else if a.PublishQueued? {
      assert r in s.queueing ==> At(ApplyApi(s, a), r).value.ToPush?;
    } else {
      assert r in s.queueing && s.queueing[r].ToPublish? ==> At(ApplyApi(s, a), r) == At(s, r);
    }
  }

  lemma OtherCallKeepsLinked(s: State, a: ApiStep, r: RunId, log: Log)
    requires Resumable(s, r) && Linked(s, r, log) && a != PublishQueued(r) && a != PushQueued(r)
    ensures Linked(ApplyApi(s, a), r, Track(s, Api(a), r, log))
  {
    hide ApiTables, ApiEnqueued, Creation, InStep, Behind, InProgress, UnderWay;
  }

  /** One action of the run's own worker. */
  lemma OwnStepInStep(s: State, wk: Worker, result: Result)
    requires Works(wk) && wk.resumable && Shape(wk.todo) && (wk.todo.head.Execute? ==> LegalResult(result))
    requires InStep(ListOf(s, wk.run), ChannelOf(s, wk.run), wk.todo) && Numbered(ChannelOf(s, wk.run))
    requires !wk.todo.head.DropList?
    ensures var redis := WorkRedis(s.redis, wk);
            var (list, chan) := (Get(redis.lists, wk.run, []), Get(redis.channel, wk.run, []));
            InStep(list, chan, Remaining(s, wk, result)) && Behind(list, chan)
  {
    hide Numbered, Shape;
    ProgressContinues(s, wk, result);
    var (list, chan) := (ListOf(s, wk.run), ChannelOf(s, wk.run));
    match wk.todo.head
    case PublishEvent(e) =>
      assert chan == list;
      assert Get(WorkRedis(s.redis, wk).channel, wk.run, []) == list + [e];
      NumberedNext(list, e);
    case PushEvent(e) => assert Get(WorkRedis(s.redis, wk).lists, wk.run, []) == list + [e];
    case Emit(_, _) =>
    case _ => BetweenEvents(s, wk, result);
  }

  lemma NumberedNext(list: seq<Event>, e: Event)
    requires Numbered(list) && e.id == |list| + 1
    ensures Numbered(list + [e])
  {
  }

  /** Before its first event the worker is in step unless run_queued is published but not pushed. */
  lemma InStepAtFirst(list: seq<Event>, chan: seq<Event>, log: Log, at: Option<Queueing>, todo: Program)
    requires log.ids == [] && KeysHold(list, chan, log, at) && FirstUnderWay(todo, log, at)
    requires !(at.Some? && at.value.ToPush?)
    ensures InStep(list, chan, todo) && Numbered(chan)
  {
    hide InProgress;
    assert list + [] == list;
  }

  lemma OwnWorkKeepsLinked(s: State, w: WorkerId, result: Result, log: Log)
    requires WorkersHold(s) && CanWork(s, w, result) && Resumable(s, s.workers[w].run)
    requires RaceHolds(s, s.workers[w].run, log) && Linked(s, s.workers[w].run, log)
    ensures Linked(WorkStep(s, w, result), s.workers[w].run, LogWork(s, s.workers[w], log))
  {
    hide Remaining, WorkTables, InProgress, UnderWay, WorkRedis, Shape, KeysHold, FirstUnderWay, InStep, Behind;
    var wk := s.workers[w];
    var (r, log') := (wk.run, LogWork(s, wk, log));
    assert WorkerHolds(s, wk);
    if !log'.dropped && log'.ids != [] && !Overtaken(log', At(s, r)) {
      if log.ids == [] {
        InStepAtFirst(ListOf(s, r), ChannelOf(s, r), log, At(s, r), wk.todo);
      } else {
        BehindIsNumbered(ListOf(s, r), ChannelOf(s, r));
      }
      OwnStepInStep(s, wk, result);
    }
  }

  lemma BehindIsNumbered(list: seq<Event>, chan: seq<Event>)
    requires Behind(list, chan)
    ensures Numbered(chan)
  {
    hide Numbered;
  }

  lemma OtherWorkKeepsLinked(s: State, w: WorkerId, result: Result, r: RunId, log: Log)
    requires CanWork(s, w, result) && Linked(s, r, log) && s.workers[w].run != r
    ensures Linked(WorkStep(s, w, result), r, log)
  {
    hide Remaining, WorkTables, InStep, Behind;
  }

  lemma WorkKeepsLinked(s: State, w: WorkerId, result: Result, r: RunId, log: Log)
    requires Inv(s) && CanWork(s, w, result) && Resumable(s, r) && RaceHolds(s, r, log) && Linked(s, r, log)
    ensures Linked(WorkStep(s, w, result), r, Track(s, Work(w, result), r, log))
  {
    hide Linked, RaceHolds, Resumable, WorkersHold, Good, ClaimsHold, WorkStep, LogWork;
    if s.workers[w].run == r {
      OwnWorkKeepsLinked(s, w, result, log);
    } else {
      OtherWorkKeepsLinked(s, w, result, r, log);
    }
  }

  lemma ClaimKeepsLinked(s: State, w: WorkerId, q: RunId, setup: Setup, r: RunId, log: Log)
    requires Inv(s) && RaceHolds(s, r, log) && Linked(s, r, log)
    ensures Linked(ClaimStep(s, w, q, setup), r, log)
  {
    hide Good, Begin, WorkerHolds, KeysHold, FirstUnderWay, Behind, InStep, SetStatus;
    var s' := ClaimStep(s, w, q, setup);
    if s' != s {
      ClaimKeepsTables(s.tables, q);
      NewClaim(s, s', w, q);
    }
  }

  lemma ApplyKeepsLinked(s: State, step: Step, r: RunId, log: Log)
    requires Known(s, r, log)
    ensures Known(Apply(s, step), r, Track(s, step, r, log))
  {
    hide Inv, Resumable, Linked, ListHolds, RaceHolds, ApplyApi, ClaimStep, WorkStep, CanWork, LogWork;
    ApplyKeeps(s, step);
    ApplyKeepsList(s, step, r, log);
    ApplyKeepsRace(s, step, r, log);
    match step
    case Api(a) => ApiKeepsLinked(s, a, r, log);
    case ClaimRun(w, q, setup) => ClaimKeepsLinked(s, w, q, setup, r, log);
    case Work(w, result) =>
      if CanWork(s, w, result) {
        WorkKeepsLinked(s, w, result, r, log);
      }
    case Crash(w) => CrashKeepsLinked(s, w, r, log);
  }

  lemma CrashKeepsLinked(s: State, w: WorkerId, r: RunId, log: Log)
    requires Linked(s, r, log)
    ensures Linked(Apply(s, Crash(w)), r, log)
  {
    hide InStep, Behind;
  }

  /** Channels only grow; so does the list while it is not deleted. */
  lemma ApplyGrows(s: State, step: Step, r: RunId, log: Log)
    ensures ChannelOf(s, r) <= ChannelOf(Apply(s, step), r)
    ensures !Track(s, step, r, log).dropped ==> ListOf(s, r) <= ListOf(Apply(s, step), r)
    ensures log.dropped ==> Track(s, step, r, log).dropped
  {
    hide ApiTables, ApiQueueing, ApiEnqueued, Remaining, WorkTables, SetStatus, Begin, NextEvent, CancelKey;
  }

  lemma {:induction false} ReachKeepsLinked(s: State, steps: seq<Step>, r: RunId, log: Log)
    requires Known(s, r, log)
    ensures var (s', log') := (Reach(s, steps), TrackAll(s, steps, r, log));
            && Known(s', r, log')
            && ChannelOf(s, r) <= ChannelOf(s', r) && (log.dropped ==> log'.dropped)
            && (!log'.dropped ==> ListOf(s, r) <= ListOf(s', r))
    decreases |steps|
  {
    hide Known, Apply, Track, ListOf, ChannelOf;
    if steps != [] {
      ApplyKeepsLinked(s, steps[0], r, log);
      ApplyGrows(s, steps[0], r, log);
      ReachKeepsLinked(Apply(s, steps[0]), steps[1..], r, Track(s, steps[0], r, log));
    }
  }

  // ---------------------------------------------------------------------------
  // What is published
  // ---------------------------------------------------------------------------

  /** No event of the worker overtook run_queued. */
  predicate InOrder(log: Log, at: Option<Queueing>) { !(Overtaken(log, at) && log.told) }

  lemma PublishedInOrder(s: State, r: RunId, log: Log)
    requires RaceHolds(s, r, log) && Linked(s, r, log) && !log.dropped
    ensures Numbered(ChannelOf(s, r)) <==> InOrder(log, At(s, r))
    ensures InOrder(log, At(s, r)) ==> Behind(ListOf(s, r), ChannelOf(s, r))
  {
    hide TwoOnes, EarlyOne, FirstUnderWay, InStep;
    if !InOrder(log, At(s, r)) {
      OnesClash(ChannelOf(s, r));
    }
  }

  lemma CreatedIsKnown(steps: seq<Step>, step: Step, r: RunId)
    requires Creates(steps, step, r)
    ensures Known(Apply(Reach(START, steps), step), r, NOTHING_YET)
  {
    hide Inv, Apply, Resumable, ListHolds, RaceHolds, Creates;
    CreatedHolds(steps, step, r);
  }

  /** From the creation of a resumable run on, over any interleaving that does not delete its list: what was
      published is numbered 1..n if and only if no event that the worker numbered before run_queued was pushed
      was published besides run_queued. */
  lemma PublishedNumberedIff(steps: seq<Step>, step: Step, more: seq<Step>, r: RunId)
    requires Creates(steps, step, r)
    ensures var born := Apply(Reach(START, steps), step);
            var (s, log) := (Reach(born, more), TrackAll(born, more, r, NOTHING_YET));
            !log.dropped ==> (Numbered(ChannelOf(s, r)) <==> InOrder(log, At(s, r)))
  {
    hide Inv, Apply, Resumable, ListHolds, RaceHolds, Linked, Creates, Numbered, InOrder;
    CreatedIsKnown(steps, step, r);
    var s := Apply(Reach(START, steps), step);
    ReachKeepsLinked(s, more, r, NOTHING_YET);
    var log := TrackAll(s, more, r, NOTHING_YET);
    if !log.dropped {
      PublishedInOrder(Reach(s, more), r, log);
    }
  }

  // ---------------------------------------------------------------------------
  // The joiner
  // ---------------------------------------------------------------------------

  /** loadEvents: the list, or this replica's own memory when the list is empty. */
  function Loaded(list: seq<Event>, memory: seq<Event>): seq<Event>
  {
    if list == [] then memory else list
  }

  lemma PrefixIsNumbered(a: seq<Event>, b: seq<Event>)
    requires a <= b && Numbered(b)
    ensures Numbered(a)
  {
  }

  /** The list at an earlier moment, when the list is never deleted and what is published ends up numbered. */
  lemma EarlierIsBehind(s: State, more: seq<Step>, r: RunId, log: Log)
    requires Known(s, r, log)
    requires var log' := TrackAll(s, more, r, log); !log'.dropped && InOrder(log', At(Reach(s, more), r))
    ensures !log.dropped && InOrder(log, At(s, r)) && Behind(ListOf(s, r), ChannelOf(s, r))
    ensures Numbered(ChannelOf(Reach(s, more), r)) && ChannelOf(s, r) <= ChannelOf(Reach(s, more), r)
  {
    hide Inv, Resumable, ListHolds, RaceHolds, Linked, InOrder, ListOf, ChannelOf, Numbered, Behind;
    ReachKeepsLinked(s, more, r, log);
    var log' := TrackAll(s, more, r, log);
    PublishedInOrder(Reach(s, more), r, log');
    PublishedInOrder(s, r, log);
    PrefixIsNumbered(ChannelOf(s, r), ChannelOf(Reach(s, more), r));
  }

  /** A client that subscribes after `before`, loads after `during` and listens until after `arriving` is sent,
      in order and without duplicates, what it is owed of everything published, except at most the one event
      that was published before the subscription and not yet pushed at the load. It misses nothing exactly if there
      is no such event, it starts after that event, or what it loads ends the stream. The list must not have
      been deleted, and no event of the worker may have overtaken run_queued. */
  lemma JoinerIsOwed(s: State, log: Log, before: seq<Step>, during: seq<Step>, arriving: seq<Step>, r: RunId, start: int, memory: seq<Event>)
    requires Known(s, r, log)
    requires var (subscribed, log1) := (Reach(s, before), TrackAll(s, before, r, log));
             var (loaded, log2) := (Reach(subscribed, during), TrackAll(subscribed, during, r, log1));
             var (end, log3) := (Reach(loaded, arriving), TrackAll(loaded, arriving, r, log2));
             && !log3.dropped && InOrder(log3, At(end, r))
             // a replica remembers an event only after it has pushed it
             && (ListOf(loaded, r) == [] ==> memory == [])
    ensures var subscribed := Reach(s, before);
            var loaded := Reach(subscribed, during);
            var published := ChannelOf(Reach(loaded, arriving), r);
            var (p, q) := (|ChannelOf(subscribed, r)|, |ListOf(loaded, r)|);
            Numbered(published) && p <= |published| && q <= |published| && p <= q + 1 &&
            var delivered := Deliver(Loaded(ListOf(loaded, r), memory), start, Published(published[p..]));
            && delivered == Owed(Without(published, p, q), start)
            && (delivered == Owed(published, start) <==> p <= q || p < start || Ended(Owed(published[..q], start)))
  {
    hide Known, Reach, TrackAll, Deliver, Owed, ListOf, ChannelOf, InOrder, Numbered;
    var subscribed := Reach(s, before);
    var log1 := TrackAll(s, before, r, log);
    var loaded := Reach(subscribed, during);
    var log2 := TrackAll(subscribed, during, r, log1);
    ReachKeepsLinked(s, before, r, log);
    ReachKeepsLinked(subscribed, during, r, log1);
    EarlierIsBehind(loaded, arriving, r, log2);
    EarlierIsBehind(subscribed, during, r, log1);
    var published := ChannelOf(Reach(loaded, arriving), r);
    assert ListOf(loaded, r) == published[..|ListOf(loaded, r)|];
    JoinDelivers(published, |ChannelOf(subscribed, r)|, |ListOf(loaded, r)|, start);
    MissingIff(published, |ChannelOf(subscribed, r)|, |ListOf(loaded, r)|, start);
  }

  /** The same for every resumable run of the platform, from its creation on. */
  lemma JoiningARun(steps: seq<Step>, step: Step, before: seq<Step>, during: seq<Step>, arriving: seq<Step>, r: RunId, start: int)
    requires Creates(steps, step, r)
    requires var born := Apply(Reach(START, steps), step);
             var (subscribed, log1) := (Reach(born, before), TrackAll(born, before, r, NOTHING_YET));
             var (loaded, log2) := (Reach(subscribed, during), TrackAll(subscribed, during, r, log1));
             var (end, log3) := (Reach(loaded, arriving), TrackAll(loaded, arriving, r, log2));
             !log3.dropped && InOrder(log3, At(end, r))
    ensures var subscribed := Reach(Apply(Reach(START, steps), step), before);
            var loaded := Reach(subscribed, during);
            var published := ChannelOf(Reach(loaded, arriving), r);
            var (p, q) := (|ChannelOf(subscribed, r)|, |ListOf(loaded, r)|);
            Numbered(published) && p <= |published| && q <= |published| && p <= q + 1 &&
            var delivered := Deliver(ListOf(loaded, r), start, Published(published[p..]));
            && delivered == Owed(Without(published, p, q), start)
            && (delivered == Owed(published, start) <==> p <= q || p < start || Ended(Owed(published[..q], start)))
  {
    hide Known, Apply, Reach, TrackAll, Deliver, Owed, Without, Creates, InOrder, Numbered, ListOf, ChannelOf;
    CreatedIsKnown(steps, step, r);
    JoinerIsOwed(Apply(Reach(START, steps), step), NOTHING_YET, before, during, arriving, r, start, []);
  }

  // ---------------------------------------------------------------------------
  // The client that creates the run
  // ---------------------------------------------------------------------------

  /** Nothing was published before run_queued, unless the worker was faster. */
  ghost predicate QueuedFirst(s: State, r: RunId, log: Log)
  {
    !log.dropped ==> r in s.queueing || log.late || [QUEUED] <= ChannelOf(s, r)
  }

  lemma ApplyKeepsQueuedFirst(s: State, step: Step, r: RunId, log: Log)
    requires Resumable(s, r) && RaceHolds(s, r, log) && QueuedFirst(s, r, log)
    ensures QueuedFirst(Apply(s, step), r, Track(s, step, r, log))
  {
    hide ApiTables, ApiEnqueued, Creation, Remaining, WorkTables, WorkRedis, FirstUnderWay, ChannelOf, TwoOnes, HasOne, EarlyOne;
    ApplyGrows(s, step, r, log);
  }

  lemma {:induction false} ReachKeepsQueuedFirst(s: State, steps: seq<Step>, r: RunId, log: Log)
    requires Known(s, r, log) && QueuedFirst(s, r, log)
    ensures QueuedFirst(Reach(s, steps), r, TrackAll(s, steps, r, log))
    decreases |steps|
  {
    hide Inv, Resumable, ListHolds, RaceHolds, Linked, Apply, QueuedFirst, Track;
    if steps != [] {
      ApplyKeepsLinked(s, steps[0], r, log);
      ApplyKeepsQueuedFirst(s, steps[0], r, log);
      ReachKeepsQueuedFirst(Apply(s, steps[0]), steps[1..], r, Track(s, steps[0], r, log));
    }
  }

  /** A stream that starts with run_queued never writes another event with number 1. */
  lemma EarlyOneIsMissed(chan: seq<Event>, msgs: seq<Message>)
    requires EarlyOne(chan)
    ensures Deliver([QUEUED], 0, msgs) != Owed(chan, 0)
  {
    hide UpToTerminal, FilterFrom, Live, EarlyOne;
    var live := Live(1, 0, msgs);
    StartsWithQueued(msgs);
    LiveIsOrderly(1, 0, msgs);
    OwedStarts(chan);
    var owed := Owed(chan, 0);
    if chan[0] == QUEUED {
      assert ([QUEUED] + live)[1..] == live;
    }
  }

  lemma StartsWithQueued(msgs: seq<Message>)
    ensures Deliver([QUEUED], 0, msgs) == [QUEUED] + Live(1, 0, msgs)
  {
    hide Live;
    CutOfOne(QUEUED);
    assert [QUEUED][..0] == [];
    assert FilterFrom([QUEUED], 0) == [QUEUED];
  }

  lemma OwedFirst(e: Event, rest: seq<Event>)
    requires e.id == 1
    ensures Owed([e] + rest, 0) == [e] + if IsTerminal(e) then [] else Owed(rest, 0)
  {
    hide UpToTerminal, FilterFrom, IsTerminal;
    FilterAppends([e], rest, 0);
    FilterOfOne(e, 0);
    CutOfOne(e);
    CutOfAppend([e], FilterFrom(rest, 0));
    assert [e] + [] == [e];
  }

  lemma OwedStarts(chan: seq<Event>)
    requires EarlyOne(chan)
    ensures chan != [] && Owed(chan, 0) != []
    ensures chan[0] == QUEUED ==> |Owed(chan, 0)| > 1 && Owed(chan, 0)[1].id == 1
    ensures chan[0] != QUEUED ==> Owed(chan, 0)[0] != QUEUED
  {
    hide Owed, IsTerminal;
    var rest := chan[1..];
    assert chan == [chan[0]] + rest;
    OwedFirst(chan[0], rest);
    if chan[0] == QUEUED {
      QueuedGoesOn();
      assert rest == [chan[1]] + chan[2..];
      OwedFirst(chan[1], chan[2..]);
      assert ([QUEUED] + Owed(rest, 0))[1] == Owed(rest, 0)[0];
    }
  }

  lemma QueuedGoesOn()
    ensures !IsTerminal(QUEUED)
  {
  }

  /** What is published before run_queued was numbered first by the worker, and stays ahead of it. */
  lemma EarlyBeforeQueued(s: State, more: seq<Step>, r: RunId, log: Log)
    requires Known(s, r, log) && !log.dropped && r in s.queueing && s.queueing[r].ToPublish? && ChannelOf(s, r) != []
    ensures ChannelOf(s, r)[0].id == 1 && !ChannelOf(s, r)[0].name.RunQueued?
    ensures ChannelOf(s, r) <= ChannelOf(Reach(s, more), r)
  {
    hide Inv, Resumable, ListHolds, Linked, ChannelOf, ListOf, Reach, FirstUnderWay, TwoOnes, HasOne;
    ReachKeepsLinked(s, more, r, log);
  }

  /** The request that creates a streamed run subscribes after the creation and before run_queued is published, and
      starts its stream with that event. Unless the list is deleted, it is sent everything that is ever published of
      the run if and only if no event that the worker numbered before run_queued was pushed was published. */
  lemma CreatorIsOwedIff(steps: seq<Step>, step: Step, before: seq<Step>, more: seq<Step>, r: RunId)
    requires Creates(steps, step, r)
    requires var subscribed := Reach(Apply(Reach(START, steps), step), before);
             r in subscribed.queueing && subscribed.queueing[r].ToPublish? && r !in Reach(subscribed, more).queueing
    requires var born := Apply(Reach(START, steps), step);
             !TrackAll(Reach(born, before), more, r, TrackAll(born, before, r, NOTHING_YET)).dropped
    ensures var born := Apply(Reach(START, steps), step);
            var subscribed := Reach(born, before);
            var log := TrackAll(subscribed, more, r, TrackAll(born, before, r, NOTHING_YET));
            var published := ChannelOf(Reach(subscribed, more), r);
            var p := |ChannelOf(subscribed, r)|;
            p <= |published| &&
            (Deliver([QUEUED], 0, Published(published[p..])) == Owed(published, 0) <==> !(log.late && log.told))
  {
    hide Inv, Apply, Resumable, ListHolds, Linked, RaceHolds, Deliver, Owed, ChannelOf, Creates, ListOf, Known, QueuedFirst;
    CreatedIsKnown(steps, step, r);
    var born := Apply(Reach(START, steps), step);
    BornQueuedFirst(steps, step, before, r);
    ReachKeepsLinked(born, before, r, NOTHING_YET);
    var (s, log1) := (Reach(born, before), TrackAll(born, before, r, NOTHING_YET));
    ReachKeepsLinked(s, more, r, log1);
    ReachKeepsQueuedFirst(s, more, r, log1);
    CreatorHears(s, more, r, log1);
  }

  lemma BornQueuedFirst(steps: seq<Step>, step: Step, before: seq<Step>, r: RunId)
    requires var subscribed := Reach(Apply(Reach(START, steps), step), before); r in subscribed.queueing
    ensures var born := Apply(Reach(START, steps), step);
            QueuedFirst(Reach(born, before), r, TrackAll(born, before, r, NOTHING_YET))
  {
  }

  lemma CreatorHears(s: State, more: seq<Step>, r: RunId, log: Log)
    requires Known(s, r, log) && r in s.queueing && s.queueing[r].ToPublish? && r !in Reach(s, more).queueing
    requires var log' := TrackAll(s, more, r, log); !log'.dropped && (log.dropped ==> log'.dropped)
    requires Known(Reach(s, more), r, TrackAll(s, more, r, log)) && QueuedFirst(Reach(s, more), r, TrackAll(s, more, r, log))
    requires ChannelOf(s, r) <= ChannelOf(Reach(s, more), r)
    ensures var (log', published) := (TrackAll(s, more, r, log), ChannelOf(Reach(s, more), r));
            Deliver([QUEUED], 0, Published(published[|ChannelOf(s, r)|..])) == Owed(published, 0) <==> !(log'.late && log'.told)
  {
    hide Inv, Resumable, ListHolds, Linked, Deliver, Owed, ChannelOf, ListOf, Reach, TrackAll, FirstUnderWay, TwoOnes, HasOne, EarlyOne;
    var (s', log') := (Reach(s, more), TrackAll(s, more, r, log));
    var (heard, published) := (|ChannelOf(s, r)|, ChannelOf(s', r));
    PublishedInOrder(s', r, log');
    if InOrder(log', At(s', r)) {
      StartsQueued(s', r, log');
      if heard > 0 {
        EarlyBeforeQueued(s, more, r, log);
      }
      assert heard == 0;
      assert published[..1] == [QUEUED] && published[0..] == published;
      JoinDelivers(published, 0, 1, 0);
    } else {
      EarlyOneIsMissed(published, Published(published[heard..]));
    }
  }

  lemma StartsQueued(s: State, r: RunId, log: Log)
    requires RaceHolds(s, r, log) && QueuedFirst(s, r, log) && !log.dropped && r !in s.queueing && !(log.late && log.told)
    ensures [QUEUED] <= ChannelOf(s, r)
  {
    hide FirstUnderWay, TwoOnes, HasOne, EarlyOne;
  }
}
