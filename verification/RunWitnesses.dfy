// Concrete runs of the protocol: the exceptions in RunOvertaking, RunJoin and RunCancel can be
// reached. The API server's run_queued push is not ordered with the worker.

module RunWitnesses {
  import opened Basics
  import opened RunTables
  import opened StreamEvents
  import opened WorkerProgram
  import opened RunProtocol
  import opened RunLists
  import RunCancel
  import StreamServer

  const ROW := Run(None, Pending, true, false, 0)
  const PLAIN := Setup(NotUsed, false, true)
  const DONE := Result(Success, [])
  const STARTED := Event(1, RunStarted, "")

  lemma ReachNext(s: State, steps: seq<Step>, step: Step)
    ensures Reach(s, steps + [step]) == Apply(Reach(s, steps), step)
  {
    hide Apply;
    ReachAppend(s, steps, [step]);
    assert [step][1..] == [];
  }

  const BORN := [Api(CreateStatelessRun(ROW, true))]
  const CLAIMED := BORN + [ClaimRun(0, 0, PLAIN)]

  lemma Born()
    ensures var s := Reach(START, BORN);
            && s.tables == Tables(map[0 := ROW], {}, {}, map[], map[], 1)
            && s.queueing == map[0 := ToPublish(true)] && s.workers == map[]
            && s.redis == START.redis && s.claims == []
  {
    ReachNext(START, [], Api(CreateStatelessRun(ROW, true)));
    assert BORN == [] + [Api(CreateStatelessRun(ROW, true))];
  }

  lemma ClaimedHere()
    ensures var s := Reach(START, CLAIMED);
            && s.queueing == map[0 := ToPublish(true)] && s.redis == START.redis
            && s.tables == Tables(map[0 := ROW.(status := Running)], {}, {}, map[], map[], 1)
            && s.workers == map[0 := Worker(0, true, Begin(PLAIN))]
  {
    hide Begin;
    Born();
    ReachNext(START, BORN, ClaimRun(0, 0, PLAIN));
  }

  const STARTED_FIRST := CLAIMED + [Work(0, DONE), Work(0, DONE), Work(0, DONE)]

  lemma StartedFirst()
    ensures var s := Reach(START, STARTED_FIRST);
            s.queueing == map[0 := ToPublish(true)] && ListOf(s, 0) == [STARTED] == ChannelOf(s, 0)
  {
    ClaimedHere();
    var s0 := Reach(START, CLAIMED);
    var rest := Do(ReadCancelFirst(true), Stop);
    assert s0.workers[0].todo == Do(Notify(RunStarted), rest);
    var a := CLAIMED + [Work(0, DONE)];
    ReachNext(START, CLAIMED, Work(0, DONE));
    assert Reach(START, a).workers[0].todo == Do(PublishEvent(STARTED), Do(PushEvent(STARTED), rest));
    ReachNext(START, a, Work(0, DONE));
    var b := a + [Work(0, DONE)];
    assert Reach(START, b).workers[0].todo == Do(PushEvent(STARTED), rest);
    ReachNext(START, b, Work(0, DONE));
    assert STARTED_FIRST == b + [Work(0, DONE)];
  }

  const LATE := STARTED_FIRST + [Api(PublishQueued(0)), Api(PushQueued(0))]

  /** If run_queued is pushed after the worker's first event, two events of the list have number 1. */
  lemma LatePushBreaksNumbering()
    ensures ListOf(Reach(START, LATE), 0) == [STARTED, QUEUED] == ChannelOf(Reach(START, LATE), 0)
    ensures !Numbered(ListOf(Reach(START, LATE), 0)) && !Increasing(ListOf(Reach(START, LATE), 0))
  {
    hide Begin;
    StartedFirst();
    ReachNext(START, STARTED_FIRST, Api(PublishQueued(0)));
    var a := STARTED_FIRST + [Api(PublishQueued(0))];
    ReachNext(START, a, Api(PushQueued(0)));
    assert LATE == a + [Api(PushQueued(0))];
    var list := ListOf(Reach(START, LATE), 0);
    assert list[0].id == list[1].id == 1;
  }

  const CANCELLED := [Api(PublishQueued(0)), Api(SetCancelKey(0, CancelRollback)), Api(CancelRow(0, CancelRollback)), Api(DeleteList(0))]

  /** A rollback can be complete, with the worker still to read it, while run_queued is still to be pushed:
      the exception in RunCancel.ListGoneIff does occur. */
  lemma RollbackBeforeQueuedPush()
    ensures var s := Reach(START, CLAIMED + CANCELLED);
            && RunCancel.WorksOn(s, 0, 0) && RunCancel.Awaits(s.workers[0].todo)
            && CancelKey(s, 0) == Some(CancelRollback) && Stage(s.tables, 0) == 4
            && 0 in s.queueing && s.queueing[0] == ToPush(true) && ListOf(s, 0) == []
  {
    ClaimedHere();
    var a := CLAIMED + [CANCELLED[0]];
    var b := a + [CANCELLED[1]];
    var c := b + [CANCELLED[2]];
    ReachNext(START, CLAIMED, CANCELLED[0]);
    ReachNext(START, a, CANCELLED[1]);
    ReachNext(START, b, CANCELLED[2]);
    ReachNext(START, c, CANCELLED[3]);
    assert CLAIMED + CANCELLED == c + [CANCELLED[3]];
    assert RunCancel.Awaits(Begin(PLAIN)) by {
      assert RunCancel.Awaits(Do(ReadCancelFirst(true), Stop));
    }
  }

  /** A joiner does miss an event that lies between its publish and its push: it subscribes and loads while
      run_started is published but not pushed, and is never sent it. */
  lemma JoinerCanMissOne()
    ensures var subscribed := Reach(START, CLAIMED + [Work(0, DONE), Work(0, DONE)]);
            var later := Apply(subscribed, Work(0, DONE));
            && ChannelOf(subscribed, 0) == [STARTED] && ListOf(subscribed, 0) == []
            && ChannelOf(later, 0) == [STARTED] == ListOf(later, 0)
            && StreamServer.Deliver([], 0, StreamServer.Published(ChannelOf(later, 0)[1..])) == []
  {
    ClaimedHere();
    var s0 := Reach(START, CLAIMED);
    var rest := Do(ReadCancelFirst(true), Stop);
    assert s0.workers[0].todo == Do(Notify(RunStarted), rest);
    var a := CLAIMED + [Work(0, DONE)];
    ReachNext(START, CLAIMED, Work(0, DONE));
    assert Reach(START, a).workers[0].todo == Do(PublishEvent(STARTED), Do(PushEvent(STARTED), rest));
    ReachNext(START, a, Work(0, DONE));
    assert a + [Work(0, DONE)] == CLAIMED + [Work(0, DONE), Work(0, DONE)];
  }

  const CRON_CANCELLED := [Api(DispatchCron(0, 0, 0)), ClaimRun(0, 0, PLAIN), Api(SetCancelKey(0, CancelRollback)), Api(CancelRow(0, CancelRollback))]
  const CRON_ROW := Run(None, Running, false, false, 0)
  const CRON_TABLES := Tables(map[0 := CRON_ROW], {}, {}, map[], map[1 := CronExec(0, 0, 0, CronStatus.Queued)], 2)

  lemma CronCancelled()
    ensures var s := Reach(START, CRON_CANCELLED);
            && s.tables == CRON_TABLES && s.workers == map[0 := Worker(0, false, Begin(PLAIN))]
            && s.redis == START.redis.(cancel := map[0 := CancelRollback])
            && CancelRun(s.tables, 0, CancelRollback).Abort?
  {
    hide Begin;
    var a := [CRON_CANCELLED[0]];
    var b := a + [CRON_CANCELLED[1]];
    var c := b + [CRON_CANCELLED[2]];
    ReachNext(START, [], CRON_CANCELLED[0]);
    assert [] + [CRON_CANCELLED[0]] == a;
    assert Reach(START, a).tables == CRON_TABLES.(runs := map[0 := CRON_ROW.(status := Pending)]);
    ReachNext(START, a, CRON_CANCELLED[1]);
    assert Reach(START, b).tables == CRON_TABLES;
    ReachNext(START, b, CRON_CANCELLED[2]);
    CronRunStays(CRON_TABLES);
    ReachNext(START, c, CRON_CANCELLED[3]);
    assert CRON_CANCELLED == c + [CRON_CANCELLED[3]];
  }

  lemma CronRunStays(t: Tables)
    requires 0 in t.runs && 1 in t.cronExecs && t.cronExecs[1].run == 0
    ensures CancelRun(t, 0, CancelRollback).Abort? && RemoveRun(t, 0).Abort?
  {
    assert DeleteCheckpoints(t, {0}).cronExecs == t.cronExecs;
  }

  /** One statement of the only worker. */
  lemma OneStatement(steps: seq<Step>, run: RunId, resumable: bool, todo: Program)
    requires Reach(START, steps).workers == map[0 := Worker(run, resumable, todo)] && todo.Do? && !todo.head.Execute?
    ensures var (s, wk) := (Reach(START, steps), Worker(run, resumable, todo));
            var s' := Reach(START, steps + [Work(0, DONE)]);
            && s'.tables == WorkTables(s.tables, wk) && s'.redis == WorkRedis(s.redis, wk)
            && s'.workers == (if Remaining(s, wk, DONE).Stop? then map[] else map[0 := wk.(todo := Remaining(s, wk, DONE))])
  {
    hide Remaining, WorkTables, WorkRedis, Reach;
    ReachNext(START, steps, Work(0, DONE));
  }

  const AWAITING := Do(ReadCancelFirst(true), Stop)

  lemma CronRunStarts()
    ensures var w := Work(0, DONE);
            var s := Reach(START, CRON_CANCELLED + [w] + [w] + [w]);
            && s.tables == CRON_TABLES && s.workers == map[0 := Worker(0, false, AWAITING)]
            && s.redis == Redis(map[0 := CancelRollback], map[], map[0 := [STARTED]])
  {
    hide Reach, Apply, CancelRun;
    CronCancelled();
    BeginPlain();
    var w := Work(0, DONE);
    var (a, b) := (CRON_CANCELLED + [w], CRON_CANCELLED + [w] + [w]);
    OneStatement(CRON_CANCELLED, 0, false, Do(Notify(RunStarted), AWAITING));
    OneStatement(a, 0, false, Do(PublishEvent(STARTED), Do(PushEvent(STARTED), AWAITING)));
    OneStatement(b, 0, false, Do(PushEvent(STARTED), AWAITING));
    assert [] + [STARTED] == [STARTED];
    assert Reach(START, b).redis.channel == map[0 := [STARTED]];
  }

  const STUCK := CRON_CANCELLED + [Work(0, DONE)] + [Work(0, DONE)] + [Work(0, DONE)] + [Work(0, DONE)] + [Work(0, DONE)] + [Work(0, DONE)]

  /** The verdict Stuck of WorkerAlone.ExecutionDelivers is reached: the refused cancel of a cron run has set the key,
      the worker's delete is refused as well, and the run stays running without a worker and without a terminal event. */
  lemma CancelledCronRunIsStuck()
    ensures var s := Reach(START, STUCK);
            && s.tables == CRON_TABLES && s.workers == map[]
            && ChannelOf(s, 0) == [STARTED] && !IsTerminal(STARTED) && CancelKey(s, 0) == None
  {
    hide Reach, Apply, RemoveRun, CancelRun;
    CronRunStarts();
    CronRunStays(CRON_TABLES);
    var w := Work(0, DONE);
    var c := CRON_CANCELLED + [w] + [w] + [w];
    OneStatement(c, 0, false, AWAITING);
    OneStatement(c + [w], 0, false, Do(RollBack, Stop));
    OneStatement(c + [w] + [w], 0, false, Do(DropCancelKey, Stop));
    assert STUCK == c + [w] + [w] + [w];
  }

  lemma BeginPlain()
    ensures Begin(PLAIN) == Do(Notify(RunStarted), AWAITING)
  {
  }
}
