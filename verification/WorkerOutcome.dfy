// The whole of what one executeRun leaves, as a function of the answers it gets: rows, keys, list and
// channel (services/worker/internal/engine/engine.go:543-767). The reference is written without
// the worker's program; the theorem says that executing the program gives exactly it.

module WorkerOutcome {
  import opened Basics
  import opened RunTables
  import opened StreamEvents
  import opened WorkerProgram
  import opened RunProtocol
  import opened WorkerAlone
  import Text

  /** An event before it is numbered. */
  datatype Line = Line(name: Name, data: string)

  /** The events of these lines: numbered on from the list if the run is resumable, else all with the same number. */
  function Events(lines: seq<Line>, pushed: nat, resumable: bool): seq<Event>
  {
    seq(|lines|, k requires 0 <= k < |lines| => Event(if resumable then pushed + 1 + k else pushed + 1, lines[k].name, lines[k].data))
  }

  function Extend(m: map<RunId, seq<Event>>, r: RunId, events: seq<Event>): map<RunId, seq<Event>>
  {
    m[r := (if r in m then m[r] else []) + events]
  }

  /** Everything is published; the events of a resumable run are also pushed. */
  function Say(redis: Redis, r: RunId, resumable: bool, lines: seq<Line>): Redis
  {
    if lines == [] then redis
    else
      var list := if r in redis.lists then redis.lists[r] else [];
      var events := Events(lines, |list|, resumable);
      Redis(redis.cancel, if resumable then Extend(redis.lists, r, events) else redis.lists, Extend(redis.channel, r, events))
  }

  /** What the setup says: nothing when the sandbox fails. */
  function Progress(setup: Setup): seq<Line>
  {
    match setup.sandbox
    case AllocationFailed => []
    case Unavailable => []
    case Allocated => [Line(RunAllocated, ""), Line(RunStarted, "")]
    case NotUsed => [Line(RunStarted, "")]
  }

  /** In words. */
  lemma ProgressWords(setup: Setup)
    ensures var lines := Progress(setup);
            match setup.sandbox
            case Allocated => |lines| == 2 && lines[0].name.Wire() == "run_sandbox_allocated" && lines[1].name.Wire() == "run_started"
            case NotUsed => |lines| == 1 && lines[0].name.Wire() == "run_started"
            case _ => lines == []
  {
  }

  /** The executor's events under their trimmed names, without those whose name is blank. */
  function Relayed(events: seq<Draft>): seq<Line>
  {
    if events == [] then []
    else
      var (n, name) := (|events| - 1, Text.TrimSpace(events[|events| - 1].name));
      Relayed(events[..n]) + if name == "" then [] else [Line(Custom(name), events[n].data)]
  }

  /** The executor is asked, and its events are relayed unless the run is rolled back meanwhile. */
  predicate Asked(a: Answers)
  {
    && (a.setup.sandbox.Allocated? || a.setup.sandbox.NotUsed?) && !a.setup.envBroken
    && a.first == None && a.setup.executor && a.last != Some(CancelRollback)
  }

  function Before(a: Answers): seq<Line> { Progress(a.setup) + if Asked(a) then Relayed(a.result.events) else [] }

  /** The rows once the run has ended: its status, its cron records, one delivery if it asks for one and has none. */
  function EndedRows(t: Tables, r: RunId, status: Status): Tables
  {
    var due := r in t.runs && t.runs[r].webhook && forall d :: d in t.deliveries ==> t.deliveries[d] != r;
    Tables(
      if r in t.runs then t.runs[r := t.runs[r].(status := status)] else t.runs,
      t.threads,
      t.checkpoints,
      if due then t.deliveries[t.issued := r] else t.deliveries,
      map e | e in t.cronExecs ::
        if t.cronExecs[e].run == r then t.cronExecs[e].(status := Finished(status)) else t.cronExecs[e],
      if due then t.issued + 1 else t.issued)
  }

  /** The rows once the run is rolled back: it and its checkpoints are gone. */
  function ErasedRows(t: Tables, r: RunId): Tables
  {
    t.(runs := t.runs - {r}, checkpoints := set c | c in t.checkpoints && c.run != r)
  }

  function WithoutCancelKey(redis: Redis, r: RunId): Redis { redis.(cancel := redis.cancel - {r}) }

  function Outcome(l: Local, r: RunId, resumable: bool, a: Answers): Local
  {
    match Due(l.tables, r, a)
    case Ends(status, name) =>
      Local(EndedRows(l.tables, r, status), WithoutCancelKey(Say(l.redis, r, resumable, Before(a) + [Line(name, "")]), r))
    case Removed =>
      var said := Say(l.redis, r, resumable, Before(a) + [Line(RunRolledBack, "")]);
      Local(ErasedRows(l.tables, r), WithoutCancelKey(said.(lists := said.lists - {r}), r))
    case Stuck =>
      Local(l.tables, WithoutCancelKey(Say(l.redis, r, resumable, Before(a)), r))
  }

  // ---------------------------------------------------------------------------
  // Saying
  // ---------------------------------------------------------------------------

  lemma EmitSays(l: Local, r: RunId, resumable: bool, name: Name, data: string)
    ensures EmitNow(l, r, resumable, name, data) == l.(redis := Say(l.redis, r, resumable, [Line(name, data)]))
  {
    var list := if r in l.redis.lists then l.redis.lists[r] else [];
    assert Events([Line(name, data)], |list|, resumable) == [Event(|list| + 1, name, data)];
  }

  lemma EventsAppend(a: seq<Line>, b: seq<Line>, pushed: nat, resumable: bool)
    ensures Events(a + b, pushed, resumable) == Events(a, pushed, resumable) + Events(b, if resumable then pushed + |a| else pushed, resumable)
  {
  }

  lemma SaySay(redis: Redis, r: RunId, resumable: bool, a: seq<Line>, b: seq<Line>)
    ensures Say(Say(redis, r, resumable, a), r, resumable, b) == Say(redis, r, resumable, a + b)
  {
    if a == [] {
      assert a + b == b;
    } else if b == [] {
      assert a + b == a;
    } else {
      hide Events, Extend;
      var list := if r in redis.lists then redis.lists[r] else [];
      EventsAppend(a, b, |list|, resumable);
      var (ea, eb) := (Events(a, |list|, resumable), Events(b, if resumable then |list| + |a| else |list|, resumable));
      EventCount(a, |list|, resumable);
      ExtendTwice(redis.lists, r, ea, eb);
      ExtendTwice(redis.channel, r, ea, eb);
    }
  }

  lemma ExtendTwice(m: map<RunId, seq<Event>>, r: RunId, a: seq<Event>, b: seq<Event>)
    ensures Extend(Extend(m, r, a), r, b) == Extend(m, r, a + b)
    ensures r in Extend(m, r, a) && |Extend(m, r, a)[r]| == (if r in m then |m[r]| else 0) + |a|
  {
    var before := if r in m then m[r] else [];
    assert (before + a) + b == before + (a + b);
  }

  lemma EventCount(lines: seq<Line>, pushed: nat, resumable: bool)
    ensures |Events(lines, pushed, resumable)| == |lines|
  {
  }

  /** The cancel key plays no part in what is said. */
  lemma SayApart(l: Local, r: RunId, resumable: bool, key: Option<Action>, lines: seq<Line>)
    ensures Say(SeeKey(l, r, key).redis, r, resumable, lines).(cancel := l.redis.cancel - {r}) ==
            WithoutCancelKey(Say(l.redis, r, resumable, lines), r)
    ensures SeeKey(l, r, key).redis.cancel - {r} == l.redis.cancel - {r}
  {
    hide Events;
  }

  // ---------------------------------------------------------------------------
  // The ends of the program
  // ---------------------------------------------------------------------------

  lemma FinishEnds(l: Local, r: RunId, resumable: bool, status: Status, name: Name)
    ensures Play(l, r, resumable, Finish(status, name)) ==
            Local(EndedRows(l.tables, r, status), WithoutCancelKey(Say(l.redis, r, resumable, [Line(name, "")]), r))
  {
    hide EmitNow, Finish, Play, Say;
    PlayFinishIs(l, r, resumable, status, name);
    EmitSays(Local(SetCronStatus(SetStatus(l.tables, r, status), r, Finished(status)), l.redis), r, resumable, name, "");
    RowsEnd(l.tables, r, status, Say(l.redis, r, resumable, [Line(name, "")]));
  }

  lemma RowsEnd(t: Tables, r: RunId, status: Status, redis: Redis)
    ensures EnqueueNow(Local(SetCronStatus(SetStatus(t, r, status), r, Finished(status)), redis), r) ==
            Local(EndedRows(t, r, status), redis)
  {
  }

  lemma {:induction false} RelayedStarts(d: Draft, later: seq<Draft>)
    ensures Relayed([d] + later) == (if Text.TrimSpace(d.name) == "" then [] else [Line(Custom(Text.TrimSpace(d.name)), d.data)]) + Relayed(later)
    decreases |later|
  {
    hide Text.TrimSpace;
    var all := [d] + later;
    if later == [] {
      assert all[..0] == [] && all == [d];
    } else {
      var n := |later| - 1;
      assert all[..|all| - 1] == [d] + later[..n];
      RelayedStarts(d, later[..n]);
    }
  }

  lemma {:induction false} RelaySays(l: Local, r: RunId, resumable: bool, events: seq<Draft>, rest: Program)
    ensures Play(l, r, resumable, Relay(events, rest)) ==
            Play(l.(redis := Say(l.redis, r, resumable, Relayed(events))), r, resumable, rest)
    decreases |events|
  {
    hide EmitNow, Say, Text.TrimSpace, Text.Trim;
    if events == [] {
      NothingSaid(l.redis, r, resumable);
    } else {
      var name := Text.TrimSpace(events[0].name);
      RelayOne(l, r, resumable, events, rest);
      RelayedStarts(events[0], events[1..]);
      assert [events[0]] + events[1..] == events;
      SpaceTrim(events[0].name);
      if name == "" {
        RelaySays(l, r, resumable, events[1..], rest);
        assert [] + Relayed(events[1..]) == Relayed(events[1..]);
      } else {
        EmitSays(l, r, resumable, Custom(name), events[0].data);
        RelaySays(EmitNow(l, r, resumable, Custom(name), events[0].data), r, resumable, events[1..], rest);
        SaySay(l.redis, r, resumable, [Line(Custom(name), events[0].data)], Relayed(events[1..]));
      }
    }
  }

  lemma SpaceTrim(s: string)
    ensures Text.TrimSpace(s) == Text.Trim(s, Text.GoSpace)
  {
  }

  lemma NothingSaid(redis: Redis, r: RunId, resumable: bool)
    ensures Say(redis, r, resumable, []) == redis
  {
  }

  lemma RollBackEnds(l: Local, r: RunId, resumable: bool)
    ensures PlayRollBack(l, r, resumable) ==
            if HasDelivery(l.tables, r) || HasCronExec(l.tables, r) then Local(l.tables, WithoutCancelKey(l.redis, r))
            else
              var said := Say(l.redis, r, resumable, [Line(RunRolledBack, "")]);
              Local(ErasedRows(l.tables, r), WithoutCancelKey(said.(lists := said.lists - {r}), r))
  {
    hide EmitNow, Say, RemoveRun, Play, AfterRollBack, SetCronStatus, ErasedRows, HasDelivery, HasCronExec;
    RemoveRunSucceedsIff(l.tables, r);
    var tx := RemoveRun(l.tables, r);
    var l1 := l.(tables := After(l.tables, tx));
    if tx.Ok? {
      PlayRollBackIs(l1, r, resumable);
      RowsErased(l.tables, r);
      EmitSays(l1.(tables := SetCronStatus(l1.tables, r, RolledBack)), r, resumable, RunRolledBack, "");
    } else {
      PlayGiveUpIs(l1, r, resumable);
    }
  }

  lemma RowsErased(t: Tables, r: RunId)
    ensures RemoveRun(t, r).Ok? ==> SetCronStatus(RemoveRun(t, r).value, r, RolledBack) == ErasedRows(t, r)
  {
  }

  // ---------------------------------------------------------------------------
  // The whole execution
  // ---------------------------------------------------------------------------

  lemma StartedSays(l: Local, r: RunId, resumable: bool, setup: Setup)
    requires setup.sandbox.Allocated? || setup.sandbox.NotUsed?
    ensures Started(l, r, resumable, setup) == l.(redis := Say(l.redis, r, resumable, Progress(setup)))
  {
    hide EmitNow, Say;
    if setup.sandbox.Allocated? {
      EmitSays(l, r, resumable, RunAllocated, "");
      var l1 := EmitNow(l, r, resumable, RunAllocated, "");
      EmitSays(l1, r, resumable, RunStarted, "");
      SaySay(l.redis, r, resumable, [Line(RunAllocated, "")], [Line(RunStarted, "")]);
      assert [Line(RunAllocated, "")] + [Line(RunStarted, "")] == Progress(setup);
    } else {
      EmitSays(l, r, resumable, RunStarted, "");
    }
  }

  /** An end that is told after `lines`, with the cancel key read in between. */
  lemma EndsAfter(l: Local, r: RunId, resumable: bool, key: Option<Action>, lines: seq<Line>, status: Status, name: Name)
    ensures var l1 := SeeKey(l, r, key).(redis := Say(SeeKey(l, r, key).redis, r, resumable, lines));
            Play(l1, r, resumable, Finish(status, name)) ==
            Local(EndedRows(l.tables, r, status), WithoutCancelKey(Say(l.redis, r, resumable, lines + [Line(name, "")]), r))
  {
    hide Say, Play, Finish, EndedRows, SeeKey;
    var l0 := SeeKey(l, r, key);
    FinishEnds(l0.(redis := Say(l0.redis, r, resumable, lines)), r, resumable, status, name);
    SaySay(l0.redis, r, resumable, lines, [Line(name, "")]);
    SayKeepsCancel(l0.redis, r, resumable, lines + [Line(name, "")]);
    SayApart(l, r, resumable, key, lines + [Line(name, "")]);
  }

  lemma SayKeepsCancel(redis: Redis, r: RunId, resumable: bool, lines: seq<Line>)
    ensures Say(redis, r, resumable, lines).cancel == redis.cancel
  {
  }

  lemma RollsBackAfter(l: Local, r: RunId, resumable: bool, key: Option<Action>)
    ensures PlayRollBack(SeeKey(l, r, key), r, resumable) ==
            if HasDelivery(l.tables, r) || HasCronExec(l.tables, r) then Local(l.tables, WithoutCancelKey(l.redis, r))
            else
              var said := Say(l.redis, r, resumable, [Line(RunRolledBack, "")]);
              Local(ErasedRows(l.tables, r), WithoutCancelKey(said.(lists := said.lists - {r}), r))
  {
    hide Say, PlayRollBack, ErasedRows, HasDelivery, HasCronExec;
    var l0 := SeeKey(l, r, key);
    RollBackEnds(l0, r, resumable);
    SayApart(l, r, resumable, key, [Line(RunRolledBack, "")]);
    SayKeepsCancel(l0.redis, r, resumable, [Line(RunRolledBack, "")]);
    SayKeepsCancel(l.redis, r, resumable, [Line(RunRolledBack, "")]);
  }

  /** Executing the worker's program, whatever it is answered, leaves exactly the outcome: status, cron records,
      delivery, events in their order with their numbers, list, cancel key, and nothing else changed. */
  lemma ExecutionIsOutcome(l: Local, r: RunId, resumable: bool, a: Answers)
    ensures Execution(l, r, resumable, a) == Outcome(l, r, resumable, a)
  {
    hide Execution, Say, EndedRows, ErasedRows, EmitNow, Finish, Play, SeeKey, PlayRollBack, HasDelivery, HasCronExec, Relayed, Started;
    hide AfterExecutor, WithoutCancelKey;
    ExecutionUnfolds(l, r, resumable, a);
    if a.setup.sandbox.AllocationFailed? {
      FinishEnds(l, r, resumable, Error, RunAllocationFailed);
      assert Before(a) + [Line(RunAllocationFailed, "")] == [Line(RunAllocationFailed, "")];
    } else if a.setup.sandbox.Unavailable? {
      FinishEnds(l, r, resumable, Error, RunFailed);
      assert Before(a) + [Line(RunFailed, "")] == [Line(RunFailed, "")];
    } else {
      StartedSays(l, r, resumable, a.setup);
      var l1 := Started(l, r, resumable, a.setup);
      assert l1 == l.(redis := Say(l.redis, r, resumable, Progress(a.setup)));
      if a.setup.envBroken {
        FinishEnds(l1, r, resumable, Error, RunFailed);
        SaySay(l.redis, r, resumable, Progress(a.setup), [Line(RunFailed, "")]);
        assert Before(a) == Progress(a.setup);
      } else {
        FromFirstRead(l, l1, r, resumable, a);
      }
    }
  }

  lemma FromFirstRead(l: Local, l1: Local, r: RunId, resumable: bool, a: Answers)
    requires (a.setup.sandbox.Allocated? || a.setup.sandbox.NotUsed?) && !a.setup.envBroken
    requires l1 == l.(redis := Say(l.redis, r, resumable, Progress(a.setup)))
    ensures AfterFirst(SeeKey(l1, r, a.first), r, resumable, a) == Outcome(l, r, resumable, a)
  {
    hide Say, EndedRows, ErasedRows, EmitNow, Finish, Play, SeeKey, PlayRollBack, HasDelivery, HasCronExec, Relayed;
    hide AfterExecutor, WithoutCancelKey;
    var progress := Progress(a.setup);
    if a.first.Some? || !a.setup.executor {
      assert Before(a) == progress;
    }
    match a.first
    case Some(CancelRollback) =>
      RollsBackAfter(l1, r, resumable, a.first);
      ErasedAfter(l, r, resumable, progress);
    case Some(CancelInterrupt) => EndedOnFirstRead(l, l1, r, resumable, a.first, progress, Interrupted, RunInterrupted);
    case None =>
      if a.setup.executor {
        FromLastRead(l, l1, r, resumable, a);
      } else {
        EndedOnFirstRead(l, l1, r, resumable, a.first, progress, Error, RunFailed);
      }
  }

  lemma EndedOnFirstRead(l: Local, l1: Local, r: RunId, resumable: bool, key: Option<Action>, progress: seq<Line>, status: Status, name: Name)
    requires l1 == l.(redis := Say(l.redis, r, resumable, progress))
    ensures Play(SeeKey(l1, r, key), r, resumable, Finish(status, name)) ==
            Local(EndedRows(l.tables, r, status), WithoutCancelKey(Say(l.redis, r, resumable, progress + [Line(name, "")]), r))
  {
    hide Say, EndedRows, Finish, Play, SeeKey, WithoutCancelKey;
    var l2 := SeeKey(l1, r, key);
    EndsAfter(l1, r, resumable, key, [], status, name);
    NothingSaid(l2.redis, r, resumable);
    assert [] + [Line(name, "")] == [Line(name, "")];
    SaySay(l.redis, r, resumable, progress, [Line(name, "")]);
    assert l2.(redis := l2.redis) == l2;
  }

  /** What a rollback leaves does not depend on the order of saying and reading. */
  lemma ErasedAfter(l: Local, r: RunId, resumable: bool, lines: seq<Line>)
    ensures var l1 := Say(l.redis, r, resumable, lines);
            Say(l1, r, resumable, [Line(RunRolledBack, "")]) == Say(l.redis, r, resumable, lines + [Line(RunRolledBack, "")])
  {
    SaySay(l.redis, r, resumable, lines, [Line(RunRolledBack, "")]);
  }

  lemma FromLastRead(l: Local, l1: Local, r: RunId, resumable: bool, a: Answers)
    requires (a.setup.sandbox.Allocated? || a.setup.sandbox.NotUsed?) && !a.setup.envBroken && a.first == None && a.setup.executor
    requires l1 == l.(redis := Say(l.redis, r, resumable, Progress(a.setup)))
    ensures AfterExecutor(SeeKey(l1, r, a.first), r, resumable, a) == Outcome(l, r, resumable, a)
  {
    hide Say, EndedRows, ErasedRows, EmitNow, Finish, Play, SeeKey, PlayRollBack, HasDelivery, HasCronExec, Relayed, Relay, WithoutCancelKey;
    var progress := Progress(a.setup);
    SeenTwice(l1, r, a.first, a.last);
    var l2 := SeeKey(l1, r, a.last);
    if a.last == Some(CancelRollback) {
      RollsBackAfter(l1, r, resumable, a.last);
      ErasedAfter(l, r, resumable, progress);
      assert Before(a) == progress;
    } else {
      var (status, name) := if a.last.Some? then (Interrupted, RunInterrupted) else (a.result.status, TerminalName(a.result.status));
      var relayed := Relayed(a.result.events);
      RelaySays(l2, r, resumable, a.result.events, Finish(status, name));
      EndsAfter(l1, r, resumable, a.last, relayed, status, name);
      SaySay(l.redis, r, resumable, progress, relayed + [Line(name, "")]);
      assert progress + (relayed + [Line(name, "")]) == (progress + relayed) + [Line(name, "")];
      assert a.last.Some? ==> a.last.value == CancelInterrupt;
    }
  }

  lemma SeenTwice(l: Local, r: RunId, first: Option<Action>, last: Option<Action>)
    ensures SeeKey(SeeKey(l, r, first), r, last) == SeeKey(l, r, last)
  {
  }
}
