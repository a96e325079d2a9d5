// One executeRun from start to end (services/worker/internal/engine/engine.go:543-767),
// with nobody interfering but through the cancel key: what it leaves in the tables and
// what it tells the stream.

module WorkerAlone {
  import opened Basics
  import opened RunTables
  import opened StreamEvents
  import opened WorkerProgram
  import opened RunProtocol
  import opened RunLists
  import Text

  datatype Local = Local(tables: Tables, redis: Redis)

  function Channel(l: Local, r: RunId): seq<Event> { Get(l.redis.channel, r, []) }

  function EmitNow(l: Local, r: RunId, resumable: bool, name: Name, data: string): Local
  {
    var e := Event(|Get(l.redis.lists, r, [])| + 1, name, data);
    var redis := l.redis.(channel := Append(l.redis.channel, r, e));
    l.(redis := if resumable then redis.(lists := Append(redis.lists, r, e)) else redis)
  }

  function EnqueueNow(l: Local, r: RunId): Local
  {
    var t := l.tables;
    if r in t.runs && t.runs[r].webhook && !HasDelivery(t, r) then l.(tables := After(t, InsertDelivery(t, r))) else l
  }

  /** The program up to its branch, each action at once. */
  function Play(l: Local, r: RunId, resumable: bool, p: Program): Local
    decreases p
  {
    if p.Stop? || Branch(p.head) then l
    else
      var wk := Worker(r, resumable, p);
      var l' :=
        match p.head
        case Emit(name, data) => EmitNow(l, r, resumable, name, data)
        case EnqueueWebhook(_) => EnqueueNow(l, r)
        case _ => Local(WorkTables(l.tables, wk), WorkRedis(l.redis, wk));
      Play(l', r, resumable, p.rest)
  }

  /** The branch at which the program ends, if it has one. */
  function BranchAhead(p: Program): Option<Instr>
  {
    if p.Stop? then None else if Branch(p.head) then Some(p.head) else BranchAhead(p.rest)
  }

  function PlayRollBack(l: Local, r: RunId, resumable: bool): Local
  {
    var tx := RemoveRun(l.tables, r);
    Play(l.(tables := After(l.tables, tx)), r, resumable, AfterRollBack(tx.Ok?))
  }

  /** What the environment answers: the setup, the two reads of the cancel key, the executor. */
  datatype Answers = Answers(setup: Setup, first: Option<Action>, result: Result, last: Option<Action>)

  /** By the time the worker reads the cancel key, others have left `key` in it. */
  function SeeKey(l: Local, r: RunId, key: Option<Action>): (l': Local)
    ensures l'.tables == l.tables && l'.redis.lists == l.redis.lists && l'.redis.channel == l.redis.channel
    ensures key == (if r in l'.redis.cancel then Some(l'.redis.cancel[r]) else None)
  {
    var keys := l.redis.cancel;
    l.(redis := l.redis.(cancel := if key.Some? then keys[r := key.value] else keys - {r}))
  }

  function AfterExecutor(l0: Local, r: RunId, resumable: bool, a: Answers): Local
  {
    var l := SeeKey(l0, r, a.last);
    var p := AfterLastRead(a.last, a.result);
    if a.last == Some(CancelRollback) then PlayRollBack(l, r, resumable) else Play(l, r, resumable, p)
  }

  function Execution(l: Local, r: RunId, resumable: bool, a: Answers): Local
  {
    var l0 := Play(l, r, resumable, Begin(a.setup));
    var l1 := SeeKey(l0, r, a.first);
    match BranchAhead(Begin(a.setup))
    case None => l0
    case Some(_) =>
      if a.first == Some(CancelRollback) then PlayRollBack(l1, r, resumable)
      else if a.first == None && a.setup.executor then AfterExecutor(l1, r, resumable, a)
      else Play(l1, r, resumable, AfterFirstRead(a.first, a.setup.executor))
  }

  // ---------------------------------------------------------------------------
  // What one program says and leaves
  // ---------------------------------------------------------------------------

  predicate NoneTerminal(s: seq<Event>) { forall e :: e in s ==> !IsTerminal(e) }

  /** What was published between two moments. */
  function News(l: Local, l': Local, r: RunId): seq<Event>
  {
    if Channel(l, r) <= Channel(l', r) then Channel(l', r)[|Channel(l, r)|..] else []
  }

  predicate Later(l: Local, l': Local, r: RunId) { Channel(l, r) <= Channel(l', r) }

  lemma NewsAdd(l: Local, l1: Local, l2: Local, r: RunId)
    requires Later(l, l1, r) && Later(l1, l2, r)
    ensures Later(l, l2, r) && News(l, l2, r) == News(l, l1, r) + News(l1, l2, r)
  {
  }

  function NumberedEvent(l: Local, r: RunId, name: Name, data: string): Event
  {
    Event(|Get(l.redis.lists, r, [])| + 1, name, data)
  }

  lemma EmitIsNews(l: Local, r: RunId, resumable: bool, name: Name, data: string)
    ensures var l' := EmitNow(l, r, resumable, name, data);
            Later(l, l', r) && News(l, l', r) == [NumberedEvent(l, r, name, data)] && l'.tables == l.tables
  {
  }

  /** Only events that do not end the stream, and nothing done to the tables. */
  predicate Preamble(p: Program)
  {
    p.Do? && !Branch(p.head) ==> p.head.Emit? && !p.head.name.EndsStream() && Preamble(p.rest)
  }

  lemma {:induction false} PlayPreamble(l: Local, r: RunId, resumable: bool, p: Program)
    requires Preamble(p)
    ensures var l' := Play(l, r, resumable, p);
            l'.tables == l.tables && Later(l, l', r) && NoneTerminal(News(l, l', r))
    decreases p
  {
    hide EmitNow, News, Later, Channel;
    if p.Do? && !Branch(p.head) {
      var l1 := EmitNow(l, r, resumable, p.head.name, p.head.data);
      var l2 := Play(l1, r, resumable, p.rest);
      EmitIsNews(l, r, resumable, p.head.name, p.head.data);
      PlayPreamble(l1, r, resumable, p.rest);
      NewsAdd(l, l1, l2, r);
    } else {
      NoNews(l, r);
    }
  }

  lemma NoNews(l: Local, r: RunId)
    ensures Later(l, l, r) && News(l, l, r) == []
  {
  }

  /** The stream is told exactly once, and last, how the run ended; run row, cron row and event agree; a webhook
      is due exactly if the run asks for one, and the cancel key is gone. */
  ghost predicate Concluded(l: Local, l': Local, r: RunId, status: Status, name: Name)
  {
    var news := News(l, l', r);
    && Later(l, l', r)
    && Ended(news) && EndsOnce(news) && news[|news| - 1].name == name
    && l'.tables.runs == (if r in l.tables.runs then l.tables.runs[r := l.tables.runs[r].(status := status)] else l.tables.runs)
    && (forall e :: e in l'.tables.cronExecs && l'.tables.cronExecs[e].run == r ==> l'.tables.cronExecs[e].status == Finished(status))
    && (HasDelivery(l'.tables, r) <==> HasDelivery(l.tables, r) || (r in l.tables.runs && l.tables.runs[r].webhook))
    && r !in l'.redis.cancel
  }

  /** Finish, spelled out. */
  function FinishNow(l: Local, r: RunId, resumable: bool, status: Status, name: Name): Local
  {
    var written := Local(SetCronStatus(SetStatus(l.tables, r, status), r, Finished(status)), l.redis);
    var told := EnqueueNow(EmitNow(written, r, resumable, name, ""), r);
    Local(told.tables, told.redis.(cancel := told.redis.cancel - {r}))
  }

  lemma PlayFinishIs(l: Local, r: RunId, resumable: bool, status: Status, name: Name)
    ensures Play(l, r, resumable, Finish(status, name)) == FinishNow(l, r, resumable, status, name)
  {
    hide EmitNow, EnqueueNow, SetStatus, SetCronStatus;
    var last := Do(DropCancelKey, Stop);
    var closing := Do(Notify(name), Do(EnqueueWebhook(ReadUrl), last));
    var written := Local(SetCronStatus(SetStatus(l.tables, r, status), r, Finished(status)), l.redis);
    var told := EmitNow(written, r, resumable, name, "");
    assert Play(l, r, resumable, Finish(status, name)) == Play(written, r, resumable, closing);
    assert Play(written, r, resumable, closing) == Play(EnqueueNow(told, r), r, resumable, last);
  }

  lemma PlayFinish(l: Local, r: RunId, resumable: bool, status: Status, name: Name)
    requires name.EndsStream()
    ensures Concluded(l, Play(l, r, resumable, Finish(status, name)), r, status, name)
  {
    hide SetStatus, EnqueueNow, EmitNow;
    PlayFinishIs(l, r, resumable, status, name);
    var written := Local(SetCronStatus(SetStatus(l.tables, r, status), r, Finished(status)), l.redis);
    var told := EmitNow(written, r, resumable, name, "");
    EmitIsNews(written, r, resumable, name, "");
    EnqueueAdds(told, r);
    StatusKeepsWebhook(l.tables, r, status);
  }

  lemma EnqueueAdds(l: Local, r: RunId)
    ensures var l' := EnqueueNow(l, r);
            && l'.redis == l.redis && l'.tables.runs == l.tables.runs && l'.tables.cronExecs == l.tables.cronExecs
            && (HasDelivery(l'.tables, r) <==> HasDelivery(l.tables, r) || (r in l.tables.runs && l.tables.runs[r].webhook))
  {
    var t := l.tables;
    if r in t.runs && t.runs[r].webhook && !HasDelivery(t, r) {
      assert EnqueueNow(l, r).tables.deliveries[t.issued] == r;
    }
  }

  lemma StatusKeepsWebhook(t: Tables, r: RunId, status: Status)
    ensures var t' := SetCronStatus(SetStatus(t, r, status), r, Finished(status));
            && t'.runs == (if r in t.runs then t.runs[r := t.runs[r].(status := status)] else t.runs)
            && (r in t'.runs <==> r in t.runs) && (r in t.runs ==> t'.runs[r].webhook == t.runs[r].webhook)
            && (HasDelivery(t', r) <==> HasDelivery(t, r))
  {
  }

  /** Progress events beforehand do not change how a run concludes. */
  lemma ConcludedAfter(l: Local, l1: Local, l2: Local, r: RunId, status: Status, name: Name)
    requires l1.tables == l.tables && Later(l, l1, r) && NoneTerminal(News(l, l1, r))
    requires Concluded(l1, l2, r, status, name)
    ensures Concluded(l, l2, r, status, name)
  {
    hide News, Later, IsTerminal, HasDelivery;
    NewsAdd(l, l1, l2, r);
    var (a, b) := (News(l, l1, r), News(l1, l2, r));
    forall i | 0 <= i < |a + b| - 1 ensures !IsTerminal((a + b)[i]) {
      if i < |a| {
        assert a[i] in a;
      } else {
        assert (a + b)[i] == b[i - |a|];
      }
    }
  }

  lemma {:induction false} PlayRelay(l: Local, r: RunId, resumable: bool, events: seq<Draft>, status: Status, name: Name)
    requires name.EndsStream()
    requires forall d :: d in events ==> !IsTerminalText(Text.Trim(d.name, Text.GoSpace))
    ensures Concluded(l, Play(l, r, resumable, Relay(events, Finish(status, name))), r, status, name)
    decreases events
  {
    hide Concluded, EmitNow, Finish, News, Later, IsTerminalText, Text.Trim;
    if events == [] {
      PlayFinish(l, r, resumable, status, name);
    } else {
      assert events[0] in events;
      var text := Text.Trim(events[0].name, Text.GoSpace);
      if text == "" {
        PlayRelay(l, r, resumable, events[1..], status, name);
      } else {
        var l1 := EmitNow(l, r, resumable, Custom(text), events[0].data);
        EmitIsNews(l, r, resumable, Custom(text), events[0].data);
        PlayRelay(l1, r, resumable, events[1..], status, name);
        var l2 := Play(l1, r, resumable, Relay(events[1..], Finish(status, name)));
        ConcludedAfter(l, l1, l2, r, status, name);
      }
    }
  }

  // ---------------------------------------------------------------------------
  // The whole execution
  // ---------------------------------------------------------------------------

  datatype Verdict = Ends(status: Status, name: Name) | Removed | Stuck

  predicate WantsRollback(a: Answers)
  {
    a.first == Some(CancelRollback) || (a.first == None && a.setup.executor && a.last == Some(CancelRollback))
  }

  /** How the execution must come out, read off the answers: a failing setup decides before the cancel key
      does, the cancel key before the executor. A rollback gets stuck exactly on a foreign key. */
  function Due(t: Tables, r: RunId, a: Answers): Verdict
  {
    if a.setup.sandbox.AllocationFailed? then Ends(Error, RunAllocationFailed)
    else if a.setup.sandbox.Unavailable? || a.setup.envBroken then Ends(Error, RunFailed)
    else if WantsRollback(a) then (if HasDelivery(t, r) || HasCronExec(t, r) then Stuck else Removed)
    else if a.first.Some? then Ends(Interrupted, RunInterrupted)
    else if !a.setup.executor then Ends(Error, RunFailed)
    else if a.last.Some? then Ends(Interrupted, RunInterrupted)
    else
      match a.result.status
      case Success => Ends(Success, RunCompleted)
      case Interrupted => Ends(Interrupted, RunInterrupted)
      case status => Ends(status, RunFailed)
  }

  ghost predicate Erased(l: Local, l': Local, r: RunId)
  {
    var news := News(l, l', r);
    && Later(l, l', r)
    && Ended(news) && EndsOnce(news) && news[|news| - 1].name == RunRolledBack
    && r !in l'.tables.runs && r !in l'.redis.lists && r !in l'.redis.cancel
    && (forall c :: c in l'.tables.checkpoints ==> c.run != r)
  }

  ghost predicate Delivered(l: Local, l': Local, r: RunId, v: Verdict)
  {
    match v
    case Ends(status, name) => Concluded(l, l', r, status, name)
    case Removed => Erased(l, l', r)
    case Stuck => Later(l, l', r) && NoneTerminal(News(l, l', r)) && l'.tables == l.tables && r !in l'.redis.cancel
  }

  lemma RemoveRunSucceedsIff(t: Tables, r: RunId)
    ensures RemoveRun(t, r).Ok? <==> !HasDelivery(t, r) && !HasCronExec(t, r)
    ensures RemoveRun(t, r).Ok? ==> r !in RemoveRun(t, r).value.runs && !HasCronExec(RemoveRun(t, r).value, r)
    ensures RemoveRun(t, r).Ok? ==> forall c :: c in RemoveRun(t, r).value.checkpoints ==> c.run != r
  {
  }

  lemma PlayRollBackDelivers(l: Local, r: RunId, resumable: bool)
    ensures Delivered(l, PlayRollBack(l, r, resumable), r,
                      if HasDelivery(l.tables, r) || HasCronExec(l.tables, r) then Stuck else Removed)
  {
    hide EmitNow, RemoveRun, News, Later, SetCronStatus;
    RemoveRunSucceedsIff(l.tables, r);
    var tx := RemoveRun(l.tables, r);
    var l1 := l.(tables := After(l.tables, tx));
    if tx.Ok? {
      var l2 := l1.(tables := SetCronStatus(l1.tables, r, RolledBack));
      var l3 := EmitNow(l2, r, resumable, RunRolledBack, "");
      EmitIsNews(l2, r, resumable, RunRolledBack, "");
      PlayRollBackIs(l1, r, resumable);
      SameChannel(l, l2, l3, PlayRollBack(l, r, resumable), r);
      CronOnly(l1.tables, r);
    } else {
      PlayGiveUpIs(l1, r, resumable);
      NoNews(l, r);
      SameChannel(l, l, l, PlayRollBack(l, r, resumable), r);
    }
  }

  lemma CronOnly(t: Tables, r: RunId)
    ensures var t' := SetCronStatus(t, r, RolledBack); t'.runs == t.runs && t'.checkpoints == t.checkpoints
  {
  }

  /** News depends on the channels only. */
  lemma SameChannel(l: Local, l': Local, m: Local, m': Local, r: RunId)
    requires Channel(l, r) == Channel(l', r) && Channel(m, r) == Channel(m', r)
    ensures Later(l, m', r) == Later(l', m, r) && News(l, m', r) == News(l', m, r)
  {
  }

  lemma PlayRollBackIs(l1: Local, r: RunId, resumable: bool)
    ensures var l2 := l1.(tables := SetCronStatus(l1.tables, r, RolledBack));
            var l3 := EmitNow(l2, r, resumable, RunRolledBack, "");
            Play(l1, r, resumable, AfterRollBack(true)) ==
            l3.(redis := l3.redis.(lists := l3.redis.lists - {r}, cancel := l3.redis.cancel - {r}))
  {
    hide EmitNow, SetCronStatus;
    var l2 := l1.(tables := SetCronStatus(l1.tables, r, RolledBack));
    var l3 := EmitNow(l2, r, resumable, RunRolledBack, "");
    var l4 := l3.(redis := l3.redis.(lists := l3.redis.lists - {r}));
    var last := Do(DropCancelKey, Stop);
    assert Play(l2, r, resumable, Do(Notify(RunRolledBack), Do(DropList, last))) == Play(l4, r, resumable, last);
  }

  lemma PlayGiveUpIs(l: Local, r: RunId, resumable: bool)
    ensures Play(l, r, resumable, AfterRollBack(false)) == l.(redis := l.redis.(cancel := l.redis.cancel - {r}))
  {
  }

  /** What follows a silent preamble decides. */
  lemma DeliveredAfter(l: Local, l1: Local, l2: Local, r: RunId, v: Verdict)
    requires l1.tables == l.tables && Later(l, l1, r) && NoneTerminal(News(l, l1, r))
    requires Delivered(l1, l2, r, v)
    ensures Delivered(l, l2, r, v)
  {
    hide News, Later;
    NewsAdd(l, l1, l2, r);
    var (a, b) := (News(l, l1, r), News(l1, l2, r));
    forall i | 0 <= i < |a| ensures !IsTerminal(a[i]) {
      assert a[i] in a;
    }
  }

  lemma AfterExecutorDelivers(l: Local, r: RunId, resumable: bool, a: Answers)
    requires LegalResult(a.result) && a.setup.executor && a.first == None
    requires a.setup.sandbox.Allocated? || a.setup.sandbox.NotUsed?
    requires !a.setup.envBroken
    ensures Delivered(l, AfterExecutor(l, r, resumable, a), r, Due(l.tables, r, a))
  {
    hide Concluded, Erased, PlayRollBack, Relay, Finish, HasDelivery, HasCronExec, News, Later, Text.Trim, IsTerminalText;
    var l1 := SeeKey(l, r, a.last);
    SeeKeyIsSilent(l, r, a.last);
    if a.last == Some(CancelRollback) {
      PlayRollBackDelivers(l1, r, resumable);
    } else {
      var status := if a.last == Some(CancelInterrupt) then Interrupted else a.result.status;
      PlayRelay(l1, r, resumable, a.result.events, status, TerminalName(status));
      assert AfterLastRead(a.last, a.result) == Relay(a.result.events, Finish(status, TerminalName(status)));
      assert a.last.Some? ==> a.last.value == CancelInterrupt;
      assert Due(l.tables, r, a) == Ends(status, TerminalName(status));
      ConcludedIsDelivered(l1, AfterExecutor(l, r, resumable, a), r, Ends(status, TerminalName(status)));
    }
    DeliveredAfter(l, l1, AfterExecutor(l, r, resumable, a), r, Due(l.tables, r, a));
  }

  lemma SeeKeyIsSilent(l: Local, r: RunId, key: Option<Action>)
    ensures var l' := SeeKey(l, r, key); l'.tables == l.tables && Later(l, l', r) && News(l, l', r) == []
  {
  }

  lemma BeginDelivers(l: Local, r: RunId, resumable: bool, setup: Setup)
    ensures var l' := Play(l, r, resumable, Begin(setup));
            if setup.sandbox.AllocationFailed? then
              BranchAhead(Begin(setup)).None? && Concluded(l, l', r, Error, RunAllocationFailed)
            else if setup.sandbox.Unavailable? || setup.envBroken then
              BranchAhead(Begin(setup)).None? && Concluded(l, l', r, Error, RunFailed)
            else
              BranchAhead(Begin(setup)).Some? && l'.tables == l.tables && Later(l, l', r) && NoneTerminal(News(l, l', r))
  {
    hide Concluded, EmitNow, News, Later;
    FinishHasNoBranch(Error, RunAllocationFailed);
    FinishHasNoBranch(Error, RunFailed);
    if setup.sandbox.AllocationFailed? {
      PlayFinish(l, r, resumable, Error, RunAllocationFailed);
    } else if setup.sandbox.Unavailable? {
      PlayFinish(l, r, resumable, Error, RunFailed);
    } else if setup.sandbox.Allocated? {
      var l1 := EmitNow(l, r, resumable, RunAllocated, "");
      EmitIsNews(l, r, resumable, RunAllocated, "");
      AfterSandboxDelivers(l1, r, resumable, setup);
      var l2 := Play(l1, r, resumable, AfterSandbox(setup));
      if setup.envBroken {
        ConcludedAfter(l, l1, l2, r, Error, RunFailed);
      } else {
        NewsAdd(l, l1, l2, r);
      }
    } else {
      AfterSandboxDelivers(l, r, resumable, setup);
    }
  }

  lemma FinishHasNoBranch(status: Status, name: Name)
    ensures BranchAhead(Finish(status, name)) == None
  {
    var closing := Do(Notify(name), Do(EnqueueWebhook(ReadUrl), Do(DropCancelKey, Stop)));
    assert BranchAhead(closing.rest) == None;
    assert BranchAhead(Do(WriteCron(Finished(status)), closing)) == BranchAhead(closing);
  }

  lemma AfterSandboxDelivers(l: Local, r: RunId, resumable: bool, setup: Setup)
    ensures var l' := Play(l, r, resumable, AfterSandbox(setup));
            if setup.envBroken then BranchAhead(AfterSandbox(setup)).None? && Concluded(l, l', r, Error, RunFailed)
            else BranchAhead(AfterSandbox(setup)).Some? && l'.tables == l.tables && Later(l, l', r) && NoneTerminal(News(l, l', r))
  {
    hide Concluded, EmitNow, News, Later;
    var l1 := EmitNow(l, r, resumable, RunStarted, "");
    EmitIsNews(l, r, resumable, RunStarted, "");
    if setup.envBroken {
      FinishHasNoBranch(Error, RunFailed);
      PlayFinish(l1, r, resumable, Error, RunFailed);
      ConcludedAfter(l, l1, Play(l1, r, resumable, Finish(Error, RunFailed)), r, Error, RunFailed);
    }
  }

  /** Whatever the sandbox, the env decryption, both cancel reads and the executor answer: executeRun ends as
      it must, tells the stream exactly one terminal event and tells it last, and that event, the run row (or
      its removal) and the cron row agree. Only a rollback that meets a foreign key tells nothing and changes nothing. */
  lemma ExecutionDelivers(l: Local, r: RunId, resumable: bool, a: Answers)
    requires LegalResult(a.result)
    ensures Delivered(l, Execution(l, r, resumable, a), r, Due(l.tables, r, a))
  {
    hide Delivered, Concluded, Erased, Begin, Play, Finish, AfterExecutor, PlayRollBack, News, Later, HasDelivery, HasCronExec;
    var l1 := Play(l, r, resumable, Begin(a.setup));
    BeginDelivers(l, r, resumable, a.setup);
    var l2 := Execution(l, r, resumable, a);
    if BranchAhead(Begin(a.setup)).Some? {
      var l0 := l1;
      var l1 := SeeKey(l0, r, a.first);
      SeeKeyIsSilent(l0, r, a.first);
      NewsAdd(l, l0, l1, r);
      if a.first == Some(CancelRollback) {
        PlayRollBackDelivers(l1, r, resumable);
      } else if a.first == None && a.setup.executor {
        AfterExecutorDelivers(l1, r, resumable, a);
      } else if a.first.Some? {
        PlayFinish(l1, r, resumable, Interrupted, RunInterrupted);
      } else {
        PlayFinish(l1, r, resumable, Error, RunFailed);
      }
      assert Delivered(l1, l2, r, Due(l.tables, r, a)) by { ConcludedIsDelivered(l1, l2, r, Due(l.tables, r, a)); }
      DeliveredAfter(l, l1, l2, r, Due(l.tables, r, a));
    } else {
      ConcludedIsDelivered(l, l2, r, Due(l.tables, r, a));
    }
  }

  lemma ConcludedIsDelivered(l: Local, l': Local, r: RunId, v: Verdict)
    ensures v.Ends? && Concluded(l, l', r, v.status, v.name) ==> Delivered(l, l', r, v)
  {
  }

  /** The terminal event is in the set on which the server's stream loop stops, and says in words how the run ended. */
  lemma TerminalEventStopsServer(l: Local, r: RunId, resumable: bool, a: Answers)
    requires LegalResult(a.result) && !Due(l.tables, r, a).Stuck?
    ensures var news := News(l, Execution(l, r, resumable, a), r);
            && news != [] && IsTerminalText(news[|news| - 1].name.Wire())
            && (forall i :: 0 <= i < |news| - 1 ==> !IsTerminalText(news[i].name.Wire()))
            && news[|news| - 1].name.Wire() ==
                 match Due(l.tables, r, a)
                 case Removed => "run_rolled_back"
                 case Ends(Success, _) => "run_completed"
                 case Ends(Interrupted, _) => "run_interrupted"
                 case _ => if a.setup.sandbox.AllocationFailed? then "run_sandbox_allocation_failed" else "run_failed"
  {
    hide Execution, IsTerminalText, News;
    ExecutionDelivers(l, r, resumable, a);
    var news := News(l, Execution(l, r, resumable, a), r);
    forall i | 0 <= i < |news| ensures IsTerminal(news[i]) <==> IsTerminalText(news[i].name.Wire()) {
      EndsStreamIsServerTest(news[i].name);
    }
  }

  /** The state after the progress events of the setup. */
  ghost function Started(l: Local, r: RunId, resumable: bool, setup: Setup): Local
  {
    EmitNow(if setup.sandbox.Allocated? then EmitNow(l, r, resumable, RunAllocated, "") else l, r, resumable, RunStarted, "")
  }

  ghost function AfterFirst(l: Local, r: RunId, resumable: bool, a: Answers): Local
  {
    match a.first
    case Some(CancelRollback) => PlayRollBack(l, r, resumable)
    case Some(CancelInterrupt) => Play(l, r, resumable, Finish(Interrupted, RunInterrupted))
    case None => if a.setup.executor then AfterExecutor(l, r, resumable, a) else Play(l, r, resumable, Finish(Error, RunFailed))
  }

  /** Execution, branch by branch in the order of executeRun. */
  lemma ExecutionUnfolds(l: Local, r: RunId, resumable: bool, a: Answers)
    ensures Execution(l, r, resumable, a) ==
            if a.setup.sandbox.AllocationFailed? then Play(l, r, resumable, Finish(Error, RunAllocationFailed))
            else if a.setup.sandbox.Unavailable? then Play(l, r, resumable, Finish(Error, RunFailed))
            else
              var l1 := Started(l, r, resumable, a.setup);
              if a.setup.envBroken then Play(l1, r, resumable, Finish(Error, RunFailed))
              else AfterFirst(SeeKey(l1, r, a.first), r, resumable, a)
  {
    hide EmitNow, Finish, PlayRollBack, AfterExecutor, SeeKey;
    FinishHasNoBranch(Error, RunAllocationFailed);
    FinishHasNoBranch(Error, RunFailed);
    if a.setup.sandbox.Allocated? || a.setup.sandbox.NotUsed? {
      SetupUnfolds(l, r, resumable, a.setup);
    }
  }

  lemma SetupUnfolds(l: Local, r: RunId, resumable: bool, setup: Setup)
    requires setup.sandbox.Allocated? || setup.sandbox.NotUsed?
    ensures var l1 := Started(l, r, resumable, setup);
            Play(l, r, resumable, Begin(setup)) == if setup.envBroken then Play(l1, r, resumable, Finish(Error, RunFailed)) else l1
    ensures BranchAhead(Begin(setup)).None? <==> setup.envBroken
  {
    hide EmitNow, Finish;
    FinishHasNoBranch(Error, RunFailed);
    var l0 := if setup.sandbox.Allocated? then EmitNow(l, r, resumable, RunAllocated, "") else l;
    assert Play(l, r, resumable, Begin(setup)) == Play(l0, r, resumable, AfterSandbox(setup));
    assert BranchAhead(Begin(setup)) == BranchAhead(AfterSandbox(setup));
  }

  lemma RelayOne(l: Local, r: RunId, resumable: bool, events: seq<Draft>, rest: Program)
    requires events != []
    ensures var name := Text.Trim(events[0].name, Text.GoSpace);
            Play(l, r, resumable, Relay(events, rest)) ==
            Play(if name == "" then l else EmitNow(l, r, resumable, Custom(name), events[0].data), r, resumable, Relay(events[1..], rest))
  {
    hide EmitNow, Text.Trim;
  }
}
