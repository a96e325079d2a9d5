// The sequential worker is what the interleaved protocol does when nobody interferes: a
// worker that takes all its steps in a row computes Execution.

module WorkerRefinement {
  import opened Basics
  import opened RunTables
  import opened StreamEvents
  import opened WorkerProgram
  import opened RunProtocol
  import opened WorkerAlone
  import Text

  /** `n` actions of one worker in a row. */
  function Alone(s: State, w: WorkerId, result: Result, n: nat): State
    decreases n
  {
    if n == 0 then s else Alone(Apply(s, Work(w, result)), w, result, n - 1)
  }

  lemma {:induction false} AloneAdds(s: State, w: WorkerId, result: Result, m: nat, n: nat)
    ensures Alone(s, w, result, m + n) == Alone(Alone(s, w, result, m), w, result, n)
    decreases m
  {
    hide Apply;
    if m > 0 {
      AloneAdds(Apply(s, Work(w, result)), w, result, m - 1, n);
    }
  }

  lemma {:induction false} AloneIsReach(s: State, w: WorkerId, result: Result, n: nat)
    ensures Alone(s, w, result, n) == Reach(s, seq(n, i => Work(w, result)))
    decreases n
  {
    hide Apply;
    var steps := seq(n, i => Work(w, result));
    if n > 0 {
      assert steps[1..] == seq((n - 1) as nat, i => Work(w, result));
      AloneIsReach(Apply(s, Work(w, result)), w, result, n - 1);
    }
  }

  /** The worker has `p` to do, on tables and keys as in `l`. */
  predicate At(s: State, w: WorkerId, r: RunId, resumable: bool, p: Program, l: Local)
  {
    && s.tables == l.tables && s.redis == l.redis
    && if p.Stop? then w !in s.workers else w in s.workers && s.workers[w] == Worker(r, resumable, p)
  }

  /** Nothing is half done. */
  predicate Whole(p: Program)
  {
    p.Do? ==>
      && !p.head.PublishEvent? && !p.head.PushEvent?
      && (p.head.EnqueueWebhook? ==> p.head.stage.ReadUrl?)
      && Whole(p.rest)
  }

  /** What is left once the program has come to its branch. */
  function Rest(p: Program): (q: Program)
    ensures q.Stop? <==> BranchAhead(p).None?
    ensures q.Do? ==> BranchAhead(p) == Some(q.head) && Branch(q.head)
  {
    if p.Stop? || Branch(p.head) then p else Rest(p.rest)
  }

  lemma EmitIsThreeSteps(s: State, w: WorkerId, result: Result, r: RunId, resumable: bool, p: Program, l: Local)
    requires At(s, w, r, resumable, p, l) && p.Do? && p.head.Emit?
    ensures At(Alone(s, w, result, 3), w, r, resumable, p.rest, EmitNow(l, r, resumable, p.head.name, p.head.data))
  {
    var e := NextEvent(s, s.workers[w]);
    var s1 := Apply(s, Work(w, result));
    assert s1.workers[w].todo == Do(PublishEvent(e), Do(PushEvent(e), p.rest));
    var s2 := Apply(s1, Work(w, result));
    assert s2.workers[w].todo == Do(PushEvent(e), p.rest);
    var s3 := Apply(s2, Work(w, result));
    assert Alone(s, w, result, 3) == Alone(s1, w, result, 2) == Alone(s2, w, result, 1) == s3;
  }

  lemma EnqueueIsThreeSteps(s: State, w: WorkerId, result: Result, r: RunId, resumable: bool, p: Program, l: Local)
    returns (n: nat)
    requires At(s, w, r, resumable, p, l) && p.Do? && p.head == EnqueueWebhook(ReadUrl)
    ensures At(Alone(s, w, result, n), w, r, resumable, p.rest, EnqueueNow(l, r))
  {
    hide HasDelivery, InsertDelivery;
    var s1 := Apply(s, Work(w, result));
    n := 1;
    if r in s.tables.runs && s.tables.runs[r].webhook {
      assert s1.workers[w].todo == Do(EnqueueWebhook(LookForDelivery), p.rest);
      var s2 := Apply(s1, Work(w, result));
      n := 2;
      assert Alone(s, w, result, 2) == Alone(s1, w, result, 1) == s2;
      if !HasDelivery(s.tables, r) {
        assert s2.workers[w].todo == Do(EnqueueWebhook(Insert), p.rest);
        n := 3;
        assert Alone(s, w, result, 3) == Alone(s2, w, result, 1) == Apply(s2, Work(w, result));
      }
    } else {
      assert Alone(s, w, result, 1) == s1;
    }
  }

  lemma OtherIsOneStep(s: State, w: WorkerId, result: Result, r: RunId, resumable: bool, p: Program, l: Local)
    requires At(s, w, r, resumable, p, l) && p.Do? && Whole(p)
    requires !Branch(p.head) && !p.head.Emit? && !p.head.EnqueueWebhook?
    ensures var wk := Worker(r, resumable, p);
            At(Alone(s, w, result, 1), w, r, resumable, p.rest, Local(WorkTables(l.tables, wk), WorkRedis(l.redis, wk)))
  {
    hide WorkTables, WorkRedis;
    assert Alone(s, w, result, 1) == Apply(s, Work(w, result));
  }

  lemma {:induction false} PlayIsAlone(s: State, w: WorkerId, result: Result, r: RunId, resumable: bool, p: Program, l: Local)
    returns (n: nat)
    requires At(s, w, r, resumable, p, l) && Whole(p)
    ensures At(Alone(s, w, result, n), w, r, resumable, Rest(p), Play(l, r, resumable, p))
    decreases p
  {
    hide At, Alone, EmitNow, EnqueueNow, WorkTables, WorkRedis;
    if p.Stop? || Branch(p.head) {
      n := 0;
      assert Alone(s, w, result, 0) == s by { AloneIsReach(s, w, result, 0); }
    } else {
      var l' := if p.head.Emit? then EmitNow(l, r, resumable, p.head.name, p.head.data)
                else if p.head.EnqueueWebhook? then EnqueueNow(l, r)
                else Local(WorkTables(l.tables, Worker(r, resumable, p)), WorkRedis(l.redis, Worker(r, resumable, p)));
      var m: nat := 1;
      if p.head.Emit? {
        EmitIsThreeSteps(s, w, result, r, resumable, p, l);
        m := 3;
      } else if p.head.EnqueueWebhook? {
        m := EnqueueIsThreeSteps(s, w, result, r, resumable, p, l);
      } else {
        OtherIsOneStep(s, w, result, r, resumable, p, l);
      }
      var k := PlayIsAlone(Alone(s, w, result, m), w, result, r, resumable, p.rest, l');
      AloneAdds(s, w, result, m, k);
      n := m + k;
    }
  }

  // ---------------------------------------------------------------------------
  // The branches
  // ---------------------------------------------------------------------------

  lemma {:induction false} RelayIsWhole(events: seq<Draft>, rest: Program)
    requires Whole(rest)
    ensures Whole(Relay(events, rest))
  {
    hide Text.Trim;
    if events != [] {
      RelayIsWhole(events[1..], rest);
    }
  }

  lemma FinishIsWhole(status: Status, name: Name)
    ensures Whole(Finish(status, name))
  {
    var tail := Do(EnqueueWebhook(ReadUrl), Do(DropCancelKey, Stop));
    assert Whole(tail);
    assert Whole(Do(WriteCron(Finished(status)), Do(Notify(name), tail)));
  }

  lemma ProgramsAreWhole(setup: Setup, key: Option<Action>, executor: bool, result: Result)
    ensures Whole(Begin(setup)) && Whole(AfterFirstRead(key, executor)) && Whole(AfterLastRead(key, result))
    ensures Whole(AfterRollBack(true)) && Whole(AfterRollBack(false))
  {
    hide Text.Trim, Relay;
    FinishIsWhole(Error, RunAllocationFailed);
    FinishIsWhole(Error, RunFailed);
    FinishIsWhole(Interrupted, RunInterrupted);
    FinishIsWhole(result.status, TerminalName(result.status));
    RelayIsWhole(result.events, Finish(Interrupted, TerminalName(Interrupted)));
    RelayIsWhole(result.events, Finish(result.status, TerminalName(result.status)));
    assert Whole(AfterSandbox(setup));
    assert Whole(Do(Notify(RunRolledBack), Do(DropList, Do(DropCancelKey, Stop))));
  }

  /** One branch is one step, to the program that its answer selects. */
  lemma BranchIsOneStep(s: State, w: WorkerId, result: Result, r: RunId, resumable: bool, b: Instr, l: Local)
    requires At(s, w, r, resumable, Do(b, Stop), l) && Branch(b) && (b.Execute? ==> LegalResult(result))
    ensures var wk := Worker(r, resumable, Do(b, Stop));
            var l' := l.(tables := WorkTables(l.tables, wk));
            At(Alone(s, w, result, 1), w, r, resumable, Remaining(s, wk, result), l')
  {
    hide Remaining, RemoveRun;
    assert Alone(s, w, result, 1) == Apply(s, Work(w, result));
  }

  lemma RollBackIsAlone(s: State, w: WorkerId, result: Result, r: RunId, resumable: bool, l: Local)
    returns (n: nat)
    requires At(s, w, r, resumable, Do(RollBack, Stop), l)
    ensures At(Alone(s, w, result, n), w, r, resumable, Stop, PlayRollBack(l, r, resumable))
  {
    hide At, Alone, Play, RemoveRun, AfterRollBack, Whole;
    var wk := Worker(r, resumable, Do(RollBack, Stop));
    BranchIsOneStep(s, w, result, r, resumable, RollBack, l);
    ProgramsAreWhole(Setup(NotUsed, false, false), None, false, result);
    var p := AfterRollBack(RemoveRun(l.tables, r).Ok?);
    var s1 := Alone(s, w, result, 1);
    assert s.tables == l.tables by { AtTables(s, w, r, resumable, Do(RollBack, Stop), l); }
    var k := PlayIsAlone(s1, w, result, r, resumable, p, l.(tables := After(l.tables, RemoveRun(l.tables, r))));
    AloneAdds(s, w, result, 1, k);
    n := 1 + k;
    assert Rest(p) == Stop by { NoBranchAfterRollBack(RemoveRun(l.tables, r).Ok?); }
  }

  lemma NoBranchAfterRollBack(committed: bool)
    ensures Rest(AfterRollBack(committed)) == Stop
  {
    var tail := Do(DropList, Do(DropCancelKey, Stop));
    assert Rest(tail) == Stop;
  }

  lemma AtTables(s: State, w: WorkerId, r: RunId, resumable: bool, p: Program, l: Local)
    requires At(s, w, r, resumable, p, l)
    ensures s.tables == l.tables && s.redis == l.redis
  {
  }

  lemma {:induction false} PreambleKeepsKeys(l: Local, r: RunId, resumable: bool, p: Program)
    requires Preamble(p)
    ensures Play(l, r, resumable, p).redis.cancel == l.redis.cancel
    decreases p
  {
    if p.Do? && !Branch(p.head) {
      PreambleKeepsKeys(EmitNow(l, r, resumable, p.head.name, p.head.data), r, resumable, p.rest);
    }
  }

  /** The setup either ends the run or comes, through progress events alone, to the first read. */
  lemma SetupLeadsToFirstRead(setup: Setup)
    ensures Rest(Begin(setup)) ==
            if setup.sandbox.AllocationFailed? || setup.sandbox.Unavailable? || setup.envBroken then Stop
            else Do(ReadCancelFirst(setup.executor), Stop)
    ensures Rest(Begin(setup)).Do? ==> Preamble(Begin(setup))
  {
    FinishRests(Error, RunAllocationFailed);
    FinishRests(Error, RunFailed);
    assert Rest(AfterSandbox(setup)) ==
           if setup.envBroken then Stop else Do(ReadCancelFirst(setup.executor), Stop);
  }

  lemma FinishRests(status: Status, name: Name)
    ensures Rest(Finish(status, name)) == Stop
  {
    FinishHasNoBranch(status, name);
  }

  lemma {:induction false} RelayRests(events: seq<Draft>, rest: Program)
    ensures Rest(Relay(events, rest)) == Rest(rest)
  {
    hide Text.Trim;
    if events != [] {
      RelayRests(events[1..], rest);
    }
  }

  /** A worker that is left alone with an executor computes AfterExecutor with the key it finds. */
  lemma ExecutorIsAlone(s: State, w: WorkerId, r: RunId, resumable: bool, a: Answers, l: Local)
    returns (n: nat)
    requires At(s, w, r, resumable, Do(Execute, Stop), l) && LegalResult(a.result) && a.last == CancelKey(s, r)
    ensures At(Alone(s, w, a.result, n), w, r, resumable, Stop, AfterExecutor(l, r, resumable, a))
  {
    hide At, Alone, Play, AfterLastRead, Whole, LegalResult, PlayRollBack, Apply;
    BranchIsOneStep(s, w, a.result, r, resumable, Execute, l);
    var s1 := Alone(s, w, a.result, 1);
    AtKey(s, w, r, resumable, Do(Execute, Stop), l);
    AtKey(s1, w, r, resumable, Do(ReadCancelLast(a.result), Stop), l);
    KeyIsSeen(l, r, a.last);
    BranchIsOneStep(s1, w, a.result, r, resumable, ReadCancelLast(a.result), l);
    var s2 := Alone(s1, w, a.result, 1);
    var p := AfterLastRead(a.last, a.result);
    assert At(s2, w, r, resumable, p, l);
    var k: nat;
    LastReadLeadsTo(a.last, a.result);
    if a.last == Some(CancelRollback) {
      k := RollBackIsAlone(s2, w, a.result, r, resumable, l);
    } else {
      ProgramsAreWhole(a.setup, a.last, true, a.result);
      k := PlayIsAlone(s2, w, a.result, r, resumable, p, l);
    }
    AloneAdds(s1, w, a.result, 1, k);
    AloneAdds(s, w, a.result, 1, 1 + k);
    n := 2 + k;
  }

  lemma KeyIsSeen(l: Local, r: RunId, key: Option<Action>)
    requires key == if r in l.redis.cancel then Some(l.redis.cancel[r]) else None
    ensures SeeKey(l, r, key) == l
  {
    assert SeeKey(l, r, key).redis.cancel == l.redis.cancel;
  }

  lemma LastReadLeadsTo(key: Option<Action>, result: Result)
    ensures var p := AfterLastRead(key, result);
            if key == Some(CancelRollback) then p == Do(RollBack, Stop) else Rest(p) == Stop
  {
    FinishRests(Interrupted, TerminalName(Interrupted));
    FinishRests(result.status, TerminalName(result.status));
    RelayRests(result.events, Finish(Interrupted, TerminalName(Interrupted)));
    RelayRests(result.events, Finish(result.status, TerminalName(result.status)));
  }

  lemma AtKey(s: State, w: WorkerId, r: RunId, resumable: bool, p: Program, l: Local)
    requires At(s, w, r, resumable, p, l)
    ensures s.tables == l.tables && s.redis == l.redis
    ensures CancelKey(s, r) == if r in l.redis.cancel then Some(l.redis.cancel[r]) else None
  {
  }

  /** From any state of the whole system: a worker that takes its steps in a row, and finds the cancel key
      as it is now, leaves the tables, the keys, the lists and the channels that Execution computes. */
  lemma ExecutionIsAlone(s: State, w: WorkerId, r: RunId, resumable: bool, setup: Setup, result: Result)
    returns (n: nat)
    requires w in s.workers && s.workers[w] == Worker(r, resumable, Begin(setup)) && LegalResult(result)
    ensures var s' := Reach(s, seq(n, i => Work(w, result)));
            var key := CancelKey(s, r);
            && w !in s'.workers
            && Local(s'.tables, s'.redis) == Execution(Local(s.tables, s.redis), r, resumable, Answers(setup, key, result, key))
  {
    n := ExecutionAlone(s, w, r, resumable, setup, result);
    AloneIsReach(s, w, result, n);
  }

  lemma ExecutionAlone(s: State, w: WorkerId, r: RunId, resumable: bool, setup: Setup, result: Result)
    returns (n: nat)
    requires w in s.workers && s.workers[w] == Worker(r, resumable, Begin(setup)) && LegalResult(result)
    ensures var key := CancelKey(s, r);
            At(Alone(s, w, result, n), w, r, resumable, Stop,
               Execution(Local(s.tables, s.redis), r, resumable, Answers(setup, key, result, key)))
  {
    hide Alone, Play, Begin, AfterFirstRead, Whole, LegalResult, PlayRollBack, AfterExecutor, Apply;
    var key := CancelKey(s, r);
    var a := Answers(setup, key, result, key);
    var l := Local(s.tables, s.redis);
    BeginIsFit(setup);
    ProgramsAreWhole(setup, key, setup.executor, result);
    var m := PlayIsAlone(s, w, result, r, resumable, Begin(setup), l);
    var s1 := Alone(s, w, result, m);
    var l1 := Play(l, r, resumable, Begin(setup));
    SetupLeadsToFirstRead(setup);
    if Rest(Begin(setup)).Stop? {
      n := m;
    } else {
      PreambleKeepsKeys(l, r, resumable, Begin(setup));
      KeyIsSeen(l1, r, key);
      var k := FromFirstRead(s1, w, r, resumable, a, l1);
      AloneAdds(s, w, result, m, k);
      n := m + k;
    }
  }

  lemma FromFirstRead(s: State, w: WorkerId, r: RunId, resumable: bool, a: Answers, l: Local)
    returns (n: nat)
    requires At(s, w, r, resumable, Do(ReadCancelFirst(a.setup.executor), Stop), l)
    requires LegalResult(a.result) && a.first == a.last == CancelKey(s, r)
    ensures At(Alone(s, w, a.result, n), w, r, resumable, Stop,
               if a.first == Some(CancelRollback) then PlayRollBack(l, r, resumable)
               else if a.first == None && a.setup.executor then AfterExecutor(l, r, resumable, a)
               else Play(l, r, resumable, AfterFirstRead(a.first, a.setup.executor)))
  {
    hide At, Alone, Play, Whole, LegalResult, PlayRollBack, AfterExecutor, Apply, Finish;
    var first := ReadCancelFirst(a.setup.executor);
    BranchIsOneStep(s, w, a.result, r, resumable, first, l);
    AtKey(s, w, r, resumable, Do(first, Stop), l);
    var s1 := Alone(s, w, a.result, 1);
    var p := AfterFirstRead(a.first, a.setup.executor);
    assert At(s1, w, r, resumable, p, l);
    AtKey(s1, w, r, resumable, p, l);
    var k: nat;
    if a.first == Some(CancelRollback) {
      k := RollBackIsAlone(s1, w, a.result, r, resumable, l);
    } else if a.first == None && a.setup.executor {
      k := ExecutorIsAlone(s1, w, r, resumable, a, l);
    } else {
      ProgramsAreWhole(a.setup, a.first, a.setup.executor, a.result);
      FinishRests(Error, RunFailed);
      FinishRests(Interrupted, RunInterrupted);
      k := PlayIsAlone(s1, w, a.result, r, resumable, p, l);
    }
    AloneAdds(s, w, a.result, 1, k);
    n := 1 + k;
  }
}
