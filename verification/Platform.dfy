// The API server's transactions and the worker's executeRun in the form of the source:
// methods that change tables and keys one statement after the other. Each is proved to
// leave exactly the state that the corresponding function of RunTables, RunProtocol and
// WorkerAlone describes, so the theorems about those functions are about these methods.

module Platform {
  import opened Basics
  import opened RunTables
  import opened StreamEvents
  import opened WorkerProgram
  import opened RunProtocol
  import opened WorkerAlone
  import WorkerOutcome
  import Text

  /** What the deferred ROLLBACK of a transaction returns to. */
  datatype Savepoint = Savepoint(runs: map<RunId, Run>, threads: set<ThreadId>, checkpoints: set<Checkpoint>, deliveries: map<nat, RunId>)

  class Store {
    var runs: map<RunId, Run>
    var threads: set<ThreadId>
    var checkpoints: set<Checkpoint>
    var deliveries: map<nat, RunId>
    var cronExecs: map<nat, CronExec>
    var issued: nat
    var cancel: map<RunId, Action>
    var lists: map<RunId, seq<Event>>
    var channel: map<RunId, seq<Event>>

    constructor ()
      ensures Rows() == NO_ROWS && Keys() == Redis(map[], map[], map[])
    {
      runs, threads, checkpoints, deliveries, cronExecs, issued := map[], {}, {}, map[], map[], 0;
      cancel, lists, channel := map[], map[], map[];
    }

    ghost function Rows(): Tables
      reads this
    {
      Tables(runs, threads, checkpoints, deliveries, cronExecs, issued)
    }

    ghost function Keys(): Redis
      reads this
    {
      Redis(cancel, lists, channel)
    }

    ghost function Here(): Local
      reads this
    {
      Local(Rows(), Keys())
    }

    // -------------------------------------------------------------------------
    // Statements
    // -------------------------------------------------------------------------

    method Begin() returns (sp: Savepoint)
      ensures sp == Savepoint(runs, threads, checkpoints, deliveries)
    {
      sp := Savepoint(runs, threads, checkpoints, deliveries);
    }

    method RollBackTo(sp: Savepoint)
      modifies `runs, `threads, `checkpoints, `deliveries
      ensures Savepoint(runs, threads, checkpoints, deliveries) == sp
    {
      runs, threads, checkpoints, deliveries := sp.runs, sp.threads, sp.checkpoints, sp.deliveries;
    }

    /** DELETE FROM runs, which the database refuses while a delivery or a cron execution refers to one of them. */
    method DeleteRunRows(rs: set<RunId>) returns (ok: bool)
      modifies `runs, `checkpoints
      ensures var tx := DeleteRuns(old(Rows()), rs); ok == tx.Ok? && Rows() == After(old(Rows()), tx)
    {
      ok := forall d :: d in deliveries ==> deliveries[d] !in rs;
      if ok {
        ok := forall e :: e in cronExecs ==> cronExecs[e].run !in rs;
      }
      if ok {
        checkpoints := set c | c in checkpoints && c.run !in rs;
        runs := runs - rs;
      }
    }

    /** Checkpoints, then the row: the two deletes that every rollback is made of. */
    method DeleteRunStatements(r: RunId) returns (ok: bool)
      modifies `runs, `checkpoints
      ensures var tx := RemoveRun(old(Rows()), r);
              && ok == tx.Ok?
              && Rows() == if ok then tx.value else old(Rows()).(checkpoints := checkpoints)
    {
      checkpoints := set c | c in checkpoints && c.run !in {r};
      ghost var t := Rows();
      assert t == DeleteCheckpoints(old(Rows()), {r});
      hide DeleteCheckpoints, DeleteRuns;
      ok := DeleteRunRows({r});
    }

    /** DELETE FROM threads, refused while a run or a checkpoint refers to the row. */
    method DeleteThreadStatement(thread: ThreadId) returns (ok: bool)
      modifies `threads
      ensures var tx := DeleteThreadRow(old(Rows()), thread); ok == tx.Ok? && Rows() == After(old(Rows()), tx)
    {
      ok := forall r :: r in runs ==> runs[r].thread != Some(thread);
      if ok {
        ok := forall c :: c in checkpoints ==> c.thread != Some(thread);
      }
      if ok {
        threads := threads - {thread};
      }
    }

    method UpdateStatus(r: RunId, status: Status)
      modifies `runs
      ensures Rows() == SetStatus(old(Rows()), r, status)
    {
      if r in runs {
        runs := runs[r := runs[r].(status := status)];
      }
    }

    // -------------------------------------------------------------------------
    // API server
    // -------------------------------------------------------------------------

    /** SELECT ... WHERE thread_id AND status IN ('pending','running') ORDER BY created_at ASC LIMIT 1 */
    method SelectActive(thread: ThreadId) returns (pick: Option<RunId>)
      ensures OldestActive(runs, thread, pick)
    {
      pick := None;
      var rest := runs.Keys;
      while rest != {}
        invariant rest <= runs.Keys
        invariant match pick
                  case None => forall r :: r in runs && r !in rest ==> r !in ActiveRuns(runs, thread)
                  case Some(p) => p in ActiveRuns(runs, thread) &&
                                  forall r :: r in ActiveRuns(runs, thread) && r !in rest ==> runs[p].created <= runs[r].created
      {
        var r :| r in rest;
        rest := rest - {r};
        if runs[r].thread == Some(thread) && Active(runs[r].status) {
          if pick.None? || runs[r].created < runs[pick.value].created {
            pick := Some(r);
          }
        }
      }
    }

    /** The switch over the strategy; the transaction is over unless it returns None. */
    method MakeRoomFor(active: Option<RunId>, strategy: Strategy) returns (failure: Option<Reason>)
      modifies `runs, `checkpoints
      ensures match MakeRoom(old(Rows()), strategy, active)
              case Ok(t) => failure.None? && Rows() == t
              case Abort(reason) => failure == Some(reason) && Rows() == old(Rows()).(checkpoints := checkpoints)
    {
      failure := None;
      if active.Some? {
        match strategy
        case Reject =>
          failure := Some(Conflict);
        case Interrupt =>
          UpdateStatus(active.value, Interrupted);
        case Rollback =>
          hide RemoveRun;
          var ok := DeleteRunStatements(active.value);
          if !ok {
            RemoveFails(old(Rows()), active.value);
            failure := Some(ForeignKey);
          }
        case Enqueue =>
      }
    }

    /** createRunInPostgres: what it leaves is CreateRun for some oldest active run of the thread. */
    method CreateRunInPostgres(thread: ThreadId, strategy: Strategy, row: Run) returns (res: Tx<RunId>, ghost pick: Option<RunId>)
      modifies this
      ensures Keys() == old(Keys())
      ensures OldestActive(old(runs), thread, pick)
      ensures var tx := CreateRun(old(Rows()), thread, strategy, row, pick);
              && Rows() == After(old(Rows()), tx)
              && res == match tx case Ok(_) => Ok(old(issued)) case Abort(reason) => Abort(reason)
    {
      var sp := Begin();
      if thread !in threads {
        threads := threads + {thread};
      }
      assert threads == old(threads) + {thread};
      var active := SelectActive(thread);
      pick := active;
      hide OldestActive, MakeRoom, ActiveRuns, CreateRun;
      CreateIsInsert(old(Rows()), thread, strategy, row, active);
      var failure := MakeRoomFor(active, strategy);
      if failure.Some? {
        RollBackTo(sp);
        return Abort(failure.value), pick;
      }
      var run := issued;
      runs := runs[run := row.(thread := Some(thread), status := Pending)];
      issued := issued + 1;
      res := Ok(run);
    }

    /** cancelRunInPostgres */
    method CancelRunInPostgres(r: RunId, action: Action) returns (res: Tx<()>)
      modifies `runs, `checkpoints
      ensures var tx := CancelRun(old(Rows()), r, action);
              Rows() == After(old(Rows()), tx) && res == match tx case Ok(_) => Ok(()) case Abort(reason) => Abort(reason)
    {
      var saved := checkpoints;
      if r !in runs {
        return Abort(NotFound);
      }
      if action.CancelInterrupt? {
        UpdateStatus(r, Interrupted);
      } else {
        hide RemoveRun;
        var ok := DeleteRunStatements(r);
        if !ok {
          RemoveFails(old(Rows()), r);
          checkpoints := saved;
          return Abort(ForeignKey);
        }
      }
      res := Ok(());
    }

    /** cancelRun: the cancel key first, then the transaction, then the event list; the same three steps
        that RunProtocol interleaves with the workers. */
    method CancelRunRequest(r: RunId, action: Action) returns (ok: bool)
      modifies `runs, `checkpoints, `cancel, `lists
      ensures ok == CancelRun(old(Rows()), r, action).Ok?
      ensures Rows() == After(old(Rows()), CancelRun(old(Rows()), r, action))
      ensures Keys() == old(Keys()).(cancel := old(cancel)[r := action],
                                     lists := if ok && action.CancelRollback? then old(lists) - {r} else old(lists))
    {
      cancel := cancel[r := action];
      var res := CancelRunInPostgres(r, action);
      ok := res.Ok?;
      if ok && action.CancelRollback? {
        lists := lists - {r};
      }
    }

    /** deleteRunFromPostgres */
    method DeleteRunFromPostgres(r: RunId, expected: Option<ThreadId>) returns (res: Tx<()>)
      modifies `runs, `threads, `checkpoints, `deliveries
      ensures var tx := DeleteRun(old(Rows()), r, expected);
              Rows() == After(old(Rows()), tx) && res == match tx case Ok(_) => Ok(()) case Abort(reason) => Abort(reason)
    {
      var sp := Begin();
      if r !in runs || (expected.Some? && runs[r].thread != expected) {
        return Abort(NotFound);
      }
      deliveries := map d | d in deliveries && deliveries[d] !in {r} :: deliveries[d];
      ghost var t := Rows();
      assert t == DeleteDeliveries(old(Rows()), {r});
      hide RemoveRun, DeleteDeliveries;
      var ok := DeleteRunStatements(r);
      if !ok {
        RemoveFails(t, r);
        RollBackTo(sp);
        return Abort(ForeignKey);
      }
      res := Ok(());
    }

    /** deleteRun: the transaction, and if it succeeds the event list is dropped. */
    method DeleteRunRequest(r: RunId, expected: Option<ThreadId>) returns (ok: bool)
      modifies `runs, `threads, `checkpoints, `deliveries, `lists
      ensures ok == DeleteRun(old(Rows()), r, expected).Ok? && Rows() == After(old(Rows()), DeleteRun(old(Rows()), r, expected))
      ensures Keys() == old(Keys()).(lists := if ok then old(lists) - {r} else old(lists))
    {
      var res := DeleteRunFromPostgres(r, expected);
      ok := res.Ok?;
      if ok {
        lists := lists - {r};
      }
    }

    /** deleteThreadFromPostgres: the errors of the four cascading deletes are ignored, but a failed
        statement aborts its transaction, so the last delete fails too. */
    method DeleteThreadFromPostgres(thread: ThreadId) returns (res: Tx<()>)
      modifies `runs, `threads, `checkpoints, `deliveries
      ensures var tx := DeleteThread(old(Rows()), thread);
              Rows() == After(old(Rows()), tx) && res == match tx case Ok(_) => Ok(()) case Abort(reason) => Abort(reason)
    {
      var sp := Begin();
      if thread !in threads {
        return Abort(NotFound);
      }
      var rs := set r | r in runs && runs[r].thread == Some(thread);
      deliveries := map d | d in deliveries && deliveries[d] !in rs :: deliveries[d];
      checkpoints := set c | c in checkpoints && c.run !in rs;
      checkpoints := set c | c in checkpoints && c.thread != Some(thread);
      ghost var t3 := Rows();
      assert RunsOf(t3, thread) == rs;
      var ok := DeleteRunRows(rs);
      if ok {
        ok := DeleteThreadStatement(thread);
      }
      if !ok {
        RollBackTo(sp);
        return Abort(ForeignKey);
      }
      res := Ok(());
    }

    /** createRunForCron */
    method CreateRunForCron(job: JobId, at: int, created: int)
      modifies `runs, `cronExecs, `issued
      ensures Rows() == CreateCronRun(old(Rows()), job, at, created)
    {
      var found := exists e :: e in cronExecs && cronExecs[e].job == job && cronExecs[e].at == at;
      if found {
        return;
      }
      var run := issued;
      runs := runs[run := Run(None, Pending, false, false, created)];
      cronExecs := cronExecs[run + 1 := CronExec(job, run, at, Queued)];
      issued := issued + 2;
    }

    // -------------------------------------------------------------------------
    // Worker
    // -------------------------------------------------------------------------

    /** fetchNextPendingRun: claims an oldest pending run, if there is one. */
    method FetchNextPendingRun() returns (pick: Option<RunId>)
      modifies `runs
      ensures pick.None? ==> forall r :: r in old(runs) ==> old(runs)[r].status != Pending
      ensures pick.Some? ==>
                && pick.value in old(runs) && old(runs)[pick.value].status == Pending
                && forall r :: r in old(runs) && old(runs)[r].status == Pending ==> old(runs)[pick.value].created <= old(runs)[r].created
      ensures runs == if pick.Some? then old(runs)[pick.value := old(runs)[pick.value].(status := Running)] else old(runs)
    {
      pick := None;
      var rest := runs.Keys;
      while rest != {}
        invariant rest <= runs.Keys && runs == old(runs)
        invariant match pick
                  case None => forall r :: r in runs && r !in rest ==> !runs[r].status.Pending?
                  case Some(p) => p in runs && runs[p].status.Pending? &&
                                  forall r :: r in runs && r !in rest && runs[r].status.Pending? ==> runs[p].created <= runs[r].created
      {
        var r :| r in rest;
        rest := rest - {r};
        if runs[r].status.Pending? && (pick.None? || runs[r].created < runs[pick.value].created) {
          pick := Some(r);
        }
      }
      if pick.Some? {
        UpdateStatus(pick.value, Running);
      }
    }

    /** rollbackRun */
    method RollbackRun(r: RunId) returns (ok: bool)
      modifies `runs, `checkpoints
      ensures ok == RemoveRun(old(Rows()), r).Ok? && Rows() == After(old(Rows()), RemoveRun(old(Rows()), r))
    {
      var saved := checkpoints;
      hide RemoveRun;
      ok := DeleteRunStatements(r);
      if !ok {
        RemoveFails(old(Rows()), r);
        checkpoints := saved;
      }
    }

    /** updateCronExecutionStatus */
    method UpdateCronExecutionStatus(r: RunId, status: CronStatus)
      modifies `cronExecs
      ensures Rows() == SetCronStatus(old(Rows()), r, status)
    {
      cronExecs := map e | e in cronExecs :: if cronExecs[e].run == r then cronExecs[e].(status := status) else cronExecs[e];
    }

    /** currentCancelAction */
    method CurrentCancelAction(r: RunId) returns (action: Option<Action>)
      ensures action == if r in cancel then Some(cancel[r]) else None
    {
      action := if r in cancel then Some(cancel[r]) else None;
    }

    /** nextEventID */
    method NextEventID(r: RunId) returns (id: int)
      ensures id == |Get(lists, r, [])| + 1
    {
      id := if r in lists then |lists[r]| + 1 else 1;
    }

    /** emitStreamEvent: published first, then pushed if the run is resumable. */
    method EmitStreamEvent(r: RunId, resumable: bool, name: Name, data: string)
      modifies `channel, `lists
      ensures Here() == EmitNow(old(Here()), r, resumable, name, data)
    {
      var id := NextEventID(r);
      var e := Event(id, name, data);
      channel := channel[r := (if r in channel then channel[r] else []) + [e]];
      if resumable {
        lists := lists[r := (if r in lists then lists[r] else []) + [e]];
      }
    }

    /** enqueueWebhookForRun */
    method EnqueueWebhookForRun(r: RunId)
      modifies `deliveries, `issued
      ensures Here() == EnqueueNow(old(Here()), r)
    {
      if r !in runs || !runs[r].webhook {
        return;
      }
      var deliveryExists := exists d :: d in deliveries && deliveries[d] == r;
      if deliveryExists {
        return;
      }
      deliveries := deliveries[issued := r];
      issued := issued + 1;
    }

    /** Others may write the cancel key between two statements of the worker. */
    method OthersSetCancelKey(r: RunId, key: Option<Action>)
      modifies `cancel
      ensures Here() == SeeKey(old(Here()), r, key)
    {
      cancel := if key.Some? then cancel[r := key.value] else cancel - {r};
    }

    /** The four calls that end a run: result, cron status, terminal event, webhook. */
    method Conclude(r: RunId, resumable: bool, status: Status, name: Name)
      modifies this
      ensures WithoutKey(Here(), r) == Play(old(Here()), r, resumable, Finish(status, name))
    {
      UpdateStatus(r, status);
      UpdateCronExecutionStatus(r, Finished(status));
      EmitStreamEvent(r, resumable, name, "");
      EnqueueWebhookForRun(r);
      PlayFinishIs(old(Here()), r, resumable, status, name);
    }

    method RollBackBranch(r: RunId, resumable: bool)
      modifies this
      ensures WithoutKey(Here(), r) == PlayRollBack(old(Here()), r, resumable)
    {
      var ok := RollbackRun(r);
      ghost var l := Here();
      if !ok {
        PlayGiveUpIs(l, r, resumable);
        return;
      }
      UpdateCronExecutionStatus(r, RolledBack);
      EmitStreamEvent(r, resumable, RunRolledBack, "");
      lists := lists - {r};
      PlayRollBackIs(l, r, resumable);
    }

    /** The loop over the executor's events. */
    method RelayEvents(r: RunId, resumable: bool, events: seq<Draft>, ghost rest: Program)
      modifies `channel, `lists
      ensures Play(Here(), r, resumable, rest) == Play(old(Here()), r, resumable, Relay(events, rest))
    {
      for i := 0 to |events|
        invariant Play(Here(), r, resumable, Relay(events[i..], rest)) == Play(old(Here()), r, resumable, Relay(events, rest))
      {
        ghost var before := Here();
        var name := Text.Trim(events[i].name, Text.GoSpace);
        RelayOne(before, r, resumable, events[i..], rest);
        assert events[i..][1..] == events[i + 1..];
        if name == "" {
          continue;
        }
        EmitStreamEvent(r, resumable, Custom(name), events[i].data);
      }
      assert events[|events|..] == [];
    }

    /** executeRun with its deferred delete of the cancel key. */
    method ExecuteRun(r: RunId, resumable: bool, a: Answers)
      modifies this
      ensures Here() == Execution(old(Here()), r, resumable, a)
      ensures Here() == WorkerOutcome.Outcome(old(Here()), r, resumable, a)
    {
      hide Execution, WorkerOutcome.Outcome;
      WorkerOutcome.ExecutionIsOutcome(Here(), r, resumable, a);
      RunToItsEnd(r, resumable, a);
      cancel := cancel - {r};
    }

    method RunToItsEnd(r: RunId, resumable: bool, a: Answers)
      modifies this
      ensures WithoutKey(Here(), r) == Execution(old(Here()), r, resumable, a)
    {
      ghost var start := Here();
      hide EmitNow, Finish, Play, Execution, AfterFirst;
      ExecutionUnfolds(start, r, resumable, a);
      match a.setup.sandbox {
        case AllocationFailed =>
          Conclude(r, resumable, Error, RunAllocationFailed);
          return;
        case Unavailable =>
          Conclude(r, resumable, Error, RunFailed);
          return;
        case Allocated =>
          EmitStreamEvent(r, resumable, RunAllocated, "");
        case NotUsed =>
      }
      EmitStreamEvent(r, resumable, RunStarted, "");
      assert Here() == Started(start, r, resumable, a.setup);
      if a.setup.envBroken {
        Conclude(r, resumable, Error, RunFailed);
        return;
      }
      FromFirstRead(r, resumable, a);
    }

    method FromFirstRead(r: RunId, resumable: bool, a: Answers)
      modifies this
      ensures WithoutKey(Here(), r) == AfterFirst(SeeKey(old(Here()), r, a.first), r, resumable, a)
    {
      OthersSetCancelKey(r, a.first);
      var action := CurrentCancelAction(r);
      assert action == a.first;
      ghost var l := Here();
      hide SeeKey, EmitNow, Finish, PlayRollBack, Play, AfterExecutor, WithoutKey, Get;
      match action {
        case Some(CancelRollback) =>
          RollBackBranch(r, resumable);
        case Some(CancelInterrupt) =>
          Conclude(r, resumable, Interrupted, RunInterrupted);
        case None =>
          if a.setup.executor {
            FromLastRead(r, resumable, a);
          } else {
            Conclude(r, resumable, Error, RunFailed);
          }
      }
    }

    method FromLastRead(r: RunId, resumable: bool, a: Answers)
      modifies this
      ensures WithoutKey(Here(), r) == AfterExecutor(old(Here()), r, resumable, a)
    {
      var result := a.result;
      OthersSetCancelKey(r, a.last);
      var action := CurrentCancelAction(r);
      hide SeeKey, EmitNow, Finish, PlayRollBack, Play, Relay;
      if action == Some(CancelRollback) {
        RollBackBranch(r, resumable);
        return;
      }
      if action == Some(CancelInterrupt) {
        result := result.(status := Interrupted);
      }
      RelayEvents(r, resumable, result.events, Finish(result.status, TerminalName(result.status)));
      Conclude(r, resumable, result.status, TerminalName(result.status));
    }
  }

  ghost function WithoutKey(l: Local, r: RunId): Local
  {
    l.(redis := l.redis.(cancel := l.redis.cancel - {r}))
  }

  lemma RemoveFails(t: Tables, r: RunId)
    ensures RemoveRun(t, r).Abort? ==> RemoveRun(t, r) == Abort(ForeignKey)
  {
  }

  lemma CreateIsInsert(t: Tables, thread: ThreadId, strategy: Strategy, row: Run, pick: Option<RunId>)
    ensures CreateRun(t, thread, strategy, row, pick) ==
            match MakeRoom(t.(threads := t.threads + {thread}), strategy, pick)
            case Abort(reason) => Abort(reason)
            case Ok(t2) => Ok(t2.(runs := t2.runs[t.issued := row.(thread := Some(thread), status := Pending)], issued := t.issued + 1))
    ensures var tx := MakeRoom(t.(threads := t.threads + {thread}), strategy, pick);
            tx.Ok? ==> tx.value.issued == t.issued && tx.value.threads == t.threads + {thread}
  {
  }
}
