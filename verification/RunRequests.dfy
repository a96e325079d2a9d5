// Requests of the API server as sequences of protocol steps, and what the history that the
// protocol keeps along says about the steps that were taken
// (services/api-server/internal/server/server.go:1595-1631, 2128-2160 and 2359-2381).

module RunRequests {
  import opened Basics
  import opened RunTables
  import opened StreamEvents
  import opened WorkerProgram
  import opened RunProtocol

  lemma ReachOne(s: State, a: Step)
    ensures Reach(s, [a]) == Apply(s, a)
  {
    hide Apply;
    assert [a][1..] == [] && Reach(Apply(s, a), []) == Apply(s, a);
  }

  lemma ReachThree(s: State, a: Step, b: Step, c: Step)
    ensures Reach(s, [a, b]) == Apply(Apply(s, a), b)
    ensures Reach(s, [a, b, c]) == Apply(Apply(Apply(s, a), b), c)
  {
    hide Apply, Reach;
    ReachOne(s, a);
    ReachOne(Reach(s, [a]), b);
    ReachOne(Reach(s, [a, b]), c);
    ReachAppend(s, [a], [b]);
    ReachAppend(s, [a, b], [c]);
    assert [a] + [b] == [a, b] && [a, b] + [c] == [a, b, c];
  }

  // ---------------------------------------------------------------------------
  // Requests that nobody interferes with
  // ---------------------------------------------------------------------------

  /** A cancel writes the key, then runs its transaction, and after a rollback drops the event list. The key stays even
      when the run does not exist or cannot be removed. */
  lemma CancelIsSteps(s: State, r: RunId, action: Action)
    ensures var tx := CancelRun(s.tables, r, action);
            var asked := [Api(SetCancelKey(r, action)), Api(CancelRow(r, action))];
            var key := s.redis.cancel[r := action];
            if tx.Ok? && action.CancelRollback?
            then Reach(s, asked + [Api(DeleteList(r))]) == s.(tables := tx.value, redis := Redis(key, s.redis.lists - {r}, s.redis.channel))
            else Reach(s, asked) == s.(tables := After(s.tables, tx), redis := Redis(key, s.redis.lists, s.redis.channel))
  {
    hide CancelRun;
    var (a, b, c) := (Api(SetCancelKey(r, action)), Api(CancelRow(r, action)), Api(DeleteList(r)));
    ReachThree(s, a, b, c);
    assert [a, b] + [c] == [a, b, c];
  }

  /** A delete runs its transaction and, if that succeeds, drops the event list; the cancel key is left. */
  lemma DeleteIsSteps(s: State, r: RunId, expected: Option<ThreadId>)
    ensures var tx := DeleteRun(s.tables, r, expected);
            var asked := [Api(DeleteRunRow(r, expected))];
            if tx.Ok?
            then Reach(s, asked + [Api(DeleteList(r))]) == s.(tables := tx.value, redis := Redis(s.redis.cancel, s.redis.lists - {r}, s.redis.channel))
            else Reach(s, asked) == s
  {
    hide DeleteRun;
    var (a, b) := (Api(DeleteRunRow(r, expected)), Api(DeleteList(r)));
    ReachOne(s, a);
    ReachThree(s, a, b, b);
    assert [a] + [b] == [a, b];
  }

  /** The new run of a streamed creation: run_queued with number 1 is published and, if the run is resumable, pushed;
      nothing else is done to the keys. `tables` is what the transaction leaves. */
  ghost predicate Announced(s: State, s': State, tables: Tables, resumable: bool)
  {
    var (r, queued) := (s.tables.issued, Event(1, RunQueued, ""));
    && queued.name.Wire() == "run_queued"
    && s'.tables == tables && s'.workers == s.workers && s'.claims == s.claims && s'.executed == s.executed
    && s'.redis == Redis(
         s.redis.cancel,
         if resumable then s.redis.lists[r := ListOf(s, r) + [queued]] else s.redis.lists,
         s.redis.channel[r := ChannelOf(s, r) + [queued]])
    && s'.queueing == s.queueing - {r}
  }

  lemma PublishIs(s: State, r: RunId, resumable: bool)
    requires r in s.queueing && s.queueing[r] == ToPublish(resumable)
    ensures Apply(s, Api(PublishQueued(r))) ==
            s.(redis := s.redis.(channel := s.redis.channel[r := ChannelOf(s, r) + [Event(1, RunQueued, "")]]),
               queueing := s.queueing[r := ToPush(resumable)])
  {
  }

  lemma PushIs(s: State, r: RunId, resumable: bool)
    requires r in s.queueing && s.queueing[r] == ToPush(resumable)
    ensures Apply(s, Api(PushQueued(r))) ==
            s.(redis := s.redis.(lists := if resumable then s.redis.lists[r := ListOf(s, r) + [Event(1, RunQueued, "")]] else s.redis.lists),
               queueing := s.queueing - {r})
  {
  }

  lemma AnnouncedBySteps(s: State, create: Step, s1: State, tables: Tables, resumable: bool)
    requires s1 == Apply(s, create)
    requires s1 == s.(tables := tables, queueing := s.queueing[s.tables.issued := ToPublish(resumable)], enqueued := s1.enqueued)
    ensures Announced(s, Reach(s, [create, Api(PublishQueued(s.tables.issued)), Api(PushQueued(s.tables.issued))]), tables, resumable)
  {
    hide Apply, Reach, Announced, Get;
    var r := s.tables.issued;
    PublishIs(s1, r, resumable);
    var s2 := Apply(s1, Api(PublishQueued(r)));
    PushIs(s2, r, resumable);
    ReachThree(s, create, Api(PublishQueued(r)), Api(PushQueued(r)));
    var s3 := Apply(s2, Api(PushQueued(r)));
    AnnouncedAtLast(s, s1, s2, s3, tables, resumable);
  }

  lemma AnnouncedAtLast(s: State, s1: State, s2: State, s3: State, tables: Tables, resumable: bool)
    requires var (r, queued) := (s.tables.issued, Event(1, RunQueued, ""));
             && s1 == s.(tables := tables, queueing := s.queueing[r := ToPublish(resumable)], enqueued := s1.enqueued)
             && s2 == s1.(redis := s1.redis.(channel := s1.redis.channel[r := ChannelOf(s1, r) + [queued]]), queueing := s1.queueing[r := ToPush(resumable)])
             && s3 == s2.(redis := s2.redis.(lists := if resumable then s2.redis.lists[r := ListOf(s2, r) + [queued]] else s2.redis.lists),
                          queueing := s2.queueing - {r})
    ensures Announced(s, s3, tables, resumable)
  {
    hide Get;
    assert s3.queueing == s.queueing - {s.tables.issued};
  }

  /** A streamed creation in a thread, and one without a thread. */
  lemma CreationIsSteps(s: State, thread: ThreadId, strategy: Strategy, row: Run, pick: Option<RunId>)
    requires OldestActive(s.tables.runs, thread, pick)
    ensures var tx := CreateRun(s.tables, thread, strategy, row, pick);
            var create := Api(CreateThreadRun(thread, strategy, row, pick, true));
            var n := s.tables.issued;
            if tx.Ok? then Announced(s, Reach(s, [create, Api(PublishQueued(n)), Api(PushQueued(n))]), tx.value, row.resumable)
            else Reach(s, [create]) == s
  {
    hide CreateRun, OldestActive;
    var create := Api(CreateThreadRun(thread, strategy, row, pick, true));
    var tx := CreateRun(s.tables, thread, strategy, row, pick);
    ReachOne(s, create);
    if tx.Ok? {
      AnnouncedBySteps(s, create, Apply(s, create), tx.value, row.resumable);
    }
  }

  lemma StatelessIsSteps(s: State, row: Run)
    ensures var tx := InsertRun(s.tables, row.(thread := None));
            var n := s.tables.issued;
            && tx.Ok?
            && Announced(s, Reach(s, [Api(CreateStatelessRun(row, true)), Api(PublishQueued(n)), Api(PushQueued(n))]), tx.value, row.resumable)
  {
    var create := Api(CreateStatelessRun(row, true));
    var tx := InsertRun(s.tables, row.(thread := None));
    AnnouncedBySteps(s, create, Apply(s, create), tx.value, row.resumable);
  }

  /** The requests of one statement: they leave what their transaction leaves, and no key or worker changes. */
  lemma OtherRequestsAreSteps(s: State, thread: ThreadId, strategy: Strategy, row: Run, pick: Option<RunId>, job: JobId, at: int, created: int, c: Checkpoint)
    ensures Apply(s, Api(DeleteThreadRows(thread))) == s.(tables := After(s.tables, DeleteThread(s.tables, thread)))
    ensures Apply(s, Api(DispatchCron(job, at, created))) == s.(tables := CreateCronRun(s.tables, job, at, created))
    ensures Apply(s, Api(WriteCheckpoint(c))) == s.(tables := AddCheckpoint(s.tables, c))
    ensures Apply(s, Api(CreateStatelessRun(row, false))) == s.(tables := After(s.tables, InsertRun(s.tables, row.(thread := None))))
    ensures OldestActive(s.tables.runs, thread, pick) ==>
              var s' := Apply(s, Api(CreateThreadRun(thread, strategy, row, pick, false)));
              s' == s.(tables := After(s.tables, CreateRun(s.tables, thread, strategy, row, pick)), enqueued := s'.enqueued)
  {
    hide OldestActive, CreateRun, DeleteThread, CreateCronRun, AddCheckpoint, InsertRun;
  }

  // ---------------------------------------------------------------------------
  // The history
  // ---------------------------------------------------------------------------

  /** The step takes a pending run for a free worker. */
  predicate Takes(s: State, step: Step, r: RunId)
  {
    && step.ClaimRun? && step.run == r && step.worker !in s.workers
    && r in s.tables.runs && s.tables.runs[r].status == Pending
  }

  /** The step asks the executor to execute the run. */
  predicate Executes(s: State, step: Step, r: RunId)
  {
    && step.Work? && step.worker in s.workers && s.workers[step.worker].run == r
    && s.workers[step.worker].todo.Do? && s.workers[step.worker].todo.head.Execute? && LegalResult(step.result)
  }

  lemma StepHistory(s: State, step: Step, r: RunId)
    ensures Claimed(Apply(s, step), r) <==> Claimed(s, r) || Takes(s, step, r)
    ensures r in Apply(s, step).executed <==> r in s.executed || Executes(s, step, r)
  {
    hide ApiTables, ApiRedis, ApiQueueing, ApiEnqueued, WorkTables, WorkRedis, Remaining, LegalResult;
    var s' := Apply(s, step);
    if step.ClaimRun? && Takes(s, step, step.run) {
      assert s'.claims == s.claims + [Claim(step.worker, step.run)];
      assert s'.claims[|s.claims|].run == step.run;
      forall q | Claimed(s, q) ensures Claimed(s', q) {
        var i :| 0 <= i < |s.claims| && s.claims[i].run == q;
        assert s'.claims[i].run == q;
      }
    }
  }

  lemma ReachLast(s: State, steps: seq<Step>)
    requires steps != []
    ensures Reach(s, steps) == Apply(Reach(s, steps[..|steps| - 1]), steps[|steps| - 1])
  {
    hide Apply, Reach;
    var n := |steps| - 1;
    assert steps == steps[..n] + [steps[n]];
    ReachAppend(s, steps[..n], [steps[n]]);
    ReachOne(Reach(s, steps[..n]), steps[n]);
  }

  /** Exactly the runs that some step took are claimed, and exactly those that some step executed are executed. */
  lemma {:induction false} HistoryIs(steps: seq<Step>, r: RunId)
    ensures Claimed(Reach(START, steps), r) <==> exists i :: 0 <= i < |steps| && Takes(Reach(START, steps[..i]), steps[i], r)
    ensures r in Reach(START, steps).executed <==> exists i :: 0 <= i < |steps| && Executes(Reach(START, steps[..i]), steps[i], r)
    decreases |steps|
  {
    hide Apply, Takes, Executes, Reach;
    if steps == [] {
      assert Reach(START, []) == START by { ReachNone(START); }
    } else {
      var n := |steps| - 1;
      var front := steps[..n];
      HistoryIs(front, r);
      ReachLast(START, steps);
      StepHistory(Reach(START, front), steps[n], r);
      assert forall i :: 0 <= i < n ==> front[i] == steps[i] && front[..i] == steps[..i];
      if i :| 0 <= i < n && Takes(Reach(START, front[..i]), front[i], r) {
        assert Takes(Reach(START, steps[..i]), steps[i], r);
      }
      if i :| 0 <= i < n && Executes(Reach(START, front[..i]), front[i], r) {
        assert Executes(Reach(START, steps[..i]), steps[i], r);
      }
    }
  }

  lemma ReachNone(s: State)
    ensures Reach(s, []) == s
  {
  }

  /** The creations with strategy enqueue that a thread was granted along the way. */
  function Enqueueings(s: State, steps: seq<Step>, thread: ThreadId): nat
    decreases |steps|
  {
    if steps == [] then 0
    else
      (if steps[0].Api? && steps[0].call.CreateThreadRun? && steps[0].call.thread == thread && steps[0].call.strategy == Enqueue
          && thread in Apply(s, steps[0]).tables.threads && Apply(s, steps[0]).tables.issued == s.tables.issued + 1 then 1 else 0)
      + Enqueueings(Apply(s, steps[0]), steps[1..], thread)
  }

  lemma {:induction false} EnqueuedCounts(s: State, steps: seq<Step>, thread: ThreadId)
    ensures Get(Reach(s, steps).enqueued, thread, 0) == Get(s.enqueued, thread, 0) + Enqueueings(s, steps, thread)
    decreases |steps|
  {
    hide Apply;
    if steps != [] {
      EnqueuedOnce(s, steps[0], thread);
      EnqueuedCounts(Apply(s, steps[0]), steps[1..], thread);
    }
  }

  lemma EnqueuedOnce(s: State, step: Step, thread: ThreadId)
    ensures var s' := Apply(s, step);
            Get(s'.enqueued, thread, 0) == Get(s.enqueued, thread, 0) +
              if step.Api? && step.call.CreateThreadRun? && step.call.thread == thread && step.call.strategy == Enqueue
                 && thread in s'.tables.threads && s'.tables.issued == s.tables.issued + 1 then 1 else 0
  {
    hide WorkTables, WorkRedis, Remaining;
  }
}
