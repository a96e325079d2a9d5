// What each transaction of RunTables leaves, row by row, in the terms of the tables alone
// (services/api-server/internal/server/server.go:1919-2277 and 2795-2833,
// services/worker/internal/engine/engine.go:799-991).

module RunEffects {
  import opened Basics
  import opened RunTables

  /** The rows of runs are the same but for `r`. */
  ghost predicate OtherRunsSame(t: Tables, t': Tables, r: RunId)
  {
    forall q :: q != r ==> (q in t'.runs <==> q in t.runs) && (q in t.runs ==> t'.runs[q] == t.runs[q])
  }

  /** Everything but one run, its checkpoints and its deliveries. */
  ghost predicate OthersKept(t: Tables, t': Tables, r: RunId)
  {
    && t'.threads == t.threads && t'.cronExecs == t.cronExecs && t'.issued == t.issued
    && OtherRunsSame(t, t', r)
    && (forall c: Checkpoint :: c.run != r ==> (c in t'.checkpoints <==> c in t.checkpoints))
    && (forall d :: d in t.deliveries && t.deliveries[d] != r ==> d in t'.deliveries && t'.deliveries[d] == t.deliveries[d])
    && (forall d :: d in t'.deliveries ==> d in t.deliveries && t'.deliveries[d] == t.deliveries[d])
  }

  /** The run that a creation has to make room for: none if no run of the thread is pending or running, else one of
      these than which none is older. */
  lemma PickIs(runs: map<RunId, Run>, thread: ThreadId, pick: Option<RunId>)
    ensures OldestActive(runs, thread, pick) <==>
              if pick.Some? then
                && pick.value in runs && runs[pick.value].thread == Some(thread) && runs[pick.value].status in {Pending, Running}
                && forall r :: r in runs && runs[r].thread == Some(thread) && runs[r].status in {Pending, Running} ==> runs[pick.value].created <= runs[r].created
              else forall r :: r in runs && runs[r].thread == Some(thread) ==> runs[r].status !in {Pending, Running}
  {
    assert forall r :: r in ActiveRuns(runs, thread) <==> r in runs && runs[r].thread == Some(thread) && runs[r].status in {Pending, Running};
  }

  /** A new run of a thread: whatever the strategy, the thread exists, the pending row is there under the next
      identifier, and every other run, checkpoint, delivery and cron row is as before, but for the active run that is
      found: interrupt gives it that status and leaves its checkpoints, rollback takes it and exactly its checkpoints
      away, enqueue leaves it alone. */
  lemma CreateDoes(t: Tables, thread: ThreadId, strategy: Strategy, row: Run, pick: Option<RunId>)
    requires Good(t) && OldestActive(t.runs, thread, pick)
    ensures var tx := CreateRun(t, thread, strategy, row, pick);
            if strategy.Reject? && pick.Some? then tx == Abort(Conflict)
            else
              && tx.Ok?
              && (var t' := tx.value;
                  && t'.issued == t.issued + 1 && t'.threads == t.threads + {thread}
                  && t'.cronExecs == t.cronExecs && t'.deliveries == t.deliveries
                  && t.issued in t'.runs && t'.runs[t.issued] == row.(thread := Some(thread), status := Pending)
                  && (forall q :: q != t.issued && pick != Some(q) ==>
                        (q in t'.runs <==> q in t.runs) && (q in t.runs ==> t'.runs[q] == t.runs[q]))
                  && (if pick.Some? && strategy.Rollback? then
                        pick.value !in t'.runs && t'.checkpoints == set c | c in t.checkpoints && c.run != pick.value
                      else
                        && t'.checkpoints == t.checkpoints
                        && (pick.Some? ==>
                              && pick.value in t'.runs
                              && t'.runs[pick.value] ==
                                 if strategy.Interrupt? then t.runs[pick.value].(status := Interrupted) else t.runs[pick.value])))
  {
  }

  /** A run without a thread is one more pending row and nothing else. */
  lemma StatelessDoes(t: Tables, row: Run)
    ensures var tx := InsertRun(t, row.(thread := None));
            tx == Ok(t.(runs := t.runs[t.issued := Run(None, Pending, row.resumable, row.webhook, row.created)], issued := t.issued + 1))
  {
  }

  /** A cancel with rollback of an existing run succeeds exactly when neither cron nor a webhook refers to it;
      then nothing of the run is left. A cancel with interrupt always succeeds. Neither touches another run. */
  lemma CancelDoes(t: Tables, r: RunId)
    ensures forall action :: CancelRun(t, r, action) == Abort(NotFound) <==> r !in t.runs
    ensures r in t.runs ==>
              var tx := CancelRun(t, r, CancelRollback);
              && (tx.Ok? <==> !HasDelivery(t, r) && !HasCronExec(t, r))
              && (tx.Ok? ==> r !in tx.value.runs && (forall c :: c in tx.value.checkpoints ==> c.run != r) && OthersKept(t, tx.value, r))
    ensures r in t.runs ==>
              var tx := CancelRun(t, r, CancelInterrupt);
              && tx.Ok? && r in tx.value.runs && tx.value.runs[r] == t.runs[r].(status := Interrupted) && OthersKept(t, tx.value, r)
              && tx.value.checkpoints == t.checkpoints && tx.value.deliveries == t.deliveries
  {
  }

  /** A delete also takes the deliveries, so only a cron execution can stand in its way. */
  lemma DeleteDoes(t: Tables, r: RunId, expected: Option<ThreadId>)
    ensures var tx := DeleteRun(t, r, expected);
            && (tx == Abort(NotFound) <==> r !in t.runs || (expected.Some? && t.runs[r].thread != expected))
            && (tx == Abort(ForeignKey) ==> HasCronExec(t, r))
            && (tx.Ok? ==> !HasCronExec(t, r) && r !in tx.value.runs && !HasDelivery(tx.value, r)
                           && (forall c :: c in tx.value.checkpoints ==> c.run != r) && OthersKept(t, tx.value, r))
            && (tx.Abort? ==> tx.reason.NotFound? || tx.reason.ForeignKey?)
  {
  }

  /** A thread delete takes the thread, its runs, their checkpoints and deliveries and the thread's checkpoints, and
      keeps every row of the other threads. */
  lemma DeleteThreadDoes(t: Tables, thread: ThreadId)
    requires Good(t)
    ensures var tx := DeleteThread(t, thread);
            if thread !in t.threads then tx == Abort(NotFound)
            else
              && tx.Ok?
              && (var t' := tx.value;
                  && t'.threads == t.threads - {thread} && t'.cronExecs == t.cronExecs && t'.issued == t.issued
                  && (forall q :: q in t'.runs <==> q in t.runs && t.runs[q].thread != Some(thread))
                  && (forall q :: q in t'.runs ==> t'.runs[q] == t.runs[q])
                  && (forall c :: c in t'.checkpoints <==>
                        c in t.checkpoints && c.thread != Some(thread) && t.runs[c.run].thread != Some(thread))
                  && (forall d :: d in t'.deliveries <==> d in t.deliveries && t.runs[t.deliveries[d]].thread != Some(thread))
                  && (forall d :: d in t'.deliveries ==> t'.deliveries[d] == t.deliveries[d]))
  {
    DeleteThreadKeeps(t, thread);
  }

  /** A cron status is written to the records of one run and to no other record. */
  lemma CronStatusDoes(t: Tables, r: RunId, status: CronStatus)
    ensures var t' := SetCronStatus(t, r, status);
            && t' == t.(cronExecs := t'.cronExecs) && t'.cronExecs.Keys == t.cronExecs.Keys
            && (forall e :: e in t.cronExecs ==>
                  var x := t.cronExecs[e];
                  t'.cronExecs[e] == CronExec(x.job, x.run, x.at, if x.run == r then status else x.status))
  {
  }

  /** A claim gives one pending run the status running and changes nothing else. */
  lemma ClaimDoes(t: Tables, r: RunId)
    requires r in t.runs
    ensures var t' := SetStatus(t, r, Running);
            && t' == t.(runs := t'.runs) && OtherRunsSame(t, t', r)
            && r in t'.runs && t'.runs[r] == t.runs[r].(status := Running)
  {
  }

  /** A delivery is added for an existing run, under the next identifier, and nothing else changes. */
  lemma DeliveryDoes(t: Tables, r: RunId)
    ensures var tx := InsertDelivery(t, r);
            if r in t.runs then tx == Ok(t.(deliveries := t.deliveries[t.issued := r], issued := t.issued + 1))
            else tx == Abort(ForeignKey)
  {
  }

  /** A checkpoint is added for an existing run and thread, and nothing else changes; any other is refused. */
  lemma CheckpointDoes(t: Tables, c: Checkpoint)
    ensures var refused := c.run !in t.runs || (c.thread.Some? && c.thread.value !in t.threads);
            var t' := AddCheckpoint(t, c);
            t' == t.(checkpoints := t'.checkpoints) && forall x :: x in t'.checkpoints <==> x in t.checkpoints || (x == c && !refused)
  {
  }

  /** The first dispatch of a fire adds a pending run without thread and its record; every later one adds nothing. */
  lemma CronRunDoes(t: Tables, job: JobId, at: int, created: int)
    requires Good(t)
    ensures var t' := CreateCronRun(t, job, at, created);
            if exists e :: e in t.cronExecs && t.cronExecs[e].job == job && t.cronExecs[e].at == at then t' == t
            else
              && t'.threads == t.threads && t'.checkpoints == t.checkpoints && t'.deliveries == t.deliveries
              && exists e: nat, r: RunId ::
                   && e !in t.cronExecs && r !in t.runs && t.issued <= e < t'.issued && t.issued <= r < t'.issued
                   && t'.cronExecs == t.cronExecs[e := CronExec(job, r, at, Queued)]
                   && t'.runs == t.runs[r := Run(None, Pending, false, false, created)]
  {
    if !Dispatched(t, job, at) {
      var t' := CreateCronRun(t, job, at, created);
      var (e, r) := (t.issued + 1, t.issued);
      assert e !in t.cronExecs && r !in t.runs && t'.cronExecs == t.cronExecs[e := CronExec(job, r, at, Queued)];
      assert t'.runs == t.runs[r := Run(None, Pending, false, false, created)];
    }
  }
}
