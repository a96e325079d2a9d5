// What holds over every interleaving of the run protocol.

module RunSafety {
  import opened Basics
  import opened RunTables
  import opened StreamEvents
  import opened WorkerProgram
  import opened RunProtocol

  lemma {:induction false} ReachKeeps(s: State, steps: seq<Step>)
    requires Inv(s)
    ensures Inv(Reach(s, steps)) && Advances(s.tables, Reach(s, steps).tables)
    decreases |steps|
  {
    hide Inv, Apply;
    if steps != [] {
      ApplyKeeps(s, steps[0]);
      ReachKeeps(Apply(s, steps[0]), steps[1..]);
    }
  }

  lemma StartHolds()
    ensures Inv(START)
  {
  }

  lemma ReachableHolds(steps: seq<Step>)
    ensures Inv(Reach(START, steps))
  {
    StartHolds();
    ReachKeeps(START, steps);
  }

  /** pending < running < terminal < deleted never goes down, over any interleaving. */
  lemma StageNeverFalls(steps: seq<Step>, more: seq<Step>, r: RunId)
    ensures Stage(Reach(START, steps).tables, r) <= Stage(Reach(START, steps + more).tables, r)
  {
    hide Inv, Stage, Reach;
    ReachableHolds(steps);
    ReachAppend(START, steps, more);
    ReachKeeps(Reach(START, steps), more);
  }

  /** A deleted identifier never gains a row again. */
  lemma DeletedStaysDeleted(steps: seq<Step>, more: seq<Step>, r: RunId)
    requires r in Reach(START, steps).tables.runs && r !in Reach(START, steps + more).tables.runs
    ensures forall rest: seq<Step> :: r !in Reach(START, steps + more + rest).tables.runs
  {
    hide Inv, Reach;
    forall rest: seq<Step> ensures r !in Reach(START, steps + more + rest).tables.runs {
      StageNeverFalls(steps, more, r);
      StageNeverFalls(steps + more, rest, r);
    }
  }

  /** Each run is claimed at most once, by one worker, and executed only if claimed. */
  lemma ClaimedAtMostOnce(steps: seq<Step>)
    ensures var s := Reach(START, steps);
            && (forall i, j :: 0 <= i < j < |s.claims| ==> s.claims[i].run != s.claims[j].run)
            && (forall r :: r in s.executed ==> Claimed(s, r))
            && (forall w, v :: w in s.workers && v in s.workers && w != v ==> s.workers[w].run != s.workers[v].run)
  {
    ReachableHolds(steps);
  }

  /** Claims and executions of a run that is past pending and unclaimed stay where they are. */
  lemma {:induction false} NeverClaimedLater(s: State, steps: seq<Step>, r: RunId)
    requires Inv(s) && Stage(s.tables, r) >= 2 && !Claimed(s, r)
    ensures !Claimed(Reach(s, steps), r) && r !in Reach(s, steps).executed
    decreases |steps|
  {
    if steps != [] {
      ApplyKeeps(s, steps[0]);
      NoClaimBy(s, steps[0], r);
      NeverClaimedLater(Apply(s, steps[0]), steps[1..], r);
    }
  }

  lemma NoClaimBy(s: State, step: Step, r: RunId)
    requires Stage(s.tables, r) >= 2 && !Claimed(s, r)
    ensures !Claimed(Apply(s, step), r)
  {
    hide ApiTables, ApiRedis, ApiQueueing, ApiEnqueued, WorkTables, WorkRedis, Remaining;
    if step.ClaimRun? && Apply(s, step) != s {
      var s' := Apply(s, step);
      assert s'.claims == s.claims + [Claim(step.worker, step.run)];
      forall i | 0 <= i < |s'.claims| ensures s'.claims[i].run != r {
        assert i < |s.claims| ==> s'.claims[i] == s.claims[i];
      }
    }
  }

  /** A run that is interrupted while it is pending is never executed. */
  lemma InterruptedWhilePendingNeverRuns(steps: seq<Step>, step: Step, more: seq<Step>, r: RunId)
    requires Stage(Reach(START, steps).tables, r) == 1
    requires Stage(Apply(Reach(START, steps), step).tables, r) >= 3
    ensures r !in Reach(START, steps + [step] + more).executed
  {
    var s := Reach(START, steps);
    var s' := Apply(s, step);
    ReachableHolds(steps);
    assert !Claimed(s, r);
    ApplyKeeps(s, step);
    assert !Claimed(s', r);
    ReachAppend(START, steps, [step]);
    ReachAppend(START, steps + [step], more);
    NeverClaimedLater(s', more, r);
  }

  /** At most one delivery per run, always for an existing run that is over; a run that cron
      started belongs to no thread. */
  lemma DeliveriesAndCronRuns(steps: seq<Step>)
    ensures var t := Reach(START, steps).tables;
            && (forall d, e :: d in t.deliveries && e in t.deliveries && t.deliveries[d] == t.deliveries[e] ==> d == e)
            && (forall d :: d in t.deliveries ==> t.deliveries[d] in t.runs && Terminal(t.runs[t.deliveries[d]].status))
            && (forall e :: e in t.cronExecs ==> t.cronExecs[e].run in t.runs && t.runs[t.cronExecs[e].run].thread == None)
  {
    hide Reach;
    ReachableHolds(steps);
  }

  /** In every reachable state a creation fails only as reject on a busy thread, and a thread
      delete fails only on an unknown thread: neither meets a foreign key. */
  lemma NoForeignKeyInTheWay(steps: seq<Step>, thread: ThreadId, strategy: Strategy, row: Run, pick: Option<RunId>)
    ensures var t := Reach(START, steps).tables;
            && (OldestActive(t.runs, thread, pick) ==>
                  (CreateRun(t, thread, strategy, row, pick).Abort? <==> strategy.Reject? && ActiveRuns(t.runs, thread) != {}))
            && (DeleteThread(t, thread).Abort? <==> thread !in t.threads)
  {
    hide Reach, CreateRun, DeleteThread, Good;
    ReachableHolds(steps);
    var t := Reach(START, steps).tables;
    DeleteThreadKeeps(t, thread);
    if OldestActive(t.runs, thread, pick) {
      CreateRunOnlyConflicts(t, thread, strategy, row, pick);
    }
  }
}
