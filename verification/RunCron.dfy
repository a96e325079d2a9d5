// Cron executions over every interleaving of the run protocol: no (job, time) pair is
// recorded twice, and every record comes with exactly one run of its own
// (createRunForCron, services/worker/internal/engine/engine.go:925-961).

module RunCron {
  import opened Basics
  import opened RunTables
  import opened WorkerProgram
  import opened RunProtocol
  import RunSafety

  ghost predicate Once(t: Tables)
  {
    forall d, e :: d in t.cronExecs && e in t.cronExecs && d != e ==>
      && t.cronExecs[d].run != t.cronExecs[e].run
      && (t.cronExecs[d].job != t.cronExecs[e].job || t.cronExecs[d].at != t.cronExecs[e].at)
  }

  /** The rows of cron_executions but for their status. */
  ghost predicate SameRecords(t: Tables, t': Tables)
  {
    && t'.cronExecs.Keys == t.cronExecs.Keys
    && forall e :: e in t.cronExecs ==> t'.cronExecs[e].(status := Queued) == t.cronExecs[e].(status := Queued)
  }

  lemma SameRecordsKeepOnce(t: Tables, t': Tables)
    requires Once(t) && SameRecords(t, t')
    ensures Once(t')
  {
    forall d, e | d in t'.cronExecs && e in t'.cronExecs && d != e
      ensures t'.cronExecs[d].run != t'.cronExecs[e].run
      ensures t'.cronExecs[d].job != t'.cronExecs[e].job || t'.cronExecs[d].at != t'.cronExecs[e].at
    {
      assert t'.cronExecs[d].(status := Queued) == t.cronExecs[d].(status := Queued);
      assert t'.cronExecs[e].(status := Queued) == t.cronExecs[e].(status := Queued);
    }
  }

  lemma OtherCallsKeepRecords(t: Tables, a: ApiStep)
    requires !a.DispatchCron?
    ensures SameRecords(t, ApiTables(t, a))
  {
  }

  lemma WorkKeepsRecords(t: Tables, wk: Worker)
    requires Works(wk)
    ensures SameRecords(t, WorkTables(t, wk))
  {
  }

  /** A fire is recorded together with a new pending run, or it was recorded before and nothing happens. */
  lemma DispatchKeepsOnce(t: Tables, job: JobId, at: int, created: int)
    requires Good(t) && Once(t)
    ensures var t' := CreateCronRun(t, job, at, created);
            && Once(t') && Dispatched(t', job, at)
            && if Dispatched(t, job, at) then t' == t
               else exists e: nat, r: RunId :: e !in t.cronExecs && r !in t.runs
                                && t'.cronExecs == t.cronExecs[e := CronExec(job, r, at, Queued)]
                                && t'.runs == t.runs[r := Run(None, Pending, false, false, created)]
  {
    if !Dispatched(t, job, at) {
      var t' := CreateCronRun(t, job, at, created);
      var (e, r) := (t.issued + 1, t.issued);
      assert t'.cronExecs[e].job == job && t'.cronExecs[e].at == at;
      assert e !in t.cronExecs && r !in t.runs && t'.cronExecs == t.cronExecs[e := CronExec(job, r, at, Queued)];
    }
  }

  lemma ApplyKeepsOnce(s: State, step: Step)
    requires Inv(s) && Once(s.tables)
    ensures Once(Apply(s, step).tables)
  {
    hide Once, SameRecords, Good, ApiRedis, ApiQueueing, ApiEnqueued, WorkRedis, WorkTables, Remaining, ClaimsHold, WorkersHold;
    match step
    case Api(a) =>
      if a.DispatchCron? {
        DispatchKeepsOnce(s.tables, a.job, a.at, a.created);
      } else {
        OtherCallsKeepRecords(s.tables, a);
        SameRecordsKeepOnce(s.tables, ApiTables(s.tables, a));
      }
    case ClaimRun(w, r, setup) =>
      ClaimKeepsRecords(s, w, r, setup);
      SameRecordsKeepOnce(s.tables, Apply(s, step).tables);
    case Work(w, result) =>
      if CanWork(s, w, result) {
        WorkKeepsRecords(s.tables, s.workers[w]);
        SameRecordsKeepOnce(s.tables, WorkTables(s.tables, s.workers[w]));
      }
    case Crash(w) =>
  }

  lemma ClaimKeepsRecords(s: State, w: WorkerId, r: RunId, setup: Setup)
    ensures SameRecords(s.tables, ClaimStep(s, w, r, setup).tables)
  {
  }

  lemma {:induction false} ReachKeepsOnce(s: State, steps: seq<Step>)
    requires Inv(s) && Once(s.tables)
    ensures Once(Reach(s, steps).tables)
    decreases |steps|
  {
    hide Inv, Once, Apply;
    if steps != [] {
      ApplyKeepsOnce(s, steps[0]);
      ApplyKeeps(s, steps[0]);
      ReachKeepsOnce(Apply(s, steps[0]), steps[1..]);
    }
  }

  /** However many dispatchers race, no fire of a job is recorded twice and no run belongs to two records. */
  lemma FiresRecordedOnce(steps: seq<Step>)
    ensures Once(Reach(START, steps).tables)
  {
    hide Reach;
    RunSafety.StartHolds();
    ReachKeepsOnce(START, steps);
  }
}
