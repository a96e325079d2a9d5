// How many active runs a thread can have (createRunInPostgres,
// services/api-server/internal/server/server.go:1977-2027, with creations serialised).

module RunLoad {
  import opened Basics
  import opened RunTables
  import opened WorkerProgram
  import opened RunProtocol
  import RunSafety

  /** No step but a creation makes a run active that was not active before. */
  ghost predicate NoNewActive(t: Tables, t': Tables)
  {
    forall r :: r in t'.runs && Active(t'.runs[r].status) && t'.runs[r].thread.Some? ==>
      r in t.runs && Active(t.runs[r].status) && t'.runs[r].thread == t.runs[r].thread
  }

  lemma FewerActive(t: Tables, t': Tables, thread: ThreadId)
    requires NoNewActive(t, t')
    ensures |ActiveRuns(t'.runs, thread)| <= |ActiveRuns(t.runs, thread)|
  {
    SubsetSize(ActiveRuns(t'.runs, thread), ActiveRuns(t.runs, thread));
  }

  lemma SubsetSize<T>(a: set<T>, b: set<T>)
    requires a <= b
    ensures |a| <= |b|
  {
    assert b == a + (b - a);
  }

  ghost predicate Bounded(s: State)
  {
    forall thread :: |ActiveRuns(s.tables.runs, thread)| <= 1 + Get(s.enqueued, thread, 0)
  }

  /** What a creation adds: the new run, in place of the picked one unless the strategy is enqueue. */
  lemma CreationActive(t: Tables, a: ApiStep, thread: ThreadId)
    requires Good(t) && a.CreateThreadRun? && Creation(t, a).Ok?
    ensures var before := ActiveRuns(t.runs, thread);
            var after := ActiveRuns(Creation(t, a).value.runs, thread);
            if thread != a.thread then after == before
            else if a.strategy.Enqueue? || a.pick.None? then after == before + {t.issued}
            else a.pick.value in before && after == before - {a.pick.value} + {t.issued}
    ensures a.pick.None? && thread == a.thread ==> ActiveRuns(t.runs, thread) == {}
  {
  }

  lemma CreationBound(t: Tables, a: ApiStep, thread: ThreadId)
    requires Good(t) && a.CreateThreadRun? && Creation(t, a).Ok?
    ensures var before := |ActiveRuns(t.runs, thread)|;
            var after := |ActiveRuns(Creation(t, a).value.runs, thread)|;
            if thread == a.thread && a.strategy.Enqueue? then after == before + 1
            else after <= if before == 0 then 1 else before
  {
    hide Creation, Good;
    var before := ActiveRuns(t.runs, thread);
    CreationActive(t, a, thread);
    assert t.issued !in before by { NotYetActive(t, thread); }
    if thread == a.thread && a.pick.Some? && !a.strategy.Enqueue? {
      assert |before - {a.pick.value}| == |before| - 1;
    }
  }

  lemma NotYetActive(t: Tables, thread: ThreadId)
    requires Good(t)
    ensures t.issued !in ActiveRuns(t.runs, thread)
  {
  }

  lemma ApiTablesNoNewActive(t: Tables, a: ApiStep)
    requires Good(t) && !a.CreateThreadRun?
    ensures NoNewActive(t, ApiTables(t, a))
  {
  }

  lemma WorkTablesNoNewActive(t: Tables, wk: Worker)
    requires Works(wk) && TodoHolds(t, wk.run, wk.todo)
    ensures NoNewActive(t, WorkTables(t, wk))
  {
  }

  lemma ApplyBounds(s: State, step: Step)
    requires Inv(s) && Bounded(s)
    ensures Bounded(Apply(s, step))
  {
    hide Good, ActiveRuns, Creation, NoNewActive, WorkTables, Remaining, WorkRedis, ApiRedis, ApiQueueing;
    var s' := Apply(s, step);
    forall thread ensures |ActiveRuns(s'.tables.runs, thread)| <= 1 + Get(s'.enqueued, thread, 0) {
      assert |ActiveRuns(s.tables.runs, thread)| <= 1 + Get(s.enqueued, thread, 0);
      match step
      case Api(a) =>
        if a.CreateThreadRun? {
          if Creation(s.tables, a).Ok? {
            CreationBound(s.tables, a, thread);
          }
        } else {
          ApiTablesNoNewActive(s.tables, a);
          FewerActive(s.tables, s'.tables, thread);
        }
      case ClaimRun(w, r, setup) =>
        ClaimNoNewActive(s, w, r, setup);
        FewerActive(s.tables, s'.tables, thread);
      case Work(w, result) =>
        if CanWork(s, w, result) {
          assert WorkerHolds(s, s.workers[w]);
          WorkTablesNoNewActive(s.tables, s.workers[w]);
          FewerActive(s.tables, s'.tables, thread);
        }
      case Crash(w) =>
    }
  }

  lemma ClaimNoNewActive(s: State, w: WorkerId, r: RunId, setup: Setup)
    ensures NoNewActive(s.tables, ClaimStep(s, w, r, setup).tables)
  {
  }

  lemma {:induction false} ReachBounds(s: State, steps: seq<Step>)
    requires Inv(s) && Bounded(s)
    ensures Bounded(Reach(s, steps))
    decreases |steps|
  {
    hide Inv, Bounded, Apply;
    if steps != [] {
      ApplyBounds(s, steps[0]);
      ApplyKeeps(s, steps[0]);
      ReachBounds(Apply(s, steps[0]), steps[1..]);
    }
  }

  ghost function Busy(runs: map<RunId, Run>, thread: ThreadId): set<RunId>
  {
    set r | r in runs && runs[r].thread == Some(thread) && (runs[r].status == Pending || runs[r].status == Running)
  }

  /** The pending-or-running runs of a thread never exceed one plus its enqueue creations. */
  lemma ActiveRunsBounded(steps: seq<Step>, thread: ThreadId)
    ensures var s := Reach(START, steps);
            |Busy(s.tables.runs, thread)| <= 1 + Get(s.enqueued, thread, 0)
  {
    hide Inv, Reach;
    RunSafety.StartHolds();
    assert forall th :: ActiveRuns(START.tables.runs, th) == {};
    ReachBounds(START, steps);
    BusyIsActive(Reach(START, steps).tables.runs, thread);
  }

  lemma BusyIsActive(runs: map<RunId, Run>, thread: ThreadId)
    ensures Busy(runs, thread) == ActiveRuns(runs, thread)
  {
  }

  predicate Enqueues(step: Step, thread: ThreadId)
  {
    step.Api? && step.call.CreateThreadRun? && step.call.strategy.Enqueue? && step.call.thread == thread
  }

  lemma {:induction false} NoEnqueueNoCount(s: State, steps: seq<Step>, thread: ThreadId)
    requires forall i :: 0 <= i < |steps| ==> !Enqueues(steps[i], thread)
    ensures Get(Reach(s, steps).enqueued, thread, 0) == Get(s.enqueued, thread, 0)
    decreases |steps|
  {
    hide ApiTables, ApiRedis, ApiQueueing, Creation, WorkTables, WorkRedis, Remaining;
    if steps != [] {
      assert !Enqueues(steps[0], thread);
      NoEnqueueNoCount(Apply(s, steps[0]), steps[1..], thread);
    }
  }

  /** With no enqueue creation a thread never has two active runs. */
  lemma SingleActiveRun(steps: seq<Step>, thread: ThreadId, r: RunId, q: RunId)
    requires forall i :: 0 <= i < |steps| ==> !Enqueues(steps[i], thread)
    requires r in Busy(Reach(START, steps).tables.runs, thread)
    requires q in Busy(Reach(START, steps).tables.runs, thread)
    ensures r == q
  {
    hide Reach, Busy;
    ActiveRunsBounded(steps, thread);
    NoEnqueueNoCount(START, steps, thread);
    var active := Busy(Reach(START, steps).tables.runs, thread);
    if r != q {
      SubsetSize({r, q}, active);
    }
  }
}
