// What becomes of a run whose worker dies: nothing in the services takes it up again
// (services/worker/internal/engine/engine.go:424-541 selects pending runs only).

module RunCrash {
  import opened Basics
  import opened RunTables
  import opened StreamEvents
  import opened WorkerProgram
  import opened RunProtocol
  import RunSafety

  /** Somebody cancels or deletes the run, or a creation makes room at its expense. */
  predicate Ends(s: State, step: Step, r: RunId)
  {
    match step
    case Api(CancelRow(q, _)) => q == r
    case Api(DeleteRunRow(q, _)) => q == r
    case Api(DeleteThreadRows(thread)) => r in s.tables.runs && s.tables.runs[r].thread == Some(thread)
    case Api(CreateThreadRun(_, strategy, _, pick, _)) => pick == Some(r) && (strategy.Interrupt? || strategy.Rollback?)
    case _ => false
  }

  predicate NeverEnds(s: State, steps: seq<Step>, r: RunId)
    decreases |steps|
  {
    steps != [] ==> !Ends(s, steps[0], r) && NeverEnds(Apply(s, steps[0]), steps[1..], r)
  }

  predicate Row(t: Tables, r: RunId, row: Run) { r in t.runs && t.runs[r] == row }

  /** The row, no worker on it, and nothing published but what was and run_queued. */
  ghost predicate Orphaned(s: State, r: RunId, row: Run, told: seq<Event>)
  {
    && Row(s.tables, r, row) && Claimed(s, r)
    && (forall v :: v in s.workers ==> s.workers[v].run != r)
    && OnlyQueuedSince(ChannelOf(s, r), told)
  }

  predicate OnlyQueuedSince(log: seq<Event>, told: seq<Event>)
  {
    told <= log && forall i :: |told| <= i < |log| ==> log[i] == Event(1, RunQueued, "")
  }

  lemma ApiKeepsRow(s: State, a: ApiStep, r: RunId, row: Run)
    requires Good(s.tables) && Row(s.tables, r, row) && !Ends(s, Api(a), r)
    ensures Row(ApiTables(s.tables, a), r, row)
  {
  }

  lemma ApiKeepsOrphan(s: State, a: ApiStep, r: RunId, row: Run, told: seq<Event>)
    requires Inv(s) && Orphaned(s, r, row, told) && !Ends(s, Api(a), r)
    ensures Orphaned(ApplyApi(s, a), r, row, told)
  {
    hide Good, WorkersHold, ClaimsHold, ApiTables, ApiQueueing, ApiEnqueued, Ends;
    ApiKeepsRow(s, a, r, row);
  }

  /** Workers touch only the runs they are on. */
  lemma WorkKeepsRow(t: Tables, wk: Worker, r: RunId, row: Run)
    requires Row(t, r, row) && Works(wk) && wk.run != r
    ensures Row(WorkTables(t, wk), r, row)
  {
  }

  lemma WorkKeepsOrphan(s: State, w: WorkerId, result: Result, r: RunId, row: Run, told: seq<Event>)
    requires Orphaned(s, r, row, told) && CanWork(s, w, result)
    ensures Orphaned(WorkStep(s, w, result), r, row, told)
  {
    hide WorkTables, Remaining;
    WorkKeepsRow(s.tables, s.workers[w], r, row);
  }

  lemma StepKeepsOrphan(s: State, step: Step, r: RunId, row: Run, told: seq<Event>)
    requires Inv(s) && Orphaned(s, r, row, told) && row.status == Running && !Ends(s, step, r)
    ensures Orphaned(Apply(s, step), r, row, told)
  {
    hide Good, WorkStep, ApplyApi, Ends, Begin;
    match step
    case Api(a) => ApiKeepsOrphan(s, a, r, row, told);
    case ClaimRun(w, q, _) => ClaimKeepsOrphan(s, step, r, row, told);
    case Work(w, result) =>
      if CanWork(s, w, result) {
        WorkKeepsOrphan(s, w, result, r, row, told);
      }
    case Crash(_) =>
  }

  lemma ClaimKeepsOrphan(s: State, step: Step, r: RunId, row: Run, told: seq<Event>)
    requires Orphaned(s, r, row, told) && row.status == Running && step.ClaimRun?
    ensures Orphaned(Apply(s, step), r, row, told)
  {
    hide Begin;
    var s' := Apply(s, step);
    var i :| 0 <= i < |s.claims| && s.claims[i].run == r;
    assert s'.claims[i].run == r;
  }

  lemma {:induction false} OrphanStays(s: State, steps: seq<Step>, r: RunId, row: Run, told: seq<Event>)
    requires Inv(s) && Orphaned(s, r, row, told) && row.status == Running && NeverEnds(s, steps, r)
    ensures Orphaned(Reach(s, steps), r, row, told)
    decreases |steps|
  {
    hide Inv, Orphaned, Apply, Ends;
    if steps != [] {
      StepKeepsOrphan(s, steps[0], r, row, told);
      ApplyKeeps(s, steps[0]);
      OrphanStays(Apply(s, steps[0]), steps[1..], r, row, told);
    }
  }

  /** When a worker dies, its run stays exactly as it is, under no worker and with nothing more told than a late
      run_queued, over every continuation in which nobody cancels or deletes it or makes room at its expense. */
  lemma CrashedRunStays(steps: seq<Step>, w: WorkerId, more: seq<Step>)
    requires var s := Reach(START, steps);
             && w in s.workers
             && (var r := s.workers[w].run;
                 && r in s.tables.runs && s.tables.runs[r].status == Running
                 && NeverEnds(Apply(s, Crash(w)), more, r))
    ensures var s := Reach(START, steps);
            var r := s.workers[w].run;
            var s' := Reach(START, steps + [Crash(w)] + more);
            && r in s'.tables.runs && s'.tables.runs[r] == s.tables.runs[r]
            && (forall v :: v in s'.workers ==> s'.workers[v].run != r)
            && OnlyQueuedSince(ChannelOf(s', r), ChannelOf(s, r))
  {
    hide Reach, NeverEnds;
    var s := Reach(START, steps);
    var s1 := Apply(s, Crash(w));
    RunSafety.ReachableHolds(steps);
    ReachAppend(START, steps, [Crash(w)]);
    ReachAppend(START, steps + [Crash(w)], more);
    ReachCrash(s, w);
    CrashOrphans(s, w);
    ApplyKeeps(s, Crash(w));
    hide Inv, Apply, Orphaned;
    var r := s.workers[w].run;
    OrphanStays(s1, more, r, s.tables.runs[r], ChannelOf(s, r));
    OrphanedMeans(Reach(s1, more), r, s.tables.runs[r], ChannelOf(s, r));
  }

  lemma OrphanedMeans(s: State, r: RunId, row: Run, told: seq<Event>)
    requires Orphaned(s, r, row, told)
    ensures Row(s.tables, r, row) && (forall v :: v in s.workers ==> s.workers[v].run != r) && OnlyQueuedSince(ChannelOf(s, r), told)
  {
  }

  lemma ReachCrash(s: State, w: WorkerId)
    ensures Reach(s, [Crash(w)]) == Apply(s, Crash(w))
  {
    assert [Crash(w)][1..] == [];
  }

  lemma CrashOrphans(s: State, w: WorkerId)
    requires Inv(s) && w in s.workers && s.workers[w].run in s.tables.runs
    ensures var r := s.workers[w].run; Orphaned(Apply(s, Crash(w)), r, s.tables.runs[r], ChannelOf(s, r))
  {
    hide Good;
    var r := s.workers[w].run;
    assert WorkerHolds(s, s.workers[w]);
    var i :| 0 <= i < |s.claims| && s.claims[i].run == r;
    assert Apply(s, Crash(w)).claims[i].run == r;
  }
}
