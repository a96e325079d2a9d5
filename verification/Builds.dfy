// In-memory builds and their metrics (services/builder/internal/api/api.go:253-289, 397-428,
// 611-628): one gauge per status and a counter of failures.

module Builds {
  import opened Basics

  type BuildId = nat

  datatype Status = Unknown | Queued | Running | Succeeded | Failed | FailedValidation

  predicate IsFailure(s: Status) { s.Failed? || s.FailedValidation? }

  datatype Record = Record(status: Status, job: bool)

  datatype State = State(
    builds: map<BuildId, Record>,
    status: map<BuildId, Status>,
    gauge: map<Status, int>,
    failures: nat,
    issued: nat)

  const EMPTY := State(map[], map[], map[], 0, 0)

  function At(gauge: map<Status, int>, st: Status): int { if st in gauge then gauge[st] else 0 }

  /** updateBuildMetricsLocked; Unknown stands for the empty status. */
  function Account(s: State, id: BuildId, before: Status, after: Status): State
  {
    var prev := if before.Unknown? && id in s.status then s.status[id] else before;
    if prev == after then s
    else
      var g1 := if prev.Unknown? then s.gauge else s.gauge[prev := At(s.gauge, prev) - 1];
      if after.Unknown? then s.(gauge := g1)
      else s.(gauge := g1[after := At(g1, after) + 1],
              failures := s.failures + if IsFailure(after) then 1 else 0,
              status := s.status[id := after])
  }

  /** triggerBuild: a job is queued, or without a cluster the build counts as done. */
  function Trigger(s: State, withJob: bool): State
  {
    var rec := Record(if withJob then Queued else Succeeded, withJob);
    Account(s.(builds := s.builds[s.issued := rec], issued := s.issued + 1), s.issued, Unknown, rec.status)
  }

  /** refreshBuildRuntimeStatus; `seen` is what the cluster says of the job, None when it cannot be asked. */
  function Refresh(s: State, id: BuildId, seen: Option<Status>): State
    requires id in s.builds
  {
    var rec := s.builds[id];
    if !rec.job || seen.None? || seen.value.Unknown? || seen.value == rec.status then s
    else
      var s1 := Account(s, id, rec.status, seen.value);
      s1.(builds := s1.builds[id := Record(seen.value, true)])
  }

  /** getBuild */
  function Get(s: State, id: BuildId, seen: Option<Status>): State
  {
    if id !in s.builds then s
    else
      var s1 := Refresh(s, id, seen);
      Account(s1, id, Unknown, s1.builds[id].status)
  }

  datatype Call = TriggerIt(withJob: bool) | GetIt(id: BuildId, seen: Option<Status>)

  function Handle(s: State, c: Call): State
  {
    match c
    case TriggerIt(withJob) => Trigger(s, withJob)
    case GetIt(id, seen) => Get(s, id, seen)
  }

  function Reach(s: State, cs: seq<Call>): State
    decreases |cs|
  {
    if cs == [] then s else Reach(Handle(s, cs[0]), cs[1..])
  }

  // ---------------------------------------------------------------------------
  // What the metrics must say, from the builds alone
  // ---------------------------------------------------------------------------

  function In(builds: map<BuildId, Record>, st: Status): set<BuildId> { set id | id in builds && builds[id].status == st }

  /** Builds that are in a failed status after the call and were not in that status before it. */
  function NewFailures(s: State, s': State): set<BuildId>
  {
    set id | id in s'.builds && s'.builds[id].status in {Failed, FailedValidation} && !(id in s.builds && s.builds[id].status == s'.builds[id].status)
  }

  function FailureMoves(s: State, cs: seq<Call>): nat
    decreases |cs|
  {
    if cs == [] then 0 else |NewFailures(s, Handle(s, cs[0]))| + FailureMoves(Handle(s, cs[0]), cs[1..])
  }

  ghost predicate Accounted(s: State)
  {
    && s.status.Keys == s.builds.Keys
    && (forall id :: id in s.builds ==> id < s.issued && s.status[id] == s.builds[id].status && !s.builds[id].status.Unknown?)
    && (forall st: Status :: !st.Unknown? ==> At(s.gauge, st) == |In(s.builds, st)|)
  }

  lemma InIs(builds: map<BuildId, Record>, id: BuildId, rec: Record, st: Status)
    ensures In(builds[id := rec], st) == (In(builds, st) - {id}) + (if rec.status == st then {id} else {})
  {
  }

  lemma InAfter(builds: map<BuildId, Record>, id: BuildId, rec: Record, st: Status)
    ensures |In(builds[id := rec], st)| ==
            |In(builds, st)| - (if id in In(builds, st) then 1 else 0) + (if rec.status == st then 1 else 0)
  {
    InIs(builds, id, rec, st);
    hide In;
    var all := In(builds, st);
    var rest := all - {id};
    if id in all {
      assert all == rest + {id};
    } else {
      assert rest == all;
    }
    if rec.status == st {
      assert |rest + {id}| == |rest| + 1;
    } else {
      assert rest + {} == rest;
    }
  }

  lemma TriggerIs(s: State, withJob: bool)
    requires s.issued !in s.status
    ensures var rec := Record(if withJob then Queued else Succeeded, withJob);
            Trigger(s, withJob) == State(s.builds[s.issued := rec], s.status[s.issued := rec.status],
                                         s.gauge[rec.status := At(s.gauge, rec.status) + 1], s.failures, s.issued + 1)
  {
  }

  lemma TriggerAccounts(s: State, withJob: bool)
    requires Accounted(s)
    ensures Accounted(Trigger(s, withJob)) && Trigger(s, withJob).failures == s.failures
    ensures NewFailures(s, Trigger(s, withJob)) == {}
  {
    hide In, Trigger, NewFailures;
    TriggerIs(s, withJob);
    var rec := Record(if withJob then Queued else Succeeded, withJob);
    var s' := Trigger(s, withJob);
    NoFailureAdded(s, s', rec);
    forall st: Status | !st.Unknown? ensures At(s'.gauge, st) == |In(s'.builds, st)| {
      InAfter(s.builds, s.issued, rec, st);
      NotYetIn(s, st);
      assert At(s.gauge, st) == |In(s.builds, st)|;
    }
  }

  lemma NoFailureAdded(s: State, s': State, rec: Record)
    requires s'.builds == s.builds[s.issued := rec] && !IsFailure(rec.status)
    ensures NewFailures(s, s') == {}
  {
  }

  lemma NotYetIn(s: State, st: Status)
    requires Accounted(s)
    ensures s.issued !in In(s.builds, st)
  {
  }

  lemma RefreshAccounts(s: State, id: BuildId, seen: Option<Status>)
    requires Accounted(s) && id in s.builds
    ensures Accounted(Refresh(s, id, seen))
    ensures Refresh(s, id, seen).failures == s.failures + |NewFailures(s, Refresh(s, id, seen))|
  {
    var s' := Refresh(s, id, seen);
    var rec := s.builds[id];
    if s' == s {
      assert NewFailures(s, s') == {};
    } else {
      var after := Record(seen.value, true);
      assert NewFailures(s, s') == if IsFailure(seen.value) then {id} else {};
      Regauged(s, id, after);
    }
  }

  lemma Regauged(s: State, id: BuildId, after: Record)
    requires Accounted(s) && id in s.builds && after.status != s.builds[id].status && !after.status.Unknown?
    ensures var s1 := Account(s, id, s.builds[id].status, after.status);
            Accounted(s1.(builds := s1.builds[id := after]))
  {
    hide In;
    var before := s.builds[id].status;
    var s1 := Account(s, id, before, after.status);
    AccountIs(s, id, before, after.status);
    hide Account, At;
    var s2 := s1.(builds := s1.builds[id := after]);
    forall st: Status | !st.Unknown? ensures At(s2.gauge, st) == |In(s2.builds, st)| {
      InAfter(s.builds, id, after, st);
      InStatus(s, id, st);
    }
  }

  lemma InStatus(s: State, id: BuildId, st: Status)
    requires id in s.builds
    ensures id in In(s.builds, st) <==> s.builds[id].status == st
  {
  }

  /** One build moves from one gauge to another; one that loses its status only leaves its gauge. */
  lemma AccountIs(s: State, id: BuildId, before: Status, after: Status)
    requires before != after && !before.Unknown?
    ensures var s1 := Account(s, id, before, after);
            && s1 == s.(gauge := s1.gauge, failures := s1.failures, status := if after.Unknown? then s.status else s.status[id := after])
            && s1.failures == s.failures + (if after in {Failed, FailedValidation} then 1 else 0)
            && forall st: Status :: !st.Unknown? ==>
                 At(s1.gauge, st) == At(s.gauge, st) + (if st == after then 1 else 0) - (if st == before then 1 else 0)
  {
  }

  lemma GetAccounts(s: State, id: BuildId, seen: Option<Status>)
    requires Accounted(s)
    ensures Accounted(Get(s, id, seen)) && Get(s, id, seen).failures == s.failures + |NewFailures(s, Get(s, id, seen))|
  {
    hide In, Refresh;
    if id in s.builds {
      RefreshAccounts(s, id, seen);
      assert Get(s, id, seen) == Refresh(s, id, seen) by { SameBuilds(s, id, seen); }
    } else {
      assert NewFailures(s, s) == {};
    }
  }

  lemma SameBuilds(s: State, id: BuildId, seen: Option<Status>)
    requires id in s.builds
    ensures id in Refresh(s, id, seen).builds
  {
  }

  /** What a call does to the builds. A new build is queued with a job and done without one. Asking for a build takes over
      what the cluster says of its job when that is a known status; nothing else ever changes. */
  lemma HandleDoes(s: State, c: Call)
    ensures var s' := Handle(s, c);
            match c
            case TriggerIt(withJob) =>
              s'.issued == s.issued + 1 && s'.builds == s.builds[s.issued := if withJob then Record(Queued, true) else Record(Succeeded, false)]
            case GetIt(id, seen) =>
              && s'.issued == s.issued
              && (id in s.builds && s.builds[id].job && seen.Some? && seen.value != Unknown ==> s'.builds == s.builds[id := Record(seen.value, true)])
              && (id !in s.builds || !s.builds[id].job || seen.None? || seen.value == Unknown ==> s'.builds == s.builds)
  {
    match c {
      case TriggerIt(_) =>
      case GetIt(id, seen) =>
        if id in s.builds && s.builds[id].job && seen.Some? && seen.value == s.builds[id].status {
          assert s.builds[id := Record(seen.value, true)] == s.builds;
        }
    }
  }

  lemma {:induction false} ReachAccounts(s: State, cs: seq<Call>)
    requires Accounted(s)
    ensures Accounted(Reach(s, cs)) && Reach(s, cs).failures == s.failures + FailureMoves(s, cs)
    decreases |cs|
  {
    hide Accounted, Trigger, Get, NewFailures;
    if cs != [] {
      match cs[0] {
        case TriggerIt(withJob) => TriggerAccounts(s, withJob);
        case GetIt(id, seen) => GetAccounts(s, id, seen);
      }
      ReachAccounts(Handle(s, cs[0]), cs[1..]);
    }
  }

  /** Over every sequential run: each gauge is the number of builds in its status, and the failure counter is
      the number of moves into a failed status. */
  lemma MetricsAreExact(cs: seq<Call>, st: Status)
    requires !st.Unknown?
    ensures var s := Reach(EMPTY, cs);
            At(s.gauge, st) == |In(s.builds, st)| && s.failures == FailureMoves(EMPTY, cs)
  {
    hide Reach;
    assert forall t: Status :: In(EMPTY.builds, t) == {};
    ReachAccounts(EMPTY, cs);
  }

  // ---------------------------------------------------------------------------
  // The handlers
  // ---------------------------------------------------------------------------

  class Builder {
    var builds: map<BuildId, Record>
    var status: map<BuildId, Status>
    var gauge: map<Status, int>
    var failures: nat
    var issued: nat

    constructor ()
      ensures View() == EMPTY
    {
      builds, status, gauge, failures, issued := map[], map[], map[], 0, 0;
    }

    ghost function View(): State
      reads this
    {
      State(builds, status, gauge, failures, issued)
    }

    method UpdateBuildMetrics(id: BuildId, before: Status, next: Status)
      modifies `status, `gauge, `failures
      ensures View() == Account(old(View()), id, before, next)
    {
      var prev := before;
      if prev.Unknown? && id in status {
        prev := status[id];
      }
      if prev == next {
        return;
      }
      if !prev.Unknown? {
        gauge := gauge[prev := (if prev in gauge then gauge[prev] else 0) - 1];
      }
      if !next.Unknown? {
        gauge := gauge[next := (if next in gauge then gauge[next] else 0) + 1];
        if next.Failed? || next.FailedValidation? {
          failures := failures + 1;
        }
        status := status[id := next];
      }
    }

    method TriggerBuild(withJob: bool) returns (id: BuildId)
      modifies this
      ensures View() == Trigger(old(View()), withJob) && id == old(issued)
    {
      id := issued;
      issued := issued + 1;
      var rec := Record(if withJob then Queued else Succeeded, withJob);
      builds := builds[id := rec];
      UpdateBuildMetrics(id, Unknown, rec.status);
    }

    method RefreshBuildRuntimeStatus(id: BuildId, rec: Record, seen: Option<Status>) returns (current: Record)
      requires id in builds && builds[id] == rec
      modifies `builds, `status, `gauge, `failures
      ensures View() == Refresh(old(View()), id, seen) && id in builds && current == builds[id]
    {
      if !rec.job || seen.None? || seen.value.Unknown? || seen.value == rec.status {
        return rec;
      }
      current := Record(seen.value, true);
      UpdateBuildMetrics(id, rec.status, seen.value);
      builds := builds[id := current];
    }

    method GetBuild(id: BuildId, seen: Option<Status>) returns (found: Option<Record>)
      modifies `builds, `status, `gauge, `failures
      ensures View() == Get(old(View()), id, seen)
      ensures found == if id in builds then Some(builds[id]) else None
    {
      if id !in builds {
        return None;
      }
      var rec := RefreshBuildRuntimeStatus(id, builds[id], seen);
      UpdateBuildMetrics(id, Unknown, rec.status);
      found := Some(rec);
    }
  }
}
