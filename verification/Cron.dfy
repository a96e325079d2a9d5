// Cron catch-up (dispatchCronJob and createRunForCron,
// services/worker/internal/engine/engine.go:895-961). A schedule is any function that
// gives the strictly later, earliest next fire.

module Cron {
  import opened Basics
  import opened RunTables
  import Platform

  const HOUR := 3600
  const CATCH_UP := 12

  /** next(t) is later than t, and there is no fire in between. */
  ghost predicate Schedule(next: int -> int)
  {
    && (forall t :: next(t) > t)
    && (forall t, u :: t <= u < next(t) ==> next(u) == next(t))
  }

  /** The times recorded for a job. */
  function Times(t: Tables, job: JobId): set<int>
  {
    set e | e in t.cronExecs && t.cronExecs[e].job == job :: t.cronExecs[e].at
  }

  /** SELECT MAX(scheduled_for) */
  predicate Latest(times: set<int>, last: Option<int>)
  {
    match last
    case None => times == {}
    case Some(m) => m in times && forall x :: x in times ==> x <= m
  }

  function Baseline(last: Option<int>, now: int): int { if last.Some? then last.value else now - HOUR }

  /** At most `n` fires after `baseline`, each one recorded with its run. */
  function CatchUp(t: Tables, job: JobId, next: int -> int, baseline: int, now: int, n: nat): Tables
    decreases n
  {
    if n == 0 || next(baseline) > now then t
    else CatchUp(CreateCronRun(t, job, next(baseline), now), job, next, next(baseline), now, n - 1)
  }

  // ---------------------------------------------------------------------------
  // The loop of the source
  // ---------------------------------------------------------------------------

  method LastScheduled(store: Platform.Store, job: JobId) returns (last: Option<int>)
    ensures Latest(Times(store.Rows(), job), last)
  {
    last := None;
    var rest := store.cronExecs.Keys;
    while rest != {}
      invariant rest <= store.cronExecs.Keys
      invariant match last
                case None => forall e :: e in store.cronExecs && store.cronExecs[e].job == job ==> e in rest
                case Some(m) =>
                  && (exists e :: e in store.cronExecs && store.cronExecs[e].job == job && store.cronExecs[e].at == m)
                  && (forall e :: e in store.cronExecs && store.cronExecs[e].job == job && e !in rest ==> store.cronExecs[e].at <= m)
    {
      var e :| e in rest;
      rest := rest - {e};
      if store.cronExecs[e].job == job && (last.None? || last.value < store.cronExecs[e].at) {
        last := Some(store.cronExecs[e].at);
      }
    }
  }

  /** dispatchCronJob; `works` counts the createRunForCron calls that succeed before one fails. */
  method DispatchCronJob(store: Platform.Store, job: JobId, next: int -> int, now: int, works: nat) returns (ok: bool, ghost baseline0: int)
    modifies store
    ensures exists last :: Latest(Times(old(store.Rows()), job), last) && baseline0 == Baseline(last, now)
    ensures store.Rows() == CatchUp(old(store.Rows()), job, next, baseline0, now, if works < CATCH_UP then works else CATCH_UP)
    ensures store.Keys() == old(store.Keys())
    ensures works >= CATCH_UP ==> ok
  {
    var baseline := now - HOUR;
    var last := LastScheduled(store, job);
    if last.Some? {
      baseline := last.value;
    }
    baseline0 := baseline;
    ghost var n := if works < CATCH_UP then works else CATCH_UP;
    for i := 0 to CATCH_UP
      invariant i <= n
      invariant CatchUp(store.Rows(), job, next, baseline, now, n - i) == CatchUp(old(store.Rows()), job, next, baseline0, now, n)
      invariant store.Keys() == old(store.Keys())
    {
      var due := next(baseline);
      if due > now {
        break;
      }
      if i == works {
        return false, baseline0;
      }
      store.CreateRunForCron(job, due, now);
      baseline := due;
    }
    ok := true;
  }

  // ---------------------------------------------------------------------------
  // One dispatcher
  // ---------------------------------------------------------------------------

  /** Between two recorded times, the next fire after the earlier one is recorded too. */
  ghost predicate GapFree(next: int -> int, times: set<int>)
  {
    forall x, y :: x in times && y in times && x < y ==> next(x) in times && next(x) <= y
  }

  /** That is, each recorded time is the next fire after the one before it. */
  lemma GapFreeIsChain(next: int -> int, times: set<int>, x: int, y: int)
    requires Schedule(next) && GapFree(next, times)
    requires x in times && y in times && x < y && forall z :: z in times ==> z <= x || y <= z
    ensures y == next(x)
  {
    assert x < next(x) <= y && next(x) in times;
  }

  lemma CreationAddsTime(t: Tables, job: JobId, at: int, created: int)
    requires Good(t)
    ensures var t' := CreateCronRun(t, job, at, created);
            && Times(t', job) == Times(t, job) + {at}
            && forall other :: other != job ==> Times(t', other) == Times(t, other)
  {
    var t' := CreateCronRun(t, job, at, created);
    if !Dispatched(t, job, at) {
      var e := t.issued + 1;
      assert t'.cronExecs[e] == CronExec(job, t.issued, at, Queued);
      assert forall d :: d in t.cronExecs ==> d in t'.cronExecs && t'.cronExecs[d] == t.cronExecs[d];
      assert forall d :: d in t'.cronExecs ==> d == e || d in t.cronExecs;
      forall x | x in Times(t, job) + {at} ensures x in Times(t', job) {
        if x == at {
          assert t'.cronExecs[e].at == x;
        } else {
          var d :| d in t.cronExecs && t.cronExecs[d].job == job && t.cronExecs[d].at == x;
          assert t'.cronExecs[d].at == x;
        }
      }
      forall other | other != job ensures Times(t', other) == Times(t, other) {
        forall x | x in Times(t, other) ensures x in Times(t', other) {
          var d :| d in t.cronExecs && t.cronExecs[d].job == other && t.cronExecs[d].at == x;
          assert t'.cronExecs[d].at == x;
        }
      }
    }
  }

  /** A fire after the latest recorded time extends the chain. */
  lemma ExtendGapFree(next: int -> int, times: set<int>, last: Option<int>, at: int)
    requires Schedule(next) && GapFree(next, times) && Latest(times, last)
    requires last.Some? ==> at == next(last.value)
    ensures GapFree(next, times + {at}) && Latest(times + {at}, Some(at))
  {
  }

  /** What one catch-up leaves: a gap-free chain, at most `n` new times, none later than now; and unless all
      `n` were used, no fire is due any more. */
  ghost predicate CaughtUp(next: int -> int, before: set<int>, after: set<int>, baseline: int, now: int, n: nat)
  {
    && GapFree(next, after) && before <= after
    && |after - before| <= n
    && (forall x :: x in after - before ==> baseline < x <= now)
    && (exists last :: Latest(after, last) && (|after - before| == n || next(if last.Some? then last.value else baseline) > now))
  }

  lemma {:induction false} CatchUpWorks(t: Tables, job: JobId, next: int -> int, last: Option<int>, baseline: int, now: int, n: nat)
    requires Good(t) && Schedule(next) && GapFree(next, Times(t, job)) && Latest(Times(t, job), last)
    requires last.Some? ==> baseline == last.value
    ensures var t' := CatchUp(t, job, next, baseline, now, n);
            && Good(t') && CaughtUp(next, Times(t, job), Times(t', job), baseline, now, n)
            && forall other :: other != job ==> Times(t', other) == Times(t, other)
    decreases n
  {
    hide Good, Times, CreateCronRun, GapFree, CaughtUp;
    var before := Times(t, job);
    if n == 0 || next(baseline) > now {
      NothingDue(next, before, last, baseline, now, n);
    } else {
      var at := next(baseline);
      var t1 := CreateCronRun(t, job, at, now);
      CronRunKeeps(t, job, at, now);
      CreationAddsTime(t, job, at, now);
      ExtendGapFree(next, before, last, at);
      CatchUpWorks(t1, job, next, Some(at), at, now, n - 1);
      var after := Times(CatchUp(t, job, next, baseline, now, n), job);
      CaughtUpOneMore(next, before, at, after, baseline, now, n - 1);
    }
  }

  lemma NothingDue(next: int -> int, before: set<int>, last: Option<int>, baseline: int, now: int, n: nat)
    requires GapFree(next, before) && Latest(before, last) && (last.Some? ==> baseline == last.value)
    requires n == 0 || next(baseline) > now
    ensures CaughtUp(next, before, before, baseline, now, n)
  {
    hide GapFree;
    assert before - before == {};
  }

  lemma CaughtUpOneMore(next: int -> int, before: set<int>, at: int, after: set<int>, baseline: int, now: int, n: nat)
    requires at !in before && baseline < at <= now
    requires CaughtUp(next, before + {at}, after, at, now, n)
    ensures CaughtUp(next, before, after, baseline, now, n + 1)
  {
    hide GapFree;
    assert after - before == (after - (before + {at})) + {at};
    var last :| Latest(after, last) && (|after - (before + {at})| == n || next(if last.Some? then last.value else at) > now);
    assert at in after && last.Some?;
  }

  /** One tick of the only dispatcher. */
  lemma TickWorks(t: Tables, job: JobId, next: int -> int, last: Option<int>, now: int)
    requires Good(t) && Schedule(next) && GapFree(next, Times(t, job)) && Latest(Times(t, job), last)
    ensures var t' := CatchUp(t, job, next, Baseline(last, now), now, CATCH_UP);
            var baseline := if last.Some? then last.value else now - 3600;
            CaughtUp(next, Times(t, job), Times(t', job), baseline, now, 12)
  {
    CatchUpWorks(t, job, next, last, Baseline(last, now), now, CATCH_UP);
  }

  /** A tick of the only dispatcher: the latest time it reads, and the clock. */
  datatype Tick = Tick(last: Option<int>, now: int)

  function AfterTick(t: Tables, job: JobId, next: int -> int, tick: Tick): Tables
  {
    CatchUp(t, job, next, Baseline(tick.last, tick.now), tick.now, CATCH_UP)
  }

  predicate ReadsLatest(t: Tables, job: JobId, next: int -> int, ticks: seq<Tick>)
    decreases |ticks|
  {
    ticks != [] ==> Latest(Times(t, job), ticks[0].last) && ReadsLatest(AfterTick(t, job, next, ticks[0]), job, next, ticks[1..])
  }

  function AfterTicks(t: Tables, job: JobId, next: int -> int, ticks: seq<Tick>): Tables
    decreases |ticks|
  {
    if ticks == [] then t else AfterTicks(AfterTick(t, job, next, ticks[0]), job, next, ticks[1..])
  }

  /** Under one dispatcher, whatever its clock does, the recorded times stay a gap-free chain that only grows. */
  lemma {:induction false} OneDispatcherStaysGapFree(t: Tables, job: JobId, next: int -> int, ticks: seq<Tick>)
    requires Good(t) && Schedule(next) && GapFree(next, Times(t, job)) && ReadsLatest(t, job, next, ticks)
    ensures var t' := AfterTicks(t, job, next, ticks);
            Good(t') && GapFree(next, Times(t', job)) && Times(t, job) <= Times(t', job)
    decreases |ticks|
  {
    hide Good, Times, CatchUp, GapFree, Schedule;
    if ticks != [] {
      CatchUpWorks(t, job, next, ticks[0].last, Baseline(ticks[0].last, ticks[0].now), ticks[0].now, CATCH_UP);
      OneDispatcherStaysGapFree(AfterTick(t, job, next, ticks[0]), job, next, ticks[1..]);
    }
  }

  // ---------------------------------------------------------------------------
  // Many dispatchers
  // ---------------------------------------------------------------------------

  /** A dispatcher in its loop. */
  datatype Dispatcher = Dispatcher(job: JobId, baseline: int, now: int, left: nat)

  datatype Crowd = Crowd(tables: Tables, active: map<nat, Dispatcher>)

  datatype Turn =
    | Start(id: nat, job: JobId, now: int, last: Option<int>)
    | Fire(id: nat)
    | Leave(id: nat)

  /** One turn of one dispatcher: read the latest time, or record one fire, or stop. */
  function Take(c: Crowd, turn: Turn, next: JobId -> int -> int): Crowd
  {
    match turn
    case Start(id, job, now, last) =>
      if Latest(Times(c.tables, job), last)
      then c.(active := c.active[id := Dispatcher(job, Baseline(last, now), now, CATCH_UP)]) else c
    case Fire(id) =>
      if id in c.active && c.active[id].left > 0 && next(c.active[id].job)(c.active[id].baseline) <= c.active[id].now then
        var d := c.active[id];
        var at := next(d.job)(d.baseline);
        Crowd(CreateCronRun(c.tables, d.job, at, d.now), c.active[id := d.(baseline := at, left := d.left - 1)])
      else c
    case Leave(id) => c.(active := c.active - {id})
  }

  function TakeAll(c: Crowd, turns: seq<Turn>, next: JobId -> int -> int): Crowd
    decreases |turns|
  {
    if turns == [] then c else TakeAll(Take(c, turns[0], next), turns[1..], next)
  }

  function Fires(id: nat, n: nat): seq<Turn> { seq(n, _ => Fire(id)) }

  /** Any number of turns of one dispatcher in a row record what its loop records in as many of the rounds it has left. */
  lemma {:induction false} FiresAreCatchUp(c: Crowd, id: nat, n: nat, next: JobId -> int -> int)
    requires id in c.active
    ensures var (d, c') := (c.active[id], TakeAll(c, Fires(id, n), next));
            c'.tables == CatchUp(c.tables, d.job, next(d.job), d.baseline, d.now, if n < d.left then n else d.left) && id in c'.active && c'.active - {id} == c.active - {id}
    decreases n
  {
    hide CreateCronRun;
    if n > 0 {
      var d := c.active[id];
      var c1 := Take(c, Fire(id), next);
      assert Fires(id, n)[1..] == Fires(id, n - 1);
      if d.left > 0 && next(d.job)(d.baseline) <= d.now {
        FiresAreCatchUp(c1, id, n - 1, next);
        assert c1.active - {id} == c.active - {id};
      } else {
        FiresAreCatchUp(c, id, n - 1, next);
      }
    }
  }

  /** A dispatcher that nobody interferes with does one tick: it starts, takes its rounds, no more however often it gets
      a turn, and leaves. */
  lemma AloneIsTick(c: Crowd, id: nat, job: JobId, tick: Tick, n: nat, next: JobId -> int -> int)
    requires n >= CATCH_UP && id !in c.active && Latest(Times(c.tables, job), tick.last)
    ensures TakeAll(c, [Start(id, job, tick.now, tick.last)] + (Fires(id, n) + [Leave(id)]), next) ==
            Crowd(AfterTick(c.tables, job, next(job), tick), c.active)
  {
    hide CatchUp, Take, TakeAll, Latest;
    var (a, b, z) := (Start(id, job, tick.now, tick.last), Fires(id, n), Leave(id));
    var c1 := Take(c, a, next);
    StartsAt(c, id, job, tick, next);
    FiresAreCatchUp(c1, id, n, next);
    TakeOne(c, a, next);
    TakeAllAppend(c, [a], b + [z], next);
    TakeAllAppend(c1, b, [z], next);
    var c2 := TakeAll(c1, b, next);
    TakeOne(c2, z, next);
    Leaves(c2, id, next);
    assert c1.active - {id} == c.active;
  }

  lemma StartsAt(c: Crowd, id: nat, job: JobId, tick: Tick, next: JobId -> int -> int)
    requires Latest(Times(c.tables, job), tick.last)
    ensures Take(c, Start(id, job, tick.now, tick.last), next) ==
            Crowd(c.tables, c.active[id := Dispatcher(job, Baseline(tick.last, tick.now), tick.now, CATCH_UP)])
  {
    hide Latest, Times;
  }

  lemma Leaves(c: Crowd, id: nat, next: JobId -> int -> int)
    ensures Take(c, Leave(id), next) == Crowd(c.tables, c.active - {id})
  {
  }

  lemma TakeOne(c: Crowd, turn: Turn, next: JobId -> int -> int)
    ensures TakeAll(c, [turn], next) == Take(c, turn, next)
  {
    hide Take;
    assert [turn][1..] == [];
  }

  lemma {:induction false} TakeAllAppend(c: Crowd, a: seq<Turn>, b: seq<Turn>, next: JobId -> int -> int)
    ensures TakeAll(c, a + b, next) == TakeAll(TakeAll(c, a, next), b, next)
    decreases |a|
  {
    hide Take;
    if a == [] {
      assert a + b == b;
    } else {
      assert (a + b)[1..] == a[1..] + b;
      TakeAllAppend(Take(c, a[0], next), a[1..], b, next);
    }
  }

  /** Every dispatcher stands on a recorded time of its job. */
  ghost predicate Grounded(c: Crowd, next: JobId -> int -> int, job: JobId)
  {
    && Good(c.tables) && Times(c.tables, job) != {} && GapFree(next(job), Times(c.tables, job))
    && forall id :: id in c.active && c.active[id].job == job ==> c.active[id].baseline in Times(c.tables, job)
  }

  /** The next fire after a recorded time is recorded or extends the chain. */
  lemma FireFills(next: int -> int, times: set<int>, b: int)
    requires Schedule(next) && GapFree(next, times) && b in times
    ensures GapFree(next, times + {next(b)})
  {
    var at := next(b);
    forall x, y | x in times + {at} && y in times + {at} && x < y
      ensures next(x) in times + {at} && next(x) <= y
    {
      if at !in times {
        assert forall z :: z in times ==> z <= b;
      }
    }
  }

  lemma TakeKeepsGrounded(c: Crowd, turn: Turn, next: JobId -> int -> int, job: JobId)
    requires Schedule(next(job)) && Grounded(c, next, job)
    ensures Grounded(Take(c, turn, next), next, job)
  {
    hide Good, Times, CreateCronRun, GapFree;
    if turn.Fire? && Take(c, turn, next) != c {
      var d := c.active[turn.id];
      var at := next(d.job)(d.baseline);
      CronRunKeeps(c.tables, d.job, at, d.now);
      CreationAddsTime(c.tables, d.job, at, d.now);
      if d.job == job {
        FireFills(next(job), Times(c.tables, job), d.baseline);
      }
    }
  }

  /** Once a job has a record, and every dispatcher in its loop stands on one, the chain stays gap-free under
      every interleaving of any number of dispatchers. */
  lemma {:induction false} CrowdStaysGapFree(c: Crowd, turns: seq<Turn>, next: JobId -> int -> int, job: JobId)
    requires Schedule(next(job)) && Grounded(c, next, job)
    ensures Grounded(TakeAll(c, turns, next), next, job)
    decreases |turns|
  {
    hide Take, Grounded;
    if turns != [] {
      TakeKeepsGrounded(c, turns[0], next, job);
      CrowdStaysGapFree(Take(c, turns[0], next), turns[1..], next, job);
    }
  }

  /** The first fire after an hour before a fire is not later than that fire. */
  lemma HourBefore(next: int -> int, t: int)
    requires Schedule(next)
    ensures next(t) - HOUR < next(next(t) - HOUR) <= next(t)
  {
    var b := next(t) - HOUR;
    assert next(b) > b && next(t) > t;
    if t < b {
      assert next(b) == next(t);
    } else if t < next(b) {
      assert next(t) == next(b);
    }
  }

  /** Two dispatchers that start an empty job at clocks far enough apart; the later one fires first. */
  function Race(next: int -> int, job: JobId): seq<Turn>
  {
    var a := next(next(0) - HOUR);
    var m := next(next(a)) + HOUR;
    [Start(0, job, next(0), None), Start(1, job, next(m), None), Fire(1), Fire(0)]
  }

  lemma Gap(next: int -> int, times: set<int>, x: int, y: int)
    requires x in times && y in times && x < y && next(x) !in times
    ensures !GapFree(next, times)
  {
  }

  /** Without a record it always can fail: whatever the schedule, the race leaves a gap. */
  lemma EmptyJobCanGap(c: Crowd, next: JobId -> int -> int, job: JobId)
    requires Schedule(next(job)) && Good(c.tables) && Times(c.tables, job) == {}
    ensures !GapFree(next(job), Times(TakeAll(c, Race(next(job), job), next).tables, job))
  {
    hide Times, CreateCronRun, Good;
    var f := next(job);
    var turns := Race(f, job);
    var a := f(f(0) - HOUR);
    var m := f(f(a)) + HOUR;
    var b := f(f(m) - HOUR);
    HourBefore(f, 0);
    HourBefore(f, m);
    assert f(a) > a && f(f(a)) > f(a) && f(m) > m;
    var c1 := Take(c, turns[0], next);
    var c2 := Take(c1, turns[1], next);
    var c3 := Take(c2, turns[2], next);
    var c4 := Take(c3, turns[3], next);
    CronRunKeeps(c.tables, job, b, f(m));
    CreationAddsTime(c.tables, job, b, f(m));
    CreationAddsTime(c3.tables, job, a, f(0));
    TakeFour(c, turns, next);
    assert Times(c4.tables, job) == {a, b};
    Gap(f, {a, b}, a, b);
  }

  /** With every dispatcher in its loop on a recorded time, the chain stays gap-free under every interleaving
      exactly if the job has a record to begin with. */
  lemma GapFreeForEverIff(c: Crowd, next: JobId -> int -> int, job: JobId)
    requires Schedule(next(job)) && Good(c.tables) && GapFree(next(job), Times(c.tables, job))
    requires forall id :: id in c.active && c.active[id].job == job ==> c.active[id].baseline in Times(c.tables, job)
    ensures (forall turns: seq<Turn> :: GapFree(next(job), Times(TakeAll(c, turns, next).tables, job)))
            <==> Times(c.tables, job) != {}
  {
    hide Times, Good, GapFree, TakeAll, Schedule, Race;
    if Times(c.tables, job) == {} {
      EmptyJobCanGap(c, next, job);
    } else {
      forall turns: seq<Turn> ensures GapFree(next(job), Times(TakeAll(c, turns, next).tables, job)) {
        CrowdStaysGapFree(c, turns, next, job);
      }
    }
  }

  lemma TakeFour(c: Crowd, turns: seq<Turn>, next: JobId -> int -> int)
    requires |turns| == 4
    ensures TakeAll(c, turns, next) == Take(Take(Take(Take(c, turns[0], next), turns[1], next), turns[2], next), turns[3], next)
  {
    hide Take;
    var t1 := turns[1..];
    var t2 := t1[1..];
    var t3 := t2[1..];
    assert t1[0] == turns[1] && t2[0] == turns[2] && t3[0] == turns[3] && t3[1..] == [];
    var c1 := Take(c, turns[0], next);
    var c2 := Take(c1, turns[1], next);
    var c3 := Take(c2, turns[2], next);
    assert TakeAll(c, turns, next) == TakeAll(c1, t1, next) == TakeAll(c2, t2, next);
    assert TakeAll(c2, t2, next) == TakeAll(c3, t3, next) == Take(c3, turns[3], next);
  }
}
