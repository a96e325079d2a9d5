// The webhook outbox: which deliveries are tried, and what each attempt leaves
// (processWebhookOutbox, deliverWebhook and backoffDuration,
// services/worker/internal/engine/engine.go:993-1100).

module Webhook {
  import opened Basics

  type DeliveryId = nat

  datatype DeliveryStatus = Waiting | Retry | Delivered | DeadLetter

  datatype Row = Row(status: DeliveryStatus, attempts: nat, created: int, updated: int)

  /** What a worker remembers of a row it has selected. */
  datatype Item = Item(id: DeliveryId, attempts: nat, status: DeliveryStatus, updated: int)

  /** Refused: the request cannot even be built, and the row is left alone. */
  datatype Answer = Refused | Accepted | Failed

  const BATCH := 50

  predicate Retryable(s: DeliveryStatus) { s.Waiting? || s.Retry? }

  predicate Final(s: DeliveryStatus) { s.Delivered? || s.DeadLetter? }

  // ---------------------------------------------------------------------------
  // Backoff
  // ---------------------------------------------------------------------------

  function Pow2(n: nat): nat { if n == 0 then 1 else 2 * Pow2(n - 1) }

  /** Seconds. Below 63 attempts the power fits the integer it is converted to; `far` is whatever the
      conversion makes of the larger ones, which the language leaves to the platform. */
  function Backoff(attempts: int, far: int -> int): int
  {
    if attempts <= 0 then 0
    else if attempts >= 63 then far(attempts)
    else
      var seconds := Pow2(attempts);
      if seconds > 300 then 300 else seconds
  }

  lemma {:induction false} Pow2Grows(m: nat, n: nat)
    requires m <= n
    ensures Pow2(m) <= Pow2(n)
  {
    if m < n {
      Pow2Grows(m, n - 1);
    }
  }

  /** Below 63 attempts backoff never shrinks; it is nothing before the first attempt, the plain power up to 8 attempts
      and 300 seconds from 9 on. */
  lemma BackoffGrows(m: int, n: int, far: int -> int)
    requires m <= n
    ensures n < 63 ==> Backoff(m, far) <= Backoff(n, far)
    ensures 9 <= n < 63 ==> Backoff(n, far) == 300
    ensures n <= 0 ==> Backoff(n, far) == 0
    ensures 1 <= n <= 8 ==> Backoff(n, far) == Pow2(n) < 300
    ensures n >= 63 ==> Backoff(n, far) == far(n)
  {
    assert Pow2(4) == 16;
    assert Pow2(8) == 16 * Pow2(4) by { assert Pow2(6) == 4 * Pow2(4); }
    assert Pow2(9) == 512;
    if 1 <= m {
      Pow2Grows(m, n);
    }
    if 1 <= n <= 8 {
      Pow2Grows(n, 8);
    }
    if n >= 9 {
      Pow2Grows(9, n);
    }
  }

  // ---------------------------------------------------------------------------
  // One attempt
  // ---------------------------------------------------------------------------

  /** UPDATE webhook_deliveries, computed from what the worker remembers, not from the row. */
  function Attempt(rows: map<DeliveryId, Row>, item: Item, answer: Answer, now: int, most: int): map<DeliveryId, Row>
  {
    if answer.Refused? || item.id !in rows then rows
    else
      var attempts := item.attempts + 1;
      var status := if answer.Accepted? then Delivered else if attempts >= most then DeadLetter else Retry;
      rows[item.id := rows[item.id].(status := status, attempts := attempts, updated := now)]
  }

  predicate Due(item: Item, now: int, far: int -> int)
  {
    item.status.Retry? ==> now >= item.updated + Backoff(item.attempts, far)
  }

  predicate Snapshot(rows: map<DeliveryId, Row>, item: Item)
  {
    item.id in rows && item == Item(item.id, rows[item.id].attempts, rows[item.id].status, rows[item.id].updated)
  }

  /** Some of the oldest retryable rows, oldest first, at most a batch. */
  ghost predicate Begins(rows: map<DeliveryId, Row>, ids: seq<DeliveryId>)
  {
    && NoDuplicates(ids) && |ids| <= BATCH
    && (forall i :: 0 <= i < |ids| ==> ids[i] in rows && Retryable(rows[ids[i]].status))
    && (forall i, j :: 0 <= i < j < |ids| ==> rows[ids[i]].created <= rows[ids[j]].created)
    && (forall d, i :: d in rows && Retryable(rows[d].status) && d !in ids && 0 <= i < |ids| ==> rows[ids[i]].created <= rows[d].created)
  }

  /** SELECT ... WHERE status IN ('pending','retry') ORDER BY created_at LIMIT 50 */
  ghost predicate Selected(rows: map<DeliveryId, Row>, ids: seq<DeliveryId>)
  {
    && Begins(rows, ids)
    && (|ids| < BATCH ==> forall d :: d in rows && Retryable(rows[d].status) ==> d in ids)
  }

  function ItemOf(rows: map<DeliveryId, Row>, id: DeliveryId): Item
    requires id in rows
  {
    Item(id, rows[id].attempts, rows[id].status, rows[id].updated)
  }

  // ---------------------------------------------------------------------------
  // Several workers, each with what it selected a while ago
  // ---------------------------------------------------------------------------

  datatype State = State(rows: map<DeliveryId, Row>, held: map<nat, seq<Item>>)

  datatype Step =
    | Enqueue(id: DeliveryId, now: int)
    | Remove(id: DeliveryId)
    | Select(worker: nat, items: seq<Item>)
    | Try(worker: nat, answer: Answer, now: int)

  /** A worker selects when it has nothing in hand: any duplicate-free choice of retryable rows. */
  predicate MaySelect(s: State, worker: nat, items: seq<Item>)
  {
    && (worker in s.held ==> s.held[worker] == [])
    && (forall i :: 0 <= i < |items| ==> Snapshot(s.rows, items[i]) && Retryable(items[i].status))
    && (forall i, j :: 0 <= i < j < |items| ==> items[i].id != items[j].id)
  }

  predicate MayTry(s: State, worker: nat) { worker in s.held && s.held[worker] != [] }

  function Apply(s: State, step: Step, most: int): State
  {
    match step
    case Enqueue(id, now) => if id in s.rows then s else s.(rows := s.rows[id := Row(Waiting, 0, now, now)])
    case Remove(id) => s.(rows := s.rows - {id})
    case Select(w, items) => if MaySelect(s, w, items) then s.(held := s.held[w := items]) else s
    case Try(w, answer, now) =>
      if MayTry(s, w) then
        var items := s.held[w];
        State(Attempt(s.rows, items[0], answer, now, most), s.held[w := items[1..]])
      else s
  }

  function Reach(s: State, steps: seq<Step>, most: int): State
    decreases |steps|
  {
    if steps == [] then s else Reach(Apply(s, steps[0], most), steps[1..], most)
  }

  const NOTHING := State(map[], map[])

  /** No attempt above the maximum, and what may be retried is strictly below it. */
  ghost predicate Bounded(s: State, most: int)
  {
    && (forall d :: d in s.rows ==> s.rows[d].attempts <= most && (Retryable(s.rows[d].status) ==> s.rows[d].attempts < most))
    && (forall w :: w in s.held ==> forall i :: 0 <= i < |s.held[w]| ==> s.held[w][i].attempts < most)
  }

  lemma {:induction false} ReachBounded(s: State, steps: seq<Step>, most: int)
    requires most >= 1 && Bounded(s, most)
    ensures Bounded(Reach(s, steps, most), most)
    decreases |steps|
  {
    if steps != [] {
      ApplyBounded(s, steps[0], most);
      ReachBounded(Apply(s, steps[0], most), steps[1..], most);
    }
  }

  lemma ApplyBounded(s: State, step: Step, most: int)
    requires most >= 1 && Bounded(s, most)
    ensures Bounded(Apply(s, step, most), most)
  {
    if step.Select? && MaySelect(s, step.worker, step.items) {
      forall i | 0 <= i < |step.items| ensures step.items[i].attempts < most {
        assert Snapshot(s.rows, step.items[i]);
      }
    }
  }

  /** In every interleaving of any number of workers, however stale what they hold. */
  lemma AttemptsNeverExceed(steps: seq<Step>, most: int, d: DeliveryId)
    requires most >= 1 && d in Reach(NOTHING, steps, most).rows
    ensures var row := Reach(NOTHING, steps, most).rows[d];
            row.attempts <= most && (Retryable(row.status) ==> row.attempts < most)
    ensures var row := Reach(NOTHING, steps, most).rows[d];
            row.status.Retry? && most <= 63 ==> row.attempts < 63
  {
    ReachBounded(NOTHING, steps, most);
  }

  /** A row is delivered only because some attempt on it was accepted, whatever else happened and however stale
      what the workers held. */
  lemma {:induction false} DeliveredWasAccepted(s: State, steps: seq<Step>, most: int, d: DeliveryId)
    requires d in s.rows ==> !s.rows[d].status.Delivered?
    requires var s' := Reach(s, steps, most); d in s'.rows && s'.rows[d].status.Delivered?
    ensures exists i :: 0 <= i < |steps| && steps[i].Try? && steps[i].answer.Accepted? && Aims(Reach(s, steps[..i], most), steps[i].worker, d)
    decreases |steps|
  {
    hide Apply;
    if steps != [] {
      var n := |steps| - 1;
      var before := Reach(s, steps[..n], most);
      ReachLast(s, steps, most);
      if d in before.rows && before.rows[d].status.Delivered? {
        DeliveredWasAccepted(s, steps[..n], most, d);
        var i :| 0 <= i < n && steps[..n][i].Try? && steps[..n][i].answer.Accepted? && Aims(Reach(s, steps[..n][..i], most), steps[..n][i].worker, d);
        assert steps[..n][..i] == steps[..i] && steps[..n][i] == steps[i];
      } else {
        BecomesDelivered(before, steps[n], most, d);
      }
    }
  }

  lemma BecomesDelivered(s: State, step: Step, most: int, d: DeliveryId)
    requires d in s.rows ==> !s.rows[d].status.Delivered?
    ensures var s' := Apply(s, step, most);
            d in s'.rows && s'.rows[d].status.Delivered? ==> step.Try? && step.answer.Accepted? && Aims(s, step.worker, d)
  {
  }

  /** All that a step does to a row: it is there from its creation to its removal, and nothing but an attempt on it
      that could be made changes it. What is written then comes from what the worker held. */
  lemma StepDoes(s: State, step: Step, most: int, d: DeliveryId)
    ensures var rows' := Apply(s, step, most).rows;
            match step
            case Enqueue(id, now) =>
              if id == d && d !in s.rows then d in rows' && rows'[d] == Row(Waiting, 0, now, now) else SameRow(s.rows, rows', d)
            case Remove(id) => if id == d then d !in rows' else SameRow(s.rows, rows', d)
            case Select(_, _) => SameRow(s.rows, rows', d)
            case Try(w, answer, now) =>
              if d in s.rows && w in s.held && s.held[w] != [] && s.held[w][0].id == d && answer != Refused then
                var attempts := s.held[w][0].attempts + 1;
                && d in rows' && rows'[d].attempts == attempts && rows'[d].updated == now && rows'[d].created == s.rows[d].created
                && rows'[d].status == (if answer == Accepted then Delivered else if attempts < most then Retry else DeadLetter)
              else SameRow(s.rows, rows', d)
  {
  }

  predicate SameRow(rows: map<DeliveryId, Row>, rows': map<DeliveryId, Row>, d: DeliveryId)
  {
    (d in rows' <==> d in rows) && (d in rows ==> rows'[d] == rows[d])
  }

  // ---------------------------------------------------------------------------
  // When a final row is final
  // ---------------------------------------------------------------------------

  /** The next attempt of a worker concerns the row. */
  predicate Aims(s: State, w: nat, d: DeliveryId) { MayTry(s, w) && s.held[w][0].id == d }

  /** A delivered or dead row is written by an attempt exactly if a worker still holds an item of it next and
      the request can be built; it is retryable again exactly if that attempt fails below the maximum. */
  lemma FinalRowTried(s: State, w: nat, answer: Answer, most: int, d: DeliveryId)
    requires d in s.rows && Final(s.rows[d].status)
    ensures (exists now: int :: Apply(s, Try(w, answer, now), most).rows != s.rows && d in Apply(s, Try(w, answer, now), most).rows
                             && Apply(s, Try(w, answer, now), most).rows[d] != s.rows[d])
            <==> Aims(s, w, d) && !answer.Refused?
    ensures forall now: int :: d in Apply(s, Try(w, answer, now), most).rows &&
              (Retryable(Apply(s, Try(w, answer, now), most).rows[d].status)
               <==> Aims(s, w, d) && answer.Failed? && s.held[w][0].attempts + 1 < most)
  {
    if Aims(s, w, d) && !answer.Refused? {
      var now := s.rows[d].updated + 1;
      assert Apply(s, Try(w, answer, now), most).rows[d].updated == now;
    }
  }

  /** Some worker holds an item of the row whose attempt may still fail into a retry. */
  ghost predicate HeldBelow(s: State, d: DeliveryId, most: int)
  {
    exists w, i :: w in s.held && 0 <= i < |s.held[w]| && s.held[w][i].id == d && s.held[w][i].attempts + 1 < most
  }

  predicate Keeps(steps: seq<Step>, d: DeliveryId) { forall i :: 0 <= i < |steps| ==> steps[i] != Remove(d) }

  lemma FinalStep(s: State, step: Step, most: int, d: DeliveryId)
    requires d in s.rows && Final(s.rows[d].status) && !HeldBelow(s, d, most) && step != Remove(d)
    ensures var s' := Apply(s, step, most); d in s'.rows && Final(s'.rows[d].status) && !HeldBelow(s', d, most)
  {
  }

  lemma {:induction false} FinalForGood(s: State, steps: seq<Step>, most: int, d: DeliveryId)
    requires d in s.rows && Final(s.rows[d].status) && !HeldBelow(s, d, most) && Keeps(steps, d)
    ensures d in Reach(s, steps, most).rows && Final(Reach(s, steps, most).rows[d].status)
    decreases |steps|
  {
    hide Apply, HeldBelow, Final;
    if steps != [] {
      FinalStep(s, steps[0], most, d);
      FinalForGood(Apply(s, steps[0], most), steps[1..], most, d);
    }
  }

  /** `i` attempts that cannot be built bring a worker to its item `i`, and change no row. */
  function Skipping(w: nat, i: nat): seq<Step> { seq(i, _ => Try(w, Refused, 0)) }

  lemma {:induction false} SkipTo(s: State, w: nat, i: nat, most: int)
    requires w in s.held && i <= |s.held[w]|
    ensures Reach(s, Skipping(w, i), most) == s.(held := s.held[w := s.held[w][i..]])
    decreases i
  {
    if i == 0 {
      assert s.held[w := s.held[w][0..]] == s.held;
    } else {
      var s1 := Apply(s, Try(w, Refused, 0), most);
      assert Skipping(w, i)[1..] == Skipping(w, i - 1);
      SkipTo(s1, w, i - 1, most);
      assert s.held[w][1..][i - 1..] == s.held[w][i..];
      assert s1.held[w := s1.held[w][i - 1..]] == s.held[w := s.held[w][i..]];
    }
  }

  /** A delivered or dead row can become retryable again exactly if some worker holds an item of it that it read
      at least two attempts below the maximum. */
  lemma RevivesIff(s: State, most: int, d: DeliveryId)
    requires d in s.rows && Final(s.rows[d].status)
    ensures (exists steps: seq<Step> :: Keeps(steps, d) && d in Reach(s, steps, most).rows && Retryable(Reach(s, steps, most).rows[d].status))
            <==> HeldBelow(s, d, most)
  {
    hide Reach, Apply;
    if HeldBelow(s, d, most) {
      var w, i :| w in s.held && 0 <= i < |s.held[w]| && s.held[w][i].id == d && s.held[w][i].attempts + 1 < most;
      var steps := Skipping(w, i) + [Try(w, Failed, 0)];
      SkipTo(s, w, i, most);
      ReachLast(s, steps, most);
      assert steps[..|steps| - 1] == Skipping(w, i);
      var s1 := Reach(s, Skipping(w, i), most);
      assert s1.rows == s.rows && Aims(s1, w, d) && s1.held[w][0] == s.held[w][i];
      FinalRowTried(s1, w, Failed, most, d);
      assert Retryable(Reach(s, steps, most).rows[d].status);
    } else {
      forall steps: seq<Step> | Keeps(steps, d)
        ensures d in Reach(s, steps, most).rows && Final(Reach(s, steps, most).rows[d].status)
      {
        FinalForGood(s, steps, most, d);
      }
    }
  }

  // ---------------------------------------------------------------------------
  // Requests that cannot be built
  // ---------------------------------------------------------------------------

  /** Selecting, and attempts whose request cannot be built. */
  predicate OnlyRefused(steps: seq<Step>)
  {
    forall i :: 0 <= i < |steps| ==> steps[i].Select? || (steps[i].Try? && steps[i].answer.Refused?)
  }

  /** They change no row, however many: a retryable row stays selectable with the attempts it had, and one that
      was due stays due. */
  lemma {:induction false} RefusedForEver(s: State, steps: seq<Step>, most: int)
    requires OnlyRefused(steps)
    ensures Reach(s, steps, most).rows == s.rows
    decreases |steps|
  {
    if steps != [] {
      RefusedForEver(Apply(s, steps[0], most), steps[1..], most);
    }
  }

  lemma RefusedStaysSelectable(s: State, steps: seq<Step>, most: int, d: DeliveryId, w: nat, now: int, later: int, far: int -> int)
    requires OnlyRefused(steps) && d in s.rows && Retryable(s.rows[d].status)
    ensures var s' := Reach(s, steps, most);
            && s'.rows == s.rows
            && ((w in s'.held ==> s'.held[w] == []) ==> MaySelect(s', w, [ItemOf(s'.rows, d)]))
            && (now <= later && Due(ItemOf(s.rows, d), now, far) ==> Due(ItemOf(s'.rows, d), later, far))
  {
    hide Reach, Backoff;
    RefusedForEver(s, steps, most);
  }

  /** That happens: two workers have selected the same row, one delivers it, the other fails and revives it. */
  lemma StaleWorkerRevives()
    ensures var item := Item(0, 0, Waiting, 0);
            var steps := [Enqueue(0, 0), Select(0, [item]), Select(1, [item]), Try(0, Accepted, 1), Try(1, Failed, 2)];
            var (before, after) := (Reach(NOTHING, steps[..4], 6).rows, Reach(NOTHING, steps, 6).rows);
            && 0 in before && before[0].status == Delivered
            && 0 in after && after[0].status == Retry
  {
    var item := Item(0, 0, Waiting, 0);
    var s1 := Apply(NOTHING, Enqueue(0, 0), 6);
    var s2 := Apply(s1, Select(0, [item]), 6);
    assert Snapshot(s1.rows, item);
    var s3 := Apply(s2, Select(1, [item]), 6);
    var s4 := Apply(s3, Try(0, Accepted, 1), 6);
    var s5 := Apply(s4, Try(1, Failed, 2), 6);
    assert s4.rows[0].status == Delivered && s5.rows[0].status == Retry;
    ReachFour(NOTHING, [Enqueue(0, 0), Select(0, [item]), Select(1, [item]), Try(0, Accepted, 1)], 6);
    var steps := [Enqueue(0, 0), Select(0, [item]), Select(1, [item]), Try(0, Accepted, 1), Try(1, Failed, 2)];
    assert steps[..4] == [Enqueue(0, 0), Select(0, [item]), Select(1, [item]), Try(0, Accepted, 1)];
    ReachLast(NOTHING, steps, 6);
  }

  lemma ReachFour(s: State, steps: seq<Step>, most: int)
    requires |steps| == 4
    ensures Reach(s, steps, most) == Apply(Apply(Apply(Apply(s, steps[0], most), steps[1], most), steps[2], most), steps[3], most)
  {
    hide Apply;
    assert steps[..0] == [] && steps[..4] == steps;
    ReachLast(s, steps[..1], most);
    ReachLast(s, steps[..2], most);
    ReachLast(s, steps[..3], most);
    ReachLast(s, steps, most);
    assert steps[..1][..0] == [] && steps[..2][..1] == steps[..1] && steps[..3][..2] == steps[..2];
  }

  lemma {:induction false} ReachLast(s: State, steps: seq<Step>, most: int)
    requires steps != []
    ensures Reach(s, steps, most) == Apply(Reach(s, steps[..|steps| - 1], most), steps[|steps| - 1], most)
    decreases |steps|
  {
    hide Apply;
    if |steps| == 1 {
      assert steps[1..] == [] && steps[..0] == [];
    } else {
      assert steps[1..][..|steps| - 2] == steps[..|steps| - 1][1..];
      ReachLast(Apply(s, steps[0], most), steps[1..], most);
    }
  }

  // ---------------------------------------------------------------------------
  // One worker
  // ---------------------------------------------------------------------------

  /** Only worker `w` selects and tries. */
  predicate Only(step: Step, w: nat)
  {
    match step
    case Select(v, _) => v == w
    case Try(v, _, _) => v == w
    case _ => true
  }

  /** What the only worker holds is what the rows still say; a row that is removed does not come back
      under the same identifier while it is held. */
  ghost predicate Fresh(s: State, w: nat)
  {
    && (forall v :: v in s.held && v != w ==> s.held[v] == [])
    && (w in s.held ==>
          var items := s.held[w];
          && (forall i, j :: 0 <= i < j < |items| ==> items[i].id != items[j].id)
          && (forall i :: 0 <= i < |items| && items[i].id in s.rows ==> Snapshot(s.rows, items[i]) && Retryable(items[i].status)))
  }

  /** NewID never hands out an identifier again. */
  predicate NewIds(s: State, step: Step)
  {
    step.Enqueue? ==> forall w :: w in s.held ==> forall i :: 0 <= i < |s.held[w]| ==> s.held[w][i].id != step.id
  }

  lemma ApplyFresh(s: State, step: Step, w: nat, most: int)
    requires Fresh(s, w) && Only(step, w) && NewIds(s, step)
    ensures Fresh(Apply(s, step, most), w)
  {
  }

  /** A row that is delivered or dead stays as it is; a row that is tried takes a step towards the maximum. */
  lemma OneWorkerProgress(s: State, step: Step, w: nat, most: int, d: DeliveryId)
    requires most >= 1 && Bounded(s, most) && Fresh(s, w) && Only(step, w) && NewIds(s, step)
    requires d in s.rows && d in Apply(s, step, most).rows
    ensures var (row, row') := (s.rows[d], Apply(s, step, most).rows[d]);
            && (Final(row.status) ==> row' == row)
            && (row' != row ==> 0 <= most - row'.attempts < most - row.attempts)
            && (step.Try? && MayTry(s, w) && s.held[w][0].id == d && !step.answer.Refused? ==>
                  most - row'.attempts == most - row.attempts - 1 && (row'.attempts == most ==> Final(row'.status)))
  {
    if step.Try? && MayTry(s, w) && s.held[w][0].id in s.rows {
      assert Snapshot(s.rows, s.held[w][0]);
    }
  }

  /** A run with one worker in which the row is not removed. */
  predicate OneWorkerRun(s: State, steps: seq<Step>, w: nat, most: int, d: DeliveryId)
    decreases |steps|
  {
    steps != [] ==> Only(steps[0], w) && NewIds(s, steps[0]) && steps[0] != Remove(d) && OneWorkerRun(Apply(s, steps[0], most), steps[1..], w, most, d)
  }

  predicate Tries(s: State, step: Step, w: nat, d: DeliveryId)
  {
    step.Try? && MayTry(s, w) && s.held[w][0].id == d && !step.answer.Refused?
  }

  function TriesOf(s: State, steps: seq<Step>, w: nat, most: int, d: DeliveryId): nat
    decreases |steps|
  {
    if steps == [] then 0
    else (if Tries(s, steps[0], w, d) then 1 else 0) + TriesOf(Apply(s, steps[0], most), steps[1..], w, most, d)
  }

  lemma RowStays(s: State, step: Step, most: int, d: DeliveryId)
    requires d in s.rows && step != Remove(d)
    ensures d in Apply(s, step, most).rows
  {
  }

  /** Over every run with one worker: a webhook is posted at most as often as the maximum still allows, and once
      it is delivered or dead it stays so. */
  lemma {:induction false} TriesAreBounded(s: State, steps: seq<Step>, w: nat, most: int, d: DeliveryId)
    requires most >= 1 && Bounded(s, most) && Fresh(s, w) && d in s.rows && OneWorkerRun(s, steps, w, most, d)
    ensures TriesOf(s, steps, w, most, d) <= most - s.rows[d].attempts
    ensures d in Reach(s, steps, most).rows && (Final(s.rows[d].status) ==> Reach(s, steps, most).rows[d] == s.rows[d])
    decreases |steps|
  {
    hide Apply, Bounded, Fresh, NewIds, Only;
    if steps == [] {
      BoundedRow(s, most, d);
    } else {
      ApplyBounded(s, steps[0], most);
      ApplyFresh(s, steps[0], w, most);
      RowStays(s, steps[0], most, d);
      OneWorkerProgress(s, steps[0], w, most, d);
      TriesAreBounded(Apply(s, steps[0], most), steps[1..], w, most, d);
    }
  }

  lemma BoundedRow(s: State, most: int, d: DeliveryId)
    requires Bounded(s, most) && d in s.rows
    ensures s.rows[d].attempts <= most
  {
  }

  // ---------------------------------------------------------------------------
  // The outbox in the form of the source
  // ---------------------------------------------------------------------------

  /** What one pass leaves: the due items tried in order. */
  function AttemptAll(rows: map<DeliveryId, Row>, items: seq<Item>, answers: DeliveryId -> Answer, now: int, most: int): map<DeliveryId, Row>
    decreases |items|
  {
    if items == [] then rows
    else AttemptAll(Attempt(rows, items[0], answers(items[0].id), now, most), items[1..], answers, now, most)
  }

  function DueItems(rows: map<DeliveryId, Row>, ids: seq<DeliveryId>, now: int, far: int -> int): seq<Item>
    requires forall i :: 0 <= i < |ids| ==> ids[i] in rows
  {
    if ids == [] then []
    else
      var last := ItemOf(rows, ids[|ids| - 1]);
      DueItems(rows, ids[..|ids| - 1], now, far) + if Due(last, now, far) then [last] else []
  }

  // ---------------------------------------------------------------------------
  // Starvation
  // ---------------------------------------------------------------------------

  /** At least a whole batch of retryable rows is strictly older than `d`. */
  ghost predicate Behind(rows: map<DeliveryId, Row>, older: set<DeliveryId>, d: DeliveryId)
  {
    && d in rows && |older| >= BATCH
    && forall o :: o in older ==> o in rows && Retryable(rows[o].status) && rows[o].created < rows[d].created
  }

  lemma BehindIsNotSelected(rows: map<DeliveryId, Row>, older: set<DeliveryId>, d: DeliveryId, ids: seq<DeliveryId>)
    requires Behind(rows, older, d) && Selected(rows, ids)
    ensures d !in ids
  {
    if d in ids {
      var i :| 0 <= i < |ids| && ids[i] == d;
      forall o | o in older ensures o in ids {
      }
      var all := older + {d};
      assert d !in older;
      assert forall x :: x in all ==> x in ids;
      SetFitsSeq(all, ids);
    }
  }

  lemma {:induction false} SetFitsSeq(all: set<DeliveryId>, ids: seq<DeliveryId>)
    requires forall x :: x in all ==> x in ids
    ensures |all| <= |ids|
    decreases |ids|
  {
    if ids == [] {
      assert all == {};
    } else {
      SetFitsSeq(all - {ids[0]}, ids[1..]);
    }
  }

  lemma {:induction false} DueItemsNamed(rows: map<DeliveryId, Row>, ids: seq<DeliveryId>, now: int, far: int -> int)
    requires forall i :: 0 <= i < |ids| ==> ids[i] in rows
    ensures forall x :: x in DueItems(rows, ids, now, far) ==> x.id in ids
    decreases |ids|
  {
    hide Due;
    if ids != [] {
      DueItemsNamed(rows, ids[..|ids| - 1], now, far);
    }
  }

  /** A pass leaves alone the rows that it does not try or whose request cannot be built. */
  lemma {:induction false} PassSpares(rows: map<DeliveryId, Row>, items: seq<Item>, answers: DeliveryId -> Answer, now: int, most: int, d: DeliveryId)
    requires answers(d).Refused? || forall x :: x in items ==> x.id != d
    ensures var rows' := AttemptAll(rows, items, answers, now, most);
            (d in rows' <==> d in rows) && (d in rows ==> rows'[d] == rows[d])
    decreases |items|
  {
    if items != [] {
      assert items[0] in items;
      PassSpares(Attempt(rows, items[0], answers(items[0].id), now, most), items[1..], answers, now, most, d);
    }
  }

  /** One pass of the outbox: the batch it selects, the answers it gets, and the clock. */
  datatype Pass = Pass(ids: seq<DeliveryId>, answers: DeliveryId -> Answer, now: int)

  function AfterPass(rows: map<DeliveryId, Row>, pass: Pass, far: int -> int, most: int): map<DeliveryId, Row>
    requires forall i :: 0 <= i < |pass.ids| ==> pass.ids[i] in rows
  {
    AttemptAll(rows, DueItems(rows, pass.ids, pass.now, far), pass.answers, pass.now, most)
  }

  ghost predicate Passes(rows: map<DeliveryId, Row>, passes: seq<Pass>, older: set<DeliveryId>, far: int -> int, most: int)
    decreases |passes|
  {
    passes != [] ==>
      && Selected(rows, passes[0].ids) && (forall o :: o in older ==> passes[0].answers(o).Refused?)
      && Passes(AfterPass(rows, passes[0], far, most), passes[1..], older, far, most)
  }

  ghost function AfterPasses(rows: map<DeliveryId, Row>, passes: seq<Pass>, older: set<DeliveryId>, far: int -> int, most: int): map<DeliveryId, Row>
    requires Passes(rows, passes, older, far, most)
    decreases |passes|
  {
    if passes == [] then rows else AfterPasses(AfterPass(rows, passes[0], far, most), passes[1..], older, far, most)
  }

  /** A webhook behind a whole batch of older ones whose requests cannot be built is never tried, whatever the
      number of passes and the answers to the others. */
  lemma {:induction false} Starved(rows: map<DeliveryId, Row>, passes: seq<Pass>, older: set<DeliveryId>, far: int -> int, most: int, d: DeliveryId)
    requires Behind(rows, older, d) && Passes(rows, passes, older, far, most)
    ensures var rows' := AfterPasses(rows, passes, older, far, most); Behind(rows', older, d) && rows'[d] == rows[d]
    decreases |passes|
  {
    hide Selected, AttemptAll, DueItems;
    if passes != [] {
      var pass := passes[0];
      SelectedInRows(rows, pass.ids);
      var rows1 := AfterPass(rows, pass, far, most);
      BehindIsNotSelected(rows, older, d, pass.ids);
      DueItemsNamed(rows, pass.ids, pass.now, far);
      var items := DueItems(rows, pass.ids, pass.now, far);
      PassSpares(rows, items, pass.answers, pass.now, most, d);
      forall o | o in older ensures o in rows1 && rows1[o] == rows[o] {
        PassSpares(rows, items, pass.answers, pass.now, most, o);
      }
      Starved(rows1, passes[1..], older, far, most, d);
    }
  }

  lemma SelectedInRows(rows: map<DeliveryId, Row>, ids: seq<DeliveryId>)
    requires Selected(rows, ids)
    ensures forall i :: 0 <= i < |ids| ==> ids[i] in rows
  {
  }

  // ---------------------------------------------------------------------------
  // Which webhooks are tried
  // ---------------------------------------------------------------------------

  /** The other retryable rows that are not younger than `d`, and those that are strictly older. */
  function Rivals(rows: map<DeliveryId, Row>, d: DeliveryId): set<DeliveryId>
    requires d in rows
  {
    set o | o in rows && o != d && Retryable(rows[o].status) && rows[o].created <= rows[d].created
  }

  function Older(rows: map<DeliveryId, Row>, d: DeliveryId): set<DeliveryId>
    requires d in rows
  {
    set o | o in rows && Retryable(rows[o].status) && rows[o].created < rows[d].created
  }

  lemma {:induction false} OldestOf(rows: map<DeliveryId, Row>, left: set<DeliveryId>) returns (p: DeliveryId)
    requires left != {} && left <= rows.Keys
    ensures p in left && forall d :: d in left ==> rows[p].created <= rows[d].created
    decreases |left|
  {
    p :| p in left;
    var others := left - {p};
    assert forall d :: d in left ==> d == p || d in others;
    if others != {} {
      var q := OldestOf(rows, others);
      if rows[q].created < rows[p].created {
        p := q;
      }
    }
  }

  /** There always is a batch. */
  lemma {:induction false} SomeBatch(rows: map<DeliveryId, Row>, first: seq<DeliveryId>) returns (ids: seq<DeliveryId>)
    requires Begins(rows, first)
    ensures Selected(rows, ids)
    decreases BATCH - |first|
  {
    var left := set d | d in rows && Retryable(rows[d].status) && d !in first;
    if left == {} || |first| == BATCH {
      ids := first;
      assert forall d :: d in rows && Retryable(rows[d].status) && d !in first ==> d in left;
    } else {
      var p := OldestOf(rows, left);
      assert forall d :: d in rows && Retryable(rows[d].status) && d !in first ==> d in left;
      assert forall i :: 0 <= i < |first| ==> first[i] != p;
      ids := SomeBatch(rows, first + [p]);
    }
  }

  /** Rows of the same age can stand in for each other. */
  lemma StandIn(rows: map<DeliveryId, Row>, ids: seq<DeliveryId>, k: nat, x: DeliveryId)
    requires Selected(rows, ids) && k < |ids| == BATCH && x in rows && x !in ids && Retryable(rows[x].status)
    requires rows[x].created == rows[ids[k]].created
    ensures Selected(rows, ids[k := x])
  {
    var ids' := ids[k := x];
    assert forall i :: 0 <= i < |ids| ==> rows[ids'[i]].created == rows[ids[i]].created;
    assert forall i :: 0 <= i < |ids| && i != k ==> ids[i] in ids' by {
      forall i | 0 <= i < |ids| && i != k ensures ids[i] in ids' {
        assert ids'[i] == ids[i];
      }
    }
    assert ids'[k] == x;
    forall d, i | d in rows && Retryable(rows[d].status) && d !in ids' && 0 <= i < |ids'|
      ensures rows[ids'[i]].created <= rows[d].created
    {
      if d in ids {
        assert d == ids[k];
        assert rows[ids[i]].created <= rows[x].created;
      }
    }
  }

  lemma {:induction false} SizeOfElements(ids: seq<DeliveryId>, all: set<DeliveryId>)
    requires NoDuplicates(ids) && forall i :: 0 <= i < |ids| ==> ids[i] in all
    ensures |ids| <= |all|
    decreases |ids|
  {
    if ids != [] {
      var n := |ids| - 1;
      assert forall i :: 0 <= i < n ==> ids[..n][i] == ids[i];
      SizeOfElements(ids[..n], all - {ids[n]});
    }
  }

  lemma OneMissing(all: set<DeliveryId>, ids: seq<DeliveryId>) returns (x: DeliveryId)
    requires |all| > |ids|
    ensures x in all && x !in ids
  {
    if forall y :: y in all ==> y in ids {
      SetFitsSeq(all, ids);
    }
    x :| x in all && x !in ids;
  }

  /** A retryable row that is left out of a batch has a whole batch of rivals, all of them in it. */
  lemma LeftOut(rows: map<DeliveryId, Row>, ids: seq<DeliveryId>, d: DeliveryId)
    requires Selected(rows, ids) && d in rows && Retryable(rows[d].status) && d !in ids
    ensures |ids| == BATCH <= |Rivals(rows, d)| && forall i :: 0 <= i < |ids| ==> ids[i] in Rivals(rows, d)
  {
    forall i | 0 <= i < |ids| ensures ids[i] in Rivals(rows, d) {
      assert rows[ids[i]].created <= rows[d].created;
    }
    SizeOfElements(ids, Rivals(rows, d));
  }

  /** Every batch holds a retryable row if and only if it has fewer than a batch of rivals. */
  lemma AlwaysSelectedIff(rows: map<DeliveryId, Row>, d: DeliveryId)
    requires d in rows && Retryable(rows[d].status)
    ensures (forall ids :: Selected(rows, ids) ==> d in ids) <==> |Rivals(rows, d)| < BATCH
  {
    if |Rivals(rows, d)| < BATCH {
      forall ids | Selected(rows, ids) ensures d in ids {
        if d !in ids {
          LeftOut(rows, ids, d);
        }
      }
    } else {
      var ids := BatchWithout(rows, d);
    }
  }

  lemma BatchWithout(rows: map<DeliveryId, Row>, d: DeliveryId) returns (ids: seq<DeliveryId>)
    requires d in rows && Retryable(rows[d].status) && |Rivals(rows, d)| >= BATCH
    ensures Selected(rows, ids) && d !in ids
  {
    ids := SomeBatch(rows, []);
    if d in ids {
      var k :| 0 <= k < |ids| && ids[k] == d;
      var others := ids[..k] + ids[k + 1..];
      var x := OneMissing(Rivals(rows, d), others);
      forall j | 0 <= j < |ids| ensures ids[j] != x {
        assert j != k ==> ids[j] == others[if j < k then j else j - 1];
      }
      assert rows[d].created == rows[x].created;
      StandIn(rows, ids, k, x);
      ids := ids[k := x];
    }
  }

  /** No batch holds it if and only if a whole batch of retryable rows is strictly older. */
  lemma NeverSelectedIff(rows: map<DeliveryId, Row>, d: DeliveryId)
    requires d in rows && Retryable(rows[d].status)
    ensures (forall ids :: Selected(rows, ids) ==> d !in ids) <==> |Older(rows, d)| >= BATCH
  {
    if |Older(rows, d)| >= BATCH {
      forall ids | Selected(rows, ids) ensures d !in ids {
        BehindIsNotSelected(rows, Older(rows, d), d, ids);
      }
    } else {
      var ids := SomeBatch(rows, []);
      if d !in ids {
        LeftOut(rows, ids, d);
        var k := NotAllOlder(rows, ids, d);
        StandIn(rows, ids, k, d);
        assert ids[k := d][k] == d;
      }
    }
  }

  lemma NotAllOlder(rows: map<DeliveryId, Row>, ids: seq<DeliveryId>, d: DeliveryId) returns (k: nat)
    requires d in rows && |Older(rows, d)| < BATCH && |ids| == BATCH && NoDuplicates(ids)
    requires forall i :: 0 <= i < |ids| ==> ids[i] in Rivals(rows, d)
    ensures k < |ids| && ids[k] in rows && rows[ids[k]].created == rows[d].created
  {
    if forall i :: 0 <= i < |ids| ==> ids[i] in Older(rows, d) {
      SizeOfElements(ids, Older(rows, d));
    }
    var i :| 0 <= i < |ids| && ids[i] !in Older(rows, d);
    k := i;
  }

  // What a pass does to one row -------------------------------------------------------------

  ghost predicate OnlyAt(items: seq<Item>, item: Item)
  {
    exists k :: 0 <= k < |items| && items[k] == item && forall j :: 0 <= j < |items| && j != k ==> items[j].id != item.id
  }

  predicate NoItemOf(items: seq<Item>, d: DeliveryId) { forall j :: 0 <= j < |items| ==> items[j].id != d }

  lemma DueItemsNext(rows: map<DeliveryId, Row>, front: seq<DeliveryId>, last: DeliveryId, now: int, far: int -> int)
    requires last in rows && forall i :: 0 <= i < |front| ==> front[i] in rows
    ensures DueItems(rows, front + [last], now, far) ==
            DueItems(rows, front, now, far) + if Due(ItemOf(rows, last), now, far) then [ItemOf(rows, last)] else []
  {
    hide Due, ItemOf;
    assert (front + [last])[..|front|] == front;
  }

  lemma OnlyAtNext(items: seq<Item>, item: Item, last: Item)
    ensures NoItemOf(items, item.id) && last.id != item.id ==> NoItemOf(items + [last], item.id)
    ensures NoItemOf(items, item.id) && last == item ==> OnlyAt(items + [last], item)
    ensures OnlyAt(items, item) && last.id != item.id ==> OnlyAt(items + [last], item)
  {
    var all := items + [last];
    if NoItemOf(items, item.id) && last == item {
      assert all[|items|] == item;
    }
    if OnlyAt(items, item) && last.id != item.id {
      var k :| 0 <= k < |items| && items[k] == item && forall j :: 0 <= j < |items| && j != k ==> items[j].id != item.id;
      assert all[k] == item;
    }
  }

  lemma {:induction false} DueItemsAre(rows: map<DeliveryId, Row>, ids: seq<DeliveryId>, now: int, far: int -> int, d: DeliveryId)
    requires d in rows && NoDuplicates(ids) && forall i :: 0 <= i < |ids| ==> ids[i] in rows
    ensures var items := DueItems(rows, ids, now, far);
            if d in ids && Due(ItemOf(rows, d), now, far) then OnlyAt(items, ItemOf(rows, d)) else NoItemOf(items, d)
    decreases |ids|
  {
    hide Due, OnlyAt, NoItemOf, DueItems;
    if ids == [] {
      NothingDue(rows, now, far, d);
    } else {
      var n := |ids| - 1;
      var front := ids[..n];
      assert forall i :: 0 <= i < n ==> front[i] == ids[i];
      assert ids == front + [ids[n]];
      DueItemsAre(rows, front, now, far, d);
      DueItemsNext(rows, front, ids[n], now, far);
      OnlyAtNext(DueItems(rows, front, now, far), ItemOf(rows, d), ItemOf(rows, ids[n]));
      assert d == ids[n] ==> d !in front;
      assert DueItems(rows, front, now, far) + [] == DueItems(rows, front, now, far);
    }
  }

  lemma NothingDue(rows: map<DeliveryId, Row>, now: int, far: int -> int, d: DeliveryId)
    ensures NoItemOf(DueItems(rows, [], now, far), d)
  {
  }

  /** The only item of a row decides what a pass makes of it. */
  lemma {:induction false} PassTries(rows: map<DeliveryId, Row>, items: seq<Item>, answers: DeliveryId -> Answer, now: int, most: int, k: nat)
    requires k < |items| && items[k].id in rows
    requires forall j :: 0 <= j < |items| && j != k ==> items[j].id != items[k].id
    ensures var (d, rows') := (items[k].id, AttemptAll(rows, items, answers, now, most));
            d in rows' && rows'[d] == Attempt(rows, items[k], answers(d), now, most)[d]
    decreases |items|
  {
    var d := items[k].id;
    var rows1 := Attempt(rows, items[0], answers(items[0].id), now, most);
    if k == 0 {
      forall x | x in items[1..] ensures x.id != d {
        var j :| 0 <= j < |items[1..]| && items[1..][j] == x;
        assert items[j + 1] == x;
      }
      PassSpares(rows1, items[1..], answers, now, most, d);
    } else {
      assert items[1..][k - 1] == items[k];
      assert forall j :: 0 <= j < |items[1..]| ==> items[1..][j] == items[j + 1];
      PassTries(rows1, items[1..], answers, now, most, k - 1);
    }
  }

  lemma SelectedAreRetryable(rows: map<DeliveryId, Row>, ids: seq<DeliveryId>, d: DeliveryId)
    requires Selected(rows, ids) && d in ids
    ensures d in rows && Retryable(rows[d].status)
  {
  }

  /** A pass tries exactly the selected rows that are due: the waiting ones, and those whose last attempt is long
      enough ago. A row that is not tried, or whose request cannot be built, stays as it is. Any other is delivered
      if the receiver accepts, dead if this failure was the last one allowed, and retried later otherwise, with one
      more attempt and the time of this one. */
  lemma TriedIff(rows: map<DeliveryId, Row>, pass: Pass, far: int -> int, most: int, d: DeliveryId)
    requires Selected(rows, pass.ids) && d in rows
    ensures var rows' := AfterPass(rows, pass, far, most);
            var (row, answer) := (rows[d], pass.answers(d));
            var tried := d in pass.ids && (row.status.Waiting? || pass.now >= row.updated + Backoff(row.attempts, far));
            && d in rows'
            && (if tried && !answer.Refused? then
                  && rows'[d].attempts == row.attempts + 1 && rows'[d].updated == pass.now && rows'[d].created == row.created
                  && (rows'[d].status.Delivered? <==> answer.Accepted?)
                  && (rows'[d].status.DeadLetter? <==> answer.Failed? && row.attempts + 1 >= most)
                  && (rows'[d].status.Retry? <==> answer.Failed? && row.attempts + 1 < most)
                else rows'[d] == row)
  {
    hide AttemptAll, DueItems, Backoff;
    if d in pass.ids {
      SelectedAreRetryable(rows, pass.ids, d);
    }
    var items := DueItems(rows, pass.ids, pass.now, far);
    DueItemsAre(rows, pass.ids, pass.now, far, d);
    if d in pass.ids && Due(ItemOf(rows, d), pass.now, far) {
      var k :| 0 <= k < |items| && items[k] == ItemOf(rows, d) && forall j :: 0 <= j < |items| && j != k ==> items[j].id != d;
      PassTries(rows, items, pass.answers, pass.now, most, k);
    } else {
      PassSpares(rows, items, pass.answers, pass.now, most, d);
    }
  }

  /** The due rows are tried oldest first. */
  lemma TriedOldestFirst(rows: map<DeliveryId, Row>, ids: seq<DeliveryId>, now: int, far: int -> int, i: nat, j: nat)
    requires Selected(rows, ids) && i < j < |DueItems(rows, ids, now, far)|
    ensures var items := DueItems(rows, ids, now, far);
            items[i].id in rows && items[j].id in rows && rows[items[i].id].created <= rows[items[j].id].created
  {
    hide Due;
    DueInOrder(rows, ids, now, far);
  }

  lemma {:induction false} DueInOrder(rows: map<DeliveryId, Row>, ids: seq<DeliveryId>, now: int, far: int -> int)
    requires forall i :: 0 <= i < |ids| ==> ids[i] in rows
    requires forall i, j :: 0 <= i < j < |ids| ==> rows[ids[i]].created <= rows[ids[j]].created
    ensures InOrder(rows, DueItems(rows, ids, now, far))
    decreases |ids|
  {
    hide Due;
    if ids != [] {
      var n := |ids| - 1;
      DueInOrder(rows, ids[..n], now, far);
      DueItemsNamed(rows, ids[..n], now, far);
      var before := DueItems(rows, ids[..n], now, far);
      forall i | 0 <= i < |before| ensures before[i].id in ids[..n] {
        assert before[i] in before;
      }
    }
  }

  predicate InOrder(rows: map<DeliveryId, Row>, items: seq<Item>)
  {
    && (forall i :: 0 <= i < |items| ==> items[i].id in rows)
    && forall i, j :: 0 <= i < j < |items| ==> rows[items[i].id].created <= rows[items[j].id].created
  }

  // Over any number of passes -----------------------------------------------------------------

  /** In none of the passes the webhook is touched, although it is due and would get an answer in each. */
  ghost predicate Neglected(rows: map<DeliveryId, Row>, passes: seq<Pass>, far: int -> int, most: int, d: DeliveryId)
    decreases |passes|
  {
    && d in rows
    && (passes != [] ==>
          && Selected(rows, passes[0].ids) && Due(ItemOf(rows, d), passes[0].now, far) && !passes[0].answers(d).Refused?
          && (var rows1 := AfterPass(rows, passes[0], far, most);
              d in rows1 && rows1[d] == rows[d] && Neglected(rows1, passes[1..], far, most, d)))
  }

  /** A due webhook can be neglected over any number of passes if and only if it has a whole batch of rivals. */
  lemma NeglectedIff(rows: map<DeliveryId, Row>, n: nat, far: int -> int, most: int, d: DeliveryId)
    requires n > 0 && d in rows && Retryable(rows[d].status)
    ensures (exists passes :: |passes| == n && Neglected(rows, passes, far, most, d)) <==> |Rivals(rows, d)| >= BATCH
  {
    hide Selected, Backoff, AfterPass;
    if |Rivals(rows, d)| >= BATCH {
      var ids := BatchWithout(rows, d);
      var now := rows[d].updated + Backoff(rows[d].attempts, far);
      var pass := Pass(ids, x => if x == d then Accepted else Refused, now);
      DueBy(rows, d, far);
      NeglectedRun(rows, pass, n, far, most, d);
    } else if passes: seq<Pass> :| |passes| == n && Neglected(rows, passes, far, most, d) {
      TriedIff(rows, passes[0], far, most, d);
      LeftOut(rows, passes[0].ids, d);
    }
  }

  lemma DueBy(rows: map<DeliveryId, Row>, d: DeliveryId, far: int -> int)
    requires d in rows
    ensures Due(ItemOf(rows, d), rows[d].updated + Backoff(rows[d].attempts, far), far)
  {
  }

  lemma {:induction false} NeglectedRun(rows: map<DeliveryId, Row>, pass: Pass, n: nat, far: int -> int, most: int, d: DeliveryId)
    requires d in rows && Selected(rows, pass.ids) && d !in pass.ids && Due(ItemOf(rows, d), pass.now, far)
    requires !pass.answers(d).Refused? && forall x :: x != d ==> pass.answers(x).Refused?
    ensures Neglected(rows, seq(n, _ => pass), far, most, d)
    decreases n
  {
    hide Selected, Due, AfterPass;
    if n > 0 {
      var passes := seq(n, _ => pass);
      SelectedInRows(rows, pass.ids);
      var rows1 := AfterPass(rows, pass, far, most);
      KeysStay(rows, pass, far, most);
      forall x | x in rows ensures rows1[x] == rows[x] {
        TriedIff(rows, pass, far, most, x);
      }
      assert rows1 == rows;
      assert passes[1..] == seq(n - 1, _ => pass);
      NeglectedRun(rows, pass, n - 1, far, most, d);
    }
  }

  lemma KeysStay(rows: map<DeliveryId, Row>, pass: Pass, far: int -> int, most: int)
    requires Selected(rows, pass.ids)
    ensures AfterPass(rows, pass, far, most).Keys == rows.Keys
  {
    hide Selected, DueItems;
    SelectedInRows(rows, pass.ids);
    AttemptsKeepKeys(rows, DueItems(rows, pass.ids, pass.now, far), pass.answers, pass.now, most);
  }

  lemma {:induction false} AttemptsKeepKeys(rows: map<DeliveryId, Row>, items: seq<Item>, answers: DeliveryId -> Answer, now: int, most: int)
    ensures AttemptAll(rows, items, answers, now, most).Keys == rows.Keys
    decreases |items|
  {
    if items != [] {
      AttemptsKeepKeys(Attempt(rows, items[0], answers(items[0].id), now, most), items[1..], answers, now, most);
    }
  }

  class Outbox {
    var rows: map<DeliveryId, Row>
    const most: int

    constructor (maxAttempts: int)
      ensures most == maxAttempts && rows == map[]
    {
      most := maxAttempts;
      rows := map[];
    }

    /** The oldest retryable row that is not yet taken. */
    method OldestLeft(taken: seq<DeliveryId>) returns (pick: Option<DeliveryId>)
      ensures match pick
              case None => forall d :: d in rows && Retryable(rows[d].status) ==> d in taken
              case Some(p) => p in rows && p !in taken && Retryable(rows[p].status) &&
                              forall d :: d in rows && Retryable(rows[d].status) && d !in taken ==> rows[p].created <= rows[d].created
    {
      pick := None;
      var rest := rows.Keys;
      while rest != {}
        invariant rest <= rows.Keys
        invariant match pick
                  case None => forall d :: d in rows && Retryable(rows[d].status) && d !in rest ==> d in taken
                  case Some(p) => p in rows && p !in taken && Retryable(rows[p].status) &&
                                  forall d :: d in rows && Retryable(rows[d].status) && d !in taken && d !in rest ==> rows[p].created <= rows[d].created
      {
        var d :| d in rest;
        rest := rest - {d};
        if Retryable(rows[d].status) && d !in taken && (pick.None? || rows[d].created < rows[pick.value].created) {
          pick := Some(d);
        }
      }
    }

    method SelectRetryable() returns (ids: seq<DeliveryId>)
      ensures Selected(rows, ids)
    {
      ids := [];
      while |ids| < BATCH
        invariant |ids| <= BATCH && NoDuplicates(ids)
        invariant forall i :: 0 <= i < |ids| ==> ids[i] in rows && Retryable(rows[ids[i]].status)
        invariant forall i, j :: 0 <= i < j < |ids| ==> rows[ids[i]].created <= rows[ids[j]].created
        invariant forall d, i :: d in rows && Retryable(rows[d].status) && d !in ids && 0 <= i < |ids| ==> rows[ids[i]].created <= rows[d].created
      {
        var pick := OldestLeft(ids);
        if pick.None? {
          return;
        }
        assert forall i :: 0 <= i < |ids| ==> ids[i] != pick.value;
        ids := ids + [pick.value];
      }
    }

    /** deliverWebhook */
    method DeliverWebhook(item: Item, answer: Answer, now: int)
      modifies this
      ensures rows == Attempt(old(rows), item, answer, now, most)
    {
      if answer.Refused? {
        return;
      }
      var nextAttempts := item.attempts + 1;
      var status := Delivered;
      if !answer.Accepted? {
        status := Retry;
        if nextAttempts >= most {
          status := DeadLetter;
        }
      }
      if item.id in rows {
        rows := rows[item.id := rows[item.id].(status := status, attempts := nextAttempts, updated := now)];
      }
    }

    /** The scan of the selected rows: a retry whose backoff has not passed is left for later. */
    method CollectDue(ids: seq<DeliveryId>, now: int, far: int -> int) returns (items: seq<Item>)
      requires forall i :: 0 <= i < |ids| ==> ids[i] in rows
      ensures items == DueItems(rows, ids, now, far)
    {
      items := [];
      for i := 0 to |ids|
        invariant items == DueItems(rows, ids[..i], now, far)
      {
        assert ids[..i + 1][..i] == ids[..i];
        var item := ItemOf(rows, ids[i]);
        if item.status.Retry? && now < item.updated + Backoff(item.attempts, far) {
          continue;
        }
        items := items + [item];
      }
      assert ids[..|ids|] == ids;
    }

    /** processWebhookOutbox: tries the due ones of the oldest retryable rows, oldest first. */
    method ProcessWebhookOutbox(answers: DeliveryId -> Answer, now: int, far: int -> int) returns (ghost ids: seq<DeliveryId>)
      modifies this
      ensures Selected(old(rows), ids)
      ensures rows == AttemptAll(old(rows), DueItems(old(rows), ids, now, far), answers, now, most)
    {
      var chosen := SelectRetryable();
      ids := chosen;
      var items := CollectDue(chosen, now, far);
      hide Attempt, Backoff, DueItems, Selected;
      for i := 0 to |items|
        invariant AttemptAll(rows, items[i..], answers, now, most) == AttemptAll(old(rows), items, answers, now, most)
      {
        assert items[i..][1..] == items[i + 1..];
        DeliverWebhook(items[i], answers(items[i].id), now);
      }
    }
  }
}
