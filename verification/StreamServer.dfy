// How the API server serves a stream: the buffered events first, then whatever arrives on
// the channel (streamSSEWithPubSub and filterEventsFrom,
// services/api-server/internal/server/server.go:3907-3973).

module StreamServer {
  import opened StreamEvents

  /** A message of the subscription; its payload may fail to parse. */
  datatype Message = Parsed(event: Event) | Malformed

  function FilterFrom(events: seq<Event>, start: int): seq<Event>
  {
    if events == [] then []
    else
      var last := events[|events| - 1];
      FilterFrom(events[..|events| - 1], start) + if last.id < start then [] else [last]
  }

  /** `p` is `s` up to and including its first terminal event. */
  predicate IsCut(s: seq<Event>, p: seq<Event>)
  {
    p <= s && EndsOnce(p) && (p == s || Ended(p))
  }

  function UpToTerminal(s: seq<Event>): (p: seq<Event>)
    ensures IsCut(s, p)
  {
    if s == [] then []
    else
      var p := UpToTerminal(s[..|s| - 1]);
      if Ended(p) then p else s
  }

  lemma CutIsUnique(s: seq<Event>, p: seq<Event>)
    requires IsCut(s, p)
    ensures p == UpToTerminal(s)
  {
    hide IsTerminal, UpToTerminal;
    var q := UpToTerminal(s);
    assert |p| <= |q| && |q| <= |p|;
  }

  lemma CutOfAppend(a: seq<Event>, b: seq<Event>)
    ensures UpToTerminal(a + b) == if Ended(UpToTerminal(a)) then UpToTerminal(a) else a + UpToTerminal(b)
  {
    hide IsTerminal, UpToTerminal;
    var p := UpToTerminal(a);
    if Ended(p) {
      CutIsUnique(a + b, p);
    } else {
      var q := UpToTerminal(b);
      forall i | 0 <= i < |a + q| - 1 ensures !IsTerminal((a + q)[i]) {
        assert i < |a| ==> (a + q)[i] == a[i];
        assert i >= |a| ==> (a + q)[i] == q[i - |a|];
      }
      CutIsUnique(a + b, a + q);
    }
  }

  lemma CutOfOne(e: Event)
    ensures UpToTerminal([e]) == [e] && (Ended([e]) <==> IsTerminal(e))
  {
    hide IsTerminal, UpToTerminal;
    CutIsUnique([e], [e]);
  }

  function LastId(written: seq<Event>): int
  {
    if written == [] then 0 else written[|written| - 1].id
  }

  /** What the loop writes for the messages it receives until the connection closes, the timer
      fires or the channel ends. */
  function Live(last: int, start: int, msgs: seq<Message>): seq<Event>
    decreases |msgs|
  {
    if msgs == [] then []
    else if msgs[0].Malformed? || msgs[0].event.id <= last || msgs[0].event.id < start then Live(last, start, msgs[1..])
    else if IsTerminal(msgs[0].event) then [msgs[0].event]
    else [msgs[0].event] + Live(msgs[0].event.id, start, msgs[1..])
  }

  function Deliver(buffer: seq<Event>, start: int, msgs: seq<Message>): seq<Event>
  {
    var initial := UpToTerminal(FilterFrom(buffer, start));
    if Ended(initial) then initial else initial + Live(LastId(initial), start, msgs)
  }

  // ---------------------------------------------------------------------------
  // The loops of the source
  // ---------------------------------------------------------------------------

  method FilterEventsFrom(events: seq<Event>, start: int) returns (filtered: seq<Event>)
    ensures filtered == FilterFrom(events, start)
  {
    filtered := [];
    for i := 0 to |events|
      invariant filtered == FilterFrom(events[..i], start)
    {
      assert events[..i + 1][..i] == events[..i];
      if events[i].id < start {
        continue;
      }
      filtered := filtered + [events[i]];
    }
    assert events[..|events|] == events;
  }

  method StreamSSEWithPubSub(buffer: seq<Event>, start: int, msgs: seq<Message>) returns (written: seq<Event>)
    ensures written == Deliver(buffer, start, msgs)
  {
    hide IsTerminal;
    written := [];
    var lastEventID := 0;
    var initial := FilterEventsFrom(buffer, start);
    for i := 0 to |initial|
      invariant written == initial[..i] && lastEventID == LastId(written)
      invariant EndsOnce(written) && !Ended(written)
    {
      written := written + [initial[i]];
      lastEventID := initial[i].id;
      if IsTerminal(initial[i]) {
        CutIsUnique(initial, written);
        return;
      }
    }
    CutIsUnique(initial, written);
    ghost var first := written;
    for i := 0 to |msgs|
      invariant written + Live(lastEventID, start, msgs[i..]) == first + Live(LastId(first), start, msgs)
    {
      assert msgs[i..][1..] == msgs[i + 1..];
      if msgs[i].Malformed? {
        continue;
      }
      var ev := msgs[i].event;
      if ev.id <= lastEventID || ev.id < start {
        continue;
      }
      written := written + [ev];
      lastEventID := ev.id;
      if IsTerminal(ev) {
        return;
      }
    }
  }

  // ---------------------------------------------------------------------------
  // Whatever arrives on the channel
  // ---------------------------------------------------------------------------

  predicate AllFrom(s: seq<Event>, low: int) { forall i :: 0 <= i < |s| ==> s[i].id >= low }

  lemma {:induction false} LiveIsOrderly(last: int, start: int, msgs: seq<Message>)
    ensures var r := Live(last, start, msgs);
            Increasing(r) && AllFrom(r, last + 1) && AllFrom(r, start) && EndsOnce(r)
    decreases |msgs|
  {
    hide IsTerminal;
    if msgs != [] {
      LiveIsOrderly(last, start, msgs[1..]);
      if msgs[0].Parsed? {
        LiveIsOrderly(msgs[0].event.id, start, msgs[1..]);
      }
    }
  }

  /** Filtering keeps exactly the events at or above the start, in their order. */
  lemma {:induction false} FilterKeepsOrder(s: seq<Event>, start: int)
    ensures var r := FilterFrom(s, start);
            && AllFrom(r, start) && (Increasing(s) ==> Increasing(r))
            && (forall e :: e in r <==> e in s && e.id >= start)
    decreases |s|
  {
    hide Increasing, AllFrom;
    if s == [] {
      assert AllFrom([], start) && Increasing([]) by { NothingInOrder(start); }
    } else {
      var (front, last) := (s[..|s| - 1], s[|s| - 1]);
      FilterKeepsOrder(front, start);
      assert forall e :: e in s <==> e in front || e == last;
      if Increasing(s) {
        LastIsHighest(s);
      }
      var r := FilterFrom(front, start);
      assert r + [] == r;
      if last.id >= start {
        OneMore(r, last, start);
      }
    }
  }

  lemma NothingInOrder(start: int)
    ensures AllFrom([], start) && Increasing([])
  {
  }

  lemma LastIsHighest(s: seq<Event>)
    requires s != [] && Increasing(s)
    ensures var front := s[..|s| - 1]; Increasing(front) && forall e :: e in front ==> e.id < s[|s| - 1].id
  {
  }

  lemma OneMore(r: seq<Event>, last: Event, start: int)
    requires AllFrom(r, start) && last.id >= start
    ensures AllFrom(r + [last], start)
    ensures Increasing(r) && (forall e :: e in r ==> e.id < last.id) ==> Increasing(r + [last])
  {
  }

  lemma OrderlyAppend(a: seq<Event>, b: seq<Event>, start: int)
    requires Increasing(a) && AllFrom(a, start) && EndsOnce(a) && !Ended(a)
    requires Increasing(b) && AllFrom(b, start) && EndsOnce(b) && AllFrom(b, LastId(a) + 1)
    ensures Increasing(a + b) && AllFrom(a + b, start) && EndsOnce(a + b)
  {
    hide IsTerminal;
    forall i, j | 0 <= i < j < |a + b| ensures (a + b)[i].id < (a + b)[j].id {
      assert i < |a| ==> a[i].id <= LastId(a);
    }
    forall i | 0 <= i < |a + b| - 1 ensures !IsTerminal((a + b)[i]) {
      if i < |a| {
        assert i == |a| - 1 || i < |a| - 1;
      } else {
        assert (a + b)[i] == b[i - |a|];
      }
    }
  }

  /** From an increasing buffer, whatever arrives (duplicates, out of order, malformed): the identifiers
      written strictly increase, none is below the start, nothing follows a terminal event. */
  lemma DeliveredInOrder(buffer: seq<Event>, start: int, msgs: seq<Message>)
    requires Increasing(buffer)
    ensures var r := Deliver(buffer, start, msgs);
            Increasing(r) && AllFrom(r, start) && EndsOnce(r)
  {
    hide IsTerminal, FilterFrom, UpToTerminal, Live, LastId, Ended;
    FilterKeepsOrder(buffer, start);
    var initial := UpToTerminal(FilterFrom(buffer, start));
    assert initial <= FilterFrom(buffer, start);
    LiveIsOrderly(LastId(initial), start, msgs);
    if !Ended(initial) {
      OrderlyAppend(initial, Live(LastId(initial), start, msgs), start);
    }
  }

  /** One more message: its event is written exactly if it parses, lies above everything written and heard so far and
      not below the start, and the stream has not ended. Everything else is passed over. */
  lemma {:induction false} LiveNext(last: int, start: int, msgs: seq<Message>, m: Message)
    ensures var before := Live(last, start, msgs);
            Live(last, start, msgs + [m]) ==
            before + if && m.Parsed? && m.event.id > last && m.event.id >= start && !Ended(before)
                        && (forall j :: 0 <= j < |msgs| && msgs[j].Parsed? ==> msgs[j].event.id < m.event.id)
                     then [m.event] else []
    decreases |msgs|
  {
    hide IsTerminal;
    if msgs == [] {
      assert [] + [m] == [m] && [m][1..] == [];
    } else {
      var (first, later) := (msgs[0], msgs[1..]);
      assert (msgs + [m])[0] == first && (msgs + [m])[1..] == later + [m];
      assert forall j :: 1 <= j < |msgs| ==> msgs[j] == later[j - 1];
      LiveNext(last, start, later, m);
      if first.Parsed? {
        LiveNext(first.event.id, start, later, m);
        LiveRest(first.event.id, start, later, first.event);
      }
    }
  }

  lemma LiveRest(last: int, start: int, later: seq<Message>, first: Event)
    ensures Live(last, start, later) == [] ==> (Ended([first] + Live(last, start, later)) <==> IsTerminal(first))
    ensures Live(last, start, later) != [] ==> (Ended([first] + Live(last, start, later)) <==> Ended(Live(last, start, later)))
  {
    hide IsTerminal, Live;
  }

  /** A stream that is cut short (idle timeout, disconnect) has written a prefix. */
  lemma {:induction false} LiveOfPrefix(last: int, start: int, msgs: seq<Message>, n: nat)
    requires n <= |msgs|
    ensures Live(last, start, msgs[..n]) <= Live(last, start, msgs)
    decreases n
  {
    hide IsTerminal;
    if n > 0 {
      assert msgs[..n][1..] == msgs[1..][..n - 1];
      LiveOfPrefix(last, start, msgs[1..], n - 1);
      if msgs[0].Parsed? {
        LiveOfPrefix(msgs[0].event.id, start, msgs[1..], n - 1);
      }
    }
  }

  lemma TimeoutYieldsPrefix(buffer: seq<Event>, start: int, msgs: seq<Message>, n: nat)
    requires n <= |msgs|
    ensures Deliver(buffer, start, msgs[..n]) <= Deliver(buffer, start, msgs)
  {
    LiveOfPrefix(LastId(UpToTerminal(FilterFrom(buffer, start))), start, msgs, n);
  }

  // ---------------------------------------------------------------------------
  // A log, part of it buffered, part of it on the channel
  // ---------------------------------------------------------------------------

  /** What a client that starts at `start` is owed of a log. */
  function Owed(log: seq<Event>, start: int): seq<Event> { UpToTerminal(FilterFrom(log, start)) }

  /** Dropping the first identifiers of a numbered log. */
  function Skip(n: int, size: nat): nat { if n <= 0 then 0 else if n <= size then n else size }

  lemma {:induction false} FilterAppends(a: seq<Event>, b: seq<Event>, start: int)
    ensures FilterFrom(a + b, start) == FilterFrom(a, start) + FilterFrom(b, start)
    decreases |b|
  {
    if b == [] {
      assert a + b == a;
    } else {
      assert (a + b)[..|a + b| - 1] == a + b[..|b| - 1];
      FilterAppends(a, b[..|b| - 1], start);
    }
  }

  lemma FilterOfOne(e: Event, start: int)
    ensures FilterFrom([e], start) == if e.id < start then [] else [e]
  {
    hide IsTerminal;
    assert [e][..0] == [];
  }

  /** The tail of a longer log, as the filter builds it. */
  lemma TailOfOneMore<T>(front: seq<T>, e: T, k: int)
    ensures var n := |front|;
            (front + [e])[Skip(k, n + 1)..] == front[Skip(k, n)..] + if k > n then [] else [e]
  {
    var log := front + [e];
    if k > |front| {
      assert log[|log|..] == [] && front[|front|..] == [];
    } else {
      var m := if k <= 0 then 0 else k;
      assert log[m..] == front[m..] + [e];
    }
  }

  lemma {:induction false} FilterOfNumbered(log: seq<Event>, start: int)
    requires Numbered(log)
    ensures FilterFrom(log, start) == log[Skip(start - 1, |log|)..]
    decreases |log|
  {
    hide FilterFrom, Skip;
    if log == [] {
      EmptyFilter(start);
    } else {
      var n := |log| - 1;
      var (front, e) := (log[..n], log[n]);
      FilterOfNumbered(front, start);
      FilterAppends(front, [e], start);
      FilterOfOne(e, start);
      assert log == front + [e];
      TailOfOneMore(front, e, start - 1);
    }
  }

  lemma EmptyFilter(start: int)
    ensures FilterFrom([], start) == [] == [][Skip(start - 1, 0)..]
  {
  }

  function Published(log: seq<Event>): seq<Message> { seq(|log|, i requires 0 <= i < |log| => Parsed(log[i])) }

  function Max(a: int, b: int): int { if a < b then b else a }

  lemma LiveOfNothing(last: int, start: int, log: seq<Event>)
    ensures log == [] ==> Live(last, start, Published(log)) == []
  {
  }

  lemma LiveOfFirst(last: int, start: int, log: seq<Event>)
    requires log != []
    ensures var (e, later) := (log[0], Published(log[1..]));
            Live(last, start, Published(log)) ==
              if e.id <= last || e.id < start then Live(last, start, later)
              else if IsTerminal(e) then [e]
              else [e] + Live(e.id, start, later)
  {
    hide IsTerminal;
    assert Published(log)[1..] == Published(log[1..]);
  }

  lemma {:induction false} LiveOfNumbered(log: seq<Event>, p: nat, last: int, start: int)
    requires Numbered(log) && p <= |log|
    ensures Live(last, start, Published(log[p..])) == UpToTerminal(log[Skip(Max(p, Max(last, start - 1)), |log|)..])
    decreases |log| - p
  {
    hide IsTerminal, UpToTerminal, Live, Published;
    var m := Skip(Max(p, Max(last, start - 1)), |log|);
    if p == |log| {
      CutIsUnique([], []);
      assert log[m..] == [];
      LiveOfNothing(last, start, log[p..]);
    } else {
      var e := log[p];
      LiveOfFirst(last, start, log[p..]);
      assert log[p..][1..] == log[p + 1..];
      LiveOfNumbered(log, p + 1, last, start);
      if e.id > last && e.id >= start {
        assert m == p;
        LiveOfNumbered(log, p + 1, e.id, start);
        assert log[p..] == [e] + log[p + 1..];
        CutOfOne(e);
        CutOfAppend([e], log[p + 1..]);
      }
    }
  }

  /** What a joiner can miss: an event published before it subscribed and pushed after it loaded. */
  function Without(log: seq<Event>, p: nat, q: nat): seq<Event>
    requires p <= |log| && q <= |log|
  {
    if q < p then log[..q] + log[p..] else log
  }

  /** Where the live part starts, after a buffer that did not end the stream. */
  lemma LiveStart(log: seq<Event>, p: nat, q: nat, start: int)
    requires Numbered(log) && p <= |log| && q <= |log|
    ensures var last := LastId(log[Skip(start - 1, q)..q]);
            0 <= Skip(Max(p, Max(last, start - 1)), |log|) == Max(p, Max(q, Skip(start - 1, |log|))) <= |log|
  {
    var k := Skip(start - 1, q);
    if k < q {
      assert log[k..q][q - k - 1] == log[q - 1];
    }
  }

  /** Of a numbered log, the first `q` events are buffered and the ones after the first `p` arrive on the
      channel: the client is sent what it is owed of the log without the events in between. */
  lemma JoinDelivers(log: seq<Event>, p: nat, q: nat, start: int)
    requires Numbered(log) && p <= |log| && q <= |log|
    ensures Deliver(log[..q], start, Published(log[p..])) == Owed(Without(log, p, q), start)
  {
    hide IsTerminal, FilterFrom, UpToTerminal, Live, Skip, Max, LastId, Published, Numbered, EndsOnce;
    var k := Skip(start - 1, q);
    FilterOfBuffer(log, q, start);
    FilterOfWithout(log, p, q, start);
    LiveStart(log, p, q, start);
    CutOfAppend(log[k..q], log[Max(p, Max(q, Skip(start - 1, |log|)))..]);
    LiveOfNumbered(log, p, LastId(log[k..q]), start);
  }

  lemma FilterOfBuffer(log: seq<Event>, q: nat, start: int)
    requires Numbered(log) && q <= |log|
    ensures var k := Skip(start - 1, q); 0 <= k <= q && FilterFrom(log[..q], start) == log[k..q]
  {
    hide FilterFrom;
    FilterOfNumbered(log[..q], start);
    assert log[..q][Skip(start - 1, q)..] == log[Skip(start - 1, q)..q];
  }

  lemma FilterOfTail(log: seq<Event>, m: nat, start: int)
    requires Numbered(log) && m <= |log|
    ensures FilterFrom(log[m..], start) == log[Max(m, Skip(start - 1, |log|))..]
  {
    hide FilterFrom;
    var k := Skip(start - 1, |log|);
    FilterOfNumbered(log, start);
    FilterOfNumbered(log[..m], start);
    assert log == log[..m] + log[m..];
    FilterAppends(log[..m], log[m..], start);
    assert log[k..] == log[..m][Skip(start - 1, m)..] + FilterFrom(log[m..], start);
    if k < m {
      assert log[k..] == log[..m][k..] + log[m..];
    }
  }

  lemma FilterOfWithout(log: seq<Event>, p: nat, q: nat, start: int)
    requires Numbered(log) && p <= |log| && q <= |log|
    ensures FilterFrom(Without(log, p, q), start) ==
            FilterFrom(log[..q], start) + log[Max(p, Max(q, Skip(start - 1, |log|)))..]
  {
    hide FilterFrom, Numbered;
    var m := Max(p, q);
    assert Without(log, p, q) == log[..q] + log[m..];
    FilterAppends(log[..q], log[m..], start);
    FilterOfTail(log, m, start);
  }

  /** Leaving out the events between the first `q` and the first `p` does no harm if and only if none was left out,
      the client starts after them, or what it is sent ends before them. */
  lemma MissingIff(log: seq<Event>, p: nat, q: nat, start: int)
    requires Numbered(log) && p <= |log| && q <= |log|
    ensures Owed(Without(log, p, q), start) == Owed(log, start)
            <==> q >= p || start > p || Ended(Owed(log[..q], start))
  {
    hide IsTerminal, FilterFrom, UpToTerminal;
    if q < p {
      var (a, b, c) := (FilterFrom(log[..q], start), FilterFrom(log[q..p], start), FilterFrom(log[p..], start));
      assert log == log[..q] + (log[q..p] + log[p..]);
      FilterAppends(log[..q], log[q..p] + log[p..], start);
      FilterAppends(log[q..p], log[p..], start);
      FilterAppends(log[..q], log[p..], start);
      CutOfAppend(a, b + c);
      CutOfAppend(a, c);
      if !Ended(UpToTerminal(a)) {
        FilterBetween(log, q, p, start);
        FilterKeepsOrder(log[p..], start);
        FirstDecides(b, c, p);
        assert (a + UpToTerminal(b + c))[|a|..] == UpToTerminal(b + c);
        assert (a + UpToTerminal(c))[|a|..] == UpToTerminal(c);
      }
    }
  }

  lemma FilterBetween(log: seq<Event>, q: nat, p: nat, start: int)
    requires Numbered(log) && q < p <= |log|
    ensures var b := FilterFrom(log[q..p], start);
            (b == [] <==> start > p) && (b != [] ==> b[0].id <= p)
    ensures forall e :: e in log[p..] ==> e.id > p
  {
    hide FilterFrom;
    assert log[..p][q..] == log[q..p];
    FilterOfTail(log[..p], q, start);
  }

  lemma FirstDecides(b: seq<Event>, c: seq<Event>, p: nat)
    requires (b != [] ==> b[0].id <= p) && forall e :: e in c ==> e.id > p
    ensures UpToTerminal(b + c) == UpToTerminal(c) <==> b == []
  {
    hide IsTerminal, UpToTerminal;
    if b == [] {
      assert b + c == c;
    } else {
      CutOfOne(b[0]);
      CutOfAppend([b[0]], b[1..] + c);
      assert b + c == [b[0]] + (b[1..] + c);
      var d := UpToTerminal(c);
      assert d <= c;
      assert d != [] ==> d[0] == c[0] && c[0] in c;
    }
  }
}
