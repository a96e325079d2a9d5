// Resuming a stream: the portal remembers the last identifier it was shown and sends it back
// in Last-Event-ID (section 9.2.4 of the WHATWG HTML standard; appendEntry and reconnect,
// portal/app/runs/page.tsx:171-187 and 246-257); the server starts one after it
// (parseStartFrom, services/api-server/internal/server/server.go:2077-2086).

module Reconnect {
  import opened Basics
  import opened StreamEvents
  import opened StreamServer
  import opened Sse
  import opened SseCut
  import Decimals
  import Text

  function ParseStartFrom(lastID: string): int
  {
    if lastID == "" || lastID == "-1" then 0
    else
      var v := Decimals.ParseInt(lastID);
      if v.None? then 0 else Decimals.Successor(v.value)
  }

  function LastShown(entries: seq<Entry>, before: string): string
  {
    if entries == [] then before else entries[|entries| - 1].id
  }

  function HeaderFor(lastEventID: string): string { if lastEventID == "" then "-1" else lastEventID }

  /** The part of the page's state that a stream changes. */
  class RunsPage {
    var entries: seq<Entry>
    var lastEventID: string

    constructor ()
      ensures entries == [] && lastEventID == "-1"
    {
      entries, lastEventID := [], "-1";
    }

    method AppendEntry(entry: Entry)
      modifies this
      ensures entries == old(entries) + [entry] && lastEventID == entry.id
    {
      entries := entries + [entry];
      lastEventID := entry.id;
    }

    /** One connection, in whatever chunks its text arrives. */
    method Receive(chunks: seq<string>)
      modifies this
      ensures entries == old(entries) + OneShot(Concat(chunks))
      ensures lastEventID == LastShown(OneShot(Concat(chunks)), old(lastEventID))
    {
      hide OneShot, Concat;
      var reported := ConsumeSSE(chunks);
      for i := 0 to |reported|
        invariant entries == old(entries) + reported[..i]
        invariant lastEventID == LastShown(reported[..i], old(lastEventID))
      {
        AppendEntry(reported[i]);
      }
    }

    method Header() returns (lastID: string)
      ensures lastID == HeaderFor(lastEventID)
    {
      lastID := if lastEventID == "" then "-1" else lastEventID;
    }
  }

  // ---------------------------------------------------------------------------
  // The header
  // ---------------------------------------------------------------------------

  /** The identifier that the portal prints back is parsed as the next one, with wrap-around at the top. */
  lemma StartAfterPrint(k: int)
    requires Decimals.Int64(k)
    ensures ParseStartFrom(Decimals.Print(k)) == Decimals.Successor(k)
  {
    hide Decimals.Print, Decimals.ParseInt;
    Decimals.PrintThenParse(k);
    if Decimals.Print(k) == "-1" {
      Decimals.PrintThenParse(-1);
      PrintMinusOne();
    }
  }

  lemma PrintMinusOne()
    ensures Decimals.Print(-1) == "-1"
  {
    assert Decimals.Digits(1) == "1";
  }

  /** Nothing, "-1" and the "-" of an entry without identifier all replay from the start. */
  lemma ReplaysFromStart()
    ensures ParseStartFrom("") == ParseStartFrom("-1") == ParseStartFrom("-") == 0
    ensures HeaderFor("") == "-1"
  {
    assert Decimals.ReadDigits("") == None;
    assert "-"[1..] == "";
  }

  // ---------------------------------------------------------------------------
  // Composition
  // ---------------------------------------------------------------------------

  /** What has been delivered up to identifier `k`. */
  function Until(s: seq<Event>, k: int): seq<Event>
  {
    if s == [] || s[0].id > k then [] else [s[0]] + Until(s[1..], k)
  }

  predicate AllUpTo(s: seq<Event>, k: int) { forall i :: 0 <= i < |s| ==> s[i].id <= k }

  lemma {:induction false} UntilOf(a: seq<Event>, b: seq<Event>, k: int)
    requires AllUpTo(a, k) && AllFrom(b, k + 1)
    ensures Until(a + b, k) == a
    decreases |a|
  {
    if a == [] {
      assert a + b == b;
    } else {
      assert (a + b)[1..] == a[1..] + b;
      UntilOf(a[1..], b, k);
    }
  }

  lemma {:induction false} FilterAllFrom(s: seq<Event>, start: int)
    requires AllFrom(s, start)
    ensures FilterFrom(s, start) == s
    decreases |s|
  {
    if s != [] {
      FilterAllFrom(s[..|s| - 1], start);
    }
  }

  lemma {:induction false} FilterNoneFrom(s: seq<Event>, start: int)
    requires AllUpTo(s, start - 1)
    ensures FilterFrom(s, start) == []
    decreases |s|
  {
    if s != [] {
      FilterNoneFrom(s[..|s| - 1], start);
    }
  }

  /** An increasing log splits at `k`. */
  lemma {:induction false} SplitAt(log: seq<Event>, k: int) returns (n: nat)
    requires Increasing(log)
    ensures n <= |log| && AllUpTo(log[..n], k) && AllFrom(log[n..], k + 1)
    decreases |log|
  {
    if log == [] || log[|log| - 1].id <= k {
      n := |log|;
    } else {
      n := SplitAt(log[..|log| - 1], k);
      assert log[..|log| - 1][..n] == log[..n];
      assert forall i :: n <= i < |log| - 1 ==> log[i] == log[..|log| - 1][n..][i - n];
    }
  }

  predicate EndsBy(log: seq<Event>, k: int) { exists i :: 0 <= i < |log| && log[i].id <= k && IsTerminal(log[i]) }

  predicate GoesOnAfter(log: seq<Event>, k: int) { exists i :: 0 <= i < |log| && log[i].id > k }

  lemma EndedIff(a: seq<Event>)
    ensures Ended(UpToTerminal(a)) <==> exists i :: 0 <= i < |a| && IsTerminal(a[i])
    ensures a != [] ==> UpToTerminal(a) != []
  {
    hide IsTerminal, UpToTerminal;
    var p := UpToTerminal(a);
    if Ended(p) {
      assert a[|p| - 1] == p[|p| - 1];
    } else {
      assert p == a;
      forall i | 0 <= i < |a| ensures !IsTerminal(a[i]) {
        assert i == |a| - 1 || i < |a| - 1;
      }
    }
  }

  lemma ComposeParts(a: seq<Event>, b: seq<Event>, k: int)
    requires AllUpTo(a, k) && AllFrom(b, k + 1)
    ensures var whole := UpToTerminal(a + b);
            Until(whole, k) + UpToTerminal(b) == whole <==> !(Ended(UpToTerminal(a)) && b != [])
  {
    hide IsTerminal, UpToTerminal, Ended, Until;
    CutOfAppend(a, b);
    EndedIff(b);
    if Ended(UpToTerminal(a)) {
      UntilOf(UpToTerminal(a), [], k);
      assert UpToTerminal(a) + [] == UpToTerminal(a);
    } else {
      UntilOf(a, UpToTerminal(b), k);
    }
  }

  /** What was delivered up to `k`, followed by what a reconnect from the printed `k` delivers, is one
      uninterrupted delivery, exactly unless a terminal event up to `k` is followed by events after `k`. */
  lemma Composition(log: seq<Event>, k: int)
    requires Increasing(log) && AllFrom(log, 0) && Decimals.Int64(k) && k < Decimals.MAX
    ensures Until(Owed(log, 0), k) + Owed(log, ParseStartFrom(Decimals.Print(k))) == Owed(log, 0)
            <==> !(EndsBy(log, k) && GoesOnAfter(log, k))
  {
    hide IsTerminal, UpToTerminal, FilterFrom, ParseStartFrom, Decimals.Print, Ended, Until, EndsBy, GoesOnAfter, Increasing;
    StartAfterPrint(k);
    var n := SplitAt(log, k);
    OwedOfTail(log, n, k);
    EndedIff(log[..n]);
    EndsWithin(log, n, k);
    GoesOn(log, n, k);
    assert log == log[..n] + log[n..];
    ComposeParts(log[..n], log[n..], k);
  }

  lemma OwedOfTail(log: seq<Event>, n: nat, k: int)
    requires AllFrom(log, 0) && n <= |log| && AllUpTo(log[..n], k) && AllFrom(log[n..], k + 1)
    ensures Owed(log, 0) == UpToTerminal(log) && Owed(log, k + 1) == UpToTerminal(log[n..])
  {
    hide UpToTerminal, FilterFrom;
    FilterAllFrom(log, 0);
    FilterAppends(log[..n], log[n..], k + 1);
    FilterNoneFrom(log[..n], k + 1);
    FilterAllFrom(log[n..], k + 1);
    assert log == log[..n] + log[n..];
    assert [] + log[n..] == log[n..];
  }

  lemma EndsWithin(log: seq<Event>, n: nat, k: int)
    requires n <= |log| && AllUpTo(log[..n], k) && AllFrom(log[n..], k + 1)
    ensures EndsBy(log, k) <==> exists i :: 0 <= i < |log[..n]| && IsTerminal(log[..n][i])
  {
    hide IsTerminal;
    if EndsBy(log, k) {
      var i :| 0 <= i < |log| && log[i].id <= k && IsTerminal(log[i]);
      assert forall j :: n <= j < |log| ==> log[j] == log[n..][j - n];
      assert i < n;
      assert log[..n][i] == log[i];
    }
  }

  lemma GoesOn(log: seq<Event>, n: nat, k: int)
    requires n <= |log| && AllUpTo(log[..n], k) && AllFrom(log[n..], k + 1)
    ensures GoesOnAfter(log, k) <==> log[n..] != []
  {
    if n < |log| {
      assert log[n] == log[n..][0];
    } else {
      assert log[..n] == log;
    }
  }

  /** At the top of int64 the header wraps around and everything is sent again. */
  lemma ReplayAtTheTop(log: seq<Event>)
    requires AllFrom(log, 0)
    ensures ParseStartFrom(Decimals.Print(Decimals.MAX)) == Decimals.MIN
    ensures Owed(log, ParseStartFrom(Decimals.Print(Decimals.MAX))) == Owed(log, 0)
  {
    hide Decimals.Print;
    StartAfterPrint(Decimals.MAX);
    FilterAllFrom(log, 0);
    FilterAllFrom(log, Decimals.MIN);
  }

  // ---------------------------------------------------------------------------
  // From the log to the page
  // ---------------------------------------------------------------------------

  lemma NoHeaderYet()
    ensures ParseStartFrom(HeaderFor(LastShown(ShownAll([]), "-1"))) == 0
  {
  }

  lemma HeaderAfter(events: seq<Event>)
    requires events != []
    ensures HeaderFor(LastShown(ShownAll(events), "-1")) == Decimals.Print(events[|events| - 1].id)
  {
    hide Decimals.Print, JsTrim, Split;
    assert ShownAll(events)[|events| - 1] == Shown(events[|events| - 1]);
  }

  /** A first connection that has shown `n` whole events, and the reconnect with the header the page then sends. */
  lemma AfterWholeEvents(log: seq<Event>, n: nat, shown: seq<Entry>, second: seq<string>)
    requires Increasing(log) && AllFrom(log, 0) && (forall i :: 0 <= i < |log| ==> log[i].id < Decimals.MAX && Named(log[i]))
    requires n <= |Owed(log, 0)| && shown == ShownAll(Owed(log, 0)[..n])
    requires Concat(second) == PrintedAll(Owed(log, ParseStartFrom(HeaderFor(LastShown(shown, "-1")))))
    ensures shown + OneShot(Concat(second)) == ShownAll(Owed(log, 0)) <==> !(n == |Owed(log, 0)| < |log|)
  {
    hide IsTerminal, FilterFrom, Concat, OneShot, PrintedAll, Named, ParseStartFrom, Owed, Decimals.Print;
    hide ShownAll, LastShown, HeaderFor, Increasing, AllFrom, Decimals.Int64;
    var whole := Owed(log, 0);
    OwedIsNamed(log, 0);
    if n == 0 {
      NoHeaderYet();
      RoundTrip(whole, second);
      assert whole[..0] == [];
      ShownAppend([], whole);
      assert [] + whole == whole;
      OwedIsEmpty(log);
    } else {
      var k := whole[n - 1].id;
      HeaderAfter(whole[..n]);
      var rest := Owed(log, ParseStartFrom(Decimals.Print(k)));
      OwedIsNamed(log, ParseStartFrom(Decimals.Print(k)));
      RoundTrip(rest, second);
      ResumedAfter(log, n);
      ShownAppend(whole[..n], rest);
    }
  }

  /** The first connection is lost anywhere: after any number `c` of characters of the text that it owes. The page
      reconnects with the header it then sends. However both texts are cut into chunks, the page has been shown
      exactly what an uninterrupted stream shows if and only if the cut is intact and the stream had not been shown
      to its end while the log goes on after it. */
  lemma PageSeesLog(log: seq<Event>, c: nat, first: seq<string>, second: seq<string>)
    requires Increasing(log) && AllFrom(log, 0) && (forall i :: 0 <= i < |log| ==> log[i].id < Decimals.MAX && Named(log[i]))
    requires c <= |PrintedAll(Owed(log, 0))| && Concat(first) == PrintedAll(Owed(log, 0))[..c]
    requires var header := HeaderFor(LastShown(OneShot(Concat(first)), "-1"));
             Concat(second) == PrintedAll(Owed(log, ParseStartFrom(header)))
    ensures OneShot(Concat(first)) + OneShot(Concat(second)) == ShownAll(Owed(log, 0))
            <==> IntactCut(Owed(log, 0), c) && !(Seen(Owed(log, 0), c) == |Owed(log, 0)| < |log|)
  {
    hide IsTerminal, FilterFrom, Concat, OneShot, PrintedAll, Named, ParseStartFrom, Owed;
    hide ShownAll, LastShown, HeaderFor, Increasing, AllFrom, Decimals.Int64, IntactCut, Seen;
    var whole := Owed(log, 0);
    var (shown, n) := (OneShot(Concat(first)), Seen(whole, c));
    OwedIsNamed(log, 0);
    SeenIff(whole, c);
    if shown == ShownAll(whole[..n]) {
      AfterWholeEvents(log, n, shown, second);
    } else {
      var both := shown + OneShot(Concat(second));
      assert both[..n] == shown;
      ShownAppend(whole[..n], whole[n..]);
      ShownIsOneEach(whole[..n]);
      assert whole == whole[..n] + whole[n..];
      assert ShownAll(whole)[..n] == ShownAll(whole[..n]);
    }
  }

  /** A first connection whose read fails instead of ending: only whole events have been shown, and nothing is lost
      or repeated wherever it failed. */
  lemma PageSeesLogAfterFailure(log: seq<Event>, c: nat, first: seq<string>, second: seq<string>)
    requires Increasing(log) && AllFrom(log, 0) && (forall i :: 0 <= i < |log| ==> log[i].id < Decimals.MAX && Named(log[i]))
    requires c <= |PrintedAll(Owed(log, 0))| && Concat(first) == PrintedAll(Owed(log, 0))[..c]
    requires var header := HeaderFor(LastShown(Scan(Concat(first)).entries, "-1"));
             Concat(second) == PrintedAll(Owed(log, ParseStartFrom(header)))
    ensures Scan(Concat(first)).entries + OneShot(Concat(second)) == ShownAll(Owed(log, 0))
            <==> !(Complete(Owed(log, 0), c) == |Owed(log, 0)| < |log|)
  {
    hide IsTerminal, FilterFrom, Concat, OneShot, Scan, PrintedAll, Named, ParseStartFrom, Owed;
    hide ShownAll, LastShown, HeaderFor, Increasing, AllFrom, Complete, Tail;
    OwedIsNamed(log, 0);
    CutStream(Owed(log, 0), c);
    AfterWholeEvents(log, Complete(Owed(log, 0), c), Scan(Concat(first)).entries, second);
  }

  lemma ShownIsOneEach(events: seq<Event>)
    ensures |ShownAll(events)| == |events|
  {
  }

  lemma OwedIsEmpty(log: seq<Event>)
    requires AllFrom(log, 0)
    ensures Owed(log, 0) == [] ==> log == []
  {
    hide IsTerminal, UpToTerminal, FilterFrom;
    FilterAllFrom(log, 0);
    EndedIff(log);
  }

  /** The same about the events: resuming after the event `n` either completes the delivery or adds to it. */
  lemma ResumedAfter(log: seq<Event>, n: nat)
    requires Increasing(log) && AllFrom(log, 0) && (forall i :: 0 <= i < |log| ==> log[i].id < Decimals.MAX)
    requires 0 < n <= |Owed(log, 0)|
    ensures var whole := Owed(log, 0);
            var resumed := whole[..n] + Owed(log, ParseStartFrom(Decimals.Print(whole[n - 1].id)));
            && (resumed == whole <==> !(n == |whole| < |log|))
            && (resumed != whole ==> ShownAll(resumed) != ShownAll(whole))
  {
    hide IsTerminal, FilterFrom, ParseStartFrom, Owed, Decimals.Print, Until, EndsBy, GoesOnAfter, ShownAll, Increasing;
    var whole := Owed(log, 0);
    var k := whole[n - 1].id;
    OwedIsInLog(log, n);
    Composition(log, k);
    CutAfter(log, n);
    var rest := Owed(log, ParseStartFrom(Decimals.Print(k)));
    if n == |whole| {
      assert whole[..n] == whole;
      ShownLength(whole + rest, whole);
      assert rest == [] ==> whole + rest == whole;
    }
  }

  lemma ShownAppend(a: seq<Event>, b: seq<Event>)
    ensures ShownAll(a) + ShownAll(b) == ShownAll(a + b)
  {
    hide Shown;
  }

  lemma ShownLength(a: seq<Event>, b: seq<Event>)
    ensures |a| != |b| ==> ShownAll(a) != ShownAll(b)
  {
    hide Shown;
  }

  lemma OwedIsNamed(log: seq<Event>, start: int)
    requires forall i :: 0 <= i < |log| ==> Named(log[i])
    ensures forall i :: 0 <= i < |Owed(log, start)| ==> Named(Owed(log, start)[i])
  {
    hide IsTerminal, FilterFrom, Named, UpToTerminal;
    FilterKeepsOrder(log, start);
    var (p, f) := (Owed(log, start), FilterFrom(log, start));
    forall i | 0 <= i < |p| ensures Named(p[i]) {
      assert p[i] == f[i] && f[i] in f;
    }
  }

  lemma OwedIsInLog(log: seq<Event>, n: nat)
    requires Increasing(log) && AllFrom(log, 0) && (forall i :: 0 <= i < |log| ==> log[i].id < Decimals.MAX)
    requires 0 < n <= |Owed(log, 0)|
    ensures Owed(log, 0) == UpToTerminal(log) && Owed(log, 0)[n - 1] == log[n - 1]
    ensures Decimals.Int64(log[n - 1].id) && log[n - 1].id < Decimals.MAX
  {
    hide IsTerminal, UpToTerminal, FilterFrom;
    FilterAllFrom(log, 0);
  }

  /** The first `n` events are those up to the identifier of the last of them. */
  lemma CutAfter(log: seq<Event>, n: nat)
    requires Increasing(log) && AllFrom(log, 0) && 0 < n <= |Owed(log, 0)|
    ensures var whole := Owed(log, 0);
            var k := whole[n - 1].id;
            && Until(whole, k) == whole[..n]
            && ((EndsBy(log, k) && GoesOnAfter(log, k)) <==> n == |whole| < |log|)
  {
    hide IsTerminal, UpToTerminal, FilterFrom, Until;
    FilterAllFrom(log, 0);
    var whole := UpToTerminal(log);
    var k := whole[n - 1].id;
    assert whole[n - 1] == log[n - 1];
    UntilOf(whole[..n], whole[n..], k);
    assert whole == whole[..n] + whole[n..];
    if n == |whole| < |log| {
      assert IsTerminal(log[n - 1]);
      assert log[n].id > k;
    } else if EndsBy(log, k) {
      var i :| 0 <= i < |log| && log[i].id <= k && IsTerminal(log[i]);
      assert i < n;
      assert whole[i] == log[i];
    }
  }
}
