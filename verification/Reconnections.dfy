// A stream over any number of lost connections: the portal reconnects with the header it then sends, until a
// connection delivers all it owes (startThreadRun and reconnect, portal/app/runs/page.tsx:103-197), and what its
// own entries for cancel and delete do to the header (199-244). The log is that of a run that is through.

module Reconnections {
  import opened StreamEvents
  import opened StreamServer
  import opened Sse
  import opened SseCut
  import opened Reconnect
  import Decimals

  /** A connection is lost after `c` characters of what it owes: the stream ends there, or the read fails. */
  datatype Loss = Ends(c: nat) | Fails(c: nat)

  /** The start that the server reads from the header of a page that shows `shown`. */
  function StartAfter(shown: seq<Entry>): int { ParseStartFrom(HeaderFor(LastShown(shown, "-1"))) }

  function Arrived(text: string, loss: Loss): nat { Min(loss.c, |text|) }

  /** What a lost connection adds to the page. */
  function Added(log: seq<Event>, shown: seq<Entry>, loss: Loss): seq<Entry>
  {
    var text := PrintedAll(Owed(log, StartAfter(shown)));
    var sent := text[..Arrived(text, loss)];
    if loss.Ends? then OneShot(sent) else Scan(sent).entries
  }

  function AfterLosses(log: seq<Event>, shown: seq<Entry>, losses: seq<Loss>): seq<Entry>
    decreases |losses|
  {
    if losses == [] then shown else AfterLosses(log, shown + Added(log, shown, losses[0]), losses[1..])
  }

  /** What the page shows after these losses and one connection that delivers all it owes. */
  function FinallyShown(log: seq<Event>, shown: seq<Entry>, losses: seq<Loss>): seq<Entry>
  {
    var before := AfterLosses(log, shown, losses);
    before + OneShot(PrintedAll(Owed(log, StartAfter(before))))
  }

  ghost predicate Sendable(log: seq<Event>)
  {
    Increasing(log) && AllFrom(log, 0) && forall i :: 0 <= i < |log| ==> log[i].id < Decimals.MAX && Named(log[i])
  }

  function Got(rest: seq<Event>, loss: Loss): nat
  {
    var c := Arrived(PrintedAll(rest), loss);
    if loss.Ends? then Seen(rest, c) else Complete(rest, c)
  }

  /** With the first `n` events shown: the stream is not reopened at its end while the log goes on, and every stream
      that ends early ends at an intact cut. */
  predicate Harmless(log: seq<Event>, n: nat, losses: seq<Loss>)
    decreases |losses|
  {
    var whole := Owed(log, 0);
    && n <= |whole| && !(n == |whole| < |log|)
    && (losses != [] ==>
          && (losses[0].Ends? ==> IntactCut(whole[n..], Arrived(PrintedAll(whole[n..]), losses[0])))
          && Harmless(log, n + Got(whole[n..], losses[0]), losses[1..]))
  }

  /** What is still owed once the first `n` events are shown. */
  lemma StillOwed(log: seq<Event>, n: nat)
    requires Sendable(log) && n <= |Owed(log, 0)|
    ensures var (whole, rest) := (Owed(log, 0), Owed(log, StartAfter(ShownAll(Owed(log, 0)[..n]))));
            if n == |whole| < |log| then rest != [] else rest == whole[n..]
  {
    hide IsTerminal, FilterFrom, PrintedAll, Named, ParseStartFrom, Owed, Decimals.Print;
    hide ShownAll, LastShown, HeaderFor, Increasing, AllFrom, Decimals.Int64;
    var whole := Owed(log, 0);
    if n == 0 {
      assert whole[..0] == [] && whole[0..] == whole;
      NoHeaderYet();
      OwedIsEmpty(log);
    } else {
      HeaderAfter(whole[..n]);
      ResumedAfter(log, n);
      var rest := Owed(log, ParseStartFrom(Decimals.Print(whole[n - 1].id)));
      assert (whole[..n] + rest)[n..] == rest;
      assert n == |whole| ==> whole[..n] + [] == whole;
    }
  }

  /** What is shown is only added to. */
  lemma {:induction false} LossesAdd(log: seq<Event>, shown: seq<Entry>, losses: seq<Loss>)
    ensures shown <= AfterLosses(log, shown, losses) <= FinallyShown(log, shown, losses)
    decreases |losses|
  {
    hide Added, Owed, PrintedAll, OneShot, StartAfter;
    if losses != [] {
      LossesAdd(log, shown + Added(log, shown, losses[0]), losses[1..]);
    }
  }

  /** A stream that is reopened at its end while the log goes on shows too much. */
  lemma {:induction false} ReopenedAtEnd(log: seq<Event>, losses: seq<Loss>)
    requires Sendable(log) && |Owed(log, 0)| < |log|
    ensures |FinallyShown(log, ShownAll(Owed(log, 0)), losses)| > |ShownAll(Owed(log, 0))|
    decreases |losses|
  {
    hide Added, Owed, PrintedAll, OneShot, StartAfter, ShownAll, Named, Sendable, Scan;
    var shown := ShownAll(Owed(log, 0));
    if losses == [] {
      LastShowsMore(log);
    } else {
      var added := Added(log, shown, losses[0]);
      if added == [] {
        assert shown + added == shown;
        ReopenedAtEnd(log, losses[1..]);
      } else {
        LossesAdd(log, shown + added, losses[1..]);
      }
    }
  }

  lemma LastShowsMore(log: seq<Event>)
    requires Sendable(log) && |Owed(log, 0)| < |log|
    ensures OneShot(PrintedAll(Owed(log, StartAfter(ShownAll(Owed(log, 0)))))) != []
  {
    hide Owed, PrintedAll, OneShot, StartAfter, ShownAll, Named, Scan;
    var whole := Owed(log, 0);
    assert whole[..|whole|] == whole;
    StillOwed(log, |whole|);
    var rest := Owed(log, StartAfter(ShownAll(whole)));
    OwedIsNamed(log, StartAfter(ShownAll(whole)));
    ShownInFull(rest);
    ShownIsOneEach(rest);
  }

  lemma ShownInFull(events: seq<Event>)
    requires forall i :: 0 <= i < |events| ==> Named(events[i])
    ensures OneShot(PrintedAll(events)) == ShownAll(events)
  {
    hide OneShot, PrintedAll, Named, ShownAll;
    var text := PrintedAll(events);
    assert Concat([text]) == text by {
      assert [text][..0] == [];
      assert "" + text == text;
    }
    RoundTrip(events, [text]);
  }

  /** One lost connection adds whole events exactly if it failed or ended at an intact cut. */
  lemma OneLoss(log: seq<Event>, n: nat, loss: Loss)
    requires Sendable(log) && n <= |Owed(log, 0)| && !(n == |Owed(log, 0)| < |log|)
    ensures var whole := Owed(log, 0);
            var rest := whole[n..];
            var added := Added(log, ShownAll(whole[..n]), loss);
            var m := Got(rest, loss);
            && m <= |rest| && |added| == m
            && (added == ShownAll(rest[..m]) <==> (loss.Ends? ==> IntactCut(rest, Arrived(PrintedAll(rest), loss))))
  {
    hide Owed, PrintedAll, OneShot, StartAfter, ShownAll, Named, Scan, IntactCut, Seen, Complete, Tail;
    StillOwed(log, n);
    var whole := Owed(log, 0);
    var rest := whole[n..];
    OwedIsNamed(log, 0);
    assert forall i :: 0 <= i < |rest| ==> rest[i] == whole[n + i];
    var c := Arrived(PrintedAll(rest), loss);
    if loss.Ends? {
      SeenIff(rest, c);
    } else {
      CutStream(rest, c);
      ShownIsOneEach(rest[..Complete(rest, c)]);
    }
  }

  lemma {:induction false} AfterWhole(log: seq<Event>, n: nat, losses: seq<Loss>)
    requires Sendable(log) && n <= |Owed(log, 0)|
    ensures FinallyShown(log, ShownAll(Owed(log, 0)[..n]), losses) == ShownAll(Owed(log, 0)) <==> Harmless(log, n, losses)
    decreases |losses|
  {
    hide Added, Owed, PrintedAll, OneShot, StartAfter, ShownAll, Named, Sendable, Scan, IntactCut, Got, Arrived;
    var whole := Owed(log, 0);
    var shown := ShownAll(whole[..n]);
    if n == |whole| < |log| {
      assert whole[..n] == whole;
      ReopenedAtEnd(log, losses);
    } else if losses == [] {
      LastCompletes(log, n);
    } else {
      var rest := whole[n..];
      var (added, m) := (Added(log, shown, losses[0]), Got(rest, losses[0]));
      OneLoss(log, n, losses[0]);
      ShownAppend(whole[..n], rest[..m]);
      assert whole[..n] + rest[..m] == whole[..n + m];
      if added == ShownAll(rest[..m]) {
        AfterWhole(log, n + m, losses[1..]);
      } else {
        LossesAdd(log, shown + added, losses[1..]);
        Diverged(whole, n, m, added, FinallyShown(log, shown, losses));
      }
    }
  }

  lemma Diverged(whole: seq<Event>, n: nat, m: nat, added: seq<Entry>, finally: seq<Entry>)
    requires n + m <= |whole| && |added| == m && added != ShownAll(whole[n..][..m])
    requires ShownAll(whole[..n]) + added <= finally
    ensures finally != ShownAll(whole)
  {
    hide ShownAll;
    var k := n + m;
    ShownIsOneEach(whole[..n]);
    ShownIsOneEach(whole[..k]);
    ShownAppend(whole[..n], whole[n..][..m]);
    ShownAppend(whole[..k], whole[k..]);
    assert whole[..n] + whole[n..][..m] == whole[..k] && whole[..k] + whole[k..] == whole;
    assert finally[..k] == ShownAll(whole[..n]) + added;
    assert (ShownAll(whole[..n]) + added)[n..] == added;
    assert ShownAll(whole)[..k] == ShownAll(whole[..k]);
    assert (ShownAll(whole[..n]) + ShownAll(whole[n..][..m]))[n..] == ShownAll(whole[n..][..m]);
  }

  lemma LastCompletes(log: seq<Event>, n: nat)
    requires Sendable(log) && n <= |Owed(log, 0)| && !(n == |Owed(log, 0)| < |log|)
    ensures FinallyShown(log, ShownAll(Owed(log, 0)[..n]), []) == ShownAll(Owed(log, 0))
  {
    hide Owed, PrintedAll, OneShot, StartAfter, ShownAll, Named;
    var whole := Owed(log, 0);
    StillOwed(log, n);
    OwedIsNamed(log, 0);
    assert forall i :: 0 <= i < |whole[n..]| ==> whole[n..][i] == whole[n + i];
    ShownInFull(whole[n..]);
    ShownAppend(whole[..n], whole[n..]);
    assert whole == whole[..n] + whole[n..];
  }

  /** Over any number of lost connections, each lost anywhere: the page has been shown exactly what an uninterrupted
      stream shows if and only if no loss did harm. */
  lemma PageSeesLogIff(log: seq<Event>, losses: seq<Loss>)
    requires Sendable(log)
    ensures FinallyShown(log, [], losses) == ShownAll(Owed(log, 0)) <==> Harmless(log, 0, losses)
  {
    hide FinallyShown, Owed, Harmless, Sendable;
    AfterWhole(log, 0, losses);
    assert Owed(log, 0)[..0] == [];
    assert ShownAll([]) == [];
  }

  /** The page's own entry for a cancel or a delete has the identifier "-", so the next connection shows everything
      from the start once more, whatever was shown before. */
  lemma OwnEntryReplays(log: seq<Event>, shown: seq<Entry>, event: string, data: string)
    requires Sendable(log)
    ensures var page := shown + [Entry("-", event, data)];
            && StartAfter(page) == 0
            && FinallyShown(log, page, []) == page + ShownAll(Owed(log, 0))
  {
    hide Owed, PrintedAll, OneShot, ParseStartFrom;
    ReplaysFromStart();
    OwedIsNamed(log, 0);
    ShownInFull(Owed(log, 0));
  }
}
