// A connection that is lost anywhere: what consumeSSE reports of the first characters of a
// printed stream (portal/app/runs/page.tsx:404-460, in particular the parse of what is left
// at the end of the stream, 432-439).

module SseCut {
  import opened StreamEvents
  import opened Sse
  import Decimals
  import Text

  // ---------------------------------------------------------------------------
  // White space at the end
  // ---------------------------------------------------------------------------

  predicate AllSpace(s: string) { forall i :: 0 <= i < |s| ==> Text.JsSpace(s[i]) }

  function Left(s: string): string { Text.TrimLeft(s, Text.JsSpace) }

  lemma LeftIs(s: string)
    ensures Left(s) == if s == "" then "" else if Text.JsSpace(s[0]) then Left(s[1..]) else s
  {
    hide Text.JsSpace;
  }

  lemma {:induction false} LeftAppend(s: string, c: char)
    ensures Left(s + [c]) == if Left(s) == "" && Text.JsSpace(c) then "" else Left(s) + [c]
    decreases |s|
  {
    hide Text.JsSpace, Left;
    LeftIs(s);
    LeftIs(s + [c]);
    if s == "" {
      assert s + [c] == [c] && [c][1..] == "";
      LeftIs("");
      assert "" + [c] == [c];
    } else {
      assert (s + [c])[1..] == s[1..] + [c];
      if Text.JsSpace(s[0]) {
        LeftAppend(s[1..], c);
      }
    }
  }

  lemma {:induction false} LeftGrows(p: string, s: string)
    ensures |Left(p)| <= |Left(p + s)|
    decreases |s|
  {
    if s == "" {
      assert p + s == p;
    } else {
      assert p + s == (p + s[..|s| - 1]) + [s[|s| - 1]];
      LeftGrows(p, s[..|s| - 1]);
      LeftAppend(p + s[..|s| - 1], s[|s| - 1]);
    }
  }

  /** One more character: white space is trimmed again, anything else stays. */
  lemma TrimAppend(s: string, c: char)
    ensures Text.JsSpace(c) ==> JsTrim(s + [c]) == JsTrim(s)
    ensures !Text.JsSpace(c) ==> JsTrim(s + [c]) == Left(s) + [c]
  {
    LeftAppend(s, c);
    assert (Left(s) + [c])[..|Left(s)|] == Left(s);
  }

  lemma {:induction false} TrimOfPrefix(p: string, s: string)
    ensures JsTrim(p) == JsTrim(p + s) <==> AllSpace(s)
    ensures |JsTrim(p)| <= |Left(p)|
    ensures !AllSpace(s) ==> |JsTrim(p + s)| > |Left(p)|
    decreases |s|
  {
    hide JsTrim, Left, Text.JsSpace;
    TrimIsShorter(p);
    if s == "" {
      assert p + s == p;
    } else {
      var (front, c) := (s[..|s| - 1], s[|s| - 1]);
      assert p + s == (p + front) + [c];
      TrimOfPrefix(p, front);
      TrimAppend(p + front, c);
      LeftGrows(p, front);
      assert AllSpace(s) <==> AllSpace(front) && Text.JsSpace(c);
    }
  }

  lemma TrimIsShorter(s: string)
    ensures |JsTrim(s)| <= |Left(s)|
  {
  }

  // ---------------------------------------------------------------------------
  // Lines under appending
  // ---------------------------------------------------------------------------

  lemma SplitAfterLine(a: string, rest: string)
    requires OneLine(a)
    ensures Split(a + ['\n'] + rest) == [a] + Split(rest)
  {
    var s := a + ['\n'] + rest;
    assert s == a + (['\n'] + rest);
    LineEndOf(a, ['\n'] + rest);
    hide LineEnd;
    assert s[..|a|] == a && s[|a| + 1..] == rest;
  }

  lemma SplitOfLine(a: string)
    requires OneLine(a)
    ensures Split(a) == [a]
  {
    LineEndOf(a, "");
    assert a + "" == a;
    hide LineEnd;
    assert a[..|a|] == a;
  }

  lemma SplitIs(s: string)
    ensures var n := LineEnd(s); Split(s) == if n == |s| then [s] else [s[..n]] + Split(s[n + 1..])
  {
    hide LineEnd, OneLine, Lines;
  }

  /** A line break opens a line, any other character lengthens the last one. */
  lemma {:induction false} SplitAppend(s: string, c: char)
    ensures var ls := Split(s);
            Split(s + [c]) == if c == '\n' then ls + [""] else ls[..|ls| - 1] + [ls[|ls| - 1] + [c]]
    decreases |s|
  {
    hide LineEnd, Split;
    SplitIs(s);
    var n := LineEnd(s);
    if n == |s| {
      assert s[..n] == s;
      if c == '\n' {
        SplitAfterLine(s, "");
        SplitOfLine("");
        assert s + ['\n'] + "" == s + [c];
      } else {
        SplitOfLine(s + [c]);
        assert [s][..0] + [s + [c]] == [s + [c]];
      }
    } else {
      var (a, rest) := (s[..n], s[n + 1..]);
      SplitAppend(rest, c);
      assert s == a + ['\n'] + rest;
      assert s + [c] == a + ['\n'] + (rest + [c]);
      SplitAfterLine(a, rest + [c]);
      var ls := Split(rest);
      assert ([a] + ls)[..|ls|] == [a] + ls[..|ls| - 1];
    }
  }

  lemma TagAppend(tag: string, line: string, c: char)
    requires tag != "" && tag[|tag| - 1] != c
    ensures StartsWith(line + [c], tag) <==> StartsWith(line, tag)
  {
    if StartsWith(line + [c], tag) {
      assert tag[|tag| - 1] == (line + [c])[|tag| - 1];
      assert |tag| <= |line|;
      assert forall i :: 0 <= i < |tag| ==> (line + [c])[i] == line[i];
    }
  }

  lemma ReadAppendSpace(line: string, c: char, f: Fields)
    requires Text.JsSpace(c)
    ensures Read(line + [c], f) == Read(line, f)
  {
    TagAppend(IdTag(), line, c);
    TagAppend(EventTag(), line, c);
    TagAppend(DataTag(), line, c);
    ValueAppend(line, |IdTag()|, c);
    ValueAppend(line, |EventTag()|, c);
    ValueAppend(line, |DataTag()|, c);
    hide JsTrim, Text.JsSpace, StartsWith;
    assert StartsWith(line, IdTag()) ==> |IdTag()| <= |line| by { TagFits(IdTag(), line); }
    assert StartsWith(line, EventTag()) ==> |EventTag()| <= |line| by { TagFits(EventTag(), line); }
    assert StartsWith(line, DataTag()) ==> |DataTag()| <= |line| by { TagFits(DataTag(), line); }
  }

  lemma TagFits(tag: string, line: string)
    ensures StartsWith(line, tag) ==> |tag| <= |line|
  {
  }

  lemma ValueAppend(line: string, n: nat, c: char)
    requires Text.JsSpace(c)
    ensures n <= |line| ==> JsTrim((line + [c])[n..]) == JsTrim(line[n..])
  {
    if n <= |line| {
      assert (line + [c])[n..] == line[n..] + [c];
      TrimAppend(line[n..], c);
    }
  }

  lemma ParsedAppendSpace(s: string, c: char)
    requires Text.JsSpace(c)
    ensures Parsed(s + [c]) == Parsed(s)
  {
    SplitAppend(s, c);
    var ls := Split(s);
    hide Split, Text.JsSpace, JsTrim;
    if c == '\n' {
      assert (ls + [""])[..|ls|] == ls;
    } else {
      var (front, last) := (ls[..|ls| - 1], ls[|ls| - 1]);
      ReadAppendSpace(last, c, ReadAll(front, NO_FIELDS));
      hide Read;
      assert (front + [last + [c]])[..|front|] == front;
    }
  }

  lemma {:induction false} ParsedOfTrimmed(s: string)
    ensures Parsed(Text.TrimRight(s, Text.JsSpace)) == Parsed(s)
    decreases |s|
  {
    hide Parsed, Text.JsSpace;
    if s != "" && Text.JsSpace(s[|s| - 1]) {
      assert s == s[..|s| - 1] + [s[|s| - 1]];
      ParsedAppendSpace(s[..|s| - 1], s[|s| - 1]);
      ParsedOfTrimmed(s[..|s| - 1]);
    }
  }

  /** Trimming what is left does not change what it parses to. */
  lemma AtEndIsParsed(s: string)
    requires s != "" && !Text.JsSpace(s[0])
    ensures AtEnd(s) == Parsed(s)
  {
    hide Parsed, Text.JsSpace;
    ParsedOfTrimmed(s);
    assert Left(s) == s;
  }

  // ---------------------------------------------------------------------------
  // The text of an event, and what its first characters say
  // ---------------------------------------------------------------------------

  function IdLine(e: Event): string { Tagged(IdTag(), Decimals.Print(e.id)) }

  function EventLine(e: Event): string { Tagged(EventTag(), e.name.Wire()) }

  function DataText(ls: seq<string>): string { Join(DataLines(ls)) }

  /** The data lines of which `d` characters have arrived; a line counts once its tag is complete. */
  function DataReceived(ls: seq<string>, d: int): seq<string>
  {
    if ls == [] || d < 5 then []
    else if d <= 6 + |ls[0]| then [JsTrim(Tagged(DataTag(), ls[0])[5..d])]
    else [JsTrim(ls[0])] + DataReceived(ls[1..], d - |ls[0]| - 7)
  }

  function Min(a: int, b: int): int { if a < b then a else b }

  /** The entry, if any, that the first `k` characters of a printed event are reported as. */
  function Received(e: Event, k: nat): seq<Entry>
  {
    var (id, first, second) := (Decimals.Print(e.id), |IdLine(e)|, |IdLine(e)| + 1 + |EventLine(e)|);
    if k <= 4 then []
    else if k <= first then [Entry(id[..k - 4], "message", "")]
    else if k <= second then
      var q := k - first - 1;
      [Entry(id, if q < 6 then "message" else JsTrim(EventLine(e)[6..q]), "")]
    else
      var ls := Split(e.data);
      [Entry(id, JsTrim(e.name.Wire()), Join(DataReceived(ls, Min(k - second - 1, |DataText(ls)|))))]
  }

  lemma LinesJoined(e: Event)
    ensures Join(LinesOf(e)) == IdLine(e) + ['\n'] + (EventLine(e) + ['\n'] + DataText(Split(e.data)))
  {
    hide Tagged, Split, DataLines;
    var ds := DataLines(Split(e.data));
    assert ds != [];
    assert LinesOf(e)[1..] == [EventLine(e)] + ds;
    assert ([EventLine(e)] + ds)[1..] == ds;
  }

  lemma LineFacts(e: Event)
    requires Named(e)
    ensures OneLine(IdLine(e)) && OneLine(EventLine(e))
    ensures |IdLine(e)| == 4 + |Decimals.Print(e.id)| && |EventLine(e)| == 7 + |e.name.Wire()|
  {
    PrintIsTrimmed(e.id);
  }

  /** The first characters of an event lie in its id line, in its event line, or in its data. */
  lemma PrefixShape(e: Event, k: nat)
    requires k < |Printed(e)|
    ensures var (first, second) := (|IdLine(e)|, |IdLine(e)| + 1 + |EventLine(e)|);
            var (sent, data) := (Printed(e)[..k], DataText(Split(e.data)));
            if k <= first then sent == IdLine(e)[..k]
            else if k <= second then sent == IdLine(e) + ['\n'] + EventLine(e)[..k - first - 1]
            else
              var d := k - second - 1;
              sent == IdLine(e) + ['\n'] + (EventLine(e) + ['\n'] + if d <= |data| then data[..d] else data + ['\n'])
  {
    LinesJoined(e);
    hide IdLine, EventLine, DataText, Split, LinesOf, Join;
    var (a, b, data) := (IdLine(e), EventLine(e), DataText(Split(e.data)));
    var whole := a + ['\n'] + (b + ['\n'] + data) + BLANK;
    assert Printed(e) == whole;
    PrefixOfParts(a, b, data, k);
  }

  lemma PrefixOfParts(a: string, b: string, data: string, k: nat)
    requires k < |a| + |b| + |data| + 4
    ensures var sent := (a + ['\n'] + (b + ['\n'] + data) + BLANK)[..k];
            if k <= |a| then sent == a[..k]
            else if k <= |a| + 1 + |b| then sent == a + ['\n'] + b[..k - |a| - 1]
            else
              var d := k - |a| - |b| - 2;
              sent == a + ['\n'] + (b + ['\n'] + if d <= |data| then data[..d] else data + ['\n'])
  {
    var whole := a + ['\n'] + (b + ['\n'] + data) + BLANK;
    if k > |a| + 1 + |b| {
      var d := k - |a| - |b| - 2;
      var x := if d <= |data| then data[..d] else data + ['\n'];
      var sent := a + ['\n'] + (b + ['\n'] + x);
      assert |sent| == k;
      assert forall i :: 0 <= i < k ==> whole[i] == sent[i];
      assert whole[..k] == sent;
    }
  }

  /** Cut in the id line: nothing before the first character of the number, then the digits so far. */
  lemma CutInId(e: Event, k: nat)
    requires Named(e) && k <= |IdLine(e)|
    ensures Parsed(IdLine(e)[..k]) == Received(e, k)
  {
    hide JsTrim, Split, Decimals.Print;
    LineFacts(e);
    var sent := IdLine(e)[..k];
    SplitOfLine(sent);
    NothingRead(NO_FIELDS);
    ReadNext([sent], 0, NO_FIELDS);
    assert [sent][..0] == [] && [sent][..1] == [sent];
    IdSoFar(e, k);
  }

  lemma IdSoFar(e: Event, k: nat)
    requires k <= |IdLine(e)|
    ensures Read(IdLine(e)[..k], NO_FIELDS) == if k <= 4 then NO_FIELDS else Fields(Decimals.Print(e.id)[..k - 4], "message", [])
  {
    hide JsTrim, Decimals.Print;
    var sent := IdLine(e)[..k];
    if k < 3 {
      assert !StartsWith(sent, IdTag()) && !StartsWith(sent, EventTag()) && !StartsWith(sent, DataTag());
    } else {
      assert StartsWith(sent, IdTag());
      BlankTrims();
      if k == 3 {
        assert sent[3..] == "";
      } else {
        var part := Decimals.Print(e.id)[..k - 4];
        assert sent[3..] == [' '] + part;
        TrimSpaceFirst(part);
        DigitsTrim(e.id, k - 4);
      }
    }
  }

  lemma BlankTrims()
    ensures JsTrim("") == ""
  {
  }

  lemma DigitsTrim(v: int, n: nat)
    requires n <= |Decimals.Print(v)|
    ensures JsTrim(Decimals.Print(v)[..n]) == Decimals.Print(v)[..n]
  {
    hide Text.Trim;
    var part := Decimals.Print(v)[..n];
    assert Text.Trimmed(part, Text.JsSpace);
  }

  lemma TwoLines(l0: string, l1: string)
    requires OneLine(l0) && OneLine(l1)
    ensures Parsed(l0 + ['\n'] + l1) == Reported(Read(l1, Read(l0, NO_FIELDS)))
  {
    hide Split, ReadAll, Read, Reported;
    SplitAfterLine(l0, l1);
    SplitOfLine(l1);
    ReadTwo(l0, l1, NO_FIELDS);
    assert [l0] + [l1] == [l0, l1];
  }

  /** Cut in the event line: the id, and the name so far once its tag is complete. */
  lemma CutInEvent(e: Event, q: nat)
    requires Named(e) && q <= |EventLine(e)|
    ensures Parsed(IdLine(e) + ['\n'] + EventLine(e)[..q]) == Received(e, |IdLine(e)| + 1 + q)
  {
    hide JsTrim, Split, Read, Decimals.Print, Parsed, Tagged;
    LineFacts(e);
    TwoLines(IdLine(e), EventLine(e)[..q]);
    ReadId(Decimals.Print(e.id), NO_FIELDS);
    PrintIsTrimmed(e.id);
    NameSoFar(e, q, Fields(Decimals.Print(e.id), "message", []));
    assert Decimals.Print(e.id) != "";
  }

  lemma NameSoFar(e: Event, q: nat, f: Fields)
    requires q <= |EventLine(e)|
    ensures Read(EventLine(e)[..q], f) == if q < 6 then f else f.(event := JsTrim(EventLine(e)[6..q]))
  {
    hide JsTrim;
    var sent := EventLine(e)[..q];
    assert q > 0 ==> sent[0] == 'e';
    if q >= 6 {
      assert sent[6..] == EventLine(e)[6..q];
    }
  }

  lemma {:induction false} DataSoFar(ls: seq<string>, d: nat, f: Fields)
    requires Lines(ls) && d <= |DataText(ls)|
    ensures ReadAll(Split(DataText(ls)[..d]), f) == f.(data := f.data + DataReceived(ls, d))
    decreases |ls|
  {
    hide JsTrim, Split, Read, Tagged, LineEnd, DataText;
    var line := Tagged(DataTag(), ls[0]);
    DataTextIs(ls);
    TagIsLine(ls[0]);
    if d <= |line| {
      assert DataText(ls)[..d] == line[..d];
      SplitOfLine(line[..d]);
      OneDataLine(ls[0], d, f);
      ReadOne(line[..d], f);
      assert DataReceived(ls, d) == if d < 5 then [] else [JsTrim(line[5..d])];
    } else {
      var (rest, d') := (DataText(ls[1..]), d - |line| - 1);
      assert DataText(ls)[..d] == line + ['\n'] + rest[..d'];
      SplitAfterLine(line, rest[..d']);
      ReadAllAppend([line], Split(rest[..d']), f);
      ReadOne(line, f);
      ReadData(ls[0], f);
      hide ReadAll;
      DataSoFar(ls[1..], d', f.(data := f.data + [JsTrim(ls[0])]));
      assert f.data + [JsTrim(ls[0])] + DataReceived(ls[1..], d') == f.data + DataReceived(ls, d);
    }
  }

  lemma ReadOne(line: string, f: Fields)
    ensures ReadAll([line], f) == Read(line, f)
  {
    hide Read;
    assert [line][..0] == [];
  }

  lemma DataTextIs(ls: seq<string>)
    requires ls != []
    ensures DataText(ls) == if |ls| == 1 then Tagged(DataTag(), ls[0]) else Tagged(DataTag(), ls[0]) + ['\n'] + DataText(ls[1..])
  {
    hide Tagged;
    assert DataLines(ls)[1..] == DataLines(ls[1..]);
  }

  lemma TagIsLine(text: string)
    ensures OneLine(text) ==> OneLine(Tagged(DataTag(), text))
    ensures |Tagged(DataTag(), text)| == 6 + |text| && Tagged(DataTag(), text)[0] == 'd' && Tagged(DataTag(), text)[4] == ':'
  {
  }

  lemma OneDataLine(text: string, d: nat, f: Fields)
    requires d <= 6 + |text|
    ensures Read(Tagged(DataTag(), text)[..d], f) ==
            f.(data := f.data + if d < 5 then [] else [JsTrim(Tagged(DataTag(), text)[5..d])])
  {
    hide JsTrim;
    var sent := Tagged(DataTag(), text)[..d];
    assert d > 0 ==> sent[0] == 'd';
    if d >= 5 {
      assert sent[5..] == Tagged(DataTag(), text)[5..d];
    } else {
      assert f.data + [] == f.data;
    }
  }

  lemma TwoLinesAndMore(l0: string, l1: string, x: string)
    requires OneLine(l0) && OneLine(l1)
    ensures Parsed(l0 + ['\n'] + (l1 + ['\n'] + x)) == Reported(ReadAll(Split(x), Read(l1, Read(l0, NO_FIELDS))))
  {
    hide Split, ReadAll, Read, Reported;
    SplitAfterLine(l0, l1 + ['\n'] + x);
    SplitAfterLine(l1, x);
    ReadAllAppend([l0, l1], Split(x), NO_FIELDS);
    ReadTwo(l0, l1, NO_FIELDS);
    assert [l0] + ([l1] + Split(x)) == [l0, l1] + Split(x);
  }

  lemma DataAndBreak(ls: seq<string>, d: nat, f: Fields)
    requires Lines(ls) && d <= |DataText(ls)| + 1
    ensures var data := DataText(ls);
            ReadAll(Split(if d <= |data| then data[..d] else data + ['\n']), f) == f.(data := f.data + DataReceived(ls, Min(d, |data|)))
  {
    hide JsTrim, Split, Read, DataText, DataReceived, ReadAll;
    var data := DataText(ls);
    DataSoFar(ls, Min(d, |data|), f);
    if d > |data| {
      assert data[..|data|] == data;
      SplitAppend(data, '\n');
      LastLineIsBlank(Split(data), f);
    }
  }

  lemma CutInData(e: Event, d: nat)
    requires Named(e) && d <= |DataText(Split(e.data))| + 1
    ensures var data := DataText(Split(e.data));
            Parsed(IdLine(e) + ['\n'] + (EventLine(e) + ['\n'] + if d <= |data| then data[..d] else data + ['\n']))
            == Received(e, |IdLine(e)| + |EventLine(e)| + 2 + d)
  {
    hide JsTrim, Split, ReadAll, Read, Decimals.Print, DataText, DataReceived, Parsed, Tagged;
    LineFacts(e);
    var (ls, data) := (Split(e.data), DataText(Split(e.data)));
    var x := if d <= |data| then data[..d] else data + ['\n'];
    var f := Fields(Decimals.Print(e.id), JsTrim(e.name.Wire()), []);
    TwoLinesAndMore(IdLine(e), EventLine(e), x);
    ReadId(Decimals.Print(e.id), NO_FIELDS);
    ReadEvent(e.name.Wire(), Fields(Decimals.Print(e.id), "message", []));
    PrintIsTrimmed(e.id);
    DataAndBreak(ls, d, f);
    assert Decimals.Print(e.id) != "";
    assert [] + DataReceived(ls, Min(d, |data|)) == DataReceived(ls, Min(d, |data|));
  }

  lemma LastLineIsBlank(ls: seq<string>, f: Fields)
    ensures ReadAll(ls + [""], f) == ReadAll(ls, f)
  {
    hide JsTrim;
    assert (ls + [""])[..|ls|] == ls;
  }

  /** What is left when the connection is lost after `k` characters of an event is reported as Received. */
  lemma CutEvent(e: Event, k: nat)
    requires Named(e) && k < |Printed(e)|
    ensures AtEnd(Printed(e)[..k]) == Received(e, k)
    ensures Scan(Printed(e)[..k]) == Scanned([], Printed(e)[..k])
  {
    hide Received, Parsed, AtEnd, IdLine, EventLine, DataText, JsTrim, LinesOf, Join, Scan, Split;
    var sent := Printed(e)[..k];
    var (first, second) := (|IdLine(e)|, |IdLine(e)| + 1 + |EventLine(e)|);
    PrefixShape(e, k);
    NoBlankSent(e, k);
    ScanStop(sent);
    if k == 0 {
      NothingLeft(e);
    } else {
      StartsVisibly(e, k);
      AtEndIsParsed(sent);
      if k <= first {
        CutInId(e, k);
      } else if k <= second {
        CutInEvent(e, k - first - 1);
      } else {
        PrintedLength(e);
        CutInData(e, k - second - 1);
      }
    }
  }

  lemma PrintedLength(e: Event)
    ensures |Printed(e)| == |IdLine(e)| + |EventLine(e)| + |DataText(Split(e.data))| + 4
  {
    LinesJoined(e);
    hide IdLine, EventLine, DataText, Split, LinesOf, Join;
  }

  lemma NothingLeft(e: Event)
    ensures AtEnd("") == [] == Received(e, 0)
  {
  }

  lemma StartsVisibly(e: Event, k: nat)
    requires 0 < k < |Printed(e)|
    ensures Printed(e)[..k][0] == 'i'
  {
    LinesJoined(e);
    hide EventLine, DataText, Split, LinesOf, Join, Decimals.Print;
  }

  lemma NoBlankSent(e: Event, k: nat)
    requires Named(e) && k < |Printed(e)|
    ensures FirstBlank(Printed(e)[..k]).None?
  {
    hide LinesOf, Join, FirstBlank;
    LinesOfAreLines(e);
    NoBlankInside(LinesOf(e));
    var (s, sent) := (Join(LinesOf(e)), Printed(e)[..k]);
    forall j | 0 <= j < |sent| - 1 ensures !BlankAt(sent, j) {
      if j < |s| - 1 {
        assert !BlankAt(s, j);
      } else {
        assert sent[j] == s[|s| - 1];
      }
    }
    NoBlankAtAll(sent);
  }

  // ---------------------------------------------------------------------------
  // A cut of the whole stream
  // ---------------------------------------------------------------------------

  /** How many events are complete in the first `c` characters, and how far the next one has come. */
  function Complete(events: seq<Event>, c: nat): (m: nat)
    ensures m <= |events|
  {
    if events == [] || c < |Printed(events[0])| then 0 else 1 + Complete(events[1..], c - |Printed(events[0])|)
  }

  function Offset(events: seq<Event>, c: nat): nat
  {
    if events == [] || c < |Printed(events[0])| then c else Offset(events[1..], c - |Printed(events[0])|)
  }

  lemma {:induction false} OffsetIsInside(events: seq<Event>, c: nat)
    ensures var m := Complete(events, c); m < |events| ==> Offset(events, c) < |Printed(events[m])|
    decreases |events|
  {
    hide Printed;
    if events != [] && c >= |Printed(events[0])| {
      OffsetIsInside(events[1..], c - |Printed(events[0])|);
    }
  }

  /** How many entries have been shown: one more once a character of the next number has come. */
  function Seen(events: seq<Event>, c: nat): (n: nat)
    ensures n <= |events|
  {
    var m := Complete(events, c);
    if m < |events| && Offset(events, c) > 4 then m + 1 else m
  }

  /** The entries of what has arrived of the event that is cut, if one is. */
  function Tail(events: seq<Event>, c: nat): seq<Entry>
  {
    var m := Complete(events, c);
    if m < |events| then Received(events[m], Offset(events, c)) else []
  }

  /** For every offset: of the first `c` characters of a stream the complete events are reported at once, and what
      has arrived of the next one when the stream ends there. */
  lemma {:induction false} CutStream(events: seq<Event>, c: nat)
    requires (forall i :: 0 <= i < |events| ==> Named(events[i])) && c <= |PrintedAll(events)|
    ensures OneShot(PrintedAll(events)[..c]) == ShownAll(events[..Complete(events, c)]) + Tail(events, c)
    ensures Scan(PrintedAll(events)[..c]).entries == ShownAll(events[..Complete(events, c)])
    decreases |events|
  {
    hide Received, Scan, AtEnd, Printed, Shown, Named;
    if events == [] {
      assert PrintedAll(events)[..c] == "";
      EmptyStream();
      assert ShownAll([]) + [] == [];
    } else {
      var (e, later, n) := (events[0], PrintedAll(events[1..]), |Printed(events[0])|);
      if c < n {
        assert PrintedAll(events)[..c] == Printed(e)[..c];
        CutEvent(e, c);
        assert ShownAll(events[..0]) == [];
      } else {
        assert PrintedAll(events)[..c] == Printed(e) + later[..c - n];
        CutStream(events[1..], c - n);
        OneEventFirst(e, later[..c - n]);
        var m := Complete(events[1..], c - n);
        assert ShownAll(events[..m + 1]) == [Shown(e)] + ShownAll(events[1..][..m]);
        assert events[1..][..m] == events[1..m + 1];
      }
    }
  }

  lemma EmptyStream()
    ensures OneShot("") == [] && Scan("").entries == []
  {
    EmptyHasNoBlank();
    ScanStop("");
    hide Scan;
    assert AtEnd("") == [];
  }

  lemma OneEventFirst(e: Event, rest: string)
    requires Named(e)
    ensures OneShot(Printed(e) + rest) == [Shown(e)] + OneShot(rest)
    ensures Scan(Printed(e) + rest).entries == [Shown(e)] + Scan(rest).entries
  {
    hide Scan, Parsed, Shown, LinesOf, Join, AtEnd, FirstBlank;
    var s := Printed(e) + rest;
    PrintedEndsAtBlank(e, rest);
    var n := |Join(LinesOf(e))|;
    ScanStep(s, n);
    assert s[..n] == Join(LinesOf(e)) && s[n + 2..] == rest;
    ParsedOfPrinted(e);
    assert [Shown(e)] + (Scan(rest).entries + AtEnd(Scan(rest).rest)) == ([Shown(e)] + Scan(rest).entries) + AtEnd(Scan(rest).rest);
  }

  // ---------------------------------------------------------------------------
  // Which cuts do no harm
  // ---------------------------------------------------------------------------

  /** The data of the event is one blank line. */
  predicate BlankData(e: Event) { OneLine(e.data) && AllSpace(e.data) }

  /** The name is complete but for white space; before its tag is complete the default name stands in for it. */
  predicate NameIntact(e: Event, q: int)
    requires q <= |EventLine(e)|
  {
    if q < 6 then JsTrim(e.name.Wire()) == "message" else AllSpace(EventLine(e)[q..])
  }

  /** Losing the connection after `k` characters of the event does no harm: no character of the number has come,
      or all of the number has, and nothing that is shown of name and data is missing. */
  predicate Intact(e: Event, k: nat)
  {
    var (first, second) := (|IdLine(e)|, |IdLine(e)| + 1 + |EventLine(e)|);
    || k <= 4
    || (first <= k <= second && BlankData(e) && NameIntact(e, k - first - 1))
    || (second < k && (BlankData(e) || AllSpace(DataText(Split(e.data))[Min(k - second - 1, |DataText(Split(e.data))|)..])))
  }

  predicate IntactCut(events: seq<Event>, c: nat)
  {
    var m := Complete(events, c);
    m == |events| || Intact(events[m], Offset(events, c))
  }

  lemma SpaceIff(s: string)
    ensures JsTrim(s) == "" <==> AllSpace(s)
  {
    TrimOfPrefix("", s);
    BlankTrims();
    hide JsTrim;
    assert "" + s == s;
  }

  lemma BlankIff(e: Event)
    ensures Join(TrimAll(Split(e.data))) == "" <==> BlankData(e)
    ensures BlankData(e) ==> Split(e.data) == [e.data]
  {
    hide JsTrim, LineEnd, Text.JsSpace;
    var ls := Split(e.data);
    JoinOfSplit(e.data);
    SpaceIff(e.data);
    if |ls| == 1 {
      assert ls == [e.data] && OneLine(ls[0]);
    } else {
      hide Split;
      assert e.data[|ls[0]|] == '\n';
      assert TrimAll(ls)[0] + ['\n'] + Join(TrimAll(ls)[1..]) != "";
      if OneLine(e.data) {
        SplitOfLine(e.data);
      }
    }
  }

  lemma NameIff(e: Event, q: nat)
    requires 6 <= q <= |EventLine(e)|
    ensures JsTrim(EventLine(e)[6..q]) == JsTrim(e.name.Wire()) <==> AllSpace(EventLine(e)[q..])
  {
    hide JsTrim;
    var line := EventLine(e);
    assert line[6..] == [' '] + e.name.Wire() == line[6..q] + line[q..];
    TrimSpaceFirst(e.name.Wire());
    TrimOfPrefix(line[6..q], line[q..]);
  }

  lemma NotAllSpace(s: string, i: nat)
    requires i < |s| && !Text.JsSpace(s[i])
    ensures !AllSpace(s)
  {
  }

  /** All data lines have come but for white space exactly if the missing text is white space. */
  lemma {:induction false} DataIff(ls: seq<string>, d: nat)
    requires Lines(ls) && d <= |DataText(ls)|
    ensures DataReceived(ls, d) == TrimAll(ls) <==> AllSpace(DataText(ls)[d..])
    decreases |ls|
  {
    hide JsTrim, Tagged, DataText, AllSpace, Text.JsSpace;
    var (line, text) := (Tagged(DataTag(), ls[0]), DataText(ls));
    DataTextIs(ls);
    TagIsLine(ls[0]);
    LettersShow();
    if |ls| == 1 {
      if d < 5 {
        assert text[d..][4 - d] == ':';
        NotAllSpace(text[d..], 4 - d);
      } else {
        DataLineIff(ls[0], d);
        assert DataReceived(ls, d) == [JsTrim(line[5..d])] && TrimAll(ls) == [JsTrim(ls[0])];
      }
    } else {
      DataTextStarts(ls[1..]);
      var rest := DataText(ls[1..]);
      if d <= |line| {
        assert |DataReceived(ls, d)| <= 1 < |TrimAll(ls)|;
        assert text[d..][|line| + 1 - d] == rest[0] == 'd';
        NotAllSpace(text[d..], |line| + 1 - d);
      } else {
        var d' := d - |line| - 1;
        DataIff(ls[1..], d');
        assert text[d..] == rest[d'..];
        assert TrimAll(ls) == [JsTrim(ls[0])] + TrimAll(ls[1..]);
        assert DataReceived(ls, d) == [JsTrim(ls[0])] + DataReceived(ls[1..], d');
        assert ([JsTrim(ls[0])] + DataReceived(ls[1..], d'))[1..] == DataReceived(ls[1..], d');
        assert ([JsTrim(ls[0])] + TrimAll(ls[1..]))[1..] == TrimAll(ls[1..]);
      }
    }
  }

  lemma LettersShow()
    ensures !Text.JsSpace('d') && !Text.JsSpace(':')
  {
  }

  lemma DataTextStarts(ls: seq<string>)
    requires ls != []
    ensures DataText(ls) != "" && DataText(ls)[0] == 'd'
  {
    DataTextIs(ls);
    TagIsLine(ls[0]);
    hide Tagged, DataText;
  }

  lemma DataLineIff(text: string, d: nat)
    requires 5 <= d <= 6 + |text|
    ensures var line := Tagged(DataTag(), text);
            JsTrim(line[5..d]) == JsTrim(text) <==> AllSpace(line[d..])
  {
    hide JsTrim;
    var line := Tagged(DataTag(), text);
    assert line[5..] == [' '] + text == line[5..d] + line[d..];
    TrimSpaceFirst(text);
    TrimOfPrefix(line[5..d], line[d..]);
  }

  lemma {:induction false} ReceivedAreLines(ls: seq<string>, d: int)
    requires forall i :: 0 <= i < |ls| ==> OneLine(ls[i])
    ensures forall i :: 0 <= i < |DataReceived(ls, d)| ==> OneLine(DataReceived(ls, d)[i])
    decreases |ls|
  {
    if ls != [] && d >= 5 {
      if d <= 6 + |ls[0]| {
        TagIsLine(ls[0]);
        var part := Tagged(DataTag(), ls[0])[5..d];
        assert forall c :: c in part ==> c in Tagged(DataTag(), ls[0]);
        hide Text.TrimLeft, Text.TrimRight;
        assert OneLine(JsTrim(part));
      } else {
        ReceivedAreLines(ls[1..], d - |ls[0]| - 7);
        hide Text.TrimLeft, Text.TrimRight;
        assert OneLine(JsTrim(ls[0]));
      }
    }
  }

  /** The data is shown as sent exactly if it is blank or nothing but white space is missing. */
  lemma DataShownIff(e: Event, d: nat)
    requires d <= |DataText(Split(e.data))|
    ensures Join(DataReceived(Split(e.data), d)) == Join(TrimAll(Split(e.data)))
            <==> BlankData(e) || AllSpace(DataText(Split(e.data))[d..])
  {
    var ls := Split(e.data);
    BlankIff(e);
    DataIff(ls, d);
    ReceivedAreLines(ls, d);
    TrimmedLinesAreLines(ls);
    SplitOfJoin(TrimAll(ls));
    var got := DataReceived(ls, d);
    if BlankData(e) {
      BlankReceived(e, d);
    } else if got != [] {
      hide Split, JsTrim, DataReceived, AllSpace;
      SplitOfJoin(got);
    }
  }

  lemma BlankReceived(e: Event, d: nat)
    requires BlankData(e)
    ensures Join(DataReceived(Split(e.data), d)) == ""
  {
    BlankIff(e);
    if d >= 5 {
      var line := Tagged(DataTag(), e.data);
      if d <= 6 + |e.data| {
        assert AllSpace(line[5..d]) by {
          assert forall i :: 0 <= i < d - 5 ==> Text.JsSpace(line[5..d][i]);
        }
        SpaceIff(line[5..d]);
      } else {
        SpaceIff(e.data);
        assert [e.data][1..] == [];
      }
    }
  }

  /** A number that is cut short is another number. */
  lemma CutNumber(e: Event, k: nat)
    requires 4 < k <= |IdLine(e)|
    ensures |IdLine(e)| == 4 + |Decimals.Print(e.id)|
    ensures Decimals.Print(e.id)[..k - 4] == Decimals.Print(e.id) <==> k == |IdLine(e)|
  {
    hide Decimals.Print;
    assert Decimals.Print(e.id)[..|Decimals.Print(e.id)|] == Decimals.Print(e.id);
    assert |Decimals.Print(e.id)[..k - 4]| == k - 4;
  }

  /** What has come of the event is reported as nothing or as the whole event exactly if the cut is intact. */
  lemma IntactIff(e: Event, k: nat)
    requires Named(e) && k < |Printed(e)|
    ensures Received(e, k) == [] || Received(e, k) == [Shown(e)] <==> Intact(e, k)
    ensures Received(e, k) == [] <==> k <= 4
  {
    hide JsTrim, Split, Decimals.Print, DataText, DataReceived, AllSpace, Tagged, BlankData, IdLine, EventLine;
    var (first, second) := (|IdLine(e)|, |IdLine(e)| + 1 + |EventLine(e)|);
    LineFacts(e);
    BlankIff(e);
    BlankTrims();
    if k <= 4 {
    } else if k <= first {
      CutNumber(e, k);
    } else if k <= second {
      var q := k - first - 1;
      if q >= 6 {
        NameIff(e, q);
      }
    } else {
      PrintedLength(e);
      DataShownIff(e, Min(k - second - 1, |DataText(Split(e.data))|));
    }
  }

  /** The entries shown up to the cut are those of whole events exactly if the cut is intact. */
  lemma SeenIff(events: seq<Event>, c: nat)
    requires (forall i :: 0 <= i < |events| ==> Named(events[i])) && c <= |PrintedAll(events)|
    ensures var shown := OneShot(PrintedAll(events)[..c]);
            && |shown| == Seen(events, c)
            && (shown == ShownAll(events[..Seen(events, c)]) <==> IntactCut(events, c))
  {
    hide Received, OneShot, Scan, Printed, Named, Shown, Intact, PrintedAll, AtEnd;
    CutStream(events, c);
    OffsetIsInside(events, c);
    var (m, k) := (Complete(events, c), Offset(events, c));
    if m < |events| {
      var before := ShownAll(events[..m]);
      IntactIff(events[m], k);
      ReceivedIsOne(events[m], k);
      assert ShownAll(events[..m + 1]) == before + [Shown(events[m])];
      if k > 4 {
        var shown := before + Received(events[m], k);
        assert shown[m] == Received(events[m], k)[0];
      }
    }
  }

  lemma ReceivedIsOne(e: Event, k: nat)
    requires k < |Printed(e)|
    ensures |Received(e, k)| == if k <= 4 then 0 else 1
  {
    hide JsTrim, Split, DataText, DataReceived, Decimals.Print;
  }
}
