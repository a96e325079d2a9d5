// The event-stream text (sections 9.2.5 and 9.2.6 of the WHATWG HTML standard): the server's
// printer (writeSSEEvent, services/api-server/internal/server/server.go:3975-3984) and the
// portal's incremental parser (consumeSSE and parseEvent, portal/app/runs/page.tsx:404-460).

module Sse {
  import opened Basics
  import opened StreamEvents
  import Decimals
  import Text

  datatype Entry = Entry(id: string, event: string, data: string)

  // ---------------------------------------------------------------------------
  // Lines
  // ---------------------------------------------------------------------------

  predicate OneLine(s: string) { '\n' !in s }

  predicate Lines(ls: seq<string>) { ls != [] && forall i :: 0 <= i < |ls| ==> OneLine(ls[i]) }

  function Join(ls: seq<string>): string
  {
    if ls == [] then "" else if |ls| == 1 then ls[0] else ls[0] + ['\n'] + Join(ls[1..])
  }

  function LineEnd(s: string): (n: nat)
    ensures n <= |s| && OneLine(s[..n]) && (n < |s| ==> s[n] == '\n')
  {
    if s == "" || s[0] == '\n' then 0 else 1 + LineEnd(s[1..])
  }

  function Split(s: string): (ls: seq<string>)
    ensures Lines(ls)
    decreases |s|
  {
    var n := LineEnd(s);
    if n == |s| then [s] else [s[..n]] + Split(s[n + 1..])
  }

  lemma {:induction false} JoinOfSplit(s: string)
    ensures Join(Split(s)) == s
    decreases |s|
  {
    hide LineEnd;
    var n := LineEnd(s);
    if n < |s| {
      JoinOfSplit(s[n + 1..]);
      var ls := Split(s);
      assert ls[1..] == Split(s[n + 1..]);
      assert s == s[..n] + ['\n'] + s[n + 1..];
    }
  }

  lemma {:induction false} LineEndOf(line: string, rest: string)
    requires OneLine(line) && (rest == "" || rest[0] == '\n')
    ensures LineEnd(line + rest) == |line|
    decreases |line|
  {
    if line == "" {
      assert line + rest == rest;
    } else {
      assert (line + rest)[1..] == line[1..] + rest;
      LineEndOf(line[1..], rest);
    }
  }

  lemma {:induction false} SplitOfJoin(ls: seq<string>)
    requires Lines(ls)
    ensures Split(Join(ls)) == ls
    decreases |ls|
  {
    hide LineEnd;
    if |ls| == 1 {
      LineEndOf(ls[0], "");
      assert ls[0] + "" == ls[0];
      assert ls == [ls[0]];
    } else {
      var rest := ['\n'] + Join(ls[1..]);
      LineEndOf(ls[0], rest);
      assert Join(ls) == ls[0] + rest;
      assert Join(ls)[|ls[0]| + 1..] == Join(ls[1..]);
      SplitOfJoin(ls[1..]);
      assert ls == [ls[0]] + ls[1..];
    }
  }

  // ---------------------------------------------------------------------------
  // The printer
  // ---------------------------------------------------------------------------

  function IdTag(): string { "id:" }
  function EventTag(): string { "event:" }
  function DataTag(): string { "data:" }

  /** "tag: text" */
  function Tagged(tag: string, text: string): string { tag + [' '] + text }

  function DataLines(ls: seq<string>): (r: seq<string>)
    ensures |r| == |ls|
  {
    seq(|ls|, i requires 0 <= i < |ls| => Tagged(DataTag(), ls[i]))
  }

  function LinesOf(e: Event): seq<string>
  {
    [Tagged(IdTag(), Decimals.Print(e.id)), Tagged(EventTag(), e.name.Wire())] + DataLines(Split(e.data))
  }

  const BLANK: string := ['\n', '\n']

  /** One event: its lines, and an empty line. */
  function Printed(e: Event): string { Join(LinesOf(e)) + BLANK }

  function PrintedAll(events: seq<Event>): string
  {
    if events == [] then "" else Printed(events[0]) + PrintedAll(events[1..])
  }

  /** writeSSEEvent */
  method WriteSSEEvent(e: Event) returns (text: string)
    ensures text == Printed(e)
  {
    text := Tagged(IdTag(), Decimals.Print(e.id)) + ['\n'];
    text := text + Tagged(EventTag(), e.name.Wire()) + ['\n'];
    var lines := Split(e.data);
    var done := [Tagged(IdTag(), Decimals.Print(e.id)), Tagged(EventTag(), e.name.Wire())];
    assert text == Terminated(done) by {
      TerminatedAppend([], done[0]);
      TerminatedAppend([done[0]], done[1]);
      assert [] + [done[0]] == [done[0]] && [done[0]] + [done[1]] == done;
    }
    hide Terminated, Tagged;
    for i := 0 to |lines|
      invariant done == LinesOf(e)[..i + 2] && text == Terminated(done)
    {
      TerminatedAppend(done, LinesOf(e)[i + 2]);
      text := text + Tagged(DataTag(), lines[i]) + ['\n'];
      done := done + [LinesOf(e)[i + 2]];
    }
    assert done == LinesOf(e);
    TerminatedIsJoin(done);
    text := text + ['\n'];
    assert text == Join(done) + (['\n'] + ['\n']);
  }

  ghost function Terminated(ls: seq<string>): string
  {
    if ls == [] then "" else ls[0] + ['\n'] + Terminated(ls[1..])
  }

  lemma {:induction false} TerminatedAppend(ls: seq<string>, line: string)
    ensures Terminated(ls + [line]) == Terminated(ls) + line + ['\n']
    decreases |ls|
  {
    if ls == [] {
      assert ([] + [line])[1..] == [];
    } else {
      assert (ls + [line])[1..] == ls[1..] + [line];
      TerminatedAppend(ls[1..], line);
    }
  }

  lemma {:induction false} TerminatedIsJoin(ls: seq<string>)
    requires ls != []
    ensures Terminated(ls) == Join(ls) + ['\n']
    decreases |ls|
  {
    if |ls| == 1 {
      assert ls[1..] == [];
    } else {
      TerminatedIsJoin(ls[1..]);
    }
  }

  // ---------------------------------------------------------------------------
  // The parser
  // ---------------------------------------------------------------------------

  datatype Fields = Fields(id: string, event: string, data: seq<string>)

  predicate StartsWith(s: string, tag: string) { tag <= s }

  function JsTrim(s: string): string { Text.Trim(s, Text.JsSpace) }

  function Read(line: string, f: Fields): Fields
  {
    if StartsWith(line, IdTag()) then f.(id := JsTrim(line[|IdTag()|..]))
    else if StartsWith(line, EventTag()) then f.(event := JsTrim(line[|EventTag()|..]))
    else if StartsWith(line, DataTag()) then f.(data := f.data + [JsTrim(line[|DataTag()|..])])
    else f
  }

  function ReadAll(ls: seq<string>, f: Fields): Fields
  {
    if ls == [] then f else Read(ls[|ls| - 1], ReadAll(ls[..|ls| - 1], f))
  }

  lemma NothingRead(f: Fields)
    ensures ReadAll([], f) == f
  {
  }

  lemma ReadNext(ls: seq<string>, i: nat, f: Fields)
    requires i < |ls|
    ensures ReadAll(ls[..i + 1], f) == Read(ls[i], ReadAll(ls[..i], f))
  {
    hide Read;
    assert ls[..i + 1][..i] == ls[..i];
  }

  const NO_FIELDS := Fields("", "message", [])

  function Reported(f: Fields): seq<Entry>
  {
    if f.id == "" && f.data == [] then [] else [Entry(if f.id == "" then "-" else f.id, f.event, Join(f.data))]
  }

  /** The entries of one block of lines: one or none. */
  function Parsed(chunk: string): seq<Entry> { Reported(ReadAll(Split(chunk), NO_FIELDS)) }

  /** parseEvent */
  method ParseEvent(chunk: string) returns (entry: seq<Entry>)
    ensures entry == Parsed(chunk)
  {
    hide ReadAll, JsTrim, IdTag, EventTag, DataTag, Join;
    var lines := Split(chunk);
    hide Split;
    var id, event, data := "", "message", [];
    NothingRead(NO_FIELDS);
    assert lines[..0] == [];
    for i := 0 to |lines|
      invariant Fields(id, event, data) == ReadAll(lines[..i], NO_FIELDS)
    {
      var line := lines[i];
      ReadNext(lines, i, NO_FIELDS);
      if StartsWith(line, IdTag()) {
        id := JsTrim(line[|IdTag()|..]);
      } else if StartsWith(line, EventTag()) {
        event := JsTrim(line[|EventTag()|..]);
      } else if StartsWith(line, DataTag()) {
        data := data + [JsTrim(line[|DataTag()|..])];
      }
    }
    assert lines[..|lines|] == lines;
    if id == "" && data == [] {
      return [];
    }
    return [Entry(if id == "" then "-" else id, event, Join(data))];
  }

  predicate BlankAt(s: string, i: int)
    requires 0 <= i < |s| - 1
  {
    s[i] == '\n' && s[i + 1] == '\n'
  }

  /** buffer.indexOf("\n\n") */
  function FirstBlank(s: string): (r: Option<nat>)
    ensures r.Some? ==> r.value + 2 <= |s| && BlankAt(s, r.value)
    ensures forall j :: 0 <= j < |s| - 1 && (r.Some? ==> j < r.value) ==> !BlankAt(s, j)
  {
    if |s| < 2 then None
    else if BlankAt(s, 0) then Some(0)
    else
      var later := FirstBlank(s[1..]);
      assert forall j :: 1 <= j < |s| - 1 ==> BlankAt(s, j) == BlankAt(s[1..], j - 1);
      if later.None? then None else Some(later.value + 1)
  }

  datatype Scanned = Scanned(entries: seq<Entry>, rest: string)

  /** Every complete block of a buffer, and what is left of it. */
  function Scan(s: string): Scanned
    decreases |s|
  {
    var b := FirstBlank(s);
    if b.None? then Scanned([], s)
    else
      var later := Scan(s[b.value + 2..]);
      Scanned(Parsed(s[..b.value]) + later.entries, later.rest)
  }

  function AtEnd(rest: string): seq<Entry>
  {
    var tail := JsTrim(rest);
    if tail == "" then [] else Parsed(tail)
  }

  /** The whole text parsed at once. */
  function OneShot(s: string): seq<Entry> { Scan(s).entries + AtEnd(Scan(s).rest) }

  function Concat(chunks: seq<string>): string
  {
    if chunks == [] then "" else Concat(chunks[..|chunks| - 1]) + chunks[|chunks| - 1]
  }

  lemma FirstBlankIs(s: string, i: nat)
    requires i + 2 <= |s| && BlankAt(s, i) && forall j :: 0 <= j < i ==> !BlankAt(s, j)
    ensures FirstBlank(s) == Some(i)
  {
    var r := FirstBlank(s);
    assert r.Some?;
    assert r.value <= i && i <= r.value;
  }

  lemma ScanStep(s: string, i: nat)
    requires FirstBlank(s) == Some(i)
    ensures i + 2 <= |s|
    ensures var later := Scan(s[i + 2..]); Scan(s) == Scanned(Parsed(s[..i]) + later.entries, later.rest)
  {
    hide FirstBlank, Parsed;
  }

  lemma ScanStop(s: string)
    requires FirstBlank(s) == None
    ensures Scan(s) == Scanned([], s)
  {
    hide FirstBlank, Parsed;
  }

  /** Scanning can be interrupted anywhere and taken up again with what was left. */
  lemma {:induction false} ScanAppend(a: string, b: string)
    ensures var (first, both) := (Scan(a), Scan(a + b));
            var later := Scan(first.rest + b);
            both == Scanned(first.entries + later.entries, later.rest)
    decreases |a|
  {
    hide FirstBlank, Scan, Parsed;
    var at := FirstBlank(a);
    if at.Some? {
      var i := at.value;
      forall j | 0 <= j < i ensures !BlankAt(a + b, j) {
        assert !BlankAt(a, j);
      }
      FirstBlankIs(a + b, i);
      ScanStep(a, i);
      ScanStep(a + b, i);
      assert (a + b)[i + 2..] == a[i + 2..] + b;
      assert (a + b)[..i] == a[..i];
      ScanAppend(a[i + 2..], b);
      var (p, e1, e2) := (Parsed(a[..i]), Scan(a[i + 2..]).entries, Scan(Scan(a).rest + b).entries);
      assert p + (e1 + e2) == (p + e1) + e2;
    } else {
      ScanStop(a);
      assert [] + Scan(a + b).entries == Scan(a + b).entries;
    }
  }

  /** The inner loop of consumeSSE: reports and cuts off every complete block. */
  method TakeBlocks(text: string) returns (entries: seq<Entry>, buffer: string)
    ensures Scanned(entries, buffer) == Scan(text)
  {
    hide Scan, Parsed, FirstBlank, BlankAt;
    entries, buffer := [], text;
    assert [] + Scan(text).entries == Scan(text).entries;
    while true
      invariant Scanned(entries + Scan(buffer).entries, Scan(buffer).rest) == Scan(text)
      decreases |buffer|
    {
      var boundary := FirstBlank(buffer);
      if boundary.None? {
        ScanStop(buffer);
        assert entries + [] == entries;
        break;
      }
      ScanStep(buffer, boundary.value);
      var chunk := buffer[..boundary.value];
      buffer := buffer[boundary.value + 2..];
      var entry := ParseEvent(chunk);
      assert entries + (entry + Scan(buffer).entries) == (entries + entry) + Scan(buffer).entries;
      entries := entries + entry;
    }
  }

  /** consumeSSE: however the text arrives in chunks, the entries reported are those of the whole text. */
  method ConsumeSSE(chunks: seq<string>) returns (entries: seq<Entry>)
    ensures entries == OneShot(Concat(chunks))
  {
    entries := [];
    var buffer := "";
    ScanStop("");
    hide Scan, Parsed, FirstBlank, JsTrim;
    for i := 0 to |chunks|
      invariant Scan(Concat(chunks[..i])) == Scanned(entries, buffer)
    {
      assert chunks[..i + 1][..i] == chunks[..i];
      ScanAppend(Concat(chunks[..i]), chunks[i]);
      buffer := buffer + chunks[i];
      var more, rest := TakeBlocks(buffer);
      entries, buffer := entries + more, rest;
    }
    assert chunks[..|chunks|] == chunks;
    var tail := JsTrim(buffer);
    var last := [];
    if tail != "" {
      last := ParseEvent(tail);
    }
    entries := entries + last;
  }

  // ---------------------------------------------------------------------------
  // Round trip
  // ---------------------------------------------------------------------------

  function TrimAll(ls: seq<string>): (r: seq<string>)
    ensures |r| == |ls| && forall i :: 0 <= i < |ls| ==> r[i] == JsTrim(ls[i])
  {
    seq(|ls|, i requires 0 <= i < |ls| => JsTrim(ls[i]))
  }

  /** What the portal reports of an event: name and data lines trimmed. */
  function Shown(e: Event): Entry
  {
    Entry(Decimals.Print(e.id), JsTrim(e.name.Wire()), Join(TrimAll(Split(e.data))))
  }

  function ShownAll(events: seq<Event>): seq<Entry> { seq(|events|, i requires 0 <= i < |events| => Shown(events[i])) }

  predicate Named(e: Event) { OneLine(e.name.Wire()) }

  predicate Clean(e: Event)
  {
    && Text.Trimmed(e.name.Wire(), Text.JsSpace)
    && forall i :: 0 <= i < |Split(e.data)| ==> Text.Trimmed(Split(e.data)[i], Text.JsSpace)
  }

  lemma {:induction false} TrimSpaceFirst(text: string)
    ensures JsTrim([' '] + text) == JsTrim(text)
  {
    assert ([' '] + text)[1..] == text;
  }

  lemma PrintIsTrimmed(v: int)
    ensures JsTrim(Decimals.Print(v)) == Decimals.Print(v) && OneLine(Decimals.Print(v))
  {
    hide Text.Trim;
    var s := Decimals.Print(v);
    assert Text.Trimmed(s, Text.JsSpace);
  }

  lemma ReadId(text: string, f: Fields)
    ensures Read(Tagged(IdTag(), text), f) == f.(id := JsTrim(text))
  {
    hide JsTrim;
    TrimSpaceFirst(text);
    assert Tagged(IdTag(), text)[|IdTag()|..] == [' '] + text;
  }

  lemma ReadEvent(text: string, f: Fields)
    ensures Read(Tagged(EventTag(), text), f) == f.(event := JsTrim(text))
  {
    hide JsTrim;
    TrimSpaceFirst(text);
    var line := Tagged(EventTag(), text);
    assert line[|EventTag()|..] == [' '] + text;
    assert line[0] == 'e';
  }

  lemma ReadData(text: string, f: Fields)
    ensures Read(Tagged(DataTag(), text), f) == f.(data := f.data + [JsTrim(text)])
  {
    hide JsTrim;
    TrimSpaceFirst(text);
    var line := Tagged(DataTag(), text);
    assert line[|DataTag()|..] == [' '] + text;
    assert line[0] == 'd';
  }

  lemma {:induction false} ReadAllAppend(a: seq<string>, b: seq<string>, f: Fields)
    ensures ReadAll(a + b, f) == ReadAll(b, ReadAll(a, f))
    decreases |b|
  {
    hide Read;
    if b == [] {
      assert a + b == a;
    } else {
      assert (a + b)[..|a + b| - 1] == a + b[..|b| - 1];
      ReadAllAppend(a, b[..|b| - 1], f);
    }
  }

  lemma {:induction false} ReadDataLines(ls: seq<string>, f: Fields)
    ensures ReadAll(DataLines(ls), f) == f.(data := f.data + TrimAll(ls))
    decreases |ls|
  {
    hide Read, Tagged, JsTrim;
    if ls == [] {
      assert f.data + TrimAll(ls) == f.data;
    } else {
      var front := ls[..|ls| - 1];
      assert DataLines(ls)[..|ls| - 1] == DataLines(front);
      ReadDataLines(front, f);
      ReadData(ls[|ls| - 1], ReadAll(DataLines(front), f));
      assert TrimAll(ls) == TrimAll(front) + [JsTrim(ls[|ls| - 1])];
      assert f.data + TrimAll(front) + [JsTrim(ls[|ls| - 1])] == f.data + TrimAll(ls);
    }
  }

  lemma LinesOfAreLines(e: Event)
    requires Named(e)
    ensures Lines(LinesOf(e)) && forall i :: 0 <= i < |LinesOf(e)| ==> LinesOf(e)[i] != ""
  {
    hide Split;
    PrintIsTrimmed(e.id);
  }

  // ---------------------------------------------------------------------------
  // Both, spelled out
  // ---------------------------------------------------------------------------

  /** What follows the tag in the lines that begin with it, trimmed and in order. */
  ghost function Contents(ls: seq<string>, tag: string): seq<string>
  {
    if ls == [] then []
    else
      var line := ls[|ls| - 1];
      Contents(ls[..|ls| - 1], tag) + if tag <= line then [JsTrim(line[|tag|..])] else []
  }

  ghost function LastOr(s: seq<string>, default: string): string { if s == [] then default else s[|s| - 1] }

  lemma {:induction false} ReadAllIs(ls: seq<string>)
    ensures ReadAll(ls, NO_FIELDS) == Fields(LastOr(Contents(ls, "id:"), ""), LastOr(Contents(ls, "event:"), "message"), Contents(ls, "data:"))
  {
    hide JsTrim;
    if ls != [] {
      ReadAllIs(ls[..|ls| - 1]);
      var line := ls[|ls| - 1];
      assert "id:" <= line ==> line[0] == 'i';
      assert "event:" <= line ==> line[0] == 'e';
      assert "data:" <= line ==> line[0] == 'd';
    }
  }

  /** Of any block whatever, complete or not: no entry if it has no data line and its last identifier is blank or
      missing; otherwise one, with the last identifier (or "-"), the last name (or "message") and every data line. */
  lemma ParsedIs(chunk: string)
    ensures var ls := Split(chunk);
            var (ids, names, data) := (Contents(ls, "id:"), Contents(ls, "event:"), Contents(ls, "data:"));
            var id := LastOr(ids, "");
            Parsed(chunk) == if id == "" && data == [] then []
                             else [Entry(if id == "" then "-" else id, LastOr(names, "message"), Join(data))]
  {
    hide Contents, ReadAll, Split;
    ReadAllIs(Split(chunk));
  }

  /** The text of an event: its identifier, its name, one line for every line of its data, and an empty line. */
  lemma PrintedIs(e: Event)
    ensures var lines := Split(e.data);
            Printed(e) == ("id: " + Decimals.Print(e.id)) + "\n" + ("event: " + e.name.Wire()) + "\n" +
                          Terminated(seq(|lines|, i requires 0 <= i < |lines| => "data: " + lines[i])) + "\n"
  {
    hide Split, Join, Terminated, Decimals.Print;
    var lines := Split(e.data);
    var (l0, l1, rest) := ("id: " + Decimals.Print(e.id), "event: " + e.name.Wire(), seq(|lines|, i requires 0 <= i < |lines| => "data: " + lines[i]));
    assert LinesOf(e) == [l0] + ([l1] + rest) by {
      assert Tagged(IdTag(), Decimals.Print(e.id)) == l0 && Tagged(EventTag(), e.name.Wire()) == l1;
      assert DataLines(lines) == rest by {
        forall i | 0 <= i < |lines| ensures DataLines(lines)[i] == rest[i] {
          assert Tagged(DataTag(), lines[i]) == "data: " + lines[i];
        }
      }
    }
    TerminatedIsJoin(LinesOf(e));
    TerminatedFirst(l0, [l1] + rest);
    TerminatedFirst(l1, rest);
    var body := Terminated(rest);
    assert l0 + "\n" + (l1 + "\n" + body) == l0 + "\n" + l1 + "\n" + body;
    assert Join(LinesOf(e)) + BLANK == (Join(LinesOf(e)) + "\n") + "\n";
  }

  lemma TerminatedFirst(line: string, ls: seq<string>)
    ensures Terminated([line] + ls) == line + ['\n'] + Terminated(ls)
  {
    assert ([line] + ls)[1..] == ls;
  }

  /** The parser gives back what the printer was given, up to trimming. */
  lemma ParsedOfPrinted(e: Event)
    requires Named(e)
    ensures Parsed(Join(LinesOf(e))) == [Shown(e)]
  {
    LinesOfAreLines(e);
    SplitOfJoin(LinesOf(e));
    ReadsAllLines(e);
    PrintIsTrimmed(e.id);
    hide Split, ReadAll, Join, LinesOf, JsTrim;
    assert TrimAll(Split(e.data)) != [];
  }

  lemma ReadTwo(l0: string, l1: string, f: Fields)
    ensures ReadAll([l0, l1], f) == Read(l1, Read(l0, f))
  {
    hide Read;
    ReadNext([l0, l1], 0, f);
    ReadNext([l0, l1], 1, f);
    assert [l0, l1][..2] == [l0, l1] && [l0, l1][..0] == [];
  }

  lemma ReadsAllLines(e: Event)
    ensures ReadAll(LinesOf(e), NO_FIELDS) ==
            Fields(JsTrim(Decimals.Print(e.id)), JsTrim(e.name.Wire()), TrimAll(Split(e.data)))
  {
    hide Read, ReadAll, Tagged, JsTrim, Split, DataLines, TrimAll, Decimals.Print;
    var (l0, l1) := (Tagged(IdTag(), Decimals.Print(e.id)), Tagged(EventTag(), e.name.Wire()));
    ReadAllAppend([l0, l1], DataLines(Split(e.data)), NO_FIELDS);
    ReadTwo(l0, l1, NO_FIELDS);
    ReadId(Decimals.Print(e.id), NO_FIELDS);
    var f := NO_FIELDS.(id := JsTrim(Decimals.Print(e.id)));
    ReadEvent(e.name.Wire(), f);
    ReadDataLines(Split(e.data), f.(event := JsTrim(e.name.Wire())));
  }

  /** Non-empty lines contain no empty line, and the text does not end in a line break. */
  lemma {:induction false} NoBlankInside(ls: seq<string>)
    requires Lines(ls) && forall i :: 0 <= i < |ls| ==> ls[i] != ""
    ensures var s := Join(ls); s != "" && s[0] != '\n' && s[|s| - 1] != '\n' && forall j :: 0 <= j < |s| - 1 ==> !BlankAt(s, j)
    decreases |ls|
  {
    if |ls| > 1 {
      NoBlankInside(ls[1..]);
      var (s, later, n) := (Join(ls), Join(ls[1..]), |ls[0]|);
      forall j | 0 <= j < |s| - 1 ensures !BlankAt(s, j) {
        if j > n {
          assert !BlankAt(later, j - n - 1);
        } else if j == n {
          assert s[j + 1] == later[0];
        } else {
          assert s[j] == ls[0][j];
        }
      }
    }
  }

  lemma PrintedEndsAtBlank(e: Event, rest: string)
    requires Named(e)
    ensures FirstBlank(Printed(e) + rest) == Some(|Join(LinesOf(e))|)
  {
    hide LinesOf, Join, FirstBlank;
    LinesOfAreLines(e);
    NoBlankInside(LinesOf(e));
    var s := Join(LinesOf(e));
    var t := Printed(e) + rest;
    forall j | 0 <= j < |s| ensures !BlankAt(t, j) {
      if j < |s| - 1 {
        assert !BlankAt(s, j);
      } else {
        assert t[j] == s[j];
      }
    }
    FirstBlankIs(t, |s|);
  }

  lemma {:induction false} ScanOfPrinted(events: seq<Event>)
    requires forall i :: 0 <= i < |events| ==> Named(events[i])
    ensures Scan(PrintedAll(events)) == Scanned(ShownAll(events), "")
    decreases |events|
  {
    hide FirstBlank, LinesOf, Join, Parsed, Shown, Named;
    if events == [] {
      assert FirstBlank("").None? by { assert |""| < 2; EmptyHasNoBlank(); }
    } else {
      var (e, later) := (events[0], PrintedAll(events[1..]));
      PrintedEndsAtBlank(e, later);
      ParsedOfPrinted(e);
      ScanOfPrinted(events[1..]);
      var s := Printed(e) + later;
      var n := |Join(LinesOf(e))|;
      assert s[..n] == Join(LinesOf(e)) && s[n + 2..] == later;
      assert ShownAll(events) == [Shown(e)] + ShownAll(events[1..]);
    }
  }

  lemma EmptyHasNoBlank()
    ensures FirstBlank("").None?
  {
  }

  /** For all events with one-line names and every way of cutting the printed text into chunks, the portal
      reports exactly these events in order, trimmed, each once. */
  lemma RoundTrip(events: seq<Event>, chunks: seq<string>)
    requires forall i :: 0 <= i < |events| ==> Named(events[i])
    requires Concat(chunks) == PrintedAll(events)
    ensures OneShot(Concat(chunks)) == ShownAll(events)
  {
    hide Scan, ShownAll;
    ScanOfPrinted(events);
    assert ShownAll(events) + [] == ShownAll(events);
  }

  /** Trimming is harmless exactly for clean events. */
  lemma ShownAsSentIff(e: Event)
    ensures Shown(e) == Entry(Decimals.Print(e.id), e.name.Wire(), e.data) <==> Clean(e)
  {
    hide Split, Join;
    var ls := Split(e.data);
    JoinOfSplit(e.data);
    hide Text.Trim;
    if Clean(e) {
      assert TrimAll(ls) == ls;
    } else if Join(TrimAll(ls)) == e.data {
      TrimmedLinesAreLines(ls);
      SplitOfJoin(TrimAll(ls));
      assert TrimAll(ls) == ls;
    }
  }

  lemma TrimmedLinesAreLines(ls: seq<string>)
    requires Lines(ls)
    ensures Lines(TrimAll(ls))
  {
    hide Text.TrimLeft, Text.TrimRight;
  }

  lemma NoBlankAtAll(s: string)
    requires forall j :: 0 <= j < |s| - 1 ==> !BlankAt(s, j)
    ensures FirstBlank(s) == None
  {
  }
}
