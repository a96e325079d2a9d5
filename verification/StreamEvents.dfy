// Stream events and the names that end a stream
// (services/api-server/internal/server/server.go, isTerminalStreamEvent).

module StreamEvents {
  import opened Basics
  import Text

  /** The lifecycle names of the worker and the API server; executors add their own. */
  datatype Name =
    | RunQueued
    | RunStarted
    | RunAllocated
    | RunCompleted
    | RunInterrupted
    | RunRolledBack
    | RunFailed
    | RunAllocationFailed
    | Custom(text: string)
  {
    /** The text that travels over Redis and over the stream. */
    function Wire(): string
    {
      match this
      case RunQueued => "run_queued"
      case RunStarted => "run_started"
      case RunAllocated => "run_sandbox_allocated"
      case RunCompleted => "run_completed"
      case RunInterrupted => "run_interrupted"
      case RunRolledBack => "run_rolled_back"
      case RunFailed => "run_failed"
      case RunAllocationFailed => "run_sandbox_allocation_failed"
      case Custom(text) => text
    }

    predicate EndsStream()
    {
      match this
      case RunQueued => false
      case RunStarted => false
      case RunAllocated => false
      case Custom(text) => IsTerminalText(text)
      case _ => true
    }
  }

  datatype Event = Event(id: int, name: Name, data: string)

  predicate IsTerminal(e: Event) { e.name.EndsStream() }

  predicate Listed(n: string)
  {
    || n == "run_completed"
    || n == "run_interrupted"
    || n == "run_rolled_back"
    || n == "run_failed"
    || n == "run_sandbox_allocation_failed"
  }

  /** isTerminalStreamEvent on the text of a name. */
  predicate IsTerminalText(name: string)
  {
    Listed(Text.Trim(Text.Lower(name), Text.GoSpace))
  }

  /** Strictly increasing identifiers. */
  predicate Increasing(s: seq<Event>)
  {
    forall i, j :: 0 <= i < j < |s| ==> s[i].id < s[j].id
  }

  /** Identifiers 1..n in order. */
  predicate Numbered(list: seq<Event>) { forall i :: 0 <= i < |list| ==> list[i].id == i + 1 }

  predicate EndsOnce(list: seq<Event>) { forall i :: 0 <= i < |list| - 1 ==> !IsTerminal(list[i]) }

  predicate Ended(list: seq<Event>) { list != [] && IsTerminal(list[|list| - 1]) }

  predicate Plain(n: string)
  {
    (forall i :: 0 <= i < |n| ==> 'A' > n[i] || n[i] > 'Z') && Text.Trimmed(n, Text.GoSpace)
  }

  /** Names that are already lower-case and trimmed are compared as they are. */
  lemma PlainText(n: string)
    requires Plain(n)
    ensures IsTerminalText(n) <==> Listed(n)
  {
  }

  lemma LifecycleIsPlain(n: Name)
    requires !n.Custom?
    ensures Plain(n.Wire())
  {
    hide Text.Trim, Text.Lower;
  }

  lemma LifecycleIsListed(n: Name)
    requires !n.Custom?
    ensures Listed(n.Wire()) <==> n.EndsStream()
  {
    if n.RunQueued? || n.RunStarted? || n.RunAllocated? {
      var w := n.Wire();
      assert w[4] == 'q' || w[4] == 's';
      assert "run_completed"[4] == 'c' && "run_interrupted"[4] == 'i' && "run_rolled_back"[4] == 'r' && "run_failed"[4] == 'f';
      assert |w| != |"run_sandbox_allocation_failed"|;
    }
  }

  /** The server ends a stream exactly on the names that the worker uses to end a run. */
  lemma EndsStreamIsServerTest(n: Name)
    ensures n.EndsStream() <==> IsTerminalText(n.Wire())
  {
    if !n.Custom? {
      LifecycleIsPlain(n);
      PlainText(n.Wire());
      LifecycleIsListed(n);
    }
  }

  // ---------------------------------------------------------------------------
  // The test of the server, spelled out
  // ---------------------------------------------------------------------------

  /** From place `i` on, `name` is `word` but for the case of its letters; around it there is only white space. */
  ghost predicate SpelledAt(name: string, word: string, i: nat)
  {
    && i + |word| <= |name|
    && (forall k :: 0 <= k < i || i + |word| <= k < |name| ==> Text.GoSpace(name[k]))
    && forall k :: 0 <= k < |word| ==> name[i + k] == word[k] || ('A' <= name[i + k] <= 'Z' && word[k] as int == name[i + k] as int + 32)
  }

  ghost predicate Spells(name: string, word: string) { exists i :: SpelledAt(name, word, i) }

  /** For every text. */
  lemma TerminalTextIff(name: string)
    ensures IsTerminalText(name) <==>
              || Spells(name, "run_completed") || Spells(name, "run_interrupted") || Spells(name, "run_rolled_back")
              || Spells(name, "run_failed") || Spells(name, "run_sandbox_allocation_failed")
  {
    hide Spells, Plain, Text.Trim, Text.Lower;
    LifecycleIsPlain(RunCompleted);
    LifecycleIsPlain(RunInterrupted);
    LifecycleIsPlain(RunRolledBack);
    LifecycleIsPlain(RunFailed);
    LifecycleIsPlain(RunAllocationFailed);
    WordIff(name, "run_completed");
    WordIff(name, "run_interrupted");
    WordIff(name, "run_rolled_back");
    WordIff(name, "run_failed");
    WordIff(name, "run_sandbox_allocation_failed");
  }

  lemma WordIff(name: string, word: string)
    requires word != "" && Plain(word)
    ensures Text.Trim(Text.Lower(name), Text.GoSpace) == word <==> Spells(name, word)
  {
    hide Text.Trim, SpelledAt;
    if Text.Trim(Text.Lower(name), Text.GoSpace) == word {
      var i := WordStands(name, word);
    }
    if i: nat :| SpelledAt(name, word, i) {
      WordIsLeft(name, word, i);
    }
  }

  lemma LowerSpace(c: char)
    ensures Text.GoSpace(Text.LowerChar(c)) ==> Text.GoSpace(c)
  {
  }

  lemma WordStands(name: string, word: string) returns (i: nat)
    requires Text.Trim(Text.Lower(name), Text.GoSpace) == word
    ensures SpelledAt(name, word, i)
  {
    hide Text.Trim, Text.GoSpace;
    var lower := Text.Lower(name);
    var j;
    i, j := Text.TrimIs(lower, Text.GoSpace);
    forall k | 0 <= k < i || j <= k < |name| ensures Text.GoSpace(name[k]) {
      assert Text.GoSpace(lower[k]) && lower[k] == Text.LowerChar(name[k]);
      LowerSpace(name[k]);
    }
    forall k | 0 <= k < |word| ensures word[k] == Text.LowerChar(name[i + k]) {
      assert word[k] == lower[i + k];
    }
  }

  lemma WordIsLeft(name: string, word: string, i: nat)
    requires word != "" && Plain(word) && SpelledAt(name, word, i)
    ensures Text.Trim(Text.Lower(name), Text.GoSpace) == word
  {
    hide Text.Trim;
    var lower := Text.Lower(name);
    assert lower[i..i + |word|] == word;
    assert lower[i] == word[0] && lower[i + |word| - 1] == word[|word| - 1];
    Text.TrimOf(lower, i, i + |word|, Text.GoSpace);
  }
}
