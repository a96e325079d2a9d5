// Names of sandbox claims (sandboxClaimName, services/worker/internal/engine/engine.go:1293-1313).

module ClaimName {
  import opened Basics

  const LABEL := 63

  predicate LetterOrDigit(c: char) { 'a' <= c <= 'z' || '0' <= c <= '9' }

  predicate Allowed(c: char) { LetterOrDigit(c) || c == '-' }

  /** A host label: letters, digits and hyphens, at most 63, no hyphen at either end (section 2.1 of RFC 1123). */
  predicate HostLabel(s: string)
  {
    && 1 <= |s| <= LABEL && (forall i :: 0 <= i < |s| ==> Allowed(s[i]))
    && LetterOrDigit(s[0]) && LetterOrDigit(s[|s| - 1])
  }

  /** ToLower rune by rune, underscores to hyphens. */
  function Base(runID: string, lower: char -> char): (r: string)
    ensures |r| == |runID|
  {
    seq(|runID|, i requires 0 <= i < |runID| => if lower(runID[i]) == '_' then '-' else lower(runID[i]))
  }

  function TrimRightHyphens(s: string): (r: string)
    ensures r <= s && (r != "" ==> r[|r| - 1] != '-')
    ensures forall i :: |r| <= i < |s| ==> s[i] == '-'
  {
    if s != "" && s[|s| - 1] == '-' then TrimRightHyphens(s[..|s| - 1]) else s
  }

  function TrimLeftHyphens(s: string): (r: string)
    ensures |r| <= |s| && r == s[|s| - |r|..] && (r != "" ==> r[0] != '-')
  {
    if s != "" && s[0] == '-' then TrimLeftHyphens(s[1..]) else s
  }

  function Prefixed(clean: string): string
  {
    var name := ['r', 'u', 'n', '-'] + clean;
    if |name| > LABEL then TrimRightHyphens(name[..LABEL]) else name
  }

  /** `spare` is the generated identifier that stands in when nothing of the run id is left. */
  function ClaimName(runID: string, lower: char -> char, spare: string): string
  {
    var clean := TrimRightHyphens(TrimLeftHyphens(Filter(Base(runID, lower), Allowed)));
    Prefixed(if clean == "" then Base(spare, lower) else clean)
  }

  method SandboxClaimName(runID: string, lower: char -> char, spare: string) returns (name: string)
    ensures name == ClaimName(runID, lower, spare)
  {
    hide Base, TrimRightHyphens, TrimLeftHyphens;
    assert Filter([], Allowed) == [];
    hide Filter;
    var base := Base(runID, lower);
    var b := "";
    for i := 0 to |base|
      invariant b == Filter(base[..i], Allowed)
    {
      FilterNext(base, i, Allowed);
      if ('a' <= base[i] <= 'z') || ('0' <= base[i] <= '9') || base[i] == '-' {
        b := b + [base[i]];
      }
    }
    assert base[..|base|] == base;
    var clean := TrimRightHyphens(TrimLeftHyphens(b));
    if clean == "" {
      clean := Base(spare, lower);
    }
    name := ['r', 'u', 'n', '-'] + clean;
    if |name| > LABEL {
      name := name[..LABEL];
      name := TrimRightHyphens(name);
    }
  }

  /** A generated identifier: lower-case hexadecimal digits and hyphens, 36 characters, no hyphen at the end. */
  predicate Uuid(u: string)
  {
    |u| == 36 && LetterOrDigit(u[35]) && forall i :: 0 <= i < 36 ==> Allowed(u[i])
  }

  /** Lower-case letters, digits, hyphens and underscores are their own lower case. */
  ghost predicate LeavesLower(lower: char -> char)
  {
    forall c :: Allowed(c) || c == '_' ==> lower(c) == c
  }

  // ---------------------------------------------------------------------------
  // The name, spelled out for every run id
  // ---------------------------------------------------------------------------

  /** The lower-case letters, digits and hyphens of a text, underscores read as hyphens. */
  ghost function Usable(text: string, lower: char -> char): string
  {
    if text == "" then ""
    else
      var c := lower(text[|text| - 1]);
      Usable(text[..|text| - 1], lower) + if c == '_' || c == '-' then ['-'] else if 'a' <= c <= 'z' || '0' <= c <= '9' then [c] else []
  }

  ghost function Hyphens(n: nat): string { seq(n, _ => '-') }

  lemma {:induction false} UsableIs(text: string, lower: char -> char)
    ensures Filter(Base(text, lower), Allowed) == Usable(text, lower)
  {
    hide Filter;
    var base := Base(text, lower);
    if text != "" {
      var last := |text| - 1;
      UsableIs(text[..last], lower);
      assert base[..last] == Base(text[..last], lower) && base[..last + 1] == base;
      FilterNext(base, last, Allowed);
    }
  }

  lemma {:induction false} LeftTrimmed(n: nat, s: string)
    requires s == "" || s[0] != '-'
    ensures TrimLeftHyphens(Hyphens(n) + s) == s
  {
    if n > 0 {
      LeftTrimmed(n - 1, s);
      assert (Hyphens(n) + s)[1..] == Hyphens(n - 1) + s;
    } else {
      assert Hyphens(0) + s == s;
    }
  }

  lemma {:induction false} RightTrimmed(s: string, n: nat)
    requires s == "" || s[|s| - 1] != '-'
    ensures TrimRightHyphens(s + Hyphens(n)) == s
  {
    var t := s + Hyphens(n);
    if n > 0 {
      RightTrimmed(s, n - 1);
      assert t[..|t| - 1] == s + Hyphens(n - 1);
    } else {
      assert t == s;
    }
  }

  lemma CleanIs(runID: string, lower: char -> char, before: nat, core: string, after: nat)
    requires Usable(runID, lower) == Hyphens(before) + (core + Hyphens(after))
    requires core == "" ==> after == 0
    requires core != "" ==> core[0] != '-' && core[|core| - 1] != '-'
    ensures TrimRightHyphens(TrimLeftHyphens(Filter(Base(runID, lower), Allowed))) == core
  {
    hide Base, Usable, Filter, TrimLeftHyphens, TrimRightHyphens;
    UsableIs(runID, lower);
    LeftTrimmed(before, core + Hyphens(after));
    RightTrimmed(core, after);
  }

  /** Whatever the run id: when something but hyphens is left of it, the name is "run-" and what lies between the outer
      hyphens, cut to 63 characters and then at the last of them that is not a hyphen. */
  lemma NameIs(runID: string, lower: char -> char, spare: string, before: nat, core: string, after: nat)
    requires Usable(runID, lower) == Hyphens(before) + (core + Hyphens(after))
    requires core != "" && core[0] != '-' && core[|core| - 1] != '-'
    ensures var (name, whole) := (ClaimName(runID, lower, spare), "run-" + core);
            && name <= whole
            && (|whole| <= 63 ==> name == whole)
            && (|whole| > 63 ==> 0 < |name| <= 63 && name[|name| - 1] != '-' && forall i :: |name| <= i < 63 ==> whole[i] == '-')
  {
    hide Base, Usable, Filter, TrimLeftHyphens, TrimRightHyphens;
    CleanIs(runID, lower, before, core, after);
    var whole := "run-" + core;
    assert whole == ['r', 'u', 'n', '-'] + core;
    if |whole| > 63 {
      var cut := TrimRightHyphens(whole[..63]);
      assert whole[..63][0] == 'r';
      assert cut != "";
    }
  }

  /** When nothing but hyphens is left, the name is made of a fresh identifier. */
  lemma NameOfNothing(runID: string, lower: char -> char, u: string, n: nat)
    requires Uuid(u) && LeavesLower(lower)
    requires Usable(runID, lower) == Hyphens(n)
    ensures ClaimName(runID, lower, "sandbox_" + u) == "run-sandbox-" + u
  {
    hide Usable, Filter, TrimLeftHyphens, TrimRightHyphens, Base;
    assert Hyphens(n) + ("" + Hyphens(0)) == Hyphens(n);
    CleanIs(runID, lower, n, "", 0);
    FreshName(u, lower);
    assert ['r', 'u', 'n', '-'] + ("sandbox-" + u) == "run-sandbox-" + u;
  }

  lemma FreshName(u: string, lower: char -> char)
    requires Uuid(u) && LeavesLower(lower)
    ensures Base("sandbox_" + u, lower) == "sandbox-" + u
  {
    var (id, expected) := ("sandbox_" + u, "sandbox-" + u);
    assert forall i :: 8 <= i < 44 ==> id[i] == u[i - 8] == expected[i];
    assert forall i :: 0 <= i < 44 && i != 7 ==> id[i] == expected[i] && Allowed(id[i]);
  }

  lemma PrefixedIsLabel(clean: string)
    requires clean != "" && (forall i :: 0 <= i < |clean| ==> Allowed(clean[i])) && LetterOrDigit(clean[|clean| - 1])
    ensures HostLabel(Prefixed(clean))
  {
    var name := ['r', 'u', 'n', '-'] + clean;
    assert name[0] == 'r' && name[|name| - 1] == clean[|clean| - 1];
    if |name| > LABEL {
      var cut := TrimRightHyphens(name[..LABEL]);
      assert name[..LABEL][0] == 'r';
      assert cut != "";
      assert cut[0] == 'r';
    }
  }

  /** For every run id, whatever ToLower does to it, the name is a valid host label. */
  lemma AlwaysALabel(runID: string, lower: char -> char, u: string)
    requires Uuid(u) && LeavesLower(lower)
    ensures HostLabel(ClaimName(runID, lower, "sandbox_" + u))
  {
    hide HostLabel, Prefixed, Base, Filter, TrimLeftHyphens, TrimRightHyphens;
    var kept := Filter(Base(runID, lower), Allowed);
    var left := TrimLeftHyphens(kept);
    var clean := TrimRightHyphens(left);
    var spare := Base("sandbox_" + u, lower);
    assert forall i :: 0 <= i < |clean| ==> clean[i] in kept;
    if clean != "" {
      assert Allowed(clean[|clean| - 1]);
      PrefixedIsLabel(clean);
    } else {
      FreshIsAllowed(u, lower);
      PrefixedIsLabel(spare);
    }
  }

  lemma FreshIsAllowed(u: string, lower: char -> char)
    requires Uuid(u) && LeavesLower(lower)
    ensures var spare := Base("sandbox_" + u, lower);
            |spare| == 44 && LetterOrDigit(spare[43]) && forall i :: 0 <= i < 44 ==> Allowed(spare[i])
  {
    var id := "sandbox_" + u;
    assert forall i :: 8 <= i < 44 ==> id[i] == u[i - 8];
    assert forall i :: 0 <= i < 44 ==> Allowed(id[i]) || id[i] == '_';
  }

  lemma NothingToTrim(s: string)
    requires s == "" || (s[0] != '-' && s[|s| - 1] != '-')
    ensures TrimRightHyphens(TrimLeftHyphens(s)) == s
  {
  }

  /** NewID("run") */
  function RunID(u: string): string { "run_" + u }

  function CleanID(u: string): string { "run-" + u }

  function Claim(u: string): string { "run-run-" + u }

  lemma BaseOfGenerated(u: string, lower: char -> char)
    requires Uuid(u) && LeavesLower(lower)
    ensures Base(RunID(u), lower) == CleanID(u)
  {
    var (id, expected) := (RunID(u), CleanID(u));
    assert forall i :: 4 <= i < 40 ==> id[i] == u[i - 4] == expected[i];
    assert id[0] == 'r' && id[1] == 'u' && id[2] == 'n' && id[3] == '_';
  }

  lemma CleanOfGenerated(u: string)
    requires Uuid(u)
    ensures var clean := CleanID(u);
            |clean| == 40 && Filter(clean, Allowed) == clean && TrimRightHyphens(TrimLeftHyphens(clean)) == clean
  {
    var clean := CleanID(u);
    assert forall i :: 4 <= i < 40 ==> clean[i] == u[i - 4];
    assert clean[0] == 'r' && clean[1] == 'u' && clean[2] == 'n' && clean[3] == '-';
    FilterAll(clean, Allowed);
    NothingToTrim(clean);
  }

  lemma PrefixedGenerated(u: string)
    requires |u| == 36
    ensures Prefixed(CleanID(u)) == Claim(u)
  {
    var (x, y) := (['r', 'u', 'n', '-'] + CleanID(u), Claim(u));
    assert forall i :: 8 <= i < 44 ==> x[i] == u[i - 8] == y[i];
    assert forall i :: 0 <= i < 8 ==> x[i] == y[i];
    assert x == y;
  }

  /** The name of a generated run spells out the run. */
  lemma GeneratedName(u: string, lower: char -> char, spare: string)
    requires Uuid(u) && LeavesLower(lower)
    ensures ClaimName(RunID(u), lower, spare) == Claim(u)
  {
    hide Base, TrimRightHyphens, TrimLeftHyphens, Prefixed, Filter, RunID, CleanID, Claim;
    BaseOfGenerated(u, lower);
    CleanOfGenerated(u);
    PrefixedGenerated(u);
  }

  /** Distinct generated run ids get distinct names. */
  lemma NamesDiffer(u: string, v: string, lower: char -> char, spare: string, other: string)
    requires Uuid(u) && Uuid(v) && LeavesLower(lower) && u != v
    ensures ClaimName(RunID(u), lower, spare) != ClaimName(RunID(v), lower, other)
  {
    hide ClaimName, Uuid;
    GeneratedName(u, lower, spare);
    GeneratedName(v, lower, other);
    assert Claim(u)[8..] == u && Claim(v)[8..] == v;
  }
}
