// Decimal text of 64-bit integers: fmt's %d and strconv.ParseInt(s, 10, 64).

module Decimals {
  import opened Basics

  const MAX := 0x7FFF_FFFF_FFFF_FFFF
  const MIN := -0x8000_0000_0000_0000

  predicate Int64(v: int) { MIN <= v <= MAX }

  /** Two's complement: what v + 1 is for a Go int64. */
  function Successor(v: int): int
    requires Int64(v)
  {
    if v == MAX then MIN else v + 1
  }

  predicate Digit(c: char) { '0' <= c <= '9' }

  function Value(c: char): nat
    requires Digit(c)
  {
    c as int - '0' as int
  }

  function Digits(n: nat): (s: string)
    ensures s != "" && forall i :: 0 <= i < |s| ==> Digit(s[i])
  {
    var last := [('0' as int + n % 10) as char];
    if n < 10 then last else Digits(n / 10) + last
  }

  function Print(v: int): (s: string)
    ensures s != "" && forall i :: 0 <= i < |s| ==> Digit(s[i]) || s[i] == '-'
  {
    if v < 0 then "-" + Digits(-v) else Digits(v)
  }

  function ReadDigits(s: string): Option<nat>
  {
    if s == "" then None
    else
      var (front, c) := (s[..|s| - 1], s[|s| - 1]);
      if !Digit(c) then None
      else if front == "" then Some(Value(c))
      else
        var high := ReadDigits(front);
        if high.None? then None else Some(10 * high.value + Value(c))
  }

  function ParseInt(s: string): (r: Option<int>)
    ensures r.Some? ==> Int64(r.value)
  {
    if s == "" then None
    else
      var signed := s[0] == '-' || s[0] == '+';
      var n := ReadDigits(if signed then s[1..] else s);
      if n.None? then None
      else
        var v: int := if s[0] == '-' then -(n.value as int) else n.value;
        if Int64(v) then Some(v) else None
  }

  lemma {:induction false} ReadsDigits(n: nat)
    ensures ReadDigits(Digits(n)) == Some(n)
  {
    var s := Digits(n);
    var last := ('0' as int + n % 10) as char;
    if n < 10 {
      assert s == [last] && s[..|s| - 1] == "";
    } else {
      ReadsDigits(n / 10);
      assert s[..|s| - 1] == Digits(n / 10) && s[|s| - 1] == last;
    }
  }

  /** Printing and parsing is the identity on every 64-bit integer. */
  lemma PrintThenParse(v: int)
    requires Int64(v)
    ensures ParseInt(Print(v)) == Some(v)
  {
    hide Digits, ReadDigits;
    if v < 0 {
      ReadsDigits(-v);
      assert Print(v)[1..] == Digits(-v);
    } else {
      ReadsDigits(v);
    }
  }

  lemma {:induction false} ReadsZeros(zeros: nat, n: nat)
    ensures ReadDigits(seq(zeros, _ => '0') + Digits(n)) == Some(n)
    decreases n
  {
    var pad := seq(zeros, _ => '0');
    var s := pad + Digits(n);
    var last := ('0' as int + n % 10) as char;
    if n < 10 {
      assert s[..|s| - 1] == pad;
      OnlyZeros(zeros);
    } else {
      ReadsZeros(zeros, n / 10);
      assert s[..|s| - 1] == pad + Digits(n / 10) && s[|s| - 1] == last;
    }
  }

  lemma {:induction false} OnlyZeros(zeros: nat)
    ensures zeros > 0 ==> ReadDigits(seq(zeros, _ => '0')) == Some(0)
  {
    if zeros > 1 {
      OnlyZeros(zeros - 1);
      assert seq(zeros, _ => '0')[..zeros - 1] == seq(zeros - 1, _ => '0');
    }
  }

  /** Any number of leading zeros and a sign are understood; what is out of range is refused. */
  lemma ParsesNumerals(zeros: nat, n: nat)
    ensures var text := seq(zeros, _ => '0') + Digits(n);
            && ParseInt(text) == ParseInt(['+'] + text) == (if n <= MAX then Some(n as int) else None)
            && ParseInt(['-'] + text) == (if n <= -MIN then Some(-(n as int)) else None)
  {
    hide ParseInt, ReadDigits, Digits;
    ReadsZeros(zeros, n);
    ParsesSigned(seq(zeros, _ => '0') + Digits(n), n);
  }

  lemma ParsesSigned(text: string, n: nat)
    requires text != "" && Digit(text[0]) && ReadDigits(text) == Some(n)
    ensures ParseInt(text) == ParseInt(['+'] + text) == (if n <= MAX then Some(n as int) else None)
    ensures ParseInt(['-'] + text) == (if n <= -MIN then Some(-(n as int)) else None)
  {
    hide ReadDigits;
    assert (['+'] + text)[1..] == text && (['-'] + text)[1..] == text;
  }

  /** Nothing but a numeral is parsed. */
  lemma ParsesNothingElse(s: string)
    requires ParseInt(s).Some?
    ensures s != "" && (|s| == 1 ==> Digit(s[0])) && (Digit(s[0]) || s[0] == '+' || s[0] == '-')
    ensures forall i :: 1 <= i < |s| ==> Digit(s[i])
  {
    var digits := if s[0] == '-' || s[0] == '+' then s[1..] else s;
    OnlyDigits(digits);
    assert forall i :: 1 <= i < |s| ==> s[i] == digits[if digits == s then i else i - 1];
  }

  lemma {:induction false} OnlyDigits(s: string)
    requires ReadDigits(s).Some?
    ensures s != "" && forall i :: 0 <= i < |s| ==> Digit(s[i])
  {
    if |s| > 1 {
      OnlyDigits(s[..|s| - 1]);
    }
  }
}
