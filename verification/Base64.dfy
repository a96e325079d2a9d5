// Base64 in the URL-safe alphabet without padding (section 5 of RFC 4648), as the portal
// builds it from the standard encoding and takes it apart again
// (portal/middleware.ts:74-91, portal/lib/auth.ts:23-30).

module Base64 {
  import opened Basics

  type Byte = n: int | 0 <= n < 256

  type Sextet = n: int | 0 <= n < 64

  // ---------------------------------------------------------------------------
  // Groups of six bits (section 4 of RFC 4648)
  // ---------------------------------------------------------------------------

  function Sextets(b: seq<Byte>): seq<Sextet>
  {
    if |b| == 0 then []
    else if |b| == 1 then [b[0] / 4, b[0] % 4 * 16]
    else if |b| == 2 then [b[0] / 4, b[0] % 4 * 16 + b[1] / 16, b[1] % 16 * 4]
    else [b[0] / 4, b[0] % 4 * 16 + b[1] / 16, b[1] % 16 * 4 + b[2] / 64, b[2] % 64] + Sextets(b[3..])
  }

  /** Two or three left-over sextets make one or two bytes, the spare bits are dropped. */
  function Bytes(s: seq<Sextet>): seq<Byte>
  {
    if |s| < 2 then []
    else if |s| == 2 then [First(s)]
    else if |s| == 3 then [First(s), Second(s)]
    else [First(s), Second(s), (s[2] as int) % 4 * 64 + s[3] as int] + Bytes(s[4..])
  }

  function First(s: seq<Sextet>): Byte
    requires |s| >= 2
  {
    (s[0] as int) * 4 + (s[1] as int) / 16
  }

  function Second(s: seq<Sextet>): Byte
    requires |s| >= 3
  {
    (s[1] as int) % 16 * 16 + (s[2] as int) / 4
  }

  lemma FirstByte(x: Byte, y: Byte)
    ensures (x as int) / 4 * 4 + ((x as int) % 4 * 16 + (y as int) / 16) / 16 == x as int
    ensures ((x as int) % 4 * 16 + (y as int) / 16) % 16 == (y as int) / 16
  {
  }

  lemma SecondByte(y: Byte, z: Byte)
    ensures (y as int) / 16 * 16 + ((y as int) % 16 * 4 + (z as int) / 64) / 4 == y as int
    ensures ((y as int) % 16 * 4 + (z as int) / 64) % 4 == (z as int) / 64
  {
  }

  lemma {:induction false} BytesOfSextets(b: seq<Byte>)
    ensures Bytes(Sextets(b)) == b
    decreases |b|
  {
    if |b| == 1 {
      FirstByte(b[0], 0);
    } else if |b| == 2 {
      FirstByte(b[0], b[1]);
      SecondByte(b[1], 0);
    } else if |b| > 2 {
      FirstByte(b[0], b[1]);
      SecondByte(b[1], b[2]);
      BytesOfSextets(b[3..]);
      assert Sextets(b)[4..] == Sextets(b[3..]);
      assert b == [b[0], b[1], b[2]] + b[3..];
    }
  }

  lemma {:induction false} SextetCount(b: seq<Byte>)
    ensures |Sextets(b)| == (4 * |b| + 2) / 3
    decreases |b|
  {
    if |b| > 2 {
      SextetCount(b[3..]);
    }
  }

  // ---------------------------------------------------------------------------
  // Alphabet
  // ---------------------------------------------------------------------------

  function Letter(n: Sextet): char
  {
    if n < 26 then (n + 'A' as int) as char
    else if n < 52 then (n - 26 + 'a' as int) as char
    else if n < 62 then (n - 52 + '0' as int) as char
    else if n == 62 then '+' else '/'
  }

  function ValueOf(c: char): Option<Sextet>
  {
    if 'A' <= c <= 'Z' then Some(c as int - 'A' as int)
    else if 'a' <= c <= 'z' then Some(c as int - 'a' as int + 26)
    else if '0' <= c <= '9' then Some(c as int - '0' as int + 52)
    else if c == '+' then Some(62)
    else if c == '/' then Some(63)
    else None
  }

  lemma LetterValue(n: Sextet)
    ensures ValueOf(Letter(n)) == Some(n) && Letter(n) != '='
  {
  }

  function Letters(s: seq<Sextet>): (r: string)
    ensures |r| == |s|
  {
    seq(|s|, i requires 0 <= i < |s| => Letter(s[i]))
  }

  function Pad(n: nat): (r: string)
    ensures |r| == (4 - n % 4) % 4 && forall i :: 0 <= i < |r| ==> r[i] == '='
  {
    seq((4 - n % 4) % 4, _ => '=')
  }

  /** The standard encoding: btoa, and Buffer.toString("base64"). */
  function Encode(b: seq<Byte>): string { Letters(Sextets(b)) + Pad(|Sextets(b)|) }

  function Swap(s: string, from: char, to: char): (r: string)
    ensures |r| == |s|
  {
    seq(|s|, i requires 0 <= i < |s| => if s[i] == from then to else s[i])
  }

  function Strip(s: string): string
  {
    if s != "" && s[|s| - 1] == '=' then Strip(s[..|s| - 1]) else s
  }

  /** base64url, encodeBase64URL */
  function EncodeURL(b: seq<Byte>): string { Strip(Swap(Swap(Encode(b), '+', '-'), '/', '_')) }

  // ---------------------------------------------------------------------------
  // Decoding
  // ---------------------------------------------------------------------------

  function Values(s: string): Option<seq<Sextet>>
  {
    if s == "" then Some([])
    else
      var v := ValueOf(s[|s| - 1]);
      var front := Values(s[..|s| - 1]);
      if v.None? || front.None? then None else Some(front.value + [v.value])
  }

  predicate AsciiSpace(c: char) { c == ' ' || c == '\t' || c == '\n' || c == '\r' || c == '\U{000C}' }

  function Unpad(s: string): string
  {
    if |s| % 4 != 0 || s == "" || s[|s| - 1] != '=' then s
    else if s[|s| - 2] == '=' then s[..|s| - 2]
    else s[..|s| - 1]
  }

  /** atob: white space is ignored, one or two padding characters are taken off a whole number of groups. */
  function Atob(s: string): Option<seq<Byte>>
  {
    var text := Unpad(Filter(s, c => !AsciiSpace(c)));
    var v := Values(text);
    if |text| % 4 == 1 || v.None? then None else Some(Bytes(v.value))
  }

  /** decodeBase64URL */
  function DecodeURL(s: string): Option<seq<Byte>>
  {
    var normalized := Swap(Swap(s, '-', '+'), '_', '/');
    Atob(normalized + Pad(|normalized|))
  }

  /** Buffer.from(s, "base64url"): both alphabets, up to the first padding character, anything else skipped. */
  function DecodeBuffer(s: string): seq<Byte>
  {
    Bytes(Lenient(Swap(Swap(s, '-', '+'), '_', '/')))
  }

  function Lenient(s: string): seq<Sextet>
  {
    if s == "" || s[0] == '=' then []
    else (if ValueOf(s[0]).Some? then [ValueOf(s[0]).value] else []) + Lenient(s[1..])
  }

  // ---------------------------------------------------------------------------
  // Identity
  // ---------------------------------------------------------------------------

  lemma {:induction false} StripOf(s: string, pad: string)
    requires s == "" || s[|s| - 1] != '='
    requires forall i :: 0 <= i < |pad| ==> pad[i] == '='
    ensures Strip(s + pad) == s
    decreases |pad|
  {
    if pad == "" {
      assert s + pad == s;
    } else {
      assert (s + pad)[..|s + pad| - 1] == s + pad[..|pad| - 1];
      StripOf(s, pad[..|pad| - 1]);
    }
  }

  function UrlLetter(n: Sextet): char { if n == 62 then '-' else if n == 63 then '_' else Letter(n) }

  function UrlLetters(s: seq<Sextet>): (r: string)
    ensures |r| == |s|
  {
    seq(|s|, i requires 0 <= i < |s| => UrlLetter(s[i]))
  }

  lemma LetterFacts(n: Sextet)
    ensures Letter(n) != '=' && Letter(n) != '-' && Letter(n) != '_' && Letter(n) != '.' && !AsciiSpace(Letter(n))
    ensures UrlLetter(n) != '=' && UrlLetter(n) != '.'
    ensures Letter(n) == '+' <==> n == 62
    ensures Letter(n) == '/' <==> n == 63
  {
  }

  /** The text is the sextets in the URL-safe alphabet, nothing else. */
  lemma EncodeURLIs(b: seq<Byte>)
    ensures EncodeURL(b) == UrlLetters(Sextets(b))
  {
    hide Sextets, Letter, Strip;
    var s := Sextets(b);
    var swapped := Swap(Swap(Encode(b), '+', '-'), '/', '_');
    forall i | 0 <= i < |s| ensures UrlLetters(s)[i] == swapped[i] && UrlLetters(s)[i] != '=' {
      LetterFacts(s[i]);
    }
    assert swapped == UrlLetters(s) + Pad(|s|);
    StripOf(UrlLetters(s), Pad(|s|));
  }

  /** Table 2 of RFC 4648. */
  predicate Stands(c: char, n: int)
  {
    || ('A' <= c <= 'Z' && n == c as int - 'A' as int)
    || ('a' <= c <= 'z' && n == c as int - 'a' as int + 26)
    || ('0' <= c <= '9' && n == c as int - '0' as int + 52)
    || (c == '-' && n == 62)
    || (c == '_' && n == 63)
  }

  /** Bit `i` of the bytes, the highest of each byte first; zero from the end on. */
  function Bit(b: seq<Byte>, i: nat): (r: int)
    ensures 0 <= r <= 1
  {
    if i / 8 >= |b| then 0
    else
      var x: int := b[i / 8];
      match i % 8
      case 0 => x / 128
      case 1 => x / 64 % 2
      case 2 => x / 32 % 2
      case 3 => x / 16 % 2
      case 4 => x / 8 % 2
      case 5 => x / 4 % 2
      case 6 => x / 2 % 2
      case _ => x % 2
  }

  /** Six bits from bit `i` on. */
  function SixBits(b: seq<Byte>, i: nat): int
  {
    32 * Bit(b, i) + 16 * Bit(b, i + 1) + 8 * Bit(b, i + 2) + 4 * Bit(b, i + 3) + 2 * Bit(b, i + 4) + Bit(b, i + 5)
  }

  lemma Halves(x: Byte)
    ensures var y: int := x;
            && y / 4 == 32 * (y / 128) + 16 * (y / 64 % 2) + 8 * (y / 32 % 2) + 4 * (y / 16 % 2) + 2 * (y / 8 % 2) + y / 4 % 2
            && y / 16 == 8 * (y / 128) + 4 * (y / 64 % 2) + 2 * (y / 32 % 2) + y / 16 % 2
            && y / 64 == 2 * (y / 128) + y / 64 % 2
            && y % 4 == 2 * (y / 2 % 2) + y % 2
            && y % 16 == 8 * (y / 8 % 2) + 4 * (y / 4 % 2) + 2 * (y / 2 % 2) + y % 2
            && y % 64 == 32 * (y / 32 % 2) + 16 * (y / 16 % 2) + 8 * (y / 8 % 2) + 4 * (y / 4 % 2) + 2 * (y / 2 % 2) + y % 2
  {
    HighHalves(x);
    LowHalves(x);
  }

  lemma HighHalves(x: Byte)
    ensures var y: int := x;
            && y / 64 == 2 * (y / 128) + y / 64 % 2
            && y / 32 == 2 * (y / 64) + y / 32 % 2
            && y / 16 == 2 * (y / 32) + y / 16 % 2
            && y / 8 == 2 * (y / 16) + y / 8 % 2
  {
  }

  lemma LowHalves(x: Byte)
    ensures var y: int := x;
            && y / 4 == 2 * (y / 8) + y / 4 % 2
            && y / 2 == 2 * (y / 4) + y / 2 % 2
            && y == 2 * (y / 2) + y % 2
            && y % 4 == y - 4 * (y / 4) && y % 16 == y - 16 * (y / 16) && y % 64 == y - 64 * (y / 64)
  {
  }

  lemma ByteBits(b: seq<Byte>, n: nat)
    ensures var x: int := if n < |b| then b[n] else 0;
            && Bit(b, 8 * n) == x / 128 && Bit(b, 8 * n + 1) == x / 64 % 2 && Bit(b, 8 * n + 2) == x / 32 % 2
            && Bit(b, 8 * n + 3) == x / 16 % 2 && Bit(b, 8 * n + 4) == x / 8 % 2 && Bit(b, 8 * n + 5) == x / 4 % 2
            && Bit(b, 8 * n + 6) == x / 2 % 2 && Bit(b, 8 * n + 7) == x % 2
  {
  }

  /** The groups of the first three bytes, missing ones read as zero. */
  function Group(b: seq<Byte>, k: nat): int
  {
    var x: int, y: int, z: int := if |b| > 0 then b[0] else 0, if |b| > 1 then b[1] else 0, if |b| > 2 then b[2] else 0;
    if k == 0 then x / 4 else if k == 1 then x % 4 * 16 + y / 16 else if k == 2 then y % 16 * 4 + z / 64 else z % 64
  }

  lemma FirstSextets(b: seq<Byte>, k: nat)
    requires k < 4 && k < |Sextets(b)|
    ensures Sextets(b)[k] == Group(b, k)
  {
  }

  lemma FirstBits(b: seq<Byte>, k: nat)
    requires k < 4
    ensures SixBits(b, 6 * k) == Group(b, k)
  {
    hide Bit, SixBits;
    match k {
      case 0 => BitsOfFirst(b);
      case 1 => BitsOfSecond(b);
      case 2 => BitsOfThird(b);
      case 3 => BitsOfFourth(b);
    }
  }

  lemma BitsOfFirst(b: seq<Byte>)
    ensures SixBits(b, 0) == Group(b, 0)
  {
    hide Bit;
    ByteBits(b, 0);
    Halves(if |b| > 0 then b[0] else 0);
  }

  lemma BitsOfSecond(b: seq<Byte>)
    ensures SixBits(b, 6) == Group(b, 1)
  {
    hide Bit;
    ByteBits(b, 0);
    ByteBits(b, 1);
    Halves(if |b| > 0 then b[0] else 0);
    Halves(if |b| > 1 then b[1] else 0);
  }

  lemma BitsOfThird(b: seq<Byte>)
    ensures SixBits(b, 12) == Group(b, 2)
  {
    hide Bit;
    ByteBits(b, 1);
    ByteBits(b, 2);
    Halves(if |b| > 1 then b[1] else 0);
    Halves(if |b| > 2 then b[2] else 0);
  }

  lemma BitsOfFourth(b: seq<Byte>)
    ensures SixBits(b, 18) == Group(b, 3)
  {
    hide Bit;
    ByteBits(b, 2);
    Halves(if |b| > 2 then b[2] else 0);
  }

  lemma BitLater(b: seq<Byte>, i: nat)
    requires i >= 24 && |b| >= 3
    ensures Bit(b, i) == Bit(b[3..], i - 24)
  {
  }

  lemma {:induction false} SextetIs(b: seq<Byte>, k: nat)
    requires k < |Sextets(b)|
    ensures Sextets(b)[k] == SixBits(b, 6 * k)
    decreases |b|
  {
    hide Bit, Group;
    if k < 4 {
      FirstSextets(b, k);
      FirstBits(b, k);
    } else {
      SextetIs(b[3..], k - 4);
      var i := 6 * k;
      BitLater(b, i);
      BitLater(b, i + 1);
      BitLater(b, i + 2);
      BitLater(b, i + 3);
      BitLater(b, i + 4);
      BitLater(b, i + 5);
    }
  }

  /** One character for every six bits, the last ones filled up with zeros: the encoding of section 5 of RFC 4648,
      for every byte string. */
  lemma EncodedBits(b: seq<Byte>, k: nat)
    ensures |EncodeURL(b)| == (8 * |b| + 5) / 6
    ensures k < |EncodeURL(b)| ==> Stands(EncodeURL(b)[k], SixBits(b, 6 * k))
  {
    hide SixBits, EncodeURL, Sextets;
    EncodeURLIs(b);
    SextetCount(b);
    if k < |EncodeURL(b)| {
      SextetIs(b, k);
    }
  }

  lemma SwapBack(s: seq<Sextet>)
    ensures Swap(Swap(UrlLetters(s), '-', '+'), '_', '/') == Letters(s)
  {
    hide Letter;
    forall i | 0 <= i < |s| ensures Swap(Swap(UrlLetters(s), '-', '+'), '_', '/')[i] == Letters(s)[i] {
      LetterFacts(s[i]);
    }
  }

  lemma {:induction false} ValuesOfLetters(s: seq<Sextet>)
    ensures Values(Letters(s)) == Some(s)
    decreases |s|
  {
    hide Letter, ValueOf;
    if s != [] {
      var front := s[..|s| - 1];
      assert Letters(s)[..|s| - 1] == Letters(front);
      ValuesOfLetters(front);
      LetterValue(s[|s| - 1]);
      assert front + [s[|s| - 1]] == s;
    } else {
      assert Letters(s) == "";
    }
  }

  lemma {:induction false} LenientOfLetters(s: seq<Sextet>)
    ensures Lenient(Letters(s)) == s
    decreases |s|
  {
    hide Letter, ValueOf;
    if s != [] {
      assert Letters(s)[1..] == Letters(s[1..]);
      LenientOfLetters(s[1..]);
      LetterValue(s[0]);
      assert [s[0]] + s[1..] == s;
    }
  }

  lemma UnpadOfPadded(s: seq<Sextet>)
    requires |s| % 4 != 1
    ensures Unpad(Letters(s) + Pad(|s|)) == Letters(s)
  {
    hide Letter;
    var t := Letters(s) + Pad(|s|);
    if s != [] {
      LetterFacts(s[|s| - 1]);
      assert Letters(s)[|s| - 1] != '=';
    }
    if |s| % 4 == 2 {
      assert t[..|t| - 2] == Letters(s);
    } else if |s| % 4 == 3 {
      assert t[|t| - 2] == Letters(s)[|s| - 1];
      assert t[..|t| - 1] == Letters(s);
    } else {
      assert t == Letters(s);
    }
  }

  /** Stripping the padding and restoring it is the identity on every byte string. */
  lemma RoundTrip(b: seq<Byte>)
    ensures DecodeURL(EncodeURL(b)) == Some(b)
    ensures DecodeBuffer(EncodeURL(b)) == b
  {
    hide Letter, Letters, UrlLetters, Lenient, EncodeURL, Values, Bytes, Sextets, Swap, Unpad;
    var s := Sextets(b);
    EncodeURLIs(b);
    SwapBack(s);
    BytesOfSextets(b);
    SextetCount(b);
    ValuesOfLetters(s);
    LenientOfLetters(s);
    UnpadOfPadded(s);
    NoSpaces(s);
    FilterAll(Letters(s) + Pad(|s|), c => !AsciiSpace(c));
  }

  lemma NoSpaces(s: seq<Sextet>)
    ensures forall c :: c in Letters(s) + Pad(|s|) ==> !AsciiSpace(c)
  {
    hide Letter;
    forall i | 0 <= i < |s| ensures !AsciiSpace(Letters(s)[i]) {
      LetterFacts(s[i]);
    }
  }

  /** The text never contains the separator of a token, and is empty only for no bytes. */
  lemma NoDot(b: seq<Byte>)
    ensures '.' !in EncodeURL(b)
    ensures EncodeURL(b) == "" <==> b == []
  {
    hide UrlLetter, EncodeURL;
    EncodeURLIs(b);
    var s := Sextets(b);
    forall i | 0 <= i < |s| ensures UrlLetters(s)[i] != '.' {
      LetterFacts(s[i]);
    }
  }
}
