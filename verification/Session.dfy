// Session tokens: a payload and its signature, both in URL-safe base64, joined by a dot
// (portal/lib/auth.ts:32-66, portal/middleware.ts:30-102). JSON, UTF-8 and HMAC-SHA-256 are
// functions about which only the stated hypotheses are used.

// The portal's comparison of signatures (portal/middleware.ts:93-102).

module ConstantTime {

  /** What one difference adds to the collected ones. */
  function Mixed(d: bv16, x: bv16, y: bv16): bv16 { d | (x ^ y) }

  lemma XorIsDifference(x: bv16, y: bv16)
    ensures x ^ y == 0 <==> x == y
  {
  }

  lemma OrIsEither(d: bv16, z: bv16)
    ensures d | z == 0 <==> d == 0 && z == 0
  {
  }

  lemma MixedIsClean(d: bv16, x: bv16, y: bv16)
    ensures Mixed(d, x, y) == 0 <==> d == 0 && x == y
  {
    XorIsDifference(x, y);
    OrIsEither(d, x ^ y);
  }

  /** constantTimeEqual on UTF-16 code units: the differences are collected bit by bit. */
  method ConstantTimeEqual(a: seq<bv16>, b: seq<bv16>) returns (equal: bool)
    ensures equal <==> a == b
  {
    hide Mixed;
    if |a| != |b| {
      return false;
    }
    var diff: bv16 := 0;
    for i := 0 to |a|
      invariant diff == 0 <==> forall j :: 0 <= j < i ==> a[j] == b[j]
    {
      MixedIsClean(diff, a[i], b[i]);
      diff := Mixed(diff, a[i], b[i]);
    }
    equal := diff == 0;
  }
}

module Session {
  import opened Basics
  import opened Base64

  datatype Payload = Payload(accessToken: Option<string>, idToken: Option<string>, tokenType: Option<string>, expiresAt: Option<int>)

  /** `stringify` is JSON.stringify followed by UTF-8, `read` undoes both; `readExpiry` parses the same bytes as
      the middleware does, one character per byte, and looks at expires_at only. */
  datatype Platform = Platform(
    mac: (string, string) -> seq<Byte>,
    stringify: Payload -> seq<Byte>,
    read: seq<Byte> -> Option<Payload>,
    readExpiry: seq<Byte> -> Option<Option<int>>)

  ghost predicate Lawful(p: Platform)
  {
    && (forall secret, text :: p.mac(secret, text) != [])
    && (forall x :: p.stringify(x) != [] && p.read(p.stringify(x)) == Some(x) && p.readExpiry(p.stringify(x)) == Some(x.expiresAt))
  }

  function UpToDot(s: string): (n: nat)
    ensures n <= |s| && '.' !in s[..n] && (n < |s| ==> s[n] == '.')
  {
    if s == "" || s[0] == '.' then 0 else 1 + UpToDot(s[1..])
  }

  /** split(".") */
  function Parts(s: string): (r: seq<string>)
    ensures r != [] && forall i :: 0 <= i < |r| ==> '.' !in r[i]
    decreases |s|
  {
    var n := UpToDot(s);
    if n == |s| then [s] else [s[..n]] + Parts(s[n + 1..])
  }

  function Sign(p: Platform, text: string, secret: string): string { EncodeURL(p.mac(secret, text)) }

  function EncodeSession(p: Platform, x: Payload, secret: string): string
  {
    var text := EncodeURL(p.stringify(x));
    text + ['.'] + Sign(p, text, secret)
  }

  function DecodeSession(p: Platform, token: string, secret: string): Option<Payload>
  {
    var parts := Parts(token);
    if |parts| < 2 || parts[0] == "" || parts[1] == "" then None
    else if parts[1] != Sign(p, parts[0], secret) then None
    else p.read(DecodeBuffer(parts[0]))
  }

  function IsValidSessionToken(p: Platform, token: string, secret: string, now: int): bool
  {
    var parts := Parts(token);
    if |parts| != 2 || parts[0] == "" || parts[1] == "" then false
    else if parts[1] != Sign(p, parts[0], secret) then false
    else
      var payload := DecodeURL(parts[0]);
      if payload.None? || payload.value == [] then false
      else
        var expiry := p.readExpiry(payload.value);
        expiry.Some? && !(expiry.value.Some? && now > expiry.value.value)
  }

  /** encodeBase64URL's loop: the binary string that btoa reads back byte by byte. */
  method BinaryString(bytes: seq<Byte>) returns (binary: string)
    ensures |binary| == |bytes| && forall i :: 0 <= i < |bytes| ==> binary[i] as int == bytes[i]
  {
    binary := "";
    for i := 0 to |bytes|
      invariant |binary| == i && forall j :: 0 <= j < i ==> binary[j] as int == bytes[j]
    {
      binary := binary + [bytes[i] as char];
    }
  }

  lemma {:induction false} UpToDotOf(a: string, rest: string)
    requires '.' !in a && (rest == "" || rest[0] == '.')
    ensures UpToDot(a + rest) == |a|
    decreases |a|
  {
    if a == "" {
      assert a + rest == rest;
    } else {
      assert (a + rest)[1..] == a[1..] + rest;
      UpToDotOf(a[1..], rest);
    }
  }

  lemma PartsOfOne(a: string)
    requires '.' !in a
    ensures Parts(a) == [a]
  {
    UpToDotOf(a, "");
    assert a + "" == a;
  }

  lemma PartsAfter(a: string, rest: string)
    requires '.' !in a
    ensures Parts(a + ['.'] + rest) == [a] + Parts(rest)
  {
    var s := a + ['.'] + rest;
    UpToDotOf(a, ['.'] + rest);
    assert s == a + (['.'] + rest);
    assert s[..|a|] == a && s[|a| + 1..] == rest;
  }

  lemma PartsOfTwo(a: string, b: string)
    requires '.' !in a && '.' !in b
    ensures Parts(a + ['.'] + b) == [a, b]
  {
    PartsOfOne(b);
    PartsAfter(a, b);
  }

  /** Every token that encodeSession makes is decoded to its payload, and the middleware accepts it exactly
      until it expires. */
  lemma IssuedTokens(p: Platform, x: Payload, secret: string, now: int)
    requires Lawful(p)
    ensures DecodeSession(p, EncodeSession(p, x, secret), secret) == Some(x)
    ensures IsValidSessionToken(p, EncodeSession(p, x, secret), secret, now) <==> !(x.expiresAt.Some? && now > x.expiresAt.value)
  {
    hide Parts, EncodeURL, DecodeURL, DecodeBuffer;
    var text := EncodeURL(p.stringify(x));
    var signature := Sign(p, text, secret);
    NoDot(p.stringify(x));
    NoDot(p.mac(secret, text));
    PartsOfTwo(text, signature);
    RoundTrip(p.stringify(x));
  }

  /** Whatever is accepted is two parts, the second of which is the signature of the first; the portal's own
      decoder then agrees on the signature. */
  lemma AcceptedIsSigned(p: Platform, token: string, secret: string, now: int)
    requires IsValidSessionToken(p, token, secret, now)
    ensures exists text :: token == text + ['.'] + Sign(p, text, secret) && text != "" && '.' !in text
    ensures DecodeSession(p, token, secret) == p.read(DecodeBuffer(Parts(token)[0]))
  {
    hide EncodeURL, DecodeURL, DecodeBuffer;
    var text := Parts(token)[0];
    TwoPartsJoin(token);
    assert token == text + ['.'] + Sign(p, text, secret);
  }

  /** Exactly which tokens the middleware accepts: a non-empty text without a dot and its signature, where the text
      decodes to bytes that parse and have not expired. */
  lemma AcceptedIff(p: Platform, token: string, secret: string, now: int)
    requires Lawful(p)
    ensures IsValidSessionToken(p, token, secret, now) <==>
              exists text :: token == text + ['.'] + Sign(p, text, secret) && text != "" && '.' !in text && Unexpired(p, DecodeURL(text), now)
  {
    hide EncodeURL, DecodeURL, DecodeBuffer, Parts;
    if IsValidSessionToken(p, token, secret, now) {
      TwoPartsJoin(token);
      var text := Parts(token)[0];
      assert token == text + ['.'] + Sign(p, text, secret) && Unexpired(p, DecodeURL(text), now);
    } else if text :| token == text + ['.'] + Sign(p, text, secret) && text != "" && '.' !in text && Unexpired(p, DecodeURL(text), now) {
      NoDot(p.mac(secret, text));
      PartsOfTwo(text, Sign(p, text, secret));
      assert false;
    }
  }

  predicate Unexpired(p: Platform, bytes: Option<seq<Byte>>, now: int)
  {
    match bytes
    case None => false
    case Some(b) => b != [] && match p.readExpiry(b) case None => false case Some(None) => true case Some(Some(at)) => now <= at
  }

  /** Exactly what decodeSession makes of a token: the payload of the text before the first dot, if the text is not empty
      and its signature follows up to the next dot or the end. */
  lemma DecodedIff(p: Platform, token: string, secret: string, x: Payload)
    requires Lawful(p)
    ensures DecodeSession(p, token, secret) == Some(x) <==>
              exists text, tail :: SignedText(p, token, secret, text, tail) && p.read(DecodeBuffer(text)) == Some(x)
  {
    hide EncodeURL, DecodeURL, DecodeBuffer, Parts;
    if DecodeSession(p, token, secret) == Some(x) {
      var text := Parts(token)[0];
      var tail := FirstTwoParts(token);
      assert SignedText(p, token, secret, text, tail);
    }
    if text, tail :| SignedText(p, token, secret, text, tail) && p.read(DecodeBuffer(text)) == Some(x) {
      NoDot(p.mac(secret, text));
      PartsUpTo(Sign(p, text, secret), tail);
      PartsAfter(text, Sign(p, text, secret) + tail);
      assert token == text + ['.'] + (Sign(p, text, secret) + tail);
    }
  }

  predicate SignedText(p: Platform, token: string, secret: string, text: string, tail: string)
  {
    && token == text + (['.'] + (Sign(p, text, secret) + tail))
    && text != "" && '.' !in text && (tail == "" || tail[0] == '.')
  }

  lemma PartsUpTo(a: string, tail: string)
    requires '.' !in a && (tail == "" || tail[0] == '.')
    ensures Parts(a + tail)[0] == a
  {
    UpToDotOf(a, tail);
    assert (a + tail)[..|a|] == a;
  }

  lemma FirstTwoParts(s: string) returns (tail: string)
    requires |Parts(s)| >= 2
    ensures (tail == "" || tail[0] == '.') && s == Parts(s)[0] + (['.'] + (Parts(s)[1] + tail))
  {
    var rest := FirstPart(s);
    tail := rest[UpToDot(rest)..];
    assert Parts(rest)[0] + tail == rest by { hide UpToDot; }
  }

  lemma FirstPart(s: string) returns (rest: string)
    requires |Parts(s)| >= 2
    ensures s == Parts(s)[0] + (['.'] + rest) && Parts(s)[1..] == Parts(rest)
  {
    hide UpToDot;
    var n := UpToDot(s);
    rest := s[n + 1..];
    assert s == s[..n] + (['.'] + rest);
  }

  lemma TwoPartsJoin(s: string)
    requires |Parts(s)| == 2
    ensures s == Parts(s)[0] + ['.'] + Parts(s)[1]
  {
    var n := UpToDot(s);
    var rest := s[n + 1..];
    assert Parts(s)[1..] == Parts(rest);
    assert |Parts(rest)| == 1;
    assert UpToDot(rest) == |rest|;
    assert s == s[..n] + ['.'] + rest;
  }

  /** decodeSession ignores what follows a second dot, the middleware rejects such a token. */
  lemma TrailingPartDiffers(p: Platform, x: Payload, secret: string, now: int, tail: string)
    requires Lawful(p)
    ensures var token := EncodeSession(p, x, secret) + ['.'] + tail;
            DecodeSession(p, token, secret) == Some(x) && !IsValidSessionToken(p, token, secret, now)
  {
    hide Parts, EncodeURL, DecodeURL, DecodeBuffer;
    var text := EncodeURL(p.stringify(x));
    var signature := Sign(p, text, secret);
    NoDot(p.stringify(x));
    NoDot(p.mac(secret, text));
    var token := EncodeSession(p, x, secret) + ['.'] + tail;
    assert token == text + ['.'] + (signature + ['.'] + tail);
    PartsAfter(signature, tail);
    PartsAfter(text, signature + ['.'] + tail);
    RoundTrip(p.stringify(x));
  }
}
