/** The part of Go's unicode/utf8 the terminal escaper rests on: decoding one
    rune from the front of a byte sequence, telling whether the bytes at hand
    already decide that rune, and encoding a rune. The byte ranges are those of
    section 4 of RFC 3629. */
module Utf8 {
  type Byte = b: int | 0 <= b < 256
  type Bytes = seq<Byte>
  type Rune = r: int | 0 <= r <= 0x10FFFF

  const RUNE_ERROR: Rune := 0xFFFD

  /** A decoded rune and the number of bytes it took. */
  datatype Decoded = Decoded(rune: Rune, size: nat)

  /** Bytes announced by a leading byte; 0 for a byte no character starts with. */
  function Width(b: Byte): nat {
    if b < 0x80 then 1
    else if b < 0xC2 then 0
    else if b < 0xE0 then 2
    else if b < 0xF0 then 3
    else if b < 0xF5 then 4
    else 0
  }

  predicate Continuation(b: Byte) {
    0x80 <= b <= 0xBF
  }

  /** The second-byte range of a leading byte: overlong forms, surrogates and
      values past U+10FFFF are excluded here. */
  predicate SecondOk(lead: Byte, b: Byte) {
    && (if lead == 0xE0 then 0xA0 else if lead == 0xF0 then 0x90 else 0x80) <= b
    && b <= (if lead == 0xED then 0x9F else if lead == 0xF4 then 0x8F else 0xBF)
  }

  /** Whether p starts with one whole well-formed character. */
  predicate WellFormed(p: Bytes) {
    && |p| >= 1
    && var w := Width(p[0]);
    && w != 0
    && |p| >= w
    && (w >= 2 ==> SecondOk(p[0], p[1]))
    && (w >= 3 ==> Continuation(p[2]))
    && (w >= 4 ==> Continuation(p[3]))
  }

  /** The six payload bits of the continuation byte at i. */
  function Tail(p: Bytes, i: nat): int
    requires i < |p|
  {
    p[i] as int - 0x80
  }

  /** The payload bits of a leading byte whose marker is base. */
  function Head(p: Bytes, base: int): int
    requires p != []
  {
    p[0] as int - base
  }

  /** The value of the well-formed character at the front of p. */
  function Value(p: Bytes): Rune
    requires WellFormed(p)
  {
    var w := Width(p[0]);
    if w == 1 then p[0]
    else if w == 2 then Head(p, 0xC0) * 0x40 + Tail(p, 1)
    else if w == 3 then Head(p, 0xE0) * 0x1000 + Tail(p, 1) * 0x40 + Tail(p, 2)
    else Head(p, 0xF0) * 0x40000 + Tail(p, 1) * 0x1000 + Tail(p, 2) * 0x40 + Tail(p, 3)
  }

  /** utf8.DecodeRune: an ill-formed front is RUNE_ERROR of width 1. */
  function DecodeRune(p: Bytes): (d: Decoded)
    ensures p != [] ==> 1 <= d.size <= |p| && d.size <= 4
  {
    if p == [] then Decoded(RUNE_ERROR, 0)
    else if WellFormed(p) then Decoded(Value(p), Width(p[0]))
    else Decoded(RUNE_ERROR, 1)
  }

  /** utf8.FullRune: p begins with a full character, or with bytes that can no
      longer become one. */
  predicate FullRune(p: Bytes) {
    if p == [] then false
    else if |p| >= Width(p[0]) then true
    else if |p| > 1 && !SecondOk(p[0], p[1]) then true
    else |p| > 2 && !Continuation(p[2])
  }

  predicate Surrogate(r: Rune) {
    0xD800 <= r <= 0xDFFF
  }

  /** utf8.AppendRune's bytes. */
  function EncodeRune(r: Rune): (p: Bytes)
    ensures 1 <= |p| <= 4
  {
    if r < 0x80 then [r]
    else if r < 0x800 then [0xC0 + r / 0x40, 0x80 + r % 0x40]
    else if Surrogate(r) then [0xEF, 0xBF, 0xBD]
    else if r < 0x10000 then [0xE0 + r / 0x1000, 0x80 + r / 0x40 % 0x40, 0x80 + r % 0x40]
    else [0xF0 + r / 0x40000, 0x80 + r / 0x1000 % 0x40, 0x80 + r / 0x40 % 0x40, 0x80 + r % 0x40]
  }

  /** A full rune decodes the same whatever bytes follow it. */
  lemma FullRuneIsStable(p: Bytes, q: Bytes)
    requires FullRune(p)
    ensures DecodeRune(p + q) == DecodeRune(p)
  {
    var s := p + q;
    assert s[0] == p[0];
    assert |p| > 1 ==> s[1] == p[1];
    assert |p| > 2 ==> s[2] == p[2];
    assert |p| > 3 ==> s[3] == p[3];
  }

  /** Bytes that do not yet decide a character are at most three, and some
      continuation of them is a well-formed character. */
  lemma UndecidedIsShort(p: Bytes)
    requires p != [] && !FullRune(p)
    ensures |p| <= 3
    ensures exists q: Bytes :: |p + q| <= 4 && WellFormed(p + q)
  {
    var lead := p[0];
    var second: Byte := if lead == 0xE0 then 0xA0 else if lead == 0xF0 then 0x90 else 0x80;
    var rest: Bytes := [second, 0x80, 0x80][|p| - 1..Width(lead) - 1];
    var s := p + rest;
    assert s[0] == lead;
    assert s[1] == if |p| > 1 then p[1] else second;
    assert WellFormed(s);
  }

  lemma EncodedIsWellFormed(r: Rune)
    requires !Surrogate(r)
    ensures WellFormed(EncodeRune(r)) && Value(EncodeRune(r)) == r
    ensures Width(EncodeRune(r)[0]) == |EncodeRune(r)|
  {
    if 0x10000 <= r {
      SplitQuad(r);
    } else if 0x800 <= r {
      assert r / 0x40 / 0x40 == r / 0x1000;
    }
  }

  /** Decoding what was encoded gives the rune back, with its whole width,
      whatever follows it. */
  lemma DecodeEncoded(r: Rune, q: Bytes)
    requires !Surrogate(r)
    ensures DecodeRune(EncodeRune(r) + q) == Decoded(r, |EncodeRune(r)|)
    ensures WellFormed(EncodeRune(r))
  {
    hide EncodeRune, Value;
    EncodedIsWellFormed(r);
    FullRuneIsStable(EncodeRune(r), q);
  }

  lemma SplitQuad(r: int)
    requires 0 <= r
    ensures r == r / 0x40000 * 0x40000 + r / 0x1000 % 0x40 * 0x1000 + r / 0x40 % 0x40 * 0x40 + r % 0x40
  {
    assert r / 0x40 / 0x40 == r / 0x1000;
    assert r / 0x1000 / 0x40 == r / 0x40000;
  }

  /** Reading back the digits of a number written in base 0x40. */
  lemma Digits(hi: int, lo: int)
    requires 0 <= hi && 0 <= lo < 0x40
    ensures (hi * 0x40 + lo) / 0x40 == hi && (hi * 0x40 + lo) % 0x40 == lo
  {
  }

  lemma Digits3(a: int, b: int, c: int)
    requires 0 <= a && 0 <= b < 0x40 && 0 <= c < 0x40
    ensures var v := a * 0x1000 + b * 0x40 + c;
            v / 0x1000 == a && v / 0x40 % 0x40 == b && v % 0x40 == c && v / 0x40 == a * 0x40 + b
  {
    Digits(a * 0x40 + b, c);
    Digits(a, b);
  }

  /** Encoding what was decoded gives the bytes back. */
  lemma EncodeDecoded(p: Bytes)
    requires WellFormed(p)
    ensures var d := DecodeRune(p); EncodeRune(d.rune) == p[..d.size] && !Surrogate(d.rune)
  {
    var w := Width(p[0]);
    if w == 2 {
      Digits(Head(p, 0xC0), Tail(p, 1));
    } else if w == 3 {
      EncodeTriple(p);
    } else if w == 4 {
      EncodeQuad(p);
    }
  }

  lemma EncodeTriple(p: Bytes)
    requires WellFormed(p) && Width(p[0]) == 3
    ensures EncodeRune(Value(p)) == p[..3] && !Surrogate(Value(p))
  {
    Digits3(Head(p, 0xE0), Tail(p, 1), Tail(p, 2));
  }

  lemma EncodeQuad(p: Bytes)
    requires WellFormed(p) && Width(p[0]) == 4
    ensures EncodeRune(Value(p)) == p[..4] && Value(p) >= 0x10000
  {
    var a, b, c, d := Head(p, 0xF0), Tail(p, 1), Tail(p, 2), Tail(p, 3);
    Digits(a * 0x1000 + b * 0x40 + c, d);
    Digits3(a, b, c);
    var v := Value(p);
    assert v / 0x1000 == v / 0x40 / 0x40;
    assert v / 0x40000 == v / 0x40 / 0x1000;
  }

  /** The decoder accepts exactly the encodings of Unicode scalar values. */
  lemma AcceptsExactlyEncodings(p: Bytes)
    ensures WellFormed(p) <==> exists r: Rune :: !Surrogate(r) && EncodeRune(r) <= p
  {
    if WellFormed(p) {
      EncodeDecoded(p);
    }
    if r: Rune :| !Surrogate(r) && EncodeRune(r) <= p {
      var e := EncodeRune(r);
      DecodeEncoded(r, p[|e|..]);
      assert e + p[|e|..] == p;
      assert p[0] == e[0];
    }
  }
}
