/** cmd/hoserva/output.go: the escaper every human-readable field goes through
    on its way to a terminal, one string at a time (EscapeText) and as a stream
    (CopyBlock). */
module TerminalEscape {
  import opened Utf8

  /** unicode.IsPrint, with the facts about ASCII the escaper relies on. */
  ghost predicate AsciiFacts(isPrint: Rune -> bool) {
    && (forall r: Rune :: 0x20 <= r < 0x7F ==> isPrint(r))
    && (forall r: Rune :: r < 0x20 || r == 0x7F ==> !isPrint(r))
  }

  const BACKSLASH: Byte := 0x5C
  const LF: Rune := 0x0A
  const TAB: Rune := 0x09
  const SPACE: Rune := 0x20

  /** One lower-case hexadecimal digit. */
  function HexDigit(d: nat): (b: Byte)
    requires d < 16
    ensures 0x30 <= b <= 0x39 || 0x61 <= b <= 0x66
  {
    if d < 10 then 0x30 + d else 0x61 + d - 10
  }

  /** The last n hexadecimal digits of v, most significant first. */
  function Hex(v: nat, n: nat): (s: Bytes)
    ensures |s| == n
  {
    if n == 0 then [] else Hex(v / 16, n - 1) + [HexDigit(v % 16)]
  }

  /** strconv.QuoteRune without its quotes, for a rune that is not printable:
      the named escapes, then \xNN, \uNNNN or \UNNNNNNNN. */
  function QuoteRune(r: Rune): (s: Bytes)
    ensures 2 <= |s| <= 10
    ensures r < 0x80 ==> |s| <= 4 || (r >= 0x20 && r != 0x7F && |s| == 6)
    ensures r < 0x10000 ==> |s| <= 6
  {
    if r == 0x07 then [BACKSLASH, 0x61]
    else if r == 0x08 then [BACKSLASH, 0x62]
    else if r == 0x0C then [BACKSLASH, 0x66]
    else if r == 0x0A then [BACKSLASH, 0x6E]
    else if r == 0x0D then [BACKSLASH, 0x72]
    else if r == 0x09 then [BACKSLASH, 0x74]
    else if r == 0x0B then [BACKSLASH, 0x76]
    else if r < 0x20 || r == 0x7F then [BACKSLASH, 0x78] + Hex(r, 2)
    else if r < 0x10000 then [BACKSLASH, 0x75] + Hex(r, 4)
    else [BACKSLASH, 0x55] + Hex(r, 8)
  }

  /** The value of hexadecimal digits. */
  function HexValue(s: Bytes): int {
    if s == [] then 0
    else
      var d := s[|s| - 1] as int;
      HexValue(s[..|s| - 1]) * 16 + (if d < 0x61 then d - 0x30 else d - 0x61 + 10)
  }

  /** What a Go rune-literal escape stands for; -1 when it is none. */
  function Unquote(s: Bytes): int {
    if |s| < 2 || s[0] != BACKSLASH then -1
    else if |s| == 2 then
      (match s[1]
       case 0x61 => 0x07
       case 0x62 => 0x08
       case 0x66 => 0x0C
       case 0x6E => 0x0A
       case 0x72 => 0x0D
       case 0x74 => 0x09
       case 0x76 => 0x0B
       case _ => -1)
    else if (s[1] == 0x78 && |s| == 4) || (s[1] == 0x75 && |s| == 6) || (s[1] == 0x55 && |s| == 10) then
      HexValue(s[2..])
    else -1
  }

  function Pow16(n: nat): nat {
    if n == 0 then 1 else 16 * Pow16(n - 1)
  }

  lemma {:induction false} HexReadsBack(v: nat, n: nat)
    requires v < Pow16(n)
    ensures HexValue(Hex(v, n)) == v
  {
    if n > 0 {
      HexReadsBack(v / 16, n - 1);
      var s := Hex(v, n);
      assert s[..n - 1] == Hex(v / 16, n - 1);
    }
  }

  /** Every escape names the character it replaced, so no two characters are
      written alike. */
  lemma QuoteReadsBack(r: Rune)
    ensures Unquote(QuoteRune(r)) == r
  {
    var n := if r < 0x20 || r == 0x7F then 2 else if r < 0x10000 then 4 else 8;
    assert Pow16(2) == 0x100 && Pow16(4) == 0x100 * Pow16(2) && Pow16(8) == 0x100 * 0x100 * Pow16(4);
    HexReadsBack(r, n);
    var s := QuoteRune(r);
    assert |s| > 2 ==> s[2..] == Hex(r, n);
  }

  /** Whether a rune reaches the terminal as it is. */
  predicate Kept(isPrint: Rune -> bool, r: Rune, keepBreaks: bool) {
    (keepBreaks && (r == LF || r == TAB)) || r == SPACE || isPrint(r)
  }

  /** appendEscapedRune: the one per-character rule. */
  function EscapedRune(isPrint: Rune -> bool, d: Decoded, first: Byte, keepBreaks: bool): Bytes {
    if d.rune == RUNE_ERROR && d.size == 1 then [BACKSLASH, 0x78] + Hex(first, 2)
    else if Kept(isPrint, d.rune, keepBreaks) then EncodeRune(d.rune)
    else QuoteRune(d.rune)
  }

  /** What escapeText returns, character by character. */
  function Escape(isPrint: Rune -> bool, s: Bytes, keepBreaks: bool): Bytes {
    if s == [] then []
    else
      var d := DecodeRune(s);
      EscapedRune(isPrint, d, s[0], keepBreaks) + Escape(isPrint, s[d.size..], keepBreaks)
  }

  /** Escaping one decided character off the front of a longer input. */
  lemma EscapeStep(isPrint: Rune -> bool, p: Bytes, rest: Bytes, keepBreaks: bool)
    requires p != [] && (FullRune(p) || rest == [])
    ensures var d := DecodeRune(p);
            Escape(isPrint, p + rest, keepBreaks) ==
            EscapedRune(isPrint, d, p[0], keepBreaks) + Escape(isPrint, p[d.size..] + rest, keepBreaks)
  {
    var d := DecodeRune(p);
    if FullRune(p) {
      FullRuneIsStable(p, rest);
    } else {
      assert p + rest == p;
    }
    assert (p + rest)[0] == p[0];
    assert (p + rest)[d.size..] == p[d.size..] + rest;
  }

  lemma NothingToEscape(isPrint: Rune -> bool, keepBreaks: bool)
    ensures Escape(isPrint, [], keepBreaks) == []
  {
  }

  /** What becomes of a character, whatever follows it: one that is printable, a
      space, or a line break or tab of a block stays; any other is replaced by
      an escape that names it, in the form that fits its value. */
  lemma EscapesACharacter(isPrint: Rune -> bool, r: Rune, s: Bytes, keepBreaks: bool) returns (q: Bytes)
    requires !Surrogate(r)
    ensures Escape(isPrint, EncodeRune(r) + s, keepBreaks) == q + Escape(isPrint, s, keepBreaks)
    ensures isPrint(r) || r == 0x20 || (keepBreaks && (r == 0x0A || r == 0x09)) ==> q == EncodeRune(r)
    ensures !(isPrint(r) || r == 0x20 || (keepBreaks && (r == 0x0A || r == 0x09))) ==>
      && Unquote(q) == r
      && |q| == if 0x07 <= r <= 0x0D then 2 else if r < 0x20 || r == 0x7F then 4 else if r < 0x10000 then 6 else 10
  {
    var e := EncodeRune(r);
    DecodeEncoded(r, s);
    assert DecodeRune(e + s) == Decoded(r, |e|);
    EncodedIsWellFormed(r);
    assert |e| == 1 ==> r < 0x80;
    q := EscapedRune(isPrint, Decoded(r, |e|), e[0], keepBreaks);
    QuoteReadsBack(r);
    assert (e + s)[0] == e[0] && (e + s)[|e|..] == s;
  }

  /** What becomes of a byte no character starts with: an escape that names it. */
  lemma EscapesAnIllFormedByte(isPrint: Rune -> bool, s: Bytes, keepBreaks: bool) returns (q: Bytes)
    requires s != [] && !WellFormed(s)
    ensures Escape(isPrint, s, keepBreaks) == q + Escape(isPrint, s[1..], keepBreaks)
    ensures |q| == 4 && q[0] == 0x5C && q[1] == 0x78 && Unquote(q) == s[0]
  {
    q := [BACKSLASH, 0x78] + Hex(s[0], 2);
    assert Pow16(2) == 0x100;
    HexReadsBack(s[0], 2);
    assert q[2..] == Hex(s[0], 2);
  }

  /** escapeText; safeText is it with keepBreaks false, safeBlock with keepBreaks true. */
  method EscapeText(isPrint: Rune -> bool, s: Bytes, keepBreaks: bool) returns (out: Bytes)
    ensures out == Escape(isPrint, s, keepBreaks)
  {
    hide *;
    out := [];
    var i := 0;
    while i < |s|
      invariant 0 <= i <= |s|
      invariant out + Escape(isPrint, s[i..], keepBreaks) == Escape(isPrint, s, keepBreaks)
    {
      ghost var p := s[i..];
      var d := DecodeRune(s[i..]);
      EscapeStep(isPrint, p, [], keepBreaks);
      assert p + [] == p && p[d.size..] + [] == s[i + d.size..];
      out := out + EscapedRune(isPrint, d, s[i], keepBreaks);
      i := i + d.size;
    }
    assert s[i..] == [];
    NothingToEscape(isPrint, keepBreaks);
  }

  // ----- what the output is -----

  /** A well-formed sequence of characters that all reach the terminal as they are. */
  ghost predicate Clean(isPrint: Rune -> bool, s: Bytes, keepBreaks: bool) {
    s == [] ||
    (&& WellFormed(s)
     && Kept(isPrint, DecodeRune(s).rune, keepBreaks)
     && Clean(isPrint, s[DecodeRune(s).size..], keepBreaks))
  }

  ghost predicate Graphic(s: Bytes) {
    forall i :: 0 <= i < |s| ==> 0x20 <= s[i] < 0x7F
  }

  lemma {:induction false} HexIsGraphic(v: nat, n: nat)
    ensures Graphic(Hex(v, n))
  {
    if n > 0 {
      HexIsGraphic(v / 16, n - 1);
    }
  }

  lemma QuoteIsGraphic(r: Rune)
    ensures Graphic(QuoteRune(r))
  {
    HexIsGraphic(r, 2);
    HexIsGraphic(r, 4);
    HexIsGraphic(r, 8);
  }

  lemma {:induction false} GraphicThenClean(isPrint: Rune -> bool, g: Bytes, s: Bytes, keepBreaks: bool)
    requires AsciiFacts(isPrint) && Graphic(g) && Clean(isPrint, s, keepBreaks)
    ensures Clean(isPrint, g + s, keepBreaks)
  {
    if g == [] {
      assert g + s == s;
    } else {
      GraphicThenClean(isPrint, g[1..], s, keepBreaks);
      assert (g + s)[1..] == g[1..] + s;
      assert (g + s)[0] == g[0];
      GraphicDecodes(g + s);
      hide DecodeRune, Graphic;
    }
  }

  lemma GraphicDecodes(s: Bytes)
    requires s != [] && Graphic(s[..1])
    ensures DecodeRune(s) == Decoded(s[0], 1) && WellFormed(s)
  {
    assert s[..1][0] == s[0];
  }

  lemma KeptThenClean(isPrint: Rune -> bool, r: Rune, s: Bytes, keepBreaks: bool)
    requires !Surrogate(r) && Kept(isPrint, r, keepBreaks) && Clean(isPrint, s, keepBreaks)
    ensures Clean(isPrint, EncodeRune(r) + s, keepBreaks)
  {
    var e := EncodeRune(r);
    DecodeEncoded(r, s);
    assert (e + s)[|e|..] == s;
    FrontIsWellFormed(e, s);
  }

  lemma FrontIsWellFormed(e: Bytes, s: Bytes)
    requires WellFormed(e)
    ensures WellFormed(e + s)
  {
    var t := e + s;
    assert t[0] == e[0];
    assert |e| > 1 ==> t[1] == e[1];
    assert |e| > 2 ==> t[2] == e[2];
    assert |e| > 3 ==> t[3] == e[3];
  }

  /** No byte sequence can put anything but printable characters, spaces and
      (when kept) line breaks and tabs on the terminal. */
  lemma {:induction false} EscapeIsClean(isPrint: Rune -> bool, s: Bytes, keepBreaks: bool)
    requires AsciiFacts(isPrint)
    ensures Clean(isPrint, Escape(isPrint, s, keepBreaks), keepBreaks)
    decreases |s|
  {
    if s != [] {
      var d := DecodeRune(s);
      var rest := Escape(isPrint, s[d.size..], keepBreaks);
      EscapeIsClean(isPrint, s[d.size..], keepBreaks);
      if d.rune == RUNE_ERROR && d.size == 1 {
        HexIsGraphic(s[0], 2);
        GraphicThenClean(isPrint, [BACKSLASH, 0x78] + Hex(s[0], 2), rest, keepBreaks);
      } else if Kept(isPrint, d.rune, keepBreaks) {
        EncodeDecoded(s);
        KeptThenClean(isPrint, d.rune, rest, keepBreaks);
      } else {
        QuoteIsGraphic(d.rune);
        GraphicThenClean(isPrint, QuoteRune(d.rune), rest, keepBreaks);
      }
    }
  }

  lemma CleanFront(isPrint: Rune -> bool, s: Bytes, keepBreaks: bool)
    requires Clean(isPrint, s, keepBreaks) && s != []
    ensures var d := DecodeRune(s);
            && EscapedRune(isPrint, d, s[0], keepBreaks) == s[..d.size]
            && Clean(isPrint, s[d.size..], keepBreaks)
  {
    EncodeDecoded(s);
  }

  /** Clean text is left exactly as it is. */
  lemma {:induction false} CleanIsFixed(isPrint: Rune -> bool, s: Bytes, keepBreaks: bool)
    requires Clean(isPrint, s, keepBreaks)
    ensures Escape(isPrint, s, keepBreaks) == s
    decreases |s|
  {
    hide *;
    if s == [] {
      NothingToEscape(isPrint, keepBreaks);
    } else {
      var d := DecodeRune(s);
      CleanFront(isPrint, s, keepBreaks);
      EscapeStep(isPrint, s, [], keepBreaks);
      assert s + [] == s && s[d.size..] + [] == s[d.size..];
      CleanIsFixed(isPrint, s[d.size..], keepBreaks);
      assert s == s[..d.size] + s[d.size..];
    }
  }

  /** Clean text holds no ASCII control byte but the line breaks and tabs kept. */
  lemma {:induction false} CleanHasNoControls(isPrint: Rune -> bool, s: Bytes, keepBreaks: bool, i: nat)
    requires AsciiFacts(isPrint) && Clean(isPrint, s, keepBreaks) && i < |s|
    ensures s[i] != 0x7F
    ensures s[i] >= 0x20 || (keepBreaks && (s[i] == LF || s[i] == TAB))
    decreases |s|
  {
    var d := DecodeRune(s);
    if i >= d.size {
      CleanHasNoControls(isPrint, s[d.size..], keepBreaks, i - d.size);
    }
  }

  /** A text is left alone exactly when it is clean; in particular escaping
      twice is escaping once. */
  lemma EscapeFixesExactlyClean(isPrint: Rune -> bool, s: Bytes, keepBreaks: bool)
    requires AsciiFacts(isPrint)
    ensures Escape(isPrint, s, keepBreaks) == s <==> Clean(isPrint, s, keepBreaks)
    ensures var once := Escape(isPrint, s, keepBreaks); Escape(isPrint, once, keepBreaks) == once
  {
    EscapeIsClean(isPrint, s, keepBreaks);
    CleanIsFixed(isPrint, Escape(isPrint, s, keepBreaks), keepBreaks);
    if Clean(isPrint, s, keepBreaks) {
      CleanIsFixed(isPrint, s, keepBreaks);
    }
  }

  /** One character never takes more than four bytes per byte it had. */
  lemma EscapedRuneSize(isPrint: Rune -> bool, s: Bytes, keepBreaks: bool)
    requires AsciiFacts(isPrint) && s != []
    ensures var d := DecodeRune(s);
            |EscapedRune(isPrint, d, s[0], keepBreaks)| <= 4 * d.size
  {
    var d := DecodeRune(s);
    if WellFormed(s) {
      EncodeDecoded(s);
    }
  }

  lemma {:induction false} EscapeSize(isPrint: Rune -> bool, s: Bytes, keepBreaks: bool)
    requires AsciiFacts(isPrint)
    ensures |Escape(isPrint, s, keepBreaks)| <= 4 * |s|
    decreases |s|
  {
    if s != [] {
      EscapedRuneSize(isPrint, s, keepBreaks);
      EscapeSize(isPrint, s[DecodeRune(s).size..], keepBreaks);
    }
  }

  // ----- the streaming form -----

  datatype End = Eof | Failed

  /** An io.Reader: the chunks its reads deliver, empty ones included, then the
      bytes that come together with its end. A chunk that does not fit the
      buffer is delivered over several reads. */
  class Reader {
    var chunks: seq<Bytes>
    var last: Bytes
    const end: End

    constructor (chunks: seq<Bytes>, last: Bytes, end: End)
      ensures this.chunks == chunks && this.last == last && this.end == end
    {
      this.chunks, this.last, this.end := chunks, last, end;
    }

    /** Everything not read yet. */
    ghost function Unread(): Bytes
      reads this
    {
      Flatten(chunks) + last
    }

    method Read(buf: array<Byte>, at: nat) returns (n: nat, stop: bool)
      requires at < buf.Length
      modifies this, buf
      ensures at + n <= buf.Length
      ensures buf[..at] == old(buf[..at])
      ensures buf[at..at + n] + Unread() == old(Unread())
      ensures stop ==> Unread() == []
      ensures !stop ==> |chunks| + |Unread()| < old(|chunks| + |Unread()|)
    {
      var piece;
      piece, stop := Take(buf.Length - at);
      n := |piece|;
      forall k | 0 <= k < n {
        buf[at + k] := piece[k];
      }
      assert buf[at..at + n] == piece;
    }

    /** What one read delivers, at most room bytes of it. */
    method Take(room: nat) returns (piece: Bytes, stop: bool)
      requires room > 0
      modifies this
      ensures |piece| <= room && piece + Unread() == old(Unread())
      ensures stop ==> Unread() == []
      ensures !stop ==> |chunks| + |Unread()| < old(|chunks| + |Unread()|)
    {
      stop := false;
      if chunks != [] {
        if |chunks[0]| <= room {
          piece, chunks := chunks[0], chunks[1..];
        } else {
          piece := chunks[0][..room];
          assert piece + chunks[0][room..] == chunks[0];
          chunks := [chunks[0][room..]] + chunks[1..];
        }
      } else if |last| <= room {
        piece, last, stop := last, [], true;
      } else {
        piece, last := last[..room], last[room..];
      }
      assert piece + Unread() == old(Unread());
    }
  }

  ghost function Flatten(chunks: seq<Bytes>): Bytes {
    if chunks == [] then [] else chunks[0] + Flatten(chunks[1..])
  }

  /** An io.Writer: a write takes all of its bytes or fails after some of them. */
  class Writer {
    var written: Bytes

    method Write(p: Bytes) returns (ok: bool)
      modifies this
      ensures ok ==> written == old(written) + p
      ensures !ok ==> old(written) <= written <= old(written) + p
    {
      if * {
        written, ok := written + p, true;
      } else {
        var k: nat :| k <= |p|;
        written, ok := written + p[..k], false;
      }
    }
  }

  datatype CopyResult = Copied | ReadFailed | WriteFailed

  /** The inner loop of copyBlock: escapes the decided characters of data, all
      of them at the end of the input, and reports how many bytes it used. */
  method EscapeDecided(isPrint: Rune -> bool, data: Bytes, end: bool, ghost rest: Bytes)
    returns (out: Bytes, i: nat)
    requires end ==> rest == []
    ensures i <= |data| <= i + 3
    ensures end ==> i == |data|
    ensures out + Escape(isPrint, data[i..] + rest, true) == Escape(isPrint, data + rest, true)
  {
    hide *;
    out, i := [], 0;
    assert data[0..] == data;
    while i < |data| && (end || FullRune(data[i..]))
      invariant i <= |data|
      invariant out + Escape(isPrint, data[i..] + rest, true) == Escape(isPrint, data + rest, true)
    {
      ghost var p := data[i..];
      var d := DecodeRune(data[i..]);
      EscapeStep(isPrint, p, rest, true);
      assert p[d.size..] == data[i + d.size..];
      out := out + EscapedRune(isPrint, d, data[i], true);
      i := i + d.size;
    }
    if i < |data| {
      UndecidedIsShort(data[i..]);
    }
  }

  /** copyBlock: what reaches w is safeBlock of everything r held, however r
      split it; a failed read still writes all that came before it, a failed
      write leaves a prefix. At most three bytes wait between reads. */
  method CopyBlock(isPrint: Rune -> bool, w: Writer, r: Reader) returns (res: CopyResult, ghost most: nat)
    modifies w, r
    ensures res != WriteFailed ==> w.written == old(w.written) + Escape(isPrint, old(r.Unread()), true)
    ensures res == Copied ==> r.end == Eof
    ensures res == ReadFailed ==> r.end == Failed
    ensures res == WriteFailed ==>
      old(w.written) <= w.written <= old(w.written) + Escape(isPrint, old(r.Unread()), true)
    ensures most <= 3
  {
    hide *;
    var buf := new Byte[0x8000];
    var held := 0;
    most := 0;
    ghost var total := old(w.written) + Escape(isPrint, r.Unread(), true);
    assert buf[..held] + r.Unread() == r.Unread();
    while true
      invariant 0 <= held <= 3 && most <= 3
      invariant old(w.written) <= w.written
      invariant w.written + Escape(isPrint, buf[..held] + r.Unread(), true) == total
      invariant fresh(buf) && buf.Length == 0x8000
      decreases |r.chunks| + |r.Unread()|
    {
      ghost var before := buf[..held] + r.Unread();
      var n, end := r.Read(buf, held);
      assert buf[..held + n] == buf[..held] + buf[held..held + n];
      assert buf[..held + n] + r.Unread() == before;
      held := held + n;
      ghost var data := buf[..held];
      var out, i := EscapeDecided(isPrint, buf[..held], end, r.Unread());
      forall k | 0 <= k < held - i {
        buf[k] := buf[i + k];
      }
      assert buf[..held - i] == data[i..];
      held := held - i;
      most := if held > most then held else most;
      if |out| > 0 {
        ghost var rest := Escape(isPrint, buf[..held] + r.Unread(), true);
        assert w.written + out + rest == total;
        var ok := w.Write(out);
        if !ok {
          return WriteFailed, most;
        }
      }
      if end {
        assert buf[..held] + r.Unread() == [];
        NothingToEscape(isPrint, true);
        return if r.end == Eof then Copied else ReadFailed, most;
      }
    }
  }
}
