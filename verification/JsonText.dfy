/**
 JSON string literals: escaping on the way out, finding the closing quote and unescaping on the
 way in, and the UTF-8 encoding of code points.
 */
module JsonText {
  import opened Options
  import opened Ascii
  import opened Sequences

  type Byte = x: nat | x < 256
  type Bytes = seq<Byte>

  const QUOTE: Byte := 34
  const BACKSLASH: Byte := 92
  const LOWER_U: Byte := 117
  const NPOS: int := -1

  // ---- code points ----

  /** A code point as UTF-8; one beyond the Unicode range gives nothing. */
  function Utf8(cp: nat): Bytes {
    if cp < 0x80 then [cp]
    else if cp < 0x800 then [0xC0 + cp / 64, 0x80 + cp % 64]
    else if cp < 0x10000 then [0xE0 + cp / 4096, 0x80 + cp / 64 % 64, 0x80 + cp % 64]
    else if cp < 0x110000 then [0xF0 + cp / 262144, 0x80 + cp / 4096 % 64, 0x80 + cp / 64 % 64, 0x80 + cp % 64]
    else []
  }

  /** The six bits of a continuation byte. */
  function Tail(b: Byte): nat {
    b % 64
  }

  /** The bits a lead byte carries. */
  function Lead(b: Byte, n: nat): nat
    requires 1 <= n <= 4
  {
    if n == 1 then b else if n == 2 then b % 32 else if n == 3 then b % 16 else b % 8
  }

  function FromUtf8(s: Bytes): nat
    requires 1 <= |s| <= 4
  {
    var lead := Lead(s[0], |s|);
    if |s| == 1 then lead
    else if |s| == 2 then lead * 64 + Tail(s[1])
    else if |s| == 3 then (lead * 64 + Tail(s[1])) * 64 + Tail(s[2])
    else ((lead * 64 + Tail(s[1])) * 64 + Tail(s[2])) * 64 + Tail(s[3])
  }

  predicate Continues(b: Byte) {
    0x80 <= b < 0xC0
  }

  lemma {:induction false} SixBits(x: nat)
    ensures Continues(0x80 + x % 64) && Tail(0x80 + x % 64) == x % 64 && x / 64 * 64 + x % 64 == x
  {
  }

  lemma {:induction false} Nested(x: nat)
    ensures x / 4096 == x / 64 / 64 && x / 262144 == x / 64 / 64 / 64
  {
  }

  lemma {:induction false} LeadBits(x: nat)
    ensures x < 32 ==> Lead(0xC0 + x, 2) == x
    ensures x < 16 ==> Lead(0xE0 + x, 3) == x
    ensures x < 8 ==> Lead(0xF0 + x, 4) == x
  {
  }

  /** How long the sequence is that a lead byte starts. */
  function Utf8Length(lead: Byte): nat {
    if lead < 0x80 then 1 else if lead < 0xE0 then 2 else if lead < 0xF0 then 3 else 4
  }

  /** Every code point comes back from its encoding; the lead byte tells its length. */
  lemma {:induction false} Utf8RoundTrip(cp: nat)
    requires cp < 0x110000
    ensures 1 <= |Utf8(cp)| <= 4 && FromUtf8(Utf8(cp)) == cp && |Utf8(cp)| == Utf8Length(Utf8(cp)[0])
    ensures forall i :: 1 <= i < |Utf8(cp)| ==> 0x80 <= Utf8(cp)[i] <= 0xBF
  {
    if cp < 0x10000 {
      Utf8Short(cp);
    } else {
      Utf8Long(cp);
    }
    hide Utf8, FromUtf8, Utf8Length;
  }

  lemma {:induction false} Utf8Short(cp: nat)
    requires cp < 0x10000
    ensures 1 <= |Utf8(cp)| <= 4 && FromUtf8(Utf8(cp)) == cp && |Utf8(cp)| == Utf8Length(Utf8(cp)[0])
    ensures forall i :: 1 <= i < |Utf8(cp)| ==> Continues(Utf8(cp)[i])
  {
    Nested(cp);
    SixBits(cp);
    SixBits(cp / 64);
    LeadBits(if cp < 0x800 then cp / 64 else cp / 64 / 64);
    hide Tail, Lead, Continues;
  }

  lemma {:induction false} Utf8Long(cp: nat)
    requires 0x10000 <= cp < 0x110000
    ensures |Utf8(cp)| == 4 == Utf8Length(Utf8(cp)[0]) && FromUtf8(Utf8(cp)) == cp
    ensures forall i :: 1 <= i < 4 ==> Continues(Utf8(cp)[i])
  {
    Nested(cp);
    SixBits(cp);
    SixBits(cp / 64);
    SixBits(cp / 64 / 64);
    LeadBits(cp / 64 / 64 / 64);
    hide Tail, Lead, Continues;
  }

  // ---- the closing quote ----

  function FindQuote(s: Bytes, i: nat): (k: int)
    ensures k == NPOS || (i <= k < |s| && s[k] == QUOTE && forall j :: i <= j < k ==> s[j] != QUOTE)
    ensures k == NPOS ==> forall j :: i <= j < |s| ==> s[j] != QUOTE
    decreases |s| - i
  {
    if i >= |s| then NPOS else if s[i] == QUOTE then i else FindQuote(s, i + 1)
  }

  /** The backslashes directly before `k`, not looking before `i`. */
  function BackslashesBefore(s: Bytes, i: nat, k: nat): (n: nat)
    requires i <= k <= |s|
    ensures n <= k - i
    decreases k
  {
    if k > i && s[k - 1] == BACKSLASH then 1 + BackslashesBefore(s, i, k - 1) else 0
  }

  /** The next quote, or the one after it while an odd number of backslashes stands before it. */
  function ScanStringEnd(s: Bytes, i: nat): (k: int)
    ensures k == NPOS || i <= k < |s|
    decreases |s| - i
  {
    if i >= |s| then NPOS
    else
      var k := FindQuote(s, i);
      if k == NPOS then NPOS
      else if BackslashesBefore(s, i, k) % 2 == 0 then k
      else ScanStringEnd(s, k + 1)
  }

  /** The grammar's answer: read left to right, a backslash taking the next byte with it. */
  function LiteralEnd(s: Bytes, i: nat): (k: int)
    ensures k == NPOS || i <= k < |s|
    decreases |s| - i
  {
    if i >= |s| then NPOS
    else if s[i] == QUOTE then i
    else if s[i] == BACKSLASH then LiteralEnd(s, i + 2)
    else LiteralEnd(s, i + 1)
  }

  /** Reading up to a quote, every backslash pairs with the byte after it; an odd run leaves the quote escaped. */
  lemma {:induction false} ReadToQuote(s: Bytes, i: nat, k: nat)
    requires i <= k < |s| && s[k] == QUOTE && forall j :: i <= j < k ==> s[j] != QUOTE
    ensures LiteralEnd(s, i) == if BackslashesBefore(s, i, k) % 2 == 0 then k else LiteralEnd(s, k + 1)
    decreases k - i
  {
    if i < k {
      if s[i] != BACKSLASH {
        ReadToQuote(s, i + 1, k);
        RunIgnores(s, i, k);
      } else if i + 1 < k {
        ReadToQuote(s, i + 2, k);
        RunPairs(s, i, k);
      }
    }
  }

  lemma {:induction false} RunIgnores(s: Bytes, i: nat, k: nat)
    requires i < k <= |s| && s[i] != BACKSLASH
    ensures BackslashesBefore(s, i, k) == BackslashesBefore(s, i + 1, k)
    decreases k
  {
    if k > i + 1 && s[k - 1] == BACKSLASH {
      RunIgnores(s, i, k - 1);
    }
  }

  lemma {:induction false} RunPairs(s: Bytes, i: nat, k: nat)
    requires i + 1 < k <= |s| && s[i] == BACKSLASH
    ensures BackslashesBefore(s, i, k) % 2 == BackslashesBefore(s, i + 2, k) % 2
    decreases k
  {
    if k > i + 2 && s[k - 1] == BACKSLASH {
      RunPairs(s, i, k - 1);
    } else if k == i + 2 {
      assert BackslashesBefore(s, i + 2, k) == 0;
      assert BackslashesBefore(s, i, i) == 0;
      assert BackslashesBefore(s, i, i + 1) == 1;
    }
  }

  lemma {:induction false} NoQuoteNoEnd(s: Bytes, i: nat)
    requires forall j :: i <= j < |s| ==> s[j] != QUOTE
    ensures LiteralEnd(s, i) == NPOS
    decreases |s| - i
  {
    if i < |s| {
      NoQuoteNoEnd(s, if s[i] == BACKSLASH then i + 2 else i + 1);
    }
  }

  /** Counting backslashes backwards from a quote finds the end the grammar gives, for every input. */
  lemma {:induction false} ScanIsLiteralEnd(s: Bytes, i: nat)
    ensures ScanStringEnd(s, i) == LiteralEnd(s, i)
    decreases |s| - i
  {
    if i < |s| {
      var k := FindQuote(s, i);
      if k == NPOS {
        NoQuoteNoEnd(s, i);
      } else {
        ReadToQuote(s, i, k);
        ScanIsLiteralEnd(s, k + 1);
      }
    }
  }

  // ---- escaping and unescaping ----

  function HexChar(d: nat): Byte
    requires d < 16
  {
    if d < 10 then 48 + d else 87 + d
  }

  function HexValue(b: Byte): Option<nat> {
    HexDigit(b as nat as char)
  }

  function EscapeByte(c: Byte): Bytes {
    if c == QUOTE then [BACKSLASH, QUOTE]
    else if c == BACKSLASH then [BACKSLASH, BACKSLASH]
    else if c == 10 then [BACKSLASH, 110]
    else if c == 13 then [BACKSLASH, 114]
    else if c == 9 then [BACKSLASH, 116]
    else if c == 8 then [BACKSLASH, 98]
    else if c == 12 then [BACKSLASH, 102]
    else if c < 0x20 then [BACKSLASH, LOWER_U, 48, 48, HexChar(c / 16), HexChar(c % 16)]
    else [c]
  }

  function Escape(s: Bytes): Bytes {
    if s == [] then [] else EscapeByte(s[0]) + Escape(s[1..])
  }

  /** Four hexadecimal digits. */
  function Hex4(raw: Bytes, at: nat): (v: Option<nat>)
    ensures v.Some? ==> at + 4 <= |raw| && v.value < 0x10000
  {
    if at + 4 > |raw| then None
    else
      match (HexValue(raw[at]), HexValue(raw[at + 1]), HexValue(raw[at + 2]), HexValue(raw[at + 3]))
      case (Some(a), Some(b), Some(c), Some(d)) =>
        assert a < 16 && b < 16 && c < 16 && d < 16;
        Some(((a * 16 + b) * 16 + c) * 16 + d)
      case _ => None
  }

  predicate High(cp: nat) {
    0xD800 <= cp <= 0xDBFF
  }

  predicate Low(cp: nat) {
    0xDC00 <= cp <= 0xDFFF
  }

  function Pair(hi: nat, lo: nat): nat
    requires High(hi) && Low(lo)
  {
    0x10000 + (hi - 0xD800) * 1024 + (lo - 0xDC00)
  }

  /** The code point after a "\\u" whose digits start at `at`, and where it ends: a surrogate pair is joined. */
  function CodePoint(raw: Bytes, at: nat): (r: (nat, nat))
    requires Hex4(raw, at).Some?
    ensures at < r.1 <= |raw|
  {
    var cp := Hex4(raw, at).value;
    var i := at + 4;
    if High(cp) && i + 2 <= |raw| && raw[i] == BACKSLASH && raw[i + 1] == LOWER_U
       && Hex4(raw, i + 2).Some? && Low(Hex4(raw, i + 2).value) then
      (Pair(cp, Hex4(raw, i + 2).value), i + 6)
    else (cp, i)
  }

  function Simple(e: Byte): Byte {
    if e == 110 then 10 else if e == 116 then 9 else if e == 114 then 13 else if e == 98 then 8
    else if e == 102 then 12 else e
  }

  function Unescape(raw: Bytes, i: nat): Bytes
    decreases |raw| - i
  {
    if i >= |raw| then []
    else if raw[i] != BACKSLASH || i + 1 >= |raw| then [raw[i]] + Unescape(raw, i + 1)
    else if raw[i + 1] != LOWER_U then [Simple(raw[i + 1])] + Unescape(raw, i + 2)
    else if Hex4(raw, i + 2).None? then [63] + Unescape(raw, i + 2)
    else
      var (cp, next) := CodePoint(raw, i + 2);
      Utf8(cp) + Unescape(raw, next)
  }

  /** The two-character escapes of RFC 8259 section 7 stand for the characters it says, any other for itself. */
  lemma {:induction false} StandardEscapes(e: Byte)
    ensures e == 'b' as int ==> Simple(e) == '\U{8}' as int
    ensures e == 't' as int ==> Simple(e) == '\t' as int
    ensures e == 'n' as int ==> Simple(e) == '\n' as int
    ensures e == 'f' as int ==> Simple(e) == '\U{C}' as int
    ensures e == 'r' as int ==> Simple(e) == '\r' as int
    ensures (forall i :: 0 <= i < 5 ==> e != "btnfr"[i] as int) ==> Simple(e) == e
    ensures e != LOWER_U ==> Unescape([BACKSLASH, e], 0) == [Simple(e)]
  {
    assert "btnfr"[0] == 'b' && "btnfr"[1] == 't' && "btnfr"[2] == 'n' && "btnfr"[3] == 'f' && "btnfr"[4] == 'r';
    assert Unescape([BACKSLASH, e], 2) == [];
  }

  /** Escaped text has no control characters. */
  lemma {:induction false} NoControls(s: Bytes)
    ensures forall i :: 0 <= i < |Escape(s)| ==> Escape(s)[i] >= 0x20
  {
    if s != [] {
      NoControls(s[1..]);
      assert forall i :: 0 <= i < |EscapeByte(s[0])| ==> EscapeByte(s[0])[i] >= 0x20;
      hide EscapeByte;
    }
  }

  /** A "\\u" without four digits gives a question mark, and reading goes on behind it. */
  lemma {:induction false} UnreadableEscape(raw: Bytes, i: nat)
    requires i + 1 < |raw| && raw[i] == BACKSLASH && raw[i + 1] == 'u' as int
    requires i + 6 > |raw| || HexValue(raw[i + 2]).None? || HexValue(raw[i + 3]).None? || HexValue(raw[i + 4]).None?
             || HexValue(raw[i + 5]).None?
    ensures Unescape(raw, i) == ['?' as int] + Unescape(raw, i + 2)
  {
    hide HexValue;
  }

  lemma {:induction false} HexRoundTrip(d: nat)
    requires d < 16
    ensures HexValue(HexChar(d)) == Some(d) && HexChar(d) != QUOTE && HexChar(d) != BACKSLASH
  {
  }

  lemma {:induction false} UnescapeByte(raw: Bytes, c: Byte, i: nat)
    requires At(raw, EscapeByte(c), i)
    ensures Unescape(raw, i) == [c] + Unescape(raw, i + |EscapeByte(c)|)
  {
    hide Unescape, At, EscapeByte;
    if |EscapeByte(c)| > 2 {
      UnescapeControl(raw, c, i);
    } else {
      UnescapeSimple(raw, c, i);
    }
  }

  lemma {:induction false} UnescapePlain(raw: Bytes, i: nat)
    requires i < |raw| && raw[i] != BACKSLASH
    ensures Unescape(raw, i) == [raw[i]] + Unescape(raw, i + 1)
  {
    hide Hex4, CodePoint, Utf8, Simple;
  }

  lemma {:induction false} UnescapePair(raw: Bytes, i: nat)
    requires i + 1 < |raw| && raw[i] == BACKSLASH && raw[i + 1] != LOWER_U
    ensures Unescape(raw, i) == [Simple(raw[i + 1])] + Unescape(raw, i + 2)
  {
    hide Hex4, CodePoint, Utf8, Simple;
  }

  lemma {:induction false} UnescapeSimple(raw: Bytes, c: Byte, i: nat)
    requires At(raw, EscapeByte(c), i) && |EscapeByte(c)| <= 2
    ensures Unescape(raw, i) == [c] + Unescape(raw, i + |EscapeByte(c)|)
  {
    hide Unescape, HexChar;
    var e := EscapeByte(c);
    assert raw[i + 0] == e[0];
    if |e| > 1 {
      assert raw[i + 1] == e[1];
      UnescapePair(raw, i);
    } else {
      UnescapePlain(raw, i);
    }
  }

  lemma {:induction false} UnescapeControl(raw: Bytes, c: Byte, i: nat)
    requires At(raw, EscapeByte(c), i) && |EscapeByte(c)| > 2
    ensures |EscapeByte(c)| == 6 && Unescape(raw, i) == [c] + Unescape(raw, i + 6)
  {
    var e := EscapeByte(c);
    assert raw[i + 0] == e[0] && raw[i + 1] == e[1] && raw[i + 2] == e[2] && raw[i + 3] == e[3]
           && raw[i + 4] == e[4] && raw[i + 5] == e[5];
    HexRoundTrip(c / 16);
    HexRoundTrip(c % 16);
    hide HexValue, HexChar;
    ZeroIsHex();
    assert Hex4(raw, i + 2) == Some(c / 16 * 16 + c % 16);
  }

  lemma {:induction false} ZeroIsHex()
    ensures HexValue(48) == Some(0)
  {
  }

  lemma {:induction false} UnescapeAt(raw: Bytes, s: Bytes, i: nat)
    requires At(raw, Escape(s), i) && i + |Escape(s)| == |raw|
    ensures Unescape(raw, i) == s
    decreases |s|
  {
    hide At, EscapeByte;
    if s != [] {
      AtConcat(raw, EscapeByte(s[0]), Escape(s[1..]), i);
      hide Unescape;
      UnescapeByte(raw, s[0], i);
      UnescapeAt(raw, s[1..], i + |EscapeByte(s[0])|);
    }
  }

  /** Unescaping what was escaped gives every byte string back. */
  lemma {:induction false} EscapeRoundTrip(s: Bytes)
    ensures Unescape(Escape(s), 0) == s
  {
    UnescapeAt(Escape(s), s, 0);
  }

  lemma {:induction false} PlainRead(raw: Bytes, i: nat, n: nat)
    requires i + n <= |raw| && forall j :: i <= j < i + n ==> raw[j] != QUOTE && raw[j] != BACKSLASH
    ensures LiteralEnd(raw, i) == LiteralEnd(raw, i + n)
    decreases n
  {
    if n > 0 {
      PlainRead(raw, i + 1, n - 1);
    }
  }

  lemma {:induction false} ReadEscapedByte(raw: Bytes, c: Byte, i: nat)
    requires At(raw, EscapeByte(c), i)
    ensures LiteralEnd(raw, i) == LiteralEnd(raw, i + |EscapeByte(c)|)
  {
    var e := EscapeByte(c);
    assert raw[i + 0] == e[0];
    if |e| > 2 {
      HexRoundTrip(c / 16);
      HexRoundTrip(c % 16);
      hide HexChar;
      forall j | i + 2 <= j < i + 6 ensures raw[j] != QUOTE && raw[j] != BACKSLASH {
        assert raw[i + (j - i)] == e[j - i];
      }
      PlainRead(raw, i + 2, 4);
    }
  }

  lemma {:induction false} ReadEscaped(raw: Bytes, s: Bytes, i: nat)
    requires At(raw, Escape(s), i)
    ensures LiteralEnd(raw, i) == LiteralEnd(raw, i + |Escape(s)|)
    decreases |s|
  {
    hide At, EscapeByte, LiteralEnd;
    if s != [] {
      AtConcat(raw, EscapeByte(s[0]), Escape(s[1..]), i);
      ReadEscapedByte(raw, s[0], i);
      ReadEscaped(raw, s[1..], i + |EscapeByte(s[0])|);
    }
  }

  /** An escaped string with a quote and anything after it ends exactly at that quote. */
  lemma {:induction false} EscapedEndsAtQuote(before: Bytes, s: Bytes, rest: Bytes)
    ensures ScanStringEnd(before + Escape(s) + [QUOTE] + rest, |before|) == |before| + |Escape(s)|
  {
    var raw := before + Escape(s) + [QUOTE] + rest;
    assert At(raw, Escape(s), |before|);
    assert raw[|before| + |Escape(s)|] == QUOTE;
    hide Escape, At, LiteralEnd, ScanStringEnd;
    ScanIsLiteralEnd(raw, |before|);
    ReadEscaped(raw, s, |before|);
    EndsHere(raw, |before| + |Escape(s)|);
  }

  lemma {:induction false} EndsHere(s: Bytes, i: nat)
    requires i < |s| && s[i] == QUOTE
    ensures LiteralEnd(s, i) == i
  {
  }

  // ---- escaped code points ----

  function Hex4Text(v: nat): Bytes
    requires v < 0x10000
  {
    [HexChar(v / 4096), HexChar(v / 256 % 16), HexChar(v / 16 % 16), HexChar(v % 16)]
  }

  function UnitEscape(v: nat): Bytes
    requires v < 0x10000
  {
    [BACKSLASH, LOWER_U] + Hex4Text(v)
  }

  /** A code point written with "\\u" escapes, beyond the basic plane as a surrogate pair. */
  function CodePointEscape(cp: nat): Bytes
    requires cp < 0x110000
  {
    if cp < 0x10000 then UnitEscape(cp)
    else UnitEscape(0xD800 + (cp - 0x10000) / 1024) + UnitEscape(0xDC00 + (cp - 0x10000) % 1024)
  }

  lemma {:induction false} Digits16(v: nat)
    requires v < 0x10000
    ensures v / 4096 < 16 && ((v / 4096 * 16 + v / 256 % 16) * 16 + v / 16 % 16) * 16 + v % 16 == v
  {
  }

  lemma {:induction false} Hex4Reads(raw: Bytes, v: nat, at: nat)
    requires v < 0x10000 && At(raw, Hex4Text(v), at)
    ensures Hex4(raw, at) == Some(v)
  {
    Digits16(v);
    var t := Hex4Text(v);
    assert raw[at + 0] == t[0] && raw[at + 1] == t[1] && raw[at + 2] == t[2] && raw[at + 3] == t[3];
    HexRoundTrip(v / 4096);
    HexRoundTrip(v / 256 % 16);
    HexRoundTrip(v / 16 % 16);
    HexRoundTrip(v % 16);
    hide HexValue, HexChar;
  }

  lemma {:induction false} UnitReads(raw: Bytes, v: nat, i: nat)
    requires v < 0x10000 && At(raw, UnitEscape(v), i)
    ensures i + 6 <= |raw| && raw[i] == BACKSLASH && raw[i + 1] == LOWER_U && Hex4(raw, i + 2) == Some(v)
  {
    var u := UnitEscape(v);
    assert raw[i + 0] == u[0] && raw[i + 1] == u[1];
    AtConcat(raw, [BACKSLASH, LOWER_U], Hex4Text(v), i);
    Hex4Reads(raw, v, i + 2);
  }

  lemma {:induction false} PairIs(cp: nat)
    requires 0x10000 <= cp < 0x110000
    ensures var hi, lo := 0xD800 + (cp - 0x10000) / 1024, 0xDC00 + (cp - 0x10000) % 1024;
            High(hi) && Low(lo) && hi < 0x10000 && lo < 0x10000 && Pair(hi, lo) == cp
  {
  }

  /** Every Unicode scalar value written as "\\u" escapes is read as its UTF-8 encoding. */
  lemma {:induction false} CodePointRead(raw: Bytes, cp: nat, i: nat)
    requires cp < 0x110000 && !High(cp) && !Low(cp) && At(raw, CodePointEscape(cp), i)
    ensures Unescape(raw, i) == Utf8(cp) + Unescape(raw, i + |CodePointEscape(cp)|)
  {
    if cp < 0x10000 {
      UnitReads(raw, cp, i);
      UnitRead(raw, cp, i);
    } else {
      PairRead(raw, cp, i);
    }
    hide *;
  }

  lemma {:induction false} UnitRead(raw: Bytes, cp: nat, i: nat)
    requires i + 6 <= |raw| && raw[i] == BACKSLASH && raw[i + 1] == LOWER_U && Hex4(raw, i + 2) == Some(cp) && !High(cp)
    ensures Unescape(raw, i) == Utf8(cp) + Unescape(raw, i + 6)
  {
    hide High, Pair, Utf8, Hex4;
  }

  lemma {:induction false} PairRead(raw: Bytes, cp: nat, i: nat)
    requires 0x10000 <= cp < 0x110000 && At(raw, CodePointEscape(cp), i)
    ensures Unescape(raw, i) == Utf8(cp) + Unescape(raw, i + 12)
  {
    var hi, lo := 0xD800 + (cp - 0x10000) / 1024, 0xDC00 + (cp - 0x10000) % 1024;
    PairIs(cp);
    AtConcat(raw, UnitEscape(hi), UnitEscape(lo), i);
    hide High, Low, Pair, Utf8, Hex4, At;
    UnitReads(raw, hi, i);
    UnitReads(raw, lo, i + 6);
    PairUnfolds(raw, hi, lo, i);
  }

  lemma {:induction false} PairUnfolds(raw: Bytes, hi: nat, lo: nat, i: nat)
    requires High(hi) && Low(lo) && i + 12 <= |raw|
    requires raw[i] == raw[i + 6] == BACKSLASH && raw[i + 1] == raw[i + 7] == LOWER_U
    requires Hex4(raw, i + 2) == Some(hi) && Hex4(raw, i + 8) == Some(lo)
    ensures Unescape(raw, i) == Utf8(Pair(hi, lo)) + Unescape(raw, i + 12)
  {
    hide High, Low, Pair, Utf8, Hex4;
  }

  // ---- the loops ----

  /** Appends the escaped text to `out`. */
  method AppendEscaped(out0: Bytes, s: Bytes) returns (out: Bytes)
    ensures out == out0 + Escape(s)
  {
    out := out0;
    assert s[..0] == [] && Escape([]) == [] && out0 + [] == out0;
    for i := 0 to |s|
      invariant out == out0 + Escape(s[..i])
    {
      var c := s[i];
      EscapeAppends(s[..i], c);
      assert s[..i + 1] == s[..i] + [c];
      out := out + EscapeByte(c);
    }
    assert s[..|s|] == s;
  }

  lemma {:induction false} EscapeAppends(s: Bytes, c: Byte)
    ensures Escape(s + [c]) == Escape(s) + EscapeByte(c)
    decreases |s|
  {
    hide EscapeByte;
    if s == [] {
      assert [] + [c] == [c] && [c][1..] == [];
    } else {
      EscapeAppends(s[1..], c);
      assert (s + [c])[1..] == s[1..] + [c];
    }
  }

  /** Finds the closing quote: the next quote, its backslashes counted backwards. */
  method FindStringEnd(s: Bytes, start: nat) returns (k: int)
    ensures k == LiteralEnd(s, start)
  {
    ScanIsLiteralEnd(s, start);
    var i := start;
    hide LiteralEnd;
    while i < |s|
      invariant ScanStringEnd(s, i) == LiteralEnd(s, start)
    {
      k := FindQuote(s, i);
      if k == NPOS {
        return NPOS;
      }
      var bs: nat := 0;
      while k - bs > i && s[k - bs - 1] == BACKSLASH
        invariant bs <= k - i
        invariant BackslashesBefore(s, i, k) == bs + BackslashesBefore(s, i, k - bs)
      {
        bs := bs + 1;
      }
      if bs % 2 == 0 {
        return k;
      }
      i := k + 1;
    }
    return NPOS;
  }

  /** Decodes a raw literal from left to right. */
  method UnescapeText(raw: Bytes) returns (out: Bytes)
    ensures out == Unescape(raw, 0)
  {
    out := [];
    var i: nat := 0;
    hide Hex4, Simple, Utf8;
    while i < |raw|
      invariant out + Unescape(raw, i) == Unescape(raw, 0)
      decreases |raw| - i
    {
      var c := raw[i];
      if c != BACKSLASH || i + 1 >= |raw| {
        Shift(out, [c], Unescape(raw, i + 1));
        out := out + [c];
        i := i + 1;
      } else if raw[i + 1] != LOWER_U {
        Shift(out, [Simple(raw[i + 1])], Unescape(raw, i + 2));
        out := out + [Simple(raw[i + 1])];
        i := i + 2;
      } else if Hex4(raw, i + 2).None? {
        Shift(out, [63], Unescape(raw, i + 2));
        out := out + [63];
        i := i + 2;
      } else {
        var cp, next := ReadCodePoint(raw, i + 2);
        Shift(out, Utf8(cp), Unescape(raw, next));
        out := out + Utf8(cp);
        i := next;
      }
    }
  }

  lemma {:induction false} Shift(out: Bytes, x: Bytes, rest: Bytes)
    ensures out + (x + rest) == (out + x) + rest
  {
  }

  method ReadCodePoint(raw: Bytes, at: nat) returns (cp: nat, next: nat)
    requires Hex4(raw, at).Some?
    ensures (cp, next) == CodePoint(raw, at)
  {
    cp, next := Hex4(raw, at).value, at + 4;
    if High(cp) && next + 2 <= |raw| && raw[next] == BACKSLASH && raw[next + 1] == LOWER_U {
      var lo := Hex4(raw, next + 2);
      if lo.Some? && Low(lo.value) {
        cp := Pair(cp, lo.value);
        next := next + 6;
      }
    }
  }
}
