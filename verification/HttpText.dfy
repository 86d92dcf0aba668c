/**
 The text helpers of the HTTP client: substring search, trimming, case-insensitive comparison
 and integer parsing. Characters stand for bytes.
 */
module HttpText {
  import opened Options
  import opened Ascii
  import opened Sequences

  const CRLF: string := "\r\n"

  /** The first occurrence of `pat` at or after `from`, -1 when there is none. */
  function Find(s: string, pat: string, from: nat): (r: int)
    ensures r == -1 || (from <= r && r + |pat| <= |s| && At(s, pat, r))
    ensures forall i: nat :: from <= i && (r == -1 || i < r) ==> !At(s, pat, i)
    decreases |s| - from
  {
    if from + |pat| > |s| then -1
    else if At(s, pat, from) then from
    else Find(s, pat, from + 1)
  }

  lemma {:induction false} FindIs(s: string, pat: string, from: nat, r: nat)
    requires from <= r && At(s, pat, r) && forall i: nat :: from <= i < r ==> !At(s, pat, i)
    ensures Find(s, pat, from) == r
  {
  }

  lemma {:induction false} AtGrows(a: string, b: string, pat: string, i: nat)
    requires a <= b
    ensures At(a, pat, i) ==> At(b, pat, i)
    ensures At(b, pat, i) && i + |pat| <= |a| ==> At(a, pat, i)
  {
    assert forall k :: 0 <= k < |a| ==> a[k] == b[k];
  }

  /** A hit stays the first hit when the buffer grows; after a miss only the unseen tail need be searched. */
  lemma {:induction false} FindGrows(a: string, b: string, pat: string, from: nat)
    requires a <= b
    ensures Find(a, pat, from) >= 0 ==> Find(b, pat, from) == Find(a, pat, from)
    ensures Find(a, pat, from) < 0 ==> forall from': nat :: from <= from' && from' + |pat| <= |a| + 1
                                         ==> Find(b, pat, from') == Find(b, pat, from)
  {
    var r := Find(a, pat, from);
    if r >= 0 {
      AtGrows(a, b, pat, r);
      forall i: nat | from <= i < r ensures !At(b, pat, i) {
        AtGrows(a, b, pat, i);
      }
      FindIs(b, pat, from, r);
    } else {
      forall from': nat | from <= from' && from' + |pat| <= |a| + 1 ensures Find(b, pat, from') == Find(b, pat, from) {
        FindSkips(a, b, pat, from, from');
      }
    }
  }

  lemma {:induction false} FindSkips(a: string, b: string, pat: string, from: nat, from': nat)
    requires a <= b && Find(a, pat, from) < 0 && from <= from' && from' + |pat| <= |a| + 1
    ensures Find(b, pat, from') == Find(b, pat, from)
    decreases from' - from
  {
    if from < from' {
      AtGrows(a, b, pat, from);
      assert !At(a, pat, from);
      FindSkips(a, b, pat, from + 1, from');
    }
  }

  // ---- the ASCII helpers (C locale) ----

  predicate IsSpace(c: char) {
    c == ' ' || c == '\t' || c == '\n' || c == '\r' || c as int == 12 || c as int == 11
  }

  function TrimLeft(s: string): string {
    if s != [] && IsSpace(s[0]) then TrimLeft(s[1..]) else s
  }

  function TrimRight(s: string): string {
    if s != [] && IsSpace(s[|s| - 1]) then TrimRight(s[..|s| - 1]) else s
  }

  function Trim(s: string): string {
    TrimRight(TrimLeft(s))
  }

  predicate IEquals(a: string, b: string) {
    |a| == |b| && forall i :: 0 <= i < |a| ==> ToLower(a[i]) == ToLower(b[i])
  }

  predicate IStartsWith(s: string, prefix: string) {
    |s| >= |prefix| && IEquals(s[..|prefix|], prefix)
  }

  function Lower(s: string): string {
    seq(|s|, i requires 0 <= i < |s| => ToLower(s[i]))
  }

  /** The first case-insensitive occurrence of a lower-case needle. */
  function IFind(hay: string, needle: string): int {
    Find(Lower(hay), needle, 0)
  }

  function DigitsFrom(s: string, i: nat): (e: nat)
    requires i <= |s|
    ensures i <= e <= |s| && forall k :: i <= k < e ==> IsDigit(s[k])
    decreases |s| - i
  {
    if i < |s| && IsDigit(s[i]) then DigitsFrom(s, i + 1) else i
  }

  function Decimal(s: string): nat
    requires forall k :: 0 <= k < |s| ==> IsDigit(s[k])
  {
    if s == [] then 0 else Decimal(s[..|s| - 1]) * 10 + Digit(s[|s| - 1])
  }

  /** A whole trimmed decimal integer within [lo, hi], with an optional minus sign. */
  function ParseInt(text: string, lo: int, hi: int): (r: Option<int>)
    ensures r.Some? ==> lo <= r.value <= hi
  {
    var s := Trim(text);
    var neg := s != [] && s[0] == '-';
    var ds := if neg then s[1..] else s;
    if ds == [] || DigitsFrom(ds, 0) != |ds| then None
    else
      var magnitude: int := Decimal(ds);
      var v := if neg then -magnitude else magnitude;
      if lo <= v <= hi then Some(v) else None
  }

  // ---- hexadecimal ----

  /** The value of a hexadecimal numeral, None when a character is not a digit. */
  function HexValue(s: string): Option<nat> {
    if s == [] then Some(0)
    else
      match (HexValue(s[..|s| - 1]), HexDigit(s[|s| - 1]))
      case (Some(v), Some(d)) => Some(v * 16 + d)
      case _ => None
  }

  function HexChar(d: nat): (c: char)
    requires d < 16
    ensures HexDigit(c) == Some(d) && !IsSpace(c) && c != ';'
  {
    if d < 10 then (d + '0' as int) as char else (d - 10 + 'a' as int) as char
  }

  /** The numeral a server writes for a size. */
  function Hex(n: nat): (s: string)
    ensures s != []
  {
    if n < 16 then [HexChar(n)] else Hex(n / 16) + [HexChar(n % 16)]
  }

  ghost predicate AllHex(s: string) {
    forall i :: 0 <= i < |s| ==> HexDigit(s[i]).Some?
  }

  lemma {:induction false} HexRoundTrip(n: nat)
    ensures HexValue(Hex(n)) == Some(n) && AllHex(Hex(n))
    decreases n
  {
    if n >= 16 {
      HexRoundTrip(n / 16);
      assert Hex(n)[..|Hex(n)| - 1] == Hex(n / 16);
    } else {
      assert Hex(n)[..0] == "";
    }
  }

  function Pow16(k: nat): nat {
    if k == 0 then 1 else 16 * Pow16(k - 1)
  }

  lemma {:induction false} HexLength(n: nat, k: nat)
    requires k > 0 && n < Pow16(k)
    ensures |Hex(n)| <= k
    decreases k
  {
    if n >= 16 {
      HexLength(n / 16, k - 1);
    }
  }

  lemma {:induction false} HexHasDigitsOnly(s: string)
    ensures HexValue(s).Some? <==> AllHex(s)
    decreases |s|
  {
    if s != [] {
      var t := s[..|s| - 1];
      HexHasDigitsOnly(t);
      assert AllHex(s) ==> AllHex(t) && HexDigit(s[|s| - 1]).Some?;
      assert AllHex(t) && HexDigit(s[|s| - 1]).Some? ==> AllHex(s) by {
        assert s == t + [s[|s| - 1]];
      }
    }
  }
}
