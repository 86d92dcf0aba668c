/** The C locale's letters and digits. Characters stand for bytes. */
module Ascii {
  import opened Options

  function ToLower(c: char): char {
    if 'A' <= c <= 'Z' then (c as int + 32) as char else c
  }

  predicate IsDigit(c: char) {
    '0' <= c <= '9'
  }

  function Digit(c: char): (d: nat)
    requires IsDigit(c)
    ensures d < 10
  {
    c as int - '0' as int
  }

  function HexDigit(c: char): (r: Option<nat>)
    ensures r.Some? ==> r.value < 16
  {
    if IsDigit(c) then Some(Digit(c))
    else if 'a' <= c <= 'f' then Some(c as int - 'a' as int + 10)
    else if 'A' <= c <= 'F' then Some(c as int - 'A' as int + 10)
    else None
  }

  /** A letter or a digit. */
  predicate IsAlnum(c: char) {
    '0' <= c <= '9' || 'a' <= c <= 'z' || 'A' <= c <= 'Z'
  }

  function Lowered(s: string): string {
    seq(|s|, i requires 0 <= i < |s| => ToLower(s[i]))
  }

  /** Capital letters become the small letters in the same order; every other character is its own. */
  lemma {:induction false} LowersLetters(c: char)
    ensures 'A' <= c <= 'Z' ==> 'a' <= ToLower(c) <= 'z' && ToLower(c) - 'a' == c - 'A'
    ensures !('A' <= c <= 'Z') ==> ToLower(c) == c
  {
    var n := c as int;
    assert 'A' <= c <= 'Z' ==> ToLower(c) as int == n + 32;
  }

  /** The sixteen digits of either case in order; no other character is one. */
  lemma {:induction false} HexDigits(c: char, d: nat)
    requires d < 16
    ensures HexDigit(c) == Some(d) <==> c == "0123456789abcdef"[d] || c == "0123456789ABCDEF"[d]
    ensures HexDigit(c).Some? <==> '0' <= c <= '9' || 'a' <= c <= 'f' || 'A' <= c <= 'F'
  {
    if d < 10 {
      assert "0123456789abcdef"[d] as int == d + 48 == "0123456789ABCDEF"[d] as int;
    } else {
      assert "0123456789abcdef"[d] as int == d + 87 && "0123456789ABCDEF"[d] as int == d + 55;
    }
  }
}
