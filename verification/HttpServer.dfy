/**
 What a plain server writes: a status line with a decimal code, one header that says how the body is
 framed, and the body. Read back by the parser it gives that code and that body. Headers over the limit
 are where the parser's answer depends on how the stream was cut.
 */
module HttpServer {
  import opened Options
  import opened Ascii
  import opened Sequences
  import opened HttpText
  import opened HttpChunks
  import opened HttpResponse

  // ---- decimal numerals ----

  function DigitChar(d: nat): (c: char)
    requires d < 10
    ensures IsDigit(c) && Digit(c) == d
  {
    (d + '0' as int) as char
  }

  /** The numeral a server writes for a number. */
  function Numeral(n: nat): (s: string)
    ensures s != []
  {
    if n < 10 then [DigitChar(n)] else Numeral(n / 10) + [DigitChar(n % 10)]
  }

  ghost predicate AllDigits(s: string) {
    forall k :: 0 <= k < |s| ==> IsDigit(s[k])
  }

  lemma {:induction false} NumeralRoundTrip(n: nat)
    ensures AllDigits(Numeral(n)) && Decimal(Numeral(n)) == n
    decreases n
  {
    if n >= 10 {
      NumeralRoundTrip(n / 10);
      assert Numeral(n)[..|Numeral(n)| - 1] == Numeral(n / 10);
    } else {
      assert Numeral(n)[..0] == "";
    }
  }

  lemma {:induction false} NumeralLength(n: nat)
    requires 100 <= n < 1000
    ensures |Numeral(n)| == 3
  {
    assert |Numeral(n / 100)| == 1;
    assert |Numeral(n / 10)| == 2;
  }

  lemma {:induction false} DigitsToEnd(s: string, i: nat)
    requires i <= |s| && AllDigits(s)
    ensures DigitsFrom(s, i) == |s|
    decreases |s| - i
  {
    if i < |s| {
      DigitsToEnd(s, i + 1);
    }
  }

  ghost predicate Bare(s: string) {
    s != [] && !IsSpace(s[0]) && !IsSpace(s[|s| - 1])
  }

  lemma {:induction false} TrimBare(s: string)
    requires Bare(s)
    ensures Trim(s) == s && Trim(" " + s) == s
  {
    assert TrimLeft(s) == s;
    assert (" " + s)[1..] == s;
    assert TrimLeft(" " + s) == TrimLeft(s);
  }

  /** A numeral is read as its number, a blank in front or not. */
  lemma {:induction false} NumeralRead(n: nat, lo: int, hi: int)
    requires lo <= n <= hi
    ensures ParseInt(Numeral(n), lo, hi) == ParseInt(Trim(" " + Numeral(n)), lo, hi) == Some(n)
  {
    var s := Numeral(n);
    NumeralRoundTrip(n);
    assert IsDigit(s[0]) && IsDigit(s[|s| - 1]);
    TrimBare(s);
    DigitsToEnd(s, 0);
    hide Numeral, Trim, DigitsFrom, Decimal;
  }

  /** A numeral, signed or not, is its integer when that is in range, otherwise nothing. */
  lemma {:induction false} IntegerRead(n: nat, negative: bool, lo: int, hi: int)
    ensures var v: int := if negative then 0 - n else n;
            ParseInt((if negative then "-" else "") + Numeral(n), lo, hi) == if lo <= v <= hi then Some(v) else None
  {
    var s := Numeral(n);
    NumeralRoundTrip(n);
    assert IsDigit(s[0]) && IsDigit(s[|s| - 1]);
    DigitsToEnd(s, 0);
    var text := (if negative then "-" else "") + s;
    assert negative ==> text[0] == '-' && text[1..] == s;
    assert !negative ==> text == s;
    TrimBare(text);
    hide Numeral, Trim, DigitsFrom, Decimal;
  }

  ghost predicate Blank(s: string) {
    forall i :: 0 <= i < |s| ==> IsSpace(s[i])
  }

  /** Trimming takes blanks off both ends, and all of them. */
  lemma {:induction false} TrimIs(s: string) returns (a: string, b: string)
    ensures s == a + Trim(s) + b && Blank(a) && Blank(b) && (Trim(s) == [] || Bare(Trim(s)))
  {
    a := TrimLeftIs(s);
    b := TrimRightIs(TrimLeft(s));
    var t := TrimLeft(s);
    assert Trim(s) != [] ==> t[0] == Trim(s)[0];
    assert a + (Trim(s) + b) == a + Trim(s) + b;
  }

  lemma {:induction false} TrimLeftIs(s: string) returns (a: string)
    ensures s == a + TrimLeft(s) && Blank(a) && (TrimLeft(s) == [] || !IsSpace(TrimLeft(s)[0]))
  {
    hide IsSpace;
    if s != [] && IsSpace(s[0]) {
      var a' := TrimLeftIs(s[1..]);
      a := [s[0]] + a';
    } else {
      a := [];
    }
  }

  lemma {:induction false} TrimRightIs(s: string) returns (b: string)
    ensures s == TrimRight(s) + b && Blank(b) && (TrimRight(s) == [] || !IsSpace(TrimRight(s)[|TrimRight(s)| - 1]))
  {
    hide IsSpace;
    if s != [] && IsSpace(s[|s| - 1]) {
      var n := |s| - 1;
      var b' := TrimRightIs(s[..n]);
      b := b' + [s[n]];
      assert s == s[..n] + [s[n]];
    } else {
      b := [];
    }
  }

  /** The first "timeout=" counts, up to the last of the digits behind it. */
  lemma {:induction false} TimeoutRead(a: string, n: nat, b: string)
    requires b == [] || !IsDigit(b[0])
    requires forall i: nat :: i < |a| ==> !At(Lower(a + "timeout=" + (Numeral(n) + b)), "timeout=", i)
    ensures Timeout(a + "timeout=" + (Numeral(n) + b)) == if n <= INT_MAX then Some(n) else None
  {
    hide Numeral, ParseInt, Find, Lower, At, IsDigit, ToLower;
    var s := Numeral(n);
    var value := a + "timeout=" + (s + b);
    TimeoutStands(a, s + b);
    NumeralRoundTrip(n);
    DigitsAre(value, |a| + 8, s, b);
    assert value[|a| + 8..|a| + 8 + |s|] == (s + b)[..|s|] == s == "" + s;
    IntegerRead(n, false, INT_MIN, INT_MAX);
  }

  lemma {:induction false} TimeoutStands(a: string, rest: string)
    requires forall i: nat :: i < |a| ==> !At(Lower(a + "timeout=" + rest), "timeout=", i)
    ensures var value := a + "timeout=" + rest; IFind(value, "timeout=") == |a| && |a| + 8 <= |value| && value[|a| + 8..] == rest
  {
    hide Find;
    KeyStands(a, "timeout=", rest);
    FindIs(Lower(a + "timeout=" + rest), "timeout=", 0, |a|);
  }

  lemma {:induction false} KeyStands(a: string, key: string, b: string)
    requires forall k :: 0 <= k < |key| ==> ToLower(key[k]) == key[k]
    ensures At(Lower(a + key + b), key, |a|)
  {
    var value := a + key + b;
    forall k | 0 <= k < |key| ensures Lower(value)[|a| + k] == key[k] {
      assert value[|a| + k] == key[k];
    }
  }

  lemma {:induction false} DigitsAre(value: string, i: nat, s: string, b: string)
    requires i <= |value| && value[i..] == s + b && AllDigits(s) && (b == [] || !IsDigit(b[0]))
    ensures DigitsFrom(value, i) == i + |s|
    decreases |s|
  {
    if s == [] {
      assert b != [] ==> value[i..][0] == b[0];
    } else {
      assert value[i..][0] == s[0];
      assert value[i + 1..] == value[i..][1..] == s[1..] + b;
      DigitsAre(value, i + 1, s[1..], b);
    }
  }

  // ---- the lines ----

  function StatusText(code: nat, reason: string): string {
    "HTTP/1.1 " + Numeral(code) + " " + reason
  }

  /** The beginning of a status line. */
  lemma {:induction false} StatusStart(line: string)
    requires |line| >= 9 && line[..9] == "HTTP/1.1 "
    ensures IStartsWith(line, "http/1.") && line[7] == '1' && Find(line, " ", 0) == 8
  {
    assert forall i :: 0 <= i < 9 ==> line[i] == "HTTP/1.1 "[i];
    forall i | 0 <= i < 7 ensures ToLower(line[i]) == ToLower("http/1."[i]) {
      assert line[i] == "HTTP/1."[i];
    }
    forall i: nat | 0 <= i < 8 ensures !At(line, " ", i) {
      assert line[i] == "HTTP/1.1"[i];
      FirstIs(line, " ", i);
    }
    FindIs(line, " ", 0, 8);
  }

  lemma {:induction false} StatusShape(code: nat, reason: string)
    requires 100 <= code < 1000
    ensures var line := StatusText(code, reason); |line| >= 12 && line[..9] == "HTTP/1.1 " && line[9..12] == Numeral(code)
  {
    hide Numeral;
    NumeralLength(code);
  }

  /** Any three-digit code is read, whatever the reason phrase. */
  lemma {:induction false} StatusRead(m: Message, code: nat, reason: string)
    requires 100 <= code < 1000
    ensures StatusLine(m, StatusText(code, reason)) == Head(m.(keepAlive := true, status := code), false, None)
  {
    hide Numeral, ParseInt, Find, IStartsWith, StatusText;
    StatusShape(code, reason);
    StatusStart(StatusText(code, reason));
    NumeralRead(code, INT_MIN, INT_MAX);
  }

  function LengthHeader(n: nat): string {
    "Content-Length:" + (" " + Numeral(n))
  }

  const CHUNKED_HEADER: string := "Transfer-Encoding: chunked"

  /** A header line is split at its first colon. */
  lemma {:induction false} LineSplits(h: Head, name: string, value: string)
    requires Bare(name) && ':' !in name
    ensures Line(h, name + ":" + value) == Field(h, name, Trim(value))
  {
    var line := name + ":" + value;
    forall i: nat | 0 <= i < |name| ensures !At(line, ":", i) {
      assert line[i] == name[i];
      FirstIs(line, ":", i);
    }
    assert line[|name|] == ':';
    FindIs(line, ":", 0, |name|);
    assert line[..|name|] == name && line[|name| + 1..] == value;
    TrimBare(name);
    hide Find, Field, Trim;
  }

  /** A line without a colon is passed over. */
  lemma {:induction false} NoColon(h: Head, line: string)
    requires ':' !in line
    ensures Line(h, line) == h
  {
    var r := Find(line, ":", 0);
    FirstIs(line, ":", if r >= 0 then r else 0);
    hide Find, Field, Trim;
  }

  lemma {:induction false} LengthRead(h: Head, n: nat)
    requires n <= INT64_MAX
    ensures Line(h, LengthHeader(n)) == h.(m := h.m.(contentLength := n))
  {
    hide Line, Field, Numeral, ParseInt, IEquals;
    var name := "Content-Length";
    LengthName(name);
    assert LengthHeader(n) == name + ":" + (" " + Numeral(n));
    LineSplits(h, name, " " + Numeral(n));
    NumeralRead(n, INT64_MIN, INT64_MAX);
    LengthField(h, name, Trim(" " + Numeral(n)), n);
  }

  lemma {:induction false} LengthName(name: string)
    requires name == "Content-Length"
    ensures Bare(name) && ':' !in name && IEquals(name, "content-length")
  {
  }

  lemma {:induction false} LengthField(h: Head, name: string, value: string, n: nat)
    requires IEquals(name, "content-length") && ParseInt(value, INT64_MIN, INT64_MAX) == Some(n)
    ensures Field(h, name, value) == h.(m := h.m.(contentLength := n))
  {
    hide ParseInt, IEquals, IFind, Timeout;
  }

  lemma {:induction false} ChunkedRead(h: Head)
    ensures Line(h, CHUNKED_HEADER) == h.(chunked := true)
  {
    hide Line, Field;
    var name, value := "Transfer-Encoding", "chunked";
    assert CHUNKED_HEADER == name + ":" + (" " + value);
    ChunkedName(name);
    ChunkedValue(value);
    LineSplits(h, name, " " + value);
    TrimBare(value);
    ChunkedField(h, name, value);
  }

  lemma {:induction false} ChunkedName(name: string)
    requires name == "Transfer-Encoding"
    ensures Bare(name) && ':' !in name && IEquals(name, "transfer-encoding")
  {
  }

  lemma {:induction false} ChunkedValue(value: string)
    requires value == "chunked"
    ensures Bare(value) && IFind(value, "chunked") >= 0
  {
    assert Lower(value) == value;
    assert At(value, value, 0);
  }

  lemma {:induction false} ChunkedField(h: Head, name: string, value: string)
    requires |name| == 17 && IEquals(name, "transfer-encoding") && IFind(value, "chunked") >= 0
    ensures Field(h, name, value) == h.(chunked := true)
  {
    assert |"content-length"| == 14 && |"content-encoding"| == 16 && |"connection"| == 10 && |"content-type"| == 12;
    hide ParseInt, IFind, Timeout;
  }

  // ---- whole responses ----

  /** Codes whose responses have a body. */
  predicate HasBody(code: nat) {
    200 <= code < 1000 && code != 204 && code != 304
  }

  lemma {:induction false} LinesOne(h: Head, line: string)
    requires h.fault.None?
    ensures Lines(h, [line]) == Line(h, line)
  {
    hide Line;
    assert [line][1..] == [];
  }

  lemma {:induction false} NumeralLine(n: nat)
    ensures NoCr(Numeral(n)) && HeaderLines([LengthHeader(n)])
  {
    NumeralRoundTrip(n);
    hide Numeral;
    var line := LengthHeader(n);
    var name := "Content-Length: ";
    assert line == name + Numeral(n);
    forall i | 0 <= i < |line| ensures line[i] != '\r' {
      if i < |name| {
        assert line[i] == name[i];
      } else {
        assert line[i] == Numeral(n)[i - |name|];
      }
    }
    assert HeaderLine(line);
  }

  lemma {:induction false} StatusNoCr(code: nat, reason: string)
    requires NoCr(reason)
    ensures NoCr(StatusText(code, reason))
  {
    NumeralLine(code);
    hide Numeral;
    var line, a := StatusText(code, reason), "HTTP/1.1 ";
    forall i | 0 <= i < |line| ensures line[i] != '\r' {
      if i < |a| {
        assert line[i] == a[i];
      } else if i < |a| + |Numeral(code)| {
        assert line[i] == Numeral(code)[i - |a|];
      } else if i > |a| + |Numeral(code)| {
        assert line[i] == reason[i - |a| - |Numeral(code)| - 1];
      }
    }
  }

  /** A body sent with its length comes back, with the code, whatever follows. */
  lemma {:induction false} LengthRoundTrip(code: nat, reason: string, body: string, rest: string, eof: bool)
    requires HasBody(code) && NoCr(reason) && |body| <= INT64_MAX
    ensures var s := HeadText(StatusText(code, reason), [LengthHeader(|body|)]) + body + rest;
            Observe(Feed(Fresh(false), s, eof), s)
            == Got(Fresh(false).m.(status := code, contentLength := |body|), body)
  {
    hide StatusLine, StatusText, Line, Lines, LengthHeader, HeadText, Observe, Feed, HeaderLines, NoCr;
    var status, line := StatusText(code, reason), LengthHeader(|body|);
    StatusNoCr(code, reason);
    NumeralLine(|body|);
    StatusRead(Fresh(false).m, code, reason);
    LinesOne(StatusLine(Fresh(false).m, status), line);
    LengthRead(StatusLine(Fresh(false).m, status), |body|);
    LengthResponse(status, [line], body, rest, eof);
  }

  lemma {:induction false} ChunkedLine()
    ensures HeaderLines([CHUNKED_HEADER])
  {
    assert HeaderLine(CHUNKED_HEADER);
  }

  lemma {:induction false} ZeroSize()
    ensures HexValue("0") == Some(0) && ProperTrailers([])
  {
    assert "0"[..0] == "";
  }

  /** A body sent in chunks comes back whole, with the code, whatever follows. */
  lemma {:induction false} ChunkedBodyRoundTrip(code: nat, reason: string, pieces: seq<string>, rest: string, eof: bool)
    requires HasBody(code) && NoCr(reason) && forall i :: 0 <= i < |pieces| ==> 0 < |pieces[i]| <= MAX_CHUNK
    ensures var s := HeadText(StatusText(code, reason), [CHUNKED_HEADER]) + EncodeBody(Plain(pieces), "0", []) + rest;
            Observe(Feed(Fresh(false), s, eof), s) == Got(Fresh(false).m.(status := code), Concat(pieces))
  {
    hide StatusLine, StatusText, Line, Lines, HeadText, Observe, Feed, HeaderLines, NoCr, EncodeBody, Plain, Concat, HexValue,
         WellFormed, Payload;
    var status := StatusText(code, reason);
    StatusNoCr(code, reason);
    ChunkedLine();
    ZeroSize();
    StatusRead(Fresh(false).m, code, reason);
    LinesOne(StatusLine(Fresh(false).m, status), CHUNKED_HEADER);
    ChunkedRead(StatusLine(Fresh(false).m, status));
    PlainIsWellFormed(pieces);
    ChunkedResponse(status, [CHUNKED_HEADER], Plain(pieces), "0", [], rest, eof);
  }

  // ---- headers over the limit ----

  lemma {:induction false} FreshIsValid(head: bool, s: string)
    ensures Valid(Fresh(head), s)
  {
  }

  /** Cut inside such headers but beyond the limit, the same response is refused. */
  lemma {:induction false} LongHeadersFail(head: bool, status: string, lines: seq<string>, cut: nat, eof: bool)
    requires NoCr(status) && HeaderLines(lines) && MAX_HEAD < cut < |HeadText(status, lines)|
    requires Lines(StatusLine(Fresh(head).m, status), lines).fault.None? && !Behind(head, status, lines).phase.InHeaders?
    ensures var s := HeadText(status, lines);
            && Growing([s[..cut], s]) && Valid(Fresh(head), s[..cut])
            && Drive(Fresh(head), [s[..cut], s], eof) == Failed(HeadersTooLarge)
            && Feed(Fresh(head), s, eof) == Body(Behind(head, status, lines), s, eof)
  {
    hide NoCr, HeaderLines, Lines, StatusLine, HeadText, Behind, Heads, Body, Valid;
    var s := HeadText(status, lines);
    var a := s[..cut];
    FreshIsValid(head, a);
    FreshIsValid(head, s);
    HeadsThrough(s, head, status, lines);
    HeadsGrow(Fresh(head), a, s);
    assert Feed(Fresh(head), a, false).0 == Error(HeadersTooLarge);
  }

  /** A header line as long as the limit. */
  function LongLine(): (line: string)
    ensures |line| == MAX_HEAD && forall i :: 0 <= i < |line| ==> line[i] == 'a'
  {
    seq(MAX_HEAD, i => 'a')
  }

  lemma {:induction false} OnlyLetters(line: string)
    requires line != [] && forall i :: 0 <= i < |line| ==> line[i] == 'a'
    ensures HeaderLines([line]) && ':' !in line
  {
    assert HeaderLine(line);
  }

  lemma {:induction false} HeadTextOne(status: string, line: string)
    ensures |HeadText(status, [line])| == |status| + |line| + 6
  {
    var lines := [line];
    assert lines[1..] == [];
    assert Render(lines) == line + CRLF + "";
    assert |CRLF| == 2;
  }

  /** One such response: read at once it is an empty 204, read up to its last byte first it is refused. */
  lemma {:induction false} OverfedInput()
    ensures var s := HeadText(StatusText(204, ""), [LongLine()]);
            var a := s[..|s| - 1];
            && Growing([a, s]) && Valid(Fresh(false), a)
            && Drive(Fresh(false), [a, s], false) == Failed(HeadersTooLarge)
            && Observe(Feed(Fresh(false), s, false), s) == Got(Fresh(false).m.(status := 204), "")
  {
    hide StatusLine, StatusText, Line, Lines, HeadText, Feed, HeaderLines, NoCr, Growing, Drive, LongLine;
    var status, line := StatusText(204, ""), LongLine();
    assert NoCr("") by {
      NoCrEmpty();
    }
    StatusNoCr(204, "");
    OnlyLetters(line);
    HeadTextOne(status, line);
    StatusRead(Fresh(false).m, 204, "");
    LinesOne(StatusLine(Fresh(false).m, status), line);
    NoColon(StatusLine(Fresh(false).m, status), line);
    var s := HeadText(status, [line]);
    NoContent(status, [line]);
    FreshIsValid(false, s);
    HeadsThrough(s, false, status, [line]);
    EmptyBody(Behind(false, status, [line]), s, false);
    LongHeadersFail(false, status, [line], |s| - 1, false);
  }

  lemma {:induction false} NoContent(status: string, lines: seq<string>)
    requires Lines(StatusLine(Fresh(false).m, status), lines) == Head(Fresh(false).m.(status := 204), false, None)
    ensures var p := Behind(false, status, lines); p.phase.Complete? && !p.dechunked && p.bodyLen == 0 && p.m == Fresh(false).m.(status := 204)
  {
    hide Lines, StatusLine;
  }

  lemma {:induction false} EmptyBody(p: Parser, s: string, eof: bool)
    requires Valid(p, s) && p.phase.Complete? && !p.dechunked && p.bodyLen == 0
    ensures Observe(Body(p, s, eof), s) == Got(p.m, "")
  {
  }

  lemma {:induction false} NoCrEmpty()
    ensures NoCr("")
  {
  }
}
