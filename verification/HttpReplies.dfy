/**
 Whole replies as a server may send them: interim responses first, any status code, any header lines, and
 what follows them. Said in terms of the code, the header lines and whether the request was a HEAD.
 */
module HttpReplies {
  import opened Options
  import opened Ascii
  import opened Sequences
  import opened HttpText
  import opened HttpChunks
  import opened HttpResponse
  import opened HttpFields
  import opened HttpServer

  // ---- one header block anywhere in the stream ----

  /** A parser about to read the header block at `n`. */
  ghost predicate Before(p: Parser, s: string, n: nat) {
    p.phase.InHeaders? && Valid(p, s) && p.bodyStart == p.scan == n
  }

  /** No end of headers overlaps the one in front of the block. */
  lemma {:induction false} NoEndAround(s: string, n: nat, status: string)
    requires n == 0 || (n >= 4 && At(s, HEAD_END, n - 4))
    requires At(s, status, n) && status != [] && NoCr(status)
    ensures forall i: nat :: From(n) <= i < n ==> !At(s, HEAD_END, i)
  {
    if n >= 4 {
      assert s[n - 4 + 1] == HEAD_END[1] && s[n - 4 + 3] == HEAD_END[3];
      assert s[n + 0] == status[0];
      FirstIs(s, HEAD_END, n - 3);
      ThirdIs(s, n - 2);
      FirstIs(s, HEAD_END, n - 1);
    }
  }

  lemma {:induction false} BlockAt(s: string, p: Parser, n: nat, status: string, lines: seq<string>)
    requires Before(p, s, n) && At(s, HeadText(status, lines), n) && status != [] && NoCr(status) && HeaderLines(lines)
    ensures var e := n + |status| + |Render(lines)|;
            && |HeadText(status, lines)| == e - n + 4 && e + 4 <= |s|
            && Find(s, HEAD_END, From(n)) == e && At(s, HEAD_END, e) && Block(p, s, e) == status + CRLF + Render(lines)
  {
    hide NoCr, HeaderLine, Find;
    assert HeadText(status, lines) == (status + CRLF + Render(lines)) + CRLF;
    AtConcat(s, status + CRLF + Render(lines), CRLF, n);
    AtIs(s, status + CRLF + Render(lines), n);
    AtConcat(s, status + CRLF, Render(lines) + CRLF, n);
    AtConcat(s, status, CRLF, n);
    hide At;
    NoEndAround(s, n, status);
    NoEndInLine(s, status, n);
    FindLater(s, HEAD_END, From(n), n + |status|);
    EndAfter(s, lines, n + |status|);
  }

  lemma {:induction false} AllNoCr(lines: seq<string>)
    requires HeaderLines(lines)
    ensures forall i :: 0 <= i < |lines| ==> NoCr(lines[i])
  {
    forall i | 0 <= i < |lines| ensures NoCr(lines[i]) {
      LineHasNoCr(lines[i]);
    }
  }

  /** What a reply with a code and header lines says after what `m` said before. */
  function Reply(m: Message, code: nat, lines: seq<string>): Message
    requires LengthsOk(lines)
  {
    Told(m.(keepAlive := true, status := code), lines)
  }

  /** The block is read as its code and its lines. */
  lemma {:induction false} HeadAt(s: string, p: Parser, n: nat, code: nat, reason: string, lines: seq<string>)
    requires Before(p, s, n) && At(s, HeadText(StatusText(code, reason), lines), n)
    requires 100 <= code < 1000 && NoCr(reason) && HeaderLines(lines)
    ensures |HeadText(StatusText(code, reason), lines)| >= 4 && n + |HeadText(StatusText(code, reason), lines)| <= |s|
    ensures LengthsOk(lines) ==>
              var e := n + |HeadText(StatusText(code, reason), lines)| - 4;
              var p' := AfterHead(p, Head(Reply(p.m, code, lines), Chunked(lines), None), e);
              Valid(p', s) && Heads(p, s) == if p'.phase.InHeaders? then Heads(p', s) else Through(p', e + 4)
    ensures !LengthsOk(lines) ==> Heads(p, s).Refused? && Heads(p, s).fault == BadContentLength
  {
    hide ParseHead, NoCr, HeaderLines, AfterHead, Find, At, StatusLine, Lines, StatusText, Render, HeadText, Block, Told, Chunked,
         LengthsOk;
    var status := StatusText(code, reason);
    StatusNoCr(code, reason);
    StatusNotEmpty(code, reason);
    AllNoCr(lines);
    BlockAt(s, p, n, status, lines);
    HeadRoundTrip(p.m, status, lines);
    StatusRead(p.m, code, reason);
    LinesTell(StatusLine(p.m, status), lines);
    var e := n + |status| + |Render(lines)|;
    HeadFits(p, s, ParseHead(p.m, Block(p, s, e)), e);
  }

  lemma {:induction false} StatusNotEmpty(code: nat, reason: string)
    ensures StatusText(code, reason) != []
  {
    hide Numeral;
  }

  // ---- interim responses ----

  /** A response of the 1xx class other than 101. */
  datatype Notice = Notice(code: nat, reason: string, lines: seq<string>) {
    ghost predicate Proper() {
      100 <= code < 200 && code != 101 && NoCr(reason) && HeaderLines(lines) && LengthsOk(lines)
    }
  }

  ghost predicate AllProper(ns: seq<Notice>) {
    forall i :: 0 <= i < |ns| ==> ns[i].Proper()
  }

  function NoticesText(ns: seq<Notice>): string {
    if ns == [] then ""
    else HeadText(StatusText(ns[0].code, ns[0].reason), ns[0].lines) + NoticesText(ns[1..])
  }

  /** Header fields of interim responses stay. */
  ghost function AfterNotices(m: Message, ns: seq<Notice>): Message
    requires AllProper(ns)
    decreases |ns|
  {
    if ns == [] then m
    else
      assert ns[0].Proper();
      AfterNotices(Reply(m, ns[0].code, ns[0].lines), ns[1..])
  }

  lemma {:induction false} NoticesEnd(s: string, p: Parser, n: nat, ns: seq<Notice>)
    requires Before(p, s, n) && AllProper(ns) && At(s, NoticesText(ns), n) && !p.dechunked
    ensures var n' := n + |NoticesText(ns)|;
            var p' := p.(m := AfterNotices(p.m, ns), bodyStart := n', scan := n');
            Before(p', s, n') && Heads(p, s) == Heads(p', s)
    decreases |ns|
  {
    hide Heads, At, HeadText, StatusText, Reply, Valid, LengthsOk, HeaderLines, NoCr;
    if ns == [] {
    } else {
      var x, rest := ns[0], ns[1..];
      assert x.Proper();
      var t := HeadText(StatusText(x.code, x.reason), x.lines);
      AtConcat(s, t, NoticesText(rest), n);
      HeadAt(s, p, n, x.code, x.reason, x.lines);
      var e := n + |t| - 4;
      var p1 := AfterHead(p, Head(Reply(p.m, x.code, x.lines), Chunked(x.lines), None), e);
      ReplyStatus(p.m, x.code, x.lines);
      NoticesEnd(s, p1, n + |t|, rest);
    }
  }

  lemma {:induction false} ReplyStatus(m: Message, code: nat, lines: seq<string>)
    requires LengthsOk(lines)
    ensures Reply(m, code, lines).status == code
  {
  }

  // ---- the reply itself ----

  /** A code that ends the stream of header blocks. */
  predicate IsFinal(code: nat) {
    code == 101 || 200 <= code < 1000
  }

  /** Replies without a body whatever their headers say. */
  predicate Bodyless(head: bool, code: nat) {
    head || code == 101 || code == 204 || code == 304
  }

  /** The stream of a reply: interim responses, its header block, and what follows. */
  function ReplyText(ns: seq<Notice>, code: nat, reason: string, lines: seq<string>, rest: string): string {
    NoticesText(ns) + HeadText(StatusText(code, reason), lines) + rest
  }

  /** The parser once the header block of a reply is behind it. */
  ghost predicate Reached(head: bool, ns: seq<Notice>, code: nat, reason: string, lines: seq<string>, rest: string, p: Parser)
    requires AllProper(ns) && LengthsOk(lines)
  {
    var s := ReplyText(ns, code, reason, lines, rest);
    var m := Reply(AfterNotices(Fresh(head).m, ns), code, lines);
    var phase := if Bodyless(head, code) then Complete else if Chunked(lines) then InChunks
                 else if m.contentLength >= 0 then InLength else UntilClose;
    && Valid(p, s) && p.phase == phase && p.m == (if phase.UntilClose? then m.(keepAlive := false) else m)
    && p.bodyStart <= |s| && s[p.bodyStart..] == rest && BehindHead(p, p.bodyStart)
  }

  lemma {:induction false} ReplyReached(head: bool, ns: seq<Notice>, code: nat, reason: string, lines: seq<string>, rest: string)
    requires AllProper(ns) && IsFinal(code) && NoCr(reason) && HeaderLines(lines)
    ensures var s := ReplyText(ns, code, reason, lines, rest);
            Valid(Fresh(head), s)
            && if LengthsOk(lines) then
                 Heads(Fresh(head), s).Through? && Reached(head, ns, code, reason, lines, rest, Heads(Fresh(head), s).p)
               else Heads(Fresh(head), s).Refused? && Heads(Fresh(head), s).fault == BadContentLength
  {
    var s := ReplyText(ns, code, reason, lines, rest);
    hide Heads, HeadText, StatusText, Told, Chunked, LengthsOk, HeaderLines, NoCr, NoticesText, AfterNotices;
    var a, b := NoticesText(ns), HeadText(StatusText(code, reason), lines);
    assert At(s, a + b, 0);
    AtConcat(s, a, b, 0);
    var n := |a|;
    NoticesEnd(s, Fresh(head), 0, ns);
    var p := Fresh(head).(m := AfterNotices(Fresh(head).m, ns), bodyStart := n, scan := n);
    HeadAt(s, p, n, code, reason, lines);
    assert s[n + |b|..] == rest;
    if LengthsOk(lines) {
      ReplyStatus(p.m, code, lines);
      hide Reply, At;
    }
  }

  /**
   A reply to a HEAD request, and every 101, 204 and 304, is complete with its headers and has no body:
   whatever its framing headers, whatever follows, and whether or not the connection is closed.
   */
  lemma {:induction false} BodylessReply(head: bool, ns: seq<Notice>, code: nat, reason: string, lines: seq<string>,
                                          rest: string, eof: bool)
    requires AllProper(ns) && IsFinal(code) && NoCr(reason) && HeaderLines(lines)
    requires head || code == 101 || code == 204 || code == 304
    ensures var s := ReplyText(ns, code, reason, lines, rest);
            Valid(Fresh(head), s)
            && Observe(Feed(Fresh(head), s, eof), s) ==
               if LengthsOk(lines) then Got(Reply(AfterNotices(Fresh(head).m, ns), code, lines), "") else Failed(BadContentLength)
  {
    ReplyReached(head, ns, code, reason, lines, rest);
    hide Heads, ReplyText, Reply, AfterNotices, LengthsOk;
  }

  /** Any other reply that says so is chunked, a Content-Length or not; its body is the chunks put together. */
  lemma {:induction false} ChunkedReply(ns: seq<Notice>, code: nat, reason: string, lines: seq<string>,
                                         chunks: seq<Chunk>, last: string, trailers: seq<string>, rest: string, eof: bool)
    requires AllProper(ns) && HasBody(code) && NoCr(reason) && HeaderLines(lines) && LengthsOk(lines) && Chunked(lines)
    requires forall i :: 0 <= i < |chunks| ==> WellFormed(chunks[i])
    requires 0 < |last| <= 12 && HexValue(last) == Some(0) && ProperTrailers(trailers)
    ensures var s := ReplyText(ns, code, reason, lines, EncodeBody(chunks, last, trailers) + rest);
            Valid(Fresh(false), s)
            && Observe(Feed(Fresh(false), s, eof), s) == Got(Reply(AfterNotices(Fresh(false).m, ns), code, lines), Payload(chunks))
  {
    var b := EncodeBody(chunks, last, trailers);
    ReplyReached(false, ns, code, reason, lines, b + rest);
    hide Heads, ReplyText, Reply, AfterNotices, LengthsOk, Decode, EncodeBody, Payload, HexValue, WellFormed, ProperTrailers;
    var s := ReplyText(ns, code, reason, lines, b + rest);
    var p := Heads(Fresh(false), s).p;
    assert s[p.bodyStart..][..|b|] == b;
    ChunkedRoundTrip(s, p.bodyStart, chunks, last, trailers);
  }

  /** Otherwise the last Content-Length says how much of what follows is the body, and an early close is an error. */
  lemma {:induction false} LengthReply(ns: seq<Notice>, code: nat, reason: string, lines: seq<string>, rest: string, eof: bool)
    requires AllProper(ns) && HasBody(code) && NoCr(reason) && HeaderLines(lines) && LengthsOk(lines) && !Chunked(lines)
    requires Reply(AfterNotices(Fresh(false).m, ns), code, lines).contentLength >= 0
    ensures var s := ReplyText(ns, code, reason, lines, rest);
            var m := Reply(AfterNotices(Fresh(false).m, ns), code, lines);
            Valid(Fresh(false), s)
            && Observe(Feed(Fresh(false), s, eof), s) ==
               if m.contentLength <= |rest| then Got(m, rest[..m.contentLength])
               else if eof then Failed(EofInBody) else Waiting
  {
    ReplyReached(false, ns, code, reason, lines, rest);
    hide Heads, ReplyText, Reply, AfterNotices, LengthsOk, Chunked, HeaderLines, NoCr, AllProper;
    var s := ReplyText(ns, code, reason, lines, rest);
    OpenBody(Heads(Fresh(false), s).p, s, rest, eof);
    hide Body, Observe, Valid;
  }

  /** The part of a body that is there. */
  lemma {:induction false} OpenBody(p: Parser, s: string, rest: string, eof: bool)
    requires Valid(p, s) && (p.phase.InLength? || p.phase.UntilClose?) && p.bodyStart <= |s| && s[p.bodyStart..] == rest
    ensures p.phase.InLength? ==> p.m.contentLength >= 0
    ensures p.phase.InLength? ==>
              Observe(Body(p, s, eof), s) ==
              if p.m.contentLength <= |rest| then Got(p.m, rest[..p.m.contentLength])
              else if eof then Failed(EofInBody) else Waiting
    ensures p.phase.UntilClose? ==> Observe(Body(p, s, eof), s) == if eof then Got(p.m, rest) else Waiting
  {
    var n := if p.phase.InLength? && p.m.contentLength <= |rest| then p.m.contentLength else |rest|;
    assert s[p.bodyStart..p.bodyStart + n] == s[p.bodyStart..][..n];
  }

  /** Without either, everything up to the close is the body, and the connection is not kept. */
  lemma {:induction false} CloseReply(ns: seq<Notice>, code: nat, reason: string, lines: seq<string>, rest: string, eof: bool)
    requires AllProper(ns) && HasBody(code) && NoCr(reason) && HeaderLines(lines) && LengthsOk(lines) && !Chunked(lines)
    requires Reply(AfterNotices(Fresh(false).m, ns), code, lines).contentLength < 0
    ensures var s := ReplyText(ns, code, reason, lines, rest);
            Valid(Fresh(false), s)
            && Observe(Feed(Fresh(false), s, eof), s) ==
               if eof then Got(Reply(AfterNotices(Fresh(false).m, ns), code, lines).(keepAlive := false), rest) else Waiting
  {
    ReplyReached(false, ns, code, reason, lines, rest);
    hide Heads, ReplyText, Reply, AfterNotices, LengthsOk, Chunked, HeaderLines, NoCr, AllProper;
    var s := ReplyText(ns, code, reason, lines, rest);
    OpenBody(Heads(Fresh(false), s).p, s, rest, eof);
    hide Body, Observe, Valid;
  }

  /** Interim responses without header lines leave no trace in the reply. */
  lemma {:induction false} NoticesAreSilent(m: Message, ns: seq<Notice>, code: nat, lines: seq<string>)
    requires AllProper(ns) && LengthsOk(lines) && forall i :: 0 <= i < |ns| ==> ns[i].lines == []
    ensures Reply(AfterNotices(m, ns), code, lines) == Reply(m, code, lines)
    decreases |ns|
  {
    hide Told;
    if ns != [] {
      assert ns[0].Proper();
      var m1 := m.(keepAlive := true, status := ns[0].code);
      NothingTold(m1);
      NoticesAreSilent(m1, ns[1..], code, lines);
    }
  }
}
