/**
 The HTTP response parser: each call sees all that has arrived of the stream so far and goes on
 where the last one stopped.
 */
module HttpResponse {
  import opened Options
  import opened Ascii
  import opened Sequences
  import opened HttpText
  import opened HttpChunks

  const HEAD_END: string := "\r\n\r\n"
  const MAX_HEAD: nat := 1024 * 1024
  const INT_MIN: int := -0x8000_0000
  const INT_MAX: int := 0x7FFF_FFFF
  const INT64_MIN: int := -0x8000_0000_0000_0000
  const INT64_MAX: int := 0x7FFF_FFFF_FFFF_FFFF

  /** What the headers say. */
  datatype Message = Message(status: int, keepAlive: bool, timeout: int, gzip: bool, deflate: bool, etag: string,
                             lastModified: string, location: string, contentType: string, contentLength: int)

  datatype Phase = InHeaders | InLength | InChunks | UntilClose | Complete

  datatype Parser = Parser(phase: Phase, head: bool, scan: nat, bodyStart: nat, m: Message, d: Decoder,
                           dechunked: bool, bodyLen: nat)

  function Fresh(head: bool): Parser {
    Parser(InHeaders, head, 0, 0, Message(0, true, -1, false, false, "", "", "", "", -1), Decoder(Size, 0, 0, ""), false, 0)
  }

  // ---- one header block ----

  /** Headers read so far; `fault` once a line was refused. */
  datatype Head = Head(m: Message, chunked: bool, fault: Option<Fault>)

  function StatusLine(m: Message, line: string): Head {
    if !IStartsWith(line, "http/1.") then Head(m, false, Some(BadStatusLine))
    else
      var m1 := m.(keepAlive := !(|line| > 7 && line[7] == '0'));
      var sp := Find(line, " ", 0);
      if sp < 0 || sp + 4 > |line| then Head(m1, false, Some(BadStatusLine))
      else
        match ParseInt(line[sp + 1..sp + 4], INT_MIN, INT_MAX)
        case None => Head(m1, false, Some(BadStatusCode))
        case Some(code) => Head(m1.(status := code), false, None)
  }

  /** The number after "timeout=" in a Keep-Alive header. */
  function Timeout(value: string): Option<int> {
    var t := IFind(value, "timeout=");
    if t < 0 then None else ParseInt(value[t + 8..DigitsFrom(value, t + 8)], INT_MIN, INT_MAX)
  }

  function Field(h: Head, name: string, value: string): Head {
    if IEquals(name, "content-length") then
      match ParseInt(value, INT64_MIN, INT64_MAX)
      case Some(n) => if n < 0 then h.(fault := Some(BadContentLength)) else h.(m := h.m.(contentLength := n))
      case None => h.(fault := Some(BadContentLength))
    else if IEquals(name, "content-encoding") then
      if IFind(value, "gzip") >= 0 then h.(m := h.m.(gzip := true))
      else if IFind(value, "deflate") >= 0 then h.(m := h.m.(deflate := true))
      else h
    else if IEquals(name, "connection") then
      if IFind(value, "close") >= 0 then h.(m := h.m.(keepAlive := false))
      else if IFind(value, "keep-alive") >= 0 then h.(m := h.m.(keepAlive := true))
      else h
    else if IEquals(name, "content-type") then h.(m := h.m.(contentType := value))
    else if IEquals(name, "transfer-encoding") && IFind(value, "chunked") >= 0 then h.(chunked := true)
    else if IEquals(name, "etag") then h.(m := h.m.(etag := value))
    else if IEquals(name, "last-modified") then h.(m := h.m.(lastModified := value))
    else if IEquals(name, "location") then h.(m := h.m.(location := value))
    else if IEquals(name, "keep-alive") then
      match Timeout(value)
      case Some(v) => h.(m := h.m.(timeout := v))
      case None => h
    else h
  }

  /** A header line; one without a colon is skipped. */
  function Line(h: Head, line: string): Head {
    var colon := Find(line, ":", 0);
    if colon < 0 then h else Field(h, Trim(line[..colon]), Trim(line[colon + 1..]))
  }

  /** Header lines up to the first refused one. */
  function Lines(h: Head, lines: seq<string>): Head
    decreases |lines|
  {
    if h.fault.Some? || lines == [] then h else Lines(Line(h, lines[0]), lines[1..])
  }

  /** The position behind the line that starts at `pos`, CR LF included. */
  function LineEnd(text: string, pos: nat): (e: nat)
    requires pos <= |text|
    ensures pos <= e <= |text|
  {
    var e := Find(text, CRLF, pos);
    if e < 0 then |text| else e
  }

  function SplitLines(text: string, pos: nat): seq<string>
    decreases |text| - pos
  {
    if pos >= |text| then []
    else [text[pos..LineEnd(text, pos)]] + SplitLines(text, LineEnd(text, pos) + 2)
  }

  function ParseHead(m: Message, text: string): Head {
    var e := LineEnd(text, 0);
    Lines(StatusLine(m, text[..e]), SplitLines(text, e + 2))
  }

  function Render(lines: seq<string>): string {
    if lines == [] then "" else lines[0] + CRLF + Render(lines[1..])
  }

  lemma {:induction false} SplitRendered(text: string, pos: nat, lines: seq<string>)
    requires At(text, Render(lines), pos) && |text| == pos + |Render(lines)|
    requires forall i :: 0 <= i < |lines| ==> NoCr(lines[i])
    ensures SplitLines(text, pos) == lines
    decreases |lines|
  {
    hide At, NoCr, Find;
    if lines != [] {
      AtConcat(text, lines[0] + CRLF, Render(lines[1..]), pos);
      AtConcat(text, lines[0], CRLF, pos);
      LineEnds(text, lines[0], pos);
      SplitRendered(text, pos + |lines[0]| + 2, lines[1..]);
    }
  }

  /** A rendered header block is read line by line, the status line first. */
  lemma {:induction false} HeadRoundTrip(m: Message, status: string, lines: seq<string>)
    requires NoCr(status) && forall i :: 0 <= i < |lines| ==> NoCr(lines[i])
    ensures ParseHead(m, status + CRLF + Render(lines)) == Lines(StatusLine(m, status), lines)
  {
    hide NoCr, Find, Lines, StatusLine;
    var text := status + CRLF + Render(lines);
    assert At(text, text, 0);
    AtConcat(text, status + CRLF, Render(lines), 0);
    AtConcat(text, status, CRLF, 0);
    LineEnds(text, status, 0);
    assert text[..|status|] == text[0..0 + |status|];
    SplitRendered(text, |status| + 2, lines);
  }

  // ---- where a header block leads ----

  predicate Interim(m: Message) {
    100 <= m.status < 200 && m.status != 101
  }

  function NextPhase(head: bool, h: Head): Phase {
    if head || h.m.status == 204 || h.m.status == 304 || 100 <= h.m.status < 200 then Complete
    else if h.chunked then InChunks
    else if h.m.contentLength >= 0 then InLength
    else UntilClose
  }

  /** The parser behind a header block that ends with the empty line at `e`. */
  function AfterHead(p: Parser, h: Head, e: nat): Parser {
    var phase := NextPhase(p.head, h);
    var m := if phase.UntilClose? then h.m.(keepAlive := false) else h.m;
    var p1 := p.(phase := phase, m := m, dechunked := p.dechunked || phase.InChunks?, bodyStart := e + 4);
    if Interim(m) then p1.(phase := InHeaders, scan := e + 4) else p1.(d := p1.d.(cpos := e + 4))
  }

  /** Where the search for the end of the headers resumes. */
  function From(scan: nat): nat {
    if scan > 3 then scan - 3 else 0
  }

  /** The body starts right behind an empty line. */
  predicate Anchored(p: Parser, s: string) {
    p.bodyStart == 0 || (p.bodyStart >= 4 && At(s, HEAD_END, p.bodyStart - 4))
  }

  predicate Valid(p: Parser, s: string) {
    && p.bodyStart <= |s|
    && (p.phase.InHeaders? ==> p.bodyStart <= p.scan <= |s| && Anchored(p, s) && p.d == Decoder(Size, p.d.cpos, 0, "")
                               && !p.dechunked)
    && (!p.phase.Complete? ==> p.bodyLen == 0)
    && (p.phase.InChunks? ==> InBuffer(s, p.d) && p.dechunked)
    && (p.phase.InLength? ==> p.m.contentLength >= 0 && !p.dechunked)
    && (p.phase.UntilClose? ==> !p.dechunked)
    && (p.phase.Complete? ==> p.bodyStart + p.bodyLen <= |s|)
  }

  /** An end of headers found when resuming lies at or behind the start of the block. */
  lemma {:induction false} BlockIsForward(p: Parser, s: string)
    requires p.phase.InHeaders? && Valid(p, s)
    ensures var e := Find(s, HEAD_END, From(p.scan)); e >= 0 ==> e + 2 >= p.bodyStart
  {
    if p.bodyStart >= 4 {
      assert s[p.bodyStart - 4 + 2] == HEAD_END[2];
      assert At(s, HEAD_END, p.bodyStart - 3) ==> s[p.bodyStart - 3 + 1] == HEAD_END[1];
    }
  }

  lemma {:induction false} HeadFits(p: Parser, s: string, h: Head, e: nat)
    requires p.phase.InHeaders? && Valid(p, s) && At(s, HEAD_END, e)
    ensures Valid(AfterHead(p, h, e), s)
  {
  }

  /** The header loop either waits for more, refuses a block that ends at `end`, or gets behind it. */
  datatype Headed = Stalled(p: Parser) | Refused(p: Parser, fault: Fault, end: nat) | Through(p: Parser, end: nat)

  function Block(p: Parser, s: string, e: nat): string
    requires p.bodyStart <= e + 2 <= |s|
  {
    s[p.bodyStart..e + 2]
  }

  function Heads(p: Parser, s: string): (r: Headed)
    requires p.phase.InHeaders? && Valid(p, s)
    ensures r.Through? ==> Valid(r.p, s) && !r.p.phase.InHeaders?
    ensures r.Stalled? ==> Valid(r.p, s) && r.p.phase.InHeaders?
    ensures r.Refused? ==> r.fault != HeadersTooLarge
    ensures !r.Stalled? ==> 0 < r.end <= |s|
    decreases |s| - p.bodyStart
  {
    hide ParseHead, Find, At, NextPhase, Interim;
    var e := Find(s, HEAD_END, From(p.scan));
    BlockIsForward(p, s);
    if e < 0 then Stalled(p.(scan := |s|))
    else
      var h := ParseHead(p.m, Block(p, s, e));
      if h.fault.Some? then HeadFaults(p.m, Block(p, s, e)); Refused(p.(m := h.m), h.fault.value, e + 4)
      else
        var p' := AfterHead(p, h, e);
        HeadFits(p, s, h, e);
        if p'.phase.InHeaders? then Heads(p', s) else Through(p', e + 4)
  }

  lemma {:induction false} HeadFaults(m: Message, text: string)
    ensures ParseHead(m, text).fault != Some(HeadersTooLarge)
  {
    var e := LineEnd(text, 0);
    LinesFaults(StatusLine(m, text[..e]), SplitLines(text, e + 2));
  }

  lemma {:induction false} LinesFaults(h: Head, lines: seq<string>)
    requires h.fault != Some(HeadersTooLarge)
    ensures Lines(h, lines).fault != Some(HeadersTooLarge)
    decreases |lines|
  {
    if h.fault.None? && lines != [] {
      LinesFaults(Line(h, lines[0]), lines[1..]);
    }
  }

  // ---- feeding ----

  function Body(p: Parser, s: string, eof: bool): (rp: (Result, Parser))
    requires Valid(p, s) && !p.phase.InHeaders?
    ensures Valid(rp.1, s) && (rp.0.Error? ==> rp.0.fault != HeadersTooLarge)
    ensures rp.0 == Done ==> rp.1.phase.Complete?
    ensures rp.0 == NeedMore ==> !eof && !rp.1.phase.InHeaders?
  {
    match p.phase
    case InLength =>
      if |s| - p.bodyStart < p.m.contentLength then (if eof then Error(EofInBody) else NeedMore, p)
      else (Done, p.(bodyLen := p.m.contentLength, phase := Complete))
    case InChunks =>
      var (r, d) := Decode(s, p.d);
      if r == Done then (Done, p.(d := d, phase := Complete))
      else (if r == NeedMore && eof then Error(EofInChunks) else r, p.(d := d))
    case UntilClose =>
      if !eof then (NeedMore, p) else (Done, p.(bodyLen := |s| - p.bodyStart, phase := Complete))
    case Complete => (Done, p)
    case InHeaders => (NeedMore, p)
  }

  function Feed(p: Parser, s: string, eof: bool): (rp: (Result, Parser))
    requires Valid(p, s)
    ensures rp.0 == NeedMore ==> Valid(rp.1, s) && !eof
    ensures rp.0 == Done ==> Valid(rp.1, s) && rp.1.phase.Complete?
  {
    if !p.phase.InHeaders? then Body(p, s, eof)
    else
      match Heads(p, s)
      case Stalled(p') => (if |s| > MAX_HEAD then Error(HeadersTooLarge) else if eof then Error(EofInHeaders) else NeedMore, p')
      case Refused(p', fault, _) => (Error(fault), p')
      case Through(p', _) => Body(p', s, eof)
  }

  // ---- resuming ----

  /** The search position no longer matters once the headers are through. */
  function Settled(h: Headed): Headed {
    match h
    case Stalled(p) => h
    case Refused(p, fault, end) => Refused(p.(scan := 0), fault, end)
    case Through(p, end) => Through(p.(scan := 0), end)
  }

  function Answer(rp: (Result, Parser)): (Result, Parser) {
    if rp.0 == NeedMore && rp.1.phase.InHeaders? then rp else (rp.0, rp.1.(scan := 0))
  }

  lemma {:induction false} ValidGrows(p: Parser, a: string, b: string)
    requires a <= b && Valid(p, a)
    ensures Valid(p, b)
  {
    if p.bodyStart >= 4 {
      AtGrows(a, b, HEAD_END, p.bodyStart - 4);
    }
  }

  lemma {:induction false} BlockGrows(p: Parser, a: string, b: string, e: nat)
    requires a <= b && p.bodyStart <= e + 2 <= |a|
    ensures Block(p, a, e) == Block(p, b, e)
  {
  }

  lemma {:induction false} AfterHeadMoves(p: Parser, h: Head, e: nat)
    ensures AfterHead(p, h, e).bodyStart == e + 4
  {
  }

  lemma {:induction false} AfterHeadForgets(p: Parser, scan: nat, h: Head, e: nat)
    ensures var p1, p2 := AfterHead(p, h, e), AfterHead(p.(scan := scan), h, e);
            if p1.phase.InHeaders? then p1 == p2 else p1.(scan := 0) == p2.(scan := 0)
  {
  }

  /** Headers that end do so behind where the parser stood. */
  lemma {:induction false} HeadsEnd(p: Parser, s: string)
    requires p.phase.InHeaders? && Valid(p, s)
    ensures Heads(p, s).Stalled? || Heads(p, s).end > p.bodyStart
    decreases |s| - p.bodyStart
  {
    hide ParseHead, At, AfterHead, Interim, Find;
    BlockIsForward(p, s);
    var e := Find(s, HEAD_END, From(p.scan));
    if e >= 0 {
      var h := ParseHead(p.m, Block(p, s, e));
      HeadFits(p, s, h, e);
      AfterHeadMoves(p, h, e);
      if h.fault.None? && AfterHead(p, h, e).phase.InHeaders? {
        HeadsEnd(AfterHead(p, h, e), s);
      }
    }
  }

  /** Only the last three bytes of what was searched need be searched again. */
  lemma {:induction false} StallFinds(p: Parser, a: string, b: string)
    requires a <= b && p.scan <= |a| && Find(a, HEAD_END, From(p.scan)) < 0
    ensures var e := Find(b, HEAD_END, From(p.scan)); Find(b, HEAD_END, From(|a|)) == e && (e < 0 || e + 4 > |a|)
  {
    FindGrows(a, b, HEAD_END, From(p.scan));
    if |a| > 3 {
      assert From(|a|) + |HEAD_END| <= |a| + 1;
    } else {
      assert From(p.scan) == From(|a|) == 0;
    }
    var e := Find(b, HEAD_END, From(p.scan));
    if e >= 0 {
      AtGrows(a, b, HEAD_END, e);
    }
  }

  lemma {:induction false} StallGrows(p: Parser, a: string, b: string)
    requires a <= b && p.phase.InHeaders? && Valid(p, a) && Valid(p, b) && Find(a, HEAD_END, From(p.scan)) < 0
    ensures var p' := p.(scan := |a|);
            Valid(p', b) && Settled(Heads(p', b)) == Settled(Heads(p, b)) && (Heads(p, b).Stalled? || Heads(p, b).end > |a|)
  {
    hide ParseHead, At, AfterHead, Interim, Find;
    var p' := p.(scan := |a|);
    assert Anchored(p', a) == Anchored(p, a);
    ValidGrows(p', a, b);
    StallFinds(p, a, b);
    var e := Find(b, HEAD_END, From(p.scan));
    BlockIsForward(p, b);
    if e >= 0 {
      var h := ParseHead(p.m, Block(p, b, e));
      assert Block(p', b, e) == Block(p, b, e);
      AfterHeadForgets(p, |a|, h, e);
      HeadFits(p, b, h, e);
      AfterHeadMoves(p, h, e);
      if h.fault.None? && AfterHead(p, h, e).phase.InHeaders? {
        HeadsEnd(AfterHead(p, h, e), b);
      }
    }
  }

  /**
   Header blocks already read stay as they are; a parser waiting for the end of a block gets on from
   where it stopped as it would from the start.
   */
  lemma {:induction false} HeadsGrow(p: Parser, a: string, b: string)
    requires a <= b && p.phase.InHeaders? && Valid(p, a)
    ensures Valid(p, b)
    ensures !Heads(p, a).Stalled? ==> Heads(p, b) == Heads(p, a)
    ensures Heads(p, a).Stalled? ==> Valid(Heads(p, a).p, b) && Settled(Heads(Heads(p, a).p, b)) == Settled(Heads(p, b))
                                     && (Heads(p, b).Stalled? || Heads(p, b).end > |a|)
    decreases |a| - p.bodyStart
  {
    hide ParseHead, At, AfterHead, Interim, Find;
    ValidGrows(p, a, b);
    FindGrows(a, b, HEAD_END, From(p.scan));
    BlockIsForward(p, a);
    var e := Find(a, HEAD_END, From(p.scan));
    if e < 0 {
      StallGrows(p, a, b);
    } else {
      BlockGrows(p, a, b, e);
      var h := ParseHead(p.m, Block(p, a, e));
      if h.fault.None? {
        HeadFits(p, a, h, e);
        AfterHeadMoves(p, h, e);
        if AfterHead(p, h, e).phase.InHeaders? {
          HeadsGrow(AfterHead(p, h, e), a, b);
        }
      }
    }
  }

  lemma {:induction false} BodyGrows(p: Parser, a: string, b: string, eof: bool)
    requires a <= b && Valid(p, a) && !p.phase.InHeaders?
    ensures var (r, p') := Body(p, a, false);
            Valid(p, b) && Valid(p', b) && (if r == NeedMore then Body(p', b, eof) == Body(p, b, eof) else Body(p, b, eof) == (r, p'))
  {
    ValidGrows(p, a, b);
    if p.phase.InChunks? {
      DecodeResumes(a, b, p.d);
    }
  }

  lemma {:induction false} BodyForgets(p: Parser, s: string, eof: bool)
    requires Valid(p, s) && !p.phase.InHeaders?
    ensures Valid(p.(scan := 0), s) && Answer(Body(p.(scan := 0), s, eof)) == Answer(Body(p, s, eof))
  {
    hide Decode;
  }

  /**
   Feeding what has arrived and then the longer buffer answers like feeding the longer buffer at once;
   an answer once given stands, except that headers found too large may have found their end by then.
   */
  lemma {:induction false} FeedResumes(p: Parser, a: string, b: string, eof: bool)
    requires a <= b && Valid(p, a)
    ensures var (r, p') := Feed(p, a, false);
            && Valid(p, b)
            && (r == NeedMore ==> Valid(p', b) && Answer(Feed(p', b, eof)) == Answer(Feed(p, b, eof)))
            && (r != NeedMore && r != Error(HeadersTooLarge) ==> Feed(p, b, eof) == (r, p'))
  {
    ValidGrows(p, a, b);
    if p.phase.InHeaders? {
      HeadsGrow(p, a, b);
      HeadsResume(p, a, b, eof);
    } else {
      BodyGrows(p, a, b, eof);
    }
  }

  lemma {:induction false} HeadsResume(p: Parser, a: string, b: string, eof: bool)
    requires a <= b && p.phase.InHeaders? && Valid(p, a) && Valid(p, b)
    ensures var (r, p') := Feed(p, a, false);
            && (r == NeedMore ==> Valid(p', b) && Answer(Feed(p', b, eof)) == Answer(Feed(p, b, eof)))
            && (r != NeedMore && r != Error(HeadersTooLarge) ==> Feed(p, b, eof) == (r, p'))
  {
    hide Heads, Body;
    HeadsGrow(p, a, b);
    match Heads(p, a) {
      case Stalled(p') =>
        SettledFeeds(p, p', b, eof);
      case Refused(_, _, _) =>
      case Through(p', _) =>
        BodyGrows(p', a, b, eof);
    }
  }

  lemma {:induction false} SettledFeeds(p: Parser, q: Parser, s: string, eof: bool)
    requires p.phase.InHeaders? && q.phase.InHeaders? && Valid(p, s) && Valid(q, s)
    requires Settled(Heads(p, s)) == Settled(Heads(q, s))
    ensures Answer(Feed(p, s, eof)) == Answer(Feed(q, s, eof))
  {
    hide Heads, Body;
    if Heads(p, s).Through? {
      BodyForgets(Heads(p, s).p, s, eof);
      BodyForgets(Heads(q, s).p, s, eof);
    }
  }

  // ---- any way of splitting the stream ----

  /** What the caller gets to see: nothing yet, a failure, or a message with its body. */
  datatype Verdict = Waiting | Failed(fault: Fault) | Got(m: Message, body: string)

  function BodyText(p: Parser, s: string): string
    requires p.phase.Complete? && Valid(p, s)
  {
    if p.dechunked then p.d.out else s[p.bodyStart..p.bodyStart + p.bodyLen]
  }

  function Observe(rp: (Result, Parser), s: string): Verdict
    requires rp.0 == Done ==> rp.1.phase.Complete? && Valid(rp.1, s)
  {
    match rp.0
    case NeedMore => Waiting
    case Error(fault) => Failed(fault)
    case Done => Got(rp.1.m, BodyText(rp.1, s))
  }

  ghost predicate Growing(ps: seq<string>) {
    forall i, j :: 0 <= i < j < |ps| ==> ps[i] <= ps[j]
  }

  /** The caller's loop: feeds growing prefixes until the parser answers; `eof` comes with the last. */
  ghost function Drive(p: Parser, ps: seq<string>, eof: bool): Verdict
    requires ps != [] && Growing(ps) && Valid(p, ps[0])
    decreases |ps|
  {
    var rp := Feed(p, ps[0], eof && |ps| == 1);
    if rp.0 == NeedMore && |ps| > 1 then
      ValidGrows(rp.1, ps[0], ps[1]);
      Drive(rp.1, ps[1..], eof)
    else Observe(rp, ps[0])
  }

  function HeadEnd(p: Parser, s: string): nat
    requires Valid(p, s)
  {
    if !p.phase.InHeaders? || Heads(p, s).Stalled? then 0 else Heads(p, s).end
  }

  /** Some prefix before the last is over the limit while the headers still go on. */
  ghost predicate Overfed(p: Parser, ps: seq<string>)
    requires ps != [] && Valid(p, ps[|ps| - 1])
  {
    exists i :: 0 <= i < |ps| - 1 && MAX_HEAD < |ps[i]| < HeadEnd(p, ps[|ps| - 1])
  }

  lemma {:induction false} AnswersObserve(x: (Result, Parser), y: (Result, Parser), s: string)
    requires Answer(x) == Answer(y)
    requires x.0 == Done ==> x.1.phase.Complete? && Valid(x.1, s)
    requires y.0 == Done ==> y.1.phase.Complete? && Valid(y.1, s)
    ensures Observe(x, s) == Observe(y, s)
  {
  }

  lemma {:induction false} BodyStays(p: Parser, a: string, b: string)
    requires a <= b && p.phase.Complete? && Valid(p, a)
    ensures Valid(p, b) && BodyText(p, a) == BodyText(p, b)
  {
    ValidGrows(p, a, b);
  }

  /** Headers that are through in `a` ended there; ones that are not end later if at all. */
  lemma {:induction false} HeadEndGrows(p: Parser, a: string, b: string)
    requires a <= b && Valid(p, a)
    ensures Valid(p, b)
    ensures p.phase.InHeaders? && Heads(p, a).Stalled? ==> HeadEnd(p, b) == 0 || HeadEnd(p, b) > |a|
    ensures p.phase.InHeaders? && Heads(p, a).Stalled? ==> Valid(Heads(p, a).p, b) && HeadEnd(Heads(p, a).p, b) == HeadEnd(p, b)
    ensures !p.phase.InHeaders? || !Heads(p, a).Stalled? ==> HeadEnd(p, b) <= |a|
  {
    ValidGrows(p, a, b);
    if p.phase.InHeaders? {
      HeadsGrow(p, a, b);
    }
  }

  lemma {:induction false} TooLargeVerdict(p: Parser, a: string, b: string, eof: bool)
    requires a <= b && Valid(p, a) && Feed(p, a, false).0 == Error(HeadersTooLarge)
    ensures Valid(p, b) && |a| > MAX_HEAD
    ensures Observe(Feed(p, b, eof), b) == Failed(HeadersTooLarge) <==> HeadEnd(p, b) == 0
    ensures HeadEnd(p, b) == 0 || HeadEnd(p, b) > |a|
  {
    hide Heads, Body, BodyText, Valid;
    HeadEndGrows(p, a, b);
    TooLargeIsStalled(p, a, false);
    TooLargeIsStalled(p, b, eof);
  }

  lemma {:induction false} TooLargeIsStalled(p: Parser, s: string, eof: bool)
    requires Valid(p, s)
    ensures Feed(p, s, eof).0 == Error(HeadersTooLarge) <==> p.phase.InHeaders? && Heads(p, s).Stalled? && |s| > MAX_HEAD
  {
    hide Heads, Body;
  }

  /** A parser that asks for more has not been overfed. */
  lemma {:induction false} OverfedLater(p: Parser, ps: seq<string>)
    requires |ps| > 1 && Growing(ps) && Valid(p, ps[0]) && Feed(p, ps[0], false).0 == NeedMore
    ensures var p', last := Feed(p, ps[0], false).1, ps[|ps| - 1];
            Valid(p, last) && Valid(p', last) && (Overfed(p, ps) <==> Overfed(p', ps[1..]))
  {
    var a, last := ps[0], ps[|ps| - 1];
    var p', qs := Feed(p, a, false).1, ps[1..];
    HeadEndGrows(p, a, last);
    WaitingIs(p, a);
    ValidGrows(p', a, last);
    assert qs[|qs| - 1] == last;
    forall i | 0 <= i < |ps| - 1 ensures |ps[i]| >= |a| {
    }
    hide Heads, Body, Valid, Growing;
    if Overfed(p, ps) {
      var i :| 0 <= i < |ps| - 1 && MAX_HEAD < |ps[i]| < HeadEnd(p, last);
      assert qs[i - 1] == ps[i];
    }
    if Overfed(p', qs) {
      var i :| 0 <= i < |qs| - 1 && MAX_HEAD < |qs[i]| < HeadEnd(p', last);
      assert qs[i] == ps[i + 1];
    }
  }

  lemma {:induction false} WaitingIs(p: Parser, a: string)
    requires Valid(p, a) && Feed(p, a, false).0 == NeedMore
    ensures var p' := Feed(p, a, false).1;
            if p.phase.InHeaders? && Heads(p, a).Stalled? then p' == Heads(p, a).p && |a| <= MAX_HEAD
            else !p'.phase.InHeaders?
  {
    hide Heads, Decode;
  }

  /**
   However the stream is cut, the caller gets what one feed of the whole would give - exactly unless a
   prefix over the limit was fed while the headers still went on.
   */
  lemma {:induction false} SplitsAgree(p: Parser, ps: seq<string>, eof: bool)
    requires ps != [] && Growing(ps) && Valid(p, ps[0])
    ensures var last := ps[|ps| - 1];
            Valid(p, last) && (Drive(p, ps, eof) == Observe(Feed(p, last, eof), last) <==> !Overfed(p, ps))
    decreases |ps|
  {
    hide Heads, Body, Valid, HeadEnd, Answer, At;
    if |ps| > 1 {
      var a, last := ps[0], ps[|ps| - 1];
      var (r, p') := Feed(p, a, false);
      FeedResumes(p, a, last, eof);
      HeadEndGrows(p, a, last);
      if r == NeedMore {
        ValidGrows(p', a, ps[1]);
        SplitsAgree(p', ps[1..], eof);
        OverfedLater(p, ps);
        AnswersObserve(Feed(p', last, eof), Feed(p, last, eof), last);
      } else if r == Error(HeadersTooLarge) {
        TooLargeVerdict(p, a, last, eof);
        OverfedNow(p, ps);
      } else {
        AnsweredIs(p, ps);
        if r == Done {
          BodyStays(p', a, last);
        }
      }
    }
  }

  lemma {:induction false} OverfedNow(p: Parser, ps: seq<string>)
    requires |ps| > 1 && Valid(p, ps[|ps| - 1]) && |ps[0]| > MAX_HEAD
    requires HeadEnd(p, ps[|ps| - 1]) == 0 || HeadEnd(p, ps[|ps| - 1]) > |ps[0]|
    ensures Overfed(p, ps) <==> HeadEnd(p, ps[|ps| - 1]) > 0
  {
    hide HeadEnd;
  }

  lemma {:induction false} AnsweredIs(p: Parser, ps: seq<string>)
    requires |ps| > 1 && Growing(ps) && Valid(p, ps[0])
    requires Feed(p, ps[0], false).0 != NeedMore && Feed(p, ps[0], false).0 != Error(HeadersTooLarge)
    ensures Valid(p, ps[|ps| - 1]) && !Overfed(p, ps)
  {
    var a, last := ps[0], ps[|ps| - 1];
    HeadEndGrows(p, a, last);
    assert !p.phase.InHeaders? || !Heads(p, a).Stalled?;
    forall i | 0 <= i < |ps| - 1 ensures |ps[i]| >= |a| {
    }
  }

  // ---- whole responses ----

  ghost predicate HeaderLine(s: string) {
    s != [] && NoCr(s)
  }

  ghost predicate HeaderLines(lines: seq<string>) {
    forall i :: 0 <= i < |lines| ==> HeaderLine(lines[i])
  }

  lemma {:induction false} FindLater(s: string, pat: string, from: nat, upTo: nat)
    requires from <= upTo && forall i: nat :: from <= i < upTo ==> !At(s, pat, i)
    ensures Find(s, pat, from) == Find(s, pat, upTo)
    decreases upTo - from
  {
    if from < upTo {
      if from + |pat| <= |s| {
        FindLater(s, pat, from + 1, upTo);
      } else {
        assert Find(s, pat, from) == -1;
      }
    }
  }

  lemma {:induction false} NoEndInLine(s: string, line: string, i: nat)
    requires At(s, line, i) && NoCr(line)
    ensures forall j: nat :: i <= j < i + |line| ==> !At(s, HEAD_END, j)
  {
    forall j: nat | i <= j < i + |line| ensures !At(s, HEAD_END, j) {
      assert s[i + (j - i)] == line[j - i];
      FirstIs(s, HEAD_END, j);
    }
  }

  /** A non-empty line follows, so the headers do not end in front of it. */
  lemma {:induction false} NoEndBefore(s: string, line: string, i: nat)
    requires At(s, CRLF, i) && At(s, line, i + 2) && HeaderLine(line)
    ensures !At(s, HEAD_END, i) && !At(s, HEAD_END, i + 1)
  {
    assert s[i + 1] == CRLF[1];
    FirstIs(s, HEAD_END, i + 1);
    FirstIs(s, line, i + 2);
    ThirdIs(s, i);
  }

  lemma {:induction false} ThirdIs(s: string, i: nat)
    ensures At(s, HEAD_END, i) ==> i + 2 < |s| && s[i + 2] == '\r'
  {
    assert At(s, HEAD_END, i) ==> s[i + 2] == HEAD_END[2];
  }

  lemma {:induction false} EndAfter(s: string, lines: seq<string>, i: nat)
    requires At(s, CRLF, i) && At(s, Render(lines) + CRLF, i + 2) && HeaderLines(lines)
    ensures Find(s, HEAD_END, i) == i + |Render(lines)|
    decreases |lines|
  {
    if lines == [] {
      assert Render(lines) + CRLF == CRLF && CRLF + CRLF == HEAD_END;
      AtConcat(s, CRLF, CRLF, i);
    } else {
      EndAfterLine(s, lines, i);
      EndAfter(s, lines[1..], i + 2 + |lines[0]|);
    }
  }

  lemma {:induction false} EndAfterLine(s: string, lines: seq<string>, i: nat)
    requires lines != [] && At(s, CRLF, i) && At(s, Render(lines) + CRLF, i + 2) && HeaderLine(lines[0])
    ensures var j := i + 2 + |lines[0]|;
            At(s, CRLF, j) && At(s, Render(lines[1..]) + CRLF, j + 2) && Find(s, HEAD_END, i) == Find(s, HEAD_END, j)
  {
    hide At, Find, HeaderLine;
    var line := lines[0];
    assert Render(lines) + CRLF == line + CRLF + (Render(lines[1..]) + CRLF);
    AtConcat(s, line + CRLF, Render(lines[1..]) + CRLF, i + 2);
    AtConcat(s, line, CRLF, i + 2);
    LineHasNoCr(line);
    NoEndInLine(s, line, i + 2);
    NoEndBefore(s, line, i);
    FindLater(s, HEAD_END, i, i + 2 + |line|);
  }

  lemma {:induction false} LineHasNoCr(line: string)
    requires HeaderLine(line)
    ensures NoCr(line)
  {
  }

  /** The header block of a response: status line, header lines, empty line. */
  function HeadText(status: string, lines: seq<string>): string {
    status + CRLF + (Render(lines) + CRLF)
  }

  /** Where the headers of a response say the parser goes. */
  function Behind(head: bool, status: string, lines: seq<string>): Parser {
    AfterHead(Fresh(head), Lines(StatusLine(Fresh(head).m, status), lines), |status| + |Render(lines)|)
  }

  lemma {:induction false} HeadRead(s: string, head: bool, status: string, lines: seq<string>)
    requires HeadText(status, lines) <= s && NoCr(status) && HeaderLines(lines)
    ensures Find(s, HEAD_END, 0) == |status| + |Render(lines)|
    ensures |HeadText(status, lines)| == |status| + |Render(lines)| + 4
    ensures s[0..|status| + |Render(lines)| + 2] == status + CRLF + Render(lines)
  {
    hide NoCr;
    var h := HeadText(status, lines);
    assert At(s, h, 0);
    AtConcat(s, status + CRLF, Render(lines) + CRLF, 0);
    AtConcat(s, status, CRLF, 0);
    NoEndInLine(s, status, 0);
    FindLater(s, HEAD_END, 0, |status|);
    EndAfter(s, lines, |status|);
    assert h == (status + CRLF + Render(lines)) + CRLF;
  }

  /** At the start of a body. */
  predicate BehindHead(p: Parser, n: nat) {
    p.bodyStart == n && p.d == Decoder(Size, n, 0, "") && p.bodyLen == 0 && p.dechunked == p.phase.InChunks?
  }

  lemma {:induction false} AfterFirstHead(head: bool, h: Head, e: nat)
    ensures var p := AfterHead(Fresh(head), h, e); !p.phase.InHeaders? ==> BehindHead(p, e + 4)
  {
  }

  lemma {:induction false} HeadsThrough(s: string, head: bool, status: string, lines: seq<string>)
    requires HeadText(status, lines) <= s && NoCr(status) && HeaderLines(lines)
    requires Lines(StatusLine(Fresh(head).m, status), lines).fault.None? && !Behind(head, status, lines).phase.InHeaders?
    ensures Heads(Fresh(head), s) == Through(Behind(head, status, lines), |HeadText(status, lines)|)
    ensures BehindHead(Behind(head, status, lines), |HeadText(status, lines)|)
  {
    hide NoCr, ParseHead, Find, AfterHead, Lines, StatusLine, HeadText, Render;
    assert HeaderLines(lines) ==> forall i :: 0 <= i < |lines| ==> NoCr(lines[i]) by {
      forall i | 0 <= i < |lines| ensures HeaderLines(lines) ==> NoCr(lines[i]) {
        if HeaderLines(lines) {
          LineHasNoCr(lines[i]);
        }
      }
    }
    HeadRead(s, head, status, lines);
    HeadRoundTrip(Fresh(head).m, status, lines);
    AfterFirstHead(head, Lines(StatusLine(Fresh(head).m, status), lines), |status| + |Render(lines)|);
  }

  /**
   A chunked response - any headers that make it one, any chunks, extensions and trailers, followed by
   anything - gives its message and the concatenation of its chunks.
   */
  lemma {:induction false} ChunkedResponse(status: string, lines: seq<string>, chunks: seq<Chunk>, last: string,
                                           trailers: seq<string>, rest: string, eof: bool)
    requires NoCr(status) && HeaderLines(lines)
    requires Lines(StatusLine(Fresh(false).m, status), lines).fault.None? && Behind(false, status, lines).phase.InChunks?
    requires forall i :: 0 <= i < |chunks| ==> WellFormed(chunks[i])
    requires 0 < |last| <= 12 && HexValue(last) == Some(0) && ProperTrailers(trailers)
    ensures var s := HeadText(status, lines) + EncodeBody(chunks, last, trailers) + rest;
            Observe(Feed(Fresh(false), s, eof), s) == Got(Behind(false, status, lines).m, Payload(chunks))
  {
    hide NoCr, HeaderLines, WellFormed, Lines, StatusLine, HeadText, EncodeBody, Payload, Decode, HexValue, Heads, Behind;
    var h, b := HeadText(status, lines), EncodeBody(chunks, last, trailers);
    var s := h + b + rest;
    assert At(s, h + b, 0);
    AtConcat(s, h, b, 0);
    HeadsThrough(s, false, status, lines);
    ChunkedRoundTrip(s, |h|, chunks, last, trailers);
  }

  /** A response with a Content-Length gives exactly that much of what follows the headers. */
  lemma {:induction false} LengthResponse(status: string, lines: seq<string>, body: string, rest: string, eof: bool)
    requires NoCr(status) && HeaderLines(lines)
    requires Lines(StatusLine(Fresh(false).m, status), lines).fault.None? && Behind(false, status, lines).phase.InLength?
    requires |body| == Behind(false, status, lines).m.contentLength
    ensures var s := HeadText(status, lines) + body + rest;
            Observe(Feed(Fresh(false), s, eof), s) == Got(Behind(false, status, lines).m, body)
  {
    hide NoCr, HeaderLines, Lines, StatusLine, HeadText, Heads, Behind;
    var h := HeadText(status, lines);
    var s := h + body + rest;
    HeadsThrough(s, false, status, lines);
    assert s[|h|..|h| + |body|] == body;
  }

  // ---- the parser object ----

  class ResponseParser {
    var m: Message              // status, connection and validator fields, content length
    var error: Option<Fault>
    var phase: Phase
    var head: bool
    var scan: nat
    var bodyStart: nat
    var cs: ChunkState
    var cpos: nat
    var left: nat
    var out: string
    var useDechunked: bool
    var bodyLen: nat

    /** The chunk decoder's fields as one value. */
    function Chunks(): Decoder
      reads this`cs, this`cpos, this`left, this`out
    {
      Decoder(cs, cpos, left, out)
    }

    function State(): Parser
      reads this
    {
      Parser(phase, head, scan, bodyStart, m, Chunks(), useDechunked, bodyLen)
    }

    constructor ()
      ensures State() == Fresh(false) && error == None
    {
      m, error, phase, head, scan, bodyStart := Fresh(false).m, None, InHeaders, false, 0, 0;
      cs, cpos, left, out, useDechunked, bodyLen := Size, 0, 0, "", false, 0;
    }

    method Reset(headRequest: bool)
      modifies this
      ensures State() == Fresh(headRequest) && error == None
    {
      m, error, phase, head, scan, bodyStart := Fresh(headRequest).m, None, InHeaders, headRequest, 0, 0;
      cs, cpos, left, out, useDechunked, bodyLen := Size, 0, 0, "", false, 0;
    }

    /** Reads the digits of a chunk size. */
    static method ReadHex(line: string) returns (size: Option<nat>)
      ensures size == HexValue(line)
    {
      var n: nat := 0;
      var i: nat := 0;
      assert line[..0] == "";
      while i < |line|
        invariant i <= |line| && HexValue(line[..i]) == Some(n)
      {
        var d := HexDigit(line[i]);
        assert line[..i + 1][..i] == line[..i];
        if d.None? {
          NotHex(line, i);
          return None;
        }
        n := n * 16 + d.value;
        i := i + 1;
      }
      assert line[..i] == line;
      return Some(n);
    }

    static method ReadSize(line: string) returns (size: SizeLine)
      ensures size == ParseSize(line)
    {
      var t := Trim(BeforeSemicolon(line));
      if t == [] || |t| > 12 {
        return Bad(BadChunkSize);
      }
      var n := ReadHex(t);
      match n {
        case None => return Bad(BadChunkSize);
        case Some(k) =>
          if k > MAX_CHUNK {
            return Bad(ChunkTooLarge);
          }
          return Sized(k);
      }
    }

    method ChunkSize(s: string) returns (r: Option<Result>)
      requires InBuffer(s, Chunks()) && cs.Size?
      modifies this`cs, this`cpos, this`left, this`error
      ensures Stepped(SizeStep(s, old(Chunks())), r, Chunks())
    {
      var e := Find(s, CRLF, cpos);
      if e < 0 {
        return Some(NeedMore);
      }
      var size := ReadSize(s[cpos..e]);
      match size {
        case Bad(fault) =>
          error := Some(fault);
          return Some(Error(fault));
        case Sized(n) =>
          cpos := e + 2;
          if n == 0 {
            cs := Trailer;
          } else {
            cs, left := Data, n;
          }
          return None;
      }
    }

    method ChunkData(s: string) returns (r: Option<Result>)
      requires InBuffer(s, Chunks()) && cs.Data?
      modifies this`cs, this`cpos, this`left, this`out
      ensures Stepped(DataStep(s, old(Chunks())), r, Chunks())
    {
      var avail := |s| - cpos;
      var take := if avail < left then avail else left;
      out := out + s[cpos..cpos + take];
      cpos := cpos + take;
      left := left - take;
      if left > 0 {
        return Some(NeedMore);
      }
      cs := DataCrlf;
      return None;
    }

    method ChunkEnd(s: string) returns (r: Option<Result>)
      requires InBuffer(s, Chunks()) && cs.DataCrlf?
      modifies this`cs, this`cpos, this`error
      ensures Stepped(CrlfStep(s, old(Chunks())), r, Chunks())
    {
      if |s| - cpos < 2 {
        return Some(NeedMore);
      }
      if s[cpos] != '\r' || s[cpos + 1] != '\n' {
        error := Some(MissingChunkCrlf);
        return Some(Error(MissingChunkCrlf));
      }
      cpos := cpos + 2;
      cs := Size;
      return None;
    }

    method TrailerLine(s: string) returns (r: Option<Result>)
      requires InBuffer(s, Chunks()) && cs.Trailer?
      modifies this`cpos, this`phase
      ensures Stepped(TrailerStep(s, old(Chunks())), r, Chunks())
      ensures phase == if r == Some(Done) then Complete else old(phase)
    {
      var e := Find(s, CRLF, cpos);
      if e < 0 {
        return Some(NeedMore);
      }
      var empty := e == cpos;
      cpos := e + 2;
      if empty {
        phase := Complete;
        return Some(Done);
      }
      return None;
    }

    method ParseChunked(s: string) returns (r: Result)
      requires InBuffer(s, Chunks())
      modifies this`cs, this`cpos, this`left, this`out, this`phase, this`error
      ensures (r, Chunks()) == Decode(s, old(Chunks()))
      ensures phase == if r == Done then Complete else old(phase)
    {
      hide InBuffer, SizeStep, DataStep, CrlfStep, TrailerStep;
      ghost var start := Chunks();
      while true
        invariant InBuffer(s, Chunks()) && Decode(s, Chunks()) == Decode(s, start) && phase == old(phase)
        decreases |s| - cpos
      {
        ghost var step := DecodeStep(s, Chunks());
        InsideBuffer(s, Chunks());
        var t;
        match cs {
          case Size => t := ChunkSize(s);
          case Data => t := ChunkData(s);
          case DataCrlf => t := ChunkEnd(s);
          case Trailer => t := TrailerLine(s);
        }
        assert Stepped(step, t, Chunks());
        if t.Some? {
          return t.value;
        }
      }
    }

    /** Reads a header block; on a refused line what was read before it stays. */
    method ParseHeaders(text: string) returns (ok: bool)
      modifies this`m, this`error, this`phase, this`useDechunked
      ensures var h := ParseHead(old(m), text);
              if ok then h.fault.None? && phase == NextPhase(head, h)
                         && m == (if phase.UntilClose? then h.m.(keepAlive := false) else h.m)
                         && useDechunked == (old(useDechunked) || phase.InChunks?)
              else h.fault == error && error.Some? && m == h.m && phase == old(phase) && useDechunked == old(useDechunked)
      ensures ok ==> (phase.Complete? <==> head || m.status == 204 || m.status == 304 || 100 <= m.status < 200)
    {
      hide StatusLine, Line, Find;
      var eol := LineEnd(text, 0);
      var h := StatusLine(m, text[..eol]);
      var pos := eol + 2;
      while pos < |text| && h.fault.None?
        invariant Lines(h, SplitLines(text, pos)) == ParseHead(m, text)
        decreases |text| - pos, h.fault.None?
      {
        var e := LineEnd(text, pos);
        h := Line(h, text[pos..e]);
        pos := e + 2;
      }
      m := h.m;
      if h.fault.Some? {
        error := h.fault;
        return false;
      }
      phase := NextPhase(head, h);
      if phase.InChunks? {
        useDechunked := true;
      }
      if phase.UntilClose? {
        m := m.(keepAlive := false);
      }
      return true;
    }

    /** Takes the next header block if it is there. */
    method NextBlock(s: string) returns (r: Option<Result>)
      requires Valid(State(), s) && phase.InHeaders?
      modifies this
      ensures Blocked(old(State()), s, r, State())
    {
      hide ParseHead, Find, NextPhase, Interim;
      BlockIsForward(State(), s);
      var e := Find(s, HEAD_END, From(scan));
      if e < 0 {
        scan := |s|;
        return Some(NeedMore);
      }
      var ok := ParseHeaders(s[bodyStart..e + 2]);
      if !ok {
        return Some(Error(error.value));
      }
      bodyStart := e + 4;
      if Interim(m) {
        phase := InHeaders;
        scan := bodyStart;
      } else {
        cpos := bodyStart;
      }
      return None;
    }

    /** The body, or nothing once the message is complete. */
    method FeedBody(s: string, eof: bool) returns (r: Result)
      requires Valid(State(), s) && !phase.InHeaders?
      modifies this
      ensures (r, State()) == Body(old(State()), s, eof)
    {
      hide Decode, At;
      match phase {
        case InLength =>
          if |s| - bodyStart < m.contentLength {
            if eof {
              error := Some(EofInBody);
              return Error(EofInBody);
            }
            return NeedMore;
          }
          bodyLen := m.contentLength;
          phase := Complete;
          return Done;
        case InChunks =>
          r := ParseChunked(s);
          if r == NeedMore && eof {
            error := Some(EofInChunks);
            return Error(EofInChunks);
          }
        case UntilClose =>
          if !eof {
            return NeedMore;
          }
          bodyLen := |s| - bodyStart;
          phase := Complete;
          return Done;
        case Complete =>
          return Done;
      }
    }

    /** One call with all that has arrived; the answer and the new state are the specification's. */
    method Advance(s: string, eof: bool) returns (r: Result)
      requires Valid(State(), s)
      modifies this
      ensures (r, State()) == Feed(old(State()), s, eof)
    {
      hide Valid, Heads, Body, Blocked;
      while phase.InHeaders?
        invariant Valid(State(), s)
        invariant Feed(State(), s, eof) == Feed(old(State()), s, eof)
        decreases |s| + 1 - bodyStart, phase.InHeaders?
      {
        ghost var p := State();
        var wait := NextBlock(s);
        FeedUnfolds(p, s, eof, wait, State());
        if wait == Some(NeedMore) {
          if |s| > MAX_HEAD {
            error := Some(HeadersTooLarge);
            return Error(HeadersTooLarge);
          }
          if eof {
            error := Some(EofInHeaders);
            return Error(EofInHeaders);
          }
          return NeedMore;
        }
        if wait.Some? {
          return wait.value;
        }
      }
      FeedIsBody(State(), s, eof);
      r := FeedBody(s, eof);
    }

    method BodyView(s: string) returns (body: string)
      requires Valid(State(), s) && phase.Complete?
      ensures body == BodyText(State(), s)
    {
      body := if useDechunked then out else s[bodyStart..bodyStart + bodyLen];
    }

    /** A caller's whole exchange: the buffer grows, each feed resumes, until there is an answer. */
    method Exchange(ps: seq<string>, eof: bool, headRequest: bool) returns (verdict: Verdict)
      requires ps != [] && Growing(ps)
      modifies this
      ensures var last := ps[|ps| - 1];
              verdict == Observe(Feed(Fresh(headRequest), last, eof), last) <==> !Overfed(Fresh(headRequest), ps)
    {
      Reset(headRequest);
      FreshIsValid(headRequest, ps);
      SplitsAgree(Fresh(headRequest), ps, eof);
      ghost var goal := Drive(Fresh(headRequest), ps, eof);
      assert ps[0..] == ps;
      DriveUnfolds(Fresh(headRequest), ps, 0, eof, goal);
      hide Valid, Feed, Overfed, BodyText, Drive, Driven, Growing;
      var i: nat := 0;
      var r := Advance(ps[0], eof && |ps| == 1);
      while r == NeedMore && i + 1 < |ps|
        invariant i < |ps| && Driven(State(), r, ps, i, eof, goal)
      {
        DrivenOn(State(), ps, i, eof, goal);
        i := i + 1;
        DriveUnfolds(State(), ps, i, eof, goal);
        r := Advance(ps[i], eof && i + 1 == |ps|);
      }
      DrivenTo(State(), r, ps, i, eof, goal);
      match r {
        case NeedMore => verdict := Waiting;
        case Error(fault) => verdict := Failed(fault);
        case Done =>
          var body := BodyView(ps[i]);
          verdict := Got(m, body);
      }
    }
  }

  /** The caller's loop after feeding `ps[i]`: either it goes on from there, or this was the answer. */
  ghost predicate Driven(p: Parser, r: Result, ps: seq<string>, i: nat, eof: bool, goal: Verdict)
    requires i < |ps|
  {
    if r == NeedMore && i + 1 < |ps| then
      Valid(p, ps[i + 1]) && Growing(ps[i + 1..]) && goal == Drive(p, ps[i + 1..], eof)
    else
      (r == Done ==> p.phase.Complete? && Valid(p, ps[i])) && goal == Observe((r, p), ps[i])
  }

  lemma {:induction false} DriveUnfolds(p: Parser, ps: seq<string>, i: nat, eof: bool, goal: Verdict)
    requires i < |ps| && Valid(p, ps[i]) && Growing(ps[i..]) && goal == Drive(p, ps[i..], eof)
    ensures var rp := Feed(p, ps[i], eof && i + 1 == |ps|); Driven(rp.1, rp.0, ps, i, eof, goal)
  {
    hide Feed, Valid;
    var qs := ps[i..];
    var rp := Feed(p, ps[i], eof && i + 1 == |ps|);
    if i + 1 < |ps| {
      assert qs[1..] == ps[i + 1..] && qs[1] == ps[i + 1];
      if rp.0 == NeedMore {
        ValidGrows(rp.1, ps[i], ps[i + 1]);
      }
    }
  }

  lemma {:induction false} DrivenOn(p: Parser, ps: seq<string>, i: nat, eof: bool, goal: Verdict)
    requires i + 1 < |ps| && Driven(p, NeedMore, ps, i, eof, goal)
    ensures Valid(p, ps[i + 1]) && Growing(ps[i + 1..]) && goal == Drive(p, ps[i + 1..], eof)
  {
  }

  lemma {:induction false} DrivenTo(p: Parser, r: Result, ps: seq<string>, i: nat, eof: bool, goal: Verdict)
    requires i < |ps| && Driven(p, r, ps, i, eof, goal) && !(r == NeedMore && i + 1 < |ps|)
    ensures r == Done ==> p.phase.Complete? && Valid(p, ps[i])
    ensures goal == Observe((r, p), ps[i])
  {
  }

  ghost predicate Stepped(t: Step, r: Option<Result>, d: Decoder) {
    d == t.d && r == if t.Go? then None else Some(t.r)
  }

  lemma {:induction false} InsideBuffer(s: string, d: Decoder)
    requires InBuffer(s, d)
    ensures d.cpos <= |s|
    ensures DecodeStep(s, d).Stop? && DecodeStep(s, d).r == Done ==> d.cs.Trailer?
    ensures var t := DecodeStep(s, d); Decode(s, d) == if t.Go? then Decode(s, t.d) else (t.r, t.d)
  {
  }

  lemma {:induction false} NotHex(line: string, i: nat)
    requires i < |line| && HexDigit(line[i]).None?
    ensures HexValue(line).None?
  {
    HexHasDigitsOnly(line);
  }

  /** What taking one header block does: wait, refuse it, or get behind it. */
  ghost predicate Blocked(p: Parser, s: string, r: Option<Result>, p': Parser)
    requires p.phase.InHeaders? && Valid(p, s)
  {
    BlockIsForward(p, s);
    var e := Find(s, HEAD_END, From(p.scan));
    if e < 0 then r == Some(NeedMore) && p' == p.(scan := |s|)
    else
      var h := ParseHead(p.m, Block(p, s, e));
      if h.fault.Some? then r == Some(Error(h.fault.value)) && p' == p.(m := h.m)
      else r == None && p' == AfterHead(p, h, e)
  }

  lemma {:induction false} FeedUnfolds(p: Parser, s: string, eof: bool, r: Option<Result>, p': Parser)
    requires p.phase.InHeaders? && Valid(p, s) && Blocked(p, s, r, p')
    ensures r == None ==> Valid(p', s) && Feed(p, s, eof) == Feed(p', s, eof) && p.bodyStart < p'.bodyStart <= |s|
    ensures r == Some(NeedMore)
            ==> Feed(p, s, eof) == (if |s| > MAX_HEAD then Error(HeadersTooLarge) else if eof then Error(EofInHeaders) else NeedMore, p')
    ensures r.Some? && r != Some(NeedMore) ==> Feed(p, s, eof) == (r.value, p')
  {
    hide ParseHead, At, AfterHead, Interim, Find, Body;
    BlockIsForward(p, s);
    var e := Find(s, HEAD_END, From(p.scan));
    if e >= 0 {
      var h := ParseHead(p.m, Block(p, s, e));
      HeadFits(p, s, h, e);
      AfterHeadMoves(p, h, e);
    }
  }

  lemma {:induction false} FeedIsBody(p: Parser, s: string, eof: bool)
    requires Valid(p, s) && !p.phase.InHeaders?
    ensures Feed(p, s, eof) == Body(p, s, eof)
  {
  }

  lemma {:induction false} FreshIsValid(head: bool, ps: seq<string>)
    requires ps != []
    ensures Valid(Fresh(head), ps[0]) && Valid(Fresh(head), ps[|ps| - 1])
  {
  }
}
