/**
 What the header lines of a response say, field by field: the reading the parser's one pass over the
 lines is measured against.
 */
module HttpFields {
  import opened Options
  import opened Ascii
  import opened Sequences
  import opened HttpText
  import opened HttpChunks
  import opened HttpResponse

  /** The line's name, in any case and with blanks around it, is `name`. */
  predicate Names(line: string, name: string) {
    var colon := Find(line, ":", 0);
    colon >= 0 && IEquals(Trim(line[..colon]), name)
  }

  /** What stands behind the first colon, without blanks around it. */
  function ValueOf(line: string): string {
    var colon := Find(line, ":", 0);
    if colon < 0 then "" else Trim(line[colon + 1..])
  }

  predicate Says(line: string, name: string, word: string) {
    Names(line, name) && IFind(ValueOf(line), word) >= 0
  }

  /** The value of the last line of a name, `was` when there is none. */
  function LastValue(lines: seq<string>, name: string, was: string): string {
    if lines == [] then was
    else
      var n := |lines| - 1;
      if Names(lines[n], name) then ValueOf(lines[n]) else LastValue(lines[..n], name, was)
  }

  predicate AnySays(lines: seq<string>, name: string, word: string) {
    exists i :: 0 <= i < |lines| && Says(lines[i], name, word)
  }

  /** Compressed with deflate and not with gzip. */
  predicate AnyDeflates(lines: seq<string>) {
    exists i :: 0 <= i < |lines| && Says(lines[i], "content-encoding", "deflate") && !Says(lines[i], "content-encoding", "gzip")
  }

  /** The last Connection line that says "close" or "keep-alive" decides; one that says both closes. */
  function StaysOpen(lines: seq<string>, was: bool): bool {
    if lines == [] then was
    else
      var n := |lines| - 1;
      if Says(lines[n], "connection", "close") then false
      else if Says(lines[n], "connection", "keep-alive") then true
      else StaysOpen(lines[..n], was)
  }

  function LengthOf(line: string): Option<int> {
    ParseInt(ValueOf(line), INT64_MIN, INT64_MAX)
  }

  /** A Content-Length is a number that is not negative. */
  predicate LengthOk(line: string) {
    Names(line, "content-length") ==> LengthOf(line).Some? && LengthOf(line).value >= 0
  }

  predicate LengthsOk(lines: seq<string>) {
    forall i :: 0 <= i < |lines| ==> LengthOk(lines[i])
  }

  /** The last Content-Length. */
  function LastLength(lines: seq<string>, was: int): int
    requires LengthsOk(lines)
  {
    if lines == [] then was
    else
      var n := |lines| - 1;
      if Names(lines[n], "content-length") then assert LengthOk(lines[n]); LengthOf(lines[n]).value
      else LastLength(lines[..n], was)
  }

  /** The last Keep-Alive line with a readable timeout. */
  function LastTimeout(lines: seq<string>, was: int): int {
    if lines == [] then was
    else
      var n := |lines| - 1;
      if Names(lines[n], "keep-alive") && Timeout(ValueOf(lines[n])).Some? then Timeout(ValueOf(lines[n])).value
      else LastTimeout(lines[..n], was)
  }

  /** What a message says after header lines that follow `m`. */
  function Told(m: Message, lines: seq<string>): Message
    requires LengthsOk(lines)
  {
    Message(m.status, StaysOpen(lines, m.keepAlive), LastTimeout(lines, m.timeout),
            m.gzip || AnySays(lines, "content-encoding", "gzip"), m.deflate || AnyDeflates(lines),
            LastValue(lines, "etag", m.etag), LastValue(lines, "last-modified", m.lastModified),
            LastValue(lines, "location", m.location), LastValue(lines, "content-type", m.contentType),
            LastLength(lines, m.contentLength))
  }

  predicate Chunked(lines: seq<string>) {
    AnySays(lines, "transfer-encoding", "chunked")
  }

  // ---- the pass over the lines ----

  /** A name is one of the nine or none of them. */
  lemma {:induction false} OneName(name: string, a: string, b: string)
    requires IEquals(name, a) && a != [] && b != [] && (|a| != |b| || ToLower(a[0]) != ToLower(b[0]))
    ensures !IEquals(name, b)
  {
  }

  lemma {:induction false} NamesApart(name: string)
    ensures IEquals(name, "content-length") ==> |name| == 14
    ensures IEquals(name, "content-encoding") ==> |name| == 16
    ensures IEquals(name, "connection") ==> |name| == 10 && ToLower(name[0]) == 'c'
    ensures IEquals(name, "content-type") ==> |name| == 12
    ensures IEquals(name, "transfer-encoding") ==> |name| == 17
    ensures IEquals(name, "etag") ==> |name| == 4
    ensures IEquals(name, "last-modified") ==> |name| == 13
    ensures IEquals(name, "location") ==> |name| == 8
    ensures IEquals(name, "keep-alive") ==> |name| == 10 && ToLower(name[0]) == 'k'
  {
    assert "connection"[0] == 'c' && "keep-alive"[0] == 'k';
  }

  /** One header, field by field. */
  lemma {:induction false} FieldTells(h: Head, name: string, value: string)
    requires h.fault.None?
    ensures var n := ParseInt(value, INT64_MIN, INT64_MAX);
            if IEquals(name, "content-length") && !(n.Some? && n.value >= 0) then
              Field(h, name, value).fault.Some?
            else
              Field(h, name, value) == Head(
                Message(h.m.status,
                        if IEquals(name, "connection") && IFind(value, "close") >= 0 then false
                        else (IEquals(name, "connection") && IFind(value, "keep-alive") >= 0) || h.m.keepAlive,
                        if IEquals(name, "keep-alive") && Timeout(value).Some? then Timeout(value).value else h.m.timeout,
                        h.m.gzip || (IEquals(name, "content-encoding") && IFind(value, "gzip") >= 0),
                        h.m.deflate || (IEquals(name, "content-encoding") && IFind(value, "deflate") >= 0
                                        && !(IEquals(name, "content-encoding") && IFind(value, "gzip") >= 0)),
                        if IEquals(name, "etag") then value else h.m.etag,
                        if IEquals(name, "last-modified") then value else h.m.lastModified,
                        if IEquals(name, "location") then value else h.m.location,
                        if IEquals(name, "content-type") then value else h.m.contentType,
                        if IEquals(name, "content-length") then n.value else h.m.contentLength),
                h.chunked || (IEquals(name, "transfer-encoding") && IFind(value, "chunked") >= 0), None)
  {
    NamesApart(name);
    hide IEquals, IFind, ParseInt, Timeout;
  }

  /** One line. */
  lemma {:induction false} LineTells(h: Head, line: string)
    requires h.fault.None?
    ensures Line(h, line).fault.None? <==> LengthOk(line)
    ensures LengthOk(line) ==>
              && Line(h, line).m == Told(h.m, [line])
              && Line(h, line).chunked == (h.chunked || Says(line, "transfer-encoding", "chunked"))
  {
    hide Find, Trim, IEquals, IFind, ParseInt, Timeout, Told, Field;
    if LengthOk(line) {
      OneLine(h.m, line);
    }
    var colon := Find(line, ":", 0);
    if colon >= 0 {
      FieldTells(h, Trim(line[..colon]), Trim(line[colon + 1..]));
    }
  }

  /** What a single line adds. */
  lemma {:induction false} OneLine(m: Message, line: string)
    requires LengthOk(line)
    ensures Told(m, [line]) ==
            Message(m.status,
                    if Says(line, "connection", "close") then false
                    else Says(line, "connection", "keep-alive") || m.keepAlive,
                    if Names(line, "keep-alive") && Timeout(ValueOf(line)).Some? then Timeout(ValueOf(line)).value else m.timeout,
                    m.gzip || Says(line, "content-encoding", "gzip"),
                    m.deflate || (Says(line, "content-encoding", "deflate") && !Says(line, "content-encoding", "gzip")),
                    if Names(line, "etag") then ValueOf(line) else m.etag,
                    if Names(line, "last-modified") then ValueOf(line) else m.lastModified,
                    if Names(line, "location") then ValueOf(line) else m.location,
                    if Names(line, "content-type") then ValueOf(line) else m.contentType,
                    if Names(line, "content-length") then LengthOf(line).value else m.contentLength)
  {
    hide Names, Says, ValueOf, Timeout, LengthOf;
    var ls := [line];
    assert ls[..0] == [] && ls[0] == line;
    assert AnySays(ls, "content-encoding", "gzip") <==> Says(ls[0], "content-encoding", "gzip");
    assert AnyDeflates(ls) <==>
      Says(ls[0], "content-encoding", "deflate") && !Says(ls[0], "content-encoding", "gzip");
    LastOfOne(line, "etag", m.etag);
    LastOfOne(line, "last-modified", m.lastModified);
    LastOfOne(line, "location", m.location);
    LastOfOne(line, "content-type", m.contentType);
    assert StaysOpen(ls[..0], m.keepAlive) == m.keepAlive && LastTimeout(ls[..0], m.timeout) == m.timeout;
    assert LastLength(ls[..0], m.contentLength) == m.contentLength;
  }

  lemma {:induction false} LastOfOne(line: string, name: string, was: string)
    ensures LastValue([line], name, was) == if Names(line, name) then ValueOf(line) else was
  {
    assert [line][..0] == [] && LastValue([line][..0], name, was) == was;
  }

  /** First one line, then the others. */
  lemma {:induction false} ToldOn(m: Message, lines: seq<string>)
    requires lines != [] && LengthsOk(lines)
    ensures LengthsOk([lines[0]]) && LengthsOk(lines[1..])
    ensures Told(m, lines) == Told(Told(m, [lines[0]]), lines[1..])
    ensures Chunked(lines) <==> Says(lines[0], "transfer-encoding", "chunked") || Chunked(lines[1..])
    decreases |lines|
  {
    hide Says, Names, LengthOf, LengthOk;
    var one, rest := [lines[0]], lines[1..];
    assert forall i :: 0 <= i < |rest| ==> rest[i] == lines[i + 1];
    SaysOn(lines, "content-encoding", "gzip");
    SaysOn(lines, "transfer-encoding", "chunked");
    DeflatesOn(lines);
    LastOn(lines, "etag", m.etag);
    LastOn(lines, "last-modified", m.lastModified);
    LastOn(lines, "location", m.location);
    LastOn(lines, "content-type", m.contentType);
    OpenOn(lines, m.keepAlive);
    LengthOn(lines, m.contentLength);
    TimeoutOn(lines, m.timeout);
    SaysOn(one, "content-encoding", "gzip");
    DeflatesOn(one);
  }

  lemma {:induction false} SaysOn(lines: seq<string>, name: string, word: string)
    requires lines != []
    ensures AnySays(lines, name, word) <==> Says(lines[0], name, word) || AnySays(lines[1..], name, word)
    ensures AnySays(lines, name, word) <==> AnySays([lines[0]], name, word) || AnySays(lines[1..], name, word)
  {
    hide Says;
    var rest := lines[1..];
    assert forall i :: 0 <= i < |rest| ==> rest[i] == lines[i + 1];
    if i :| 0 <= i < |lines| && Says(lines[i], name, word) {
      assert i > 0 ==> Says(rest[i - 1], name, word);
    }
    assert [lines[0]][0] == lines[0];
  }

  lemma {:induction false} DeflatesOn(lines: seq<string>)
    requires lines != []
    ensures AnyDeflates(lines) <==> AnyDeflates([lines[0]]) || AnyDeflates(lines[1..])
  {
    hide Says;
    var rest := lines[1..];
    assert forall i :: 0 <= i < |rest| ==> rest[i] == lines[i + 1];
    if i :| 0 <= i < |lines| && Says(lines[i], "content-encoding", "deflate") && !Says(lines[i], "content-encoding", "gzip") {
      assert i > 0 ==> Says(rest[i - 1], "content-encoding", "deflate");
    }
    assert [lines[0]][0] == lines[0];
  }

  lemma {:induction false} Fronts(lines: seq<string>)
    requires |lines| > 1
    ensures var n := |lines| - 1;
            lines[1..] != [] && lines[1..][n - 1] == lines[n] && lines[1..][..n - 1] == lines[..n][1..] && lines[..n][0] == lines[0]
  {
  }

  lemma {:induction false} LastOn(lines: seq<string>, name: string, was: string)
    requires lines != []
    ensures LastValue(lines, name, was) == LastValue(lines[1..], name, LastValue([lines[0]], name, was))
    decreases |lines|
  {
    hide Names, ValueOf;
    if |lines| > 1 {
      Fronts(lines);
      LastOn(lines[..|lines| - 1], name, was);
    } else {
      assert lines == [lines[0]];
    }
  }

  lemma {:induction false} OpenOn(lines: seq<string>, was: bool)
    requires lines != []
    ensures StaysOpen(lines, was) == StaysOpen(lines[1..], StaysOpen([lines[0]], was))
    decreases |lines|
  {
    hide Says;
    if |lines| > 1 {
      Fronts(lines);
      OpenOn(lines[..|lines| - 1], was);
    } else {
      assert lines == [lines[0]];
    }
  }

  lemma {:induction false} LengthOn(lines: seq<string>, was: int)
    requires lines != [] && LengthsOk(lines)
    ensures LengthsOk([lines[0]]) && LengthsOk(lines[1..])
    ensures LastLength(lines, was) == LastLength(lines[1..], LastLength([lines[0]], was))
    decreases |lines|
  {
    hide Names, LengthOf;
    if |lines| > 1 {
      Fronts(lines);
      LengthOn(lines[..|lines| - 1], was);
    } else {
      assert lines == [lines[0]];
    }
  }

  lemma {:induction false} TimeoutOn(lines: seq<string>, was: int)
    requires lines != []
    ensures LastTimeout(lines, was) == LastTimeout(lines[1..], LastTimeout([lines[0]], was))
    decreases |lines|
  {
    hide Names, Timeout, ValueOf;
    if |lines| > 1 {
      Fronts(lines);
      TimeoutOn(lines[..|lines| - 1], was);
    } else {
      assert lines == [lines[0]];
    }
  }

  /**
   Header lines are refused exactly when a Content-Length among them is no number or negative. Otherwise
   every field is that of the last line that gives it, and the body is chunked iff some line says so.
   */
  lemma {:induction false} LinesTell(h: Head, lines: seq<string>)
    requires h.fault.None?
    ensures Lines(h, lines).fault.None? <==> LengthsOk(lines)
    ensures Lines(h, lines).fault.Some? ==> Lines(h, lines).fault == Some(BadContentLength)
    ensures LengthsOk(lines) ==>
              Lines(h, lines).m == Told(h.m, lines) && Lines(h, lines).chunked == (h.chunked || Chunked(lines))
    decreases |lines|
  {
    hide Line, LengthOk, Says, Told, Chunked;
    if lines == [] {
      NothingTold(h.m);
    } else {
      LineTells(h, lines[0]);
      RefusedIs(h, lines[0]);
      var rest := lines[1..];
      assert LengthsOk(lines) <==> LengthOk(lines[0]) && LengthsOk(rest) by {
        assert forall i :: 0 <= i < |rest| ==> rest[i] == lines[i + 1];
      }
      if LengthOk(lines[0]) {
        LinesTell(Line(h, lines[0]), rest);
        if LengthsOk(lines) {
          ToldOn(h.m, lines);
        }
      }
    }
  }

  lemma {:induction false} NothingTold(m: Message)
    ensures Told(m, []) == m && !Chunked([])
  {
  }

  lemma {:induction false} RefusedIs(h: Head, line: string)
    requires h.fault.None?
    ensures Line(h, line).fault.Some? ==> Line(h, line).fault == Some(BadContentLength)
  {
    hide Find, Trim, IEquals, IFind, ParseInt, Timeout;
  }
}
