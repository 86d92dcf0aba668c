/**
 The chunked transfer coding of RFC 9112 section 7.1, decoded incrementally from a receive
 buffer that only grows.
 */
module HttpChunks {
  import opened Options
  import opened Ascii
  import opened Sequences
  import opened HttpText

  datatype Fault = BadStatusLine | BadStatusCode | BadContentLength | HeadersTooLarge | EofInHeaders | EofInBody
                 | EofInChunks | BadChunkSize | ChunkTooLarge | MissingChunkCrlf

  datatype Result = NeedMore | Done | Error(fault: Fault)

  datatype ChunkState = Size | Data | DataCrlf | Trailer

  /** Where the decoder is in the buffer, what the current chunk still owes, and what came out so far. */
  datatype Decoder = Decoder(cs: ChunkState, cpos: nat, left: nat, out: string)

  const MAX_CHUNK: nat := 512 * 1024 * 1024

  predicate InBuffer(s: string, d: Decoder) {
    d.cpos <= |s| && (d.cs.Data? ==> d.left > 0)
  }

  function BeforeSemicolon(line: string): string {
    var semi := Find(line, ";", 0);
    if semi >= 0 then line[..semi] else line
  }

  datatype SizeLine = Bad(fault: Fault) | Sized(n: nat)

  /** The size a chunk header line announces. */
  function ParseSize(line: string): SizeLine {
    var t := Trim(BeforeSemicolon(line));
    if t == [] || |t| > 12 then Bad(BadChunkSize)
    else
      match HexValue(t)
      case None => Bad(BadChunkSize)
      case Some(n) => if n > MAX_CHUNK then Bad(ChunkTooLarge) else Sized(n)
  }

  datatype Step = Go(d: Decoder) | Stop(r: Result, d: Decoder)

  function SizeStep(s: string, d: Decoder): Step
    requires InBuffer(s, d)
  {
    var e := Find(s, CRLF, d.cpos);
    if e < 0 then Stop(NeedMore, d)
    else
      match ParseSize(s[d.cpos..e])
      case Bad(f) => Stop(Error(f), d)
      case Sized(n) => Go(if n == 0 then d.(cs := Trailer, cpos := e + 2) else d.(cs := Data, cpos := e + 2, left := n))
  }

  function Available(s: string, d: Decoder): (k: nat)
    requires InBuffer(s, d)
    ensures k <= d.left && d.cpos + k <= |s| && (k < d.left ==> d.cpos + k == |s|)
  {
    if |s| - d.cpos < d.left then |s| - d.cpos else d.left
  }

  function DataStep(s: string, d: Decoder): Step
    requires InBuffer(s, d)
  {
    var k := Available(s, d);
    var d' := d.(out := d.out + s[d.cpos..d.cpos + k], cpos := d.cpos + k, left := d.left - k);
    if d'.left > 0 then Stop(NeedMore, d') else Go(d'.(cs := DataCrlf))
  }

  function CrlfStep(s: string, d: Decoder): Step
    requires InBuffer(s, d)
  {
    if |s| - d.cpos < 2 then Stop(NeedMore, d)
    else if s[d.cpos] != '\r' || s[d.cpos + 1] != '\n' then Stop(Error(MissingChunkCrlf), d)
    else Go(d.(cpos := d.cpos + 2, cs := Size))
  }

  function TrailerStep(s: string, d: Decoder): Step
    requires InBuffer(s, d)
  {
    var e := Find(s, CRLF, d.cpos);
    if e < 0 then Stop(NeedMore, d)
    else if e == d.cpos then Stop(Done, d.(cpos := e + 2))
    else Go(d.(cpos := e + 2))
  }

  function DecodeStep(s: string, d: Decoder): (t: Step)
    requires InBuffer(s, d)
    ensures InBuffer(s, t.d) && t.d.cpos >= d.cpos && (t.Go? ==> t.d.cpos > d.cpos)
    ensures t.Stop? && t.r.Error? ==> t.r.fault != HeadersTooLarge
  {
    match d.cs
    case Size => SizeStep(s, d)
    case Data => DataStep(s, d)
    case DataCrlf => CrlfStep(s, d)
    case Trailer => TrailerStep(s, d)
  }

  /** Decodes as far as the buffer goes. */
  function Decode(s: string, d: Decoder): (rd: (Result, Decoder))
    requires InBuffer(s, d)
    ensures InBuffer(s, rd.1) && (rd.0.Error? ==> rd.0.fault != HeadersTooLarge)
    decreases |s| - d.cpos
  {
    match DecodeStep(s, d)
    case Go(d') => Decode(s, d')
    case Stop(r, d') => (r, d')
  }

  // ---- resuming ----

  /** A step that goes on or ends does the same in any longer buffer; one that waits has only moved closer. */
  lemma {:induction false} StepGrows(a: string, b: string, d: Decoder)
    requires a <= b && InBuffer(a, d)
    ensures var t := DecodeStep(a, d);
            (t.Go? || t.r != NeedMore) ==> DecodeStep(b, d) == t
  {
    FindGrows(a, b, CRLF, d.cpos);
    var e := Find(a, CRLF, d.cpos);
    if d.cs.Size? && e >= 0 {
      assert a[d.cpos..e] == b[d.cpos..e];
    }
    if d.cs.Data? && Available(a, d) == d.left {
      assert a[d.cpos..d.cpos + d.left] == b[d.cpos..d.cpos + d.left];
    }
  }

  lemma {:induction false} DataResumes(a: string, b: string, d: Decoder)
    requires a <= b && InBuffer(a, d) && d.cs.Data? && Available(a, d) < d.left
    ensures InBuffer(b, DataStep(a, d).d) && DataStep(b, DataStep(a, d).d) == DataStep(b, d)
  {
    var k := Available(a, d);
    var t := DataStep(a, d);
    var k' := Available(b, t.d);
    assert Available(b, d) == k + k';
    assert a[d.cpos..d.cpos + k] == b[d.cpos..d.cpos + k];
    assert b[d.cpos..d.cpos + k] + b[d.cpos + k..d.cpos + k + k'] == b[d.cpos..d.cpos + k + k'];
    assert (d.out + b[d.cpos..d.cpos + k]) + b[d.cpos + k..d.cpos + k + k'] == d.out + b[d.cpos..d.cpos + k + k'];
  }

  lemma {:induction false} StepResumes(a: string, b: string, d: Decoder)
    requires a <= b && InBuffer(a, d)
    ensures var t := DecodeStep(a, d);
            t.Stop? && t.r == NeedMore ==> DecodeStep(b, t.d) == DecodeStep(b, d)
  {
    hide Find, At;
    if d.cs.Data? && Available(a, d) < d.left {
      DataResumes(a, b, d);
    }
  }

  /**
   Decoding what has arrived and then the rest is decoding everything at once; an answer once given
   does not change when more arrives.
   */
  lemma {:induction false} DecodeResumes(a: string, b: string, d: Decoder)
    requires a <= b && InBuffer(a, d)
    ensures var (r, d') := Decode(a, d);
            InBuffer(b, d') && (if r == NeedMore then Decode(b, d') == Decode(b, d) else Decode(b, d) == (r, d'))
    decreases |a| - d.cpos
  {
    StepGrows(a, b, d);
    StepResumes(a, b, d);
    var t := DecodeStep(a, d);
    if t.Go? {
      DecodeResumes(a, b, t.d);
    }
  }

  // ---- the coding itself ----

  /** A chunk as a server may write it: any numeral for its size, an extension after ';' or none. */
  datatype Chunk = Chunk(size: string, ext: string, data: string)

  ghost predicate NoCr(s: string) {
    forall i :: 0 <= i < |s| ==> s[i] != '\r'
  }

  ghost predicate WellFormed(c: Chunk) {
    && 0 < |c.size| <= 12 && HexValue(c.size) == Some(|c.data|) && 0 < |c.data| <= MAX_CHUNK
    && NoCr(c.ext) && (c.ext != [] ==> c.ext[0] == ';')
  }

  function Payload(chunks: seq<Chunk>): string {
    if chunks == [] then "" else chunks[0].data + Payload(chunks[1..])
  }

  function EncodeChunk(c: Chunk): string {
    (c.size + c.ext) + CRLF + c.data + CRLF
  }

  function EncodeChunks(chunks: seq<Chunk>): string {
    if chunks == [] then "" else EncodeChunk(chunks[0]) + EncodeChunks(chunks[1..])
  }

  /** The trailer section's field lines. */
  function EncodeTrailers(lines: seq<string>): string {
    if lines == [] then CRLF else lines[0] + CRLF + EncodeTrailers(lines[1..])
  }

  ghost predicate ProperTrailers(lines: seq<string>) {
    forall i :: 0 <= i < |lines| ==> lines[i] != [] && NoCr(lines[i])
  }

  /** A numeral of value zero starts the last chunk. */
  function EncodeBody(chunks: seq<Chunk>, last: string, trailers: seq<string>): string {
    EncodeChunks(chunks) + (last + CRLF + EncodeTrailers(trailers))
  }

  lemma {:induction false} AtIs(s: string, x: string, i: nat)
    requires At(s, x, i)
    ensures s[i..i + |x|] == x
  {
  }

  lemma {:induction false} FirstIs(s: string, pat: string, i: nat)
    requires pat != []
    ensures At(s, pat, i) ==> i < |s| && s[i] == pat[0]
  {
    assert At(s, pat, i) ==> s[i + 0] == pat[0];
  }

  /** A line without CR, followed by CR LF, is found whole. */
  lemma {:induction false} LineEnds(s: string, line: string, i: nat)
    requires At(s, line, i) && At(s, CRLF, i + |line|) && NoCr(line)
    ensures Find(s, CRLF, i) == i + |line| && s[i..i + |line|] == line
  {
    forall j: nat | i <= j < i + |line| ensures !At(s, CRLF, j) {
      assert s[i + (j - i)] == line[j - i];
      FirstIs(s, CRLF, j);
    }
    FindIs(s, CRLF, i, i + |line|);
  }

  lemma {:induction false} HexIsPlain(s: string)
    requires HexValue(s).Some?
    ensures AllHex(s) && NoCr(s) && Trim(s) == s && (forall i :: 0 <= i < |s| ==> s[i] != ';')
  {
    HexHasDigitsOnly(s);
    forall i | 0 <= i < |s| ensures s[i] != '\r' && s[i] != ';' && !IsSpace(s[i]) {
      assert HexDigit(s[i]).Some?;
    }
    if s != [] {
      assert !IsSpace(s[0]) && !IsSpace(s[|s| - 1]);
    }
  }

  /** The extension is ignored. */
  lemma {:induction false} SizeLineParses(size: string, ext: string)
    requires 0 < |size| <= 12 && HexValue(size).Some? && HexValue(size).value <= MAX_CHUNK
    requires NoCr(ext) && (ext != [] ==> ext[0] == ';')
    ensures ParseSize(size + ext) == Sized(HexValue(size).value) && NoCr(size + ext)
  {
    HexIsPlain(size);
    var line := size + ext;
    forall i | 0 <= i < |line| ensures line[i] != '\r' {
    }
    forall i: nat | 0 <= i < |size| ensures !At(line, ";", i) {
      FirstIs(line, ";", i);
    }
    if ext != [] {
      assert At(line, ";", |size|);
      FindIs(line, ";", 0, |size|);
      assert line[..|size|] == size;
    } else {
      assert line == size;
      assert Find(line, ";", 0) < 0;
    }
  }

  lemma {:induction false} DecodeSizeLine(s: string, d: Decoder, size: string, ext: string)
    requires InBuffer(s, d) && d.cs.Size?
    requires 0 < |size| <= 12 && HexValue(size).Some? && HexValue(size).value <= MAX_CHUNK
    requires NoCr(ext) && (ext != [] ==> ext[0] == ';')
    requires At(s, size + ext, d.cpos) && At(s, CRLF, d.cpos + |size + ext|)
    ensures var n, e := HexValue(size).value, d.cpos + |size + ext| + 2;
            && DecodeStep(s, d) == Go(if n == 0 then d.(cs := Trailer, cpos := e) else d.(cs := Data, cpos := e, left := n))
            && Decode(s, d) == Decode(s, DecodeStep(s, d).d)
  {
    hide HexValue, ParseSize, Find, NoCr, At;
    SizeLineParses(size, ext);
    LineEnds(s, size + ext, d.cpos);
  }

  lemma {:induction false} DecodeData(s: string, d: Decoder, data: string)
    requires InBuffer(s, d) && d.cs.Data? && d.left == |data| && At(s, data, d.cpos) && At(s, CRLF, d.cpos + |data|)
    ensures Decode(s, d) == Decode(s, Decoder(Size, d.cpos + |data| + 2, 0, d.out + data))
  {
    AtIs(s, data, d.cpos);
    var d1 := Decoder(DataCrlf, d.cpos + |data|, 0, d.out + data);
    assert DecodeStep(s, d) == Go(d1);
    var i := d1.cpos;
    assert s[i + 0] == CRLF[0] && s[i + 1] == CRLF[1];
    assert DecodeStep(s, d1) == Go(d1.(cpos := i + 2, cs := Size));
  }

  lemma {:induction false} DecodeChunk(s: string, d: Decoder, c: Chunk)
    requires InBuffer(s, d) && d.cs.Size? && d.left == 0 && WellFormed(c) && At(s, EncodeChunk(c), d.cpos)
    ensures var d' := Decoder(Size, d.cpos + |EncodeChunk(c)|, 0, d.out + c.data);
            InBuffer(s, d') && Decode(s, d) == Decode(s, d')
  {
    hide HexValue, ParseSize, Find, NoCr, At, Decode;
    var line := c.size + c.ext;
    AtConcat(s, line + CRLF + c.data, CRLF, d.cpos);
    AtConcat(s, line + CRLF, c.data, d.cpos);
    AtConcat(s, line, CRLF, d.cpos);
    DecodeSizeLine(s, d, c.size, c.ext);
    DecodeData(s, d.(cs := Data, cpos := d.cpos + |line| + 2, left := |c.data|), c.data);
  }

  lemma {:induction false} EndOfTrailers(s: string, d: Decoder)
    requires InBuffer(s, d) && d.cs.Trailer? && At(s, CRLF, d.cpos)
    ensures Decode(s, d) == (Done, d.(cpos := d.cpos + 2))
  {
    FindIs(s, CRLF, d.cpos, d.cpos);
    assert DecodeStep(s, d) == Stop(Done, d.(cpos := d.cpos + 2));
  }

  lemma {:induction false} DecodeTrailer(s: string, d: Decoder, line: string)
    requires InBuffer(s, d) && d.cs.Trailer? && line != [] && NoCr(line) && At(s, line + CRLF, d.cpos)
    ensures var d' := d.(cpos := d.cpos + |line| + 2); InBuffer(s, d') && Decode(s, d) == Decode(s, d')
  {
    AtConcat(s, line, CRLF, d.cpos);
    LineEnds(s, line, d.cpos);
    assert DecodeStep(s, d) == Go(d.(cpos := d.cpos + |line| + 2));
  }

  lemma {:induction false} DecodeTrailers(s: string, d: Decoder, lines: seq<string>)
    requires InBuffer(s, d) && d.cs.Trailer? && ProperTrailers(lines) && At(s, EncodeTrailers(lines), d.cpos)
    ensures Decode(s, d) == (Done, d.(cpos := d.cpos + |EncodeTrailers(lines)|))
    decreases |lines|
  {
    hide At, Decode, Find;
    if lines == [] {
      EndOfTrailers(s, d);
    } else {
      AtConcat(s, lines[0] + CRLF, EncodeTrailers(lines[1..]), d.cpos);
      DecodeTrailer(s, d, lines[0]);
      DecodeTrailers(s, d.(cpos := d.cpos + |lines[0]| + 2), lines[1..]);
    }
  }

  lemma {:induction false} DecodeChunks(s: string, d: Decoder, chunks: seq<Chunk>)
    requires InBuffer(s, d) && d.cs.Size? && d.left == 0 && At(s, EncodeChunks(chunks), d.cpos)
    requires forall i :: 0 <= i < |chunks| ==> WellFormed(chunks[i])
    ensures var d' := Decoder(Size, d.cpos + |EncodeChunks(chunks)|, 0, d.out + Payload(chunks));
            InBuffer(s, d') && Decode(s, d) == Decode(s, d')
    decreases |chunks|
  {
    hide At, Decode, WellFormed, EncodeChunk;
    if chunks == [] {
      assert d.out + "" == d.out;
    } else {
      var c := chunks[0];
      AtConcat(s, EncodeChunk(c), EncodeChunks(chunks[1..]), d.cpos);
      DecodeChunk(s, d, c);
      var d1 := Decoder(Size, d.cpos + |EncodeChunk(c)|, 0, d.out + c.data);
      DecodeChunks(s, d1, chunks[1..]);
      assert (d.out + c.data) + Payload(chunks[1..]) == d.out + Payload(chunks);
    }
  }

  /**
   Every chunked encoding of a list of non-empty chunks, wherever it starts in the buffer and whatever
   follows it, decodes to their concatenation, and the decoder stops exactly behind it.
   */
  lemma {:induction false} ChunkedRoundTrip(s: string, start: nat, chunks: seq<Chunk>, last: string, trailers: seq<string>)
    requires At(s, EncodeBody(chunks, last, trailers), start)
    requires forall i :: 0 <= i < |chunks| ==> WellFormed(chunks[i])
    requires 0 < |last| <= 12 && HexValue(last) == Some(0) && ProperTrailers(trailers)
    ensures start <= |s|
            && Decode(s, Decoder(Size, start, 0, ""))
               == (Done, Decoder(Trailer, start + |EncodeBody(chunks, last, trailers)|, 0, Payload(chunks)))
  {
    hide At, Decode, WellFormed, EncodeChunks, EncodeTrailers, HexValue;
    AtConcat(s, EncodeChunks(chunks), last + CRLF + EncodeTrailers(trailers), start);
    DecodeChunks(s, Decoder(Size, start, 0, ""), chunks);
    assert "" + Payload(chunks) == Payload(chunks);
    DecodeLast(s, Decoder(Size, start + |EncodeChunks(chunks)|, 0, Payload(chunks)), last, trailers);
  }

  lemma {:induction false} DecodeLast(s: string, d: Decoder, last: string, trailers: seq<string>)
    requires InBuffer(s, d) && d.cs.Size? && At(s, last + CRLF + EncodeTrailers(trailers), d.cpos)
    requires 0 < |last| <= 12 && HexValue(last) == Some(0) && ProperTrailers(trailers)
    ensures Decode(s, d) == (Done, d.(cs := Trailer, cpos := d.cpos + |last + CRLF + EncodeTrailers(trailers)|))
  {
    hide At, EncodeTrailers, HexValue, DecodeStep;
    AtConcat(s, last + CRLF, EncodeTrailers(trailers), d.cpos);
    AtConcat(s, last, CRLF, d.cpos);
    assert last + "" == last;
    DecodeSizeLine(s, d, last, "");
    DecodeTrailers(s, d.(cs := Trailer, cpos := d.cpos + |last| + 2), trailers);
  }

  /** What a server writing plain lower-case sizes sends for a list of pieces. */
  function Plain(pieces: seq<string>): seq<Chunk> {
    if pieces == [] then [] else [Chunk(Hex(|pieces[0]|), "", pieces[0])] + Plain(pieces[1..])
  }

  function Concat(pieces: seq<string>): string {
    if pieces == [] then "" else pieces[0] + Concat(pieces[1..])
  }

  lemma {:induction false} PlainIsWellFormed(pieces: seq<string>)
    requires forall i :: 0 <= i < |pieces| ==> 0 < |pieces[i]| <= MAX_CHUNK
    ensures |Plain(pieces)| == |pieces| && Payload(Plain(pieces)) == Concat(pieces)
    ensures forall i :: 0 <= i < |pieces| ==> WellFormed(Plain(pieces)[i])
  {
    if pieces != [] {
      PlainIsWellFormed(pieces[1..]);
      var n := |pieces[0]|;
      HexRoundTrip(n);
      HexLength(n, 8);
    }
  }
}
