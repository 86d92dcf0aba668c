/**
 The MoldUDP64 receiver: sequence tracking, buffering and re-request of gaps, replay in order,
 and giving up after a timeout.
 */
module MoldUdp64 {
  import opened Arithmetic

  type Byte = x: nat | x < 256
  type Packet = seq<Byte>

  const END_OF_SESSION: nat := 0xFFFF
  const NS_PER_MS: nat := 1_000_000

  // ---- wire format: session 10, sequence 8, count 2, then length-prefixed blocks ----

  function Be16(p: Packet, off: nat): (v: nat)
    requires off + 2 <= |p|
    ensures v < 65536
  {
    var hi: nat, lo: nat := p[off], p[off + 1];
    hi * 256 + lo
  }

  function Big(p: Packet): nat {
    if p == [] then 0
    else
      var lo: nat := p[|p| - 1];
      Big(p[..|p| - 1]) * 256 + lo
  }

  function Session(p: Packet): Packet
    requires |p| >= 20
  {
    p[..10]
  }

  function Seq(p: Packet): nat
    requires |p| >= 20
  {
    Big(p[10..18])
  }

  function Count(p: Packet): (c: nat)
    requires |p| >= 20
    ensures c < 65536
  {
    Be16(p, 18)
  }

  /** A length-prefixed block lies within the packet. */
  predicate Complete(p: Packet, off: nat) {
    off + 2 <= |p| && off + 2 + Be16(p, off) <= |p|
  }

  function Body(p: Packet, off: nat): Packet
    requires Complete(p, off)
  {
    p[off + 2..off + 2 + Be16(p, off)]
  }

  function Next(p: Packet, off: nat): nat
    requires Complete(p, off)
  {
    off + 2 + Be16(p, off)
  }

  /** The complete message blocks from `off` on, at most `n`. */
  function Blocks(p: Packet, off: nat, n: nat): (bs: seq<Packet>)
    ensures |bs| <= n
    decreases n
  {
    if n == 0 || !Complete(p, off) then [] else [Body(p, off)] + Blocks(p, Next(p, off), n - 1)
  }

  function Messages(p: Packet): seq<Packet>
    requires |p| >= 20
  {
    Blocks(p, 20, Count(p))
  }

  // ---- what a server puts into a packet ----

  /** A number as `k` bytes, the highest first. */
  function Bytes(n: nat, k: nat): (p: Packet)
    ensures |p| == k
  {
    if k == 0 then [] else Bytes(n / 256, k - 1) + [n % 256]
  }

  function Power256(k: nat): nat {
    if k == 0 then 1 else 256 * Power256(k - 1)
  }

  /** A message behind its length. */
  function Framed(m: Packet): Packet {
    Bytes(|m|, 2) + m
  }

  function Frames(ms: seq<Packet>): Packet {
    if ms == [] then [] else Framed(ms[0]) + Frames(ms[1..])
  }

  function Encoded(sess: Packet, seq_: nat, ms: seq<Packet>): Packet {
    sess + Bytes(seq_, 8) + Bytes(|ms|, 2) + Frames(ms)
  }

  lemma {:induction false} BigBytes(n: nat, k: nat)
    requires n < Power256(k)
    ensures Big(Bytes(n, k)) == n
    decreases k
  {
    if k > 0 {
      BigBytes(n / 256, k - 1);
      var p := Bytes(n, k);
      assert p[..|p| - 1] == Bytes(n / 256, k - 1);
    }
  }

  lemma {:induction false} Be16Bytes(p: Packet, off: nat, n: nat)
    requires n < 65536 && off + 2 <= |p| && p[off..off + 2] == Bytes(n, 2)
    ensures Be16(p, off) == n
  {
    var b := p[off..off + 2];
    assert Bytes(n, 2) == Bytes(n / 256, 1) + [n % 256];
    assert Bytes(n / 256, 1) == Bytes(n / 256 / 256, 0) + [n / 256 % 256];
    assert p[off] == b[0] && p[off + 1] == b[1];
  }

  lemma {:induction false} FrameRead(p: Packet, off: nat, m: Packet, rest: Packet)
    requires off <= |p| && p[off..] == Framed(m) + rest && |m| < 65536
    ensures Complete(p, off) && Body(p, off) == m && Next(p, off) == off + 2 + |m| <= |p| && p[off + 2 + |m|..] == rest
  {
    hide Be16, Bytes;
    var t := p[off..];
    assert t == Bytes(|m|, 2) + (m + rest);
    assert p[off..off + 2] == t[..2] == Bytes(|m|, 2);
    Be16Bytes(p, off, |m|);
    assert p[off + 2..off + 2 + |m|] == t[2..][..|m|] == m;
    assert p[off + 2 + |m|..] == t[2 + |m|..] == rest;
  }

  lemma {:induction false} FramesRead(p: Packet, off: nat, ms: seq<Packet>)
    requires off <= |p| && p[off..] == Frames(ms) && forall i :: 0 <= i < |ms| ==> |ms[i]| < 65536
    ensures Blocks(p, off, |ms|) == ms
    decreases |ms|
  {
    hide Framed, Complete, Body, Next;
    if ms != [] {
      FrameRead(p, off, ms[0], Frames(ms[1..]));
      FramesRead(p, off + 2 + |ms[0]|, ms[1..]);
      assert ms == [ms[0]] + ms[1..];
    }
  }

  /** Session, number, count and messages of a packet come back. */
  lemma {:induction false} PacketRoundTrip(sess: Packet, seq_: nat, ms: seq<Packet>)
    requires |sess| == 10 && seq_ < 0x1_0000_0000_0000_0000 && |ms| < 65536 && forall i :: 0 <= i < |ms| ==> |ms[i]| < 65536
    ensures var p := Encoded(sess, seq_, ms);
            |p| >= 20 && Session(p) == sess && Seq(p) == seq_ && Count(p) == |ms| && Messages(p) == ms
  {
    hide Bytes, Frames, Be16, Blocks;
    var p := Encoded(sess, seq_, ms);
    EightBytes();
    BigBytes(seq_, 8);
    assert p[10..18] == Bytes(seq_, 8) && p[18..20] == Bytes(|ms|, 2) && p[20..] == Frames(ms);
    Be16Bytes(p, 18, |ms|);
    FramesRead(p, 20, ms);
  }

  lemma {:induction false} EightBytes()
    ensures Power256(8) == 0x1_0000_0000_0000_0000
  {
    assert Power256(2) == 65536;
    assert Power256(4) == 0x1_0000_0000;
    assert Power256(6) == 0x1_0000_0000_0000;
  }

  /** The numbers from `a` up to but not including `b`. */
  function Range(a: nat, b: nat): (r: seq<nat>)
    requires a <= b
    ensures |r| == b - a && forall i :: 0 <= i < |r| ==> r[i] == a + i
  {
    seq(b - a, i requires 0 <= i < b - a => a + i)
  }

  /** A well-formed packet of session `sess` whose messages are those of the feed. */
  ghost predicate Honest(p: Packet, sess: Packet, feed: nat -> Packet) {
    && |p| >= 20 && Session(p) == sess && 1 <= Seq(p) && Count(p) != END_OF_SESSION
    && |Messages(p)| == Count(p)
    && forall i :: 0 <= i < Count(p) ==> Messages(p)[i] == feed(Seq(p) + i)
  }

  ghost predicate IsMin(k: nat, s: set<nat>) {
    k in s && forall j :: j in s ==> k <= j
  }

  lemma {:induction false} MinExists(s: set<nat>) returns (k: nat)
    requires s != {}
    ensures IsMin(k, s)
  {
    k :| k in s;
    var s' := s - {k};
    if s' != {} {
      var m := MinExists(s');
      forall j | j in s ensures j == k || m <= j {
        assert j == k || j in s';
      }
      k := if k <= m then k else m;
    } else {
      forall j | j in s ensures j == k {
        assert j == k || j in s';
      }
    }
  }

  // ---- what the receiver has done within a session ----

  /** The sequence numbers delivered since the session's first packet, and the counters there. */
  datatype Trace = Trace(first: nat, seqs: seq<nat>, delivered0: nat, messages0: nat, gap0: nat, timeouts0: nat)

  /**
   Messages come out of the feed in strictly increasing sequence order; delivered and lost ones add up to
   the distance covered, so without losses delivery is contiguous.
   */
  ghost predicate Faithful(t: Trace, feed: nat -> Packet, delivered: seq<Packet>, messages: nat, gapMessages: nat, expected: nat) {
    && t.first <= expected && t.messages0 <= messages && t.gap0 <= gapMessages
    && |delivered| == t.delivered0 + |t.seqs| && messages == t.messages0 + |t.seqs|
    && (forall i :: 0 <= i < |t.seqs| ==>
          t.first <= t.seqs[i] < expected && delivered[t.delivered0 + i] == feed(t.seqs[i]))
    && (forall i, j :: 0 <= i < j < |t.seqs| ==> t.seqs[i] < t.seqs[j])
    && (messages - t.messages0) + (gapMessages - t.gap0) == expected - t.first
  }

  /** Nothing lost means nothing skipped. */
  lemma {:induction false} NoLossIsContiguous(t: Trace, feed: nat -> Packet, delivered: seq<Packet>, messages: nat,
                                              gapMessages: nat, expected: nat)
    requires Faithful(t, feed, delivered, messages, gapMessages, expected) && gapMessages == t.gap0
    ensures t.seqs == Range(t.first, expected)
  {
    Squeeze(t.seqs, t.first, expected);
  }

  lemma {:induction false} Squeeze(s: seq<nat>, a: nat, b: nat)
    requires |s| == b - a && a <= b
    requires forall i :: 0 <= i < |s| ==> a <= s[i] < b
    requires forall i, j :: 0 <= i < j < |s| ==> s[i] < s[j]
    ensures s == Range(a, b)
    decreases |s|
  {
    if s != [] {
      var n := |s| - 1;
      AtLeast(s, a, n);
      var t := s[..n];
      assert s[n] == b - 1;
      assert forall i :: 0 <= i < n ==> t[i] < s[n];
      Squeeze(t, a, b - 1);
      assert s == t + [s[n]];
    }
  }

  lemma {:induction false} AtLeast(s: seq<nat>, a: nat, i: nat)
    requires i < |s| && forall k :: 0 <= k < |s| ==> a <= s[k]
    requires forall k, j :: 0 <= k < j < |s| ==> s[k] < s[j]
    ensures s[i] >= a + i
    decreases i
  {
    if i > 0 {
      AtLeast(s, a, i - 1);
    }
  }

  /** Delivering the feed from `expected` up to `upTo`. */
  lemma {:induction false} Extend(t: Trace, feed: nat -> Packet, delivered: seq<Packet>, messages: nat, gapMessages: nat,
                                  expected: nat, upTo: nat, news: seq<Packet>)
    requires Faithful(t, feed, delivered, messages, gapMessages, expected) && expected <= upTo
    requires |news| == upTo - expected && forall i :: 0 <= i < |news| ==> news[i] == feed(expected + i)
    ensures Faithful(t.(seqs := t.seqs + Range(expected, upTo)), feed, delivered + news, messages + |news|, gapMessages, upTo)
  {
  }

  /** The same for an honest packet that reaches beyond `expected`. */
  lemma {:induction false} TakeHonest(p: Packet, sess: Packet, t: Trace, feed: nat -> Packet, delivered: seq<Packet>,
                                      messages: nat, gapMessages: nat, expected: nat)
    requires |p| >= 20 && Seq(p) <= expected < Seq(p) + Count(p)
    ensures Honest(p, sess, feed) && Faithful(t, feed, delivered, messages, gapMessages, expected) ==>
              var news := Drop(Messages(p), expected - Seq(p));
              Faithful(t.(seqs := t.seqs + Range(expected, Seq(p) + Count(p))), feed, delivered + news, messages + |news|,
                       gapMessages, Seq(p) + Count(p))
  {
    if Honest(p, sess, feed) && Faithful(t, feed, delivered, messages, gapMessages, expected) {
      var ms, k := Messages(p), expected - Seq(p);
      var news := Drop(ms, k);
      forall i | 0 <= i < |news| ensures news[i] == feed(expected + i) {
        assert news[i] == ms[k + i];
      }
      Extend(t, feed, delivered, messages, gapMessages, expected, Seq(p) + Count(p), news);
    }
  }

  /** Giving up on the messages from `expected` to `upTo`. */
  lemma {:induction false} Skip(t: Trace, feed: nat -> Packet, delivered: seq<Packet>, messages: nat, gapMessages: nat,
                                expected: nat, upTo: nat)
    requires Faithful(t, feed, delivered, messages, gapMessages, expected) && expected <= upTo
    ensures Faithful(t, feed, delivered, messages, gapMessages + (upTo - expected), upTo)
  {
  }

  // ---- the receiver as a value ----

  /** Whether it can ask for messages again, and its limits. */
  datatype Settings = Settings(canRequest: bool, gapTimeoutMs: nat, retryMs: nat, maxRequest: nat, maxBuffered: nat)

  /** What decides the receiver's steps, what it delivered and asked for, and the trace of its session. */
  datatype Rx = Rx(session: Packet, expected: nat, pending: map<nat, Packet>, delivered: seq<Packet>,
                   messages: nat, gapMessages: nat, gapTimeouts: nat,
                   recovering: bool, gapSince: nat, gapEnd: nat, lastRequest: nat, requests: seq<(nat, nat)>, t: Trace)

  /** Packets held back: each under its own sequence number, with at least one message, not a control packet. */
  ghost predicate Held(pending: map<nat, Packet>, expected: nat) {
    forall k :: k in pending ==> k > expected && |pending[k]| >= 20 && Seq(pending[k]) == k
                                 && 0 < Count(pending[k]) < END_OF_SESSION
  }

  /** Buffered packets lie above the expected number, and only while a gap is being recovered. */
  ghost predicate Valid(c: Settings, x: Rx) {
    && |x.session| == 10 && Held(x.pending, x.expected)
    && (x.pending != map[] ==> x.recovering && x.expected > 0) && (x.recovering ==> c.canRequest)
  }

  function FreshRx(): Rx {
    Rx(seq(10, i => 0), 0, map[], [], 0, 0, 0, false, 0, 0, 0, [], Trace(0, [], 0, 0, 0, 0))
  }

  lemma {:induction false} SomeMin(s: set<nat>)
    requires s != {}
    ensures exists k: nat :: IsMin(k, s)
  {
    var _ := MinExists(s);
  }

  /** The lowest sequence number held back. */
  ghost function Lowest(pending: map<nat, Packet>): (k: nat)
    requires pending != map[]
    ensures IsMin(k, pending.Keys)
  {
    SomeMin(pending.Keys);
    var k: nat :| IsMin(k, pending.Keys);
    k
  }

  lemma {:induction false} LowestIs(pending: map<nat, Packet>, k: nat)
    requires k in pending && forall j :: j in pending ==> k <= j
    ensures pending != map[] && Lowest(pending) == k
  {
  }

  lemma {:induction false} LowestBeyond(pending: map<nat, Packet>, expected: nat)
    requires Held(pending, expected) && pending != map[]
    ensures Lowest(pending) > expected
  {
  }

  lemma {:induction false} StillHeld(pending: map<nat, Packet>, expected: nat)
    requires Held(pending, expected)
    ensures Held(pending, 0)
  {
  }

  // ---- its steps ----

  /** A packet reaches from at or before the expected number beyond it. */
  ghost predicate Spans(x: Rx, p: Packet) {
    |p| >= 20 && Seq(p) <= x.expected < Seq(p) + Count(p)
  }

  /** Handing over what is new in it. */
  function Taken(x: Rx, p: Packet): Rx
    requires Spans(x, p)
  {
    var news := Drop(Messages(p), x.expected - Seq(p));
    x.(expected := Seq(p) + Count(p), delivered := x.delivered + news, messages := x.messages + |news|,
       t := x.t.(seqs := x.t.seqs + Range(x.expected, Seq(p) + Count(p))))
  }

  /** The lowest packet leaves the buffer, handed over if it reaches beyond the expected number. */
  ghost function Unbuffered(x: Rx): Rx
    requires Held(x.pending, 0) && x.pending != map[] && Lowest(x.pending) <= x.expected
  {
    var k: nat := Lowest(x.pending);
    var p := x.pending[k];
    var y := if k + Count(p) > x.expected then Taken(x, p) else x;
    y.(pending := x.pending - {k})
  }

  /** Replaying the buffer in order, as far as it goes on from the expected number. */
  ghost function Replayed(x: Rx): Rx
    requires Held(x.pending, 0)
    decreases x.pending.Keys
  {
    if x.pending == map[] || Lowest(x.pending) > x.expected then x else Replayed(Unbuffered(x))
  }

  /** Asking for the hole before the lowest packet held, or up to the end of the gap. */
  ghost function Asked(c: Settings, x: Rx, now: nat): Rx {
    var end := if x.pending == map[] then x.gapEnd else Lowest(x.pending);
    if !c.canRequest || end <= x.expected then x
    else x.(requests := x.requests + [(x.expected, Min(end - x.expected, c.maxRequest))], lastRequest := now)
  }

  /** After a delivery: replay, then the gap is closed or the next hole is asked for. */
  ghost function Drained(c: Settings, x: Rx, now: nat): Rx
    requires Held(x.pending, 0)
  {
    var y := Replayed(x);
    if y.pending == map[] then y.(recovering := false)
    else if y.recovering then Asked(c, y, now)
    else y
  }

  /** A hole was noticed: note when and up to where, and ask for it. */
  ghost function GapOpened(c: Settings, x: Rx, upTo: nat, now: nat): Rx {
    Asked(c, x.(recovering := true, gapSince := now, gapEnd := upTo, lastRequest := 0), now)
  }

  /** Everything before `upTo` counts as lost. */
  function Lost(x: Rx, upTo: nat): Rx
    requires upTo >= x.expected
  {
    x.(gapMessages := x.gapMessages + (upTo - x.expected), expected := upTo)
  }

  /** Buffered, unless the buffer is full or has one with that number. */
  function Buffered(c: Settings, x: Rx, p: Packet): Rx
    requires |p| >= 20
  {
    x.(pending := if |x.pending| < c.maxBuffered && Seq(p) !in x.pending then x.pending[Seq(p) := p] else x.pending)
  }

  ghost function HeldBack(c: Settings, x: Rx, p: Packet, now: nat): Rx
    requires |p| >= 20
  {
    var y := Buffered(c, x, p);
    if y.recovering then y else GapOpened(c, y, Seq(p), now)
  }

  /** A packet with messages: dropped when old, taken, counted lost and taken, or held back. */
  ghost function WithMessages(c: Settings, x: Rx, p: Packet, now: nat): Rx
    requires |p| >= 20 && Count(p) > 0 && Held(x.pending, 0)
  {
    if Seq(p) + Count(p) <= x.expected then x
    else if Seq(p) <= x.expected then Drained(c, Taken(x, p), now)
    else if !c.canRequest then Taken(Lost(x, Seq(p)), p)
    else HeldBack(c, x, p, now)
  }

  /** The first packet of a session sets the starting point. */
  function Started(x: Rx, seq_: nat): Rx {
    x.(expected := seq_, t := Trace(seq_, [], |x.delivered|, x.messages, x.gapMessages, x.gapTimeouts))
  }

  /** A heartbeat names the message to come; everything before it has been sent. */
  ghost function WithHeartbeat(c: Settings, x: Rx, seq_: nat, now: nat): Rx {
    if x.expected == 0 then Started(x, seq_)
    else if seq_ > x.expected && c.canRequest && !x.recovering then GapOpened(c, x, seq_, now)
    else x
  }

  function Resynced(x: Rx, p: Packet): Rx
    requires |p| >= 20
  {
    if x.session == Session(p) then x else x.(session := Session(p), expected := 0, pending := map[], recovering := false)
  }

  /** Any packet. */
  ghost function Arrived(c: Settings, x: Rx, p: Packet, now: nat): Rx
    requires Valid(c, x)
  {
    if |p| < 20 then x
    else
      ResyncedValid(c, x, p);
      var y := Resynced(x, p);
      if Count(p) == END_OF_SESSION then y
      else if Count(p) == 0 then WithHeartbeat(c, y, Seq(p), now)
      else WithMessages(c, if y.expected == 0 then Started(y, Seq(p)) else y, p, now)
  }

  /** Giving up on a gap that was not filled in time: on from the lowest packet held. */
  ghost function GaveUp(c: Settings, x: Rx, now: nat): Rx
    requires Valid(c, x)
  {
    var y := x.(gapTimeouts := x.gapTimeouts + 1);
    if y.pending == map[] then y.(recovering := false)
    else
      LowestBeyond(y.pending, y.expected);
      StillHeld(y.pending, y.expected);
      Drained(c, Lost(y, Lowest(y.pending)).(gapSince := now), now)
  }

  ghost function Ticked(c: Settings, x: Rx, now: nat): Rx
    requires Valid(c, x)
  {
    if !x.recovering then x
    else if Sub64(now, x.gapSince) > c.gapTimeoutMs * NS_PER_MS then GaveUp(c, x, now)
    else if Sub64(now, x.lastRequest) > c.retryMs * NS_PER_MS then Asked(c, x, now)
    else x
  }

  // ---- what every step keeps ----

  lemma {:induction false} ResyncedValid(c: Settings, x: Rx, p: Packet)
    requires Valid(c, x) && |p| >= 20
    ensures Valid(c, Resynced(x, p)) && Held(Resynced(x, p).pending, 0)
  {
  }

  lemma {:induction false} UnbufferedHeld(x: Rx)
    requires Held(x.pending, 0) && x.pending != map[] && Lowest(x.pending) <= x.expected
    ensures var y := Unbuffered(x);
            && Held(y.pending, 0) && y.expected >= x.expected && x.delivered <= y.delivered
            && Lowest(x.pending) + Count(x.pending[Lowest(x.pending)]) <= y.expected
            && y == x.(expected := y.expected, pending := x.pending - {Lowest(x.pending)}, delivered := y.delivered,
                       messages := y.messages, t := y.t) && Origin(y.t) == Origin(x.t)
  {
    hide Messages, Seq, Drop;
  }

  /** A replay leaves exactly the packets beyond where it stopped, and has taken all that went on. */
  lemma {:induction false} ReplayedLeaves(x: Rx)
    requires Held(x.pending, 0)
    ensures var y := Replayed(x);
            && Held(y.pending, y.expected) && x.expected <= y.expected && x.delivered <= y.delivered
            && (forall k: nat :: k in y.pending <==> k in x.pending && k > y.expected)
            && (forall k :: k in y.pending ==> y.pending[k] == x.pending[k])
            && (forall k :: k in x.pending && k <= y.expected ==> k + Count(x.pending[k]) <= y.expected)
            && y == x.(expected := y.expected, pending := y.pending, delivered := y.delivered, messages := y.messages, t := y.t)
            && Origin(y.t) == Origin(x.t)
    decreases x.pending.Keys
  {
    hide Unbuffered, Count, Origin;
    if x.pending != map[] && Lowest(x.pending) <= x.expected {
      UnbufferedHeld(x);
      ReplayedLeaves(Unbuffered(x));
    } else {
      NoneAtOrBelow(x.pending, x.expected);
    }
  }

  lemma {:induction false} NoneAtOrBelow(pending: map<nat, Packet>, expected: nat)
    requires Held(pending, 0) && (pending != map[] ==> Lowest(pending) > expected)
    ensures Held(pending, expected) && forall k :: k in pending ==> k > expected
  {
    if pending != map[] {
      LowestIsLowest(pending);
    }
  }

  lemma {:induction false} LowestIsLowest(pending: map<nat, Packet>)
    requires pending != map[]
    ensures forall k :: k in pending ==> Lowest(pending) <= k
  {
    assert forall k :: k in pending ==> k in pending.Keys;
  }

  lemma {:induction false} AskedKeeps(c: Settings, x: Rx, now: nat)
    ensures Asked(c, x, now) == x.(requests := Asked(c, x, now).requests, lastRequest := Asked(c, x, now).lastRequest)
  {
    hide Lowest;
  }

  lemma {:induction false} DrainedValid(c: Settings, x: Rx, now: nat)
    requires |x.session| == 10 && x.expected > 0 && Held(x.pending, 0)
    requires (x.pending != map[] ==> x.recovering) && (x.recovering ==> c.canRequest)
    ensures var y := Drained(c, x, now);
            Valid(c, y) && y.expected >= x.expected && x.delivered <= y.delivered && Origin(y.t) == Origin(x.t)
  {
    ReplayedLeaves(x);
    AskedKeeps(c, Replayed(x), now);
    hide Replayed, Asked, Held, Origin;
    HeldNothing(Replayed(x).pending, Replayed(x).expected);
  }

  lemma {:induction false} HeldNothing(pending: map<nat, Packet>, expected: nat)
    ensures pending == map[] ==> Held(pending, expected)
  {
  }

  lemma {:induction false} WithMessagesValid(c: Settings, x: Rx, p: Packet, now: nat)
    requires Valid(c, x) && |p| >= 20 && 0 < Count(p) < END_OF_SESSION && (x.expected == 0 ==> Seq(p) == 0)
    ensures Held(x.pending, 0)
    ensures var y := WithMessages(c, x, p, now);
            Valid(c, y) && y.expected >= x.expected && x.delivered <= y.delivered && Origin(y.t) == Origin(x.t)
  {
    StillHeld(x.pending, x.expected);
    hide Count, Messages, Seq, Drop;
    if Seq(p) + Count(p) > x.expected {
      if Seq(p) <= x.expected {
        DrainedValid(c, Taken(x, p), now);
        hide Drained;
      } else if c.canRequest {
        hide Asked;
        AskedKeeps(c, Buffered(c, x, p).(recovering := true, gapSince := now, gapEnd := Seq(p), lastRequest := 0), now);
      }
    }
  }

  lemma {:induction false} WithHeartbeatValid(c: Settings, x: Rx, seq_: nat, now: nat)
    requires Valid(c, x)
    ensures var y := WithHeartbeat(c, x, seq_, now);
            Valid(c, y) && y.expected >= x.expected && y.delivered == x.delivered && (x.expected > 0 ==> y.t == x.t)
  {
    hide Asked;
    AskedKeeps(c, x.(recovering := true, gapSince := now, gapEnd := seq_, lastRequest := 0), now);
    HeldNothing(x.pending, seq_);
  }

  lemma {:induction false} ArrivedValid(c: Settings, x: Rx, p: Packet, now: nat)
    requires Valid(c, x)
    ensures Valid(c, Arrived(c, x, p, now)) && x.delivered <= Arrived(c, x, p, now).delivered
  {
    hide Valid, WithMessages, WithHeartbeat, Seq, Session;
    if |p| >= 20 {
      ResyncedValid(c, x, p);
      var y := Resynced(x, p);
      if Count(p) == 0 {
        WithHeartbeatValid(c, y, Seq(p), now);
      } else if Count(p) != END_OF_SESSION {
        CountFits(p);
        StartedValid(c, y, Seq(p));
        WithMessagesValid(c, if y.expected == 0 then Started(y, Seq(p)) else y, p, now);
      }
    }
  }

  lemma {:induction false} CountFits(p: Packet)
    requires |p| >= 20
    ensures Count(p) <= END_OF_SESSION
  {
  }

  lemma {:induction false} StartedValid(c: Settings, x: Rx, seq_: nat)
    requires Valid(c, x)
    ensures x.expected == 0 ==> Valid(c, Started(x, seq_))
  {
  }

  lemma {:induction false} TickedValid(c: Settings, x: Rx, now: nat)
    requires Valid(c, x)
    ensures var y := Ticked(c, x, now);
            Valid(c, y) && y.expected >= x.expected && x.delivered <= y.delivered && Origin(y.t) == Origin(x.t) && y.session == x.session
  {
    AskedKeeps(c, x, now);
    hide Asked, Origin, Held;
    if x.recovering && Sub64(now, x.gapSince) > c.gapTimeoutMs * NS_PER_MS {
      GaveUpValid(c, x, now);
      hide GaveUp;
    }
  }

  lemma {:induction false} GaveUpValid(c: Settings, x: Rx, now: nat)
    requires Valid(c, x) && x.recovering
    ensures var y := GaveUp(c, x, now);
            Valid(c, y) && y.expected >= x.expected && x.delivered <= y.delivered && Origin(y.t) == Origin(x.t) && y.session == x.session
  {
    hide Held, Drained, Lowest, Origin;
    var y := x.(gapTimeouts := x.gapTimeouts + 1);
    if y.pending != map[] {
      LowestBeyond(y.pending, y.expected);
      StillHeld(y.pending, y.expected);
      var z := Lost(y, Lowest(y.pending)).(gapSince := now);
      DrainedValid(c, z, now);
      DrainedSession(c, z, now);
    }
  }

  lemma {:induction false} DrainedSession(c: Settings, x: Rx, now: nat)
    requires Held(x.pending, 0)
    ensures Drained(c, x, now).session == x.session && Drained(c, x, now).gapTimeouts == x.gapTimeouts
            && Drained(c, x, now).gapMessages == x.gapMessages
  {
    ReplayedLeaves(x);
    AskedKeeps(c, Replayed(x), now);
    hide Replayed, Asked, Held, Origin;
  }

  // ---- honest packets of one session ----

  /** Where a session began. */
  function Origin(t: Trace): Trace {
    t.(seqs := [])
  }

  /** The run so far consisted of honest packets of one session. */
  ghost predicate InSession(c: Settings, x: Rx, sess: Packet, feed: nat -> Packet) {
    && (x.expected > 0 ==> x.session == sess && Faithful(x.t, feed, x.delivered, x.messages, x.gapMessages, x.expected))
    && (x.expected > 0 && c.canRequest && x.gapTimeouts == x.t.timeouts0 ==> x.gapMessages == x.t.gap0)
    && (x.expected > 0 ==> x.t.timeouts0 <= x.gapTimeouts)
    && forall k :: k in x.pending ==> Honest(x.pending[k], sess, feed)
  }

  lemma {:induction false} TakenFaithful(x: Rx, p: Packet, sess: Packet, feed: nat -> Packet)
    requires Spans(x, p) && Honest(p, sess, feed) && Faithful(x.t, feed, x.delivered, x.messages, x.gapMessages, x.expected)
    ensures var y := Taken(x, p); Faithful(y.t, feed, y.delivered, y.messages, y.gapMessages, y.expected)
  {
    TakeHonest(p, sess, x.t, feed, x.delivered, x.messages, x.gapMessages, x.expected);
    hide Faithful, Honest, Messages, Drop, Seq, Count;
  }

  lemma {:induction false} UnbufferedInSession(c: Settings, x: Rx, sess: Packet, feed: nat -> Packet)
    requires Held(x.pending, 0) && x.pending != map[] && Lowest(x.pending) <= x.expected && x.expected > 0
    requires InSession(c, x, sess, feed)
    ensures InSession(c, Unbuffered(x), sess, feed)
  {
    hide Faithful, Honest, Messages, Drop, Seq, Count;
    var k: nat := Lowest(x.pending);
    var p := x.pending[k];
    if k + Count(p) > x.expected {
      TakenFaithful(x, p, sess, feed);
    }
  }

  lemma {:induction false} ReplayedInSession(c: Settings, x: Rx, sess: Packet, feed: nat -> Packet)
    requires Held(x.pending, 0) && x.expected > 0 && InSession(c, x, sess, feed)
    ensures InSession(c, Replayed(x), sess, feed)
    decreases x.pending.Keys
  {
    hide InSession, Unbuffered;
    if x.pending != map[] && Lowest(x.pending) <= x.expected {
      UnbufferedInSession(c, x, sess, feed);
      UnbufferedHeld(x);
      ReplayedInSession(c, Unbuffered(x), sess, feed);
    }
  }

  lemma {:induction false} DrainedInSession(c: Settings, x: Rx, now: nat, sess: Packet, feed: nat -> Packet)
    requires Held(x.pending, 0) && x.expected > 0 && InSession(c, x, sess, feed)
    ensures InSession(c, Drained(c, x, now), sess, feed)
  {
    ReplayedInSession(c, x, sess, feed);
    AskedKeeps(c, Replayed(x), now);
    hide Replayed, Asked, Faithful, Honest;
  }

  lemma {:induction false} LostInSession(c: Settings, x: Rx, p: Packet, sess: Packet, feed: nat -> Packet)
    requires |p| >= 20 && 0 < Count(p) && 0 < x.expected < Seq(p) && !c.canRequest
    requires InSession(c, x, sess, feed) && Honest(p, sess, feed)
    ensures InSession(c, Taken(Lost(x, Seq(p)), p), sess, feed)
  {
    var y := Lost(x, Seq(p));
    Skip(x.t, feed, x.delivered, x.messages, x.gapMessages, x.expected, Seq(p));
    hide Faithful, Honest, Messages, Drop, Seq, Count;
    TakenFaithful(y, p, sess, feed);
  }

  lemma {:induction false} TakenInSession(c: Settings, x: Rx, p: Packet, sess: Packet, feed: nat -> Packet)
    requires x.expected > 0 && Spans(x, p) && InSession(c, x, sess, feed) && Honest(p, sess, feed)
    ensures InSession(c, Taken(x, p), sess, feed)
  {
    hide Faithful, Honest, Messages, Drop, Seq, Count;
    TakenFaithful(x, p, sess, feed);
  }

  lemma {:induction false} HeldBackInSession(c: Settings, x: Rx, p: Packet, now: nat, sess: Packet, feed: nat -> Packet)
    requires |p| >= 20 && InSession(c, x, sess, feed) && Honest(p, sess, feed)
    ensures InSession(c, HeldBack(c, x, p, now), sess, feed)
  {
    hide Faithful, Honest, Seq, Asked;
    AskedKeeps(c, Buffered(c, x, p).(recovering := true, gapSince := now, gapEnd := Seq(p), lastRequest := 0), now);
  }

  /** An honest packet with messages keeps delivery in order and at most once. */
  lemma {:induction false} WithMessagesInSession(c: Settings, x: Rx, p: Packet, now: nat, sess: Packet, feed: nat -> Packet)
    requires Valid(c, x) && |p| >= 20 && 0 < Count(p) && x.expected > 0
    requires InSession(c, x, sess, feed) && Honest(p, sess, feed)
    ensures Held(x.pending, 0) && InSession(c, WithMessages(c, x, p, now), sess, feed)
  {
    StillHeld(x.pending, x.expected);
    hide InSession, Honest, Taken, Lost, Drained, HeldBack, Held, Seq, Count;
    if Seq(p) + Count(p) > x.expected {
      if Seq(p) <= x.expected {
        TakenInSession(c, x, p, sess, feed);
        TakenPending(x, p);
        TakenExpected(x, p);
        DrainedInSession(c, Taken(x, p), now, sess, feed);
      } else if !c.canRequest {
        LostInSession(c, x, p, sess, feed);
      } else {
        HeldBackInSession(c, x, p, now, sess, feed);
      }
    }
  }

  lemma {:induction false} TakenExpected(x: Rx, p: Packet)
    requires Spans(x, p)
    ensures Taken(x, p).expected == Seq(p) + Count(p)
  {
  }

  lemma {:induction false} WithHeartbeatInSession(c: Settings, x: Rx, seq_: nat, now: nat, sess: Packet, feed: nat -> Packet)
    requires InSession(c, x, sess, feed) && x.session == sess
    ensures InSession(c, WithHeartbeat(c, x, seq_, now), sess, feed)
  {
    hide Asked, Honest;
    AskedKeeps(c, x.(recovering := true, gapSince := now, gapEnd := seq_, lastRequest := 0), now);
  }

  lemma {:induction false} StartedInSession(c: Settings, x: Rx, seq_: nat, sess: Packet, feed: nat -> Packet)
    requires InSession(c, x, sess, feed) && x.session == sess
    ensures InSession(c, Started(x, seq_), sess, feed)
  {
    hide Honest;
  }

  lemma {:induction false} ResyncedInSession(c: Settings, x: Rx, p: Packet, sess: Packet, feed: nat -> Packet)
    requires InSession(c, x, sess, feed) && |p| >= 20 && Session(p) == sess
    ensures InSession(c, Resynced(x, p), sess, feed) && Resynced(x, p).session == sess
  {
    hide Honest, Faithful;
  }

  lemma {:induction false} HonestStart(p: Packet, sess: Packet, feed: nat -> Packet)
    requires Honest(p, sess, feed)
    ensures |p| >= 20 && Seq(p) >= 1
  {
  }

  /** A packet of the session, honest unless it is the end-of-session marker. */
  ghost predicate Admissible(p: Packet, sess: Packet, feed: nat -> Packet) {
    |p| >= 20 && Session(p) == sess && (Count(p) != END_OF_SESSION ==> Honest(p, sess, feed))
  }

  lemma {:induction false} ArrivedInSession(c: Settings, x: Rx, p: Packet, now: nat, sess: Packet, feed: nat -> Packet)
    requires Valid(c, x) && InSession(c, x, sess, feed) && Admissible(p, sess, feed)
    ensures InSession(c, Arrived(c, x, p, now), sess, feed)
  {
    hide Valid, InSession, WithMessages, WithHeartbeat, Seq, Session, Honest, Resynced;
    ResyncedValid(c, x, p);
    ResyncedInSession(c, x, p, sess, feed);
    var y := Resynced(x, p);
    if Count(p) == 0 {
      WithHeartbeatInSession(c, y, Seq(p), now, sess, feed);
    } else if Count(p) != END_OF_SESSION {
      HonestStart(p, sess, feed);
      StartedValid(c, y, Seq(p));
      StartedInSession(c, y, Seq(p), sess, feed);
      WithMessagesInSession(c, if y.expected == 0 then Started(y, Seq(p)) else y, p, now, sess, feed);
    }
  }

  lemma {:induction false} TickedInSession(c: Settings, x: Rx, now: nat, sess: Packet, feed: nat -> Packet)
    requires Valid(c, x) && InSession(c, x, sess, feed)
    ensures InSession(c, Ticked(c, x, now), sess, feed)
  {
    hide Asked, Honest, Faithful, Held;
    AskedKeeps(c, x, now);
    if x.recovering && Sub64(now, x.gapSince) > c.gapTimeoutMs * NS_PER_MS {
      GaveUpInSession(c, x, now, sess, feed);
      hide GaveUp;
    }
  }

  lemma {:induction false} GaveUpInSession(c: Settings, x: Rx, now: nat, sess: Packet, feed: nat -> Packet)
    requires Valid(c, x) && InSession(c, x, sess, feed)
    ensures InSession(c, GaveUp(c, x, now), sess, feed)
  {
    hide Held, Honest, Faithful, Drained, Lowest;
    var y := x.(gapTimeouts := x.gapTimeouts + 1);
    if y.pending != map[] {
      LowestBeyond(y.pending, y.expected);
      StillHeld(y.pending, y.expected);
      Skip(y.t, feed, y.delivered, y.messages, y.gapMessages, y.expected, Lowest(y.pending));
      DrainedInSession(c, Lost(y, Lowest(y.pending)).(gapSince := now), now, sess, feed);
    }
  }

  // ---- whole runs ----

  datatype Event = Arrival(p: Packet, now: nat) | Clock(now: nat)

  ghost function AfterEvent(c: Settings, x: Rx, e: Event): (y: Rx)
    requires Valid(c, x)
    ensures Valid(c, y)
  {
    hide Valid, Arrived, Ticked;
    match e
    case Arrival(p, now) => ArrivedValid(c, x, p, now); Arrived(c, x, p, now)
    case Clock(now) => TickedValid(c, x, now); Ticked(c, x, now)
  }

  /** The receiver after a run of packets, in any order, with loss and duplication, and ticks. */
  ghost function AfterEvents(c: Settings, x: Rx, events: seq<Event>): (y: Rx)
    requires Valid(c, x)
    ensures Valid(c, y)
    decreases |events|
  {
    hide Valid, AfterEvent;
    if events == [] then x else AfterEvent(c, AfterEvents(c, x, events[..|events| - 1]), events[|events| - 1])
  }

  ghost predicate HonestEvents(events: seq<Event>, sess: Packet, feed: nat -> Packet) {
    forall i :: 0 <= i < |events| && events[i].Arrival? ==> Admissible(events[i].p, sess, feed)
  }

  /** The sequence number of the first packet that is not the end-of-session marker, 0 when there is none. */
  function FirstSeq(events: seq<Event>): nat {
    if events == [] then 0
    else
      var before := FirstSeq(events[..|events| - 1]);
      var e := events[|events| - 1];
      if before != 0 || e.Clock? || |e.p| < 20 || Count(e.p) == END_OF_SESSION then before else Seq(e.p)
  }

  /** The trace of a run started where its first packet said. */
  ghost predicate StartsAt(x: Rx, first: nat, sess: Packet) {
    && (x.expected == 0 ==> first == 0 && x.delivered == [] && x.messages == x.gapMessages == x.gapTimeouts == 0
                            && x.pending == map[] && !x.recovering)
    && (x.expected > 0 ==> first > 0 && x.session == sess && Origin(x.t) == Trace(first, [], 0, 0, 0, 0))
  }

  lemma {:induction false} ArrivedStarts(c: Settings, x: Rx, p: Packet, now: nat, first: nat, sess: Packet, feed: nat -> Packet)
    requires Valid(c, x) && StartsAt(x, first, sess) && Admissible(p, sess, feed)
    ensures StartsAt(Arrived(c, x, p, now), if first != 0 || Count(p) == END_OF_SESSION then first else Seq(p), sess)
  {
    hide Valid, WithMessages, WithHeartbeat, Seq, Session, Honest, Origin;
    ResyncedValid(c, x, p);
    var y := Resynced(x, p);
    ResyncedStarts(x, p, first, sess);
    if Count(p) == 0 {
      HonestStart(p, sess, feed);
      WithHeartbeatValid(c, y, Seq(p), now);
      HeartbeatStarts(c, y, Seq(p), now, first, sess);
    } else if Count(p) != END_OF_SESSION {
      HonestStart(p, sess, feed);
      CountFits(p);
      StartedValid(c, y, Seq(p));
      var z := if y.expected == 0 then Started(y, Seq(p)) else y;
      StartedStarts(y, Seq(p), first, sess);
      WithMessagesValid(c, z, p, now);
      WithMessagesSession(c, z, p, now);
    }
  }

  lemma {:induction false} ResyncedStarts(x: Rx, p: Packet, first: nat, sess: Packet)
    requires |p| >= 20 && Session(p) == sess && StartsAt(x, first, sess)
    ensures StartsAt(Resynced(x, p), first, sess) && Resynced(x, p).session == sess && Resynced(x, p).expected == x.expected
  {
  }

  lemma {:induction false} StartedStarts(x: Rx, seq_: nat, first: nat, sess: Packet)
    requires StartsAt(x, first, sess) && x.session == sess && seq_ > 0
    ensures x.expected == 0 ==> StartsAt(Started(x, seq_), seq_, sess)
  {
  }

  lemma {:induction false} HeartbeatStarts(c: Settings, x: Rx, seq_: nat, now: nat, first: nat, sess: Packet)
    requires StartsAt(x, first, sess) && x.session == sess && seq_ > 0
    ensures StartsAt(WithHeartbeat(c, x, seq_, now), if first != 0 then first else seq_, sess)
  {
    hide Asked, Origin;
    AskedKeeps(c, x.(recovering := true, gapSince := now, gapEnd := seq_, lastRequest := 0), now);
    StartedStarts(x, seq_, first, sess);
  }

  lemma {:induction false} WithMessagesSession(c: Settings, x: Rx, p: Packet, now: nat)
    requires |p| >= 20 && Count(p) > 0 && Held(x.pending, 0)
    ensures WithMessages(c, x, p, now).session == x.session
  {
    hide Held, Seq, Count, Messages, Drop;
    if Seq(p) <= x.expected < Seq(p) + Count(p) {
      DrainedSession(c, Taken(x, p), now);
      hide Drained;
    } else if Seq(p) > x.expected && c.canRequest {
      hide Asked;
      AskedKeeps(c, Buffered(c, x, p).(recovering := true, gapSince := now, gapEnd := Seq(p), lastRequest := 0), now);
    }
  }

  lemma {:induction false} TickedStarts(c: Settings, x: Rx, now: nat, first: nat, sess: Packet)
    requires Valid(c, x) && StartsAt(x, first, sess)
    ensures StartsAt(Ticked(c, x, now), first, sess)
  {
    TickedValid(c, x, now);
    hide GaveUp, Asked, Valid;
  }

  lemma {:induction false} RunKeeps(c: Settings, events: seq<Event>, sess: Packet, feed: nat -> Packet)
    requires HonestEvents(events, sess, feed)
    ensures Valid(c, FreshRx())
    ensures var x := AfterEvents(c, FreshRx(), events); InSession(c, x, sess, feed) && StartsAt(x, FirstSeq(events), sess)
    decreases |events|
  {
    if events != [] {
      var before, e := events[..|events| - 1], events[|events| - 1];
      RunKeeps(c, before, sess, feed);
      var x := AfterEvents(c, FreshRx(), before);
      hide Valid, InSession, StartsAt, Arrived, Ticked, AfterEvents, Session, Honest, Seq, Count;
      RunUnfolds(c, FreshRx(), events);
      match e {
        case Arrival(p, now) =>
          ArrivedInSession(c, x, p, now, sess, feed);
          ArrivedStarts(c, x, p, now, FirstSeq(before), sess, feed);
        case Clock(now) =>
          TickedInSession(c, x, now, sess, feed);
          TickedStarts(c, x, now, FirstSeq(before), sess);
      }
    }
  }

  lemma {:induction false} RunUnfolds(c: Settings, x: Rx, events: seq<Event>)
    requires Valid(c, x) && events != []
    ensures AfterEvents(c, x, events) == AfterEvent(c, AfterEvents(c, x, events[..|events| - 1]), events[|events| - 1])
  {
  }

  /** The feed's messages with the numbers from `a` up to but not including `b`. */
  function Stretch(feed: nat -> Packet, a: nat, b: nat): (r: seq<Packet>)
    requires a <= b
    ensures |r| == b - a && forall i :: 0 <= i < |r| ==> r[i] == feed(a + i)
  {
    seq(b - a, i requires 0 <= i < b - a => feed(a + i))
  }

  /**
   A run of honest packets of one session, in any order, with loss and duplication, and ticks: messages come
   out of the feed from the first packet's number on, in strictly increasing order; delivered and lost ones add
   up to the distance covered; with recovery and no timeout nothing is missing.
   */
  lemma {:induction false} HonestRun(c: Settings, events: seq<Event>, sess: Packet, feed: nat -> Packet)
    requires HonestEvents(events, sess, feed)
    ensures Valid(c, FreshRx())
    ensures var x, first := AfterEvents(c, FreshRx(), events), FirstSeq(events);
            && (first == 0 ==> x.delivered == [])
            && (first > 0 ==> Faithful(Trace(first, x.t.seqs, 0, 0, 0, 0), feed, x.delivered, x.messages, x.gapMessages, x.expected))
            && (first > 0 && c.canRequest && x.gapTimeouts == 0 ==> x.expected >= first && x.delivered == Stretch(feed, first, x.expected))
  {
    RunKeeps(c, events, sess, feed);
    hide AfterEvents, FirstSeq;
    SessionMeans(c, AfterEvents(c, FreshRx(), events), FirstSeq(events), sess, feed);
  }

  lemma {:induction false} SessionMeans(c: Settings, x: Rx, first: nat, sess: Packet, feed: nat -> Packet)
    requires InSession(c, x, sess, feed) && StartsAt(x, first, sess)
    ensures first == 0 ==> x.delivered == []
    ensures first > 0 ==> Faithful(Trace(first, x.t.seqs, 0, 0, 0, 0), feed, x.delivered, x.messages, x.gapMessages, x.expected)
    ensures first > 0 && c.canRequest && x.gapTimeouts == 0 ==> x.expected >= first && x.delivered == Stretch(feed, first, x.expected)
  {
    if first > 0 {
      var t := Trace(first, x.t.seqs, 0, 0, 0, 0);
      assert x.t == t;
      if c.canRequest && x.gapTimeouts == 0 {
        NoLossIsContiguous(t, feed, x.delivered, x.messages, x.gapMessages, x.expected);
        assert |x.delivered| == x.expected - first;
        forall i | 0 <= i < |x.delivered| ensures x.delivered[i] == feed(first + i) {
          assert x.t.seqs[i] == first + i && x.delivered[t.delivered0 + i] == feed(x.t.seqs[i]);
        }
      }
    }
  }

  // ---- what it asks for ----

  /** While recovering with nothing held back, something before the end of the gap is missing. */
  ghost predicate GapAhead(x: Rx) {
    x.recovering ==> x.expected > 0 && (x.pending == map[] ==> x.expected < x.gapEnd)
  }

  /**
   A request for the missing message and as many behind it as one request may ask for, but for none that is
   held back or, when none is, lies beyond the gap.
   */
  ghost predicate AsksForHole(c: Settings, x: Rx, r: (nat, nat)) {
    var a, n := r.0, r.1;
    && a == x.expected && n <= c.maxRequest
    && (forall k :: k in x.pending ==> a + n <= k)
    && (x.pending == map[] ==> a + n <= x.gapEnd)
    && (n == c.maxRequest || a + n in x.pending || (x.pending == map[] && a + n == x.gapEnd))
  }

  /** Between the two states one request was sent, at `now`; or none. */
  ghost predicate AskedOnce(c: Settings, x: Rx, y: Rx, now: nat) {
    && |y.requests| == |x.requests| + 1 && x.requests <= y.requests
    && AsksForHole(c, y, y.requests[|x.requests|]) && y.lastRequest == now
  }

  lemma {:induction false} AskedAsks(c: Settings, x: Rx, now: nat)
    ensures var y := Asked(c, x, now);
            AskedOnce(c, x, y, now)
            || (y == x && (!c.canRequest || (x.pending == map[] && x.gapEnd <= x.expected)
                           || exists k :: k in x.pending && k <= x.expected))
  {
    if x.pending != map[] {
      LowestIsLowest(x.pending);
      LowestIn(x.pending);
    }
    hide Lowest;
  }

  lemma {:induction false} DrainedAsks(c: Settings, x: Rx, now: nat)
    requires Held(x.pending, 0) && (x.recovering ==> c.canRequest) && x.expected > 0
    ensures var y := Drained(c, x, now);
            && GapAhead(y) && y.gapSince == x.gapSince && y.gapEnd == x.gapEnd
            && if y.recovering then AskedOnce(c, x, y, now) else y.requests == x.requests && y.lastRequest == x.lastRequest
  {
    ReplayedLeaves(x);
    AskedAsks(c, Replayed(x), now);
    AskedKeeps(c, Replayed(x), now);
    hide Replayed, Asked, Origin;
  }

  lemma {:induction false} GapOpenedAsks(c: Settings, x: Rx, upTo: nat, now: nat)
    requires c.canRequest && Held(x.pending, x.expected) && x.expected < upTo
    ensures var y := GapOpened(c, x, upTo, now);
            AskedOnce(c, x, y, now) && y.recovering && y.gapSince == now && y.gapEnd == upTo && y.expected == x.expected
            && y.pending == x.pending
  {
    var z := x.(recovering := true, gapSince := now, gapEnd := upTo, lastRequest := 0);
    AskedAsks(c, z, now);
    AskedKeeps(c, z, now);
    hide Asked;
  }

  /**
   What a packet makes the receiver ask for: nothing or the hole it then has in front of it. It asks whenever a
   gap opens, and whenever it got further and there is another hole.
   */
  ghost predicate AsksRightly(c: Settings, x: Rx, y: Rx, now: nat) {
    && GapAhead(y)
    && (AskedOnce(c, x, y, now) || (y.requests == x.requests && y.lastRequest == x.lastRequest))
    && (y.recovering && (!x.recovering || y.expected != x.expected) ==> AskedOnce(c, x, y, now))
    && (y.recovering && !x.recovering ==> y.gapSince == now)
  }

  lemma {:induction false} WithMessagesAsks(c: Settings, x: Rx, p: Packet, now: nat)
    requires Valid(c, x) && GapAhead(x) && |p| >= 20 && 0 < Count(p) < END_OF_SESSION && (x.expected == 0 ==> Seq(p) == 0)
    ensures Held(x.pending, 0) && AsksRightly(c, x, WithMessages(c, x, p, now), now)
  {
    StillHeld(x.pending, x.expected);
    hide Seq, Count, Asked, AskedOnce, Replayed, Drained, GapOpened, Messages, Drop;
    if Seq(p) + Count(p) > x.expected {
      if Seq(p) <= x.expected {
        DrainedAsks(c, Taken(x, p), now);
        SameAsked(c, x, Taken(x, p), Drained(c, Taken(x, p), now), now);
      } else if c.canRequest {
        var y := Buffered(c, x, p);
        if !x.recovering {
          GapOpenedAsks(c, y, Seq(p), now);
          SameAsked(c, x, y, GapOpened(c, y, Seq(p), now), now);
        }
      }
    }
  }

  lemma {:induction false} SameAsked(c: Settings, x: Rx, x1: Rx, y: Rx, now: nat)
    requires x1.requests == x.requests
    ensures AskedOnce(c, x1, y, now) <==> AskedOnce(c, x, y, now)
  {
    hide AsksForHole;
  }

  lemma {:induction false} ArrivedAsks(c: Settings, x: Rx, p: Packet, now: nat)
    requires Valid(c, x) && GapAhead(x) && |p| >= 20
    ensures AsksRightly(c, Resynced(x, p), Arrived(c, x, p, now), now)
  {
    hide Valid, WithMessages, Seq, Session, AskedOnce, GapOpened;
    ResyncedValid(c, x, p);
    var y := Resynced(x, p);
    ResyncedAhead(x, p);
    CountFits(p);
    StartedValid(c, y, Seq(p));
    if Count(p) == 0 {
      if y.expected != 0 && Seq(p) > y.expected && c.canRequest && !y.recovering {
        HeldWhileValid(c, y);
        GapOpenedAsks(c, y, Seq(p), now);
      }
    } else if Count(p) != END_OF_SESSION {
      var z := if y.expected == 0 then Started(y, Seq(p)) else y;
      WithMessagesAsks(c, z, p, now);
      SameAsked(c, y, z, WithMessages(c, z, p, now), now);
    }
  }

  lemma {:induction false} HeldWhileValid(c: Settings, x: Rx)
    requires Valid(c, x)
    ensures Held(x.pending, x.expected)
  {
  }

  lemma {:induction false} ResyncedAhead(x: Rx, p: Packet)
    requires |p| >= 20 && GapAhead(x)
    ensures GapAhead(Resynced(x, p))
  {
  }

  /**
   What a tick does, in nanoseconds on a 64-bit clock: past the gap timeout it gives up, otherwise past the retry
   time it asks again, otherwise nothing.
   */
  lemma {:induction false} TickedAsks(c: Settings, x: Rx, now: nat)
    requires Valid(c, x) && GapAhead(x)
    ensures var y := Ticked(c, x, now);
            var late := (now - x.gapSince) % 0x1_0000_0000_0000_0000 > c.gapTimeoutMs * 1_000_000;
            var retry := (now - x.lastRequest) % 0x1_0000_0000_0000_0000 > c.retryMs * 1_000_000;
            && AsksRightly(c, x, y, now)
            && (!x.recovering ==> y == x)
            && (x.recovering && late ==> y.gapTimeouts == x.gapTimeouts + 1 && (y.recovering ==> y.gapSince == now))
            && (x.recovering && !late ==> y.gapTimeouts == x.gapTimeouts && y.expected == x.expected && y.gapSince == x.gapSince)
            && (x.recovering && !late && retry ==> AskedOnce(c, x, y, now))
            && (x.recovering && !late && !retry ==> y == x)
  {
    hide Asked, Held, AskedOnce, GaveUp;
    HeldWhileValid(c, x);
    NothingBelow(x.pending, x.expected);
    AskedAsks(c, x, now);
    AskedKeeps(c, x, now);
    if x.recovering && Sub64(now, x.gapSince) > c.gapTimeoutMs * NS_PER_MS {
      GaveUpAsks(c, x, now);
    }
  }

  lemma {:induction false} NothingBelow(pending: map<nat, Packet>, expected: nat)
    requires Held(pending, expected)
    ensures !exists k :: k in pending && k <= expected
  {
  }

  lemma {:induction false} GaveUpAsks(c: Settings, x: Rx, now: nat)
    requires Valid(c, x) && GapAhead(x) && x.recovering
    ensures var y := GaveUp(c, x, now);
            && GapAhead(y) && y.gapTimeouts == x.gapTimeouts + 1 && (y.recovering ==> y.gapSince == now)
            && if y.recovering then AskedOnce(c, x, y, now) else y.requests == x.requests && y.lastRequest == x.lastRequest
  {
    hide Held, Drained, Lowest, AskedOnce, Origin;
    var y := x.(gapTimeouts := x.gapTimeouts + 1);
    if y.pending != map[] {
      LowestBeyond(y.pending, y.expected);
      StillHeld(y.pending, y.expected);
      var z := Lost(y, Lowest(y.pending)).(gapSince := now);
      DrainedAsks(c, z, now);
      DrainedSession(c, z, now);
      SameAsked(c, x, z, Drained(c, z, now), now);
    }
  }

  /** Over every run: each step asks for nothing or for the hole in front of the receiver, and asks when it must. */
  lemma {:induction false} RunAsksRightly(c: Settings, events: seq<Event>, e: Event)
    ensures Valid(c, FreshRx())
    ensures var x := AfterEvents(c, FreshRx(), events);
            && GapAhead(x)
            && (e.Arrival? && |e.p| >= 20 ==> AsksRightly(c, Resynced(x, e.p), AfterEvent(c, x, e), e.now))
            && (e.Arrival? && |e.p| < 20 ==> AfterEvent(c, x, e) == x)
            && (e.Clock? ==> AsksRightly(c, x, AfterEvent(c, x, e), e.now))
  {
    FreshAhead(c);
    AheadKept(c, FreshRx(), events);
    hide Valid, AsksRightly, GapAhead;
    var x := AfterEvents(c, FreshRx(), events);
    match e {
      case Arrival(p, now) => if |p| >= 20 { ArrivedAsks(c, x, p, now); }
      case Clock(now) => TickedAsks(c, x, now);
    }
    hide Arrived, Ticked, AfterEvents, Resynced;
  }

  lemma {:induction false} FreshAhead(c: Settings)
    ensures Valid(c, FreshRx()) && GapAhead(FreshRx())
  {
  }

  lemma {:induction false} AheadKept(c: Settings, x: Rx, events: seq<Event>)
    requires Valid(c, x) && GapAhead(x)
    ensures GapAhead(AfterEvents(c, x, events))
    decreases |events|
  {
    hide Valid, GapAhead, AskedOnce, Resynced, Arrived, Ticked;
    if events != [] {
      var before, e := events[..|events| - 1], events[|events| - 1];
      AheadKept(c, x, before);
      var y := AfterEvents(c, x, before);
      RunUnfolds(c, x, events);
      match e {
        case Arrival(p, now) =>
          if |p| >= 20 {
            ArrivedAsks(c, y, p, now);
          } else {
            TooShort(c, y, p, now);
          }
        case Clock(now) => TickedAsks(c, y, now);
      }
    }
  }

  lemma {:induction false} TooShort(c: Settings, x: Rx, p: Packet, now: nat)
    requires Valid(c, x) && |p| < 20
    ensures Arrived(c, x, p, now) == x
  {
  }

  // ---- replies close the gap ----

  /** A packet of the session, or one too short to be read. */
  ghost predicate OfSession(p: Packet, sess: Packet) {
    |p| >= 20 ==> Session(p) == sess
  }

  ghost predicate AllOfSession(events: seq<Event>, sess: Packet) {
    forall i :: 0 <= i < |events| && events[i].Arrival? ==> OfSession(events[i].p, sess)
  }

  /** The packet brings message `k`. */
  predicate Brings(p: Packet, k: nat) {
    |p| >= 20 && Count(p) != END_OF_SESSION && Seq(p) <= k < Seq(p) + Count(p)
  }

  /** The number reached by taking the packets that go on from the number reached so far. */
  function Reach(events: seq<Event>, from: nat): nat {
    if events == [] then from
    else
      var r, e := Reach(events[..|events| - 1], from), events[|events| - 1];
      if e.Arrival? && Brings(e.p, r) then Seq(e.p) + Count(e.p) else r
  }

  /** Within a session nothing goes back, and a packet that brings the expected message takes the receiver behind it. */
  lemma {:induction false} EventAdvances(c: Settings, x: Rx, e: Event)
    requires Valid(c, x) && x.expected > 0 && (e.Arrival? ==> OfSession(e.p, x.session))
    ensures var y := AfterEvent(c, x, e);
            && y.session == x.session && y.expected >= x.expected
            && (e.Arrival? && |e.p| >= 20 && 0 < Count(e.p) < END_OF_SESSION && Seq(e.p) <= x.expected
                ==> y.expected >= Seq(e.p) + Count(e.p))
  {
    hide Valid, WithHeartbeat, Seq, Session, Origin, Drained;
    match e {
      case Clock(now) => TickedValid(c, x, now);
      case Arrival(p, now) =>
        if |p| >= 20 {
          ResyncedValid(c, x, p);
          assert Resynced(x, p) == x;
          CountFits(p);
          if Count(p) == 0 {
            WithHeartbeatValid(c, x, Seq(p), now);
            HeartbeatSession(c, x, Seq(p), now);
          } else if Count(p) != END_OF_SESSION {
            WithMessagesValid(c, x, p, now);
            WithMessagesSession(c, x, p, now);
            if Seq(p) <= x.expected < Seq(p) + Count(p) {
              TakenThenDrained(c, x, p, now);
            }
          }
        }
    }
  }

  lemma {:induction false} HeartbeatSession(c: Settings, x: Rx, seq_: nat, now: nat)
    ensures WithHeartbeat(c, x, seq_, now).session == x.session
  {
    hide Asked;
    AskedKeeps(c, x.(recovering := true, gapSince := now, gapEnd := seq_, lastRequest := 0), now);
  }

  lemma {:induction false} TakenThenDrained(c: Settings, x: Rx, p: Packet, now: nat)
    requires Spans(x, p) && Held(x.pending, 0)
    ensures Taken(x, p).pending == x.pending && Drained(c, Taken(x, p), now).expected >= Seq(p) + Count(p)
  {
    TakenExpected(x, p);
    TakenPending(x, p);
    var y := Taken(x, p);
    hide Taken, Held, Replayed, Asked, Origin;
    ReplayedLeaves(y);
    AskedKeeps(c, Replayed(y), now);
  }

  /**
   Replies in order close a gap whatever comes in between: ticks, heartbeats, duplicates, other packets of the session.
   */
  lemma {:induction false} RepliesInOrder(c: Settings, x: Rx, events: seq<Event>, from: nat)
    requires Valid(c, x) && 0 < from <= x.expected && AllOfSession(events, x.session)
    ensures var y := AfterEvents(c, x, events);
            y.session == x.session && y.expected >= x.expected && y.expected >= Reach(events, from)
    decreases |events|
  {
    hide Valid, Seq, Session, AfterEvent, OfSession;
    if events != [] {
      var before, e := events[..|events| - 1], events[|events| - 1];
      RepliesInOrder(c, x, before, from);
      RunUnfolds(c, x, events);
      EventAdvances(c, AfterEvents(c, x, before), e);
    }
  }

  /** Message `k` was handed over, counted as lost, or is held back. */
  ghost predicate Secured(x: Rx, k: nat) {
    k < x.expected || exists j: nat :: HoldsAt(x.pending, j, k)
  }

  ghost predicate HoldsAt(pending: map<nat, Packet>, j: nat, k: nat) {
    j in pending && |pending[j]| >= 20 && j <= k < j + Count(pending[j])
  }

  lemma {:induction false} ReplayedSecures(x: Rx, k: nat)
    requires Held(x.pending, 0) && Secured(x, k)
    ensures Secured(Replayed(x), k)
  {
    ReplayedLeaves(x);
    hide Replayed, Seq, Count, Origin;
    var y := Replayed(x);
    if k >= y.expected {
      var j: nat :| HoldsAt(x.pending, j, k);
      assert HoldsAt(y.pending, j, k);
    }
  }

  lemma {:induction false} DrainedSecures(c: Settings, x: Rx, now: nat, k: nat)
    requires Held(x.pending, 0) && Secured(x, k)
    ensures Secured(Drained(c, x, now), k)
  {
    ReplayedSecures(x, k);
    AskedKeeps(c, Replayed(x), now);
    hide Replayed, Asked, Held, Origin, HoldsAt;
  }

  /** A packet the buffer takes if it has to: room, and none under the same number with fewer messages. */
  ghost predicate Storable(c: Settings, x: Rx, p: Packet)
    requires |p| >= 20
  {
    |x.pending| < c.maxBuffered && (Seq(p) in x.pending ==> |x.pending[Seq(p)]| >= 20 && Count(p) <= Count(x.pending[Seq(p)]))
  }

  lemma {:induction false} WithMessagesSecures(c: Settings, x: Rx, p: Packet, now: nat, k: nat)
    requires Valid(c, x) && |p| >= 20 && 0 < Count(p) < END_OF_SESSION && x.expected > 0
    requires Secured(x, k) || (Brings(p, k) && Storable(c, x, p))
    ensures Held(x.pending, 0) && Secured(WithMessages(c, x, p, now), k)
  {
    StillHeld(x.pending, x.expected);
    hide Seq, Count, Messages, Drop, Asked, Replayed, Drained, Storable;
    if Seq(p) + Count(p) <= x.expected {
    } else if Seq(p) <= x.expected {
      TakenSecures(x, p, k);
      TakenPending(x, p);
      DrainedSecures(c, Taken(x, p), now, k);
    } else if !c.canRequest {
      LostTaken(c, x, p, k);
    } else {
      BufferedSecures(c, x, p, k);
      var y := Buffered(c, x, p);
      AskedKeeps(c, y.(recovering := true, gapSince := now, gapEnd := Seq(p), lastRequest := 0), now);
      hide Secured;
      SecuredBy(y, WithMessages(c, x, p, now), k);
    }
  }

  lemma {:induction false} SecuredBy(x: Rx, y: Rx, k: nat)
    requires x.pending == y.pending && x.expected <= y.expected && Secured(x, k)
    ensures Secured(y, k)
  {
    if k >= x.expected {
      var j: nat :| HoldsAt(x.pending, j, k);
      assert HoldsAt(y.pending, j, k);
    }
  }

  lemma {:induction false} TakenSecures(x: Rx, p: Packet, k: nat)
    requires Spans(x, p) && (Secured(x, k) || Brings(p, k))
    ensures Secured(Taken(x, p), k)
  {
    TakenPending(x, p);
    TakenExpected(x, p);
    hide Taken, Seq, Count;
    if Secured(x, k) {
      SecuredBy(x, Taken(x, p), k);
    }
  }

  lemma {:induction false} LostTaken(c: Settings, x: Rx, p: Packet, k: nat)
    requires Valid(c, x) && !c.canRequest && |p| >= 20 && 0 < Count(p) && Seq(p) > x.expected
    requires Secured(x, k) || Brings(p, k)
    ensures Secured(Taken(Lost(x, Seq(p)), p), k)
  {
    hide Seq, Count, Messages, Drop;
    var y := Lost(x, Seq(p));
    if Secured(x, k) {
      SecuredBy(x, y, k);
    }
    TakenSecures(y, p, k);
  }

  lemma {:induction false} BufferedSecures(c: Settings, x: Rx, p: Packet, k: nat)
    requires |p| >= 20 && (Secured(x, k) || (Brings(p, k) && Storable(c, x, p)))
    ensures Secured(Buffered(c, x, p), k)
  {
    hide Seq, Count;
    var y := Buffered(c, x, p);
    if j: nat :| HoldsAt(x.pending, j, k) {
      assert HoldsAt(y.pending, j, k);
    } else if !Secured(x, k) {
      assert HoldsAt(y.pending, Seq(p), k);
    }
  }

  /** Any event of the session keeps what is secured; a packet that can be stored secures what it brings. */
  lemma {:induction false} EventSecures(c: Settings, x: Rx, e: Event, k: nat)
    requires Valid(c, x) && x.expected > 0 && (e.Arrival? ==> OfSession(e.p, x.session))
    requires Secured(x, k) || (e.Arrival? && Brings(e.p, k) && Storable(c, x, e.p))
    ensures Secured(AfterEvent(c, x, e), k)
  {
    hide Valid, Seq, Session, Secured, WithMessages, Asked, Storable;
    match e {
      case Clock(now) => TickedSecures(c, x, now, k);
      case Arrival(p, now) =>
        if |p| >= 20 {
          ResyncedValid(c, x, p);
          assert Resynced(x, p) == x;
          CountFits(p);
          if Count(p) == 0 {
            AskedKeeps(c, x.(recovering := true, gapSince := now, gapEnd := Seq(p), lastRequest := 0), now);
            SecuredBy(x, WithHeartbeat(c, x, Seq(p), now), k);
          } else if Count(p) != END_OF_SESSION {
            WithMessagesSecures(c, x, p, now, k);
          }
        }
    }
  }

  lemma {:induction false} TickedSecures(c: Settings, x: Rx, now: nat, k: nat)
    requires Valid(c, x) && Secured(x, k)
    ensures Secured(Ticked(c, x, now), k)
  {
    hide Asked, Held, Drained, Lowest, Secured;
    AskedKeeps(c, x, now);
    SecuredBy(x, Asked(c, x, now), k);
    var y := x.(gapTimeouts := x.gapTimeouts + 1);
    SecuredBy(x, y, k);
    SecuredBy(x, y.(recovering := false), k);
    if y.pending != map[] {
      LowestBeyond(y.pending, y.expected);
      StillHeld(y.pending, y.expected);
      var z := Lost(y, Lowest(y.pending)).(gapSince := now);
      SecuredBy(x, z, k);
      DrainedSecures(c, z, now, k);
    }
  }

  /** A packet that comes early secures what it brings exactly when it is stored: room, and its number still free. */
  lemma {:induction false} EarlyPacketSecures(c: Settings, x: Rx, p: Packet, now: nat, k: nat)
    requires Valid(c, x) && c.canRequest && x.expected > 0 && |p| >= 20 && OfSession(p, x.session)
    requires 0 < Count(p) < END_OF_SESSION && Seq(p) > x.expected
    ensures Secured(Arrived(c, x, p, now), k) <==>
              Secured(x, k) || (Brings(p, k) && |x.pending| < c.maxBuffered && Seq(p) !in x.pending)
  {
    hide Seq, Count, Session, Asked, Messages, Drop, Held;
    ResyncedValid(c, x, p);
    assert Resynced(x, p) == x;
    var z, y := Buffered(c, x, p), Arrived(c, x, p, now);
    AskedKeeps(c, z.(recovering := true, gapSince := now, gapEnd := Seq(p), lastRequest := 0), now);
    assert y.pending == z.pending && y.expected == x.expected;
    hide Arrived;
    if j: nat :| HoldsAt(x.pending, j, k) {
      assert HoldsAt(y.pending, j, k);
    }
    if j: nat :| HoldsAt(y.pending, j, k) {
      assert j == Seq(p) || HoldsAt(x.pending, j, k);
    }
    assert Seq(p) in y.pending && y.pending[Seq(p)] == p && Brings(p, k) ==> HoldsAt(y.pending, Seq(p), k);
  }

  // ---- in any order ----

  /** Under each number the feed was cut into packets the same way: `size` messages. */
  ghost predicate CutAs(size: nat -> nat, pending: map<nat, Packet>) {
    forall j :: j in pending ==> |pending[j]| >= 20 && Count(pending[j]) == size(j)
  }

  ghost predicate AllCutAs(size: nat -> nat, events: seq<Event>) {
    forall i :: 0 <= i < |events| && events[i].Arrival? && |events[i].p| >= 20 ==> Count(events[i].p) == size(Seq(events[i].p))
  }

  /** One event adds at most the packet that arrived to what is held back. */
  ghost predicate AddsOnly(x: Rx, y: Rx, e: Event) {
    forall j :: j in y.pending ==>
      || (j in x.pending && y.pending[j] == x.pending[j])
      || (e.Arrival? && |e.p| >= 20 && j == Seq(e.p) && y.pending[j] == e.p)
  }

  lemma {:induction false} DrainedAdds(c: Settings, x: Rx, now: nat, j: nat)
    requires Held(x.pending, 0)
    ensures j in Drained(c, x, now).pending ==> j in x.pending && Drained(c, x, now).pending[j] == x.pending[j]
  {
    ReplayedLeaves(x);
    AskedKeeps(c, Replayed(x), now);
    hide Replayed, Asked, Held, Origin;
  }

  lemma {:induction false} EventAdds(c: Settings, x: Rx, e: Event)
    requires Valid(c, x) && x.expected > 0 && (e.Arrival? ==> OfSession(e.p, x.session))
    ensures AddsOnly(x, AfterEvent(c, x, e), e)
  {
    hide Valid, Seq, Session, Asked, Drained, Messages, Drop;
    HeldWhileValid(c, x);
    StillHeld(x.pending, x.expected);
    match e {
      case Clock(now) =>
        AskedKeeps(c, x, now);
        var y := x.(gapTimeouts := x.gapTimeouts + 1);
        if y.pending != map[] {
          LowestBeyond(y.pending, y.expected);
          var z := Lost(y, Lowest(y.pending)).(gapSince := now);
          forall j: nat ensures j in Drained(c, z, now).pending ==> j in x.pending && Drained(c, z, now).pending[j] == x.pending[j] {
            DrainedAdds(c, z, now, j);
          }
        }
      case Arrival(p, now) =>
        if |p| >= 20 {
          ResyncedValid(c, x, p);
          assert Resynced(x, p) == x;
          AskedKeeps(c, x.(recovering := true, gapSince := now, gapEnd := Seq(p), lastRequest := 0), now);
          AskedKeeps(c, Buffered(c, x, p).(recovering := true, gapSince := now, gapEnd := Seq(p), lastRequest := 0), now);
          if Count(p) > 0 && Seq(p) <= x.expected < Seq(p) + Count(p) {
            var z := Taken(x, p);
            TakenPending(x, p);
            forall j: nat ensures j in Drained(c, z, now).pending ==> j in x.pending && Drained(c, z, now).pending[j] == x.pending[j] {
              DrainedAdds(c, z, now, j);
            }
          }
        }
    }
  }

  lemma {:induction false} AddsOne(x: Rx, y: Rx, e: Event)
    requires AddsOnly(x, y, e)
    ensures |y.pending| <= |x.pending| + 1
  {
    var more := if e.Arrival? && |e.p| >= 20 then {Seq(e.p)} else {};
    hide Seq;
    assert y.pending.Keys <= x.pending.Keys + more;
    Smaller(y.pending.Keys, x.pending.Keys + more);
    assert |x.pending.Keys + more| <= |x.pending.Keys| + |more|;
  }

  lemma {:induction false} Smaller(a: set<nat>, b: set<nat>)
    requires a <= b
    ensures |a| <= |b|
  {
    assert b == a + (b - a);
  }

  /** Some packet among the events brings message `k`. */
  ghost predicate Brought(events: seq<Event>, k: nat) {
    exists i :: 0 <= i < |events| && events[i].Arrival? && Brings(events[i].p, k)
  }

  /** Room and cut last through the run. */
  lemma {:induction false} RunHasRoom(c: Settings, x: Rx, events: seq<Event>, size: nat -> nat)
    requires Valid(c, x) && x.expected > 0 && AllOfSession(events, x.session)
    requires CutAs(size, x.pending) && AllCutAs(size, events)
    ensures var y := AfterEvents(c, x, events);
            && y.session == x.session && y.expected >= x.expected
            && CutAs(size, y.pending) && |y.pending| <= |x.pending| + |events|
    decreases |events|
  {
    hide Valid, Seq, Session, AfterEvent, OfSession, Count;
    if events != [] {
      var n := |events| - 1;
      var before, e := events[..n], events[n];
      RunHasRoom(c, x, before, size);
      RunUnfolds(c, x, events);
      var z := AfterEvents(c, x, before);
      EventAdvances(c, z, e);
      EventAdds(c, z, e);
      AddsOne(z, AfterEvent(c, z, e), e);
    }
  }

  lemma {:induction false} BroughtStep(events: seq<Event>, k: nat)
    requires Brought(events, k)
    ensures events != []
    ensures var n := |events| - 1;
            Brought(events[..n], k) || (events[n].Arrival? && |events[n].p| >= 20 && Brings(events[n].p, k))
  {
    hide Seq, Count;
    var n := |events| - 1;
    var i :| 0 <= i < |events| && events[i].Arrival? && Brings(events[i].p, k);
    assert i < n ==> events[..n][i] == events[i];
  }

  lemma {:induction false} RoomToStore(c: Settings, x: Rx, p: Packet, size: nat -> nat)
    requires |p| >= 20 && CutAs(size, x.pending) && |x.pending| < c.maxBuffered && Count(p) == size(Seq(p))
    ensures Storable(c, x, p)
  {
  }

  /** With room in the buffer, whatever the packets of a run bring is secured, in whatever order they come. */
  lemma {:induction false} RunSecures(c: Settings, x: Rx, events: seq<Event>, size: nat -> nat, k: nat)
    requires Valid(c, x) && x.expected > 0 && AllOfSession(events, x.session)
    requires CutAs(size, x.pending) && AllCutAs(size, events) && |x.pending| + |events| <= c.maxBuffered
    requires Brought(events, k)
    ensures Secured(AfterEvents(c, x, events), k)
    decreases |events|
  {
    hide Valid, Seq, Session, AfterEvent, OfSession, Count, Secured, Brings, Storable, CutAs, Brought;
    BroughtStep(events, k);
    var n := |events| - 1;
    var before, e := events[..n], events[n];
    RunUnfolds(c, x, events);
    RunHasRoom(c, x, before, size);
    var z := AfterEvents(c, x, before);
    if Brought(before, k) {
      RunSecures(c, x, before, size, k);
    } else {
      RoomToStore(c, z, e.p, size);
    }
    EventSecures(c, z, e, k);
  }

  /**
   A request is answered by packets that together bring every message asked for: then the receiver gets behind
   them all, whatever the order and whatever else of the session arrives meanwhile.
   */
  lemma {:induction false} RepliesClose(c: Settings, x: Rx, r: (nat, nat), events: seq<Event>, size: nat -> nat)
    requires Valid(c, x) && x.expected > 0 && AsksForHole(c, x, r) && AllOfSession(events, x.session)
    requires CutAs(size, x.pending) && AllCutAs(size, events) && |x.pending| + |events| <= c.maxBuffered
    requires forall k: nat :: r.0 <= k < r.0 + r.1 ==> Brought(events, k)
    ensures AfterEvents(c, x, events).expected >= r.0 + r.1
  {
    var y := AfterEvents(c, x, events);
    hide AfterEvents, Brought;
    RunHasRoom(c, x, events, size);
    MissingIsMissing(c, y);
    if y.expected < r.0 + r.1 {
      RunSecures(c, x, events, size, y.expected);
    }
  }

  /** The expected message is never secured. */
  lemma {:induction false} MissingIsMissing(c: Settings, x: Rx)
    requires Valid(c, x)
    ensures !Secured(x, x.expected)
  {
  }

  // ---- what is lost and how much is held back ----

  /** Giving up loses exactly the messages in front of the lowest one held back, and nothing when none is. */
  lemma {:induction false} GivingUpLosesTheHole(c: Settings, x: Rx, now: nat)
    requires Valid(c, x) && x.recovering
    requires (now - x.gapSince) % 0x1_0000_0000_0000_0000 > c.gapTimeoutMs * 1_000_000
    ensures var y := Ticked(c, x, now);
            if x.pending == map[] then y == x.(gapTimeouts := x.gapTimeouts + 1, recovering := false)
            else exists k: nat :: IsMin(k, x.pending.Keys) && x.expected < k && y.gapMessages == x.gapMessages + (k - x.expected)
                                  && k + Count(x.pending[k]) <= y.expected
  {
    hide Held, Drained, Lowest, Origin, Count;
    if x.pending != map[] {
      LowestBeyond(x.pending, x.expected);
      StillHeld(x.pending, x.expected);
      var k := Lowest(x.pending);
      LowestIn(x.pending);
      var z := Lost(x.(gapTimeouts := x.gapTimeouts + 1), k).(gapSince := now);
      DrainedSession(c, z, now);
      ReachesBehind(c, z, now, k);
      assert IsMin(k, x.pending.Keys);
    }
  }

  lemma {:induction false} ReachesBehind(c: Settings, x: Rx, now: nat, k: nat)
    requires Held(x.pending, 0) && k in x.pending && k <= x.expected
    ensures k + Count(x.pending[k]) <= Drained(c, x, now).expected
  {
    ReplayedLeaves(x);
    AskedKeeps(c, Replayed(x), now);
    hide Replayed, Asked, Held, Origin, Count;
  }

  /** A packet loses nothing while messages can be asked for again; otherwise exactly the hole in front of it. */
  lemma {:induction false} PacketLosesTheHole(c: Settings, x: Rx, p: Packet, now: nat)
    requires Valid(c, x) && x.expected > 0 && |p| >= 20 && OfSession(p, x.session) && Count(p) != END_OF_SESSION
    ensures Arrived(c, x, p, now).gapMessages ==
            x.gapMessages + if !c.canRequest && Count(p) > 0 && Seq(p) > x.expected then Seq(p) - x.expected else 0
  {
    hide Seq, Session, Count, Messages, Drop, Drained, Asked;
    ResyncedValid(c, x, p);
    assert Resynced(x, p) == x;
    AskedKeeps(c, x.(recovering := true, gapSince := now, gapEnd := Seq(p), lastRequest := 0), now);
    AskedKeeps(c, Buffered(c, x, p).(recovering := true, gapSince := now, gapEnd := Seq(p), lastRequest := 0), now);
    if Count(p) > 0 && Seq(p) <= x.expected < Seq(p) + Count(p) {
      TakenPending(x, p);
      DrainedSession(c, Taken(x, p), now);
    }
  }

  /** The limit of packets held back. */
  lemma {:induction false} EventKeepsLimit(c: Settings, x: Rx, e: Event)
    requires Valid(c, x) && |x.pending| <= c.maxBuffered
    ensures |AfterEvent(c, x, e).pending| <= c.maxBuffered
  {
    hide Seq, Session, Count, Messages, Drop, Drained, Asked;
    StillHeld(x.pending, x.expected);
    match e {
      case Clock(now) =>
        AskedKeeps(c, x, now);
        if x.pending != map[] {
          LowestBeyond(x.pending, x.expected);
          DrainedShrinks(c, Lost(x.(gapTimeouts := x.gapTimeouts + 1), Lowest(x.pending)).(gapSince := now), now);
        }
      case Arrival(p, now) =>
        if |p| >= 20 {
          ResyncedValid(c, x, p);
          var y := Resynced(x, p);
          var z := if y.expected == 0 then Started(y, Seq(p)) else y;
          AskedKeeps(c, y.(recovering := true, gapSince := now, gapEnd := Seq(p), lastRequest := 0), now);
          AskedKeeps(c, Buffered(c, z, p).(recovering := true, gapSince := now, gapEnd := Seq(p), lastRequest := 0), now);
          if Count(p) > 0 && Seq(p) <= z.expected < Seq(p) + Count(p) {
            TakenPending(z, p);
            DrainedShrinks(c, Taken(z, p), now);
          }
        }
    }
  }

  lemma {:induction false} DrainedShrinks(c: Settings, x: Rx, now: nat)
    requires Held(x.pending, 0)
    ensures |Drained(c, x, now).pending| <= |x.pending|
  {
    var y := Drained(c, x, now);
    forall j: nat ensures j in y.pending ==> j in x.pending {
      DrainedAdds(c, x, now, j);
    }
    hide Drained, Held;
    Smaller(y.pending.Keys, x.pending.Keys);
  }

  /** Never more than the limit is held back. */
  lemma {:induction false} BufferStaysInLimit(c: Settings, events: seq<Event>)
    ensures Valid(c, FreshRx()) && |AfterEvents(c, FreshRx(), events).pending| <= c.maxBuffered
    decreases |events|
  {
    FreshAhead(c);
    hide Valid, AfterEvent;
    if events != [] {
      var before := events[..|events| - 1];
      BufferStaysInLimit(c, before);
      RunUnfolds(c, FreshRx(), events);
      EventKeepsLimit(c, AfterEvents(c, FreshRx(), before), events[|events| - 1]);
    }
  }

  // ---- the receiver object ----

  class MoldReceiver {
    const c: Settings
    const decodes: Packet -> bool    // whether a message block can be decoded

    var expected: nat                // 0: nothing seen in this session
    var session: Packet
    var ended: bool
    var recovering: bool
    var gapSince: nat
    var gapEnd: nat
    var lastRequest: nat
    var pending: map<nat, Packet>

    var packets: nat
    var messages: nat
    var heartbeats: nat
    var gaps: nat
    var gapMessages: nat
    var dups: nat
    var bad: nat
    var requestCount: nat
    var recovered: nat
    var gapTimeouts: nat
    var bufferedPeak: nat

    var delivered: seq<Packet>           // messages handed to the handler, in order
    var requests: seq<(nat, nat)>        // (sequence, count) asked for
    ghost var t: Trace

    ghost function R(): Rx
      reads this`session, this`expected, this`pending, this`delivered, this`messages, this`gapMessages, this`gapTimeouts,
            this`recovering, this`gapSince, this`gapEnd, this`lastRequest, this`requests, this`t
    {
      Rx(session, expected, pending, delivered, messages, gapMessages, gapTimeouts,
         recovering, gapSince, gapEnd, lastRequest, requests, t)
    }

    constructor (c: Settings, decodes: Packet -> bool)
      ensures R() == FreshRx() && this.c == c && this.decodes == decodes
    {
      this.c, this.decodes := c, decodes;
      expected, session, ended, recovering := 0, seq(10, i => 0), false, false;
      gapSince, gapEnd, lastRequest, pending := 0, 0, 0, map[];
      packets, messages, heartbeats, gaps, gapMessages, dups, bad := 0, 0, 0, 0, 0, 0, 0;
      requestCount, recovered, gapTimeouts, bufferedPeak := 0, 0, 0, 0;
      delivered, requests, t := [], [], Trace(0, [], 0, 0, 0, 0);
    }

    /** Walks the blocks of a packet, handing all but the first `skip` to the handler. */
    method Process(p: Packet, skip: nat)
      requires |p| >= 20
      modifies this`messages, this`bad, this`delivered
      ensures delivered == old(delivered) + Drop(Messages(p), skip)
      ensures messages == old(messages) + |Drop(Messages(p), skip)|
      ensures bad == old(bad) + Failures(Drop(Messages(p), skip), decodes) + if |Messages(p)| < Count(p) then 1 else 0
    {
      var broken, failed;
      messages, delivered, failed, broken := Walk(p, skip, messages, delivered, decodes);
      bad := bad + failed;
      bad := if broken then bad + 1 else bad;
    }

    static method Walk(p: Packet, skip: nat, messages0: nat, delivered0: seq<Packet>, decodes: Packet -> bool)
      returns (messages: nat, delivered: seq<Packet>, failed: nat, broken: bool)
      requires |p| >= 20
      ensures delivered == delivered0 + Drop(Messages(p), skip)
      ensures messages == messages0 + |Drop(Messages(p), skip)|
      ensures failed == Failures(Drop(Messages(p), skip), decodes)
      ensures broken <==> |Messages(p)| < Count(p)
    {
      hide *;
      var count := Count(p);
      var off: nat := 20;
      var i: nat := 0;
      messages, delivered, failed, broken := messages0, delivered0, 0, false;
      WalkStarts(p, skip, delivered0, messages0, decodes);
      while i < count
        invariant Walking(p, skip, i, off, delivered0, messages0, delivered, messages, failed, decodes)
        invariant i <= count && !broken
      {
        broken := !Complete(p, off);
        if broken {
          break;
        }
        WalkStep(p, skip, i, off, delivered0, messages0, delivered, messages, failed, decodes);
        if i >= skip {
          messages := messages + 1;
          delivered := delivered + [Body(p, off)];
          failed := if decodes(Body(p, off)) then failed else failed + 1;
        }
        off := Next(p, off);
        i := i + 1;
      }
      WalkEnds(p, skip, i, off, delivered0, messages0, delivered, messages, failed, decodes);
    }

    /** A packet that spans the next expected message is handed over, its known prefix skipped. */
    method Take(p: Packet)
      requires Spans(R(), p)
      modifies this`messages, this`bad, this`delivered, this`expected, this`t
      ensures R() == Taken(old(R()), p)
    {
      hide Messages, Drop, Seq, Count;
      ghost var t' := t.(seqs := t.seqs + Range(expected, Seq(p) + Count(p)));
      Process(p, expected - Seq(p));
      expected := Seq(p) + Count(p);
      t := t';
    }

    method LowestHeld() returns (k: nat)
      requires pending != map[]
      ensures k == Lowest(pending)
    {
      ghost var m := MinExists(pending.Keys);
      k :| k in pending && forall j :: j in pending ==> k <= j;
      LowestIs(pending, k);
    }

    method RequestGap(now: nat)
      modifies this`requests, this`requestCount, this`lastRequest
      ensures R() == Asked(c, old(R()), now)
      ensures AskedOnce(c, old(R()), R(), now) || R() == old(R())
      ensures old(Valid(c, R()) && GapAhead(R()) && recovering) ==> AskedOnce(c, old(R()), R(), now)
    {
      hide Lowest, AskedOnce;
      AskedAsks(c, R(), now);
      if !c.canRequest {
        return;
      }
      var end := gapEnd;
      if pending != map[] {
        end := LowestHeld();
      }
      if end <= expected {
        return;
      }
      var want := end - expected;
      var n := if want < c.maxRequest then want else c.maxRequest;
      requests := requests + [(expected, n)];
      requestCount := requestCount + 1;
      lastRequest := now;
    }

    /** Replays buffered packets as far as the sequence is unbroken. */
    method Replay()
      requires Held(pending, 0)
      modifies this`messages, this`bad, this`delivered, this`expected, this`t, this`pending
      ensures R() == Replayed(old(R()))
    {
      hide Unbuffered, Held, Lowest;
      while pending != map[]
        invariant Held(pending, 0) && Replayed(R()) == Replayed(old(R()))
        decreases pending.Keys
      {
        var k := LowestHeld();
        if k > expected {
          break;
        }
        ghost var x := R();
        UnbufferedHeld(x);
        LowestIn(pending);
        ReplayOne(k);
      }
    }

    method ReplayOne(k: nat)
      requires Held(pending, 0) && pending != map[] && k == Lowest(pending) && k <= expected
      modifies this`messages, this`bad, this`delivered, this`expected, this`t, this`pending
      ensures R() == Unbuffered(old(R()))
    {
      hide Taken, Count;
      if k + Count(pending[k]) > expected {
        Take(pending[k]);
      }
      pending := pending - {k};
    }

    method Drain(now: nat)
      requires Held(pending, 0)
      modifies this`messages, this`bad, this`delivered, this`expected, this`t, this`pending, this`recovered,
               this`recovering, this`requests, this`requestCount, this`lastRequest
      ensures R() == Drained(c, old(R()), now)
      ensures recovered == old(recovered) + (if old(recovering) && pending == map[] then 1 else 0)
    {
      hide Held, Replayed, Asked;
      Replay();
      if pending == map[] {
        if recovering {
          recovered := recovered + 1;
        }
        recovering := false;
      } else if recovering {
        RequestGap(now);
      }
    }

    method OpenGap(upTo: nat, now: nat)
      modifies this`recovering, this`gapSince, this`gapEnd, this`gaps, this`requests, this`requestCount, this`lastRequest
      ensures R() == GapOpened(c, old(R()), upTo, now) && gaps == old(gaps) + 1
    {
      hide Asked;
      recovering, gapSince, gapEnd, gaps, lastRequest := true, now, upTo, gaps + 1, 0;
      RequestGap(now);
    }

    method Start(seq_: nat)
      modifies this`expected, this`t
      ensures R() == Started(old(R()), seq_)
    {
      expected := seq_;
      t := Trace(seq_, [], |delivered|, messages, gapMessages, gapTimeouts);
    }

    method Resync(p: Packet)
      requires |p| >= 20
      modifies this`session, this`expected, this`pending, this`recovering
      ensures R() == Resynced(old(R()), p)
    {
      hide Session;
      if session != Session(p) {
        session, expected, pending, recovering := Session(p), 0, map[], false;
      }
    }

    /** One packet; `now` in nanoseconds. */
    method OnPacket(p: Packet, now: nat)
      requires Valid(c, R())
      modifies this
      ensures R() == Arrived(c, old(R()), p, now)
    {
      if |p| < 20 {
        bad := bad + 1;
        return;
      }
      ResyncedValid(c, R(), p);
      hide Valid, WithMessages, WithHeartbeat, Resynced, Held, Started, Seq, Count;
      packets := packets + 1;
      Resync(p);
      var seq_, count := Seq(p), Count(p);
      if count == END_OF_SESSION {
        ended := true;
        return;
      }
      if count == 0 {
        OnHeartbeat(seq_, now);
        return;
      }
      if expected == 0 {
        StartedPending(R(), seq_);
        Start(seq_);
      }
      OnMessages(p, now);
    }

    method OnHeartbeat(seq_: nat, now: nat)
      modifies this
      ensures R() == WithHeartbeat(c, old(R()), seq_, now)
      ensures heartbeats == old(heartbeats) + 1
    {
      hide GapOpened;
      heartbeats := heartbeats + 1;
      if expected == 0 {
        Start(seq_);
      } else if seq_ > expected && c.canRequest && !recovering {
        OpenGap(seq_, now);
      }
    }

    /** A packet with messages, the starting point being known. */
    method OnMessages(p: Packet, now: nat)
      requires |p| >= 20 && Count(p) > 0 && Held(pending, 0)
      modifies this
      ensures R() == WithMessages(c, old(R()), p, now)
      ensures dups == old(dups) + if Seq(p) + Count(p) <= old(expected) then 1 else 0
    {
      hide Held, Taken, Drained, HeldBack, Seq, Count;
      var seq_, count := Seq(p), Count(p);
      if seq_ + count <= expected {
        dups := dups + 1;
      } else if seq_ <= expected {
        TakenPending(R(), p);
        Take(p);
        Drain(now);
      } else if !c.canRequest {
        gaps := gaps + 1;
        Lose(seq_);
        Take(p);
      } else {
        HoldBack(p, now);
      }
    }

    /** With recovery: buffer the packet and ask for the hole before it. */
    method HoldBack(p: Packet, now: nat)
      requires |p| >= 20
      modifies this`pending, this`bufferedPeak, this`recovering, this`gapSince, this`gapEnd, this`gaps, this`requests,
               this`requestCount, this`lastRequest
      ensures R() == HeldBack(c, old(R()), p, now)
    {
      hide GapOpened, Seq;
      if |pending| < c.maxBuffered && Seq(p) !in pending {
        pending := pending[Seq(p) := p];
      }
      if |pending| > bufferedPeak {
        bufferedPeak := |pending|;
      }
      if !recovering {
        OpenGap(Seq(p), now);
      }
    }

    method Lose(upTo: nat)
      requires upTo >= expected
      modifies this`gapMessages, this`expected
      ensures R() == Lost(old(R()), upTo)
    {
      gapMessages := gapMessages + (upTo - expected);
      expected := upTo;
    }

    /** Gap timeouts and request retries. */
    method Tick(now: nat)
      requires Valid(c, R())
      modifies this
      ensures R() == Ticked(c, old(R()), now)
    {
      hide Valid, GaveUp, Asked;
      if !recovering {
        return;
      }
      if Sub64(now, gapSince) > c.gapTimeoutMs * NS_PER_MS {
        GiveUp(now);
      } else if Sub64(now, lastRequest) > c.retryMs * NS_PER_MS {
        RequestGap(now);
      }
    }

    method GiveUp(now: nat)
      requires Valid(c, R())
      modifies this
      ensures R() == GaveUp(c, old(R()), now)
    {
      hide Held, Drained, Lowest;
      gapTimeouts := gapTimeouts + 1;
      if pending == map[] {        // the gap came from a heartbeat and nothing followed
        recovering := false;
      } else {
        LowestBeyond(pending, expected);
        StillHeld(pending, expected);
        var k := LowestHeld();
        SkipTo(k, now);
      }
    }

    /** The messages before `upTo` count as lost; what is held back goes on from there. */
    method SkipTo(upTo: nat, now: nat)
      requires upTo >= expected && Held(pending, 0)
      modifies this`gapMessages, this`gapSince, this`messages, this`bad, this`delivered, this`expected, this`t, this`pending,
               this`recovered, this`recovering, this`requests, this`requestCount, this`lastRequest
      ensures R() == Drained(c, Lost(old(R()), upTo).(gapSince := now), now)
    {
      hide Held, Drained;
      Lose(upTo);
      gapSince := now;
      Drain(now);
    }

    /** A whole run. */
    method Run(events: seq<Event>)
      requires Valid(c, R())
      modifies this
      ensures R() == AfterEvents(c, old(R()), events)
    {
      hide Valid, Arrived, Ticked;
      ghost var x := R();
      assert events[..0] == [];
      for i := 0 to |events|
        invariant R() == AfterEvents(c, x, events[..i])
      {
        assert events[..i + 1][..i] == events[..i];
        match events[i] {
          case Arrival(p, now) => OnPacket(p, now);
          case Clock(now) => Tick(now);
        }
      }
      assert events[..|events|] == events;
    }
  }

  lemma {:induction false} LowestIn(pending: map<nat, Packet>)
    requires pending != map[]
    ensures Lowest(pending) in pending
  {
  }

  lemma {:induction false} StartedPending(x: Rx, seq_: nat)
    ensures Started(x, seq_).pending == x.pending
  {
  }

  lemma {:induction false} TakenPending(x: Rx, p: Packet)
    requires Spans(x, p)
    ensures Taken(x, p).pending == x.pending
  {
  }

  /** How many messages cannot be decoded. */
  function Failures(ms: seq<Packet>, decodes: Packet -> bool): nat {
    if ms == [] then 0 else Failures(ms[..|ms| - 1], decodes) + (if decodes(ms[|ms| - 1]) then 0 else 1)
  }

  lemma {:induction false} FailuresAppend(ms: seq<Packet>, m: Packet, decodes: Packet -> bool)
    ensures Failures(ms + [m], decodes) == Failures(ms, decodes) + if decodes(m) then 0 else 1
  {
    assert (ms + [m])[..|ms|] == ms;
  }

  /** Messages appended and counted, and those among them that cannot be decoded. */
  ghost predicate Told(delivered0: seq<Packet>, messages0: nat, delivered: seq<Packet>, messages: nat, failed: nat,
                       decodes: Packet -> bool) {
    && delivered0 <= delivered && messages == messages0 + |delivered| - |delivered0|
    && failed == Failures(delivered[|delivered0|..], decodes)
  }

  lemma {:induction false} ToldMore(delivered0: seq<Packet>, messages0: nat, delivered: seq<Packet>, messages: nat, failed: nat,
                                    m: Packet, decodes: Packet -> bool)
    requires Told(delivered0, messages0, delivered, messages, failed, decodes)
    ensures Told(delivered0, messages0, delivered + [m], messages + 1, failed + if decodes(m) then 0 else 1, decodes)
  {
    FailuresAppend(delivered[|delivered0|..], m, decodes);
    assert (delivered + [m])[|delivered0|..] == delivered[|delivered0|..] + [m];
  }

  lemma {:induction false} ToldAll(delivered0: seq<Packet>, messages0: nat, delivered: seq<Packet>, messages: nat, failed: nat,
                                   news: seq<Packet>, decodes: Packet -> bool)
    requires Told(delivered0, messages0, delivered, messages, failed, decodes) && delivered == delivered0 + news
    ensures messages == messages0 + |news| && failed == Failures(news, decodes)
  {
    assert delivered[|delivered0|..] == news;
  }

  function Drop(ms: seq<Packet>, k: nat): seq<Packet> {
    if k <= |ms| then ms[k..] else []
  }

  function Sub(a: nat, b: nat): nat {
    if b >= a then 0 else a - b
  }

  /** Delivering the rest of the blocks, `k` skipped, leads to `goal`. */
  ghost predicate Remaining(p: Packet, off: nat, n: nat, k: nat, delivered: seq<Packet>, goal: seq<Packet>) {
    delivered + Drop(Blocks(p, off, n), k) == goal
  }

  /** The block at `off`, if it is complete, comes next. */
  lemma {:induction false} RemainingStep(p: Packet, off: nat, n: nat, skip: nat, i: nat, delivered: seq<Packet>, goal: seq<Packet>)
    requires n > 0 && Remaining(p, off, n, Sub(skip, i), delivered, goal)
    ensures !Complete(p, off) ==> |Blocks(p, off, n)| == 0
    ensures Complete(p, off) ==> |Blocks(p, off, n)| == 1 + |Blocks(p, Next(p, off), n - 1)|
    ensures Complete(p, off) && i < skip ==> Remaining(p, Next(p, off), n - 1, Sub(skip, i + 1), delivered, goal)
    ensures Complete(p, off) && i >= skip
            ==> Remaining(p, Next(p, off), n - 1, Sub(skip, i + 1), delivered + [Body(p, off)], goal)
  {
    if Complete(p, off) {
      var msg, rest := Body(p, off), Blocks(p, Next(p, off), n - 1);
      DropStep(msg, rest, Sub(skip, i));
      assert delivered + ([msg] + Drop(rest, 0)) == (delivered + [msg]) + Drop(rest, 0);
    }
  }

  lemma {:induction false} RemainingDone(p: Packet, off: nat, n: nat, k: nat, delivered: seq<Packet>, goal: seq<Packet>)
    requires Remaining(p, off, n, k, delivered, goal) && (n == 0 || |Blocks(p, off, n)| == 0)
    ensures delivered == goal && |Blocks(p, off, n)| == 0
  {
    assert Blocks(p, off, n) == [] && Drop([], k) == [];
  }

  lemma {:induction false} DropStep(m: Packet, ms: seq<Packet>, k: nat)
    ensures Drop([m] + ms, k) == if k == 0 then [m] + Drop(ms, 0) else Drop(ms, k - 1)
  {
  }

  /** In front of the `i`-th block: what is still to be handed over completes what the packet brings. */
  ghost predicate Walking(p: Packet, skip: nat, i: nat, off: nat, delivered0: seq<Packet>, messages0: nat,
                          delivered: seq<Packet>, messages: nat, failed: nat, decodes: Packet -> bool)
    requires |p| >= 20
  {
    && i <= Count(p)
    && Remaining(p, off, Count(p) - i, Sub(skip, i), delivered, delivered0 + Drop(Messages(p), skip))
    && Told(delivered0, messages0, delivered, messages, failed, decodes)
    && |Messages(p)| == i + |Blocks(p, off, Count(p) - i)|
  }

  lemma {:induction false} WalkStarts(p: Packet, skip: nat, delivered0: seq<Packet>, messages0: nat, decodes: Packet -> bool)
    requires |p| >= 20
    ensures Walking(p, skip, 0, 20, delivered0, messages0, delivered0, messages0, 0, decodes)
  {
    hide Count, Blocks;
    assert delivered0[|delivered0|..] == [];
  }

  lemma {:induction false} WalkStep(p: Packet, skip: nat, i: nat, off: nat, delivered0: seq<Packet>, messages0: nat,
                                    delivered: seq<Packet>, messages: nat, failed: nat, decodes: Packet -> bool)
    requires |p| >= 20 && i < Count(p) && Complete(p, off)
    requires Walking(p, skip, i, off, delivered0, messages0, delivered, messages, failed, decodes)
    ensures i < skip ==> Walking(p, skip, i + 1, Next(p, off), delivered0, messages0, delivered, messages, failed, decodes)
    ensures i >= skip
            ==> Walking(p, skip, i + 1, Next(p, off), delivered0, messages0, delivered + [Body(p, off)], messages + 1,
                        if decodes(Body(p, off)) then failed else failed + 1, decodes)
  {
    hide Count, Blocks, Remaining, Told, Body, Next, Complete, Messages, Drop;
    RemainingStep(p, off, Count(p) - i, skip, i, delivered, delivered0 + Drop(Messages(p), skip));
    ToldMore(delivered0, messages0, delivered, messages, failed, Body(p, off), decodes);
  }

  lemma {:induction false} WalkEnds(p: Packet, skip: nat, i: nat, off: nat, delivered0: seq<Packet>, messages0: nat,
                                    delivered: seq<Packet>, messages: nat, failed: nat, decodes: Packet -> bool)
    requires |p| >= 20 && (i < Count(p) ==> !Complete(p, off))
    requires Walking(p, skip, i, off, delivered0, messages0, delivered, messages, failed, decodes)
    ensures delivered == delivered0 + Drop(Messages(p), skip) && messages == messages0 + |Drop(Messages(p), skip)|
    ensures failed == Failures(Drop(Messages(p), skip), decodes) && |Messages(p)| == i
  {
    BlocksEnd(p, off, Count(p) - i);
    hide Count, Blocks, Complete, Messages, Drop, Told, Remaining;
    RemainingDone(p, off, Count(p) - i, Sub(skip, i), delivered, delivered0 + Drop(Messages(p), skip));
    ToldAll(delivered0, messages0, delivered, messages, failed, Drop(Messages(p), skip), decodes);
  }

  lemma {:induction false} BlocksEnd(p: Packet, off: nat, n: nat)
    requires n > 0 ==> !Complete(p, off)
    ensures |Blocks(p, off, n)| == 0
  {
  }
}
