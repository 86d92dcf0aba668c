/**
 The sequence lock as a state machine: one writer changing the data word by word between two
 increments of a 32-bit sequence, any number of readers copying a prefix word by word and retrying.
 */
module SeqLocks {

  const WRAP: nat := 0x1_0000_0000

  /** `since` and `at` count the increments made when the first and the second load happened. */
  datatype Reader =
    | Idle
    | Copying(n: nat, s1: nat, buf: seq<int>, since: nat)
    | Returned(buf: seq<int>, since: nat, at: nat)

  datatype State = State(
    count: nat,                   // increments so far; the stored sequence is count % 2^32
    data: seq<int>,
    readers: seq<Reader>,
    versions: seq<seq<int>>)      // the data after each completed write, the initial data first

  datatype Action =
    | BeginWrite
    | WriteWord(i: nat, x: int)
    | EndWrite
    | ReadStart(r: nat, n: nat)   // first load; an odd sequence means retry
    | CopyWord(r: nat)
    | ReadEnd(r: nat)             // second load; a changed sequence means retry

  function Seq32(count: nat): nat { count % WRAP }

  predicate Writing(s: State) { s.count % 2 == 1 }

  ghost predicate Init(s: State) {
    s.count == 0 && s.versions == [s.data] && forall r :: 0 <= r < |s.readers| ==> s.readers[r] == Idle
  }

  predicate Enabled(s: State, a: Action) {
    match a
    case BeginWrite => !Writing(s)
    case WriteWord(i, _) => Writing(s) && i < |s.data|
    case EndWrite => Writing(s)
    case ReadStart(r, n) => r < |s.readers| && !s.readers[r].Copying? && n <= |s.data|
    case CopyWord(r) => r < |s.readers| && s.readers[r].Copying? && |s.readers[r].buf| < s.readers[r].n <= |s.data|
    case ReadEnd(r) => r < |s.readers| && s.readers[r].Copying? && |s.readers[r].buf| == s.readers[r].n
  }

  function Step(s: State, a: Action): State
    requires Enabled(s, a)
  {
    match a
    case BeginWrite => s.(count := s.count + 1)
    case WriteWord(i, x) => s.(data := s.data[i := x])
    case EndWrite => s.(count := s.count + 1, versions := s.versions + [s.data])
    case ReadStart(r, n) =>
      if Seq32(s.count) % 2 == 1 then s.(readers := s.readers[r := Idle])
      else s.(readers := s.readers[r := Copying(n, Seq32(s.count), [], s.count)])
    case CopyWord(r) =>
      var c := s.readers[r];
      s.(readers := s.readers[r := Copying(c.n, c.s1, c.buf + [s.data[|c.buf|]], c.since)])
    case ReadEnd(r) =>
      var c := s.readers[r];
      s.(readers := s.readers[r := if Seq32(s.count) == c.s1 then Returned(c.buf, c.since, s.count) else Idle])
  }

  predicate IsRun(s: State, actions: seq<Action>)
    decreases |actions|
  {
    actions == [] || (Enabled(s, actions[0]) && IsRun(Step(s, actions[0]), actions[1..]))
  }

  function After(s: State, actions: seq<Action>): State
    requires IsRun(s, actions)
    decreases |actions|
  {
    if actions == [] then s else After(Step(s, actions[0]), actions[1..])
  }

  /** Completed writes. */
  function Completed(s: State): nat { s.count / 2 }

  ghost predicate ReaderOk(s: State, x: Reader) {
    match x
    case Idle => true
    case Copying(n, s1, buf, since) =>
      && since <= s.count && since % 2 == 0 && s1 == Seq32(since) && |buf| <= n <= |s.data|
      && (since == s.count ==> buf == s.data[..|buf|])
    case Returned(buf, since, at) =>
      && since <= at <= s.count && since % 2 == 0 && |buf| <= |s.data|
      && (at - since < WRAP ==> since == at && since / 2 < |s.versions| && buf <= s.versions[since / 2])
  }

  ghost predicate Inv(s: State) {
    && |s.versions| == Completed(s) + 1
    && (!Writing(s) ==> s.versions[Completed(s)] == s.data)
    && (forall r :: 0 <= r < |s.readers| ==> ReaderOk(s, s.readers[r]))
  }

  lemma {:induction false} SameSequence(a: nat, b: nat)
    requires a <= b && Seq32(a) == Seq32(b) && b - a < WRAP
    ensures a == b
  {
  }

  lemma {:induction false} KeepWriter(s: State, a: Action)
    requires Inv(s) && Enabled(s, a) && (a.BeginWrite? || a.WriteWord? || a.EndWrite?)
    ensures Inv(Step(s, a))
  {
    var s' := Step(s, a);
    forall r | 0 <= r < |s'.readers| ensures ReaderOk(s', s'.readers[r]) {
      assert ReaderOk(s, s.readers[r]);
    }
  }

  lemma {:induction false} KeepReader(s: State, a: Action)
    requires Inv(s) && Enabled(s, a) && !(a.BeginWrite? || a.WriteWord? || a.EndWrite?)
    ensures Inv(Step(s, a))
  {
    var s' := Step(s, a);
    assert ReaderOk(s, s.readers[a.r]);
    forall r | 0 <= r < |s'.readers| ensures ReaderOk(s', s'.readers[r]) {
      assert ReaderOk(s, s.readers[r]);
      if r == a.r && a.ReadEnd? && s'.readers[r].Returned? && s.count - s'.readers[r].since < WRAP {
        SameSequence(s'.readers[r].since, s.count);
      }
    }
  }

  lemma {:induction false} RunInv(s: State, actions: seq<Action>)
    requires Inv(s) && IsRun(s, actions)
    ensures Inv(After(s, actions))
    decreases |actions|
  {
    if actions != [] {
      var a := actions[0];
      if a.BeginWrite? || a.WriteWord? || a.EndWrite? { KeepWriter(s, a); } else { KeepReader(s, a); }
      RunInv(Step(s, a), actions[1..]);
    }
  }

  /**
   In every interleaving, a prefix returned to a reader is that prefix of the data after a whole
   number of completed writes, the number at both ends of the read, as long as fewer than 2^32
   increments were made while it read.
   */
  lemma {:induction false} SnapshotsAreConsistent(s0: State, actions: seq<Action>, r: nat)
    requires Init(s0) && IsRun(s0, actions)
    ensures var s := After(s0, actions);
            r < |s.readers| && s.readers[r].Returned? && s.readers[r].at - s.readers[r].since < WRAP ==>
              && s.readers[r].since == s.readers[r].at
              && s.readers[r].since / 2 < |s.versions|
              && s.readers[r].buf <= s.versions[s.readers[r].since / 2]
  {
    RunInv(s0, actions);
    var s := After(s0, actions);
    if r < |s.readers| {
      assert ReaderOk(s, s.readers[r]);
    }
  }

  // ---- a read that no write overlaps ----

  /** Copying the words of the prefix that are still to come, then the second load. */
  function Rest(r: nat, k: nat): seq<Action> {
    if k == 0 then [ReadEnd(r)] else [CopyWord(r)] + Rest(r, k - 1)
  }

  lemma {:induction false} RestReads(s: State, r: nat)
    requires r < |s.readers| && s.readers[r].Copying? && !Writing(s)
    requires |s.readers[r].buf| <= s.readers[r].n <= |s.data| && s.readers[r].buf == s.data[..|s.readers[r].buf|]
    requires s.readers[r].s1 == Seq32(s.count)
    ensures var x := s.readers[r];
            var actions := Rest(r, x.n - |x.buf|);
            && IsRun(s, actions)
            && After(s, actions) == s.(readers := s.readers[r := Returned(s.data[..x.n], x.since, s.count)])
    decreases s.readers[r].n - |s.readers[r].buf|
  {
    var x := s.readers[r];
    var k := x.n - |x.buf|;
    if k == 0 {
      OneStep(s, ReadEnd(r), [], []);
      assert [ReadEnd(r)] + [] + [] == [ReadEnd(r)];
    } else {
      var m := Step(s, CopyWord(r));
      assert s.data[..|x.buf| + 1] == s.data[..|x.buf|] + [s.data[|x.buf|]];
      RestReads(m, r);
      OneStep(s, CopyWord(r), Rest(r, k - 1), []);
      assert [CopyWord(r)] + Rest(r, k - 1) + [] == Rest(r, k) && Rest(r, k - 1) + [] == Rest(r, k - 1);
      assert m.readers[r := Returned(s.data[..x.n], x.since, s.count)] == s.readers[r := Returned(s.data[..x.n], x.since, s.count)];
    }
  }

  /** Between writes a read of any length returns that much of the data at once. */
  lemma {:induction false} QuietRead(s: State, r: nat, n: nat)
    requires r < |s.readers| && !s.readers[r].Copying? && n <= |s.data| && !Writing(s)
    ensures var actions := [ReadStart(r, n)] + Rest(r, n);
            && IsRun(s, actions)
            && After(s, actions) == s.(readers := s.readers[r := Returned(s.data[..n], s.count, s.count)])
  {
    EvenSequence(s.count);
    var m := Step(s, ReadStart(r, n));
    RestReads(m, r);
    OneStep(s, ReadStart(r, n), Rest(r, n), []);
    assert [ReadStart(r, n)] + Rest(r, n) + [] == [ReadStart(r, n)] + Rest(r, n) && Rest(r, n) + [] == Rest(r, n);
    assert m.readers[r := Returned(s.data[..n], s.count, s.count)] == s.readers[r := Returned(s.data[..n], s.count, s.count)];
  }

  lemma {:induction false} EvenSequence(count: nat)
    ensures Seq32(count) % 2 == count % 2
  {
  }

  /** A read only ends with the whole prefix asked for, and during a write it does not begin. */
  lemma {:induction false} WholePrefix(s: State, a: Action)
    requires Enabled(s, a)
    ensures a.ReadEnd? && Step(s, a).readers[a.r].Returned? ==> |Step(s, a).readers[a.r].buf| == s.readers[a.r].n
    ensures a.ReadStart? && Writing(s) ==> Step(s, a).readers[a.r] == Idle
  {
    EvenSequence(s.count);
  }

  // ---- the bound is sharp ----

  /** `k` writes that change nothing. */
  function Writes(k: nat): seq<Action> {
    if k == 0 then [] else [BeginWrite, EndWrite] + Writes(k - 1)
  }

  function Copies(d: seq<int>, k: nat): seq<seq<int>> {
    if k == 0 then [] else [d] + Copies(d, k - 1)
  }

  lemma {:induction false} CopiesShift(vs: seq<seq<int>>, d: seq<int>, k: nat)
    requires k > 0
    ensures vs + [d] + Copies(d, k - 1) == vs + Copies(d, k)
  {
  }

  function Again(s: State, k: nat): State {
    s.(count := s.count + 2 * k, versions := s.versions + Copies(s.data, k))
  }

  lemma {:induction false} OneWrite(s: State, rest: seq<Action>)
    requires !Writing(s)
    ensures IsRun(s, [BeginWrite, EndWrite] + rest) <==> IsRun(Again(s, 1), rest)
    ensures IsRun(Again(s, 1), rest) ==> After(s, [BeginWrite, EndWrite] + rest) == After(Again(s, 1), rest)
  {
    var s1 := Step(s, BeginWrite);
    assert Copies(s.data, 1) == [s.data] + Copies(s.data, 0) == [s.data];
    assert Step(s1, EndWrite) == Again(s, 1);
    hide *;
    OneStep(s, BeginWrite, [EndWrite], rest);
    OneStep(s1, EndWrite, [], rest);
    assert [BeginWrite] + [EndWrite] == [BeginWrite, EndWrite] && [EndWrite] + [] == [EndWrite] && [] + rest == rest;
  }

  lemma {:induction false} AgainMore(s: State, k: nat)
    requires k > 0
    ensures Again(Again(s, 1), k - 1) == Again(s, k)
  {
    CopiesShift(s.versions, s.data, k);
    assert Copies(s.data, 1) == [s.data] + Copies(s.data, 0) == [s.data];
  }

  lemma {:induction false} AfterWrites(s: State, k: nat, rest: seq<Action>)
    requires !Writing(s)
    ensures IsRun(s, Writes(k) + rest) <==> IsRun(Again(s, k), rest)
    ensures IsRun(Again(s, k), rest) ==> After(s, Writes(k) + rest) == After(Again(s, k), rest)
    decreases k
  {
    if k == 0 {
      assert Writes(0) + rest == rest && s.versions + Copies(s.data, 0) == s.versions;
    } else {
      OneWrite(s, Writes(k - 1) + rest);
      assert [BeginWrite, EndWrite] + (Writes(k - 1) + rest) == Writes(k) + rest;
      AgainMore(s, k);
      AfterWrites(Again(s, 1), k - 1, rest);
    }
  }

  lemma {:induction false} CopiesAre(d: seq<int>, k: nat)
    ensures |Copies(d, k)| == k && forall i :: 0 <= i < k ==> Copies(d, k)[i] == d
  {
    if k > 0 {
      CopiesAre(d, k - 1);
    }
  }

  ghost predicate Torn(s: State) {
    && s.readers == [Returned([0, 1], 0, WRAP)]
    && forall v :: 0 <= v < |s.versions| ==> s.versions[v] == [0, 0] || s.versions[v] == [1, 1]
  }

  /** With 2^32 increments during one read the sequence comes round and a torn snapshot is returned. */
  lemma {:induction false} SequenceReuseTears() returns (s0: State, actions: seq<Action>)
    ensures Init(s0) && IsRun(s0, actions) && Torn(After(s0, actions))
  {
    var k: nat := WRAP / 2 - 1;
    s0 := State(0, [0, 0], [Idle], [[0, 0]]);
    var s1 := State(2, [1, 1], [Copying(2, 0, [0], 0)], [[0, 0], [1, 1]]);
    var s2 := State(WRAP, [1, 1], [Copying(2, 0, [0], 0)], s1.versions + Copies([1, 1], k));
    var last := [CopyWord(0), ReadEnd(0)];
    var middle := Writes(k) + last;
    LastSteps(s2);
    AfterWrites(s1, k, last);
    CopiesAre([1, 1], k);
    WriteSteps(State(0, [0, 0], [Copying(2, 0, [0], 0)], [[0, 0]]), middle);
    ReadSteps(s0, [BeginWrite, WriteWord(0, 1), WriteWord(1, 1), EndWrite] + middle);
    actions := [ReadStart(0, 2), CopyWord(0)] + ([BeginWrite, WriteWord(0, 1), WriteWord(1, 1), EndWrite] + middle);
  }

  lemma {:induction false} OneStep(s: State, a: Action, as_: seq<Action>, rest: seq<Action>)
    requires Enabled(s, a)
    ensures IsRun(s, [a] + as_ + rest) <==> IsRun(Step(s, a), as_ + rest)
    ensures IsRun(s, [a] + as_ + rest) ==> After(s, [a] + as_ + rest) == After(Step(s, a), as_ + rest)
  {
    assert ([a] + as_ + rest)[0] == a && ([a] + as_ + rest)[1..] == as_ + rest;
  }

  lemma {:induction false} SetOnly(x: Reader, y: Reader)
    ensures [x][0 := y] == [y]
  {
  }

  lemma {:induction false} ReadSteps(s0: State, rest: seq<Action>)
    requires s0 == State(0, [0, 0], [Idle], [[0, 0]])
    ensures var s1 := State(0, [0, 0], [Copying(2, 0, [0], 0)], [[0, 0]]);
            (IsRun(s0, [ReadStart(0, 2), CopyWord(0)] + rest) <==> IsRun(s1, rest))
            && (IsRun(s1, rest) ==> After(s0, [ReadStart(0, 2), CopyWord(0)] + rest) == After(s1, rest))
  {
    var a := State(0, [0, 0], [Copying(2, 0, [], 0)], [[0, 0]]);
    SetOnly(Idle, Copying(2, 0, [], 0));
    OneStep(s0, ReadStart(0, 2), [CopyWord(0)], rest);
    assert [ReadStart(0, 2)] + [CopyWord(0)] == [ReadStart(0, 2), CopyWord(0)];
    assert [] + [0] == [0];
    SetOnly(Copying(2, 0, [], 0), Copying(2, 0, [0], 0));
    OneStep(a, CopyWord(0), [], rest);
    assert [CopyWord(0)] + [] == [CopyWord(0)] && [] + rest == rest;
  }

  lemma {:induction false} WriteSteps(s1: State, rest: seq<Action>)
    requires s1.count == 0 && s1.data == [0, 0] && s1.versions == [[0, 0]]
    ensures var ws := [BeginWrite, WriteWord(0, 1), WriteWord(1, 1), EndWrite];
            var s2 := State(2, [1, 1], s1.readers, [[0, 0], [1, 1]]);
            (IsRun(s1, ws + rest) <==> IsRun(s2, rest)) && (IsRun(s2, rest) ==> After(s1, ws + rest) == After(s2, rest))
  {
    var b, c, d := s1.(count := 1), s1.(count := 1, data := [1, 0]), s1.(count := 1, data := [1, 1]);
    OneStep(s1, BeginWrite, [WriteWord(0, 1), WriteWord(1, 1), EndWrite], rest);
    assert [BeginWrite] + [WriteWord(0, 1), WriteWord(1, 1), EndWrite] == [BeginWrite, WriteWord(0, 1), WriteWord(1, 1), EndWrite];
    assert [0, 0][0 := 1] == [1, 0] && [1, 0][1 := 1] == [1, 1];
    OneStep(b, WriteWord(0, 1), [WriteWord(1, 1), EndWrite], rest);
    assert [WriteWord(0, 1)] + [WriteWord(1, 1), EndWrite] == [WriteWord(0, 1), WriteWord(1, 1), EndWrite];
    OneStep(c, WriteWord(1, 1), [EndWrite], rest);
    assert [WriteWord(1, 1)] + [EndWrite] == [WriteWord(1, 1), EndWrite];
    OneStep(d, EndWrite, [], rest);
    assert [EndWrite] + [] == [EndWrite] && [] + rest == rest;
    assert [[0, 0]] + [[1, 1]] == [[0, 0], [1, 1]];
  }

  lemma {:induction false} LastSteps(s2: State)
    requires s2.count == WRAP && s2.data == [1, 1] && s2.readers == [Copying(2, 0, [0], 0)]
    ensures IsRun(s2, [CopyWord(0), ReadEnd(0)])
    ensures After(s2, [CopyWord(0), ReadEnd(0)]) == s2.(readers := [Returned([0, 1], 0, WRAP)])
  {
    var a := s2.(readers := [Copying(2, 0, [0, 1], 0)]);
    assert [0] + [1] == [0, 1];
    SetOnly(Copying(2, 0, [0], 0), Copying(2, 0, [0, 1], 0));
    OneStep(s2, CopyWord(0), [ReadEnd(0)], []);
    assert [CopyWord(0)] + [ReadEnd(0)] + [] == [CopyWord(0), ReadEnd(0)];
    SetOnly(Copying(2, 0, [0, 1], 0), Returned([0, 1], 0, WRAP));
    OneStep(a, ReadEnd(0), [], []);
    assert [ReadEnd(0)] + [] + [] == [ReadEnd(0)];
  }
}
