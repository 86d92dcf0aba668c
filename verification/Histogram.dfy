/**
 The latency histogram: each power of two is divided into sixteen equal buckets, so that a
 percentile is read to within a sixteenth.
 */
module Histograms {

  const BUCKETS: nat := 1024

  function Pow2(k: nat): (p: nat)
    ensures p > 0
  {
    if k == 0 then 1 else 2 * Pow2(k - 1)
  }

  /** The position of the highest set bit. */
  function Msb(v: nat): nat
    requires v > 0
  {
    if v == 1 then 0 else 1 + Msb(v / 2)
  }

  /** `v >> k`. */
  function ShiftRight(v: nat, k: nat): nat {
    if k == 0 then v else ShiftRight(v / 2, k - 1)
  }

  function ShiftLeft(v: nat, k: nat): nat
    decreases k
  {
    if k == 0 then v else ShiftLeft(2 * v, k - 1)
  }

  function Index(v: nat): nat {
    if v < 16 then v
    else
      MsbAtLeast4(v);
      var shift := Msb(v) - 4;
      (shift + 1) * 16 + ShiftRight(v, shift) % 16
  }

  function UpperBound(i: nat): nat {
    if i < 16 then i
    else
      var shift: nat := i / 16 - 1;
      ShiftPositive(1, shift);
      ShiftLeft(16 + i % 16, shift) + (ShiftLeft(1, shift) - 1)
  }

  lemma {:induction false} MsbAtLeast4(v: nat)
    requires v >= 16
    ensures Msb(v) >= 4
  {
    assert Msb(v) == 1 + Msb(v / 2) && Msb(v / 2) == 1 + Msb(v / 2 / 2);
    assert Msb(v / 4) == 1 + Msb(v / 4 / 2) && Msb(v / 8) == 1 + Msb(v / 8 / 2);
  }

  lemma {:induction false} ShiftPositive(v: nat, k: nat)
    requires v > 0
    ensures ShiftLeft(v, k) > 0
    decreases k
  {
    if k > 0 {
      ShiftPositive(2 * v, k - 1);
    }
  }

  // ---- shifts as division and multiplication ----

  lemma {:induction false} LeftIs(v: nat, k: nat)
    ensures ShiftLeft(v, k) == v * Pow2(k)
    decreases k
  {
    if k > 0 {
      LeftIs(2 * v, k - 1);
      Regroup(v, Pow2(k - 1));
    }
  }

  lemma {:induction false} Regroup(v: nat, p: nat)
    ensures (2 * v) * p == v * (2 * p)
  {
  }

  /** A right shift keeps the quotient: `q` is the value iff the number is in the `q`-th block of 2^k. */
  predicate InBlock(v: nat, k: nat, q: nat) {
    ShiftLeft(q, k) <= v < ShiftLeft(q, k) + Pow2(k)
  }

  lemma {:induction false} RightIs(v: nat, k: nat)
    ensures InBlock(v, k, ShiftRight(v, k))
    decreases k
  {
    if k > 0 {
      RightIs(v / 2, k - 1);
      var q := ShiftRight(v, k);
      LeftIs(q, k - 1);
      LeftIs(q, k);
      Doubled(v, q, Pow2(k - 1));
    }
  }

  lemma {:induction false} Doubled(v: nat, q: nat, p: nat)
    requires q * p <= v / 2 < q * p + p
    ensures q * (2 * p) <= v < q * (2 * p) + 2 * p
  {
    assert q * (2 * p) == 2 * (q * p);
  }

  lemma {:induction false} BlocksApart(v: nat, w: nat, k: nat, q: nat, r: nat)
    requires InBlock(v, k, q) && InBlock(w, k, r) && v <= w
    ensures q <= r
  {
    LeftIs(q, k);
    LeftIs(r, k);
    if q > r {
      Steps(q, r, Pow2(k));
    }
  }

  lemma {:induction false} Steps(q: nat, r: nat, p: nat)
    requires q > r
    ensures q * p >= r * p + p
    decreases q
  {
    NextMultiple(q - 1, p);
    if q - 1 > r {
      Steps(q - 1, r, p);
    }
  }

  lemma {:induction false} NextMultiple(q: nat, p: nat)
    ensures (q + 1) * p == q * p + p
  {
  }

  /** The sixteen blocks of a power of two. */
  lemma {:induction false} SixteenBlocks(q: nat, p: nat)
    requires p > 0
    ensures q >= 16 ==> 16 * p <= q * p
    ensures q < 16 ==> q * p + p <= 16 * p
    ensures q < 32 ==> q * p + p <= 32 * p
    ensures q >= 32 ==> 32 * p <= q * p
  {
    if q < 16 {
      Steps(16, q, p);
    } else if q > 16 {
      Steps(q, 16, p);
    }
    if q < 32 {
      Steps(32, q, p);
    } else if q > 32 {
      Steps(q, 32, p);
    }
  }

  lemma {:induction false} MsbIs(v: nat, m: nat)
    requires Pow2(m) <= v < 2 * Pow2(m)
    ensures Msb(v) == m
    decreases m
  {
    if m > 0 {
      MsbIs(v / 2, m - 1);
    }
  }

  lemma {:induction false} MsbBounds(v: nat)
    requires v > 0
    ensures Pow2(Msb(v)) <= v < 2 * Pow2(Msb(v))
    decreases v
  {
    if v > 1 {
      MsbBounds(v / 2);
    }
  }

  lemma {:induction false} Pow2Order(a: nat, b: nat)
    requires a <= b
    ensures Pow2(a) <= Pow2(b)
    decreases b
  {
    if a < b {
      Pow2Order(a, b - 1);
    }
  }

  lemma {:induction false} MsbOrder(v: nat, w: nat)
    requires 0 < v <= w
    ensures Msb(v) <= Msb(w)
  {
    MsbBounds(v);
    MsbBounds(w);
    if Msb(v) > Msb(w) {
      Pow2Order(Msb(w) + 1, Msb(v));
    }
  }

  lemma {:induction false} Pow2Sixteen(k: nat)
    ensures Pow2(k + 4) == 16 * Pow2(k)
  {
    assert Pow2(k + 4) == 2 * Pow2(k + 3) && Pow2(k + 3) == 2 * Pow2(k + 2);
    assert Pow2(k + 2) == 2 * Pow2(k + 1) && Pow2(k + 1) == 2 * Pow2(k);
  }

  // ---- buckets ----

  /** A value of 16 or more is in one of the sixteen blocks of its power of two. */
  lemma {:induction false} IndexShape(v: nat) returns (shift: nat, q: nat)
    requires v >= 16
    ensures shift == Msb(v) - 4 && 16 <= q < 32 && InBlock(v, shift, q) && Index(v) == shift * 16 + q
  {
    MsbAtLeast4(v);
    shift, q := Msb(v) - 4, ShiftRight(v, Msb(v) - 4);
    RightIs(v, shift);
    MsbBounds(v);
    Pow2Sixteen(shift);
    LeftIs(q, shift);
    SixteenBlocks(q, Pow2(shift));
  }

  /** And the other way round: a block names its values' bucket. */
  lemma {:induction false} BlockIndex(v: nat, shift: nat, q: nat)
    requires 16 <= q < 32 && InBlock(v, shift, q)
    ensures v >= 16 && Index(v) == shift * 16 + q
  {
    LeftIs(q, shift);
    Pow2Sixteen(shift);
    SixteenBlocks(q, Pow2(shift));
    MsbIs(v, shift + 4);
    RightIs(v, shift);
    SameBlock(v, shift, q, ShiftRight(v, shift));
    hide InBlock, ShiftRight, Msb, Pow2, ShiftLeft;
  }

  lemma {:induction false} SameBlock(v: nat, k: nat, q: nat, r: nat)
    requires InBlock(v, k, q) && InBlock(v, k, r)
    ensures q == r
  {
    BlocksApart(v, v, k, q, r);
    BlocksApart(v, v, k, r, q);
  }

  /** `Index` is monotone and stays within the table for 64-bit values. */
  lemma {:induction false} IndexMonotone(v: nat, w: nat)
    requires v <= w
    ensures Index(v) <= Index(w)
  {
    if w >= 16 {
      var s, q := IndexShape(w);
      if v >= 16 {
        var s', q' := IndexShape(v);
        MsbOrder(v, w);
        if s == s' {
          BlocksApart(v, w, s, q', q);
        }
      }
    }
  }

  lemma {:induction false} IndexInTable(v: nat)
    requires v < 0x1_0000_0000_0000_0000
    ensures Index(v) < 976
  {
    if v >= 16 {
      var s, q := IndexShape(v);
      MsbBounds(v);
      if Msb(v) > 63 {
        Pow2Order(64, Msb(v));
        Pow2At64();
      }
    }
  }

  lemma {:induction false} Pow2Adds(a: nat, b: nat)
    ensures Pow2(a + b) == Pow2(a) * Pow2(b)
    decreases a
  {
    if a > 0 {
      Pow2Adds(a - 1, b);
      Regroup(Pow2(a - 1), Pow2(b));
    }
  }

  lemma {:induction false} Pow2At64()
    ensures Pow2(64) == 0x1_0000_0000_0000_0000
  {
    Pow2At16();
    Pow2Adds(16, 16);
    Pow2Adds(32, 32);
    hide Pow2;
  }

  lemma {:induction false} Pow2At16()
    ensures Pow2(16) == 65536
  {
    Pow2Sixteen(0);
    Pow2Sixteen(4);
    Pow2Sixteen(8);
    Pow2Sixteen(12);
    assert Pow2(0) == 1;
    hide Pow2;
  }

  lemma {:induction false} UpperShape(i: nat)
    requires i >= 16
    ensures var shift, q := i / 16 - 1, 16 + i % 16;
            shift >= 0 && 16 <= q < 32 && i == shift * 16 + q && UpperBound(i) == ShiftLeft(q, shift) + Pow2(shift) - 1
  {
    LeftIs(1, i / 16 - 1);
  }

  /** `UpperBound` is the largest value of its bucket. */
  lemma {:induction false} UpperBoundIsLargest(i: nat)
    ensures Index(UpperBound(i)) == i && Index(UpperBound(i) + 1) == i + 1
    ensures forall v: nat :: Index(v) == i ==> v <= UpperBound(i)
  {
    if i < 16 {
      if i == 15 {
        assert Pow2(0) == 1;
        BlockIndex(16, 0, 16);
      }
    } else {
      var shift, q := i / 16 - 1, 16 + i % 16;
      UpperShape(i);
      BlockIndex(UpperBound(i), shift, q);
      NextBlock(shift, q, UpperBound(i));
    }
    forall v: nat | Index(v) == i ensures v <= UpperBound(i) {
      if v > UpperBound(i) {
        IndexMonotone(UpperBound(i) + 1, v);
      }
    }
  }

  lemma {:induction false} NextBlock(shift: nat, q: nat, u: nat)
    requires 16 <= q < 32 && u == ShiftLeft(q, shift) + Pow2(shift) - 1
    ensures Index(u + 1) == shift * 16 + q + 1
  {
    LeftIs(q, shift);
    if q < 31 {
      LeftIs(q + 1, shift);
      NextMultiple(q, Pow2(shift));
      BlockIndex(u + 1, shift, q + 1);
    } else {
      LeftIs(16, shift + 1);
      assert Pow2(shift + 1) == 2 * Pow2(shift);
      BlockIndex(u + 1, shift + 1, 16);
    }
  }

  /** A bucket is at most a sixteenth of its values wide. */
  lemma {:induction false} BucketIsNarrow(v: nat)
    ensures v <= UpperBound(Index(v)) <= v + v / 16
  {
    UpperBoundIsLargest(Index(v));
    SmallBucket(v);
    hide *;
    if v >= 16 {
      var shift, q := IndexShape(v);
      UpperShape(Index(v));
      SameShape(shift, q, Index(v));
      LeftIs(q, shift);
      BlockStarts(v, shift, q);
      Sixteenth(v, q, Pow2(shift));
    }
  }

  lemma {:induction false} SmallBucket(v: nat)
    ensures v < 16 ==> UpperBound(Index(v)) == v
  {
  }

  lemma {:induction false} BlockStarts(v: nat, shift: nat, q: nat)
    requires InBlock(v, shift, q)
    ensures q * Pow2(shift) <= v
  {
    LeftIs(q, shift);
  }

  lemma {:induction false} SameShape(shift: nat, q: nat, i: nat)
    requires 16 <= q < 32 && i == shift * 16 + q
    ensures i / 16 - 1 == shift && 16 + i % 16 == q
  {
  }

  lemma {:induction false} Sixteenth(v: nat, q: nat, p: nat)
    requires 16 <= q && q * p <= v && p > 0
    ensures q * p + p - 1 <= v + v / 16
  {
    SixteenBlocks(q, p);
  }

  // ---- what has been recorded ----

  const U64_MAX: nat := 0xFFFF_FFFF_FFFF_FFFF

  function CountAt(values: seq<nat>, i: nat): nat {
    if values == [] then 0
    else CountAt(values[..|values| - 1], i) + (if Index(values[|values| - 1]) == i then 1 else 0)
  }

  /** How many values lie in buckets below `i`. */
  function CountBelow(values: seq<nat>, i: nat): nat {
    if values == [] then 0
    else CountBelow(values[..|values| - 1], i) + (if Index(values[|values| - 1]) < i then 1 else 0)
  }

  function CountLess(values: seq<nat>, x: nat): nat {
    if values == [] then 0
    else CountLess(values[..|values| - 1], x) + (if values[|values| - 1] < x then 1 else 0)
  }

  /** `x` is the `k`-th smallest value recorded, counting from 1. */
  ghost predicate IsRank(values: seq<nat>, x: nat, k: nat) {
    x in values && CountLess(values, x) < k <= CountLess(values, x + 1)
  }

  function Largest(values: seq<nat>): nat {
    if values == [] then 0
    else
      var m, v := Largest(values[..|values| - 1]), values[|values| - 1];
      if v > m then v else m
  }

  function Smallest(values: seq<nat>): nat {
    if values == [] then U64_MAX
    else
      var m, v := Smallest(values[..|values| - 1]), values[|values| - 1];
      if v < m then v else m
  }

  function Sum(values: seq<nat>): nat {
    if values == [] then 0 else Sum(values[..|values| - 1]) + values[|values| - 1]
  }

  ghost predicate Words(values: seq<nat>) {
    forall i :: 0 <= i < |values| ==> values[i] <= U64_MAX
  }

  lemma {:induction false} Appends(values: seq<nat>, v: nat)
    ensures (values + [v])[..|values|] == values && (values + [v])[|values|] == v
  {
  }

  lemma {:induction false} CountsAdd(a: seq<nat>, b: seq<nat>, i: nat)
    ensures CountAt(a + b, i) == CountAt(a, i) + CountAt(b, i)
    decreases |b|
  {
    if b == [] {
      assert a + b == a;
    } else {
      var c := b[..|b| - 1];
      assert a + b == (a + c) + [b[|b| - 1]];
      Appends(a + c, b[|b| - 1]);
      CountsAdd(a, c, i);
    }
  }

  lemma {:induction false} TotalsAdd(a: seq<nat>, b: seq<nat>)
    requires Words(a) && Words(b)
    ensures Words(a + b) && Sum(a + b) == Sum(a) + Sum(b)
    ensures Largest(a + b) == if Largest(a) > Largest(b) then Largest(a) else Largest(b)
    ensures Smallest(a + b) == if Smallest(a) < Smallest(b) then Smallest(a) else Smallest(b)
    decreases |b|
  {
    if b == [] {
      assert a + b == a;
      SmallestIsWord(a);
    } else {
      var c := b[..|b| - 1];
      assert a + b == (a + c) + [b[|b| - 1]];
      Appends(a + c, b[|b| - 1]);
      TotalsAdd(a, c);
    }
  }

  lemma {:induction false} SmallestIsWord(a: seq<nat>)
    ensures Smallest(a) <= U64_MAX
    decreases |a|
  {
    if a != [] {
      SmallestIsWord(a[..|a| - 1]);
    }
  }

  lemma {:induction false} LargestBounds(values: seq<nat>, x: nat)
    requires x in values
    ensures x <= Largest(values)
    decreases |values|
  {
    var n := |values| - 1;
    if x != values[n] {
      assert values == values[..n] + [values[n]];
      LargestBounds(values[..n], x);
    }
  }

  lemma {:induction false} BelowGrows(values: seq<nat>, i: nat)
    ensures CountBelow(values, i + 1) == CountBelow(values, i) + CountAt(values, i)
    decreases |values|
  {
    if values != [] {
      BelowGrows(values[..|values| - 1], i);
    }
  }

  lemma {:induction false} BelowNone(values: seq<nat>)
    ensures CountBelow(values, 0) == 0
    decreases |values|
  {
    if values != [] {
      BelowNone(values[..|values| - 1]);
    }
  }

  lemma {:induction false} BelowAll(values: seq<nat>)
    requires Words(values)
    ensures CountBelow(values, BUCKETS) == |values|
    decreases |values|
  {
    if values != [] {
      BelowAll(values[..|values| - 1]);
      IndexInTable(values[|values| - 1]);
    }
  }

  /** Values in buckets below that of `x` are less than `x`; values up to `x` are in buckets up to its own. */
  lemma {:induction false} BelowIsLess(values: seq<nat>, x: nat)
    ensures CountBelow(values, Index(x)) <= CountLess(values, x)
    ensures CountLess(values, x + 1) <= CountBelow(values, Index(x) + 1)
    decreases |values|
  {
    if values != [] {
      var v := values[|values| - 1];
      BelowIsLess(values[..|values| - 1], x);
      if v <= x {
        IndexMonotone(v, x);
      } else {
        IndexMonotone(x, v);
      }
      hide Index;
    }
  }

  lemma {:induction false} BelowOrder(values: seq<nat>, i: nat, j: nat)
    requires i <= j
    ensures CountBelow(values, i) <= CountBelow(values, j)
    decreases j
  {
    if i < j {
      BelowGrows(values, j - 1);
      BelowOrder(values, i, j - 1);
    }
  }

  /** The bucket where the running count reaches the rank is the bucket of the value of that rank. */
  lemma {:induction false} RankBucket(values: seq<nat>, x: nat, k: nat, i: nat)
    requires IsRank(values, x, k) && CountBelow(values, i) < k <= CountBelow(values, i + 1)
    ensures Index(x) == i
  {
    BelowIsLess(values, x);
    hide Index, CountBelow, CountLess;
    if Index(x) < i {
      BelowOrder(values, Index(x) + 1, i);
    } else if Index(x) > i {
      BelowOrder(values, i + 1, Index(x));
    }
  }

  /** Within a sixteenth above the exact order statistic. */
  ghost predicate Near(values: seq<nat>, k: nat, r: nat) {
    forall x: nat :: IsRank(values, x, k) ==> x <= r <= x + x / 16
  }

  lemma {:induction false} BucketIsNear(values: seq<nat>, k: nat, i: nat)
    requires CountBelow(values, i) < k <= CountBelow(values, i + 1)
    ensures var u := UpperBound(i); Near(values, k, if u < Largest(values) then u else Largest(values))
  {
    var u := UpperBound(i);
    forall x: nat | IsRank(values, x, k)
      ensures x <= u <= x + x / 16 && x <= Largest(values)
    {
      RankBucket(values, x, k, i);
      BucketIsNarrow(x);
      LargestBounds(values, x);
    }
    hide IsRank, UpperBound, Largest;
  }

  /** There is a value of every rank. */
  lemma {:induction false} RankExists(values: seq<nat>, k: nat) returns (x: nat)
    requires 1 <= k <= |values|
    ensures IsRank(values, x, k)
  {
    LessAll(values, Largest(values) + 1);
    x := RankBelow(values, k, Largest(values) + 1);
  }

  lemma {:induction false} RankBelow(values: seq<nat>, k: nat, y: nat) returns (x: nat)
    requires y > 0 && 0 < k <= CountLess(values, y)
    ensures IsRank(values, x, k)
    decreases y
  {
    if y == 1 || CountLess(values, y - 1) < k {
      x := y - 1;
      LessNone(values);
      LessGrows(values, x);
    } else {
      x := RankBelow(values, k, y - 1);
    }
  }

  lemma {:induction false} LessGrows(values: seq<nat>, x: nat)
    ensures CountLess(values, x) < CountLess(values, x + 1) ==> x in values
    ensures CountLess(values, x) <= CountLess(values, x + 1)
    decreases |values|
  {
    if values != [] {
      var n := |values| - 1;
      assert values == values[..n] + [values[n]];
      LessGrows(values[..n], x);
    }
  }

  lemma {:induction false} LessNone(values: seq<nat>)
    ensures CountLess(values, 0) == 0
    decreases |values|
  {
    if values != [] {
      LessNone(values[..|values| - 1]);
    }
  }

  lemma {:induction false} LessAll(values: seq<nat>, y: nat)
    requires y > Largest(values)
    ensures CountLess(values, y) == |values|
    decreases |values|
  {
    if values != [] {
      LessAll(values[..|values| - 1], y);
    }
  }

  // ---- the histogram ----

  /** The rank a percentage of `n` values stands for, rounded to the nearest, at least 1. */
  function RankOf(p: real, n: nat): (k: nat)
    ensures k >= 1
  {
    var x := p / 100.0 * (n as real) + 0.5;
    if x < 1.0 then 1 else x.Floor
  }

  /** A percentage up to 100 of at least one value is a rank that some value has, the nearest one. */
  lemma {:induction false} RankFits(p: real, n: nat)
    ensures n >= 1 && p <= 100.0 ==> 1 <= RankOf(p, n) <= n
    ensures p / 100.0 * (n as real) < 0.5 ==> RankOf(p, n) == 1
    ensures p / 100.0 * (n as real) >= 0.5
            ==> -0.5 < RankOf(p, n) as real - p / 100.0 * (n as real) <= 0.5
  {
    var q, m := p / 100.0, n as real;
    if p <= 100.0 {
      assert q <= 1.0;
      assert q * m <= m by {
        ScaleDown(q, m);
      }
    }
  }

  lemma {:induction false} ScaleDown(q: real, m: real)
    requires q <= 1.0 && m >= 0.0
    ensures q * m <= m
  {
    assert (1.0 - q) * m >= 0.0;
  }

  class LatencyHistogram {
    const counts: array<nat>
    var n: nat
    var max: nat
    var min: nat
    var sum: nat
    ghost var values: seq<nat>

    /** The table and the totals are those of the values recorded. */
    ghost predicate Valid()
      reads this, counts
    {
      && counts.Length == BUCKETS && Words(values)
      && (forall i :: 0 <= i < BUCKETS ==> counts[i] == CountAt(values, i))
      && n == |values| && max == Largest(values) && min == Smallest(values) && sum == Sum(values)
    }

    constructor ()
      ensures Valid() && values == [] && fresh(counts)
    {
      counts := new nat[BUCKETS](i => 0);
      n, max, min, sum, values := 0, 0, U64_MAX, 0, [];
    }

    method Reset()
      requires Valid()
      modifies this, counts
      ensures Valid() && values == []
    {
      for i := 0 to BUCKETS
        invariant forall j :: 0 <= j < i ==> counts[j] == 0
      {
        counts[i] := 0;
      }
      n, max, min, sum, values := 0, 0, U64_MAX, 0, [];
    }

    method Record(v: nat)
      requires Valid() && v <= U64_MAX
      modifies this, counts
      ensures Valid() && values == old(values) + [v]
    {
      hide Index;
      IndexInTable(v);
      Appends(values, v);
      counts[Index(v)] := counts[Index(v)] + 1;
      n := n + 1;
      if v > max {
        max := v;
      }
      if v < min {
        min := v;
      }
      sum := sum + v;
      values := values + [v];
    }

    /** The bound of the bucket that holds the value of the percentage's rank; 0 when nothing was recorded. */
    method Percentile(p: real) returns (r: nat)
      requires Valid()
      ensures values == [] ==> r == 0
      ensures values != [] && p <= 100.0 ==> Near(values, RankOf(p, |values|), r) && r <= Largest(values)
      ensures values != [] && RankOf(p, |values|) > |values| ==> r == Largest(values)
    {
      hide Near, Largest, Index, CountAt, RankOf;
      if n == 0 {
        return 0;
      }
      RankFits(p, n);
      r := AtRank(RankOf(p, n));
    }

    /** The same for a rank; the largest value if there is none of that rank. */
    method AtRank(target: nat) returns (r: nat)
      requires Valid() && target >= 1
      ensures target <= |values| ==> Near(values, target, r) && r <= Largest(values)
      ensures target > |values| ==> r == Largest(values)
    {
      hide UpperBound, Index, Near, CountBelow, CountAt;
      BelowNone(values);
      BelowAll(values);
      if n == 0 {
        return 0;
      }
      var acc: nat := 0;
      for i := 0 to BUCKETS
        invariant acc == CountBelow(values, i) && acc < target
      {
        BelowGrows(values, i);
        acc := acc + counts[i];
        if acc >= target {
          BucketIsNear(values, target, i);
          BelowOrder(values, i + 1, BUCKETS);
          var u := UpperBound(i);
          return if u < max then u else max;
        }
      }
      return max;
    }

    /** Merging, a histogram into itself included, is recording the other's values too. */
    method Merge(o: LatencyHistogram)
      requires Valid() && o.Valid() && (o == this || o.counts != counts)
      modifies this, counts
      ensures Valid() && values == old(values) + old(o.values)
      ensures o != this ==> o.Valid() && o.values == old(o.values)
    {
      hide Index, CountAt;
      ghost var a, b := values, o.values;
      for i := 0 to BUCKETS
        invariant unchanged(this) && unchanged(o)
        invariant forall j :: 0 <= j < i ==> counts[j] == CountAt(a, j) + CountAt(b, j)
        invariant forall j :: i <= j < BUCKETS ==> counts[j] == CountAt(a, j)
        invariant o != this ==> forall j :: 0 <= j < BUCKETS ==> o.counts[j] == CountAt(b, j)
      {
        counts[i] := counts[i] + o.counts[i];
      }
      forall i | 0 <= i < BUCKETS ensures CountAt(a + b, i) == CountAt(a, i) + CountAt(b, i) {
        CountsAdd(a, b, i);
      }
      TotalsAdd(a, b);
      var on, os, omax, omin := o.n, o.sum, o.max, o.min;
      n := n + on;
      sum := sum + os;
      if omax > max {
        max := omax;
      }
      if omin < min {
        min := omin;
      }
      values := a + b;
    }
  }
}
