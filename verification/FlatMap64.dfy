/**
 Open-addressing hash map: linear probing, backward-shift deletion, growth by rehashing.
 Keys are 64-bit, the all-ones key marks an empty slot. The map is proved to be a plain
 map for every hash function.
 */
module FlatHash {
  import opened Options

  const EMPTY: nat := 0xFFFF_FFFF_FFFF_FFFF

  datatype Slot<V> = Slot(key: nat, value: V)

  // ---- cyclic positions in a table of n slots ----

  /** (i + 1) & mask */
  function Next(i: nat, n: nat): (r: nat)
    requires i < n
    ensures r < n
  {
    if i + 1 == n then 0 else i + 1
  }

  /** Steps from `a` forward to `b`. */
  function Dist(a: nat, b: nat, n: nat): (r: nat)
    requires a < n && b < n
    ensures r < n && (r == 0 <==> a == b)
  {
    if a <= b then b - a else b + n - a
  }

  /** `j` lies on the probe path from `a` to `b`, `b` excluded. */
  ghost predicate OnPath(a: nat, j: nat, b: nat, n: nat)
    requires a < n && j < n && b < n
  {
    Dist(a, j, n) < Dist(a, b, n)
  }

  // ---- representation; `ix` gives the ideal slot of a key ----

  ghost predicate InRange(ix: nat -> nat, n: nat) {
    forall k: nat :: ix(k) < n
  }

  ghost predicate Occupied<V>(s: seq<Slot<V>>, i: nat)
    requires i < |s|
  {
    s[i].key != EMPTY
  }

  /** Every slot from the key's ideal index up to its position is occupied. */
  ghost predicate Reachable<V>(s: seq<Slot<V>>, ix: nat -> nat, i: nat)
    requires i < |s| && InRange(ix, |s|)
  {
    forall j | 0 <= j < |s| && OnPath(ix(s[i].key), j, i, |s|) :: Occupied(s, j)
  }

  ghost predicate UniqueKeys<V>(s: seq<Slot<V>>) {
    forall i, j | 0 <= i < j < |s| && Occupied(s, i) && Occupied(s, j) :: s[i].key != s[j].key
  }

  ghost predicate AllReachable<V>(s: seq<Slot<V>>, ix: nat -> nat)
    requires InRange(ix, |s|)
  {
    forall i | 0 <= i < |s| && Occupied(s, i) :: Reachable(s, ix, i)
  }

  /** The slots hold exactly the entries of `m`. */
  ghost predicate Represents<V>(s: seq<Slot<V>>, m: map<nat, V>) {
    && EMPTY !in m
    && (forall i | 0 <= i < |s| && Occupied(s, i) :: s[i].key in m && m[s[i].key] == s[i].value)
    && (forall k | k in m :: exists i :: 0 <= i < |s| && s[i].key == k)
  }

  ghost predicate Table<V>(s: seq<Slot<V>>, ix: nat -> nat, m: map<nat, V>) {
    InRange(ix, |s|) && UniqueKeys(s) && AllReachable(s, ix) && Represents(s, m)
  }

  // ---- probing ----

  /** A probe that met only foreign keys and then an empty slot has proved absence. */
  lemma {:induction false} ProbeMiss<V>(s: seq<Slot<V>>, ix: nat -> nat, m: map<nat, V>, key: nat, e: nat)
    requires Table(s, ix, m) && e < |s| && !Occupied(s, e) && key != EMPTY
    requires forall j | 0 <= j < |s| && OnPath(ix(key), j, e, |s|) :: s[j].key != key
    ensures key !in m
  {
    forall i | 0 <= i < |s| ensures s[i].key != key {
      if Occupied(s, i) {
        assert Reachable(s, ix, i);
      }
    }
  }

  lemma {:induction false} ProbeEnd<V>(s: seq<Slot<V>>, ix: nat -> nat, m: map<nat, V>, key: nat, i: nat)
    requires Table(s, ix, m) && i < |s| && key != EMPTY && (s[i].key == key || !Occupied(s, i))
    requires ProbedTo(s, ix(key), i, key)
    ensures key in m ==> s[i].key == key && m[key] == s[i].value
    ensures key !in m ==> !Occupied(s, i)
  {
    if !Occupied(s, i) {
      ProbeMiss(s, ix, m, key, i);
    }
  }

  /** Filling the empty slot a probe for `key` ended at. */
  lemma {:induction false} PlaceInEmpty<V>(s: seq<Slot<V>>, ix: nat -> nat, m: map<nat, V>, key: nat, e: nat, v: V)
    requires Table(s, ix, m) && e < |s| && !Occupied(s, e) && key != EMPTY && key !in m
    requires forall j | 0 <= j < |s| && OnPath(ix(key), j, e, |s|) :: Occupied(s, j)
    ensures Table(s[e := Slot(key, v)], ix, m[key := v])
  {
    var s', m' := s[e := Slot(key, v)], m[key := v];
    forall i | 0 <= i < |s'| && Occupied(s', i) ensures Reachable(s', ix, i) {
      if i != e {
        assert Reachable(s, ix, i);
      }
    }
    forall k | k in m' ensures exists i :: 0 <= i < |s'| && s'[i].key == k {
      if k == key {
        assert s'[e].key == k;
      } else {
        var i :| 0 <= i < |s| && s[i].key == k;
        assert s'[i].key == k;
      }
    }
  }

  /** Overwriting a value in place. */
  lemma {:induction false} WriteValue<V>(s: seq<Slot<V>>, ix: nat -> nat, m: map<nat, V>, i: nat, v: V)
    requires Table(s, ix, m) && i < |s| && Occupied(s, i)
    ensures Table(s[i := Slot(s[i].key, v)], ix, m[s[i].key := v])
  {
    var s', m' := s[i := Slot(s[i].key, v)], m[s[i].key := v];
    forall j | 0 <= j < |s'| && Occupied(s', j) ensures Reachable(s', ix, j) {
      assert Reachable(s, ix, j);
    }
    forall k | k in m' ensures exists j :: 0 <= j < |s'| && s'[j].key == k {
      if k in m {
        var j :| 0 <= j < |s| && s[j].key == k;
        assert s'[j].key == k;
      }
    }
  }

  // ---- backward-shift deletion ----

  /**
   State of the deletion loop. Slot `hole` holds a stale entry that counts as free; the slots
   after it up to `j` have been looked at. Every other entry is reachable, except that its path
   may cross the hole if the entry lies beyond `j`.
   */
  ghost predicate Shifting<V>(s: seq<Slot<V>>, ix: nat -> nat, m: map<nat, V>, hole: nat, j: nat) {
    && hole < |s| && j < |s| && InRange(ix, |s|)
    && EntriesExcept(s, m, hole) && Passed(s, hole, j) && AllSettled(s, ix, hole, j)
  }

  /** The entries outside the hole are exactly those of `m`. */
  ghost predicate EntriesExcept<V>(s: seq<Slot<V>>, m: map<nat, V>, hole: nat) {
    && EMPTY !in m
    && (forall a, b | 0 <= a < b < |s| && a != hole && b != hole && Occupied(s, a) && Occupied(s, b) ::
          s[a].key != s[b].key)
    && (forall a | 0 <= a < |s| && a != hole && Occupied(s, a) :: s[a].key in m && m[s[a].key] == s[a].value)
    && (forall k | k in m :: exists a :: 0 <= a < |s| && a != hole && s[a].key == k)
  }

  ghost predicate Passed<V>(s: seq<Slot<V>>, hole: nat, j: nat)
    requires hole < |s| && j < |s|
  {
    forall a | 0 <= a < |s| && Dist(hole, a, |s|) <= Dist(hole, j, |s|) :: Occupied(s, a)
  }

  ghost predicate AllSettled<V>(s: seq<Slot<V>>, ix: nat -> nat, hole: nat, j: nat)
    requires hole < |s| && j < |s| && InRange(ix, |s|)
  {
    forall a | 0 <= a < |s| && a != hole && Occupied(s, a) :: Settled(s, ix, hole, j, a)
  }

  ghost predicate Settled<V>(s: seq<Slot<V>>, ix: nat -> nat, hole: nat, j: nat, a: nat)
    requires hole < |s| && j < |s| && a < |s| && InRange(ix, |s|)
  {
    && Reachable(s, ix, a)
    && (OnPath(ix(s[a].key), hole, a, |s|) ==> Dist(hole, j, |s|) < Dist(hole, a, |s|))
  }

  /** The test of the source, in terms of probe paths: the entry at `j` may move into the hole. */
  function Movable(ideal: nat, hole: nat, j: nat): bool {
    if hole <= j then ideal <= hole || ideal > j else ideal <= hole && ideal > j
  }

  lemma {:induction false} MovableIffHoleOnPath(ideal: nat, hole: nat, j: nat, n: nat)
    requires ideal < n && hole < n && j < n && hole != j
    ensures Movable(ideal, hole, j) <==> OnPath(ideal, hole, j, n)
  {
  }

  lemma {:induction false} StartShift<V>(s: seq<Slot<V>>, ix: nat -> nat, m: map<nat, V>, i: nat)
    requires Table(s, ix, m) && i < |s| && Occupied(s, i)
    ensures Shifting(s, ix, m - {s[i].key}, i, i)
  {
    var m' := m - {s[i].key};
    forall k | k in m' ensures exists a :: 0 <= a < |s| && a != i && s[a].key == k {
      var a :| 0 <= a < |s| && s[a].key == k;
      assert a != i;
    }
  }

  /** The next slot after `j` is not the hole as long as some slot is empty. */
  lemma {:induction false} ShiftBounded<V>(s: seq<Slot<V>>, ix: nat -> nat, m: map<nat, V>, hole: nat, j: nat, e: nat)
    requires Shifting(s, ix, m, hole, j) && e < |s| && !Occupied(s, e)
    ensures j != e && Next(j, |s|) != hole && Dist(Next(j, |s|), e, |s|) < Dist(j, e, |s|)
    ensures Dist(hole, Next(j, |s|), |s|) == Dist(hole, j, |s|) + 1
  {
    assert Dist(hole, e, |s|) > Dist(hole, j, |s|);
  }

  /** The entry after `j` stays: its own path does not cross the hole. */
  lemma {:induction false} ShiftSkip<V>(s: seq<Slot<V>>, ix: nat -> nat, m: map<nat, V>, hole: nat, j: nat, e: nat)
    requires Shifting(s, ix, m, hole, j) && e < |s| && !Occupied(s, e)
    requires Occupied(s, Next(j, |s|)) && !Movable(ix(s[Next(j, |s|)].key), hole, Next(j, |s|))
    ensures Shifting(s, ix, m, hole, Next(j, |s|))
  {
    var n, j' := |s|, Next(j, |s|);
    ShiftBounded(s, ix, m, hole, j, e);
    MovableIffHoleOnPath(ix(s[j'].key), hole, j', n);
    assert Passed(s, hole, j') by {
      forall a | 0 <= a < n && Dist(hole, a, n) <= Dist(hole, j', n) ensures Occupied(s, a) {
        assert a == j' || Dist(hole, a, n) <= Dist(hole, j, n);
      }
    }
    forall a | 0 <= a < n && a != hole && Occupied(s, a) ensures Settled(s, ix, hole, j', a) {
      assert Settled(s, ix, hole, j, a);
      assert a == j' || Dist(hole, a, n) != Dist(hole, j', n);
    }
  }

  lemma {:induction false} MoveEntries<V>(s: seq<Slot<V>>, m: map<nat, V>, hole: nat, j: nat)
    requires hole < |s| && j < |s| && hole != j && Occupied(s, hole) && Occupied(s, j)
    requires EntriesExcept(s, m, hole)
    ensures EntriesExcept(s[hole := s[j]], m, j)
  {
    var s' := s[hole := s[j]];
    forall k | k in m ensures exists a :: 0 <= a < |s'| && a != j && s'[a].key == k {
      var a :| 0 <= a < |s| && a != hole && s[a].key == k;
      assert s'[if a == j then hole else a].key == k;
    }
  }

  lemma {:induction false} MoveSettled<V>(s: seq<Slot<V>>, ix: nat -> nat, hole: nat, j: nat, j': nat)
    requires hole < |s| && j < |s| && j' < |s| && hole != j' && InRange(ix, |s|)
    requires Occupied(s, hole) && Occupied(s, j') && AllSettled(s, ix, hole, j)
    requires OnPath(ix(s[j'].key), hole, j', |s|)
    ensures AllSettled(s[hole := s[j']], ix, j', j')
  {
    var n, s' := |s|, s[hole := s[j']];
    forall a | 0 <= a < n && a != j' && Occupied(s', a) ensures Settled(s', ix, j', j', a) {
      assert Settled(s, ix, hole, j, if a == hole then j' else a);
      forall b | 0 <= b < n && OnPath(ix(s'[a].key), b, a, n) ensures Occupied(s', b) {
        assert a == hole ==> OnPath(ix(s[j'].key), b, j', n);
        assert Occupied(s, b);
      }
    }
  }

  /** The entry after `j` moves back into the hole and leaves the new hole behind. */
  lemma {:induction false} ShiftMove<V>(s: seq<Slot<V>>, ix: nat -> nat, m: map<nat, V>, hole: nat, j: nat, e: nat)
    requires Shifting(s, ix, m, hole, j) && e < |s| && !Occupied(s, e)
    requires Occupied(s, Next(j, |s|)) && Movable(ix(s[Next(j, |s|)].key), hole, Next(j, |s|))
    ensures Shifting(s[hole := s[Next(j, |s|)]], ix, m, Next(j, |s|), Next(j, |s|))
  {
    var j' := Next(j, |s|);
    ShiftBounded(s, ix, m, hole, j, e);
    MovableIffHoleOnPath(ix(s[j'].key), hole, j', |s|);
    assert Occupied(s, hole);
    MoveEntries(s, m, hole, j');
    MoveSettled(s, ix, hole, j, j');
  }

  /** Beyond the last examined slot an empty one follows, so no path crosses the hole. */
  lemma {:induction false} NothingCrosses<V>(s: seq<Slot<V>>, ix: nat -> nat, hole: nat, j: nat, a: nat)
    requires hole < |s| && j < |s| && a < |s| && InRange(ix, |s|)
    requires !Occupied(s, Next(j, |s|)) && Occupied(s, a) && Passed(s, hole, j) && Settled(s, ix, hole, j, a)
    ensures !OnPath(ix(s[a].key), hole, a, |s|)
  {
    var n, j', p := |s|, Next(j, |s|), ix(s[a].key);
    assert !OnPath(p, j', a, n);
    assert Dist(hole, j, n) < Dist(hole, j', n);
  }

  /** At the end of the cluster no path crosses the hole any more, so it can be emptied. */
  lemma {:induction false} ShiftDone<V>(s: seq<Slot<V>>, ix: nat -> nat, m: map<nat, V>, hole: nat, j: nat, v: V)
    requires Shifting(s, ix, m, hole, j) && !Occupied(s, Next(j, |s|))
    ensures Table(s[hole := Slot(EMPTY, v)], ix, m)
  {
    var n, s' := |s|, s[hole := Slot(EMPTY, v)];
    forall a | 0 <= a < n && Occupied(s', a) ensures Reachable(s', ix, a) {
      hide EntriesExcept;
      assert Settled(s, ix, hole, j, a);
      NothingCrosses(s, ix, hole, j, a);
    }
    assert UniqueKeys(s') && Represents(s', m) by {
      hide AllSettled;
      forall k | k in m ensures exists a :: 0 <= a < n && s'[a].key == k {
        var a :| 0 <= a < n && a != hole && s[a].key == k;
        assert s'[a].key == k;
      }
    }
  }

  // ---- counting ----

  ghost function KeySet<V>(s: seq<Slot<V>>): set<nat> {
    set i | 0 <= i < |s| :: s[i].key
  }

  lemma {:induction false} FullTable<V>(s: seq<Slot<V>>)
    requires UniqueKeys(s) && forall i | 0 <= i < |s| :: Occupied(s, i)
    ensures |KeySet(s)| == |s|
  {
    if s != [] {
      var n := |s| - 1;
      var t := s[..n];
      forall i | 0 <= i < n ensures Occupied(t, i) && t[i] == s[i] {
        assert Occupied(s, i);
      }
      FullTable(t);
      assert KeySet(s) == KeySet(t) + {s[n].key};
      assert Occupied(s, n);
    }
  }

  lemma {:induction false} SubsetSize(a: set<nat>, b: set<nat>)
    requires a <= b
    ensures |a| <= |b|
  {
    assert |b| == |a| + |b - a| by { assert b == a + (b - a); }
  }

  /** A map smaller than the table leaves an empty slot, so every probe ends. */
  lemma {:induction false} EmptySlotExists<V>(s: seq<Slot<V>>, m: map<nat, V>)
    requires UniqueKeys(s) && Represents(s, m) && |m| < |s|
    ensures exists e :: 0 <= e < |s| && !Occupied(s, e)
  {
    if forall i | 0 <= i < |s| :: Occupied(s, i) {
      FullTable(s);
      forall k | k in KeySet(s) ensures k in m.Keys {
        var i :| 0 <= i < |s| && s[i].key == k;
        assert Occupied(s, i);
      }
      SubsetSize(KeySet(s), m.Keys);
      assert false;
    }
  }

  lemma {:induction false} SameSlotsSameMap<V>(s: seq<Slot<V>>, m: map<nat, V>, m': map<nat, V>)
    requires Represents(s, m) && Represents(s, m')
    ensures m == m'
  {
    forall k ensures k in m <==> k in m' {
      if k in m {
        var i :| 0 <= i < |s| && s[i].key == k;
        assert Occupied(s, i);
      }
      if k in m' {
        var i :| 0 <= i < |s| && s[i].key == k;
        assert Occupied(s, i);
      }
    }
    forall k | k in m ensures m[k] == m'[k] {
      var i :| 0 <= i < |s| && s[i].key == k;
      assert Occupied(s, i);
    }
  }

  // ---- table sizes ----

  predicate PowerOf2(p: nat) {
    p == 1 || (p > 1 && p % 2 == 0 && PowerOf2(p / 2))
  }

  /** The smallest power of two that is at least `n`. */
  method NextPow2(n: nat) returns (p: nat)
    ensures PowerOf2(p) && n <= p
    ensures forall q: nat :: PowerOf2(q) && n <= q ==> p <= q
  {
    p := 1;
    while p < n
      invariant PowerOf2(p) && forall q: nat :: PowerOf2(q) && n <= q ==> p <= q
      decreases n - p
    {
      forall q: nat | PowerOf2(q) && n <= q ensures 2 * p <= q {
        PowersApart(p, q);
      }
      Doubled(p);
      p := 2 * p;
    }
  }

  lemma {:induction false} Doubled(p: nat)
    requires PowerOf2(p)
    ensures PowerOf2(2 * p)
  {
    assert 2 * p / 2 == p;
  }

  /** Of two powers of two the larger is at least twice the smaller. */
  lemma {:induction false} PowersApart(p: nat, q: nat)
    requires PowerOf2(p) && PowerOf2(q) && p < q
    ensures 2 * p <= q
    decreases q
  {
    if p > 1 {
      PowersApart(p / 2, q / 2);
    }
  }

  /** `place(key, n)` is `mix64(key) & (n - 1)`; only its range matters. */
  ghost predicate Places(place: (nat, nat) -> nat) {
    forall k: nat, n: nat :: n > 0 ==> place(k, n) < n
  }

  function Indexer(place: (nat, nat) -> nat, n: nat): (ix: nat -> nat)
    requires 0 < n && Places(place)
    ensures InRange(ix, n)
  {
    (key: nat) => place(key, n)
  }

  /** What growth needs of the limit function `capacity -> capacity * max_load`, rounded down. */
  ghost predicate RoomyAt(limit: nat -> nat, cap: nat) {
    limit(cap) < cap && limit(cap) + 1 <= limit(2 * cap)
  }

  ghost predicate Roomy(limit: nat -> nat) {
    forall cap: nat :: cap >= 8 ==> RoomyAt(limit, cap)
  }

  /** A larger table takes at least one entry more. */
  lemma {:induction false} LimitGrows(limit: nat -> nat, a: nat, b: nat)
    requires Roomy(limit) && PowerOf2(a) && PowerOf2(b) && 8 <= a < b
    ensures limit(a) + 1 <= limit(b)
    decreases b
  {
    PowersApart(a, b);
    assert RoomyAt(limit, b / 2);
    if a < b / 2 {
      LimitGrows(limit, a, b / 2);
    }
  }

  /** With room for `n / load + 1` slots, rounded down, `n` entries fit without growing. */
  lemma {:induction false} ReserveSuffices(num: nat, den: nat, n: nat, cap: nat)
    requires 0 < num && 0 < den && cap >= n * den / num + 1
    ensures cap * num / den >= n
  {
    var q := n * den / num;
    assert n * den < (q + 1) * num;
    MulLe(q + 1, cap, num);
    QuotientAtLeast(cap * num, n, den);
  }

  /** Every load factor num / den of at least one half and below one will do. */
  lemma {:induction false} LoadFactorIsRoomy(num: nat, den: nat)
    requires 0 < den <= 2 * num && num < den
    ensures Roomy((cap: nat) => cap * num / den)
  {
    var limit := (cap: nat) => cap * num / den;
    forall cap: nat | cap >= 8 ensures RoomyAt(limit, cap) {
      LimitBounds(cap, num, den);
      assert (2 * cap) * num == 2 * (cap * num);
    }
  }

  lemma {:induction false} MulLe(a: nat, b: nat, d: nat)
    ensures a <= b ==> a * d <= b * d
  {
  }

  lemma {:induction false} QuotientAtLeast(x: nat, h: nat, den: nat)
    requires 0 < den && h * den <= x
    ensures h <= x / den
  {
    var q := x / den;
    assert x < (q + 1) * den;
    MulLe(q + 1, h, den);
  }

  lemma {:induction false} QuotientBelow(x: nat, h: nat, den: nat)
    requires 0 < den && x < h * den
    ensures x / den < h
  {
    var q := x / den;
    assert q * den <= x;
    MulLe(h, q, den);
  }

  lemma {:induction false} QuotientOfDouble(x: nat, den: nat)
    requires 0 < den <= x
    ensures x / den + 1 <= 2 * x / den
  {
    var q := x / den;
    QuotientAtLeast(x, 1, den);
    assert q * den <= x;
    assert (2 * q) * den == 2 * (q * den);
    QuotientAtLeast(2 * x, 2 * q, den);
  }

  lemma {:induction false} LimitBounds(cap: nat, num: nat, den: nat)
    requires 0 < den <= 2 * num && num < den && cap >= 8
    ensures cap * num / den < cap
    ensures cap * num / den + 1 <= 2 * (cap * num) / den
  {
    var x := cap * num;
    assert x < cap * den;
    QuotientBelow(x, cap, den);
    assert x >= 8 * num >= den by { MulLe(8, cap, num); }
    QuotientOfDouble(x, den);
  }

  /** One more step of a probe that has met only occupied slots; `e` is some empty slot. */
  lemma {:induction false} ProbeStep<V>(s: seq<Slot<V>>, start: nat, i: nat, e: nat)
    requires start < |s| && i < |s| && e < |s| && Occupied(s, i) && !Occupied(s, e)
    requires Dist(start, i, |s|) + Dist(i, e, |s|) == Dist(start, e, |s|)
    ensures i != e && Dist(Next(i, |s|), e, |s|) == Dist(i, e, |s|) - 1
    ensures Dist(start, Next(i, |s|), |s|) == Dist(start, i, |s|) + 1
    ensures forall j | 0 <= j < |s| :: OnPath(start, j, Next(i, |s|), |s|) <==> OnPath(start, j, i, |s|) || j == i
  {
  }

  /** The slots met so far on a probe from `start`: all occupied, none holding `key`. */
  ghost predicate ProbedTo<V>(s: seq<Slot<V>>, start: nat, i: nat, key: nat)
    requires start < |s| && i < |s|
  {
    forall j | 0 <= j < |s| && OnPath(start, j, i, |s|) :: Occupied(s, j) && s[j].key != key
  }

  // ---- the reference: a mathematical map ----

  datatype Op<V> = Get(key: nat) | Put(key: nat, value: V) | Emplace(key: nat) | Remove(key: nat)

  datatype Answer<V> = Found(value: Option<V>) | Changed(flag: bool)

  function After<V>(m: map<nat, V>, op: Op<V>, default: V): map<nat, V> {
    match op
    case Get(_) => m
    case Put(k, v) => m[k := v]
    case Emplace(k) => if k in m then m else m[k := default]
    case Remove(k) => m - {k}
  }

  function Says<V>(m: map<nat, V>, op: Op<V>): Answer<V> {
    match op
    case Get(k) => Found(if k in m then Some(m[k]) else None)
    case Put(_, v) => Found(Some(v))
    case Emplace(k) => Changed(k !in m)
    case Remove(k) => Changed(k in m)
  }

  /** The map and the answers after a whole run. */
  function RunMap<V>(m: map<nat, V>, ops: seq<Op<V>>, default: V): map<nat, V>
    decreases |ops|
  {
    if ops == [] then m else RunMap(After(m, ops[0], default), ops[1..], default)
  }

  function RunAnswers<V>(m: map<nat, V>, ops: seq<Op<V>>, default: V): seq<Answer<V>>
    decreases |ops|
  {
    if ops == [] then [] else [Says(m, ops[0])] + RunAnswers(After(m, ops[0], default), ops[1..], default)
  }

  class FlatMap64<V> {
    var slots: array<Slot<V>>
    var size: nat
    var growAt: nat
    const place: (nat, nat) -> nat
    const limit: nat -> nat
    const default: V

    ghost var table: seq<Slot<V>>      // the slots as a value
    ghost var contents: map<nat, V>    // the map they stand for

    ghost predicate Valid()
      reads this, slots
    {
      && slots[..] == table
      && Sized(|table|, growAt, size, |contents|, limit)
      && Places(place) && |table| > 0 && Table(table, Indexer(place, |table|), contents)
    }

    function Index(key: nat): (i: nat)
      requires slots.Length > 0 && Places(place)
      reads this
      ensures i < slots.Length
    {
      Indexer(place, slots.Length)(key)
    }

    /** An empty slot, the end of every probe. */
    lemma SomeEmpty() returns (e: nat)
      requires Valid()
      ensures e < |table| && !Occupied(table, e)
    {
      assert RoomyAt(limit, |table|);
      EmptySlotExists(table, contents);
      e :| 0 <= e < |table| && !Occupied(table, e);
    }

    constructor (capacity: nat, place: (nat, nat) -> nat, limit: nat -> nat, default: V)
      requires Places(place) && Roomy(limit)
      ensures Valid() && contents == map[] && fresh(slots) && |table| >= capacity
      ensures this.place == place && this.limit == limit && this.default == default
    {
      var cap := NextPow2(if capacity < 8 then 8 else capacity);
      assert RoomyAt(limit, cap);
      this.place, this.limit, this.default := place, limit, default;
      slots := new Slot<V>[cap](i => Slot(EMPTY, default));
      table := seq(cap, i => Slot(EMPTY, default));
      size, growAt, contents := 0, limit(cap), map[];
    }

    /** The probe shared by all operations: the key's slot, or the empty slot that ends its path. */
    method Probe(key: nat) returns (i: nat)
      requires Valid() && key != EMPTY
      ensures i < |table|
      ensures key in contents ==> table[i].key == key && table[i].value == contents[key]
      ensures key !in contents ==> !Occupied(table, i)
      ensures key !in contents ==> ProbedTo(table, Indexer(place, |table|)(key), i, key)
    {
      ghost var e := SomeEmpty();
      i := Index(key);
      ghost var start := i;
      while slots[i].key != key && slots[i].key != EMPTY
        invariant i < |table| && Dist(start, i, |table|) + Dist(i, e, |table|) == Dist(start, e, |table|)
        invariant ProbedTo(table, start, i, key)
        decreases Dist(i, e, |table|)
      {
        assert table[i] == slots[i];
        ProbeStep(table, start, i, e);
        i := Next(i, slots.Length);
      }
      ProbeEnd(table, Indexer(place, |table|), contents, key, i);
    }

    /** The position of a key, where its value lives. Key EMPTY is reserved. */
    method Find(key: nat) returns (r: Option<nat>)
      requires Valid() && key != EMPTY
      ensures r.Some? <==> key in contents
      ensures r.Some? ==> r.value < slots.Length && slots[r.value] == Slot(key, contents[key])
    {
      var i := Probe(key);
      r := if slots[i].key == key then Some(i) else None;
    }

    /** Moves to a larger table, re-inserting every entry. */
    method Rehash(newCap: nat)
      requires Valid() && PowerOf2(newCap) && newCap > slots.Length
      modifies this
      ensures Valid() && contents == old(contents) && size == old(size)
      ensures fresh(slots) && |table| == newCap
    {
      hide Table;
      assert RoomyAt(limit, |table|) && RoomyAt(limit, newCap);
      LimitGrows(limit, |table|, newCap);
      var d := default;
      var a := new Slot<V>[newCap](i => Slot(EMPTY, d));
      var n := CopyEntries(slots, a, place, contents);
      slots, growAt, size, table := a, limit(newCap), n, a[..];
    }

    /** Makes room for `want` slots, unless there is. */
    method Reserve(want: nat)
      requires Valid()
      modifies this
      ensures Valid() && contents == old(contents) && size == old(size) && (slots == old(slots) || fresh(slots))
      ensures |table| >= want && |table| >= old(|table|)
    {
      hide Table;
      var cap := NextPow2(want);
      if cap > slots.Length {
        Rehash(cap);
      }
    }

    /** Doubles the table when one more entry would not fit. */
    method MakeRoom()
      requires Valid()
      modifies this
      ensures Valid() && contents == old(contents) && size == old(size) && size + 1 <= growAt
      ensures if size + 1 > old(growAt) then fresh(slots) else slots == old(slots)
      ensures |table| == if old(size) + 1 > old(growAt) then 2 * old(|table|) else old(|table|)
    {
      hide Table;
      assert RoomyAt(limit, |table|);
      if size + 1 > growAt {
        Doubled(|table|);
        Rehash(slots.Length * 2);
      }
    }

    /**
     Inserts a default value unless the key is present; `i` is where its value lives. The table doubles first
     when one more entry would not fit, even if none is added.
     */
    method TryEmplace(key: nat) returns (i: nat, inserted: bool)
      requires Valid() && key != EMPTY
      modifies this, slots
      ensures Valid() && (slots == old(slots) || fresh(slots))
      ensures inserted <==> key !in old(contents)
      ensures contents == if inserted then old(contents)[key := default] else old(contents)
      ensures i < |table| && table[i] == Slot(key, contents[key])
      ensures |table| == if old(size) + 1 > old(growAt) then 2 * old(|table|) else old(|table|)
    {
      hide Table, PowerOf2;
      MakeRoom();
      i := Probe(key);
      inserted := slots[i].key == EMPTY;
      if inserted {
        PlaceInEmpty(table, Indexer(place, |table|), contents, key, i, default);
        slots[i] := Slot(key, default);
        size, contents, table := size + 1, contents[key := default], table[i := Slot(key, default)];
      }
    }

    method InsertOrAssign(key: nat, v: V) returns (i: nat)
      requires Valid() && key != EMPTY
      modifies this, slots
      ensures Valid() && (slots == old(slots) || fresh(slots))
      ensures contents == old(contents)[key := v]
      ensures i < |table| && table[i] == Slot(key, v)
    {
      hide Table;
      var inserted;
      i, inserted := TryEmplace(key);
      WriteValue(table, Indexer(place, |table|), contents, i, v);
      slots[i] := Slot(key, v);
      contents, table := contents[key := v], table[i := Slot(key, v)];
    }

    /** Removes a key and closes the gap by pulling later entries of the cluster back. */
    method Erase(key: nat) returns (found: bool)
      requires Valid() && key != EMPTY
      modifies this, slots
      ensures Valid() && slots == old(slots)
      ensures found <==> key in old(contents)
      ensures contents == old(contents) - {key}
    {
      hide Table;
      var i := Probe(key);
      found := slots[i].key != EMPTY;
      if found {
        StartShift(table, Indexer(place, |table|), contents, i);
        ghost var e := SomeEmpty();
        CloseGap(slots, place, i, contents - {key}, e);
        size, contents, table := size - 1, contents - {key}, slots[..];
      }
    }

    method Clear()
      requires Valid()
      modifies this, slots
      ensures Valid() && slots == old(slots) && contents == map[]
    {
      for i := 0 to slots.Length
        invariant forall k :: 0 <= k < i ==> slots[k].key == EMPTY
        modifies slots
      {
        slots[i] := Slot(EMPTY, slots[i].value);
      }
      size, contents, table := 0, map[], slots[..];
    }

    /** One operation, answering as the mathematical map does. */
    method Step(op: Op<V>) returns (r: Answer<V>)
      requires Valid() && op.key != EMPTY
      modifies this, slots
      ensures Valid() && (slots == old(slots) || fresh(slots))
      ensures contents == After(old(contents), op, default) && r == Says(old(contents), op)
    {
      hide Table;
      match op {
        case Get(k) =>
          var p := Find(k);
          r := Found(if p.Some? then Some(slots[p.value].value) else None);
        case Put(k, v) =>
          var p := InsertOrAssign(k, v);
          r := Found(Some(slots[p].value));
        case Emplace(k) =>
          var i, inserted := TryEmplace(k);
          r := Changed(inserted);
        case Remove(k) =>
          var found := Erase(k);
          r := Changed(found);
      }
    }

    /** Any run of operations gives the answers of the mathematical map. */
    method Run(ops: seq<Op<V>>) returns (answers: seq<Answer<V>>)
      requires Valid() && forall i :: 0 <= i < |ops| ==> ops[i].key != EMPTY
      modifies this, slots
      ensures Valid() && contents == RunMap(old(contents), ops, default)
      ensures answers == RunAnswers(old(contents), ops, default)
    {
      hide Table;
      answers := [];
      assert ops[0..] == ops;
      for i := 0 to |ops|
        invariant Valid() && (slots == old(slots) || fresh(slots))
        invariant RunMap(contents, ops[i..], default) == RunMap(old(contents), ops, default)
        invariant answers + RunAnswers(contents, ops[i..], default) == RunAnswers(old(contents), ops, default)
      {
        ghost var m := contents;
        assert ops[i..][0] == ops[i] && ops[i..][1..] == ops[i + 1..];
        var r := Step(ops[i]);
        answers := answers + [r];
      }
    }

    /** The entries in slot order, each exactly once. */
    method ForEach() returns (items: seq<(nat, V)>)
      requires Valid()
      ensures |items| == |contents|
      ensures forall a, b :: 0 <= a < b < |items| ==> items[a].0 != items[b].0
      ensures forall a :: 0 <= a < |items| ==> items[a].0 in contents && items[a].1 == contents[items[a].0]
    {
      items := [];
      ghost var m: map<nat, V> := map[];
      assert table[..0] == [];
      for i := 0 to slots.Length
        invariant Represents(table[..i], m) && m.Keys <= contents.Keys && Lists(items, m)
      {
        assert table[i] == slots[i];
        ExtendCopy(table, i, m, contents);
        if slots[i].key != EMPTY {
          ListsAppend(items, m, slots[i].key, slots[i].value);
          items := items + [(slots[i].key, slots[i].value)];
          m := m[slots[i].key := slots[i].value];
        }
      }
      assert table[..|table|] == table;
      SameSlotsSameMap(table, m, contents);
    }
  }

  ghost predicate Sized(cap: nat, growAt: nat, size: nat, n: nat, limit: nat -> nat) {
    Roomy(limit) && cap >= 8 && PowerOf2(cap) && growAt == limit(cap) && size == n <= growAt
  }

  /** A list of entries that is exactly `m`. */
  ghost predicate Lists<V>(items: seq<(nat, V)>, m: map<nat, V>) {
    && |items| == |m|
    && (forall a, b :: 0 <= a < b < |items| ==> items[a].0 != items[b].0)
    && (forall a :: 0 <= a < |items| ==> items[a].0 in m && items[a].1 == m[items[a].0])
  }

  lemma {:induction false} ListsAppend<V>(items: seq<(nat, V)>, m: map<nat, V>, k: nat, v: V)
    requires Lists(items, m) && k !in m
    ensures Lists(items + [(k, v)], m[k := v])
  {
  }

  lemma {:induction false} RepresentsSnoc<V>(t: seq<Slot<V>>, m: map<nat, V>, x: Slot<V>)
    requires Represents(t, m) && x.key !in m
    ensures Represents(t + [x], if x.key == EMPTY then m else m[x.key := x.value])
  {
    var t' := t + [x];
    var m' := if x.key == EMPTY then m else m[x.key := x.value];
    forall i | 0 <= i < |t'| && Occupied(t', i) ensures t'[i].key in m' && m'[t'[i].key] == t'[i].value {
      if i < |t| {
        assert Occupied(t, i);
      }
    }
    forall q | q in m' ensures exists i :: 0 <= i < |t'| && t'[i].key == q {
      if q in m {
        var i :| 0 <= i < |t| && t[i].key == q;
        assert t'[i].key == q;
      } else {
        assert t'[|t|].key == q;
      }
    }
  }

  /** Copying slot by slot: the next key is new, and taking it keeps the copy exact. */
  lemma {:induction false} ExtendCopy<V>(s: seq<Slot<V>>, k: nat, m: map<nat, V>, all: map<nat, V>)
    requires k < |s| && UniqueKeys(s) && Represents(s, all) && Represents(s[..k], m) && m.Keys <= all.Keys
    ensures s[k].key !in m && (Occupied(s, k) ==> s[k].key in all)
    ensures Represents(s[..k + 1], if s[k].key == EMPTY then m else m[s[k].key := s[k].value])
  {
    forall i | 0 <= i < k ensures s[..k][i].key != s[k].key || !Occupied(s, k) {
      assert s[..k][i] == s[i];
      assert Occupied(s, i) && Occupied(s, k) ==> s[i].key != s[k].key;
    }
    RepresentsSnoc(s[..k], m, s[k]);
    assert s[..k + 1] == s[..k] + [s[k]];
  }

  /** Re-inserts every entry of `old_` into the empty table `a`. */
  method CopyEntries<V>(old_: array<Slot<V>>, a: array<Slot<V>>, place: (nat, nat) -> nat, ghost all: map<nat, V>)
    returns (n: nat)
    requires Places(place) && a.Length > old_.Length > |all| && old_ != a
    requires old_.Length > 0 && Table(old_[..], Indexer(place, old_.Length), all)
    requires forall i :: 0 <= i < a.Length ==> a[i].key == EMPTY
    modifies a
    ensures Table(a[..], Indexer(place, a.Length), all) && n == |all|
  {
    ghost var o, ix := old_[..], Indexer(place, a.Length);
    ghost var m: map<nat, V> := map[];
    n := 0;
    for k := 0 to old_.Length
      invariant old_[..] == o
      invariant Represents(o[..k], m) && m.Keys <= all.Keys && n == |m|
      invariant Table(a[..], ix, m)
    {
      var s := old_[k];
      assert s == o[k];
      ExtendCopy(o, k, m, all);
      if s.key != EMPTY {
        SubsetSize(m.Keys, all.Keys);
        EmptySlotExists(a[..], m);
        var i := FreeSlot(a, Indexer(place, a.Length)(s.key));
        ghost var before := a[..];
        PlaceInEmpty(before, ix, m, s.key, i, s.value);
        a[i] := s;
        assert a[..] == before[i := s];
        m := m[s.key := s.value];
        n := n + 1;
      }
    }
    assert o[..|o|] == o;
    SameSlotsSameMap(o, m, all);
  }

  /** Frees slot `i`, pulling back every later entry of the cluster whose ideal slot allows it. */
  method CloseGap<V>(a: array<Slot<V>>, place: (nat, nat) -> nat, i: nat, ghost m: map<nat, V>, ghost e: nat)
    requires a.Length > 0 && Places(place)
    requires Shifting(a[..], Indexer(place, a.Length), m, i, i)
    requires e < a.Length && !Occupied(a[..], e)
    modifies a
    ensures Table(a[..], Indexer(place, a.Length), m)
  {
    ghost var ix := Indexer(place, a.Length);
    var hole: nat, j: nat := i, i;
    while a[Next(j, a.Length)].key != EMPTY
      invariant hole < a.Length && j < a.Length
      invariant Shifting(a[..], ix, m, hole, j) && !Occupied(a[..], e)
      decreases Dist(j, e, a.Length)
    {
      ghost var s, j0 := a[..], j;
      ShiftBounded(s, ix, m, hole, j, e);
      j := Next(j, a.Length);
      assert s[j] == a[j];
      var ideal := Indexer(place, a.Length)(a[j].key);
      if Movable(ideal, hole, j) {
        ShiftMove(s, ix, m, hole, j0, e);
        a[hole] := a[j];
        assert a[..] == s[hole := s[j]];
        hole := j;
      } else {
        ShiftSkip(s, ix, m, hole, j0, e);
      }
    }
    ghost var s := a[..];
    ShiftDone(s, ix, m, hole, j, s[hole].value);
    a[hole] := Slot(EMPTY, a[hole].value);
    assert a[..] == s[hole := Slot(EMPTY, s[hole].value)];
  }

  /** The first free slot on the probe path, as insertion into a fresh table looks for it. */
  method FreeSlot<V>(a: array<Slot<V>>, start: nat) returns (i: nat)
    requires start < a.Length && exists e :: 0 <= e < a.Length && !Occupied(a[..], e)
    ensures i < a.Length && !Occupied(a[..], i)
    ensures forall j | 0 <= j < a.Length && OnPath(start, j, i, a.Length) :: Occupied(a[..], j)
  {
    ghost var s := a[..];
    ghost var e: nat :| e < a.Length && !Occupied(s, e);
    i := start;
    while a[i].key != EMPTY
      invariant i < a.Length
      invariant Dist(start, i, |s|) + Dist(i, e, |s|) == Dist(start, e, |s|)
      invariant forall j | 0 <= j < |s| && OnPath(start, j, i, |s|) :: Occupied(s, j)
      decreases Dist(i, e, |s|)
    {
      assert s[i] == a[i];
      ProbeStep(s, start, i, e);
      i := Next(i, a.Length);
    }
  }
}
