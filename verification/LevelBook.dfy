/**
 A ladder of prices, bids or asks: levels kept worst to best, one per price, found by
 binary search.
 */
module LevelBooks {

  datatype Level = Level(price: nat, qty: nat)

  /** `p` is a worse price than `q`: lower for a bid, higher for an ask. */
  predicate Worse(bid: bool, p: nat, q: nat) {
    if bid then p < q else p > q
  }

  ghost predicate Sorted(lv: seq<Level>, bid: bool) {
    forall i, j | 0 <= i < j < |lv| :: Worse(bid, lv[i].price, lv[j].price)
  }

  ghost predicate Positive(lv: seq<Level>) {
    forall i | 0 <= i < |lv| :: lv[i].qty > 0
  }

  ghost predicate IsLadder(lv: seq<Level>, bid: bool) {
    Sorted(lv, bid) && Positive(lv)
  }

  /** The quantity a ladder shows at a price, 0 where it has no level. */
  ghost function QtyAt(lv: seq<Level>, p: nat): nat {
    if exists i :: 0 <= i < |lv| && lv[i].price == p
    then var i :| 0 <= i < |lv| && lv[i].price == p; lv[i].qty
    else 0
  }

  lemma {:induction false} QtyAtLevel(lv: seq<Level>, bid: bool, i: nat)
    requires Sorted(lv, bid) && i < |lv|
    ensures QtyAt(lv, lv[i].price) == lv[i].qty
  {
    var j :| 0 <= j < |lv| && lv[j].price == lv[i].price && QtyAt(lv, lv[i].price) == lv[j].qty;
  }

  /** The best price of a set of quantities, and what a ladder publishes: 0 when there is none. */
  function BestPrice(lv: seq<Level>): nat {
    if lv == [] then 0 else lv[|lv| - 1].price
  }

  function BestQty(lv: seq<Level>): nat {
    if lv == [] then 0 else lv[|lv| - 1].qty
  }

  /** The touch really is the best price with anything on it. */
  lemma {:induction false} TouchIsBest(lv: seq<Level>, bid: bool)
    requires IsLadder(lv, bid)
    ensures lv == [] <==> forall p :: QtyAt(lv, p) == 0
    ensures BestQty(lv) == if lv == [] then 0 else QtyAt(lv, BestPrice(lv))
    ensures forall p: nat :: QtyAt(lv, p) > 0 ==> if bid then p <= BestPrice(lv) else BestPrice(lv) <= p
  {
    if lv != [] {
      QtyAtLevel(lv, bid, |lv| - 1);
    }
  }

  /** A ladder is determined by its quantities: there is one canonical form. */
  lemma {:induction false} LadderIsCanonical(a: seq<Level>, b: seq<Level>, bid: bool)
    requires IsLadder(a, bid) && IsLadder(b, bid)
    requires forall p :: QtyAt(a, p) == QtyAt(b, p)
    ensures a == b
  {
    TouchIsBest(a, bid);
    TouchIsBest(b, bid);
    if a != [] && b != [] {
      var a', b' := a[..|a| - 1], b[..|b| - 1];
      var t := BestPrice(a);
      assert QtyAt(a, t) > 0 && QtyAt(b, BestPrice(b)) > 0;
      forall p ensures QtyAt(a', p) == QtyAt(b', p) {
        DropTouch(a, bid, p);
        DropTouch(b, bid, p);
      }
      LadderIsCanonical(a', b', bid);
      assert a == a' + [Level(t, BestQty(a))] && b == b' + [Level(t, BestQty(b))];
    }
  }

  lemma {:induction false} DropTouch(lv: seq<Level>, bid: bool, p: nat)
    requires IsLadder(lv, bid) && lv != []
    ensures IsLadder(lv[..|lv| - 1], bid)
    ensures QtyAt(lv[..|lv| - 1], p) == if p == BestPrice(lv) then 0 else QtyAt(lv, p)
  {
    var lv' := lv[..|lv| - 1];
    SameLevels(lv, lv', bid, p, BestPrice(lv));
  }

  /** Two ladders with the same levels away from `t`, the second without a level at `t`. */
  lemma {:induction false} SameLevels(lv: seq<Level>, lv': seq<Level>, bid: bool, p: nat, t: nat)
    requires Sorted(lv, bid) && Sorted(lv', bid)
    requires forall i | 0 <= i < |lv| && lv[i].price != t :: lv[i] in lv'
    requires forall i | 0 <= i < |lv'| :: lv'[i].price != t ==> lv'[i] in lv
    ensures p != t ==> QtyAt(lv', p) == QtyAt(lv, p)
    ensures (forall i | 0 <= i < |lv'| :: lv'[i].price != t) ==> QtyAt(lv', t) == 0
  {
    if p != t {
      if i :| 0 <= i < |lv| && lv[i].price == p {
        QtyAtLevel(lv, bid, i);
        var j :| 0 <= j < |lv'| && lv'[j] == lv[i];
        QtyAtLevel(lv', bid, j);
      } else if j :| 0 <= j < |lv'| && lv'[j].price == p {
        assert lv'[j] in lv;
      }
    }
  }

  // ---- the four ways a ladder changes ----

  ghost predicate IsPosition(lv: seq<Level>, bid: bool, price: nat, i: nat) {
    && i <= |lv|
    && (forall k | 0 <= k < i :: Worse(bid, lv[k].price, price))
    && (forall k | i <= k < |lv| :: !Worse(bid, lv[k].price, price))
  }

  /** What a ladder shows after the quantity at `t` became `q`. */
  ghost predicate Shows(lv': seq<Level>, lv: seq<Level>, t: nat, q: nat) {
    QtyAt(lv', t) == q && forall p | p != t :: QtyAt(lv', p) == QtyAt(lv, p)
  }

  lemma {:induction false} NoLevel(lv: seq<Level>, bid: bool, price: nat, i: nat)
    requires Sorted(lv, bid) && IsPosition(lv, bid, price, i) && (i == |lv| || lv[i].price != price)
    ensures QtyAt(lv, price) == 0
  {
    if i < |lv| {
      assert forall k | i < k < |lv| :: Worse(bid, lv[i].price, lv[k].price);
    }
  }

  lemma {:induction false} SetLevel(lv: seq<Level>, bid: bool, i: nat, q: nat)
    requires IsLadder(lv, bid) && i < |lv| && q > 0
    ensures IsLadder(lv[i := Level(lv[i].price, q)], bid)
    ensures Shows(lv[i := Level(lv[i].price, q)], lv, lv[i].price, q)
  {
    var t, lv' := lv[i].price, lv[i := Level(lv[i].price, q)];
    QtyAtLevel(lv', bid, i);
    forall k | 0 <= k < |lv| && lv[k].price != t ensures lv[k] in lv' { assert lv'[k] == lv[k]; }
    forall p | p != t ensures QtyAt(lv', p) == QtyAt(lv, p) {
      SameLevels(lv, lv', bid, p, t);
    }
  }

  /** All prices from a position on are strictly better than one that has no level. */
  lemma {:induction false} BetterBehind(lv: seq<Level>, bid: bool, price: nat, i: nat)
    requires Sorted(lv, bid) && IsPosition(lv, bid, price, i) && (i == |lv| || lv[i].price != price)
    ensures forall k | i <= k < |lv| :: lv[k].price != price && Worse(bid, price, lv[k].price)
  {
    if i < |lv| {
      assert forall k | i < k < |lv| :: Worse(bid, lv[i].price, lv[k].price);
    }
  }

  lemma {:induction false} InsertSorted(lv: seq<Level>, bid: bool, price: nat, i: nat, q: nat)
    requires IsLadder(lv, bid) && IsPosition(lv, bid, price, i) && q > 0
    requires i == |lv| || lv[i].price != price
    ensures IsLadder(lv[..i] + [Level(price, q)] + lv[i..], bid)
  {
    BetterBehind(lv, bid, price, i);
    hide Worse;
  }

  lemma {:induction false} InsertLevel(lv: seq<Level>, bid: bool, price: nat, i: nat, q: nat)
    requires IsLadder(lv, bid) && IsPosition(lv, bid, price, i) && q > 0
    requires i == |lv| || lv[i].price != price
    ensures IsLadder(lv[..i] + [Level(price, q)] + lv[i..], bid)
    ensures Shows(lv[..i] + [Level(price, q)] + lv[i..], lv, price, q)
  {
    InsertSorted(lv, bid, price, i, q);
    hide Sorted, Positive, QtyAt, Worse;
    var lv' := lv[..i] + [Level(price, q)] + lv[i..];
    forall k | 0 <= k < |lv| ensures lv[k] in lv' {
      assert lv'[if k < i then k else k + 1] == lv[k];
    }
    assert lv'[i] == Level(price, q);
    QtyAtLevel(lv', bid, i);
    forall p | p != price ensures QtyAt(lv', p) == QtyAt(lv, p) {
      SameLevels(lv, lv', bid, p, price);
    }
  }

  lemma {:induction false} EraseLevel(lv: seq<Level>, bid: bool, i: nat)
    requires IsLadder(lv, bid) && i < |lv|
    ensures IsLadder(lv[..i] + lv[i + 1..], bid)
    ensures Shows(lv[..i] + lv[i + 1..], lv, lv[i].price, 0)
  {
    var t, lv' := lv[i].price, lv[..i] + lv[i + 1..];
    assert forall k | 0 <= k < |lv'| :: lv'[k] == lv[if k < i then k else k + 1];
    assert forall k | 0 <= k < |lv| && k != i :: lv[k].price != t by {
      assert forall k | 0 <= k < i :: Worse(bid, lv[k].price, t);
      assert forall k | i < k < |lv| :: Worse(bid, t, lv[k].price);
    }
    forall k | 0 <= k < |lv| && lv[k].price != t ensures lv[k] in lv' {
      assert lv'[if k < i then k else k - 1] == lv[k];
    }
    forall p ensures QtyAt(lv', p) == if p == t then 0 else QtyAt(lv, p) {
      SameLevels(lv, lv', bid, p, t);
    }
  }

  function Minus(a: nat, b: nat): nat {
    if b >= a then 0 else a - b
  }

  class SideLadder {
    var lv: seq<Level>         // worst to best
    const bid: bool
    ghost const sym: nat       // the symbol it belongs to

    ghost predicate Valid()
      reads this
    {
      IsLadder(lv, bid)
    }

    constructor (bid: bool, ghost sym: nat)
      ensures Valid() && lv == [] && this.bid == bid && this.sym == sym
    {
      lv, this.bid, this.sym := [], bid, sym;
    }

    /** Where `price` belongs: all levels before it are worse, none from it on is. */
    method Position(price: nat) returns (i: nat)
      requires Valid()
      ensures IsPosition(lv, bid, price, i)
    {
      var lo: nat, n: nat := 0, |lv|;
      while n > 0
        invariant lo + n <= |lv|
        invariant forall k | 0 <= k < lo :: Worse(bid, lv[k].price, price)
        invariant forall k | lo + n <= k < |lv| :: !Worse(bid, lv[k].price, price)
        decreases n
      {
        var half := n / 2;
        var mid := lo + half;
        if Worse(bid, lv[mid].price, price) {
          lo, n := mid + 1, n - half - 1;
        } else {
          n := half;
        }
      }
      i := lo;
    }

    method Add(price: nat, qty: nat)
      requires Valid()
      modifies this
      ensures Valid() && Shows(lv, old(lv), price, QtyAt(old(lv), price) + qty)
    {
      if qty == 0 {
        return;
      }
      var i := Position(price);
      if i < |lv| && lv[i].price == price {
        QtyAtLevel(lv, bid, i);
        SetLevel(lv, bid, i, lv[i].qty + qty);
        lv := lv[i := Level(price, lv[i].qty + qty)];
      } else {
        NoLevel(lv, bid, price, i);
        InsertLevel(lv, bid, price, i, qty);
        lv := lv[..i] + [Level(price, qty)] + lv[i..];
      }
    }

    /** Takes shares off a price; a level left with none is gone. */
    method Remove(price: nat, qty: nat)
      requires Valid()
      modifies this
      ensures Valid() && Shows(lv, old(lv), price, Minus(QtyAt(old(lv), price), qty))
    {
      if qty == 0 || lv == [] {
        return;
      }
      var last := |lv| - 1;
      if lv[last].price == price {       // the touch
        RemoveAt(last, qty);
        return;
      }
      var i := Position(price);
      if i == |lv| || lv[i].price != price {
        NoLevel(lv, bid, price, i);
        return;                          // nothing is shown at that price
      }
      RemoveAt(i, qty);
    }

    method RemoveAt(i: nat, qty: nat)
      requires Valid() && i < |lv| && qty > 0
      modifies this
      ensures Valid() && Shows(lv, old(lv), old(lv)[i].price, Minus(QtyAt(old(lv), old(lv)[i].price), qty))
    {
      QtyAtLevel(lv, bid, i);
      if qty >= lv[i].qty {
        EraseLevel(lv, bid, i);
        lv := lv[..i] + lv[i + 1..];
      } else {
        SetLevel(lv, bid, i, lv[i].qty - qty);
        lv := lv[i := Level(lv[i].price, lv[i].qty - qty)];
      }
    }
  }
}
