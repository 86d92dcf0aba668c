/** Positions in a ring: an unbounded counter and the slot it falls on. */
module Rings {

  /** `pos & (cap - 1)` for a power-of-two capacity, `pos % cap` in general. */
  function Slot(pos: nat, cap: nat): (i: nat)
    requires cap > 0
    ensures i < cap
  {
    pos % cap
  }

  lemma {:induction false} MulAtLeast(k: int, cap: nat)
    ensures k >= 1 ==> k * cap >= cap
    ensures k <= -1 ==> k * cap <= 0 - cap
  {
  }

  lemma {:induction false} RemainderUnique(x: nat, q: int, r: nat, cap: nat)
    requires r < cap && x == q * cap + r
    ensures x % cap == r
  {
    var q', r' := x / cap, x % cap;
    assert x == q' * cap + r';
    assert (q - q') * cap == r' - r;
    MulAtLeast(q - q', cap);
  }

  /** Within one lap all slots differ. */
  lemma {:induction false} SlotsDiffer(a: nat, b: nat, cap: nat)
    requires cap > 0 && a < b < a + cap
    ensures Slot(a, cap) != Slot(b, cap)
  {
    var q, r, d := a / cap, a % cap, b - a;
    assert a == q * cap + r;
    if r + d < cap {
      RemainderUnique(b, q, r + d, cap);
    } else {
      assert b == (q + 1) * cap + (r + d - cap);
      RemainderUnique(b, q + 1, r + d - cap, cap);
    }
  }

  /** One lap later the slot is the same. */
  lemma {:induction false} SlotNextLap(a: nat, cap: nat)
    requires cap > 0
    ensures Slot(a + cap, cap) == Slot(a, cap)
  {
    var q, r := a / cap, a % cap;
    assert a + cap == (q + 1) * cap + r;
    RemainderUnique(a + cap, q + 1, r, cap);
  }
}
