/**
 The engine's watchlist: a fixed table of stories with a list of the slots in use, a list of the
 free ones and an index by ticker; the rules by which a story's tier rises and a signal is emitted.
 */
module Watchlists {
  import opened Arithmetic
  import opened Options
  import opened Sequences

  datatype Tier = Unrated | Watched | Alert | High

  function Rank(t: Tier): nat {
    match t
    case Unrated => 0
    case Watched => 1
    case Alert => 2
    case High => 3
  }

  datatype Watch = Watch(active: bool, tier: Tier, sym: nat, score: int, tNews: nat)

  /** The slot table with its lists and its index. */
  datatype Table = Table(watch: seq<Watch>, active: seq<nat>, free: seq<nat>, bySym: map<nat, nat>)

  /** The slots in use and the free ones share the table between them. */
  ghost predicate Partition(n: nat, active: seq<nat>, free: seq<nat>) {
    && Distinct(active) && Distinct(free) && |active| + |free| == n
    && (forall i :: 0 <= i < |active| ==> active[i] < n) && (forall i :: 0 <= i < |free| ==> free[i] < n)
    && (forall i, j :: 0 <= i < |active| && 0 <= j < |free| ==> active[i] != free[j])
  }

  /** The index names exactly the tickers watched, each with its slot. */
  ghost predicate Indexed(t: Table) {
    && (forall i :: 0 <= i < |t.active| ==> t.active[i] < |t.watch| && t.watch[t.active[i]].active
                                            && t.watch[t.active[i]].sym in t.bySym
                                            && t.bySym[t.watch[t.active[i]].sym] == t.active[i])
    && (forall s :: s in t.bySym ==> t.bySym[s] in t.active && t.bySym[s] < |t.watch| && t.watch[t.bySym[s]].sym == s)
    && (forall i :: 0 <= i < |t.free| ==> t.free[i] < |t.watch| && !t.watch[t.free[i]].active)
  }

  ghost predicate Consistent(t: Table) {
    Partition(|t.watch|, t.active, t.free) && Indexed(t)
  }

  // ---- taking a slot and giving it back ----

  function Deactivate(t: Table, pos: nat): Table
    requires pos < |t.active| && t.active[pos] < |t.watch|
  {
    var idx := t.active[pos];
    var w := t.watch[idx];
    Table(t.watch[idx := w.(active := false)], DropAt(t.active, pos), t.free + [idx], t.bySym - {w.sym})
  }

  /** The last entry takes the place of the one removed. */
  function DropAt(active: seq<nat>, pos: nat): (r: seq<nat>)
    requires pos < |active|
    ensures |r| == |active| - 1
  {
    active[pos := active[|active| - 1]][..|active| - 1]
  }

  function Activate(t: Table, sym: nat): Table
    requires t.free != [] && t.free[|t.free| - 1] < |t.watch|
  {
    var idx := t.free[|t.free| - 1];
    Table(t.watch[idx := Watch(true, Unrated, sym, 0, 0)], t.active + [idx], t.free[..|t.free| - 1], t.bySym[sym := idx])
  }

  lemma {:induction false} DropAtKeeps(active: seq<nat>, pos: nat)
    requires pos < |active| && Distinct(active)
    ensures Distinct(DropAt(active, pos)) && active[pos] !in DropAt(active, pos)
    ensures forall i :: i in DropAt(active, pos) <==> i in active && i != active[pos]
  {
    var r, n := DropAt(active, pos), |active| - 1;
    forall k | 0 <= k < n ensures r[k] == if k == pos then active[n] else active[k] {
    }
    forall i | i in active && i != active[pos] ensures i in r {
      var k :| 0 <= k <= n && active[k] == i;
      assert r[if k == n then pos else k] == i;
    }
  }

  lemma {:induction false} DeactivatePartition(n: nat, active: seq<nat>, free: seq<nat>, pos: nat)
    requires Partition(n, active, free) && pos < |active|
    ensures Partition(n, DropAt(active, pos), free + [active[pos]])
  {
    DropAtKeeps(active, pos);
    var r := DropAt(active, pos);
    forall i | 0 <= i < |r| ensures r[i] in active && r[i] != active[pos] {
      assert r[i] in r;
    }
    hide DropAt;
  }

  lemma {:induction false} DeactivateConsistent(t: Table, pos: nat)
    requires Consistent(t) && pos < |t.active|
    ensures Consistent(Deactivate(t, pos)) && |Deactivate(t, pos).free| > 0
  {
    DeactivatePartition(|t.watch|, t.active, t.free, pos);
    DropAtKeeps(t.active, pos);
    hide Partition, DropAt, Distinct;
    DeactivateIndexed(t, pos);
  }

  lemma {:induction false} DeactivateIndexed(t: Table, pos: nat)
    requires Indexed(t) && pos < |t.active|
    requires forall i :: i in DropAt(t.active, pos) <==> i in t.active && i != t.active[pos]
    ensures Indexed(Deactivate(t, pos))
  {
    hide DropAt;
    var u := Deactivate(t, pos);
    forall i | 0 <= i < |u.active|
      ensures u.active[i] < |u.watch| && u.watch[u.active[i]].active && u.watch[u.active[i]].sym in u.bySym
              && u.bySym[u.watch[u.active[i]].sym] == u.active[i]
    {
      assert u.active[i] in u.active;
    }
  }

  lemma {:induction false} ActivatePartition(n: nat, active: seq<nat>, free: seq<nat>)
    requires Partition(n, active, free) && free != []
    ensures Partition(n, active + [free[|free| - 1]], free[..|free| - 1])
  {
  }

  lemma {:induction false} ActivateConsistent(t: Table, sym: nat)
    requires Consistent(t) && t.free != [] && sym !in t.bySym
    ensures Consistent(Activate(t, sym))
  {
    ActivatePartition(|t.watch|, t.active, t.free);
    LastIsFree(t);
    hide Partition;
    ActivateIndexed(t, sym);
  }

  lemma {:induction false} LastIsFree(t: Table)
    requires Consistent(t) && t.free != []
    ensures t.free[|t.free| - 1] !in t.active && t.free[|t.free| - 1] < |t.watch|
    ensures forall i :: 0 <= i < |t.free| - 1 ==> t.free[i] != t.free[|t.free| - 1]
  {
  }

  lemma {:induction false} ActivateIndexed(t: Table, sym: nat)
    requires Indexed(t) && t.free != [] && sym !in t.bySym
    requires t.free[|t.free| - 1] !in t.active && t.free[|t.free| - 1] < |t.watch|
    requires forall i :: 0 <= i < |t.free| - 1 ==> t.free[i] != t.free[|t.free| - 1]
    ensures Indexed(Activate(t, sym))
  {
    var u := Activate(t, sym);
    forall s | s in u.bySym ensures u.bySym[s] in u.active && u.bySym[s] < |u.watch| && u.watch[u.bySym[s]].sym == s {
      if s == sym {
        assert u.active[|t.active|] == u.bySym[s];
      } else {
        assert t.bySym[s] in t.active;
      }
    }
  }

  /** Changing a story without changing its ticker or dropping it. */
  lemma {:induction false} UpdateConsistent(t: Table, idx: nat, w: Watch)
    requires Consistent(t) && idx < |t.watch| && w.active == t.watch[idx].active && w.sym == t.watch[idx].sym
    ensures Consistent(t.(watch := t.watch[idx := w]))
  {
    hide Partition;
  }

  // ---- emissions ----

  datatype Emission = Emission(tier: Tier, sym: nat, time: nat)

  /** The time of the last emission of a tier for a ticker. */
  type LastTimes = map<(nat, Tier), nat>

  lemma {:induction false} Sub64AtMost(a: nat, b: nat)
    requires a >= b
    ensures Sub64(a, b) <= a - b
  {
  }

  /** The ticker had no signal of this tier within the cooldown. */
  predicate Cooled(last: LastTimes, cooldown: nat, sym: nat, tier: Tier, now: nat) {
    (sym, tier) in last ==> Sub64(now, last[(sym, tier)]) >= cooldown
  }

  /** Emissions of one tier and ticker are a cooldown apart, and the table has exactly the latest of each. */
  ghost predicate Spaced(emits: seq<Emission>, last: LastTimes, cooldown: nat, now: nat) {
    && (forall i, j :: 0 <= i < j < |emits| && emits[i].tier == emits[j].tier && emits[i].sym == emits[j].sym
          ==> emits[j].time >= emits[i].time + cooldown)
    && (forall i :: 0 <= i < |emits| ==> (emits[i].sym, emits[i].tier) in last
                                         && emits[i].time <= last[(emits[i].sym, emits[i].tier)])
    && (forall k :: k in last ==> last[k] <= now && Emitted(emits, k.0, k.1, last[k]))
  }

  ghost predicate Emitted(emits: seq<Emission>, sym: nat, tier: Tier, time: nat) {
    exists i :: 0 <= i < |emits| && emits[i] == Emission(tier, sym, time)
  }

  lemma {:induction false} EmittedStill(emits: seq<Emission>, e: Emission, sym: nat, tier: Tier, time: nat)
    ensures Emitted(emits, sym, tier, time) ==> Emitted(emits + [e], sym, tier, time)
    ensures Emitted(emits + [e], e.sym, e.tier, e.time)
  {
    assert (emits + [e])[|emits|] == e;
    if Emitted(emits, sym, tier, time) {
      var i :| 0 <= i < |emits| && emits[i] == Emission(tier, sym, time);
      assert (emits + [e])[i] == emits[i];
    }
  }

  lemma {:induction false} EmitSpaced(emits: seq<Emission>, last: LastTimes, cooldown: nat, before: nat, e: Emission)
    requires Spaced(emits, last, cooldown, before) && before <= e.time && Cooled(last, cooldown, e.sym, e.tier, e.time)
    ensures Spaced(emits + [e], last[(e.sym, e.tier) := e.time], cooldown, e.time)
  {
    hide Sub64;
    if (e.sym, e.tier) in last {
      Sub64AtMost(e.time, last[(e.sym, e.tier)]);
    }
    var last' := last[(e.sym, e.tier) := e.time];
    forall k | k in last' ensures last'[k] <= e.time && Emitted(emits + [e], k.0, k.1, last'[k]) {
      EmittedStill(emits, e, k.0, k.1, last'[k]);
    }
    hide Emitted;
  }

  lemma {:induction false} SpacedLater(emits: seq<Emission>, last: LastTimes, cooldown: nat, now: nat, later: nat)
    requires Spaced(emits, last, cooldown, now) && now <= later
    ensures Spaced(emits, last, cooldown, later)
  {
  }

  // ---- one evaluation ----

  /** The rules: cooldown and window, and what the market says of a story (Unrated: no confirmation). */
  datatype Rules = Rules(cooldown: nat, window: nat, judge: (Watch, nat) -> Tier)

  predicate Expired(r: Rules, w: Watch, now: nat) {
    now > w.tNews && now - w.tNews > r.window
  }

  /** The story's tier after a look at the market: it may rise, unless it is at the top. */
  function Judged(r: Rules, w: Watch, now: nat): (w': Watch)
    ensures w' == w.(tier := w'.tier) && Rank(w'.tier) >= Rank(w.tier)
  {
    if Rank(w.tier) < 3 && Rank(r.judge(w, now)) > Rank(w.tier) then w.(tier := r.judge(w, now)) else w
  }

  /** What looking at a story emits. */
  function Emits(r: Rules, w: Watch, last: LastTimes, now: nat): seq<Emission> {
    var t := Judged(r, w, now).tier;
    if !Expired(r, w, now) && t != w.tier && Cooled(last, r.cooldown, w.sym, t, now) then [Emission(t, w.sym, now)] else []
  }

  /** What looking at the stories in `slots` one after the other emits, each judged as it stood. */
  function AllEmits(r: Rules, watch: seq<Watch>, slots: seq<nat>, last: LastTimes, now: nat): seq<Emission>
    requires forall i :: 0 <= i < |slots| ==> slots[i] < |watch|
  {
    if slots == [] then []
    else AllEmits(r, watch, slots[..|slots| - 1], last, now) + Emits(r, watch[slots[|slots| - 1]], last, now)
  }

  function Reverse(s: seq<nat>): (t: seq<nat>)
    ensures |t| == |s| && forall i :: 0 <= i < |s| ==> t[i] == s[|s| - 1 - i]
  {
    seq(|s|, i requires 0 <= i < |s| => s[|s| - 1 - i])
  }

  /** The engine's watch state. */
  datatype State = State(t: Table, last: LastTimes, emits: seq<Emission>)

  /** Looking at the story at position `k` of the active list. */
  function Visit(r: Rules, s: State, k: nat, now: nat): State
    requires k < |s.t.active| && s.t.active[k] < |s.t.watch|
  {
    var idx := s.t.active[k];
    var w := s.t.watch[idx];
    if Expired(r, w, now) then s.(t := Deactivate(s.t, k))
    else
      var w' := Judged(r, w, now);
      var u := s.t.(watch := s.t.watch[idx := w']);
      if w'.tier == w.tier then s.(t := u)
      else if !Cooled(s.last, r.cooldown, w.sym, w'.tier, now) then s.(t := u)
      else State(u, s.last[(w.sym, w'.tier) := now], s.emits + [Emission(w'.tier, w.sym, now)])
  }

  /** What an evaluation does to one slot that was active. */
  ghost predicate Seen(r: Rules, w: Watch, w': Watch, active: bool, now: nat) {
    if Expired(r, w, now) then !active && w' == w.(active := false) else active && w' == Judged(r, w, now)
  }

  /** The slots in `seen` have been looked at, the others left alone. */
  ghost predicate SlotsSeen(r: Rules, t0: Table, t: Table, seen: seq<nat>, now: nat) {
    && |t.watch| == |t0.watch|
    && (forall i :: 0 <= i < |t0.watch| && i !in seen ==> t.watch[i] == t0.watch[i])
    && (forall i :: 0 <= i < |t0.watch| && i in seen ==> Seen(r, t0.watch[i], t.watch[i], i in t.active, now))
  }

  /** An evaluation of `s0` from the back of the active list, down to position `k`. */
  ghost predicate Evaluated(r: Rules, s0: State, s: State, k: nat, now: nat) {
    && Consistent(s0.t) && Consistent(s.t) && |s.t.watch| == |s0.t.watch|
    && k <= |s0.t.active| && k <= |s.t.active| && s.t.active[..k] == s0.t.active[..k]
    && SlotsSeen(r, s0.t, s.t, s0.t.active[k..], now)
    && (forall i :: i in s.t.active ==> i in s0.t.active)
  }

  lemma {:induction false} FromIs(active: seq<nat>, k: nat)
    requires k < |active|
    ensures forall i :: i in active[k..] <==> i == active[k] || i in active[k + 1..]
    ensures Distinct(active) ==> active[k] !in active[k + 1..]
    ensures Reverse(active[k..]) == Reverse(active[k + 1..]) + [active[k]]
  {
    assert active[k..] == [active[k]] + active[k + 1..];
  }

  lemma {:induction false} ConsistentSlots(t: Table)
    requires Consistent(t)
    ensures Distinct(t.active) && forall i :: 0 <= i < |t.active| ==> t.active[i] < |t.watch|
  {
  }

  /** The entry at `k` has not been touched by the visits behind it. */
  lemma {:induction false} NextUntouched(r: Rules, s0: State, s: State, k: nat, now: nat)
    requires k < |s0.t.active| && Evaluated(r, s0, s, k + 1, now)
    ensures k < |s.t.active| && s.t.active[k] == s0.t.active[k] < |s.t.watch| == |s0.t.watch|
    ensures s.t.watch[s.t.active[k]] == s0.t.watch[s.t.active[k]]
    ensures s.t.active[..k] == s0.t.active[..k]
  {
    hide Consistent;
    ConsistentSlots(s0.t);
    FromIs(s0.t.active, k);
    assert s.t.active[..k + 1][k] == s0.t.active[..k + 1][k];
    assert s.t.active[..k] == s.t.active[..k + 1][..k];
    assert s0.t.active[..k] == s0.t.active[..k + 1][..k];
  }

  lemma {:induction false} VisitConsistent(r: Rules, s: State, k: nat, now: nat)
    requires Consistent(s.t) && k < |s.t.active|
    ensures s.t.active[k] < |s.t.watch| && Consistent(Visit(r, s, k, now).t)
  {
    ConsistentSlots(s.t);
    var idx := s.t.active[k];
    DeactivateConsistent(s.t, k);
    UpdateConsistent(s.t, idx, Judged(r, s.t.watch[idx], now));
    hide Consistent, Deactivate, Judged, Expired;
  }

  /** What one visit does to the table. */
  ghost predicate Moved(r: Rules, t: Table, u: Table, k: nat, now: nat)
    requires k < |t.active| && t.active[k] < |t.watch|
  {
    var idx := t.active[k];
    && |u.watch| == |t.watch| && k <= |u.active| && u.active[..k] == t.active[..k]
    && (forall i :: 0 <= i < |t.watch| && i != idx ==> u.watch[i] == t.watch[i])
    && (forall i :: i != idx ==> (i in u.active <==> i in t.active))
    && Seen(r, t.watch[idx], u.watch[idx], idx in u.active, now)
  }

  lemma {:induction false} VisitMoves(r: Rules, s: State, k: nat, now: nat)
    requires Consistent(s.t) && k < |s.t.active| && s.t.active[k] < |s.t.watch|
    ensures Moved(r, s.t, Visit(r, s, k, now).t, k, now)
  {
    hide Consistent, Distinct, Moved, Deactivate, Judged;
    var idx := s.t.active[k];
    if Expired(r, s.t.watch[idx], now) {
      DropMoves(r, s.t, k, now);
    } else {
      JudgeMoves(r, s.t, k, now);
    }
    hide Expired;
  }

  lemma {:induction false} DropMoves(r: Rules, t: Table, k: nat, now: nat)
    requires Consistent(t) && k < |t.active| && t.active[k] < |t.watch| && Expired(r, t.watch[t.active[k]], now)
    ensures Moved(r, t, Deactivate(t, k), k, now)
  {
    ConsistentSlots(t);
    DropAtKeeps(t.active, k);
    DropAtPrefix(t.active, k);
    hide DropAt, Consistent, Distinct, Expired;
  }

  lemma {:induction false} JudgeMoves(r: Rules, t: Table, k: nat, now: nat)
    requires k < |t.active| && t.active[k] < |t.watch| && !Expired(r, t.watch[t.active[k]], now)
    ensures var idx := t.active[k]; Moved(r, t, t.(watch := t.watch[idx := Judged(r, t.watch[idx], now)]), k, now)
  {
    hide Expired, Judged;
  }

  lemma {:induction false} DropAtPrefix(active: seq<nat>, pos: nat)
    requires pos < |active|
    ensures DropAt(active, pos)[..pos] == active[..pos]
  {
  }

  lemma {:induction false} SeenMore(r: Rules, t0: Table, t: Table, u: Table, k: nat, now: nat, seen: seq<nat>, more: seq<nat>)
    requires k < |t.active| && t.active[k] < |t.watch| && SlotsSeen(r, t0, t, seen, now) && Moved(r, t, u, k, now)
    requires t.active[k] !in seen && forall i :: i in more <==> i == t.active[k] || i in seen
    ensures SlotsSeen(r, t0, u, more, now)
  {
    hide Seen;
  }

  lemma {:induction false} MovedWithin(r: Rules, t0: Table, t: Table, u: Table, k: nat, now: nat)
    requires k < |t.active| && t.active[k] < |t.watch| && Moved(r, t, u, k, now)
    requires forall i :: i in t.active ==> i in t0.active
    ensures forall i :: i in u.active ==> i in t0.active
    ensures k <= |u.active| && u.active[..k] == t.active[..k] && |u.watch| == |t.watch|
  {
    hide Seen;
    assert t.active[k] in t.active;
  }

  lemma {:induction false} VisitKeeps(r: Rules, s0: State, s: State, k: nat, now: nat)
    requires k < |s0.t.active| && Evaluated(r, s0, s, k + 1, now)
    ensures k < |s.t.active| && s.t.active[k] < |s.t.watch| && Evaluated(r, s0, Visit(r, s, k, now), k, now)
  {
    NextUntouched(r, s0, s, k, now);
    hide Visit, Seen, Consistent, Distinct, SlotsSeen, Moved;
    ConsistentSlots(s0.t);
    FromIs(s0.t.active, k);
    VisitConsistent(r, s, k, now);
    VisitMoves(r, s, k, now);
    var u := Visit(r, s, k, now);
    SeenMore(r, s0.t, s.t, u.t, k, now, s0.t.active[k + 1..], s0.t.active[k..]);
    MovedWithin(r, s0.t, s.t, u.t, k, now);
  }

  predicate SameTime(a: LastTimes, b: LastTimes, sym: nat, tier: Tier) {
    ((sym, tier) in a <==> (sym, tier) in b) && ((sym, tier) in a ==> a[(sym, tier)] == b[(sym, tier)])
  }

  predicate SlotsIn(slots: seq<nat>, watch: seq<Watch>) {
    forall i :: 0 <= i < |slots| ==> slots[i] < |watch|
  }

  /** The emissions are those of the stories looked at; stories still to be seen have their times untouched. */
  ghost predicate Logged(r: Rules, s0: State, s: State, k: nat, now: nat) {
    && k <= |s0.t.active| && SlotsIn(s0.t.active, s0.t.watch) && SlotsIn(Reverse(s0.t.active[k..]), s0.t.watch)
    && s.emits == s0.emits + AllEmits(r, s0.t.watch, Reverse(s0.t.active[k..]), s0.last, now)
    && forall j, tier :: 0 <= j < k ==> SameTime(s0.last, s.last, s0.t.watch[s0.t.active[j]].sym, tier)
  }

  lemma {:induction false} EmitsAppend(r: Rules, watch: seq<Watch>, slots: seq<nat>, idx: nat, last: LastTimes, now: nat)
    requires SlotsIn(slots, watch) && idx < |watch|
    ensures SlotsIn(slots + [idx], watch)
    ensures AllEmits(r, watch, slots + [idx], last, now) == AllEmits(r, watch, slots, last, now) + Emits(r, watch[idx], last, now)
  {
    assert (slots + [idx])[..|slots|] == slots;
  }

  lemma {:induction false} TickersDiffer(t: Table, j: nat, k: nat)
    requires Consistent(t) && j < k < |t.active|
    ensures t.active[j] < |t.watch| && t.active[k] < |t.watch| && t.watch[t.active[j]].sym != t.watch[t.active[k]].sym
  {
  }

  lemma {:induction false} EmitsSame(r: Rules, w: Watch, a: LastTimes, b: LastTimes, now: nat)
    requires forall tier :: SameTime(a, b, w.sym, tier)
    ensures Emits(r, w, a, now) == Emits(r, w, b, now)
  {
    assert SameTime(a, b, w.sym, Judged(r, w, now).tier);
    hide Judged;
  }

  lemma {:induction false} VisitEmits(r: Rules, s: State, k: nat, now: nat)
    requires k < |s.t.active| && s.t.active[k] < |s.t.watch|
    ensures var u, w := Visit(r, s, k, now), s.t.watch[s.t.active[k]];
            && u.emits == s.emits + Emits(r, w, s.last, now)
            && forall sym, tier :: sym != w.sym ==> SameTime(s.last, u.last, sym, tier)
  {
    hide Judged, Deactivate, Expired, Cooled;
  }

  lemma {:induction false} VisitSpaced(r: Rules, s: State, k: nat, now: nat)
    requires k < |s.t.active| && s.t.active[k] < |s.t.watch| && Spaced(s.emits, s.last, r.cooldown, now)
    ensures var u := Visit(r, s, k, now); Spaced(u.emits, u.last, r.cooldown, now)
  {
    hide Spaced, Judged, Deactivate, Expired, Cooled;
    var w := s.t.watch[s.t.active[k]];
    var t := Judged(r, w, now).tier;
    if Cooled(s.last, r.cooldown, w.sym, t, now) {
      EmitSpaced(s.emits, s.last, r.cooldown, now, Emission(t, w.sym, now));
    }
  }

  lemma {:induction false} VisitTimes(r: Rules, s0: State, s: State, u: State, k: nat)
    requires Consistent(s0.t) && k < |s0.t.active| && SlotsIn(s0.t.active, s0.t.watch)
    requires forall j, tier :: 0 <= j < k + 1 ==> SameTime(s0.last, s.last, s0.t.watch[s0.t.active[j]].sym, tier)
    requires forall sym, tier :: sym != s0.t.watch[s0.t.active[k]].sym ==> SameTime(s.last, u.last, sym, tier)
    ensures forall j, tier :: 0 <= j < k ==> SameTime(s0.last, u.last, s0.t.watch[s0.t.active[j]].sym, tier)
  {
    hide Consistent, SameTime;
    forall j, tier | 0 <= j < k ensures SameTime(s0.last, u.last, s0.t.watch[s0.t.active[j]].sym, tier) {
      TickersDiffer(s0.t, j, k);
      SameTimeTransitive(s0.last, s.last, u.last, s0.t.watch[s0.t.active[j]].sym, tier);
    }
  }

  lemma {:induction false} SameTimeTransitive(a: LastTimes, b: LastTimes, c: LastTimes, sym: nat, tier: Tier)
    requires SameTime(a, b, sym, tier) && SameTime(b, c, sym, tier)
    ensures SameTime(a, c, sym, tier)
  {
  }

  lemma {:induction false} Regroup(base: seq<Emission>, x: seq<Emission>, e: seq<Emission>)
    ensures base + x + e == base + (x + e)
  {
  }

  lemma {:induction false} VisitLogs(r: Rules, s0: State, s: State, k: nat, now: nat)
    requires k < |s0.t.active| && Evaluated(r, s0, s, k + 1, now) && Logged(r, s0, s, k + 1, now)
    ensures k < |s.t.active| && s.t.active[k] < |s.t.watch| && Logged(r, s0, Visit(r, s, k, now), k, now)
  {
    NextUntouched(r, s0, s, k, now);
    EvaluatedConsistent(r, s0, s, k + 1, now);
    FromIs(s0.t.active, k);
    hide Visit, Consistent, AllEmits, Emits, SameTime, Evaluated, Reverse, Distinct, SlotsIn;
    var idx := s0.t.active[k];
    var w := s0.t.watch[idx];
    var slots := Reverse(s0.t.active[k + 1..]);
    EmitsAppend(r, s0.t.watch, slots, idx, s0.last, now);
    VisitEmits(r, s, k, now);
    EmitsSame(r, w, s0.last, s.last, now);
    VisitTimes(r, s0, s, Visit(r, s, k, now), k);
    Regroup(s0.emits, AllEmits(r, s0.t.watch, slots, s0.last, now), Emits(r, w, s0.last, now));
  }

  lemma {:induction false} EvaluatedConsistent(r: Rules, s0: State, s: State, k: nat, now: nat)
    requires Evaluated(r, s0, s, k, now)
    ensures Consistent(s0.t) && Consistent(s.t) && SlotsIn(s0.t.active, s0.t.watch)
  {
  }

  lemma {:induction false} EvaluatedSlots(t: Table)
    requires Consistent(t)
    ensures SlotsIn(t.active, t.watch)
  {
  }

  /** An evaluation under way: the stories looked at so far, from the back of the list. */
  ghost predicate Progress(r: Rules, s0: State, s: State, k: nat, now: nat) {
    Evaluated(r, s0, s, k, now) && Logged(r, s0, s, k, now)
  }

  lemma {:induction false} StartsEvaluated(r: Rules, s: State, now: nat)
    requires Consistent(s.t)
    ensures Progress(r, s, s, |s.t.active|, now)
  {
    EvaluatedSlots(s.t);
    assert s.t.active[|s.t.active|..] == [];
    hide Consistent;
  }

  lemma {:induction false} VisitProgress(r: Rules, s0: State, s: State, k: nat, now: nat)
    requires Progress(r, s0, s, k + 1, now)
    ensures k < |s.t.active| && s.t.active[k] < |s.t.watch| && Progress(r, s0, Visit(r, s, k, now), k, now)
  {
    ProgressBound(r, s0, s, k, now);
    hide Evaluated, Logged, Visit;
    NextUntouched(r, s0, s, k, now);
    VisitKeeps(r, s0, s, k, now);
    VisitLogs(r, s0, s, k, now);
  }

  lemma {:induction false} ProgressBound(r: Rules, s0: State, s: State, k: nat, now: nat)
    requires Evaluated(r, s0, s, k + 1, now)
    ensures k < |s0.t.active|
  {
  }

  /** A story's tier never falls in an evaluation. */
  lemma {:induction false} TiersRise(r: Rules, s0: State, s: State, now: nat, i: nat)
    requires Evaluated(r, s0, s, 0, now) && i < |s0.t.watch|
    ensures Rank(s.t.watch[i].tier) >= Rank(s0.t.watch[i].tier)
  {
    hide Consistent, Judged, Expired;
  }

  // ---- a whole evaluation ----

  const SLOTS: nat := 1024

  ghost predicate Good(t: Table) {
    |t.watch| == SLOTS && Consistent(t)
  }

  lemma {:induction false} VisitGood(r: Rules, s: State, k: nat, now: nat)
    requires Good(s.t) && k < |s.t.active|
    ensures s.t.active[k] < |s.t.watch|
    ensures var u := Visit(r, s, k, now); Good(u.t) && k <= |u.t.active|
  {
    ConsistentSlots(s.t);
    hide Consistent, Visit, Seen;
    VisitConsistent(r, s, k, now);
    VisitMoves(r, s, k, now);
  }

  /** Looking at the stories in front of position `k`, the last of them first. */
  ghost function Visits(r: Rules, s: State, k: nat, now: nat): (u: State)
    requires Good(s.t) && k <= |s.t.active|
    ensures Good(u.t)
    decreases k
  {
    hide Good, Visit;
    if k == 0 then s
    else
      VisitGood(r, s, k - 1, now);
      Visits(r, Visit(r, s, k - 1, now), k - 1, now)
  }

  /** Every story on the list is looked at once. */
  ghost function Looked(r: Rules, s: State, now: nat): (u: State)
    requires Good(s.t)
    ensures Good(u.t)
  {
    Visits(r, s, |s.t.active|, now)
  }

  lemma {:induction false} VisitsProgress(r: Rules, s0: State, s: State, k: nat, now: nat)
    requires Good(s.t) && k <= |s.t.active| && Progress(r, s0, s, k, now)
    ensures Progress(r, s0, Visits(r, s, k, now), 0, now)
    decreases k
  {
    hide Good, Visit, Progress;
    if k > 0 {
      VisitGood(r, s, k - 1, now);
      VisitProgress(r, s0, s, k - 1, now);
      VisitsProgress(r, s0, Visit(r, s, k - 1, now), k - 1, now);
    }
  }

  /** Each story has been seen once as it stood, by its own rules, and what was emitted is what those say. */
  lemma {:induction false} LookedMeans(r: Rules, s: State, now: nat)
    requires Good(s.t)
    ensures Evaluated(r, s, Looked(r, s, now), 0, now) && Logged(r, s, Looked(r, s, now), 0, now)
  {
    StartsEvaluated(r, s, now);
    hide Evaluated, Logged, Visits, Consistent;
    VisitsProgress(r, s, s, |s.t.active|, now);
  }

  lemma {:induction false} VisitsSpaced(r: Rules, s: State, k: nat, now: nat)
    requires Good(s.t) && k <= |s.t.active| && Spaced(s.emits, s.last, r.cooldown, now)
    ensures var u := Visits(r, s, k, now); Spaced(u.emits, u.last, r.cooldown, now)
    decreases k
  {
    hide Good, Visit, Spaced;
    if k > 0 {
      VisitGood(r, s, k - 1, now);
      VisitSpaced(r, s, k - 1, now);
      VisitsSpaced(r, Visit(r, s, k - 1, now), k - 1, now);
    }
  }

  // ---- making room ----

  /** The first of the oldest stories. */
  ghost predicate IsOldest(t: Table, pos: nat) {
    && SlotsIn(t.active, t.watch) && pos < |t.active|
    && (forall k :: 0 <= k < |t.active| ==> t.watch[t.active[pos]].tNews <= t.watch[t.active[k]].tNews)
    && (forall k :: 0 <= k < pos ==> t.watch[t.active[pos]].tNews < t.watch[t.active[k]].tNews)
  }

  /** The oldest of the first `n` stories; among equally old ones the first. */
  function OldestOf(t: Table, n: nat): (pos: nat)
    requires 0 < n <= |t.active| && SlotsIn(t.active, t.watch)
    ensures pos < n
    ensures forall k :: 0 <= k < n ==> t.watch[t.active[pos]].tNews <= t.watch[t.active[k]].tNews
    ensures forall k :: 0 <= k < pos ==> t.watch[t.active[pos]].tNews < t.watch[t.active[k]].tNews
  {
    if n == 1 then 0
    else
      var pos := OldestOf(t, n - 1);
      if t.watch[t.active[n - 1]].tNews < t.watch[t.active[pos]].tNews then n - 1 else pos
  }

  lemma {:induction false} FullHasStories(t: Table)
    requires Good(t) && t.free == []
    ensures |t.active| > 0 && SlotsIn(t.active, t.watch)
    ensures t.active[OldestOf(t, |t.active|)] < |t.watch| && IsOldest(t, OldestOf(t, |t.active|))
  {
  }

  /** The ticker of the first of the oldest stories. */
  ghost predicate HasOldest(t: Table, sym: nat) {
    exists pos: nat :: IsOldest(t, pos) && t.watch[t.active[pos]].sym == sym
  }

  lemma {:induction false} OldestTicker(t: Table, pos: nat)
    requires IsOldest(t, pos)
    ensures HasOldest(t, t.watch[t.active[pos]].sym)
  {
  }

  /** There is only one such story. */
  lemma {:induction false} OneOldest(t: Table, a: nat, b: nat)
    requires HasOldest(t, a) && HasOldest(t, b)
    ensures a == b
  {
    var i: nat :| IsOldest(t, i) && t.watch[t.active[i]].sym == a;
    var j: nat :| IsOldest(t, j) && t.watch[t.active[j]].sym == b;
    assert i == j;
  }

  /** A full table gives up the first of its oldest stories, and no other. */
  ghost function Room(t: Table): (u: Table)
    requires Good(t)
    ensures Good(u) && u.free != []
    ensures t.free != [] ==> u == t
    ensures t.free == [] ==> exists gone: nat :: HasOldest(t, gone) && u.bySym == t.bySym - {gone}
  {
    if t.free != [] then t
    else
      FullHasStories(t);
      var pos := OldestOf(t, |t.active|);
      OldestTicker(t, pos);
      DeactivateConsistent(t, pos);
      hide Consistent, DropAt, IsOldest, HasOldest;
      Deactivate(t, pos)
  }

  /** Putting a new story on the list. */
  ghost function Admit(t: Table, sym: nat): (u: Table)
    requires Good(t) && sym !in t.bySym
    ensures Good(u) && sym in u.bySym && u.bySym[sym] < |u.watch|
    ensures u.bySym.Keys == Room(t).bySym.Keys + {sym}
  {
    hide Good, HasOldest, Room;
    RoomLacks(t, sym);
    ActivateGood(Room(t), sym);
    Activate(Room(t), sym)
  }

  /** The list gains the ticker and, when the table was full, loses that of the first of the oldest stories; no other. */
  lemma {:induction false} AdmitDrops(t: Table, sym: nat)
    requires Good(t) && sym !in t.bySym
    ensures t.free != [] ==> Admit(t, sym).bySym.Keys == t.bySym.Keys + {sym}
    ensures t.free == [] ==> exists gone: nat :: HasOldest(t, gone) && Admit(t, sym).bySym.Keys == t.bySym.Keys - {gone} + {sym}
  {
    hide Good, HasOldest, Room, Admit;
    if t.free == [] {
      var u := Room(t);
      var gone: nat :| HasOldest(t, gone) && u.bySym == t.bySym - {gone};
      assert Admit(t, sym).bySym.Keys == t.bySym.Keys - {gone} + {sym};
    }
  }

  lemma {:induction false} ActivateGood(t: Table, sym: nat)
    requires Good(t) && t.free != [] && sym !in t.bySym
    ensures t.free[|t.free| - 1] < |t.watch|
    ensures var u := Activate(t, sym); Good(u) && sym in u.bySym && u.bySym[sym] < |u.watch| && u.bySym.Keys == t.bySym.Keys + {sym}
  {
    LastIsFree(t);
    ActivateConsistent(t, sym);
    hide Consistent;
  }

  lemma {:induction false} RoomLacks(t: Table, sym: nat)
    requires Good(t) && sym !in t.bySym
    ensures sym !in Room(t).bySym
  {
    hide Good, HasOldest, Room;
  }

  // ---- a scored story ----

  /** A signal, unless the ticker had one of this tier within the cooldown. */
  function Offer(r: Rules, s: State, sym: nat, tier: Tier, now: nat): State {
    if Cooled(s.last, r.cooldown, sym, tier, now) then
      s.(last := s.last[(sym, tier) := now], emits := s.emits + [Emission(tier, sym, now)])
    else s
  }

  /** Scoring the story in slot `idx`: a story with no tier yet becomes a watched one. */
  function Scored(r: Rules, s: State, idx: nat, score: int, now: nat): State
    requires idx < |s.t.watch|
  {
    var w := s.t.watch[idx];
    var w' := w.(score := score, tier := if w.tier.Unrated? then Watched else w.tier);
    var s' := s.(t := s.t.(watch := s.t.watch[idx := w']));
    if w.tier.Unrated? then Offer(r, s', w.sym, Watched, now) else s'
  }

  /** The table with the arrival time of the story in slot `idx`. */
  function Dated(t: Table, idx: nat, tNews: nat): Table
    requires idx < |t.watch|
  {
    t.(watch := t.watch[idx := t.watch[idx].(tNews := tNews)])
  }

  lemma {:induction false} IndexedSlot(t: Table, sym: nat)
    requires Good(t) && sym in t.bySym
    ensures t.bySym[sym] < |t.watch| && t.watch[t.bySym[sym]].sym == sym
  {
  }

  lemma {:induction false} DatedGood(t: Table, idx: nat, tNews: nat)
    requires Good(t) && idx < |t.watch|
    ensures Good(Dated(t, idx, tNews))
  {
    hide Consistent;
    UpdateConsistent(t, idx, t.watch[idx].(tNews := tNews));
  }

  lemma {:induction false} ScoredGood(r: Rules, s: State, idx: nat, score: int, now: nat)
    requires Good(s.t) && idx < |s.t.watch|
    ensures Good(Scored(r, s, idx, score, now).t)
  {
    hide Consistent, Cooled;
    var w := s.t.watch[idx];
    UpdateConsistent(s.t, idx, w.(score := score, tier := if w.tier.Unrated? then Watched else w.tier));
  }

  lemma {:induction false} ScoredSpaced(r: Rules, s: State, idx: nat, score: int, now: nat)
    requires idx < |s.t.watch| && Spaced(s.emits, s.last, r.cooldown, now)
    ensures var s' := Scored(r, s, idx, score, now); Spaced(s'.emits, s'.last, r.cooldown, now)
  {
    hide Spaced, Cooled;
    var w := s.t.watch[idx];
    if Cooled(s.last, r.cooldown, w.sym, Watched, now) {
      EmitSpaced(s.emits, s.last, r.cooldown, now, Emission(Watched, w.sym, now));
    }
  }

  /** A scored story of a ticker: eligible when in the universe, not blocked and strong enough. */
  datatype Story = Story(sym: nat, score: int, eligible: bool)

  /** A new story of a ticker that is not on the list. */
  ghost function NewStory(r: Rules, s: State, x: Story, tNews: nat, now: nat): (u: State)
    requires Good(s.t) && x.sym !in s.t.bySym
    ensures Good(u.t)
  {
    hide Good, Scored, Dated;
    var t := Admit(s.t, x.sym);
    DatedGood(t, t.bySym[x.sym], tNews);
    DatedSize(t, t.bySym[x.sym], tNews);
    ScoredGood(r, s.(t := Dated(t, t.bySym[x.sym], tNews)), t.bySym[x.sym], x.score, now);
    Scored(r, s.(t := Dated(t, t.bySym[x.sym], tNews)), t.bySym[x.sym], x.score, now)
  }

  lemma {:induction false} DatedSize(t: Table, idx: nat, tNews: nat)
    requires idx < |t.watch|
    ensures |Dated(t, idx, tNews).watch| == |t.watch|
  {
  }

  /** Whether a story is stored, its ticker having none at least as strong. */
  predicate Stored(t: Table, x: Story) {
    x.eligible && !(x.sym in t.bySym && t.bySym[x.sym] < |t.watch| && x.score <= t.watch[t.bySym[x.sym]].score)
  }

  /** What a scored story does. */
  ghost function StoryAfter(r: Rules, s: State, x: Story, tNews: nat, now: nat): (u: State)
    requires Good(s.t)
    ensures Good(u.t)
  {
    hide Good, Scored, NewStory;
    if !Stored(s.t, x) then s
    else if x.sym in s.t.bySym then
      IndexedSlot(s.t, x.sym);
      ScoredGood(r, s, s.t.bySym[x.sym], x.score, now);
      Scored(r, s, s.t.bySym[x.sym], x.score, now)
    else NewStory(r, s, x, tNews, now)
  }

  lemma {:induction false} StorySpaced(r: Rules, s: State, x: Story, tNews: nat, now: nat)
    requires Good(s.t) && Spaced(s.emits, s.last, r.cooldown, now)
    ensures var u := StoryAfter(r, s, x, tNews, now); Spaced(u.emits, u.last, r.cooldown, now)
  {
    hide Good, Scored, Spaced, Dated;
    if Stored(s.t, x) {
      if x.sym in s.t.bySym {
        IndexedSlot(s.t, x.sym);
        ScoredSpaced(r, s, s.t.bySym[x.sym], x.score, now);
      } else {
        var t := Admit(s.t, x.sym);
        DatedSize(t, t.bySym[x.sym], tNews);
        ScoredSpaced(r, s.(t := Dated(t, t.bySym[x.sym], tNews)), t.bySym[x.sym], x.score, now);
      }
    }
  }

  // ---- a news item ----

  /** The stories of a news item one after the other. */
  ghost function StoriesAfter(r: Rules, s: State, stories: seq<Story>, tNews: nat, now: nat): (u: State)
    requires Good(s.t)
    ensures Good(u.t)
    decreases |stories|
  {
    hide Good, StoryAfter;
    if stories == [] then s
    else StoryAfter(r, StoriesAfter(r, s, stories[..|stories| - 1], tNews, now), stories[|stories| - 1], tNews, now)
  }

  /** Whether any of them was stored. */
  ghost predicate Touched(r: Rules, s: State, stories: seq<Story>, tNews: nat, now: nat)
    requires Good(s.t)
  {
    exists i :: 0 <= i < |stories| && Stored(StoriesAfter(r, s, stories[..i], tNews, now).t, stories[i])
  }

  lemma {:induction false} StoriesNext(r: Rules, s: State, stories: seq<Story>, i: nat, tNews: nat, now: nat)
    requires Good(s.t) && i < |stories|
    ensures var m := StoriesAfter(r, s, stories[..i], tNews, now);
            && StoriesAfter(r, s, stories[..i + 1], tNews, now) == StoryAfter(r, m, stories[i], tNews, now)
            && (Touched(r, s, stories[..i + 1], tNews, now) <==> Touched(r, s, stories[..i], tNews, now) || Stored(m.t, stories[i]))
  {
    hide Good, StoryAfter, Stored;
    var xs, ys := stories[..i], stories[..i + 1];
    assert ys[..i] == xs && ys[i] == stories[i];
    assert forall k :: 0 <= k < i ==> ys[..k] == xs[..k] && ys[k] == xs[k];
  }

  /** When a story counts as having arrived. */
  function ArrivalOf(recv: nat, now: nat): nat {
    if recv != 0 then recv else now
  }

  /** A news item: its stories, and an evaluation at once when any of them was stored. */
  ghost function NewsAfter(r: Rules, s: State, stories: seq<Story>, recv: nat, now: nat): (u: State)
    requires Good(s.t)
    ensures Good(u.t)
  {
    hide Good, Looked, StoriesAfter, Touched;
    var m := StoriesAfter(r, s, stories, ArrivalOf(recv, now), now);
    if Touched(r, s, stories, ArrivalOf(recv, now), now) then Looked(r, m, now) else m
  }

  lemma {:induction false} StoriesSpaced(r: Rules, s: State, stories: seq<Story>, tNews: nat, now: nat)
    requires Good(s.t) && Spaced(s.emits, s.last, r.cooldown, now)
    ensures var u := StoriesAfter(r, s, stories, tNews, now); Spaced(u.emits, u.last, r.cooldown, now)
    decreases |stories|
  {
    hide Good, Spaced, StoryAfter;
    if stories != [] {
      StoriesSpaced(r, s, stories[..|stories| - 1], tNews, now);
      StorySpaced(r, StoriesAfter(r, s, stories[..|stories| - 1], tNews, now), stories[|stories| - 1], tNews, now);
    }
  }

  // ---- whole runs ----

  datatype Event = News(stories: seq<Story>, recv: nat, now: nat) | Tick(now: nat)

  ghost function EventAfter(r: Rules, s: State, e: Event): (u: State)
    requires Good(s.t)
    ensures Good(u.t)
  {
    hide Good, NewsAfter, Looked;
    match e
    case News(stories, recv, now) => NewsAfter(r, s, stories, recv, now)
    case Tick(now) => Looked(r, s, now)
  }

  ghost function RunAfter(r: Rules, s: State, events: seq<Event>): (u: State)
    requires Good(s.t)
    ensures Good(u.t)
    decreases |events|
  {
    hide Good, EventAfter;
    if events == [] then s
    else EventAfter(r, RunAfter(r, s, events[..|events| - 1]), events[|events| - 1])
  }

  function LastTime(events: seq<Event>, clock: nat): nat {
    if events == [] then clock else events[|events| - 1].now
  }

  /** The clock never goes back. */
  ghost predicate InOrder(events: seq<Event>, clock: nat)
    decreases |events|
  {
    events == [] || (InOrder(events[..|events| - 1], clock) && LastTime(events[..|events| - 1], clock) <= LastTime(events, clock))
  }

  lemma {:induction false} EventSpaced(r: Rules, s: State, e: Event)
    requires Good(s.t) && Spaced(s.emits, s.last, r.cooldown, e.now)
    ensures var u := EventAfter(r, s, e); Spaced(u.emits, u.last, r.cooldown, e.now)
  {
    hide Good, Spaced, Visits, StoriesAfter, Touched;
    match e {
      case News(stories, recv, now) =>
        StoriesSpaced(r, s, stories, ArrivalOf(recv, now), now);
        var m := StoriesAfter(r, s, stories, ArrivalOf(recv, now), now);
        VisitsSpaced(r, m, |m.t.active|, now);
      case Tick(now) =>
        VisitsSpaced(r, s, |s.t.active|, now);
    }
  }

  /** With a clock that never goes back, signals of one tier and ticker are a cooldown apart over any run. */
  lemma {:induction false} RunSpaced(r: Rules, s: State, events: seq<Event>, clock: nat)
    requires Good(s.t) && Spaced(s.emits, s.last, r.cooldown, clock) && InOrder(events, clock)
    ensures var u := RunAfter(r, s, events); Spaced(u.emits, u.last, r.cooldown, LastTime(events, clock))
    decreases |events|
  {
    hide Good, Spaced, EventAfter;
    if events != [] {
      var before := events[..|events| - 1];
      RunSpaced(r, s, before, clock);
      var m := RunAfter(r, s, before);
      SpacedLater(m.emits, m.last, r.cooldown, LastTime(before, clock), LastTime(events, clock));
      EventSpaced(r, m, events[|events| - 1]);
    }
  }

  lemma {:induction false} Apart(emits: seq<Emission>, last: LastTimes, cooldown: nat, now: nat)
    requires Spaced(emits, last, cooldown, now)
    ensures forall i, j :: 0 <= i < j < |emits| && emits[i].tier == emits[j].tier && emits[i].sym == emits[j].sym
              ==> emits[j].time >= emits[i].time + cooldown
  {
  }

  // ---- what becomes of a story while it stays on the list ----

  ghost predicate Listed(t: Table, sym: nat) {
    sym in t.bySym && t.bySym[sym] < |t.watch|
  }

  function StoryOf(t: Table, sym: nat): Watch
    requires sym in t.bySym && t.bySym[sym] < |t.watch|
  {
    t.watch[t.bySym[sym]]
  }

  /** The signals of a ticker climb, each of a higher tier than the one before, from above `lo` up to at most `hi`. */
  ghost predicate Climbs(es: seq<Emission>, sym: nat, lo: nat, hi: nat) {
    && lo <= hi
    && (forall i :: 0 <= i < |es| && es[i].sym == sym ==> lo < Rank(es[i].tier) <= hi)
    && (forall i, j :: 0 <= i < j < |es| && es[i].sym == sym && es[j].sym == sym ==> Rank(es[i].tier) < Rank(es[j].tier))
  }

  /** From `s` to `u` the ticker's story kept its time; its score and tier have not fallen; its signals climbed. */
  ghost predicate Rises(s: State, u: State, sym: nat) {
    && Listed(s.t, sym) && Listed(u.t, sym) && s.emits <= u.emits
    && StoryOf(u.t, sym).tNews == StoryOf(s.t, sym).tNews && StoryOf(u.t, sym).score >= StoryOf(s.t, sym).score
    && Climbs(u.emits[|s.emits|..], sym, Rank(StoryOf(s.t, sym).tier), Rank(StoryOf(u.t, sym).tier))
  }

  lemma {:induction false} ClimbsOn(a: seq<Emission>, b: seq<Emission>, sym: nat, lo: nat, mid: nat, hi: nat)
    requires Climbs(a, sym, lo, mid) && Climbs(b, sym, mid, hi)
    ensures Climbs(a + b, sym, lo, hi)
  {
    hide Rank;
  }

  lemma {:induction false} RisesOn(s: State, m: State, u: State, sym: nat)
    requires Rises(s, m, sym) && Rises(m, u, sym)
    ensures Rises(s, u, sym)
  {
    hide Climbs;
    ClimbsOn(m.emits[|s.emits|..], u.emits[|m.emits|..], sym, Rank(StoryOf(s.t, sym).tier), Rank(StoryOf(m.t, sym).tier),
             Rank(StoryOf(u.t, sym).tier));
    assert u.emits[|s.emits|..] == m.emits[|s.emits|..] + u.emits[|m.emits|..];
  }

  lemma {:induction false} RisesSame(s: State, sym: nat)
    requires Good(s.t) && sym in s.t.bySym
    ensures Rises(s, s, sym)
  {
    IndexedSlot(s.t, sym);
    hide Good;
    assert s.emits[|s.emits|..] == [];
  }

  /** Slots of different tickers differ. */
  lemma {:induction false} OwnSlot(t: Table, k: nat, sym: nat)
    requires Good(t) && k < |t.active| && sym in t.bySym
    ensures t.active[k] < |t.watch| && t.bySym[sym] < |t.watch| && t.watch[t.active[k]].sym in t.bySym
    ensures t.bySym[sym] == t.active[k] <==> t.watch[t.active[k]].sym == sym
  {
  }

  lemma {:induction false} VisitRises(r: Rules, s: State, k: nat, now: nat, sym: nat)
    requires Good(s.t) && k < |s.t.active| && s.t.active[k] < |s.t.watch| && sym in Visit(r, s, k, now).t.bySym
    ensures sym in s.t.bySym && Rises(s, Visit(r, s, k, now), sym)
  {
    hide Good, Expired, Cooled, DropAt;
    var idx := s.t.active[k];
    var w := s.t.watch[idx];
    OwnSlot(s.t, k, sym);
    assert s.emits[|s.emits|..] == [];
    assert (s.emits + [Emission(Judged(r, w, now).tier, w.sym, now)])[|s.emits|..] == [Emission(Judged(r, w, now).tier, w.sym, now)];
    hide Judged;
  }

  lemma {:induction false} VisitsRise(r: Rules, s: State, k: nat, now: nat, sym: nat)
    requires Good(s.t) && k <= |s.t.active| && sym in Visits(r, s, k, now).t.bySym
    ensures sym in s.t.bySym && Rises(s, Visits(r, s, k, now), sym)
    decreases k
  {
    hide Good, Visit, Rises;
    if k == 0 {
      RisesSame(s, sym);
    } else {
      VisitGood(r, s, k - 1, now);
      var m := Visit(r, s, k - 1, now);
      VisitsRise(r, m, k - 1, now, sym);
      VisitRises(r, s, k - 1, now, sym);
      RisesOn(s, m, Visits(r, m, k - 1, now), sym);
    }
  }

  /** A ticker that is on the list before and after a new story came has its own slot, untouched. */
  lemma {:induction false} AdmitKeeps(t: Table, x: nat, sym: nat)
    requires Good(t) && x !in t.bySym && sym in t.bySym && sym in Admit(t, x).bySym
    ensures var u := Admit(t, x);
            && u.bySym[sym] == t.bySym[sym] < |t.watch| == |u.watch| && u.watch[u.bySym[sym]] == t.watch[t.bySym[sym]]
            && u.bySym[x] != u.bySym[sym]
  {
    RoomKeeps(t, sym);
    hide Good, Room;
    var m := Room(t);
    RoomFree(m, sym);
  }

  lemma {:induction false} RoomFree(t: Table, sym: nat)
    requires Good(t) && t.free != [] && sym in t.bySym
    ensures t.bySym[sym] != t.free[|t.free| - 1] < |t.watch| == SLOTS
  {
  }

  lemma {:induction false} RoomKeeps(t: Table, sym: nat)
    requires Good(t) && sym in Room(t).bySym
    ensures sym in t.bySym && Room(t).bySym[sym] == t.bySym[sym] < |t.watch| == |Room(t).watch|
    ensures Room(t).watch[t.bySym[sym]] == t.watch[t.bySym[sym]]
  {
    hide DropAt;
    if t.free == [] {
      FullHasStories(t);
      OwnSlot(t, OldestOf(t, |t.active|), sym);
      hide Good, OldestOf, IsOldest;
    } else {
      IndexedSlot(t, sym);
      hide Good;
    }
  }

  lemma {:induction false} ScoredRises(r: Rules, s: State, idx: nat, score: int, now: nat, sym: nat)
    requires Good(s.t) && idx < |s.t.watch| && sym in s.t.bySym && (s.t.bySym[sym] == idx <==> s.t.watch[idx].sym == sym)
    requires s.t.watch[idx].sym == sym ==> score >= s.t.watch[idx].score
    ensures Rises(s, Scored(r, s, idx, score, now), sym)
  {
    IndexedSlot(s.t, sym);
    hide Good, Cooled;
    assert s.emits[|s.emits|..] == [];
    assert (s.emits + [Emission(Watched, s.t.watch[idx].sym, now)])[|s.emits|..] == [Emission(Watched, s.t.watch[idx].sym, now)];
  }

  lemma {:induction false} StoryRises(r: Rules, s: State, x: Story, tNews: nat, now: nat, sym: nat)
    requires Good(s.t) && sym in s.t.bySym && sym in StoryAfter(r, s, x, tNews, now).t.bySym
    ensures Rises(s, StoryAfter(r, s, x, tNews, now), sym)
  {
    hide Good, Scored, NewStory, Rises;
    RisesSame(s, sym);
    if Stored(s.t, x) {
      if x.sym in s.t.bySym {
        IndexedSlot(s.t, x.sym);
        IndexedSlot(s.t, sym);
        ScoredRises(r, s, s.t.bySym[x.sym], x.score, now, sym);
      } else {
        NewStoryRises(r, s, x, tNews, now, sym);
      }
    }
  }

  lemma {:induction false} NewStoryRises(r: Rules, s: State, x: Story, tNews: nat, now: nat, sym: nat)
    requires Good(s.t) && x.sym !in s.t.bySym && sym in s.t.bySym && sym in NewStory(r, s, x, tNews, now).t.bySym
    ensures Rises(s, NewStory(r, s, x, tNews, now), sym)
  {
    hide Good, Scored, Admit, Rises;
    var t := Admit(s.t, x.sym);
    var idx := t.bySym[x.sym];
    var m := s.(t := Dated(t, idx, tNews));
    DatedGood(t, idx, tNews);
    ScoredIndex(r, m, idx, x.score, now);
    AdmitKeeps(s.t, x.sym, sym);
    IndexedSlot(m.t, x.sym);
    ScoredRises(r, m, idx, x.score, now, sym);
    RisesFrom(s, m, Scored(r, m, idx, x.score, now), sym);
  }

  lemma {:induction false} ScoredIndex(r: Rules, s: State, idx: nat, score: int, now: nat)
    requires idx < |s.t.watch|
    ensures Scored(r, s, idx, score, now).t.bySym == s.t.bySym
  {
    hide Cooled;
  }

  /** The beginning may be replaced by a state with the same story of the ticker and the same signals. */
  lemma {:induction false} RisesFrom(s: State, m: State, u: State, sym: nat)
    requires Rises(m, u, sym) && s.emits == m.emits && Listed(s.t, sym) && StoryOf(s.t, sym) == StoryOf(m.t, sym)
    ensures Rises(s, u, sym)
  {
    hide Climbs;
  }

  /** The ticker is on the list after each story of a news item. */
  ghost predicate StaysThrough(r: Rules, s: State, stories: seq<Story>, tNews: nat, now: nat, sym: nat)
    requires Good(s.t)
  {
    forall i :: 0 <= i <= |stories| ==> sym in StoriesAfter(r, s, stories[..i], tNews, now).t.bySym
  }

  lemma {:induction false} StoriesRise(r: Rules, s: State, stories: seq<Story>, i: nat, tNews: nat, now: nat, sym: nat)
    requires Good(s.t) && i <= |stories| && StaysThrough(r, s, stories, tNews, now, sym)
    ensures Rises(s, StoriesAfter(r, s, stories[..i], tNews, now), sym)
    decreases i
  {
    hide Good, StoryAfter, Rises, Touched;
    if i == 0 {
      assert stories[..0] == [];
      RisesSame(s, sym);
    } else {
      StoriesRise(r, s, stories, i - 1, tNews, now, sym);
      StoriesNext(r, s, stories, i - 1, tNews, now);
      var m := StoriesAfter(r, s, stories[..i - 1], tNews, now);
      assert sym in m.t.bySym && sym in StoriesAfter(r, s, stories[..i], tNews, now).t.bySym;
      hide StoriesAfter;
      StoryRises(r, m, stories[i - 1], tNews, now, sym);
      RisesOn(s, m, StoryAfter(r, m, stories[i - 1], tNews, now), sym);
    }
  }

  /** The ticker's story is on the list throughout an event. */
  ghost predicate StaysDuring(r: Rules, s: State, e: Event, sym: nat)
    requires Good(s.t)
  {
    sym in EventAfter(r, s, e).t.bySym
    && (e.News? ==> StaysThrough(r, s, e.stories, ArrivalOf(e.recv, e.now), e.now, sym))
  }

  lemma {:induction false} EventRises(r: Rules, s: State, e: Event, sym: nat)
    requires Good(s.t) && StaysDuring(r, s, e, sym)
    ensures Rises(s, EventAfter(r, s, e), sym)
  {
    hide Good, Rises, Visits, StoriesAfter, Touched;
    match e {
      case News(stories, recv, now) =>
        StoriesRise(r, s, stories, |stories|, ArrivalOf(recv, now), now, sym);
        assert stories[..|stories|] == stories;
        var m := StoriesAfter(r, s, stories, ArrivalOf(recv, now), now);
        if Touched(r, s, stories, ArrivalOf(recv, now), now) {
          VisitsRise(r, m, |m.t.active|, now, sym);
          RisesOn(s, m, Visits(r, m, |m.t.active|, now), sym);
        }
      case Tick(now) =>
        VisitsRise(r, s, |s.t.active|, now, sym);
    }
  }

  /** The ticker's story is on the list throughout a run. */
  ghost predicate Stays(r: Rules, s: State, events: seq<Event>, sym: nat)
    requires Good(s.t)
    decreases |events|
  {
    if events == [] then sym in s.t.bySym
    else
      var before := events[..|events| - 1];
      Stays(r, s, before, sym) && StaysDuring(r, RunAfter(r, s, before), events[|events| - 1], sym)
  }

  /**
   Over any run that a story stays on the list its time is kept, its score and its tier never fall, and each of
   its signals is of a higher tier than the one before: no tier is signalled twice.
   */
  lemma {:induction false} RunRises(r: Rules, s: State, events: seq<Event>, sym: nat)
    requires Good(s.t) && Stays(r, s, events, sym)
    ensures Rises(s, RunAfter(r, s, events), sym)
    decreases |events|
  {
    hide Good, Rises, EventAfter, StaysDuring;
    if events == [] {
      RisesSame(s, sym);
    } else {
      var before := events[..|events| - 1];
      RunRises(r, s, before, sym);
      var m := RunAfter(r, s, before);
      EventRises(r, m, events[|events| - 1], sym);
      RisesOn(s, m, EventAfter(r, m, events[|events| - 1]), sym);
    }
  }

  // ---- signals are never taken back ----

  lemma {:induction false} VisitsAppend(r: Rules, s: State, k: nat, now: nat)
    requires Good(s.t) && k <= |s.t.active|
    ensures s.emits <= Visits(r, s, k, now).emits
    decreases k
  {
    hide Good, Visit, Emits, SameTime;
    if k > 0 {
      VisitGood(r, s, k - 1, now);
      VisitEmits(r, s, k - 1, now);
      VisitsAppend(r, Visit(r, s, k - 1, now), k - 1, now);
    }
  }

  lemma {:induction false} StoriesAppend(r: Rules, s: State, stories: seq<Story>, tNews: nat, now: nat)
    requires Good(s.t)
    ensures s.emits <= StoriesAfter(r, s, stories, tNews, now).emits
    decreases |stories|
  {
    hide Good, StoryAfter;
    if stories != [] {
      StoriesAppend(r, s, stories[..|stories| - 1], tNews, now);
      StoryAppends(r, StoriesAfter(r, s, stories[..|stories| - 1], tNews, now), stories[|stories| - 1], tNews, now);
    }
  }

  lemma {:induction false} StoryAppends(r: Rules, s: State, x: Story, tNews: nat, now: nat)
    requires Good(s.t)
    ensures s.emits <= StoryAfter(r, s, x, tNews, now).emits
  {
    hide Good, Cooled, Admit, Dated;
    if Stored(s.t, x) {
      if x.sym in s.t.bySym {
        IndexedSlot(s.t, x.sym);
      } else {
        DatedSize(Admit(s.t, x.sym), Admit(s.t, x.sym).bySym[x.sym], tNews);
      }
    }
  }

  lemma {:induction false} RunAppends(r: Rules, s: State, events: seq<Event>)
    requires Good(s.t)
    ensures s.emits <= RunAfter(r, s, events).emits
    decreases |events|
  {
    hide Good, EventAfter;
    if events != [] {
      RunAppends(r, s, events[..|events| - 1]);
      EventAppends(r, RunAfter(r, s, events[..|events| - 1]), events[|events| - 1]);
    }
  }

  lemma {:induction false} EventAppends(r: Rules, s: State, e: Event)
    requires Good(s.t)
    ensures s.emits <= EventAfter(r, s, e).emits
  {
    hide Good, Visits, StoriesAfter, Touched;
    match e {
      case News(stories, recv, now) =>
        StoriesAppend(r, s, stories, ArrivalOf(recv, now), now);
        var m := StoriesAfter(r, s, stories, ArrivalOf(recv, now), now);
        VisitsAppend(r, m, |m.t.active|, now);
      case Tick(now) =>
        VisitsAppend(r, s, |s.t.active|, now);
    }
  }

  // ---- the engine's part ----

  class Watchlist {
    const r: Rules
    var watch: seq<Watch>
    var active: seq<nat>
    var free: seq<nat>
    var bySym: map<nat, nat>
    var last: LastTimes
    ghost var emits: seq<Emission>

    ghost function T(): Table
      reads this`watch, this`active, this`free, this`bySym
    {
      Table(watch, active, free, bySym)
    }

    ghost function S(): State
      reads this`watch, this`active, this`free, this`bySym, this`last, this`emits
    {
      State(T(), last, emits)
    }

    constructor (r: Rules)
      ensures Good(T()) && this.r == r && active == [] && S() == State(T(), map[], [])
      ensures Spaced(emits, last, r.cooldown, 0)
    {
      this.r := r;
      watch := seq(SLOTS, i => Watch(false, Unrated, 0, 0, 0));
      active, bySym, last, emits := [], map[], map[], [];
      free := seq(SLOTS, i requires 0 <= i < SLOTS => SLOTS - 1 - i);
    }

    method Find(sym: nat) returns (idx: Option<nat>)
      ensures idx == if sym in bySym then Some(bySym[sym]) else None
    {
      if sym in bySym {
        return Some(bySym[sym]);
      }
      return None;
    }

    method DeactivateAt(pos: nat)
      requires pos < |active| && active[pos] < |watch|
      modifies this`watch, this`active, this`free, this`bySym
      ensures T() == Deactivate(old(T()), pos)
    {
      var idx := active[pos];
      bySym := bySym - {watch[idx].sym};
      watch := watch[idx := watch[idx].(active := false)];
      active := active[pos := active[|active| - 1]];
      active := active[..|active| - 1];
      free := free + [idx];
    }

    method Oldest() returns (oldest: nat)
      requires active != [] && SlotsIn(active, watch)
      ensures oldest == OldestOf(T(), |active|)
    {
      oldest := 0;
      for k := 1 to |active|
        invariant oldest == OldestOf(T(), k)
      {
        if watch[active[k]].tNews < watch[active[oldest]].tNews {
          oldest := k;
        }
      }
    }

    method ActivateFor(sym: nat) returns (idx: nat)
      requires Good(T()) && sym !in bySym
      modifies this`watch, this`active, this`free, this`bySym
      ensures T() == Admit(old(T()), sym) && bySym[sym] == idx
    {
      ghost var t := T();
      if free == [] {
        FullHasStories(t);
        hide Good, OldestOf, IsOldest, SlotsIn;
        var oldest := Oldest();
        DeactivateAt(oldest);
      }
      hide Good, OldestOf, IsOldest, SlotsIn;
      assert T() == Room(t);
      RoomLast(t);
      idx := TakeSlot(sym);
    }

    method TakeSlot(sym: nat) returns (idx: nat)
      requires free != [] && free[|free| - 1] < |watch|
      modifies this`watch, this`active, this`free, this`bySym
      ensures T() == Activate(old(T()), sym) && sym in bySym && bySym[sym] == idx
    {
      idx := free[|free| - 1];
      free := free[..|free| - 1];
      watch := watch[idx := Watch(true, Unrated, sym, 0, 0)];
      active := active + [idx];
      bySym := bySym[sym := idx];
    }

    /** True, and the time is noted, unless the ticker had this tier within the cooldown. */
    method CooledDown(sym: nat, tier: Tier, now: nat) returns (ok: bool)
      modifies this`last
      ensures ok == Cooled(old(last), r.cooldown, sym, tier, now)
      ensures last == if ok then old(last)[(sym, tier) := now] else old(last)
    {
      ok := (sym, tier) !in last || Sub64(now, last[(sym, tier)]) >= r.cooldown;
      if ok {
        last := last[(sym, tier) := now];
      }
    }

    method VisitAt(k: nat, now: nat)
      requires k < |active| && active[k] < |watch|
      modifies this`watch, this`active, this`free, this`bySym, this`last, this`emits
      ensures S() == Visit(r, old(S()), k, now)
    {
      hide Judged, Deactivate, Cooled;
      var idx := active[k];
      var w := watch[idx];
      if Expired(r, w, now) {
        DeactivateAt(k);
        return;
      }
      var w' := Judged(r, w, now);
      watch := watch[idx := w'];
      if w'.tier != w.tier {
        var ok := CooledDown(w.sym, w'.tier, now);
        if ok {
          emits := emits + [Emission(w'.tier, w.sym, now)];
        }
      }
    }

    /** Every story on the list is looked at once, from the back, and its signals are those of its own rules. */
    method Evaluate(now: nat)
      requires Good(T())
      modifies this`watch, this`active, this`free, this`bySym, this`last, this`emits
      ensures S() == Looked(r, old(S()), now)
      ensures Evaluated(r, old(S()), S(), 0, now) && Logged(r, old(S()), S(), 0, now)
    {
      hide Visit, Good, Evaluated, Logged;
      ghost var s0 := S();
      var k: nat := |active|;
      while k > 0
        invariant Good(T()) && k <= |active| && Visits(r, S(), k, now) == Looked(r, s0, now)
        decreases k
      {
        k := k - 1;
        VisitGood(r, S(), k, now);
        VisitAt(k, now);
      }
      LookedMeans(r, s0, now);
    }

    /** A scored story: kept unless its ticker has an earlier one at least as strong. */
    method OnStory(x: Story, recv: nat, now: nat) returns (touched: bool)
      requires Good(T()) && x.eligible
      modifies this`watch, this`active, this`free, this`bySym, this`last, this`emits
      ensures S() == StoryAfter(r, old(S()), x, ArrivalOf(recv, now), now)
      ensures touched == Stored(old(T()), x)
    {
      hide Good, Scored, Admit;
      var found := Find(x.sym);
      var idx: nat;
      if found.Some? {
        IndexedSlot(T(), x.sym);
        idx := found.value;
        if x.score <= watch[idx].score {
          return false;
        }
      } else {
        idx := ActivateFor(x.sym);
        watch := watch[idx := watch[idx].(tNews := if recv != 0 then recv else now)];
      }
      ScoreSlot(idx, x.score, now);
      touched := true;
    }

    method ScoreSlot(idx: nat, score: int, now: nat)
      requires idx < |watch|
      modifies this`watch, this`last, this`emits
      ensures S() == Scored(r, old(S()), idx, score, now)
    {
      hide Cooled;
      var w := watch[idx].(score := score);
      watch := watch[idx := w];
      if w.tier == Unrated {
        watch := watch[idx := w.(tier := Watched)];
        var ok := CooledDown(w.sym, Watched, now);
        if ok {
          emits := emits + [Emission(Watched, w.sym, now)];
        }
      }
    }

    /** The tickers of a news item, and an evaluation at once when any of them changed the list. */
    method OnNews(stories: seq<Story>, recv: nat, now: nat)
      requires Good(T())
      modifies this`watch, this`active, this`free, this`bySym, this`last, this`emits
      ensures S() == NewsAfter(r, old(S()), stories, recv, now)
    {
      hide Good, Touched, StoriesAfter, Looked, Evaluated, Logged;
      var touched := TakeStories(stories, recv, now);
      if touched {
        Evaluate(now);
      }
    }

    method TakeStories(stories: seq<Story>, recv: nat, now: nat) returns (touched: bool)
      requires Good(T())
      modifies this`watch, this`active, this`free, this`bySym, this`last, this`emits
      ensures S() == StoriesAfter(r, old(S()), stories, ArrivalOf(recv, now), now)
      ensures touched == Touched(r, old(S()), stories, ArrivalOf(recv, now), now)
    {
      hide Good, StoryAfter, Stored, ArrivalOf, StoriesAfter, Touched;
      ghost var s, tNews := S(), ArrivalOf(recv, now);
      touched := false;
      StoriesNone(r, s, stories[..0], tNews, now);
      for i := 0 to |stories|
        invariant Good(T()) && S() == StoriesAfter(r, s, stories[..i], tNews, now)
        invariant touched == Touched(r, s, stories[..i], tNews, now)
      {
        StoriesNext(r, s, stories, i, tNews, now);
        if stories[i].eligible {
          var stored := OnStory(stories[i], recv, now);
          touched := touched || stored;
        } else {
          IneligibleIgnored(r, S(), stories[i], tNews, now);
        }
      }
      assert stories[..|stories|] == stories;
    }

    /**
     A whole run. With a clock that never goes back from `clock` on, signals of one tier and ticker are a cooldown apart.
     */
    method Run(events: seq<Event>, ghost clock: nat)
      requires Good(T())
      modifies this`watch, this`active, this`free, this`bySym, this`last, this`emits
      ensures S() == RunAfter(r, old(S()), events) && old(emits) <= emits
      ensures InOrder(events, clock) && Spaced(old(emits), old(last), r.cooldown, clock)
              ==> Spaced(emits, last, r.cooldown, LastTime(events, clock))
    {
      hide Good, Spaced, Evaluated, Logged, NewsAfter, Looked;
      ghost var s := S();
      assert events[..0] == [];
      for i := 0 to |events|
        invariant Good(T()) && S() == RunAfter(r, s, events[..i])
      {
        assert events[..i + 1][..i] == events[..i];
        match events[i] {
          case News(stories, recv, now) => OnNews(stories, recv, now);
          case Tick(now) => Evaluate(now);
        }
      }
      assert events[..|events|] == events;
      RunAppends(r, s, events);
      if InOrder(events, clock) && Spaced(s.emits, s.last, r.cooldown, clock) {
        RunSpaced(r, s, events, clock);
      }
    }
  }

  lemma {:induction false} RoomLast(t: Table)
    requires Good(t)
    ensures Room(t).free != [] && Room(t).free[|Room(t).free| - 1] < |Room(t).watch|
  {
    LastIsFree(Room(t));
  }

  lemma {:induction false} StoriesNone(r: Rules, s: State, stories: seq<Story>, tNews: nat, now: nat)
    requires Good(s.t) && stories == []
    ensures StoriesAfter(r, s, stories, tNews, now) == s && !Touched(r, s, stories, tNews, now)
  {
  }

  lemma {:induction false} IneligibleIgnored(r: Rules, s: State, x: Story, tNews: nat, now: nat)
    requires Good(s.t) && !x.eligible
    ensures !Stored(s.t, x) && StoryAfter(r, s, x, tNews, now) == s
  {
  }
}
