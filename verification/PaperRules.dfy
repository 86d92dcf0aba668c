/**
 What the paper trader promises, in terms of the board it trades against: at which side and price it buys and
 sells, when it does, and what every trade it reports can be relied on for.
 */
module PaperRules {
  import opened Arithmetic
  import opened PaperTrading
  import EasternTime

  // ---- prices ----

  /** The larger of the minimum commission and the commission by the share. */
  ghost predicate IsCommission(c: Config, shares: real, fee: real) {
    && fee >= c.commissionMin && fee >= shares * c.commissionPerShare
    && (fee == c.commissionMin || fee == shares * c.commissionPerShare)
  }

  /** Hundredths of a percent are added to or taken off a price. */
  lemma {:induction false} Slipped(px: real, bps: real)
    ensures px * (1.0 + bps / 10000.0) * 10000.0 == px * (10000.0 + bps)
    ensures px * (1.0 - bps / 10000.0) * 10000.0 == px * (10000.0 - bps)
  {
    var up, down := 1.0 + bps / 10000.0, 1.0 - bps / 10000.0;
    assert up * 10000.0 == 10000.0 + bps && down * 10000.0 == 10000.0 - bps;
    assert px * up * 10000.0 == px * (up * 10000.0) && px * down * 10000.0 == px * (down * 10000.0);
  }

  lemma {:induction false} ChaseIs(signalPx: real, pct: real, px: real)
    ensures px > signalPx * (1.0 + pct / 100.0) <==> px * 100.0 > signalPx * (100.0 + pct)
  {
    var f := 1.0 + pct / 100.0;
    assert f * 100.0 == 100.0 + pct;
    assert signalPx * f * 100.0 == signalPx * (f * 100.0);
  }

  /** A product as one value. */
  ghost function Times(a: real, b: real): real {
    a * b
  }

  lemma {:induction false} SharesAfford(usd: real, fill: real)
    requires fill > 0.0
    ensures var n := Shares(usd, fill);
            Times(n, fill) <= usd < Times(n, fill) + fill && (n < 1.0 <==> usd < fill)
  {
    var q, n := usd / fill, Shares(usd, fill);
    assert n < 1.0 <==> q < 1.0 by {
      assert n < 1.0 ==> n.Floor <= 0;
    }
    Divided(usd, fill, q);
    Between(n, q, fill);
    hide Shares, Times;
  }

  lemma {:induction false} Divided(x: real, f: real, q: real)
    requires f > 0.0 && q == x / f
    ensures Times(q, f) == x
  {
  }

  lemma {:induction false} Between(n: real, q: real, f: real)
    requires f > 0.0 && n <= q < n + 1.0
    ensures Times(n, f) <= Times(q, f) < Times(n, f) + f && (q < 1.0 <==> Times(q, f) < f)
  {
    Scale(n, q, f);
    Scale(q, n + 1.0, f);
    Scale(q, 1.0, f);
    OneMore(n, f);
    hide Times;
  }

  lemma {:induction false} OneMore(n: real, f: real)
    ensures Times(n + 1.0, f) == Times(n, f) + f && Times(1.0, f) == f
  {
  }

  lemma {:induction false} Scale(a: real, b: real, f: real)
    requires f > 0.0
    ensures a < b <==> Times(a, f) < Times(b, f)
  {
    assert (b - a) * f == b * f - a * f;
    if a < b {
      assert (b - a) * f > 0.0;
    } else if b < a {
      assert (a - b) * f > 0.0;
    }
  }

  // ---- entering ----

  /** The price an order would be filled at before slippage: the ask, or the last trade without a quote. */
  ghost function Offer(h: Hot): real {
    if h.quoted then h.ask else h.last
  }

  /** The order would be filled further above the signal's price than allowed. */
  ghost predicate RanAway(c: Config, signalPx: real, h: Hot) {
    signalPx > 0.0 && Offer(h) * 100.0 > signalPx * (100.0 + c.maxChasePct)
  }

  /** One share costs more than the position may. */
  ghost predicate TooDear(c: Config, h: Hot) {
    c.positionUsd * 10000.0 < Offer(h) * (10000.0 + c.slippageBps)
  }

  /** Nothing can be bought at the moment. */
  ghost predicate Unbuyable(h: Hot) {
    h.halted || Offer(h) <= 0.0
  }

  /**
   An order that has reached the market: it is filled iff the stock trades at a price that has not run away and
   at least one share is affordable; it is dropped when the price ran away or is too high for one share, or when
   nothing could be bought for longer than the timeout; otherwise it waits.
   */
  lemma {:induction false} EntryRules(c: Config, p: Pos, board: Board, now: nat)
    requires Sane(c) && p.active && !p.filled && now >= p.eligible
    ensures PricedPos(p)
    ensures var h, p' := board(p.t.sym), AfterStep(c, p, board, now);
            var late := (now - p.eligible) % 0x1_0000_0000_0000_0000 > c.entryTimeoutS * 1_000_000_000;
            && (p'.filled <==> !Unbuyable(h) && !RanAway(c, p.t.signalPx, h) && !TooDear(c, h))
            && (p'.active <==> if Unbuyable(h) then !late else p'.filled)
            && (p'.active && !p'.filled ==> p' == p)
            && (p'.filled ==> Bought(c, p, p', h, now))
  {
    var h := board(p.t.sym);
    if !Unbuyable(h) {
      ChaseIs(p.t.signalPx, c.maxChasePct, Offer(h));
      Slipped(Offer(h), c.slippageBps);
      var fill := BuyPx(c, Offer(h));
      SharesAfford(c.positionUsd, fill);
      hide Shares, BuyPx, Fees;
      FeesAre(c, Shares(c.positionUsd, fill));
    }
  }

  lemma {:induction false} FeesAre(c: Config, shares: real)
    ensures IsCommission(c, shares, Fees(c, shares))
  {
  }

  /** What a fill is: offer and slippage, whole shares for no more than the position, one commission. */
  ghost predicate Bought(c: Config, p: Pos, p': Pos, h: Hot, now: nat) {
    var t, t' := p.t, p'.t;
    && p'.active && p'.eligible == p.eligible
    && t'.sym == t.sym && t'.tier == t.tier && t'.signalNs == t.signalNs && t'.signalPx == t.signalPx
    && t'.entryNs == now && t'.entryPx * 10000.0 == Offer(h) * (10000.0 + c.slippageBps) && t'.entryPx > 0.0
    && t'.shares == t'.shares.Floor as real && t'.shares >= 1.0
    && t'.shares * t'.entryPx <= c.positionUsd < t'.shares * t'.entryPx + t'.entryPx
    && IsCommission(c, t'.shares, t'.fees) && t'.mfe == 0.0 == t'.mae && !t'.closed
    && t'.quoteEntry == h.quoted && (t'.overTouch <==> h.quoted && t'.shares > h.askSize)
  }

  // ---- leaving ----

  /** The price a position would be sold at before slippage: the bid, or the last trade without a quote. */
  ghost function Demand(h: Hot): real {
    if h.quoted then h.bid else h.last
  }

  /** What a sale is: demand less slippage, a second commission, and the profit that leaves. */
  ghost predicate SoldAt(c: Config, t: Trade, t': Trade, h: Hot, now: nat) {
    && t'.closed && t'.exitNs == now && t'.quoteExit == h.quoted
    && t'.exitPx * 10000.0 == Demand(h) * (10000.0 - c.slippageBps)
    && IsCommission(c, t.shares, t'.fees - t.fees)
    && t'.pnl == t'.exitPx * t.shares - t.entryPx * t.shares - t'.fees
    && t' == t.(mfe := t'.mfe, mae := t'.mae, closed := true, exitPx := t'.exitPx, exitNs := now, quoteExit := h.quoted,
                fees := t'.fees, pnl := t'.pnl, reason := t'.reason)
  }

  /** Which exit rules apply to a position whose gain is `gain` percent, the highest so far `high`. */
  datatype Rules = Rules(stop: bool, target: bool, trail: bool, timeUp: bool, flat: bool) {
    predicate Any() {
      stop || target || trail || timeUp || flat
    }

    /** The first that applies, in this order. */
    function First(): Reason
      requires Any()
    {
      if stop then Stop else if target then Target else if trail then Trail else if timeUp then TimeUp else Flat
    }
  }

  ghost function RulesAt(c: Config, t: Trade, gain: real, high: real, now: nat): Rules {
    Rules(gain <= -c.stopLossPct, gain >= c.takeProfitPct, high >= c.trailActivatePct && gain <= high - c.trailPct,
          (now - t.entryNs) % 0x1_0000_0000_0000_0000 >= c.maxHoldMin * 60 * 1_000_000_000,
          EasternTime.MinuteOfDay(t.entryNs) < c.flatByMinute <= EasternTime.MinuteOfDay(now))
  }

  /**
   A held position: while the stock is halted or has no price nothing happens. Otherwise its extremes follow the
   gain at the bid, and it is sold there iff an exit rule applies, for the first of them: stop, target, trail,
   holding time, end of day.
   */
  lemma {:induction false} ExitRules(c: Config, p: Pos, board: Board, now: nat, gain: real)
    requires Sane(c) && p.active && p.filled && p.t.entryPx > 0.0
    requires gain * p.t.entryPx == (Demand(board(p.t.sym)) - p.t.entryPx) * 100.0
    ensures var h, t, p' := board(p.t.sym), p.t, AfterStep(c, p, board, now);
            var high, low := if gain > t.mfe then gain else t.mfe, if gain < t.mae then gain else t.mae;
            var rules := RulesAt(c, t, gain, high, now);
            if h.halted || Demand(h) <= 0.0 then p' == p
            else
              && p'.t.mfe == high && p'.t.mae == low
              && (p'.active <==> !rules.Any())
              && (p'.active ==> p' == p.(t := t.(mfe := high, mae := low)))
              && (!p'.active ==> SoldAt(c, t, p'.t, h, now) && p'.t.reason == rules.First())
  {
    var h, t := board(p.t.sym), p.t;
    ExitIs(c, t, h, now, gain);
    var r := CheckExit(c, t, h, now);
    if r.Sell? {
      ClosedIs(c, t, r.t, h, now, r.reason);
    }
    hide CheckExit, Closed, SoldAt, RulesAt, SalePx;
  }

  lemma {:induction false} ExitIs(c: Config, t: Trade, h: Hot, now: nat, gain: real)
    requires t.entryPx > 0.0 && gain * t.entryPx == (Demand(h) - t.entryPx) * 100.0
    ensures var r := CheckExit(c, t, h, now);
            var high, low := if gain > t.mfe then gain else t.mfe, if gain < t.mae then gain else t.mae;
            var rules := RulesAt(c, t, gain, high, now);
            if h.halted || Demand(h) <= 0.0 then r == Hold(t)
            else
              && r.t == t.(mfe := high, mae := low) && (r.Hold? <==> !rules.Any())
              && (r.Sell? ==> r.reason == rules.First() && r.px == SalePx(c, Demand(h)) && r.quote == h.quoted)
  {
    hide SalePx, EasternTime.MinuteOfDay;
    GainIs(Demand(h), t.entryPx, gain);
  }

  lemma {:induction false} ClosedIs(c: Config, t: Trade, t1: Trade, h: Hot, now: nat, reason: Reason)
    requires t1 == t.(mfe := t1.mfe, mae := t1.mae)
    ensures SoldAt(c, t, Closed(c, t1, now, reason, SalePx(c, Demand(h)), h.quoted), h, now)
  {
    Slipped(Demand(h), c.slippageBps);
    FeesAre(c, t.shares);
    var px := SalePx(c, Demand(h));
    var t' := Closed(c, t1, now, reason, px, h.quoted);
    hide Fees;
    SameProduct(px - t1.entryPx, t1.shares, t'.exitPx - t.entryPx, t.shares);
    Profit(t'.exitPx, t.entryPx, t.shares);
  }

  lemma {:induction false} SameProduct(a: real, b: real, x: real, y: real)
    requires a == x && b == y
    ensures a * b == x * y
  {
  }

  lemma {:induction false} GainIs(mark: real, entry: real, gain: real)
    requires entry > 0.0 && gain * entry == (mark - entry) * 100.0
    ensures (mark - entry) * 100.0 / entry == gain
  {
    var q := (mark - entry) * 100.0 / entry;
    Divided((mark - entry) * 100.0, entry, q);
    Cancel(q, gain, entry);
  }

  lemma {:induction false} Cancel(a: real, b: real, f: real)
    requires f > 0.0 && Times(a, f) == Times(b, f)
    ensures a == b
  {
    Scale(a, b, f);
    Scale(b, a, f);
    hide Times;
  }

  lemma {:induction false} Profit(exit: real, entry: real, shares: real)
    ensures (exit - entry) * shares == exit * shares - entry * shares
  {
  }

  /** With slippage against it, the trader never pays less than the ask nor gets more than the bid. */
  lemma {:induction false} NoBetterThanTouch(c: Config, p: Pos, p': Pos, t: Trade, t': Trade, h: Hot, now: nat)
    requires c.slippageBps >= 0.0 && h.quoted
    ensures Bought(c, p, p', h, now) && h.ask > 0.0 ==> p'.t.entryPx >= h.ask
    ensures SoldAt(c, t, t', h, now) && h.bid > 0.0 ==> t'.exitPx <= h.bid
  {
    assert h.ask > 0.0 ==> h.ask * c.slippageBps >= 0.0;
    assert h.bid > 0.0 ==> h.bid * c.slippageBps >= 0.0;
    assert h.ask * (10000.0 + c.slippageBps) == h.ask * 10000.0 + h.ask * c.slippageBps;
    assert h.bid * (10000.0 - c.slippageBps) == h.bid * 10000.0 - h.bid * c.slippageBps;
  }

  // ---- signals and days ----

  /** The order a signal becomes: it reaches the market after the latency. */
  ghost predicate IsOrder(c: Config, p: Pos, signal: Signal, now: nat) {
    && p.active && !p.filled && p.eligible == now + c.latencyNs
    && p.t.sym == signal.sym && p.t.tier == signal.tier && p.t.signalNs == now
    && p.t.signalPx == if signal.ask > 0.0 then signal.ask else signal.price
  }

  ghost predicate IsTraded(c: Config, tier: Tier) {
    (tier == Alert && c.tradeAlert) || (tier == High && c.tradeHigh)
  }

  ghost predicate HasPosition(ps: seq<Pos>, sym: nat) {
    exists i :: 0 <= i < |ps| && ps[i].active && ps[i].t.sym == sym
  }

  ghost predicate AllTaken(ps: seq<Pos>) {
    forall i :: 0 <= i < |ps| ==> ps[i].active
  }

  /** `k` is the first free slot. */
  ghost predicate IsFirstFree(ps: seq<Pos>, k: nat) {
    k < |ps| && !ps[k].active && AllTaken(ps[..k])
  }

  /** Between the two states the signal met exactly one of its four fates. */
  ghost predicate Met(c: Config, s: Trader, y: Trader, signal: Signal, now: nat) {
    var dup, risk, full := HasPosition(s.pos, signal.sym), y.st.dayRealized <= -c.maxDailyLossUsd, AllTaken(s.pos);
    && y.st.signals == s.st.signals + 1
    && y.st.rejectedDup == s.st.rejectedDup + (if dup then 1 else 0)
    && y.st.rejectedRisk == s.st.rejectedRisk + (if !dup && risk then 1 else 0)
    && y.st.rejectedCapacity == s.st.rejectedCapacity + (if !dup && !risk && full then 1 else 0)
    && if dup || risk || full then y.pos == s.pos
       else exists k: nat :: IsFirstFree(s.pos, k) && k < |y.pos| && y.pos == s.pos[k := y.pos[k]]
                             && IsOrder(c, y.pos[k], signal, now)
  }

  /**
   A signal of a tier that is traded is counted and meets exactly one of four fates: its ticker has a position, the
   day's loss has reached the limit, every slot is taken, or it becomes an order in the first free slot.
   */
  lemma {:induction false} SignalRules(c: Config, s: Trader, signal: Signal, now: nat)
    ensures if IsTraded(c, signal.tier) then Met(c, s, Signalled(c, s, signal, now), signal, now)
            else Signalled(c, s, signal, now) == s
  {
    RolledPos(s, now);
    RolledCounts(s, now);
    hide Rolled;
    if IsTraded(c, signal.tier) {
      OrderMet(c, s, Rolled(s, now), signal, now);
    }
    hide Ordered, Met;
  }

  lemma {:induction false} OrderMet(c: Config, s: Trader, r: Trader, signal: Signal, now: nat)
    requires r.pos == s.pos && r.st == s.st.(dayRealized := r.st.dayRealized)
    ensures Met(c, s, Ordered(c, r, signal, now), signal, now)
  {
    hide FreeSlot;
    var k := FreeSlot(s.pos, 0);
    assert k < |s.pos| ==> !s.pos[k].active && IsFirstFree(s.pos, k);
  }

  lemma {:induction false} RolledCounts(s: Trader, now: nat)
    ensures Rolled(s, now).st == s.st.(dayRealized := Rolled(s, now).st.dayRealized)
  {
    hide EasternDay;
  }

  /**
   The day is that of the last look, and the last look is less than a minute old; a new day starts a new account of
   what the day has earned, the same day goes on with the old one.
   */
  lemma {:induction false} DayRules(s: Trader, now: nat)
    requires TrueDay(s)
    ensures var r := Rolled(s, now);
            && r.day == EasternDay(r.checked) && r.checked <= now < r.checked + 60_000_000_000
            && (r.checked != now ==> r == s)
            && (s.day == 0 || now < s.checked || now >= s.checked + 60_000_000_000 ==> r.checked == now)
            && (if r.day == s.day then r.st == s.st && r.dayBase == s.dayBase
                else r.st == s.st.(dayRealized := 0.0) && r.dayBase == s.st.realized)
  {
    hide EasternDay;
  }

  // ---- what every reported trade can be relied on for ----

  /** Hundredths of hundredths: the signal's price, plus the chase allowed, plus slippage. */
  ghost predicate WithinChase(c: Config, t: Trade) {
    t.signalPx > 0.0 ==> t.entryPx * 1_000_000.0 <= t.signalPx * (100.0 + c.maxChasePct) * (10000.0 + c.slippageBps)
  }

  /** An opened trade: of a traded tier, not before the latency was over, whole shares for no more than the position. */
  ghost predicate OpenOk(c: Config, t: Trade) {
    && IsTraded(c, t.tier)
    && t.entryNs >= t.signalNs + c.latencyNs && WithinChase(c, t)
    && t.entryPx > 0.0 && t.shares == t.shares.Floor as real && t.shares >= 1.0
    && t.shares * t.entryPx <= c.positionUsd < t.shares * t.entryPx + t.entryPx
    && IsCommission(c, t.shares, t.fees) && t.mfe == 0.0 == t.mae && !t.closed
  }

  /** `t` closes the trade opened as `o`: the same shares at the same entry, its profit proceeds less cost and commissions. */
  ghost predicate Closes(c: Config, o: Trade, t: Trade) {
    && t == o.(mfe := t.mfe, mae := t.mae, closed := true, exitPx := t.exitPx, exitNs := t.exitNs, quoteExit := t.quoteExit,
               fees := t.fees, pnl := t.pnl, reason := t.reason)
    && IsCommission(c, o.shares, t.fees - o.fees)
    && t.pnl == t.exitPx * o.shares - o.entryPx * o.shares - t.fees
  }

  ghost predicate Opening(log: seq<Trade>, j: nat) {
    j < |log| && !log[j].closed
  }

  /** Openings are in order, and every close closes an opening before it. */
  ghost predicate LogOk(c: Config, log: seq<Trade>) {
    && (forall i :: 0 <= i < |log| && !log[i].closed ==> OpenOk(c, log[i]))
    && (forall i :: 0 <= i < |log| && log[i].closed ==> exists j: nat :: j < i && Opening(log, j) && Closes(c, log[j], log[i]))
  }

  /** A pending order as its signal made it, or a position as it was opened but for its extremes. */
  ghost predicate PosOk(c: Config, log: seq<Trade>, p: Pos) {
    p.active ==>
      && IsTraded(c, p.t.tier)
      && p.eligible == p.t.signalNs + c.latencyNs
      && (p.filled ==> p.t.entryPx > 0.0 && exists j: nat :: Opening(log, j) && p.t == log[j].(mfe := p.t.mfe, mae := p.t.mae))
  }

  ghost predicate Reliable(c: Config, s: Trader) {
    LogOk(c, s.log) && forall i :: 0 <= i < |s.pos| ==> PosOk(c, s.log, s.pos[i])
  }

  lemma {:induction false} PosOkLater(c: Config, log: seq<Trade>, t: Trade, p: Pos)
    requires PosOk(c, log, p)
    ensures PosOk(c, log + [t], p)
  {
    if p.active && p.filled {
      var j: nat :| Opening(log, j) && p.t == log[j].(mfe := p.t.mfe, mae := p.t.mae);
      assert Opening(log + [t], j);
    }
  }

  lemma {:induction false} LogOpens(c: Config, log: seq<Trade>, t: Trade)
    requires LogOk(c, log) && OpenOk(c, t)
    ensures LogOk(c, log + [t]) && Opening(log + [t], |log|)
  {
    LogStays(c, log, t);
  }

  lemma {:induction false} LogStays(c: Config, log: seq<Trade>, t: Trade)
    requires LogOk(c, log)
    ensures var l := log + [t];
            && (forall i :: 0 <= i < |log| && !l[i].closed ==> OpenOk(c, l[i]))
            && (forall i :: 0 <= i < |log| && l[i].closed ==> exists j: nat :: j < i && Opening(l, j) && Closes(c, l[j], l[i]))
  {
    hide OpenOk, Closes;
    var l := log + [t];
    forall i | 0 <= i < |log| && l[i].closed ensures exists j: nat :: j < i && Opening(l, j) && Closes(c, l[j], l[i]) {
      var j: nat :| j < i && Opening(log, j) && Closes(c, log[j], log[i]);
      assert Opening(l, j) && Closes(c, l[j], l[i]);
    }
  }

  lemma {:induction false} LogCloses(c: Config, log: seq<Trade>, t: Trade, j: nat)
    requires LogOk(c, log) && Opening(log, j) && Closes(c, log[j], t)
    ensures LogOk(c, log + [t])
  {
    LogStays(c, log, t);
    hide OpenOk, Closes;
    assert Opening(log + [t], j) && Closes(c, (log + [t])[j], t);
  }

  /** A sale of what was opened closes it. */
  lemma {:induction false} SaleCloses(c: Config, o: Trade, t: Trade, t': Trade, h: Hot, now: nat)
    requires t == o.(mfe := t.mfe, mae := t.mae) && SoldAt(c, t, t', h, now)
    ensures Closes(c, o, t')
  {
    SameProduct(t'.exitPx, t.shares, t'.exitPx, o.shares);
    SameProduct(t.entryPx, t.shares, o.entryPx, o.shares);
    hide IsCommission;
  }

  lemma {:induction false} FillOpens(c: Config, p: Pos, p': Pos, h: Hot, now: nat)
    requires Sane(c) && Bought(c, p, p', h, now) && !RanAway(c, p.t.signalPx, h)
    requires IsTraded(c, p.t.tier)
    requires now >= p.eligible == p.t.signalNs + c.latencyNs
    ensures OpenOk(c, p'.t)
  {
    hide IsCommission;
    if p.t.signalPx > 0.0 {
      ChaseBound(Offer(h), p'.t.entryPx, p'.t.signalPx * (100.0 + c.maxChasePct), 10000.0 + c.slippageBps);
    }
  }

  lemma {:induction false} ChaseBound(offer: real, entry: real, limit: real, slip: real)
    requires slip > 0.0 && offer * 100.0 <= limit && entry * 10000.0 == Times(offer, slip)
    ensures entry * 1_000_000.0 <= Times(limit, slip)
  {
    Hundredfold(offer, slip);
    Scale(limit, offer * 100.0, slip);
    hide Times;
  }

  lemma {:induction false} Hundredfold(x: real, f: real)
    ensures Times(x * 100.0, f) == 100.0 * Times(x, f)
  {
  }

  /** One position's step keeps every reported trade reliable. */
  lemma {:induction false} StepPosReliable(c: Config, s: Trader, i: nat, board: Board, now: nat)
    requires Sane(c) && i < |s.pos| && PricedPos(s.pos[i]) && Reliable(c, s)
    ensures Reliable(c, StepPos(c, s, i, board, now))
  {
    StepPosIs(c, s, i, board, now);
    var p, p' := s.pos[i], AfterStep(c, s.pos[i], board, now);
    assert PosOk(c, s.log, p);
    PosStepOk(c, s.log, p, board, now);
    hide StepPos, AfterStep, LogOk, PosOk, PricedPos;
    var told := Told(c, p, board, now);
    var log', pos' := s.log + told, s.pos[i := p'];
    forall k | 0 <= k < |s.pos| ensures PosOk(c, log', pos'[k]) {
      if k != i {
        assert PosOk(c, s.log, s.pos[k]);
        if told != [] {
          PosOkLater(c, s.log, told[0], s.pos[k]);
        } else {
          assert log' == s.log;
        }
      }
    }
  }

  /** The same for the position alone. */
  lemma {:induction false} PosStepOk(c: Config, log: seq<Trade>, p: Pos, board: Board, now: nat)
    requires Sane(c) && PricedPos(p) && LogOk(c, log) && PosOk(c, log, p)
    ensures var told := Told(c, p, board, now);
            |told| <= 1 && LogOk(c, log + told) && PosOk(c, log + told, AfterStep(c, p, board, now))
  {
    var p' := AfterStep(c, p, board, now);
    assert log + [] == log;
    if p.active && p.filled {
      HeldStepOk(c, log, p, board, now);
    } else if p.active && now >= p.eligible {
      EntryRules(c, p, board, now);
      hide AfterStep, LogOk;
      if p'.filled {
        FillOpens(c, p, p', board(p.t.sym), now);
        LogOpens(c, log, p'.t);
        hide OpenOk;
        assert p'.t == (log + [p'.t])[|log|].(mfe := p'.t.mfe, mae := p'.t.mae);
      }
    }
  }

  lemma {:induction false} HeldStepOk(c: Config, log: seq<Trade>, p: Pos, board: Board, now: nat)
    requires Sane(c) && PricedPos(p) && p.active && p.filled && LogOk(c, log) && PosOk(c, log, p)
    ensures var told := Told(c, p, board, now);
            |told| <= 1 && LogOk(c, log + told) && PosOk(c, log + told, AfterStep(c, p, board, now))
  {
    var h := board(p.t.sym);
    var p', gain := AfterStep(c, p, board, now), (Demand(h) - p.t.entryPx) * 100.0 / p.t.entryPx;
    Divided((Demand(h) - p.t.entryPx) * 100.0, p.t.entryPx, gain);
    ExitRules(c, p, board, now, gain);
    hide AfterStep, LogOk, RulesAt, SoldAt, Demand, PosOk;
    assert log + [] == log;
    if p'.active {
      PosOkHeld(c, log, p, p');
    } else {
      PosOkSold(c, log, p, p', h, now);
    }
  }

  lemma {:induction false} PosOkHeld(c: Config, log: seq<Trade>, p: Pos, p': Pos)
    requires PosOk(c, log, p) && p.active && p.filled && p' == p.(t := p.t.(mfe := p'.t.mfe, mae := p'.t.mae))
    ensures PosOk(c, log, p')
  {
    var j: nat :| Opening(log, j) && p.t == log[j].(mfe := p.t.mfe, mae := p.t.mae);
    assert Opening(log, j) && p'.t == log[j].(mfe := p'.t.mfe, mae := p'.t.mae);
  }

  lemma {:induction false} PosOkSold(c: Config, log: seq<Trade>, p: Pos, p': Pos, h: Hot, now: nat)
    requires PosOk(c, log, p) && p.active && p.filled && LogOk(c, log) && SoldAt(c, p.t, p'.t, h, now) && !p'.active
    ensures LogOk(c, log + [p'.t]) && PosOk(c, log + [p'.t], p')
  {
    hide LogOk, SoldAt, OpenOk, Closes;
    var j: nat :| Opening(log, j) && p.t == log[j].(mfe := p.t.mfe, mae := p.t.mae);
    SaleCloses(c, log[j], p.t, p'.t, h, now);
    LogCloses(c, log, p'.t, j);
  }

  lemma {:induction false} StepFromReliable(c: Config, s: Trader, i: nat, board: Board, now: nat)
    requires Sane(c) && i <= |s.pos| && Priced(s.pos) && Reliable(c, s)
    ensures Reliable(c, StepFrom(c, s, i, board, now))
    decreases |s.pos| - i
  {
    hide Reliable, StepPos, AfterStep, Told;
    if i < |s.pos| {
      StepPosIs(c, s, i, board, now);
      StepPosReliable(c, s, i, board, now);
      StepFromReliable(c, StepPos(c, s, i, board, now), i + 1, board, now);
    }
  }

  lemma {:induction false} RolledKeepsLog(s: Trader, now: nat)
    ensures Rolled(s, now).log == s.log && Rolled(s, now).pos == s.pos
  {
    hide EasternDay;
  }

  lemma {:induction false} SignalReliable(c: Config, s: Trader, signal: Signal, now: nat)
    requires Reliable(c, s)
    ensures Reliable(c, Signalled(c, s, signal, now))
  {
    RolledKeepsLog(s, now);
    var y := Signalled(c, s, signal, now);
    hide Rolled, FreeSlot, LogOk, Held;
    assert y.log == s.log;
    forall k | 0 <= k < |y.pos| ensures PosOk(c, y.log, y.pos[k]) {
      if y.pos[k] == s.pos[k] {
        assert PosOk(c, s.log, s.pos[k]);
      }
    }
  }

  lemma {:induction false} EventReliable(c: Config, s: Trader, e: Event)
    requires Sane(c) && PaperTrading.Sound(c, s) && Reliable(c, s)
    ensures Reliable(c, AfterEvent(c, s, e))
  {
    hide Sound, Rolled, StepFrom, Signalled, LogOk, PosOk;
    match e {
      case SignalAt(signal, now) => SignalReliable(c, s, signal, now);
      case StepAt(board, now) =>
        SoundPriced(c, s);
        SteppedSound(c, s, board, now);
        RolledKeepsLog(s, now);
        StepFromReliable(c, Rolled(s, now), 0, board, now);
    }
  }

  /** A position sold at the shutdown, halted or not; an order dropped. */
  lemma {:induction false} CloseRules(c: Config, s: Trader, i: nat, board: Board, now: nat)
    requires i < |s.pos|
    ensures var p, r := s.pos[i], ClosePos(c, s, i, board, now);
            && |r.pos| == |s.pos| && (forall j :: 0 <= j < |s.pos| && j != i ==> r.pos[j] == s.pos[j]) && !r.pos[i].active
            && if p.active && p.filled then
                 && r.log == s.log + [r.pos[i].t] && SoldAt(c, p.t, r.pos[i].t, board(p.t.sym), now)
                 && r.pos[i].t.reason == Shutdown
               else r.log == s.log
  {
    var p := s.pos[i];
    if p.active && p.filled {
      ClosedIs(c, p.t, p.t, board(p.t.sym), now, Shutdown);
    }
    hide Closed, SoldAt, Book, SalePx;
  }

  lemma {:induction false} CloseReliable(c: Config, s: Trader, i: nat, board: Board, now: nat)
    requires i <= |s.pos| && Reliable(c, s)
    ensures Reliable(c, CloseFrom(c, s, i, board, now))
    decreases |s.pos| - i
  {
    if i < |s.pos| {
      CloseRules(c, s, i, board, now);
      var p, r := s.pos[i], ClosePos(c, s, i, board, now);
      assert PosOk(c, s.log, p);
      hide ClosePos, LogOk, SoldAt, OpenOk, Closes;
      if p.active && p.filled {
        var j: nat :| Opening(s.log, j) && p.t == s.log[j].(mfe := p.t.mfe, mae := p.t.mae);
        SaleCloses(c, s.log[j], p.t, r.pos[i].t, board(p.t.sym), now);
        LogCloses(c, s.log, r.pos[i].t, j);
      }
      forall k | 0 <= k < |r.pos| ensures PosOk(c, r.log, r.pos[k]) {
        if k != i {
          assert PosOk(c, s.log, s.pos[k]);
          if p.active && p.filled {
            PosOkLater(c, s.log, r.pos[i].t, s.pos[k]);
          }
        }
      }
      CloseReliable(c, r, i + 1, board, now);
    }
  }

  lemma {:induction false} RunReliable(c: Config, events: seq<Event>)
    requires Sane(c)
    ensures PaperTrading.Sound(c, FreshTrader(c)) && Reliable(c, AfterEvents(c, FreshTrader(c), events))
    decreases |events|
  {
    FreshSound(c);
    hide Sound, AfterEvent;
    if events == [] {
      FreshReliable(c);
    } else {
      var before := events[..|events| - 1];
      RunReliable(c, before);
      hide Reliable;
      EventReliable(c, AfterEvents(c, FreshTrader(c), before), events[|events| - 1]);
    }
  }

  lemma {:induction false} FreshReliable(c: Config)
    ensures Reliable(c, FreshTrader(c))
  {
  }

  /**
   Every trade a run and its shutdown report: openings came no earlier than their signal and the latency, in whole
   shares for no more than a position, and no further above the signal than allowed; every close closes an opening
   reported before it, with both commissions taken off its proceeds.
   */
  lemma {:induction false} ReportsReliable(c: Config, events: seq<Event>, board: Board, end: nat)
    requires Sane(c)
    ensures PaperTrading.Sound(c, FreshTrader(c))
    ensures LogOk(c, CloseFrom(c, AfterEvents(c, FreshTrader(c), events), 0, board, end).log)
  {
    RunReliable(c, events);
    hide Sound, AfterEvents, CloseFrom, LogOk, PosOk;
    CloseReliable(c, AfterEvents(c, FreshTrader(c), events), 0, board, end);
  }

  /** Why an order was dropped is counted: the price had run away, or nothing could be bought in time. */
  lemma {:induction false} DropsCounted(c: Config, s: Trader, i: nat, board: Board, now: nat)
    requires Sane(c) && i < |s.pos| && s.pos[i].active && !s.pos[i].filled && now >= s.pos[i].eligible
    ensures PricedPos(s.pos[i])
    ensures var h, p, r := board(s.pos[i].t.sym), s.pos[i], StepPos(c, s, i, board, now);
            var chased := !Unbuyable(h) && RanAway(c, p.t.signalPx, h);
            var timeout := Unbuyable(h) && !r.pos[i].active;
            r.st == s.st.(bought := s.st.bought + (if r.pos[i].filled then 1 else 0),
                          cancelledChase := s.st.cancelledChase + (if chased then 1 else 0),
                          cancelledTimeout := s.st.cancelledTimeout + (if timeout then 1 else 0))
  {
    var h, p := board(s.pos[i].t.sym), s.pos[i];
    if !Unbuyable(h) {
      ChaseIs(p.t.signalPx, c.maxChasePct, Offer(h));
    }
    hide Fees, BuyPx, Shares, ChaseLimit;
  }
}
