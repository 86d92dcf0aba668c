/**
 Paper trading: signals become simulated positions filled after a latency and closed by stop,
 target, trail, time or the end of the day, with the running accounts of what they earned.
 Prices and amounts are exact reals.
 */
module PaperTrading {
  import opened Arithmetic
  import EasternTime
  import Calendar

  const NS_PER_S: nat := 1_000_000_000

  datatype Tier = Watch | Alert | High | Halt | Mover | Info

  datatype Config = Config(tradeAlert: bool, tradeHigh: bool, latencyNs: nat, slippageBps: real, positionUsd: real,
                           maxOpen: int, maxDailyLossUsd: real, stopLossPct: real, takeProfitPct: real,
                           trailActivatePct: real, trailPct: real, maxHoldMin: nat, flatByMinute: int,
                           entryTimeoutS: nat, maxChasePct: real, commissionPerShare: real, commissionMin: real)

  /** What the board shows for a ticker. */
  datatype Hot = Hot(halted: bool, quoted: bool, bid: real, ask: real, askSize: real, last: real)

  datatype Reason = Stop | Target | Trail | TimeUp | Flat | Shutdown

  datatype Trade = Trade(sym: nat, tier: Tier, signalNs: nat, signalPx: real, entryPx: real, entryNs: nat, shares: real,
                         quoteEntry: bool, overTouch: bool, fees: real, mfe: real, mae: real, closed: bool,
                         exitPx: real, exitNs: nat, quoteExit: bool, pnl: real, reason: Reason)

  datatype Pos = Pos(active: bool, filled: bool, eligible: nat, t: Trade)

  datatype Stats = Stats(signals: nat, bought: nat, sold: nat, wins: nat, losses: nat, rejectedRisk: nat,
                         rejectedCapacity: nat, rejectedDup: nat, cancelledChase: nat, cancelledTimeout: nat,
                         grossWin: real, grossLoss: real, realized: real, peak: real, maxDrawdown: real, dayRealized: real)

  /** Slippage leaves a positive price. */
  ghost predicate Sane(c: Config) {
    c.slippageBps > -10000.0
  }

  function MaxR(a: real, b: real): real {
    if a < b then b else a
  }

  function MinR(a: real, b: real): real {
    if b < a then b else a
  }

  function Fees(c: Config, shares: real): real {
    MaxR(c.commissionMin, shares * c.commissionPerShare)
  }

  // ---- entering ----

  datatype Fill = Waiting | TimedOut | Chased | TooSmall | Filled(t: Trade)

  /** Beyond it the price has run away. */
  function ChaseLimit(c: Config, signalPx: real): real {
    signalPx * (1.0 + c.maxChasePct / 100.0)
  }

  /** The price paid, slippage included. */
  function BuyPx(c: Config, px: real): (fill: real)
    requires Sane(c) && px > 0.0
    ensures fill > 0.0
  {
    SlippagePositive(px, c.slippageBps);
    px * (1.0 + c.slippageBps / 10000.0)
  }

  /** Whole shares. */
  function Shares(usd: real, fill: real): (shares: real)
    requires fill > 0.0
    ensures shares == shares.Floor as real && shares <= usd / fill < shares + 1.0
  {
    (usd / fill).Floor as real
  }

  /** What becomes of a pending order. */
  function TryFill(c: Config, p: Pos, h: Hot, now: nat): (r: Fill)
    requires Sane(c)
    ensures r.Filled? ==> r.t.sym == p.t.sym && r.t.entryPx > 0.0 && r.t.shares >= 1.0 && !r.t.closed
  {
    hide Fees, ChaseLimit, BuyPx, Shares;
    var timedOut := Sub64(now, p.eligible) > c.entryTimeoutS * NS_PER_S;
    var px := if h.quoted then h.ask else h.last;
    if h.halted || px <= 0.0 then (if timedOut then TimedOut else Waiting)
    else if p.t.signalPx > 0.0 && px > ChaseLimit(c, p.t.signalPx) then Chased
    else
      var fill := BuyPx(c, px);
      var shares := Shares(c.positionUsd, fill);
      if shares < 1.0 then TooSmall
      else
        Filled(p.t.(entryPx := fill, entryNs := now, shares := shares, quoteEntry := h.quoted,
                    overTouch := h.quoted && shares > h.askSize, fees := Fees(c, shares), mfe := 0.0, mae := 0.0, closed := false))
  }

  lemma {:induction false} SlippagePositive(px: real, bps: real)
    requires px > 0.0 && bps > -10000.0
    ensures px * (1.0 + bps / 10000.0) > 0.0
  {
    var factor := 1.0 + bps / 10000.0;
    assert factor > 0.0;
    assert px * factor > 0.0;
  }

  // ---- leaving ----

  function Mark(h: Hot): real {
    if h.quoted then h.bid else h.last
  }

  function SalePx(c: Config, mark: real): real {
    mark * (1.0 - c.slippageBps / 10000.0)
  }

  function FlatTime(c: Config, t: Trade, now: nat): bool {
    EasternTime.MinuteOfDay(now) >= c.flatByMinute && EasternTime.MinuteOfDay(t.entryNs) < c.flatByMinute
  }

  datatype Exit = Hold(t: Trade) | Sell(t: Trade, reason: Reason, px: real, quote: bool)

  /** The exit rules in their order: stop, target, trail, holding time, end of day. */
  function CheckExit(c: Config, t: Trade, h: Hot, now: nat): (r: Exit)
    requires t.entryPx > 0.0
    ensures r.t == t.(mfe := r.t.mfe, mae := r.t.mae)
  {
    if h.halted || Mark(h) <= 0.0 then Hold(t)
    else
      var chg := (Mark(h) - t.entryPx) * 100.0 / t.entryPx;
      var t' := t.(mfe := MaxR(t.mfe, chg), mae := MinR(t.mae, chg));
      var px := SalePx(c, Mark(h));
      if chg <= -c.stopLossPct then Sell(t', Stop, px, h.quoted)
      else if chg >= c.takeProfitPct then Sell(t', Target, px, h.quoted)
      else if t'.mfe >= c.trailActivatePct && chg <= t'.mfe - c.trailPct then Sell(t', Trail, px, h.quoted)
      else if Sub64(now, t.entryNs) >= c.maxHoldMin * 60 * NS_PER_S then Sell(t', TimeUp, px, h.quoted)
      else if FlatTime(c, t, now) then Sell(t', Flat, px, h.quoted)
      else Hold(t')
  }

  /** The trade closed: both commissions are taken. */
  function Closed(c: Config, t: Trade, now: nat, reason: Reason, px: real, quote: bool): Trade {
    var fees := t.fees + Fees(c, t.shares);
    t.(exitPx := px, exitNs := now, quoteExit := quote, closed := true, fees := fees,
       pnl := (px - t.entryPx) * t.shares - fees, reason := reason)
  }

  // ---- the accounts ----

  function Book(st: Stats, pnl: real): Stats {
    var s1 := if pnl > 0.0 then st.(wins := st.wins + 1, grossWin := st.grossWin + pnl)
              else st.(losses := st.losses + 1, grossLoss := st.grossLoss + -pnl);
    var realized := st.realized + pnl;
    var peak := MaxR(st.peak, realized);
    s1.(sold := st.sold + 1, realized := realized, dayRealized := st.dayRealized + pnl, peak := peak,
        maxDrawdown := MaxR(st.maxDrawdown, peak - realized))
  }

  /** `m` is the greatest of the curve. */
  ghost predicate IsPeak(curve: seq<real>, m: real) {
    (forall i :: 0 <= i < |curve| ==> curve[i] <= m) && exists i :: 0 <= i < |curve| && curve[i] == m
  }

  /** `d` is the greatest fall from any point of the curve to a later one. */
  ghost predicate IsDrawdown(curve: seq<real>, d: real) {
    && (forall i, j :: 0 <= i <= j < |curve| ==> curve[i] - curve[j] <= d)
    && exists i, j :: 0 <= i <= j < |curve| && curve[i] - curve[j] == d
  }

  /** The totals agree with the curve of realized equity, which starts at zero and moves with every close. */
  ghost predicate Balanced(st: Stats, curve: seq<real>) {
    && |curve| == st.sold + 1 && curve[0] == 0.0 && curve[|curve| - 1] == st.realized
    && st.realized == st.grossWin - st.grossLoss && st.grossWin >= 0.0 && st.grossLoss >= 0.0
    && st.wins + st.losses == st.sold && IsPeak(curve, st.peak) && IsDrawdown(curve, st.maxDrawdown)
  }

  lemma {:induction false} PeakAppends(curve: seq<real>, m: real, e: real)
    requires IsPeak(curve, m)
    ensures IsPeak(curve + [e], MaxR(m, e))
  {
    var c := curve + [e];
    var i :| 0 <= i < |curve| && curve[i] == m;
    assert c[i] == m && c[|curve|] == e;
  }

  lemma {:induction false} DrawdownAppends(curve: seq<real>, m: real, d: real, e: real)
    requires IsPeak(curve, m) && IsDrawdown(curve, d)
    ensures IsDrawdown(curve + [e], MaxR(d, MaxR(m, e) - e))
  {
    var c, d' := curve + [e], MaxR(d, MaxR(m, e) - e);
    forall i, j | 0 <= i <= j < |c| ensures c[i] - c[j] <= d' {
      if j < |curve| {
        assert curve[i] - curve[j] <= d;
      }
    }
    var i, j :| 0 <= i <= j < |curve| && curve[i] - curve[j] == d;
    assert c[i] - c[j] == d;
    var k :| 0 <= k < |curve| && curve[k] == m;
    assert c[k] - c[|curve|] == m - e;
    assert c[|curve|] - c[|curve|] == 0.0;
    assert d >= 0.0 by {
      assert curve[k] - curve[k] <= d;
    }
    if d' == d {
      assert 0 <= i <= j < |c| && c[i] - c[j] == d';
    } else {
      assert 0 <= k <= |curve| < |c| && c[k] - c[|curve|] == d';
    }
  }

  /** Closing a trade keeps the accounts balanced. */
  lemma {:induction false} BookBalances(st: Stats, curve: seq<real>, pnl: real)
    requires Balanced(st, curve)
    ensures Balanced(Book(st, pnl), curve + [st.realized + pnl])
  {
    hide IsPeak, IsDrawdown;
    PeakAppends(curve, st.peak, st.realized + pnl);
    DrawdownAppends(curve, st.peak, st.maxDrawdown, st.realized + pnl);
  }

  // ---- positions ----

  function Open(p: Pos): nat {
    if p.active && p.filled then 1 else 0
  }

  function OpenCount(ps: seq<Pos>): nat {
    if ps == [] then 0 else OpenCount(ps[..|ps| - 1]) + Open(ps[|ps| - 1])
  }

  lemma {:induction false} OpenUpdates(ps: seq<Pos>, i: nat, p: Pos)
    requires i < |ps|
    ensures OpenCount(ps[i := p]) == OpenCount(ps) - Open(ps[i]) + Open(p)
    decreases |ps|
  {
    var n := |ps| - 1;
    if i < n {
      assert ps[i := p][..n] == ps[..n][i := p];
      OpenUpdates(ps[..n], i, p);
    } else {
      assert ps[i := p][..n] == ps[..n];
    }
  }

  /** Nothing is open once nothing is active. */
  lemma {:induction false} NoneOpen(ps: seq<Pos>)
    requires forall i :: 0 <= i < |ps| ==> !ps[i].active
    ensures OpenCount(ps) == 0
    decreases |ps|
  {
    if ps != [] {
      NoneOpen(ps[..|ps| - 1]);
    }
  }

  /** One position per ticker, filled ones with a price and a size. */
  ghost predicate Slots(ps: seq<Pos>) {
    && (forall i, j :: 0 <= i < j < |ps| && ps[i].active && ps[j].active ==> ps[i].t.sym != ps[j].t.sym)
    && (forall i :: 0 <= i < |ps| && ps[i].active && ps[i].filled ==> ps[i].t.entryPx > 0.0 && ps[i].t.shares >= 1.0)
  }

  predicate PricedPos(p: Pos) {
    p.active && p.filled ==> p.t.entryPx > 0.0
  }

  predicate Priced(ps: seq<Pos>) {
    forall i :: 0 <= i < |ps| ==> PricedPos(ps[i])
  }

  function Capacity(c: Config): nat {
    if c.maxOpen > 1 then c.maxOpen else 1
  }

  // ---- the trades reported ----

  /** Realized equity after every reported close, from zero. */
  function Equity(log: seq<Trade>): (curve: seq<real>)
    ensures |curve| == Reports(log, true) + 1 && curve[0] == 0.0
  {
    if log == [] then [0.0]
    else
      var curve := Equity(log[..|log| - 1]);
      if log[|log| - 1].closed then curve + [curve[|curve| - 1] + log[|log| - 1].pnl] else curve
  }

  function Reports(log: seq<Trade>, closed: bool): nat {
    if log == [] then 0
    else Reports(log[..|log| - 1], closed) + (if log[|log| - 1].closed == closed then 1 else 0)
  }

  function TotalPnl(log: seq<Trade>): real {
    if log == [] then 0.0
    else TotalPnl(log[..|log| - 1]) + (if log[|log| - 1].closed then log[|log| - 1].pnl else 0.0)
  }

  /** The winners among the trades reported closed, and what they earned. */
  function Winners(log: seq<Trade>): nat {
    if log == [] then 0
    else Winners(log[..|log| - 1]) + (if log[|log| - 1].closed && log[|log| - 1].pnl > 0.0 then 1 else 0)
  }

  function Gains(log: seq<Trade>): real {
    if log == [] then 0.0
    else Gains(log[..|log| - 1]) + (if log[|log| - 1].closed && log[|log| - 1].pnl > 0.0 then log[|log| - 1].pnl else 0.0)
  }

  /** The curve ends where the profits add up to. */
  lemma {:induction false} EquityEnds(log: seq<Trade>)
    ensures Equity(log)[|Equity(log)| - 1] == TotalPnl(log)
    decreases |log|
  {
    if log != [] {
      EquityEnds(log[..|log| - 1]);
    }
  }

  lemma {:induction false} LogAppends(log: seq<Trade>, t: Trade)
    ensures Equity(log + [t]) == Equity(log) + if t.closed then [Equity(log)[|Equity(log)| - 1] + t.pnl] else []
    ensures Reports(log + [t], false) == Reports(log, false) + if t.closed then 0 else 1
    ensures Reports(log + [t], true) == Reports(log, true) + if t.closed then 1 else 0
    ensures Winners(log + [t]) == Winners(log) + if t.closed && t.pnl > 0.0 then 1 else 0
    ensures Gains(log + [t]) == Gains(log) + if t.closed && t.pnl > 0.0 then t.pnl else 0.0
  {
    assert (log + [t])[..|log|] == log;
  }

  // ---- the trader as a value ----

  /**
   Positions, accounts, the Eastern day and when it was last looked up, the trades reported so far and the
   equity when the day began.
   */
  datatype Trader = Trader(pos: seq<Pos>, st: Stats, day: int, log: seq<Trade>, dayBase: real, checked: nat)

  /** Positions, accounts and reported trades agree. */
  ghost predicate Sound(c: Config, s: Trader) {
    && |s.pos| == Capacity(c) && Slots(s.pos) && Balanced(s.st, Equity(s.log))
    && s.st.bought == s.st.sold + OpenCount(s.pos) && s.st.bought == Reports(s.log, false)
    && s.st.wins == Winners(s.log) && s.st.grossWin == Gains(s.log) && s.st.dayRealized == s.st.realized - s.dayBase
  }

  function NoPos(): Pos {
    Pos(false, false, 0, NO_TRADE)
  }

  function FreshTrader(c: Config): Trader {
    Trader(seq(Capacity(c), i => NoPos()), Stats(0, 0, 0, 0, 0, 0, 0, 0, 0, 0, 0.0, 0.0, 0.0, 0.0, 0.0, 0.0), 0, [], 0.0, 0)
  }

  lemma {:induction false} FreshSound(c: Config)
    ensures Sound(c, FreshTrader(c))
  {
    var s := FreshTrader(c);
    FreshSlots(s.pos);
    NoneOpen(s.pos);
    hide Sound, OpenCount, Slots;
    NothingYet(c, s);
  }

  lemma {:induction false} NothingYet(c: Config, s: Trader)
    requires |s.pos| == Capacity(c) && Slots(s.pos) && OpenCount(s.pos) == 0 && s.log == [] && s.dayBase == 0.0
    requires s.st.bought == s.st.sold == s.st.wins == s.st.losses == 0
    requires s.st.grossWin == s.st.grossLoss == s.st.realized == s.st.peak == s.st.maxDrawdown == s.st.dayRealized == 0.0
    ensures Sound(c, s)
  {
    NothingReported(s.log);
    FreshBalanced(s.st);
    hide OpenCount, Slots, Balanced, Equity, Reports, Winners, Gains;
  }

  lemma {:induction false} NothingReported(log: seq<Trade>)
    requires log == []
    ensures Equity(log) == [0.0] && Reports(log, false) == Winners(log) == 0 && Gains(log) == 0.0
  {
  }

  lemma {:induction false} FreshSlots(ps: seq<Pos>)
    requires forall i :: 0 <= i < |ps| ==> ps[i] == NoPos()
    ensures Slots(ps)
  {
  }

  lemma {:induction false} FreshBalanced(st: Stats)
    requires st.sold == st.wins == st.losses == 0
    requires st.grossWin == st.grossLoss == st.realized == st.peak == st.maxDrawdown == 0.0
    ensures Balanced(st, [0.0])
  {
    var curve := [0.0];
    assert curve[0] == 0.0;
    assert IsPeak(curve, 0.0);
    assert curve[0] - curve[0] == 0.0;
    assert IsDrawdown(curve, 0.0);
    hide IsPeak, IsDrawdown;
  }

  lemma {:induction false} SlotsUpdate(ps: seq<Pos>, i: nat, p: Pos)
    requires Slots(ps) && i < |ps|
    requires p.active ==> (p.filled ==> p.t.entryPx > 0.0 && p.t.shares >= 1.0)
                          && (forall j :: 0 <= j < |ps| && j != i && ps[j].active ==> ps[j].t.sym != p.t.sym)
    ensures Slots(ps[i := p])
  {
  }

  lemma {:induction false} SoundPriced(c: Config, s: Trader)
    requires Sound(c, s)
    ensures Priced(s.pos) && |s.pos| == Capacity(c)
  {
  }

  // ---- one position at a time ----

  type Board = nat -> Hot

  /** A position is filled and reported open. */
  function Opened(s: Trader, i: nat, t: Trade): Trader
    requires i < |s.pos|
  {
    s.(pos := s.pos[i := s.pos[i].(filled := true, t := t)], st := s.st.(bought := s.st.bought + 1), log := s.log + [t])
  }

  /** A position is sold, booked and reported closed. */
  function Sold(s: Trader, i: nat, t: Trade): Trader
    requires i < |s.pos|
  {
    s.(pos := s.pos[i := s.pos[i].(active := false, t := t)], st := Book(s.st, t.pnl), log := s.log + [t])
  }

  /** An order is dropped. */
  function Dropped(s: Trader, i: nat): Trader
    requires i < |s.pos|
  {
    s.(pos := s.pos[i := s.pos[i].(active := false)])
  }

  lemma {:induction false} OpenedSound(c: Config, s: Trader, i: nat, t: Trade)
    requires Sound(c, s) && i < |s.pos| && s.pos[i].active && !s.pos[i].filled
    requires t.sym == s.pos[i].t.sym && t.entryPx > 0.0 && t.shares >= 1.0 && !t.closed
    ensures Sound(c, Opened(s, i, t))
  {
    var p := s.pos[i].(filled := true, t := t);
    OpenUpdates(s.pos, i, p);
    SlotsUpdate(s.pos, i, p);
    LogAppends(s.log, t);
    assert Equity(s.log) + [] == Equity(s.log);
    hide Slots, OpenCount, Equity, Reports, Winners, Gains, IsPeak, IsDrawdown;
  }

  lemma {:induction false} SoldSound(c: Config, s: Trader, i: nat, t: Trade)
    requires Sound(c, s) && i < |s.pos| && s.pos[i].active && s.pos[i].filled && t.closed
    ensures Sound(c, Sold(s, i, t))
  {
    var p := s.pos[i].(active := false, t := t);
    OpenUpdates(s.pos, i, p);
    SlotsUpdate(s.pos, i, p);
    LogAppends(s.log, t);
    BookBalances(s.st, Equity(s.log), t.pnl);
    BalancedEnds(s.st, Equity(s.log));
    hide Slots, OpenCount, Equity, Reports, Winners, Gains, Balanced;
  }

  lemma {:induction false} BalancedEnds(st: Stats, curve: seq<real>)
    requires Balanced(st, curve)
    ensures |curve| > 0 && curve[|curve| - 1] == st.realized
  {
  }

  /** A pending order is dropped, or a held position's extremes move. */
  lemma {:induction false} KeptSound(c: Config, s: Trader, i: nat, p: Pos)
    requires Sound(c, s) && i < |s.pos| && Open(p) == Open(s.pos[i])
    requires p.active ==> s.pos[i].active && p.t.sym == s.pos[i].t.sym && p.filled == s.pos[i].filled
                          && p.t.entryPx == s.pos[i].t.entryPx && p.t.shares == s.pos[i].t.shares
    ensures Sound(c, s.(pos := s.pos[i := p]))
  {
    OpenUpdates(s.pos, i, p);
    assert Slots(s.pos[i := p]);
    hide Slots, OpenCount, Balanced;
  }

  /** A new order in a free slot. */
  lemma {:induction false} OrderSound(c: Config, s: Trader, i: nat, p: Pos)
    requires Sound(c, s) && i < |s.pos| && !s.pos[i].active && p.active && !p.filled
    requires forall j :: 0 <= j < |s.pos| && s.pos[j].active ==> s.pos[j].t.sym != p.t.sym
    ensures Sound(c, s.(pos := s.pos[i := p]))
  {
    OpenUpdates(s.pos, i, p);
    SlotsUpdate(s.pos, i, p);
    hide Slots, OpenCount, Balanced;
  }

  /** Counters that leave the accounts alone. */
  lemma {:induction false} CounterSound(c: Config, s: Trader, st: Stats)
    requires Sound(c, s)
    requires st == s.st.(signals := st.signals, rejectedRisk := st.rejectedRisk, rejectedCapacity := st.rejectedCapacity,
                         rejectedDup := st.rejectedDup, cancelledChase := st.cancelledChase, cancelledTimeout := st.cancelledTimeout)
    ensures Sound(c, s.(st := st))
  {
    hide Slots, OpenCount, Equity, IsPeak, IsDrawdown, Reports, Winners, Gains;
  }

  /** The pending order or the held position in slot `i` moves on. */
  function StepPos(c: Config, s: Trader, i: nat, board: Board, now: nat): Trader
    requires Sane(c) && i < |s.pos| && PricedPos(s.pos[i])
  {
    var p := s.pos[i];
    if !p.active || (!p.filled && now < p.eligible) then s
    else if !p.filled then
      match TryFill(c, p, board(p.t.sym), now)
      case Waiting => s
      case TimedOut => Dropped(s, i).(st := s.st.(cancelledTimeout := s.st.cancelledTimeout + 1))
      case Chased => Dropped(s, i).(st := s.st.(cancelledChase := s.st.cancelledChase + 1))
      case TooSmall => Dropped(s, i)
      case Filled(t) => Opened(s, i, t)
    else
      match CheckExit(c, p.t, board(p.t.sym), now)
      case Hold(t) => s.(pos := s.pos[i := p.(t := t)])
      case Sell(t, reason, px, quote) => Sold(s, i, Closed(c, t, now, reason, px, quote))
  }

  /** What a step makes of a position, whatever the others do. */
  function AfterStep(c: Config, p: Pos, board: Board, now: nat): Pos
    requires Sane(c) && PricedPos(p)
  {
    if !p.active || (!p.filled && now < p.eligible) then p
    else if !p.filled then
      match TryFill(c, p, board(p.t.sym), now)
      case Waiting => p
      case Filled(t) => p.(filled := true, t := t)
      case _ => p.(active := false)
    else
      match CheckExit(c, p.t, board(p.t.sym), now)
      case Hold(t) => p.(t := t)
      case Sell(t, reason, px, quote) => p.(active := false, t := Closed(c, t, now, reason, px, quote))
  }

  /** What the sink is told of that: the trade when the position opened or closed. */
  function Told(c: Config, p: Pos, board: Board, now: nat): seq<Trade>
    requires Sane(c) && PricedPos(p)
  {
    var p' := AfterStep(c, p, board, now);
    if p.active && (if p.filled then !p'.active else p'.filled) then [p'.t] else []
  }

  lemma {:induction false} StepPosIs(c: Config, s: Trader, i: nat, board: Board, now: nat)
    requires Sane(c) && i < |s.pos| && PricedPos(s.pos[i])
    ensures var s' := StepPos(c, s, i, board, now);
            && s'.pos == s.pos[i := AfterStep(c, s.pos[i], board, now)] && s'.log == s.log + Told(c, s.pos[i], board, now)
            && s'.day == s.day && s'.dayBase == s.dayBase && s'.checked == s.checked && PricedPos(s'.pos[i])
  {
    hide TryFill, CheckExit, Closed, Book;
    assert s.pos[i := s.pos[i]] == s.pos && s.log + [] == s.log;
  }

  lemma {:induction false} StepPosSound(c: Config, s: Trader, i: nat, board: Board, now: nat)
    requires Sane(c) && i < |s.pos| && PricedPos(s.pos[i]) && Sound(c, s)
    ensures Sound(c, StepPos(c, s, i, board, now))
  {
    hide Sound, TryFill, CheckExit, Book;
    var p := s.pos[i];
    if p.active && p.filled {
      match CheckExit(c, p.t, board(p.t.sym), now) {
        case Hold(t) => KeptSound(c, s, i, p.(t := t));
        case Sell(t, reason, px, quote) => SoldSound(c, s, i, Closed(c, t, now, reason, px, quote));
      }
    } else if p.active && now >= p.eligible {
      var d := Dropped(s, i);
      KeptSound(c, s, i, p.(active := false));
      CounterSound(c, d, s.st.(cancelledTimeout := s.st.cancelledTimeout + 1));
      CounterSound(c, d, s.st.(cancelledChase := s.st.cancelledChase + 1));
      match TryFill(c, p, board(p.t.sym), now) {
        case Filled(t) => OpenedSound(c, s, i, t);
        case _ =>
      }
    }
  }

  /** All positions from `i` on, one after the other. */
  function StepFrom(c: Config, s: Trader, i: nat, board: Board, now: nat): (r: Trader)
    requires Sane(c) && i <= |s.pos| && Priced(s.pos)
    ensures |r.pos| == |s.pos| && Priced(r.pos) && r.day == s.day && r.dayBase == s.dayBase && r.checked == s.checked
    decreases |s.pos| - i
  {
    hide StepPos, AfterStep, Told;
    if i == |s.pos| then s
    else
      StepPosIs(c, s, i, board, now);
      StepFrom(c, StepPos(c, s, i, board, now), i + 1, board, now)
  }

  lemma {:induction false} StepFromSound(c: Config, s: Trader, i: nat, board: Board, now: nat)
    requires Sane(c) && i <= |s.pos| && Priced(s.pos) && Sound(c, s)
    ensures Sound(c, StepFrom(c, s, i, board, now))
    decreases |s.pos| - i
  {
    hide Sound, StepPos, AfterStep, Told;
    if i < |s.pos| {
      StepPosIs(c, s, i, board, now);
      StepPosSound(c, s, i, board, now);
      StepFromSound(c, StepPos(c, s, i, board, now), i + 1, board, now);
    }
  }

  /** What the sink is told of the positions from `i` on, each as it stood before. */
  function ToldFrom(c: Config, ps: seq<Pos>, i: nat, board: Board, now: nat): seq<Trade>
    requires Sane(c) && i <= |ps| && Priced(ps)
    decreases |ps| - i
  {
    if i == |ps| then [] else Told(c, ps[i], board, now) + ToldFrom(c, ps, i + 1, board, now)
  }

  lemma {:induction false} ToldSame(c: Config, ps: seq<Pos>, qs: seq<Pos>, i: nat, board: Board, now: nat)
    requires Sane(c) && i <= |ps| == |qs| && Priced(ps) && Priced(qs) && forall j :: i <= j < |ps| ==> ps[j] == qs[j]
    ensures ToldFrom(c, ps, i, board, now) == ToldFrom(c, qs, i, board, now)
    decreases |ps| - i
  {
    hide Told;
    if i < |ps| {
      ToldSame(c, ps, qs, i + 1, board, now);
    }
  }

  /** Positions do not get in each other's way: each makes its own step, and the sink is told of each in turn. */
  lemma {:induction false} StepsApart(c: Config, s: Trader, i: nat, board: Board, now: nat)
    requires Sane(c) && i <= |s.pos| && Priced(s.pos)
    ensures var r := StepFrom(c, s, i, board, now);
            && r.log == s.log + ToldFrom(c, s.pos, i, board, now)
            && (forall j :: 0 <= j < i ==> r.pos[j] == s.pos[j])
            && (forall j :: i <= j < |s.pos| ==> r.pos[j] == AfterStep(c, s.pos[j], board, now))
    decreases |s.pos| - i
  {
    hide StepPos, AfterStep, Told;
    if i < |s.pos| {
      var m := StepPos(c, s, i, board, now);
      StepPosIs(c, s, i, board, now);
      StepsApart(c, m, i + 1, board, now);
      ToldSame(c, m.pos, s.pos, i + 1, board, now);
      assert (s.log + Told(c, s.pos[i], board, now)) + ToldFrom(c, s.pos, i + 1, board, now)
          == s.log + (Told(c, s.pos[i], board, now) + ToldFrom(c, s.pos, i + 1, board, now));
    } else {
      assert s.log + [] == s.log;
    }
  }

  // ---- the day, signals, shutdown ----

  function EasternDay(now: nat): int {
    EasternTime.ClockReads(now);
    Calendar.DayNumber(EasternTime.EasternDate(now))
  }

  /** A new date starts a new day's account. */
  function OnDay(s: Trader, day: int): Trader {
    if day == s.day then s else s.(day := day, st := s.st.(dayRealized := 0.0), dayBase := s.st.realized)
  }

  const MINUTE_NS: nat := 60_000_000_000

  /** The day was looked up less than a minute ago. */
  predicate Remembered(s: Trader, now: nat) {
    s.day != 0 && now >= s.checked && now - s.checked < MINUTE_NS
  }

  /** Minding the date, looked up at most once a minute. */
  function Rolled(s: Trader, now: nat): Trader {
    if Remembered(s, now) then s else OnDay(s.(checked := now), EasternDay(now))
  }

  /** The day is that of the last look, or still to be set. */
  ghost predicate TrueDay(s: Trader) {
    s.day == 0 || s.day == EasternDay(s.checked)
  }

  lemma {:induction false} RolledTrue(s: Trader, now: nat)
    requires TrueDay(s)
    ensures TrueDay(Rolled(s, now))
  {
    hide EasternDay;
  }

  lemma {:induction false} RolledPos(s: Trader, now: nat)
    ensures Rolled(s, now).pos == s.pos
  {
    hide EasternDay;
  }

  lemma {:induction false} RolledSound(c: Config, s: Trader, now: nat)
    requires Sound(c, s)
    ensures Sound(c, Rolled(s, now))
  {
    hide Slots, OpenCount, Equity, IsPeak, IsDrawdown, Reports, Winners, Gains, EasternDay;
  }

  datatype Signal = Signal(sym: nat, tier: Tier, ask: real, price: real)

  predicate Tradable(c: Config, tier: Tier) {
    (tier.Alert? && c.tradeAlert) || (tier.High? && c.tradeHigh)
  }

  const NO_TRADE: Trade :=
    Trade(0, Watch, 0, 0.0, 0.0, 0, 0.0, false, false, 0.0, 0.0, 0.0, false, 0.0, 0, false, 0.0, Stop)

  /** The order a signal becomes. */
  function Order(c: Config, s: Signal, now: nat): Pos {
    Pos(true, false, now + c.latencyNs,
        NO_TRADE.(sym := s.sym, tier := s.tier, signalNs := now, signalPx := if s.ask > 0.0 then s.ask else s.price))
  }

  predicate Held(ps: seq<Pos>, sym: nat) {
    exists i :: 0 <= i < |ps| && ps[i].active && ps[i].t.sym == sym
  }

  /** The first free slot from `i` on, the table's length when there is none. */
  function FreeSlot(ps: seq<Pos>, i: nat): (k: nat)
    requires i <= |ps|
    ensures i <= k <= |ps| && (k < |ps| ==> !ps[k].active) && forall j :: i <= j < k ==> ps[j].active
    decreases |ps| - i
  {
    if i == |ps| || !ps[i].active then i else FreeSlot(ps, i + 1)
  }

  /**
   A signal: counted, then refused for a ticker already held, after the day's loss limit or with every slot
   taken, else ordered into the first free slot.
   */
  function Signalled(c: Config, s: Trader, signal: Signal, now: nat): Trader {
    if Tradable(c, signal.tier) then Ordered(c, Rolled(s, now), signal, now) else s
  }

  function Ordered(c: Config, r: Trader, signal: Signal, now: nat): Trader {
    var s := r.(st := r.st.(signals := r.st.signals + 1));
    if Held(s.pos, signal.sym) then s.(st := s.st.(rejectedDup := s.st.rejectedDup + 1))
    else if s.st.dayRealized <= -c.maxDailyLossUsd then s.(st := s.st.(rejectedRisk := s.st.rejectedRisk + 1))
    else
      var k := FreeSlot(s.pos, 0);
      if k == |s.pos| then s.(st := s.st.(rejectedCapacity := s.st.rejectedCapacity + 1))
      else s.(pos := s.pos[k := Order(c, signal, now)])
  }

  lemma {:induction false} SignalledSound(c: Config, s: Trader, signal: Signal, now: nat)
    requires Sound(c, s)
    ensures Sound(c, Signalled(c, s, signal, now))
  {
    hide Sound, Rolled, Ordered;
    RolledSound(c, s, now);
    OrderedSound(c, Rolled(s, now), signal, now);
  }

  lemma {:induction false} OrderedSound(c: Config, r: Trader, signal: Signal, now: nat)
    requires Sound(c, r)
    ensures Sound(c, Ordered(c, r, signal, now))
  {
    hide Sound;
    CounterSound(c, r, r.st.(signals := r.st.signals + 1));
    var s := r.(st := r.st.(signals := r.st.signals + 1));
    CounterSound(c, s, s.st.(rejectedDup := s.st.rejectedDup + 1));
    CounterSound(c, s, s.st.(rejectedRisk := s.st.rejectedRisk + 1));
    CounterSound(c, s, s.st.(rejectedCapacity := s.st.rejectedCapacity + 1));
    var k := FreeSlot(s.pos, 0);
    if !Held(s.pos, signal.sym) && k < |s.pos| {
      OrderSound(c, s, k, Order(c, signal, now));
    }
  }

  /** A step of the whole trader. */
  function Stepped(c: Config, s: Trader, board: Board, now: nat): Trader
    requires Sane(c) && Priced(s.pos)
  {
    hide Rolled, Priced;
    RolledPos(s, now);
    StepFrom(c, Rolled(s, now), 0, board, now)
  }

  lemma {:induction false} SteppedSound(c: Config, s: Trader, board: Board, now: nat)
    requires Sane(c) && Sound(c, s)
    ensures Priced(s.pos) && Sound(c, Stepped(c, s, board, now))
  {
    SoundPriced(c, s);
    hide Sound, StepFrom, EasternDay;
    RolledSound(c, s, now);
    StepFromSound(c, Rolled(s, now), 0, board, now);
  }

  /** With nothing held or pending, a step only minds the date. */
  lemma {:induction false} StepsNothing(c: Config, s: Trader, i: nat, board: Board, now: nat)
    requires Sane(c) && i <= |s.pos| && Priced(s.pos) && forall j :: 0 <= j < |s.pos| ==> !s.pos[j].active
    ensures StepFrom(c, s, i, board, now) == s
    decreases |s.pos| - i
  {
    if i < |s.pos| {
      StepsNothing(c, s, i + 1, board, now);
    }
  }

  /** At shutdown a held position is sold at the mark of the moment, an order dropped. */
  function ClosePos(c: Config, s: Trader, i: nat, board: Board, now: nat): Trader
    requires i < |s.pos|
  {
    var p := s.pos[i];
    if !p.active then s
    else if !p.filled then Dropped(s, i)
    else
      var h := board(p.t.sym);
      Sold(s, i, Closed(c, p.t, now, Shutdown, SalePx(c, Mark(h)), h.quoted))
  }

  function CloseFrom(c: Config, s: Trader, i: nat, board: Board, now: nat): (r: Trader)
    requires i <= |s.pos|
    ensures |r.pos| == |s.pos|
    decreases |s.pos| - i
  {
    if i == |s.pos| then s else CloseFrom(c, ClosePos(c, s, i, board, now), i + 1, board, now)
  }

  lemma {:induction false} ClosePosSound(c: Config, s: Trader, i: nat, board: Board, now: nat)
    requires i < |s.pos| && Sound(c, s)
    ensures var s' := ClosePos(c, s, i, board, now);
            Sound(c, s') && |s'.pos| == |s.pos| && !s'.pos[i].active && forall j :: 0 <= j < |s.pos| && j != i ==> s'.pos[j] == s.pos[j]
  {
    hide Sound, Book, SalePx;
    var p := s.pos[i];
    if p.active {
      if p.filled {
        var h := board(p.t.sym);
        SoldSound(c, s, i, Closed(c, p.t, now, Shutdown, SalePx(c, Mark(h)), h.quoted));
      } else {
        KeptSound(c, s, i, p.(active := false));
      }
    }
  }

  /** After shutdown nothing is left open: what was bought is sold. */
  lemma {:induction false} CloseFromSound(c: Config, s: Trader, i: nat, board: Board, now: nat)
    requires i <= |s.pos| && Sound(c, s) && forall j :: 0 <= j < i ==> !s.pos[j].active
    ensures var r := CloseFrom(c, s, i, board, now);
            Sound(c, r) && r.st.bought == r.st.sold && forall j :: 0 <= j < |r.pos| ==> !r.pos[j].active
    decreases |s.pos| - i
  {
    if i < |s.pos| {
      ClosePosSound(c, s, i, board, now);
      hide Sound, ClosePos;
      CloseFromSound(c, ClosePos(c, s, i, board, now), i + 1, board, now);
    } else {
      NoneOpen(s.pos);
      hide OpenCount, Slots, Balanced;
    }
  }

  // ---- runs ----

  datatype Event = SignalAt(signal: Signal, now: nat) | StepAt(board: Board, now: nat)

  ghost function AfterEvent(c: Config, s: Trader, e: Event): (r: Trader)
    requires Sane(c) && Sound(c, s)
    ensures Sound(c, r)
  {
    hide Sound, Signalled, Stepped;
    match e
    case SignalAt(signal, now) => SignalledSound(c, s, signal, now); Signalled(c, s, signal, now)
    case StepAt(board, now) => SteppedSound(c, s, board, now); Stepped(c, s, board, now)
  }

  /** The trader after a run of signals and steps. */
  ghost function AfterEvents(c: Config, s: Trader, events: seq<Event>): (r: Trader)
    requires Sane(c) && Sound(c, s)
    ensures Sound(c, r)
    decreases |events|
  {
    hide Sound, AfterEvent;
    if events == [] then s else AfterEvent(c, AfterEvents(c, s, events[..|events| - 1]), events[|events| - 1])
  }

  lemma {:induction false} EventTrue(c: Config, s: Trader, e: Event)
    requires Sane(c) && Sound(c, s) && TrueDay(s)
    ensures TrueDay(AfterEvent(c, s, e))
  {
    hide Sound, EasternDay, Rolled, StepFrom, Held, FreeSlot, Order;
    match e {
      case SignalAt(signal, now) => RolledTrue(s, now);
      case StepAt(board, now) =>
        RolledTrue(s, now);
        SteppedSound(c, s, board, now);
        RolledPos(s, now);
    }
  }

  /** The day of a trader is always that of its last look. */
  lemma {:induction false} RunTrue(c: Config, s: Trader, events: seq<Event>)
    requires Sane(c) && Sound(c, s) && TrueDay(s)
    ensures TrueDay(AfterEvents(c, s, events))
    decreases |events|
  {
    hide Sound, TrueDay, AfterEvent;
    if events != [] {
      RunTrue(c, s, events[..|events| - 1]);
      EventTrue(c, AfterEvents(c, s, events[..|events| - 1]), events[|events| - 1]);
    }
  }

  /**
   The accounts of a run from a fresh trader are those of the trades it reported: drawdown and peak of their
   equity curve, gains and losses of their profits.
   */
  lemma {:induction false} RunAccounts(c: Config, events: seq<Event>)
    requires Sane(c)
    ensures Sound(c, FreshTrader(c))
    ensures var s := AfterEvents(c, FreshTrader(c), events);
            && |s.pos| == (if c.maxOpen < 1 then 1 else c.maxOpen)
            && IsDrawdown(Equity(s.log), s.st.maxDrawdown) && IsPeak(Equity(s.log), s.st.peak)
            && s.st.realized == s.st.grossWin - s.st.grossLoss == TotalPnl(s.log)
            && s.st.wins == Winners(s.log) && s.st.wins + s.st.losses == s.st.sold == Reports(s.log, true)
            && s.st.bought - s.st.sold == OpenCount(s.pos)
            && (forall i, j :: 0 <= i < j < |s.pos| && s.pos[i].active && s.pos[j].active ==> s.pos[i].t.sym != s.pos[j].t.sym)
  {
    FreshSound(c);
    hide AfterEvents;
    Accounts(c, AfterEvents(c, FreshTrader(c), events));
    hide Sound, OpenCount, Equity, Reports, TotalPnl, Winners, Gains, IsPeak, IsDrawdown;
  }

  lemma {:induction false} Accounts(c: Config, s: Trader)
    requires Sound(c, s)
    ensures |s.pos| == Capacity(c) && IsDrawdown(Equity(s.log), s.st.maxDrawdown) && IsPeak(Equity(s.log), s.st.peak)
    ensures s.st.realized == s.st.grossWin - s.st.grossLoss == TotalPnl(s.log)
    ensures s.st.wins == Winners(s.log) && s.st.wins + s.st.losses == s.st.sold == Reports(s.log, true)
    ensures s.st.bought - s.st.sold == OpenCount(s.pos)
    ensures forall i, j :: 0 <= i < j < |s.pos| && s.pos[i].active && s.pos[j].active ==> s.pos[i].t.sym != s.pos[j].t.sym
  {
    hide OpenCount, Equity, Reports, TotalPnl, Winners, Gains, IsPeak, IsDrawdown;
    EquityEnds(s.log);
  }

  class PaperTrader {
    const c: Config
    var pos: seq<Pos>
    var st: Stats
    var day: int
    var checked: nat               // when the day was last looked up
    ghost var log: seq<Trade>      // what the sink was told
    ghost var dayBase: real        // realized equity when the day began

    ghost function T(): Trader
      reads this
    {
      Trader(pos, st, day, log, dayBase, checked)
    }

    constructor (c: Config)
      ensures T() == FreshTrader(c) && this.c == c
      ensures st.signals == st.bought == st.sold == st.wins == st.losses == 0
      ensures st.rejectedRisk == st.rejectedCapacity == st.rejectedDup == st.cancelledChase == st.cancelledTimeout == 0
      ensures st.grossWin == st.grossLoss == st.realized == st.peak == st.maxDrawdown == st.dayRealized == 0.0
      ensures day == checked == 0 && forall i :: 0 <= i < |pos| ==> !pos[i].active
    {
      this.c := c;
      pos, st, day, log, dayBase, checked := FreshTrader(c).pos, FreshTrader(c).st, 0, [], 0.0, 0;
    }

    method RollDay(now: nat)
      modifies this
      ensures T() == Rolled(old(T()), now)
    {
      hide EasternDay;
      if day != 0 && now >= checked && now - checked < MINUTE_NS {
        return;
      }
      checked := now;
      var today := EasternDay(now);
      if today != day {
        day := today;
        st := st.(dayRealized := 0.0);
        dayBase := st.realized;
      }
    }

    /** Whether the ticker has a position, and the first free slot if not. */
    method Slot(sym: nat) returns (dup: bool, slot: int)
      ensures dup == Held(pos, sym)
      ensures !dup ==> slot == if FreeSlot(pos, 0) == |pos| then -1 else FreeSlot(pos, 0)
    {
      slot := -1;
      for i := 0 to |pos|
        invariant -1 <= slot < i
        invariant forall j :: 0 <= j < i ==> !(pos[j].active && pos[j].t.sym == sym)
        invariant FreeSlot(pos, 0) == if slot < 0 then FreeSlot(pos, i) else slot
      {
        if pos[i].active && pos[i].t.sym == sym {
          return true, slot;
        }
        if !pos[i].active && slot < 0 {
          slot := i;
        }
      }
      dup := false;
    }

    method OnSignal(signal: Signal, now: nat)
      modifies this
      ensures T() == Signalled(c, old(T()), signal, now)
    {
      hide Rolled, EasternDay, Order, Held, FreeSlot;
      if !Tradable(c, signal.tier) {
        return;
      }
      RollDay(now);
      st := st.(signals := st.signals + 1);
      var dup, slot := Slot(signal.sym);
      if dup {
        st := st.(rejectedDup := st.rejectedDup + 1);
        return;
      }
      if st.dayRealized <= -c.maxDailyLossUsd {
        st := st.(rejectedRisk := st.rejectedRisk + 1);
        return;
      }
      if slot < 0 {
        st := st.(rejectedCapacity := st.rejectedCapacity + 1);
        return;
      }
      pos := pos[slot := Order(c, signal, now)];
    }

    method StepOne(i: nat, board: Board, now: nat)
      requires Sane(c) && i < |pos| && PricedPos(pos[i])
      modifies this
      ensures T() == StepPos(c, old(T()), i, board, now)
    {
      hide TryFill, CheckExit, Closed, Book;
      var p := pos[i];
      if !p.active {
        return;
      }
      if !p.filled {
        if now < p.eligible {
          return;
        }
        match TryFill(c, p, board(p.t.sym), now) {
          case Waiting =>
          case TimedOut =>
            st := st.(cancelledTimeout := st.cancelledTimeout + 1);
            pos := pos[i := p.(active := false)];
          case Chased =>
            st := st.(cancelledChase := st.cancelledChase + 1);
            pos := pos[i := p.(active := false)];
          case TooSmall =>
            pos := pos[i := p.(active := false)];
          case Filled(t) =>
            pos := pos[i := p.(filled := true, t := t)];
            st := st.(bought := st.bought + 1);
            log := log + [t];
        }
        return;
      }
      match CheckExit(c, p.t, board(p.t.sym), now) {
        case Hold(t) =>
          pos := pos[i := p.(t := t)];
        case Sell(t, reason, px, quote) =>
          Finish(i, Closed(c, t, now, reason, px, quote));
      }
    }

    /** Books the trade of slot `i`, reports it and frees the slot. */
    method Finish(i: nat, t: Trade)
      requires i < |pos|
      modifies this
      ensures T() == Sold(old(T()), i, t)
    {
      if t.pnl > 0.0 {
        st := st.(wins := st.wins + 1, grossWin := st.grossWin + t.pnl);
      } else {
        st := st.(losses := st.losses + 1, grossLoss := st.grossLoss + -t.pnl);
      }
      st := st.(sold := st.sold + 1, realized := st.realized + t.pnl, dayRealized := st.dayRealized + t.pnl);
      st := st.(peak := MaxR(st.peak, st.realized));
      st := st.(maxDrawdown := MaxR(st.maxDrawdown, st.peak - st.realized));
      log := log + [t];
      pos := pos[i := pos[i].(active := false, t := t)];
    }

    method Step(board: Board, now: nat)
      requires Sane(c) && Priced(pos)
      modifies this
      ensures T() == Stepped(c, old(T()), board, now)
    {
      hide EasternDay, StepPos, AfterStep, Told;
      RollDay(now);
      ghost var goal := StepFrom(c, T(), 0, board, now);
      for i := 0 to |pos|
        invariant |pos| == |old(pos)| && Priced(pos) && goal == StepFrom(c, T(), i, board, now)
      {
        StepPosIs(c, T(), i, board, now);
        StepOne(i, board, now);
      }
    }

    method CloseAll(board: Board, now: nat)
      modifies this
      ensures T() == CloseFrom(c, old(T()), 0, board, now)
    {
      hide Closed, SalePx, Book;
      ghost var goal := CloseFrom(c, T(), 0, board, now);
      for i := 0 to |pos|
        invariant |pos| == |old(pos)| && goal == CloseFrom(c, T(), i, board, now)
      {
        var p := pos[i];
        if p.active {
          if p.filled {
            var h := board(p.t.sym);
            Finish(i, Closed(c, p.t, now, Shutdown, SalePx(c, Mark(h)), h.quoted));
          } else {
            pos := pos[i := p.(active := false)];
          }
        }
      }
    }

    /** A whole run, closed out at its end. */
    method Run(events: seq<Event>, board: Board, end: nat)
      requires Sane(c) && Sound(c, T())
      modifies this
      ensures T() == CloseFrom(c, AfterEvents(c, old(T()), events), 0, board, end)
      ensures Sound(c, T()) && st.bought == st.sold
    {
      hide Sound, Signalled, Stepped, CloseFrom, Priced;
      ghost var s := T();
      assert events[..0] == [];
      for i := 0 to |events|
        invariant T() == AfterEvents(c, s, events[..i])
      {
        assert events[..i + 1][..i] == events[..i];
        SoundPriced(c, T());
        match events[i] {
          case SignalAt(signal, now) => OnSignal(signal, now);
          case StepAt(b, now) => Step(b, now);
        }
      }
      assert events[..|events|] == events;
      CloseFromSound(c, T(), 0, board, end);
      CloseAll(board, end);
    }
  }
}
