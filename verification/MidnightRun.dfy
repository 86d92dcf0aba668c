/**
 One replay across a midnight. A story's alert is bought and sold at a loss beyond the day's limit; the driver then leaves
 out one tick of the idle engine. At midnight, with the tick the day before is still remembered and the next alert is refused,
 without it the new date is looked up and the alert is bought.
 */
module MidnightRuns {
  import opened Arithmetic
  import opened PaperTrading
  import E = EngineCore
  import D = DayRuns
  import Calendar
  import EasternTime

  // ---- the plan ----

  const INTERVAL: nat := 40_000_000_000

  const CONFIG: Config :=
    Config(true, true, 0, 0.0, 1000.0, 1, 100.0, 10.0, 1000.0, 1000.0, 1000.0, 1000, 10000, 60, 10.0, 0.0, 0.0)

  function At(px: real): Hot {
    Hot(false, true, px, px, 1000.0, px)
  }

  const BEFORE := 10.0
  const AFTER := 5.0

  /** The price of the one ticker, and whether the watched story has had its alert. */
  datatype Tape = Tape(px: real, told: bool)

  function OnItem(active: seq<nat>, x: Tape, i: nat, now: nat): E.News<Tape> {
    E.News([0], x.(told := false), [], true)
  }

  /** A story is signalled at the first look and gone at the next. */
  function LookAt(active: seq<nat>, x: Tape, now: nat): E.Look<Tape> {
    if x.told then E.Look([], x, []) else E.Look(active, x.(told := true), [Signal(0, Alert, x.px, x.px)])
  }

  function FindMovers(active: seq<nat>, x: Tape, now: nat): E.Found<Tape> {
    E.Found(x, [])
  }

  function Prices(x: Tape): Board {
    (sym: nat) => At(x.px)
  }

  const BRAIN: E.Brain<Tape> := E.Brain(CONFIG, true, Prices, OnItem, LookAt, FindMovers)

  /** A story two minutes before `m` and one at `m`, a look every 40 seconds. */
  function PlanFor(m: nat): D.Plan<Tape>
    requires m > 3 * INTERVAL
  {
    D.Plan(BRAIN, [m - 3 * INTERVAL, m], INTERVAL, false)
  }

  function Fall(x: Tape): Tape {
    x.(px := AFTER)
  }

  // ---- what becomes of the trader ----

  /** One position bought at `px` at the time `entry`. */
  ghost predicate Holds(s: Trader, px: real, entry: nat) {
    && |s.pos| == 1 && s.pos[0].active && s.pos[0].filled && s.pos[0].t.sym == 0 && Bought(s.pos[0].t, px, entry)
  }

  ghost predicate Bought(t: Trade, px: real, entry: nat) {
    && t.entryPx == px && (px == BEFORE ==> t.shares == 100.0) && t.fees == 0.0 && t.mfe == 0.0 && t.entryNs == entry
  }

  ghost predicate Empty(s: Trader) {
    |s.pos| == 1 && !s.pos[0].active
  }

  ghost predicate Price(px: real) {
    px == BEFORE || px == AFTER
  }

  function AlertAt(px: real): Signal {
    Signal(0, Alert, px, px)
  }

  lemma {:induction false} Orders(s: Trader, px: real, now: nat)
    requires Empty(s) && Price(px) && Rolled(s, now).st.dayRealized > -100.0
    ensures var r := Rolled(s, now);
            Signalled(CONFIG, s, AlertAt(px), now) == r.(pos := [Order(CONFIG, AlertAt(px), now)],
                                                         st := r.st.(signals := r.st.signals + 1))
  {
    RolledPos(s, now);
    hide Rolled, Order;
    var r := Rolled(s, now);
    assert FreeSlot(r.pos, 0) == 0 && !Held(r.pos, 0);
    assert r.pos[0 := Order(CONFIG, AlertAt(px), now)] == [Order(CONFIG, AlertAt(px), now)];
  }

  lemma {:induction false} Pays(px: real)
    requires Price(px)
    ensures BuyPx(CONFIG, px) == px && ChaseLimit(CONFIG, px) >= px && Shares(1000.0, px) >= 1.0
    ensures px == BEFORE ==> Shares(1000.0, px) == 100.0
  {
    assert 1000.0 / 10.0 == 100.0 && 1000.0 / 5.0 == 200.0;
    assert (100.0).Floor == 100 && (200.0).Floor == 200;
  }

  lemma {:induction false} NoFees(shares: real)
    ensures Fees(CONFIG, shares) == 0.0
  {
    assert shares * 0.0 == 0.0;
  }

  lemma {:induction false} Fills(px: real, now: nat)
    requires Price(px)
    ensures var f := TryFill(CONFIG, Order(CONFIG, AlertAt(px), now), At(px), now);
            f.Filled? && f.t.sym == 0 && Bought(f.t, px, now)
  {
    hide BuyPx, ChaseLimit, Shares, Fees, Sub64;
    Pays(px);
    NoFees(Shares(1000.0, px));
  }

  /** The step of a trader with one slot that remembers the date. */
  lemma {:induction false} StepsOne(s: Trader, x: Tape, now: nat)
    requires |s.pos| == 1 && PricedPos(s.pos[0]) && Remembered(s, now)
    ensures Priced(s.pos) && E.PaperStep(BRAIN, s, Prices(x), now) == StepPos(CONFIG, s, 0, Prices(x), now)
  {
    hide StepPos, AfterStep, Told, Prices;
    StepPosIs(CONFIG, s, 0, Prices(x), now);
    var s' := StepPos(CONFIG, s, 0, Prices(x), now);
    assert StepFrom(CONFIG, s', 1, Prices(x), now) == s';
    assert Rolled(s, now) == s;
  }

  /** What a step leaves of the rest. */
  ghost predicate Dates(s: Trader, d: int, checked: nat, day: real) {
    s.day == d && s.checked == checked && s.st.dayRealized == day
  }

  /** An alert of an empty trader whose day is not lost is bought at once. */
  lemma {:induction false} Buys(s: Trader, x: Tape, now: nat, d: int, checked: nat, day: real)
    requires Empty(s) && Price(x.px) && Dates(Rolled(s, now), d, checked, day) && day > -100.0
    requires d != 0 && checked <= now < checked + MINUTE_NS
    ensures var s' := E.PaperStep(BRAIN, Signalled(CONFIG, s, AlertAt(x.px), now), Prices(x), now);
            && Holds(s', x.px, now) && Dates(s', d, checked, day)
            && s'.st.bought == Rolled(s, now).st.bought + 1 && s'.st.rejectedRisk == Rolled(s, now).st.rejectedRisk
  {
    hide Rolled, TryFill, Price, Bought, E.PaperStep, Signalled;
    Orders(s, x.px, now);
    Fills(x.px, now);
    var s1 := Signalled(CONFIG, s, AlertAt(x.px), now);
    StepsOne(s1, x, now);
  }

  /** An unchanged price keeps the position. */
  lemma {:induction false} Keeps(s: Trader, x: Tape, now: nat)
    requires Holds(s, x.px, now) && Price(x.px) && Remembered(s, now)
    ensures var s' := E.PaperStep(BRAIN, s, Prices(x), now);
            && Holds(s', x.px, now) && Dates(s', s.day, s.checked, s.st.dayRealized)
            && s'.st.bought == s.st.bought && s'.st.rejectedRisk == s.st.rejectedRisk
  {
    HoldsOn(s.pos[0].t, x.px, now);
    hide E.PaperStep, CheckExit, Remembered;
    StepsOne(s, x, now);
  }

  lemma {:induction false} HoldsOn(t: Trade, px: real, now: nat)
    requires Price(px) && Bought(t, px, now) && t.sym == 0
    ensures t.entryPx > 0.0 && CheckExit(CONFIG, t, At(px), now).Hold?
    ensures var u := CheckExit(CONFIG, t, At(px), now).t; Bought(u, px, now) && u.sym == 0
  {
    hide CheckExit;
    DaytimeOnly(t, now);
    Unchanged(px);
    NoReason(t, At(px), now, 0.0);
  }

  /** None of the exit rules applies to a position that has neither gained nor lost. */
  lemma {:induction false} NoReason(t: Trade, h: Hot, now: nat, chg: real)
    requires t.entryPx > 0.0 && !h.halted && Mark(h) > 0.0 && chg == (Mark(h) - t.entryPx) * 100.0 / t.entryPx == 0.0
    requires t.mfe == 0.0 && Sub64(now, t.entryNs) == 0 && !FlatTime(CONFIG, t, now)
    ensures CheckExit(CONFIG, t, h, now) == Hold(t.(mfe := 0.0, mae := MinR(t.mae, 0.0)))
  {
    hide FlatTime, Sub64, SalePx, Mark;
  }

  lemma {:induction false} DaytimeOnly(t: Trade, now: nat)
    ensures !FlatTime(CONFIG, t, now) && Sub64(now, now) == 0
  {
    EasternTime.ClockReads(now);
    hide EasternTime.MinuteOfDay, EasternTime.EasternDate;
  }

  lemma {:induction false} Unchanged(px: real)
    requires Price(px)
    ensures px > 0.0 && (px - px) * 100.0 / px == 0.0
  {
  }

  /** At half the price it is sold with a loss beyond the day's limit. */
  lemma {:induction false} Sells(s: Trader, x: Tape, now: nat, entry: nat)
    requires Holds(s, BEFORE, entry) && x.px == AFTER && Remembered(s, now)
    ensures var s' := E.PaperStep(BRAIN, s, Prices(x), now);
            && Empty(s') && Dates(s', s.day, s.checked, s.st.dayRealized - 500.0)
            && s'.st.bought == s.st.bought && s'.st.rejectedRisk == s.st.rejectedRisk
  {
    hide E.PaperStep, CheckExit, Remembered, Closed, Book, Bought;
    Stopped(s.pos[0].t, entry, now);
    Losing(s.st);
    StepsOne(s, x, now);
  }

  lemma {:induction false} Losing(st: Stats)
    ensures var b := Book(st, -500.0);
            b.dayRealized == st.dayRealized - 500.0 && b.bought == st.bought && b.rejectedRisk == st.rejectedRisk
  {
  }

  lemma {:induction false} Stopped(t: Trade, entry: nat, now: nat)
    requires Bought(t, BEFORE, entry)
    ensures t.entryPx > 0.0 && CheckExit(CONFIG, t, At(AFTER), now).Sell?
    ensures var e := CheckExit(CONFIG, t, At(AFTER), now); Closed(CONFIG, e.t, now, e.reason, e.px, e.quote).pnl == -500.0
  {
    hide Closed, FlatTime, Sub64;
    Halved();
    var e := CheckExit(CONFIG, t, At(AFTER), now);
    Costs(e.t, now, e.reason, e.quote);
  }

  lemma {:induction false} Halved()
    ensures (5.0 - 10.0) * 100.0 / 10.0 == -50.0 && SalePx(CONFIG, AFTER) == AFTER
  {
  }

  lemma {:induction false} Costs(t: Trade, now: nat, reason: Reason, quote: bool)
    requires t.entryPx == BEFORE && t.shares == 100.0 && t.fees == 0.0
    ensures Closed(CONFIG, t, now, reason, AFTER, quote).pnl == -500.0
  {
    hide Fees;
    NoFees(100.0);
  }

  /** An alert of an empty trader that remembers a lost day is refused. */
  lemma {:induction false} Refuses(s: Trader, x: Tape, now: nat)
    requires Empty(s) && Remembered(s, now) && s.st.dayRealized <= -100.0
    ensures var s' := E.PaperStep(BRAIN, Signalled(CONFIG, s, AlertAt(x.px), now), Prices(x), now);
            && Empty(s') && Dates(s', s.day, s.checked, s.st.dayRealized)
            && s'.st.bought == s.st.bought && s'.st.rejectedRisk == s.st.rejectedRisk + 1
  {
    assert Rolled(s, now) == s && !Held(s.pos, 0);
    hide E.PaperStep, Held, FreeSlot, Order;
    var s1 := Signalled(CONFIG, s, AlertAt(x.px), now);
    assert s1.pos == s.pos;
    StepsOne(s1, x, now);
  }

  /** With nothing held a step only minds the date. */
  lemma {:induction false} Waits(s: Trader, x: Tape, now: nat)
    requires Empty(s)
    ensures E.PaperStep(BRAIN, s, Prices(x), now) == Rolled(s, now)
  {
    RolledPos(s, now);
    hide Rolled, Prices;
    StepsNothing(CONFIG, Rolled(s, now), 0, Prices(x), now);
  }

  // ---- what becomes of the engine ----

  lemma {:induction false} NewsIs(e: E.Core<Tape>, i: nat, now: nat)
    ensures var x := e.other.(told := true);
            E.OnNews(BRAIN, e, i, now)
            == E.Core([0], x, E.PaperStep(BRAIN, Signalled(CONFIG, e.trader, AlertAt(x.px), now), Prices(x), now))
  {
    hide Signalled, E.PaperStep, Prices;
    var signals := [AlertAt(e.other.px)];
    assert signals[1..] == [];
    assert E.Emit(BRAIN, e.trader, [], now) == e.trader;
    assert E.Emit(BRAIN, e.trader, signals, now) == Signalled(CONFIG, e.trader, AlertAt(e.other.px), now);
  }

  lemma {:induction false} LookIs(e: E.Core<Tape>, now: nat)
    requires e.other.told
    ensures E.Evaluate(BRAIN, e, now) == E.Core([], e.other, E.PaperStep(BRAIN, e.trader, Prices(e.other), now))
  {
    hide E.PaperStep, Prices;
    assert E.Emit(BRAIN, e.trader, [], now) == e.trader;
  }

  // ---- what becomes of the run ----

  /** Before a tick or after a story: where the run is. */
  ghost predicate Stands(r: D.Run<Tape>, active: bool, px: real, ni: nat, nextEval: nat) {
    && r.started && r.ni == ni && r.nextEval == nextEval && r.e.other == Tape(px, true) && (r.e.active != []) == active
  }

  ghost predicate Counts(s: Trader, bought: nat, refused: nat) {
    s.st.bought == bought && s.st.rejectedRisk == refused
  }

  /** The loop goes on with a story. */
  lemma {:induction false} GoesNews(m: nat, r: D.Run<Tape>, t: nat, skip: bool)
    requires m > 3 * INTERVAL && t < D.NEVER && r.ni < 2 && PlanFor(m).news[r.ni] <= t && PlanFor(m).news[r.ni] <= r.nextEval
    requires skip ==> D.Skip(PlanFor(m), r, t) == r
    ensures var p := PlanFor(m);
            var s := D.Dispatch(p, r);
            && D.Loop(p, r, t, skip) == D.Loop(p, s, t, skip)
            && s == r.(e := E.OnNews(BRAIN, r.e, r.ni, p.news[r.ni]), ni := r.ni + 1, calls := s.calls)
  {
    hide D.Skip, E.OnNews;
  }

  /** The loop goes on with an evaluation. */
  lemma {:induction false} GoesEval(m: nat, r: D.Run<Tape>, t: nat, skip: bool)
    requires m > 3 * INTERVAL && t < D.NEVER && r.nextEval <= t && r.nextEval < D.NewsTime(PlanFor(m), r.ni)
    requires skip ==> D.Skip(PlanFor(m), r, t) == r
    ensures var p := PlanFor(m);
            var s := D.Dispatch(p, r);
            && D.Loop(p, r, t, skip) == D.Loop(p, s, t, skip)
            && s == r.(e := E.Evaluate(BRAIN, r.e, r.nextEval), nextEval := r.nextEval + INTERVAL, calls := s.calls)
  {
    hide D.Skip, E.Evaluate;
  }

  lemma {:induction false} GoesNowhere(m: nat, r: D.Run<Tape>, t: nat, skip: bool)
    requires m > 3 * INTERVAL && t < D.NEVER && r.nextEval > t && D.NewsTime(PlanFor(m), r.ni) > t
    requires skip ==> D.Skip(PlanFor(m), r, t) == r
    ensures D.Loop(PlanFor(m), r, t, skip) == r
  {
    hide D.Skip;
  }

  lemma {:induction false} SkipsNothing(m: nat, r: D.Run<Tape>, t: nat)
    requires m > 3 * INTERVAL && (!E.Idle(BRAIN, r.e) || r.nextEval >= D.NewsTime(PlanFor(m), r.ni) || r.nextEval >= t)
    ensures D.Skip(PlanFor(m), r, t) == r
  {
    hide E.Idle;
  }

  lemma {:induction false} Busy(e: E.Core<Tape>)
    requires e.active != [] || (|e.trader.pos| > 0 && e.trader.pos[0].active)
    ensures !E.Idle(BRAIN, e)
  {
  }

  /** Where a look at a held position of unchanged price leads. */
  lemma {:induction false} Holding(m: nat, r: D.Run<Tape>, t: nat, skip: bool, px: real) returns (s: D.Run<Tape>)
    requires m > 3 * INTERVAL && t < D.NEVER && Price(px) && r.nextEval == t < D.NewsTime(PlanFor(m), r.ni)
    requires Stands(r, true, px, r.ni, t) && Holds(r.e.trader, px, t) && Remembered(r.e.trader, t)
    ensures D.Loop(PlanFor(m), r, t, skip) == s
    ensures Stands(s, false, px, r.ni, t + INTERVAL) && Holds(s.e.trader, px, t)
    ensures Dates(s.e.trader, r.e.trader.day, r.e.trader.checked, r.e.trader.st.dayRealized)
    ensures Counts(s.e.trader, r.e.trader.st.bought, r.e.trader.st.rejectedRisk)
  {
    hide D.Loop, D.Dispatch, E.PaperStep, Remembered, Bought, Price, E.Idle, E.Evaluate, D.Skip;
    Busy(r.e);
    SkipsNothing(m, r, t);
    GoesEval(m, r, t, skip);
    LookIs(r.e, t);
    Keeps(r.e.trader, Tape(px, true), t);
    s := D.Dispatch(PlanFor(m), r);
    Busy(s.e);
    SkipsNothing(m, s, t);
    GoesNowhere(m, s, t, skip);
  }

  /** Where a story of an empty trader whose day is not lost leads: its alert is bought. */
  lemma {:induction false} Buying(m: nat, r: D.Run<Tape>, t: nat, skip: bool, d: int, checked: nat, day: real)
    returns (s: D.Run<Tape>)
    requires m > 3 * INTERVAL && t < D.NEVER && r.ni < 2 && PlanFor(m).news[r.ni] == t == r.nextEval
    requires Price(r.e.other.px) && Empty(r.e.trader) && Dates(Rolled(r.e.trader, t), d, checked, day) && day > -100.0
    requires d != 0 && checked <= t < checked + MINUTE_NS && r.started
    ensures D.Loop(PlanFor(m), r, t, skip) == D.Loop(PlanFor(m), s, t, skip)
    ensures Stands(s, true, r.e.other.px, r.ni + 1, t) && Holds(s.e.trader, r.e.other.px, t) && Dates(s.e.trader, d, checked, day)
    ensures Counts(s.e.trader, Rolled(r.e.trader, t).st.bought + 1, Rolled(r.e.trader, t).st.rejectedRisk)
  {
    hide D.Loop, D.Dispatch, E.PaperStep, Signalled, Rolled, Bought, Price, E.OnNews, D.Skip, E.Idle, Remembered;
    OwnTime(m, r, t);
    SkipsNothing(m, r, t);
    GoesNews(m, r, t, skip);
    NewsIs(r.e, r.ni, t);
    Buys(r.e.trader, r.e.other.(told := true), t, d, checked, day);
    s := D.Dispatch(PlanFor(m), r);
  }

  lemma {:induction false} OwnTime(m: nat, r: D.Run<Tape>, t: nat)
    requires m > 3 * INTERVAL && r.ni < 2 && PlanFor(m).news[r.ni] == t
    ensures D.NewsTime(PlanFor(m), r.ni) == t
  {
  }

  function Start(m: nat): D.Run<Tape>
    requires m > 3 * INTERVAL
  {
    D.Morning(PlanFor(m), Tape(BEFORE, false))
  }

  /** The first call. */
  function FirstCall(m: nat, skip: bool): D.Run<Tape>
    requires 4 * INTERVAL < m < D.NEVER
  {
    var p, t := PlanFor(m), m - 3 * INTERVAL;
    D.Loop(p, D.Begin(p, Start(m), t), t, skip)
  }

  /** The first story is bought at its arrival. */
  lemma {:induction false} Opening(m: nat, d: int, skip: bool) returns (s: D.Run<Tape>)
    requires 4 * INTERVAL < m < D.NEVER && d != 0 && EasternDay(m - 3 * INTERVAL) == d
    ensures s == FirstCall(m, skip) && Stands(s, false, BEFORE, 1, m - 2 * INTERVAL) && Counts(s.e.trader, 1, 0)
    ensures Holds(s.e.trader, BEFORE, m - 3 * INTERVAL) && Dates(s.e.trader, d, m - 3 * INTERVAL, 0.0)
  {
    hide D.Loop, EasternDay, Bought, Holds, FreshTrader, Rolled;
    var p, t := PlanFor(m), m - 3 * INTERVAL;
    var r := D.Begin(p, D.Morning(p, Tape(BEFORE, false)), t);
    FirstLook(t, d);
    var r1 := Buying(m, r, t, skip, d, t, 0.0);
    s := Holding(m, r1, t, skip, BEFORE);
  }

  lemma {:induction false} FirstLook(now: nat, d: int)
    requires d != 0 && EasternDay(now) == d
    ensures var s := FreshTrader(CONFIG);
            Empty(s) && Dates(Rolled(s, now), d, now, 0.0) && Counts(Rolled(s, now), 0, 0)
  {
    hide EasternDay;
  }

  /** The tick after the fall sells the position. */
  lemma {:induction false} Selling(m: nat, r: D.Run<Tape>, t: nat, end: nat, skip: bool, entry: nat) returns (s: D.Run<Tape>)
    requires m > 3 * INTERVAL && t <= end < D.NEVER && r.nextEval == t < D.NewsTime(PlanFor(m), r.ni)
    requires Stands(r, false, AFTER, r.ni, t) && Holds(r.e.trader, BEFORE, entry) && Remembered(r.e.trader, t)
    ensures D.Loop(PlanFor(m), r, end, skip) == D.Loop(PlanFor(m), s, end, skip)
    ensures Stands(s, false, AFTER, r.ni, t + INTERVAL) && Empty(s.e.trader)
    ensures Dates(s.e.trader, r.e.trader.day, r.e.trader.checked, r.e.trader.st.dayRealized - 500.0)
    ensures Counts(s.e.trader, r.e.trader.st.bought, r.e.trader.st.rejectedRisk)
  {
    hide D.Loop, D.Dispatch, E.PaperStep, Remembered, Bought, E.Idle, E.Evaluate, D.Skip;
    Busy(r.e);
    SkipsNothing(m, r, end);
    GoesEval(m, r, end, skip);
    LookIs(r.e, t);
    Sells(r.e.trader, Tape(AFTER, true), t, entry);
    s := D.Dispatch(PlanFor(m), r);
  }

  /** Without the skip, a tick of the idle engine only minds the date. */
  lemma {:induction false} Waiting(m: nat, r: D.Run<Tape>, t: nat, end: nat) returns (s: D.Run<Tape>)
    requires m > 3 * INTERVAL && t <= end < D.NEVER && r.nextEval == t < D.NewsTime(PlanFor(m), r.ni)
    requires r.started && r.e.other == Tape(AFTER, true) && Empty(r.e.trader)
    ensures D.Loop(PlanFor(m), r, end, false) == D.Loop(PlanFor(m), s, end, false)
    ensures Stands(s, false, AFTER, r.ni, t + INTERVAL) && s.e.trader == Rolled(r.e.trader, t)
  {
    hide D.Loop, D.Dispatch, E.PaperStep, Rolled, E.Evaluate, D.Skip;
    GoesEval(m, r, end, false);
    LookIs(r.e, t);
    Waits(r.e.trader, Tape(AFTER, true), t);
    s := D.Dispatch(PlanFor(m), r);
  }

  /** A story whose alert is refused. */
  lemma {:induction false} Refusing(m: nat, r: D.Run<Tape>) returns (s: D.Run<Tape>)
    requires 3 * INTERVAL < m < D.NEVER && Stands(r, false, AFTER, 1, m)
    requires Empty(r.e.trader) && Remembered(r.e.trader, m) && r.e.trader.st.dayRealized <= -100.0
    ensures D.Loop(PlanFor(m), r, m, false) == D.Loop(PlanFor(m), s, m, false)
    ensures Stands(s, true, AFTER, 2, m) && Empty(s.e.trader) && Remembered(s.e.trader, m)
    ensures Counts(s.e.trader, r.e.trader.st.bought, r.e.trader.st.rejectedRisk + 1)
  {
    hide D.Loop, D.Dispatch, E.PaperStep, Signalled, E.OnNews, D.Skip;
    GoesNews(m, r, m, false);
    NewsIs(r.e, 1, m);
    Refuses(r.e.trader, Tape(AFTER, true), m);
    s := D.Dispatch(PlanFor(m), r);
  }

  /** The tick at midnight minus 40 seconds is left out. */
  lemma {:induction false} SkipsTick(m: nat, r: D.Run<Tape>)
    requires 3 * INTERVAL < m < D.NEVER && r.ni == 1 && r.nextEval == m - INTERVAL && E.Idle(BRAIN, r.e)
    ensures D.Loop(PlanFor(m), r, m, true) == D.Loop(PlanFor(m), r.(nextEval := m), m, true)
  {
    hide E.Idle, D.Dispatch;
    var p, s := PlanFor(m), r.(nextEval := m);
    assert D.NewsTime(p, 1) == m;
    assert D.Steps(INTERVAL, INTERVAL) == 1;
    assert D.Skip(p, r, m) == s;
    assert D.Skip(p, s, m) == s;
  }

  lemma {:induction false} Quiet(e: E.Core<Tape>)
    requires e.active == [] && Empty(e.trader)
    ensures E.Idle(BRAIN, e)
  {
  }

  lemma {:induction false} LooksAgain(s: Trader, now: nat, d: int, day: real)
    requires s.day != 0 && s.checked + MINUTE_NS <= now && EasternDay(now) == d && day == s.st.dayRealized
    ensures Dates(Rolled(s, now), d, now, if s.day == d then day else 0.0) && Rolled(s, now).pos == s.pos
    ensures Counts(Rolled(s, now), s.st.bought, s.st.rejectedRisk)
  {
    hide EasternDay;
  }

  /** With the skip the second alert is bought. */
  lemma {:induction false} ClosingFast(m: nat, r: D.Run<Tape>, d: int) returns (s: D.Run<Tape>)
    requires 4 * INTERVAL < m < D.NEVER && d > 0 && EasternDay(m) == d + 1
    requires Stands(r, false, AFTER, 1, m - 2 * INTERVAL) && Holds(r.e.trader, BEFORE, m - 3 * INTERVAL)
    requires Dates(r.e.trader, d, m - 3 * INTERVAL, 0.0) && Counts(r.e.trader, 1, 0)
    ensures D.Loop(PlanFor(m), r, m, true) == s && Counts(s.e.trader, 2, 0) && Holds(s.e.trader, AFTER, m)
  {
    hide D.Loop, EasternDay, Bought, Rolled, E.Idle;
    assert D.NewsTime(PlanFor(m), 1) == m && D.NewsTime(PlanFor(m), 2) == D.NEVER;
    var r1 := Selling(m, r, m - 2 * INTERVAL, m, true, m - 3 * INTERVAL);
    Quiet(r1.e);
    SkipsTick(m, r1);
    LooksAgain(r1.e.trader, m, d + 1, -500.0);
    var r2 := Buying(m, r1.(nextEval := m), m, true, d + 1, m, 0.0);
    s := Holding(m, r2, m, true, AFTER);
  }

  /** Without it, it is refused. */
  lemma {:induction false} ClosingSlow(m: nat, r: D.Run<Tape>, d: int) returns (s: D.Run<Tape>)
    requires 4 * INTERVAL < m < D.NEVER && d > 0 && EasternDay(m - INTERVAL) == d
    requires Stands(r, false, AFTER, 1, m - 2 * INTERVAL) && Holds(r.e.trader, BEFORE, m - 3 * INTERVAL)
    requires Dates(r.e.trader, d, m - 3 * INTERVAL, 0.0) && Counts(r.e.trader, 1, 0)
    ensures D.Loop(PlanFor(m), r, m, false) == s && Counts(s.e.trader, 1, 1) && Empty(s.e.trader)
  {
    hide D.Loop, EasternDay, Bought, Rolled;
    assert D.NewsTime(PlanFor(m), 1) == m && D.NewsTime(PlanFor(m), 2) == D.NEVER;
    var r1 := Selling(m, r, m - 2 * INTERVAL, m, false, m - 3 * INTERVAL);
    LooksAgain(r1.e.trader, m - INTERVAL, d, -500.0);
    var r2 := Waiting(m, r1, m - INTERVAL, m);
    var r3 := Refusing(m, r2);
    RemembersStill(r3.e.trader, m);
    s := Waiting(m, r3, m, m);
    GoesNowhere(m, s, m, false);
  }

  lemma {:induction false} RemembersStill(s: Trader, now: nat)
    requires Remembered(s, now)
    ensures Rolled(s, now) == s
  {
  }

  // ---- the replay ----

  function Ticks(m: nat): seq<D.Tick<Tape>>
    requires m > 3 * INTERVAL
  {
    [D.Tick(m - 3 * INTERVAL, Fall)]
  }

  /** What the driver's replay makes of the trader. */
  function Fast(m: nat): Trader
    requires 4 * INTERVAL < m < D.NEVER
  {
    D.Finish(PlanFor(m), D.Day(PlanFor(m), Start(m), Ticks(m)), m).e.trader
  }

  /** What the reference driver's does. */
  function Slow(m: nat): Trader
    requires 4 * INTERVAL < m < D.NEVER
  {
    D.Reference(PlanFor(m), D.ReferenceDay(PlanFor(m), Start(m), Ticks(m)), m).e.trader
  }

  /** After the price has fallen. */
  function Fallen(r: D.Run<Tape>, due: nat): D.Run<Tape> {
    r.(e := r.e.(other := r.e.other.(px := AFTER)), nextDue := due)
  }

  lemma {:induction false} FastIs(m: nat, r: D.Run<Tape>)
    requires 4 * INTERVAL < m < D.NEVER && r.started
    requires r == FirstCall(m, true)
    ensures Fast(m) == D.Loop(PlanFor(m), Fallen(r, 0), m, true).e.trader
  {
    hide D.Loop, D.Next, EasternDay;
    var p, t := PlanFor(m), m - 3 * INTERVAL;
    var a := D.Advance(p, Start(m), t);
    assert a == r.(nextDue := D.Next(p, r));
    var b := D.Touch(a, Fall);
    assert Ticks(m)[1..] == [] && D.Day(p, b, []) == b;
    assert D.Day(p, Start(m), Ticks(m)) == b;
    assert D.Begin(p, b.(nextDue := 0), m) == Fallen(r, 0);
  }

  lemma {:induction false} SlowIs(m: nat, r: D.Run<Tape>)
    requires 4 * INTERVAL < m < D.NEVER && r.started
    requires r == FirstCall(m, false)
    ensures Slow(m) == D.Loop(PlanFor(m), Fallen(r, r.nextDue), m, false).e.trader
  {
    hide D.Loop, EasternDay;
    var p, t := PlanFor(m), m - 3 * INTERVAL;
    var b := D.Touch(r, Fall);
    assert D.Reference(p, Start(m), t) == r;
    assert Ticks(m)[1..] == [] && D.ReferenceDay(p, b, []) == b;
    assert D.ReferenceDay(p, Start(m), Ticks(m)) == b;
    assert D.Begin(p, b, m) == Fallen(r, r.nextDue);
  }

  lemma {:induction false} PlanIsProper(m: nat)
    requires m > 3 * INTERVAL
    ensures D.Proper(PlanFor(m))
  {
  }

  lemma {:induction false} PartsFast(m: nat, d: int)
    requires 4 * INTERVAL < m < D.NEVER && d > 0 && EasternDay(m - 3 * INTERVAL) == d && EasternDay(m) == d + 1
    ensures Counts(Fast(m), 2, 0)
  {
    hide FirstCall, EasternDay, Holds, Counts, Dates, Fast;
    var r := Opening(m, d, true);
    FastIs(m, r);
    var s := ClosingFast(m, Fallen(r, 0), d);
  }

  lemma {:induction false} PartsSlow(m: nat, d: int)
    requires 4 * INTERVAL < m < D.NEVER && d > 0 && EasternDay(m - 3 * INTERVAL) == EasternDay(m - INTERVAL) == d
    ensures Counts(Slow(m), 1, 1)
  {
    hide FirstCall, EasternDay, Holds, Counts, Dates, Slow;
    var r := Opening(m, d, false);
    SlowIs(m, r);
    var s := ClosingSlow(m, Fallen(r, r.nextDue), d);
  }

  // ---- every midnight ----

  lemma {:induction false} Yesterday(u: Calendar.Date) returns (t: Calendar.Date)
    requires Calendar.IsDate(u)
    ensures Calendar.IsDate(t) && Calendar.Tomorrow(t) == u && Calendar.DayNumber(t) == Calendar.DayNumber(u) - 1
  {
    hide Calendar.IsDate, Calendar.DayNumber, Calendar.CivilFromDays, Calendar.Tomorrow;
    t := Calendar.CivilFromDays(Calendar.DayNumber(u) - 1);
    Calendar.DaysOfCivil(Calendar.DayNumber(u) - 1);
    Calendar.DaysCount(t);
    Calendar.CivilOfDays(u);
    Calendar.CivilOfDays(Calendar.Tomorrow(t));
  }

  /** A day is longer than two minutes. */
  lemma {:induction false} MidnightsApart(n: int)
    requires n > 1
    ensures EasternTime.Ns(EasternTime.Midnight(n - 1)) <= EasternTime.Ns(EasternTime.Midnight(n)) - 120_000_000_000
    ensures EasternTime.Ns(EasternTime.Midnight(n)) > 160_000_000_000
  {
    EasternTime.OffsetIs(EasternTime.Probe(n));
    EasternTime.OffsetIs(EasternTime.Probe(n - 1));
    hide EasternTime.Offset;
  }

  /** In the last two minutes before the midnight of `u` it is still the day before. */
  lemma {:induction false} AroundMidnight(u: Calendar.Date, before: nat)
    requires Calendar.IsDate(u) && Calendar.DayNumber(u) > 1 && 0 < before <= 120_000_000_000
    ensures EasternTime.MidnightNs(u) > 160_000_000_000
    ensures EasternDay(EasternTime.MidnightNs(u) - before) == Calendar.DayNumber(u) - 1
    ensures EasternDay(EasternTime.MidnightNs(u)) == Calendar.DayNumber(u)
  {
    hide Calendar.IsDate, Calendar.DayNumber, Calendar.Tomorrow, EasternTime.EasternDate, EasternTime.Midnight, EasternTime.Ns;
    var t := Yesterday(u);
    MidnightsApart(Calendar.DayNumber(u));
    EasternTime.MidnightRoundTrip(u);
    EasternTime.DateOfInstant(EasternTime.MidnightNs(u) - before, t);
  }

  /**
   For every midnight: the same replay of a fresh engine, with the tick at 40 seconds before midnight left out buys twice,
   and with it buys once and has the second alert refused.
   */
  lemma {:induction false} SkipTells(u: Calendar.Date) returns (m: nat)
    requires Calendar.IsDate(u) && Calendar.DayNumber(u) > 1 && EasternTime.MidnightNs(u) < D.NEVER
    ensures m == EasternTime.MidnightNs(u) > 4 * INTERVAL && D.Proper(PlanFor(m))
    ensures Fast(m).st.bought == 2 && Fast(m).st.rejectedRisk == 0
    ensures Slow(m).st.bought == 1 && Slow(m).st.rejectedRisk == 1
  {
    hide Fast, Slow, EasternDay, EasternTime.MidnightNs, Calendar.IsDate, Calendar.DayNumber, D.Proper;
    AroundMidnight(u, 3 * INTERVAL);
    AroundMidnight(u, INTERVAL);
    m := EasternTime.MidnightNs(u);
    PlanIsProper(m);
    PartsFast(m, Calendar.DayNumber(u) - 1);
    PartsSlow(m, Calendar.DayNumber(u) - 1);
  }
}
