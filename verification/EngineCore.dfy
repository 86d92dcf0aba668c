/**
 The engine as the replay driver sees it: the watched stories and the paper trader, which decide
 whether it is idle, and everything else behind functions of its own.
 */
module EngineCore {
  import opened PaperTrading
  import EasternTime

  /** The slots of the watched stories, the paper trader, and the rest of the engine's state. */
  datatype Core<X> = Core(active: seq<nat>, other: X, trader: Trader)

  /** What a news item, a look at the watched stories and a scan for movers come to. */
  datatype News<X> = News(active: seq<nat>, other: X, signals: seq<Signal>, touched: bool)
  datatype Look<X> = Look(active: seq<nat>, other: X, signals: seq<Signal>)
  datatype Found<X> = Found(other: X, movers: seq<nat>)

  /**
   The engine's own decisions. None of them looks at the paper trader, and a scan only finds tickers to
   report: it neither watches a story nor drops one.
   */
  datatype Brain<!X> = Brain(c: Config, paper: bool, board: X -> Board,
                             news: (seq<nat>, X, nat, nat) -> News<X>,
                             look: (seq<nat>, X, nat) -> Look<X>,
                             scan: (seq<nat>, X, nat) -> Found<X>)

  /** Emitting signals: the paper trader hears of alerts and highs. */
  function Emit<X>(b: Brain<X>, s: Trader, signals: seq<Signal>, now: nat): Trader
    decreases |signals|
  {
    if signals == [] then s
    else
      var s' := if b.paper && (signals[0].tier.Alert? || signals[0].tier.High?) then Signalled(b.c, s, signals[0], now) else s;
      Emit(b, s', signals[1..], now)
  }

  /** The trader's step; held positions always have a price. */
  function PaperStep<X>(b: Brain<X>, s: Trader, board: Board, now: nat): Trader
    requires Sane(b.c)
  {
    if b.paper && Priced(s.pos) then Stepped(b.c, s, board, now) else s
  }

  /** A look at every watched story, then the trader's step. */
  function Evaluate<X>(b: Brain<X>, e: Core<X>, now: nat): Core<X>
    requires Sane(b.c)
  {
    var l := if e.active == [] then Look([], e.other, []) else b.look(e.active, e.other, now);
    Core(l.active, l.other, PaperStep(b, Emit(b, e.trader, l.signals, now), b.board(l.other), now))
  }

  /** A news item; when a story was stored the list is looked at at once. */
  function OnNews<X>(b: Brain<X>, e: Core<X>, i: nat, now: nat): Core<X>
    requires Sane(b.c)
  {
    var n := b.news(e.active, e.other, i, now);
    var e' := Core(n.active, n.other, Emit(b, e.trader, n.signals, now));
    if n.touched then Evaluate(b, e', now) else e'
  }

  function MoverSignals(movers: seq<nat>): seq<Signal> {
    seq(|movers|, i requires 0 <= i < |movers| => Signal(movers[i], Mover, 0.0, 0.0))
  }

  function ScanMovers<X>(b: Brain<X>, e: Core<X>, now: nat): Core<X> {
    var f := b.scan(e.active, e.other, now);
    e.(other := f.other, trader := Emit(b, e.trader, MoverSignals(f.movers), now))
  }

  /** Market data and halts change neither the list nor the trader. */
  function Touch<X>(e: Core<X>, market: X -> X): Core<X> {
    e.(other := market(e.other))
  }

  predicate NoneActive(ps: seq<Pos>) {
    forall i :: 0 <= i < |ps| ==> !ps[i].active
  }

  /** No story is watched and no paper position is held or ordered. */
  predicate Idle<X>(b: Brain<X>, e: Core<X>) {
    e.active == [] && (!b.paper || NoneActive(e.trader.pos))
  }

  // ---- a scan does not wake an idle engine ----

  lemma {:induction false} MoversIgnored<X>(b: Brain<X>, s: Trader, signals: seq<Signal>, now: nat)
    requires forall i :: 0 <= i < |signals| ==> signals[i].tier.Mover?
    ensures Emit(b, s, signals, now) == s
    decreases |signals|
  {
    if signals != [] {
      MoversIgnored(b, s, signals[1..], now);
    }
  }

  /** The trader never hears of movers, and the list is not touched. */
  lemma {:induction false} ScansKeepIdle<X>(b: Brain<X>, e: Core<X>, now: nat)
    ensures ScanMovers(b, e, now).trader == e.trader && Idle(b, ScanMovers(b, e, now)) == Idle(b, e)
  {
    MoversIgnored(b, e.trader, MoverSignals(b.scan(e.active, e.other, now).movers), now);
  }

  // ---- traders that differ only in when they last looked up the date ----

  /** When the date was looked up left aside. */
  function Unchecked(s: Trader): Trader {
    s.(checked := 0)
  }

  /** All instants from `from` up to `upTo` have the date `d`. */
  ghost predicate OneDate(d: int, from: nat, upTo: nat) {
    forall t: nat :: from <= t <= upTo ==> EasternDay(t) == d
  }

  lemma {:induction false} DaysAdvance(t: nat, t': nat)
    requires t <= t'
    ensures EasternDay(t) <= EasternDay(t')
  {
    EasternTime.DatesAdvance(t, t');
  }

  lemma {:induction false} EndsDecide(from: nat, upTo: nat)
    requires from <= upTo && EasternDay(from) == EasternDay(upTo)
    ensures OneDate(EasternDay(from), from, upTo)
  {
    forall t: nat | from <= t <= upTo ensures EasternDay(t) == EasternDay(from) {
      DaysAdvance(from, t);
      DaysAdvance(t, upTo);
    }
  }

  /** The trader's day is `d`, or still to be set. */
  ghost predicate Dated(s: Trader, d: int) {
    s.day == 0 || s.day == d
  }

  ghost predicate Ok<X>(b: Brain<X>, e: Core<X>, d: int) {
    Sane(b.c) && Sound(b.c, e.trader) && Dated(e.trader, d)
  }

  /** On the date `d` the two are the same as soon as they mind it. */
  ghost predicate SameTrader(s: Trader, s': Trader, d: int) {
    Unchecked(OnDay(s, d)) == Unchecked(OnDay(s', d))
  }

  ghost predicate Same<X>(e: Core<X>, e': Core<X>, d: int) {
    e.active == e'.active && e.other == e'.other && SameTrader(e.trader, e'.trader, d)
  }

  lemma {:induction false} SameSelf<X>(e: Core<X>, d: int)
    ensures Same(e, e, d)
  {
  }

  lemma {:induction false} SameTransitive<X>(a: Core<X>, b: Core<X>, c: Core<X>, d: int)
    requires Same(a, b, d) && Same(b, c, d)
    ensures Same(a, c, d)
  {
  }

  lemma {:induction false} SameBack<X>(e: Core<X>, e': Core<X>, d: int)
    requires Same(e, e', d)
    ensures Same(e', e, d)
  {
  }

  lemma {:induction false} SameKeeps(s: Trader, s': Trader, d: int)
    requires SameTrader(s, s', d)
    ensures s.pos == s'.pos && s.log == s'.log && s.st.(dayRealized := 0.0) == s'.st.(dayRealized := 0.0)
  {
    assert Unchecked(OnDay(s, d)).pos == s.pos && Unchecked(OnDay(s', d)).pos == s'.pos;
    assert Unchecked(OnDay(s, d)).log == s.log && Unchecked(OnDay(s', d)).log == s'.log;
    assert Unchecked(OnDay(s, d)).st.(dayRealized := 0.0) == s.st.(dayRealized := 0.0);
    assert Unchecked(OnDay(s', d)).st.(dayRealized := 0.0) == s'.st.(dayRealized := 0.0);
  }

  lemma {:induction false} SameIdle<X>(b: Brain<X>, e: Core<X>, e': Core<X>, d: int)
    requires Same(e, e', d)
    ensures Idle(b, e) == Idle(b, e')
  {
    SameKeeps(e.trader, e'.trader, d);
    hide SameTrader;
  }

  /** Minding the date, looked up or remembered, sets the day. */
  lemma {:induction false} RolledIs(s: Trader, d: int, now: nat)
    requires Dated(s, d) && EasternDay(now) == d
    ensures Unchecked(Rolled(s, now)) == Unchecked(OnDay(s, d)) && Rolled(s, now).day == d
  {
    hide EasternDay;
  }

  lemma {:induction false} DaySet(r: Trader, r': Trader, d: int)
    requires Unchecked(r) == Unchecked(r') && r.day == d
    ensures SameTrader(r, r', d) && Dated(r, d) && Dated(r', d)
  {
    assert Unchecked(r).day == r.day && Unchecked(r').day == r'.day;
  }

  lemma {:induction false} OrderedLike(c: Config, r: Trader, r': Trader, signal: Signal, now: nat)
    requires Unchecked(r) == Unchecked(r')
    ensures Unchecked(Ordered(c, r, signal, now)) == Unchecked(Ordered(c, r', signal, now))
    ensures Ordered(c, r, signal, now).day == r.day
  {
    assert Ordered(c, r, signal, now) == Ordered(c, Unchecked(r), signal, now).(checked := r.checked) by {
      OrderedUnchecked(c, r, signal, now);
    }
    OrderedUnchecked(c, r', signal, now);
    hide Ordered;
  }

  lemma {:induction false} OrderedUnchecked(c: Config, r: Trader, signal: Signal, now: nat)
    ensures Ordered(c, r, signal, now) == Ordered(c, Unchecked(r), signal, now).(checked := r.checked)
    ensures Ordered(c, r, signal, now).day == r.day
  {
    hide Held, FreeSlot, Order;
  }

  lemma {:induction false} SignalledSame(c: Config, s: Trader, s': Trader, signal: Signal, d: int, now: nat)
    requires SameTrader(s, s', d) && Dated(s, d) && Dated(s', d) && EasternDay(now) == d
    ensures var r, r' := Signalled(c, s, signal, now), Signalled(c, s', signal, now);
            SameTrader(r, r', d) && Dated(r, d) && Dated(r', d)
  {
    hide Rolled, Ordered, OnDay, EasternDay;
    RolledIs(s, d, now);
    RolledIs(s', d, now);
    OrderedLike(c, Rolled(s, now), Rolled(s', now), signal, now);
    if Tradable(c, signal.tier) {
      DaySet(Signalled(c, s, signal, now), Signalled(c, s', signal, now), d);
    }
  }

  lemma {:induction false} EmitSame<X>(b: Brain<X>, s: Trader, s': Trader, signals: seq<Signal>, d: int, now: nat)
    requires SameTrader(s, s', d) && Dated(s, d) && Dated(s', d) && (b.paper ==> EasternDay(now) == d)
    ensures var r, r' := Emit(b, s, signals, now), Emit(b, s', signals, now);
            SameTrader(r, r', d) && Dated(r, d) && Dated(r', d)
    decreases |signals|
  {
    hide SameTrader, Signalled, Dated, EasternDay;
    if signals != [] {
      if b.paper && (signals[0].tier.Alert? || signals[0].tier.High?) {
        SignalledSame(b.c, s, s', signals[0], d, now);
        EmitSame(b, Signalled(b.c, s, signals[0], now), Signalled(b.c, s', signals[0], now), signals[1..], d, now);
      } else {
        EmitSame(b, s, s', signals[1..], d, now);
      }
    }
  }

  lemma {:induction false} EmitSound<X>(b: Brain<X>, s: Trader, signals: seq<Signal>, now: nat)
    requires Sound(b.c, s)
    ensures Sound(b.c, Emit(b, s, signals, now))
    decreases |signals|
  {
    hide Sound, Signalled;
    if signals != [] {
      SignalledSound(b.c, s, signals[0], now);
      if b.paper && (signals[0].tier.Alert? || signals[0].tier.High?) {
        EmitSound(b, Signalled(b.c, s, signals[0], now), signals[1..], now);
      } else {
        EmitSound(b, s, signals[1..], now);
      }
    }
  }

  /** The date is minded before the positions are looked at; they do not care when it was looked up. */
  lemma {:induction false} StepFromLike(c: Config, s: Trader, s': Trader, i: nat, board: Board, now: nat)
    requires Sane(c) && i <= |s.pos| && Priced(s.pos) && Unchecked(s) == Unchecked(s')
    ensures s.pos == s'.pos && Unchecked(StepFrom(c, s, i, board, now)) == Unchecked(StepFrom(c, s', i, board, now))
    decreases |s.pos| - i
  {
    hide StepPos, AfterStep, Told;
    assert s.pos == Unchecked(s).pos == s'.pos;
    if i < |s.pos| {
      StepPosIs(c, s, i, board, now);
      StepPosIs(c, s', i, board, now);
      StepPosLike(c, s, s', i, board, now);
      StepFromLike(c, StepPos(c, s, i, board, now), StepPos(c, s', i, board, now), i + 1, board, now);
    }
  }

  lemma {:induction false} StepPosLike(c: Config, s: Trader, s': Trader, i: nat, board: Board, now: nat)
    requires Sane(c) && i < |s.pos| && PricedPos(s.pos[i]) && Unchecked(s) == Unchecked(s')
    ensures s.pos == s'.pos && Unchecked(StepPos(c, s, i, board, now)) == Unchecked(StepPos(c, s', i, board, now))
  {
    assert s.pos == Unchecked(s).pos == s'.pos && s.st == Unchecked(s).st == s'.st && s.log == Unchecked(s).log == s'.log;
    assert s' == s.(checked := s'.checked);
    hide TryFill, CheckExit, Closed, Book;
  }

  lemma {:induction false} StepSame<X>(b: Brain<X>, s: Trader, s': Trader, board: Board, d: int, now: nat)
    requires Sane(b.c) && SameTrader(s, s', d) && Dated(s, d) && Dated(s', d) && (b.paper ==> EasternDay(now) == d)
    ensures var r, r' := PaperStep(b, s, board, now), PaperStep(b, s', board, now);
            SameTrader(r, r', d) && Dated(r, d) && Dated(r', d)
  {
    hide Rolled, StepFrom, Priced, OnDay, EasternDay;
    SameKeeps(s, s', d);
    if b.paper && Priced(s.pos) {
      RolledIs(s, d, now);
      RolledIs(s', d, now);
      RolledPos(s, now);
      StepFromLike(b.c, Rolled(s, now), Rolled(s', now), 0, board, now);
      DaySet(Stepped(b.c, s, board, now), Stepped(b.c, s', board, now), d);
    }
  }

  lemma {:induction false} StepSound<X>(b: Brain<X>, s: Trader, board: Board, now: nat)
    requires Sane(b.c) && Sound(b.c, s)
    ensures Sound(b.c, PaperStep(b, s, board, now))
  {
    SteppedSound(b.c, s, board, now);
    hide Sound, Stepped, Priced;
  }

  // ---- the engine's calls keep such engines together ----

  lemma {:induction false} EvaluateSame<X>(b: Brain<X>, e: Core<X>, e': Core<X>, d: int, now: nat)
    requires Ok(b, e, d) && Ok(b, e', d) && Same(e, e', d) && (b.paper ==> EasternDay(now) == d)
    ensures var r, r' := Evaluate(b, e, now), Evaluate(b, e', now); Same(r, r', d) && Ok(b, r, d) && Ok(b, r', d)
  {
    hide SameTrader, PaperStep, Emit, Sound, Dated, EasternDay;
    var l := if e.active == [] then Look([], e.other, []) else b.look(e.active, e.other, now);
    EmitSame(b, e.trader, e'.trader, l.signals, d, now);
    EmitSound(b, e.trader, l.signals, now);
    EmitSound(b, e'.trader, l.signals, now);
    var s, s' := Emit(b, e.trader, l.signals, now), Emit(b, e'.trader, l.signals, now);
    StepSame(b, s, s', b.board(l.other), d, now);
    StepSound(b, s, b.board(l.other), now);
    StepSound(b, s', b.board(l.other), now);
  }

  lemma {:induction false} OnNewsSame<X>(b: Brain<X>, e: Core<X>, e': Core<X>, i: nat, d: int, now: nat)
    requires Ok(b, e, d) && Ok(b, e', d) && Same(e, e', d) && (b.paper ==> EasternDay(now) == d)
    ensures var r, r' := OnNews(b, e, i, now), OnNews(b, e', i, now); Same(r, r', d) && Ok(b, r, d) && Ok(b, r', d)
  {
    hide SameTrader, Evaluate, Emit, Sound, Dated, EasternDay;
    var n := b.news(e.active, e.other, i, now);
    EmitSame(b, e.trader, e'.trader, n.signals, d, now);
    EmitSound(b, e.trader, n.signals, now);
    EmitSound(b, e'.trader, n.signals, now);
    EvaluateSame(b, Core(n.active, n.other, Emit(b, e.trader, n.signals, now)),
                 Core(n.active, n.other, Emit(b, e'.trader, n.signals, now)), d, now);
  }

  lemma {:induction false} ScanSame<X>(b: Brain<X>, e: Core<X>, e': Core<X>, d: int, now: nat)
    requires Ok(b, e, d) && Ok(b, e', d) && Same(e, e', d)
    ensures var r, r' := ScanMovers(b, e, now), ScanMovers(b, e', now); Same(r, r', d) && Ok(b, r, d) && Ok(b, r', d)
  {
    hide SameTrader, Emit, Sound, Dated;
    ScansKeepIdle(b, e, now);
    ScansKeepIdle(b, e', now);
  }

  /** On one date, or without a trader, an idle engine's evaluation cannot be told from none. */
  lemma {:induction false} IdleEvaluation<X>(b: Brain<X>, e: Core<X>, d: int, now: nat)
    requires Ok(b, e, d) && Idle(b, e) && (b.paper ==> EasternDay(now) == d)
    ensures Same(Evaluate(b, e, now), e, d)
  {
    IdleRolls(b, e, now);
    SameSelf(e, d);
    hide Sound, EasternDay, Rolled, Evaluate, OnDay;
    if b.paper {
      RolledIs(e.trader, d, now);
      OnDayAgain(Rolled(e.trader, now), d);
    }
  }

  lemma {:induction false} OnDayAgain(s: Trader, d: int)
    requires s.day == d
    ensures OnDay(s, d) == s
  {
  }

  /** It only has the trader mind the date. */
  lemma {:induction false} IdleRolls<X>(b: Brain<X>, e: Core<X>, now: nat)
    requires Sane(b.c) && Sound(b.c, e.trader) && Idle(b, e)
    ensures Evaluate(b, e, now) == e.(trader := if b.paper then Rolled(e.trader, now) else e.trader)
  {
    SoundPriced(b.c, e.trader);
    hide Sound, EasternDay, Rolled;
    assert Emit(b, e.trader, [], now) == e.trader;
    if b.paper {
      RolledPos(e.trader, now);
      StepsNothing(b.c, Rolled(e.trader, now), 0, b.board(e.other), now);
    }
  }

  // ---- shutdown ----

  /** The day's account left aside. */
  function Undated(s: Trader): Trader {
    s.(day := 0, dayBase := 0.0, checked := 0, st := s.st.(dayRealized := 0.0))
  }

  lemma {:induction false} CloseUndated(c: Config, s: Trader, s': Trader, i: nat, board: Board, now: nat)
    requires i <= |s.pos| && Undated(s) == Undated(s')
    ensures |s.pos| == |s'.pos| && Undated(CloseFrom(c, s, i, board, now)) == Undated(CloseFrom(c, s', i, board, now))
    decreases |s.pos| - i
  {
    assert s.pos == Undated(s).pos == s'.pos;
    if i < |s.pos| {
      ClosePosUndated(c, s, s', i, board, now);
      hide ClosePos, Undated;
      CloseUndated(c, ClosePos(c, s, i, board, now), ClosePos(c, s', i, board, now), i + 1, board, now);
    }
  }

  lemma {:induction false} ClosePosUndated(c: Config, s: Trader, s': Trader, i: nat, board: Board, now: nat)
    requires i < |s.pos| && Undated(s) == Undated(s')
    ensures |s.pos| == |s'.pos| && |ClosePos(c, s, i, board, now).pos| == |s.pos|
    ensures Undated(ClosePos(c, s, i, board, now)) == Undated(ClosePos(c, s', i, board, now))
  {
    hide Closed, SalePx;
    assert s.pos == Undated(s).pos == s'.pos;
    assert s.st.(dayRealized := 0.0) == s'.st.(dayRealized := 0.0);
  }

  function Shutdown<X>(b: Brain<X>, e: Core<X>, now: nat): Trader {
    if b.paper then CloseFrom(b.c, e.trader, 0, b.board(e.other), now) else e.trader
  }

  /** Engines that are the same close out the same positions and report the same trades. */
  lemma {:induction false} ShutdownSame<X>(b: Brain<X>, e: Core<X>, e': Core<X>, d: int, end: nat)
    requires Same(e, e', d)
    ensures Undated(Shutdown(b, e, end)) == Undated(Shutdown(b, e', end))
  {
    SameKeeps(e.trader, e'.trader, d);
    hide SameTrader, CloseFrom;
    CloseUndated(b.c, e.trader, e'.trader, 0, b.board(e.other), end);
  }

  // ---- one look at the date more ----

  /** The trader after minding the date at each of `ts`. */
  function Looks(s: Trader, ts: seq<nat>): Trader
    decreases |ts|
  {
    if ts == [] then s else Looks(Rolled(s, ts[0]), ts[1..])
  }

  /** Times that do not go back, from `from` up to `upTo`. */
  ghost predicate Later(ts: seq<nat>, from: nat, upTo: nat) {
    && (forall i :: 0 <= i < |ts| ==> from <= ts[i] <= upTo)
    && (forall i, j :: 0 <= i < j < |ts| ==> ts[i] <= ts[j])
  }

  /** Whether some looks up to `upTo` tell a look at `now` from none, by the day, the account or anything else. */
  ghost predicate Tells(s: Trader, now: nat, upTo: nat) {
    exists ts: seq<nat> :: ts != [] && Later(ts, now, upTo) && Unchecked(Looks(Rolled(s, now), ts)) != Unchecked(Looks(s, ts))
  }

  lemma {:induction false} Forgotten(s: Trader, now: nat, t: nat)
    requires s.checked <= now <= t && !Remembered(s, now)
    ensures !Remembered(s, t)
  {
  }

  lemma {:induction false} LaterRest(ts: seq<nat>, from: nat, upTo: nat)
    requires ts != [] && Later(ts, from, upTo)
    ensures from <= ts[0] <= upTo && Later(ts[1..], from, upTo)
  {
  }

  lemma {:induction false} LaterMore(a: nat, b: nat, ts: seq<nat>, from: nat, upTo: nat)
    requires from <= a <= b <= upTo && Later(ts, b, upTo)
    ensures Later([a, b] + ts, from, upTo)
  {
  }

  /** On one date, looks change nothing once the day is set. */
  lemma {:induction false} LooksIdle(s: Trader, d: int, ts: seq<nat>, from: nat, upTo: nat)
    requires s.day == d && Later(ts, from, upTo) && OneDate(d, from, upTo)
    ensures Unchecked(Looks(s, ts)) == Unchecked(s)
    decreases |ts|
  {
    hide Later, Rolled, Unchecked, EasternDay, OnDay;
    if ts != [] {
      LaterRest(ts, from, upTo);
      RolledIs(s, d, ts[0]);
      OnDayAgain(s, d);
      LooksIdle(Rolled(s, ts[0]), d, ts[1..], from, upTo);
    }
  }

  lemma {:induction false} CheckedApart(s: Trader, x: nat, d: int)
    ensures Unchecked(OnDay(s.(checked := x), d)) == Unchecked(OnDay(s, d)) && OnDay(s.(checked := x), d).day == d
  {
  }

  /** On one date a look more is not told. */
  lemma {:induction false} OneDateHides(s: Trader, now: nat, upTo: nat, ts: seq<nat>)
    requires s.checked <= now && !Remembered(s, now) && OneDate(EasternDay(now), now, upTo) && ts != [] && Later(ts, now, upTo)
    ensures Unchecked(Looks(Rolled(s, now), ts)) == Unchecked(Looks(s, ts))
  {
    hide Later, Unchecked, EasternDay, OnDay, Remembered;
    var d := EasternDay(now);
    LaterRest(ts, now, upTo);
    Forgotten(s, now, ts[0]);
    CheckedApart(s, now, d);
    CheckedApart(s, ts[0], d);
    LooksIdle(Rolled(s, now), d, ts, now, upTo);
    LooksIdle(Rolled(s, ts[0]), d, ts[1..], now, upTo);
  }

  lemma {:induction false} DayZeroHides(s: Trader, now: nat, upTo: nat, ts: seq<nat>)
    requires TrueDay(s) && s.checked <= now && !Remembered(s, now) && EasternDay(now) == 0 && ts != [] && Later(ts, now, upTo)
    ensures Looks(Rolled(s, now), ts) == Looks(s, ts)
  {
    hide Later, EasternDay, Remembered;
    LaterRest(ts, now, upTo);
    Forgotten(s, now, ts[0]);
    DaysAdvance(s.checked, now);
    DaysAdvance(now, ts[0]);
    NothingRemembered(Rolled(s, now), ts[0]);
    assert Rolled(Rolled(s, now), ts[0]) == Rolled(s, ts[0]);
  }

  lemma {:induction false} NothingRemembered(s: Trader, t: nat)
    requires s.day == 0
    ensures !Remembered(s, t)
  {
  }

  /** The first instant that does not have the date `d`. */
  lemma {:induction false} FirstChange(d: int, from: nat, t: nat) returns (m: nat)
    requires EasternDay(from) == d && from <= t && EasternDay(t) != d
    ensures from < m <= t && EasternDay(m) != d && OneDate(d, from, m - 1)
    decreases t
  {
    hide EasternDay;
    if EasternDay(t - 1) == d {
      m := t;
      EndsDecide(from, t - 1);
    } else {
      m := FirstChange(d, from, t - 1);
    }
  }

  /** A trader that looked at `e` remembers at `e` plus `g` and looks a minute after `e`. */
  lemma {:induction false} Leads(x: Trader, d: int, e: nat, g: nat)
    requires d != 0 && x.day == d && x.checked == e && 0 < g < MINUTE_NS
    ensures Rolled(x, e + g) == x
    ensures var y := Rolled(x, e + MINUTE_NS); y.day == EasternDay(e + MINUTE_NS) && y.checked == e + MINUTE_NS
  {
    hide EasternDay;
  }

  /** One that has forgotten by `e` plus `g` looks then, and still remembers a minute after `e`. */
  lemma {:induction false} Follows(y: Trader, d: int, e: nat, g: nat)
    requires y.checked <= e + g && !Remembered(y, e + g) && 0 < g < MINUTE_NS && d != 0 && EasternDay(e + g) == d
    ensures var z := Rolled(y, e + g);
            && z.day == d && z.checked == e + g && Rolled(z, e + MINUTE_NS) == z && !Remembered(z, e + MINUTE_NS + g)
  {
    hide EasternDay;
  }

  /**
   Two traders of the day `d`, one that looked at `e` and one whose last look is forgotten at `e` plus `g`. Looking at
   these two phases of every minute keeps them so, and at the midnight `m` one still remembers while the other looks.
   */
  lemma {:induction false} Diverge(x: Trader, y: Trader, d: int, e: nat, k: nat, g: nat, m: nat) returns (ts: seq<nat>)
    requires d != 0 && x.day == d && x.checked == e && 0 < g < MINUTE_NS && y.checked <= e + g && !Remembered(y, e + g)
    requires m == e + k * 60_000_000_000 + g || (g == 1 && m == e + (k + 1) * 60_000_000_000)
    requires OneDate(d, e, m - 1) && EasternDay(m) != d
    ensures ts != [] && Later(ts, e, m) && Looks(x, ts).day != Looks(y, ts).day
    decreases k
  {
    hide EasternDay, Rolled, Remembered, Looks;
    Leads(x, d, e, g);
    if k == 0 && m == e + g {
      ts := [m];
      LookOne(x, m);
      LookOne(y, m);
      LooksUp(y, m);
    } else {
      Follows(y, d, e, g);
      if k == 0 {
        ts := [e + g, m];
        LookTwo(x, e + g, m);
        LookTwo(y, e + g, m);
      } else {
        var x', y' := Rolled(x, e + MINUTE_NS), Rolled(y, e + g);
        var rest := Diverge(x', y', d, e + MINUTE_NS, k - 1, g, m);
        ts := [e + g, e + MINUTE_NS] + rest;
        LaterMore(e + g, e + MINUTE_NS, rest, e, m);
        LooksMore(x, e + g, e + MINUTE_NS, rest);
        LooksMore(y, e + g, e + MINUTE_NS, rest);
      }
    }
  }

  lemma {:induction false} LooksUp(s: Trader, t: nat)
    requires !Remembered(s, t)
    ensures Rolled(s, t).day == EasternDay(t)
  {
    hide EasternDay;
  }

  lemma {:induction false} LookOne(s: Trader, t: nat)
    ensures Looks(s, [t]) == Rolled(s, t)
  {
    hide Rolled;
    assert [t][1..] == [];
  }

  lemma {:induction false} LookTwo(s: Trader, t: nat, t': nat)
    ensures Looks(s, [t, t']) == Rolled(Rolled(s, t), t')
  {
    hide Rolled;
    assert [t, t'][1..] == [t'];
    LookOne(Rolled(s, t), t');
  }

  lemma {:induction false} LooksMore(s: Trader, t: nat, t': nat, ts: seq<nat>)
    ensures Looks(s, [t, t'] + ts) == Looks(Rolled(Rolled(s, t), t'), ts)
  {
    hide Rolled;
    var all := [t, t'] + ts;
    assert all[1..] == [t'] + ts && ([t'] + ts)[1..] == ts;
  }

  /** However far away the next midnight is. */
  lemma {:induction false} MidnightTells(s: Trader, now: nat, m: nat, upTo: nat)
    requires s.checked <= now < m <= upTo && !Remembered(s, now) && EasternDay(now) != 0
    requires OneDate(EasternDay(now), now, m - 1) && EasternDay(m) != EasternDay(now)
    ensures Tells(s, now, upTo)
  {
    hide EasternDay, Unchecked;
    var d, gap := EasternDay(now), m - now;
    var k: nat, r: nat := gap / 60_000_000_000, gap % 60_000_000_000;
    var g: nat := if r > 0 then r else 1;
    Forgotten(s, now, now + g);
    var ts := Diverge(Rolled(s, now), s, d, now, if r > 0 then k else k - 1, g, m);
    DaysDiffer(Looks(Rolled(s, now), ts), Looks(s, ts));
  }

  lemma {:induction false} DaysDiffer(a: Trader, b: Trader)
    requires a.day != b.day
    ensures Unchecked(a) != Unchecked(b)
  {
    assert Unchecked(a).day == a.day && Unchecked(b).day == b.day;
  }

  /**
   A look at the date that the trader does not remember is told from none by some looks up to `upTo` exactly when the
   date changes by then - but for 1 January 1970, whose day number stands for no date.
   */
  lemma {:induction false} LookTells(s: Trader, now: nat, upTo: nat)
    requires TrueDay(s) && s.checked <= now <= upTo
    ensures Tells(s, now, upTo) <==> !Remembered(s, now) && EasternDay(now) != 0 && !OneDate(EasternDay(now), now, upTo)
  {
    hide EasternDay, Unchecked, Later, Looks, TrueDay;
    if Remembered(s, now) {
      assert Rolled(s, now) == s;
    } else if EasternDay(now) == 0 {
      forall ts: seq<nat> | ts != [] && Later(ts, now, upTo) ensures Looks(Rolled(s, now), ts) == Looks(s, ts) {
        DayZeroHides(s, now, upTo, ts);
      }
    } else if OneDate(EasternDay(now), now, upTo) {
      forall ts: seq<nat> | ts != [] && Later(ts, now, upTo)
        ensures Unchecked(Looks(Rolled(s, now), ts)) == Unchecked(Looks(s, ts))
      {
        OneDateHides(s, now, upTo, ts);
      }
    } else {
      var t: nat :| now <= t <= upTo && EasternDay(t) != EasternDay(now);
      var m := FirstChange(EasternDay(now), now, t);
      MidnightTells(s, now, m, upTo);
    }
  }
}
