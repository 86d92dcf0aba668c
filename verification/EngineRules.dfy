/** What the engine's calls mean for its paper trader. */
module EngineRules {
  import opened EngineCore
  import opened PaperTrading

  /** A trader that hears of every signal, of whatever tier. */
  function Heard(c: Config, s: Trader, signals: seq<Signal>, now: nat): Trader
    decreases |signals|
  {
    if signals == [] then s else Heard(c, Signalled(c, s, signals[0], now), signals[1..], now)
  }

  /** Keeping from the trader what is neither an alert nor a high keeps nothing from it: it would not act on that. */
  lemma {:induction false} NothingMissed<X>(b: Brain<X>, s: Trader, signals: seq<Signal>, now: nat)
    ensures Emit(b, s, signals, now) == if b.paper then Heard(b.c, s, signals, now) else s
    decreases |signals|
  {
    hide Rolled, Ordered;
    if signals != [] {
      var s' := if b.paper then Signalled(b.c, s, signals[0], now) else s;
      NothingMissed(b, s', signals[1..], now);
    }
  }

  /**
   An evaluation: the watched stories are looked at if there are any, the trader hears of their signals and then
   steps every position at the prices the look left.
   */
  lemma {:induction false} EvaluationTrades<X>(b: Brain<X>, e: Core<X>, now: nat)
    requires Sane(b.c)
    ensures var r, l := Evaluate(b, e, now), b.look(e.active, e.other, now);
            && (e.active == [] ==> r.active == [] && r.other == e.other)
            && (e.active != [] ==> r.active == l.active && r.other == l.other)
            && (!b.paper ==> r.trader == e.trader)
            && (b.paper ==>
                  var q := Rolled(Heard(b.c, e.trader, if e.active == [] then [] else l.signals, now), now);
                  Priced(q.pos) ==>
                    && |r.trader.pos| == |q.pos|
                    && (forall j :: 0 <= j < |q.pos| ==> r.trader.pos[j] == AfterStep(b.c, q.pos[j], b.board(r.other), now))
                    && r.trader.log == q.log + ToldFrom(b.c, q.pos, 0, b.board(r.other), now))
  {
    var signals := if e.active == [] then [] else b.look(e.active, e.other, now).signals;
    NothingMissed(b, e.trader, signals, now);
    var h := Heard(b.c, e.trader, signals, now);
    RolledPos(h, now);
    hide Rolled, AfterStep, Told, StepPos, Emit, Heard;
    if b.paper && Priced(h.pos) {
      StepsApart(b.c, Rolled(h, now), 0, b.board(Evaluate(b, e, now).other), now);
      hide StepFrom, ToldFrom;
    }
  }

  /** A news item: the trader hears of its signals; an evaluation follows at once iff a story was stored. */
  lemma {:induction false} NewsTrades<X>(b: Brain<X>, e: Core<X>, i: nat, now: nat)
    requires Sane(b.c)
    ensures var n := b.news(e.active, e.other, i, now);
            var heard := Core(n.active, n.other, if b.paper then Heard(b.c, e.trader, n.signals, now) else e.trader);
            OnNews(b, e, i, now) == if n.touched then Evaluate(b, heard, now) else heard
  {
    NothingMissed(b, e.trader, b.news(e.active, e.other, i, now).signals, now);
    hide Emit, Heard, Evaluate;
  }

  /** Shutting down leaves nothing open: all that was bought is sold, in trades added to those reported. */
  lemma {:induction false} ShutdownCloses<X>(b: Brain<X>, e: Core<X>, now: nat)
    requires Sane(b.c) && PaperTrading.Sound(b.c, e.trader)
    ensures var r := EngineCore.Shutdown(b, e, now);
            if b.paper then r.st.bought == r.st.sold && r.log == CloseFrom(b.c, e.trader, 0, b.board(e.other), now).log
                            && forall j :: 0 <= j < |r.pos| ==> !r.pos[j].active
            else r == e.trader
  {
    CloseFromSound(b.c, e.trader, 0, b.board(e.other), now);
    hide PaperTrading.Sound, CloseFrom;
  }
}
