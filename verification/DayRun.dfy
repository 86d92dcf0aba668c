/**
 The simulated-clock driver of a backtest day: recorded news, evaluation ticks and mover scans
 merged by time, with a fast path for calls at which nothing is due and a skip over the ticks of
 an idle engine.
 */
module DayRuns {
  import opened Arithmetic
  import E = EngineCore
  import PaperTrading

  const NEVER: nat := 0xFFFF_FFFF_FFFF_FFFF
  const SCAN_EVERY: nat := 1_000_000_000

  /** A day's plan: the engine's decisions, arrival times of the news, the evaluation interval, whether to scan for movers. */
  datatype Plan<!X> = Plan(b: E.Brain<X>, news: seq<nat>, interval: nat, movers: bool)

  datatype Call = News(i: nat, time: nat) | Eval(idle: bool, time: nat) | Scan(time: nat)

  /** The driver with the engine's state and the calls it made so far. */
  datatype Run<X> = Run(e: E.Core<X>, ni: nat, started: bool, nextEval: nat, nextScan: nat, nextDue: nat, calls: seq<Call>)

  ghost predicate Sorted(news: seq<nat>) {
    forall i, j :: 0 <= i < j < |news| ==> news[i] <= news[j]
  }

  ghost predicate Proper<X>(p: Plan<X>) {
    p.interval > 0 && Sorted(p.news) && PaperTrading.Sane(p.b.c)
  }

  /** What the driver needs to run at all. */
  ghost predicate Runs<X>(p: Plan<X>, t: nat) {
    p.interval > 0 && t < NEVER && PaperTrading.Sane(p.b.c)
  }

  function NewsTime<X>(p: Plan<X>, ni: nat): nat {
    if ni < |p.news| then p.news[ni] else NEVER
  }

  function Begin<X>(p: Plan<X>, r: Run<X>, t: nat): Run<X> {
    if r.started then r
    else
      var first := Min(NewsTime(p, r.ni), t);
      r.(started := true, nextEval := first, nextScan := first)
  }

  /** How many whole intervals fit. */
  function Steps(gap: nat, interval: nat): nat
    requires interval > 0
  {
    gap / interval
  }

  /** With the engine idle, ticks are passed over up to the last one not after the next news or `t`. */
  function Skip<X>(p: Plan<X>, r: Run<X>, t: nat): Run<X>
    requires p.interval > 0
  {
    var target := Min(NewsTime(p, r.ni), t);
    if E.Idle(p.b, r.e) && r.nextEval < target then
      r.(nextEval := r.nextEval + Steps(target - r.nextEval, p.interval) * p.interval)
    else r
  }

  function Next<X>(p: Plan<X>, r: Run<X>): nat {
    var n := Min(NewsTime(p, r.ni), r.nextEval);
    if p.movers then Min(n, r.nextScan) else n
  }

  function Dispatch<X>(p: Plan<X>, r: Run<X>): Run<X>
    requires Runs(p, Next(p, r))
  {
    var nn := NewsTime(p, r.ni);
    if Next(p, r) == nn then
      r.(e := E.OnNews(p.b, r.e, r.ni, nn), ni := r.ni + 1, calls := r.calls + [News(r.ni, nn)])
    else if Next(p, r) == r.nextEval then
      r.(e := E.Evaluate(p.b, r.e, r.nextEval), nextEval := r.nextEval + p.interval,
         calls := r.calls + [Eval(E.Idle(p.b, r.e), r.nextEval)])
    else
      r.(e := E.ScanMovers(p.b, r.e, r.nextScan), nextScan := r.nextScan + SCAN_EVERY, calls := r.calls + [Scan(r.nextScan)])
  }

  function Left(t: nat, x: nat): nat {
    if x > t then 0 else t + 1 - x
  }

  /** What is still to do up to `t`, as a bound. */
  function Work<X>(p: Plan<X>, r: Run<X>, t: nat): nat {
    (if r.ni < |p.news| then |p.news| - r.ni else 0) + Left(t, r.nextEval) + Left(t, r.nextScan)
  }

  lemma {:induction false} SkipWorks<X>(p: Plan<X>, r: Run<X>, t: nat)
    requires p.interval > 0
    ensures Work(p, Skip(p, r, t), t) <= Work(p, r, t) && Skip(p, r, t).nextEval >= r.nextEval
  {
    var _ := SkipLands(p, r, t);
  }

  lemma {:induction false} DispatchWorks<X>(p: Plan<X>, r: Run<X>, t: nat)
    requires Runs(p, t) && Next(p, r) <= t
    ensures Work(p, Dispatch(p, r), t) < Work(p, r, t)
  {
  }

  /** The skip stays on the grid and lands at or before the next thing to happen. */
  lemma {:induction false} SkipLands<X>(p: Plan<X>, r: Run<X>, t: nat) returns (k: nat)
    requires p.interval > 0
    ensures Skip(p, r, t) == r.(nextEval := r.nextEval + k * p.interval)
    ensures k > 0 ==> E.Idle(p.b, r.e) && r.nextEval + k * p.interval <= Min(NewsTime(p, r.ni), t)
    ensures k * p.interval >= 0
  {
    var target := Min(NewsTime(p, r.ni), t);
    if E.Idle(p.b, r.e) && r.nextEval < target {
      k := Steps(target - r.nextEval, p.interval);
      StepsFit(target - r.nextEval, p.interval);
    } else {
      k := 0;
    }
  }

  lemma {:induction false} StepsFit(gap: nat, interval: nat)
    requires interval > 0
    ensures 0 <= Steps(gap, interval) * interval <= gap
  {
  }

  /** Everything due at or before `t`, in order; `skip` turns the idle skip on. */
  function Loop<X>(p: Plan<X>, r: Run<X>, t: nat, skip: bool): Run<X>
    requires Runs(p, t)
    decreases Work(p, r, t)
  {
    var r1 := if skip then Skip(p, r, t) else r;
    if Next(p, r1) > t then r1
    else
      SkipWorks(p, r, t);
      DispatchWorks(p, r1, t);
      Loop(p, Dispatch(p, r1), t, skip)
  }

  /** The driver: nothing before the next due time, else the loop with the skip. */
  function Advance<X>(p: Plan<X>, r: Run<X>, t: nat): Run<X>
    requires Runs(p, t)
  {
    if t < r.nextDue then r
    else
      var r' := Loop(p, Begin(p, r, t), t, true);
      r'.(nextDue := Next(p, r'))
  }

  /** The driver it stands for: every tick is evaluated, and there is no fast path. */
  function Reference<X>(p: Plan<X>, r: Run<X>, t: nat): Run<X>
    requires Runs(p, t)
  {
    Loop(p, Begin(p, r, t), t, false)
  }

  // ---- the skip is not observable ----

  /** The calls that had an effect: evaluations of an idle engine left out. */
  function Effective(calls: seq<Call>): seq<Call> {
    if calls == [] then []
    else
      var c := calls[|calls| - 1];
      Effective(calls[..|calls| - 1]) + (if c.Eval? && c.idle then [] else [c])
  }

  /** Same position, same calls with an effect, engines that nobody can tell apart on the date `d`. */
  ghost predicate Alike<X>(p: Plan<X>, a: Run<X>, b: Run<X>, d: int) {
    && a.ni == b.ni && a.started == b.started && a.nextEval == b.nextEval && a.nextScan == b.nextScan
    && Effective(a.calls) == Effective(b.calls)
    && E.Same(a.e, b.e, d) && E.Ok(p.b, a.e, d) && E.Ok(p.b, b.e, d)
  }

  lemma {:induction false} EffectiveAppends(calls: seq<Call>, c: Call)
    ensures Effective(calls + [c]) == Effective(calls) + (if c.Eval? && c.idle then [] else [c])
  {
    assert (calls + [c])[..|calls|] == calls;
  }

  lemma {:induction false} AlikeSelf<X>(p: Plan<X>, a: Run<X>, d: int)
    requires E.Ok(p.b, a.e, d)
    ensures Alike(p, a, a, d)
  {
    E.SameSelf(a.e, d);
  }

  lemma {:induction false} AlikeTransitive<X>(p: Plan<X>, a: Run<X>, b: Run<X>, c: Run<X>, d: int)
    requires Alike(p, a, b, d) && Alike(p, b, c, d)
    ensures Alike(p, a, c, d)
  {
    E.SameTransitive(a.e, b.e, c.e, d);
  }

  /** The next call, made of engines that are the same, leaves them the same. */
  lemma {:induction false} DispatchSame<X>(p: Plan<X>, a: Run<X>, b: Run<X>, d: int)
    requires Runs(p, Next(p, a)) && Next(p, b) == Next(p, a) && (p.b.paper ==> PaperTrading.EasternDay(Next(p, a)) == d)
    requires a.ni == b.ni && a.nextEval == b.nextEval && a.nextScan == b.nextScan
    requires E.Same(a.e, b.e, d) && E.Ok(p.b, a.e, d) && E.Ok(p.b, b.e, d)
    ensures var x, y := Dispatch(p, a).e, Dispatch(p, b).e; E.Same(x, y, d) && E.Ok(p.b, x, d) && E.Ok(p.b, y, d)
  {
    hide E.Ok, E.Same, E.OnNews, E.Evaluate, E.ScanMovers, E.Idle, PaperTrading.EasternDay;
    var n := Next(p, a);
    if n == NewsTime(p, a.ni) {
      E.OnNewsSame(p.b, a.e, b.e, a.ni, d, n);
    } else if n == a.nextEval {
      E.EvaluateSame(p.b, a.e, b.e, d, n);
    } else {
      E.ScanSame(p.b, a.e, b.e, d, n);
    }
  }

  lemma {:induction false} DispatchEffective<X>(p: Plan<X>, a: Run<X>, b: Run<X>, d: int)
    requires Runs(p, Next(p, a)) && Next(p, b) == Next(p, a) && E.Same(a.e, b.e, d)
    requires a.ni == b.ni && a.nextEval == b.nextEval && a.nextScan == b.nextScan && Effective(a.calls) == Effective(b.calls)
    ensures Effective(Dispatch(p, a).calls) == Effective(Dispatch(p, b).calls)
  {
    E.SameIdle(p.b, a.e, b.e, d);
    DispatchCall(p, a);
    DispatchCall(p, b);
    EffectiveAppends(a.calls, CallOf(p, a));
    EffectiveAppends(b.calls, CallOf(p, b));
    hide Effective, Dispatch;
  }

  lemma {:induction false} DispatchAlike<X>(p: Plan<X>, a: Run<X>, b: Run<X>, d: int)
    requires Alike(p, a, b, d) && Runs(p, Next(p, a)) && (p.b.paper ==> PaperTrading.EasternDay(Next(p, a)) == d)
    ensures Next(p, b) == Next(p, a) && Alike(p, Dispatch(p, a), Dispatch(p, b), d)
  {
    SameNext(p, a, b, d);
    hide Effective, Next, E.Ok, E.Same, PaperTrading.EasternDay;
    DispatchSame(p, a, b, d);
    DispatchEffective(p, a, b, d);
    DispatchMovesAlike(p, a, b);
    hide Dispatch;
  }

  lemma {:induction false} DispatchOk<X>(p: Plan<X>, r: Run<X>, d: int)
    requires Runs(p, Next(p, r)) && E.Ok(p.b, r.e, d) && (p.b.paper ==> PaperTrading.EasternDay(Next(p, r)) == d)
    ensures E.Ok(p.b, Dispatch(p, r).e, d)
  {
    E.SameSelf(r.e, d);
    hide E.Ok, E.Same, Next, Dispatch, PaperTrading.EasternDay;
    DispatchSame(p, r, r, d);
  }

  lemma {:induction false} DispatchMovesAlike<X>(p: Plan<X>, a: Run<X>, b: Run<X>)
    requires Runs(p, Next(p, a)) && Next(p, b) == Next(p, a)
    requires a.ni == b.ni && a.started == b.started && a.nextEval == b.nextEval && a.nextScan == b.nextScan
    ensures var x, y := Dispatch(p, a), Dispatch(p, b);
            x.ni == y.ni && x.started == y.started && x.nextEval == y.nextEval && x.nextScan == y.nextScan
  {
  }

  lemma {:induction false} LoopStep<X>(p: Plan<X>, r: Run<X>, t: nat)
    requires Runs(p, t) && Next(p, r) <= t
    ensures Loop(p, r, t, false) == Loop(p, Dispatch(p, r), t, false)
  {
  }

  lemma {:induction false} LoopRests<X>(p: Plan<X>, r: Run<X>, t: nat)
    requires Runs(p, t) && Next(p, r) > t
    ensures Loop(p, r, t, false) == r
  {
  }

  /** What is due up to `t` falls on the date `d`, which matters to a paper trader only. */
  ghost predicate Within<X>(p: Plan<X>, r: Run<X>, d: int, from: nat, t: nat) {
    Proper(p) && t < NEVER && (p.b.paper ==> E.OneDate(d, from, t)) && from <= Next(p, r) && from <= t
  }

  lemma {:induction false} WithinDate<X>(p: Plan<X>, r: Run<X>, d: int, from: nat, t: nat)
    requires Within(p, r, d, from, t) && Next(p, r) <= t
    ensures Runs(p, t) && Runs(p, Next(p, r)) && (p.b.paper ==> PaperTrading.EasternDay(Next(p, r)) == d)
    ensures Within(p, Dispatch(p, r), d, from, t)
  {
    hide PaperTrading.EasternDay;
    DispatchMoves(p, r);
  }

  lemma {:induction false} WithinRuns<X>(p: Plan<X>, r: Run<X>, d: int, from: nat, t: nat)
    requires Within(p, r, d, from, t)
    ensures Runs(p, t)
  {
  }

  lemma {:induction false} LoopAlike<X>(p: Plan<X>, a: Run<X>, b: Run<X>, d: int, from: nat, t: nat)
    requires Alike(p, a, b, d) && Within(p, a, d, from, t)
    ensures Runs(p, t) && Alike(p, Loop(p, a, t, false), Loop(p, b, t, false), d)
    decreases Work(p, a, t)
  {
    hide Alike, Dispatch, Work, Loop, Within, PaperTrading.EasternDay, Next;
    WithinRuns(p, a, d, from, t);
    SameNext(p, a, b, d);
    if Next(p, a) <= t {
      WithinDate(p, a, d, from, t);
      DispatchAlike(p, a, b, d);
      DispatchWorks(p, a, t);
      LoopStep(p, a, t);
      LoopStep(p, b, t);
      LoopAlike(p, Dispatch(p, a), Dispatch(p, b), d, from, t);
    } else {
      LoopRests(p, a, t);
      LoopRests(p, b, t);
    }
  }

  lemma {:induction false} SameNext<X>(p: Plan<X>, a: Run<X>, b: Run<X>, d: int)
    requires Alike(p, a, b, d)
    ensures Next(p, a) == Next(p, b)
  {
  }

  /** Some ticks of an idle engine later. */
  function Past<X>(p: Plan<X>, r: Run<X>, k: nat): Run<X> {
    r.(nextEval := r.nextEval + k * p.interval)
  }

  lemma {:induction false} PastNext<X>(p: Plan<X>, r: Run<X>, k: nat)
    ensures Next(p, Past(p, r, k)) >= Next(p, r) && k * p.interval >= 0
  {
  }

  lemma {:induction false} PastWithin<X>(p: Plan<X>, r: Run<X>, d: int, from: nat, t: nat, k: nat)
    requires Within(p, r, d, from, t)
    ensures Within(p, Past(p, r, k), d, from, t)
  {
    PastNext(p, r, k);
    hide Past, Next;
  }

  /** Leaving out one tick of an idle engine before the next news, scans in between or not. */
  lemma {:induction false} SkipOne<X>(p: Plan<X>, r: Run<X>, d: int, from: nat, t: nat)
    requires Within(p, r, d, from, t) && E.Idle(p.b, r.e) && E.Ok(p.b, r.e, d)
    requires r.nextEval + p.interval <= Min(NewsTime(p, r.ni), t)
    ensures Runs(p, t) && Alike(p, Loop(p, r, t, false), Loop(p, Past(p, r, 1), t, false), d)
    decreases Work(p, r, t)
  {
    hide Loop, Alike, Effective, Work, Within, E.Ok, E.Idle, PaperTrading.EasternDay;
    WithinRuns(p, r, d, from, t);
    var s := Past(p, r, 1);
    if p.movers && r.nextScan < r.nextEval {
      ScanFirst(p, r);
      ScanFirst(p, s);
      E.ScansKeepIdle(p.b, r.e, r.nextScan);
      WithinDate(p, r, d, from, t);
      DispatchOk(p, r, d);
      DispatchWorks(p, r, t);
      LoopStep(p, r, t);
      LoopStep(p, s, t);
      hide Dispatch, Next, NewsTime;
      SkipOne(p, Dispatch(p, r), d, from, t);
    } else {
      LoopStep(p, r, t);
      WithinDate(p, r, d, from, t);
      TickIsQuiet(p, r, d);
      hide Dispatch, Next, NewsTime;
      LoopAlike(p, Dispatch(p, r), s, d, from, t);
    }
  }

  lemma {:induction false} TickIsQuiet<X>(p: Plan<X>, r: Run<X>, d: int)
    requires Runs(p, r.nextEval) && E.Idle(p.b, r.e) && E.Ok(p.b, r.e, d) && (p.b.paper ==> PaperTrading.EasternDay(r.nextEval) == d)
    requires Next(p, r) == r.nextEval < NewsTime(p, r.ni)
    ensures Alike(p, Dispatch(p, r), Past(p, r, 1), d)
  {
    hide Effective, E.Evaluate, E.Idle, E.Same, E.Ok, PaperTrading.EasternDay;
    EffectiveAppends(r.calls, Eval(true, r.nextEval));
    E.SameSelf(r.e, d);
    E.EvaluateSame(p.b, r.e, r.e, d, r.nextEval);
    E.IdleEvaluation(p.b, r.e, d, r.nextEval);
  }

  lemma {:induction false} ScanFirst<X>(p: Plan<X>, r: Run<X>)
    requires p.movers && r.nextScan < r.nextEval && r.nextScan < NewsTime(p, r.ni) && Runs(p, r.nextScan)
    ensures Next(p, r) == r.nextScan
    ensures Dispatch(p, r) == r.(e := E.ScanMovers(p.b, r.e, r.nextScan), nextScan := r.nextScan + SCAN_EVERY,
                                 calls := r.calls + [Scan(r.nextScan)])
    ensures NewsTime(p, Dispatch(p, r).ni) == NewsTime(p, r.ni)
  {
  }

  lemma {:induction false} SkipMany<X>(p: Plan<X>, r: Run<X>, d: int, from: nat, t: nat, k: nat)
    requires Within(p, r, d, from, t) && E.Idle(p.b, r.e) && E.Ok(p.b, r.e, d)
    requires k > 0 ==> r.nextEval + k * p.interval <= Min(NewsTime(p, r.ni), t)
    ensures Runs(p, t) && Alike(p, Loop(p, r, t, false), Loop(p, Past(p, r, k), t, false), d)
    decreases k
  {
    hide Alike, Loop, NewsTime, Effective, Next, Within, E.Ok, E.Idle;
    if k > 0 {
      OneMore(k, p.interval);
      var s := Past(p, r, 1);
      PastWithin(p, r, d, from, t, 1);
      SkipOne(p, r, d, from, t);
      SkipMany(p, s, d, from, t, k - 1);
      assert Past(p, s, k - 1) == Past(p, r, k);
      AlikeTransitive(p, Loop(p, r, t, false), Loop(p, s, t, false), Loop(p, Past(p, r, k), t, false), d);
    } else {
      assert Past(p, r, 0) == r;
      LoopSelf(p, r, d, from, t);
    }
  }

  lemma {:induction false} OneMore(k: nat, n: nat)
    requires k > 0
    ensures k * n == n + (k - 1) * n && (k - 1) * n >= 0
  {
  }

  lemma {:induction false} LoopSelf<X>(p: Plan<X>, r: Run<X>, d: int, from: nat, t: nat)
    requires Within(p, r, d, from, t) && E.Ok(p.b, r.e, d)
    ensures Runs(p, t) && Alike(p, Loop(p, r, t, false), Loop(p, r, t, false), d)
  {
    AlikeSelf(p, r, d);
    hide Within, Alike, E.Ok, Loop;
    LoopAlike(p, r, r, d, from, t);
  }

  /** The loop with the skip does what the loop without it does. */
  lemma {:induction false} LoopSkips<X>(p: Plan<X>, r: Run<X>, d: int, from: nat, t: nat)
    requires Within(p, r, d, from, t) && E.Ok(p.b, r.e, d)
    ensures Runs(p, t) && Alike(p, Loop(p, r, t, true), Loop(p, r, t, false), d)
    decreases Work(p, r, t)
  {
    hide Alike, Skip, NewsTime, Within, E.Ok, PaperTrading.EasternDay, Next, Dispatch, Work, Loop;
    WithinRuns(p, r, d, from, t);
    var s := Skip(p, r, t);
    SkipWorks(p, r, t);
    SkipIsAlike(p, r, d, from, t);
    SkipWithin(p, r, d, from, t);
    if Next(p, s) <= t {
      DispatchWorks(p, s, t);
      WithinDate(p, s, d, from, t);
      DispatchOk(p, s, d);
      LoopUnfolds(p, r, s, t);
      LoopSkips(p, Dispatch(p, s), d, from, t);
      AlikeTransitive(p, Loop(p, r, t, true), Loop(p, s, t, false), Loop(p, r, t, false), d);
    } else {
      LoopStops(p, r, s, t);
    }
  }

  lemma {:induction false} LoopStops<X>(p: Plan<X>, r: Run<X>, s: Run<X>, t: nat)
    requires Runs(p, t) && s == Skip(p, r, t) && Next(p, s) > t
    ensures Loop(p, r, t, true) == s == Loop(p, s, t, false)
  {
  }

  lemma {:induction false} SkipWithin<X>(p: Plan<X>, r: Run<X>, d: int, from: nat, t: nat)
    requires Within(p, r, d, from, t) && E.Ok(p.b, r.e, d)
    ensures Runs(p, t) && Within(p, Skip(p, r, t), d, from, t) && E.Ok(p.b, Skip(p, r, t).e, d)
  {
    SkipNext(p, r, t);
    hide Skip, E.Ok, Next;
  }

  lemma {:induction false} SkipIsAlike<X>(p: Plan<X>, r: Run<X>, d: int, from: nat, t: nat)
    requires Within(p, r, d, from, t) && E.Ok(p.b, r.e, d)
    ensures Runs(p, t) && Alike(p, Loop(p, Skip(p, r, t), t, false), Loop(p, r, t, false), d)
  {
    hide Skip, Loop, Alike, Next, NewsTime, Past, Min, Within, E.Ok, E.Idle;
    WithinRuns(p, r, d, from, t);
    var k := SkipIsPast(p, r, t);
    if k > 0 {
      SkipMany(p, r, d, from, t, k);
      AlikeBack(p, Loop(p, r, t, false), Loop(p, Past(p, r, k), t, false), d);
    } else {
      LoopSelf(p, r, d, from, t);
    }
  }

  lemma {:induction false} SkipIsPast<X>(p: Plan<X>, r: Run<X>, t: nat) returns (k: nat)
    requires p.interval > 0
    ensures Skip(p, r, t) == if k > 0 then Past(p, r, k) else r
    ensures k > 0 ==> E.Idle(p.b, r.e) && r.nextEval + k * p.interval <= Min(NewsTime(p, r.ni), t)
  {
    hide Skip;
    k := SkipLands(p, r, t);
    if k == 0 {
      assert r.(nextEval := r.nextEval + 0 * p.interval) == r;
    }
  }

  lemma {:induction false} AlikeBack<X>(p: Plan<X>, a: Run<X>, b: Run<X>, d: int)
    requires Alike(p, a, b, d)
    ensures Alike(p, b, a, d)
  {
    E.SameBack(a.e, b.e, d);
  }

  lemma {:induction false} LoopUnfolds<X>(p: Plan<X>, r: Run<X>, s: Run<X>, t: nat)
    requires Runs(p, t) && s == Skip(p, r, t) && Next(p, s) <= t
    ensures Loop(p, r, t, true) == Loop(p, Dispatch(p, s), t, true)
    ensures Loop(p, s, t, false) == Loop(p, Dispatch(p, s), t, false)
  {
  }

  // ---- what every call keeps ----

  function TimeOf(c: Call): nat {
    c.time
  }

  /** The news handed over, by index. */
  function Delivered(calls: seq<Call>): seq<nat> {
    if calls == [] then []
    else
      var c := calls[|calls| - 1];
      Delivered(calls[..|calls| - 1]) + (if c.News? then [c.i] else [])
  }

  function Upto(n: nat): (s: seq<nat>)
    ensures |s| == n && forall i :: 0 <= i < n ==> s[i] == i
  {
    seq(n, i requires 0 <= i < n => i)
  }

  /** Calls in time order, none after `now`; the news handed over once each and in order, each at its own time. */
  ghost predicate Ordered(news: seq<nat>, ni: nat, calls: seq<Call>, now: nat) {
    && (forall i, j :: 0 <= i < j < |calls| ==> TimeOf(calls[i]) <= TimeOf(calls[j]))
    && (forall i :: 0 <= i < |calls| ==> TimeOf(calls[i]) <= now)
    && ni <= |news| && (forall i :: 0 <= i < ni ==> news[i] <= now) && Delivered(calls) == Upto(ni)
    && (forall i :: 0 <= i < |calls| && calls[i].News? ==> calls[i].i < |news| && TimeOf(calls[i]) == news[calls[i].i])
  }

  lemma {:induction false} OrderedAppends(news: seq<nat>, ni: nat, calls: seq<Call>, now: nat, c: Call)
    requires Ordered(news, ni, calls, now) && TimeOf(c) == now
    requires c.News? ==> c.i == ni < |news| && news[ni] == now
    ensures Ordered(news, if c.News? then ni + 1 else ni, calls + [c], now)
  {
    DeliveredAppends(calls, c);
    hide Delivered;
    assert Upto(ni + 1) == Upto(ni) + [ni];
  }

  ghost predicate InOrder<X>(p: Plan<X>, r: Run<X>, now: nat) {
    Ordered(p.news, r.ni, r.calls, now)
  }

  /** Between calls, `now` being the latest time so far: everything due has been done and nothing else. */
  ghost predicate Settled<X>(p: Plan<X>, r: Run<X>, now: nat) {
    && InOrder(p, r, now)
    && (r.started ==> Next(p, r) > now && (r.nextDue == 0 || r.nextDue == Next(p, r)))
    && (!r.started ==> r.nextDue == 0 && r.calls == [] && r.ni == 0)
  }

  lemma {:induction false} DeliveredAppends(calls: seq<Call>, c: Call)
    ensures Delivered(calls + [c]) == Delivered(calls) + (if c.News? then [c.i] else [])
  {
    assert (calls + [c])[..|calls|] == calls;
  }

  /** A dispatch at time `Next` leaves nothing due before it. */
  lemma {:induction false} DispatchMoves<X>(p: Plan<X>, r: Run<X>)
    requires Proper(p) && Next(p, r) < NEVER
    ensures Next(p, Dispatch(p, r)) >= Next(p, r)
  {
  }

  function CallOf<X>(p: Plan<X>, r: Run<X>): (c: Call)
    ensures TimeOf(c) == Next(p, r)
  {
    if Next(p, r) == NewsTime(p, r.ni) then News(r.ni, Next(p, r))
    else if Next(p, r) == r.nextEval then Eval(E.Idle(p.b, r.e), Next(p, r))
    else Scan(Next(p, r))
  }

  lemma {:induction false} DispatchCall<X>(p: Plan<X>, r: Run<X>)
    requires Runs(p, Next(p, r))
    ensures Dispatch(p, r).calls == r.calls + [CallOf(p, r)]
  {
  }

  lemma {:induction false} DispatchCalls<X>(p: Plan<X>, r: Run<X>)
    requires Runs(p, Next(p, r)) && r.ni <= |p.news|
    ensures Dispatch(p, r).calls == r.calls + [CallOf(p, r)]
    ensures if CallOf(p, r).News? then r.ni < |p.news| && CallOf(p, r).i == r.ni && Next(p, r) == p.news[r.ni]
                                       && Dispatch(p, r).ni == r.ni + 1
            else Dispatch(p, r).ni == r.ni
  {
  }

  lemma {:induction false} DispatchInOrder<X>(p: Plan<X>, r: Run<X>)
    requires Proper(p) && Next(p, r) < NEVER && InOrder(p, r, Next(p, r))
    ensures InOrder(p, Dispatch(p, r), Next(p, r))
  {
    hide Dispatch, Next, CallOf, Sorted, Ordered;
    OrderedBounds(p.news, r.ni, r.calls, Next(p, r));
    DispatchCalls(p, r);
    OrderedAppends(p.news, r.ni, r.calls, Next(p, r), CallOf(p, r));
  }

  lemma {:induction false} OrderedBounds(news: seq<nat>, ni: nat, calls: seq<Call>, now: nat)
    requires Ordered(news, ni, calls, now)
    ensures ni <= |news|
  {
  }

  lemma {:induction false} Later<X>(p: Plan<X>, r: Run<X>, now: nat, now': nat)
    requires InOrder(p, r, now) && now <= now'
    ensures InOrder(p, r, now')
  {
  }

  /** Where the loop leaves the run. */
  ghost predicate CaughtUp<X>(p: Plan<X>, r: Run<X>, t: nat) {
    InOrder(p, r, t) && Next(p, r) > t
  }

  lemma {:induction false} LoopInOrder<X>(p: Plan<X>, r: Run<X>, now: nat, t: nat, skip: bool)
    requires Proper(p) && t < NEVER && InOrder(p, r, now) && now <= Next(p, r) && now <= t
    ensures CaughtUp(p, Loop(p, r, t, skip), t)
    decreases Work(p, r, t)
  {
    hide InOrder, Next, Dispatch, Skip, Work, CallOf, Sorted;
    SkipWorks(p, r, t);
    var s := if skip then Skip(p, r, t) else r;
    SkipNext(p, r, t);
    SkipInOrder(p, r, s.nextEval, now);
    if Next(p, s) <= t {
      DispatchWorks(p, s, t);
      DispatchMoves(p, s);
      Later(p, s, now, Next(p, s));
      DispatchInOrder(p, s);
      LoopInOrder(p, Dispatch(p, s), Next(p, s), t, skip);
    } else {
      Later(p, s, now, t);
    }
  }

  lemma {:induction false} SkipInOrder<X>(p: Plan<X>, r: Run<X>, nextEval: nat, now: nat)
    requires InOrder(p, r, now)
    ensures InOrder(p, r.(nextEval := nextEval), now)
  {
  }

  lemma {:induction false} SkipNext<X>(p: Plan<X>, r: Run<X>, t: nat)
    requires p.interval > 0
    ensures Next(p, Skip(p, r, t)) >= Next(p, r)
    ensures Skip(p, r, t) == r.(nextEval := Skip(p, r, t).nextEval)
  {
    var _ := SkipLands(p, r, t);
  }

  lemma {:induction false} LoopKeepsStarted<X>(p: Plan<X>, r: Run<X>, t: nat, skip: bool)
    requires Runs(p, t)
    ensures Loop(p, r, t, skip).started == r.started
    decreases Work(p, r, t)
  {
    SkipWorks(p, r, t);
    var s := if skip then Skip(p, r, t) else r;
    if Next(p, s) <= t {
      DispatchWorks(p, s, t);
      hide Work, Next;
      LoopKeepsStarted(p, Dispatch(p, s), t, skip);
    }
  }

  /**
   After every call, of whatever time: exactly the news that arrived up to the latest time so far has been
   handed over, and the fast path's due time is the earliest thing to come.
   */
  lemma {:induction false} AdvanceSettles<X>(p: Plan<X>, r: Run<X>, now: nat, t: nat)
    requires Proper(p) && t < NEVER && Settled(p, r, now)
    ensures Settled(p, Advance(p, r, t), if r.started then Max(now, t) else t) && Advance(p, r, t).started
  {
    if r.started && t <= now {
      NothingDue(p, r, now, t);
    } else {
      FirstDue(p, r, now, t);
    }
  }

  lemma {:induction false} NothingDue<X>(p: Plan<X>, r: Run<X>, now: nat, t: nat)
    requires Proper(p) && t < NEVER && r.started && Settled(p, r, now) && t <= now
    ensures Settled(p, Advance(p, r, t), now) && Advance(p, r, t).started
  {
    hide InOrder;
    if t >= r.nextDue {
      SkipNothing(p, r, t);
      DueInOrder(p, r, now);
    }
  }

  lemma {:induction false} SkipNothing<X>(p: Plan<X>, r: Run<X>, t: nat)
    requires Runs(p, t) && Next(p, r) > t
    ensures Skip(p, r, t) == r && Loop(p, r, t, true) == r && Loop(p, r, t, false) == r
  {
  }

  lemma {:induction false} DueInOrder<X>(p: Plan<X>, r: Run<X>, now: nat)
    requires InOrder(p, r, now)
    ensures InOrder(p, r.(nextDue := Next(p, r)), now) && Next(p, r.(nextDue := Next(p, r))) == Next(p, r)
  {
  }

  lemma {:induction false} FirstDue<X>(p: Plan<X>, r: Run<X>, now: nat, t: nat)
    requires Proper(p) && t < NEVER && Settled(p, r, now) && (r.started ==> now < t)
    ensures Settled(p, Advance(p, r, t), t) && Advance(p, r, t).started
  {
    if t < r.nextDue {
      Later(p, r, now, t);
    } else {
      var s := Begin(p, r, t);
      BeginInOrder(p, r, now, t);
      hide InOrder, Begin, Loop, Next;
      LoopInOrder(p, s, if r.started then now else 0, t, true);
      LoopKeepsStarted(p, s, t, true);
      DueInOrder(p, Loop(p, s, t, true), t);
    }
  }

  lemma {:induction false} BeginInOrder<X>(p: Plan<X>, r: Run<X>, now: nat, t: nat)
    requires Settled(p, r, now) && (r.started ==> now < t)
    ensures var s := Begin(p, r, t);
            s.started && (var from := if r.started then now else 0; InOrder(p, s, from) && from <= Next(p, s))
  {
    if !r.started {
      assert Upto(0) == [];
    }
  }

  /** All that is to come up to `upTo` falls on the date `d`, which matters to a paper trader only. */
  ghost predicate Ahead<X>(p: Plan<X>, r: Run<X>, d: int, from: nat, upTo: nat) {
    && (p.b.paper ==> E.OneDate(d, from, upTo)) && upTo < NEVER && from <= NewsTime(p, r.ni)
    && (r.started ==> from <= r.nextEval && from <= r.nextScan)
  }

  lemma {:induction false} AheadWithin<X>(p: Plan<X>, r: Run<X>, d: int, from: nat, upTo: nat, t: nat)
    requires Proper(p) && Ahead(p, r, d, from, upTo) && from <= t <= upTo
    ensures Within(p, Begin(p, r, t), d, from, t) && Ahead(p, Begin(p, r, t), d, from, upTo)
  {
    hide PaperTrading.EasternDay;
  }

  lemma {:induction false} DispatchAhead<X>(p: Plan<X>, r: Run<X>, d: int, from: nat, upTo: nat)
    requires Proper(p) && Next(p, r) < NEVER && r.started && Ahead(p, r, d, from, upTo)
    ensures Runs(p, Next(p, r)) && Ahead(p, Dispatch(p, r), d, from, upTo) && Dispatch(p, r).started
  {
    hide E.OneDate;
  }

  lemma {:induction false} SkipAhead<X>(p: Plan<X>, r: Run<X>, d: int, from: nat, upTo: nat, t: nat)
    requires Proper(p) && r.started && Ahead(p, r, d, from, upTo)
    ensures Ahead(p, Skip(p, r, t), d, from, upTo) && Skip(p, r, t).started
  {
    SkipWorks(p, r, t);
    SkipNext(p, r, t);
    hide E.OneDate, Skip, Work;
  }

  lemma {:induction false} LoopAhead<X>(p: Plan<X>, r: Run<X>, d: int, from: nat, upTo: nat, t: nat)
    requires Proper(p) && t < NEVER && r.started && Ahead(p, r, d, from, upTo)
    ensures Runs(p, t) && Ahead(p, Loop(p, r, t, true), d, from, upTo)
    decreases Work(p, r, t)
  {
    hide Ahead, Skip, Dispatch, Next, Work;
    SkipWorks(p, r, t);
    SkipAhead(p, r, d, from, upTo, t);
    var s := Skip(p, r, t);
    if Next(p, s) <= t {
      DispatchWorks(p, s, t);
      DispatchAhead(p, s, d, from, upTo);
      LoopAhead(p, Dispatch(p, s), d, from, upTo, t);
    }
  }

  lemma {:induction false} AdvanceAhead<X>(p: Plan<X>, r: Run<X>, d: int, from: nat, upTo: nat, t: nat)
    requires Proper(p) && Ahead(p, r, d, from, upTo) && from <= t <= upTo
    ensures Runs(p, t) && Ahead(p, Advance(p, r, t), d, from, upTo)
  {
    AheadWithin(p, r, d, from, upTo, t);
    assert upTo < NEVER;
    hide Loop, Next, E.OneDate;
    LoopAhead(p, Begin(p, r, t), d, from, upTo, t);
  }

  /** The fast path never misses anything, and the skip is not observable: a call is the reference's. */
  lemma {:induction false} AdvanceRefines<X>(p: Plan<X>, r: Run<X>, s: Run<X>, now: nat, d: int, from: nat, upTo: nat, t: nat)
    requires Proper(p) && Settled(p, r, now) && Alike(p, r, s, d) && Ahead(p, r, d, from, upTo) && from <= t <= upTo
    ensures Runs(p, t) && Alike(p, Advance(p, r, t), Reference(p, s, t), d)
  {
    assert t < NEVER;
    hide Effective, InOrder, Sorted, E.OneDate, E.Ok;
    if t < r.nextDue || (r.started && t <= now) {
      AdvanceRests(p, r, s, now, d, t);
    } else {
      AdvanceLoops(p, r, s, d, from, upTo, t);
    }
  }

  lemma {:induction false} AdvanceRests<X>(p: Plan<X>, r: Run<X>, s: Run<X>, now: nat, d: int, t: nat)
    requires Proper(p) && t < NEVER && Settled(p, r, now) && Alike(p, r, s, d)
    requires t < r.nextDue || (r.started && t <= now)
    ensures r.started && Alike(p, Advance(p, r, t), Reference(p, s, t), d)
  {
    SameNext(p, r, s, d);
    SkipNothing(p, r, t);
    SkipNothing(p, s, t);
    hide Effective, InOrder, Sorted, Loop, Next, E.Ok;
    assert Begin(p, s, t) == s;
    DueIsNothing(p, r, s, d);
  }

  lemma {:induction false} DueIsNothing<X>(p: Plan<X>, r: Run<X>, s: Run<X>, d: int)
    requires Alike(p, r, s, d)
    ensures forall due :: Alike(p, r.(nextDue := due), s, d)
  {
    hide Effective, E.Ok;
  }

  lemma {:induction false} AdvanceLoops<X>(p: Plan<X>, r: Run<X>, s: Run<X>, d: int, from: nat, upTo: nat, t: nat)
    requires Proper(p) && Alike(p, r, s, d) && Ahead(p, r, d, from, upTo) && from <= t <= upTo && t >= r.nextDue
    ensures Runs(p, t) && Alike(p, Advance(p, r, t), Reference(p, s, t), d)
  {
    hide Loop, Effective, Begin, Sorted, Next, E.Ok, Within, Alike, Ahead;
    BeginAlike(p, r, s, d, t);
    AheadWithin(p, r, d, from, upTo, t);
    var a, b := Begin(p, r, t), Begin(p, s, t);
    AlikeOk(p, a, b, d);
    LoopSkips(p, a, d, from, t);
    LoopAlike(p, a, b, d, from, t);
    AlikeTransitive(p, Loop(p, a, t, true), Loop(p, a, t, false), Loop(p, b, t, false), d);
    DueIsNothing(p, Loop(p, a, t, true), Loop(p, b, t, false), d);
  }

  lemma {:induction false} AlikeOk<X>(p: Plan<X>, a: Run<X>, b: Run<X>, d: int)
    requires Alike(p, a, b, d)
    ensures E.Ok(p.b, a.e, d)
  {
  }

  lemma {:induction false} BeginAlike<X>(p: Plan<X>, r: Run<X>, s: Run<X>, d: int, t: nat)
    requires Alike(p, r, s, d)
    ensures Alike(p, Begin(p, r, t), Begin(p, s, t), d)
  {
    hide Effective, E.Ok;
  }

  // ---- whole days ----

  /** The market data moves the clock to `t` and then reaches the engine. */
  datatype Tick<!X> = Tick(t: nat, market: X -> X)

  function Touch<X>(r: Run<X>, market: X -> X): Run<X> {
    r.(e := E.Touch(r.e, market))
  }

  function Day<X>(p: Plan<X>, r: Run<X>, ticks: seq<Tick<X>>): Run<X>
    requires Runs(p, 0) && forall i :: 0 <= i < |ticks| ==> ticks[i].t < NEVER
    decreases |ticks|
  {
    if ticks == [] then r else Day(p, Touch(Advance(p, r, ticks[0].t), ticks[0].market), ticks[1..])
  }

  function ReferenceDay<X>(p: Plan<X>, r: Run<X>, ticks: seq<Tick<X>>): Run<X>
    requires Runs(p, 0) && forall i :: 0 <= i < |ticks| ==> ticks[i].t < NEVER
    decreases |ticks|
  {
    if ticks == [] then r else ReferenceDay(p, Touch(Reference(p, r, ticks[0].t), ticks[0].market), ticks[1..])
  }

  /** The end of the day: the fast path is switched off for the last call. */
  function Finish<X>(p: Plan<X>, r: Run<X>, t: nat): Run<X>
    requires Runs(p, t)
  {
    Advance(p, r.(nextDue := 0), t)
  }

  lemma {:induction false} TouchKeeps<X>(p: Plan<X>, r: Run<X>, market: X -> X, now: nat)
    requires Settled(p, r, now)
    ensures Settled(p, Touch(r, market), now)
  {
  }

  lemma {:induction false} TouchAlike<X>(p: Plan<X>, a: Run<X>, b: Run<X>, market: X -> X, d: int)
    requires Alike(p, a, b, d)
    ensures Alike(p, Touch(a, market), Touch(b, market), d)
  {
    hide Effective;
  }

  /** The latest time of a day's calls, `now` being the latest before them if there were any. */
  function Latest<X>(started: bool, now: nat, ticks: seq<Tick<X>>): nat
    decreases |ticks|
  {
    if ticks == [] then now else Latest(true, if started then Max(now, ticks[0].t) else ticks[0].t, ticks[1..])
  }

  /** So far as the calls have gone, the news that arrived by then has been handed over in order, and no other. */
  lemma {:induction false} DaySettles<X>(p: Plan<X>, r: Run<X>, now: nat, ticks: seq<Tick<X>>)
    requires Proper(p) && Settled(p, r, now) && forall i :: 0 <= i < |ticks| ==> ticks[i].t < NEVER
    ensures var r', latest := Day(p, r, ticks), Latest(r.started, now, ticks);
            Settled(p, r', latest)
            && (r'.started ==> forall i :: 0 <= i < |p.news| ==> (i in Delivered(r'.calls) <==> p.news[i] <= latest))
    decreases |ticks|
  {
    hide Advance, Settled, Delivered, Sorted;
    if ticks == [] {
      if r.started {
        DeliveredByThen(p, r, now);
      }
    } else {
      var t, market := ticks[0].t, ticks[0].market;
      AdvanceSettles(p, r, now, t);
      TouchKeeps(p, Advance(p, r, t), market, if r.started then Max(now, t) else t);
      DaySettles(p, Touch(Advance(p, r, t), market), if r.started then Max(now, t) else t, ticks[1..]);
    }
  }

  lemma {:induction false} DeliveredByThen<X>(p: Plan<X>, r: Run<X>, now: nat)
    requires Proper(p) && Settled(p, r, now) && r.started
    ensures forall i :: 0 <= i < |p.news| ==> (i in Delivered(r.calls) <==> p.news[i] <= now)
  {
    hide Delivered;
    forall i | 0 <= i < |p.news| ensures i in Upto(r.ni) <==> p.news[i] <= now {
      if i < r.ni {
        assert Upto(r.ni)[i] == i;
      } else {
        assert p.news[r.ni] <= p.news[i];
      }
    }
  }

  /** However the market data drives it, on one date or without a paper trader, the driver's day is the reference's. */
  lemma {:induction false} DayAgrees<X>(p: Plan<X>, r: Run<X>, s: Run<X>, now: nat, ticks: seq<Tick<X>>, end: nat,
                                        d: int, from: nat, upTo: nat)
    requires Proper(p) && Settled(p, r, now) && Alike(p, r, s, d) && Ahead(p, r, d, from, upTo) && from <= end <= upTo
    requires forall i :: 0 <= i < |ticks| ==> from <= ticks[i].t <= upTo
    ensures upTo < NEVER
    ensures Alike(p, Finish(p, Day(p, r, ticks), end), Reference(p, ReferenceDay(p, s, ticks), end), d)
    decreases |ticks|
  {
    assert upTo < NEVER;
    hide Advance, Reference, Settled, Alike, Sorted, Ahead;
    if ticks == [] {
      DueForgotten(p, r, s, now, d, from, upTo);
      AdvanceRefines(p, r.(nextDue := 0), s, now, d, from, upTo, end);
    } else {
      var t, market := ticks[0].t, ticks[0].market;
      AdvanceRefines(p, r, s, now, d, from, upTo, t);
      AdvanceSettles(p, r, now, t);
      AdvanceAhead(p, r, d, from, upTo, t);
      var now' := if r.started then Max(now, t) else t;
      TouchKeeps(p, Advance(p, r, t), market, now');
      TouchAhead(p, Advance(p, r, t), market, d, from, upTo);
      TouchAlike(p, Advance(p, r, t), Reference(p, s, t), market, d);
      DayAgrees(p, Touch(Advance(p, r, t), market), Touch(Reference(p, s, t), market), now', ticks[1..], end, d, from, upTo);
    }
  }

  lemma {:induction false} TouchAhead<X>(p: Plan<X>, r: Run<X>, market: X -> X, d: int, from: nat, upTo: nat)
    requires Ahead(p, r, d, from, upTo)
    ensures Ahead(p, Touch(r, market), d, from, upTo)
  {
    hide E.OneDate;
  }

  lemma {:induction false} DueForgotten<X>(p: Plan<X>, r: Run<X>, s: Run<X>, now: nat, d: int, from: nat, upTo: nat)
    requires Settled(p, r, now) && Alike(p, r, s, d) && Ahead(p, r, d, from, upTo)
    ensures var r' := r.(nextDue := 0); Settled(p, r', now) && Alike(p, r', s, d) && Ahead(p, r', d, from, upTo)
  {
    hide Effective, E.OneDate;
    DueIsNothing(p, r, s, d);
  }

  /** The start of a day. */
  function Morning<X>(p: Plan<X>, other: X): Run<X> {
    Run(E.Core([], other, PaperTrading.FreshTrader(p.b.c)), 0, false, 0, 0, 0, [])
  }

  lemma {:induction false} MorningSettled<X>(p: Plan<X>, other: X, d: int)
    requires Proper(p)
    ensures Settled(p, Morning(p, other), 0) && Alike(p, Morning(p, other), Morning(p, other), d)
  {
    PaperTrading.FreshSound(p.b.c);
    assert Upto(0) == [];
    assert E.Ok(p.b, Morning(p, other).e, d);
    AlikeSelf(p, Morning(p, other), d);
  }

  /**
   A replay, with a paper trader within one Eastern date: news, market data and evaluations
   reach the engine as they would without the skip and the fast path, and it closes out the same positions and has
   reported the same trades.
   */
  lemma {:induction false} ReplayIsReference<X>(p: Plan<X>, other: X, ticks: seq<Tick<X>>, end: nat, from: nat, upTo: nat)
    requires Proper(p) && from <= end <= upTo < NEVER && (p.b.paper ==> PaperTrading.EasternDay(from) == PaperTrading.EasternDay(upTo))
    requires forall i :: 0 <= i < |ticks| ==> from <= ticks[i].t <= upTo
    requires forall i :: 0 <= i < |p.news| ==> from <= p.news[i]
    ensures var day := Finish(p, Day(p, Morning(p, other), ticks), end);
            var reference := Reference(p, ReferenceDay(p, Morning(p, other), ticks), end);
            && Effective(day.calls) == Effective(reference.calls)
            && day.e.active == reference.e.active && day.e.other == reference.e.other
            && day.nextEval == reference.nextEval && day.nextScan == reference.nextScan
            && E.Undated(E.Shutdown(p.b, day.e, end)) == E.Undated(E.Shutdown(p.b, reference.e, end))
  {
    hide Finish, Day, Reference, ReferenceDay, Effective, PaperTrading.EasternDay, PaperTrading.FreshTrader;
    var m, d := Morning(p, other), PaperTrading.EasternDay(from);
    MorningSettled(p, other, d);
    if p.b.paper {
      E.EndsDecide(from, upTo);
    }
    assert Ahead(p, m, d, from, upTo);
    DayAgrees(p, m, m, 0, ticks, end, d, from, upTo);
    hide Morning;
    var day := Finish(p, Day(p, m, ticks), end);
    var reference := Reference(p, ReferenceDay(p, m, ticks), end);
    E.ShutdownSame(p.b, day.e, reference.e, d, end);
  }

  // ---- the driver object ----

  class DayRun<X> {
    const p: Plan<X>
    var e: E.Core<X>
    var ni: nat
    var started: bool
    var nextEval: nat
    var nextScan: nat
    var nextDue: nat
    ghost var calls: seq<Call>

    ghost function State(): Run<X>
      reads this
    {
      Run(e, ni, started, nextEval, nextScan, nextDue, calls)
    }

    constructor (p: Plan<X>, e: E.Core<X>)
      ensures this.p == p && State() == Run(e, 0, false, 0, 0, 0, [])
    {
      this.p, this.e, ni, started, nextEval, nextScan, nextDue, calls := p, e, 0, false, 0, 0, 0, [];
    }

    method AdvanceTo(t: nat)
      requires Runs(p, t)
      modifies this
      ensures State() == Advance(p, old(State()), t)
    {
      if t < nextDue {
        return;
      }
      Start(t);
      ghost var goal := Loop(p, State(), t, true);
      hide *;
      while true
        invariant Loop(p, State(), t, true) == goal
        decreases Work(p, State(), t)
      {
        ghost var r := State();
        SkipIdle(t);
        ghost var s := State();
        var next := NextTime();
        SkipWorks(p, r, t);
        if next > t {
          LoopEnds(p, r, t);
          nextDue := next;
          DueIs(p, s, State(), next);
          return;
        }
        LoopUnfolds(p, r, s, t);
        DispatchWorks(p, s, t);
        CallNext(next);
      }
    }

    method Start(t: nat)
      modifies this
      ensures State() == Begin(p, old(State()), t)
    {
      if !started {
        var nn := NewsTime(p, ni);
        nextEval := Min(nn, t);
        nextScan := nextEval;
        started := true;
      }
    }

    method SkipIdle(t: nat)
      requires p.interval > 0
      modifies this
      ensures State() == Skip(p, old(State()), t)
    {
      var target := Min(NewsTime(p, ni), t);
      if E.Idle(p.b, e) && nextEval < target {
        var steps := Steps(target - nextEval, p.interval);
        ghost var _ := SkipLands(p, State(), t);
        nextEval := nextEval + steps * p.interval;
      }
    }

    method NextTime() returns (next: nat)
      ensures next == Next(p, State())
    {
      next := Min(NewsTime(p, ni), nextEval);
      if p.movers {
        next := Min(next, nextScan);
      }
    }

    method CallNext(next: nat)
      requires next == Next(p, State()) && Runs(p, next)
      modifies this
      ensures State() == Dispatch(p, old(State()))
    {
      var nn := NewsTime(p, ni);
      if next == nn {
        calls := calls + [News(ni, nn)];
        e := E.OnNews(p.b, e, ni, nn);
        ni := ni + 1;
      } else if next == nextEval {
        calls := calls + [Eval(E.Idle(p.b, e), nextEval)];
        e := E.Evaluate(p.b, e, nextEval);
        nextEval := nextEval + p.interval;
      } else {
        calls := calls + [Scan(nextScan)];
        e := E.ScanMovers(p.b, e, nextScan);
        nextScan := nextScan + SCAN_EVERY;
      }
    }

    method MarketEvents(market: X -> X)
      modifies this`e
      ensures State() == Touch(old(State()), market)
    {
      e := E.Touch(e, market);
    }

    method FinishAt(t: nat)
      requires Runs(p, t)
      modifies this
      ensures State() == Finish(p, old(State()), t)
    {
      nextDue := 0;
      AdvanceTo(t);
    }

    /** A whole day: the market data, then the end. */
    method Replay(ticks: seq<Tick<X>>, end: nat)
      requires Runs(p, 0) && end < NEVER && forall i :: 0 <= i < |ticks| ==> ticks[i].t < NEVER
      modifies this
      ensures State() == Finish(p, Day(p, old(State()), ticks), end)
    {
      hide Day, Advance, Touch;
      ghost var r := State();
      assert ticks[0..] == ticks;
      for i := 0 to |ticks|
        invariant Day(p, State(), ticks[i..]) == Day(p, r, ticks)
      {
        DayMore(p, State(), ticks, i);
        AdvanceTo(ticks[i].t);
        MarketEvents(ticks[i].market);
      }
      NoTicks(p, State(), ticks[|ticks|..]);
      FinishAt(end);
    }
  }

  lemma {:induction false} NoTicks<X>(p: Plan<X>, r: Run<X>, ticks: seq<Tick<X>>)
    requires Runs(p, 0) && ticks == []
    ensures Day(p, r, ticks) == r
  {
  }

  lemma {:induction false} DayMore<X>(p: Plan<X>, r: Run<X>, ticks: seq<Tick<X>>, i: nat)
    requires Runs(p, 0) && i < |ticks| && forall j :: 0 <= j < |ticks| ==> ticks[j].t < NEVER
    ensures Day(p, r, ticks[i..]) == Day(p, Touch(Advance(p, r, ticks[i].t), ticks[i].market), ticks[i + 1..])
  {
    hide Advance, Touch;
    assert ticks[i..][0] == ticks[i] && ticks[i..][1..] == ticks[i + 1..];
  }

  lemma {:induction false} LoopEnds<X>(p: Plan<X>, r: Run<X>, t: nat)
    requires Runs(p, t) && Next(p, Skip(p, r, t)) > t
    ensures Loop(p, r, t, true) == Skip(p, r, t)
  {
  }

  lemma {:induction false} DueIs<X>(p: Plan<X>, s: Run<X>, s': Run<X>, next: nat)
    requires s' == s.(nextDue := next)
    ensures Next(p, s) == Next(p, s')
  {
  }
}
