/**
 What a replay's calls are: the engine's state is what they make of it, at equal times news come before the
 evaluation and that before the scan, and evaluations and scans keep to their grids.
 */
module DayRules {
  import opened Arithmetic
  import opened DayRuns
  import E = EngineCore
  import PaperTrading

  // ---- the calls are what was done ----

  function Done<X>(b: E.Brain<X>, e: E.Core<X>, c: Call): E.Core<X>
    requires PaperTrading.Sane(b.c)
  {
    match c
    case News(i, time) => E.OnNews(b, e, i, time)
    case Eval(_, time) => E.Evaluate(b, e, time)
    case Scan(time) => E.ScanMovers(b, e, time)
  }

  /** An engine after calls made one after the other. */
  function AllDone<X>(b: E.Brain<X>, e: E.Core<X>, calls: seq<Call>): E.Core<X>
    requires PaperTrading.Sane(b.c)
  {
    if calls == [] then e else Done(b, AllDone(b, e, calls[..|calls| - 1]), calls[|calls| - 1])
  }

  lemma {:induction false} DispatchDone<X>(p: Plan<X>, r: Run<X>)
    requires Runs(p, Next(p, r))
    ensures var s := Dispatch(p, r);
            |s.calls| == |r.calls| + 1 && r.calls <= s.calls && s.e == Done(p.b, r.e, s.calls[|r.calls|])
  {
    hide E.OnNews, E.Evaluate, E.ScanMovers, E.Idle;
  }

  lemma {:induction false} DoneFirst<X>(b: E.Brain<X>, e: E.Core<X>, c: Call, calls: seq<Call>)
    requires PaperTrading.Sane(b.c)
    ensures AllDone(b, e, [c] + calls) == AllDone(b, Done(b, e, c), calls)
    decreases |calls|
  {
    hide Done;
    if calls == [] {
      assert [c] + calls == [c] && [c][..0] == [];
    } else {
      var n := |calls| - 1;
      assert ([c] + calls)[..|calls|] == [c] + calls[..n];
      DoneFirst(b, e, c, calls[..n]);
    }
  }

  /** The loop, with or without the skip, leaves the engine as the calls it adds make it. */
  lemma {:induction false} LoopDone<X>(p: Plan<X>, r: Run<X>, t: nat, skip: bool)
    requires Runs(p, t)
    ensures var s := Loop(p, r, t, skip); r.calls <= s.calls && s.e == AllDone(p.b, r.e, s.calls[|r.calls|..])
    decreases Work(p, r, t)
  {
    hide Dispatch, Next, Done, Work, Skip;
    SkipWorks(p, r, t);
    var s := if skip then Skip(p, r, t) else r;
    SkipMovesOnly(p, r, t);
    if Next(p, s) <= t {
      DispatchWorks(p, s, t);
      DispatchDone(p, s);
      var m := Dispatch(p, s);
      LoopDone(p, m, t, skip);
      var l := Loop(p, m, t, skip);
      DoneFirst(p.b, r.e, m.calls[|r.calls|], l.calls[|m.calls|..]);
      assert l.calls[|r.calls|..] == [m.calls[|r.calls|]] + l.calls[|m.calls|..];
    }
  }

  lemma {:induction false} SkipMovesOnly<X>(p: Plan<X>, r: Run<X>, t: nat)
    requires p.interval > 0
    ensures Skip(p, r, t) == r.(nextEval := Skip(p, r, t).nextEval)
  {
  }

  // ---- at equal times ----

  function Place(c: Call): nat {
    match c
    case News(_, _) => 0
    case Eval(_, _) => 1
    case Scan(_) => 2
  }

  /** By time; at one time news, then the evaluation, then the scan. */
  ghost predicate Precedes(a: Call, b: Call) {
    a.time < b.time || (a.time == b.time && (Place(a) < Place(b) || (a.News? && b.News?)))
  }

  /** The calls so far are in that order, and what is due next comes after them. */
  ghost predicate Queued<X>(p: Plan<X>, r: Run<X>) {
    && (forall i, j :: 0 <= i < j < |r.calls| ==> Precedes(r.calls[i], r.calls[j]))
    && (forall i :: 0 <= i < |r.calls| ==> DueAfter(p, r, r.calls[i]))
  }

  ghost predicate DueAfter<X>(p: Plan<X>, r: Run<X>, c: Call) {
    && (if c.News? then NewsTime(p, r.ni) >= c.time else NewsTime(p, r.ni) > c.time)
    && (if c.Eval? || c.Scan? then r.nextEval > c.time else r.nextEval >= c.time)
    && (p.movers ==> if c.Scan? then r.nextScan > c.time else r.nextScan >= c.time)
  }

  lemma {:induction false} DispatchQueued<X>(p: Plan<X>, r: Run<X>)
    requires Proper(p) && Next(p, r) < NEVER && Queued(p, r)
    ensures Queued(p, Dispatch(p, r))
  {
    hide E.OnNews, E.Evaluate, E.ScanMovers, E.Idle;
    NewsLater(p, r.ni);
    var s := Dispatch(p, r);
    forall i | 0 <= i < |s.calls| ensures DueAfter(p, s, s.calls[i]) && (i < |r.calls| ==> Precedes(s.calls[i], s.calls[|r.calls|])) {
      if i < |r.calls| {
        assert DueAfter(p, r, r.calls[i]);
      }
    }
  }

  lemma {:induction false} NewsLater<X>(p: Plan<X>, ni: nat)
    requires Sorted(p.news)
    ensures NewsTime(p, ni) < NEVER ==> NewsTime(p, ni + 1) >= NewsTime(p, ni) || ni + 1 < |p.news|
    ensures ni + 1 < |p.news| ==> NewsTime(p, ni + 1) >= NewsTime(p, ni)
  {
  }

  lemma {:induction false} LoopQueued<X>(p: Plan<X>, r: Run<X>, t: nat, skip: bool)
    requires Proper(p) && t < NEVER && Queued(p, r)
    ensures Queued(p, Loop(p, r, t, skip))
    decreases Work(p, r, t)
  {
    hide Dispatch, Next, Work, Queued, Sorted;
    SkipWorks(p, r, t);
    var s := if skip then Skip(p, r, t) else r;
    if skip {
      SkipQueued(p, r, t);
    }
    if Next(p, s) <= t {
      DispatchWorks(p, s, t);
      DispatchQueued(p, s);
      LoopQueued(p, Dispatch(p, s), t, skip);
    }
  }

  lemma {:induction false} SkipQueued<X>(p: Plan<X>, r: Run<X>, t: nat)
    requires Proper(p) && Queued(p, r)
    ensures Queued(p, Skip(p, r, t))
  {
    SkipWorks(p, r, t);
    SkipMovesOnly(p, r, t);
    hide Skip, Work;
    var s := Skip(p, r, t);
    forall i | 0 <= i < |s.calls| ensures DueAfter(p, s, s.calls[i]) {
      assert DueAfter(p, r, r.calls[i]);
    }
  }

  // ---- the grids ----

  function Point(first: nat, every: nat, k: nat): nat {
    first + k * every
  }

  lemma {:induction false} NextPoint(first: nat, every: nat, k: nat, m: nat)
    ensures Point(first, every, 0) == first && Point(first, every, k + 1) == Point(first, every, k) + every
    ensures Point(first, every, k + m) == Point(first, every, k) + m * every
  {
    assert (k + m) * every == k * every + m * every;
  }

  /** The times of the evaluations, and of the scans. */
  function Evals(calls: seq<Call>): seq<nat> {
    if calls == [] then []
    else Evals(calls[..|calls| - 1]) + (if calls[|calls| - 1].Eval? then [calls[|calls| - 1].time] else [])
  }

  function Scans(calls: seq<Call>): seq<nat> {
    if calls == [] then []
    else Scans(calls[..|calls| - 1]) + (if calls[|calls| - 1].Scan? then [calls[|calls| - 1].time] else [])
  }

  ghost predicate Consecutive(times: seq<nat>, first: nat, every: nat) {
    forall i :: 0 <= i < |times| ==> times[i] == Point(first, every, i)
  }

  ghost predicate OnPoint(time: nat, first: nat, every: nat) {
    exists k: nat :: time == Point(first, every, k)
  }

  ghost predicate OnPoints(times: seq<nat>, first: nat, every: nat) {
    forall i :: 0 <= i < |times| ==> OnPoint(times[i], first, every)
  }

  /**
   Evaluations lie on the grid that starts at `first`, each grid point once and none left out when `all`; so do
   scans on theirs of a second, always without gaps.
   */
  ghost predicate Ticking<X>(p: Plan<X>, r: Run<X>, first: nat, all: bool) {
    && r.started
    && (if all then Consecutive(Evals(r.calls), first, p.interval) && r.nextEval == Point(first, p.interval, |Evals(r.calls)|)
        else OnPoints(Evals(r.calls), first, p.interval) && OnPoint(r.nextEval, first, p.interval))
    && (if p.movers then Consecutive(Scans(r.calls), first, 1_000_000_000)
                         && r.nextScan == Point(first, 1_000_000_000, |Scans(r.calls)|)
        else Scans(r.calls) == [])
  }

  lemma {:induction false} TimesAppend(calls: seq<Call>, c: Call)
    ensures Evals(calls + [c]) == Evals(calls) + if c.Eval? then [c.time] else []
    ensures Scans(calls + [c]) == Scans(calls) + if c.Scan? then [c.time] else []
  {
    assert (calls + [c])[..|calls|] == calls;
  }

  lemma {:induction false} DispatchTicks<X>(p: Plan<X>, r: Run<X>, first: nat, all: bool)
    requires Runs(p, Next(p, r)) && Ticking(p, r, first, all)
    ensures Ticking(p, Dispatch(p, r), first, all)
  {
    hide E.OnNews, E.Evaluate, E.ScanMovers, E.Idle, Point, Evals, Scans;
    var s := Dispatch(p, r);
    TimesAppend(r.calls, s.calls[|r.calls|]);
    assert s.calls == r.calls + [s.calls[|r.calls|]];
    NextPoint(first, p.interval, |Evals(r.calls)|, 0);
    NextPoint(first, 1_000_000_000, |Scans(r.calls)|, 0);
    if !all {
      var k: nat :| r.nextEval == Point(first, p.interval, k);
      NextPoint(first, p.interval, k, 0);
      assert OnPoint(r.nextEval + p.interval, first, p.interval);
    }
  }

  lemma {:induction false} SkipTicks<X>(p: Plan<X>, r: Run<X>, t: nat, first: nat)
    requires p.interval > 0 && Ticking(p, r, first, false)
    ensures Ticking(p, Skip(p, r, t), first, false)
  {
    var m := SkipLands(p, r, t);
    var k: nat :| r.nextEval == Point(first, p.interval, k);
    hide Skip, Evals, Scans, OnPoints, Consecutive, NewsTime;
    if m >= 0 {
      NextPoint(first, p.interval, k, m);
      hide Point;
      assert Skip(p, r, t).nextEval == Point(first, p.interval, k + m);
    }
  }

  /** The loop without the skip evaluates at every point of the grid, the loop with it at some. */
  lemma {:induction false} LoopTicks<X>(p: Plan<X>, r: Run<X>, t: nat, skip: bool, first: nat)
    requires Runs(p, t) && Ticking(p, r, first, !skip)
    ensures Ticking(p, Loop(p, r, t, skip), first, !skip)
    decreases Work(p, r, t)
  {
    hide Dispatch, Next, Work, Ticking;
    SkipWorks(p, r, t);
    var s := if skip then Skip(p, r, t) else r;
    if skip {
      SkipTicks(p, r, t, first);
    }
    if Next(p, s) <= t {
      DispatchWorks(p, s, t);
      DispatchTicks(p, s, first, !skip);
      LoopTicks(p, Dispatch(p, s), t, skip, first);
    }
  }

  lemma {:induction false} BeginTicks<X>(p: Plan<X>, r: Run<X>, t: nat, all: bool)
    requires !r.started && r.calls == []
    ensures Ticking(p, Begin(p, r, t), if NewsTime(p, r.ni) < t then NewsTime(p, r.ni) else t, all)
    ensures Queued(p, Begin(p, r, t))
  {
    var first := if NewsTime(p, r.ni) < t then NewsTime(p, r.ni) else t;
    assert Point(first, p.interval, 0) == first && Point(first, 1_000_000_000, 0) == first;
  }

  // ---- whole replays ----

  /** Where the grids start: at the first news or the first call, whichever is earlier. */
  function FirstTick<X>(p: Plan<X>, t: nat): nat {
    Min(NewsTime(p, 0), t)
  }

  /** A replay in which something was called: its calls are in order and on the grids. */
  ghost predicate Regular<X>(p: Plan<X>, r: Run<X>, first: nat, all: bool) {
    Queued(p, r) && Ticking(p, r, first, all)
  }

  lemma {:induction false} AdvanceRegular<X>(p: Plan<X>, r: Run<X>, t: nat, first: nat)
    requires Proper(p) && t < NEVER
    requires if r.started then Regular(p, r, first, false) else r.calls == [] && r.ni == 0 && r.nextDue == 0 && first == FirstTick(p, t)
    ensures Regular(p, Advance(p, r, t), first, false)
  {
    if t >= r.nextDue {
      if !r.started {
        BeginTicks(p, r, t, false);
      }
      var s := Begin(p, r, t);
      hide Begin, Loop, Queued, Ticking, Sorted;
      LoopQueued(p, s, t, true);
      LoopTicks(p, s, t, true, first);
      DueRegular(p, Loop(p, s, t, true), first);
    }
  }

  lemma {:induction false} DueRegular<X>(p: Plan<X>, r: Run<X>, first: nat)
    requires Regular(p, r, first, false)
    ensures forall due :: Regular(p, r.(nextDue := due), first, false)
  {
    hide Evals, Scans, OnPoints, OnPoint, Consecutive, Precedes;
    forall due ensures Queued(p, r.(nextDue := due)) {
      forall i | 0 <= i < |r.calls| ensures DueAfter(p, r.(nextDue := due), r.calls[i]) {
        assert DueAfter(p, r, r.calls[i]);
      }
    }
  }

  lemma {:induction false} ReferenceRegular<X>(p: Plan<X>, r: Run<X>, t: nat, first: nat)
    requires Proper(p) && t < NEVER
    requires if r.started then Regular(p, r, first, true) else r.calls == [] && r.ni == 0 && first == FirstTick(p, t)
    ensures Regular(p, Reference(p, r, t), first, true)
  {
    if !r.started {
      BeginTicks(p, r, t, true);
    }
    var s := Begin(p, r, t);
    hide Begin, Loop, Queued, Ticking, Sorted;
    LoopQueued(p, s, t, false);
    LoopTicks(p, s, t, false, first);
  }

  lemma {:induction false} TouchRegular<X>(p: Plan<X>, r: Run<X>, market: X -> X, first: nat, all: bool)
    requires Regular(p, r, first, all)
    ensures Regular(p, Touch(r, market), first, all)
  {
    hide Evals, Scans, OnPoints, OnPoint, Consecutive, Precedes;
    forall i | 0 <= i < |r.calls| ensures DueAfter(p, Touch(r, market), r.calls[i]) {
      assert DueAfter(p, r, r.calls[i]);
    }
  }

  lemma {:induction false} DayRegular<X>(p: Plan<X>, r: Run<X>, ticks: seq<Tick<X>>, end: nat, first: nat)
    requires Proper(p) && end < NEVER && forall i :: 0 <= i < |ticks| ==> ticks[i].t < NEVER
    requires if r.started then Regular(p, r, first, false)
             else r.calls == [] && r.ni == 0 && r.nextDue == 0 && first == FirstTick(p, if ticks == [] then end else ticks[0].t)
    ensures Regular(p, Finish(p, Day(p, r, ticks), end), first, false)
    decreases |ticks|
  {
    hide Advance, Regular, Sorted, Queued, Ticking;
    if ticks == [] {
      if r.started {
        DueRegular(p, r, first);
      }
      AdvanceRegular(p, r.(nextDue := 0), end, first);
    } else {
      AdvanceRegular(p, r, ticks[0].t, first);
      var s := Advance(p, r, ticks[0].t);
      RegularStarted(p, s, first, false);
      TouchRegular(p, s, ticks[0].market, first, false);
      DayRegular(p, Touch(s, ticks[0].market), ticks[1..], end, first);
    }
  }

  lemma {:induction false} RegularStarted<X>(p: Plan<X>, r: Run<X>, first: nat, all: bool)
    requires Regular(p, r, first, all)
    ensures r.started
  {
  }

  lemma {:induction false} ReferenceDayRegular<X>(p: Plan<X>, r: Run<X>, ticks: seq<Tick<X>>, end: nat, first: nat)
    requires Proper(p) && end < NEVER && forall i :: 0 <= i < |ticks| ==> ticks[i].t < NEVER
    requires if r.started then Regular(p, r, first, true)
             else r.calls == [] && r.ni == 0 && first == FirstTick(p, if ticks == [] then end else ticks[0].t)
    ensures Regular(p, Reference(p, ReferenceDay(p, r, ticks), end), first, true)
    decreases |ticks|
  {
    hide Reference, Regular, Sorted, Queued, Ticking;
    if ticks == [] {
      ReferenceRegular(p, r, end, first);
    } else {
      ReferenceRegular(p, r, ticks[0].t, first);
      var s := Reference(p, r, ticks[0].t);
      RegularStarted(p, s, first, true);
      TouchRegular(p, s, ticks[0].market, first, true);
      ReferenceDayRegular(p, Touch(s, ticks[0].market), ticks[1..], end, first);
    }
  }

  lemma {:induction false} LoopStops<X>(p: Plan<X>, r: Run<X>, t: nat, skip: bool)
    requires Runs(p, t)
    ensures Next(p, Loop(p, r, t, skip)) > t
    decreases Work(p, r, t)
  {
    hide Dispatch, Next, Work;
    SkipWorks(p, r, t);
    var s := if skip then Skip(p, r, t) else r;
    if Next(p, s) <= t {
      DispatchWorks(p, s, t);
      LoopStops(p, Dispatch(p, s), t, skip);
    }
  }

  lemma {:induction false} NothingLeft<X>(p: Plan<X>, r: Run<X>, t: nat)
    requires Next(p, r) > t
    ensures r.nextEval > t && NewsTime(p, r.ni) > t && (p.movers ==> r.nextScan > t)
  {
  }

  /**
   A replay from a fresh engine, by the driver and by the reference driver: calls come by time, at one time news
   before the evaluation before the scan; the reference driver evaluates at every point of the grid that starts with
   the first news or the first call up to the end, the driver at some of them; scans miss no second.
   */
  lemma {:induction false} ReplayCalls<X>(p: Plan<X>, other: X, ticks: seq<Tick<X>>, end: nat)
    requires Proper(p) && end < NEVER && forall i :: 0 <= i < |ticks| ==> ticks[i].t < NEVER
    ensures var first := FirstTick(p, if ticks == [] then end else ticks[0].t);
            var reference := Reference(p, ReferenceDay(p, Morning(p, other), ticks), end);
            && Regular(p, Finish(p, Day(p, Morning(p, other), ticks), end), first, false)
            && Regular(p, reference, first, true) && reference.nextEval > end && (p.movers ==> reference.nextScan > end)
  {
    hide Day, ReferenceDay, Finish, Loop, Regular, Sorted, Next, PaperTrading.FreshTrader;
    var m, first := Morning(p, other), FirstTick(p, if ticks == [] then end else ticks[0].t);
    DayRegular(p, m, ticks, end, first);
    ReferenceDayRegular(p, m, ticks, end, first);
    var r := ReferenceDay(p, m, ticks);
    LoopStops(p, Begin(p, r, end), end, false);
    NothingLeft(p, Reference(p, r, end), end);
  }
}
