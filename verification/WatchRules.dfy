/**
 What the watchlist promises, story by story: when a story leaves the list, what tier it has after a look, when
 that is signalled, and what a scored story makes of the list.
 */
module WatchRules {
  import opened Arithmetic
  import opened Options
  import opened Sequences
  import opened Watchlists

  /** No signal of this tier for this ticker lies less than a cooldown back. */
  ghost predicate Quiet(emits: seq<Emission>, sym: nat, tier: Tier, cooldown: nat, now: nat) {
    forall i :: 0 <= i < |emits| && emits[i].sym == sym && emits[i].tier == tier ==> emits[i].time + cooldown <= now
  }

  /** The table of last times is exact, so asking it is asking the signals themselves. */
  lemma {:induction false} CooledIsQuiet(emits: seq<Emission>, last: LastTimes, cooldown: nat, sym: nat, tier: Tier, now: nat)
    requires Spaced(emits, last, cooldown, now) && now < U64
    ensures Cooled(last, cooldown, sym, tier, now) <==> Quiet(emits, sym, tier, cooldown, now)
  {
    if (sym, tier) in last {
      assert Emitted(emits, sym, tier, last[(sym, tier)]);
      var i :| 0 <= i < |emits| && emits[i] == Emission(tier, sym, last[(sym, tier)]);
      assert Sub64(now, last[(sym, tier)]) == now - last[(sym, tier)];
    }
  }

  // ---- a look at every story ----

  /** The higher of two tiers. */
  ghost function Higher(a: Tier, b: Tier): Tier {
    if Rank(a) < Rank(b) then b else a
  }

  lemma {:induction false} RanksAreTiers(a: Tier, b: Tier)
    ensures Rank(a) <= 3 && (Rank(a) == Rank(b) <==> a == b)
    ensures Rank(Unrated) < Rank(Watched) < Rank(Alert) < Rank(High)
  {
  }

  /**
   A story on the list stays while it is no older than the window, and then has the higher of its tier and what the
   market says of it; an older one leaves, and its slot is free. Slots not in use are left alone.
   */
  lemma {:induction false} LookRules(r: Rules, s: State, now: nat, i: nat)
    requires Good(s.t) && i < |s.t.watch|
    ensures var u, w := Looked(r, s, now), s.t.watch[i];
            && |u.t.watch| == |s.t.watch|
            && (i !in s.t.active ==> u.t.watch[i] == w && i !in u.t.active)
            && (i in s.t.active ==>
                  && (i in u.t.active <==> now <= w.tNews + r.window)
                  && u.t.watch[i] == if i in u.t.active then w.(tier := Higher(w.tier, r.judge(w, now))) else w.(active := false))
  {
    LookedMeans(r, s, now);
    RanksAreTiers(s.t.watch[i].tier, r.judge(s.t.watch[i], now));
    assert s.t.active[0..] == s.t.active;
    hide Looked, Logged, Consistent, Rank;
  }

  lemma {:induction false} EmittedBy(r: Rules, watch: seq<Watch>, slots: seq<nat>, last: LastTimes, now: nat, e: Emission)
    requires SlotsIn(slots, watch)
    ensures e in AllEmits(r, watch, slots, last, now) <==>
              exists i :: 0 <= i < |slots| && e in Emits(r, watch[slots[i]], last, now)
    decreases |slots|
  {
    hide Emits;
    if slots != [] {
      var n := |slots| - 1;
      EmittedBy(r, watch, slots[..n], last, now, e);
      if i :| 0 <= i < |slots| && e in Emits(r, watch[slots[i]], last, now) {
        assert i < n ==> slots[..n][i] == slots[i];
      }
      if i :| 0 <= i < n && e in Emits(r, watch[slots[..n][i]], last, now) {
        assert slots[..n][i] == slots[i];
      }
    }
  }

  /** What a story on the list is signalled for by a look: a rise, unless that was signalled within the cooldown. */
  ghost predicate Signalled(r: Rules, s: State, w: Watch, tier: Tier, now: nat) {
    now <= w.tNews + r.window && tier == r.judge(w, now) && Rank(tier) > Rank(w.tier) && Quiet(s.emits, w.sym, tier, r.cooldown, now)
  }

  lemma {:induction false} EmitsAre(r: Rules, s: State, w: Watch, now: nat, e: Emission)
    requires Spaced(s.emits, s.last, r.cooldown, now) && now < U64
    ensures e in Emits(r, w, s.last, now) <==> e.sym == w.sym && e.time == now && Signalled(r, s, w, e.tier, now)
  {
    var t := r.judge(w, now);
    CooledIsQuiet(s.emits, s.last, r.cooldown, w.sym, t, now);
    RanksAreTiers(w.tier, t);
    hide Spaced, Cooled, Quiet;
  }

  /** The story at position `i` of the list is due this signal. */
  ghost predicate Due(r: Rules, s: State, i: nat, now: nat, e: Emission)
    requires SlotsIn(s.t.active, s.t.watch)
  {
    i < |s.t.active| && e.time == now && e.sym == s.t.watch[s.t.active[i]].sym
    && Signalled(r, s, s.t.watch[s.t.active[i]], e.tier, now)
  }

  /** A look signals exactly the rises that are due. */
  lemma {:induction false} LookSignals(r: Rules, s: State, now: nat, e: Emission)
    requires Good(s.t) && Spaced(s.emits, s.last, r.cooldown, now) && now < U64
    ensures SlotsIn(s.t.active, s.t.watch) && s.emits <= Looked(r, s, now).emits
    ensures e in Looked(r, s, now).emits[|s.emits|..] <==> exists i: nat :: Due(r, s, i, now, e)
  {
    LookedMeans(r, s, now);
    EvaluatedSlots(s.t);
    assert s.t.active[0..] == s.t.active;
    var slots := Reverse(s.t.active);
    SameSlots(s.t.active);
    hide Looked, Evaluated, Consistent, Spaced, Reverse, SameTime, AllEmits;
    assert Looked(r, s, now).emits[|s.emits|..] == AllEmits(r, s.t.watch, slots, s.last, now);
    DueFromList(r, s, slots, now, e);
  }

  lemma {:induction false} DueFromList(r: Rules, s: State, slots: seq<nat>, now: nat, e: Emission)
    requires SlotsIn(s.t.active, s.t.watch) && SlotsIn(slots, s.t.watch) && |slots| == |s.t.active|
    requires forall i :: 0 <= i < |slots| ==> slots[i] == s.t.active[|slots| - 1 - i]
    requires Spaced(s.emits, s.last, r.cooldown, now) && now < U64
    ensures e in AllEmits(r, s.t.watch, slots, s.last, now) <==> exists i: nat :: Due(r, s, i, now, e)
  {
    EmittedBy(r, s.t.watch, slots, s.last, now, e);
    hide AllEmits, Emits, Spaced, Signalled;
    if i :| 0 <= i < |slots| && e in Emits(r, s.t.watch[slots[i]], s.last, now) {
      EmitsAre(r, s, s.t.watch[slots[i]], now, e);
      assert Due(r, s, |slots| - 1 - i, now, e);
    }
    if k: nat :| Due(r, s, k, now, e) {
      var i := |slots| - 1 - k;
      assert slots[i] == s.t.active[k];
      EmitsAre(r, s, s.t.watch[slots[i]], now, e);
    }
  }

  lemma {:induction false} SameSlots(s: seq<nat>)
    ensures |Reverse(s)| == |s| && forall i :: 0 <= i < |s| ==> Reverse(s)[i] == s[|s| - 1 - i]
  {
  }

  // ---- a scored story ----

  /** The story of a ticker is in use and on the list. */
  lemma {:induction false} ListedActive(t: Table, sym: nat)
    requires Good(t) && sym in t.bySym
    ensures t.bySym[sym] < |t.watch| && t.bySym[sym] in t.active && t.watch[t.bySym[sym]].active && t.watch[t.bySym[sym]].sym == sym
  {
    assert t.bySym[sym] in t.active;
    var i :| 0 <= i < |t.active| && t.active[i] == t.bySym[sym];
  }

  /** A story counts unless it is not eligible or its ticker has one at least as strong. */
  ghost predicate Counts(t: Table, x: Story) {
    x.eligible && (x.sym in t.bySym && t.bySym[x.sym] < |t.watch| ==> x.score > t.watch[t.bySym[x.sym]].score)
  }

  /**
   A story that does not count changes nothing. One that does is on the list with its score; a ticker's first story
   dates it and makes it a watched one, which is signalled unless it was within the cooldown; a stronger one leaves
   date and tier alone.
   */
  lemma {:induction false} StoryRules(r: Rules, s: State, x: Story, tNews: nat, now: nat)
    requires Good(s.t) && Spaced(s.emits, s.last, r.cooldown, now) && now < U64
    ensures var u := StoryAfter(r, s, x, tNews, now);
            if !Counts(s.t, x) then u == s
            else
              && x.sym in u.t.bySym && u.t.bySym[x.sym] < |u.t.watch|
              && var w := u.t.watch[u.t.bySym[x.sym]];
                 && w.active && w.sym == x.sym && w.score == x.score
                 && var old_ := if x.sym in s.t.bySym && s.t.bySym[x.sym] < |s.t.watch|
                                then s.t.watch[s.t.bySym[x.sym]] else Watch(true, Unrated, x.sym, x.score, tNews);
                    && w.tNews == old_.tNews && w.tier == Higher(old_.tier, Watched)
                    && u.emits == s.emits + if old_.tier == Unrated && Quiet(s.emits, x.sym, Watched, r.cooldown, now)
                                            then [Emission(Watched, x.sym, now)] else []
  {
    assert s.emits + [] == s.emits;
    CooledIsQuiet(s.emits, s.last, r.cooldown, x.sym, Watched, now);
    if x.sym in s.t.bySym {
      ListedActive(s.t, x.sym);
      hide Good, Cooled, Spaced, Quiet;
    } else if x.eligible {
      NewStoryRules(r, s, x, tNews, now);
      hide Good, Cooled, Spaced, Quiet, NewStory;
    }
  }

  lemma {:induction false} NewStoryRules(r: Rules, s: State, x: Story, tNews: nat, now: nat)
    requires Good(s.t) && x.sym !in s.t.bySym
    ensures var u := NewStory(r, s, x, tNews, now);
            && x.sym in u.t.bySym && u.t.bySym[x.sym] < |u.t.watch|
            && u.t.watch[u.t.bySym[x.sym]] == Watch(true, Watched, x.sym, x.score, tNews)
            && u.emits == s.emits + if Cooled(s.last, r.cooldown, x.sym, Watched, now) then [Emission(Watched, x.sym, now)] else []
  {
    var t := Admit(s.t, x.sym);
    AdmitFresh(s.t, x.sym);
    hide Good, Admit, Cooled;
    DatedSize(t, t.bySym[x.sym], tNews);
  }

  lemma {:induction false} AdmitFresh(t: Table, sym: nat)
    requires Good(t) && sym !in t.bySym
    ensures var u := Admit(t, sym);
            sym in u.bySym && u.bySym[sym] < |u.watch| && u.watch[u.bySym[sym]] == Watch(true, Unrated, sym, 0, 0)
  {
    RoomLast(t);
    RoomLacks(t, sym);
    ActivateGood(Room(t), sym);
    hide Good, Room;
  }

  // ---- a news item ----

  /**
   A news item is its stories one after the other; if any of them counted when its turn came, every story on the
   list is looked at at once, otherwise nothing has changed.
   */
  lemma {:induction false} NewsRules(r: Rules, s: State, stories: seq<Story>, recv: nat, now: nat)
    requires Good(s.t)
    ensures var at := if recv == 0 then now else recv;
            var counted := exists i :: 0 <= i < |stories| && Counts(StoriesAfter(r, s, stories[..i], at, now).t, stories[i]);
            NewsAfter(r, s, stories, recv, now) == if counted then Looked(r, StoriesAfter(r, s, stories, at, now), now) else s
  {
    var at := if recv == 0 then now else recv;
    hide Good, Looked;
    forall i | 0 <= i < |stories|
      ensures var t := StoriesAfter(r, s, stories[..i], at, now).t; Counts(t, stories[i]) <==> Stored(t, stories[i])
    {
      StoredCounts(StoriesAfter(r, s, stories[..i], at, now).t, stories[i]);
    }
    hide Counts, Stored;
    if !Touched(r, s, stories, at, now) {
      UntouchedStays(r, s, stories, at, now);
    }
    hide StoriesAfter;
  }

  lemma {:induction false} StoredCounts(t: Table, x: Story)
    requires Good(t)
    ensures Counts(t, x) <==> Stored(t, x)
  {
    if x.sym in t.bySym {
      IndexedSlot(t, x.sym);
    }
    hide Good;
  }

  lemma {:induction false} UntouchedStays(r: Rules, s: State, stories: seq<Story>, tNews: nat, now: nat)
    requires Good(s.t) && !Touched(r, s, stories, tNews, now)
    ensures StoriesAfter(r, s, stories, tNews, now) == s
    decreases |stories|
  {
    hide Good, Stored, Scored, NewStory;
    if stories != [] {
      var n := |stories| - 1;
      assert stories[..n + 1] == stories;
      StoriesNext(r, s, stories, n, tNews, now);
      UntouchedStays(r, s, stories[..n], tNews, now);
    }
  }
}
