/**
 The breadth-first pass that completes a trie to a DFA, over bare state numbers. What the
 finished tables have to be is given by a reference that satisfies the recursive laws of
 failure links; the pass is proved to compute it for every trie.
 */
module TrieBfs {

  import opened PatternMatch
  import opened Sequences

  const ALPHA: nat := 37

  /** Reference tables: failure link, target per symbol, depth, outputs, and where each state hangs. */
  datatype Reference = Reference(link: seq<nat>, goal: seq<seq<nat>>, depth: seq<nat>, res: seq<seq<nat>>,
                                 parent: seq<nat>, edge: seq<nat>)

  /** Where a missing edge leads, and where the failure link of a child points. */
  ghost function Via(r: Reference, s: nat, c: nat): nat {
    if s == 0 then 0
    else if s < |r.link| && r.link[s] < |r.goal| && c < |r.goal[r.link[s]]| then r.goal[r.link[s]][c]
    else 0
  }

  ghost predicate EdgeLaw(go: seq<seq<int>>, r: Reference, s: nat, c: nat)
    requires s < |go| == |r.goal| && |r.link| == |r.depth| == |r.parent| == |r.edge| == |go|
    requires c < |go[s]| && c < |r.goal[s]|
  {
    var t := go[s][c];
    if t > 0 then
      && t < |go| && r.goal[s][c] == t && r.link[t] == Via(r, s, c)
      && r.depth[t] == r.depth[s] + 1 && r.parent[t] == s && r.edge[t] == c
    else t < 0 && r.goal[s][c] == Via(r, s, c)
  }

  ghost predicate StateLaw(go: seq<seq<int>>, own: seq<seq<nat>>, r: Reference, s: nat)
    requires s < |go| == |own|
    requires |r.link| == |r.depth| == |r.parent| == |r.edge| == |r.res| == |go|
  {
    if s == 0 then r.res[0] == own[0]
    else
      && r.link[s] < |go| && r.depth[r.link[s]] < r.depth[s]
      && r.res[s] == own[s] + r.res[r.link[s]]
      && r.parent[s] < |go| && r.depth[r.parent[s]] < r.depth[s]
      && r.edge[s] < |go[r.parent[s]]| && go[r.parent[s]][r.edge[s]] == s
  }

  ghost predicate Laws(go: seq<seq<int>>, own: seq<seq<nat>>, r: Reference) {
    && 0 < |go| <= 65536 && |own| == |go|
    && |r.link| == |r.goal| == |r.depth| == |r.res| == |r.parent| == |r.edge| == |go|
    && (forall s {:trigger go[s]} {:trigger r.goal[s]} | 0 <= s < |go| :: |go[s]| == ALPHA && |r.goal[s]| == ALPHA)
    && (forall s, c {:trigger go[s][c]} | 0 <= s < |go| && 0 <= c < ALPHA :: EdgeLaw(go, r, s, c))
    && (forall s {:trigger r.link[s]} {:trigger r.parent[s]} {:trigger r.res[s]} | 0 <= s < |go| :: StateLaw(go, own, r, s))
  }

  // ---- rows of the flat table ----

  /** Entry of the flat transition table. */
  function At(delta: seq<nat>, s: nat, c: nat): nat
    requires c < ALPHA && s * ALPHA + ALPHA <= |delta|
  {
    delta[s * ALPHA + c]
  }

  /** The first `k` entries of row `s` are right. */
  ghost predicate RowIs(delta: seq<nat>, s: nat, k: nat, goal: seq<nat>) {
    && s * ALPHA + ALPHA <= |delta| && k <= ALPHA == |goal|
    && forall c: nat | c < k :: At(delta, s, c) == goal[c]
  }

  ghost predicate SameRowsExcept(delta: seq<nat>, delta0: seq<nat>, s: nat) {
    && |delta| == |delta0|
    && forall t: nat, c: nat | c < ALPHA && t * ALPHA + ALPHA <= |delta| && t != s :: At(delta, t, c) == At(delta0, t, c)
  }

  lemma {:induction false} RowStep(delta: seq<nat>, delta0: seq<nat>, s: nat, c: nat, v: nat, goal: seq<nat>)
    requires c < ALPHA && SameRowsExcept(delta, delta0, s) && RowIs(delta, s, c, goal) && v == goal[c]
    ensures SameRowsExcept(delta[s * ALPHA + c := v], delta0, s)
    ensures RowIs(delta[s * ALPHA + c := v], s, c + 1, goal)
  {
  }

  lemma {:induction false} RowKept(delta: seq<nat>, delta0: seq<nat>, s: nat, t: nat, goal: seq<nat>)
    requires SameRowsExcept(delta, delta0, s) && t != s && RowIs(delta0, t, ALPHA, goal)
    ensures RowIs(delta, t, ALPHA, goal)
  {
    forall c: nat | c < ALPHA ensures At(delta, t, c) == goal[c] {
      assert At(delta, t, c) == At(delta0, t, c);
    }
  }

  // ---- children ----

  /** The children of a row among its first `k` symbols, in order. */
  function Children(row: seq<int>, k: nat): seq<nat>
    requires k <= |row|
  {
    if k == 0 then [] else Children(row, k - 1) + (if row[k - 1] > 0 then [row[k - 1]] else [])
  }

  ghost predicate IsChild(r: Reference, s: nat, k: nat, t: nat) {
    0 < t < |r.parent| && t < |r.edge| && r.parent[t] == s && r.edge[t] < k
  }

  lemma {:induction false} ChildrenExact(go: seq<seq<int>>, own: seq<seq<nat>>, r: Reference, s: nat, k: nat, t: nat)
    requires Laws(go, own, r) && s < |go| && k <= ALPHA
    ensures t in Children(go[s], k) <==> IsChild(r, s, k, t)
  {
    if k > 0 {
      ChildrenExact(go, own, r, s, k - 1, t);
      assert EdgeLaw(go, r, s, k - 1);
      if 0 < t < |go| {
        assert StateLaw(go, own, r, t);
      }
    }
  }

  lemma {:induction false} ChildrenDistinct(go: seq<seq<int>>, own: seq<seq<nat>>, r: Reference, s: nat, k: nat)
    requires Laws(go, own, r) && s < |go| && k <= ALPHA
    ensures Distinct(Children(go[s], k))
  {
    if k > 0 {
      ChildrenDistinct(go, own, r, s, k - 1);
      assert EdgeLaw(go, r, s, k - 1);
      if go[s][k - 1] > 0 {
        ChildrenExact(go, own, r, s, k - 1, go[s][k - 1]);
      }
    }
  }

  // ---- expanding one state ----

  /** The failure links set so far: right for the children met, as before elsewhere. */
  ghost predicate FailsSet(fail: seq<nat>, fail0: seq<nat>, r: Reference, s: nat, k: nat) {
    && |fail| == |fail0| == |r.link| == |r.parent| == |r.edge|
    && forall t | 0 <= t < |fail| :: fail[t] == if IsChild(r, s, k, t) then r.link[t] else fail0[t]
  }

  lemma {:induction false} FailStep(go: seq<seq<int>>, own: seq<seq<nat>>, r: Reference,
                                    fail: seq<nat>, fail0: seq<nat>, s: nat, c: nat)
    requires Laws(go, own, r) && s < |go| && c < ALPHA && FailsSet(fail, fail0, r, s, c)
    ensures go[s][c] != 0 && go[s][c] < |fail|
    ensures go[s][c] > 0 ==> FailsSet(fail[go[s][c] := Via(r, s, c)], fail0, r, s, c + 1)
    ensures go[s][c] <= 0 ==> FailsSet(fail, fail0, r, s, c + 1)
  {
    assert EdgeLaw(go, r, s, c);
    forall t | 0 <= t < |fail| && go[s][c] != t ensures IsChild(r, s, c + 1, t) <==> IsChild(r, s, c, t) {
      assert StateLaw(go, own, r, t);
    }
  }

  /** The narrowing cast of the 16-bit tables. */
  function Uint16(x: nat): (v: nat)
    ensures x < 65536 ==> v == x
  {
    if x < 65536 then x else x % 65536
  }

  /** The root row: its children, or back to the root. */
  method ExpandRoot(go: seq<seq<int>>, delta0: seq<nat>, fail0: seq<nat>,
                    ghost own: seq<seq<nat>>, ghost r: Reference)
    returns (delta: seq<nat>, fail: seq<nat>, q: seq<nat>)
    requires Laws(go, own, r) && |delta0| == |go| * ALPHA && |fail0| == |go|
    ensures SameRowsExcept(delta, delta0, 0) && RowIs(delta, 0, ALPHA, r.goal[0])
    ensures FailsSet(fail, fail0, r, 0, ALPHA) && q == Children(go[0], ALPHA)
  {
    delta, fail, q := delta0, fail0, [];
    for c := 0 to ALPHA
      invariant SameRowsExcept(delta, delta0, 0) && RowIs(delta, 0, c, r.goal[0])
      invariant FailsSet(fail, fail0, r, 0, c) && q == Children(go[0], c)
    {
      var t := go[0][c];
      assert EdgeLaw(go, r, 0, c);
      FailStep(go, own, r, fail, fail0, 0, c);
      RowStep(delta, delta0, 0, c, r.goal[0][c], r.goal[0]);
      if t > 0 {
        delta := delta[c := Uint16(t)];
        fail := fail[t := 0];
        q := q + [t];
      } else {
        delta := delta[c := 0];
      }
    }
  }

  /** The row of a popped state: children get their failure link, the gaps the failure state's target. */
  method ExpandRow(go: seq<seq<int>>, s: nat, delta0: seq<nat>, fail0: seq<nat>, q0: seq<nat>,
                   ghost own: seq<seq<nat>>, ghost r: Reference)
    returns (delta: seq<nat>, fail: seq<nat>, q: seq<nat>)
    requires Laws(go, own, r) && 0 < s < |go| && |delta0| == |go| * ALPHA && |fail0| == |go|
    requires fail0[s] == r.link[s] && fail0[s] < |go|
    requires RowIs(delta0, fail0[s], ALPHA, r.goal[fail0[s]])
    ensures SameRowsExcept(delta, delta0, s) && RowIs(delta, s, ALPHA, r.goal[s])
    ensures FailsSet(fail, fail0, r, s, ALPHA) && q == q0 + Children(go[s], ALPHA)
  {
    delta, fail, q := delta0, fail0, q0;
    ExpandStarts(go, own, r, s, delta, fail, q);
    hide Laws, Expanding, RowIs, SameRowsExcept, FailsSet, Children;
    for c := 0 to ALPHA
      invariant Expanding(go, r, s, c, delta, delta0, fail, fail0, q, q0)
    {
      ExpandStep(go, own, r, s, c, delta, delta0, fail, fail0, q, q0);
      var t := go[s][c];
      var f := fail[s];
      if t > 0 {
        fail := fail[t := delta[f * ALPHA + c]];
        delta := delta[s * ALPHA + c := Uint16(t)];
        q := q + [t];
      } else {
        delta := delta[s * ALPHA + c := delta[f * ALPHA + c]];
      }
    }
    ExpandEnds(go, r, s, delta, delta0, fail, fail0, q, q0);
  }

  /** Row `s` is written up to symbol `c`, and the children up to there have their failure links. */
  ghost predicate Expanding(go: seq<seq<int>>, r: Reference, s: nat, c: nat, delta: seq<nat>, delta0: seq<nat>,
                            fail: seq<nat>, fail0: seq<nat>, q: seq<nat>, q0: seq<nat>) {
    && s < |go| && s < |r.goal| && s < |r.link| && c <= ALPHA && |go[s]| == ALPHA && s < |fail|
    && |delta| == |delta0| == |go| * ALPHA
    && r.link[s] < |r.goal| && r.link[s] != s && r.link[s] < |go|
    && RowIs(delta0, r.link[s], ALPHA, r.goal[r.link[s]])
    && SameRowsExcept(delta, delta0, s) && RowIs(delta, s, c, r.goal[s])
    && FailsSet(fail, fail0, r, s, c) && q == q0 + Children(go[s], c) && fail[s] == r.link[s]
  }

  lemma {:induction false} ExpandStarts(go: seq<seq<int>>, own: seq<seq<nat>>, r: Reference, s: nat,
                                        delta: seq<nat>, fail: seq<nat>, q: seq<nat>)
    requires Laws(go, own, r) && 0 < s < |go| && |delta| == |go| * ALPHA && |fail| == |go|
    requires fail[s] == r.link[s] && fail[s] < |go| && RowIs(delta, fail[s], ALPHA, r.goal[fail[s]])
    ensures Expanding(go, r, s, 0, delta, delta, fail, fail, q, q)
  {
    assert StateLaw(go, own, r, s);
    assert q + [] == q;
  }

  lemma {:induction false} ExpandStep(go: seq<seq<int>>, own: seq<seq<nat>>, r: Reference, s: nat, c: nat,
                                      delta: seq<nat>, delta0: seq<nat>, fail: seq<nat>, fail0: seq<nat>, q: seq<nat>, q0: seq<nat>)
    requires Laws(go, own, r) && 0 < s && c < ALPHA && Expanding(go, r, s, c, delta, delta0, fail, fail0, q, q0)
    requires |fail0| == |go|
    ensures s < |go| && c < |go[s]| && s < |fail| && go[s][c] < |fail|
    ensures s * ALPHA + c < |delta| && fail[s] * ALPHA + c < |delta|
    ensures var t, v := go[s][c], delta[fail[s] * ALPHA + c];
            if t > 0 then Expanding(go, r, s, c + 1, delta[s * ALPHA + c := Uint16(t)], delta0, fail[t := v], fail0, q + [t], q0)
            else Expanding(go, r, s, c + 1, delta[s * ALPHA + c := v], delta0, fail, fail0, q, q0)
  {
    assert StateLaw(go, own, r, s);
    ViaEntry(delta, delta0, r, s, c);
    assert EdgeLaw(go, r, s, c);
    FailStep(go, own, r, fail, fail0, s, c);
    RowStep(delta, delta0, s, c, r.goal[s][c], r.goal[s]);
    hide RowIs, SameRowsExcept, FailsSet;
  }

  lemma {:induction false} ExpandEnds(go: seq<seq<int>>, r: Reference, s: nat,
                                      delta: seq<nat>, delta0: seq<nat>, fail: seq<nat>, fail0: seq<nat>, q: seq<nat>, q0: seq<nat>)
    requires Expanding(go, r, s, ALPHA, delta, delta0, fail, fail0, q, q0)
    ensures SameRowsExcept(delta, delta0, s) && RowIs(delta, s, ALPHA, r.goal[s])
    ensures FailsSet(fail, fail0, r, s, ALPHA) && q == q0 + Children(go[s], ALPHA)
  {
  }

  /** What the failure state's row holds while row `s` is being written. */
  lemma {:induction false} ViaEntry(delta: seq<nat>, delta0: seq<nat>, r: Reference, s: nat, c: nat)
    requires 0 < s < |r.link| && r.link[s] < |r.goal| && r.link[s] != s && c < ALPHA
    requires SameRowsExcept(delta, delta0, s) && RowIs(delta0, r.link[s], ALPHA, r.goal[r.link[s]])
    ensures r.link[s] * ALPHA + c < |delta| && delta[r.link[s] * ALPHA + c] == Via(r, s, c)
  {
    var f := r.link[s];
    assert delta[f * ALPHA + c] == At(delta, f, c) == At(delta0, f, c);
  }

  // ---- the queue ----

  /** Unexplored states in order of depth, spanning at most two levels. */
  ghost predicate Frontier(q: seq<nat>, done: set<nat>, r: Reference) {
    && (forall i | 0 <= i < |q| :: q[i] < |r.depth| && q[i] !in done)
    && (forall i, j | 0 <= i < j < |q| :: q[i] != q[j] && r.depth[q[i]] <= r.depth[q[j]])
    && (forall i | 0 <= i < |q| :: r.depth[q[i]] <= r.depth[q[0]] + 1)
  }

  /** A state is explored or waiting exactly when its parent is explored. */
  ghost predicate Reached(q: seq<nat>, done: set<nat>, r: Reference) {
    0 in done && forall s | 0 < s < |r.parent| :: s in done || s in q <==> r.parent[s] in done
  }

  /** An unexplored state lies no higher than the front of the queue, which is then non-empty. */
  lemma {:induction false} Unexplored(go: seq<seq<int>>, own: seq<seq<nat>>, q: seq<nat>, done: set<nat>, r: Reference, s: nat)
    requires Laws(go, own, r) && Frontier(q, done, r) && Reached(q, done, r) && s < |go| && s !in done
    ensures q != [] && q[0] < |go| && r.depth[q[0]] <= r.depth[s]
    decreases r.depth[s]
  {
    if s !in q {
      assert StateLaw(go, own, r, s);
      Unexplored(go, own, q, done, r, r.parent[s]);
    }
  }

  /** States one level below the front may join the queue at the back. */
  lemma {:induction false} FrontierAppend(q: seq<nat>, done: set<nat>, kids: seq<nat>, r: Reference)
    requires q != [] && Frontier(q, done, r) && q[0] < |r.depth| && Distinct(kids)
    requires forall i | 0 <= i < |kids| :: kids[i] < |r.depth| && r.depth[kids[i]] == r.depth[q[0]] + 1
    requires forall i | 0 <= i < |kids| :: kids[i] !in done && kids[i] !in q
    ensures Frontier(q[1..] + kids, done + {q[0]}, r)
  {
    var q', done', m := q[1..] + kids, done + {q[0]}, |q| - 1;
    forall i | 0 <= i < |q'|
      ensures q'[i] < |r.depth| && q'[i] !in done' && r.depth[q[0]] <= r.depth[q'[i]] <= r.depth[q[0]] + 1
    {
      if i < m { assert q'[i] == q[i + 1]; } else { assert q'[i] == kids[i - m]; }
    }
    forall i, j | 0 <= i < j < |q'| ensures q'[i] != q'[j] && r.depth[q'[i]] <= r.depth[q'[j]] {
      if j < m {
        assert q'[i] == q[i + 1] && q'[j] == q[j + 1];
      } else if i < m {
        assert q'[i] == q[i + 1] && q'[i] in q && q'[j] == kids[j - m];
      } else {
        assert q'[i] == kids[i - m] && q'[j] == kids[j - m];
      }
    }
  }

  lemma {:induction false} AdvanceFrontier(go: seq<seq<int>>, own: seq<seq<nat>>, q: seq<nat>, done: set<nat>, r: Reference)
    requires Laws(go, own, r) && q != [] && q[0] < |go| && Frontier(q, done, r) && Reached(q, done, r)
    ensures Frontier(q[1..] + Children(go[q[0]], ALPHA), done + {q[0]}, r)
  {
    var s, kids := q[0], Children(go[q[0]], ALPHA);
    ChildrenDistinct(go, own, r, s, ALPHA);
    forall i | 0 <= i < |kids|
      ensures kids[i] < |go| && r.depth[kids[i]] == r.depth[s] + 1 && kids[i] !in done && kids[i] !in q
    {
      assert kids[i] in kids;
      ChildrenExact(go, own, r, s, ALPHA, kids[i]);
      assert StateLaw(go, own, r, kids[i]);
      assert EdgeLaw(go, r, s, r.edge[kids[i]]);
    }
    FrontierAppend(q, done, kids, r);
  }

  lemma {:induction false} AdvanceReached(go: seq<seq<int>>, own: seq<seq<nat>>, q: seq<nat>, done: set<nat>, r: Reference)
    requires Laws(go, own, r) && q != [] && q[0] < |go| && Reached(q, done, r)
    ensures Reached(q[1..] + Children(go[q[0]], ALPHA), done + {q[0]}, r)
  {
    var s, q', done' := q[0], q[1..] + Children(go[q[0]], ALPHA), done + {q[0]};
    forall t | 0 < t < |r.parent| ensures t in done' || t in q' <==> r.parent[t] in done' {
      ChildrenExact(go, own, r, s, ALPHA, t);
      assert StateLaw(go, own, r, t);
      assert t in q <==> t == s || t in q[1..];
    }
  }

  lemma {:induction false} StartQueue(go: seq<seq<int>>, own: seq<seq<nat>>, r: Reference)
    requires Laws(go, own, r)
    ensures Frontier(Children(go[0], ALPHA), {0}, r) && Reached(Children(go[0], ALPHA), {0}, r)
  {
    var kids := Children(go[0], ALPHA);
    ChildrenDistinct(go, own, r, 0, ALPHA);
    forall i | 0 <= i < |kids| ensures kids[i] < |go| && r.depth[kids[i]] == r.depth[0] + 1 && kids[i] != 0 {
      assert kids[i] in kids;
      ChildrenExact(go, own, r, 0, ALPHA, kids[i]);
      assert StateLaw(go, own, r, kids[i]);
      assert EdgeLaw(go, r, 0, r.edge[kids[i]]);
    }
    forall t | 0 < t < |r.parent| ensures t in kids <==> r.parent[t] in {0} {
      ChildrenExact(go, own, r, 0, ALPHA, t);
      assert StateLaw(go, own, r, t);
    }
  }

  // ---- the pass ----

  /** Explored states have their final row and outputs, waiting ones their failure link. */
  ghost predicate Explored(delta: seq<nat>, fail: seq<nat>, outs: seq<seq<nat>>, q: seq<nat>, done: set<nat>, r: Reference) {
    && |delta| == |r.goal| * ALPHA && |fail| == |outs| == |r.res| == |r.goal| == |r.link|
    && (forall s | s in done :: s < |r.goal| && RowIs(delta, s, ALPHA, r.goal[s]) && outs[s] == r.res[s])
    && (forall t | t in q :: 0 < t < |fail| && fail[t] == r.link[t])
  }

  /** Everything known about the state about to be popped: its failure state is explored. */
  lemma {:induction false} PopReady(go: seq<seq<int>>, own: seq<seq<nat>>, delta: seq<nat>, fail: seq<nat>,
                                    outs: seq<seq<nat>>, q: seq<nat>, done: set<nat>, r: Reference)
    requires Laws(go, own, r) && q != [] && Frontier(q, done, r) && Reached(q, done, r)
    requires Explored(delta, fail, outs, q, done, r)
    ensures 0 < q[0] < |go| && fail[q[0]] == r.link[q[0]] && r.link[q[0]] < |go|
    ensures RowIs(delta, r.link[q[0]], ALPHA, r.goal[r.link[q[0]]])
    ensures own[q[0]] + outs[fail[q[0]]] == r.res[q[0]]
  {
    var s := q[0];
    assert s in q;
    assert StateLaw(go, own, r, s);
    if r.link[s] !in done {
      Unexplored(go, own, q, done, r, r.link[s]);
    }
  }

  lemma {:induction false} ExploredStep(go: seq<seq<int>>, own: seq<seq<nat>>, delta: seq<nat>, fail: seq<nat>,
                                        outs: seq<seq<nat>>, q: seq<nat>, done: set<nat>,
                                        delta': seq<nat>, fail': seq<nat>, r: Reference)
    requires Laws(go, own, r) && q != [] && q[0] < |go| && q[0] !in done
    requires Explored(delta, fail, outs, q, done, r)
    requires SameRowsExcept(delta', delta, q[0]) && RowIs(delta', q[0], ALPHA, r.goal[q[0]])
    requires FailsSet(fail', fail, r, q[0], ALPHA)
    ensures Explored(delta', fail', outs[q[0] := r.res[q[0]]], q[1..] + Children(go[q[0]], ALPHA), done + {q[0]}, r)
  {
    var s, q', done' := q[0], q[1..] + Children(go[q[0]], ALPHA), done + {q[0]};
    forall t | t in q' ensures 0 < t < |fail'| && fail'[t] == r.link[t] {
      ChildrenExact(go, own, r, s, ALPHA, t);
      assert t in q || IsChild(r, s, ALPHA, t);
    }
    forall t | t in done' ensures t < |r.goal| && RowIs(delta', t, ALPHA, r.goal[t]) {
      if t != s {
        RowKept(delta', delta, s, t, r.goal[t]);
      }
    }
  }

  ghost function Below(n: nat): set<nat> {
    if n == 0 then {} else Below(n - 1) + {n - 1}
  }

  lemma {:induction false} InBelow(n: nat, s: nat)
    ensures s in Below(n) <==> s < n
  {
    if n > 0 {
      InBelow(n - 1, s);
    }
  }

  /** The breadth-first pass: the flat transition table and the merged outputs of every state. */
  method Complete(go: seq<seq<int>>, own: seq<seq<nat>>, ghost r: Reference)
    returns (delta: seq<nat>, outs: seq<seq<nat>>)
    requires Laws(go, own, r)
    ensures |delta| == |go| * ALPHA && outs == r.res
    ensures forall s | 0 <= s < |go| :: RowIs(delta, s, ALPHA, r.goal[s])
  {
    var n := |go|;
    var fail, q;
    delta, fail, q := ExpandRoot(go, seq(n * ALPHA, i => 0), seq(n, i => 0), own, r);
    outs := seq(n, i => [])[0 := own[0]];
    assert StateLaw(go, own, r, 0);
    ghost var done := {0};
    StartQueue(go, own, r);
    StartExplored(go, own, delta, fail, outs, r);
    InBelow(n, 0);
    while q != []
      invariant Frontier(q, done, r) && Reached(q, done, r) && Explored(delta, fail, outs, q, done, r)
      invariant done <= Below(n)
      decreases Below(n) - done
    {
      var s := q[0];
      PopReady(go, own, delta, fail, outs, q, done, r);
      AdvanceFrontier(go, own, q, done, r);
      AdvanceReached(go, own, q, done, r);
      InBelow(n, s);
      ghost var delta0, fail0, outs0, q0 := delta, fail, outs, q;
      outs := outs[s := own[s] + outs[fail[s]]];
      delta, fail, q := ExpandRow(go, s, delta, fail, q[1..], own, r);
      ExploredStep(go, own, delta0, fail0, outs0, q0, done, delta, fail, r);
      done := done + {s};
    }
    forall s: nat | s < n ensures s in done {
      if s !in done {
        Unexplored(go, own, q, done, r, s);
      }
    }
    assert forall s | 0 <= s < n :: s in done && outs[s] == r.res[s];
  }

  lemma {:induction false} StartExplored(go: seq<seq<int>>, own: seq<seq<nat>>, delta: seq<nat>, fail: seq<nat>,
                                         outs: seq<seq<nat>>, r: Reference)
    requires Laws(go, own, r) && |delta| == |go| * ALPHA && |outs| == |go| && outs[0] == own[0]
    requires RowIs(delta, 0, ALPHA, r.goal[0]) && FailsSet(fail, seq(|go|, i => 0), r, 0, ALPHA)
    ensures Explored(delta, fail, outs, Children(go[0], ALPHA), {0}, r)
  {
    assert StateLaw(go, own, r, 0);
    forall t | t in Children(go[0], ALPHA) ensures 0 < t < |fail| && fail[t] == r.link[t] {
      ChildrenExact(go, own, r, 0, ALPHA, t);
    }
  }
}
