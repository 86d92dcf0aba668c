/**
 Compiling the patterns: the trie, and the proof that the pass of TrieBfs turns it into the
 DFA whose state is always the longest suffix of the input that is a prefix of a pattern.
 */
module AhoCorasick {
  import opened ScorerText
  import opened PatternMatch
  import opened TrieBfs

  // ---- specification: states are the prefixes of patterns ----

  ghost predicate IsTriePrefix(pats: seq<Word>, u: Word) {
    u == [] || exists id :: 0 <= id < |pats| && u <= pats[id]
  }

  /** The longest suffix of `w` that is a prefix of a pattern: the state after reading `w`. */
  ghost function Longest(pats: seq<Word>, w: Word): (r: Word)
    ensures IsTriePrefix(pats, r) && |r| <= |w|
    decreases |w|
  {
    if IsTriePrefix(pats, w) then w else Longest(pats, w[1..])
  }

  /** It is a suffix, and no other pattern prefix that is a suffix is longer. */
  lemma {:induction false} LongestIsLongest(pats: seq<Word>, w: Word)
    ensures IsSuffix(Longest(pats, w), w)
    ensures forall u :: IsSuffix(u, w) && IsTriePrefix(pats, u) ==> |u| <= |Longest(pats, w)|
    decreases |w|
  {
    if !IsTriePrefix(pats, w) {
      LongestIsLongest(pats, w[1..]);
      forall u ensures IsSuffix(u, w) <==> u == w || IsSuffix(u, w[1..]) {
        SuffixStep(u, w);
      }
    }
  }

  lemma {:induction false} PrefixClosed(pats: seq<Word>, u: Word, c: Sym)
    requires IsTriePrefix(pats, u + [c])
    ensures IsTriePrefix(pats, u)
  {
    var id :| 0 <= id < |pats| && u + [c] <= pats[id];
    assert u <= pats[id];
  }

  /** Reading one more symbol only depends on the state, not on the stream behind it. */
  lemma {:induction false} LongestStep(pats: seq<Word>, w: Word, c: Sym)
    ensures Longest(pats, w + [c]) == Longest(pats, Longest(pats, w) + [c])
    decreases |w|
  {
    if !IsTriePrefix(pats, w) {
      if IsTriePrefix(pats, w + [c]) {
        PrefixClosed(pats, w, c);
      }
      assert (w + [c])[1..] == w[1..] + [c];
      LongestStep(pats, w[1..], c);
    }
  }

  /** No longer suffix is a pattern, so the state alone determines the matches. */
  lemma {:induction false} MatchesOfState(pats: seq<Word>, w: Word)
    ensures Matches(pats, w) == Matches(pats, Longest(pats, w))
    decreases |w|
  {
    if !IsTriePrefix(pats, w) {
      IdsOfUnknown(pats, w);
      MatchesOfState(pats, w[1..]);
    }
  }

  // ---- the trie ----

  /** Rows of `go`: child state or -1. `str` names every state, `node` finds it back. */
  ghost predicate IsTrie(go: seq<seq<int>>, str: seq<Word>, node: map<Word, nat>) {
    && |go| == |str| && 0 < |str| && str[0] == []
    && (forall s :: 0 <= s < |str| ==> str[s] in node && node[str[s]] == s)
    && (forall u :: u in node ==> node[u] < |str| && str[node[u]] == u)
    && (forall s {:trigger go[s]} :: 0 <= s < |go| ==> IsRow(go[s], str[s], node))
  }

  ghost predicate IsRow(row: seq<int>, u: Word, node: map<Word, nat>) {
    |row| == ALPHA && forall c: Sym {:trigger row[c]} :: row[c] == if u + [c] in node then node[u + [c]] else -1
  }

  ghost predicate NodesAre(node: map<Word, nat>, pats: seq<Word>) {
    forall u :: u in node <==> IsTriePrefix(pats, u)
  }

  /** The states that the patterns call for: each distinct prefix of a pattern, once. */
  function TriePrefixes(pats: seq<Word>): set<Word> {
    if pats == [] then {[]}
    else
      var p := pats[|pats| - 1];
      TriePrefixes(pats[..|pats| - 1]) + set k | 0 <= k <= |p| :: p[..k]
  }

  lemma {:induction false} InTriePrefixes(pats: seq<Word>, u: Word)
    ensures u in TriePrefixes(pats) <==> IsTriePrefix(pats, u)
  {
    if pats != [] {
      var n := |pats| - 1;
      InTriePrefixes(pats[..n], u);
      if u <= pats[n] {
        assert u == pats[n][..|u|];
      }
      if IsTriePrefix(pats[..n], u) && u != [] {
        var id :| 0 <= id < n && u <= pats[..n][id];
        assert u <= pats[id];
      }
      if IsTriePrefix(pats, u) && u != [] {
        var id :| 0 <= id < |pats| && u <= pats[id];
        assert id < n ==> u <= pats[..n][id];
      }
    }
  }

  lemma {:induction false} DistinctCount(str: seq<Word>, keys: set<Word>)
    requires forall i, j :: 0 <= i < j < |str| ==> str[i] != str[j]
    requires forall u :: u in keys <==> u in str
    ensures |keys| == |str|
    decreases |str|
  {
    if str == [] {
      assert keys == {};
    } else {
      var u := str[|str| - 1];
      assert u in keys;
      DistinctCount(str[..|str| - 1], keys - {u});
    }
  }

  /** A trie of the patterns has one state for each distinct prefix. */
  lemma {:induction false} StatesArePrefixes(go: seq<seq<int>>, str: seq<Word>, node: map<Word, nat>, pats: seq<Word>)
    requires IsTrie(go, str, node) && NodesAre(node, pats)
    ensures |str| == |TriePrefixes(pats)|
  {
    forall u ensures u in TriePrefixes(pats) <==> u in str {
      InTriePrefixes(pats, u);
      if u in node {
        assert str[node[u]] == u;
      }
    }
    DistinctCount(str, TriePrefixes(pats));
  }

  /** While pattern `p` is being inserted, its first `k` symbols are in the trie as well. */
  ghost predicate NodesDuring(node: map<Word, nat>, pats: seq<Word>, p: Word, k: nat)
    requires k <= |p|
  {
    forall u :: u in node <==> IsTriePrefix(pats, u) || u <= p[..k]
  }

  ghost predicate IsOwn(own: seq<seq<nat>>, str: seq<Word>, pats: seq<Word>) {
    |own| == |str| && forall s :: 0 <= s < |str| ==> own[s] == Ids(pats, str[s])
  }

  lemma {:induction false} IdsOfUnknown(pats: seq<Word>, u: Word)
    ensures Ids(pats, u) != [] ==> IsTriePrefix(pats, u)
  {
    if Ids(pats, u) != [] {
      IdsAreEqual(pats, u, Ids(pats, u)[0]);
      assert u <= pats[Ids(pats, u)[0]];
    }
  }

  /** One new state below `s`. */
  lemma {:induction false} GrowTrie(go: seq<seq<int>>, str: seq<Word>, node: map<Word, nat>, s: nat, c: Sym)
    requires IsTrie(go, str, node) && s < |go| && str[s] + [c] !in node
    requires forall u: Word, d: Sym :: u + [d] in node ==> u in node
    ensures IsTrie(go[s := go[s][c := |go|]] + [seq(ALPHA, i => -1)], str + [str[s] + [c]], node[str[s] + [c] := |go|])
  {
    var u, n := str[s] + [c], |go|;
    var go', str', node' := go[s := go[s][c := n]] + [seq(ALPHA, i => -1)], str + [u], node[u := n];
    forall t | 0 <= t <= n ensures IsRow(go'[t], str'[t], node') {
      forall d: Sym ensures go'[t][d] == if str'[t] + [d] in node' then node'[str'[t] + [d]] else -1 {
        if t < n && str[t] + [d] == u {
          assert d == (str[t] + [d])[|str[t]|] == u[|str[s]|] == c;
          assert str[t] == (str[t] + [d])[..|str[t]|] == u[..|str[s]|] == str[s];
        }
        if t == n {
          assert u + [d] != u;
        }
      }
    }
  }

  /** Inserts the pattern's symbols from the root, then records its id at the last state. */
  method Insert(go0: seq<seq<int>>, own0: seq<seq<nat>>, p: Word, id: nat, ghost pats: seq<Word>,
                ghost str0: seq<Word>, ghost node0: map<Word, nat>)
    returns (go: seq<seq<int>>, own: seq<seq<nat>>, ghost str: seq<Word>, ghost node: map<Word, nat>)
    requires id == |pats| && IsTrie(go0, str0, node0) && NodesAre(node0, pats) && IsOwn(own0, str0, pats)
    ensures IsTrie(go, str, node) && NodesAre(node, pats + [p]) && IsOwn(own, str, pats + [p])
  {
    go, own, str, node := go0, own0, str0, node0;
    var s: nat := 0;
    for k := 0 to |p|
      invariant IsTrie(go, str, node) && NodesDuring(node, pats, p, k) && IsOwn(own, str, pats)
      invariant s < |go| && str[s] == p[..k]
    {
      var c := p[k];
      assert p[..k + 1] == p[..k] + [c];
      assert IsRow(go[s], str[s], node);
      NodesClosed(node, pats, p, k);
      if go[s][c] < 0 {
        GrowTrie(go, str, node, s, c);
        IdsOfUnknown(pats, str[s] + [c]);
        node, str, own, go := node[str[s] + [c] := |go|], str + [str[s] + [c]], own + [[]],
          go[s := go[s][c := |go|]] + [seq(ALPHA, i => -1)];
        assert IsRow(go[s], str[s], node);
      }
      NodesGrow(node, pats, p, k);
      s := go[s][c];
    }
    assert p[..|p|] == p;
    own := own[s := own[s] + [id]];
    forall t | 0 <= t < |str| ensures own[t] == Ids(pats + [p], str[t]) {
      assert (pats + [p])[..|pats|] == pats;
      assert str[t] == p ==> t == node[str[t]] == s;
    }
    NodesAfter(node, pats, p);
  }

  lemma {:induction false} NodesClosed(node: map<Word, nat>, pats: seq<Word>, p: Word, k: nat)
    requires k <= |p| && NodesDuring(node, pats, p, k)
    ensures forall u: Word, d: Sym :: u + [d] in node ==> u in node
  {
    forall u: Word, d: Sym | u + [d] in node ensures u in node {
      if IsTriePrefix(pats, u + [d]) {
        PrefixClosed(pats, u, d);
      }
    }
  }

  lemma {:induction false} NodesGrow(node: map<Word, nat>, pats: seq<Word>, p: Word, k: nat)
    requires k < |p| && p[..k + 1] in node
    requires forall u :: u in node <==> IsTriePrefix(pats, u) || u <= p[..k] || u == p[..k + 1]
    ensures NodesDuring(node, pats, p, k + 1)
  {
    forall u ensures u in node <==> IsTriePrefix(pats, u) || u <= p[..k + 1] {
      assert u <= p[..k + 1] <==> u <= p[..k] || u == p[..k + 1];
    }
  }

  lemma {:induction false} NodesAfter(node: map<Word, nat>, pats: seq<Word>, p: Word)
    requires NodesDuring(node, pats, p, |p|)
    ensures NodesAre(node, pats + [p])
  {
    var pats' := pats + [p];
    assert p[..|p|] == p;
    forall u ensures IsTriePrefix(pats', u) <==> IsTriePrefix(pats, u) || u <= p {
      if u <= p {
        assert u <= pats'[|pats|];
      }
      if IsTriePrefix(pats, u) && u != [] {
        var id :| 0 <= id < |pats| && u <= pats[id];
        assert u <= pats'[id];
      }
    }
  }

  /** The trie of all patterns, one `Insert` per rule. */
  method BuildTrie(pats: seq<Word>)
    returns (go: seq<seq<int>>, own: seq<seq<nat>>, ghost str: seq<Word>, ghost node: map<Word, nat>)
    ensures IsTrie(go, str, node) && NodesAre(node, pats) && IsOwn(own, str, pats)
  {
    go, own, str, node := [seq(ALPHA, i => -1)], [[]], [[]], map[[] := 0];
    for id := 0 to |pats|
      invariant IsTrie(go, str, node) && NodesAre(node, pats[..id]) && IsOwn(own, str, pats[..id])
    {
      assert pats[..id + 1] == pats[..id] + [pats[id]];
      go, own, str, node := Insert(go, own, pats[id], id, pats[..id], str, node);
    }
    assert pats[..|pats|] == pats;
  }

  // ---- what the tables of a trie have to be ----

  /** The state reached by reading `w` from the root. */
  ghost function StateOf(w: Word, node: map<Word, nat>, pats: seq<Word>): nat
    requires NodesAre(node, pats)
  {
    node[Longest(pats, w)]
  }

  function Front(u: Word): Word
    requires u != []
  {
    u[..|u| - 1]
  }

  function Last(u: Word): Sym
    requires u != []
  {
    u[|u| - 1]
  }

  ghost function LinkOf(u: Word, node: map<Word, nat>, pats: seq<Word>): nat
    requires NodesAre(node, pats)
  {
    if u == [] then 0 else StateOf(u[1..], node, pats)
  }

  ghost function GoalRow(u: Word, node: map<Word, nat>, pats: seq<Word>): (row: seq<nat>)
    requires NodesAre(node, pats)
    ensures |row| == ALPHA && forall c: Sym :: row[c] == StateOf(u + [c], node, pats)
  {
    seq(ALPHA, c requires 0 <= c < ALPHA => StateOf(u + [c as Sym], node, pats))
  }

  ghost function ParentOf(u: Word, node: map<Word, nat>): nat {
    if u != [] && Front(u) in node then node[Front(u)] else 0
  }

  /** The reference tables in terms of the words the states stand for. */
  ghost function WordReference(str: seq<Word>, node: map<Word, nat>, pats: seq<Word>): Reference
    requires NodesAre(node, pats)
  {
    Reference(seq(|str|, s requires 0 <= s < |str| => LinkOf(str[s], node, pats)),
              seq(|str|, s requires 0 <= s < |str| => GoalRow(str[s], node, pats)),
              seq(|str|, s requires 0 <= s < |str| => |str[s]|),
              seq(|str|, s requires 0 <= s < |str| => Matches(pats, str[s])),
              seq(|str|, s requires 0 <= s < |str| => ParentOf(str[s], node)),
              seq(|str|, s requires 0 <= s < |str| => if str[s] == [] then 0 else Last(str[s])))
  }

  lemma {:induction false} LongestSkip(pats: seq<Word>, w: Word)
    requires !IsTriePrefix(pats, w)
    ensures Longest(pats, w) == Longest(pats, w[1..])
  {
  }

  lemma {:induction false} DropAppend(u: Word, c: Sym)
    requires u != []
    ensures u[1..] + [c] == (u + [c])[1..]
  {
  }

  lemma {:induction false} Appended(v: Word, c: Sym)
    ensures v + [c] != [] && Front(v + [c]) == v && Last(v + [c]) == c && |v + [c]| == |v| + 1
  {
  }

  /** Below a non-root state the missing transition, and a child's failure link, go through the failure state. */
  lemma {:induction false} ThroughFailure(u: Word, c: Sym, pats: seq<Word>)
    requires u != []
    ensures Longest(pats, Longest(pats, u[1..]) + [c]) == Longest(pats, (u + [c])[1..])
    ensures !IsTriePrefix(pats, u + [c]) ==> Longest(pats, u + [c]) == Longest(pats, (u + [c])[1..])
  {
    DropAppend(u, c);
    LongestStep(pats, u[1..], c);
    if !IsTriePrefix(pats, u + [c]) {
      LongestSkip(pats, u + [c]);
    }
  }

  /** The root has no failure state: the missing transition and a child's link both lead to it. */
  lemma {:induction false} ThroughRoot(c: Sym, pats: seq<Word>)
    ensures ([] + [c])[1..] == [] && Longest(pats, []) == []
    ensures !IsTriePrefix(pats, [] + [c]) ==> Longest(pats, [] + [c]) == []
  {
    var w: Word := [] + [c];
    assert w[1..] == [];
    if !IsTriePrefix(pats, w) {
      LongestSkip(pats, w);
    }
  }

  lemma {:induction false} ViaIs(str: seq<Word>, node: map<Word, nat>, pats: seq<Word>, s: nat, c: Sym)
    requires NodesAre(node, pats) && s < |str| && str[s] in node && node[str[s]] == s
    requires [] in node && node[[]] == 0
    requires forall u :: u in node ==> node[u] < |str| && str[node[u]] == u
    ensures Via(WordReference(str, node, pats), s, c) == StateOf((str[s] + [c])[1..], node, pats)
  {
    var r := WordReference(str, node, pats);
    if s == 0 {
      ThroughRoot(c, pats);
      assert str[node[[]]] == [];
    } else {
      ThroughFailure(str[s], c, pats);
      var f := r.link[s];
      assert str[f] == Longest(pats, str[s][1..]);
      assert r.goal[f] == GoalRow(str[f], node, pats);
    }
  }

  lemma {:induction false} WordEdgeLaw(go: seq<seq<int>>, str: seq<Word>, node: map<Word, nat>, pats: seq<Word>, s: nat, c: Sym)
    requires IsTrie(go, str, node) && NodesAre(node, pats) && s < |go| && |go[s]| == ALPHA
    ensures EdgeLaw(go, WordReference(str, node, pats), s, c)
  {
    var r, u := WordReference(str, node, pats), str[s] + [c];
    assert IsRow(go[s], str[s], node);
    assert str[s] in node && str[0] in node;
    ViaIs(str, node, pats, s, c);
    Appended(str[s], c);
    assert r.goal[s] == GoalRow(str[s], node, pats);
    if u in node {
      var t := node[u];
      assert str[t] == u && t != 0;
      assert Longest(pats, u) == u;
    } else if str[s] == [] {
      ThroughRoot(c, pats);
    } else {
      ThroughFailure(str[s], c, pats);
    }
  }

  lemma {:induction false} FrontInTrie(u: Word, pats: seq<Word>)
    requires u != [] && IsTriePrefix(pats, u)
    ensures IsTriePrefix(pats, Front(u)) && Front(u) + [Last(u)] == u
  {
    PrefixClosed(pats, Front(u), Last(u));
  }

  lemma {:induction false} WordStateLaw(go: seq<seq<int>>, own: seq<seq<nat>>, str: seq<Word>,
                                        node: map<Word, nat>, pats: seq<Word>, s: nat)
    requires IsTrie(go, str, node) && NodesAre(node, pats) && IsOwn(own, str, pats) && s < |go|
    ensures StateLaw(go, own, WordReference(str, node, pats), s)
  {
    var r := WordReference(str, node, pats);
    assert str[s] in node && node[str[s]] == s && own[s] == Ids(pats, str[s]);
    assert r.res[s] == Matches(pats, str[s]);
    if s != 0 {
      var u := str[s];
      assert u != [] by { assert str[0] in node && node[str[0]] == 0; }
      MatchesOfState(pats, u[1..]);
      var f := r.link[s];
      assert str[f] == Longest(pats, u[1..]);
      FrontInTrie(u, pats);
      var p := r.parent[s];
      assert str[p] == Front(u);
      assert IsRow(go[p], str[p], node);
    }
  }

  /** The word tables obey the laws the breadth-first pass relies on. */
  lemma {:induction false} WordsHaveLaws(go: seq<seq<int>>, own: seq<seq<nat>>, str: seq<Word>,
                                         node: map<Word, nat>, pats: seq<Word>)
    requires IsTrie(go, str, node) && NodesAre(node, pats) && IsOwn(own, str, pats) && |go| <= 65536
    ensures Laws(go, own, WordReference(str, node, pats))
  {
    var r := WordReference(str, node, pats);
    forall s | 0 <= s < |go| ensures |go[s]| == ALPHA && |r.goal[s]| == ALPHA {
      assert IsRow(go[s], str[s], node);
      assert r.goal[s] == GoalRow(str[s], node, pats);
    }
    forall s, c | 0 <= s < |go| && 0 <= c < ALPHA ensures EdgeLaw(go, r, s, c) {
      WordEdgeLaw(go, str, node, pats, s, c);
    }
    forall s | 0 <= s < |go| ensures StateLaw(go, own, r, s) {
      WordStateLaw(go, own, str, node, pats, s);
    }
  }
}
