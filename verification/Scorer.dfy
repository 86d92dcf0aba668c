/**
 The rule scorer's matching engine: normalise the rule phrases, compile them, and scan
 a text in one pass over its characters.
 */
module Scoring {
  import opened Ascii
  import opened ScorerText
  import opened PatternMatch
  import opened AhoCorasick
  import opened TrieBfs

  // ---- normalisation ----

  /** Characters of a normalised pattern: letters, digits and blanks, no two blanks in a row. */
  ghost predicate Normal(n: string) {
    && n != [] && n[0] == ' '
    && (forall i :: 0 <= i < |n| ==> (ClassOf(n[i]) == SEP <==> n[i] == ' '))
    && (forall i :: 0 < i < |n| ==> n[i] != ' ' || n[i - 1] != ' ')
  }

  lemma {:induction false} SymsFront(n: string)
    requires n != []
    ensures Syms(n[..|n| - 1]) == Syms(n)[..|n| - 1]
  {
  }

  /** Closing or opening the folded phrase gives the pattern. */
  lemma {:induction false} PatternFromFold(phrase: string, p: string, w: Word)
    requires p == if IsStarRule(phrase) then phrase[..|phrase| - 1] else phrase
    requires w != [] && Close(w) == Join(Words(p))
    requires w == [SEP] || w[|w| - 1] != SEP || w[|w| - 2] != SEP
    ensures !IsStarRule(phrase) ==> Pattern(phrase) == Close(w)
    ensures IsStarRule(phrase) && |w| > 1 && w[|w| - 1] == SEP ==> Pattern(phrase) == w[..|w| - 1] && w[|w| - 2] != SEP
    ensures IsStarRule(phrase) && !(|w| > 1 && w[|w| - 1] == SEP) ==> Pattern(phrase) == w
  {
    PhraseWordsProper(phrase);
    JoinEnds(Words(p));
  }

  /** The fold of a phrase: blanks collapsed, letters lowered, one blank in front. */
  method Fold(p: string) returns (n: string)
    ensures Normal(n) && Close(Syms(n)) == Join(Words(p))
  {
    n := " ";
    assert Syms(n) == [SEP];
    for i := 0 to |p|
      invariant Normal(n)
      invariant Close(FoldText(Syms(n), p[i..])) == Close(FoldText([SEP], p))
    {
      var c := p[i];
      assert p[i..][0] == c && p[i..][1..] == p[i + 1..];
      FoldStep(Syms(n), p[i..]);
      NormalStep(n, c, p[i + 1..]);
      assert Syms(n)[|n| - 1] == SEP <==> n[|n| - 1] == ' ';
      hide Normal;
      if ClassOf(c) != SEP {
        n := n + [ToLower(c)];
      } else if n[|n| - 1] != ' ' {
        n := n + " ";
      }
    }
    StreamIsJoin(p);
    assert p[|p|..] == [];
  }

  /** Normalises one phrase exactly as the rule compiler does. */
  method Normalize(phrase: string) returns (n: string)
    ensures Normal(n) && Syms(n) == Pattern(phrase)
  {
    var p, prefix := phrase, false;
    if p != [] && p[|p| - 1] == '*' {
      prefix := true;
      p := p[..|p| - 1];
    }
    n := Fold(p);
    NormalSyms(n);
    PatternFromFold(phrase, p, Syms(n));
    if !prefix && n[|n| - 1] != ' ' {
      NormalStep(n, ' ', "");
      n := n + " ";
    }
    if prefix {
      n := DropBlanks(n);
    }
  }

  lemma {:induction false} NormalSyms(n: string)
    requires Normal(n)
    ensures Syms(n) == [SEP] || Syms(n)[|n| - 1] != SEP || Syms(n)[|n| - 2] != SEP
    ensures Syms(n)[|n| - 1] == SEP <==> n[|n| - 1] == ' '
  {
  }

  /** A '*' pattern stays open at its end; the leading blank is kept. */
  method DropBlanks(m: string) returns (n: string)
    requires Normal(m)
    ensures Normal(n)
    ensures |m| > 1 && m[|m| - 1] == ' ' ==> Syms(n) == Syms(m)[..|m| - 1]
    ensures !(|m| > 1 && m[|m| - 1] == ' ') ==> n == m
  {
    n := m;
    while |n| > 1 && n[|n| - 1] == ' '
      invariant Normal(n)
      invariant n == m || (|m| > 1 && m[|m| - 1] == ' ' && n == m[..|m| - 1])
    {
      n := n[..|n| - 1];
    }
    SymsFront(m);
  }

  /** The state after one more symbol. */
  lemma {:induction false} StepState(delta: seq<nat>, s: nat, c: Sym, w: Word,
                                     str: seq<Word>, node: map<Word, nat>, pats: seq<Word>)
    requires NodesAre(node, pats) && s < |str| && str[s] == Longest(pats, w)
    requires RowIs(delta, s, ALPHA, GoalRow(str[s], node, pats))
    ensures delta[s * ALPHA + c] == StateOf(w + [c], node, pats)
  {
    LongestStep(pats, w, c);
    assert delta[s * ALPHA + c] == At(delta, s, c);
  }

  lemma {:induction false} PatternsAppend(phrases: seq<string>, i: nat)
    requires i < |phrases|
    ensures Patterns(phrases[..i + 1]) == Patterns(phrases[..i]) + [Pattern(phrases[i])]
  {
  }

  method NormalizeAll(phrases: seq<string>) returns (norm: seq<string>, pats: seq<Word>)
    ensures |norm| == |phrases| && pats == Patterns(phrases)
    ensures forall i :: 0 <= i < |norm| ==> Syms(norm[i]) == Pattern(phrases[i])
  {
    norm, pats := [], [];
    for i := 0 to |phrases|
      invariant pats == Patterns(phrases[..i]) && |norm| == i
      invariant forall k :: 0 <= k < i ==> Syms(norm[k]) == Pattern(phrases[k])
    {
      var n := Normalize(phrases[i]);
      norm := norm + [n];
      pats := pats + [Syms(n)];
      PatternsAppend(phrases, i);
    }
    assert phrases[..|phrases|] == phrases;
  }

  /** Trie, breadth-first pass and flat output lists; the tables only when the states fit 16 bits. */
  method Build(pats: seq<Word>)
    returns (n: nat, delta: seq<nat>, outBegin: seq<nat>, outIds: seq<nat>,
             ghost str: seq<Word>, ghost node: map<Word, nat>)
    ensures n == |str| == |TriePrefixes(pats)| && Numbers(str, node) && NodesAre(node, pats)
    ensures n < 65535 ==> Tables(delta, outBegin, outIds, n, str, node, pats)
  {
    var go, own;
    go, own, str, node := BuildTrie(pats);
    StatesArePrefixes(go, str, node, pats);
    n, delta, outBegin, outIds := |go|, [], [], [];
    if n < 65535 {
      WordsHaveLaws(go, own, str, node, pats);
      ghost var r := WordReference(str, node, pats);
      var outs;
      delta, outs := Complete(go, own, r);
      outBegin, outIds := Flatten(outs);
      forall s | 0 <= s < n ensures RowIs(delta, s, ALPHA, GoalRow(str[s], node, pats)) {
        assert RowIs(delta, s, ALPHA, r.goal[s]);
      }
      forall s | 0 <= s < n ensures OutputsAt(outBegin, outIds, s, Matches(pats, str[s])) {
        assert OutputsAt(outBegin, outIds, s, outs[s]);
      }
    }
  }

  class Scorer {
    var rules: seq<string>     // the phrases of the rule file
    var norm: seq<string>
    var delta: seq<nat>        // nStates * ALPHA
    var outBegin: seq<nat>     // per state, into outIds
    var outIds: seq<nat>
    var nStates: nat

    ghost var compiled: seq<string>    // the phrases the tables were built from
    ghost var str: seq<Word>
    ghost var node: map<Word, nat>

    ghost predicate Valid()
      reads this
    {
      nStates == 0 || Tables(delta, outBegin, outIds, nStates, str, node, Patterns(compiled))
    }

    constructor ()
      ensures Valid() && nStates == 0
    {
      rules, norm, delta, outBegin, outIds, nStates := [], [], [], [], [], 0;
      compiled, str, node := [], [], map[];
    }

    /** Compiles the rules; refuses sets whose ids or states do not fit 16 bits. */
    method Load(phrases: seq<string>) returns (ok: bool)
      requires Valid()
      modifies this
      ensures Valid() && rules == phrases
      ensures ok <==> |phrases| < 65535 && |TriePrefixes(Patterns(phrases))| < 65535
      ensures ok ==> compiled == phrases && nStates == |TriePrefixes(Patterns(phrases))| > 0
      ensures ok ==> |norm| == |phrases| && forall i :: 0 <= i < |norm| ==> Syms(norm[i]) == Pattern(phrases[i])
      ensures !ok ==> compiled == old(compiled) && nStates == old(nStates)
    {
      hide Tables, NodesAre, Numbers, TriePrefixes, Patterns, Pattern, Syms;
      rules := phrases;
      if |rules| >= 65535 {
        return false;
      }
      var pats;
      norm, pats := NormalizeAll(phrases);
      var n, d, ob, oi;
      ghost var str', node';
      n, d, ob, oi, str', node' := Build(pats);
      if n >= 65535 {
        return false;
      }
      delta, outBegin, outIds, nStates := d, ob, oi, n;
      compiled, str, node := phrases, str', node';
      ok := true;
    }

    /**
     Reports, in order, every pattern ending at each symbol of the folded stream; so a rule
     is reported iff its words stand in the text.
     */
    method Scan(text: string) returns (hits: seq<nat>)
      requires Valid()
      ensures nStates == 0 ==> hits == []
      ensures nStates != 0 ==> hits == Hits(Patterns(compiled), Join(Words(text)))
      ensures nStates != 0 ==>
                forall id :: 0 <= id < |compiled| ==> (id in hits <==> Holds(compiled[id], text))
    {
      if nStates == 0 {
        return [];
      }
      ghost var pats := Patterns(compiled);
      ghost var w: Word := [SEP];
      TableStep(delta, outBegin, outIds, nStates, 0, SEP, [], str, node, pats);
      assert [] + [SEP] == [SEP];
      var s: nat := delta[0];
      var prevSep := true;
      hits := [];
      for i := 0 to |text|
        invariant w != [] && prevSep == EndsInSep(w)
        invariant Close(FoldText(w, text[i..])) == Close(FoldText([SEP], text))
        invariant s < nStates && str[s] == Longest(pats, w)
        invariant hits == Hits(pats, w)
      {
        var c := ClassOf(text[i]);
        assert text[i..][0] == text[i] && text[i..][1..] == text[i + 1..];
        FoldStep(w, text[i..]);
        HitsStep(pats, w, c);
        LastOf(w, c);
        if c == SEP && prevSep {
          continue;
        }
        prevSep := c == SEP;
        s, hits := Advance(s, c, hits, w);
        w := w + [c];
      }
      StreamEnd(w, text[|text|..]);
      if !prevSep {
        HitsStep(pats, w, SEP);
        LastOf(w, SEP);
        s, hits := Advance(s, SEP, hits, w);
        w := w + [SEP];
      }
      StreamIsJoin(text);
      forall id | 0 <= id < |compiled| ensures id in hits <==> Holds(compiled[id], text) {
        RuleFires(compiled, text, id);
      }
    }

    /** One table lookup and the state's output list. */
    method Advance(s0: nat, c: Sym, hits0: seq<nat>, ghost w: Word) returns (s: nat, hits: seq<nat>)
      requires Valid() && nStates != 0 && w != []
      requires s0 < nStates && str[s0] == Longest(Patterns(compiled), w)
      ensures s < nStates && str[s] == Longest(Patterns(compiled), w + [c])
      ensures hits == hits0 + Matches(Patterns(compiled), w + [c])
    {
      TableStep(delta, outBegin, outIds, nStates, s0, c, w, str, node, Patterns(compiled));
      s := delta[s0 * ALPHA + c];
      hits := Emit(outBegin, outIds, s, hits0, Matches(Patterns(compiled), w + [c]));
    }
  }

  /** Appends the state's ids, if it has any. */
  method Emit(outBegin: seq<nat>, outIds: seq<nat>, s: nat, hits0: seq<nat>, ghost list: seq<nat>)
    returns (hits: seq<nat>)
    requires OutputsAt(outBegin, outIds, s, list)
    ensures hits == hits0 + list
  {
    hits := hits0;
    if outBegin[s] != outBegin[s + 1] {
      for k := outBegin[s] to outBegin[s + 1]
        invariant hits == hits0 + outIds[outBegin[s]..k]
      {
        hits := hits + [outIds[k]];
      }
    }
  }

  /** The tables follow the stream: the next state is the longest suffix again, its list the matches. */
  lemma {:induction false} TableStep(delta: seq<nat>, outBegin: seq<nat>, outIds: seq<nat>, n: nat,
                                     s: nat, c: Sym, w: Word, str: seq<Word>, node: map<Word, nat>, pats: seq<Word>)
    requires Tables(delta, outBegin, outIds, n, str, node, pats)
    requires s < n && str[s] == Longest(pats, w)
    ensures s * ALPHA + c < |delta| && delta[s * ALPHA + c] < n
    ensures str[delta[s * ALPHA + c]] == Longest(pats, w + [c])
    ensures OutputsAt(outBegin, outIds, delta[s * ALPHA + c], Matches(pats, w + [c]))
  {
    assert RowIs(delta, s, ALPHA, GoalRow(str[s], node, pats));
    StepState(delta, s, c, w, str, node, pats);
    MatchesOfState(pats, w + [c]);
  }

  ghost predicate EndsInSep(w: Word) {
    w != [] && w[|w| - 1] == SEP
  }

  lemma {:induction false} LastOf(w: Word, c: Sym)
    ensures EndsInSep(w + [c]) <==> c == SEP
  {
  }

  lemma {:induction false} StreamEnd(w: Word, rest: string)
    requires w != [] && rest == []
    ensures Close(FoldText(w, rest)) == if w[|w| - 1] == SEP then w else w + [SEP]
  {
  }

  lemma {:induction false} HitsStep(pats: seq<Word>, w: Word, c: Sym)
    requires w != []
    ensures Hits(pats, w + [c]) == Hits(pats, w) + Matches(pats, w + [c])
  {
    assert (w + [c])[..|w|] == w;
  }

  /** One step of the normaliser keeps the pattern well formed and the folded stream. */
  lemma {:induction false} NormalStep(n: string, c: char, rest: string)
    requires Normal(n)
    ensures ClassOf(c) != SEP ==> Normal(n + [ToLower(c)]) && Syms(n + [ToLower(c)]) == Syms(n) + [ClassOf(c)]
    ensures n[|n| - 1] != ' ' ==> Normal(n + " ") && Syms(n + " ") == Syms(n) + [SEP]
  {
    SymsAppend(n, ToLower(c));
    SymsAppend(n, ' ');
  }

  lemma {:induction false} FoldStep(w: Word, text: string)
    requires w != [] && text != []
    ensures ClassOf(text[0]) == SEP && w[|w| - 1] == SEP ==> FoldText(w, text) == FoldText(w, text[1..])
    ensures !(ClassOf(text[0]) == SEP && w[|w| - 1] == SEP) ==>
              FoldText(w, text) == FoldText(w + [ClassOf(text[0])], text[1..])
  {
  }

  /** The flat output table holds `list` for state `s`. */
  ghost predicate OutputsAt(outBegin: seq<nat>, outIds: seq<nat>, s: nat, list: seq<nat>) {
    s + 1 < |outBegin| && outBegin[s] <= outBegin[s + 1] <= |outIds| && outIds[outBegin[s]..outBegin[s + 1]] == list
  }

  /** `str` names each state once, and `node` finds it back. */
  ghost predicate Numbers(str: seq<Word>, node: map<Word, nat>) {
    && (forall s :: 0 <= s < |str| ==> str[s] in node && node[str[s]] == s)
    && (forall u :: u in node ==> node[u] < |str| && str[node[u]] == u)
  }

  ghost predicate Tables(delta: seq<nat>, outBegin: seq<nat>, outIds: seq<nat>, n: nat,
                         str: seq<Word>, node: map<Word, nat>, pats: seq<Word>) {
    && n == |str| && 0 < n && str[0] == [] && NodesAre(node, pats)
    && (forall u :: u in node ==> node[u] < |str| && str[node[u]] == u)
    && (forall s | 0 <= s < n :: RowIs(delta, s, ALPHA, GoalRow(str[s], node, pats)))
    && (forall s | 0 <= s < n :: OutputsAt(outBegin, outIds, s, Matches(pats, str[s])))
  }

  /** Lays the output lists end to end. */
  method Flatten(outs: seq<seq<nat>>) returns (outBegin: seq<nat>, outIds: seq<nat>)
    ensures |outBegin| == |outs| + 1
    ensures forall s | 0 <= s < |outs| :: OutputsAt(outBegin, outIds, s, outs[s])
  {
    outBegin, outIds := [], [];
    for s := 0 to |outs|
      invariant |outBegin| == s
      invariant forall t | 0 <= t < s :: outBegin[t] <= |outIds|
      invariant forall t | 0 <= t < s :: OutputsAt(outBegin + [|outIds|], outIds, t, outs[t])
    {
      ghost var ob, oi := outBegin + [|outIds|], outIds;
      outBegin := outBegin + [|outIds|];
      outIds := outIds + outs[s];
      forall t | 0 <= t <= s ensures OutputsAt(outBegin + [|outIds|], outIds, t, outs[t]) {
        if t < s {
          assert OutputsAt(ob, oi, t, outs[t]);
        }
      }
    }
    outBegin := outBegin + [|outIds|];
  }
}
