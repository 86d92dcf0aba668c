/**
 Naive multi-pattern search, the reference the automaton is measured against, and
 its meaning in words.
 */
module PatternMatch {
  import opened ScorerText
  import opened Sequences

  /** The ids of the patterns equal to `u`, ascending. */
  function Ids(pats: seq<Word>, u: Word): seq<nat> {
    if pats == [] then []
    else
      var n := |pats| - 1;
      Ids(pats[..n], u) + (if pats[n] == u then [n] else [])
  }

  /** Every pattern that ends at the end of `w`: longest first, then by id. */
  function Matches(pats: seq<Word>, w: Word): seq<nat>
    decreases |w|
  {
    Ids(pats, w) + (if w == [] then [] else Matches(pats, w[1..]))
  }

  /** What a scan reports for the stream `w`: the matches at each symbol after the first. */
  function Hits(pats: seq<Word>, w: Word): seq<nat>
    decreases |w|
  {
    if |w| <= 1 then [] else Hits(pats, w[..|w| - 1]) + Matches(pats, w)
  }

  function Patterns(phrases: seq<string>): seq<Word> {
    seq(|phrases|, i requires 0 <= i < |phrases| => Pattern(phrases[i]))
  }

  ghost predicate IsSuffix(u: Word, w: Word) {
    |u| <= |w| && w[|w| - |u|..] == u
  }

  // ---- Matches is suffix search ----

  lemma {:induction false} IdsAreEqual(pats: seq<Word>, u: Word, id: nat)
    ensures id in Ids(pats, u) <==> id < |pats| && pats[id] == u
  {
    if pats != [] {
      IdsAreEqual(pats[..|pats| - 1], u, id);
    }
  }

  lemma {:induction false} IdsAscend(pats: seq<Word>, u: Word)
    ensures Distinct(Ids(pats, u))
  {
    if pats != [] {
      var n := |pats| - 1;
      var s := Ids(pats[..n], u);
      IdsAscend(pats[..n], u);
      forall i | 0 <= i < |s| ensures s[i] < n {
        IdsAreEqual(pats[..n], u, s[i]);
      }
    }
  }

  lemma {:induction false} SuffixStep(u: Word, w: Word)
    requires w != []
    ensures IsSuffix(u, w) <==> u == w || IsSuffix(u, w[1..])
  {
    if |u| < |w| {
      assert w[1..][|w| - 1 - |u|..] == w[|w| - |u|..];
    }
  }

  /** At every position the reported ids are exactly the patterns ending there. */
  lemma {:induction false} MatchesAreSuffixes(pats: seq<Word>, w: Word, id: nat)
    ensures id in Matches(pats, w) <==> id < |pats| && IsSuffix(pats[id], w)
    decreases |w|
  {
    IdsAreEqual(pats, w, id);
    if w != [] {
      MatchesAreSuffixes(pats, w[1..], id);
      if id < |pats| {
        SuffixStep(pats[id], w);
      }
    }
  }

  /** No pattern is reported twice at one position. */
  lemma {:induction false} MatchesOnce(pats: seq<Word>, w: Word)
    ensures Distinct(Matches(pats, w))
    decreases |w|
  {
    IdsAscend(pats, w);
    if w != [] {
      MatchesOnce(pats, w[1..]);
      var a, b := Ids(pats, w), Matches(pats, w[1..]);
      forall i, j | 0 <= i < |a| && 0 <= j < |b| ensures a[i] != b[j] {
        assert a[i] in a && b[j] in b;
        IdsAreEqual(pats, w, a[i]);
        MatchesAreSuffixes(pats, w[1..], b[j]);
      }
    }
  }

  ghost predicate EndsAt(p: Word, w: Word, k: nat) {
    2 <= k <= |w| && IsSuffix(p, w[..k])
  }

  lemma {:induction false} EndsAtStep(p: Word, w: Word, k: nat)
    requires |w| > 1
    ensures EndsAt(p, w, k) <==> EndsAt(p, w[..|w| - 1], k) || (k == |w| && IsSuffix(p, w))
  {
    if k < |w| {
      assert w[..|w| - 1][..k] == w[..k];
    } else if k == |w| {
      assert w[..k] == w;
    }
  }

  lemma {:induction false} HitsArePositions(pats: seq<Word>, w: Word, id: nat)
    ensures id in Hits(pats, w) <==> id < |pats| && exists k: nat :: EndsAt(pats[id], w, k)
    decreases |w|
  {
    if |w| > 1 {
      var n := |w| - 1;
      HitsArePositions(pats, w[..n], id);
      MatchesAreSuffixes(pats, w, id);
      if id < |pats| {
        forall k: nat ensures EndsAt(pats[id], w, k) <==> EndsAt(pats[id], w[..n], k) || (k == |w| && IsSuffix(pats[id], w)) {
          EndsAtStep(pats[id], w, k);
        }
        assert IsSuffix(pats[id], w) ==> EndsAt(pats[id], w, |w|);
      }
    }
  }

  // ---- occurrences in the stream are runs of words ----

  ghost predicate OccursAt(p: Word, w: Word, j: nat) {
    j <= |w| && p <= w[j..]
  }

  lemma {:induction false} OccurrenceEnds(p: Word, w: Word, j: nat)
    requires |p| >= 2
    ensures OccursAt(p, w, j) <==> j + |p| <= |w| && IsSuffix(p, w[..j + |p|])
  {
    if j + |p| <= |w| {
      var v := w[..j + |p|];
      assert v[|v| - |p|..] == w[j..][..|p|];
    }
  }

  /** A pattern of at least two symbols is reported iff it occurs somewhere. */
  lemma {:induction false} HitsAreOccurrences(pats: seq<Word>, w: Word, id: nat)
    requires id < |pats| && |pats[id]| >= 2
    ensures id in Hits(pats, w) <==> exists j: nat :: OccursAt(pats[id], w, j)
  {
    var p := pats[id];
    HitsArePositions(pats, w, id);
    if k: nat :| EndsAt(p, w, k) {
      OccurrenceEnds(p, w, k - |p|);
      assert OccursAt(p, w, k - |p|);
    }
    if j: nat :| OccursAt(p, w, j) {
      OccurrenceEnds(p, w, j);
      assert EndsAt(p, w, j + |p|);
    }
  }

  lemma {:induction false} ShiftWordsAt(vs: seq<Word>, ws: seq<Word>, i: nat)
    requires i <= |ws|
    ensures vs <= ws[i..] <==> WordsAt(vs, ws, i)
    ensures PrefixWordsAt(vs, ws[i..], 0) <==> PrefixWordsAt(vs, ws, i)
  {
    if i + |vs| <= |ws| {
      assert ws[i..][..|vs|] == ws[i..i + |vs|];
      if vs != [] {
        assert ws[i..][0..|vs| - 1] == ws[i..i + |vs| - 1];
      }
    }
  }

  /** The pattern of a rule begins the stream of a suffix of the words iff the phrase stands there. */
  ghost predicate PhraseAt(phrase: string, ws: seq<Word>, i: nat) {
    if IsStarRule(phrase) then PrefixWordsAt(PhraseWords(phrase), ws, i) else WordsAt(PhraseWords(phrase), ws, i)
  }

  lemma {:induction false} PhraseWordsProper(phrase: string)
    ensures ProperWords(PhraseWords(phrase))
  {
    SplitProper(phrase, []);
    if IsStarRule(phrase) {
      SplitProper(phrase[..|phrase| - 1], []);
    }
  }

  lemma {:induction false} PatternAtWord(phrase: string, ws: seq<Word>, i: nat)
    requires ProperWords(ws) && i <= |ws| && PhraseWords(phrase) != []
    ensures Pattern(phrase) <= Join(ws[i..]) <==> PhraseAt(phrase, ws, i)
  {
    var vs := PhraseWords(phrase);
    PhraseWordsProper(phrase);
    ShiftWordsAt(vs, ws, i);
    if IsStarRule(phrase) {
      OpenJoinPrefix(vs, ws[i..]);
    } else {
      JoinPrefix(vs, ws[i..]);
    }
  }

  lemma {:induction false} PatternShape(phrase: string)
    ensures Pattern(phrase) != [] && Pattern(phrase)[0] == SEP
    ensures PhraseWords(phrase) == [] ==> Pattern(phrase) == [SEP]
    ensures PhraseWords(phrase) != [] ==> |Pattern(phrase)| >= 2
  {
    PhraseWordsProper(phrase);
    JoinEnds(PhraseWords(phrase));
  }

  lemma {:induction false} PatternOccurs(phrase: string, ws: seq<Word>)
    requires ProperWords(ws) && PhraseWords(phrase) != []
    ensures (exists j: nat :: OccursAt(Pattern(phrase), Join(ws), j)) <==> exists i: nat :: PhraseAt(phrase, ws, i)
  {
    var p := Pattern(phrase);
    PatternShape(phrase);
    if j: nat :| OccursAt(p, Join(ws), j) {
      assert Join(ws)[j..][0] == p[0];
      var i := SeparatorStartsSuffix(ws, j);
      PatternAtWord(phrase, ws, i);
      assert PhraseAt(phrase, ws, i);
    }
    if i: nat :| PhraseAt(phrase, ws, i) {
      var j := SuffixOfWords(ws, i);
      PatternAtWord(phrase, ws, i);
      assert OccursAt(p, Join(ws), j);
    }
  }

  /** A bare separator is reported as soon as the stream goes past its first symbol. */
  lemma {:induction false} BareSeparatorFires(pats: seq<Word>, ws: seq<Word>, id: nat)
    requires ProperWords(ws) && id < |pats| && pats[id] == [SEP]
    ensures id in Hits(pats, Join(ws)) <==> ws != []
  {
    var w := Join(ws);
    JoinEnds(ws);
    HitsArePositions(pats, w, id);
    assert w[..|w|] == w;
    assert ws != [] ==> EndsAt([SEP], w, |w|);
  }

  /** The words stand consecutively in the text, the last one only begun when the list is open. */
  ghost predicate Stand(open: bool, vs: seq<string>, ws: seq<string>, i: nat) {
    if open then PrefixWordsAt(vs, ws, i) else WordsAt(vs, ws, i)
  }

  ghost predicate AnywhereIn(open: bool, vs: seq<string>, ws: seq<string>) {
    if vs == [] then ws != [] else exists i: nat :: Stand(open, vs, ws, i)
  }

  /**
   When a rule counts as present in a text, in characters: its words stand there as consecutive
   whole words whatever their case, the last one only as the beginning of a word when the
   phrase ends in '*'. A phrase without any word asks for any word at all.
   */
  ghost predicate Holds(phrase: string, text: string) {
    var star := phrase != [] && phrase[|phrase| - 1] == '*';
    var vs, ws := TextWords(if star then phrase[..|phrase| - 1] else phrase), TextWords(text);
    AnywhereIn(star, vs, ws)
  }

  /** Main theorem about rules. Whatever else is loaded, a rule is reported for a text iff it holds of it. */
  lemma {:induction false} RuleFires(phrases: seq<string>, text: string, id: nat)
    requires id < |phrases|
    ensures id in Hits(Patterns(phrases), Join(Words(text))) <==> Holds(phrases[id], text)
  {
    var pats, ws, phrase := Patterns(phrases), Words(text), phrases[id];
    SplitProper(text, []);
    PatternShape(phrase);
    assert pats[id] == Pattern(phrase);
    HoldsInSymbols(phrase, text);
    hide Holds;
    if PhraseWords(phrase) == [] {
      BareSeparatorFires(pats, ws, id);
    } else {
      HitsAreOccurrences(pats, Join(ws), id);
      PatternOccurs(phrase, ws);
    }
  }

  /** The characters of phrase and text may be replaced by their symbols. */
  lemma {:induction false} HoldsInSymbols(phrase: string, text: string)
    ensures Holds(phrase, text) <==>
              if PhraseWords(phrase) == [] then Words(text) != [] else exists i: nat :: PhraseAt(phrase, Words(text), i)
  {
    var star := IsStarRule(phrase);
    var bare := if star then phrase[..|phrase| - 1] else phrase;
    var vs, ws := TextWords(bare), TextWords(text);
    assert Holds(phrase, text) <==> AnywhereIn(star, vs, ws);
    WordsRead(bare);
    WordsRead(text);
    assert PhraseWords(phrase) == SymsOf(vs) && (PhraseWords(phrase) == [] <==> vs == []);
    hide Words, TextWords, PhraseWords, WordsAt, PrefixWordsAt, SymsOf;
    forall i: nat ensures PhraseAt(phrase, Words(text), i) <==> Stand(star, vs, ws, i) {
      SymsStand(vs, ws, i);
    }
    if i: nat :| PhraseAt(phrase, Words(text), i) {
      assert Stand(star, vs, ws, i);
    }
    if i: nat :| Stand(star, vs, ws, i) {
      assert PhraseAt(phrase, Words(text), i);
    }
  }
}
