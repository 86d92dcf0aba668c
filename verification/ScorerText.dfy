/**
 The scorer's view of text: bytes are folded to a 37-symbol alphabet (0 is the
 separator, 1..10 the digits, 11..36 the letters), runs of separators collapse to
 one, and the stream fed to the automaton is  sep word sep word sep ... word sep.
 */
module ScorerText {
  import opened Ascii

  type Sym = x: nat | x < 37
  type Word = seq<Sym>

  const SEP: Sym := 0

  /** The class table: digits, then letters with case folded, everything else a separator. */
  function ClassOf(c: char): Sym {
    if '0' <= c <= '9' then 1 + (c as int - '0' as int)
    else if 'a' <= c <= 'z' then 11 + (c as int - 'a' as int)
    else if 'A' <= c <= 'Z' then 11 + (c as int - 'A' as int)
    else SEP
  }

  /** Exactly the ASCII letters and digits have a symbol of their own. */
  lemma {:induction false} SeparatorsAreOthers(c: char)
    ensures ClassOf(c) == SEP <==> !IsAlnum(c)
  {
  }

  /** Two characters share a symbol exactly when they are the same letter or digit up to case. */
  lemma {:induction false} SymbolsFoldCase(a: char, b: char)
    ensures ClassOf(a) == ClassOf(b) != SEP <==> IsAlnum(a) && IsAlnum(b) && ToLower(a) == ToLower(b)
  {
    var n := ToLower(b) as int;
    assert ToLower(a) == ToLower(b) <==> ToLower(a) as int == n;
  }

  function Syms(s: string): Word {
    seq(|s|, i requires 0 <= i < |s| => ClassOf(s[i]))
  }

  /** The maximal alphanumeric runs of `text`, when `cur` is the run already open to its left. */
  function Split(text: string, cur: Word): seq<Word> {
    if text == [] then (if cur == [] then [] else [cur])
    else if ClassOf(text[0]) != SEP then Split(text[1..], cur + [ClassOf(text[0])])
    else if cur == [] then Split(text[1..], [])
    else [cur] + Split(text[1..], [])
  }

  /** The words of a text: its alphanumeric runs, case-folded. */
  function Words(text: string): seq<Word> {
    Split(text, [])
  }

  // ---- the words as characters ----

  /** The runs of letters and digits of `text`, in small letters; `run` is open to its left. */
  function TextSplit(text: string, run: string): seq<string> {
    if text == [] then (if run == [] then [] else [run])
    else if IsAlnum(text[0]) then TextSplit(text[1..], run + [ToLower(text[0])])
    else if run == [] then TextSplit(text[1..], [])
    else [run] + TextSplit(text[1..], [])
  }

  function TextWords(text: string): seq<string> {
    TextSplit(text, [])
  }

  /** `text[a..b]` is a longest run of letters and digits. */
  ghost predicate IsRun(text: string, a: nat, b: nat) {
    && a < b <= |text|
    && (forall k :: a <= k < b ==> IsAlnum(text[k]))
    && (0 < a ==> !IsAlnum(text[a - 1]))
    && (b < |text| ==> !IsAlnum(text[b]))
  }

  /** From position `lo` on, the words are the runs: each at its place, in order, none left out. */
  ghost predicate AreRuns(text: string, lo: nat, words: seq<string>, at: seq<nat>) {
    && |at| == |words|
    && (forall i :: 0 <= i < |words| ==> IsRunAt(text, words[i], at[i]))
    && (forall i :: 0 <= i < |words| ==> lo <= at[i])
    && (forall i, j :: 0 <= i < j < |words| ==> at[i] + |words[i]| < at[j])
    && (forall a: nat, b: nat :: lo <= a && IsRun(text, a, b) ==> a in at)
  }

  ghost predicate IsRunAt(text: string, word: string, a: nat) {
    IsRun(text, a, a + |word|) && word == Lowered(text[a..a + |word|])
  }

  /** The words of a text are its longest runs of letters and digits, in small letters and in order. */
  lemma {:induction false} WordsAreRuns(text: string) returns (at: seq<nat>)
    ensures AreRuns(text, 0, TextWords(text), at)
  {
    at := RunsFrom(text, 0, 0);
    assert text[0..] == text && Lowered(text[0..0]) == [];
  }

  /** The same from position `k` on, inside a run that began at `a`. */
  lemma {:induction false} RunsFrom(text: string, a: nat, k: nat) returns (at: seq<nat>)
    requires a <= k <= |text|
    requires forall i :: a <= i < k ==> IsAlnum(text[i])
    requires 0 < a ==> !IsAlnum(text[a - 1])
    ensures AreRuns(text, a, TextSplit(text[k..], Lowered(text[a..k])), at)
    decreases |text| - k
  {
    hide IsAlnum, ToLower, AreRuns;
    var run := Lowered(text[a..k]);
    if k < |text| && IsAlnum(text[k]) {
      at := RunsFrom(text, a, k + 1);
      assert Lowered(text[a..k + 1]) == run + [ToLower(text[k])];
      assert text[k..][1..] == text[k + 1..];
    } else if k == |text| {
      at := if a < k then [a] else [];
      LastRun(text, a);
      assert text[a..] == text[a..k];
    } else {
      var rest := RunsFrom(text, k + 1, k + 1);
      at := if a < k then [a] + rest else rest;
      assert Lowered(text[k + 1..k + 1]) == [];
      assert text[k..][1..] == text[k + 1..];
      NextRuns(text, a, k, TextSplit(text[k + 1..], []), rest);
    }
  }

  lemma {:induction false} LastRun(text: string, a: nat)
    requires a <= |text| && forall i :: a <= i < |text| ==> IsAlnum(text[i])
    requires 0 < a ==> !IsAlnum(text[a - 1])
    ensures AreRuns(text, a, if a < |text| then [Lowered(text[a..])] else [], if a < |text| then [a] else [])
  {
    hide IsAlnum, ToLower;
    assert text[a..] == text[a..|text|];
  }

  lemma {:induction false} NextRuns(text: string, a: nat, k: nat, words: seq<string>, at: seq<nat>)
    requires a <= k < |text| && !IsAlnum(text[k])
    requires forall i :: a <= i < k ==> IsAlnum(text[i])
    requires 0 < a ==> !IsAlnum(text[a - 1])
    requires AreRuns(text, k + 1, words, at)
    ensures a < k ==> AreRuns(text, a, [Lowered(text[a..k])] + words, [a] + at)
    ensures a == k ==> AreRuns(text, a, words, at)
  {
    hide IsAlnum, Lowered, IsRunAt;
    forall b: nat, c: nat | a <= b && IsRun(text, b, c) ensures b == a < k || k + 1 <= b {
    }
    if a < k {
      FirstRun(text, a, k);
      hide IsRun;
      var words', at' := [Lowered(text[a..k])] + words, [a] + at;
      forall i, j | 0 <= i < j < |words'| ensures at'[i] + |words'[i]| < at'[j] {
        if i == 0 {
          assert at'[j] == at[j - 1];
        } else {
          assert at[i - 1] + |words[i - 1]| < at[j - 1];
        }
      }
      forall i | 0 <= i < |words'| ensures IsRunAt(text, words'[i], at'[i]) {
        assert i > 0 ==> IsRunAt(text, words[i - 1], at[i - 1]);
      }
    }
  }

  lemma {:induction false} FirstRun(text: string, a: nat, k: nat)
    requires a < k < |text| && !IsAlnum(text[k])
    requires forall i :: a <= i < k ==> IsAlnum(text[i])
    requires 0 < a ==> !IsAlnum(text[a - 1])
    ensures |Lowered(text[a..k])| == k - a && IsRunAt(text, Lowered(text[a..k]), a)
  {
    hide IsAlnum, ToLower;
    assert a + |Lowered(text[a..k])| == k;
  }

  function SymsOf(ws: seq<string>): seq<Word> {
    seq(|ws|, i requires 0 <= i < |ws| => Syms(ws[i]))
  }

  /** Small letters and digits. */
  ghost predicate Folded(s: string) {
    forall i :: 0 <= i < |s| ==> IsAlnum(s[i]) && ToLower(s[i]) == s[i]
  }

  lemma {:induction false} FoldedChar(c: char)
    ensures IsAlnum(c) ==> IsAlnum(ToLower(c)) && ToLower(ToLower(c)) == ToLower(c)
    ensures ClassOf(ToLower(c)) == ClassOf(c)
  {
    SeparatorsAreOthers(c);
    SeparatorsAreOthers(ToLower(c));
  }

  lemma {:induction false} SymsAppend(n: string, c: char)
    ensures Syms(n + [c]) == Syms(n) + [ClassOf(c)]
  {
  }

  /** Splitting into symbols is splitting into characters. */
  lemma {:induction false} SplitReads(text: string, run: string)
    requires Folded(run)
    ensures Split(text, Syms(run)) == SymsOf(TextSplit(text, run))
    ensures forall w :: w in TextSplit(text, run) ==> w != [] && Folded(w)
    decreases |text|
  {
    hide IsAlnum, ToLower, ClassOf;
    if text == [] {
    } else {
      var c, rest := text[0], text[1..];
      SeparatorsAreOthers(c);
      if IsAlnum(c) {
        FoldedChar(c);
        SymsAppend(run, ToLower(c));
        SplitReads(rest, run + [ToLower(c)]);
      } else {
        SplitReads(rest, []);
        assert Syms([]) == [];
        assert SymsOf([run] + TextSplit(rest, [])) == [Syms(run)] + SymsOf(TextSplit(rest, []));
      }
    }
  }

  lemma {:induction false} WordsRead(text: string)
    ensures Words(text) == SymsOf(TextWords(text))
    ensures forall w :: w in TextWords(text) ==> w != [] && Folded(w)
  {
    assert Syms([]) == [];
    SplitReads(text, []);
  }

  /** Small letters and digits are told apart by their symbols. */
  lemma {:induction false} SymsTellWords(u: string, w: string)
    requires Folded(u) && Folded(w)
    ensures Syms(u) <= Syms(w) <==> u <= w
    ensures Syms(u) == Syms(w) <==> u == w
  {
    hide IsAlnum, ToLower, ClassOf;
    forall i | 0 <= i < |u| && i < |w| ensures Syms(u)[i] == Syms(w)[i] <==> u[i] == w[i] {
      SymbolsFoldCase(u[i], w[i]);
      SeparatorsAreOthers(u[i]);
    }
  }

  ghost predicate ProperWord(w: Word) {
    w != [] && SEP !in w
  }

  ghost predicate ProperWords(ws: seq<Word>) {
    forall i :: 0 <= i < |ws| ==> ProperWord(ws[i])
  }

  /** sep w0 sep w1 sep ... sep: one separator around and between the words. */
  function Join(ws: seq<Word>): Word {
    if ws == [] then [SEP] else [SEP] + ws[0] + Join(ws[1..])
  }

  function IsStarRule(phrase: string): bool {
    phrase != [] && phrase[|phrase| - 1] == '*'
  }

  /** The words of a rule's phrase, a trailing '*' removed. */
  function PhraseWords(phrase: string): seq<Word> {
    Words(if IsStarRule(phrase) then phrase[..|phrase| - 1] else phrase)
  }

  /** The normalised pattern of a rule: its words between separators, left open at the end for '*'. */
  function Pattern(phrase: string): Word {
    var ws := PhraseWords(phrase);
    if IsStarRule(phrase) && ws != [] then OpenJoin(ws) else Join(ws)
  }

  /** A word occurrence: the words of `ws` stand consecutively in `text` from `i` on. */
  ghost predicate WordsAt<T>(ws: seq<seq<T>>, text: seq<seq<T>>, i: nat) {
    i + |ws| <= |text| && text[i..i + |ws|] == ws
  }

  /** The same with the last word only required to be a prefix of the word it meets. */
  ghost predicate PrefixWordsAt<T>(ws: seq<seq<T>>, text: seq<seq<T>>, i: nat) {
    0 < |ws| && i + |ws| <= |text|
    && text[i..i + |ws| - 1] == ws[..|ws| - 1]
    && ws[|ws| - 1] <= text[i + |ws| - 1]
  }

  /** Word lists stand within each other as symbols where they stand as characters. */
  lemma {:induction false} SymsStand(vs: seq<string>, ws: seq<string>, i: nat)
    requires forall w :: w in vs || w in ws ==> Folded(w)
    ensures WordsAt(SymsOf(vs), SymsOf(ws), i) <==> WordsAt(vs, ws, i)
    ensures PrefixWordsAt(SymsOf(vs), SymsOf(ws), i) <==> PrefixWordsAt(vs, ws, i)
  {
    hide Syms, Folded;
    if i + |vs| <= |ws| {
      var a, b := SymsOf(vs), SymsOf(ws);
      forall k | 0 <= k < |vs| ensures a[k] == b[i + k] <==> vs[k] == ws[i + k]
        ensures a[k] <= b[i + k] <==> vs[k] <= ws[i + k] {
        SymsTellWords(vs[k], ws[i + k]);
      }
      StandsByWord(a, b, i);
      StandsByWord(vs, ws, i);
    }
  }

  lemma {:induction false} StandsByWord<T>(vs: seq<seq<T>>, ws: seq<seq<T>>, i: nat)
    requires i + |vs| <= |ws|
    ensures WordsAt(vs, ws, i) <==> forall k :: 0 <= k < |vs| ==> vs[k] == ws[i + k]
    ensures PrefixWordsAt(vs, ws, i) <==>
              vs != [] && vs[|vs| - 1] <= ws[i + |vs| - 1] && forall k :: 0 <= k < |vs| - 1 ==> vs[k] == ws[i + k]
  {
    var mid := ws[i..i + |vs|];
    assert forall k :: 0 <= k < |vs| ==> mid[k] == ws[i + k];
    if vs != [] {
      var front := ws[i..i + |vs| - 1];
      assert forall k :: 0 <= k < |vs| - 1 ==> front[k] == ws[i + k] && vs[..|vs| - 1][k] == vs[k];
    }
  }

  // ---- the stream built one character at a time ----

  /** One step of the separator folding shared by `build` and `scan`. */
  function FoldText(w: Word, text: string): (r: Word)
    requires w != []
    ensures w <= r
    decreases |text|
  {
    if text == [] then w
    else
      var c := ClassOf(text[0]);
      FoldText(if c == SEP && w[|w| - 1] == SEP then w else w + [c], text[1..])
  }

  /** The closing separator. */
  function Close(w: Word): (r: Word)
    requires w != []
    ensures w <= r
  {
    if w[|w| - 1] == SEP then w else w + [SEP]
  }

  lemma {:induction false} FoldShift(pre: Word, w: Word, text: string)
    requires w != []
    ensures FoldText(pre + w, text) == pre + FoldText(w, text)
    decreases |text|
  {
    if text != [] {
      var c := ClassOf(text[0]);
      if !(c == SEP && w[|w| - 1] == SEP) {
        assert pre + w + [c] == pre + (w + [c]);
        FoldShift(pre, w + [c], text[1..]);
      } else {
        FoldShift(pre, w, text[1..]);
      }
    }
  }

  /** Folding the characters is the same as splitting into words and joining them. */
  lemma {:induction false} FoldIsJoin(cur: Word, text: string)
    requires SEP !in cur
    ensures Close(FoldText([SEP] + cur, text)) == Join(Split(text, cur))
    decreases |text|
  {
    var w := [SEP] + cur;
    if text == [] {
      JoinOne(cur);
    } else {
      var c, rest := ClassOf(text[0]), text[1..];
      if c != SEP {
        assert w + [c] == [SEP] + (cur + [c]);
        FoldIsJoin(cur + [c], rest);
      } else if cur == [] {
        FoldIsJoin([], rest);
      } else {
        FoldAfterWord(cur, rest);
        FoldIsJoin([], rest);
        assert [SEP] + [] == [SEP];
        assert ([cur] + Split(rest, []))[1..] == Split(rest, []);
      }
    }
  }

  lemma {:induction false} JoinOne(cur: Word)
    ensures Join([cur]) == [SEP] + cur + [SEP]
  {
    assert [cur][1..] == [];
  }

  lemma {:induction false} FoldAfterWord(cur: Word, rest: string)
    requires cur != [] && SEP !in cur
    ensures Close(FoldText([SEP] + cur + [SEP], rest)) == [SEP] + cur + Close(FoldText([SEP], rest))
  {
    FoldShift([SEP] + cur, [SEP], rest);
    assert FoldText([SEP], rest) != [];
  }

  /** The stream of a text is the join of its words. */
  lemma {:induction false} StreamIsJoin(text: string)
    ensures Close(FoldText([SEP], text)) == Join(Words(text))
  {
    assert [SEP] + [] == [SEP];
    FoldIsJoin([], text);
  }

  lemma {:induction false} SplitProper(text: string, cur: Word)
    requires SEP !in cur
    ensures ProperWords(Split(text, cur))
    decreases |text|
  {
    if text != [] {
      var c := ClassOf(text[0]);
      if c != SEP {
        SplitProper(text[1..], cur + [c]);
      } else {
        SplitProper(text[1..], []);
      }
    }
  }

  // ---- shape of a joined stream ----

  lemma {:induction false} JoinEnds(ws: seq<Word>)
    requires ProperWords(ws)
    ensures Join(ws) != [] && Join(ws)[0] == SEP && Join(ws)[|Join(ws)| - 1] == SEP
    ensures ws != [] ==> |Join(ws)| >= 3 && Join(ws)[|Join(ws)| - 2] != SEP
  {
    if ws != [] {
      JoinEnds(ws[1..]);
      if |ws| == 1 {
        assert Join(ws) == [SEP] + ws[0] + [SEP];
        assert Join(ws)[|Join(ws)| - 2] == ws[0][|ws[0]| - 1];
      } else {
        var t := Join(ws[1..]);
        assert Join(ws)[|Join(ws)| - 2] == t[|t| - 2];
      }
    }
  }

  /** Every separator of a joined stream starts the join of a suffix of the words. */
  lemma {:induction false} SeparatorStartsSuffix(ws: seq<Word>, j: nat) returns (i: nat)
    requires ProperWords(ws)
    requires j < |Join(ws)| && Join(ws)[j] == SEP
    ensures i <= |ws| && Join(ws)[j..] == Join(ws[i..])
  {
    if j == 0 {
      i := 0;
      assert ws[0..] == ws;
    } else {
      var head := [SEP] + ws[0];
      assert Join(ws) == head + Join(ws[1..]);
      assert forall k :: 0 < k < |head| ==> head[k] == ws[0][k - 1];
      assert ProperWord(ws[0]);
      if j < |head| {
        assert false;
      } else {
        var i' := SeparatorStartsSuffix(ws[1..], j - |head|);
        i := i' + 1;
        assert ws[1..][i'..] == ws[i..];
        assert Join(ws)[j..] == Join(ws[1..])[j - |head|..];
      }
    }
  }

  /** Conversely, the join of a suffix of the words is a suffix of the stream. */
  lemma {:induction false} SuffixOfWords(ws: seq<Word>, i: nat) returns (j: nat)
    requires i <= |ws|
    ensures j < |Join(ws)| && Join(ws)[j..] == Join(ws[i..])
    ensures 0 < i ==> 0 < j
  {
    if i == 0 {
      j := 0;
      assert ws[0..] == ws;
    } else {
      var head := [SEP] + ws[0];
      var j' := SuffixOfWords(ws[1..], i - 1);
      j := j' + |head|;
      assert ws[1..][i - 1..] == ws[i..];
      assert Join(ws)[j..] == Join(ws[1..])[j'..];
    }
  }

  /** A word closed by a separator is determined by any stream it begins. */
  lemma {:induction false} HeadWord(v: Word, x: Word, w: Word, y: Word)
    requires SEP !in v && SEP !in w
    requires x != [] && x[0] == SEP && y != [] && y[0] == SEP
    ensures [SEP] + v + x <= [SEP] + w + y <==> v == w && x <= y
  {
    var a, b := [SEP] + v + x, [SEP] + w + y;
    assert forall k :: 0 <= k < |v| ==> a[k + 1] == v[k];
    assert forall k :: 0 <= k < |w| ==> b[k + 1] == w[k];
    assert a[|v| + 1] == SEP && b[|w| + 1] == SEP;
    if a <= b {
      assert |v| == |w|;
      assert v == a[1..|v| + 1] == b[1..|v| + 1] == w;
      assert x == a[|v| + 1..] <= b[|v| + 1..] == y;
    }
  }

  /** Joined word lists are prefixes of each other exactly when the lists are. */
  lemma {:induction false} JoinPrefix(vs: seq<Word>, ws: seq<Word>)
    requires ProperWords(vs) && ProperWords(ws)
    ensures Join(vs) <= Join(ws) <==> vs <= ws
  {
    if vs == [] {
    } else if ws == [] {
      JoinEnds(vs);
    } else {
      var v, w, vs', ws' := vs[0], ws[0], vs[1..], ws[1..];
      assert ProperWord(v) && ProperWord(w);
      JoinPrefix(vs', ws');
      HeadWord(v, Join(vs'), w, Join(ws'));
      assert vs == [v] + vs' && ws == [w] + ws';
    }
  }

  /** The first words of the two lists, then the rest. */
  lemma {:induction false} PrefixWordsStep(vs: seq<Word>, ws: seq<Word>)
    requires |vs| >= 2 && ws != []
    ensures PrefixWordsAt(vs, ws, 0) <==> vs[0] == ws[0] && PrefixWordsAt(vs[1..], ws[1..], 0)
  {
    if |vs| <= |ws| {
      var n := |vs| - 1;
      assert vs[..n] == [vs[0]] + vs[1..][..n - 1];
      assert ws[0..n] == [ws[0]] + ws[1..][0..n - 1];
    }
  }

  lemma {:induction false} OpenSingle(v: Word, w: Word, y: Word)
    requires SEP !in v && y != [] && y[0] == SEP
    ensures [SEP] + v <= [SEP] + w + y <==> v <= w
  {
    var a, b := [SEP] + v, [SEP] + w + y;
    assert forall k :: 0 <= k < |v| ==> a[k + 1] == v[k];
    assert forall k :: 0 <= k < |w| ==> b[k + 1] == w[k];
    assert b[|w| + 1] == SEP;
  }

  /** The join without its final separator. */
  function OpenJoin(ws: seq<Word>): Word {
    Join(ws)[..|Join(ws)| - 1]
  }

  lemma {:induction false} OpenJoinStep(vs: seq<Word>)
    requires vs != [] && ProperWords(vs)
    ensures |vs| == 1 ==> OpenJoin(vs) == [SEP] + vs[0]
    ensures |vs| > 1 ==> OpenJoin(vs) == [SEP] + vs[0] + OpenJoin(vs[1..])
    ensures |vs| > 1 ==> OpenJoin(vs[1..]) != [] && OpenJoin(vs[1..])[0] == SEP
  {
    JoinEnds(vs[1..]);
  }

  /** The open form matches a word prefix in the last place. */
  lemma {:induction false} OpenJoinPrefix(vs: seq<Word>, ws: seq<Word>)
    requires ProperWords(vs) && ProperWords(ws) && vs != []
    ensures OpenJoin(vs) <= Join(ws) <==> PrefixWordsAt(vs, ws, 0)
  {
    OpenJoinStep(vs);
    if ws == [] {
      assert |OpenJoin(vs)| > 1;
    } else {
      hide OpenJoin;
      var v, w, vs', ws' := vs[0], ws[0], vs[1..], ws[1..];
      assert ProperWord(v) && ProperWord(w);
      if |vs| == 1 {
        OpenSingle(v, w, Join(ws'));
        assert ws[0..0] == vs[..0];
      } else {
        hide PrefixWordsAt;
        OpenJoinPrefix(vs', ws');
        HeadWord(v, OpenJoin(vs'), w, Join(ws'));
        PrefixWordsStep(vs, ws);
      }
    }
  }
}
