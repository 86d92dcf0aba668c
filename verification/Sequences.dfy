/** One sequence standing within another; sequences without repetition. */
module Sequences {

  ghost predicate Distinct(s: seq<nat>) {
    forall i, j :: 0 <= i < j < |s| ==> s[i] != s[j]
  }

  predicate At<T(==)>(s: seq<T>, pat: seq<T>, i: nat) {
    i + |pat| <= |s| && forall k :: 0 <= k < |pat| ==> s[i + k] == pat[k]
  }

  lemma {:induction false} AtConcat<T>(s: seq<T>, x: seq<T>, y: seq<T>, i: nat)
    ensures At(s, x + y, i) <==> At(s, x, i) && At(s, y, i + |x|)
    ensures At(s, x + y, i) ==> i + |x| + |y| <= |s|
  {
    if At(s, x, i) && At(s, y, i + |x|) {
      forall k | 0 <= k < |x + y| ensures s[i + k] == (x + y)[k] {
        if k >= |x| {
          assert s[i + |x| + (k - |x|)] == y[k - |x|];
        }
      }
    }
    if At(s, x + y, i) {
      forall k | 0 <= k < |x| ensures s[i + k] == x[k] {
        assert (x + y)[k] == x[k];
      }
      forall k | 0 <= k < |y| ensures s[i + |x| + k] == y[k] {
        assert (x + y)[|x| + k] == y[k];
      }
    }
  }
}
