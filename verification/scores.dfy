/**
 * Arg-max over a score vector with first-occurrence tie-breaking, as
 * `np.argmax` computes it on the classifier's output row.
 *
 * Scores are modelled as reals: only their order matters to the choice of
 * index, so floating point (and NaN) is not part of the model.
 */
module Scores {

  /** `i` holds a largest score of `s` and no earlier index reaches that score. */
  predicate IsFirstMax(s: seq<real>, i: int)
  {
    && 0 <= i < |s|
    && (forall j :: 0 <= j < |s| ==> s[j] <= s[i])
    && (forall j :: 0 <= j < i ==> s[j] < s[i])
  }

  /**
   * The index `np.argmax` returns for a non-empty vector: the last element
   * displaces the best index of the prefix only when strictly larger, so
   * ties stay with the earliest index.
   */
  function ArgMax(s: seq<real>): (k: nat)
    requires |s| > 0
    ensures k < |s|
    ensures forall j :: 0 <= j < |s| ==> s[j] <= s[k]
    ensures forall j :: 0 <= j < k ==> s[j] < s[k]
    decreases |s|
  {
    if |s| == 1 then 0
    else
      var k := ArgMax(s[..|s| - 1]);
      if s[k] < s[|s| - 1] then |s| - 1 else k
  }

  /** Two indices that are both first maxima are the same index. */
  lemma FirstMaxUnique(s: seq<real>, i: int, j: int)
    requires IsFirstMax(s, i)
    ensures IsFirstMax(s, j) ==> i == j
  {
    if 0 <= j < i {
      assert s[j] < s[i];
    } else if i < j && j < |s| {
      assert s[j] <= s[i];
    }
  }

  /** `ArgMax` is exactly the first maximum: both directions. */
  lemma ArgMaxCharacterized(s: seq<real>, i: int)
    requires |s| > 0
    ensures IsFirstMax(s, i) <==> i == ArgMax(s)
  {
    assert IsFirstMax(s, ArgMax(s));
    FirstMaxUnique(s, ArgMax(s), i);
  }

  /**
   * A maximum that beats every other score strictly is what `ArgMax`
   * chooses, whatever its position.
   */
  lemma UniqueMaxChosen(s: seq<real>, i: nat)
    requires i < |s|
    requires forall j :: 0 <= j < |s| && j != i ==> s[j] < s[i]
    ensures ArgMax(s) == i
  {
    assert IsFirstMax(s, i);
    ArgMaxCharacterized(s, i);
  }

  /**
   * The left-to-right scan `np.argmax` performs: keep the best index seen so
   * far and replace it only on a strictly larger score.
   */
  method ScanArgMax(s: seq<real>) returns (k: nat)
    requires |s| > 0
    ensures IsFirstMax(s, k)
    ensures k == ArgMax(s)
  {
    k := 0;
    var n := 1;
    while n < |s|
      invariant 1 <= n <= |s|
      invariant k < n
      invariant forall j :: 0 <= j < n ==> s[j] <= s[k]
      invariant forall j :: 0 <= j < k ==> s[j] < s[k]
    {
      if s[k] < s[n] {
        k := n;
      }
      n := n + 1;
    }
    ArgMaxCharacterized(s, k);
  }
}
