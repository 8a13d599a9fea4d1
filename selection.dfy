/** The selection rule shared by the frame searches: scan the candidates in
    order, starting from an initial best value, and replace the stored best
    only when a candidate scores STRICTLY higher. */
module Selection {
  import opened Base

  /** Index of the stored candidate (None while the initial value stands)
      and the stored value. */
  datatype Best = Best(index: Option<nat>, value: real)

  /** The stored best after scanning `scores` from left to right. */
  function ScanBest(scores: seq<real>, init: real): Best
    decreases |scores|
  {
    if |scores| == 0 then Best(None, init)
    else
      var b := ScanBest(scores[..|scores| - 1], init);
      if scores[|scores| - 1] > b.value then Best(Some(|scores| - 1), scores[|scores| - 1]) else b
  }

  /** `k` attains the maximum of `scores` and no earlier index does. */
  predicate IsFirstMax(scores: seq<real>, k: nat) {
    && k < |scores|
    && (forall j :: 0 <= j < |scores| ==> scores[j] <= scores[k])
    && (forall j :: 0 <= j < k ==> scores[j] < scores[k])
  }

  /** What the scan computes: the initial value stays exactly when no score
      exceeds it; otherwise the stored candidate is the first index with the
      greatest score. */
  lemma {:induction false} ScanBestIsFirstMax(scores: seq<real>, init: real)
    ensures var b := ScanBest(scores, init);
      && (b.index.None? <==> forall j :: 0 <= j < |scores| ==> scores[j] <= init)
      && (b.index.None? ==> b.value == init)
      && (b.index.Some? ==> IsFirstMax(scores, b.index.value)
                            && b.value == scores[b.index.value] && b.value > init)
    decreases |scores|
  {
    if |scores| > 0 {
      var n := |scores| - 1;
      var prefix := scores[..n];
      ScanBestIsFirstMax(prefix, init);
      assert forall j :: 0 <= j < n ==> prefix[j] == scores[j];
    }
  }

  /** Appending one score extends the scan by one step. */
  lemma ScanBestSnoc(scores: seq<real>, x: real, init: real)
    ensures ScanBest(scores + [x], init)
         == (var b := ScanBest(scores, init);
             if x > b.value then Best(Some(|scores|), x) else b)
  {
    assert (scores + [x])[..|scores|] == scores;
  }

  /** The stored value never decreases as the scan goes on. */
  lemma {:induction false} ScanBestMonotone(scores: seq<real>, i: nat, init: real)
    requires i <= |scores|
    ensures ScanBest(scores[..i], init).value <= ScanBest(scores, init).value
    decreases |scores| - i
  {
    if i < |scores| {
      ScanBestMonotone(scores, i + 1, init);
      assert scores[..i + 1][..i] == scores[..i];
    } else {
      assert scores[..i] == scores;
    }
  }
}
