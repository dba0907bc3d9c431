/** Sizes of finite sets. */
module Sets {
  lemma SubsetSize<T>(a: set<T>, b: set<T>)
    requires a <= b
    ensures |a| <= |b|
  {
    assert b == a + (b - a);
  }

  /** The numbers from `lo` up to but not including `hi`. */
  function Range(lo: nat, hi: nat): (r: set<nat>)
    ensures forall m: nat :: m in r <==> lo <= m < hi
    ensures |r| == if lo <= hi then hi - lo else 0
  {
    if hi <= lo then {} else Range(lo, hi - 1) + {hi - 1}
  }
}
