/** Sums of a measure over the values of a finite map. */
module Sums {
  ghost function SumBy<K(!new), V>(m: map<K, V>, f: V -> nat): nat
    decreases |m|
  {
    if m == map[] then 0
    else
      var k :| k in m;
      SmallerWithout(m, k);
      f(m[k]) + SumBy(m - {k}, f)
  }

  lemma SmallerWithout<K, V>(m: map<K, V>, k: K)
    requires k in m
    ensures |m - {k}| == |m| - 1
  {
    assert (m - {k}).Keys == m.Keys - {k};
    assert |m.Keys - {k}| == |m.Keys| - 1;
  }

  /** The sum does not depend on which entry is taken out first. */
  lemma {:induction false} SumRemove<K(!new), V>(m: map<K, V>, f: V -> nat, k: K)
    requires k in m
    ensures SumBy(m, f) == f(m[k]) + SumBy(m - {k}, f)
    decreases |m|
  {
    var j :| j in m && SumBy(m, f) == f(m[j]) + SumBy(m - {j}, f);
    if j != k {
      SmallerWithout(m, j);
      SmallerWithout(m, k);
      SumRemove(m - {j}, f, k);
      SumRemove(m - {k}, f, j);
      assert m - {j} - {k} == m - {k} - {j};
    }
  }

  lemma SumUpdate<K(!new), V>(m: map<K, V>, f: V -> nat, k: K, v: V)
    ensures SumBy(m[k := v], f) == SumBy(m - {k}, f) + f(v)
    ensures SumBy(m, f) == SumBy(m - {k}, f) + (if k in m then f(m[k]) else 0)
  {
    SumRemove(m[k := v], f, k);
    assert m[k := v] - {k} == m - {k};
    if k in m {
      SumRemove(m, f, k);
    } else {
      assert m - {k} == m;
    }
  }

  lemma SumReplace<K(!new), V>(m: map<K, V>, f: V -> nat, k: K, v: V)
    requires k in m
    ensures SumBy(m[k := v], f) + f(m[k]) == SumBy(m, f) + f(v)
  {
    SumUpdate(m, f, k, v);
  }

  /** One entry never weighs more than the whole map. */
  lemma SumAtLeast<K(!new), V>(m: map<K, V>, f: V -> nat, k: K)
    requires k in m
    ensures f(m[k]) <= SumBy(m, f)
  {
    SumRemove(m, f, k);
  }

  lemma {:induction false} SumPositive<K(!new), V>(m: map<K, V>, f: V -> nat) returns (k: K)
    requires SumBy(m, f) > 0
    ensures k in m && f(m[k]) > 0
    decreases |m|
  {
    k :| k in m && SumBy(m, f) == f(m[k]) + SumBy(m - {k}, f);
    if f(m[k]) == 0 {
      SmallerWithout(m, k);
      k := SumPositive(m - {k}, f);
    }
  }
}
