/** Subsequences: what is left of a sequence when elements are dropped and order is kept. */
module Subsequences {
  ghost predicate Sub<T(!new)>(a: seq<T>, b: seq<T>) {
    a == []
    || (b != [] && Sub(a, b[..|b| - 1]))
    || (b != [] && a[|a| - 1] == b[|b| - 1] && Sub(a[..|a| - 1], b[..|b| - 1]))
  }

  lemma {:induction false} SubRefl<T(!new)>(a: seq<T>)
    ensures Sub(a, a)
    decreases |a|
  {
    if a != [] {
      SubRefl(a[..|a| - 1]);
    }
  }

  /** Appending keeps the relation, whether or not the appended elements are dropped. */
  lemma {:induction false} SubAppend<T(!new)>(a: seq<T>, b: seq<T>, c: seq<T>, d: seq<T>)
    requires Sub(a, b) && Sub(c, d)
    ensures Sub(a + c, b + d)
    decreases |d|
  {
    if d == [] {
      assert a + c == a && b + d == b;
    } else {
      var n := |d| - 1;
      assert (b + d)[..|b| + n] == b + d[..n];
      if c == [] {
        assert Sub([], d[..n]);
        SubAppend(a, b, [], d[..n]);
        assert a + [] == a;
      } else if Sub(c, d[..n]) {
        SubAppend(a, b, c, d[..n]);
      } else {
        var m := |c| - 1;
        assert (a + c)[..|a| + m] == a + c[..m];
        SubAppend(a, b, c[..m], d[..n]);
      }
    }
  }

  /** An element more at the end may be kept or dropped. */
  lemma SubLast<T(!new)>(a: seq<T>, b: seq<T>, x: T)
    requires Sub(a, b)
    ensures Sub(a + [x], b + [x]) && Sub(a, b + [x])
  {
    assert (b + [x])[..|b|] == b && (a + [x])[..|a|] == a;
  }

  lemma {:induction false} SubTrans<T(!new)>(a: seq<T>, b: seq<T>, c: seq<T>)
    requires Sub(a, b) && Sub(b, c)
    ensures Sub(a, c)
    decreases |b| + |c|
  {
    if a != [] {
      var n := |c| - 1;
      if Sub(b, c[..n]) {
        SubTrans(a, b, c[..n]);
      } else if Sub(a, b[..|b| - 1]) {
        SubTrans(a, b[..|b| - 1], c[..n]);
      } else {
        SubTrans(a[..|a| - 1], b[..|b| - 1], c[..n]);
      }
    }
  }

  lemma SubDrop<T(!new)>(a: seq<T>, x: T, b: seq<T>)
    ensures Sub(a + b, a + [x] + b)
  {
    SubRefl(a);
    SubRefl(b);
    assert Sub([], [x]);
    SubAppend(a, a, [], [x]);
    assert a + [] == a;
    SubAppend(a, a + [x], b, b);
  }

  lemma SubPrefix<T(!new)>(a: seq<T>, b: seq<T>)
    ensures Sub(a, a + b)
  {
    SubRefl(a);
    assert Sub([], b);
    SubAppend(a, a, [], b);
    assert a + [] == a;
  }

  /** A subsequence never holds an element more often than the sequence it was taken from. */
  lemma {:induction false} SubCounts<T(!new)>(a: seq<T>, b: seq<T>)
    requires Sub(a, b)
    ensures multiset(a) <= multiset(b)
    decreases |b|
  {
    if a != [] {
      var m, n := |a| - 1, |b| - 1;
      assert b == b[..n] + [b[n]] && a == a[..m] + [a[m]];
      if Sub(a, b[..n]) {
        SubCounts(a, b[..n]);
      } else {
        SubCounts(a[..m], b[..n]);
      }
    }
  }

  /**
   * Order is kept: what stands at i < j in the subsequence stands at some f(i) < f(j) in the original.
   */
  lemma {:induction false} SubOrder<T(!new)>(a: seq<T>, b: seq<T>, i: nat, j: nat) returns (x: nat, y: nat)
    requires Sub(a, b) && i < j < |a|
    ensures x < y < |b| && b[x] == a[i] && b[y] == a[j]
    decreases |b|
  {
    var m, n := |a| - 1, |b| - 1;
    if Sub(a, b[..n]) {
      x, y := SubOrder(a, b[..n], i, j);
    } else if j < m {
      x, y := SubOrder(a[..m], b[..n], i, j);
    } else {
      x := SubPosition(a[..m], b[..n], i);
      y := n;
    }
  }

  lemma {:induction false} SubPosition<T(!new)>(a: seq<T>, b: seq<T>, i: nat) returns (x: nat)
    requires Sub(a, b) && i < |a|
    ensures x < |b| && b[x] == a[i]
    decreases |b|
  {
    var m, n := |a| - 1, |b| - 1;
    if Sub(a, b[..n]) {
      x := SubPosition(a, b[..n], i);
    } else if i < m {
      x := SubPosition(a[..m], b[..n], i);
    } else {
      x := n;
    }
  }
}
