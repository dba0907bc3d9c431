/** Stable sorting by a pair of strings, in byte order. */
module Sorting {

  type SortKey = (string, string)

  predicate StringLess(a: string, b: string) {
    b != "" && (a == "" || a[0] < b[0] || (a[0] == b[0] && StringLess(a[1..], b[1..])))
  }

  predicate Less(a: SortKey, b: SortKey) {
    StringLess(a.0, b.0) || (a.0 == b.0 && StringLess(a.1, b.1))
  }

  lemma {:induction false} StringsCompare(a: string, b: string)
    ensures !(StringLess(a, b) && StringLess(b, a))
    ensures StringLess(a, b) || a == b || StringLess(b, a)
    ensures a == b ==> !StringLess(a, b)
    decreases |a|
  {
    if a != "" && b != "" && a[0] == b[0] {
      StringsCompare(a[1..], b[1..]);
      assert a == [a[0]] + a[1..] && b == [b[0]] + b[1..];
    }
  }

  lemma {:induction false} StringLessTransitive(a: string, b: string, c: string)
    requires StringLess(a, b) && StringLess(b, c)
    ensures StringLess(a, c)
    decreases |a|
  {
    if a != "" && a[0] == b[0] == c[0] {
      StringLessTransitive(a[1..], b[1..], c[1..]);
    }
  }

  lemma KeysCompare(a: SortKey, b: SortKey)
    ensures !(Less(a, b) && Less(b, a))
    ensures Less(a, b) || a == b || Less(b, a)
  {
    StringsCompare(a.0, b.0);
    StringsCompare(a.1, b.1);
  }

  lemma LessTransitive(a: SortKey, b: SortKey, c: SortKey)
    requires Less(a, b) && Less(b, c)
    ensures Less(a, c)
  {
    if StringLess(a.0, b.0) && StringLess(b.0, c.0) {
      StringLessTransitive(a.0, b.0, c.0);
    } else if a.0 == b.0 == c.0 {
      StringLessTransitive(a.1, b.1, c.1);
    }
  }

  function Insert<T>(sorted: seq<T>, x: T, key: T -> SortKey): seq<T> {
    if sorted == [] || !Less(key(x), key(sorted[|sorted| - 1])) then sorted + [x]
    else Insert(sorted[..|sorted| - 1], x, key) + [sorted[|sorted| - 1]]
  }

  /** Insertion sort; elements with equal keys keep their order. */
  function Sort<T>(xs: seq<T>, key: T -> SortKey): seq<T> {
    if xs == [] then [] else Insert(Sort(xs[..|xs| - 1], key), xs[|xs| - 1], key)
  }

  ghost predicate Ascending<T>(xs: seq<T>, key: T -> SortKey) {
    forall i, j | 0 <= i < j < |xs| :: !Less(key(xs[j]), key(xs[i]))
  }

  ghost predicate UniqueKeys<T>(xs: seq<T>, key: T -> SortKey) {
    forall i, j | 0 <= i < j < |xs| :: key(xs[i]) != key(xs[j])
  }

  lemma {:induction false} InsertKeeps<T>(sorted: seq<T>, x: T, key: T -> SortKey)
    requires Ascending(sorted, key)
    ensures multiset(Insert(sorted, x, key)) == multiset(sorted) + multiset{x}
    ensures Ascending(Insert(sorted, x, key), key)
    decreases |sorted|
  {
    if sorted != [] {
      var n := |sorted| - 1;
      var last := sorted[n];
      assert sorted == sorted[..n] + [last];
      if Less(key(x), key(last)) {
        InsertKeeps(sorted[..n], x, key);
        var rest := Insert(sorted[..n], x, key);
        KeysCompare(key(x), key(last));
        forall i | 0 <= i < |rest|
          ensures !Less(key(last), key(rest[i]))
        {
          assert rest[i] in multiset(rest);
          assert rest[i] == x || rest[i] in sorted[..n];
        }
      } else {
        NoneAbove(sorted, x, key);
      }
    }
  }

  lemma NoneAbove<T>(sorted: seq<T>, x: T, key: T -> SortKey)
    requires Ascending(sorted, key) && sorted != [] && !Less(key(x), key(sorted[|sorted| - 1]))
    ensures forall i | 0 <= i < |sorted| :: !Less(key(x), key(sorted[i]))
  {
    var n := |sorted| - 1;
    forall i | 0 <= i < n
      ensures !Less(key(x), key(sorted[i]))
    {
      NotLessTransitive(key(x), key(sorted[n]), key(sorted[i]));
    }
  }

  lemma NotLessTransitive(a: SortKey, b: SortKey, c: SortKey)
    requires !Less(a, b) && !Less(b, c)
    ensures !Less(a, c)
  {
    KeysCompare(a, b);
    KeysCompare(b, c);
    KeysCompare(a, c);
    if Less(a, c) {
      if Less(b, a) {
        LessTransitive(b, a, c);
      }
    }
  }

  /** Sorting rearranges, and the result ascends. */
  lemma {:induction false} SortKeeps<T>(xs: seq<T>, key: T -> SortKey)
    ensures multiset(Sort(xs, key)) == multiset(xs) && Ascending(Sort(xs, key), key)
    decreases |xs|
  {
    if xs != [] {
      var n := |xs| - 1;
      SortKeeps(xs[..n], key);
      InsertKeeps(Sort(xs[..n], key), xs[n], key);
      assert xs == xs[..n] + [xs[n]];
    }
  }

  lemma FoundIn<T>(xs: seq<T>, ys: seq<T>, y: T) returns (i: nat)
    requires multiset(xs) == multiset(ys) && y in ys
    ensures i < |xs| && xs[i] == y
  {
    assert y in multiset(xs);
    i :| 0 <= i < |xs| && xs[i] == y;
  }

  /** Where the last element of one sequence sits in a rearrangement of it; without it, both still agree. */
  lemma TakeOutLast<T>(xs: seq<T>, ys: seq<T>) returns (i: nat)
    requires multiset(xs) == multiset(ys) && xs != []
    ensures i < |ys| && ys[i] == xs[|xs| - 1] && ys == ys[..i] + [ys[i]] + ys[i + 1..]
    ensures multiset(xs[..|xs| - 1]) == multiset(ys[..i] + ys[i + 1..])
  {
    i := FoundIn(ys, xs, xs[|xs| - 1]);
    Around(ys, i);
    Around(xs, |xs| - 1);
    assert xs[..|xs| - 1] + xs[|xs|..] == xs[..|xs| - 1];
  }

  lemma Around<T>(ys: seq<T>, i: nat)
    requires i < |ys|
    ensures ys == ys[..i] + [ys[i]] + ys[i + 1..]
    ensures multiset(ys[..i] + ys[i + 1..]) == multiset(ys) - multiset{ys[i]}
  {
    var front, back := ys[..i], ys[i + 1..];
    assert ys == front + [ys[i]] + back;
    assert multiset(ys) == multiset(front) + multiset{ys[i]} + multiset(back);
  }

  lemma SameLast<T>(xs: seq<T>, ys: seq<T>, key: T -> SortKey)
    requires multiset(xs) == multiset(ys) && Ascending(xs, key) && Ascending(ys, key) && UniqueKeys(xs, key)
    requires xs != [] && ys != []
    ensures xs[|xs| - 1] == ys[|ys| - 1]
  {
    var x, y := xs[|xs| - 1], ys[|ys| - 1];
    var i := FoundIn(ys, xs, x);
    var j := FoundIn(xs, ys, y);
    assert i < |ys| - 1 ==> !Less(key(y), key(x));
    assert j < |xs| - 1 ==> !Less(key(x), key(y));
    KeysCompare(key(x), key(y));
  }

  lemma {:induction false} SameElements<T>(xs: seq<T>, ys: seq<T>, key: T -> SortKey)
    requires multiset(xs) == multiset(ys) && Ascending(xs, key) && Ascending(ys, key) && UniqueKeys(xs, key)
    ensures xs == ys
    decreases |xs|
  {
    hide *;
    assert |multiset(xs)| == |xs| && |multiset(ys)| == |ys|;
    if xs != [] {
      SameLast(xs, ys, key);
      var n := |xs| - 1;
      WithoutLast(xs, key);
      WithoutLast(ys, key);
      SameElements(xs[..n], ys[..n], key);
      assert xs == xs[..n] + [xs[n]] && ys == ys[..n] + [ys[n]];
    }
  }

  lemma WithoutLast<T>(xs: seq<T>, key: T -> SortKey)
    requires xs != []
    ensures multiset(xs[..|xs| - 1]) == multiset(xs) - multiset{xs[|xs| - 1]}
    ensures Ascending(xs, key) ==> Ascending(xs[..|xs| - 1], key)
    ensures UniqueKeys(xs, key) ==> UniqueKeys(xs[..|xs| - 1], key)
  {
    assert xs == xs[..|xs| - 1] + [xs[|xs| - 1]];
  }

  lemma UniqueMeansOnce<T>(xs: seq<T>, key: T -> SortKey, a: T)
    requires UniqueKeys(xs, key)
    ensures multiset(xs)[a] <= 1
  {
    if multiset(xs)[a] >= 2 {
      var p, q := TwoOf(xs, a);
    }
  }

  lemma {:induction false} KeysStayUnique<T>(xs: seq<T>, ys: seq<T>, key: T -> SortKey)
    requires multiset(xs) == multiset(ys) && UniqueKeys(xs, key)
    ensures UniqueKeys(ys, key)
  {
    forall i, j | 0 <= i < j < |ys|
      ensures key(ys[i]) != key(ys[j])
    {
      var a, b := ys[i], ys[j];
      TwoPlaces(ys, i, j);
      UniqueMeansOnce(xs, key, a);
      var p := FoundIn(xs, ys, a);
      var q := FoundIn(xs, ys, b);
      assert key(xs[if p < q then p else q]) != key(xs[if p < q then q else p]);
    }
  }

  lemma TwoPlaces<T>(xs: seq<T>, i: nat, j: nat)
    requires i < j < |xs|
    ensures xs[i] == xs[j] ==> multiset(xs)[xs[i]] >= 2
  {
    assert xs == xs[..j] + xs[j..] && xs[i] in multiset(xs[..j]) && xs[j] in multiset(xs[j..]);
  }

  lemma {:induction false} TwoOf<T>(xs: seq<T>, a: T) returns (p: nat, q: nat)
    requires multiset(xs)[a] >= 2
    ensures p < q < |xs| && xs[p] == a && xs[q] == a
    decreases |xs|
  {
    var n := |xs| - 1;
    assert xs == xs[..n] + [xs[n]];
    if xs[n] == a {
      assert multiset(xs[..n])[a] >= 1;
      q := n;
      p :| 0 <= p < n && xs[..n][p] == a;
    } else {
      p, q := TwoOf(xs[..n], a);
    }
  }

  /** With unique keys, the order of the input does not matter. */
  lemma SortForgetsOrder<T>(xs: seq<T>, ys: seq<T>, key: T -> SortKey)
    requires multiset(xs) == multiset(ys) && UniqueKeys(xs, key)
    ensures Sort(xs, key) == Sort(ys, key)
  {
    SortKeeps(xs, key);
    SortKeeps(ys, key);
    KeysStayUnique(xs, Sort(xs, key), key);
    SameElements(Sort(xs, key), Sort(ys, key), key);
  }
}
