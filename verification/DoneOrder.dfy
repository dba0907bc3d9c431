/**
 * In which order the messages of a batch get done (process in pipeline/consumer.go): whatever a handler
 * call does not report as failed is done with that call, and what failed is handed over again, alone, in
 * later rounds.
 */
module DoneOrder {
  import opened Items
  import opened Consumers
  import opened NodeProtocol
  import opened Retries
  import opened Subsequences

  // ---------------------------------------------------------------------------------------------
  // Positions in a sequence without duplicates.

  function Position<T(==)>(s: seq<T>, x: T): (i: nat)
    requires x in s
    ensures i < |s| && s[i] == x
  {
    if s[|s| - 1] == x then |s| - 1 else Position(s[..|s| - 1], x)
  }

  ghost predicate Before<T>(s: seq<T>, x: T, y: T) { x in s && y in s && Position(s, x) < Position(s, y) }

  ghost predicate Increasing<T>(a: seq<T>, b: seq<T>) {
    (forall i | 0 <= i < |a| :: a[i] in b) && forall i, j | 0 <= i < j < |a| :: Before(b, a[i], a[j])
  }

  lemma InPrefix<T>(b: seq<T>, n: nat, x: T)
    requires NoDup(b) && n <= |b| && x in b && Position(b, x) < n
    ensures x in b[..n] && Position(b[..n], x) == Position(b, x)
  {
    assert b[..n][Position(b, x)] == x;
    assert b[Position(b[..n], x)] == x;
  }

  lemma BeforeInPrefix<T>(b: seq<T>, n: nat, x: T, y: T)
    requires NoDup(b) && n <= |b| && Before(b, x, y) && Position(b, y) < n
    ensures Before(b[..n], x, y)
  {
    InPrefix(b, n, x);
    InPrefix(b, n, y);
  }

  lemma IncreasingInPrefix<T>(a: seq<T>, b: seq<T>, n: nat)
    requires NoDup(b) && Increasing(a, b) && n <= |b|
    requires a != [] ==> Position(b, a[|a| - 1]) < n
    ensures Increasing(a, b[..n]) && NoDup(b[..n])
  {
    hide Position;
    forall i | 0 <= i < |a|
      ensures a[i] in b[..n]
    {
      assert i < |a| - 1 ==> Before(b, a[i], a[|a| - 1]);
      InPrefix(b, n, a[i]);
    }
    forall i, j | 0 <= i < j < |a|
      ensures Before(b[..n], a[i], a[j])
    {
      assert j < |a| - 1 ==> Before(b, a[j], a[|a| - 1]);
      BeforeInPrefix(b, n, a[i], a[j]);
    }
  }

  lemma AllButLast<T>(a: seq<T>, b: seq<T>)
    requires Increasing(a, b) && a != []
    ensures b != [] && a[|a| - 1] in b && Increasing(a[..|a| - 1], b)
    ensures |a| >= 2 ==> Position(b, a[|a| - 2]) < |b| - 1
  {
    var m := |a| - 1;
    assert a[m] in b;
    if m >= 1 {
      assert Before(b, a[m - 1], a[m]);
    }
    hide Before;
    forall i, j | 0 <= i < j < m
      ensures Before(b, a[..m][i], a[..m][j])
    {
      assert Before(b, a[i], a[j]);
    }
  }

  lemma {:induction false} IncreasingSub<T(!new)>(a: seq<T>, b: seq<T>)
    requires NoDup(b) && Increasing(a, b)
    ensures Sub(a, b)
    decreases |b|
  {
    hide *;
    if a == [] {
      NothingIsSub(a, b);
    } else {
      AllButLast(a, b);
      var m, n := |a| - 1, |b| - 1;
      assert b == b[..n] + [b[n]];
      if a[m] == b[n] {
        IncreasingInPrefix(a[..m], b, n);
        IncreasingSub(a[..m], b[..n]);
        SubLast(a[..m], b[..n], b[n]);
        assert a == a[..m] + [b[n]];
      } else {
        IncreasingInPrefix(a, b, n);
        IncreasingSub(a, b[..n]);
        SubLast(a, b[..n], b[n]);
      }
    }
    assert Sub(a, b);
  }

  lemma NothingIsSub<T(!new)>(a: seq<T>, b: seq<T>)
    requires a == []
    ensures Sub(a, b)
  {
  }

  lemma SubIncreasing<T(!new)>(a: seq<T>, b: seq<T>)
    requires NoDup(b) && Sub(a, b)
    ensures Increasing(a, b)
  {
    forall i | 0 <= i < |a|
      ensures a[i] in b
    {
      var x := SubPosition(a, b, i);
    }
    forall i, j | 0 <= i < j < |a|
      ensures Before(b, a[i], a[j])
    {
      var x, y := SubOrder(a, b, i, j);
    }
  }

  /** Two pieces in a row keep the order exactly if each does and the first is before the second throughout. */
  lemma SubConcat<T(!new)>(a: seq<T>, c: seq<T>, b: seq<T>)
    requires NoDup(b)
    ensures Sub(a + c, b) <==> Sub(a, b) && Sub(c, b) && forall x, y | x in a && y in c :: Before(b, x, y)
  {
    if Sub(a + c, b) {
      SubIncreasing(a + c, b);
      assert forall i | 0 <= i < |a| :: (a + c)[i] == a[i];
      assert forall i | 0 <= i < |c| :: (a + c)[|a| + i] == c[i];
      IncreasingSub(a, b);
      IncreasingSub(c, b);
    } else if Sub(a, b) && Sub(c, b) && forall x, y | x in a && y in c :: Before(b, x, y) {
      SubIncreasing(a, b);
      SubIncreasing(c, b);
      IncreasingSub(a + c, b);
    }
  }

  function Flat(parts: seq<seq<nat>>): seq<nat> {
    if parts == [] then [] else parts[0] + Flat(parts[1..])
  }

  ghost predicate InParts(parts: seq<seq<nat>>, k: nat, m: nat) { k < |parts| && m in parts[k] }

  lemma {:induction false} InFlat(parts: seq<seq<nat>>, m: nat)
    ensures m in Flat(parts) <==> exists k :: InParts(parts, k, m)
    decreases |parts|
  {
    if parts != [] {
      InFlat(parts[1..], m);
      if k: nat :| InParts(parts[1..], k, m) {
        assert InParts(parts, k + 1, m);
      }
      if k: nat :| InParts(parts, k, m) {
        assert k == 0 || InParts(parts[1..], k - 1, m);
      }
      assert m in parts[0] ==> InParts(parts, 0, m);
    }
  }

  /** Earlier parts are before later ones. */
  ghost predicate PartsInOrder(parts: seq<seq<nat>>, b: seq<nat>) {
    forall j, k, x, y | j < k && InParts(parts, j, x) && InParts(parts, k, y) :: Before(b, x, y)
  }

  lemma {:induction false} FlatSub(parts: seq<seq<nat>>, b: seq<nat>)
    requires NoDup(b) && forall k | 0 <= k < |parts| :: Sub(parts[k], b)
    ensures Sub(Flat(parts), b) <==> PartsInOrder(parts, b)
    decreases |parts|
  {
    if parts != [] {
      var rest := parts[1..];
      FlatSub(rest, b);
      SubConcat(parts[0], Flat(rest), b);
      hide Sub, Before, NoDup;
      forall m: nat
        ensures m in Flat(rest) <==> exists k :: InParts(rest, k, m)
      {
        InFlat(rest, m);
      }
      forall k: nat, m: nat
        ensures InParts(rest, k, m) <==> InParts(parts, k + 1, m)
      {
      }
      if PartsInOrder(parts, b) {
        forall x, y | x in parts[0] && y in Flat(rest)
          ensures Before(b, x, y)
        {
          var k: nat :| InParts(rest, k, y);
          assert InParts(parts, 0, x) && InParts(parts, k + 1, y);
        }
        assert PartsInOrder(rest, b);
      } else if PartsInOrder(rest, b) && forall x, y | x in parts[0] && y in Flat(rest) :: Before(b, x, y) {
        forall j: nat, k: nat, x, y | j < k && InParts(parts, j, x) && InParts(parts, k, y)
          ensures Before(b, x, y)
        {
          assert InParts(rest, k - 1, y);
          assert j > 0 ==> InParts(rest, j - 1, x);
        }
      }
    }
  }

  // ---------------------------------------------------------------------------------------------
  // What is done when.

  /** The items at the positions a call does not report. */
  function Passed(items: seq<Item>, fails: nat -> bool): seq<Item> {
    if items == [] then []
    else
      var n := |items| - 1;
      Passed(items[..n], fails) + if fails(n) then [] else [items[n]]
  }

  /** The messages in the order in which they are done: call by call, what the call does not report. */
  function Done(calls: seq<seq<Item>>, fails: nat -> nat -> bool): seq<nat> {
    if calls == [] then []
    else
      var n := |calls| - 1;
      Done(calls[..n], fails) + Msgs(Passed(calls[n], fails(n)))
  }

  /** What a retry round whose calls are numbered from `from` gets done. */
  function RoundDone(failed: seq<Item>, from: nat, fails: nat -> nat -> bool): seq<nat> {
    if failed == [] then []
    else
      var n := |failed| - 1;
      RoundDone(failed[..n], from, fails) + Msgs(Passed([Bump(failed[n])], fails(from + n)))
  }

  function LaterRounds(failed: seq<Item>, calls: seq<seq<Item>>, attempt: nat, retries: nat,
                       fails: nat -> nat -> bool, stop: nat -> bool): seq<seq<nat>>
    decreases retries + 1 - attempt
  {
    if failed == [] || attempt > retries || stop(attempt) then []
    else
      var r := RetryRound(failed, calls, fails);
      [RoundDone(failed, |calls|, fails)] + LaterRounds(r.failed, r.calls, attempt + 1, retries, fails, stop)
  }

  /** What is done in each round of a batch, the first handler call being round 0. */
  function DoneByRound(items: seq<Item>, retries: nat, fails: nat -> nat -> bool, stop: nat -> bool): seq<seq<nat>> {
    [Msgs(Passed(items, fails(0)))] + LaterRounds(Select(items, fails(0)), [items], 1, retries, fails, stop)
  }

  function DoneOf(items: seq<Item>, retries: nat, fails: nat -> nat -> bool, stop: nat -> bool): seq<nat> {
    Done(Processed(items, retries, fails, stop).calls, fails)
  }

  lemma DoneOneMore(calls: seq<seq<Item>>, call: seq<Item>, fails: nat -> nat -> bool)
    ensures Done(calls + [call], fails) == Done(calls, fails) + Msgs(Passed(call, fails(|calls|)))
  {
    assert (calls + [call])[..|calls|] == calls;
  }

  /** One item more in a round: its call is numbered by its place. */
  lemma LastAgain(failed: seq<Item>, calls: seq<seq<Item>>, fails: nat -> nat -> bool)
    requires failed != []
    ensures var n := |failed| - 1;
            var r, again, now := RetryRound(failed[..n], calls, fails), [Bump(failed[n])], fails(|calls| + n);
            && |r.calls| == |calls| + n
            && RetryRound(failed, calls, fails).calls == r.calls + [again]
            && RetryRound(failed, calls, fails).failed == r.failed + Select(again, now)
            && RoundDone(failed, |calls|, fails) == RoundDone(failed[..n], |calls|, fails) + Msgs(Passed(again, now))
  {
    hide Select, Passed, Msgs;
  }

  lemma Regroup(a: seq<nat>, b: seq<nat>, c: seq<nat>)
    ensures a + b + c == a + (b + c)
  {
  }

  lemma {:induction false} RoundIsDone(failed: seq<Item>, calls: seq<seq<Item>>, fails: nat -> nat -> bool)
    ensures Done(RetryRound(failed, calls, fails).calls, fails) == Done(calls, fails) + RoundDone(failed, |calls|, fails)
    decreases |failed|
  {
    hide *;
    if failed == [] {
      EmptyRound(failed, calls, fails);
      NothingDone(failed, |calls|, fails);
    } else {
      var n := |failed| - 1;
      RoundIsDone(failed[..n], calls, fails);
      RoundStep(failed, calls, fails);
      Regroup(Done(calls, fails), RoundDone(failed[..n], |calls|, fails), Msgs(Passed([Bump(failed[n])], fails(|calls| + n))));
    }
  }

  lemma NothingDone(failed: seq<Item>, from: nat, fails: nat -> nat -> bool)
    requires failed == []
    ensures RoundDone(failed, from, fails) == []
  {
  }

  lemma RoundStep(failed: seq<Item>, calls: seq<seq<Item>>, fails: nat -> nat -> bool)
    requires failed != []
    ensures var n := |failed| - 1;
            var one := Msgs(Passed([Bump(failed[n])], fails(|calls| + n)));
            && Done(RetryRound(failed, calls, fails).calls, fails) ==
                 Done(RetryRound(failed[..n], calls, fails).calls, fails) + one
            && RoundDone(failed, |calls|, fails) == RoundDone(failed[..n], |calls|, fails) + one
  {
    hide *;
    LastAgain(failed, calls, fails);
    DoneOneMore(RetryRound(failed[..|failed| - 1], calls, fails).calls, [Bump(failed[|failed| - 1])], fails);
  }

  lemma {:induction false} LaterAreDone(failed: seq<Item>, calls: seq<seq<Item>>, attempt: nat, retries: nat,
                                        fails: nat -> nat -> bool, stop: nat -> bool)
    ensures Done(Rounds(failed, calls, attempt, retries, fails, stop).calls, fails) ==
            Done(calls, fails) + Flat(LaterRounds(failed, calls, attempt, retries, fails, stop))
    decreases retries + 1 - attempt
  {
    hide Done, RetryRound, RoundDone;
    if failed == [] || attempt > retries || stop(attempt) {
      assert Done(calls, fails) + [] == Done(calls, fails);
    } else {
      var r, now := RetryRound(failed, calls, fails), RoundDone(failed, |calls|, fails);
      RoundIsDone(failed, calls, fails);
      LaterAreDone(r.failed, r.calls, attempt + 1, retries, fails, stop);
      var later := LaterRounds(r.failed, r.calls, attempt + 1, retries, fails, stop);
      assert ([now] + later)[1..] == later;
      assert Done(calls, fails) + now + Flat(later) == Done(calls, fails) + (now + Flat(later));
    }
  }

  lemma DoneIsFlat(items: seq<Item>, retries: nat, fails: nat -> nat -> bool, stop: nat -> bool)
    ensures DoneOf(items, retries, fails, stop) == Flat(DoneByRound(items, retries, fails, stop))
  {
    var first := Msgs(Passed(items, fails(0)));
    var later := LaterRounds(Select(items, fails(0)), [items], 1, retries, fails, stop);
    LaterAreDone(Select(items, fails(0)), [items], 1, retries, fails, stop);
    DoneOneMore([], items, fails);
    assert [] + [items] == [items] && [] + first == first && ([first] + later)[1..] == later;
  }

  // Each round does a part of the batch in its order, and nothing is done twice.

  /** What there was is divided into what is done and what still fails, both in the old order. */
  ghost predicate Splits(all: seq<nat>, done: seq<nat>, still: seq<nat>) {
    Sub(done, all) && Sub(still, all) && multiset(all) == multiset(done) + multiset(still)
  }

  lemma AddOne(all: seq<nat>, done: seq<nat>, still: seq<nat>, m: nat, fail: bool)
    requires Splits(all, done, still)
    ensures Splits(all + [m], done + (if fail then [] else [m]), still + (if fail then [m] else []))
  {
    hide Sub;
    SubLast(done, all, m);
    SubLast(still, all, m);
    assert done + [] == done && still + [] == still;
  }

  lemma MsgsOneMore(items: seq<Item>)
    requires items != []
    ensures Msgs(items) == Msgs(items[..|items| - 1]) + [items[|items| - 1].msg]
  {
  }

  lemma MsgsJoin(xs: seq<Item>, ys: seq<Item>)
    ensures Msgs(xs + ys) == Msgs(xs) + Msgs(ys)
    ensures |ys| == 1 ==> Msgs(ys) == [ys[0].msg]
    ensures ys == [] ==> Msgs(ys) == []
  {
  }

  lemma {:induction false} CallSplits(items: seq<Item>, fails: nat -> bool)
    ensures Splits(Msgs(items), Msgs(Passed(items, fails)), Msgs(Select(items, fails)))
    decreases |items|
  {
    if items != [] {
      var n := |items| - 1;
      CallSplits(items[..n], fails);
      hide Splits, Msgs;
      MsgsOneMore(items);
      MsgsJoin(Passed(items[..n], fails), if fails(n) then [] else [items[n]]);
      MsgsJoin(Select(items[..n], fails), if fails(n) then [items[n]] else []);
      AddOne(Msgs(items[..n]), Msgs(Passed(items[..n], fails)), Msgs(Select(items[..n], fails)), items[n].msg, fails(n));
    }
  }

  lemma OneAgain(x: Item, fails: nat -> bool)
    ensures Msgs(Passed([Bump(x)], fails)) == (if fails(0) then [] else [x.msg])
    ensures Msgs(Select([Bump(x)], fails)) == (if fails(0) then [x.msg] else [])
  {
    assert [Bump(x)][..0] == [];
  }

  lemma RoundOneMore(failed: seq<Item>, calls: seq<seq<Item>>, fails: nat -> nat -> bool)
    requires failed != []
    ensures var n := |failed| - 1;
            var fail, m := fails(|calls| + n)(0), failed[n].msg;
            && RoundDone(failed, |calls|, fails) == RoundDone(failed[..n], |calls|, fails) + (if fail then [] else [m])
            && Msgs(RetryRound(failed, calls, fails).failed) ==
                 Msgs(RetryRound(failed[..n], calls, fails).failed) + (if fail then [m] else [])
  {
    hide *;
    var n := |failed| - 1;
    var now := fails(|calls| + n);
    LastAgain(failed, calls, fails);
    OneAgain(failed[n], now);
    MsgsJoin(RetryRound(failed[..n], calls, fails).failed, Select([Bump(failed[n])], now));
  }

  lemma {:induction false} RoundSplits(failed: seq<Item>, calls: seq<seq<Item>>, fails: nat -> nat -> bool)
    ensures Splits(Msgs(failed), RoundDone(failed, |calls|, fails), Msgs(RetryRound(failed, calls, fails).failed))
    decreases |failed|
  {
    hide *;
    if failed == [] {
      NothingSplits(failed, calls, fails);
    } else {
      var n := |failed| - 1;
      RoundSplits(failed[..n], calls, fails);
      RoundOneMore(failed, calls, fails);
      MsgsOneMore(failed);
      AddOne(Msgs(failed[..n]), RoundDone(failed[..n], |calls|, fails), Msgs(RetryRound(failed[..n], calls, fails).failed),
             failed[n].msg, fails(|calls| + n)(0));
    }
    assert Splits(Msgs(failed), RoundDone(failed, |calls|, fails), Msgs(RetryRound(failed, calls, fails).failed));
  }

  lemma NothingSplits(failed: seq<Item>, calls: seq<seq<Item>>, fails: nat -> nat -> bool)
    requires failed == []
    ensures Splits(Msgs(failed), RoundDone(failed, |calls|, fails), Msgs(RetryRound(failed, calls, fails).failed))
  {
  }

  ghost predicate PartsOf(parts: seq<seq<nat>>, all: seq<nat>) {
    && (forall k | 0 <= k < |parts| :: Sub(parts[k], all))
    && (forall j, k, m | j < k && InParts(parts, j, m) :: !InParts(parts, k, m))
  }

  lemma SubMember(a: seq<nat>, b: seq<nat>, x: nat)
    requires Sub(a, b) && x in a
    ensures x in b
  {
    var i :| 0 <= i < |a| && a[i] == x;
    var k := SubPosition(a, b, i);
  }

  lemma SubNoDup(a: seq<nat>, b: seq<nat>)
    requires Sub(a, b) && NoDup(b)
    ensures NoDup(a)
  {
    forall i, j | 0 <= i < j < |a|
      ensures a[i] != a[j]
    {
      var x, y := SubOrder(a, b, i, j);
    }
  }

  lemma {:induction false} CountOnce(s: seq<nat>, x: nat)
    requires NoDup(s)
    ensures multiset(s)[x] <= 1
    decreases |s|
  {
    if s != [] {
      var n := |s| - 1;
      assert s == s[..n] + [s[n]];
      CountOnce(s[..n], x);
    }
  }

  lemma SplitApart(all: seq<nat>, done: seq<nat>, still: seq<nat>, x: nat)
    requires NoDup(all) && Splits(all, done, still) && x in done
    ensures x !in still
  {
    CountOnce(all, x);
    assert x in multiset(done) && (x in still ==> x in multiset(still));
  }

  lemma FirstPart(all: seq<nat>, done: seq<nat>, still: seq<nat>, later: seq<seq<nat>>)
    requires NoDup(all) && Splits(all, done, still) && PartsOf(later, still)
    ensures PartsOf([done] + later, all)
  {
    var parts := [done] + later;
    hide NoDup;
    forall k | 0 <= k < |parts|
      ensures Sub(parts[k], all)
    {
      if k > 0 {
        SubTrans(later[k - 1], still, all);
      }
    }
    hide Sub;
    forall j: nat, k: nat, m | j < k && InParts(parts, j, m)
      ensures !InParts(parts, k, m)
    {
      assert InParts(parts, k, m) <==> InParts(later, k - 1, m);
      if j > 0 {
        assert InParts(later, j - 1, m);
      } else if InParts(later, k - 1, m) {
        SubMember(later[k - 1], still, m);
        SplitApart(all, done, still, m);
      }
    }
  }

  lemma {:induction false} LaterAreParts(failed: seq<Item>, calls: seq<seq<Item>>, attempt: nat, retries: nat,
                                         fails: nat -> nat -> bool, stop: nat -> bool)
    requires NoDup(Msgs(failed))
    ensures PartsOf(LaterRounds(failed, calls, attempt, retries, fails, stop), Msgs(failed))
    decreases retries + 1 - attempt
  {
    hide RetryRound, RoundDone, PartsOf, Splits, NoDup, Sub;
    if failed == [] || attempt > retries || stop(attempt) {
      NoParts(Msgs(failed));
    } else {
      var r := RetryRound(failed, calls, fails);
      RoundSplits(failed, calls, fails);
      StillNoDup(Msgs(failed), RoundDone(failed, |calls|, fails), Msgs(r.failed));
      LaterAreParts(r.failed, r.calls, attempt + 1, retries, fails, stop);
      FirstPart(Msgs(failed), RoundDone(failed, |calls|, fails), Msgs(r.failed),
                LaterRounds(r.failed, r.calls, attempt + 1, retries, fails, stop));
    }
  }

  lemma NoParts(all: seq<nat>)
    ensures PartsOf([], all)
  {
  }

  lemma StillNoDup(all: seq<nat>, done: seq<nat>, still: seq<nat>)
    requires NoDup(all) && Splits(all, done, still)
    ensures NoDup(still)
  {
    SubNoDup(still, all);
  }

  /** Every round does a part of the batch in its order, and no message is done in two rounds. */
  lemma RoundsArePart(items: seq<Item>, retries: nat, fails: nat -> nat -> bool, stop: nat -> bool)
    requires NoDup(Msgs(items))
    ensures PartsOf(DoneByRound(items, retries, fails, stop), Msgs(items))
  {
    hide PartsOf, Splits, NoDup, Sub, Passed, Select, LaterRounds, Msgs;
    var failed := Select(items, fails(0));
    CallSplits(items, fails(0));
    StillNoDup(Msgs(items), Msgs(Passed(items, fails(0))), Msgs(failed));
    LaterAreParts(failed, [items], 1, retries, fails, stop);
    FirstPart(Msgs(items), Msgs(Passed(items, fails(0))), Msgs(failed), LaterRounds(failed, [items], 1, retries, fails, stop));
  }

  /** Item j, behind item i, is done in an earlier round. */
  ghost predicate Overtakes(items: seq<Item>, parts: seq<seq<nat>>, i: nat, j: nat, early: nat, late: nat) {
    i < j < |items| && early < late && InParts(parts, early, items[j].msg) && InParts(parts, late, items[i].msg)
  }

  lemma PositionIs(b: seq<nat>, i: nat)
    requires NoDup(b) && i < |b|
    ensures b[i] in b && Position(b, b[i]) == i
  {
  }

  lemma InOrderMeans(items: seq<Item>, parts: seq<seq<nat>>)
    requires NoDup(Msgs(items)) && PartsOf(parts, Msgs(items))
    ensures PartsInOrder(parts, Msgs(items)) <==>
              !exists i: nat, j: nat, early: nat, late: nat :: Overtakes(items, parts, i, j, early, late)
  {
    var all := Msgs(items);
    hide Sub, NoDup, Position;
    if PartsInOrder(parts, all) {
      forall i: nat, j: nat, early: nat, late: nat
        ensures !Overtakes(items, parts, i, j, early, late)
      {
        if Overtakes(items, parts, i, j, early, late) {
          PositionIs(all, i);
          PositionIs(all, j);
        }
      }
    } else {
      var early: nat, late: nat, x, y :| early < late && InParts(parts, early, x) && InParts(parts, late, y) && !Before(all, x, y);
      SubMember(parts[early], all, x);
      SubMember(parts[late], all, y);
      assert x != y;
      assert Overtakes(items, parts, Position(all, y), Position(all, x), early, late);
    }
  }

  /**
   * The messages of a batch are done in their order exactly if none is done in a later round than one
   * behind it. This holds for any answers of the handler, and wherever the rounds are cut short.
   */
  lemma OrderKeptExactly(items: seq<Item>, retries: nat, fails: nat -> nat -> bool, stop: nat -> bool)
    requires NoDup(Msgs(items))
    ensures Sub(DoneOf(items, retries, fails, stop), Msgs(items)) <==>
              !exists i: nat, j: nat, early: nat, late: nat ::
                 Overtakes(items, DoneByRound(items, retries, fails, stop), i, j, early, late)
  {
    hide *;
    var parts := DoneByRound(items, retries, fails, stop);
    DoneIsFlat(items, retries, fails, stop);
    RoundsArePart(items, retries, fails, stop);
    AreSubs(parts, Msgs(items));
    FlatSub(parts, Msgs(items));
    InOrderMeans(items, parts);
    assert Sub(DoneOf(items, retries, fails, stop), Msgs(items)) <==>
             !exists i: nat, j: nat, early: nat, late: nat :: Overtakes(items, parts, i, j, early, late);
  }

  lemma AreSubs(parts: seq<seq<nat>>, all: seq<nat>)
    requires PartsOf(parts, all)
    ensures forall k | 0 <= k < |parts| :: Sub(parts[k], all)
  {
  }
}
