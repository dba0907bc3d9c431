/**
 * Which handlers have every batch done in its order (process in pipeline/consumer.go), and why those of
 * the bot's domains do (bot/domains.go).
 */
module HandlerOrder {
  import opened Items
  import opened Consumers
  import opened NodeProtocol
  import opened Retries
  import opened Subsequences
  import opened DoneOrder
  import Chain

  /** A handler by what it reports as failed: an item, with the attempts made so far. */
  type Reports = Item -> bool

  function Tried(x: Item, attempts: nat): Item { x.(attempts := attempts) }

  /** The attempt at which an item gets through. */
  ghost predicate PassesAt(h: Reports, x: Item, attempt: nat) {
    !h(Tried(x, attempt)) && forall a: nat | a < attempt :: h(Tried(x, a))
  }

  /** Items as a node takes them: of one key, not tried yet, each message once. */
  ghost predicate NewBatch(items: seq<Item>, key: Key) {
    NoDup(Msgs(items)) && forall i | 0 <= i < |items| :: items[i].key == key && items[i].attempts == 0
  }

  /** From call number `from` on, the answers are the handler's. */
  ghost predicate Answers(fails: nat -> nat -> bool, h: Reports, calls: seq<seq<Item>>, from: nat) {
    forall c: nat, p: nat | from <= c < |calls| && p < |calls[c]| :: fails(c)(p) == h(calls[c][p])
  }

  lemma {:induction false} CallAnswered(items: seq<Item>, fails: nat -> bool, h: Reports)
    requires forall p: nat | p < |items| :: fails(p) == h(items[p])
    ensures forall x :: x in Passed(items, fails) <==> x in items && !h(x)
    ensures forall x :: x in Select(items, fails) <==> x in items && h(x)
    decreases |items|
  {
    if items != [] {
      var n := |items| - 1;
      assert items == items[..n] + [items[n]];
      CallAnswered(items[..n], fails, h);
    }
  }

  /** What is waiting for a round: exactly the items of the batch that failed at every attempt before. */
  ghost predicate Waiting(failed: seq<Item>, items: seq<Item>, h: Reports, attempt: nat)
    requires attempt >= 1
  {
    forall x :: x in failed <==> exists o :: FailedSoFar(o, items, h, attempt) && x == Tried(o, attempt - 1)
  }

  ghost predicate FailedSoFar(o: Item, items: seq<Item>, h: Reports, attempt: nat) {
    o in items && forall a: nat | a < attempt :: h(Tried(o, a))
  }

  /** Message m gets through at this attempt. */
  ghost predicate Through(m: nat, items: seq<Item>, h: Reports, attempt: nat) {
    exists o :: o in items && o.msg == m && PassesAt(h, o, attempt)
  }

  /** Message m is among the failed and gets through when tried again. */
  ghost predicate Succeeds(failed: seq<Item>, h: Reports, m: nat) {
    exists f :: f in failed && f.msg == m && !h(Bump(f))
  }

  /** Some failed item, tried again, is x and fails. */
  ghost predicate FailsAgain(failed: seq<Item>, h: Reports, x: Item) {
    exists f :: f in failed && x == Bump(f) && h(x)
  }

  lemma OneMoreTried(failed: seq<Item>, h: Reports, m: nat, x: Item)
    requires failed != []
    ensures var n := |failed| - 1;
            && (Succeeds(failed, h, m) <==> Succeeds(failed[..n], h, m) || (failed[n].msg == m && !h(Bump(failed[n]))))
            && (FailsAgain(failed, h, x) <==> FailsAgain(failed[..n], h, x) || (x == Bump(failed[n]) && h(x)))
  {
    assert failed == failed[..|failed| - 1] + [failed[|failed| - 1]];
  }

  lemma {:induction false} RoundAnswered(failed: seq<Item>, calls: seq<seq<Item>>, fails: nat -> nat -> bool, h: Reports,
                                         m: nat, x: Item)
    requires Answers(fails, h, RetryRound(failed, calls, fails).calls, |calls|)
    ensures m in RoundDone(failed, |calls|, fails) <==> Succeeds(failed, h, m)
    ensures x in RetryRound(failed, calls, fails).failed <==> FailsAgain(failed, h, x)
    decreases |failed|
  {
    hide RetryRound, RoundDone, Passed, Select, Answers;
    if failed == [] {
      EmptyRound(failed, calls, fails);
      NothingDone(failed, |calls|, fails);
    } else {
      hide Succeeds, FailsAgain;
      var n := |failed| - 1;
      LastAgain(failed, calls, fails);
      AnsweredPrefix(fails, h, RetryRound(failed[..n], calls, fails).calls, [Bump(failed[n])], |calls|);
      RoundAnswered(failed[..n], calls, fails, h, m, x);
      RoundOneMore(failed, calls, fails);
      OneSelected(Bump(failed[n]), fails(|calls| + n));
      OneMoreTried(failed, h, m, x);
    }
  }

  lemma AnsweredPrefix(fails: nat -> nat -> bool, h: Reports, calls: seq<seq<Item>>, call: seq<Item>, from: nat)
    requires Answers(fails, h, calls + [call], from) && from <= |calls|
    ensures Answers(fails, h, calls, from)
    ensures forall p: nat | p < |call| :: fails(|calls|)(p) == h(call[p])
  {
    assert (calls + [call])[|calls|] == call;
    assert forall c: nat | c < |calls| :: (calls + [call])[c] == calls[c];
  }

  lemma OneSelected(x: Item, fails: nat -> bool)
    ensures Select([x], fails) == if fails(0) then [x] else []
  {
    assert [x][..0] == [];
  }

  lemma RoundMeans(failed: seq<Item>, calls: seq<seq<Item>>, items: seq<Item>, h: Reports, attempt: nat,
                   fails: nat -> nat -> bool)
    requires attempt >= 1 && Waiting(failed, items, h, attempt)
    requires Answers(fails, h, RetryRound(failed, calls, fails).calls, |calls|)
    ensures forall m :: m in RoundDone(failed, |calls|, fails) <==> Through(m, items, h, attempt)
    ensures Waiting(RetryRound(failed, calls, fails).failed, items, h, attempt + 1)
  {
    hide RetryRound, RoundDone, Answers, Succeeds, FailsAgain;
    var done, still := RoundDone(failed, |calls|, fails), RetryRound(failed, calls, fails).failed;
    forall m
      ensures m in done <==> Through(m, items, h, attempt)
    {
      RoundAnswered(failed, calls, fails, h, m, Item("", "", 0, false, 0));
      DoneThrough(failed, items, h, attempt, m);
    }
    forall x
      ensures x in still <==> exists o :: FailedSoFar(o, items, h, attempt + 1) && x == Tried(o, attempt)
    {
      RoundAnswered(failed, calls, fails, h, 0, x);
      StillWaiting(failed, items, h, attempt, x);
    }
  }

  lemma DoneThrough(failed: seq<Item>, items: seq<Item>, h: Reports, attempt: nat, m: nat)
    requires attempt >= 1 && Waiting(failed, items, h, attempt)
    ensures Succeeds(failed, h, m) <==> Through(m, items, h, attempt)
  {
    if f :| f in failed && f.msg == m && !h(Bump(f)) {
      var o :| FailedSoFar(o, items, h, attempt) && f == Tried(o, attempt - 1);
      assert Bump(f) == Tried(o, attempt) && PassesAt(h, o, attempt);
    }
    if o :| o in items && o.msg == m && PassesAt(h, o, attempt) {
      assert FailedSoFar(o, items, h, attempt);
      assert Tried(o, attempt - 1) in failed && Bump(Tried(o, attempt - 1)) == Tried(o, attempt);
    }
  }

  lemma StillWaiting(failed: seq<Item>, items: seq<Item>, h: Reports, attempt: nat, x: Item)
    requires attempt >= 1 && Waiting(failed, items, h, attempt)
    ensures FailsAgain(failed, h, x) <==>
            exists o :: FailedSoFar(o, items, h, attempt + 1) && x == Tried(o, attempt)
  {
    if f :| f in failed && x == Bump(f) && h(x) {
      var o :| FailedSoFar(o, items, h, attempt) && f == Tried(o, attempt - 1);
      assert FailedSoFar(o, items, h, attempt + 1) && x == Tried(o, attempt);
    }
    if o :| FailedSoFar(o, items, h, attempt + 1) && x == Tried(o, attempt) {
      assert FailedSoFar(o, items, h, attempt);
      assert Tried(o, attempt - 1) in failed && Bump(Tried(o, attempt - 1)) == x && h(x);
    }
  }

  lemma {:induction false} CallsOnlyGrow(failed: seq<Item>, calls: seq<seq<Item>>, attempt: nat, retries: nat,
                                         fails: nat -> nat -> bool, stop: nat -> bool)
    ensures calls <= Rounds(failed, calls, attempt, retries, fails, stop).calls
    decreases retries + 1 - attempt
  {
    hide RetryRound;
    if !(failed == [] || attempt > retries || stop(attempt)) {
      var r := RetryRound(failed, calls, fails);
      CallsOnlyGrow(r.failed, r.calls, attempt + 1, retries, fails, stop);
    }
  }

  lemma AnswersFewer(fails: nat -> nat -> bool, h: Reports, calls: seq<seq<Item>>, more: seq<seq<Item>>, from: nat)
    requires Answers(fails, h, more, from) && calls <= more
    ensures Answers(fails, h, calls, from)
  {
    assert forall c: nat | c < |calls| :: calls[c] == more[c];
  }

  lemma AnswersLater(fails: nat -> nat -> bool, h: Reports, calls: seq<seq<Item>>, from: nat, later: nat)
    requires Answers(fails, h, calls, from) && from <= later
    ensures Answers(fails, h, calls, later)
  {
  }

  /** What the later rounds do, said of the handler: who gets through at which attempt. */
  lemma {:induction false} LaterMean(failed: seq<Item>, calls: seq<seq<Item>>, attempt: nat, retries: nat,
                                     fails: nat -> nat -> bool, stop: nat -> bool, items: seq<Item>, h: Reports,
                                     k: nat, m: nat)
    requires attempt >= 1 && Waiting(failed, items, h, attempt)
    requires Answers(fails, h, Rounds(failed, calls, attempt, retries, fails, stop).calls, |calls|)
    ensures InParts(LaterRounds(failed, calls, attempt, retries, fails, stop), k, m) ==>
              attempt + k <= retries && Through(m, items, h, attempt + k)
    ensures attempt + k <= retries && Through(m, items, h, attempt + k) && (forall a :: !stop(a)) ==>
              InParts(LaterRounds(failed, calls, attempt, retries, fails, stop), k, m)
    decreases retries + 1 - attempt
  {
    hide RetryRound, RoundDone, Answers, Waiting, Through;
    var parts := LaterRounds(failed, calls, attempt, retries, fails, stop);
    if failed == [] || attempt > retries || stop(attempt) {
      if failed == [] {
        NobodyWaits(items, h, attempt, k, m);
      }
    } else {
      var r := RetryRound(failed, calls, fails);
      CallsOnlyGrow(r.failed, r.calls, attempt + 1, retries, fails, stop);
      var all := Rounds(failed, calls, attempt, retries, fails, stop).calls;
      AnswersFewer(fails, h, r.calls, all, |calls|);
      AnswersLater(fails, h, all, |calls|, |r.calls|);
      RoundMeans(failed, calls, items, h, attempt, fails);
      if k > 0 {
        LaterMean(r.failed, r.calls, attempt + 1, retries, fails, stop, items, h, k - 1, m);
      }
    }
  }

  lemma NobodyWaits(items: seq<Item>, h: Reports, attempt: nat, k: nat, m: nat)
    requires attempt >= 1 && Waiting([], items, h, attempt)
    ensures !Through(m, items, h, attempt + k)
  {
    forall o | o in items
      ensures !PassesAt(h, o, attempt + k)
    {
      assert Tried(o, attempt - 1) !in [];
      assert !FailedSoFar(o, items, h, attempt);
    }
  }

  lemma FirstWaiting(failed: seq<Item>, items: seq<Item>, key: Key, h: Reports)
    requires NewBatch(items, key) && forall x :: x in failed <==> x in items && h(x)
    ensures Waiting(failed, items, h, 1)
  {
    forall o | o in items
      ensures Tried(o, 0) == o && (FailedSoFar(o, items, h, 1) <==> h(o))
    {
      assert FailedSoFar(o, items, h, 1) <==> h(Tried(o, 0));
    }
  }

  lemma FirstThrough(passed: seq<Item>, items: seq<Item>, key: Key, h: Reports, m: nat)
    requires NewBatch(items, key) && forall x :: x in passed <==> x in items && !h(x)
    ensures m in Msgs(passed) <==> Through(m, items, h, 0)
  {
    if m in Msgs(passed) {
      var i :| 0 <= i < |passed| && Msgs(passed)[i] == m;
      assert passed[i] in passed && Tried(passed[i], 0) == passed[i] && PassesAt(h, passed[i], 0);
    }
    if o :| o in items && o.msg == m && PassesAt(h, o, 0) {
      assert Tried(o, 0) == o && o in passed;
      var i :| 0 <= i < |passed| && passed[i] == o;
      assert Msgs(passed)[i] == m;
    }
  }

  /** A message is done in round k exactly if it gets through at attempt k, while the rounds last. */
  lemma RoundsMean(items: seq<Item>, key: Key, retries: nat, fails: nat -> nat -> bool, stop: nat -> bool, h: Reports,
                   k: nat, m: nat)
    requires NewBatch(items, key) && Answers(fails, h, Processed(items, retries, fails, stop).calls, 0)
    ensures InParts(DoneByRound(items, retries, fails, stop), k, m) ==> k <= retries && Through(m, items, h, k)
    ensures k <= retries && Through(m, items, h, k) && (forall a :: !stop(a)) ==>
              InParts(DoneByRound(items, retries, fails, stop), k, m)
  {
    hide Rounds, LaterRounds, Answers, Through, Waiting, NewBatch, Passed, Select, Msgs;
    var failed, all := Select(items, fails(0)), Processed(items, retries, fails, stop).calls;
    CallsOnlyGrow(failed, [items], 1, retries, fails, stop);
    FirstAnswered(fails, h, items, all);
    CallAnswered(items, fails(0), h);
    FirstWaiting(failed, items, key, h);
    FirstThrough(Passed(items, fails(0)), items, key, h, m);
    AnswersLater(fails, h, all, 0, 1);
    if k > 0 {
      LaterMean(failed, [items], 1, retries, fails, stop, items, h, k - 1, m);
    }
  }

  lemma FirstAnswered(fails: nat -> nat -> bool, h: Reports, items: seq<Item>, all: seq<seq<Item>>)
    requires Answers(fails, h, all, 0) && [items] <= all
    ensures forall p: nat | p < |items| :: fails(0)(p) == h(items[p])
  {
    assert all[0] == items;
  }

  // Such answers exist.

  function FailBy(items: seq<Item>, h: Reports): seq<Item> {
    if items == [] then []
    else
      var n := |items| - 1;
      FailBy(items[..n], h) + if h(items[n]) then [items[n]] else []
  }

  function RoundBy(failed: seq<Item>, calls: seq<seq<Item>>, h: Reports): (r: Outcome)
    ensures |r.calls| == |calls| + |failed| && calls <= r.calls
  {
    if failed == [] then Outcome(calls, [])
    else
      var r, again := RoundBy(failed[..|failed| - 1], calls, h), Bump(failed[|failed| - 1]);
      Outcome(r.calls + [[again]], r.failed + if h(again) then [again] else [])
  }

  function RoundsBy(failed: seq<Item>, calls: seq<seq<Item>>, attempt: nat, retries: nat, h: Reports,
                    stop: nat -> bool): (r: Outcome)
    ensures calls <= r.calls
    decreases retries + 1 - attempt
  {
    if failed == [] || attempt > retries || stop(attempt) then Outcome(calls, failed)
    else
      var r := RoundBy(failed, calls, h);
      RoundsBy(r.failed, r.calls, attempt + 1, retries, h, stop)
  }

  lemma {:induction false} SelectBy(items: seq<Item>, fails: nat -> bool, h: Reports)
    requires forall p: nat | p < |items| :: fails(p) == h(items[p])
    ensures Select(items, fails) == FailBy(items, h)
    decreases |items|
  {
    if items != [] {
      SelectBy(items[..|items| - 1], fails, h);
    }
  }

  lemma {:induction false} RoundAgrees(failed: seq<Item>, calls: seq<seq<Item>>, fails: nat -> nat -> bool, h: Reports)
    requires Answers(fails, h, RoundBy(failed, calls, h).calls, |calls|)
    ensures RetryRound(failed, calls, fails) == RoundBy(failed, calls, h)
    decreases |failed|
  {
    if failed != [] {
      var n := |failed| - 1;
      var r := RoundBy(failed[..n], calls, h);
      hide RetryRound, Select, RoundDone;
      AnsweredPrefix(fails, h, r.calls, [Bump(failed[n])], |calls|);
      RoundAgrees(failed[..n], calls, fails, h);
      LastAgain(failed, calls, fails);
      OneSelected(Bump(failed[n]), fails(|calls| + n));
    }
  }

  lemma {:induction false} RoundsAgree(failed: seq<Item>, calls: seq<seq<Item>>, attempt: nat, retries: nat,
                                       fails: nat -> nat -> bool, stop: nat -> bool, h: Reports)
    requires Answers(fails, h, RoundsBy(failed, calls, attempt, retries, h, stop).calls, |calls|)
    ensures Rounds(failed, calls, attempt, retries, fails, stop) == RoundsBy(failed, calls, attempt, retries, h, stop)
    decreases retries + 1 - attempt
  {
    hide RetryRound, RoundBy, Answers;
    if !(failed == [] || attempt > retries || stop(attempt)) {
      var r, all := RoundBy(failed, calls, h), RoundsBy(failed, calls, attempt, retries, h, stop).calls;
      AnswersFewer(fails, h, r.calls, all, |calls|);
      AnswersLater(fails, h, all, |calls|, |r.calls|);
      RoundAgrees(failed, calls, fails, h);
      RoundsAgree(r.failed, r.calls, attempt + 1, retries, fails, stop, h);
    }
  }

  /** Every handler gives some answers, call by call, to the batch they lead to. */
  lemma AnswersExist(items: seq<Item>, retries: nat, stop: nat -> bool, h: Reports) returns (fails: nat -> nat -> bool)
    ensures Answers(fails, h, Processed(items, retries, fails, stop).calls, 0)
  {
    var all := RoundsBy(FailBy(items, h), [items], 1, retries, h, stop).calls;
    fails := (c: nat) => (p: nat) => c < |all| && p < |all[c]| && h(all[c][p]);
    assert Answers(fails, h, all, 0);
    hide Answers, Rounds, RoundsBy;
    FirstAnswered(fails, h, items, all);
    SelectBy(items, fails(0), h);
    AnswersLater(fails, h, all, 0, 1);
    RoundsAgree(FailBy(items, h), [items], 1, retries, fails, stop, h);
  }

  // ---------------------------------------------------------------------------------------------
  // Which handlers keep the order.

  const NEVER: nat -> bool := (a: nat) => false

  ghost predicate KeepsOrder(items: seq<Item>, retries: nat, fails: nat -> nat -> bool, h: Reports) {
    Answers(fails, h, Processed(items, retries, fails, NEVER).calls, 0) ==> Sub(DoneOf(items, retries, fails, NEVER), Msgs(items))
  }

  /** Any two messages of a key that get through do so at the same attempt. */
  ghost predicate SameAttempt(h: Reports, retries: nat, key: Key) {
    forall x: Item, y: Item, a: nat, b: nat | x.key == key && y.key == key && x.attempts == 0 && y.attempts == 0 && x.msg != y.msg
      && a <= retries && b <= retries && PassesAt(h, x, a) && PassesAt(h, y, b) :: a == b
  }

  lemma SameAttemptKeeps(h: Reports, retries: nat, key: Key, items: seq<Item>, fails: nat -> nat -> bool, stop: nat -> bool)
    requires SameAttempt(h, retries, key) && NewBatch(items, key)
    requires Answers(fails, h, Processed(items, retries, fails, stop).calls, 0)
    ensures Sub(DoneOf(items, retries, fails, stop), Msgs(items))
  {
    hide Answers, Processed, DoneOf, DoneByRound, Sub, PassesAt, Through, SameAttempt;
    OrderKeptExactly(items, retries, fails, stop);
    var parts := DoneByRound(items, retries, fails, stop);
    forall i: nat, j: nat, early: nat, late: nat
      ensures !Overtakes(items, parts, i, j, early, late)
    {
      if i < j < |items| && early < late {
        RoundsMean(items, key, retries, fails, stop, h, early, items[j].msg);
        RoundsMean(items, key, retries, fails, stop, h, late, items[i].msg);
        if late <= retries {
          NotBothThrough(h, retries, key, items, i, j, early, late);
        }
      }
    }
  }

  lemma NotBothThrough(h: Reports, retries: nat, key: Key, items: seq<Item>, i: nat, j: nat, early: nat, late: nat)
    requires SameAttempt(h, retries, key) && NewBatch(items, key) && i < j < |items| && early < late <= retries
    ensures !(Through(items[j].msg, items, h, early) && Through(items[i].msg, items, h, late))
  {
    DifferentMessages(items, i, j);
    hide PassesAt;
    if Through(items[j].msg, items, h, early) {
      var x :| x in items && x.msg == items[j].msg && PassesAt(h, x, early);
      forall y | y in items && y.msg == items[i].msg
        ensures !PassesAt(h, y, late)
      {
      }
    }
  }

  lemma DifferentMessages(items: seq<Item>, i: nat, j: nat)
    requires NoDup(Msgs(items)) && i < j < |items|
    ensures items[i].msg != items[j].msg
  {
    assert Msgs(items)[i] != Msgs(items)[j];
  }

  /** The one that gets through later, put first, is overtaken. */
  lemma LaterIsOvertaken(h: Reports, retries: nat, key: Key, x: Item, y: Item, a: nat, b: nat, fails: nat -> nat -> bool)
    requires x.key == key && y.key == key && x.attempts == 0 && y.attempts == 0 && x.msg != y.msg
    requires a < b <= retries && PassesAt(h, x, a) && PassesAt(h, y, b)
    requires Answers(fails, h, Processed([y, x], retries, fails, NEVER).calls, 0)
    ensures NewBatch([y, x], key) && !KeepsOrder([y, x], retries, fails, h)
  {
    var items := [y, x];
    assert Msgs(items) == [y.msg, x.msg] && NewBatch(items, key);
    assert Through(x.msg, items, h, a) && Through(y.msg, items, h, b);
    hide Answers, Processed, DoneOf, DoneByRound, Sub, PassesAt, NewBatch, Through, Msgs;
    RoundsMean(items, key, retries, fails, NEVER, h, a, x.msg);
    RoundsMean(items, key, retries, fails, NEVER, h, b, y.msg);
    assert Overtakes(items, DoneByRound(items, retries, fails, NEVER), 0, 1, a, b);
    assert NoDup(Msgs(items)) by {
      TwoDistinct(y, x);
    }
    OrderKeptExactly(items, retries, fails, NEVER);
  }

  lemma TwoDistinct(y: Item, x: Item)
    requires x.msg != y.msg
    ensures NoDup(Msgs([y, x]))
  {
  }

  /** A handler has every batch done in its order exactly if all that gets through does so at the same attempt. */
  lemma HandlersThatKeepOrder(h: Reports, retries: nat, key: Key)
    ensures (forall items, fails: nat -> nat -> bool | NewBatch(items, key) :: KeepsOrder(items, retries, fails, h)) <==>
              SameAttempt(h, retries, key)
  {
    hide NewBatch, Processed, DoneOf, Sub, Answers, PassesAt;
    if SameAttempt(h, retries, key) {
      forall items, fails: nat -> nat -> bool | NewBatch(items, key)
        ensures KeepsOrder(items, retries, fails, h)
      {
        if Answers(fails, h, Processed(items, retries, fails, NEVER).calls, 0) {
          SameAttemptKeeps(h, retries, key, items, fails, NEVER);
        }
      }
    } else {
      var x: Item, y: Item, a: nat, b: nat :| x.key == key && y.key == key && x.attempts == 0 && y.attempts == 0 && x.msg != y.msg
        && a <= retries && b <= retries && PassesAt(h, x, a) && PassesAt(h, y, b) && a != b;
      hide KeepsOrder;
      if a < b {
        var fails := AnswersExist([y, x], retries, NEVER, h);
        LaterIsOvertaken(h, retries, key, x, y, a, b, fails);
      } else {
        var fails := AnswersExist([x, y], retries, NEVER, h);
        LaterIsOvertaken(h, retries, key, y, x, b, a, fails);
      }
    }
  }

  /** What failed once fails every time. */
  ghost predicate Permanent(h: Reports) {
    forall x, a: nat, b: nat :: h(Tried(x, a)) == h(Tried(x, b))
  }

  lemma PermanentIsSameAttempt(h: Reports, retries: nat, key: Key)
    requires Permanent(h)
    ensures SameAttempt(h, retries, key)
  {
    forall x, a: nat | PassesAt(h, x, a)
      ensures a == 0
    {
      assert h(Tried(x, 0)) == h(Tried(x, a));
    }
  }

  // ---------------------------------------------------------------------------------------------
  // The bot's own domains.

  /** What the domains report: bodies that do not decode, and the command domain nothing. */
  function Undecodable(i: nat): Reports { (x: Item) => i != Chain.COMMAND && !x.decodes }

  lemma {:induction false} DomainsReport(i: nat, items: seq<Item>, vs: seq<Chain.Verdict>, key: Key)
    requires Chain.Batch(i, items, vs, key)
    ensures Chain.Sort(items, vs).failed == FailBy(items, Undecodable(i))
    decreases |items|
  {
    if items != [] {
      var n := |items| - 1;
      DomainsReport(i, items[..n], vs[..n], key);
    }
  }

  /** So every domain of the bot has every batch done in its order, cancelled or not. */
  lemma DomainsKeepOrder(i: nat, items: seq<Item>, key: Key, retries: nat, fails: nat -> nat -> bool, stop: nat -> bool)
    requires NewBatch(items, key) && Answers(fails, Undecodable(i), Processed(items, retries, fails, stop).calls, 0)
    ensures Sub(DoneOf(items, retries, fails, stop), Msgs(items))
  {
    var h := Undecodable(i);
    assert Permanent(h);
    hide Undecodable, Permanent, SameAttempt, NewBatch, Answers, Processed, DoneOf, Sub;
    PermanentIsSameAttempt(h, retries, key);
    SameAttemptKeeps(h, retries, key, items, fails, stop);
  }
}
