/**
 * The consumer of one node (pipeline/consumer.go): a fixed pool of workers shared by all keys,
 * with at most one worker on a key.
 */
module Consumers {
  import opened Items
  import opened Buffers

  const MAX_BURST_PER_TURN := 3

  datatype ConsumerState = ConsumerState(
    ready: seq<Key>,
    readySet: set<Key>,
    inflight: set<Key>,
    closed: bool)

  ghost predicate NoDup<T>(s: seq<T>) {
    forall i, j | 0 <= i < j < |s| :: s[i] != s[j]
  }

  ghost function Elements<T>(s: seq<T>): set<T> {
    set x | x in s
  }

  /** `readySet` indexes `ready`, nothing is listed twice, and no key is both waiting and being served. */
  ghost predicate WellFormed(c: ConsumerState) {
    && NoDup(c.ready)
    && c.readySet == Elements(c.ready)
    && c.readySet !! c.inflight
    && "" !in c.readySet && "" !in c.inflight
  }

  function MarkReady(c: ConsumerState, key: Key): ConsumerState {
    if key in c.readySet then c
    else c.(ready := c.ready + [key], readySet := c.readySet + {key})
  }

  /** Submit reaches the signal only for a real key that nobody is serving, before Close. */
  predicate SubmitSignals(c: ConsumerState, key: Key) {
    key != "" && !c.closed && key !in c.inflight
  }

  function Submitted(c: ConsumerState, key: Key): ConsumerState {
    if SubmitSignals(c, key) then MarkReady(c, key) else c
  }

  /** One round of the scan in next: does the head of `ready` get a worker? */
  predicate PopWins(c: ConsumerState, hasWork: bool)
    requires c.ready != []
  {
    c.ready[0] in c.readySet && c.ready[0] !in c.inflight && hasWork
  }

  function Popped(c: ConsumerState, hasWork: bool): ConsumerState
    requires c.ready != []
  {
    var key := c.ready[0];
    c.(ready := c.ready[1..], readySet := c.readySet - {key},
       inflight := if PopWins(c, hasWork) then c.inflight + {key} else c.inflight)
  }

  predicate ReleaseSignals(c: ConsumerState, hasWork: bool) { !c.closed && hasWork }

  function Released(c: ConsumerState, key: Key, hasWork: bool): ConsumerState {
    var c1 := c.(inflight := c.inflight - {key});
    if ReleaseSignals(c, hasWork) then MarkReady(c1, key) else c1
  }

  lemma SubmittedKeeps(c: ConsumerState, key: Key)
    requires WellFormed(c)
    ensures WellFormed(Submitted(c, key))
    ensures !c.closed && key != "" ==> key in Submitted(c, key).readySet + Submitted(c, key).inflight
    ensures |Submitted(c, key).ready| <= |c.ready| + 1
  {
  }

  /** A well-formed scan never meets a stale or busy entry: the head wins exactly when it has work. */
  lemma PoppedKeeps(c: ConsumerState, hasWork: bool)
    requires WellFormed(c) && c.ready != []
    ensures WellFormed(Popped(c, hasWork))
    ensures PopWins(c, hasWork) <==> hasWork
    ensures Popped(c, hasWork).readySet == c.readySet - {c.ready[0]}
  {
    assert Elements(c.ready) == Elements(c.ready[1..]) + {c.ready[0]};
    assert c.ready[0] in Elements(c.ready);
  }

  lemma ReleasedKeeps(c: ConsumerState, key: Key, hasWork: bool)
    requires WellFormed(c) && key in c.inflight
    ensures WellFormed(Released(c, key, hasWork))
    ensures !c.closed && hasWork ==> key in Released(c, key, hasWork).readySet
    ensures |Released(c, key, hasWork).ready| <= |c.ready| + 1
  {
  }

  /** The item is stored under the fallback key while Submit("") does nothing, so nobody is told about it. */
  lemma EmptyKeyIsStranded(b: BufferState, c: ConsumerState, item: Item)
    requires Valid(b) && HasRoom(b, FALLBACK_KEY) && item.key == ""
    ensures QueueOf(Enqueue(b, item), FALLBACK_KEY) == QueueOf(b, FALLBACK_KEY) + [item]
    ensures Submitted(c, item.key) == c && !SubmitSignals(c, item.key)
  {
    EnqueueKeeps(b, item);
  }

  lemma EmptyMeansNone(b: BufferState, key: Key, max: int)
    ensures Taken(b, key, max) == [] <==> QueueOf(b, key) == []
    ensures QueueOf(b, key) != [] && max == 1 ==> |Taken(b, key, max)| == 1
  {
  }

  /** Taking one item and then up to `batch - 1` more is taking up to `batch` at once. */
  lemma TakeInTwoSteps(b: BufferState, key: Key, batch: nat)
    requires Valid(b) && batch >= 1
    ensures TakeCount(b, key, 1) <= b.total
    ensures QueueOf(b, key) != [] && batch > 1 ==>
              Taken(b, key, batch) == Taken(b, key, 1) + Taken(AfterTake(b, key, 1), key, batch - 1)
    ensures QueueOf(b, key) != [] && batch == 1 ==> Taken(b, key, batch) == Taken(b, key, 1)
  {
    TakeKeeps(b, key, 1);
  }

  // ---------------------------------------------------------------------------------------------
  // The retry loop of process.

  /** How often message m occurs among the items. */
  function Times(items: seq<Item>, m: nat): nat {
    if items == [] then 0
    else
      var n := |items| - 1;
      Times(items[..n], m) + if items[n].msg == m then 1 else 0
  }

  lemma {:induction false} TimesAppend(xs: seq<Item>, ys: seq<Item>, m: nat)
    ensures Times(xs + ys, m) == Times(xs, m) + Times(ys, m)
    decreases |ys|
  {
    if ys == [] {
      assert xs + ys == xs;
    } else {
      var n := |ys| - 1;
      assert (xs + ys)[..|xs| + n] == xs + ys[..n];
      TimesAppend(xs, ys[..n], m);
    }
  }

  /** The items at the positions a handler call reports as failed, in order. */
  function Select(items: seq<Item>, fails: nat -> bool): (r: seq<Item>)
    ensures |r| <= |items|
  {
    if items == [] then []
    else
      var n := |items| - 1;
      Select(items[..n], fails) + if fails(n) then [items[n]] else []
  }

  lemma {:induction false} SelectTimes(items: seq<Item>, fails: nat -> bool, m: nat)
    ensures Times(Select(items, fails), m) <= Times(items, m)
    decreases |items|
  {
    if items != [] {
      var n := |items| - 1;
      SelectTimes(items[..n], fails, m);
      TimesAppend(Select(items[..n], fails), if fails(n) then [items[n]] else [], m);
    }
  }

  /** How often message m was handed to the handler. */
  ghost function Handled(calls: seq<seq<Item>>, m: nat): nat {
    if calls == [] then 0
    else
      var n := |calls| - 1;
      Handled(calls[..n], m) + Times(calls[n], m)
  }

  lemma HandledAppend(calls: seq<seq<Item>>, call: seq<Item>, m: nat)
    ensures Handled(calls + [call], m) == Handled(calls, m) + Times(call, m)
  {
    assert (calls + [call])[..|calls|] == calls;
  }

  /** Before round `attempt` is decided: what is still failing comes from the batch and was handled every round. */
  ghost predicate CountFacts(inBatch: nat, failed: nat, handled: nat, attempt: nat) {
    && attempt >= 1 && failed <= inBatch
    && inBatch + failed * (attempt - 1) <= handled <= inBatch * attempt
  }

  /** What process owes each message of the batch, by how often it occurs there. */
  ghost predicate Accounted(inBatch: nat, dead: nat, handled: nat, retries: nat, neverStopped: bool) {
    && inBatch <= handled <= inBatch * (retries + 1)
    && dead <= inBatch
    && (neverStopped ==> handled >= inBatch + dead * retries)
  }

  lemma FactsNext(inBatch: nat, failed: nat, next: nat, before: nat, after: nat, attempt: nat)
    requires CountFacts(inBatch, failed, before, attempt)
    requires next <= failed && after == before + failed
    ensures CountFacts(inBatch, next, after, attempt + 1)
  {
    Monotone(attempt - 1, next, failed);
    assert next * attempt == (attempt - 1) * next + next;
    assert inBatch * (attempt + 1) == inBatch * attempt + inBatch;
  }

  lemma FactsAtEnd(inBatch: nat, failed: nat, handled: nat, attempt: nat, retries: nat, neverStopped: bool)
    requires CountFacts(inBatch, failed, handled, attempt) && attempt <= retries + 1
    requires failed == 0 || attempt > retries || !neverStopped
    ensures Accounted(inBatch, failed, handled, retries, neverStopped)
  {
    Monotone(inBatch, attempt, retries + 1);
    assert 0 <= failed * (attempt - 1);
  }

  /** The handler calls made so far and the items that have not succeeded yet. */
  datatype Outcome = Outcome(calls: seq<seq<Item>>, failed: seq<Item>)

  /** One retry round: each failed item is handed over once more, alone and with one more attempt counted. */
  function RetryRound(failed: seq<Item>, calls: seq<seq<Item>>, fails: nat -> nat -> bool): (r: Outcome)
    ensures |r.calls| == |calls| + |failed| && calls <= r.calls
    ensures forall i | |calls| <= i < |r.calls| :: |r.calls[i]| == 1 && r.calls[i][0].msg == failed[i - |calls|].msg
  {
    if failed == [] then Outcome(calls, [])
    else
      var n := |failed| - 1;
      var r := RetryRound(failed[..n], calls, fails);
      var again := failed[n].(attempts := failed[n].attempts + 1);
      Outcome(r.calls + [[again]], r.failed + Select([again], fails(|r.calls|)))
  }

  function Rounds(failed: seq<Item>, calls: seq<seq<Item>>, attempt: nat, retries: nat,
                  fails: nat -> nat -> bool, stop: nat -> bool): Outcome
    decreases retries + 1 - attempt
  {
    if failed == [] || attempt > retries || stop(attempt) then Outcome(calls, failed)
    else
      var r := RetryRound(failed, calls, fails);
      Rounds(r.failed, r.calls, attempt + 1, retries, fails, stop)
  }

  /**
   * What process does with a batch. `fails(n)` says which positions handler call number n reports as
   * failed, `stop(a)` whether the context is cancelled when round a is decided.
   */
  function Processed(items: seq<Item>, retries: nat, fails: nat -> nat -> bool, stop: nat -> bool): Outcome {
    Rounds(Select(items, fails(0)), [items], 1, retries, fails, stop)
  }

  lemma {:induction false} RetryRoundCounts(failed: seq<Item>, calls: seq<seq<Item>>, fails: nat -> nat -> bool, m: nat)
    ensures Handled(RetryRound(failed, calls, fails).calls, m) == Handled(calls, m) + Times(failed, m)
    ensures Times(RetryRound(failed, calls, fails).failed, m) <= Times(failed, m)
    decreases |failed|
  {
    if failed != [] {
      var n := |failed| - 1;
      var r := RetryRound(failed[..n], calls, fails);
      var again := failed[n].(attempts := failed[n].attempts + 1);
      var still := Select([again], fails(|r.calls|));
      RetryRoundCounts(failed[..n], calls, fails, m);
      HandledAppend(r.calls, [again], m);
      TimesAppend(r.failed, still, m);
      SelectTimes([again], fails(|r.calls|), m);
      assert Times([again], m) == Times([failed[n]], m);
      TimesAppend(failed[..n], [failed[n]], m);
      assert failed[..n] + [failed[n]] == failed;
    }
  }

  lemma {:induction false} RoundsAccounted(inBatch: nat, failed: seq<Item>, calls: seq<seq<Item>>, attempt: nat,
                                           retries: nat, fails: nat -> nat -> bool, stop: nat -> bool, m: nat)
    requires CountFacts(inBatch, Times(failed, m), Handled(calls, m), attempt) && attempt <= retries + 1
    ensures var r := Rounds(failed, calls, attempt, retries, fails, stop);
            Accounted(inBatch, Times(r.failed, m), Handled(r.calls, m), retries, forall a :: !stop(a))
    decreases retries + 1 - attempt
  {
    if failed == [] || attempt > retries || stop(attempt) {
      FactsAtEnd(inBatch, Times(failed, m), Handled(calls, m), attempt, retries, forall a :: !stop(a));
    } else {
      var r := RetryRound(failed, calls, fails);
      RetryRoundCounts(failed, calls, fails, m);
      FactsNext(inBatch, Times(failed, m), Times(r.failed, m), Handled(calls, m), Handled(r.calls, m), attempt);
      RoundsAccounted(inBatch, r.failed, r.calls, attempt + 1, retries, fails, stop, m);
    }
  }

  /**
   * Every message of a batch is handed over at least as often as it occurs there and at most
   * retries + 1 times that; it is dead-lettered no more often than it occurs; and unless the context
   * is cancelled, what is dead-lettered has used up every attempt.
   */
  lemma ProcessAccounts(items: seq<Item>, retries: nat, fails: nat -> nat -> bool, stop: nat -> bool, m: nat)
    ensures var r := Processed(items, retries, fails, stop);
            Accounted(Times(items, m), Times(r.failed, m), Handled(r.calls, m), retries, forall a :: !stop(a))
  {
    HandledAppend([], items, m);
    assert [] + [items] == [items];
    SelectTimes(items, fails(0), m);
    var failed, counted := Times(Select(items, fails(0)), m), Handled([items], m);
    assert CountFacts(Times(items, m), failed, counted, 1);
    RoundsAccounted(Times(items, m), Select(items, fails(0)), [items], 1, retries, fails, stop, m);
  }

  /**
   * Order is promised only because what fails keeps failing: an item that fails once and then
   * succeeds is done after the items behind it in its batch.
   */
  lemma PassingFailureReorders(a: Item, b: Item, retries: nat, fails: nat -> nat -> bool, stop: nat -> bool)
    requires retries >= 1 && !stop(1)
    requires forall call, position :: fails(call)(position) <==> call == 0 && position == 0
    ensures Processed([a, b], retries, fails, stop) == Outcome([[a, b], [a.(attempts := a.attempts + 1)]], [])
  {
    var items, again := [a, b], a.(attempts := a.attempts + 1);
    assert items[..1] == [a] && [a][..0] == [] && [again][..0] == [];
    assert Select([a], fails(0)) == [a];
    assert Select(items, fails(0)) == [a];
    assert !fails(1)(0) && Select([again], fails(1)) == [] + [] == [];
    var none := RetryRound([], [items], fails);
    assert none == Outcome([items], []) && |none.calls| == 1;
    var r := RetryRound([a], [items], fails);
    assert r == Outcome(none.calls + [[again]], none.failed + Select([again], fails(|none.calls|)));
    assert r.calls == [items, [again]] && r.failed == [];
    assert Rounds([a], [items], 1, retries, fails, stop) == Rounds([], r.calls, 2, retries, fails, stop);
  }

  datatype NextJob = Serve(key: Key) | Park | Exit

  lemma Monotone(a: nat, x: nat, y: nat)
    requires x <= y
    ensures a * x <= a * y
  {
  }

  class Consumer {
    var ready: seq<Key>
    var readySet: set<Key>
    var inflight: set<Key>
    var closed: bool
    var cancelled: bool
    var workers: nat
    const buffer: MemoryBuffer

    ghost function Model(): ConsumerState
      reads this
    {
      ConsumerState(ready, readySet, inflight, closed)
    }

    constructor (buffer: MemoryBuffer)
      ensures this.buffer == buffer && Model() == ConsumerState([], {}, {}, false)
      ensures WellFormed(Model()) && workers == 0 && !cancelled
    {
      this.buffer := buffer;
      ready, readySet, inflight, closed, cancelled, workers := [], {}, {}, false, false, 0;
    }

    /** Starts the pool; a concurrency below one still starts one worker. */
    method Start(target: int)
      modifies this`workers
      ensures workers as int == if old(workers) < 1 && target < 1 then 1
                                else if old(workers) < target then target else old(workers)
    {
      var goal := if target < 1 then 1 else target;
      while workers < goal
        invariant old(workers) <= workers
        invariant workers <= goal || workers == old(workers)
      {
        workers := workers + 1;
      }
    }

    method Submit(key: Key) returns (signal: bool)
      requires WellFormed(Model())
      modifies this`ready, this`readySet
      ensures WellFormed(Model()) && Model() == Submitted(old(Model()), key)
      ensures signal == SubmitSignals(old(Model()), key)
    {
      SubmittedKeeps(Model(), key);
      if key == "" || closed || key in inflight {
        return false;
      }
      if key !in readySet {
        readySet := readySet + {key};
        ready := ready + [key];
      }
      return true;
    }

    /** One turn of the scan: the head of `ready` is served, or dropped because it is stale, busy or empty. */
    method PopHead() returns (won: bool, key: Key)
      requires WellFormed(Model()) && ready != []
      modifies this`ready, this`readySet, this`inflight
      ensures WellFormed(Model()) && closed == old(closed)
      ensures key == old(ready)[0] && won == (QueueOf(buffer.Model(), key) != [])
      ensures Model() == Popped(old(Model()), QueueOf(buffer.Model(), key) != [])
      ensures ready == old(ready)[1..]
      ensures inflight == if won then old(inflight) + {key} else old(inflight)
      ensures key !in old(inflight)
    {
      key := ready[0];
      assert key in Elements(ready);
      var len := buffer.Len(key);
      PoppedKeeps(Model(), len > 0);
      ready := ready[1..];
      if key !in readySet {
        return false, key;
      }
      readySet := readySet - {key};
      if key in inflight {
        return false, key;
      }
      if len == 0 {
        return false, key;
      }
      inflight := inflight + {key};
      return true, key;
    }

    /**
     * One round of next's outer loop: serve the first waiting key that has work, dropping the
     * waiting keys before it, which have none; park when no waiting key has work.
     */
    method NextRound() returns (r: NextJob)
      requires WellFormed(Model())
      modifies this`ready, this`readySet, this`inflight, this`workers
      ensures WellFormed(Model()) && closed == old(closed)
      ensures r.Exit? <==> old(closed) || cancelled
      ensures r.Exit? ==> Model() == old(Model()) && workers == (if old(workers) == 0 then 0 else old(workers) - 1)
      ensures !r.Exit? ==> workers == old(workers)
      ensures r.Park? ==> ready == [] && inflight == old(inflight)
                          && forall k | k in old(ready) :: QueueOf(buffer.Model(), k) == []
      ensures r.Serve? ==>
                var n := |old(ready)| - |ready|;
                && 1 <= n <= |old(ready)|
                && r.key == old(ready)[n - 1] && QueueOf(buffer.Model(), r.key) != []
                && (forall i | 0 <= i < n - 1 :: QueueOf(buffer.Model(), old(ready)[i]) == [])
                && ready == old(ready)[n..]
                && r.key !in old(inflight) && inflight == old(inflight) + {r.key}
    {
      if closed || cancelled {
        workers := if workers == 0 then 0 else workers - 1;
        return Exit;
      }
      hide WellFormed, QueueOf;
      ghost var n := 0;
      while ready != []
        invariant WellFormed(Model()) && closed == old(closed) && workers == old(workers)
        invariant n <= |old(ready)| && ready == old(ready)[n..]
        invariant inflight == old(inflight)
        invariant forall i | 0 <= i < n :: QueueOf(buffer.Model(), old(ready)[i]) == []
        decreases |ready|
      {
        var won, key := PopHead();
        if won {
          return Serve(key);
        }
        n := n + 1;
      }
      return Park;
    }

    /** Give the key back; it goes to the end of the line if it still has work. */
    method Release(key: Key) returns (signal: bool)
      requires WellFormed(Model()) && key in inflight
      modifies this`ready, this`readySet, this`inflight
      ensures WellFormed(Model())
      ensures Model() == Released(old(Model()), key, QueueOf(buffer.Model(), key) != [])
      ensures signal == ReleaseSignals(old(Model()), QueueOf(buffer.Model(), key) != [])
    {
      var len := buffer.Len(key);
      ReleasedKeeps(Model(), key, len > 0);
      inflight := inflight - {key};
      if closed {
        return false;
      }
      if len > 0 {
        if key !in readySet {
          readySet := readySet + {key};
          ready := ready + [key];
        }
        return true;
      }
      return false;
    }

    /** Without interference the two takes of a batch are one take of `batch` items. */
    method TakeBatch(key: Key, batch: nat) returns (items: seq<Item>)
      requires Valid(buffer.Model()) && batch >= 1 && key != ""
      modifies buffer
      ensures Valid(buffer.Model())
      ensures items == Taken(old(buffer.Model()), key, batch)
      ensures QueueOf(old(buffer.Model()), key) == items + QueueOf(buffer.Model(), key)
      ensures forall k | k != key :: QueueOf(buffer.Model(), k) == QueueOf(old(buffer.Model()), k)
    {
      TakeInTwoSteps(buffer.Model(), key, batch);
      TakeKeeps(buffer.Model(), key, 1);
      TakeKeeps(buffer.Model(), key, batch);
      EmptyMeansNone(buffer.Model(), key, 1);
      EmptyMeansNone(buffer.Model(), key, batch);
      hide Valid, Taken, QueueOf, TakeCount, AfterTake;
      items := buffer.TakeReady(key, 1);
      if items == [] {
        return;
      }
      var remaining := batch - |items|;
      if remaining > 0 {
        TakeKeeps(buffer.Model(), key, remaining);
        var more := buffer.TakeReady(key, remaining);
        items := items + more;
      }
    }

    method Close()
      modifies this`closed
      ensures Model() == old(Model()).(closed := true)
    {
      closed := true;
    }

    method RetryAll(failed: seq<Item>, callsSoFar: seq<seq<Item>>, fails: nat -> nat -> bool)
      returns (calls: seq<seq<Item>>, next: seq<Item>)
      ensures Outcome(calls, next) == RetryRound(failed, callsSoFar, fails)
    {
      calls, next := callsSoFar, [];
      var i := 0;
      while i < |failed|
        invariant i <= |failed|
        invariant Outcome(calls, next) == RetryRound(failed[..i], callsSoFar, fails)
      {
        var again := failed[i].(attempts := failed[i].attempts + 1);
        assert failed[..i + 1][..i] == failed[..i];
        next := next + Select([again], fails(|calls|));
        calls := calls + [[again]];
        i := i + 1;
      }
      assert failed[..i] == failed;
    }

    /** process: one call with the whole batch, then rounds of single-item retries; what still fails is dead-lettered. */
    method Process(items: seq<Item>, retries: nat, fails: nat -> nat -> bool, stop: nat -> bool)
      returns (calls: seq<seq<Item>>, dead: seq<Item>)
      ensures Outcome(calls, dead) == Processed(items, retries, fails, stop)
    {
      calls := [items];
      var failed := Select(items, fails(0));
      var attempt: nat := 1;
      while failed != []
        invariant 1 <= attempt <= retries + 1
        invariant Rounds(failed, calls, attempt, retries, fails, stop) == Processed(items, retries, fails, stop)
        decreases retries + 1 - attempt
      {
        if attempt > retries || stop(attempt) {
          return calls, failed;
        }
        calls, failed := RetryAll(failed, calls, fails);
        attempt := attempt + 1;
      }
      dead := [];
    }
  }
}
