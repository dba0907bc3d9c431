/**
 * The bounded in-memory buffer (pipeline/buffer.go): one FIFO queue per key, a cap per key, a
 * cap over all keys, and two broadcast channels.
 *
 * A broadcast channel is modelled by a counter: closing the current channel and installing a new
 * one is an increment, and a waiter holding channel number g has been woken once the counter has
 * left g.
 */
module Buffers {
  import opened Items
  import Sums

  type Queues = map<Key, seq<Item>>

  datatype BufferState = BufferState(
    queues: Queues,
    total: nat,
    perKey: nat,
    global: nat,
    closed: bool,
    data: nat,
    space: nat)

  function QueueLength(q: seq<Item>): nat { |q| }

  function QueueOf(b: BufferState, key: Key): seq<Item> {
    if key in b.queues then b.queues[key] else []
  }

  predicate HasRoom(b: BufferState, key: Key) {
    |QueueOf(b, key)| < b.perKey && b.total < b.global
  }

  /** The caps hold, the running total is the true total, and no empty queue is kept. */
  ghost predicate Valid(b: BufferState) {
    && 1 <= b.perKey && 1 <= b.global
    && b.total == Sums.SumBy(b.queues, QueueLength)
    && b.total <= b.global
    && forall k | k in b.queues :: 0 < |b.queues[k]| <= b.perKey
  }

  function Min(a: int, b: int): int { if a <= b then a else b }

  function Empty(perKey: int, global: int): BufferState {
    var p := if perKey <= 0 then 1 else perKey;
    BufferState(map[], 0, p, if global <= 0 then p else global, false, 0, 0)
  }

  function Enqueue(b: BufferState, item: Item): BufferState {
    var k := Normalize(item.key);
    b.(queues := b.queues[k := QueueOf(b, k) + [item]], total := b.total + 1, data := b.data + 1)
  }

  /** How many items a request for `max` of them gets. */
  function TakeCount(b: BufferState, key: Key, max: int): (n: nat)
    ensures n <= |QueueOf(b, key)|
    ensures n == 0 <==> QueueOf(b, key) == []
  {
    Min(if max <= 0 then 1 else max, |QueueOf(b, key)|)
  }

  function Taken(b: BufferState, key: Key, max: int): seq<Item> {
    QueueOf(b, key)[..TakeCount(b, key, max)]
  }

  function AfterTake(b: BufferState, key: Key, max: int): BufferState
    requires TakeCount(b, key, max) <= b.total
  {
    var n := TakeCount(b, key, max);
    if n == 0 then b
    else
      var rest := QueueOf(b, key)[n..];
      b.(queues := if rest == [] then b.queues - {key} else b.queues[key := rest],
         total := b.total - n, space := b.space + 1)
  }

  lemma EmptyValid(perKey: int, global: int)
    ensures Valid(Empty(perKey, global))
  {
  }

  lemma QueueWithinTotal(b: BufferState, key: Key)
    requires Valid(b)
    ensures |QueueOf(b, key)| <= b.total
  {
    if key in b.queues {
      Sums.SumAtLeast(b.queues, QueueLength, key);
    }
  }

  /** Accepting an item when there is room keeps the buffer valid and adds it behind its own queue only. */
  lemma EnqueueKeeps(b: BufferState, item: Item)
    requires Valid(b) && HasRoom(b, Normalize(item.key))
    ensures Valid(Enqueue(b, item))
    ensures forall k :: QueueOf(Enqueue(b, item), k) ==
                        QueueOf(b, k) + (if k == Normalize(item.key) then [item] else [])
  {
    var k := Normalize(item.key);
    Sums.SumUpdate(b.queues, QueueLength, k, QueueOf(b, k) + [item]);
  }

  /** Taking keeps the buffer valid, takes from the front of one queue, and leaves every other queue alone. */
  lemma TakeKeeps(b: BufferState, key: Key, max: int)
    requires Valid(b)
    ensures TakeCount(b, key, max) <= b.total
    ensures Valid(AfterTake(b, key, max))
    ensures QueueOf(b, key) == Taken(b, key, max) + QueueOf(AfterTake(b, key, max), key)
    ensures forall k | k != key :: QueueOf(AfterTake(b, key, max), k) == QueueOf(b, k)
    ensures AfterTake(b, key, max).total == b.total - |Taken(b, key, max)|
  {
    QueueWithinTotal(b, key);
    var n := TakeCount(b, key, max);
    if n > 0 {
      Sums.SumUpdate(b.queues, QueueLength, key, QueueOf(b, key)[n..]);
    }
  }

  /** A key with no room gets room only when something is taken: accepting other items never helps. */
  lemma RoomOnlyFromTakes(b: BufferState, item: Item, key: Key)
    requires Valid(b) && HasRoom(b, Normalize(item.key))
    requires HasRoom(Enqueue(b, item), key)
    ensures HasRoom(b, key)
  {
    EnqueueKeeps(b, item);
  }

  /** Something is queued whenever a buffer refuses an item. */
  lemma FullMeansWork(b: BufferState, key: Key) returns (busy: Key)
    requires Valid(b) && !HasRoom(b, key)
    ensures QueueOf(b, busy) != []
  {
    if QueueOf(b, key) != [] {
      busy := key;
    } else {
      busy := Sums.SumPositive(b.queues, QueueLength);
    }
  }

  datatype PutAttempt = Accepted | Refused | MustWait(channel: nat)
  datatype TakeAttempt = Got(items: seq<Item>) | Drained | MustWaitForData(channel: nat)

  /** The buffer as the program holds it: each method is one critical section of the source. */
  class MemoryBuffer {
    var queues: Queues
    var total: nat
    const perKey: nat
    const global: nat
    var closed: bool
    var data: nat
    var space: nat

    ghost function Model(): BufferState
      reads this
    {
      BufferState(queues, total, perKey, global, closed, data, space)
    }

    constructor (perKey: int, global: int)
      ensures Model() == Empty(perKey, global)
      ensures Valid(Model())
    {
      this.perKey := if perKey <= 0 then 1 else perKey;
      this.global := if global <= 0 then (if perKey <= 0 then 1 else perKey) else global;
      queues, total, closed, data, space := map[], 0, false, 0, 0;
      new;
      EmptyValid(perKey, global);
    }

    /** One round of Put's loop: refused after Close, accepted if there is room, otherwise wait. */
    method PutRound(item: Item) returns (r: PutAttempt)
      requires Valid(Model())
      modifies this
      ensures Valid(Model())
      ensures r == if old(closed) then Refused
                   else if HasRoom(old(Model()), Normalize(item.key)) then Accepted
                   else MustWait(old(space))
      ensures Model() == if r.Accepted? then Enqueue(old(Model()), item) else old(Model())
    {
      var key := Normalize(item.key);
      if closed {
        return Refused;
      }
      var q := if key in queues then queues[key] else [];
      if |q| < perKey && total < global {
        EnqueueKeeps(Model(), item);
        queues := queues[key := q + [item]];
        total := total + 1;
        data := data + 1;
        return Accepted;
      }
      return MustWait(space);
    }

    /** Non-blocking take; nothing is taken from an empty queue. */
    method TakeReady(key: Key, max: int) returns (items: seq<Item>)
      requires Valid(Model())
      modifies this
      ensures Valid(Model())
      ensures items == Taken(old(Model()), Normalize(key), max)
      ensures TakeCount(old(Model()), Normalize(key), max) <= old(Model()).total
      ensures Model() == AfterTake(old(Model()), Normalize(key), max)
    {
      var k := Normalize(key);
      var most := if max <= 0 then 1 else max;
      TakeKeeps(Model(), k, max);
      if k !in queues || queues[k] == [] {
        return [];
      }
      var q := queues[k];
      var n := Min(most, |q|);
      items := q[..n];
      if n == |q| {
        queues := queues - {k};
      } else {
        queues := queues[k := q[n..]];
      }
      total := total - n;
      space := space + 1;
    }

    /** One round of the blocking Take: what is queued is handed out even after Close. */
    method TakeRound(key: Key, max: int) returns (r: TakeAttempt)
      requires Valid(Model())
      modifies this
      ensures Valid(Model())
      ensures TakeCount(old(Model()), Normalize(key), max) <= old(Model()).total
      ensures Model() == AfterTake(old(Model()), Normalize(key), max)
      ensures r == if QueueOf(old(Model()), Normalize(key)) != [] then Got(Taken(old(Model()), Normalize(key), max))
                   else if old(closed) then Drained
                   else MustWaitForData(old(data))
    {
      var items := TakeReady(key, max);
      if items != [] {
        return Got(items);
      }
      r := if closed then Drained else MustWaitForData(data);
    }

    method Close()
      modifies this
      ensures Model() == old(Model()).(closed := true)
    {
      closed := true;
    }

    method Len(key: Key) returns (n: nat)
      ensures n == |QueueOf(Model(), Normalize(key))|
    {
      var k := Normalize(key);
      n := if k in queues then |queues[k]| else 0;
    }
  }
}
