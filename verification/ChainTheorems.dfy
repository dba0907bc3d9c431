/** What holds in every state any interleaving of the chain can reach. */
module ChainTheorems {
  import opened Items
  import opened Buffers
  import opened Consumers
  import opened NodeProtocol
  import opened Options
  import opened Subsequences
  import opened Chain
  import opened ChainOrder

  ghost predicate Start(s: State) {
    && Shape(s) && s.used == {}
    && (forall i | 0 <= i < 4 :: Init(s.nodes[i]) && s.books[i] == Book(map[], map[], map[], map[]))
  }

  /** A finite run: every action is possible in the state the ones before it lead to. */
  ghost predicate IsRun(s: State, run: seq<ChainAction>)
    requires Shape(s)
    decreases |run|
  {
    run == [] || (Can(s, run[0]) && IsRun(Next(s, run[0]), run[1..]))
  }

  ghost function After(s: State, run: seq<ChainAction>): (t: State)
    requires Shape(s) && IsRun(s, run)
    ensures Shape(t)
    decreases |run|
  {
    if run == [] then s else After(Next(s, run[0]), run[1..])
  }

  lemma StartInv(s: State)
    requires Start(s)
    ensures ChainInv(s)
  {
    forall i | 0 <= i < 4
      ensures NodeOk(s, i)
    {
      assert Init(s.nodes[i]);
      InitInv(s.nodes[i]);
    }
    assert Init(s.nodes[0]) && Init(s.nodes[1]) && Init(s.nodes[2]) && Init(s.nodes[3]);
  }

  lemma {:induction false} RunInv(s: State, run: seq<ChainAction>)
    requires ChainInv(s) && IsRun(s, run)
    ensures ChainInv(After(s, run))
    decreases |run|
  {
    assert Shape(s);
    hide ChainInv, Can, Next;
    if run != [] {
      NextInv(s, run[0]);
      RunInv(Next(s, run[0]), run[1..]);
    }
  }

  /** Every reachable state satisfies every invariant of the nodes and of the chain. */
  lemma ReachableInv(s: State, run: seq<ChainAction>)
    requires Start(s) && IsRun(s, run)
    ensures ChainInv(After(s, run))
  {
    StartInv(s);
    RunInv(s, run);
  }

  // ---------------------------------------------------------------------------------------------
  // One node.

  /**
   * The scheduler, in any reachable state: one worker at most holds a key, `ready` lists each key
   * once, never one in flight, and no key with queued items is forgotten before Close.
   */
  lemma SchedulerSafe(s: State, run: seq<ChainAction>, i: nat)
    requires Start(s) && IsRun(s, run) && i < 4
    ensures var n := After(s, run).nodes[i];
            && NoDup(n.con.ready) && n.con.readySet == Elements(n.con.ready) && n.con.readySet !! n.con.inflight
            && (forall v, w | At(n, v) && At(n, w) && n.workers[v].key == n.workers[w].key :: v == w)
            && (forall w | At(n, w) :: n.workers[w].key in n.con.inflight)
            && (!n.con.closed ==> forall k | HasWork(n, k) ::
                  k in n.con.readySet || k in n.con.inflight || SubmitPending(n.putters, k))
  {
    ReachableInv(s, run);
    assert NodeOk(After(s, run), i);
    var n := After(s, run).nodes[i];
    assert forall w | At(n, w) :: Holds(n.workers, w);
    assert forall k | HasWork(n, k) :: k in n.buf.queues;
  }

  /** Caps and totals, in any reachable state. */
  lemma CapsHold(s: State, run: seq<ChainAction>, i: nat, k: Key)
    requires Start(s) && IsRun(s, run) && i < 4
    ensures var b := After(s, run).nodes[i].buf;
            Valid(b) && |QueueOf(b, k)| <= b.perKey && b.total <= b.global
  {
    ReachableInv(s, run);
    assert NodeOk(After(s, run), i);
  }

  /**
   * No wakeup is lost: while some worker sleeps and nobody holds the scheduler's lock, every ready key
   * has a worker to itself that has been signalled and has not run yet.
   */
  lemma WakeupsSuffice(s: State, run: seq<ChainAction>, i: nat)
    requires Start(s) && IsRun(s, run) && i < 4
    ensures var n := After(s, run).nodes[i];
            !n.cancelled && SomeParked(n.workers) && LockFree(n) ==> |n.con.ready| <= |Signalled(n.workers)|
  {
    ReachableInv(s, run);
    assert NodeOk(After(s, run), i);
    var n := After(s, run).nodes[i];
    assert LockFree(n) ==> Awake(n.workers) == Signalled(n.workers);
  }

  /** A goroutine waiting for room on the current channel really has none: nobody waits beside free space. */
  lemma WaitersHaveNoRoom(s: State, run: seq<ChainAction>, i: nat, t: Id)
    requires Start(s) && IsRun(s, run) && i < 4
    requires IsWaiting(After(s, run).nodes[i], t)
    ensures var n := After(s, run).nodes[i];
            n.putters[t].channel <= n.buf.space
            && (n.putters[t].channel == n.buf.space ==> !HasRoom(n.buf, n.putters[t].item.key))
  {
    ReachableInv(s, run);
    assert NodeOk(After(s, run), i);
  }

  /** The items a worker has not handed over yet, or is about to deliver. */
  function InStage(stage: Stage): seq<Item> {
    match stage
    case Draining(_) => []
    case Lingering(_, items) => items
    case Calling(_, job, items) => items + job.todo + job.again
    case Sending(_, job, outbox) => outbox + job.todo + job.again
    case Releasing => []
  }

  /** Every item has a key and is under it: on its way into the buffer, in the queues, and in the hands of a worker. */
  ghost predicate UnderKeys(n: Node) {
    && (forall t | t in n.putters && !n.putters[t].Submitting? :: n.putters[t].item.key != "")
    && (forall k | k in n.buf.queues :: k != "" && AllKeyed(n.buf.queues[k], k))
    && (forall w | At(n, w) :: n.workers[w].key != "" && AllKeyed(InStage(StageOf(n, w)), n.workers[w].key))
  }

  /** The empty key, under which no Submit would announce an item, never reaches a node. */
  lemma KeysGiven(s: State, run: seq<ChainAction>, i: nat)
    requires Start(s) && IsRun(s, run) && i < 4
    ensures UnderKeys(After(s, run).nodes[i])
  {
    ReachableInv(s, run);
    KeyedAt(After(s, run), i);
  }

  lemma KeyedAt(s: State, i: nat)
    requires ChainInv(s) && i < 4
    ensures UnderKeys(s.nodes[i])
  {
    assert NodeOk(s, i);
    var n := s.nodes[i];
    hide ChainInv, Valid, WellFormed, Fifo, Covered, NoLostWakeup, BlockedMeansFull;
    forall t | t in n.putters
      ensures PutterKeyed(n.putters[t])
    {
    }
    forall w | At(n, w)
      ensures n.workers[w].key != "" && AllKeyed(InStage(StageOf(n, w)), n.workers[w].key)
    {
      assert Holds(n.workers, w);
    }
  }

  /** Per key and node: first calls in order, then what is in hand, then what is queued, make up what was put. */
  lemma NodeFifo(s: State, run: seq<ChainAction>, i: nat, k: Key)
    requires Start(s) && IsRun(s, run) && i < 4
    ensures var n := After(s, run).nodes[i];
            Of(n.put, k) == Of(n.handed, k) + InFirstHands(n.holder, n.workers, k) + QueueOf(n.buf, k)
  {
    ReachableInv(s, run);
    assert NodeOk(After(s, run), i);
  }

  // ---------------------------------------------------------------------------------------------
  // The whole chain.

  lemma FifoOf(n: Node, k: Key)
    requires Inv(n)
    ensures Of(n.put, k) == Of(n.handed, k) + (InFirstHands(n.holder, n.workers, k) + QueueOf(n.buf, k))
  {
    var handed, hands, queue := Of(n.handed, k), InFirstHands(n.holder, n.workers, k), QueueOf(n.buf, k);
    assert handed + (hands + queue) == handed + hands + queue;
  }

  lemma HandedIsPrefix(s: State, i: nat, k: Key)
    requires ChainInv(s) && i < 4
    ensures Sub(Msgs(Of(s.nodes[i].handed, k)), Msgs(Of(s.nodes[i].put, k)))
  {
    assert NodeOk(s, i);
    var n := s.nodes[i];
    hide *;
    FifoOf(n, k);
    var rest := InFirstHands(n.holder, n.workers, k) + QueueOf(n.buf, k);
    MsgsAppend(Of(n.handed, k), rest);
    SubPrefix(Msgs(Of(n.handed, k)), Msgs(rest));
  }

  lemma PutFollowsHanded(s: State, i: nat, k: Key)
    requires ChainInv(s) && i < AGENT
    ensures Sub(Msgs(Of(s.nodes[i + 1].put, k)), Msgs(Of(s.nodes[i].handed, k)))
  {
    assert NodeOk(s, i) && Link(s, i);
    hide Sub, Inv;
    var up, m := s.nodes[i], s.nodes[i + 1];
    var transit := Transit(up.holder, up.workers, m.putters, k);
    assert LinkedAt(s.books[i].forwarded, s.books[i + 1].lost, m.put, transit, k);
    assert SettledAt(s.books[i], up.handed, up.dead, Failing(up.holder, up.workers, k), k);
    SubPrefix(Msgs(Of(m.put, k)), transit);
    SubTrans(Msgs(Of(m.put, k)), Msgs(Of(m.put, k)) + transit, Of(s.books[i].forwarded, k));
    SubTrans(Msgs(Of(m.put, k)), Of(s.books[i].forwarded, k), Msgs(Of(up.handed, k)));
  }

  /** Per key, every node sees the admitted messages in admission order, leaving some out. */
  lemma {:induction false} InAdmissionOrder(s: State, j: nat, k: Key)
    requires ChainInv(s) && j < 4
    ensures Sub(Msgs(Of(s.nodes[j].handed, k)), Msgs(Of(s.nodes[SYNC].put, k)))
    decreases j
  {
    assert Shape(s);
    hide ChainInv, Sub;
    HandedIsPrefix(s, j, k);
    if j > 0 {
      InAdmissionOrder(s, j - 1, k);
      PutFollowsHanded(s, j - 1, k);
      var handed, put := Msgs(Of(s.nodes[j].handed, k)), Msgs(Of(s.nodes[j].put, k));
      SubTrans(handed, put, Msgs(Of(s.nodes[j - 1].handed, k)));
      SubTrans(handed, Msgs(Of(s.nodes[j - 1].handed, k)), Msgs(Of(s.nodes[SYNC].put, k)));
    }
  }

  lemma {:induction false} NoDupCount(ms: seq<nat>, m: nat)
    requires NoDup(ms)
    ensures multiset(ms)[m] <= 1
    decreases |ms|
  {
    if ms != [] {
      var n := |ms| - 1;
      assert ms == ms[..n] + [ms[n]];
      NoDupCount(ms[..n], m);
    }
  }

  lemma AdmittedOnce(s: State, k: Key, m: nat)
    requires ChainInv(s)
    ensures multiset(Msgs(Of(s.nodes[SYNC].put, k)))[m] <= 1
  {
    var put := s.nodes[SYNC].put;
    assert Fresh(put, s.nodes[SYNC].putters, s.used);
    hide NodeOk, Link;
    NoDupCount(Msgs(Of(put, k)), m);
  }

  /**
   * In any reachable state, whatever key, the agent has been handed messages in admission order,
   * each at most once, and only messages assets, command and sync were handed before it.
   */
  lemma AgentInAdmissionOrder(s: State, run: seq<ChainAction>, k: Key, m: nat)
    requires Start(s) && IsRun(s, run)
    ensures var t := After(s, run);
            && Sub(Msgs(Of(t.nodes[AGENT].handed, k)), Msgs(Of(t.nodes[SYNC].put, k)))
            && Visits(t, AGENT, k, m) <= Visits(t, ASSETS, k, m) <= Visits(t, COMMAND, k, m) <= Visits(t, SYNC, k, m) <= 1
  {
    ReachableInv(s, run);
    OrderedVisits(After(s, run), k, m);
  }

  /** How often a node's handler was first called with a message of a key. */
  ghost function Visits(s: State, i: nat, k: Key, m: nat): nat
    requires Shape(s) && i < 4
  {
    multiset(Msgs(Of(s.nodes[i].handed, k)))[m]
  }

  lemma OrderedVisits(t: State, k: Key, m: nat)
    requires ChainInv(t)
    ensures Sub(Msgs(Of(t.nodes[AGENT].handed, k)), Msgs(Of(t.nodes[SYNC].put, k)))
    ensures Visits(t, AGENT, k, m) <= Visits(t, ASSETS, k, m) <= Visits(t, COMMAND, k, m) <= Visits(t, SYNC, k, m) <= 1
  {
    assert Shape(t);
    hide ChainInv, Sub;
    InAdmissionOrder(t, AGENT, k);
    Downstream(t, SYNC, k);
    Downstream(t, COMMAND, k);
    Downstream(t, ASSETS, k);
    HandedIsPrefix(t, SYNC, k);
    SubCounts(Msgs(Of(t.nodes[SYNC].handed, k)), Msgs(Of(t.nodes[SYNC].put, k)));
    AdmittedOnce(t, k, m);
  }

  lemma Downstream(s: State, i: nat, k: Key)
    requires ChainInv(s) && i < AGENT
    ensures multiset(Msgs(Of(s.nodes[i + 1].handed, k))) <= multiset(Msgs(Of(s.nodes[i].handed, k)))
  {
    assert Shape(s);
    hide ChainInv, Sub;
    HandedIsPrefix(s, i + 1, k);
    PutFollowsHanded(s, i, k);
    SubCounts(Msgs(Of(s.nodes[i + 1].handed, k)), Msgs(Of(s.nodes[i + 1].put, k)));
    SubCounts(Msgs(Of(s.nodes[i + 1].put, k)), Msgs(Of(s.nodes[i].handed, k)));
  }

  /** Where a message of key k can be at one node: queued, in hand, failing, or settled there. */
  ghost function PlacesAt(n: Node, book: Book, k: Key): multiset<nat> {
    multiset(Msgs(QueueOf(n.buf, k))) + multiset(Msgs(InFirstHands(n.holder, n.workers, k)))
    + multiset(Msgs(Failing(n.holder, n.workers, k)))
    + multiset(Of(book.finished, k)) + multiset(Of(book.filtered, k)) + multiset(Msgs(Of(n.dead, k)))
  }

  /** Where it can be between a node and the next: being delivered, or refused on arrival. */
  ghost function PlacesAfter(up: Node, m: Node, downBook: Book, k: Key): multiset<nat> {
    multiset(Transit(up.holder, up.workers, m.putters, k)) + multiset(Of(downBook.lost, k))
  }

  lemma NodeAccounts(s: State, i: nat, k: Key)
    requires ChainInv(s) && i < 4
    ensures multiset(Msgs(Of(s.nodes[i].put, k))) ==
              PlacesAt(s.nodes[i], s.books[i], k) + multiset(Of(s.books[i].forwarded, k))
  {
    assert NodeOk(s, i);
    var n := s.nodes[i];
    var hands, queue := InFirstHands(n.holder, n.workers, k), QueueOf(n.buf, k);
    assert SettledAt(s.books[i], n.handed, n.dead, Failing(n.holder, n.workers, k), k);
    hide Sub;
    assert Of(n.put, k) == Of(n.handed, k) + hands + queue;
    MsgsAppend(Of(n.handed, k), hands);
    MsgsAppend(Of(n.handed, k) + hands, queue);
  }

  lemma LinkAccounts(s: State, i: nat, k: Key)
    requires ChainInv(s) && i < AGENT
    ensures multiset(Of(s.books[i].forwarded, k)) ==
              multiset(Msgs(Of(s.nodes[i + 1].put, k))) + PlacesAfter(s.nodes[i], s.nodes[i + 1], s.books[i + 1], k)
  {
    assert Link(s, i);
    hide Sub, Inv;
    var up, m := s.nodes[i], s.nodes[i + 1];
    assert LinkedAt(s.books[i].forwarded, s.books[i + 1].lost, m.put, Transit(up.holder, up.workers, m.putters, k), k);
  }

  /** Every place at node i and beyond it. */
  ghost function PlacesFrom(s: State, i: nat, k: Key): multiset<nat>
    requires Shape(s) && i < 4
    decreases 4 - i
  {
    if i == AGENT then PlacesAt(s.nodes[i], s.books[i], k)
    else
      PlacesAt(s.nodes[i], s.books[i], k)
      + (PlacesFrom(s, i + 1, k) + PlacesAfter(s.nodes[i], s.nodes[i + 1], s.books[i + 1], k))
  }

  ghost function Everywhere(s: State, k: Key): multiset<nat>
    requires Shape(s)
  {
    PlacesFrom(s, SYNC, k)
  }

  /**
   * Accounting: in any reachable state, every admitted message of a key is in exactly one place, in
   * no place of any other key, and nothing that was not admitted is anywhere.
   */
  lemma ExactlyOnePlace(s: State, run: seq<ChainAction>, k: Key, l: Key, m: nat)
    requires Start(s) && IsRun(s, run)
    ensures var t := After(s, run);
            && multiset(Msgs(Of(t.nodes[SYNC].put, k))) == Everywhere(t, k)
            && Everywhere(t, k)[m] == (if m in Msgs(Of(t.nodes[SYNC].put, k)) then 1 else 0)
            && (k != l ==> Everywhere(t, k)[m] == 0 || Everywhere(t, l)[m] == 0)
  {
    assert Shape(s);
    hide *;
    ReachableInv(s, run);
    PlacesApart(After(s, run), k, l, m);
  }

  lemma PlacesApart(t: State, k: Key, l: Key, m: nat)
    requires ChainInv(t)
    ensures multiset(Msgs(Of(t.nodes[SYNC].put, k))) == Everywhere(t, k)
    ensures Everywhere(t, k)[m] == (if m in Msgs(Of(t.nodes[SYNC].put, k)) then 1 else 0)
    ensures k != l ==> Everywhere(t, k)[m] == 0 || Everywhere(t, l)[m] == 0
  {
    assert Shape(t);
    hide *;
    OnePlace(t, k, m);
    OnePlace(t, l, m);
    if k != l {
      KeysApart(t, k, l, m);
    }
  }

  lemma OnePlace(t: State, k: Key, m: nat)
    requires ChainInv(t)
    ensures multiset(Msgs(Of(t.nodes[SYNC].put, k))) == Everywhere(t, k)
    ensures Everywhere(t, k)[m] == if m in Msgs(Of(t.nodes[SYNC].put, k)) then 1 else 0
  {
    assert Shape(t);
    AdmittedOnce(t, k, m);
    hide ChainInv, PlacesFrom, Msgs;
    Accounts(t, SYNC, k);
  }

  lemma KeysApart(s: State, k: Key, l: Key, m: nat)
    requires ChainInv(s) && k != l
    ensures m !in Msgs(Of(s.nodes[SYNC].put, k)) || m !in Msgs(Of(s.nodes[SYNC].put, l))
  {
    var put := s.nodes[SYNC].put;
    assert Fresh(put, s.nodes[SYNC].putters, s.used);
    assert Occurs(put, k, m) <==> m in Msgs(Of(put, k));
    assert Occurs(put, l, m) <==> m in Msgs(Of(put, l));
  }

  lemma {:induction false} Accounts(s: State, i: nat, k: Key)
    requires ChainInv(s) && i < 4
    ensures multiset(Msgs(Of(s.nodes[i].put, k))) == PlacesFrom(s, i, k)
    decreases 4 - i
  {
    assert Shape(s) && multiset(Of(s.books[AGENT].forwarded, k)) == multiset{};
    hide ChainInv, PlacesAt, PlacesAfter;
    NodeAccounts(s, i, k);
    if i < AGENT {
      LinkAccounts(s, i, k);
      Accounts(s, i + 1, k);
    }
  }
}
