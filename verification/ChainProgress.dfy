/** The chain always gets somewhere: no deadlock under backpressure, no endless work, and a full drain. */
module ChainProgress {
  import opened Items
  import opened Buffers
  import opened Consumers
  import opened NodeProtocol
  import opened Options
  import opened Chain
  import opened ChainOrder
  import opened ChainTheorems
  import opened NodeMeasure
  import Sums

  /** Steps the bot takes by itself: no admission, no giving up, no shutdown. */
  predicate Internal(ca: ChainAction) {
    match ca
    case Admit(_, _) => false
    case Local(_, a) => Progresses(a)
    case Deal(_, _, _) => true
    case Offer(_, _) => true
  }

  ghost predicate Moves(s: State, ca: ChainAction) { Shape(s) && Internal(ca) && Can(s, ca) }

  ghost predicate AllRunning(s: State) {
    Shape(s) && forall i | 0 <= i < 4 :: Running(s.nodes[i])
  }

  /** Something is queued, being put, or held by a worker. */
  ghost predicate Occupied(n: Node) {
    n.buf.queues != map[] || n.putters != map[] || exists w :: At(n, w)
  }

  // ---------------------------------------------------------------------------------------------
  // No deadlock.

  lemma LockHolderMoves(s: State, i: nat) returns (ca: ChainAction)
    requires Shape(s) && i < 4 && !LockFree(s.nodes[i])
    ensures Moves(s, ca)
  {
    var w :| w in s.nodes[i].workers && s.nodes[i].workers[w].Scanning?;
    ca := Local(i, if s.nodes[i].con.ready == [] then Sleep(w) else Scan(w));
  }

  ghost function WakesFor(n: Node, signal: bool): (wakes: Option<Id>)
    ensures Wakes(n, signal, wakes)
  {
    if signal && SomeParked(n.workers) then
      var w :| w in n.workers && n.workers[w].Parked?;
      Some(w)
    else None
  }

  /** A verdict every domain may give. */
  function Usual(i: nat, item: Item): (v: Verdict)
    ensures i < 4 ==> Legal(i, item, v)
  {
    if i == COMMAND && !item.decodes then Filter
    else if !item.decodes then Fail
    else if i == AGENT then Finish
    else Forward(true)
  }

  lemma CallEnds(s: State, i: nat, w: Id)
    requires Shape(s) && i < 4 && Inv(s.nodes[i]) && At(s.nodes[i], w) && StageOf(s.nodes[i], w).Calling?
    ensures var items := StageOf(s.nodes[i], w).items;
            Moves(s, Deal(i, w, seq(|items|, j requires 0 <= j < |items| => Usual(i, items[j]))))
  {
    assert Holds(s.nodes[i].workers, w);
  }

  lemma HeldKey(n: Node, w: Id)
    requires Inv(n) && At(n, w)
    ensures n.workers[w].key != "" && StageOk(n.buf, n.workers[w].key, StageOf(n, w))
  {
    assert Holds(n.workers, w);
  }

  /** A holding worker that neither waits for the lock nor is delivering takes its next step. */
  lemma HolderSteps(s: State, i: nat, w: Id) returns (ca: ChainAction)
    requires Shape(s) && i < 4 && Inv(s.nodes[i]) && At(s.nodes[i], w) && LockFree(s.nodes[i])
    requires i < AGENT ==> w !in s.nodes[i + 1].putters
    requires i == AGENT ==> NoOutbox(s.nodes[i].workers)
    ensures Moves(s, ca)
  {
    var n := s.nodes[i];
    var stage := StageOf(n, w);
    HeldKey(n, w);
    assert Holds(n.workers, w);
    hide Inv;
    match stage {
      case Draining(_) => ca := Local(i, TakeFirst(w));
      case Lingering(_, _) => ca := Local(i, TakeRest(w, 1, 0));
      case Calling(_, _, items) =>
        CallEnds(s, i, w);
        ca := Deal(i, w, seq(|items|, j requires 0 <= j < |items| => Usual(i, items[j])));
      case Sending(_, _, outbox) => ca := if outbox == [] then Local(i, AfterCall(w)) else Offer(i, w);
      case Releasing => ca := Local(i, Release(w, WakesFor(n, ReleaseSignals(n.con, HasWork(n, n.workers[w].key)))));
    }
  }

  /** A worker holding a key can go on, or whoever holds it up further down the chain can. */
  lemma HolderMoves(s: State, i: nat, w: Id) returns (ca: ChainAction)
    requires ChainInv(s) && AllRunning(s) && i < 4 && At(s.nodes[i], w)
    ensures Moves(s, ca)
    decreases 4 - i, 0
  {
    assert Shape(s) && NodeOk(s, i) && Inv(s.nodes[i]) && (i == AGENT ==> NoOutbox(s.nodes[i].workers));
    hide *;
    if i < AGENT && w in s.nodes[i + 1].putters {
      ca := PutCanMove(s, i + 1, w);
    } else if !LockFree(s.nodes[i]) {
      ca := LockHolderMoves(s, i);
    } else {
      ca := HolderSteps(s, i, w);
    }
  }

  lemma AllAsleep(ws: Workers)
    requires ws != map[] && forall w | w in ws :: ws[w].Parked?
    ensures SomeParked(ws) && Awake(ws) == {}
  {
    var w :| w in ws;
    assert ws[w].Parked?;
  }

  /** Ready keys keep some worker from sleeping. */
  lemma SomebodyIsUp(n: Node) returns (w: Id)
    requires Inv(n) && Running(n) && n.con.ready != []
    ensures w in n.workers && (n.workers[w].Runnable? || n.workers[w].Scanning? || n.workers[w].Holding?)
  {
    assert NobodyLeft(n.workers) && NoLostWakeup(n.cancelled, n.con.ready, n.workers);
    if forall w | w in n.workers :: n.workers[w].Parked? {
      AllAsleep(n.workers);
      assert false;
    } else {
      w :| w in n.workers && !n.workers[w].Parked?;
    }
  }

  /** Somebody will take up a ready key: a worker is awake, or all of them are holding keys. */
  lemma ReadyIsServed(s: State, i: nat) returns (ca: ChainAction)
    requires ChainInv(s) && AllRunning(s) && i < 4 && s.nodes[i].con.ready != []
    ensures Moves(s, ca)
    decreases 4 - i, 1
  {
    var n := s.nodes[i];
    assert Shape(s) && NodeOk(s, i);
    hide ChainInv, Inv, AllRunning, Running;
    var w := SomebodyIsUp(n);
    if !LockFree(n) {
      ca := LockHolderMoves(s, i);
    } else if n.workers[w].Runnable? {
      ca := Local(i, Acquire(w));
    } else {
      ca := HolderMoves(s, i, w);
    }
  }

  /** A queued item has somebody to move it. */
  lemma QueueMoves(s: State, i: nat, k: Key) returns (ca: ChainAction)
    requires ChainInv(s) && AllRunning(s) && i < 4 && k in s.nodes[i].buf.queues
    ensures Moves(s, ca)
    decreases 4 - i, 2
  {
    var n := s.nodes[i];
    assert Shape(s) && NodeOk(s, i) && Covered(n.con, n.buf, n.putters) && WellFormed(n.con)
           && OneHolder(n.con.inflight, n.holder, n.workers) && Running(n);
    hide ChainInv, Inv, AllRunning;
    if k in n.con.readySet {
      ca := ReadyIsServed(s, i);
    } else if k in n.con.inflight {
      ca := HolderMoves(s, i, n.holder[k]);
    } else {
      var t :| t in n.putters && n.putters[t] == Submitting(k);
      ca := SubmitMoves(s, i, t);
    }
  }

  lemma SubmitMoves(s: State, i: nat, t: Id) returns (ca: ChainAction)
    requires Shape(s) && i < 4 && t in s.nodes[i].putters && s.nodes[i].putters[t].Submitting?
    ensures Moves(s, ca)
  {
    var n := s.nodes[i];
    if !LockFree(n) {
      ca := LockHolderMoves(s, i);
    } else {
      ca := Local(i, Submit(t, WakesFor(n, SubmitSignals(n.con, n.putters[t].key))));
    }
  }

  /** With no room, something is queued. */
  lemma FullIsOccupied(b: BufferState, key: Key)
    requires Valid(b) && !HasRoom(b, key)
    ensures b.queues != map[]
  {
  }

  /** A goroutine putting an item can go on, or the node it is blocked on can. */
  lemma PutCanMove(s: State, i: nat, t: Id) returns (ca: ChainAction)
    requires ChainInv(s) && AllRunning(s) && i < 4 && t in s.nodes[i].putters
    ensures Moves(s, ca)
    decreases 4 - i, 3
  {
    var n := s.nodes[i];
    assert Shape(s) && NodeOk(s, i) && Valid(n.buf) && BlockedMeansFull(n.buf, n.putters);
    hide ChainInv, Inv, AllRunning, Valid;
    match n.putters[t] {
      case Trying(_) => ca := Local(i, TryPut(t));
      case Submitting(_) => ca := SubmitMoves(s, i, t);
      case Waiting(item, channel) =>
        if channel != n.buf.space {
          ca := Local(i, Wake(t));
        } else {
          FullIsOccupied(n.buf, item.key);
          var k :| k in n.buf.queues;
          ca := QueueMoves(s, i, k);
        }
    }
  }

  /**
   * No deadlock under backpressure: in any reachable state before shutdown in which some node has a
   * message queued, being put or in hand, the bot can take a step of its own.
   */
  lemma NoDeadlock(s: State, run: seq<ChainAction>, i: nat) returns (ca: ChainAction)
    requires Start(s) && IsRun(s, run) && AllRunning(After(s, run)) && i < 4 && Occupied(After(s, run).nodes[i])
    ensures Moves(After(s, run), ca)
  {
    ReachableInv(s, run);
    ca := OccupiedMoves(After(s, run), i);
  }

  lemma OccupiedMoves(s: State, i: nat) returns (ca: ChainAction)
    requires ChainInv(s) && AllRunning(s) && i < 4 && Occupied(s.nodes[i])
    ensures Moves(s, ca)
  {
    var n := s.nodes[i];
    hide ChainInv, AllRunning, Moves;
    if n.buf.queues != map[] {
      var k :| k in n.buf.queues;
      ca := QueueMoves(s, i, k);
    } else if n.putters != map[] {
      var t :| t in n.putters;
      ca := PutCanMove(s, i, t);
    } else {
      var w :| At(n, w);
      ca := HolderMoves(s, i, w);
    }
  }

  // ---------------------------------------------------------------------------------------------
  // No endless work.

  /** A message weighs more the further it is from the agent; moving on within a node always counts. */
  ghost function Weight(s: State): nat
    requires Shape(s)
  {
    15 * Load(s.nodes[0]) + 10 * Load(s.nodes[1]) + 5 * Load(s.nodes[2])
    + Distance(s.nodes[0]) + Distance(s.nodes[1]) + Distance(s.nodes[2]) + Distance(s.nodes[3])
  }

  ghost function Retries(s: State): nat
    requires Shape(s)
  {
    Retrying(s.nodes[0]) + Retrying(s.nodes[1]) + Retrying(s.nodes[2]) + Retrying(s.nodes[3])
  }

  ghost function Housekeeping(s: State): nat
    requires Shape(s)
  {
    Chores(s.nodes[0]) + Chores(s.nodes[1]) + Chores(s.nodes[2]) + Chores(s.nodes[3])
  }

  ghost predicate Lighter(s': State, s: State)
    requires Shape(s) && Shape(s')
  {
    || Weight(s') < Weight(s)
    || (Weight(s') == Weight(s) && Retries(s') < Retries(s))
    || (Weight(s') == Weight(s) && Retries(s') == Retries(s) && Housekeeping(s') < Housekeeping(s))
  }

  lemma NodeLightens(s: State, s': State, i: nat)
    requires Shape(s) && Shape(s') && i < 4 && s'.nodes == s.nodes[i := s'.nodes[i]]
    requires UsesUp(s.nodes[i], s'.nodes[i])
    ensures Lighter(s', s)
  {
    hide Load, Distance, Retrying, Chores;
  }

  lemma {:induction false} SortLength(items: seq<Item>, vs: seq<Verdict>)
    requires |items| == |vs|
    ensures |Sort(items, vs).failed| + |Sort(items, vs).outbox| <= |items|
    decreases |items|
  {
    if items != [] {
      SortLength(items[..|items| - 1], vs[..|items| - 1]);
    }
  }

  lemma DealLightens(s: State, i: nat, w: Id, vs: seq<Verdict>)
    requires Shape(s) && i < 4 && Inv(s.nodes[i]) && Can(s, Deal(i, w, vs))
    ensures Lighter(Next(s, Deal(i, w, vs)), s)
  {
    var n := s.nodes[i];
    var sorted := Sort(StageOf(n, w).items, vs);
    SortLength(StageOf(n, w).items, vs);
    SortShape(i, StageOf(n, w).items, vs, n.workers[w].key);
    hide Inv, Sort, UsesUp, Lighter;
    HandledUses(n, w, sorted.failed, sorted.outbox);
    NodeLightens(s, Next(s, Deal(i, w, vs)), i);
  }

  lemma SendingEmpties(n: Node, w: Id)
    requires CanSendNext(n, w)
    ensures Load(SentNext(n, w)) == Load(n) - 1 && Distance(SentNext(n, w)) == Distance(n) - 1
  {
    var phase := SentNext(n, w).workers[w];
    Sums.SumReplace(n.workers, InHand, w, phase);
    Sums.SumReplace(n.workers, HandWeight, w, phase);
  }

  lemma ArrivingFills(n: Node, t: Id, item: Item)
    requires CanBeginPut(n, t, item)
    ensures Load(BeginPutting(n, t, item)) == Load(n) + 1 && Distance(BeginPutting(n, t, item)) == Distance(n) + 5
  {
    Sums.SumUpdate(n.putters, HasItem, t, Trying(item));
  }

  lemma OfferLightens(s: State, i: nat, w: Id)
    requires Shape(s) && Can(s, Offer(i, w))
    ensures Lighter(Next(s, Offer(i, w)), s)
  {
    SendingEmpties(s.nodes[i], w);
    ArrivingFills(s.nodes[i + 1], w, StageOf(s.nodes[i], w).outbox[0]);
    hide Load, Distance;
  }

  ghost predicate OpenAsBefore(n: Node, n': Node) {
    && n'.buf.closed == n.buf.closed && n'.con.closed == n.con.closed && n'.cancelled == n.cancelled
    && n.workers.Keys <= n'.workers.Keys
  }

  lemma OpenStaysRunning(n: Node, n': Node)
    requires Running(n) && OpenAsBefore(n, n')
    ensures Running(n')
  {
    var w :| w in n.workers;
    assert w in n'.workers.Keys;
  }

  lemma PutStaysOpen(n: Node, t: Id)
    ensures CanTryPut(n, t) ==> OpenAsBefore(n, TriedPut(n, t))
    ensures IsWaiting(n, t) ==> OpenAsBefore(n, WokenUp(n, t))
  {
    hide HasRoom;
  }

  lemma SubmitStaysOpen(n: Node, t: Id, wakes: Option<Id>)
    requires CanSubmit(n, t, wakes)
    ensures OpenAsBefore(n, Announced(n, t, wakes))
  {
    hide LockFree, Wakes;
  }

  lemma MovingStaysOpen(n: Node, w: Id, phase: Phase)
    ensures OpenAsBefore(n, Move(n, w, phase))
  {
  }

  lemma ScanningStaysOpen(n: Node, w: Id)
    requires n.con.ready != []
    ensures OpenAsBefore(n, Scanned(n, w))
  {
    hide HasWork;
  }

  lemma ReleasingStaysOpen(n: Node, w: Id, wakes: Option<Id>)
    requires At(n, w)
    ensures OpenAsBefore(n, LetGo(n, w, wakes))
  {
    hide HasWork;
  }

  lemma HoldersStayOpen(n: Node, w: Id, batch: nat, retries: nat)
    ensures CanTakeFirst(n, w) ==> OpenAsBefore(n, TookFirst(n, w))
    ensures CanTakeRest(n, w, batch) ==> OpenAsBefore(n, TookRest(n, w, batch, retries))
    ensures CanAfterCall(n, w) ==> OpenAsBefore(n, CallOver(n, w))
  {
    hide HasWork, AfterSending, GivesUp, Taken, TakeCount;
  }

  lemma StaysOpen(n: Node, a: Action)
    requires Enabled(n, a) && Progresses(a)
    ensures OpenAsBefore(n, Apply(n, a))
  {
    hide OpenAsBefore;
    match a {
      case TryPut(t) => PutStaysOpen(n, t);
      case Wake(t) => PutStaysOpen(n, t);
      case Submit(t, wakes) => SubmitStaysOpen(n, t, wakes);
      case Acquire(w) => MovingStaysOpen(n, w, Acquired(n, w).workers[w]);
      case Scan(w) => ScanningStaysOpen(n, w);
      case Sleep(w) => MovingStaysOpen(n, w, Parked);
      case TakeFirst(w) => HoldersStayOpen(n, w, 0, 0);
      case TakeRest(w, batch, retries) => HoldersStayOpen(n, w, batch, retries);
      case AfterCall(w) => HoldersStayOpen(n, w, 0, 0);
      case Release(w, wakes) => ReleasingStaysOpen(n, w, wakes);
    }
  }

  lemma NodeStaysRunning(s: State, s': State, i: nat)
    requires AllRunning(s) && Shape(s') && i < 4 && s'.nodes == s.nodes[i := s'.nodes[i]]
    requires OpenAsBefore(s.nodes[i], s'.nodes[i])
    ensures AllRunning(s')
  {
    assert Running(s.nodes[i]);
    hide OpenAsBefore, Running;
    OpenStaysRunning(s.nodes[i], s'.nodes[i]);
  }

  lemma MovesStayRunning(s: State, ca: ChainAction)
    requires AllRunning(s) && Moves(s, ca)
    ensures AllRunning(Next(s, ca))
  {
    hide AllRunning;
    match ca {
      case Local(i, a) =>
        StaysOpen(s.nodes[i], a);
        hide OpenAsBefore, Apply, Enabled;
        NodeStaysRunning(s, Next(s, ca), i);
      case Deal(i, w, vs) =>
        hide Sort;
        NodeStaysRunning(s, Next(s, ca), i);
      case Offer(i, w) =>
        var s1 := s.(nodes := s.nodes[i := SentNext(s.nodes[i], w)]);
        NodeStaysRunning(s, s1, i);
        NodeStaysRunning(s1, Next(s, ca), i + 1);
    }
  }

  /** Every step the bot takes by itself uses something up, and leaves the bot running. */
  lemma MovesLighten(s: State, ca: ChainAction)
    requires ChainInv(s) && AllRunning(s) && Moves(s, ca)
    ensures AllRunning(Next(s, ca)) && Lighter(Next(s, ca), s)
  {
    MovesStayRunning(s, ca);
    match ca {
      case Local(i, a) =>
        assert NodeOk(s, i) && Inv(s.nodes[i]) && Running(s.nodes[i]);
        hide *;
        LocalLightens(s, i, a);
      case Deal(i, w, vs) =>
        assert NodeOk(s, i) && Inv(s.nodes[i]);
        hide *;
        DealLightens(s, i, w, vs);
      case Offer(i, w) =>
        hide *;
        OfferLightens(s, i, w);
    }
  }

  lemma LocalLightens(s: State, i: nat, a: Action)
    requires Shape(s) && Can(s, Local(i, a)) && Progresses(a) && Inv(s.nodes[i]) && Running(s.nodes[i])
    ensures Lighter(Next(s, Local(i, a)), s)
  {
    assert Enabled(s.nodes[i], a);
    hide Inv, Running, UsesUp, Lighter, Enabled, Apply, Progresses, Lost;
    StepUses(s.nodes[i], a);
    NodeLightens(s, Next(s, Local(i, a)), i);
  }

  /**
   * No endless work: however the workers are scheduled and whatever the handlers answer, the bot
   * left to itself comes to a state in which it has no step to take.
   */
  lemma {:induction false} WorkEnds(trace: nat -> State, act: nat -> ChainAction, from: nat) returns (end: nat)
    requires ChainInv(trace(from)) && AllRunning(trace(from))
    requires forall j | from <= j :: Moves(trace(j), act(j)) ==> trace(j + 1) == Next(trace(j), act(j))
    ensures from <= end && !Moves(trace(end), act(end))
    decreases Weight(trace(from)), Retries(trace(from)), Housekeeping(trace(from))
  {
    hide ChainInv, AllRunning, Can, Internal, Weight, Retries, Housekeeping;
    if Moves(trace(from), act(from)) {
      MovesLighten(trace(from), act(from));
      NextInv(trace(from), act(from));
      end := WorkEnds(trace, act, from + 1);
    } else {
      end := from;
    }
  }

  // ---------------------------------------------------------------------------------------------
  // Where everything ends up.

  ghost predicate Idle(s: State) { Shape(s) && forall ca :: !Moves(s, ca) }

  lemma IdleIsEmpty(s: State, i: nat)
    requires ChainInv(s) && AllRunning(s) && Idle(s) && i < 4
    ensures !Occupied(s.nodes[i])
  {
    hide ChainInv, AllRunning, Moves, Occupied;
    if Occupied(s.nodes[i]) {
      var ca := OccupiedMoves(s, i);
      assert false;
    }
  }

  /** What one node settled for good. */
  ghost function Ended(n: Node, book: Book, k: Key): multiset<nat> {
    multiset(Of(book.finished, k)) + multiset(Of(book.filtered, k)) + multiset(Msgs(Of(n.dead, k)))
  }

  lemma EmptyHoldsNothing(n: Node, k: Key)
    requires Inv(n) && !Occupied(n)
    ensures n.holder == map[] && QueueOf(n.buf, k) == []
  {
    assert OneHolder(n.con.inflight, n.holder, n.workers);
    assert forall j | j in n.holder :: At(n, n.holder[j]);
  }

  lemma EmptyPlaces(s: State, i: nat, k: Key)
    requires ChainInv(s) && i < 4 && !Occupied(s.nodes[i])
    ensures PlacesAt(s.nodes[i], s.books[i], k) == Ended(s.nodes[i], s.books[i], k)
    ensures i < AGENT && Of(s.books[i + 1].lost, k) == [] ==>
              PlacesAfter(s.nodes[i], s.nodes[i + 1], s.books[i + 1], k) == multiset{}
  {
    assert NodeOk(s, i);
    hide ChainInv, Inv, Occupied;
    EmptyHoldsNothing(s.nodes[i], k);
  }

  ghost predicate NothingLost(s: State)
    requires Shape(s)
  {
    forall i | 0 <= i < 4 :: s.books[i].lost == map[]
  }

  lemma MovesLoseNothing(s: State, ca: ChainAction)
    requires AllRunning(s) && NothingLost(s) && Can(s, ca) && (ca.Admit? || Internal(ca))
    ensures NothingLost(Next(s, ca))
  {
    match ca {
      case Admit(_, _) =>
      case Local(i, a) =>
        assert Running(s.nodes[i]);
        hide Enabled, Apply, Running;
      case Deal(i, w, vs) => hide Sort;
      case Offer(_, _) =>
    }
  }

  lemma AdmitStaysRunning(s: State, ca: ChainAction)
    requires AllRunning(s) && Can(s, ca) && ca.Admit?
    ensures AllRunning(Next(s, ca))
  {
    NodeStaysRunning(s, Next(s, ca), SYNC);
  }

  /** Nothing but admissions and the bot's own steps. */
  predicate Undisturbed(run: seq<ChainAction>) {
    forall j | 0 <= j < |run| :: run[j].Admit? || Internal(run[j])
  }

  lemma {:induction false} UndisturbedLosesNothing(s: State, run: seq<ChainAction>)
    requires ChainInv(s) && AllRunning(s) && NothingLost(s) && IsRun(s, run) && Undisturbed(run)
    ensures AllRunning(After(s, run)) && NothingLost(After(s, run))
    decreases |run|
  {
    if run != [] {
      var ca := run[0];
      assert (ca.Admit? || Internal(ca)) && Can(s, ca);
      assert Undisturbed(run[1..]);
      hide ChainInv, AllRunning, NothingLost, Can, Next, Internal;
      MovesLoseNothing(s, ca);
      NextInv(s, ca);
      if ca.Admit? {
        AdmitStaysRunning(s, ca);
      } else {
        MovesStayRunning(s, ca);
      }
      UndisturbedLosesNothing(Next(s, ca), run[1..]);
    }
  }

  /**
   * After any undisturbed run that has come to rest, every admitted message of a key has been
   * finished, filtered or dead-lettered at exactly one node, and nothing else has been.
   */
  lemma EveryMessageEnds(s: State, run: seq<ChainAction>, k: Key)
    requires Start(s) && AllRunning(s) && IsRun(s, run) && Undisturbed(run) && Idle(After(s, run))
    ensures var t := After(s, run);
            multiset(Msgs(Of(t.nodes[SYNC].put, k))) ==
              Ended(t.nodes[SYNC], t.books[SYNC], k) + Ended(t.nodes[COMMAND], t.books[COMMAND], k)
              + Ended(t.nodes[ASSETS], t.books[ASSETS], k) + Ended(t.nodes[AGENT], t.books[AGENT], k)
  {
    StartInv(s);
    RunInv(s, run);
    UndisturbedLosesNothing(s, run);
    var t := After(s, run);
    assert t.books[1].lost == map[] && t.books[2].lost == map[] && t.books[3].lost == map[];
    hide ChainInv, AllRunning, Idle, Start, IsRun, PlacesAt, PlacesAfter, Ended, Occupied, NothingLost, Undisturbed;
    Accounts(t, SYNC, k);
    forall i | 0 <= i < 4
      ensures PlacesAt(t.nodes[i], t.books[i], k) == Ended(t.nodes[i], t.books[i], k)
      ensures i < AGENT ==> PlacesAfter(t.nodes[i], t.nodes[i + 1], t.books[i + 1], k) == multiset{}
    {
      IdleIsEmpty(t, i);
      EmptyPlaces(t, i, k);
    }
    Unroll(t, k);
  }

  lemma Unroll(s: State, k: Key)
    requires Shape(s)
    requires forall i | 0 <= i < 4 :: PlacesAt(s.nodes[i], s.books[i], k) == Ended(s.nodes[i], s.books[i], k)
    requires forall i | 0 <= i < AGENT :: PlacesAfter(s.nodes[i], s.nodes[i + 1], s.books[i + 1], k) == multiset{}
    ensures PlacesFrom(s, SYNC, k) ==
              Ended(s.nodes[0], s.books[0], k) + Ended(s.nodes[1], s.books[1], k)
              + Ended(s.nodes[2], s.books[2], k) + Ended(s.nodes[3], s.books[3], k)
  {
    hide PlacesAt, PlacesAfter, Ended;
    assert PlacesFrom(s, 3, k) == Ended(s.nodes[3], s.books[3], k);
    assert PlacesFrom(s, 2, k) == Ended(s.nodes[2], s.books[2], k) + PlacesFrom(s, 3, k);
    assert PlacesFrom(s, 1, k) == Ended(s.nodes[1], s.books[1], k) + PlacesFrom(s, 2, k);
  }
}
