/** Order and accounting over the whole chain, for every interleaving. */
module ChainOrder {
  import opened Items
  import opened Buffers
  import opened Consumers
  import opened NodeProtocol
  import opened Options
  import opened Subsequences
  import opened Chain

  /** The message a goroutine is trying to put, if it has not been accepted yet. */
  function InPut(ps: Putters, w: Id): seq<nat> {
    if w in ps && !ps[w].Submitting? then [ps[w].item.msg] else []
  }

  function OutboxMsgs(ws: Workers, w: Id): seq<nat> {
    if Holds(ws, w) && ws[w].stage.Sending? then Msgs(ws[w].stage.outbox) else []
  }

  /** Messages of a key handed on by one node and not yet accepted by the next, in order. */
  function Transit(holder: map<Key, Id>, ws: Workers, ps: Putters, key: Key): seq<nat> {
    if key in holder then InPut(ps, holder[key]) + OutboxMsgs(ws, holder[key]) else []
  }

  function FailingIn(stage: Stage): seq<Item> {
    match stage
    case Calling(_, job, items) => (if job.round > 0 then items else []) + job.todo + job.again
    case Sending(_, job, _) => job.todo + job.again
    case _ => []
  }

  /** Failed items a worker still has in hand. */
  function Failing(holder: map<Key, Id>, ws: Workers, key: Key): seq<Item> {
    if key in holder && Holds(ws, holder[key]) then FailingIn(ws[holder[key]].stage) else []
  }

  function PutKey(p: PutPhase): Key { if p.Submitting? then p.key else p.item.key }

  ghost predicate Doomed(items: seq<Item>) {
    forall i | 0 <= i < |items| :: !items[i].decodes
  }

  /** What is being retried never decodes. */
  ghost predicate RetriesDoomed(ws: Workers) {
    forall w | Holds(ws, w) :: Doomed(FailingIn(ws[w].stage))
  }

  /** Whoever is putting into the next node is a worker of this one, delivering for the key it holds. */
  ghost predicate Delivering(ws: Workers, ps: Putters) {
    forall w | w in ps :: Holds(ws, w) && ws[w].stage.Sending? && PutKey(ps[w]) == ws[w].key
  }

  /** What a node handed on is, in order, what the next node accepted and what is in transit. */
  ghost predicate LinkedAt(forwarded: Record<nat>, lost: Record<nat>, put: History, transit: seq<nat>, key: Key) {
    && Sub(Msgs(Of(put, key)) + transit, Of(forwarded, key))
    && multiset(Of(forwarded, key)) == multiset(Msgs(Of(put, key))) + multiset(transit) + multiset(Of(lost, key))
  }

  ghost predicate Linked(up: Node, upBook: Book, down: Node, downBook: Book) {
    AllLinked(upBook.forwarded, downBook.lost, down.put, up.holder, up.workers, down.putters)
  }

  /** What a node was handed it handed on, ended, dropped, dead-lettered, or is still retrying. */
  ghost predicate SettledAt(book: Book, handed: History, dead: History, failing: seq<Item>, key: Key) {
    && Sub(Of(book.forwarded, key), Msgs(Of(handed, key)))
    && multiset(Msgs(Of(handed, key))) ==
         multiset(Of(book.forwarded, key)) + multiset(Of(book.finished, key)) + multiset(Of(book.filtered, key))
         + multiset(Msgs(Of(dead, key))) + multiset(Msgs(failing))
  }

  ghost predicate Settled(n: Node, book: Book) {
    forall k :: SettledAt(book, n.handed, n.dead, Failing(n.holder, n.workers, k), k)
  }

  ghost predicate Occurs(put: History, key: Key, msg: nat) { msg in Msgs(Of(put, key)) }

  /** Message numbers are fresh: none is accepted twice, or accepted while it is still being put. */
  ghost predicate Fresh(put: History, ps: Putters, used: set<nat>) {
    && (forall k, m | Occurs(put, k, m) :: m in used)
    && (forall k :: NoDup(Msgs(Of(put, k))))
    && (forall k, l, m | Occurs(put, k, m) && Occurs(put, l, m) :: k == l)
    && (forall t | t in ps && !ps[t].Submitting? :: ps[t].item.msg in used)
    && (forall t, k | t in ps && !ps[t].Submitting? :: !Occurs(put, k, ps[t].item.msg))
    && (forall t, u | t in ps && u in ps && !ps[t].Submitting? && !ps[u].Submitting? ::
          ps[t].item.msg == ps[u].item.msg ==> t == u)
  }

  ghost predicate NoOutbox(ws: Workers) {
    forall w | Holds(ws, w) && ws[w].stage.Sending? :: ws[w].stage.outbox == []
  }

  ghost predicate HandsNothingOn(book: Book) {
    forall k :: Of(book.forwarded, k) == []
  }

  ghost predicate Link(s: State, i: nat)
    requires Shape(s) && i < AGENT
  {
    && Delivering(s.nodes[i].workers, s.nodes[i + 1].putters)
    && Linked(s.nodes[i], s.books[i], s.nodes[i + 1], s.books[i + 1])
  }

  ghost predicate NodeOk(s: State, i: nat)
    requires Shape(s) && i < 4
  {
    Inv(s.nodes[i]) && Settled(s.nodes[i], s.books[i]) && RetriesDoomed(s.nodes[i].workers)
  }

  ghost predicate ChainInv(s: State) {
    && Shape(s)
    && (forall i | 0 <= i < 4 :: NodeOk(s, i))
    && (forall i | 0 <= i < AGENT :: Link(s, i))
    && Fresh(s.nodes[SYNC].put, s.nodes[SYNC].putters, s.used)
    && NoOutbox(s.nodes[AGENT].workers) && HandsNothingOn(s.books[AGENT])
  }

  // ---------------------------------------------------------------------------------------------
  // One node at a time: what a local step does to its own records and to what it has in transit.

  /** A worker with something to deliver, or in the middle of delivering it. */
  ghost predicate Busy(ws: Workers, ps: Putters, w: Id) {
    Holds(ws, w) && ws[w].stage.Sending? && (ws[w].stage.outbox != [] || w in ps)
  }

  ghost predicate QuietFor(ws: Workers, ws': Workers, ps: Putters) {
    forall w | Busy(ws, ps, w) || Busy(ws', ps, w) :: w in ws && w in ws' && ws[w] == ws'[w]
  }

  lemma QuietKeepsTransit(up: Node, up': Node, ps: Putters)
    requires OneHolder(up.con.inflight, up.holder, up.workers) && OneHolder(up'.con.inflight, up'.holder, up'.workers)
    requires Delivering(up.workers, ps) && QuietFor(up.workers, up'.workers, ps)
    ensures Delivering(up'.workers, ps)
    ensures forall k :: Transit(up'.holder, up'.workers, ps, k) == Transit(up.holder, up.workers, ps, k)
  {
    forall w | w in ps
      ensures Holds(up'.workers, w) && up'.workers[w] == up.workers[w]
    {
      assert Busy(up.workers, ps, w);
    }
    forall k
      ensures Transit(up'.holder, up'.workers, ps, k) == Transit(up.holder, up.workers, ps, k)
    {
      if k in up.holder && Busy(up.workers, ps, up.holder[k]) {
        var w := up.holder[k];
        assert Holds(up'.workers, w) && up'.holder[up'.workers[w].key] == w;
      } else {
        assert Transit(up.holder, up.workers, ps, k) == [];
      }
    }
  }

  /** Phases in which a worker has neither something to deliver nor failed items in hand. */
  predicate Calm(phase: Phase, w: Id, ps: Putters) {
    phase.Holding? ==>
      && FailingIn(phase.stage) == []
      && (phase.stage.Sending? ==> phase.stage.outbox == [] && w !in ps)
  }

  /** Only calm workers move, and they stay calm. */
  ghost predicate CalmMoves(ws: Workers, ws': Workers, ps: Putters) {
    forall w | (w in ws && !Calm(ws[w], w, ps)) || (w in ws' && !Calm(ws'[w], w, ps)) ::
      w in ws && w in ws' && ws[w] == ws'[w]
  }

  lemma CalmIsQuiet(ws: Workers, ws': Workers, ps: Putters)
    requires CalmMoves(ws, ws', ps)
    ensures QuietFor(ws, ws', ps)
  {
    forall w | Busy(ws, ps, w) || Busy(ws', ps, w)
      ensures w in ws && w in ws' && ws[w] == ws'[w]
    {
      assert (w in ws && !Calm(ws[w], w, ps)) || (w in ws' && !Calm(ws'[w], w, ps));
    }
  }

  lemma MoveIsCalm(ws: Workers, w: Id, phase: Phase, wakes: Option<Id>, ps: Putters)
    requires w in ws && Calm(ws[w], w, ps) && Calm(phase, w, ps)
    requires wakes.Some? ==> wakes.value in ws && ws[wakes.value].Parked?
    ensures CalmMoves(ws, ws[w := phase], ps) && CalmMoves(ws, Woken(ws[w := phase], wakes), ps)
    ensures CalmMoves(ws, Woken(ws, wakes), ps)
  {
  }

  /** A calm step: only calm workers move, and nothing is recorded as handed over or dead-lettered. */
  ghost predicate CalmStep(n: Node, n': Node, ps: Putters) {
    CalmMoves(n.workers, n'.workers, ps) && n'.handed == n.handed && n'.dead == n.dead
  }

  ghost predicate SamePuts(n: Node, n': Node) {
    n'.put == n.put && n'.putters == n.putters
  }

  lemma SubmitIsCalm(n: Node, t: Id, wakes: Option<Id>, ps: Putters)
    requires CanSubmit(n, t, wakes)
    ensures CalmStep(n, Announced(n, t, wakes), ps)
  {
  }

  lemma AcquireIsCalm(n: Node, w: Id, ps: Putters)
    requires CanAcquire(n, w)
    ensures CalmStep(n, Acquired(n, w), ps)
    ensures SamePuts(n, Acquired(n, w))
  {
  }

  lemma ScanIsCalm(n: Node, w: Id, ps: Putters)
    requires IsScanning(n, w) && n.con.ready != []
    ensures CalmStep(n, Scanned(n, w), ps)
    ensures SamePuts(n, Scanned(n, w))
  {
    hide Popped, HasWork;
    if PopWins(n.con, HasWork(n, n.con.ready[0])) {
      MoveIsCalm(n.workers, w, Holding(n.con.ready[0], Draining(0)), None, ps);
    }
  }

  lemma SleepIsCalm(n: Node, w: Id, ps: Putters)
    requires IsScanning(n, w)
    ensures CalmStep(n, Move(n, w, Parked), ps)
    ensures SamePuts(n, Move(n, w, Parked))
  {
  }

  lemma ReleaseIsCalm(n: Node, w: Id, wakes: Option<Id>, ps: Putters)
    requires CanRelease(n, w, wakes)
    ensures CalmStep(n, LetGo(n, w, wakes), ps)
    ensures SamePuts(n, LetGo(n, w, wakes))
  {
    MoveIsCalm(n.workers, w, Runnable(false), wakes, ps);
  }

  lemma TakeFirstKeepsBooks(n: Node, w: Id)
    requires CanTakeFirst(n, w)
    ensures var n' := TookFirst(n, w); n'.handed == n.handed && n'.dead == n.dead && SamePuts(n, n')
  {
  }

  lemma TakeFirstIsCalm(n: Node, w: Id, ps: Putters)
    requires CanTakeFirst(n, w)
    ensures CalmStep(n, TookFirst(n, w), ps)
    ensures SamePuts(n, TookFirst(n, w))
  {
    TakeFirstKeepsBooks(n, w);
    var n' := TookFirst(n, w);
    assert Calm(n'.workers[w], w, ps) && n'.workers == n.workers[w := n'.workers[w]];
    hide TookFirst, Calm, CalmMoves;
    MoveIsCalm(n.workers, w, n'.workers[w], None, ps);
    assert CalmStep(n, n', ps);
  }

  lemma TakeRestIsCalm(n: Node, w: Id, batch: nat, retries: nat, ps: Putters)
    requires CanTakeRest(n, w, batch)
    ensures CalmStep(n, TookRest(n, w, batch, retries), ps)
  {
    TakeRestKeepsBooks(n, w, batch, retries);
    var n' := TookRest(n, w, batch, retries);
    assert Calm(n'.workers[w], w, ps) && n'.workers == n.workers[w := n'.workers[w]];
    hide TookRest, Calm, CalmMoves;
    MoveIsCalm(n.workers, w, n'.workers[w], None, ps);
    assert CalmStep(n, n', ps);
  }

  lemma TakeRestKeepsBooks(n: Node, w: Id, batch: nat, retries: nat)
    requires CanTakeRest(n, w, batch)
    ensures var n' := TookRest(n, w, batch, retries); n'.handed == n.handed && n'.dead == n.dead
  {
  }

  lemma TakeRestKeepsPuts(n: Node, w: Id, batch: nat, retries: nat)
    requires CanTakeRest(n, w, batch)
    ensures SamePuts(n, TookRest(n, w, batch, retries))
  {
  }

  lemma TriedPutKeeps(n: Node, t: Id)
    requires CanTryPut(n, t)
    ensures var n' := TriedPut(n, t); n'.workers == n.workers && n'.handed == n.handed && n'.dead == n.dead
  {
    hide HasRoom, Enqueue, Extend;
    var item := n.putters[t].item;
    if n.buf.closed {
      assert TriedPut(n, t) == n.(putters := n.putters - {t});
    } else if !HasRoom(n.buf, Normalize(item.key)) {
      assert TriedPut(n, t) == n.(putters := n.putters[t := Waiting(item, n.buf.space)]);
    }
  }

  lemma TryPutIsCalm(n: Node, t: Id, ps: Putters)
    requires CanTryPut(n, t)
    ensures CalmStep(n, TriedPut(n, t), ps)
  {
    TriedPutKeeps(n, t);
    hide TriedPut, Calm;
    assert CalmStep(n, TriedPut(n, t), ps);
  }

  lemma CloseIsCalm(n: Node, ps: Putters)
    ensures CalmStep(n, ConsumerClosed(n), ps)
    ensures SamePuts(n, ConsumerClosed(n))
  {
  }

  lemma LocalIsCalm(n: Node, a: Action, ps: Putters)
    requires IsLocal(a) && Enabled(n, a) && !a.AfterCall?
    ensures CalmStep(n, Apply(n, a), ps)
  {
    match a {
      case TryPut(t) => TryPutIsCalm(n, t, ps);
      case Wake(t) =>
      case GiveUp(t) =>
      case Submit(t, wakes) => SubmitIsCalm(n, t, wakes, ps);
      case Acquire(w) => AcquireIsCalm(n, w, ps);
      case Scan(w) => ScanIsCalm(n, w, ps);
      case Sleep(w) => SleepIsCalm(n, w, ps);
      case TakeFirst(w) => TakeFirstIsCalm(n, w, ps);
      case TakeRest(w, batch, retries) => TakeRestIsCalm(n, w, batch, retries, ps);
      case Release(w, wakes) => ReleaseIsCalm(n, w, wakes, ps);
      case CloseBuffer =>
      case CloseConsumer => CloseIsCalm(n, ps);
      case Cancel =>
    }
  }

  lemma AfterCallIsQuiet(n: Node, w: Id, ps: Putters)
    requires CanAfterCall(n, w) && w !in ps
    ensures QuietFor(n.workers, CallOver(n, w).workers, ps)
    ensures SamePuts(n, CallOver(n, w))
  {
    var ws' := CallOver(n, w).workers;
    assert !Busy(n.workers, ps, w) && !Busy(ws', ps, w);
    assert ws' == n.workers[w := ws'[w]];
  }

  ghost function Pending(n: Node, key: Key): multiset<nat> {
    multiset(Msgs(Of(n.dead, key))) + multiset(Msgs(Failing(n.holder, n.workers, key)))
  }

  /** Failed items stay in hand, or are dead-lettered, across a local step. */
  ghost predicate KeepsFailing(n: Node, n': Node) {
    n'.handed == n.handed && forall k :: Pending(n', k) == Pending(n, k)
  }

  lemma SettledStays(n: Node, n': Node, book: Book)
    requires Settled(n, book) && KeepsFailing(n, n')
    ensures Settled(n', book)
  {
    forall k
      ensures SettledAt(book, n'.handed, n'.dead, Failing(n'.holder, n'.workers, k), k)
    {
      assert SettledAt(book, n.handed, n.dead, Failing(n.holder, n.workers, k), k);
      assert Pending(n', k) == Pending(n, k);
    }
  }

  lemma CalmKeepsFailing(n: Node, n': Node, ps: Putters)
    requires OneHolder(n.con.inflight, n.holder, n.workers) && OneHolder(n'.con.inflight, n'.holder, n'.workers)
    requires n'.handed == n.handed && n'.dead == n.dead && CalmMoves(n.workers, n'.workers, ps)
    ensures KeepsFailing(n, n')
    ensures RetriesDoomed(n.workers) ==> RetriesDoomed(n'.workers)
  {
    forall k
      ensures Failing(n'.holder, n'.workers, k) == Failing(n.holder, n.workers, k)
    {
      if k in n.holder && !Calm(n.workers[n.holder[k]], n.holder[k], ps) {
        assert Holds(n'.workers, n.holder[k]);
        assert n'.holder[n'.workers[n.holder[k]].key] == n.holder[k];
      } else {
        assert Failing(n.holder, n.workers, k) == [];
      }
    }
    if RetriesDoomed(n.workers) {
      forall w | Holds(n'.workers, w)
        ensures Doomed(FailingIn(n'.workers[w].stage))
      {
        assert !Calm(n'.workers[w], w, ps) ==> Holds(n.workers, w);
      }
    }
  }

  lemma NextRetryFailing(job: Job)
    requires job.todo != []
    ensures var first, rest := [Bump(job.todo[0])], job.todo[1..];
            && Msgs(first + rest + job.again) == Msgs(job.todo + job.again)
            && (Doomed(job.todo + job.again) ==> Doomed(first + rest + job.again))
  {
    var first, rest, all := [Bump(job.todo[0])], job.todo[1..], job.todo + job.again;
    forall i | 0 <= i < |all|
      ensures (first + rest + job.again)[i].msg == all[i].msg
      ensures (first + rest + job.again)[i].decodes == all[i].decodes
    {
    }
  }

  lemma AfterSendingFailing(stage: Stage, cancelled: bool)
    requires stage.Sending? && (stage.job.round == 0 ==> stage.job.todo == [])
    ensures !GivesUp(stage, cancelled) ==>
              multiset(Msgs(FailingIn(AfterSending(stage, cancelled)))) == multiset(Msgs(FailingIn(stage)))
    ensures GivesUp(stage, cancelled) ==>
              FailingIn(AfterSending(stage, cancelled)) == [] && FailingIn(stage) == stage.job.again
    ensures Doomed(FailingIn(stage)) ==> Doomed(FailingIn(AfterSending(stage, cancelled)))
  {
    var job := stage.job;
    hide Msgs, Doomed;
    if job.todo != [] {
      NextRetryFailing(job);
    } else {
      assert job.todo + job.again == job.again && job.again + [] == job.again;
    }
  }

  lemma AfterCallPending(n: Node, w: Id, k: Key)
    requires HandsOk(n, w) && CanAfterCall(n, w)
    requires n.workers[w].key in n.holder && n.holder[n.workers[w].key] == w
    requires k in n.holder && k != n.workers[w].key ==> n.holder[k] != w
    ensures Pending(CallOver(n, w), k) == Pending(n, k)
  {
    var key, stage, n' := n.workers[w].key, StageOf(n, w), CallOver(n, w);
    AfterSendingFailing(stage, n.cancelled);
    if k == key {
      assert Failing(n.holder, n.workers, k) == FailingIn(stage);
      assert Failing(n'.holder, n'.workers, k) == FailingIn(AfterSending(stage, n.cancelled));
      if GivesUp(stage, n.cancelled) {
        MsgsAppend(Of(n.dead, k), stage.job.again);
      }
    } else {
      assert Failing(n'.holder, n'.workers, k) == Failing(n.holder, n.workers, k);
    }
  }

  lemma StageDoomed(ws: Workers, w: Id, stage: Stage, ws': Workers)
    requires Holds(ws, w) && RetriesDoomed(ws) && Doomed(FailingIn(stage))
    requires ws' == ws[w := Holding(ws[w].key, stage)]
    ensures RetriesDoomed(ws')
  {
    forall v | Holds(ws', v)
      ensures Doomed(FailingIn(ws'[v].stage))
    {
      assert Holds(ws, v);
    }
  }

  lemma AfterCallKeepsFailing(n: Node, w: Id)
    requires Inv(n) && CanAfterCall(n, w) && RetriesDoomed(n.workers)
    ensures KeepsFailing(n, CallOver(n, w)) && RetriesDoomed(CallOver(n, w).workers)
  {
    InHands(n, w);
    assert Holds(n.workers, w);
    forall k
      ensures Pending(CallOver(n, w), k) == Pending(n, k)
    {
      AfterCallPending(n, w, k);
    }
    AfterSendingFailing(StageOf(n, w), n.cancelled);
    StageDoomed(n.workers, w, AfterSending(StageOf(n, w), n.cancelled), CallOver(n, w).workers);
  }

  /** A local step settles nothing new, forgets nothing, and leaves what is in transit alone. */
  lemma LocalStep(n: Node, a: Action, book: Book, ps: Putters)
    requires Inv(n) && IsLocal(a) && Enabled(n, a) && Settled(n, book) && RetriesDoomed(n.workers)
    requires Delivering(n.workers, ps) && (a.AfterCall? ==> a.w !in ps)
    ensures Inv(Apply(n, a)) && Settled(Apply(n, a), book) && RetriesDoomed(Apply(n, a).workers)
    ensures Delivering(Apply(n, a).workers, ps)
    ensures forall k :: Transit(Apply(n, a).holder, Apply(n, a).workers, ps, k) == Transit(n.holder, n.workers, ps, k)
  {
    Step(n, a);
    if a.AfterCall? {
      AfterCallIsQuiet(n, a.w, ps);
      AfterCallKeepsFailing(n, a.w);
    } else {
      LocalIsCalm(n, a, ps);
      CalmIsQuiet(n.workers, Apply(n, a).workers, ps);
      CalmKeepsFailing(n, Apply(n, a), ps);
    }
    SettledStays(n, Apply(n, a), book);
    QuietKeepsTransit(n, Apply(n, a), ps);
  }

  // The same step seen from the node above: what is in transit arrives, waits, or is lost.

  lemma ArrivalAt(forwarded: Record<nat>, lost: Record<nat>, put: History, item: Item, outbox: seq<nat>)
    requires LinkedAt(forwarded, lost, put, [item.msg] + outbox, item.key)
    ensures LinkedAt(forwarded, lost, Extend(put, item.key, [item]), outbox, item.key)
  {
    var before := Msgs(Of(put, item.key));
    MsgsAppend(Of(put, item.key), [item]);
    assert Msgs([item]) == [item.msg];
    assert before + ([item.msg] + outbox) == before + [item.msg] + outbox;
  }

  lemma LossAt(forwarded: Record<nat>, lost: Record<nat>, put: History, item: Item, outbox: seq<nat>)
    requires LinkedAt(forwarded, lost, put, [item.msg] + outbox, item.key)
    ensures LinkedAt(forwarded, Extend(lost, item.key, [item.msg]), put, outbox, item.key)
  {
    var before := Msgs(Of(put, item.key));
    SubDrop(before, item.msg, outbox);
    assert before + ([item.msg] + outbox) == before + [item.msg] + outbox;
    SubTrans(before + outbox, before + [item.msg] + outbox, Of(forwarded, item.key));
    assert multiset([item.msg] + outbox) == multiset{item.msg} + multiset(outbox);
  }

  /** What one goroutine of the upper node does in the lower node touches its own key only. */
  lemma OneDelivery(up: Node, t: Id, ps: Putters, ps': Putters)
    requires OneHolder(up.con.inflight, up.holder, up.workers) && Delivering(up.workers, ps)
    requires t in ps && ps - {t} == ps' - {t}
    requires t in ps' ==> PutKey(ps'[t]) == PutKey(ps[t])
    ensures Delivering(up.workers, ps')
    ensures up.holder.Keys >= {PutKey(ps[t])} && up.holder[PutKey(ps[t])] == t
    ensures forall k | k != PutKey(ps[t]) ::
              Transit(up.holder, up.workers, ps', k) == Transit(up.holder, up.workers, ps, k)
    ensures Transit(up.holder, up.workers, ps', PutKey(ps[t])) == InPut(ps', t) + OutboxMsgs(up.workers, t)
    ensures Transit(up.holder, up.workers, ps, PutKey(ps[t])) == InPut(ps, t) + OutboxMsgs(up.workers, t)
  {
    forall w | w in ps'
      ensures Holds(up.workers, w) && up.workers[w].stage.Sending? && PutKey(ps'[w]) == up.workers[w].key
    {
      if w != t {
        assert w in ps' - {t};
        assert ps[w] == (ps - {t})[w] == (ps' - {t})[w] == ps'[w];
      }
    }
    assert Holds(up.workers, t);
    forall k | k != PutKey(ps[t])
      ensures Transit(up.holder, up.workers, ps', k) == Transit(up.holder, up.workers, ps, k)
    {
      if k in up.holder {
        var w := up.holder[k];
        assert w != t;
        assert w in ps <==> w in ps - {t};
        assert w in ps' <==> w in ps' - {t};
        assert w in ps ==> ps[w] == (ps - {t})[w] == (ps' - {t})[w] == ps'[w];
      }
    }
  }

  ghost predicate AllLinked(forwarded: Record<nat>, lost: Record<nat>, put: History,
                            holder: map<Key, Id>, ws: Workers, ps: Putters) {
    forall k :: LinkedAt(forwarded, lost, put, Transit(holder, ws, ps, k), k)
  }

  ghost predicate SameElsewhere<T>(a: Record<T>, b: Record<T>, key: Key) {
    forall k | k != key :: Of(a, k) == Of(b, k)
  }

  /** It is enough to look at the key of the goroutine that moved. */
  lemma LinkedFor(up: Node, forwarded: Record<nat>, lost: Record<nat>, put: History, ps: Putters, t: Id,
                  lost': Record<nat>, put': History, ps': Putters)
    requires OneHolder(up.con.inflight, up.holder, up.workers) && Delivering(up.workers, ps)
    requires AllLinked(forwarded, lost, put, up.holder, up.workers, ps)
    requires t in ps && ps - {t} == ps' - {t} && (t in ps' ==> PutKey(ps'[t]) == PutKey(ps[t]))
    requires SameElsewhere(lost', lost, PutKey(ps[t])) && SameElsewhere(put', put, PutKey(ps[t]))
    requires var outbox := OutboxMsgs(up.workers, t);
             LinkedAt(forwarded, lost, put, InPut(ps, t) + outbox, PutKey(ps[t])) ==>
               LinkedAt(forwarded, lost', put', InPut(ps', t) + outbox, PutKey(ps[t]))
    ensures Delivering(up.workers, ps') && AllLinked(forwarded, lost', put', up.holder, up.workers, ps')
  {
    OneDelivery(up, t, ps, ps');
    forall k
      ensures LinkedAt(forwarded, lost', put', Transit(up.holder, up.workers, ps', k), k)
    {
      assert LinkedAt(forwarded, lost, put, Transit(up.holder, up.workers, ps, k), k);
    }
  }

  ghost predicate SeenFromAbove(up: Node, upBook: Book, m: Node, downBook: Book) {
    && OneHolder(up.con.inflight, up.holder, up.workers)
    && Delivering(up.workers, m.putters) && Linked(up, upBook, m, downBook)
  }

  lemma AcceptSeenAbove(up: Node, upBook: Book, m: Node, downBook: Book, t: Id)
    requires SeenFromAbove(up, upBook, m, downBook)
    requires CanTryPut(m, t) && m.putters[t].item.key != "" && !m.buf.closed && HasRoom(m.buf, m.putters[t].item.key)
    ensures SeenFromAbove(up, upBook, TriedPut(m, t), downBook)
  {
    hide LinkedAt;
    var item, outbox := m.putters[t].item, OutboxMsgs(up.workers, t);
    var put', ps' := Extend(m.put, item.key, [item]), m.putters[t := Submitting(item.key)];
    assert InPut(ps', t) + outbox == outbox;
    if LinkedAt(upBook.forwarded, downBook.lost, m.put, [item.msg] + outbox, item.key) {
      ArrivalAt(upBook.forwarded, downBook.lost, m.put, item, outbox);
    }
    LinkedFor(up, upBook.forwarded, downBook.lost, m.put, m.putters, t, downBook.lost, put', ps');
  }

  lemma LossSeenAbove(up: Node, upBook: Book, m: Node, downBook: Book, t: Id, item: Item)
    requires SeenFromAbove(up, upBook, m, downBook)
    requires t in m.putters && !m.putters[t].Submitting? && m.putters[t].item == item
    ensures SeenFromAbove(up, upBook, GivenUp(m, t), downBook.(lost := Extend(downBook.lost, item.key, [item.msg])))
  {
    hide LinkedAt;
    var outbox := OutboxMsgs(up.workers, t);
    var ps', lost' := m.putters - {t}, Extend(downBook.lost, item.key, [item.msg]);
    assert InPut(m.putters, t) == [item.msg];
    assert InPut(ps', t) + outbox == outbox;
    if LinkedAt(upBook.forwarded, downBook.lost, m.put, [item.msg] + outbox, item.key) {
      LossAt(upBook.forwarded, downBook.lost, m.put, item, outbox);
      assert LinkedAt(upBook.forwarded, lost', m.put, InPut(ps', t) + outbox, item.key);
    }
    assert PutKey(m.putters[t]) == item.key;
    assert SameElsewhere(lost', downBook.lost, item.key);
    LinkedFor(up, upBook.forwarded, downBook.lost, m.put, m.putters, t, lost', m.put, ps');
  }

  /** Waking up, waiting again, and announcing an accepted item change nothing the node above can see. */
  lemma QuietSeenAbove(up: Node, upBook: Book, m: Node, m': Node, downBook: Book, t: Id)
    requires SeenFromAbove(up, upBook, m, downBook)
    requires m'.put == m.put && t in m.putters && m'.putters - {t} == m.putters - {t}
    requires t in m'.putters ==> PutKey(m'.putters[t]) == PutKey(m.putters[t])
    requires InPut(m'.putters, t) == InPut(m.putters, t)
    ensures SeenFromAbove(up, upBook, m', downBook)
  {
    LinkedFor(up, upBook.forwarded, downBook.lost, m.put, m.putters, t, downBook.lost, m.put, m'.putters);
  }

  lemma TryPutSeenAbove(up: Node, upBook: Book, m: Node, downBook: Book, t: Id)
    requires SeenFromAbove(up, upBook, m, downBook) && CanTryPut(m, t) && PutterKeyed(m.putters[t])
    ensures SeenFromAbove(up, upBook, TriedPut(m, t), Lost(m, TryPut(t), downBook))
  {
    if m.buf.closed {
      LossSeenAbove(up, upBook, m, downBook, t, m.putters[t].item);
    } else if HasRoom(m.buf, m.putters[t].item.key) {
      AcceptSeenAbove(up, upBook, m, downBook, t);
    } else {
      QuietSeenAbove(up, upBook, m, TriedPut(m, t), downBook, t);
    }
  }

  lemma WorkersKeepPuts(m: Node, a: Action)
    requires IsLocal(a) && Enabled(m, a) && !a.TryPut? && !a.GiveUp? && !a.Wake? && !a.Submit?
    ensures SamePuts(m, Apply(m, a))
  {
    match a {
      case Acquire(w) => AcquireIsCalm(m, w, map[]);
      case Scan(w) => ScanIsCalm(m, w, map[]);
      case Sleep(w) => SleepIsCalm(m, w, map[]);
      case TakeFirst(w) => TakeFirstIsCalm(m, w, map[]);
      case TakeRest(w, batch, retries) => TakeRestKeepsPuts(m, w, batch, retries);
      case AfterCall(w) => AfterCallIsQuiet(m, w, map[]);
      case Release(w, wakes) => ReleaseIsCalm(m, w, wakes, map[]);
      case CloseBuffer =>
      case CloseConsumer => CloseIsCalm(m, map[]);
      case Cancel =>
    }
  }

  /** Whatever a local step does in the lower node, everything handed on stays accounted for, in order. */
  lemma SeenAbove(up: Node, upBook: Book, m: Node, downBook: Book, a: Action)
    requires SeenFromAbove(up, upBook, m, downBook) && KeysAgree(m.buf, m.putters)
    requires IsLocal(a) && Enabled(m, a)
    ensures SeenFromAbove(up, upBook, Apply(m, a), Lost(m, a, downBook))
  {
    if a.TryPut? {
      TryPutSeenAbove(up, upBook, m, downBook, a.t);
    } else if a.GiveUp? {
      LossSeenAbove(up, upBook, m, downBook, a.t, m.putters[a.t].item);
    } else if a.Wake? {
      QuietSeenAbove(up, upBook, m, WokenUp(m, a.t), downBook, a.t);
    } else if a.Submit? {
      QuietSeenAbove(up, upBook, m, Announced(m, a.t, a.wakes), downBook, a.t);
    } else {
      WorkersKeepPuts(m, a);
    }
  }

  lemma FreshAccept(put: History, ps: Putters, used: set<nat>, t: Id, item: Item)
    requires Fresh(put, ps, used) && t in ps && !ps[t].Submitting? && ps[t].item == item
    ensures Fresh(Extend(put, item.key, [item]), ps[t := Submitting(item.key)], used)
  {
    var put', ps' := Extend(put, item.key, [item]), ps[t := Submitting(item.key)];
    assert !Occurs(put, item.key, item.msg);
    MsgsAppend(Of(put, item.key), [item]);
    assert Msgs([item]) == [item.msg];
    forall k, m
      ensures Occurs(put', k, m) <==> Occurs(put, k, m) || (k == item.key && m == item.msg)
    {
      if k != item.key {
        assert Of(put', k) == Of(put, k);
      }
    }
    forall k
      ensures NoDup(Msgs(Of(put', k)))
    {
      if k != item.key {
        assert Of(put', k) == Of(put, k);
      }
    }
  }

  lemma FreshFewer(put: History, ps: Putters, ps': Putters, used: set<nat>)
    requires Fresh(put, ps, used)
    requires forall t | t in ps' && !ps'[t].Submitting? :: t in ps && !ps[t].Submitting? && ps[t].item == ps'[t].item
    ensures Fresh(put, ps', used)
  {
  }

  lemma FreshPut(n: Node, t: Id, used: set<nat>)
    requires Fresh(n.put, n.putters, used) && CanTryPut(n, t) && PutterKeyed(n.putters[t])
    ensures Fresh(TriedPut(n, t).put, TriedPut(n, t).putters, used)
  {
    hide Fresh;
    if n.buf.closed {
      FreshFewer(n.put, n.putters, n.putters - {t}, used);
    } else if HasRoom(n.buf, n.putters[t].item.key) {
      FreshAccept(n.put, n.putters, used, t, n.putters[t].item);
    } else {
      FreshFewer(n.put, n.putters, n.putters[t := Waiting(n.putters[t].item, n.buf.space)], used);
    }
  }

  lemma FreshStep(n: Node, a: Action, used: set<nat>)
    requires Fresh(n.put, n.putters, used) && KeysAgree(n.buf, n.putters) && IsLocal(a) && Enabled(n, a)
    ensures Fresh(Apply(n, a).put, Apply(n, a).putters, used)
  {
    hide Fresh;
    if a.TryPut? {
      assert PutterKeyed(n.putters[a.t]);
      FreshPut(n, a.t, used);
    } else if a.GiveUp? {
      FreshFewer(n.put, n.putters, GivenUp(n, a.t).putters, used);
    } else if a.Wake? {
      FreshFewer(n.put, n.putters, WokenUp(n, a.t).putters, used);
    } else if a.Submit? {
      FreshFewer(n.put, n.putters, Announced(n, a.t, a.wakes).putters, used);
    } else {
      WorkersKeepPuts(n, a);
    }
  }

  lemma FreshAdmit(n: Node, t: Id, item: Item, used: set<nat>)
    requires Fresh(n.put, n.putters, used) && t !in n.putters && item.msg !in used
    ensures Fresh(n.put, n.putters[t := Trying(item)], used + {item.msg})
  {
  }

  // ---------------------------------------------------------------------------------------------
  // Handler calls.

  lemma RegroupFailing(todo: seq<Item>, again: seq<Item>, failed: seq<Item>, items: seq<Item>)
    ensures multiset(Msgs(todo + (again + failed))) ==
              multiset(Msgs(todo)) + multiset(Msgs(again)) + multiset(Msgs(failed))
    ensures multiset(Msgs(items + todo + again)) ==
              multiset(Msgs(items)) + multiset(Msgs(todo)) + multiset(Msgs(again))
    ensures multiset(Msgs([] + todo + again)) == multiset(Msgs(todo)) + multiset(Msgs(again))
  {
    MsgsAppend(again, failed);
    MsgsAppend(todo, again + failed);
    MsgsAppend(items, todo);
    MsgsAppend(items + todo, again);
    MsgsAppend(todo, again);
    assert [] + todo + again == todo + again;
  }

  /** The verdicts of the first call settle the batch: nothing is lost, doubled or overtaken. */
  lemma FirstCallSettles(book: Book, handed: History, dead: History, todo: seq<Item>, again: seq<Item>,
                         items: seq<Item>, sorted: Sorted, key: Key)
    requires SettledAt(book, handed, dead, [] + todo + again, key)
    requires Sub(Msgs(sorted.outbox), Msgs(items))
    requires multiset(Msgs(items)) == multiset(Msgs(sorted.outbox)) + multiset(sorted.finished)
                                      + multiset(sorted.filtered) + multiset(Msgs(sorted.failed))
    ensures SettledAt(Booked(book, key, sorted), Extend(handed, key, items), dead, todo + (again + sorted.failed), key)
  {
    hide Sub;
    RegroupFailing(todo, again, sorted.failed, items);
    MsgsAppend(Of(handed, key), items);
    SubAppend(Of(book.forwarded, key), Msgs(Of(handed, key)), Msgs(sorted.outbox), Msgs(items));
  }

  /** A retry hands nothing on, because what it retries does not decode. */
  lemma RetrySettles(book: Book, handed: History, dead: History, todo: seq<Item>, again: seq<Item>,
                     items: seq<Item>, sorted: Sorted, key: Key)
    requires SettledAt(book, handed, dead, items + todo + again, key)
    requires sorted.outbox == []
    requires multiset(Msgs(items)) == multiset(Msgs(sorted.outbox)) + multiset(sorted.finished)
                                      + multiset(sorted.filtered) + multiset(Msgs(sorted.failed))
    ensures SettledAt(Booked(book, key, sorted), handed, dead, todo + (again + sorted.failed), key)
  {
    hide Sub;
    RegroupFailing(todo, again, sorted.failed, items);
    assert Of(Booked(book, key, sorted).forwarded, key) == Of(book.forwarded, key);
  }

  /** What a handler call does to the failed items in hand, key by key. */
  lemma DealFailing(n: Node, w: Id, sorted: Sorted)
    requires Inv(n) && At(n, w) && StageOf(n, w).Calling?
    ensures var stage, key := StageOf(n, w), n.workers[w].key;
            var n' := HandledBatch(n, w, sorted.failed, sorted.outbox);
            && Failing(n.holder, n.workers, key) ==
                 (if stage.job.round > 0 then stage.items else []) + stage.job.todo + stage.job.again
            && Failing(n'.holder, n'.workers, key) == stage.job.todo + (stage.job.again + sorted.failed)
            && (forall k | k != key :: Failing(n'.holder, n'.workers, k) == Failing(n.holder, n.workers, k))
  {
    HoldsKey(n, w);
    hide Inv;
  }

  /** What it does to the record of first calls. */
  lemma DealHanded(n: Node, w: Id, sorted: Sorted)
    requires At(n, w) && StageOf(n, w).Calling?
    ensures var stage, key := StageOf(n, w), n.workers[w].key;
            var n' := HandledBatch(n, w, sorted.failed, sorted.outbox);
            && n'.dead == n.dead
            && n'.handed == (if stage.job.round == 0 then Extend(n.handed, key, stage.items) else n.handed)
            && (forall k | k != key :: Of(n'.handed, k) == Of(n.handed, k))
  {
  }

  lemma DealSettles(n: Node, book: Book, i: nat, w: Id, vs: seq<Verdict>, sorted: Sorted)
    requires Inv(n) && Settled(n, book) && RetriesDoomed(n.workers)
    requires At(n, w) && StageOf(n, w).Calling? && Batch(i, StageOf(n, w).items, vs, n.workers[w].key)
    requires sorted == Sort(StageOf(n, w).items, vs)
    ensures Settled(HandledBatch(n, w, sorted.failed, sorted.outbox), Booked(book, n.workers[w].key, sorted))
  {
    var key, stage, n' := n.workers[w].key, StageOf(n, w), HandledBatch(n, w, sorted.failed, sorted.outbox);
    var book' := Booked(book, key, sorted);
    hide SettledAt, Inv, StageOk, Failing, HandledBatch, Booked, Sort, Of, Extend, Batch, Sub;
    SortShape(i, stage.items, vs, key);
    SortOrder(stage.items, vs);
    SortCounts(stage.items, vs);
    HoldsKey(n, w);
    DealFailing(n, w, sorted);
    DealHanded(n, w, sorted);
    forall k
      ensures SettledAt(book', n'.handed, n'.dead, Failing(n'.holder, n'.workers, k), k)
    {
      assert SettledAt(book, n.handed, n.dead, Failing(n.holder, n.workers, k), k);
      if k != key {
        SettledElsewhere(book, n.handed, n.dead, Failing(n.holder, n.workers, k), k, key, sorted, n'.handed);
      } else if stage.job.round == 0 {
        FirstCallSettles(book, n.handed, n.dead, stage.job.todo, stage.job.again, stage.items, sorted, key);
      } else {
        RetriedIsDoomed(stage);
        RetrySettles(book, n.handed, n.dead, stage.job.todo, stage.job.again, stage.items, sorted, key);
      }
    }
  }

  lemma HoldsKey(n: Node, w: Id)
    requires Inv(n) && At(n, w)
    ensures n.workers[w].key in n.holder && n.holder[n.workers[w].key] == w
    ensures forall k | k in n.holder && k != n.workers[w].key :: n.holder[k] != w
    ensures RetriesDoomed(n.workers) ==> Doomed(FailingIn(StageOf(n, w)))
  {
    assert Holds(n.workers, w);
  }

  lemma RetriedIsDoomed(stage: Stage)
    requires stage.Calling? && stage.job.round > 0 && Doomed(FailingIn(stage))
    ensures Doomed(stage.items)
  {
    assert forall j | 0 <= j < |stage.items| :: FailingIn(stage)[j] == stage.items[j];
  }

  lemma SettledElsewhere(book: Book, handed: History, dead: History, failing: seq<Item>, k: Key,
                         key: Key, sorted: Sorted, handed': History)
    requires SettledAt(book, handed, dead, failing, k) && k != key && Of(handed', k) == Of(handed, k)
    ensures SettledAt(Booked(book, key, sorted), handed', dead, failing, k)
  {
    hide Sub;
  }

  lemma DoomedParts(items: seq<Item>, todo: seq<Item>, again: seq<Item>, failed: seq<Item>)
    requires Doomed(items + todo + again) && forall x | x in failed :: !x.decodes
    ensures Doomed(todo + (again + failed))
  {
    var kept := items + todo + again;
    assert forall j | 0 <= j < |todo| :: todo[j] == kept[|items| + j];
    assert forall j | 0 <= j < |again| :: again[j] == kept[|items| + |todo| + j];
    assert forall j | 0 <= j < |failed| :: failed[j] in failed;
  }

  lemma DealKeepsDoomed(n: Node, w: Id, sorted: Sorted)
    requires Inv(n) && At(n, w) && StageOf(n, w).Calling? && RetriesDoomed(n.workers)
    requires forall x | x in sorted.failed :: !x.decodes
    ensures RetriesDoomed(HandledBatch(n, w, sorted.failed, sorted.outbox).workers)
  {
    var stage := StageOf(n, w);
    var job, ws' := stage.job, HandledBatch(n, w, sorted.failed, sorted.outbox).workers;
    HoldsKey(n, w);
    hide Inv;
    var kept := (if job.round > 0 then stage.items else []) + job.todo + job.again;
    assert FailingIn(stage) == kept && FailingIn(ws'[w].stage) == job.todo + (job.again + sorted.failed);
    DoomedParts(if job.round > 0 then stage.items else [], job.todo, job.again, sorted.failed);
    hide Doomed, FailingIn;
    StageDoomed(n.workers, w, ws'[w].stage, ws');
  }

  lemma DealLinkedAt(forwarded: Record<nat>, lost: Record<nat>, put: History, key: Key, outbox: seq<nat>)
    requires LinkedAt(forwarded, lost, put, [], key)
    ensures LinkedAt(Extend(forwarded, key, outbox), lost, put, outbox, key)
  {
    hide Sub;
    var before := Msgs(Of(put, key));
    assert before + [] == before;
    SubRefl(outbox);
    SubAppend(before, Of(forwarded, key), outbox, outbox);
  }

  lemma DealTransit(up: Node, w: Id, sorted: Sorted, ps: Putters)
    requires Inv(up) && At(up, w) && StageOf(up, w).Calling? && Delivering(up.workers, ps)
    ensures var key, up' := up.workers[w].key, HandledBatch(up, w, sorted.failed, sorted.outbox);
            && Delivering(up'.workers, ps)
            && Transit(up.holder, up.workers, ps, key) == []
            && Transit(up'.holder, up'.workers, ps, key) == Msgs(sorted.outbox)
            && forall k | k != key :: Transit(up'.holder, up'.workers, ps, k) == Transit(up.holder, up.workers, ps, k)
  {
    HoldsKey(up, w);
    hide Inv;
    assert w !in ps;
  }

  /** What a call hands on is in transit, behind everything handed on before. */
  lemma DealSeenBelow(up: Node, upBook: Book, w: Id, sorted: Sorted, m: Node, downBook: Book)
    requires Inv(up) && At(up, w) && StageOf(up, w).Calling?
    requires Delivering(up.workers, m.putters) && Linked(up, upBook, m, downBook)
    ensures var up' := HandledBatch(up, w, sorted.failed, sorted.outbox);
            Delivering(up'.workers, m.putters) && Linked(up', Booked(upBook, up.workers[w].key, sorted), m, downBook)
  {
    hide Inv, LinkedAt, Delivering, Transit;
    var key, up' := up.workers[w].key, HandledBatch(up, w, sorted.failed, sorted.outbox);
    DealTransit(up, w, sorted, m.putters);
    forall k
      ensures LinkedAt(Booked(upBook, key, sorted).forwarded, downBook.lost, m.put,
                       Transit(up'.holder, up'.workers, m.putters, k), k)
    {
      assert LinkedAt(upBook.forwarded, downBook.lost, m.put, Transit(up.holder, up.workers, m.putters, k), k);
      if k == key {
        DealLinkedAt(upBook.forwarded, downBook.lost, m.put, key, Msgs(sorted.outbox));
      } else {
        DealElsewhere(upBook.forwarded, downBook.lost, m.put, key, Msgs(sorted.outbox),
                      Transit(up.holder, up.workers, m.putters, k), k);
      }
    }
  }

  lemma DealElsewhere(forwarded: Record<nat>, lost: Record<nat>, put: History, key: Key, outbox: seq<nat>,
                      transit: seq<nat>, k: Key)
    requires k != key && LinkedAt(forwarded, lost, put, transit, k)
    ensures LinkedAt(Extend(forwarded, key, outbox), lost, put, transit, k)
  {
    hide Sub;
  }

  /** Starting a delivery moves the head of the outbox into the put, so what is in transit stays the same. */
  lemma OfferTransit(ws: Workers, w: Id, ps: Putters, item: Item, rest: seq<Item>, stage: Stage)
    requires Holds(ws, w) && ws[w].stage.Sending? && ws[w].stage.outbox == [item] + rest && w !in ps
    requires stage == ws[w].stage.(outbox := rest)
    ensures InPut(ps[w := Trying(item)], w) + OutboxMsgs(ws[w := Holding(ws[w].key, stage)], w)
         == InPut(ps, w) + OutboxMsgs(ws, w)
  {
    MsgsAppend([item], rest);
    assert Msgs([item]) == [item.msg];
  }

  lemma OutboxKeyed(n: Node, w: Id)
    requires Inv(n) && CanSendNext(n, w)
    ensures StageOf(n, w).outbox[0].key == n.workers[w].key
  {
    InHands(n, w);
  }

  lemma OfferOtherKeys(up: Node, w: Id, ps: Putters)
    requires CanSendNext(up, w)
    ensures forall v | v != w ::
              InPut(ps[w := Trying(StageOf(up, w).outbox[0])], v) == InPut(ps, v)
              && OutboxMsgs(SentNext(up, w).workers, v) == OutboxMsgs(up.workers, v)
  {
    hide Msgs;
  }

  lemma OfferKeepsTransit(up: Node, w: Id, ps: Putters)
    requires Inv(up) && CanSendNext(up, w) && w !in ps && Delivering(up.workers, ps)
    ensures var ps' := ps[w := Trying(StageOf(up, w).outbox[0])];
            && Delivering(SentNext(up, w).workers, ps')
            && forall k :: Transit(up.holder, SentNext(up, w).workers, ps', k) == Transit(up.holder, up.workers, ps, k)
  {
    HoldsKey(up, w);
    OutboxKeyed(up, w);
    hide Inv;
    var stage := StageOf(up, w);
    var item, rest := stage.outbox[0], stage.outbox[1..];
    OfferTransit(up.workers, w, ps, item, rest, stage.(outbox := rest));
    hide Msgs, InPut, OutboxMsgs;
    OfferOtherKeys(up, w, ps);
  }

  lemma SentNextPending(n: Node, w: Id)
    requires CanSendNext(n, w)
    ensures forall k :: Pending(SentNext(n, w), k) == Pending(n, k)
  {
    hide Msgs;
    forall k
      ensures Failing(SentNext(n, w).holder, SentNext(n, w).workers, k) == Failing(n.holder, n.workers, k)
    {
    }
  }

  lemma OfferKeepsRecords(up: Node, w: Id, book: Book)
    requires Inv(up) && CanSendNext(up, w) && Settled(up, book) && RetriesDoomed(up.workers)
    ensures Settled(SentNext(up, w), book) && RetriesDoomed(SentNext(up, w).workers)
  {
    HoldsKey(up, w);
    hide Inv, Settled, Pending, RetriesDoomed;
    var up' := SentNext(up, w);
    SentNextPending(up, w);
    SettledStays(up, up', book);
    StageDoomed(up.workers, w, up'.workers[w].stage, up'.workers);
  }

  // ---------------------------------------------------------------------------------------------
  // Every step of the chain.

  lemma NoOutboxStays(n: Node, n': Node)
    requires NoOutbox(n.workers) && QuietFor(n.workers, n'.workers, map[])
    ensures NoOutbox(n'.workers)
  {
    forall w | Holds(n'.workers, w) && n'.workers[w].stage.Sending?
      ensures n'.workers[w].stage.outbox == []
    {
      assert Busy(n'.workers, map[], w) ==> n.workers[w] == n'.workers[w];
    }
  }

  lemma LocalQuiet(n: Node, a: Action, ps: Putters)
    requires IsLocal(a) && Enabled(n, a) && (a.AfterCall? ==> a.w !in ps)
    ensures QuietFor(n.workers, Apply(n, a).workers, ps)
  {
    hide QuietFor, CalmMoves;
    if a.AfterCall? {
      AfterCallIsQuiet(n, a.w, ps);
    } else {
      LocalIsCalm(n, a, ps);
      assert CalmMoves(n.workers, Apply(n, a).workers, ps) by {
        assert CalmStep(n, Apply(n, a), ps);
      }
      CalmIsQuiet(n.workers, Apply(n, a).workers, ps);
    }
  }

  lemma LocalHere(s: State, i: nat, a: Action)
    requires ChainInv(s) && Can(s, Local(i, a))
    ensures NodeOk(Next(s, Local(i, a)), i)
    ensures i < AGENT ==> Link(Next(s, Local(i, a)), i)
  {
    assert NodeOk(s, i);
    var below: Putters := if i < AGENT then s.nodes[i + 1].putters else map[];
    if i < AGENT {
      assert Link(s, i);
    }
    hide Inv, Settled, RetriesDoomed, LinkedAt, Fresh, NoOutbox;
    LocalStep(s.nodes[i], a, s.books[i], below);
    LostIsNotSettled(Apply(s.nodes[i], a), s.books[i], Lost(s.nodes[i], a, s.books[i]));
    if i < AGENT {
      assert Delivering(s.nodes[i].workers, below);
      TransitKeepsLink(s.nodes[i], Apply(s.nodes[i], a), s.books[i], Lost(s.nodes[i], a, s.books[i]),
                       s.nodes[i + 1], s.books[i + 1]);
    }
  }

  lemma TransitKeepsLink(up: Node, up': Node, book: Book, book': Book, m: Node, downBook: Book)
    requires Linked(up, book, m, downBook) && book'.forwarded == book.forwarded
    requires forall k :: Transit(up'.holder, up'.workers, m.putters, k) == Transit(up.holder, up.workers, m.putters, k)
    ensures Linked(up', book', m, downBook)
  {
    hide LinkedAt;
  }

  lemma LocalAbove(s: State, i: nat, a: Action)
    requires ChainInv(s) && Can(s, Local(i, a)) && i > SYNC
    ensures Link(Next(s, Local(i, a)), i - 1)
  {
    assert Link(s, i - 1) && NodeOk(s, i - 1) && NodeOk(s, i);
    hide Settled, RetriesDoomed, LinkedAt, Fresh, NoOutbox, Delivering, Linked;
    SeenAbove(s.nodes[i - 1], s.books[i - 1], s.nodes[i], s.books[i], a);
  }

  lemma LocalEnds(s: State, i: nat, a: Action)
    requires ChainInv(s) && Can(s, Local(i, a))
    ensures var s' := Next(s, Local(i, a));
            && Fresh(s'.nodes[SYNC].put, s'.nodes[SYNC].putters, s'.used)
            && NoOutbox(s'.nodes[AGENT].workers) && HandsNothingOn(s'.books[AGENT])
  {
    assert NodeOk(s, i);
    hide Settled, RetriesDoomed, Link, Fresh, NoOutbox, QuietFor;
    if i == SYNC {
      FreshStep(s.nodes[SYNC], a, s.used);
    }
    if i == AGENT {
      LocalQuiet(s.nodes[AGENT], a, map[]);
      NoOutboxStays(s.nodes[AGENT], Apply(s.nodes[AGENT], a));
    }
  }

  /** Nodes and books a step does not write stay as they were: only nodes lo to hi need a look. */
  lemma Recompose(s: State, s': State, lo: nat, hi: nat)
    requires ChainInv(s) && Shape(s') && lo <= hi < 4
    requires forall j | 0 <= j < 4 && !(lo <= j <= hi) :: s'.nodes[j] == s.nodes[j] && s'.books[j] == s.books[j]
    requires forall j | lo <= j <= hi :: NodeOk(s', j)
    requires forall j | 0 <= j < AGENT && lo <= j + 1 && j <= hi :: Link(s', j)
    requires Fresh(s'.nodes[SYNC].put, s'.nodes[SYNC].putters, s'.used)
    requires NoOutbox(s'.nodes[AGENT].workers) && HandsNothingOn(s'.books[AGENT])
    ensures ChainInv(s')
  {
    hide Inv, Settled, RetriesDoomed, Delivering, Linked, Fresh, NoOutbox, HandsNothingOn;
    forall j | 0 <= j < 4
      ensures NodeOk(s', j)
    {
      assert NodeOk(s, j);
    }
    forall j | 0 <= j < AGENT
      ensures Link(s', j)
    {
      assert Link(s, j);
    }
  }

  lemma LocalInv(s: State, i: nat, a: Action)
    requires ChainInv(s) && Can(s, Local(i, a))
    ensures ChainInv(Next(s, Local(i, a)))
  {
    hide NodeOk, Link, Fresh, NoOutbox, HandsNothingOn, Enabled, Apply, Lost, IsLocal;
    LocalHere(s, i, a);
    LocalEnds(s, i, a);
    if i > SYNC {
      LocalAbove(s, i, a);
    }
    Recompose(s, Next(s, Local(i, a)), i, i);
    assert ChainInv(Next(s, Local(i, a)));
  }

  lemma LostIsNotSettled(n: Node, book: Book, book': Book)
    requires Settled(n, book) && book' == book.(lost := book'.lost)
    ensures Settled(n, book')
  {
    hide Sub;
    forall k
      ensures SettledAt(book', n.handed, n.dead, Failing(n.holder, n.workers, k), k)
    {
      assert SettledAt(book, n.handed, n.dead, Failing(n.holder, n.workers, k), k);
    }
  }

  lemma SamePutsKeepLink(up: Node, upBook: Book, m: Node, downBook: Book, m': Node, downBook': Book)
    requires Linked(up, upBook, m, downBook)
    requires m'.put == m.put && m'.putters == m.putters && downBook'.lost == downBook.lost
    ensures Linked(up, upBook, m', downBook')
  {
    hide LinkedAt;
  }

  lemma BeginPutKeepsRecords(m: Node, t: Id, item: Item, book: Book)
    requires Settled(m, book) && RetriesDoomed(m.workers)
    ensures Settled(BeginPutting(m, t, item), book) && RetriesDoomed(BeginPutting(m, t, item).workers)
  {
    hide SettledAt;
  }

  lemma DealFacts(s: State, i: nat, w: Id, vs: seq<Verdict>)
    requires ChainInv(s) && Can(s, Deal(i, w, vs))
    ensures i < 4 && Shape(s) && At(s.nodes[i], w) && StageOf(s.nodes[i], w).Calling?
    ensures Batch(i, StageOf(s.nodes[i], w).items, vs, s.nodes[i].workers[w].key)
    ensures Inv(s.nodes[i]) && Settled(s.nodes[i], s.books[i]) && RetriesDoomed(s.nodes[i].workers)
    ensures |StageOf(s.nodes[i], w).items| == |vs|
  {
    assert NodeOk(s, i);
  }

  lemma DealNext(s: State, i: nat, w: Id, vs: seq<Verdict>)
    requires i < 4 && Shape(s) && Can(s, Deal(i, w, vs)) && |StageOf(s.nodes[i], w).items| == |vs|
    ensures var n, sorted := s.nodes[i], Sort(StageOf(s.nodes[i], w).items, vs);
            var s' := Next(s, Deal(i, w, vs));
            s'.nodes[i] == HandledBatch(n, w, sorted.failed, sorted.outbox)
            && s'.books[i] == Booked(s.books[i], n.workers[w].key, sorted)
  {
    hide Sort, HandledBatch, Booked;
  }

  lemma DealCanHandle(n: Node, i: nat, w: Id, vs: seq<Verdict>)
    requires At(n, w) && StageOf(n, w).Calling? && Batch(i, StageOf(n, w).items, vs, n.workers[w].key)
    ensures var sorted := Sort(StageOf(n, w).items, vs);
            CanHandle(n, w, sorted.failed, sorted.outbox) && forall x | x in sorted.failed :: !x.decodes
  {
    SortShape(i, StageOf(n, w).items, vs, n.workers[w].key);
    hide Sort;
  }

  lemma HandleInv(n: Node, w: Id, failed: seq<Item>, outbox: seq<Item>)
    requires Inv(n) && CanHandle(n, w, failed, outbox)
    ensures Inv(HandledBatch(n, w, failed, outbox))
  {
    hide Inv, HandledBatch;
    Step(n, Handle(w, failed, outbox));
    assert Apply(n, Handle(w, failed, outbox)) == HandledBatch(n, w, failed, outbox);
  }

  lemma DealHere(s: State, i: nat, w: Id, vs: seq<Verdict>)
    requires ChainInv(s) && Can(s, Deal(i, w, vs))
    ensures NodeOk(Next(s, Deal(i, w, vs)), i)
  {
    DealFacts(s, i, w, vs);
    var n := s.nodes[i];
    var sorted := Sort(StageOf(n, w).items, vs);
    var s' := Next(s, Deal(i, w, vs));
    assert Shape(s');
    hide Inv, Settled, RetriesDoomed, ChainInv, Can, Next, Sort, Batch, Booked, HandledBatch, CanHandle;
    DealNext(s, i, w, vs);
    DealCanHandle(n, i, w, vs);
    HandleInv(n, w, sorted.failed, sorted.outbox);
    DealSettles(n, s.books[i], i, w, vs, sorted);
    DealKeepsDoomed(n, w, sorted);
    assert NodeOk(s', i);
  }

  /** The agent hands nothing on. */
  lemma DealEnds(s: State, i: nat, w: Id, vs: seq<Verdict>)
    requires ChainInv(s) && Can(s, Deal(i, w, vs))
    ensures NoOutbox(Next(s, Deal(i, w, vs)).nodes[AGENT].workers)
    ensures HandsNothingOn(Next(s, Deal(i, w, vs)).books[AGENT])
  {
    hide NodeOk, Link, Fresh, Legal;
    hide Sort;
    if i == AGENT {
      SortShape(i, StageOf(s.nodes[i], w).items, vs, s.nodes[i].workers[w].key);
      assert Msgs(Sort(StageOf(s.nodes[i], w).items, vs).outbox) == [];
      var before, after := s.books[AGENT].forwarded, Next(s, Deal(i, w, vs)).books[AGENT].forwarded;
      forall k
        ensures Of(after, k) == []
      {
        assert Of(before, k) == [];
      }
    }
  }

  lemma DealBelow(s: State, i: nat, w: Id, vs: seq<Verdict>)
    requires ChainInv(s) && Can(s, Deal(i, w, vs)) && i < AGENT
    ensures Link(Next(s, Deal(i, w, vs)), i)
  {
    assert NodeOk(s, i) && Link(s, i);
    hide Inv, Fresh, Settled, RetriesDoomed, Delivering, Linked, Sort, NoOutbox, Batch;
    DealSeenBelow(s.nodes[i], s.books[i], w, Sort(StageOf(s.nodes[i], w).items, vs), s.nodes[i + 1], s.books[i + 1]);
  }

  lemma DealPuts(s: State, i: nat, w: Id, vs: seq<Verdict>)
    requires Shape(s) && Can(s, Deal(i, w, vs))
    ensures SamePuts(s.nodes[i], Next(s, Deal(i, w, vs)).nodes[i])
    ensures Next(s, Deal(i, w, vs)).books[i].lost == s.books[i].lost
    ensures Next(s, Deal(i, w, vs)).used == s.used
  {
    hide Sort, Batch;
  }

  lemma DealAbove(s: State, i: nat, w: Id, vs: seq<Verdict>)
    requires ChainInv(s) && Can(s, Deal(i, w, vs)) && i > SYNC
    ensures Link(Next(s, Deal(i, w, vs)), i - 1)
  {
    assert Link(s, i - 1);
    DealPuts(s, i, w, vs);
    hide NodeOk, Fresh, Delivering, Linked, Sort, NoOutbox, Batch;
    var s' := Next(s, Deal(i, w, vs));
    SamePutsKeepLink(s.nodes[i - 1], s.books[i - 1], s.nodes[i], s.books[i], s'.nodes[i], s'.books[i]);
  }

  lemma DealFrame(s: State, i: nat, w: Id, vs: seq<Verdict>)
    requires Shape(s) && Can(s, Deal(i, w, vs))
    ensures var s' := Next(s, Deal(i, w, vs));
            && i < 4 && s'.used == s.used
            && (forall j | 0 <= j < 4 && j != i :: s'.nodes[j] == s.nodes[j] && s'.books[j] == s.books[j])
            && SamePuts(s.nodes[SYNC], s'.nodes[SYNC])
  {
    hide Sort, Batch, Booked;
  }

  lemma DealInv(s: State, i: nat, w: Id, vs: seq<Verdict>)
    requires ChainInv(s) && Can(s, Deal(i, w, vs))
    ensures ChainInv(Next(s, Deal(i, w, vs)))
  {
    hide NodeOk, Link, Fresh, NoOutbox, HandsNothingOn, Next, Can;
    DealFrame(s, i, w, vs);
    DealHere(s, i, w, vs);
    DealEnds(s, i, w, vs);
    if i < AGENT {
      DealBelow(s, i, w, vs);
    }
    if i > SYNC {
      DealAbove(s, i, w, vs);
    }
    Recompose(s, Next(s, Deal(i, w, vs)), i, i);
  }

  lemma OfferHere(s: State, i: nat, w: Id)
    requires ChainInv(s) && Can(s, Offer(i, w))
    ensures NodeOk(Next(s, Offer(i, w)), i) && NodeOk(Next(s, Offer(i, w)), i + 1)
  {
    OfferFacts(s, i, w);
    var up, m := s.nodes[i], s.nodes[i + 1];
    var item := StageOf(up, w).outbox[0];
    var s' := Next(s, Offer(i, w));
    assert Shape(s');
    hide Inv, Settled, RetriesDoomed, ChainInv, Can, Next, SentNext, BeginPutting;
    OfferNext(s, i, w);
    SendNextInv(up, w);
    BeginPutStep(m, w, item);
    OfferKeepsRecords(up, w, s.books[i]);
    BeginPutKeepsRecords(m, w, item, s.books[i + 1]);
    assert NodeOk(s', i) && NodeOk(s', i + 1);
  }

  lemma OfferFacts(s: State, i: nat, w: Id)
    requires ChainInv(s) && Can(s, Offer(i, w))
    ensures i < AGENT && CanSendNext(s.nodes[i], w) && CanBeginPut(s.nodes[i + 1], w, StageOf(s.nodes[i], w).outbox[0])
    ensures Inv(s.nodes[i]) && Settled(s.nodes[i], s.books[i]) && RetriesDoomed(s.nodes[i].workers)
    ensures Inv(s.nodes[i + 1]) && Settled(s.nodes[i + 1], s.books[i + 1]) && RetriesDoomed(s.nodes[i + 1].workers)
  {
    assert NodeOk(s, i) && NodeOk(s, i + 1);
  }

  lemma OfferNext(s: State, i: nat, w: Id)
    requires Shape(s) && Can(s, Offer(i, w))
    ensures var s' := Next(s, Offer(i, w));
            && s'.nodes[i] == SentNext(s.nodes[i], w)
            && s'.nodes[i + 1] == BeginPutting(s.nodes[i + 1], w, StageOf(s.nodes[i], w).outbox[0])
            && s'.books == s.books
  {
    hide SentNext, BeginPutting;
  }

  lemma SendNextInv(n: Node, w: Id)
    requires Inv(n) && CanSendNext(n, w)
    ensures Inv(SentNext(n, w))
  {
    hide Inv, SentNext;
    Step(n, SendNext(w));
    assert Apply(n, SendNext(w)) == SentNext(n, w);
  }

  lemma OfferLink(s: State, i: nat, w: Id)
    requires ChainInv(s) && Can(s, Offer(i, w))
    ensures Link(Next(s, Offer(i, w)), i)
  {
    assert NodeOk(s, i) && Link(s, i);
    hide Inv, Fresh, Settled, RetriesDoomed, LinkedAt, NoOutbox, Delivering, Linked;
    OfferKeepsTransit(s.nodes[i], w, s.nodes[i + 1].putters);
    OfferKeepsLink(s.nodes[i], w, s.books[i], s.nodes[i + 1], s.books[i + 1]);
  }

  lemma OfferOthers(s: State, i: nat, w: Id)
    requires ChainInv(s) && Can(s, Offer(i, w))
    ensures SamePuts(s.nodes[i], Next(s, Offer(i, w)).nodes[i])
    ensures i > SYNC ==> Link(Next(s, Offer(i, w)), i - 1)
    ensures i + 1 < AGENT ==> Link(Next(s, Offer(i, w)), i + 1)
    ensures Next(s, Offer(i, w)).nodes[i + 1].workers == s.nodes[i + 1].workers
  {
    assert i > SYNC ==> Link(s, i - 1);
    assert i + 1 < AGENT ==> Link(s, i + 1);
    hide ChainInv, NodeOk, Fresh, NoOutbox, Delivering, Linked;
    if i > SYNC {
      OfferKeepsLinkAbove(s, i, w);
    }
    if i + 1 < AGENT {
      OfferKeepsLinkBelow(s, i, w);
    }
  }

  lemma OfferKeepsLinkAbove(s: State, i: nat, w: Id)
    requires Shape(s) && Can(s, Offer(i, w)) && i > SYNC && Link(s, i - 1)
    ensures Link(Next(s, Offer(i, w)), i - 1)
  {
    hide Linked, Delivering;
    var up, s' := s.nodes[i], Next(s, Offer(i, w));
    SamePutsKeepLink(s.nodes[i - 1], s.books[i - 1], up, s.books[i], s'.nodes[i], s'.books[i]);
  }

  lemma OfferKeepsLinkBelow(s: State, i: nat, w: Id)
    requires Shape(s) && Can(s, Offer(i, w)) && i + 1 < AGENT && Link(s, i + 1)
    ensures Link(Next(s, Offer(i, w)), i + 1)
  {
    hide Linked, Delivering;
    var m, s' := s.nodes[i + 1], Next(s, Offer(i, w));
    SameWorkersKeepLink(m, s'.nodes[i + 1], s.books[i + 1], s.nodes[i + 2], s.books[i + 2]);
  }

  lemma OfferKeepsLink(up: Node, w: Id, upBook: Book, m: Node, downBook: Book)
    requires CanSendNext(up, w) && Linked(up, upBook, m, downBook)
    requires var ps' := m.putters[w := Trying(StageOf(up, w).outbox[0])];
             forall k :: Transit(up.holder, SentNext(up, w).workers, ps', k) == Transit(up.holder, up.workers, m.putters, k)
    ensures Linked(SentNext(up, w), upBook, BeginPutting(m, w, StageOf(up, w).outbox[0]), downBook)
  {
    hide LinkedAt, Transit;
  }

  lemma SameWorkersKeepLink(up: Node, up': Node, upBook: Book, m: Node, downBook: Book)
    requires Linked(up, upBook, m, downBook) && up'.holder == up.holder && up'.workers == up.workers
    ensures Linked(up', upBook, m, downBook)
  {
    hide LinkedAt;
  }

  lemma OfferFrame(s: State, i: nat, w: Id)
    requires Shape(s) && Can(s, Offer(i, w))
    ensures var s' := Next(s, Offer(i, w));
            && i < AGENT && Shape(s') && s'.used == s.used && s'.books == s.books
            && (forall j | 0 <= j < 4 && !(i <= j <= i + 1) :: s'.nodes[j] == s.nodes[j])
            && SamePuts(s.nodes[SYNC], s'.nodes[SYNC])
            && s'.nodes[AGENT].workers == s.nodes[AGENT].workers
  {
  }

  lemma OfferInv(s: State, i: nat, w: Id)
    requires ChainInv(s) && Can(s, Offer(i, w))
    ensures ChainInv(Next(s, Offer(i, w)))
  {
    hide NodeOk, Link, Fresh, NoOutbox, HandsNothingOn, Next, Can;
    OfferFrame(s, i, w);
    OfferHere(s, i, w);
    OfferLink(s, i, w);
    OfferOthers(s, i, w);
    Recompose(s, Next(s, Offer(i, w)), i, i + 1);
  }

  lemma AdmitInv(s: State, t: Id, item: Item)
    requires ChainInv(s) && Can(s, Admit(t, item))
    ensures ChainInv(Next(s, Admit(t, item)))
  {
    var s', n := Next(s, Admit(t, item)), s.nodes[SYNC];
    assert NodeOk(s, SYNC) && Link(s, SYNC);
    hide Inv, Settled, RetriesDoomed, Delivering, Linked, NoOutbox;
    Step(n, BeginPut(t, item));
    BeginPutKeepsRecords(n, t, item, s.books[SYNC]);
    FreshAdmit(n, t, item, s.used);
    hide Fresh;
    SameWorkersKeepLink(n, s'.nodes[SYNC], s.books[SYNC], s.nodes[COMMAND], s.books[COMMAND]);
    Recompose(s, s', SYNC, SYNC);
  }

  /** Every step of the chain keeps every invariant. */
  lemma NextInv(s: State, ca: ChainAction)
    requires ChainInv(s) && Can(s, ca)
    ensures ChainInv(Next(s, ca))
  {
    hide ChainInv, Can, Next;
    match ca {
      case Admit(t, item) => AdmitInv(s, t, item);
      case Local(i, a) => LocalInv(s, i, a);
      case Deal(i, w, verdicts) => DealInv(s, i, w, verdicts);
      case Offer(i, w) => OfferInv(s, i, w);
    }
  }
}
