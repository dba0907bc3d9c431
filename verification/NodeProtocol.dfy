/**
 * One node as a concurrent protocol: any number of goroutines putting items and submitting keys,
 * and a fixed pool of workers. Every action below is one atomic step of the source: a critical
 * section of the buffer's mutex, or a piece of the consumer's critical section with one look at the
 * buffer in it (while a worker is Scanning it holds the consumer's mutex).
 */
module NodeProtocol {
  import opened Items
  import opened Options
  import opened Buffers
  import opened Consumers

  type Id = nat

  /** What process is in the middle of: retries still to hand over this round, and this round's failures. */
  datatype Job = Job(todo: seq<Item>, again: seq<Item>, round: nat, retries: nat)

  datatype Stage =
    | Draining(burst: nat)
    | Lingering(burst: nat, items: seq<Item>)
    | Calling(burst: nat, job: Job, items: seq<Item>)
    | Sending(burst: nat, job: Job, outbox: seq<Item>)
    | Releasing

  /** A runnable worker has been signalled, or has not been asleep since it was last at work. */
  datatype Phase = Runnable(signalled: bool) | Scanning | Parked | Exited | Holding(key: Key, stage: Stage)

  datatype PutPhase = Trying(item: Item) | Waiting(item: Item, channel: nat) | Submitting(key: Key)

  type Record<T> = map<Key, seq<T>>
  type History = Record<Item>

  function Of<T>(h: Record<T>, key: Key): seq<T> {
    if key in h then h[key] else []
  }

  function Extend<T>(h: Record<T>, key: Key, more: seq<T>): Record<T> {
    h[key := Of(h, key) + more]
  }

  /**
   * `holder` names the worker that marked a key in flight; `put`, `handed` and `dead` record, key
   * by key, what was accepted, what was first handed to the handler, and what was dead-lettered.
   */
  datatype Node = Node(
    buf: BufferState,
    con: ConsumerState,
    workers: map<Id, Phase>,
    putters: map<Id, PutPhase>,
    cancelled: bool,
    holder: map<Key, Id>,
    put: History,
    handed: History,
    dead: History)

  datatype Action =
    | BeginPut(t: Id, item: Item)
    | TryPut(t: Id)
    | Wake(t: Id)
    | GiveUp(t: Id)
    | Submit(t: Id, wakes: Option<Id>)
    | Acquire(w: Id)
    | Scan(w: Id)
    | Sleep(w: Id)
    | TakeFirst(w: Id)
    | TakeRest(w: Id, batch: nat, retries: nat)
    | Handle(w: Id, failed: seq<Item>, outbox: seq<Item>)
    | SendNext(w: Id)
    | AfterCall(w: Id)
    | Release(w: Id, wakes: Option<Id>)
    | CloseBuffer
    | CloseConsumer
    | Cancel

  ghost predicate LockFree(n: Node) {
    forall w | w in n.workers :: !n.workers[w].Scanning?
  }

  ghost predicate SomeParked(workers: map<Id, Phase>) {
    exists w :: w in workers && workers[w].Parked?
  }

  /** Signal wakes one parked worker if there is one, and nothing otherwise. */
  ghost predicate Wakes(n: Node, signal: bool, wakes: Option<Id>) {
    if signal && SomeParked(n.workers) then wakes.Some? && wakes.value in n.workers && n.workers[wakes.value].Parked?
    else wakes.None?
  }

  function Woken(workers: map<Id, Phase>, wakes: Option<Id>): map<Id, Phase> {
    if wakes.Some? then workers[wakes.value := Runnable(true)] else workers
  }

  predicate HasWork(n: Node, key: Key) { QueueOf(n.buf, key) != [] }

  predicate At(n: Node, w: Id) { w in n.workers && n.workers[w].Holding? }

  function StageOf(n: Node, w: Id): Stage
    requires At(n, w)
  {
    n.workers[w].stage
  }

  function Move(n: Node, w: Id, phase: Phase): Node {
    n.(workers := n.workers[w := phase])
  }

  function Proceed(n: Node, w: Id, stage: Stage): Node
    requires At(n, w)
  {
    Move(n, w, Holding(n.workers[w].key, stage))
  }

  function Bump(item: Item): Item { item.(attempts := item.attempts + 1) }

  /** The first `n` items of a queue leave it; a count the total cannot cover never arises. */
  function Take(b: BufferState, key: Key, max: int): BufferState {
    if TakeCount(b, key, max) <= b.total then AfterTake(b, key, max) else b
  }

  /** The retry round is over, something is still failing, and there is no attempt left. */
  predicate GivesUp(stage: Stage, cancelled: bool)
    requires stage.Sending?
  {
    stage.job.todo == [] && stage.job.again != [] && (stage.job.round >= stage.job.retries || cancelled)
  }

  /** Where process goes once a handler call and its deliveries are over. */
  function AfterSending(stage: Stage, cancelled: bool): Stage
    requires stage.Sending?
  {
    var job := stage.job;
    if job.todo != [] then Calling(stage.burst, job.(todo := job.todo[1..]), [Bump(job.todo[0])])
    else if job.again == [] || GivesUp(stage, cancelled) then Draining(stage.burst + 1)
    else Sending(stage.burst, Job(job.again, [], job.round + 1, job.retries), [])
  }

  // The actions, one guard and one effect each.

  predicate CanBeginPut(n: Node, t: Id, item: Item) { t !in n.putters && item.key != "" }

  function BeginPutting(n: Node, t: Id, item: Item): Node {
    n.(putters := n.putters[t := Trying(item)])
  }

  predicate CanTryPut(n: Node, t: Id) { t in n.putters && n.putters[t].Trying? }

  function TriedPut(n: Node, t: Id): Node
    requires CanTryPut(n, t)
  {
    var item := n.putters[t].item;
    if n.buf.closed then n.(putters := n.putters - {t})
    else if HasRoom(n.buf, Normalize(item.key)) then
      n.(buf := Enqueue(n.buf, item), putters := n.putters[t := Submitting(item.key)],
         put := Extend(n.put, Normalize(item.key), [item]))
    else n.(putters := n.putters[t := Waiting(item, n.buf.space)])
  }

  predicate IsWaiting(n: Node, t: Id) { t in n.putters && n.putters[t].Waiting? }

  predicate CanWake(n: Node, t: Id) { IsWaiting(n, t) && (n.putters[t].channel != n.buf.space || n.buf.closed) }

  function WokenUp(n: Node, t: Id): Node
    requires IsWaiting(n, t)
  {
    n.(putters := n.putters[t := Trying(n.putters[t].item)])
  }

  function GivenUp(n: Node, t: Id): Node { n.(putters := n.putters - {t}) }

  ghost predicate CanSubmit(n: Node, t: Id, wakes: Option<Id>) {
    && t in n.putters && n.putters[t].Submitting? && LockFree(n)
    && Wakes(n, SubmitSignals(n.con, n.putters[t].key), wakes)
  }

  ghost function Announced(n: Node, t: Id, wakes: Option<Id>): Node
    requires CanSubmit(n, t, wakes)
  {
    n.(con := Submitted(n.con, n.putters[t].key), putters := n.putters - {t}, workers := Woken(n.workers, wakes))
  }

  ghost predicate CanAcquire(n: Node, w: Id) { w in n.workers && n.workers[w].Runnable? && LockFree(n) }

  function Acquired(n: Node, w: Id): Node {
    Move(n, w, if n.con.closed || n.cancelled then Exited else Scanning)
  }

  predicate IsScanning(n: Node, w: Id) { w in n.workers && n.workers[w].Scanning? }

  function Scanned(n: Node, w: Id): Node
    requires n.con.ready != []
  {
    var key := n.con.ready[0];
    var works := HasWork(n, key);
    if PopWins(n.con, works) then
      Move(n, w, Holding(key, Draining(0))).(con := Popped(n.con, works), holder := n.holder[key := w])
    else n.(con := Popped(n.con, works))
  }

  predicate CanTakeFirst(n: Node, w: Id) { At(n, w) && StageOf(n, w).Draining? }

  /** drain: another batch, unless this turn is used up, the context is cancelled or nothing is queued. */
  function TookFirst(n: Node, w: Id): Node
    requires CanTakeFirst(n, w)
  {
    var burst, key := StageOf(n, w).burst, n.workers[w].key;
    if burst >= MAX_BURST_PER_TURN || n.cancelled || !HasWork(n, key) then Proceed(n, w, Releasing)
    else Proceed(n, w, Lingering(burst, Taken(n.buf, key, 1))).(buf := Take(n.buf, key, 1))
  }

  predicate CanTakeRest(n: Node, w: Id, batch: nat) { At(n, w) && StageOf(n, w).Lingering? && batch >= 1 }

  function TookRest(n: Node, w: Id, batch: nat, retries: nat): Node
    requires CanTakeRest(n, w, batch)
  {
    var stage, key := StageOf(n, w), n.workers[w].key;
    var remaining := batch - |stage.items|;
    if remaining > 0 then
      Proceed(n, w, Calling(stage.burst, Job([], [], 0, retries), stage.items + Taken(n.buf, key, remaining)))
        .(buf := Take(n.buf, key, remaining))
    else Proceed(n, w, Calling(stage.burst, Job([], [], 0, retries), stage.items))
  }

  ghost predicate CanHandle(n: Node, w: Id, failed: seq<Item>, outbox: seq<Item>) {
    && At(n, w) && StageOf(n, w).Calling?
    && (forall x | x in failed :: x in StageOf(n, w).items)
    && (forall x | x in outbox :: x.key == n.workers[w].key)
  }

  function HandledBatch(n: Node, w: Id, failed: seq<Item>, outbox: seq<Item>): Node
    requires At(n, w) && StageOf(n, w).Calling?
  {
    var stage, key := StageOf(n, w), n.workers[w].key;
    Proceed(n, w, Sending(stage.burst, stage.job.(again := stage.job.again + failed), outbox))
      .(handed := if stage.job.round == 0 then Extend(n.handed, key, stage.items) else n.handed)
  }

  predicate IsSending(n: Node, w: Id) { At(n, w) && StageOf(n, w).Sending? }

  predicate CanSendNext(n: Node, w: Id) { IsSending(n, w) && StageOf(n, w).outbox != [] }

  function SentNext(n: Node, w: Id): Node
    requires CanSendNext(n, w)
  {
    Proceed(n, w, StageOf(n, w).(outbox := StageOf(n, w).outbox[1..]))
  }

  predicate CanAfterCall(n: Node, w: Id) { IsSending(n, w) && StageOf(n, w).outbox == [] }

  function CallOver(n: Node, w: Id): Node
    requires CanAfterCall(n, w)
  {
    var stage, key := StageOf(n, w), n.workers[w].key;
    Proceed(n, w, AfterSending(stage, n.cancelled))
      .(dead := if GivesUp(stage, n.cancelled) then Extend(n.dead, key, stage.job.again) else n.dead)
  }

  ghost predicate CanRelease(n: Node, w: Id, wakes: Option<Id>) {
    && At(n, w) && StageOf(n, w).Releasing? && LockFree(n)
    && Wakes(n, ReleaseSignals(n.con, HasWork(n, n.workers[w].key)), wakes)
  }

  function LetGo(n: Node, w: Id, wakes: Option<Id>): Node
    requires At(n, w)
  {
    var key := n.workers[w].key;
    n.(con := Released(n.con, key, HasWork(n, key)),
       workers := Woken(n.workers[w := Runnable(false)], wakes), holder := n.holder - {key})
  }

  function BufferClosed(n: Node): Node { n.(buf := n.buf.(closed := true)) }

  function ConsumerClosed(n: Node): Node {
    n.(con := n.con.(closed := true),
       workers := map w | w in n.workers :: if n.workers[w].Parked? then Runnable(true) else n.workers[w])
  }

  ghost predicate Enabled(n: Node, a: Action) {
    match a
    case BeginPut(t, item) => CanBeginPut(n, t, item)
    case TryPut(t) => CanTryPut(n, t)
    case Wake(t) => CanWake(n, t)
    case GiveUp(t) => IsWaiting(n, t)
    case Submit(t, wakes) => CanSubmit(n, t, wakes)
    case Acquire(w) => CanAcquire(n, w)
    case Scan(w) => IsScanning(n, w) && n.con.ready != []
    case Sleep(w) => IsScanning(n, w) && n.con.ready == []
    case TakeFirst(w) => CanTakeFirst(n, w)
    case TakeRest(w, batch, retries) => CanTakeRest(n, w, batch)
    case Handle(w, failed, outbox) => CanHandle(n, w, failed, outbox)
    case SendNext(w) => CanSendNext(n, w)
    case AfterCall(w) => CanAfterCall(n, w)
    case Release(w, wakes) => CanRelease(n, w, wakes)
    case CloseBuffer => true
    case CloseConsumer => LockFree(n)
    case Cancel => true
  }

  ghost function Apply(n: Node, a: Action): Node
    requires Enabled(n, a)
  {
    match a
    case BeginPut(t, item) => BeginPutting(n, t, item)
    case TryPut(t) => TriedPut(n, t)
    case Wake(t) => WokenUp(n, t)
    case GiveUp(t) => GivenUp(n, t)
    case Submit(t, wakes) => Announced(n, t, wakes)
    case Acquire(w) => Acquired(n, w)
    case Scan(w) => Scanned(n, w)
    case Sleep(w) => Move(n, w, Parked)
    case TakeFirst(w) => TookFirst(n, w)
    case TakeRest(w, batch, retries) => TookRest(n, w, batch, retries)
    case Handle(w, failed, outbox) => HandledBatch(n, w, failed, outbox)
    case SendNext(w) => SentNext(n, w)
    case AfterCall(w) => CallOver(n, w)
    case Release(w, wakes) => LetGo(n, w, wakes)
    case CloseBuffer => BufferClosed(n)
    case CloseConsumer => ConsumerClosed(n)
    case Cancel => n.(cancelled := true)
  }

  /** A node just after Run: `pool` workers about to look for work. */
  ghost predicate Init(n: Node) {
    && Valid(n.buf) && n.buf.queues == map[]
    && n.con == ConsumerState([], {}, {}, false)
    && (forall w | w in n.workers :: n.workers[w] == Runnable(false))
    && n.putters == map[] && n.holder == map[]
    && n.put == map[] && n.handed == map[] && n.dead == map[]
  }

  // ---------------------------------------------------------------------------------------------
  // Invariants, each over the part of the state it speaks about.

  type Workers = map<Id, Phase>
  type Putters = map<Id, PutPhase>

  predicate Holds(ws: Workers, w: Id) { w in ws && ws[w].Holding? }

  /** A key is in flight exactly while one worker holds it, and that worker is unique. */
  ghost predicate OneHolder(inflight: set<Key>, holder: map<Key, Id>, ws: Workers) {
    && holder.Keys == inflight
    && (forall k | k in holder :: Holds(ws, holder[k]) && ws[holder[k]].key == k)
    && (forall w | Holds(ws, w) :: ws[w].key in holder && holder[ws[w].key] == w)
  }

  ghost predicate OneScanner(ws: Workers) {
    forall v, w | v in ws && w in ws && ws[v].Scanning? && ws[w].Scanning? :: v == w
  }

  ghost predicate SubmitPending(ps: Putters, key: Key) {
    exists t :: t in ps && ps[t] == Submitting(key)
  }

  /** No queued item is forgotten: its key is waiting for a worker, held by one, or about to be submitted. */
  ghost predicate Covered(c: ConsumerState, b: BufferState, ps: Putters) {
    !c.closed ==> forall k | k in b.queues :: k in c.readySet || k in c.inflight || SubmitPending(ps, k)
  }

  ghost predicate AllKeyed(items: seq<Item>, key: Key) {
    forall i | 0 <= i < |items| :: items[i].key == key
  }

  ghost predicate PutterKeyed(p: PutPhase) {
    (if p.Submitting? then p.key else p.item.key) != ""
  }

  ghost predicate KeysAgree(b: BufferState, ps: Putters) {
    && (forall k | k in b.queues :: k != "" && AllKeyed(b.queues[k], k))
    && (forall t | t in ps :: PutterKeyed(ps[t]))
  }

  /** Woken by a signal and not yet looking for work. */
  ghost function Signalled(ws: Workers): set<Id> { set w | w in ws && ws[w] == Runnable(true) }

  /** Signalled, or looking for work now. */
  ghost function Awake(ws: Workers): set<Id> { set w | w in ws && (ws[w] == Runnable(true) || ws[w].Scanning?) }

  /** Work conservation: while a worker sleeps, every waiting key has an awake worker to itself. */
  ghost predicate NoLostWakeup(cancelled: bool, ready: seq<Key>, ws: Workers) {
    !cancelled && SomeParked(ws) ==> |ready| <= |Awake(ws)|
  }

  /** After Close nobody sleeps and nobody is looking for work any more. */
  ghost predicate NobodyWaits(ws: Workers) {
    forall w | w in ws :: !ws[w].Parked? && !ws[w].Scanning?
  }

  /** Workers leave only once the node is shutting down. */
  ghost predicate NobodyLeft(ws: Workers) {
    forall w | w in ws :: !ws[w].Exited?
  }

  /** A goroutine waiting on the current channel really has no room. */
  ghost predicate BlockedMeansFull(b: BufferState, ps: Putters) {
    forall t | t in ps && ps[t].Waiting? ::
      && ps[t].channel <= b.space
      && (ps[t].channel == b.space ==> !HasRoom(b, ps[t].item.key))
  }

  ghost predicate StageOk(b: BufferState, key: Key, stage: Stage) {
    match stage
    case Draining(burst) => burst == 0 ==> QueueOf(b, key) != []
    case Lingering(_, items) => items != [] && AllKeyed(items, key)
    case Calling(_, job, items) =>
      && items != [] && AllKeyed(items, key) && AllKeyed(job.todo, key) && AllKeyed(job.again, key)
      && (job.round == 0 ==> job.todo == [])
    case Sending(_, job, outbox) =>
      && AllKeyed(outbox, key) && AllKeyed(job.todo, key) && AllKeyed(job.again, key)
      && (job.round == 0 ==> job.todo == [])
    case Releasing => true
  }

  ghost predicate StagesOk(b: BufferState, ws: Workers) {
    forall w | Holds(ws, w) :: StageOk(b, ws[w].key, ws[w].stage)
  }

  /** Items taken from the queue and not yet handed to the handler for the first time. */
  function FirstHands(stage: Stage): seq<Item> {
    match stage
    case Lingering(_, items) => items
    case Calling(_, job, items) => if job.round == 0 then items else []
    case _ => []
  }

  function InFirstHands(holder: map<Key, Id>, ws: Workers, key: Key): seq<Item> {
    if key in holder && Holds(ws, holder[key]) then FirstHands(ws[holder[key]].stage) else []
  }

  /** Per key: everything accepted is, in order, what the handler got, what is in hand, and what is queued. */
  ghost predicate Fifo(put: History, handed: History, holder: map<Key, Id>, ws: Workers, b: BufferState) {
    forall k :: Of(put, k) == Of(handed, k) + InFirstHands(holder, ws, k) + QueueOf(b, k)
  }

  ghost predicate Inv(n: Node) {
    && Valid(n.buf) && WellFormed(n.con)
    && OneHolder(n.con.inflight, n.holder, n.workers) && OneScanner(n.workers)
    && KeysAgree(n.buf, n.putters) && Covered(n.con, n.buf, n.putters)
    && NoLostWakeup(n.cancelled, n.con.ready, n.workers) && (n.con.closed ==> NobodyWaits(n.workers))
    && (!n.con.closed && !n.cancelled ==> NobodyLeft(n.workers))
    && BlockedMeansFull(n.buf, n.putters) && StagesOk(n.buf, n.workers)
    && Fifo(n.put, n.handed, n.holder, n.workers, n.buf)
  }

  lemma InitInv(n: Node)
    requires Init(n)
    ensures Inv(n)
  {
  }

  // Each kind of step, by the part of the state it writes.

  /** Goroutines that change only their own progress, short of having an item accepted. */
  lemma PutterStep(n: Node, t: Id, ps: Putters)
    requires Inv(n)
    requires ps == n.putters - {t} || (t in ps && !ps[t].Submitting? && ps == n.putters[t := ps[t]])
    requires t in n.putters ==> !n.putters[t].Submitting?
    requires t in ps ==> PutterKeyed(ps[t])
    requires t in ps && ps[t].Waiting? ==> ps[t].channel == n.buf.space && !HasRoom(n.buf, ps[t].item.key)
    ensures Inv(n.(putters := ps))
  {
    forall k | SubmitPending(n.putters, k)
      ensures SubmitPending(ps, k)
    {
      var u :| u in n.putters && n.putters[u] == Submitting(k);
      assert u in ps && ps[u] == Submitting(k);
    }
  }

  lemma PendingStays(ps: Putters, t: Id, p: PutPhase)
    requires t !in ps || !ps[t].Submitting?
    ensures forall k | SubmitPending(ps, k) :: SubmitPending(ps[t := p], k)
  {
    forall k | SubmitPending(ps, k)
      ensures SubmitPending(ps[t := p], k)
    {
      var u :| u in ps && ps[u] == Submitting(k);
      assert u in ps[t := p] && ps[t := p][u] == Submitting(k);
    }
  }

  lemma AcceptCovered(c: ConsumerState, b: BufferState, ps: Putters, t: Id, item: Item)
    requires Covered(c, b, ps) && (t !in ps || !ps[t].Submitting?)
    requires item.key != ""
    ensures Covered(c, Enqueue(b, item), ps[t := Submitting(item.key)])
  {
    PendingStays(ps, t, Submitting(item.key));
    var after := ps[t := Submitting(item.key)];
    assert t in after && after[t] == Submitting(item.key);
  }

  lemma AcceptFifo(put: History, handed: History, holder: map<Key, Id>, ws: Workers, b: BufferState, item: Item)
    requires Valid(b) && HasRoom(b, item.key) && item.key != ""
    requires Fifo(put, handed, holder, ws, b)
    ensures Fifo(Extend(put, item.key, [item]), handed, holder, ws, Enqueue(b, item))
  {
    EnqueueKeeps(b, item);
    hide InFirstHands, Enqueue, Valid, HasRoom, QueueOf, Of, Extend;
    forall k
      ensures Of(Extend(put, item.key, [item]), k) ==
                Of(handed, k) + InFirstHands(holder, ws, k) + QueueOf(Enqueue(b, item), k)
    {
      ExtendsOne(put, item.key, [item], k);
      Behind(Of(handed, k) + InFirstHands(holder, ws, k), QueueOf(b, k), if k == item.key then [item] else []);
    }
  }

  lemma ExtendsOne<T>(h: Record<T>, key: Key, more: seq<T>, k: Key)
    ensures Of(Extend(h, key, more), k) == Of(h, k) + if k == key then more else []
  {
  }

  lemma Behind<T>(a: seq<T>, b: seq<T>, c: seq<T>)
    ensures (a + b) + c == a + (b + c)
  {
  }

  lemma AcceptBuffer(b: BufferState, ps: Putters, ws: Workers, t: Id, item: Item)
    requires Valid(b) && HasRoom(b, item.key) && t in ps && ps[t] == Trying(item)
    requires KeysAgree(b, ps) && BlockedMeansFull(b, ps) && StagesOk(b, ws)
    ensures Valid(Enqueue(b, item)) && KeysAgree(Enqueue(b, item), ps[t := Submitting(item.key)])
    ensures BlockedMeansFull(Enqueue(b, item), ps[t := Submitting(item.key)]) && StagesOk(Enqueue(b, item), ws)
  {
    assert PutterKeyed(ps[t]);
    EnqueueKeeps(b, item);
    var after := Enqueue(b, item);
    forall u | u in ps && ps[u].Waiting? && ps[u].channel == b.space
      ensures !HasRoom(after, ps[u].item.key)
    {
      if HasRoom(after, ps[u].item.key) {
        RoomOnlyFromTakes(b, item, ps[u].item.key);
      }
    }
    forall w | Holds(ws, w)
      ensures StageOk(after, ws[w].key, ws[w].stage)
    {
      assert StageOk(b, ws[w].key, ws[w].stage);
    }
  }

  lemma AcceptStep(n: Node, t: Id)
    requires Inv(n) && t in n.putters && n.putters[t].Trying?
    requires !n.buf.closed && HasRoom(n.buf, n.putters[t].item.key)
    ensures var item := n.putters[t].item;
            Inv(n.(buf := Enqueue(n.buf, item), putters := n.putters[t := Submitting(item.key)],
                   put := Extend(n.put, item.key, [item])))
  {
    var item := n.putters[t].item;
    assert PutterKeyed(n.putters[t]);
    AcceptBuffer(n.buf, n.putters, n.workers, t, item);
    AcceptCovered(n.con, n.buf, n.putters, t, item);
    AcceptFifo(n.put, n.handed, n.holder, n.workers, n.buf, item);
  }

  /** What a take leaves alone: other keys' queues, and how much room waiters are told about. */
  ghost predicate OnlyTakes(b: BufferState, after: BufferState, key: Key) {
    && Valid(after)
    && (forall k | k != key :: QueueOf(after, k) == QueueOf(b, k))
    && after.queues.Keys <= b.queues.Keys
    && (AllKeyed(QueueOf(b, key), key) ==> AllKeyed(QueueOf(after, key), key))
    && (after == b || after.space > b.space)
  }

  lemma TakeIsOnlyTaking(b: BufferState, key: Key, max: int)
    requires Valid(b)
    ensures TakeCount(b, key, max) <= b.total
    ensures Take(b, key, max) == AfterTake(b, key, max) && OnlyTakes(b, Take(b, key, max), key)
    ensures QueueOf(b, key) == Taken(b, key, max) + QueueOf(Take(b, key, max), key)
    ensures QueueOf(b, key) != [] ==> Taken(b, key, max) != []
    ensures AllKeyed(QueueOf(b, key), key) ==> AllKeyed(Taken(b, key, max), key)
  {
    TakeKeeps(b, key, max);
  }

  lemma StageBuffer(b: BufferState, after: BufferState, key: Key, c: ConsumerState, ps: Putters)
    requires OnlyTakes(b, after, key)
    requires KeysAgree(b, ps) && BlockedMeansFull(b, ps) && Covered(c, b, ps)
    ensures KeysAgree(after, ps) && BlockedMeansFull(after, ps) && Covered(c, after, ps)
  {
    forall k | k in after.queues
      ensures k != "" && AllKeyed(after.queues[k], k)
    {
      assert k in b.queues && AllKeyed(b.queues[k], k);
      assert QueueOf(after, k) == after.queues[k] && QueueOf(b, k) == b.queues[k];
    }
  }

  lemma StageWorkers(inflight: set<Key>, holder: map<Key, Id>, ws: Workers, w: Id, stage: Stage,
                     b: BufferState, after: BufferState, cancelled: bool, ready: seq<Key>)
    requires Holds(ws, w) && OnlyTakes(b, after, ws[w].key) && StageOk(after, ws[w].key, stage)
    requires OneHolder(inflight, holder, ws) && OneScanner(ws) && NoLostWakeup(cancelled, ready, ws)
    requires StagesOk(b, ws)
    ensures var ws' := ws[w := Holding(ws[w].key, stage)];
            && OneHolder(inflight, holder, ws') && OneScanner(ws')
            && NoLostWakeup(cancelled, ready, ws') && StagesOk(after, ws')
  {
    var ws' := ws[w := Holding(ws[w].key, stage)];
    assert Awake(ws') == Awake(ws);
    assert SomeParked(ws') ==> SomeParked(ws);
    forall v | Holds(ws', v)
      ensures StageOk(after, ws'[v].key, ws'[v].stage)
    {
      if v != w {
        assert Holds(ws, v) && Holds(ws, w) && ws[v].key != ws[w].key;
        assert StageOk(b, ws[v].key, ws[v].stage);
        assert QueueOf(after, ws[v].key) == QueueOf(b, ws[v].key);
      }
    }
  }

  lemma StageFifo(put: History, handed: History, after: History, holder: map<Key, Id>, ws: Workers, w: Id,
                  stage: Stage, b: BufferState, b': BufferState)
    requires Holds(ws, w) && ws[w].key in holder && holder[ws[w].key] == w
    requires forall k | k in holder && k != ws[w].key :: holder[k] != w
    requires Fifo(put, handed, holder, ws, b)
    requires var key := ws[w].key;
             && (forall k | k != key :: QueueOf(b', k) == QueueOf(b, k) && Of(after, k) == Of(handed, k))
             && Of(after, key) + FirstHands(stage) + QueueOf(b', key)
                == Of(handed, key) + FirstHands(ws[w].stage) + QueueOf(b, key)
    ensures Fifo(put, after, holder, ws[w := Holding(ws[w].key, stage)], b')
  {
    var ws' := ws[w := Holding(ws[w].key, stage)];
    forall k
      ensures Of(put, k) == Of(after, k) + InFirstHands(holder, ws', k) + QueueOf(b', k)
    {
      assert Of(put, k) == Of(handed, k) + InFirstHands(holder, ws, k) + QueueOf(b, k);
      if k != ws[w].key {
        assert QueueOf(b', k) == QueueOf(b, k) && Of(after, k) == Of(handed, k);
      }
    }
  }

  /** A worker moving on with its key: nothing it had is lost or reordered. */
  ghost predicate Advances(b: BufferState, b': BufferState, handed: History, handed': History,
                           key: Key, stage: Stage, stage': Stage) {
    && OnlyTakes(b, b', key)
    && StageOk(b', key, stage')
    && (forall k | k != key :: Of(handed', k) == Of(handed, k))
    && Of(handed', key) + FirstHands(stage') + QueueOf(b', key)
       == Of(handed, key) + FirstHands(stage) + QueueOf(b, key)
  }

  lemma StageStep(n: Node, w: Id, stage: Stage, b: BufferState, handed: History, dead: History)
    requires Inv(n) && At(n, w)
    requires Advances(n.buf, b, n.handed, handed, n.workers[w].key, StageOf(n, w), stage)
    ensures Inv(Proceed(n, w, stage).(buf := b, handed := handed, dead := dead))
  {
    var key := n.workers[w].key;
    assert Holds(n.workers, w);
    StageBuffer(n.buf, b, key, n.con, n.putters);
    StageWorkers(n.con.inflight, n.holder, n.workers, w, stage, n.buf, b, n.cancelled, n.con.ready);
    StageFifo(n.put, n.handed, handed, n.holder, n.workers, w, stage, n.buf, b);
  }

  /** Workers that hold nothing change; whoever holds a key still does. */
  ghost predicate SameHolders(ws: Workers, after: Workers) {
    forall w :: (Holds(ws, w) || Holds(after, w)) ==> w in ws && w in after && ws[w] == after[w]
  }

  lemma SameHoldersKeep(n: Node, ws: Workers)
    requires Inv(n) && SameHolders(n.workers, ws)
    ensures OneHolder(n.con.inflight, n.holder, ws) && StagesOk(n.buf, ws)
    ensures Fifo(n.put, n.handed, n.holder, ws, n.buf)
  {
    forall k
      ensures Of(n.put, k) == Of(n.handed, k) + InFirstHands(n.holder, ws, k) + QueueOf(n.buf, k)
    {
      assert Of(n.put, k) == Of(n.handed, k) + InFirstHands(n.holder, n.workers, k) + QueueOf(n.buf, k);
      if k in n.holder {
        assert Holds(n.workers, n.holder[k]);
      }
    }
  }

  /** Waking sleepers for keys that became ready keeps one awake worker per waiting key. */
  lemma SignalKeepsAwake(cancelled: bool, ws: Workers, ready: seq<Key>, readyAfter: seq<Key>, signal: bool, wakes: Option<Id>)
    requires NoLostWakeup(cancelled, ready, ws)
    requires |readyAfter| <= |ready| + (if signal then 1 else 0)
    requires if signal && SomeParked(ws) then wakes.Some? && wakes.value in ws && ws[wakes.value].Parked? else wakes.None?
    ensures NoLostWakeup(cancelled, readyAfter, Woken(ws, wakes))
  {
    if wakes.Some? {
      assert Awake(Woken(ws, wakes)) == Awake(ws) + {wakes.value};
    }
  }

  lemma AcquireStep(n: Node, w: Id)
    requires Inv(n) && CanAcquire(n, w)
    ensures Inv(Acquired(n, w))
  {
    var ws := Acquired(n, w).workers;
    SameHoldersKeep(n, ws);
    assert SomeParked(ws) ==> SomeParked(n.workers);
    if !n.con.closed && !n.cancelled {
      assert Awake(ws) == if n.workers[w].signalled then Awake(n.workers) else Awake(n.workers) + {w};
    }
  }

  lemma SleepStep(n: Node, w: Id)
    requires Inv(n) && IsScanning(n, w) && n.con.ready == []
    ensures Inv(Move(n, w, Parked))
  {
    SameHoldersKeep(n, Move(n, w, Parked).workers);
  }

  lemma SubmitStep(n: Node, t: Id, wakes: Option<Id>)
    requires Inv(n) && CanSubmit(n, t, wakes)
    ensures Inv(Announced(n, t, wakes))
  {
    var key := n.putters[t].key;
    var n' := Announced(n, t, wakes);
    assert PutterKeyed(n.putters[t]);
    SubmittedKeeps(n.con, key);
    SameHoldersKeep(n, n'.workers);
    SignalKeepsAwake(n.cancelled, n.workers, n.con.ready, n'.con.ready, SubmitSignals(n.con, key), wakes);
    forall k | k in n.buf.queues && !n.con.closed
      ensures k in n'.con.readySet || k in n'.con.inflight || SubmitPending(n'.putters, k)
    {
      if k != key && SubmitPending(n.putters, k) {
        var u :| u in n.putters && n.putters[u] == Submitting(k);
        assert u in n'.putters && n'.putters[u] == Submitting(k);
      }
    }
  }

  lemma ServeWorkers(inflight: set<Key>, holder: map<Key, Id>, ws: Workers, w: Id, key: Key,
                     b: BufferState, cancelled: bool, ready: seq<Key>)
    requires w in ws && ws[w].Scanning? && key !in inflight && QueueOf(b, key) != [] && ready != []
    requires OneHolder(inflight, holder, ws) && OneScanner(ws) && StagesOk(b, ws) && NoLostWakeup(cancelled, ready, ws)
    ensures var ws' := ws[w := Holding(key, Draining(0))];
            && OneHolder(inflight + {key}, holder[key := w], ws') && OneScanner(ws') && StagesOk(b, ws')
            && NoLostWakeup(cancelled, ready[1..], ws')
  {
    var ws', holder' := ws[w := Holding(key, Draining(0))], holder[key := w];
    assert Awake(ws') == Awake(ws) - {w};
    assert SomeParked(ws') ==> SomeParked(ws);
    forall v | Holds(ws', v)
      ensures ws'[v].key in holder' && holder'[ws'[v].key] == v
      ensures StageOk(b, ws'[v].key, ws'[v].stage)
    {
      if v != w {
        assert Holds(ws, v) && StageOk(b, ws[v].key, ws[v].stage);
      }
    }
  }

  lemma ServeFifo(put: History, handed: History, holder: map<Key, Id>, ws: Workers, w: Id, key: Key, b: BufferState)
    requires Fifo(put, handed, holder, ws, b) && !Holds(ws, w) && key !in holder
    ensures Fifo(put, handed, holder[key := w], ws[w := Holding(key, Draining(0))], b)
  {
    var ws', holder' := ws[w := Holding(key, Draining(0))], holder[key := w];
    forall k
      ensures Of(put, k) == Of(handed, k) + InFirstHands(holder', ws', k) + QueueOf(b, k)
    {
      assert Of(put, k) == Of(handed, k) + InFirstHands(holder, ws, k) + QueueOf(b, k);
      assert InFirstHands(holder', ws', k) == InFirstHands(holder, ws, k);
    }
  }

  lemma PopCovered(c: ConsumerState, b: BufferState, ps: Putters, works: bool)
    requires WellFormed(c) && c.ready != [] && works == (QueueOf(b, c.ready[0]) != []) && Valid(b)
    requires Covered(c, b, ps)
    ensures Covered(Popped(c, works), b, ps)
  {
    PoppedKeeps(c, works);
    assert c.ready[0] in Elements(c.ready);
  }

  lemma DropStep(n: Node, w: Id)
    requires Inv(n) && IsScanning(n, w) && n.con.ready != [] && !HasWork(n, n.con.ready[0])
    ensures Inv(Scanned(n, w))
  {
    PoppedKeeps(n.con, false);
    PopCovered(n.con, n.buf, n.putters, false);
  }

  lemma ServeStep(n: Node, w: Id)
    requires Inv(n) && IsScanning(n, w) && n.con.ready != [] && HasWork(n, n.con.ready[0])
    ensures Inv(Scanned(n, w))
  {
    var key := n.con.ready[0];
    PoppedKeeps(n.con, true);
    PopCovered(n.con, n.buf, n.putters, true);
    assert key in n.con.readySet by {
      assert key in Elements(n.con.ready);
    }
    assert key !in n.con.inflight && !n.con.closed;
    ServeWorkers(n.con.inflight, n.holder, n.workers, w, key, n.buf, n.cancelled, n.con.ready);
    ServeFifo(n.put, n.handed, n.holder, n.workers, w, key, n.buf);
  }

  lemma FreeWorkers(inflight: set<Key>, holder: map<Key, Id>, ws: Workers, w: Id, b: BufferState, signal: bool,
                    wakes: Option<Id>, cancelled: bool, ready: seq<Key>, readyAfter: seq<Key>)
    requires Holds(ws, w) && OneHolder(inflight, holder, ws) && OneScanner(ws) && StagesOk(b, ws)
    requires NoLostWakeup(cancelled, ready, ws) && |readyAfter| <= |ready| + (if signal then 1 else 0)
    requires if signal && SomeParked(ws) then wakes.Some? && wakes.value in ws && ws[wakes.value].Parked? else wakes.None?
    ensures var key, ws' := ws[w].key, Woken(ws[w := Runnable(false)], wakes);
            && OneHolder(inflight - {key}, holder - {key}, ws') && OneScanner(ws') && StagesOk(b, ws')
            && NoLostWakeup(cancelled, readyAfter, ws')
  {
    var key, idle, ws' := ws[w].key, ws[w := Runnable(false)], Woken(ws[w := Runnable(false)], wakes);
    assert Awake(idle) == Awake(ws);
    if SomeParked(ws) {
      var v :| v in ws && ws[v].Parked?;
      assert v in idle && idle[v].Parked?;
    }
    assert SomeParked(idle) ==> SomeParked(ws);
    SignalKeepsAwake(cancelled, idle, ready, readyAfter, signal, wakes);
    forall v | Holds(ws', v)
      ensures ws'[v].key in holder - {key} && (holder - {key})[ws'[v].key] == v
      ensures StageOk(b, ws'[v].key, ws'[v].stage)
    {
      assert Holds(ws, v) && v != w;
      assert StageOk(b, ws[v].key, ws[v].stage);
    }
  }

  lemma FreeFifo(put: History, handed: History, holder: map<Key, Id>, ws: Workers, w: Id, wakes: Option<Id>, b: BufferState)
    requires Holds(ws, w) && ws[w].stage.Releasing? && ws[w].key in holder && holder[ws[w].key] == w
    requires forall k | k in holder :: Holds(ws, holder[k]) && ws[holder[k]].key == k
    requires wakes.Some? ==> wakes.value in ws && ws[wakes.value].Parked?
    requires Fifo(put, handed, holder, ws, b)
    ensures Fifo(put, handed, holder - {ws[w].key}, Woken(ws[w := Runnable(false)], wakes), b)
  {
    var ws', holder' := Woken(ws[w := Runnable(false)], wakes), holder - {ws[w].key};
    forall k
      ensures Of(put, k) == Of(handed, k) + InFirstHands(holder', ws', k) + QueueOf(b, k)
    {
      assert Of(put, k) == Of(handed, k) + InFirstHands(holder, ws, k) + QueueOf(b, k);
      assert InFirstHands(holder', ws', k) == InFirstHands(holder, ws, k);
    }
  }

  lemma ReleaseStep(n: Node, w: Id, wakes: Option<Id>)
    requires Inv(n) && CanRelease(n, w, wakes)
    ensures Inv(LetGo(n, w, wakes))
  {
    var key := n.workers[w].key;
    var works := HasWork(n, key);
    assert Holds(n.workers, w);
    ReleaseWaits(n, w, wakes);
    hide OneHolder, OneScanner, StagesOk, NoLostWakeup, Fifo, Covered, KeysAgree, BlockedMeansFull, NobodyWaits, NobodyLeft;
    ReleasedKeeps(n.con, key, works);
    HeldInFlight(n.con.inflight, n.holder, n.workers, w);
    FreeWorkers(n.con.inflight, n.holder, n.workers, w, n.buf, ReleaseSignals(n.con, works), wakes, n.cancelled,
                n.con.ready, Released(n.con, key, works).ready);
    FreeFifo(n.put, n.handed, n.holder, n.workers, w, wakes, n.buf);
    ReleaseCovered(n.con, n.buf, n.putters, key);
    assert Inv(LetGo(n, w, wakes));
  }

  lemma HeldInFlight(inflight: set<Key>, holder: map<Key, Id>, ws: Workers, w: Id)
    requires OneHolder(inflight, holder, ws) && Holds(ws, w)
    ensures ws[w].key in inflight && ws[w].key in holder && holder[ws[w].key] == w
    ensures forall k | k in holder :: Holds(ws, holder[k]) && ws[holder[k]].key == k
  {
  }

  lemma ReleaseWaits(n: Node, w: Id, wakes: Option<Id>)
    requires Inv(n) && CanRelease(n, w, wakes)
    ensures var ws := LetGo(n, w, wakes).workers;
            (n.con.closed ==> NobodyWaits(ws)) && (NobodyLeft(n.workers) ==> NobodyLeft(ws))
  {
    hide Valid, WellFormed, OneHolder, OneScanner, StagesOk, NoLostWakeup, Fifo, Covered, KeysAgree, BlockedMeansFull;
  }

  lemma ReleaseCovered(c: ConsumerState, b: BufferState, ps: Putters, key: Key)
    requires WellFormed(c) && Covered(c, b, ps) && key in c.inflight
    requires Valid(b)
    ensures Covered(Released(c, key, QueueOf(b, key) != []), b, ps)
  {
  }

  lemma CloseStep(n: Node)
    requires Inv(n) && LockFree(n)
    ensures Inv(ConsumerClosed(n))
  {
    SameHoldersKeep(n, ConsumerClosed(n).workers);
  }

  /** Moving items from the front of a queue into the holder's hands. */
  lemma TakingAdvances(b: BufferState, handed: History, key: Key, max: int, stage: Stage, stage': Stage)
    requires Valid(b) && AllKeyed(QueueOf(b, key), key)
    requires FirstHands(stage') == FirstHands(stage) + Taken(b, key, max)
    requires !stage'.Draining? && StageOk(b, key, stage')
    ensures Advances(b, Take(b, key, max), handed, handed, key, stage, stage')
  {
    TakeIsOnlyTaking(b, key, max);
    var rest := QueueOf(Take(b, key, max), key);
    assert Of(handed, key) + (FirstHands(stage) + Taken(b, key, max)) + rest
        == Of(handed, key) + FirstHands(stage) + (Taken(b, key, max) + rest);
  }

  lemma StayAdvances(b: BufferState, handed: History, key: Key, stage: Stage, stage': Stage)
    requires Valid(b) && FirstHands(stage') == FirstHands(stage) && StageOk(b, key, stage')
    ensures Advances(b, b, handed, handed, key, stage, stage')
  {
  }

  ghost predicate HandsOk(n: Node, w: Id) {
    && At(n, w) && Valid(n.buf)
    && StageOk(n.buf, n.workers[w].key, StageOf(n, w))
    && AllKeyed(QueueOf(n.buf, n.workers[w].key), n.workers[w].key)
  }

  lemma InHands(n: Node, w: Id)
    requires Inv(n) && At(n, w)
    ensures HandsOk(n, w)
  {
    assert Holds(n.workers, w);
    QueueKeyed(n, n.workers[w].key);
  }

  /** A step of one worker changes its stage, its queue, and the records. */
  ghost predicate HandsAdvance(n: Node, w: Id, n': Node) {
    && At(n, w) && At(n', w)
    && n' == Proceed(n, w, StageOf(n', w)).(buf := n'.buf, handed := n'.handed, dead := n'.dead)
    && Advances(n.buf, n'.buf, n.handed, n'.handed, n.workers[w].key, StageOf(n, w), StageOf(n', w))
  }

  lemma HandsStep(n: Node, w: Id, n': Node)
    requires Inv(n) && HandsAdvance(n, w, n')
    ensures Inv(n')
  {
    StageStep(n, w, StageOf(n', w), n'.buf, n'.handed, n'.dead);
  }

  lemma TakeFirstAdvances(n: Node, w: Id)
    requires HandsOk(n, w) && CanTakeFirst(n, w)
    ensures HandsAdvance(n, w, TookFirst(n, w))
  {
    var key, stage := n.workers[w].key, StageOf(n, w);
    TakeIsOnlyTaking(n.buf, key, 1);
    if stage.burst >= MAX_BURST_PER_TURN || n.cancelled || !HasWork(n, key) {
      StayAdvances(n.buf, n.handed, key, stage, Releasing);
    } else {
      TakingAdvances(n.buf, n.handed, key, 1, stage, Lingering(stage.burst, Taken(n.buf, key, 1)));
    }
  }

  lemma BatchOk(b: BufferState, key: Key, stage: Stage, more: seq<Item>, retries: nat)
    requires stage.Lingering? && StageOk(b, key, stage) && AllKeyed(more, key)
    ensures StageOk(b, key, Calling(stage.burst, Job([], [], 0, retries), stage.items + more))
  {
  }

  lemma TakeRestAdvances(n: Node, w: Id, batch: nat, retries: nat)
    requires HandsOk(n, w) && CanTakeRest(n, w, batch)
    ensures HandsAdvance(n, w, TookRest(n, w, batch, retries))
  {
    var key, stage := n.workers[w].key, StageOf(n, w);
    var remaining := batch - |stage.items|;
    var more := if remaining > 0 then Taken(n.buf, key, remaining) else [];
    TakeIsOnlyTaking(n.buf, key, remaining);
    BatchOk(n.buf, key, stage, more, retries);
    var stage' := Calling(stage.burst, Job([], [], 0, retries), stage.items + more);
    if remaining > 0 {
      TakingAdvances(n.buf, n.handed, key, remaining, stage, stage');
    } else {
      assert stage.items + more == stage.items;
      StayAdvances(n.buf, n.handed, key, stage, stage');
    }
  }

  lemma HandleAdvances(n: Node, w: Id, failed: seq<Item>, outbox: seq<Item>)
    requires HandsOk(n, w) && CanHandle(n, w, failed, outbox)
    ensures HandsAdvance(n, w, HandledBatch(n, w, failed, outbox))
  {
    var key := n.workers[w].key;
    assert AllKeyed(failed, key) by {
      assert forall i | 0 <= i < |failed| :: failed[i] in failed;
    }
    assert AllKeyed(outbox, key) by {
      assert forall i | 0 <= i < |outbox| :: outbox[i] in outbox;
    }
  }

  lemma AfterSendingOk(b: BufferState, key: Key, stage: Stage, cancelled: bool)
    requires stage.Sending? && StageOk(b, key, stage)
    ensures StageOk(b, key, AfterSending(stage, cancelled)) && FirstHands(AfterSending(stage, cancelled)) == []
  {
  }

  lemma SendNextOk(b: BufferState, key: Key, stage: Stage)
    requires stage.Sending? && stage.outbox != [] && StageOk(b, key, stage)
    ensures StageOk(b, key, stage.(outbox := stage.outbox[1..]))
  {
  }

  lemma SendNextAdvances(n: Node, w: Id)
    requires HandsOk(n, w) && CanSendNext(n, w)
    ensures HandsAdvance(n, w, SentNext(n, w))
  {
    var key, stage := n.workers[w].key, StageOf(n, w);
    SendNextOk(n.buf, key, stage);
    StayAdvances(n.buf, n.handed, key, stage, stage.(outbox := stage.outbox[1..]));
  }

  lemma AfterCallAdvances(n: Node, w: Id)
    requires HandsOk(n, w) && CanAfterCall(n, w)
    ensures HandsAdvance(n, w, CallOver(n, w))
  {
    var key, stage := n.workers[w].key, StageOf(n, w);
    AfterSendingOk(n.buf, key, stage, n.cancelled);
    StayAdvances(n.buf, n.handed, key, stage, AfterSending(stage, n.cancelled));
  }

  lemma WorkerAdvances(n: Node, a: Action)
    requires a.TakeFirst? || a.TakeRest? || a.Handle? || a.SendNext? || a.AfterCall?
    requires HandsOk(n, a.w) && Enabled(n, a)
    ensures HandsAdvance(n, a.w, Apply(n, a))
  {
    match a {
      case TakeFirst(w) => TakeFirstAdvances(n, w);
      case TakeRest(w, batch, retries) => TakeRestAdvances(n, w, batch, retries);
      case Handle(w, failed, outbox) => HandleAdvances(n, w, failed, outbox);
      case SendNext(w) => SendNextAdvances(n, w);
      case AfterCall(w) => AfterCallAdvances(n, w);
    }
  }

  lemma WorkerStep(n: Node, a: Action)
    requires a.TakeFirst? || a.TakeRest? || a.Handle? || a.SendNext? || a.AfterCall?
    requires Inv(n) && Enabled(n, a)
    ensures Inv(Apply(n, a))
  {
    InHands(n, a.w);
    WorkerAdvances(n, a);
    HandsStep(n, a.w, Apply(n, a));
  }

  lemma QueueKeyed(n: Node, key: Key)
    requires KeysAgree(n.buf, n.putters)
    ensures AllKeyed(QueueOf(n.buf, key), key)
  {
  }

  lemma TryPutStep(n: Node, t: Id)
    requires Inv(n) && CanTryPut(n, t)
    ensures Inv(TriedPut(n, t))
  {
    assert PutterKeyed(n.putters[t]);
    if !n.buf.closed && HasRoom(n.buf, n.putters[t].item.key) {
      AcceptStep(n, t);
    } else {
      PutterStep(n, t, TriedPut(n, t).putters);
    }
  }

  lemma WakeStep(n: Node, t: Id)
    requires Inv(n) && CanWake(n, t)
    ensures Inv(WokenUp(n, t))
  {
    assert PutterKeyed(n.putters[t]);
    PutterStep(n, t, WokenUp(n, t).putters);
  }

  lemma GiveUpStep(n: Node, t: Id)
    requires Inv(n) && IsWaiting(n, t)
    ensures Inv(GivenUp(n, t))
  {
    PutterStep(n, t, GivenUp(n, t).putters);
  }

  lemma BeginPutStep(n: Node, t: Id, item: Item)
    requires Inv(n) && CanBeginPut(n, t, item)
    ensures Inv(BeginPutting(n, t, item))
  {
    PutterStep(n, t, BeginPutting(n, t, item).putters);
  }

  lemma ScanStep(n: Node, w: Id)
    requires Inv(n) && IsScanning(n, w) && n.con.ready != []
    ensures Inv(Scanned(n, w))
  {
    if HasWork(n, n.con.ready[0]) {
      ServeStep(n, w);
    } else {
      DropStep(n, w);
    }
  }

  lemma CancelStep(n: Node)
    requires Inv(n)
    ensures Inv(n.(cancelled := true))
  {
  }

  /** Every step keeps every invariant. */
  lemma Step(n: Node, a: Action)
    requires Inv(n) && Enabled(n, a)
    ensures Inv(Apply(n, a))
  {
    hide Inv;
    match a {
      case BeginPut(t, item) => BeginPutStep(n, t, item);
      case TryPut(t) => TryPutStep(n, t);
      case Wake(t) => WakeStep(n, t);
      case GiveUp(t) => GiveUpStep(n, t);
      case Submit(t, wakes) => SubmitStep(n, t, wakes);
      case Acquire(w) => AcquireStep(n, w);
      case Scan(w) => ScanStep(n, w);
      case Sleep(w) => SleepStep(n, w);
      case TakeFirst(_) => WorkerStep(n, a);
      case TakeRest(_, _, _) => WorkerStep(n, a);
      case Handle(_, _, _) => WorkerStep(n, a);
      case SendNext(_) => WorkerStep(n, a);
      case AfterCall(_) => WorkerStep(n, a);
      case Release(w, wakes) => ReleaseStep(n, w, wakes);
      case CloseBuffer => CloseBufferStep(n);
      case CloseConsumer => CloseStep(n);
      case Cancel => CancelStep(n);
    }
  }

  lemma CloseBufferStep(n: Node)
    requires Inv(n)
    ensures Inv(BufferClosed(n))
  {
    forall k
      ensures QueueOf(BufferClosed(n).buf, k) == QueueOf(n.buf, k)
    {
    }
  }
}
