/** Every internal step of a node uses something up: positions, then retries, then bookkeeping. */
module NodeMeasure {
  import opened Items
  import opened Buffers
  import opened Consumers
  import opened NodeProtocol
  import opened Options
  import Sums

  function HasItem(p: PutPhase): nat { if p.Submitting? then 0 else 1 }

  function InHand(phase: Phase): nat {
    if !phase.Holding? then 0
    else match phase.stage
      case Lingering(_, items) => |items|
      case Calling(_, job, items) => |items| + |job.todo| + |job.again|
      case Sending(_, job, outbox) => |outbox| + |job.todo| + |job.again|
      case _ => 0
  }

  /** How far the items in hand still are from leaving the node. */
  function HandWeight(phase: Phase): nat {
    if !phase.Holding? then 0
    else match phase.stage
      case Lingering(_, items) => 3 * |items|
      case Calling(_, job, items) => (if job.round == 0 then 2 * |items| else |items|) + |job.todo| + |job.again|
      case Sending(_, job, outbox) => |outbox| + |job.todo| + |job.again|
      case _ => 0
  }

  function RoundsLeft(job: Job): nat { if job.retries >= job.round then job.retries - job.round else 0 }

  function JobWeight(job: Job, calling: nat): nat {
    (2 * RoundsLeft(job) + 2) * (calling + |job.todo|) + (2 * RoundsLeft(job) + 1) * |job.again|
  }

  function RetryWeight(phase: Phase): nat {
    if !phase.Holding? then 0
    else match phase.stage
      case Calling(_, job, items) => JobWeight(job, if job.round == 0 then 0 else |items|)
      case Sending(_, job, _) => JobWeight(job, 0)
      case _ => 0
  }

  function SmallWeight(phase: Phase): nat {
    match phase
    case Runnable(_) => 2
    case Scanning => 1
    case Parked => 0
    case Exited => 0
    case Holding(_, stage) =>
      match stage
      case Draining(burst) => if burst == 0 then 1 else 8
      case Lingering(_, _) => 0
      case Calling(_, _, _) => 9
      case Sending(_, _, _) => 10
      case Releasing => 7
  }

  function PutWeight(p: PutPhase): nat {
    match p
    case Trying(_) => 1
    case Waiting(_, _) => 0
    case Submitting(_) => 5
  }

  /** Goroutines whose channel has been closed under them: they have a wakeup coming. */
  ghost function Stale(b: BufferState, ps: Putters): set<Id> {
    set t | t in ps && ps[t].Waiting? && ps[t].channel != b.space
  }

  /** Messages in the node. */
  ghost function Load(n: Node): nat {
    Sums.SumBy(n.putters, HasItem) + n.buf.total + Sums.SumBy(n.workers, InHand)
  }

  ghost function Distance(n: Node): nat {
    5 * Sums.SumBy(n.putters, HasItem) + 4 * n.buf.total + Sums.SumBy(n.workers, HandWeight)
  }

  ghost function Retrying(n: Node): nat { Sums.SumBy(n.workers, RetryWeight) }

  ghost function Chores(n: Node): nat {
    Sums.SumBy(n.putters, PutWeight) + 2 * |Stale(n.buf, n.putters)|
    + Sums.SumBy(n.workers, SmallWeight) + |n.con.ready|
  }

  /** Before shutdown, after Run. */
  ghost predicate Running(n: Node) {
    !n.buf.closed && !n.con.closed && !n.cancelled && n.workers != map[]
  }

  /** No message is added, none moves back, and something is used up. */
  ghost predicate UsesUp(n: Node, n': Node) {
    && Load(n') <= Load(n) && Distance(n') <= Distance(n)
    && (Distance(n') < Distance(n)
        || Retrying(n') < Retrying(n)
        || (Retrying(n') == Retrying(n) && Chores(n') < Chores(n)))
  }

  /** A worker moves on; messages go from the queue to its hands. */
  lemma MoveUses(n: Node, w: Id, phase: Phase, n': Node, taken: nat)
    requires w in n.workers && n'.workers == n.workers[w := phase] && n'.putters == n.putters
    requires n'.buf.total + taken == n.buf.total && (taken == 0 ==> n'.buf == n.buf)
    requires |n'.con.ready| <= |n.con.ready|
    requires InHand(phase) <= InHand(n.workers[w]) + taken
    requires HandWeight(phase) <= HandWeight(n.workers[w]) + 4 * taken
    requires || HandWeight(phase) < HandWeight(n.workers[w]) + 4 * taken
             || RetryWeight(phase) < RetryWeight(n.workers[w])
             || (RetryWeight(phase) == RetryWeight(n.workers[w]) && taken == 0
                 && SmallWeight(phase) + |n'.con.ready| < SmallWeight(n.workers[w]) + |n.con.ready|)
    ensures UsesUp(n, n')
  {
    Sums.SumReplace(n.workers, InHand, w, phase);
    Sums.SumReplace(n.workers, HandWeight, w, phase);
    Sums.SumReplace(n.workers, RetryWeight, w, phase);
    Sums.SumReplace(n.workers, SmallWeight, w, phase);
  }

  lemma TakeTotal(b: BufferState, key: Key, max: int)
    requires Valid(b)
    ensures Take(b, key, max).total + |Taken(b, key, max)| == b.total
    ensures |Taken(b, key, max)| == 0 ==> Take(b, key, max) == b
    ensures max >= 1 && QueueOf(b, key) != [] ==> |Taken(b, key, max)| >= 1
    ensures max == 1 && QueueOf(b, key) != [] ==> |Taken(b, key, max)| == 1
  {
    TakeKeeps(b, key, max);
  }

  lemma TookFirstUses(n: Node, w: Id)
    requires Inv(n) && Running(n) && CanTakeFirst(n, w)
    ensures UsesUp(n, TookFirst(n, w))
  {
    InHands(n, w);
    TakeTotal(n.buf, n.workers[w].key, 1);
    hide Inv, Take, Taken, Valid, UsesUp;
    var n' := TookFirst(n, w);
    MoveUses(n, w, n'.workers[w], n', n.buf.total - n'.buf.total);
  }

  lemma TookRestUses(n: Node, w: Id, batch: nat, retries: nat)
    requires Inv(n) && CanTakeRest(n, w, batch)
    ensures UsesUp(n, TookRest(n, w, batch, retries))
  {
    InHands(n, w);
    TakeTotal(n.buf, n.workers[w].key, batch - |StageOf(n, w).items|);
    hide Inv, Take, Taken, Valid, UsesUp, AllKeyed;
    var n' := TookRest(n, w, batch, retries);
    MoveUses(n, w, n'.workers[w], n', n.buf.total - n'.buf.total);
  }

  lemma NextRoundUses(job: Job)
    requires job.todo == [] && job.again != [] && job.round < job.retries
    ensures JobWeight(Job(job.again, [], job.round + 1, job.retries), 0) < JobWeight(job, 0)
  {
    var c := 2 * RoundsLeft(job);
    assert (c + 1) * |job.again| == c * |job.again| + |job.again|;
  }

  lemma NextRetryUses(job: Job)
    requires job.todo != []
    ensures JobWeight(job.(todo := job.todo[1..]), 1) == JobWeight(job, 0)
  {
  }

  lemma AfterSendingUses(stage: Stage)
    requires stage.Sending? && stage.outbox == [] && (stage.job.round == 0 ==> stage.job.todo == [])
    ensures var before, after := Holding("", stage), Holding("", AfterSending(stage, false));
            && InHand(after) <= InHand(before) && HandWeight(after) <= HandWeight(before)
            && (HandWeight(after) < HandWeight(before) || RetryWeight(after) < RetryWeight(before)
                || (RetryWeight(after) == RetryWeight(before) && SmallWeight(after) < SmallWeight(before)))
  {
    var job := stage.job;
    if job.todo != [] {
      NextRetryUses(job);
    } else if job.again != [] && !GivesUp(stage, false) {
      NextRoundUses(job);
    }
  }

  lemma CallOverUses(n: Node, w: Id)
    requires Inv(n) && Running(n) && CanAfterCall(n, w)
    ensures UsesUp(n, CallOver(n, w))
  {
    InHands(n, w);
    hide Inv;
    AfterSendingUses(StageOf(n, w));
    hide JobWeight, AfterSending;
    MoveUses(n, w, CallOver(n, w).workers[w], CallOver(n, w), 0);
  }

  lemma HandledUses(n: Node, w: Id, failed: seq<Item>, outbox: seq<Item>)
    requires Inv(n) && CanHandle(n, w, failed, outbox) && |failed| + |outbox| <= |StageOf(n, w).items|
    ensures UsesUp(n, HandledBatch(n, w, failed, outbox))
  {
    InHands(n, w);
    hide Inv;
    var n', stage := HandledBatch(n, w, failed, outbox), StageOf(n, w);
    if stage.job.round > 0 {
      RetriedUses(stage.job, |stage.items|, failed);
    }
    hide JobWeight;
    MoveUses(n, w, n'.workers[w], n', 0);
  }

  lemma RetriedUses(job: Job, calling: nat, failed: seq<Item>)
    requires |failed| <= calling && calling > 0
    ensures JobWeight(job.(again := job.again + failed), 0) < JobWeight(job, calling)
  {
    var c := 2 * RoundsLeft(job) + 1;
    Monotone(c, |failed|, calling);
    assert c * |job.again + failed| == c * |job.again| + c * |failed|;
    assert (c + 1) * (calling + |job.todo|) == c * calling + calling + (c + 1) * |job.todo|;
  }

  lemma AcquiredUses(n: Node, w: Id)
    requires Running(n) && CanAcquire(n, w)
    ensures UsesUp(n, Acquired(n, w))
  {
    MoveUses(n, w, Scanning, Acquired(n, w), 0);
  }

  lemma SleptUses(n: Node, w: Id)
    requires IsScanning(n, w)
    ensures UsesUp(n, Move(n, w, Parked))
  {
    MoveUses(n, w, Parked, Move(n, w, Parked), 0);
  }

  lemma ScannedUses(n: Node, w: Id)
    requires IsScanning(n, w) && n.con.ready != []
    ensures UsesUp(n, Scanned(n, w))
  {
    var n' := Scanned(n, w);
    assert |n'.con.ready| == |n.con.ready| - 1;
    if !PopWins(n.con, HasWork(n, n.con.ready[0])) {
      assert n'.workers == n.workers[w := Scanning];
    }
    MoveUses(n, w, n'.workers[w], n', 0);
  }

  lemma WakingCosts(ws: Workers, wakes: Option<Id>)
    requires wakes.Some? ==> wakes.value in ws && ws[wakes.value].Parked?
    ensures Sums.SumBy(Woken(ws, wakes), InHand) == Sums.SumBy(ws, InHand)
    ensures Sums.SumBy(Woken(ws, wakes), HandWeight) == Sums.SumBy(ws, HandWeight)
    ensures Sums.SumBy(Woken(ws, wakes), RetryWeight) == Sums.SumBy(ws, RetryWeight)
    ensures Sums.SumBy(Woken(ws, wakes), SmallWeight) <= Sums.SumBy(ws, SmallWeight) + 2
  {
    if wakes.Some? {
      Sums.SumReplace(ws, InHand, wakes.value, Runnable(true));
      Sums.SumReplace(ws, HandWeight, wakes.value, Runnable(true));
      Sums.SumReplace(ws, RetryWeight, wakes.value, Runnable(true));
      Sums.SumReplace(ws, SmallWeight, wakes.value, Runnable(true));
    }
  }

  lemma LetGoUses(n: Node, w: Id, wakes: Option<Id>)
    requires Inv(n) && CanRelease(n, w, wakes)
    ensures UsesUp(n, LetGo(n, w, wakes))
  {
    var key := n.workers[w].key;
    assert Holds(n.workers, w);
    ReleasedKeeps(n.con, key, HasWork(n, key));
    hide Inv, Released;
    Sums.SumReplace(n.workers, InHand, w, Runnable(false));
    Sums.SumReplace(n.workers, HandWeight, w, Runnable(false));
    Sums.SumReplace(n.workers, RetryWeight, w, Runnable(false));
    Sums.SumReplace(n.workers, SmallWeight, w, Runnable(false));
    WakingCosts(n.workers[w := Runnable(false)], wakes);
  }

  lemma PutterMoves(n: Node, t: Id, ps: Putters)
    requires t in n.putters && (ps == n.putters - {t} || (t in ps && ps == n.putters[t := ps[t]]))
    ensures Sums.SumBy(ps, HasItem) + HasItem(n.putters[t]) ==
              Sums.SumBy(n.putters, HasItem) + (if t in ps then HasItem(ps[t]) else 0)
    ensures Sums.SumBy(ps, PutWeight) + PutWeight(n.putters[t]) ==
              Sums.SumBy(n.putters, PutWeight) + (if t in ps then PutWeight(ps[t]) else 0)
  {
    if t in ps {
      Sums.SumReplace(n.putters, HasItem, t, ps[t]);
      Sums.SumReplace(n.putters, PutWeight, t, ps[t]);
    } else {
      Sums.SumRemove(n.putters, HasItem, t);
      Sums.SumRemove(n.putters, PutWeight, t);
    }
  }

  lemma TriedPutUses(n: Node, t: Id)
    requires Running(n) && CanTryPut(n, t)
    ensures UsesUp(n, TriedPut(n, t))
  {
    var n' := TriedPut(n, t);
    PutterMoves(n, t, n'.putters);
    if !HasRoom(n.buf, Normalize(n.putters[t].item.key)) {
      assert Stale(n'.buf, n'.putters) == Stale(n.buf, n.putters);
    }
  }

  lemma WokenUpUses(n: Node, t: Id)
    requires Running(n) && CanWake(n, t)
    ensures UsesUp(n, WokenUp(n, t))
  {
    PutterMoves(n, t, WokenUp(n, t).putters);
    assert Stale(n.buf, WokenUp(n, t).putters) == Stale(n.buf, n.putters) - {t};
    assert t in Stale(n.buf, n.putters);
  }

  lemma AnnouncedUses(n: Node, t: Id, wakes: Option<Id>)
    requires Inv(n) && CanSubmit(n, t, wakes)
    ensures UsesUp(n, Announced(n, t, wakes))
  {
    SubmittedKeeps(n.con, n.putters[t].key);
    hide Inv, Submitted;
    PutterMoves(n, t, n.putters - {t});
    WakingCosts(n.workers, wakes);
    assert Stale(n.buf, n.putters - {t}) == Stale(n.buf, n.putters);
  }

  predicate Progresses(a: Action) {
    a.TryPut? || a.Wake? || a.Submit? || a.Acquire? || a.Scan? || a.Sleep? || a.TakeFirst? || a.TakeRest?
    || a.AfterCall? || a.Release?
  }

  /** Every internal step of a running node uses something up. */
  lemma StepUses(n: Node, a: Action)
    requires Inv(n) && Running(n) && Enabled(n, a) && Progresses(a)
    ensures UsesUp(n, Apply(n, a))
  {
    hide Inv, Running, UsesUp;
    match a {
      case TryPut(t) => TriedPutUses(n, t);
      case Wake(t) => WokenUpUses(n, t);
      case Submit(t, wakes) => AnnouncedUses(n, t, wakes);
      case Acquire(w) => AcquiredUses(n, w);
      case Scan(w) => ScannedUses(n, w);
      case Sleep(w) => SleptUses(n, w);
      case TakeFirst(w) => TookFirstUses(n, w);
      case TakeRest(w, batch, retries) => TookRestUses(n, w, batch, retries);
      case AfterCall(w) => CallOverUses(n, w);
      case Release(w, wakes) => LetGoUses(n, w, wakes);
    }
  }
}
