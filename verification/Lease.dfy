/**
 * The backfill of asset tags (assets/jobs.go, state/jobs.go): several processes share one table of
 * jobs, and a claim is a lease stamped with the start of the tick that made it.
 *
 * Times are nanoseconds of one clock; the table keeps whole seconds.
 */
module Lease {
  import opened Clocks
  import opened Sets

  function Unix(t: int): int { t / SECOND }

  datatype Status = Pending | Failed | Running | Done | Missing

  datatype Row = Row(status: Status, attempts: nat, updatedAt: int)

  type Job = nat
  type Table = map<Job, Row>

  datatype Claim = Claim(now: int, staleBefore: int, maxAttempts: nat)

  datatype Config = Config(claimTimeout: nat, maxAttempts: nat, batch: nat)

  function ClaimAt(now: int, cfg: Config): Claim {
    Claim(now, now - cfg.claimTimeout, cfg.maxAttempts)
  }

  predicate Final(status: Status) { status.Done? || status.Missing? }

  /** The condition of the one UPDATE that makes a claim. */
  predicate Claimable(row: Row, claim: Claim) {
    && row.attempts < claim.maxAttempts
    && (row.status.Pending? || row.status.Failed? || (row.status.Running? && row.updatedAt < Unix(claim.staleBefore)))
  }

  function Claimed(row: Row, claim: Claim): Row { Row(Running, row.attempts + 1, Unix(claim.now)) }

  function Updated(table: Table, job: Job, status: Status, now: int): Table {
    if job in table then table[job := table[job].(status := status, updatedAt := Unix(now))] else table
  }

  predicate Expired(row: Row, now: int, retention: int) {
    Final(row.status) && row.updatedAt < Unix(now - retention)
  }

  function Cleaned(table: Table, now: int, retention: int): Table {
    if retention <= 0 then table
    else map j | j in table && !Expired(table[j], now, retention) :: table[j]
  }

  class JobStore {
    var table: Table

    constructor ()
      ensures table == map[]
    {
      table := map[];
    }

    /** True for exactly one of the processes that try: the row changed. */
    method ClaimAssetTagJob(job: Job, claim: Claim) returns (claimed: bool)
      modifies this
      ensures claimed <==> job in old(table) && Claimable(old(table)[job], claim)
      ensures claimed ==> table == old(table)[job := Claimed(old(table)[job], claim)]
      ensures claimed ==> !Claimable(table[job], claim) || claim.now < claim.staleBefore
      ensures !claimed ==> table == old(table)
    {
      if job in table && table[job].attempts < claim.maxAttempts
         && (table[job].status in {Pending, Failed}
             || (table[job].status == Running && table[job].updatedAt < Unix(claim.staleBefore))) {
        var row := table[job];
        table := table[job := row.(status := Running, attempts := row.attempts + 1, updatedAt := Unix(claim.now))];
        return true;
      }
      claimed := false;
    }

    method UpdateAssetTagJob(job: Job, status: Status, now: int)
      modifies this
      ensures table == Updated(old(table), job, status, now)
      ensures job in table ==> job in old(table) && table[job].attempts == old(table)[job].attempts
    {
      if job in table {
        table := table[job := table[job].(status := status, updatedAt := Unix(now))];
      }
    }

    method CleanupAssetTagJobs(now: int, retention: int) returns (removed: nat)
      modifies this
      ensures table == Cleaned(old(table), now, retention)
      ensures table.Keys <= old(table).Keys && removed == |old(table).Keys| - |table.Keys|
    {
      if retention <= 0 {
        return 0;
      }
      var before := table;
      var cutoff := Unix(now - retention);
      table := map j | j in table && !(table[j].status in {Done, Missing} && table[j].updatedAt < cutoff) :: table[j];
      assert table == Cleaned(before, now, retention);
      SubsetSize(table.Keys, before.Keys);
      removed := |before.Keys| - |table.Keys|;
    }
  }

  // ---------------------------------------------------------------------------------------------
  // Any number of processes.

  type Id = nat

  /** A process between ticks, with its tick's start, working down its list, or on one job. */
  datatype Worker =
    | Idle
    | Started(start: int)
    | Ticking(start: int, todo: seq<Job>)
    | Working(start: int, todo: seq<Job>, job: Job)

  /** `claims` counts the claims of each job since it was entered. */
  datatype State = State(table: Table, clock: int, workers: map<Id, Worker>, claims: map<Job, nat>)

  datatype Action =
    | Owe(job: Job)
    | Wait(duration: nat)
    | BeginTick(w: Id)
    | List(w: Id, todo: seq<Job>)
    | Try(w: Id)
    | Finish(w: Id, status: Status)
    | Leave(w: Id)
    | Clean(retention: int)

  predicate On(s: State, w: Id) { w in s.workers }

  predicate WorksOn(s: State, w: Id, job: Job) { w in s.workers && s.workers[w].Working? && s.workers[w].job == job }

  /**
   * The candidates a tick starts with: the claimable rows that have waited longest, longest first, no more
   * than the batch; among rows stamped with the same second any order will do.
   */
  predicate Listed(table: Table, claim: Claim, batch: nat, todo: seq<Job>) {
    && |todo| <= batch
    && (forall i | 0 <= i < |todo| :: todo[i] in table && Claimable(table[todo[i]], claim))
    && (forall i, j | 0 <= i < j < |todo| :: todo[i] != todo[j] && table[todo[i]].updatedAt <= table[todo[j]].updatedAt)
    && (forall j | j in table && Claimable(table[j], claim) && j !in todo ::
          |todo| == batch && forall i | 0 <= i < |todo| :: table[todo[i]].updatedAt <= table[j].updatedAt)
  }

  predicate Enabled(s: State, a: Action, cfg: Config) {
    match a
    case Owe(job) => job !in s.table
    case Wait(_) => true
    case BeginTick(w) => On(s, w) && s.workers[w].Idle?
    case List(w, todo) =>
      On(s, w) && s.workers[w].Started? && Listed(s.table, ClaimAt(s.workers[w].start, cfg), cfg.batch, todo)
    case Try(w) => On(s, w) && s.workers[w].Ticking? && s.workers[w].todo != []
    case Finish(w, status) => On(s, w) && s.workers[w].Working? && (Final(status) || status.Failed?)
    case Leave(w) => On(s, w)
    case Clean(_) => true
  }

  function Tried(s: State, w: Id, cfg: Config): State
    requires On(s, w) && s.workers[w].Ticking? && s.workers[w].todo != []
  {
    var start, todo := s.workers[w].start, s.workers[w].todo;
    var job, claim := todo[0], ClaimAt(start, cfg);
    if job in s.table && Claimable(s.table[job], claim) then
      s.(table := s.table[job := Claimed(s.table[job], claim)],
         workers := s.workers[w := Working(start, todo[1..], job)],
         claims := s.claims[job := (if job in s.claims then s.claims[job] else 0) + 1])
    else s.(workers := s.workers[w := Ticking(start, todo[1..])])
  }

  /** Leave is a crash, a shutdown in the middle of a job, or the end of a tick: nothing is written back. */
  function Next(s: State, a: Action, cfg: Config): State
    requires Enabled(s, a, cfg)
  {
    match a
    case Owe(job) => s.(table := s.table[job := Row(Pending, 0, Unix(s.clock))], claims := s.claims[job := 0])
    case Wait(duration) => s.(clock := s.clock + duration)
    case BeginTick(w) => s.(workers := s.workers[w := Started(s.clock)])
    case List(w, todo) => s.(workers := s.workers[w := Ticking(s.workers[w].start, todo)])
    case Try(w) => Tried(s, w, cfg)
    case Finish(w, status) =>
      var me := s.workers[w];
      s.(table := Updated(s.table, me.job, status, s.clock), workers := s.workers[w := Ticking(me.start, me.todo)])
    case Leave(w) => s.(workers := s.workers[w := Idle])
    case Clean(retention) => s.(table := Cleaned(s.table, s.clock, retention))
  }

  /** The lease of a tick that started at `start` has run out, in the whole seconds the table keeps. */
  predicate RunOut(start: int, clock: int, cfg: Config) { Unix(start) < Unix(clock - cfg.claimTimeout) }

  /** No job in hand has outlived the lease of the tick that claimed it. */
  ghost predicate OnTime(s: State, cfg: Config) {
    forall w | On(s, w) && s.workers[w].Working? :: !RunOut(s.workers[w].start, s.clock, cfg)
  }

  predicate LeaseHeld(s: State, w: Id)
    requires On(s, w) && s.workers[w].Working?
  {
    var me := s.workers[w];
    me.job in s.table && s.table[me.job].status.Running? && s.table[me.job].updatedAt == Unix(me.start)
  }

  ghost predicate Exclusive(s: State) {
    forall v, w | On(s, v) && On(s, w) && s.workers[v].Working? && s.workers[w].Working? ::
      s.workers[v].job == s.workers[w].job ==> v == w
  }

  predicate StartedBefore(worker: Worker, clock: int) { worker.Idle? || worker.start <= clock }

  ghost predicate Inv(s: State, cfg: Config) {
    && (forall w | On(s, w) :: StartedBefore(s.workers[w], s.clock))
    && (forall w | On(s, w) && s.workers[w].Working? :: LeaseHeld(s, w))
    && Exclusive(s)
    && (forall j | j in s.table :: j in s.claims && s.table[j].attempts == s.claims[j] <= cfg.maxAttempts)
  }

  lemma UnixMonotone(a: int, b: int)
    requires a <= b
    ensures Unix(a) <= Unix(b)
  {
  }

  /** Ending every job within ClaimTimeout of its tick's start is enough. */
  lemma InTimeIsOnTime(s: State, cfg: Config)
    requires forall w | On(s, w) && s.workers[w].Working? :: s.clock <= s.workers[w].start + cfg.claimTimeout
    ensures OnTime(s, cfg)
  {
    forall w | On(s, w) && s.workers[w].Working?
      ensures !RunOut(s.workers[w].start, s.clock, cfg)
    {
      UnixMonotone(s.clock - cfg.claimTimeout, s.workers[w].start);
    }
  }

  /** A live lease cannot be taken: the thief's tick would have to start after the holder ran out of time. */
  lemma LiveLeaseIsSafe(s: State, w: Id, thief: Id, cfg: Config)
    requires Inv(s, cfg) && OnTime(s, cfg) && On(s, w) && s.workers[w].Working?
    requires On(s, thief) && !s.workers[thief].Idle?
    ensures !Claimable(s.table[s.workers[w].job], ClaimAt(s.workers[thief].start, cfg))
  {
    var me, start := s.workers[w], s.workers[thief].start;
    assert LeaseHeld(s, w);
    assert StartedBefore(s.workers[thief], s.clock);
    UnixMonotone(start - cfg.claimTimeout, s.clock - cfg.claimTimeout);
  }

  lemma TryKeeps(s: State, w: Id, cfg: Config)
    requires Inv(s, cfg) && OnTime(s, cfg) && Enabled(s, Try(w), cfg)
    ensures Inv(Tried(s, w, cfg), cfg)
  {
    var job, claim := s.workers[w].todo[0], ClaimAt(s.workers[w].start, cfg);
    if job in s.table && Claimable(s.table[job], claim) {
      forall v | WorksOn(s, v, job)
        ensures false
      {
        LiveLeaseIsSafe(s, v, w, cfg);
      }
      var s' := Tried(s, w, cfg);
      forall v | On(s', v) && s'.workers[v].Working?
        ensures LeaseHeld(s', v)
      {
        if v != w {
          assert LeaseHeld(s, v) && !WorksOn(s, v, job);
        }
      }
    }
  }

  lemma FinishKeeps(s: State, w: Id, status: Status, cfg: Config)
    requires Inv(s, cfg) && Enabled(s, Finish(w, status), cfg)
    ensures Inv(Next(s, Finish(w, status), cfg), cfg)
  {
    var s' := Next(s, Finish(w, status), cfg);
    forall v | On(s', v) && s'.workers[v].Working?
      ensures LeaseHeld(s', v)
    {
      assert LeaseHeld(s, v);
    }
  }

  /** While everybody is on time, every step keeps the leases exclusive. */
  lemma StepKeeps(s: State, a: Action, cfg: Config)
    requires Inv(s, cfg) && OnTime(s, cfg) && Enabled(s, a, cfg)
    ensures Inv(Next(s, a, cfg), cfg)
  {
    if a.Try? {
      TryKeeps(s, a.w, cfg);
    } else if a.Finish? {
      FinishKeeps(s, a.w, a.status, cfg);
    } else {
      var s' := Next(s, a, cfg);
      forall v | On(s', v) && s'.workers[v].Working?
        ensures LeaseHeld(s', v)
      {
        assert LeaseHeld(s, v);
      }
    }
  }

  /** A run of steps, each possible where the ones before it lead. */
  ghost predicate IsRun(s: State, run: seq<Action>, cfg: Config)
    decreases |run|
  {
    run == [] || (Enabled(s, run[0], cfg) && IsRun(Next(s, run[0], cfg), run[1..], cfg))
  }

  ghost function After(s: State, run: seq<Action>, cfg: Config): State
    requires IsRun(s, run, cfg)
    decreases |run|
  {
    if run == [] then s else After(Next(s, run[0], cfg), run[1..], cfg)
  }

  /** Everybody is on time wherever a step is taken. */
  ghost predicate AlwaysOnTime(s: State, run: seq<Action>, cfg: Config)
    requires IsRun(s, run, cfg)
    decreases |run|
  {
    run == [] || (OnTime(s, cfg) && AlwaysOnTime(Next(s, run[0], cfg), run[1..], cfg))
  }

  ghost predicate Start(s: State) {
    && s.claims == map[] && s.table == map[]
    && forall w | On(s, w) :: s.workers[w].Idle?
  }

  lemma {:induction false} RunKeeps(s: State, run: seq<Action>, cfg: Config)
    requires Inv(s, cfg) && IsRun(s, run, cfg) && AlwaysOnTime(s, run, cfg)
    ensures Inv(After(s, run, cfg), cfg)
    decreases |run|
  {
    hide Inv, OnTime, Enabled, Next;
    if run != [] {
      StepKeeps(s, run[0], cfg);
      RunKeeps(Next(s, run[0], cfg), run[1..], cfg);
    }
  }

  /**
   * Lease safety: after any interleaving of claims, crashes, write-backs, clean-ups and time in which
   * no job outlived its lease, no two processes are on the same job, and every row has been claimed
   * exactly as often as it says, never more than MaxAttempts times.
   */
  lemma LeaseSafety(s: State, run: seq<Action>, cfg: Config)
    requires Start(s) && IsRun(s, run, cfg) && AlwaysOnTime(s, run, cfg)
    ensures var t := After(s, run, cfg);
            && (forall v, w, j | WorksOn(t, v, j) && WorksOn(t, w, j) :: v == w)
            && (forall j | j in t.table :: j in t.claims && t.table[j].attempts == t.claims[j] <= cfg.maxAttempts)
  {
    RunKeeps(s, run, cfg);
  }

  /** A finished job stays as it is until it is cleaned up: nobody claims it, nobody rewrites it. */
  lemma FinalIsFinal(s: State, run: seq<Action>, a: Action, cfg: Config, j: Job)
    requires Start(s) && IsRun(s, run, cfg) && AlwaysOnTime(s, run, cfg) && Enabled(After(s, run, cfg), a, cfg)
    requires var t := After(s, run, cfg); j in t.table && Final(t.table[j].status)
    ensures var t, t' := After(s, run, cfg), Next(After(s, run, cfg), a, cfg);
            (a.Clean? && j !in t'.table) || (j in t'.table && t'.table[j] == t.table[j])
    ensures forall w :: !WorksOn(After(s, run, cfg), w, j)
  {
    RunKeeps(s, run, cfg);
    var t := After(s, run, cfg);
    forall w | On(t, w) && t.workers[w].Working?
      ensures t.workers[w].job != j
    {
      assert LeaseHeld(t, w);
    }
  }

  /** Whatever unfinished work a row stands for survives every clean-up. */
  lemma CleanKeepsUnfinished(table: Table, now: int, retention: int, j: Job)
    requires j in table && !Final(table[j].status)
    ensures j in Cleaned(table, now, retention) && Cleaned(table, now, retention)[j] == table[j]
  {
  }

  // ---------------------------------------------------------------------------------------------
  // Which jobs another process can get to.

  /** A job somebody claimed and nobody is on any more. */
  ghost predicate Crashed(s: State, j: Job) {
    j in s.table && s.table[j].status.Running? && forall w :: !WorksOn(s, w, j)
  }

  ghost predicate Stranded(s: State, cfg: Config, j: Job) { Crashed(s, j) && s.table[j].attempts >= cfg.maxAttempts }

  /** A process that dies on a job's last attempt leaves it running: no step of anybody touches the row. */
  lemma LastCrashStrands(s: State, a: Action, cfg: Config, j: Job)
    requires Enabled(s, a, cfg) && Stranded(s, cfg, j)
    ensures var s' := Next(s, a, cfg);
            Stranded(s', cfg, j) && s'.table[j] == s.table[j]
  {
    if a.Finish? {
      assert !WorksOn(s, a.w, j);
    }
    var s' := Next(s, a, cfg);
    forall w
      ensures !WorksOn(s', w, j)
    {
      assert !WorksOn(s, w, j);
    }
  }

  /** And so it stays, whatever happens afterwards. */
  lemma {:induction false} StrandedForEver(s: State, run: seq<Action>, cfg: Config, j: Job)
    requires IsRun(s, run, cfg) && Stranded(s, cfg, j)
    ensures Stranded(After(s, run, cfg), cfg, j) && After(s, run, cfg).table[j] == s.table[j]
    decreases |run|
  {
    hide Stranded, Enabled, Next;
    if run != [] {
      LastCrashStrands(s, run[0], cfg, j);
      StrandedForEver(Next(s, run[0], cfg), run[1..], cfg, j);
    }
  }

  lemma StepThen(s: State, a: Action, rest: seq<Action>, cfg: Config)
    requires Enabled(s, a, cfg) && IsRun(Next(s, a, cfg), rest, cfg)
    ensures IsRun(s, [a] + rest, cfg) && After(s, [a] + rest, cfg) == After(Next(s, a, cfg), rest, cfg)
    ensures OnTime(s, cfg) && AlwaysOnTime(Next(s, a, cfg), rest, cfg) ==> AlwaysOnTime(s, [a] + rest, cfg)
  {
    assert ([a] + rest)[1..] == rest;
  }

  lemma {:induction false} RunsJoin(s: State, a: seq<Action>, b: seq<Action>, cfg: Config)
    requires IsRun(s, a, cfg) && IsRun(After(s, a, cfg), b, cfg)
    ensures IsRun(s, a + b, cfg) && After(s, a + b, cfg) == After(After(s, a, cfg), b, cfg)
    ensures AlwaysOnTime(s, a, cfg) && AlwaysOnTime(After(s, a, cfg), b, cfg) ==> AlwaysOnTime(s, a + b, cfg)
    decreases |a|
  {
    hide Enabled, Next, OnTime;
    if a == [] {
      assert a + b == b;
    } else {
      RunsJoin(Next(s, a[0], cfg), a[1..], b, cfg);
      assert (a + b)[1..] == a[1..] + b;
    }
  }

  /** Of a set of rows, one that has waited longest. */
  lemma {:induction false} Oldest(table: Table, rows: set<Job>) returns (oldest: Job)
    requires rows != {} && rows <= table.Keys
    ensures oldest in rows && forall j | j in rows :: table[oldest].updatedAt <= table[j].updatedAt
    decreases |rows|
  {
    var one :| one in rows;
    if rows == {one} {
      oldest := one;
    } else {
      var other := Oldest(table, rows - {one});
      oldest := if table[one].updatedAt <= table[other].updatedAt then one else other;
    }
  }

  /** The n rows that have waited longest, or all of them, longest first. */
  lemma {:induction false} OldestRows(table: Table, rows: set<Job>, n: nat) returns (todo: seq<Job>)
    requires rows <= table.Keys
    ensures |todo| <= n && (rows != {} && n > 0 ==> todo != [])
    ensures forall i | 0 <= i < |todo| :: todo[i] in rows
    ensures forall i, j | 0 <= i < j < |todo| :: todo[i] != todo[j] && table[todo[i]].updatedAt <= table[todo[j]].updatedAt
    ensures forall j | j in rows && j !in todo ::
              |todo| == n && forall i | 0 <= i < |todo| :: table[todo[i]].updatedAt <= table[j].updatedAt
    decreases n
  {
    if rows == {} || n == 0 {
      todo := [];
    } else {
      var first := Oldest(table, rows);
      var rest := OldestRows(table, rows - {first}, n - 1);
      todo := [first] + rest;
      assert forall j | j in rows && j !in todo :: j in rows - {first} && j !in rest;
    }
  }

  lemma ListExists(table: Table, claim: Claim, batch: nat, job: Job) returns (todo: seq<Job>)
    requires batch >= 1 && job in table && Claimable(table[job], claim)
    ensures Listed(table, claim, batch, todo) && todo != []
  {
    hide Claimable;
    var rows := set j | j in table && Claimable(table[j], claim);
    assert job in rows;
    todo := OldestRows(table, rows, batch);
  }

  /** One tick up to the first claim. */
  function TickFor(w: Id, todo: seq<Job>): seq<Action> { [BeginTick(w)] + ([List(w, todo)] + ([Try(w)] + [])) }

  /** A tick claims the first job on its list. */
  lemma TickClaims(s: State, w: Id, todo: seq<Job>, cfg: Config)
    requires On(s, w) && s.workers[w].Idle? && todo != [] && Listed(s.table, ClaimAt(s.clock, cfg), cfg.batch, todo)
    ensures IsRun(s, TickFor(w, todo), cfg)
    ensures var j := todo[0];
            After(s, TickFor(w, todo), cfg) ==
              s.(table := s.table[j := Claimed(s.table[j], ClaimAt(s.clock, cfg))],
                 workers := s.workers[w := Working(s.clock, todo[1..], j)],
                 claims := s.claims[j := (if j in s.claims then s.claims[j] else 0) + 1])
    ensures (forall v | On(s, v) :: !s.workers[v].Working?) ==> AlwaysOnTime(s, TickFor(w, todo), cfg)
  {
    hide Listed;
    FirstListed(s.table, ClaimAt(s.clock, cfg), cfg.batch, todo);
    var s1 := Next(s, BeginTick(w), cfg);
    var s2 := Next(s1, List(w, todo), cfg);
    assert Next(s2, Try(w), cfg).workers == s.workers[w := Working(s.clock, todo[1..], todo[0])];
    StepThen(s2, Try(w), [], cfg);
    StepThen(s1, List(w, todo), [Try(w)] + [], cfg);
    StepThen(s, BeginTick(w), [List(w, todo)] + ([Try(w)] + []), cfg);
  }

  lemma FirstListed(table: Table, claim: Claim, batch: nat, todo: seq<Job>)
    requires Listed(table, claim, batch, todo) && todo != []
    ensures todo[0] in table && Claimable(table[todo[0]], claim)
  {
  }

  function Unfinished(table: Table): set<Job> { set j | j in table && !Final(table[j].status) }

  /** `w` has come to the job while nobody else did anything, at the same moment. */
  ghost predicate Reached(s: State, t: State, w: Id, j: Job, cfg: Config) {
    && On(t, w) && t.clock == s.clock && t.workers == s.workers[w := t.workers[w]]
    && t.workers[w].Working? && t.workers[w].start == s.clock && t.workers[w].job == j
    && j in s.table && j in t.table && t.table[j] == Claimed(s.table[j], ClaimAt(s.clock, cfg))
  }

  /** One job of the list is claimed and finished, and the process is between ticks again. */
  lemma OneOut(s: State, w: Id, todo: seq<Job>, cfg: Config)
    requires On(s, w) && s.workers[w].Idle? && todo != [] && Listed(s.table, ClaimAt(s.clock, cfg), cfg.batch, todo)
    ensures var run := TickFor(w, todo) + [Finish(w, Done), Leave(w)];
            && IsRun(s, run, cfg)
            && var t := After(s, run, cfg);
               && t.clock == s.clock && t.workers == s.workers
               && todo[0] in s.table && !Final(s.table[todo[0]].status)
               && t.table.Keys == s.table.Keys && Final(t.table[todo[0]].status)
               && (forall j | j in s.table && j != todo[0] :: t.table[j] == s.table[j])
               && ((forall v | On(s, v) :: !s.workers[v].Working?) ==> AlwaysOnTime(s, run, cfg))
  {
    TickClaims(s, w, todo, cfg);
    FirstListed(s.table, ClaimAt(s.clock, cfg), cfg.batch, todo);
    var s1 := After(s, TickFor(w, todo), cfg);
    hide Listed, IsRun, AlwaysOnTime, After, TickFor;
    FinishAndLeave(s1, w, cfg);
    RunsJoin(s, TickFor(w, todo), [Finish(w, Done), Leave(w)], cfg);
  }

  lemma FinishAndLeave(s: State, w: Id, cfg: Config)
    requires On(s, w) && s.workers[w].Working? && s.workers[w].start == s.clock && s.workers[w].job in s.table
    ensures IsRun(s, [Finish(w, Done), Leave(w)], cfg)
    ensures After(s, [Finish(w, Done), Leave(w)], cfg) ==
              s.(table := Updated(s.table, s.workers[w].job, Done, s.clock), workers := s.workers[w := Idle])
    ensures (forall v | On(s, v) && v != w :: !s.workers[v].Working?) ==> AlwaysOnTime(s, [Finish(w, Done), Leave(w)], cfg)
  {
    var s1 := Next(s, Finish(w, Done), cfg);
    assert Next(s1, Leave(w), cfg).workers == s.workers[w := Idle];
    StepThen(s1, Leave(w), [], cfg);
    StepThen(s, Finish(w, Done), [Leave(w)] + [], cfg);
    assert [Finish(w, Done)] + ([Leave(w)] + []) == [Finish(w, Done), Leave(w)];
    if forall v | On(s, v) && v != w :: !s.workers[v].Working? {
      InTimeIsOnTime(s, cfg);
    }
  }

  /** An idle process gets to a claimable job, at once if the job is first on the list, else past the ones before it. */
  lemma {:induction false} ReachJob(s: State, w: Id, j: Job, cfg: Config) returns (run: seq<Action>)
    requires On(s, w) && s.workers[w].Idle? && cfg.batch >= 1
    requires j in s.table && Claimable(s.table[j], ClaimAt(s.clock, cfg))
    ensures IsRun(s, run, cfg) && Reached(s, After(s, run, cfg), w, j, cfg)
    ensures (forall v | On(s, v) :: !s.workers[v].Working?) ==> AlwaysOnTime(s, run, cfg)
    decreases |Unfinished(s.table)|
  {
    hide Listed, IsRun, AlwaysOnTime, After, TickFor;
    var todo := ListExists(s.table, ClaimAt(s.clock, cfg), cfg.batch, j);
    if todo[0] == j {
      run := TickFor(w, todo);
      TickClaims(s, w, todo, cfg);
    } else {
      var out := TickFor(w, todo) + [Finish(w, Done), Leave(w)];
      OneOut(s, w, todo, cfg);
      var t := After(s, out, cfg);
      OneFewer(s.table, t.table, todo[0]);
      var rest := ReachJob(t, w, j, cfg);
      RunsJoin(s, out, rest, cfg);
      run := out + rest;
    }
  }

  lemma OneFewer(table: Table, after: Table, k: Job)
    requires k in table && after.Keys == table.Keys && !Final(table[k].status) && Final(after[k].status)
    requires forall j | j in table && j != k :: after[j] == table[j]
    ensures |Unfinished(after)| < |Unfinished(table)|
  {
    assert Unfinished(after) == Unfinished(table) - {k};
  }

  /**
   * The deadline is exact: once the lease of a job still being worked on has run out, any idle process can
   * end up on the same job, without any time passing.
   */
  lemma LateMeansTwice(s: State, w: Id, idle: Id, cfg: Config) returns (run: seq<Action>)
    requires On(s, w) && s.workers[w].Working? && LeaseHeld(s, w) && On(s, idle) && s.workers[idle].Idle?
    requires s.table[s.workers[w].job].attempts < cfg.maxAttempts && cfg.batch >= 1
    requires RunOut(s.workers[w].start, s.clock, cfg)
    ensures IsRun(s, run, cfg) && After(s, run, cfg).clock == s.clock
    ensures var j, t := s.workers[w].job, After(s, run, cfg); w != idle && WorksOn(t, w, j) && WorksOn(t, idle, j)
  {
    run := ReachJob(s, idle, s.workers[w].job, cfg);
  }

  lemma UnixPast(stamp: int, t: int)
    requires (stamp + 1) * SECOND <= t
    ensures stamp < Unix(t)
  {
  }

  lemma ReclaimWorks(s: State, w: Id, j: Job, cfg: Config) returns (run: seq<Action>)
    requires On(s, w) && s.workers[w].Idle? && cfg.batch >= 1
    requires Crashed(s, j) && s.table[j].attempts < cfg.maxAttempts
    ensures IsRun(s, run, cfg)
    ensures var t := After(s, run, cfg);
            && WorksOn(t, w, j) && t.workers == s.workers[w := t.workers[w]] && t.workers[w].start == t.clock
            && j in t.table && t.table[j].status.Running? && t.table[j].attempts == s.table[j].attempts + 1
    ensures (forall v | On(s, v) :: !s.workers[v].Working?) ==> AlwaysOnTime(s, run, cfg)
  {
    var due := (s.table[j].updatedAt + 1) * SECOND + cfg.claimTimeout;
    var wait := Wait(if due > s.clock then due - s.clock else 0);
    var s1 := Next(s, wait, cfg);
    UnixPast(s.table[j].updatedAt, s1.clock - cfg.claimTimeout);
    hide After, IsRun, AlwaysOnTime;
    assert s1.workers == s.workers && s1.table == s.table;
    var rest := ReachJob(s1, w, j, cfg);
    StepThen(s, wait, rest, cfg);
    run := [wait] + rest;
  }

  /** The job gets taken up by `w` at the end of this run. */
  ghost predicate TakesUp(s: State, run: seq<Action>, w: Id, j: Job, cfg: Config) {
    IsRun(s, run, cfg) && WorksOn(After(s, run, cfg), w, j)
  }

  /** A crashed job can be taken up again exactly if it has an attempt left. */
  lemma ReclaimedExactly(s: State, w: Id, j: Job, cfg: Config)
    requires On(s, w) && s.workers[w].Idle? && cfg.batch >= 1 && Crashed(s, j)
    ensures (exists run :: TakesUp(s, run, w, j, cfg)) <==> s.table[j].attempts < cfg.maxAttempts
  {
    if s.table[j].attempts < cfg.maxAttempts {
      var run := ReclaimWorks(s, w, j, cfg);
      assert TakesUp(s, run, w, j, cfg);
    } else {
      forall run
        ensures !TakesUp(s, run, w, j, cfg)
      {
        if IsRun(s, run, cfg) {
          StrandedForEver(s, run, cfg, j);
        }
      }
    }
  }

  /** Only `w` ever does anything, and it is between jobs. */
  ghost predicate AllIdle(s: State, w: Id) {
    On(s, w) && forall v | On(s, v) :: s.workers[v].Idle?
  }

  lemma LeavesCrashed(t: State, w: Id, j: Job, cfg: Config)
    requires WorksOn(t, w, j) && t.workers[w].start == t.clock && (forall v | On(t, v) && v != w :: t.workers[v].Idle?)
    requires j in t.table && t.table[j].status.Running?
    ensures IsRun(t, [Leave(w)], cfg) && AlwaysOnTime(t, [Leave(w)], cfg)
    ensures var u := After(t, [Leave(w)], cfg); AllIdle(u, w) && Crashed(u, j) && u.table == t.table
  {
    InTimeIsOnTime(t, cfg);
    StepThen(t, Leave(w), [], cfg);
    assert [Leave(w)] + [] == [Leave(w)];
  }

  lemma CrashAgain(s: State, w: Id, j: Job, cfg: Config) returns (run: seq<Action>)
    requires AllIdle(s, w) && cfg.batch >= 1 && Crashed(s, j) && s.table[j].attempts < cfg.maxAttempts
    ensures IsRun(s, run, cfg) && AlwaysOnTime(s, run, cfg)
    ensures var t := After(s, run, cfg);
            AllIdle(t, w) && Crashed(t, j) && t.table[j].attempts == s.table[j].attempts + 1
  {
    var taken := ReclaimWorks(s, w, j, cfg);
    var t := After(s, taken, cfg);
    var leave := [Leave(w)];
    LeavesCrashed(t, w, j, cfg);
    hide AlwaysOnTime, OnTime, IsRun;
    RunsJoin(s, taken, leave, cfg);
    run := taken + leave;
  }

  lemma {:induction false} CrashUntilStranded(s: State, w: Id, j: Job, cfg: Config) returns (run: seq<Action>)
    requires AllIdle(s, w) && cfg.batch >= 1 && Crashed(s, j)
    ensures IsRun(s, run, cfg) && AlwaysOnTime(s, run, cfg) && Stranded(After(s, run, cfg), cfg, j)
    decreases cfg.maxAttempts - s.table[j].attempts
  {
    if s.table[j].attempts >= cfg.maxAttempts {
      run := [];
    } else {
      var once := CrashAgain(s, w, j, cfg);
      hide AlwaysOnTime, IsRun, Crashed, AllIdle;
      var rest := CrashUntilStranded(After(s, once, cfg), w, j, cfg);
      RunsJoin(s, once, rest, cfg);
      run := once + rest;
    }
  }

  /** From a fresh table, one process that dies in the middle of the same job often enough strands it, always on time. */
  lemma StrandingHappens(s: State, w: Id, j: Job, cfg: Config) returns (run: seq<Action>)
    requires Start(s) && On(s, w) && cfg.batch >= 1 && cfg.maxAttempts >= 1
    ensures IsRun(s, run, cfg) && AlwaysOnTime(s, run, cfg) && Stranded(After(s, run, cfg), cfg, j)
  {
    var tick, leave := [Owe(j)] + TickFor(w, [j]), [Leave(w)];
    var s1 := Next(s, Owe(j), cfg);
    assert Listed(s1.table, ClaimAt(s1.clock, cfg), cfg.batch, [j]);
    TickClaims(s1, w, [j], cfg);
    StepThen(s, Owe(j), TickFor(w, [j]), cfg);
    var t := After(s, tick, cfg);
    LeavesCrashed(t, w, j, cfg);
    hide AlwaysOnTime, IsRun, Crashed, AllIdle, Start, OnTime, TickFor;
    RunsJoin(s, tick, leave, cfg);
    var rest := CrashUntilStranded(After(s, tick + leave, cfg), w, j, cfg);
    RunsJoin(s, tick + leave, rest, cfg);
    run := tick + leave + rest;
  }
}
