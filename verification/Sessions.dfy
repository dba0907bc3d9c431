/**
 * Who owns an MCP session (mcpclient/manager.go): dialling, marking dead and closing all run at once,
 * and every session ever opened must end up closed, once, by exactly one of them.
 *
 * A server has one dialler at a time: the first round finishes before the reconnect loop starts, and
 * that loop dials one server after another.
 */
module Sessions {
  import opened Options

  type Session = nat
  type Server = nat
  type Id = nat

  /** Where a dial is. `Committing` holds the server's lock after having seen the gate still open. */
  datatype Dial =
    | NoDial
    | Wanted
    | Dialing
    | Opened(session: Session)
    | Failing(session: Session)
    | Returned(result: Option<Session>)
    | Committing(result: Option<Session>)
    | Discarding(session: Session)

  datatype Closer = NotStarted | Sweeping(next: Server) | Carrying(next: Server, session: Session) | Finished

  datatype State = State(
    servers: nat,
    attached: map<Server, Session>,
    dials: map<Server, Dial>,
    hands: map<Id, Session>,
    closer: Closer,
    made: set<Session>,
    closes: map<Session, nat>)

  datatype Action =
    | Look(srv: Server)
    | PassGate(srv: Server)
    | Open(srv: Server, session: Session)
    | Refused(srv: Server)
    | Listed(srv: Server)
    | ListFailed(srv: Server)
    | CloseFailed(srv: Server)
    | CheckGate(srv: Server)
    | Commit(srv: Server)
    | Discard(srv: Server)
    | MarkDead(g: Id, srv: Server)
    | CloseDead(g: Id)
    | StartClose
    | Sweep
    | CloseSwept

  predicate Closing(s: State) { !s.closer.NotStarted? }

  function DialOf(s: State, srv: Server): Dial {
    if srv in s.dials then s.dials[srv] else NoDial
  }

  predicate Unlocked(s: State, srv: Server) { !DialOf(s, srv).Committing? }

  predicate Enabled(s: State, a: Action) {
    match a
    case Look(srv) => srv < s.servers && DialOf(s, srv).NoDial? && srv !in s.attached
    case PassGate(srv) => DialOf(s, srv).Wanted?
    case Open(srv, session) => DialOf(s, srv).Dialing? && session !in s.made
    case Refused(srv) => DialOf(s, srv).Dialing?
    case Listed(srv) => DialOf(s, srv).Opened?
    case ListFailed(srv) => DialOf(s, srv).Opened?
    case CloseFailed(srv) => DialOf(s, srv).Failing?
    case CheckGate(srv) => DialOf(s, srv).Returned?
    case Commit(srv) => DialOf(s, srv).Committing?
    case Discard(srv) => DialOf(s, srv).Discarding?
    case MarkDead(g, srv) => g !in s.hands && srv in s.attached && Unlocked(s, srv)
    case CloseDead(g) => g in s.hands
    case StartClose => s.closer.NotStarted?
    case Sweep => s.closer.Sweeping? && (s.closer.next < s.servers ==> Unlocked(s, s.closer.next))
    case CloseSwept => s.closer.Carrying?
  }

  function Went(s: State, srv: Server, dial: Dial): State { s.(dials := s.dials[srv := dial]) }

  function Shut(s: State, session: Session): State {
    s.(closes := s.closes[session := (if session in s.closes then s.closes[session] else 0) + 1])
  }

  function Swept(s: State): State
    requires s.closer.Sweeping?
  {
    var srv := s.closer.next;
    if srv >= s.servers then s.(closer := Finished)
    else if srv in s.attached then s.(closer := Carrying(srv, s.attached[srv]), attached := s.attached - {srv})
    else s.(closer := Sweeping(srv + 1))
  }

  function Next(s: State, a: Action): State
    requires Enabled(s, a)
  {
    match a
    case Look(srv) => Went(s, srv, Wanted)
    case PassGate(srv) => Went(s, srv, if Closing(s) then NoDial else Dialing)
    case Open(srv, session) => Went(s, srv, Opened(session)).(made := s.made + {session})
    case Refused(srv) => Went(s, srv, Returned(None))
    case Listed(srv) => Went(s, srv, Returned(Some(s.dials[srv].session)))
    case ListFailed(srv) => Went(s, srv, Failing(s.dials[srv].session))
    case CloseFailed(srv) => Shut(Went(s, srv, Returned(None)), s.dials[srv].session)
    case CheckGate(srv) =>
      var result := s.dials[srv].result;
      if !Closing(s) then Went(s, srv, Committing(result))
      else if result.Some? then Went(s, srv, Discarding(result.value))
      else Went(s, srv, NoDial)
    case Commit(srv) =>
      var result := s.dials[srv].result;
      Went(s, srv, NoDial).(attached := if result.Some? then s.attached[srv := result.value] else s.attached - {srv})
    case Discard(srv) => Shut(Went(s, srv, NoDial), s.dials[srv].session)
    case MarkDead(g, srv) => s.(hands := s.hands[g := s.attached[srv]], attached := s.attached - {srv})
    case CloseDead(g) => Shut(s.(hands := s.hands - {g}), s.hands[g])
    case StartClose => s.(closer := Sweeping(0))
    case Sweep => Swept(s)
    case CloseSwept => Shut(s.(closer := Sweeping(s.closer.next + 1)), s.closer.session)
  }

  // ---------------------------------------------------------------------------------------------
  // Ownership.

  datatype Place = AtServer(srv: Server) | WithDial(srv: Server) | InHand(g: Id) | WithCloser

  function HeldBy(dial: Dial): Option<Session> {
    match dial
    case Opened(x) => Some(x)
    case Failing(x) => Some(x)
    case Returned(result) => result
    case Committing(result) => result
    case Discarding(x) => Some(x)
    case _ => None
  }

  /** The session in a place, if there is one. */
  function In(s: State, place: Place): Option<Session> {
    match place
    case AtServer(srv) => if srv in s.attached then Some(s.attached[srv]) else None
    case WithDial(srv) => HeldBy(DialOf(s, srv))
    case InHand(g) => if g in s.hands then Some(s.hands[g]) else None
    case WithCloser => if s.closer.Carrying? then Some(s.closer.session) else None
  }

  function Closes(s: State, x: Session): nat { if x in s.closes then s.closes[x] else 0 }

  /** Whatever is held is open, and is held in one place only. */
  ghost predicate OneOwner(s: State) {
    && (forall p | In(s, p).Some? :: In(s, p).value in s.made && Closes(s, In(s, p).value) == 0)
    && (forall p, q | In(s, p).Some? && In(s, q).Some? && In(s, p).value == In(s, q).value :: p == q)
  }

  ghost predicate Owned(s: State, x: Session) { exists p :: In(s, p) == Some(x) }

  /** Nothing opened is forgotten, and nothing is closed twice. */
  ghost predicate NoLeak(s: State) {
    && (forall x: Session | x in s.made :: (Closes(s, x) == 0 && Owned(s, x)) || (Closes(s, x) == 1 && !Owned(s, x)))
    && (forall x: Session | x !in s.made :: Closes(s, x) == 0 && !Owned(s, x))
  }

  /** A server being dialled has no session, so publishing never overwrites one. */
  ghost predicate DialsUnattached(s: State) {
    && (forall srv: Server | !DialOf(s, srv).NoDial? :: srv !in s.attached && srv < s.servers)
    && (forall srv: Server | srv in s.attached :: srv < s.servers)
  }

  predicate PastSweep(closer: Closer, srv: Server) {
    closer.Finished? || (closer.Sweeping? && srv < closer.next) || (closer.Carrying? && srv <= closer.next)
  }

  /** Servers the sweep has been over stay empty: no session is attached there, nor about to be. */
  ghost predicate SweptClean(s: State) {
    forall srv: Server | srv < s.servers && PastSweep(s.closer, srv) :: srv !in s.attached && !DialOf(s, srv).Committing?
  }

  ghost predicate Inv(s: State) {
    OneOwner(s) && NoLeak(s) && DialsUnattached(s) && SweptClean(s)
  }

  predicate Start(s: State) {
    s.attached == map[] && s.dials == map[] && s.hands == map[] && s.closer.NotStarted? && s.made == {} && s.closes == map[]
  }

  lemma StartInv(s: State)
    requires Start(s)
    ensures Inv(s)
  {
  }

  /** Outside the places named, a step leaves everything where it was. */
  ghost predicate Elsewhere(s: State, s': State, from: Place, to: Place) {
    forall p | p != from && p != to :: In(s', p) == In(s, p)
  }

  /** A step that only moves sessions from one place to another, or nowhere: each place is empty or emptied into another. */
  lemma MoveKeeps(s: State, s': State, from: Place, to: Place)
    requires OneOwner(s) && NoLeak(s) && s'.made == s.made && s'.closes == s.closes
    requires Elsewhere(s, s', from, to)
    requires from != to ==> In(s, to).None? && In(s', from).None? && In(s', to) == In(s, from)
    requires from == to ==> In(s', to) == In(s, to)
    ensures OneOwner(s') && NoLeak(s')
  {
    forall x: Session
      ensures Owned(s', x) <==> Owned(s, x)
    {
      if Owned(s, x) {
        var p :| In(s, p) == Some(x);
        assert In(s', if p == from then to else p) == Some(x);
      }
      if Owned(s', x) {
        var p :| In(s', p) == Some(x);
        assert In(s, if p == to then from else p) == Some(x);
      }
    }
  }

  /** Closing what a place holds, and letting go of it, settles that session and no other. */
  lemma ShutKeeps(s: State, s': State, from: Place, x: Session)
    requires OneOwner(s) && NoLeak(s) && s'.made == s.made && In(s, from) == Some(x)
    requires In(s', from).None? && Elsewhere(s, s', from, from)
    requires forall y: Session :: Closes(s', y) == Closes(s, y) + if y == x then 1 else 0
    ensures OneOwner(s') && NoLeak(s')
  {
    forall y: Session
      ensures Owned(s', y) <==> Owned(s, y) && y != x
    {
      if Owned(s, y) && y != x {
        var p :| In(s, p) == Some(y);
        assert In(s', p) == Some(y);
      }
      if Owned(s', y) {
        var p :| In(s', p) == Some(y);
        assert In(s, p) == Some(y);
      }
    }
  }

  lemma OpenOwned(s: State, s': State, to: Place, x: Session)
    requires OneOwner(s) && NoLeak(s) && s'.closes == s.closes && x !in s.made && s'.made == s.made + {x}
    requires In(s, to).None? && In(s', to) == Some(x) && Elsewhere(s, s', to, to)
    ensures OneOwner(s') && NoLeak(s')
  {
    forall y: Session
      ensures Owned(s', y) <==> Owned(s, y) || y == x
    {
      if Owned(s, y) {
        var p :| In(s, p) == Some(y);
        assert In(s', p) == Some(y);
      }
      if Owned(s', y) && y != x {
        var p :| In(s', p) == Some(y);
        assert In(s, p) == Some(y);
      }
    }
  }

  // Where each step moves what.

  lemma OpenPlaces(s: State, srv: Server, x: Session)
    requires Enabled(s, Open(srv, x))
    ensures var s' := Next(s, Open(srv, x));
            In(s, WithDial(srv)).None? && In(s', WithDial(srv)) == Some(x) && Elsewhere(s, s', WithDial(srv), WithDial(srv))
  {
  }

  predicate StaysWithDial(a: Action) {
    a.Look? || a.PassGate? || a.Refused? || a.Listed? || a.ListFailed? || a.CheckGate?
  }

  lemma DialPlaces(s: State, a: Action)
    requires Enabled(s, a) && StaysWithDial(a)
    ensures var s' := Next(s, a);
            && s'.made == s.made && s'.closes == s.closes
            && In(s', WithDial(a.srv)) == In(s, WithDial(a.srv)) && Elsewhere(s, s', WithDial(a.srv), WithDial(a.srv))
  {
  }

  lemma CommitPlaces(s: State, srv: Server)
    requires Enabled(s, Commit(srv)) && srv !in s.attached
    ensures var s' := Next(s, Commit(srv));
            && s'.made == s.made && s'.closes == s.closes
            && In(s, AtServer(srv)).None? && In(s', WithDial(srv)).None? && In(s', AtServer(srv)) == In(s, WithDial(srv))
            && Elsewhere(s, s', WithDial(srv), AtServer(srv))
  {
  }

  lemma ShutPlaces(s: State, a: Action)
    requires Enabled(s, a) && (a.CloseFailed? || a.Discard?)
    ensures var s', x := Next(s, a), s.dials[a.srv].session;
            && s'.made == s.made && In(s, WithDial(a.srv)) == Some(x) && In(s', WithDial(a.srv)).None?
            && Elsewhere(s, s', WithDial(a.srv), WithDial(a.srv))
            && forall y: Session :: Closes(s', y) == Closes(s, y) + if y == x then 1 else 0
  {
  }

  lemma MarkPlaces(s: State, g: Id, srv: Server)
    requires Enabled(s, MarkDead(g, srv))
    ensures var s' := Next(s, MarkDead(g, srv));
            && s'.made == s.made && s'.closes == s.closes
            && In(s, InHand(g)).None? && In(s', AtServer(srv)).None? && In(s', InHand(g)) == In(s, AtServer(srv))
            && Elsewhere(s, s', AtServer(srv), InHand(g))
  {
  }

  lemma CloseDeadPlaces(s: State, g: Id)
    requires Enabled(s, CloseDead(g))
    ensures var s', x := Next(s, CloseDead(g)), s.hands[g];
            && s'.made == s.made && In(s, InHand(g)) == Some(x) && In(s', InHand(g)).None?
            && Elsewhere(s, s', InHand(g), InHand(g))
            && forall y: Session :: Closes(s', y) == Closes(s, y) + if y == x then 1 else 0
  {
  }

  predicate TakesUp(s: State) { s.closer.Sweeping? && s.closer.next < s.servers && s.closer.next in s.attached }

  lemma SweepPlaces(s: State)
    requires s.closer.Sweeping?
    ensures var s' := Swept(s);
            && s'.made == s.made && s'.closes == s.closes && In(s, WithCloser).None?
            && (if TakesUp(s) then
                  && In(s', AtServer(s.closer.next)).None? && In(s', WithCloser) == In(s, AtServer(s.closer.next))
                  && Elsewhere(s, s', AtServer(s.closer.next), WithCloser)
                else In(s', WithCloser) == In(s, WithCloser) && Elsewhere(s, s', WithCloser, WithCloser))
  {
  }

  lemma CloserPlaces(s: State)
    requires s.closer.Carrying?
    ensures var s', x := Next(s, CloseSwept), s.closer.session;
            && s'.made == s.made && In(s, WithCloser) == Some(x) && In(s', WithCloser).None?
            && Elsewhere(s, s', WithCloser, WithCloser)
            && forall y: Session :: Closes(s', y) == Closes(s, y) + if y == x then 1 else 0
  {
  }

  lemma StartClosePlaces(s: State)
    requires s.closer.NotStarted?
    ensures var s' := Next(s, StartClose);
            && s'.made == s.made && s'.closes == s.closes
            && In(s', WithCloser) == In(s, WithCloser) && Elsewhere(s, s', WithCloser, WithCloser)
  {
  }

  /** Whatever the step, every session keeps exactly one owner until it is closed. */
  lemma OwnersKeep(s: State, a: Action)
    requires OneOwner(s) && NoLeak(s) && DialsUnattached(s) && Enabled(s, a)
    ensures OneOwner(Next(s, a)) && NoLeak(Next(s, a))
  {
    var s' := Next(s, a);
    assert a.Commit? ==> !DialOf(s, a.srv).NoDial? && a.srv !in s.attached;
    assert a.Sweep? ==> s' == Swept(s) && s.closer.Sweeping?;
    assert a.CloseSwept? ==> s.closer.Carrying?;
    assert a.StartClose? ==> s.closer.NotStarted?;
    assert a.CloseFailed? || a.Discard? ==> a.srv in s.dials && (s.dials[a.srv].Failing? || s.dials[a.srv].Discarding?);
    assert a.CloseDead? ==> a.g in s.hands;
    assert a.Open? ==> a.session !in s.made && s'.closes == s.closes && s'.made == s.made + {a.session};
    hide OneOwner, NoLeak, DialsUnattached, Enabled, Next, In, Elsewhere, Closes;
    if a.Open? {
      OpenPlaces(s, a.srv, a.session);
      OpenOwned(s, s', WithDial(a.srv), a.session);
    } else if StaysWithDial(a) {
      DialPlaces(s, a);
      MoveKeeps(s, s', WithDial(a.srv), WithDial(a.srv));
    } else if a.Commit? {
      CommitPlaces(s, a.srv);
      MoveKeeps(s, s', WithDial(a.srv), AtServer(a.srv));
    } else if a.CloseFailed? || a.Discard? {
      var x := s.dials[a.srv].session;
      ShutPlaces(s, a);
      ShutKeeps(s, s', WithDial(a.srv), x);
    } else if a.MarkDead? {
      MarkPlaces(s, a.g, a.srv);
      MoveKeeps(s, s', AtServer(a.srv), InHand(a.g));
    } else if a.CloseDead? {
      var x := s.hands[a.g];
      CloseDeadPlaces(s, a.g);
      ShutKeeps(s, s', InHand(a.g), x);
    } else if a.StartClose? {
      StartClosePlaces(s);
      MoveKeeps(s, s', WithCloser, WithCloser);
    } else if a.Sweep? {
      SweepPlaces(s);
      if TakesUp(s) {
        MoveKeeps(s, s', AtServer(s.closer.next), WithCloser);
      } else {
        MoveKeeps(s, s', WithCloser, WithCloser);
      }
    } else {
      CloserPlaces(s);
      ShutKeeps(s, s', WithCloser, s.closer.session);
    }
    assert OneOwner(s') && NoLeak(s');
  }

  predicate IsDialStep(a: Action) { StaysWithDial(a) || a.Open? || a.CloseFailed? || a.Commit? || a.Discard? }

  /** Only a dial's own steps change where it is. */
  lemma DialsMove(s: State, a: Action)
    requires Enabled(s, a)
    ensures forall srv: Server | !IsDialStep(a) || srv != a.srv :: DialOf(Next(s, a), srv) == DialOf(s, srv)
    ensures Next(s, a).servers == s.servers
    ensures !a.Commit? ==> Next(s, a).attached.Keys <= s.attached.Keys
  {
  }

  /** A server being dialled keeps having no session. */
  lemma UnattachedStays(s: State, a: Action)
    requires DialsUnattached(s) && Enabled(s, a)
    ensures DialsUnattached(Next(s, a))
  {
    DialsMove(s, a);
  }

  /** A swept server is never given a session: the gate was down before its lock was last taken. */
  lemma SweptStays(s: State, a: Action)
    requires SweptClean(s) && Enabled(s, a)
    ensures SweptClean(Next(s, a))
  {
    DialsMove(s, a);
  }

  /** Every step of every goroutine keeps all sessions owned. */
  lemma StepKeeps(s: State, a: Action)
    requires Inv(s) && Enabled(s, a)
    ensures Inv(Next(s, a))
  {
    hide OneOwner, NoLeak, DialsUnattached, SweptClean, Enabled, Next;
    OwnersKeep(s, a);
    UnattachedStays(s, a);
    SweptStays(s, a);
    assert Inv(Next(s, a));
  }

  ghost predicate IsRun(s: State, run: seq<Action>)
    decreases |run|
  {
    run == [] || (Enabled(s, run[0]) && IsRun(Next(s, run[0]), run[1..]))
  }

  ghost function After(s: State, run: seq<Action>): State
    requires IsRun(s, run)
    decreases |run|
  {
    if run == [] then s else After(Next(s, run[0]), run[1..])
  }

  lemma {:induction false} RunKeeps(s: State, run: seq<Action>)
    requires Inv(s) && IsRun(s, run)
    ensures Inv(After(s, run))
    decreases |run|
  {
    hide Inv, Enabled, Next;
    if run != [] {
      StepKeeps(s, run[0]);
      RunKeeps(Next(s, run[0]), run[1..]);
    }
  }

  /**
   * In every state any interleaving reaches, a session ever opened is either open and held by exactly
   * one of: its server, its dialler, one goroutine marking it dead, the closer; or it has been closed
   * exactly once and is held by nobody.
   */
  lemma EverySessionOwned(s: State, run: seq<Action>, x: Session)
    requires Start(s) && IsRun(s, run)
    ensures var t := After(s, run);
            && (x in t.made ==> (Closes(t, x) == 0 && Owned(t, x)) || (Closes(t, x) == 1 && !Owned(t, x)))
            && (forall p, q | In(t, p) == Some(x) && In(t, q) == Some(x) :: p == q)
  {
    StartInv(s);
    RunKeeps(s, run);
  }

  /** Nobody is in the middle of anything. */
  ghost predicate AtRest(s: State) {
    s.hands == map[] && forall srv: Server :: DialOf(s, srv).NoDial?
  }

  /** Once Close and every dial that was in flight have ended, nothing is attached and everything opened is closed, once. */
  lemma NothingLeftOpen(s: State, run: seq<Action>, x: Session)
    requires Start(s) && IsRun(s, run) && After(s, run).closer.Finished? && AtRest(After(s, run))
    ensures var t := After(s, run);
            t.attached == map[] && (x in t.made ==> Closes(t, x) == 1)
  {
    StartInv(s);
    RunKeeps(s, run);
    var t := After(s, run);
    assert forall srv: Server | srv in t.attached :: srv < t.servers && PastSweep(t.closer, srv);
    assert t.attached == map[];
    assert forall p :: In(t, p).None?;
    assert !Owned(t, x);
  }

  /** After Close, a server the sweep has passed never gets a session again. */
  lemma GateHolds(s: State, a: Action, srv: Server)
    requires Inv(s) && Enabled(s, a) && srv < s.servers && PastSweep(s.closer, srv)
    ensures srv !in Next(s, a).attached && PastSweep(Next(s, a).closer, srv) && Next(s, a).servers == s.servers
  {
    StepKeeps(s, a);
  }

  // ---------------------------------------------------------------------------------------------
  // The critical sections themselves.

  /** One server's slot. In each method the effect is compared with the step of the protocol it is. */
  class ServerConn {
    const srv: Server
    var session: Option<Session>

    constructor (srv: Server)
      ensures this.srv == srv
      ensures forall s | Start(s) :: Stands(s)
    {
      this.srv := srv;
      session := None;
    }

    /** The slot is what the protocol says is attached to this server. */
    ghost predicate Stands(s: State)
      reads this
    {
      session == In(s, AtServer(srv))
    }

    /** What markDead and Close do under the lock: the session goes to whoever took it, and to nobody else. */
    method Detach() returns (taken: Option<Session>)
      modifies this
      ensures forall s, g | In(s, AtServer(srv)) == old(session) && Enabled(s, MarkDead(g, srv)) ::
                Stands(Next(s, MarkDead(g, srv))) && taken == In(Next(s, MarkDead(g, srv)), InHand(g))
      ensures forall s | In(s, AtServer(srv)) == old(session) && s.closer == Sweeping(srv) && srv < s.servers ::
                Stands(Swept(s)) && taken == In(Swept(s), WithCloser)
      ensures old(session).None? ==> taken.None? && session.None?
    {
      taken := session;
      session := None;
    }

    /**
     * The end of dial under the lock, with the gate looked at there: past an open gate it is the commit
     * of what was dialled, past a closed one the dialler is left with what it must close.
     */
    method Publish(closing: bool, result: Option<Session>) returns (discard: Option<Session>)
      modifies this
      ensures !closing ==> discard == None
      ensures forall s | In(s, AtServer(srv)) == old(session) && DialOf(s, srv) == Committing(result) && !closing ::
                Stands(Next(s, Commit(srv)))
      ensures forall s | In(s, AtServer(srv)) == old(session) && DialOf(s, srv) == Returned(result) && Closing(s) && closing ::
                Stands(Next(s, CheckGate(srv))) && discard == In(Next(s, CheckGate(srv)), WithDial(srv))
    {
      if closing {
        return result;
      }
      session := result;
      discard := None;
    }
  }
}
