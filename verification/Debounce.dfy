/**
 * The debounced backfill of mentions (workspace/mention.go): per group one goroutine, and a flag that
 * makes it run again when somebody asked while it was running.
 */
module Debounce {

  datatype Flags = Flags(queued: bool, again: bool)

  function Asked(f: Flags): Flags { if f.queued then f.(again := true) else f.(queued := true) }

  function Cleared(f: Flags): Flags { f.(again := false) }

  predicate GoesOn(f: Flags, cancelled: bool) { f.again && !cancelled }

  function Ended(f: Flags, cancelled: bool): Flags { if GoesOn(f, cancelled) then f else f.(queued := false) }

  class Workspace {
    var mentionQueued: map<string, bool>
    var mentionAgain: map<string, bool>

    constructor ()
      ensures mentionQueued == map[] && mentionAgain == map[]
    {
      mentionQueued, mentionAgain := map[], map[];
    }

    function FlagsOf(group: string): Flags
      reads this
    {
      Flags(group in mentionQueued && mentionQueued[group], group in mentionAgain && mentionAgain[group])
    }

    /** True: the caller starts the group's goroutine. Other groups are left alone. */
    method Schedule(group: string) returns (start: bool)
      modifies this
      ensures group == "" ==> !start && FlagsOf(group) == old(FlagsOf(group))
      ensures group != "" ==> FlagsOf(group) == Asked(old(FlagsOf(group))) && start == !old(FlagsOf(group)).queued
      ensures forall other | other != group :: FlagsOf(other) == old(FlagsOf(other))
    {
      if group == "" {
        return false;
      }
      if group in mentionQueued && mentionQueued[group] {
        mentionAgain := mentionAgain[group := true];
        return false;
      }
      mentionQueued := mentionQueued[group := true];
      start := true;
    }

    method ClearAgain(group: string)
      modifies this
      ensures FlagsOf(group) == Cleared(old(FlagsOf(group)))
      ensures forall other | other != group :: FlagsOf(other) == old(FlagsOf(other))
    {
      mentionAgain := mentionAgain[group := false];
    }

    method EndPass(group: string, cancelled: bool) returns (again: bool)
      modifies this
      ensures again == GoesOn(old(FlagsOf(group)), cancelled)
      ensures FlagsOf(group) == Ended(old(FlagsOf(group)), cancelled)
      ensures forall other | other != group :: FlagsOf(other) == old(FlagsOf(other))
    {
      again := group in mentionAgain && mentionAgain[group] && !cancelled;
      if !again {
        mentionQueued := mentionQueued - {group};
      }
    }
  }

  // ---------------------------------------------------------------------------------------------
  // One group: callers, and the goroutines they start.

  type Id = nat

  /** About to clear the flag, about to begin a pass, in a pass. */
  datatype Phase = Starting | Ready | Passing

  datatype Event = Call | Pass

  datatype State = State(flags: Flags, workers: map<Id, Phase>, cancelled: bool, events: seq<Event>)

  datatype Action = Ask(w: Id) | Clear(w: Id) | Begin(w: Id) | End(w: Id) | Cancel

  predicate At(s: State, w: Id, phase: Phase) { w in s.workers && s.workers[w] == phase }

  predicate Enabled(s: State, a: Action) {
    match a
    case Ask(w) => w !in s.workers
    case Clear(w) => At(s, w, Starting)
    case Begin(w) => At(s, w, Ready)
    case End(w) => At(s, w, Passing)
    case Cancel => true
  }

  /** A pass that begins after cancellation does nothing, and does not count. */
  function Next(s: State, a: Action): State
    requires Enabled(s, a)
  {
    match a
    case Ask(w) =>
      s.(flags := Asked(s.flags), events := s.events + [Call],
         workers := if s.flags.queued then s.workers else s.workers[w := Starting])
    case Clear(w) => s.(flags := Cleared(s.flags), workers := s.workers[w := Ready])
    case Begin(w) =>
      s.(workers := s.workers[w := Passing], events := if s.cancelled then s.events else s.events + [Pass])
    case End(w) =>
      s.(flags := Ended(s.flags, s.cancelled),
         workers := if GoesOn(s.flags, s.cancelled) then s.workers[w := Starting] else s.workers - {w})
    case Cancel => s.(cancelled := true)
  }

  /** Some call has not been followed by a pass yet. */
  predicate Waiting(events: seq<Event>) {
    events != [] && events[|events| - 1].Call?
  }

  ghost predicate Inv(s: State) {
    && (s.flags.queued <==> s.workers != map[])
    && (forall v, w | v in s.workers && w in s.workers :: v == w)
    && (Waiting(s.events) && !s.cancelled ==> Coming(s))
  }

  /** A goroutine is on its way to a pass, or has been told to go round again. */
  ghost predicate Coming(s: State) {
    exists w :: w in s.workers && (s.workers[w].Passing? ==> s.flags.again)
  }

  lemma StepKeeps(s: State, a: Action)
    requires Inv(s) && Enabled(s, a)
    ensures Inv(Next(s, a))
  {
    var s' := Next(s, a);
    if a.Ask? {
      if s.flags.queued {
        var w :| w in s.workers;
        assert w in s'.workers && s'.flags.again;
      } else {
        assert a.w in s'.workers && s'.workers[a.w].Starting?;
      }
    } else if a.Cancel? {
    } else {
      assert a.w in s.workers;
      if a.End? && !GoesOn(s.flags, s.cancelled) {
        assert s'.workers == map[];
      } else {
        assert a.w in s'.workers;
      }
    }
  }

  ghost predicate IsRun(s: State, run: seq<Action>)
    decreases |run|
  {
    run == [] || (Enabled(s, run[0]) && IsRun(Next(s, run[0]), run[1..]))
  }

  ghost function After(s: State, run: seq<Action>): State
    requires IsRun(s, run)
    decreases |run|
  {
    if run == [] then s else After(Next(s, run[0]), run[1..])
  }

  predicate Start(s: State) { s == State(Flags(false, false), map[], s.cancelled, []) }

  lemma {:induction false} RunKeeps(s: State, run: seq<Action>)
    requires Inv(s) && IsRun(s, run)
    ensures Inv(After(s, run))
    decreases |run|
  {
    if run != [] {
      StepKeeps(s, run[0]);
      RunKeeps(Next(s, run[0]), run[1..]);
    }
  }

  /**
   * Whoever calls and however the steps interleave: one goroutine at most; and once it has gone, every
   * call has been followed by a pass that began after it, unless the context was cancelled.
   */
  lemma NoRequestLost(s: State, run: seq<Action>, i: nat)
    requires Start(s) && IsRun(s, run)
    ensures var t := After(s, run);
            && (forall v, w | v in t.workers && w in t.workers :: v == w)
            && (t.workers == map[] && !t.cancelled && i < |t.events| && t.events[i].Call? ==>
                  exists j :: i < j < |t.events| && t.events[j].Pass?)
  {
    RunKeeps(s, run);
    var t := After(s, run);
    if t.workers == map[] && !t.cancelled && i < |t.events| && t.events[i].Call? {
      assert !Waiting(t.events);
      assert t.events[|t.events| - 1].Pass?;
    }
  }

  /** How many more steps of its own the goroutine takes before a pass begins. */
  function StepsToPass(phase: Phase): nat {
    match phase
    case Passing => 3
    case Starting => 2
    case Ready => 1
  }

  /**
   * And it does come: with a call outstanding, each step of the goroutine either begins a pass or
   * brings it one step closer, and nobody else's step takes it further away.
   */
  lemma PassComes(s: State, a: Action, w: Id)
    requires Inv(s) && Enabled(s, a) && Waiting(s.events) && !s.cancelled && !a.Cancel? && w in s.workers
    ensures var s' := Next(s, a);
            || s'.events == s.events + [Pass]
            || (w in s'.workers && (if a.Ask? then StepsToPass(s'.workers[w]) == StepsToPass(s.workers[w])
                                    else StepsToPass(s'.workers[w]) < StepsToPass(s.workers[w])))
  {
    assert Coming(s);
  }
}
