/**
 * The throttle on unprompted replies (speech/proactive.go): per group one worker, one slot for the
 * newest candidate, a cooldown after replies, an interval between judgements, and a streak counter.
 *
 * Each registry call is one atomic step under the mutex, with the time its caller passes in.
 */
module Throttle {
  import opened Clocks
  import opened Options

  type Candidate = nat

  const SILENCE_RESET := 5 * 60 * SECOND

  datatype Config = Config(maxStreak: int, cooldown: int, judgeEvery: int)

  datatype Group = Group(
    running: bool,
    pending: Option<Candidate>,
    lastJudgeAt: Option<int>,
    lastReplyAt: Option<int>,
    streak: nat,
    lastActive: Option<int>)

  const NEW_GROUP := Group(false, None, None, None, 0, None)

  /** Time has passed since `at`, if it ever was, plus the wait. */
  predicate Over(at: Option<int>, wait: int, now: int) { at.None? || at.value + wait <= now }

  predicate MayJudge(g: Group, cfg: Config, now: int) {
    g.streak < cfg.maxStreak && Over(g.lastReplyAt, cfg.cooldown, now) && Over(g.lastJudgeAt, cfg.judgeEvery, now)
  }

  /** Any activity counts; after a long silence the topic is a new one. */
  function Touched(g: Group, now: int): Group {
    var quiet := g.lastActive.Some? && now - g.lastActive.value > SILENCE_RESET;
    g.(streak := if quiet then 0 else g.streak, lastActive := Some(now))
  }

  function Enqueued(g: Group, cand: Candidate, cfg: Config, now: int): Group {
    var h := Touched(g, now);
    if h.running then h.(pending := Some(cand))
    else if MayJudge(h, cfg, now) then h.(running := true, pending := Some(cand))
    else h
  }

  predicate Starts(g: Group, cfg: Config, now: int) {
    !g.running && MayJudge(Touched(g, now), cfg, now)
  }

  datatype Taken = Leave | Drop | Judge(cand: Candidate)

  function Takes(g: Group, cfg: Config, now: int): Taken {
    if g.pending.None? then Leave
    else if MayJudge(Touched(g, now), cfg, now) then Judge(g.pending.value)
    else Drop
  }

  function AfterNext(g: Group, cfg: Config, now: int): Group {
    var h := Touched(g, now).(pending := None);
    match Takes(g, cfg, now)
    case Leave => h.(running := false)
    case Drop => h
    case Judge(_) => h.(lastJudgeAt := Some(now))
  }

  function Recorded(g: Group, now: int): Group { g.(lastReplyAt := Some(now), streak := g.streak + 1) }

  function Noted(g: Group, now: int): Group { g.(streak := 0, lastReplyAt := Some(now)) }

  function Abandoned(g: Group): Group { g.(running := false, pending := None) }

  type Groups = map<string, Group>

  function GroupOf(groups: Groups, id: string): Group {
    if id in groups then groups[id] else NEW_GROUP
  }

  class ProactiveRegistry {
    var groups: Groups

    constructor ()
      ensures groups == map[]
    {
      groups := map[];
    }

    /** True: no worker is running and the caller must start one. */
    method Enqueue(id: string, cand: Candidate, cfg: Config, now: int) returns (start: bool)
      modifies this
      ensures groups == old(groups)[id := Enqueued(GroupOf(old(groups), id), cand, cfg, now)]
      ensures start <==> Starts(GroupOf(old(groups), id), cfg, now)
    {
      var g := GroupOf(groups, id);
      if g.lastActive.Some? && now - g.lastActive.value > SILENCE_RESET {
        g := g.(streak := 0);
      }
      g := g.(lastActive := Some(now));
      if g.running {
        groups := groups[id := g.(pending := Some(cand))];
        return false;
      }
      groups := groups[id := g];
      if g.streak >= cfg.maxStreak {
        return false;
      }
      if g.lastReplyAt.Some? && g.lastReplyAt.value + cfg.cooldown > now {
        return false;
      }
      if g.lastJudgeAt.Some? && g.lastJudgeAt.value + cfg.judgeEvery > now {
        return false;
      }
      groups := groups[id := g.(running := true, pending := Some(cand))];
      start := true;
    }

    method Next(id: string, cfg: Config, now: int) returns (taken: Taken)
      modifies this
      ensures taken == Takes(GroupOf(old(groups), id), cfg, now)
      ensures groups == old(groups)[id := AfterNext(GroupOf(old(groups), id), cfg, now)]
    {
      var g := GroupOf(groups, id);
      if g.lastActive.Some? && now - g.lastActive.value > SILENCE_RESET {
        g := g.(streak := 0);
      }
      g := g.(lastActive := Some(now));
      var cand := g.pending;
      g := g.(pending := None);
      if cand.None? {
        groups := groups[id := g.(running := false)];
        return Leave;
      }
      if g.streak >= cfg.maxStreak || (g.lastReplyAt.Some? && g.lastReplyAt.value + cfg.cooldown > now)
         || (g.lastJudgeAt.Some? && g.lastJudgeAt.value + cfg.judgeEvery > now) {
        groups := groups[id := g];
        return Drop;
      }
      groups := groups[id := g.(lastJudgeAt := Some(now))];
      taken := Judge(cand.value);
    }

    method RecordReply(id: string, now: int)
      modifies this
      ensures groups == old(groups)[id := Recorded(GroupOf(old(groups), id), now)]
    {
      var g := GroupOf(groups, id);
      groups := groups[id := g.(lastReplyAt := Some(now), streak := g.streak + 1)];
    }

    method NoteDirect(id: string, now: int)
      modifies this
      ensures groups == old(groups)[id := Noted(GroupOf(old(groups), id), now)]
    {
      groups := groups[id := GroupOf(groups, id).(streak := 0, lastReplyAt := Some(now))];
    }

    method Abandon(id: string)
      modifies this
      ensures groups == old(groups)[id := Abandoned(GroupOf(old(groups), id))]
    {
      groups := groups[id := GroupOf(groups, id).(running := false, pending := None)];
    }
  }

  // ---------------------------------------------------------------------------------------------
  // One group, any number of goroutines.

  type Id = nat

  /** A worker looping, just out of next, judging, or having delivered a reply it has not recorded yet. */
  datatype Phase = Looping | Got(taken: Taken) | Judging | Delivered

  datatype Event = Judged(at: int) | Replied(at: int)

  datatype State = State(group: Group, workers: map<Id, Phase>, clock: int, events: seq<Event>)

  datatype Action =
    | Submit(w: Id, cand: Candidate)
    | Take(w: Id)
    | Proceed(w: Id)
    | GiveUp(w: Id)
    | Decline(w: Id)
    | Deliver(w: Id)
    | Record(w: Id)
    | Panic(w: Id)
    | Direct

  predicate At(s: State, w: Id, phase: Phase) { w in s.workers && s.workers[w] == phase }

  /** `w` is the goroutine a submission starts if it starts one. */
  predicate Enabled(s: State, a: Action, now: int) {
    s.clock <= now &&
    match a
    case Submit(w, _) => w !in s.workers
    case Take(w) => At(s, w, Looping)
    case Proceed(w) => w in s.workers && s.workers[w].Got?
    case GiveUp(w) => w in s.workers && s.workers[w].Got?
    case Decline(w) => At(s, w, Judging)
    case Deliver(w) => At(s, w, Judging)
    case Record(w) => At(s, w, Delivered)
    case Panic(w) => w in s.workers
    case Direct => true
  }

  function Effect(s: State, a: Action, cfg: Config, now: int): State
    requires Enabled(s, a, now)
  {
    match a
    case Submit(w, cand) =>
      s.(group := Enqueued(s.group, cand, cfg, now),
         workers := if Starts(s.group, cfg, now) then s.workers[w := Looping] else s.workers)
    case Take(w) =>
      var taken := Takes(s.group, cfg, now);
      s.(group := AfterNext(s.group, cfg, now),
         workers := if taken.Leave? then s.workers - {w} else s.workers[w := Got(taken)],
         events := if taken.Judge? then s.events + [Judged(now)] else s.events)
    case Proceed(w) => s.(workers := s.workers[w := if s.workers[w].taken.Judge? then Judging else Looping])
    case GiveUp(w) => s.(group := Abandoned(s.group), workers := s.workers - {w})
    case Decline(w) => s.(workers := s.workers[w := Looping])
    case Deliver(w) =>
      s.(group := Noted(s.group, now), workers := s.workers[w := Delivered], events := s.events + [Replied(now)])
    case Record(w) =>
      s.(group := Recorded(s.group, now), workers := s.workers[w := Looping], events := s.events + [Replied(now)])
    case Panic(w) => s.(group := Abandoned(s.group), workers := s.workers - {w})
    case Direct => s.(group := Noted(s.group, now), events := s.events + [Replied(now)])
  }

  function Step(s: State, a: Action, cfg: Config, now: int): State
    requires Enabled(s, a, now)
  {
    Effect(s, a, cfg, now).(clock := now)
  }

  /** The group is marked running exactly while a worker exists, and there is at most one. */
  ghost predicate OneWorker(s: State) {
    && (s.group.running <==> s.workers != map[])
    && (forall v, w | v in s.workers && w in s.workers :: v == w)
    && (s.group.pending.Some? ==> s.group.running)
  }

  predicate NotAfter(at: Option<int>, clock: int) { at.None? || at.value <= clock }

  /** The group's two times are the latest judgement and the latest reply, and all are in the past. */
  ghost predicate TimesKept(s: State) {
    && NotAfter(s.group.lastJudgeAt, s.clock) && NotAfter(s.group.lastReplyAt, s.clock)
    && (forall i | 0 <= i < |s.events| && s.events[i].Judged? ::
          s.group.lastJudgeAt.Some? && s.events[i].at <= s.group.lastJudgeAt.value)
    && (forall i | 0 <= i < |s.events| && s.events[i].Replied? ::
          s.group.lastReplyAt.Some? && s.events[i].at <= s.group.lastReplyAt.value)
  }

  /** Every judgement starts an interval after every earlier one, and a cooldown after every earlier reply. */
  ghost predicate Spaced(events: seq<Event>, cfg: Config) {
    forall i, j | 0 <= i < j < |events| && events[j].Judged? ::
      events[i].at + (if events[i].Judged? then cfg.judgeEvery else cfg.cooldown) <= events[j].at
  }

  /** A worker that has been let through. */
  predicate Committed(phase: Phase) {
    phase.Judging? || phase.Delivered? || (phase.Got? && phase.taken.Judge?)
  }

  /** Delivering clears the streak, so recording finds it clear: it never gets past one. */
  ghost predicate StreakSmall(s: State, cfg: Config) {
    && s.group.streak <= 1
    && (s.group.streak > 0 ==> cfg.maxStreak >= 1)
    && (forall w | w in s.workers && Committed(s.workers[w]) :: cfg.maxStreak >= 1)
    && (forall w | w in s.workers && s.workers[w].Delivered? :: s.group.streak == 0)
  }

  ghost predicate Inv(s: State, cfg: Config) {
    OneWorker(s) && TimesKept(s) && Spaced(s.events, cfg) && StreakSmall(s, cfg)
  }

  lemma JudgeSpaced(s: State, cfg: Config, now: int)
    requires TimesKept(s) && Spaced(s.events, cfg) && s.clock <= now
    requires MayJudge(Touched(s.group, now), cfg, now)
    ensures Spaced(s.events + [Judged(now)], cfg)
  {
  }

  lemma WorkersStay(s: State, a: Action, cfg: Config, now: int)
    requires Inv(s, cfg) && Enabled(s, a, now)
    ensures OneWorker(Step(s, a, cfg, now))
  {
    if a.Submit? {
      if Starts(s.group, cfg, now) {
        assert a.w in Step(s, a, cfg, now).workers;
      }
    } else if !a.Direct? {
      assert a.w in s.workers;
      if !a.Take? && !a.GiveUp? && !a.Panic? {
        assert a.w in Step(s, a, cfg, now).workers;
      }
    }
  }

  lemma TimesStay(s: State, a: Action, cfg: Config, now: int)
    requires Inv(s, cfg) && Enabled(s, a, now)
    ensures TimesKept(Step(s, a, cfg, now)) && Spaced(Step(s, a, cfg, now).events, cfg)
  {
    if a.Take? && Takes(s.group, cfg, now).Judge? {
      JudgeSpaced(s, cfg, now);
    }
  }

  lemma StreakStays(s: State, a: Action, cfg: Config, now: int)
    requires Inv(s, cfg) && Enabled(s, a, now)
    ensures StreakSmall(Step(s, a, cfg, now), cfg)
  {
  }

  ghost predicate IsRun(s: State, run: seq<(Action, int)>, cfg: Config)
    decreases |run|
  {
    run == [] || (Enabled(s, run[0].0, run[0].1) && IsRun(Step(s, run[0].0, cfg, run[0].1), run[1..], cfg))
  }

  ghost function After(s: State, run: seq<(Action, int)>, cfg: Config): State
    requires IsRun(s, run, cfg)
    decreases |run|
  {
    if run == [] then s else After(Step(s, run[0].0, cfg, run[0].1), run[1..], cfg)
  }

  predicate Start(s: State) { s.group == NEW_GROUP && s.workers == map[] && s.events == [] }

  lemma {:induction false} RunKeeps(s: State, run: seq<(Action, int)>, cfg: Config)
    requires Inv(s, cfg) && IsRun(s, run, cfg)
    ensures Inv(After(s, run, cfg), cfg)
    decreases |run|
  {
    if run != [] {
      hide OneWorker, TimesKept, Spaced, StreakSmall, Enabled, Step;
      WorkersStay(s, run[0].0, cfg, run[0].1);
      TimesStay(s, run[0].0, cfg, run[0].1);
      StreakStays(s, run[0].0, cfg, run[0].1);
      RunKeeps(Step(s, run[0].0, cfg, run[0].1), run[1..], cfg);
    }
  }

  /**
   * Throttle safety, for any interleaving on a clock that does not go back: one worker at most;
   * judgements at least JudgeEvery apart and at least Cooldown after every earlier reply; the streak
   * never above MaxStreak.
   */
  lemma ThrottleSafe(s: State, run: seq<(Action, int)>, cfg: Config)
    requires Start(s) && IsRun(s, run, cfg)
    ensures var t := After(s, run, cfg);
            && (forall v, w | v in t.workers && w in t.workers :: v == w)
            && (forall i, j | 0 <= i < j < |t.events| && t.events[j].Judged? ::
                  t.events[i].at + (if t.events[i].Judged? then cfg.judgeEvery else cfg.cooldown) <= t.events[j].at)
            && (t.group.streak == 0 || t.group.streak <= cfg.maxStreak)
  {
    RunKeeps(s, run, cfg);
  }

  /** With a limit of two or more the streak stops nobody: what the other two limits allow is always allowed. */
  lemma StreakNeverBlocks(s: State, run: seq<(Action, int)>, cfg: Config, now: int)
    requires Start(s) && IsRun(s, run, cfg) && cfg.maxStreak >= 2
    ensures var g := Touched(After(s, run, cfg).group, now);
            MayJudge(g, cfg, now) <==> Over(g.lastReplyAt, cfg.cooldown, now) && Over(g.lastJudgeAt, cfg.judgeEvery, now)
  {
    RunKeeps(s, run, cfg);
  }

  /** A worker leaves through next only with an empty slot, and what it takes is the newest candidate submitted. */
  lemma NothingLeftBehind(g: Group, cand: Candidate, cfg: Config, submitted: int, now: int)
    requires g.running
    ensures !Takes(Enqueued(g, cand, cfg, submitted), cfg, now).Leave?
    ensures var taken := Takes(Enqueued(g, cand, cfg, submitted), cfg, now); taken.Judge? ==> taken.cand == cand
    ensures AfterNext(g, cfg, now).running <==> g.pending.Some?
  {
  }

  // ---------------------------------------------------------------------------------------------
  // What the streak limit does.

  /** A long silence, after which the streak starts again. */
  predicate Quiet(g: Group, now: int) { g.lastActive.Some? && now - g.lastActive.value > SILENCE_RESET }

  /** The run goes from `s` to `t` without a reply to anybody in particular and without a long silence. */
  ghost predicate Leads(s: State, run: seq<(Action, int)>, t: State, cfg: Config)
    decreases |run|
  {
    if run == [] then s == t
    else
      && Enabled(s, run[0].0, run[0].1) && !run[0].0.Direct? && !Quiet(s.group, run[0].1)
      && Leads(Step(s, run[0].0, cfg, run[0].1), run[1..], t, cfg)
  }

  /** How many unprompted replies a run records. */
  function Replies(run: seq<(Action, int)>): nat {
    if run == [] then 0 else (if run[0].0.Record? then 1 else 0) + Replies(run[1..])
  }

  lemma {:induction false} LeadsIsRun(s: State, run: seq<(Action, int)>, t: State, cfg: Config)
    requires Leads(s, run, t, cfg)
    ensures IsRun(s, run, cfg) && After(s, run, cfg) == t
    decreases |run|
  {
    hide Enabled, Step;
    if run != [] {
      LeadsIsRun(Step(s, run[0].0, cfg, run[0].1), run[1..], t, cfg);
    }
  }

  lemma StepLeads(s: State, a: Action, now: int, rest: seq<(Action, int)>, t: State, cfg: Config)
    requires Enabled(s, a, now) && !a.Direct? && !Quiet(s.group, now) && Leads(Step(s, a, cfg, now), rest, t, cfg)
    ensures Leads(s, [(a, now)] + rest, t, cfg)
    ensures Replies([(a, now)] + rest) == Replies(rest) + if a.Record? then 1 else 0
  {
    assert ([(a, now)] + rest)[1..] == rest;
  }

  lemma {:induction false} LeadsOn(s: State, a: seq<(Action, int)>, t: State, b: seq<(Action, int)>, u: State, cfg: Config)
    requires Leads(s, a, t, cfg) && Leads(t, b, u, cfg)
    ensures Leads(s, a + b, u, cfg) && Replies(a + b) == Replies(a) + Replies(b)
    decreases |a|
  {
    hide Enabled, Step, Quiet;
    if a == [] {
      assert a + b == b;
    } else {
      LeadsOn(Step(s, a[0].0, cfg, a[0].1), a[1..], t, b, u, cfg);
      assert (a + b)[1..] == a[1..] + b;
    }
  }

  /** Nobody at work; judged, answered and counted once at `base`, last active at `last`. */
  predicate Resting(s: State, base: int, last: int) {
    && s.workers == map[] && s.clock == last
    && s.group == Group(false, None, Some(base), Some(base), 1, Some(last))
  }

  /** A worker is started, is let through, replies, and finds nothing more to do, all at one moment. */
  lemma OneReply(s: State, now: int, cfg: Config) returns (run: seq<(Action, int)>, t: State)
    requires s.workers == map[] && !s.group.running && s.clock <= now && !Quiet(s.group, now)
    requires MayJudge(Touched(s.group, now), cfg, now)
    ensures Leads(s, run, t, cfg) && Replies(run) == 1 && Resting(t, now, now)
  {
    var s1 := Step(s, Submit(0, 0), cfg, now);
    var s2 := Step(s1, Take(0), cfg, now);
    var s3 := Step(s2, Proceed(0), cfg, now);
    var s4 := Step(s3, Deliver(0), cfg, now);
    var s5 := Step(s4, Record(0), cfg, now);
    t := Step(s5, Take(0), cfg, now);
    assert t.workers == map[];
    hide Step, Quiet, MayJudge, Touched;
    run := [];
    StepLeads(s5, Take(0), now, run, t, cfg);
    run := [(Take(0), now)] + run;
    StepLeads(s4, Record(0), now, run, t, cfg);
    run := [(Record(0), now)] + run;
    StepLeads(s3, Deliver(0), now, run, t, cfg);
    run := [(Deliver(0), now)] + run;
    StepLeads(s2, Proceed(0), now, run, t, cfg);
    run := [(Proceed(0), now)] + run;
    StepLeads(s1, Take(0), now, run, t, cfg);
    run := [(Take(0), now)] + run;
    StepLeads(s, Submit(0, 0), now, run, t, cfg);
    run := [(Submit(0, 0), now)] + run;
  }

  /** People go on talking, just often enough, and are not answered. */
  lemma {:induction false} Chatter(s: State, base: int, last: int, k: nat, cfg: Config)
      returns (run: seq<(Action, int)>, t: State)
    requires Resting(s, base, last)
    requires k == 0 || cfg.maxStreak <= 1 || last + k * SILENCE_RESET < base + cfg.cooldown
             || last + k * SILENCE_RESET < base + cfg.judgeEvery
    ensures Leads(s, run, t, cfg) && Replies(run) == 0 && Resting(t, base, last + k * SILENCE_RESET)
    decreases k
  {
    if k == 0 {
      run, t := [], s;
    } else {
      var now := last + SILENCE_RESET;
      assert now + (k - 1) * SILENCE_RESET == last + k * SILENCE_RESET >= now;
      var s1 := Step(s, Submit(0, 0), cfg, now);
      assert Resting(s1, base, now);
      run, t := Chatter(s1, base, now, k - 1, cfg);
      StepLeads(s, Submit(0, 0), now, run, t, cfg);
      run := [(Submit(0, 0), now)] + run;
    }
  }

  /** How often somebody has to speak for the topic to last until a moment `wait` later. */
  function Often(wait: int): nat { if wait <= 0 then 0 else (wait - 1) / SILENCE_RESET }

  lemma OftenEnough(wait: int)
    ensures var k := Often(wait);
            (wait > 0 ==> k * SILENCE_RESET < wait) && wait <= k * SILENCE_RESET + SILENCE_RESET
  {
  }

  function LongerWait(cfg: Config): int { if cfg.cooldown >= cfg.judgeEvery then cfg.cooldown else cfg.judgeEvery }

  /** The time when both other limits are over for a group resting since `base`. */
  function Due(base: int, cfg: Config): int { base + if LongerWait(cfg) >= 0 then LongerWait(cfg) else 0 }

  lemma UntilDue(s: State, base: int, cfg: Config) returns (run: seq<(Action, int)>, t: State)
    requires Resting(s, base, base)
    ensures Leads(s, run, t, cfg) && Replies(run) == 0
    ensures t.workers == map[] && !t.group.running && t.clock <= Due(base, cfg) && !Quiet(t.group, Due(base, cfg))
    ensures t.group.streak == 1 && t.group.lastReplyAt == t.group.lastJudgeAt == Some(base)
  {
    var wait := LongerWait(cfg);
    OftenEnough(wait);
    hide Often, Leads, Replies;
    run, t := Chatter(s, base, base, if wait <= 0 then 0 else Often(wait), cfg);
  }

  lemma DueIsOver(base: int, cfg: Config)
    ensures Over(Some(base), cfg.cooldown, Due(base, cfg)) && Over(Some(base), cfg.judgeEvery, Due(base, cfg))
  {
  }

  /** However many replies: with a limit of two or more there is one more to come. */
  lemma {:induction false} RepliesInARow(s: State, m: nat, cfg: Config)
      returns (run: seq<(Action, int)>, t: State, base: int)
    requires Start(s) && cfg.maxStreak >= 2 && m >= 1
    ensures Leads(s, run, t, cfg) && Replies(run) == m && Resting(t, base, base)
  {
    if m == 1 {
      base := s.clock;
      run, t := OneReply(s, base, cfg);
    } else {
      var before, u, last := RepliesInARow(s, m - 1, cfg);
      var wait, v := UntilDue(u, last, cfg);
      DueIsOver(last, cfg);
      hide Leads, Replies, Due;
      base := Due(last, cfg);
      var again;
      again, t := OneReply(v, base, cfg);
      LeadsOn(s, before, u, wait, v, cfg);
      LeadsOn(s, before + wait, v, again, t, cfg);
      run := before + wait + again;
    }
  }

  /** With a limit of at most one: what holds after `replies` recorded ones, in a topic that goes on. */
  ghost predicate AtMostOne(s: State, replies: nat, cfg: Config) {
    && Inv(s, cfg) && (replies > 0 ==> cfg.maxStreak >= 1)
    && (replies == 0 || (replies == 1 && s.group.streak == 1 && forall w | w in s.workers :: !Committed(s.workers[w])))
  }

  lemma HeldStep(s: State, a: Action, now: int, replies: nat, cfg: Config)
    requires AtMostOne(s, replies, cfg) && cfg.maxStreak <= 1
    requires Enabled(s, a, now) && !a.Direct? && !Quiet(s.group, now)
    ensures AtMostOne(Step(s, a, cfg, now), replies + (if a.Record? then 1 else 0), cfg)
  {
    WorkersStay(s, a, cfg, now);
    TimesStay(s, a, cfg, now);
    StreakStays(s, a, cfg, now);
    hide TimesKept, Spaced;
  }

  lemma {:induction false} HeldRun(s: State, run: seq<(Action, int)>, t: State, replies: nat, cfg: Config)
    requires AtMostOne(s, replies, cfg) && cfg.maxStreak <= 1 && Leads(s, run, t, cfg)
    ensures AtMostOne(t, replies + Replies(run), cfg)
    decreases |run|
  {
    hide AtMostOne, Enabled, Step, Quiet;
    if run != [] {
      HeldStep(s, run[0].0, run[0].1, replies, cfg);
      HeldRun(Step(s, run[0].0, cfg, run[0].1), run[1..], t, replies + (if run[0].0.Record? then 1 else 0), cfg);
    }
  }

  /** More unprompted replies in a row than the limit says. */
  ghost predicate PassesLimit(s: State, run: seq<(Action, int)>, t: State, cfg: Config) {
    Start(s) && Leads(s, run, t, cfg) && Replies(run) > if cfg.maxStreak >= 0 then cfg.maxStreak else 0
  }

  /** The limit on replies in a row is kept exactly if it is at most one. */
  lemma StreakLimitKept(cfg: Config)
    ensures (forall s, run, t :: !PassesLimit(s, run, t, cfg)) <==> cfg.maxStreak <= 1
  {
    if cfg.maxStreak <= 1 {
      forall s, run, t
        ensures !PassesLimit(s, run, t, cfg)
      {
        hide Leads, Replies;
        if Start(s) && Leads(s, run, t, cfg) {
          HeldRun(s, run, t, 0, cfg);
        }
      }
    } else {
      var s := State(NEW_GROUP, map[], 0, []);
      var run, t, _ := RepliesInARow(s, cfg.maxStreak + 1, cfg);
      hide Leads, Replies;
      assert PassesLimit(s, run, t, cfg);
    }
  }

  /** Nothing but the streak forbids a judgement where the run leads. */
  ghost predicate StreakAlone(s: State, run: seq<(Action, int)>, now: int, cfg: Config) {
    && Start(s) && IsRun(s, run, cfg) && After(s, run, cfg).clock <= now
    && var g := Touched(After(s, run, cfg).group, now);
       !MayJudge(g, cfg, now) && Over(g.lastReplyAt, cfg.cooldown, now) && Over(g.lastJudgeAt, cfg.judgeEvery, now)
  }

  /** The streak limit ever makes a difference exactly if it is at most one. */
  lemma StreakBitesExactly(cfg: Config)
    ensures (exists s, run, now :: StreakAlone(s, run, now, cfg)) <==> cfg.maxStreak <= 1
  {
    if cfg.maxStreak >= 2 {
      forall s, run, now
        ensures !StreakAlone(s, run, now, cfg)
      {
        hide After, IsRun;
        if Start(s) && IsRun(s, run, cfg) {
          StreakNeverBlocks(s, run, cfg, now);
        }
      }
    } else if cfg.maxStreak <= 0 {
      assert StreakAlone(State(NEW_GROUP, map[], 0, []), [], 0, cfg);
    } else {
      var s := State(NEW_GROUP, map[], 0, []);
      var once, t := OneReply(s, 0, cfg);
      var wait, u := UntilDue(t, 0, cfg);
      LeadsOn(s, once, t, wait, u, cfg);
      LeadsIsRun(s, once + wait, u, cfg);
      DueIsOver(0, cfg);
      hide Leads, Replies, Due, IsRun, After;
      assert StreakAlone(s, once + wait, Due(0, cfg), cfg);
    }
  }
}
