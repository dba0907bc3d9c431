/**
 * The retry loop of process (pipeline/consumer.go), twice: as a method of the consumer and as the job a
 * worker of the node protocol works off step by step. Left to itself, the job makes the same calls.
 */
module Retries {
  import opened Items
  import opened Consumers
  import opened NodeProtocol

  /** The stage a handler call leaves behind, deliveries aside. */
  function Called(stage: Stage, failed: seq<Item>): Stage
    requires stage.Calling?
  {
    Sending(stage.burst, stage.job.(again := stage.job.again + failed), [])
  }

  function RoundsLeft(job: Job): nat { if job.round < job.retries then job.retries - job.round else 0 }

  /**
   * The calls a worker makes from this stage on, after the ones made so far, and what it dead-letters in
   * the end. `fails` and `stop` are as for process.
   */
  function JobRun(stage: Stage, calls: seq<seq<Item>>, fails: nat -> nat -> bool, stop: nat -> bool): Outcome
    requires stage.Calling? || stage.Sending?
    decreases RoundsLeft(stage.job), |stage.job.todo|, if stage.Calling? then 1 else 0
  {
    if stage.Calling? then
      JobRun(Called(stage, Select(stage.items, fails(|calls|))), calls + [stage.items], fails, stop)
    else
      var cancelled := stop(stage.job.round + 1);
      if GivesUp(stage, cancelled) then Outcome(calls, stage.job.again)
      else
        var next := AfterSending(stage, cancelled);
        if next.Draining? then Outcome(calls, []) else JobRun(next, calls, fails, stop)
  }

  /** These are the protocol's own steps. */
  lemma JobStepsAreSteps(n: Node, w: Id, failed: seq<Item>)
    requires At(n, w)
    ensures StageOf(n, w).Calling? ==> StageOf(HandledBatch(n, w, failed, []), w) == Called(StageOf(n, w), failed)
    ensures CanAfterCall(n, w) ==> StageOf(CallOver(n, w), w) == AfterSending(StageOf(n, w), n.cancelled)
    ensures CanAfterCall(n, w) && GivesUp(StageOf(n, w), n.cancelled) ==>
              CallOver(n, w).dead == Extend(n.dead, n.workers[w].key, StageOf(n, w).job.again)
  {
  }

  /** A retry round can be read from its first item on. */
  lemma {:induction false} RoundFromFront(failed: seq<Item>, calls: seq<seq<Item>>, fails: nat -> nat -> bool)
    requires failed != []
    ensures var again := [Bump(failed[0])];
            var rest := RetryRound(failed[1..], calls + [again], fails);
            RetryRound(failed, calls, fails) == Outcome(rest.calls, Select(again, fails(|calls|)) + rest.failed)
    decreases |failed|
  {
    hide RetryRound, Select, Bump;
    var n, again := |failed| - 1, [Bump(failed[0])];
    LastOfRound(failed, calls, fails);
    if n == 0 {
      EmptyRound(failed[..n], calls, fails);
      EmptyRound(failed[1..], calls + [again], fails);
      assert [] + Select(again, fails(|calls|)) == Select(again, fails(|calls|)) + [];
    } else {
      RoundFromFront(failed[..n], calls, fails);
      assert failed[1..][..n - 1] == failed[..n][1..];
      LastOfRound(failed[1..], calls + [again], fails);
      var rest := RetryRound(failed[1..][..n - 1], calls + [again], fails);
      var first, last := Select(again, fails(|calls|)), Select([Bump(failed[n])], fails(|rest.calls|));
      assert first + rest.failed + last == first + (rest.failed + last);
    }
  }

  lemma EmptyRound(failed: seq<Item>, calls: seq<seq<Item>>, fails: nat -> nat -> bool)
    requires failed == []
    ensures RetryRound(failed, calls, fails) == Outcome(calls, [])
  {
  }

  lemma LastOfRound(failed: seq<Item>, calls: seq<seq<Item>>, fails: nat -> nat -> bool)
    requires failed != []
    ensures var n := |failed| - 1;
            var r := RetryRound(failed[..n], calls, fails);
            RetryRound(failed, calls, fails) ==
              Outcome(r.calls + [[Bump(failed[n])]], r.failed + Select([Bump(failed[n])], fails(|r.calls|)))
  {
  }

  // One step of a job each.

  lemma RunCalls(burst: nat, job: Job, items: seq<Item>, calls: seq<seq<Item>>, fails: nat -> nat -> bool,
                 stop: nat -> bool)
    ensures JobRun(Calling(burst, job, items), calls, fails, stop) ==
            JobRun(Sending(burst, job.(again := job.again + Select(items, fails(|calls|))), []), calls + [items], fails, stop)
  {
  }

  lemma RunNext(burst: nat, job: Job, calls: seq<seq<Item>>, fails: nat -> nat -> bool, stop: nat -> bool)
    requires job.todo != []
    ensures JobRun(Sending(burst, job, []), calls, fails, stop) ==
            JobRun(Calling(burst, job.(todo := job.todo[1..]), [Bump(job.todo[0])]), calls, fails, stop)
  {
  }

  lemma RunAgain(burst: nat, job: Job, calls: seq<seq<Item>>, fails: nat -> nat -> bool, stop: nat -> bool)
    requires job.todo == [] && job.again != [] && job.round < job.retries && !stop(job.round + 1)
    ensures JobRun(Sending(burst, job, []), calls, fails, stop) ==
            JobRun(Sending(burst, Job(job.again, [], job.round + 1, job.retries), []), calls, fails, stop)
  {
  }

  lemma RunEnds(burst: nat, job: Job, calls: seq<seq<Item>>, fails: nat -> nat -> bool, stop: nat -> bool)
    requires job.todo == [] && (job.again == [] || job.round >= job.retries || stop(job.round + 1))
    ensures JobRun(Sending(burst, job, []), calls, fails, stop) == Outcome(calls, job.again)
  {
  }

  /** What is still to do this round is the retry round; what fails in it joins what failed before. */
  lemma {:induction false} JobRound(burst: nat, job: Job, calls: seq<seq<Item>>, fails: nat -> nat -> bool,
                                    stop: nat -> bool)
    ensures var r := RetryRound(job.todo, calls, fails);
            JobRun(Sending(burst, job, []), calls, fails, stop) ==
            JobRun(Sending(burst, job.(todo := [], again := job.again + r.failed), []), r.calls, fails, stop)
    decreases |job.todo|
  {
    if job.todo == [] {
      hide JobRun;
      assert RetryRound(job.todo, calls, fails) == Outcome(calls, []);
      assert job.again + [] == job.again;
    } else {
      hide JobRun, RetryRound, Select;
      var again := [Bump(job.todo[0])];
      var failed := Select(again, fails(|calls|));
      RunNext(burst, job, calls, fails, stop);
      RunCalls(burst, job.(todo := job.todo[1..]), again, calls, fails, stop);
      JobRound(burst, job.(todo := job.todo[1..], again := job.again + failed), calls + [again], fails, stop);
      RoundFromFront(job.todo, calls, fails);
      var rest := RetryRound(job.todo[1..], calls + [again], fails);
      assert job.again + failed + rest.failed == job.again + (failed + rest.failed);
    }
  }

  /** Between rounds the job is where the loop of process is. */
  lemma {:induction false} JobRounds(burst: nat, failed: seq<Item>, calls: seq<seq<Item>>, attempt: nat, retries: nat,
                                     fails: nat -> nat -> bool, stop: nat -> bool)
    requires 1 <= attempt <= retries + 1
    ensures JobRun(Sending(burst, Job([], failed, attempt - 1, retries), []), calls, fails, stop) ==
            Rounds(failed, calls, attempt, retries, fails, stop)
    decreases retries + 1 - attempt
  {
    hide JobRun, RetryRound;
    var job := Job([], failed, attempt - 1, retries);
    if failed == [] || attempt > retries || stop(attempt) {
      RunEnds(burst, job, calls, fails, stop);
    } else {
      var r := RetryRound(failed, calls, fails);
      RunAgain(burst, job, calls, fails, stop);
      JobRound(burst, Job(failed, [], attempt, retries), calls, fails, stop);
      assert [] + r.failed == r.failed;
      JobRounds(burst, r.failed, r.calls, attempt + 1, retries, fails, stop);
    }
  }

  /**
   * A worker that has just taken a batch makes, while nobody interferes, exactly the calls of process on
   * that batch and dead-letters the same items; so what is proved of either loop holds for the other.
   */
  lemma JobIsProcess(burst: nat, items: seq<Item>, retries: nat, fails: nat -> nat -> bool, stop: nat -> bool)
    ensures JobRun(Calling(burst, Job([], [], 0, retries), items), [], fails, stop) == Processed(items, retries, fails, stop)
  {
    var failed := Select(items, fails(0));
    assert [] + failed == failed && [] + [items] == [items];
    hide JobRun, Select, Rounds;
    RunCalls(burst, Job([], [], 0, retries), items, [], fails, stop);
    JobRounds(burst, failed, [items], 1, retries, fails, stop);
  }

  /** So the bounds on handler calls and dead letters are bounds on the protocol's workers. */
  lemma JobAccounts(burst: nat, items: seq<Item>, retries: nat, fails: nat -> nat -> bool, stop: nat -> bool, m: nat)
    ensures var r := JobRun(Calling(burst, Job([], [], 0, retries), items), [], fails, stop);
            Accounted(Times(items, m), Times(r.failed, m), Handled(r.calls, m), retries, forall a :: !stop(a))
  {
    JobIsProcess(burst, items, retries, fails, stop);
    ProcessAccounts(items, retries, fails, stop, m);
  }
}
