/**
 * The entry-side duplicate filter (bot/handler.go): a message ID claimed within the last ten minutes is
 * not let in again, unless the claim was taken back.
 */
module Dedup {
  import opened Clocks

  const TTL := 10 * 60 * SECOND
  const SWEEP_ABOVE := 4096

  type Seen = map<string, int>

  predicate Live(seen: Seen, key: string, now: int) { key in seen && now - seen[key] < TTL }

  predicate Granted(seen: Seen, key: string, now: int) { key == "" || !Live(seen, key, now) }

  /** Old entries go only when the table has grown large, and only expired ones. */
  function Swept(seen: Seen, now: int): Seen {
    if |seen| > SWEEP_ABOVE then map k | k in seen && now - seen[k] < TTL :: seen[k] else seen
  }

  function Claimed(seen: Seen, key: string, now: int): Seen {
    if key == "" || Live(seen, key, now) then seen else Swept(seen, now)[key := now]
  }

  class MessageDedup {
    var seen: Seen

    constructor ()
      ensures seen == map[]
    {
      seen := map[];
    }

    method Claim(key: string, now: int) returns (first: bool)
      modifies this
      ensures first == Granted(old(seen), key, now)
      ensures seen == Claimed(old(seen), key, now)
    {
      if key == "" {
        return true;
      }
      if key in seen && now - seen[key] < TTL {
        return false;
      }
      if |seen| > SWEEP_ABOVE {
        seen := Sweep(seen, now);
      }
      seen := seen[key := now];
      first := true;
    }

    static method Sweep(seen: Seen, now: int) returns (kept: Seen)
      ensures kept == map k | k in seen && now - seen[k] < TTL :: seen[k]
    {
      kept := seen;
      var todo := seen.Keys;
      while todo != {}
        invariant todo <= seen.Keys
        invariant forall k :: k in kept <==> k in seen && (k in todo || now - seen[k] < TTL)
        invariant forall k | k in kept :: kept[k] == seen[k]
        decreases |todo|
      {
        var item :| item in todo;
        if now - seen[item] >= TTL {
          kept := kept - {item};
        }
        todo := todo - {item};
      }
    }

    method Forget(key: string)
      modifies this
      ensures seen == if key == "" then old(seen) else old(seen) - {key}
    {
      if key == "" {
        return;
      }
      seen := seen - {key};
    }
  }

  // ---------------------------------------------------------------------------------------------
  // Whole runs, on a clock that does not go back.

  datatype Op = Claim(key: string) | Forget(key: string)

  datatype Event = Event(op: Op, at: int)

  function Applied(seen: Seen, e: Event): Seen {
    match e.op
    case Claim(key) => Claimed(seen, key, e.at)
    case Forget(key) => if key == "" then seen else seen - {key}
  }

  function After(run: seq<Event>): Seen {
    if run == [] then map[] else Applied(After(run[..|run| - 1]), run[|run| - 1])
  }

  /** What neither claims a key anew nor takes it back leaves it alone, and drops it only when it has expired. */
  lemma OthersKeep(seen: Seen, e: Event, key: string)
    requires key != "" && e.op != Forget(key) && !(e.op == Claim(key) && Granted(seen, key, e.at))
    ensures key in Applied(seen, e) ==> key in seen && Applied(seen, e)[key] == seen[key]
    ensures Live(seen, key, e.at) ==> key in Applied(seen, e)
  {
  }

  /** The claim at position i of the run was granted. */
  predicate LetIn(run: seq<Event>, i: nat, key: string) {
    i < |run| && run[i].op == Claim(key) && Granted(After(run[..i]), key, run[i].at)
  }

  ghost predicate Ordered(run: seq<Event>) {
    forall i, j | 0 <= i <= j < |run| :: run[i].at <= run[j].at
  }

  /** The last granted claim of a key that has not been taken back since. */
  ghost predicate LastGrant(run: seq<Event>, key: string, i: nat) {
    && LetIn(run, i, key)
    && (forall j | i < j < |run| :: !LetIn(run, j, key) && run[j].op != Forget(key))
  }

  lemma {:induction false} SeenIsLastGrant(run: seq<Event>, key: string, i: nat)
    requires Ordered(run) && key != "" && LastGrant(run, key, i)
    ensures run[|run| - 1].at - run[i].at < TTL ==> key in After(run) && After(run)[key] == run[i].at
    ensures key in After(run) ==> After(run)[key] == run[i].at
    decreases |run|
  {
    var n := |run| - 1;
    var init := run[..n];
    assert forall j | 0 <= j < n :: init[..j] == run[..j] && init[j] == run[j];
    if i < n {
      forall j | i < j < n
        ensures !LetIn(init, j, key)
      {
        assert LetIn(run, j, key) == LetIn(init, j, key);
      }
      assert LetIn(init, i, key);
      SeenIsLastGrant(init, key, i);
      assert run[n - 1].at <= run[n].at && !LetIn(run, n, key) && run[n].op != Forget(key);
      OthersKeep(After(init), run[n], key);
      hide LastGrant, LetIn, Ordered, Applied, Granted;
    }
  }

  /** A message ID let in is not let in again for ten minutes unless its claim was taken back. */
  lemma OncePerWindow(run: seq<Event>, key: string, i: nat, j: nat)
    requires Ordered(run) && key != "" && i < j && LetIn(run, i, key) && LetIn(run, j, key)
    requires forall k | i < k < j :: run[k].op != Forget(key)
    ensures run[j].at - run[i].at >= TTL
  {
    var m := LatestGrant(run, key, i, j);
    var before := run[..j];
    assert forall k | 0 <= k < j :: before[..k] == run[..k] && before[k] == run[k];
    assert LetIn(before, m, key);
    forall k | m < k < j
      ensures !LetIn(before, k, key)
    {
      assert LetIn(before, k, key) == LetIn(run, k, key);
    }
    SeenIsLastGrant(before, key, m);
    assert run[j - 1].at <= run[j].at && run[i].at <= run[m].at;
  }

  lemma {:induction false} LatestGrant(run: seq<Event>, key: string, i: nat, j: nat) returns (m: nat)
    requires i < j <= |run| && LetIn(run, i, key)
    ensures i <= m < j && LetIn(run, m, key) && forall k | m < k < j :: !LetIn(run, k, key)
    decreases j
  {
    if i == j - 1 || LetIn(run, j - 1, key) {
      m := j - 1;
    } else {
      m := LatestGrant(run, key, i, j - 1);
    }
  }

  /** And once the window is over, or the claim taken back, it is let in. */
  lemma LetInAgain(run: seq<Event>, key: string, i: nat, now: int)
    requires Ordered(run) && key != "" && LastGrant(run, key, i) && now - run[i].at >= TTL
    ensures Granted(After(run), key, now)
  {
    SeenIsLastGrant(run, key, i);
  }
}
