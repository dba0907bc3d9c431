/**
 * The per-group message cache (conversation/cache.go): a ring of fixed size and a set of the IDs it
 * holds, against the list it stands for: append unless the ID is held, then keep the last N.
 */
module RingCache {

  datatype Message = Message(
    id: string,
    row: int,
    self: string,
    user: string,
    nickname: string,
    content: string,
    replyTo: string,
    time: int)

  const BLANK := Message("", 0, "", "", "", "", "", 0)

  function IdsOf(msgs: seq<Message>): set<string> {
    set m | m in msgs && m.id != "" :: m.id
  }

  /** No two messages carry the same ID, unless it is empty. */
  ghost predicate Distinct(msgs: seq<Message>) {
    forall i, j | 0 <= i < j < |msgs| :: msgs[i].id != "" ==> msgs[i].id != msgs[j].id
  }

  function LastOf(msgs: seq<Message>, n: nat): seq<Message> {
    if |msgs| <= n then msgs else msgs[|msgs| - n..]
  }

  predicate Accepts(held: seq<Message>, msg: Message) {
    msg.id == "" || msg.id !in IdsOf(held)
  }

  /** The list the ring stands for, after one more message has been offered. */
  function Offered(held: seq<Message>, n: nat, msg: Message): seq<Message> {
    if Accepts(held, msg) then LastOf(held + [msg], n) else held
  }

  function Renamed(msgs: seq<Message>, user: string, name: string): (r: seq<Message>)
    ensures |r| == |msgs|
    ensures forall i | 0 <= i < |msgs| ::
              r[i] == if msgs[i].user == user && msgs[i].nickname == "" then msgs[i].(nickname := name) else msgs[i]
  {
    seq(|msgs|, i requires 0 <= i < |msgs| =>
      if msgs[i].user == user && msgs[i].nickname == "" then msgs[i].(nickname := name) else msgs[i])
  }

  lemma OfferedStaysDistinct(held: seq<Message>, n: nat, msg: Message)
    requires Distinct(held)
    ensures Distinct(Offered(held, n, msg))
    ensures n >= 1 && |held| <= n ==> |Offered(held, n, msg)| <= n
  {
    if Accepts(held, msg) {
      forall i | 0 <= i < |held|
        ensures held[i].id != "" ==> held[i].id != msg.id
      {
        if held[i].id != "" {
          assert held[i].id in IdsOf(held);
        }
      }
    }
  }

  // What Stats is for, read off the list.

  /** The time of the newest message that has one. */
  function LatestTime(msgs: seq<Message>): int {
    if msgs == [] then 0
    else if msgs[|msgs| - 1].time != 0 then msgs[|msgs| - 1].time
    else LatestTime(msgs[..|msgs| - 1])
  }

  /** What the newest of the first k messages adds. */
  lemma LatestBefore(msgs: seq<Message>, k: nat)
    requires 1 <= k <= |msgs|
    ensures var m, before := msgs[k - 1], msgs[..k - 1];
            && LatestTime(msgs[..k]) == (if m.time != 0 then m.time else LatestTime(before))
            && LatestSelf(msgs[..k]) == if !IsBlank(m) && m.self != "" then m.self else LatestSelf(before)
  {
    assert msgs[..k][..k - 1] == msgs[..k - 1];
  }

  predicate IsBlank(m: Message) { m.id == "" && m.content == "" && m.time == 0 }

  /** The account of the newest message that names one; a message with no ID, text and time does not count. */
  function LatestSelf(msgs: seq<Message>): string {
    if msgs == [] then ""
    else if !IsBlank(msgs[|msgs| - 1]) && msgs[|msgs| - 1].self != "" then msgs[|msgs| - 1].self
    else LatestSelf(msgs[..|msgs| - 1])
  }

  datatype CacheStats = CacheStats(count: nat, lastTime: int, selfId: string)

  class GroupMsgCache {
    var buf: array<Message>
    var writeAt: nat
    var seenSet: set<string>
    var filled: bool

    /** The messages held, oldest first. */
    ghost function Held(): seq<Message>
      reads this, buf
      requires writeAt <= buf.Length
    {
      Unrolled(buf[..], writeAt, filled)
    }

    ghost predicate Valid()
      reads this, buf
    {
      && (if buf.Length == 0 then writeAt == 0 && !filled else writeAt < buf.Length)
      && (!filled ==> BlankFrom(buf[..], writeAt))
      && Distinct(Held()) && seenSet == IdsOf(Held())
    }

    constructor (maxSize: nat)
      ensures Valid() && fresh(buf) && buf.Length == maxSize && Held() == []
    {
      buf := new Message[maxSize](_ => BLANK);
      writeAt, seenSet, filled := 0, {}, false;
    }

    /** A cache of size zero holds nothing and must not be added to. */
    method Add(msg: Message)
      requires Valid() && buf.Length >= 1
      modifies this, buf
      ensures Valid() && buf == old(buf)
      ensures Held() == Offered(old(Held()), buf.Length, msg)
    {
      if msg.id != "" {
        if msg.id in seenSet {
          return;
        }
      }
      OfferedStaysDistinct(Held(), buf.Length, msg);
      WriteOne(buf[..], writeAt, filled, msg);
      hide Distinct, IdsOf, Unrolled, Offered, Accepts, BlankFrom;
      Overwrite(msg);
      assert Valid() && Held() == Offered(old(Held()), buf.Length, msg);
    }

    /** The second half of Add: forget the ID of the slot, fill it, and move on. */
    method Overwrite(msg: Message)
      requires writeAt < buf.Length
      modifies this, buf
      ensures buf == old(buf) && buf[..] == old(buf[..])[old(writeAt) := msg]
      ensures seenSet == (old(seenSet) - (if old(buf[writeAt]).id != "" then {old(buf[writeAt]).id} else {}))
                         + (if msg.id != "" then {msg.id} else {})
      ensures writeAt == if old(writeAt) + 1 == buf.Length then 0 else old(writeAt) + 1
      ensures filled == (old(filled) || old(writeAt) + 1 == buf.Length)
    {
      var evicted := buf[writeAt];
      if evicted.id != "" {
        seenSet := seenSet - {evicted.id};
      }
      buf[writeAt] := msg;
      if msg.id != "" {
        seenSet := seenSet + {msg.id};
      }
      writeAt := writeAt + 1;
      if writeAt >= buf.Length {
        writeAt := 0;
        filled := true;
      }
    }

    method SetNickname(user: string, name: string)
      requires Valid()
      modifies buf
      ensures Valid()
      ensures Held() == if user == "" || name == "" then old(Held()) else Renamed(old(Held()), user, name)
    {
      if user == "" || name == "" {
        return;
      }
      ghost var held := Held();
      var i := 0;
      while i < buf.Length
        invariant 0 <= i <= buf.Length
        invariant forall j | i <= j < buf.Length :: buf[j] == old(buf[j])
        invariant forall j | 0 <= j < i :: buf[j] ==
                    if old(buf[j]).user == user && old(buf[j]).nickname == "" then old(buf[j]).(nickname := name)
                    else old(buf[j])
      {
        if buf[i].user == user && buf[i].nickname == "" {
          buf[i] := buf[i].(nickname := name);
        }
        i := i + 1;
      }
      assert Held() == Renamed(held, user, name);
      RenamedKeepsIds(held, user, name);
    }

    method GetAll() returns (msgs: seq<Message>)
      requires Valid()
      ensures msgs == Held()
    {
      if !filled {
        return buf[..writeAt];
      }
      msgs := buf[writeAt..];
      msgs := msgs + buf[..writeAt];
    }

    method Len() returns (n: nat)
      requires Valid()
      ensures n == |Held()| <= buf.Length
    {
      n := if filled then buf.Length else writeAt;
    }

    method HasSeen(id: string) returns (seen: bool)
      requires Valid()
      ensures seen <==> id != "" && exists i :: 0 <= i < |Held()| && Held()[i].id == id
    {
      if id == "" {
        return false;
      }
      seen := id in seenSet;
      if seen {
        ghost var m :| m in Held() && m.id == id;
        ghost var i :| 0 <= i < |Held()| && Held()[i] == m;
      }
    }

    method Stats() returns (stats: CacheStats)
      requires Valid()
      ensures stats == CacheStats(|Held()|, LatestTime(Held()), LatestSelf(Held()))
    {
      hide Distinct, IdsOf, BlankFrom;
      var n := if filled then buf.Length else writeAt;
      var lastTime, selfId, i := 0, "", 0;
      assert Held()[..n] == Held();
      while i < n
        invariant 0 <= i <= n == |Held()|
        invariant LatestTime(Held()) == if lastTime != 0 then lastTime else LatestTime(Held()[..n - i])
        invariant LatestSelf(Held()) == if selfId != "" then selfId else LatestSelf(Held()[..n - i])
      {
        SlotFromEnd(buf[..], writeAt, filled, i);
        var msg := buf[(writeAt - 1 - i + buf.Length) % buf.Length];
        LatestBefore(Held(), n - i);
        hide LatestTime, LatestSelf, Unrolled;
        assert Held()[n - i - 1] == msg;
        i := i + 1;
        if msg.id == "" && msg.content == "" && msg.time == 0 {
          continue;
        }
        if lastTime == 0 {
          lastTime := msg.time;
        }
        if selfId == "" {
          selfId := msg.self;
        }
        if lastTime != 0 && selfId != "" {
          break;
        }
      }
      stats := CacheStats(n, lastTime, selfId);
    }
  }

  lemma MulAtLeast(q: int, k: int, n: nat)
    requires q >= k
    ensures q * n >= k * n
  {
  }

  lemma ModOnce(a: nat, n: nat)
    requires 0 < n <= a < 2 * n
    ensures a % n == a - n
  {
    var q := a / n;
    assert a == q * n + a % n;
    assert q < 2 by {
      if q >= 2 {
        MulAtLeast(q, 2, n);
        assert false;
      }
    }
    assert q > 0 by {
      if q <= 0 {
        MulAtLeast(0, q, n);
        assert false;
      }
    }
  }

  /** The slots from a position on have never been written. */
  ghost predicate BlankFrom(slots: seq<Message>, at: nat) {
    forall i | at <= i < |slots| :: slots[i] == BLANK
  }

  /** The ring read from its oldest slot. */
  function Unrolled(slots: seq<Message>, at: nat, full: bool): seq<Message>
    requires at <= |slots|
  {
    if full then slots[at..] + slots[..at] else slots[..at]
  }

  lemma SlotIndex(at: nat, n: nat, i: nat)
    requires at < n && i < n
    ensures (at - 1 - i + n) % n == if at - 1 - i >= 0 then at - 1 - i else at - 1 - i + n
  {
    if at - 1 - i >= 0 {
      ModOnce(at - 1 - i + n, n);
    }
  }

  /** The backward scan over ring slots sees the list from its end. */
  lemma SlotFromEnd(slots: seq<Message>, at: nat, full: bool, i: nat)
    requires at < |slots| && i < |Unrolled(slots, at, full)|
    ensures var slot := (at - 1 - i + |slots|) % |slots|;
            0 <= slot < |slots| && slots[slot] == Unrolled(slots, at, full)[|Unrolled(slots, at, full)| - 1 - i]
  {
    SlotIndex(at, |slots|, i);
  }

  /** Overwriting the slot at the write position and moving on is appending, then dropping the oldest. */
  lemma WriteShifts(slots: seq<Message>, at: nat, full: bool, msg: Message)
    requires at < |slots|
    ensures var wraps := at + 1 == |slots|;
            Unrolled(slots[at := msg], if wraps then 0 else at + 1, full || wraps)
            == LastOf(Unrolled(slots, at, full) + [msg], |slots|)
            == if full then Unrolled(slots, at, full)[1..] + [msg] else Unrolled(slots, at, full) + [msg]
    ensures !full && BlankFrom(slots, at) ==> BlankFrom(slots[at := msg], at + 1)
  {
    var held := Unrolled(slots, at, full);
    if full {
      assert held[1..] == slots[at + 1..] + slots[..at];
    }
  }

  lemma WriteOne(slots: seq<Message>, at: nat, full: bool, msg: Message)
    requires at < |slots| && Distinct(Unrolled(slots, at, full)) && Accepts(Unrolled(slots, at, full), msg)
    requires !full ==> BlankFrom(slots, at)
    ensures var after, wraps := slots[at := msg], at + 1 == |slots|;
            var now := Unrolled(after, if wraps then 0 else at + 1, full || wraps);
            && now == Offered(Unrolled(slots, at, full), |slots|, msg)
            && IdsOf(now) == (IdsOf(Unrolled(slots, at, full)) - (if slots[at].id != "" then {slots[at].id} else {}))
                             + (if msg.id != "" then {msg.id} else {})
            && (!full && !wraps ==> BlankFrom(after, at + 1))
  {
    var held := Unrolled(slots, at, full);
    WriteShifts(slots, at, full, msg);
    assert full ==> held != [] && held[0] == slots[at];
    assert !full ==> slots[at].id == "";
    hide Unrolled, Distinct, IdsOf, LastOf, BlankFrom, Accepts;
    EvictedIds(held, msg, full, slots[at]);
  }

  /** Which IDs remain when the oldest message makes room. */
  lemma EvictedIds(held: seq<Message>, msg: Message, full: bool, evicted: Message)
    requires Distinct(held) && Accepts(held, msg)
    requires if full then held != [] && evicted == held[0] else evicted.id == ""
    ensures var kept := if full then held[1..] + [msg] else held + [msg];
            IdsOf(kept) == (IdsOf(held) - (if evicted.id != "" then {evicted.id} else {}))
                           + (if msg.id != "" then {msg.id} else {})
  {
    var kept := if full then held[1..] + [msg] else held + [msg];
    if full {
      assert held == [held[0]] + held[1..];
      forall id | id in IdsOf(held) - {evicted.id}
        ensures id in IdsOf(kept)
      {
        var m :| m in held && m.id == id;
        assert m in held[1..];
      }
    }
    assert msg in kept;
    forall m | m in held && !full
      ensures m in kept
    {
    }
  }

  lemma RenamedKeepsIds(msgs: seq<Message>, user: string, name: string)
    ensures IdsOf(Renamed(msgs, user, name)) == IdsOf(msgs)
    ensures Distinct(msgs) ==> Distinct(Renamed(msgs, user, name))
  {
    var r := Renamed(msgs, user, name);
    forall m | m in msgs
      ensures m.id == "" || m.id in IdsOf(r)
    {
      var i :| 0 <= i < |msgs| && msgs[i] == m;
      assert r[i] in r;
    }
    forall m | m in r
      ensures m.id == "" || m.id in IdsOf(msgs)
    {
      var i :| 0 <= i < |r| && r[i] == m;
      assert msgs[i] in msgs;
    }
  }

  // ---------------------------------------------------------------------------------------------
  // Whole runs: the ring against an append-only log.

  /** Everything accepted so far, in order, and the part of it that is still cached. */
  datatype Run = Run(log: seq<Message>, held: seq<Message>)

  datatype Op = Receive(msg: Message) | Learn(user: string, name: string)

  function Fed(n: nat, ops: seq<Op>): Run {
    if ops == [] then Run([], [])
    else
      var before := Fed(n, ops[..|ops| - 1]);
      match ops[|ops| - 1]
      case Receive(msg) =>
        Run(if Accepts(before.held, msg) then before.log + [msg] else before.log, Offered(before.held, n, msg))
      case Learn(user, name) => Run(Renamed(before.log, user, name), Renamed(before.held, user, name))
  }

  lemma RenamedTail(log: seq<Message>, n: nat, user: string, name: string)
    ensures Renamed(LastOf(log, n), user, name) == LastOf(Renamed(log, user, name), n)
  {
  }

  lemma TailOfTail(log: seq<Message>, n: nat, msg: Message)
    requires n >= 1
    ensures LastOf(LastOf(log, n) + [msg], n) == LastOf(log + [msg], n)
  {
  }

  /** Whatever arrives, the cache holds the last N of what it ever accepted, each ID once. */
  lemma {:induction false} HeldIsTailOfLog(n: nat, ops: seq<Op>)
    requires n >= 1
    ensures Fed(n, ops).held == LastOf(Fed(n, ops).log, n)
    ensures Distinct(Fed(n, ops).held)
    decreases |ops|
  {
    if ops != [] {
      var before := Fed(n, ops[..|ops| - 1]);
      HeldIsTailOfLog(n, ops[..|ops| - 1]);
      hide Distinct, LastOf, Renamed, Accepts;
      match ops[|ops| - 1] {
        case Receive(msg) =>
          OfferedStaysDistinct(before.held, n, msg);
          TailOfTail(before.log, n, msg);
        case Learn(user, name) =>
          RenamedKeepsIds(before.held, user, name);
          RenamedTail(before.log, n, user, name);
      }
    }
  }

  ghost predicate OnlyReceives(ops: seq<Op>) {
    forall i | 0 <= i < |ops| :: ops[i].Receive?
  }

  /** While no nickname is learnt, what was accepted stays as it was. */
  lemma {:induction false} LogOnlyGrows(n: nat, ops: seq<Op>, more: seq<Op>)
    requires OnlyReceives(more)
    ensures Fed(n, ops).log <= Fed(n, ops + more).log
    decreases |more|
  {
    if more == [] {
      assert ops + more == ops;
    } else {
      LogOnlyGrows(n, ops, more[..|more| - 1]);
      assert (ops + more)[..|ops + more| - 1] == ops + more[..|more| - 1];
      assert more[|more| - 1].Receive?;
    }
  }
}
