/**
 * Sending one reply (speech/deliver.go): sentences become at most five messages, each sent at most
 * once unless it was definitely refused, in order, over any number of retries.
 */
module Delivery {
  import opened Decimals
  import opened Options

  const MAX_REPLY_MESSAGES := 5

  // ---------------------------------------------------------------------------------------------
  // Chunks and actions.

  function Flatten(chunks: seq<seq<string>>): seq<string> {
    if chunks == [] then [] else Flatten(chunks[..|chunks| - 1]) + chunks[|chunks| - 1]
  }

  method SplitReplyMessages(sentences: seq<string>, max: int) returns (chunks: seq<seq<string>>)
    ensures Flatten(chunks) == sentences
    ensures |chunks| <= (if max < 1 then 1 else max) && (|chunks| == 0 <==> sentences == [])
    ensures forall i | 0 <= i < |chunks| :: chunks[i] != [] && (i < |chunks| - 1 ==> |chunks[i]| == 1)
    ensures |sentences| <= max ==> |chunks| == |sentences|
  {
    if |sentences| == 0 {
      return [];
    }
    var limit := if max < 1 then 1 else max;
    if |sentences| <= limit {
      chunks := Singles(sentences, |sentences|);
      assert sentences[..|sentences|] == sentences;
      return;
    }
    chunks := Singles(sentences, limit - 1);
    FlattenOneMore(chunks, sentences[limit - 1..]);
    assert sentences[..limit - 1] + sentences[limit - 1..] == sentences;
    chunks := chunks + [sentences[limit - 1..]];
  }

  /** The first n sentences, one to a chunk. */
  method Singles(sentences: seq<string>, n: nat) returns (chunks: seq<seq<string>>)
    requires n <= |sentences|
    ensures |chunks| == n && Flatten(chunks) == sentences[..n] && forall i | 0 <= i < n :: |chunks[i]| == 1
  {
    chunks := [];
    for i := 0 to n
      invariant |chunks| == i && Flatten(chunks) == sentences[..i]
      invariant forall j | 0 <= j < i :: |chunks[j]| == 1
    {
      FlattenOneMore(chunks, [sentences[i]]);
      assert sentences[..i + 1] == sentences[..i] + [sentences[i]];
      chunks := chunks + [[sentences[i]]];
    }
  }

  lemma FlattenOneMore(chunks: seq<seq<string>>, chunk: seq<string>)
    ensures Flatten(chunks + [chunk]) == Flatten(chunks) + chunk
  {
    assert (chunks + [chunk])[..|chunks|] == chunks;
  }

  function JoinLines(lines: seq<string>): string {
    if lines == [] then ""
    else if |lines| == 1 then lines[0]
    else JoinLines(lines[..|lines| - 1]) + "\n" + lines[|lines| - 1]
  }

  /** Where a reply goes; `refIdx` is the platform's own index of the message replied to. */
  datatype Target = Target(chatId: string, userId: string, isPrivate: bool, refIdx: string)

  datatype ReplyAction = ReplyAction(
    id: string, replyTo: string, text: string, target: Target, mention: bool, quote: bool)

  function ActionId(workspace: string, messageId: string, i: nat): string {
    workspace + "|" + messageId + "|" + Decimal(i)
  }

  method BuildReplyActions(workspace: string, messageId: string, target: Target, mention: bool,
                           sentences: seq<string>, interval: int) returns (actions: seq<ReplyAction>)
    ensures |actions| <= MAX_REPLY_MESSAGES && (actions == [] <==> sentences == [])
    ensures JoinLines(Texts(actions)) == JoinLines(sentences)
    ensures interval <= 0 && sentences != [] ==> |actions| == 1
    ensures interval > 0 && |sentences| <= MAX_REPLY_MESSAGES ==> |actions| == |sentences|
    ensures forall i | 0 <= i < |actions| ::
              && actions[i].id == ActionId(workspace, messageId, i)
              && actions[i].replyTo == messageId && actions[i].target == target
              && actions[i].quote == (i == 0) && actions[i].mention == (i == 0 && mention)
  {
    if |sentences| == 0 {
      return [];
    }
    var chunks := SplitReplyMessages(sentences, MAX_REPLY_MESSAGES);
    if interval <= 0 || |sentences| == 1 {
      chunks := [sentences];
      FlattenOneMore([], sentences);
      assert [] + chunks == chunks && [] + sentences == sentences;
    }
    hide *;
    actions := [];
    for i := 0 to |chunks|
      invariant |actions| == i
      invariant forall j | 0 <= j < i :: actions[j] == ReplyAction(ActionId(workspace, messageId, j), messageId,
                  JoinLines(chunks[j]), target, j == 0 && mention, j == 0)
    {
      actions := actions + [ReplyAction(ActionId(workspace, messageId, i), messageId, JoinLines(chunks[i]), target,
                                        i == 0 && mention, i == 0)];
    }
    TextsAre(actions, chunks);
  }

  lemma TextsAre(actions: seq<ReplyAction>, chunks: seq<seq<string>>)
    requires |actions| == |chunks|
    requires forall i | 0 <= i < |chunks| :: chunks[i] != [] && actions[i].text == JoinLines(chunks[i])
    ensures JoinLines(Texts(actions)) == JoinLines(Flatten(chunks))
  {
    JoinOfJoins(chunks, Texts(actions));
  }

  function Texts(actions: seq<ReplyAction>): seq<string> {
    seq(|actions|, i requires 0 <= i < |actions| => actions[i].text)
  }

  lemma {:induction false} JoinAppend(a: seq<string>, b: seq<string>)
    requires a != [] && b != []
    ensures JoinLines(a + b) == JoinLines(a) + "\n" + JoinLines(b)
    decreases |b|
  {
    var n := |b| - 1;
    assert (a + b)[..|a + b| - 1] == a + b[..n];
    if n == 0 {
      assert a + b[..n] == a;
    } else {
      JoinAppend(a, b[..n]);
    }
  }

  /** Joining the chunks and then the messages gives the text of the whole reply. */
  lemma {:induction false} JoinOfJoins(chunks: seq<seq<string>>, texts: seq<string>)
    requires |texts| == |chunks| && forall i | 0 <= i < |chunks| :: chunks[i] != [] && texts[i] == JoinLines(chunks[i])
    ensures JoinLines(texts) == JoinLines(Flatten(chunks))
    ensures chunks != [] ==> Flatten(chunks) != []
    decreases |chunks|
  {
    if chunks != [] {
      var n := |chunks| - 1;
      JoinOfJoins(chunks[..n], texts[..n]);
      if n == 0 {
        assert Flatten(chunks) == [] + chunks[0] == chunks[0];
      } else {
        JoinAppend(Flatten(chunks[..n]), chunks[n]);
      }
    }
  }

  /** The actions of one reply have different IDs. */
  lemma IdsDiffer(workspace: string, messageId: string, i: nat, j: nat)
    ensures ActionId(workspace, messageId, i) == ActionId(workspace, messageId, j) <==> i == j
  {
    var prefix := workspace + "|" + messageId + "|";
    var a, b := ActionId(workspace, messageId, i), ActionId(workspace, messageId, j);
    assert a[|prefix|..] == Decimal(i) && b[|prefix|..] == Decimal(j);
    if a == b {
      DecimalInjective(i, j);
    }
  }

  // ---------------------------------------------------------------------------------------------
  // One attempt at the whole reply.

  /** What becomes of one send: accepted, definitely refused, or nobody knows. */
  datatype Outcome = Accepted | Rejected | Uncertain

  /** What happens at one action in one attempt: whether the wait before it is cancelled, and how the send ends. */
  datatype Fate = Fate(cancelled: bool, outcome: Outcome)

  datatype Entry = Entry(sent: bool, sendOk: bool)

  type Ledger = map<string, Entry>

  function EntryOf(outcome: Outcome): Entry {
    match outcome
    case Accepted => Entry(true, true)
    case Uncertain => Entry(true, false)
    case Rejected => Entry(false, false)
  }

  predicate IsSent(ledger: Ledger, id: string) { id in ledger && ledger[id].sent }

  datatype Try = Try(action: nat, outcome: Outcome)

  /** The ledger afterwards, whether the whole reply is out, and the sends made, in order. */
  datatype Pass = Pass(ledger: Ledger, complete: bool, tries: seq<Try>)

  /** One attempt from action i on. */
  function PassFrom(ids: seq<string>, ledger: Ledger, fates: nat -> Fate, i: nat): Pass
    requires i <= |ids|
    decreases |ids| - i
  {
    if i == |ids| then Pass(ledger, true, [])
    else if IsSent(ledger, ids[i]) then PassFrom(ids, ledger, fates, i + 1)
    else if i > 0 && fates(i).cancelled then Pass(ledger, false, [])
    else
      var outcome := fates(i).outcome;
      var marked := ledger[ids[i] := EntryOf(outcome)];
      if outcome.Rejected? then Pass(marked, false, [Try(i, outcome)])
      else
        var rest := PassFrom(ids, marked, fates, i + 1);
        rest.(tries := [Try(i, outcome)] + rest.tries)
  }

  class MemoryLedger {
    var entries: Ledger

    constructor ()
      ensures entries == map[]
    {
      entries := map[];
    }

    method Load(id: string) returns (found: bool, entry: Entry)
      ensures found <==> id in entries
      ensures found ==> entry == entries[id]
    {
      found := id in entries;
      entry := if found then entries[id] else Entry(false, false);
    }

    method Mark(id: string, entry: Entry)
      modifies this
      ensures entries == if id == "" then old(entries) else old(entries)[id := entry]
    {
      if id == "" {
        return;
      }
      entries := entries[id := entry];
    }
  }

  method SendReply(ids: seq<string>, ledger: MemoryLedger, fates: nat -> Fate)
    returns (complete: bool, ghost tries: seq<Try>)
    requires forall i | 0 <= i < |ids| :: ids[i] != ""
    modifies ledger
    ensures Pass(ledger.entries, complete, tries) == PassFrom(ids, old(ledger.entries), fates, 0)
  {
    var i := 0;
    tries := [];
    ghost var whole := PassFrom(ids, ledger.entries, fates, 0);
    NothingYet(whole);
    while i < |ids|
      invariant 0 <= i <= |ids|
      invariant whole == Behind(tries, PassFrom(ids, ledger.entries, fates, i))
    {
      hide Behind, EntryOf;
      PassStep(ids, ledger.entries, fates, i, tries);
      var found, entry := ledger.Load(ids[i]);
      if found && entry.sent {
        i := i + 1;
        continue;
      }
      if i > 0 && fates(i).cancelled {
        return false, tries;
      }
      var outcome := fates(i).outcome;
      ledger.Mark(ids[i], EntryOf(outcome));
      tries := tries + [Try(i, outcome)];
      if outcome.Rejected? {
        return false, tries;
      }
      i := i + 1;
    }
    assert tries + [] == tries;
    complete := true;
  }

  /** An attempt that has already made some sends. */
  function Behind(tries: seq<Try>, p: Pass): Pass { p.(tries := tries + p.tries) }

  lemma NothingYet(p: Pass)
    ensures Behind([], p) == p
  {
    assert [] + p.tries == p.tries;
  }

  /** One turn of the loop, with the sends already made. */
  lemma PassStep(ids: seq<string>, ledger: Ledger, fates: nat -> Fate, i: nat, tries: seq<Try>)
    requires i < |ids|
    ensures var outcome := fates(i).outcome;
            var marked, more := ledger[ids[i] := EntryOf(outcome)], tries + [Try(i, outcome)];
            Behind(tries, PassFrom(ids, ledger, fates, i)) ==
              if IsSent(ledger, ids[i]) then Behind(tries, PassFrom(ids, ledger, fates, i + 1))
              else if i > 0 && fates(i).cancelled then Pass(ledger, false, tries)
              else if outcome.Rejected? then Pass(marked, false, more)
              else Behind(more, PassFrom(ids, marked, fates, i + 1))
  {
    assert tries + [] == tries;
    var outcome := fates(i).outcome;
    var rest := PassFrom(ids, ledger[ids[i] := EntryOf(outcome)], fates, i + 1);
    assert tries + ([Try(i, outcome)] + rest.tries) == tries + [Try(i, outcome)] + rest.tries;
  }

  ghost predicate AllDifferent(ids: seq<string>) {
    forall i, j | 0 <= i < j < |ids| :: ids[i] != ids[j]
  }

  /** What is marked sent is the first k actions. */
  ghost predicate SentIs(ids: seq<string>, ledger: Ledger, k: nat) {
    k <= |ids| && forall i | 0 <= i < |ids| :: IsSent(ledger, ids[i]) <==> i < k
  }

  /** Sends made from a ledger with k actions sent: k, k+1 and so on, all taken as sent but perhaps a last refused one. */
  ghost predicate InOrder(tries: seq<Try>, k: nat, k': nat) {
    && k <= k' && k' - k <= |tries| <= k' - k + 1
    && (forall i | 0 <= i < |tries| :: tries[i].action == k + i)
    && (forall i | 0 <= i < |tries| :: tries[i].outcome.Rejected? <==> i == k' - k)
  }

  /** One attempt: a longer prefix is sent, in order, and the attempt is complete exactly when all of it is. */
  lemma {:induction false} PassAdvances(ids: seq<string>, ledger: Ledger, fates: nat -> Fate, i: nat, k: nat)
    returns (k': nat)
    requires AllDifferent(ids) && SentIs(ids, ledger, k) && i <= |ids|
    requires i <= k
    ensures var p := PassFrom(ids, ledger, fates, i);
            && SentIs(ids, p.ledger, k') && InOrder(p.tries, k, k')
            && (p.complete <==> k' == |ids|)
            && (forall id | id !in ids :: id in p.ledger <==> id in ledger)
    decreases |ids| - i
  {
    if i == |ids| {
      k' := k;
    } else if i < k {
      k' := PassAdvances(ids, ledger, fates, i + 1, k);
    } else if i > 0 && fates(i).cancelled {
      k' := k;
    } else {
      var outcome := fates(i).outcome;
      var marked := ledger[ids[i] := EntryOf(outcome)];
      if outcome.Rejected? {
        assert SentIs(ids, marked, k);
        k' := k;
      } else {
        assert SentIs(ids, marked, k + 1);
        k' := PassAdvances(ids, marked, fates, i + 1, k + 1);
      }
    }
  }

  // ---------------------------------------------------------------------------------------------
  // Any number of retries.

  /** All attempts one after another; the last field is what the last attempt reported. */
  function Retried(ids: seq<string>, ledger: Ledger, attempts: seq<nat -> Fate>): Pass {
    if attempts == [] then Pass(ledger, false, [])
    else
      var before := Retried(ids, ledger, attempts[..|attempts| - 1]);
      var last := PassFrom(ids, before.ledger, attempts[|attempts| - 1], 0);
      last.(tries := before.tries + last.tries)
  }

  /** Everything a history of sends promises, with k actions sent at the end. */
  ghost predicate Orderly(tries: seq<Try>, k: nat) {
    && (forall i | 0 <= i < |tries| :: tries[i].action < k || (tries[i].action == k && tries[i].outcome.Rejected?))
    && (forall i, j | 0 <= i < j < |tries| :: tries[i].action <= tries[j].action)
    && (forall i, j | 0 <= i < j < |tries| && tries[i].action == tries[j].action :: tries[i].outcome.Rejected?)
  }

  lemma OrderlyAppend(before: seq<Try>, k: nat, tries: seq<Try>, k': nat)
    requires Orderly(before, k) && InOrder(tries, k, k')
    ensures Orderly(before + tries, k')
  {
  }

  lemma {:induction false} RetriesOrderly(ids: seq<string>, attempts: seq<nat -> Fate>) returns (k: nat)
    requires AllDifferent(ids)
    ensures var p := Retried(ids, map[], attempts);
            && SentIs(ids, p.ledger, k) && Orderly(p.tries, k)
            && (attempts != [] ==> (p.complete <==> k == |ids|))
    decreases |attempts|
  {
    if attempts == [] {
      k := 0;
    } else {
      var n := |attempts| - 1;
      var j := RetriesOrderly(ids, attempts[..n]);
      var before := Retried(ids, map[], attempts[..n]);
      hide SentIs, InOrder, Orderly, AllDifferent;
      k := PassAdvances(ids, before.ledger, attempts[n], 0, j);
      OrderlyAppend(before.tries, j, PassFrom(ids, before.ledger, attempts[n], 0).tries, k);
    }
  }

  /**
   * Over any number of attempts at one reply, however each send ends: the actions marked sent are a
   * prefix; sends are made in order; an action is sent again only after it was definitely refused; and
   * the reply counts as delivered, which is when the anchor moves, exactly when every action is sent.
   */
  lemma DeliverySafe(ids: seq<string>, attempts: seq<nat -> Fate>)
    requires AllDifferent(ids) && attempts != []
    ensures var p := Retried(ids, map[], attempts);
            && (forall i, j | 0 <= i < j < |ids| :: IsSent(p.ledger, ids[j]) ==> IsSent(p.ledger, ids[i]))
            && (forall i, j | 0 <= i < j < |p.tries| :: p.tries[i].action <= p.tries[j].action)
            && (forall i, j | 0 <= i < j < |p.tries| && p.tries[i].action == p.tries[j].action ::
                  p.tries[i].outcome.Rejected?)
            && (p.complete <==> forall i | 0 <= i < |ids| :: IsSent(p.ledger, ids[i]))
  {
    var k := RetriesOrderly(ids, attempts);
    var p := Retried(ids, map[], attempts);
    if k < |ids| {
      assert !IsSent(p.ledger, ids[k]);
    }
  }

  // ---------------------------------------------------------------------------------------------
  // The anchor.

  class ChatSink {
    const ledger: MemoryLedger
    var anchor: int

    constructor (ledger: MemoryLedger, anchor: int)
      ensures this.ledger == ledger && this.anchor == anchor
    {
      this.ledger, this.anchor := ledger, anchor;
    }

    /** The anchor moves only with the last action of the reply, and only if the reply has one to move it to. */
    method DeliverChat(ids: seq<string>, fates: nat -> Fate, next: Option<int>) returns (delivered: bool)
      requires forall i | 0 <= i < |ids| :: ids[i] != ""
      modifies this, ledger
      ensures delivered == (ids == [] || PassFrom(ids, old(ledger.entries), fates, 0).complete)
      ensures ledger.entries == if ids == [] then old(ledger.entries)
                                else PassFrom(ids, old(ledger.entries), fates, 0).ledger
      ensures anchor == if delivered && ids != [] && next.Some? then next.value else old(anchor)
    {
      if |ids| == 0 {
        return true;
      }
      ghost var tries;
      delivered, tries := SendReply(ids, ledger, fates);
      if delivered {
        if next.None? {
          return;
        }
        anchor := next.value;
      }
    }
  }
}
