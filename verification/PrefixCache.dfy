/**
 * The cached prefix over whole runs (speech/chat_window.go, speech/generate.go, conversation/cache.go):
 * when a window is extended, what was sent last time is what the server still has.
 */
module PrefixCache {
  import opened Decimals
  import opened Options
  import opened RingCache
  import opened ChatLog
  import opened ChatWindow

  ghost predicate IdsGiven(log: seq<Message>) {
    forall i | 0 <= i < |log| :: log[i].id != ""
  }

  /** No message quotes one that was accepted after it. */
  ghost predicate QuotesBackward(log: seq<Message>) {
    forall i, j | 0 <= i < j < |log| :: log[i].replyTo != "" ==> log[j].id != log[i].replyTo
  }

  /** What Generate remembers of a window it has sent. */
  function AnchorOf(window: seq<Message>, at: int): Anchor
    requires window != []
  {
    Anchor(window[0].id, window[|window| - 1].id, Some(at))
  }

  lemma FoundAt(log: seq<Message>, from: nat, upTo: nat, at: nat)
    requires IdsGiven(log) && Distinct(log) && from <= upTo <= |log| && at < |log|
    ensures var k := IndexOf(log[from..upTo], log[at].id);
            k >= 0 ==> from + k == at
  {
    var k := IndexOf(log[from..upTo], log[at].id);
    IndexOfFinds(log[from..upTo], log[at].id);
    if k >= 0 {
      assert log[from + k].id == log[at].id;
    }
  }

  lemma NewPartNotQuoted(log: seq<Message>, s: nat, q: nat, e: nat)
    requires QuotesBackward(log) && s <= q <= e <= |log|
    ensures NoneQuotes(log[s..q], log[q..e])
  {
  }

  /**
   * Deciding on `msgs` after `sent` was sent: if that extends, and the end of `sent` is still there,
   * the log of `sent` begins the new log and is exactly what was counted as a cache hit.
   */
  ghost predicate PrefixServed(enc: Encoder, msgs: seq<Message>, sent: seq<Message>, at: int, prices: Prices,
                               limit: int, sendCount: nat, systemTokens: nat)
    requires sent != []
  {
    var d := Decide(enc, msgs, Some(AnchorOf(sent, at)), prices, limit, sendCount, systemTokens);
    d.mode.Extend? && IndexOf(msgs, sent[|sent| - 1].id) >= 0 ==>
      && Log(enc, sent) <= Log(enc, d.window)
      && sent <= d.window
      && d.hitTokens == systemTokens + Tokens(Log(enc, sent))
  }

  /** The half of it that costs money: what the server has cached is the beginning of what is sent. */
  ghost predicate BytesServed(enc: Encoder, msgs: seq<Message>, sent: seq<Message>, at: int, prices: Prices,
                              limit: int, sendCount: nat, systemTokens: nat)
    requires sent != []
  {
    var d := Decide(enc, msgs, Some(AnchorOf(sent, at)), prices, limit, sendCount, systemTokens);
    d.mode.Extend? && IndexOf(msgs, sent[|sent| - 1].id) >= 0 ==> Log(enc, sent) <= Log(enc, d.window)
  }

  /**
   * A window sent after `ops`, with the messages that arrived next and the decision after them: the two
   * triggers, when and at what prices and limits.
   */
  datatype Sequel = Sequel(
    ops: seq<Op>,
    trigger: string,
    sent: seq<Message>,
    more: seq<Op>,
    nextTrigger: string,
    at: int,
    prices: Prices,
    limit: int,
    sendCount: nat,
    systemTokens: nat)

  function Before(n: nat, q: Sequel): Run { Fed(n, q.ops) }

  function Now(n: nat, q: Sequel): Run { Fed(n, q.ops + q.more) }

  /** What was sent ended where the first trigger cut the cache; every message now cached has an ID and quotes backwards. */
  ghost predicate Fits(n: nat, q: Sequel) {
    && n >= 1 && OnlyReceives(q.more) && q.sent != []
    && (var msgs := CutAt(Before(n, q).held, q.trigger); |q.sent| <= |msgs| && q.sent == msgs[|msgs| - |q.sent|..])
    && IdsGiven(Now(n, q).held) && QuotesBackward(Now(n, q).held)
  }

  ghost predicate Served(enc: Encoder, n: nat, q: Sequel)
    requires q.sent != []
  {
    PrefixServed(enc, CutAt(Now(n, q).held, q.nextTrigger), q.sent, q.at, q.prices, q.limit, q.sendCount, q.systemTokens)
  }

  ghost predicate LogServed(enc: Encoder, n: nat, q: Sequel)
    requires q.sent != []
  {
    BytesServed(enc, CutAt(Now(n, q).held, q.nextTrigger), q.sent, q.at, q.prices, q.limit, q.sendCount, q.systemTokens)
  }

  lemma ServedHasLog(enc: Encoder, n: nat, q: Sequel)
    requires q.sent != [] && Served(enc, n, q)
    ensures LogServed(enc, n, q)
  {
    hide Decide, Now, CutAt;
  }

  /** Where in the log of everything accepted the first message of the window sent lies. */
  function SentFrom(n: nat, q: Sequel): int {
    |Before(n, q).log| - |Before(n, q).held| + |CutAt(Before(n, q).held, q.trigger)| - |q.sent|
  }

  /** How many messages from the start of the window on have left the cache; not positive while it is whole. */
  function Past(n: nat, q: Sequel): int { |Now(n, q).log| - n - SentFrom(n, q) }

  /** While the window has not begun to leave the cache, its log is served, whatever IDs come twice. */
  lemma WholeIsServed(enc: Encoder, n: nat, q: Sequel)
    requires Fits(n, q) && Past(n, q) <= 0
    ensures Served(enc, n, q)
  {
    HeldIsTailOfLog(n, q.ops);
    HeldIsTailOfLog(n, q.ops + q.more);
    LogOnlyGrows(n, q.ops, q.more);
    hide IdsGiven, QuotesBackward, PrefixServed, Fed, CutAt, LastOf, Distinct, OnlyReceives;
    PrefixInHeld(enc, n, Before(n, q), Now(n, q), q.trigger, q.nextTrigger, q.sent, q.at, q.prices, q.limit,
                 q.sendCount, q.systemTokens);
  }

  lemma PrefixInHeld(enc: Encoder, n: nat, before: Run, after: Run, trigger: string, nextTrigger: string,
                     sent: seq<Message>, at: int, prices: Prices, limit: int, sendCount: nat, systemTokens: nat)
    requires before.held == LastOf(before.log, n) && after.held == LastOf(after.log, n) && before.log <= after.log
    requires var msgs := CutAt(before.held, trigger);
             && sent != [] && |sent| <= |msgs| && sent == msgs[|msgs| - |sent|..]
             && |after.log| - n <= |before.log| - |before.held| + |msgs| - |sent|
    requires IdsGiven(after.held) && Distinct(after.held) && QuotesBackward(after.held)
    ensures PrefixServed(enc, CutAt(after.held, nextTrigger), sent, at, prices, limit, sendCount, systemTokens)
  {
    hide *;
    var msgs, held := CutAt(after.held, nextTrigger), after.held;
    var s, end := SentInHeld(n, before, after, trigger, sent);
    CutIsPrefix(held, nextTrigger);
    ExtendsOverSent(enc, held, 0, |msgs|, s, end, at, prices, limit, sendCount, systemTokens);
    assert held[0..|msgs|] == msgs && held[s..end] == sent;
    assert PrefixServed(enc, msgs, sent, at, prices, limit, sendCount, systemTokens);
  }

  lemma CutIsPrefix(msgs: seq<Message>, trigger: string)
    ensures |CutAt(msgs, trigger)| <= |msgs| && msgs[0..|CutAt(msgs, trigger)|] == CutAt(msgs, trigger)
  {
  }

  /** The window sent is a piece of everything accepted, wherever the log has grown to. */
  lemma SentPiece(n: nat, before: Run, log: seq<Message>, trigger: string, sent: seq<Message>)
    requires before.held == LastOf(before.log, n) && before.log <= log
    requires var msgs := CutAt(before.held, trigger); |sent| <= |msgs| && sent == msgs[|msgs| - |sent|..]
    ensures var from := |before.log| - |before.held| + |CutAt(before.held, trigger)| - |sent|;
            0 <= from && from + |sent| <= |log| && log[from..from + |sent|] == sent
  {
    var msgs, gone := CutAt(before.held, trigger), |before.log| - |before.held|;
    CutIsPrefix(before.held, trigger);
    hide CutAt;
    var from, upTo := gone + |msgs| - |sent|, gone + |msgs|;
    assert sent == before.held[|msgs| - |sent|..|msgs|] == before.log[from..upTo] == log[from..upTo];
  }

  /** The window sent is a piece of the cache as it is now. */
  lemma SentInHeld(n: nat, before: Run, after: Run, trigger: string, sent: seq<Message>) returns (s: nat, end: nat)
    requires before.held == LastOf(before.log, n) && after.held == LastOf(after.log, n) && before.log <= after.log
    requires var msgs := CutAt(before.held, trigger);
             && sent != [] && |sent| <= |msgs| && sent == msgs[|msgs| - |sent|..]
             && |after.log| - n <= |before.log| - |before.held| + |msgs| - |sent|
    ensures s < end <= |after.held| && sent == after.held[s..end]
  {
    SentPiece(n, before, after.log, trigger, sent);
    hide CutAt;
    var from := |before.log| - |before.held| + |CutAt(before.held, trigger)| - |sent|;
    s := from - (|after.log| - |after.held|);
    end := s + |sent|;
    assert after.held[s..end] == after.log[from..from + |sent|];
  }

  lemma ExtendsOverSent(enc: Encoder, log: seq<Message>, from: nat, e: nat, s: nat, end: nat, at: int,
                        prices: Prices, limit: int, sendCount: nat, systemTokens: nat)
    requires IdsGiven(log) && Distinct(log) && QuotesBackward(log) && from <= e <= |log| && s < end <= |log|
    ensures PrefixServed(enc, log[from..e], log[s..end], at, prices, limit, sendCount, systemTokens)
  {
    hide *;
    var msgs, sent := log[from..e], log[s..end];
    SpanInLog(log, from, e, s, end, at);
    if IndexOf(msgs, sent[|sent| - 1].id) >= 0 && SentSpan(msgs, AnchorOf(sent, at)).0 >= 0 {
      ExtendedOver(enc, log, from, e, s, end);
    }
    ServedIf(enc, msgs, sent, at, prices, limit, sendCount, systemTokens);
    assert PrefixServed(enc, msgs, sent, at, prices, limit, sendCount, systemTokens);
  }

  lemma ServedIf(enc: Encoder, msgs: seq<Message>, sent: seq<Message>, at: int, prices: Prices, limit: int,
                 sendCount: nat, systemTokens: nat)
    requires sent != []
    requires var (lo, hi) := SentSpan(msgs, AnchorOf(sent, at));
             IndexOf(msgs, sent[|sent| - 1].id) >= 0 && lo >= 0 ==>
               msgs[lo..hi + 1] == sent && sent <= msgs[lo..] && Log(enc, sent) <= Log(enc, msgs[lo..])
    ensures PrefixServed(enc, msgs, sent, at, prices, limit, sendCount, systemTokens)
  {
    hide Decide, IndexOf, Log, Tokens, SentSpan, AnchorOf;
    DecidesToExtend(enc, msgs, AnchorOf(sent, at), prices, limit, sendCount, systemTokens);
    assert PrefixServed(enc, msgs, sent, at, prices, limit, sendCount, systemTokens);
  }

  lemma ExtendedOver(enc: Encoder, log: seq<Message>, from: nat, e: nat, s: nat, end: nat)
    requires QuotesBackward(log) && from <= s < end <= e <= |log|
    ensures var msgs, sent := log[from..e], log[s..end];
            && sent <= msgs[s - from..] && Log(enc, sent) <= Log(enc, msgs[s - from..])
            && msgs[s - from..end - from] == sent
  {
    var msgs, sent := log[from..e], log[s..end];
    NewPartNotQuoted(log, s, end, e);
    hide *;
    PrefixKept(enc, sent, log[end..e]);
    assert msgs[s - from..] == sent + log[end..e];
  }

  /** Found ends mean the whole piece is where it was. */
  lemma SpanInLog(log: seq<Message>, from: nat, e: nat, s: nat, end: nat, at: int)
    requires IdsGiven(log) && Distinct(log) && from <= e <= |log| && s < end <= |log|
    ensures var msgs, span := log[from..e], SentSpan(log[from..e], AnchorOf(log[s..end], at));
            IndexOf(msgs, log[s..end][end - s - 1].id) >= 0 && span.0 >= 0 ==>
              from <= s && end <= e && span == (s - from, end - 1 - from)
  {
    FoundAt(log, from, e, s);
    FoundAt(log, from, e, end - 1);
  }

  /** Where the window sent lies in everything accepted by now. */
  lemma SentInLog(n: nat, q: Sequel)
    requires Fits(n, q)
    ensures 0 <= SentFrom(n, q) && SentFrom(n, q) + |q.sent| <= |Now(n, q).log|
    ensures Now(n, q).log[SentFrom(n, q)..SentFrom(n, q) + |q.sent|] == q.sent
    ensures Now(n, q).held == LastOf(Now(n, q).log, n)
  {
    hide Fed, CutAt, IdsGiven, QuotesBackward, Distinct, LastOf;
    HeldIsTailOfLog(n, q.ops);
    HeldIsTailOfLog(n, q.ops + q.more);
    LogOnlyGrows(n, q.ops, q.more);
    SentPiece(n, Before(n, q), Now(n, q).log, q.trigger, q.sent);
  }

  /** What is found in the cut cache was accepted among the last n. */
  lemma FoundInLog(log: seq<Message>, n: nat, trigger: string, id: string) returns (at: nat)
    requires IndexOf(CutAt(LastOf(log, n), trigger), id) >= 0 && IdsGiven(LastOf(log, n))
    ensures at < |log| && |log| - n <= at && log[at].id == id && id != ""
  {
    var held := LastOf(log, n);
    CutIsPrefix(held, trigger);
    hide CutAt;
    var msgs := CutAt(held, trigger);
    IndexOfFinds(msgs, id);
    at := |log| - |held| + IndexOf(msgs, id);
    assert held[IndexOf(msgs, id)] == msgs[IndexOf(msgs, id)];
  }

  lemma ResetServes(enc: Encoder, n: nat, q: Sequel)
    requires q.sent != []
    requires var msgs := CutAt(Now(n, q).held, q.nextTrigger);
             IndexOf(msgs, q.sent[0].id) < 0 || IndexOf(msgs, q.sent[|q.sent| - 1].id) < 0
    ensures Served(enc, n, q)
  {
    var msgs := CutAt(Now(n, q).held, q.nextTrigger);
    hide Log, Tokens, IndexOf, CutAt, Now, Trim;
    assert SentSpan(msgs, AnchorOf(q.sent, q.at)).0 == IndexOf(msgs, q.sent[0].id);
  }

  /**
   * However many messages arrive in between: as long as no ID is accepted twice, whenever the next
   * decision extends and finds both ends of the last window, the log sent last time is, byte for byte,
   * the beginning of the next one, and it is exactly what was counted as a cache hit.
   */
  lemma PrefixCacheCorrect(enc: Encoder, n: nat, q: Sequel)
    requires Fits(n, q) && Distinct(Now(n, q).log)
    ensures Served(enc, n, q)
  {
    SentInLog(n, q);
    var log, first := Now(n, q).log, q.sent[0];
    assert first == log[SentFrom(n, q)];
    hide Fed, CutAt, LastOf, IndexOf, SentFrom, QuotesBackward;
    if IndexOf(CutAt(Now(n, q).held, q.nextTrigger), first.id) >= 0 {
      var at := FoundInLog(log, n, q.nextTrigger, first.id);
      assert at == SentFrom(n, q);
      hide *;
      NotPast(n, q);
      WholeIsServed(enc, n, q);
      assert Served(enc, n, q);
    } else {
      hide *;
      ResetServes(enc, n, q);
      assert Served(enc, n, q);
    }
  }

  lemma NotPast(n: nat, q: Sequel)
    requires |Now(n, q).log| - n <= SentFrom(n, q)
    ensures Past(n, q) <= 0
  {
  }

  // ---------------------------------------------------------------------------------------------
  // When IDs come twice.

  /** The same ID can only be accepted again after n others. */
  ghost predicate Apart(log: seq<Message>, n: nat) {
    forall i, j | 0 <= i < j < |log| && log[i].id == log[j].id && log[i].id != "" :: j - i > n
  }

  lemma AcceptsApart(log: seq<Message>, n: nat, msg: Message)
    requires Apart(log, n) && n >= 1
    ensures Accepts(LastOf(log, n), msg) <==> Apart(log + [msg], n)
  {
    var held, longer := LastOf(log, n), log + [msg];
    forall i | 0 <= i < |log| && |log| - i <= n
      ensures log[i].id == "" || log[i].id in IdsOf(held)
    {
      assert log[i] == held[i - (|log| - |held|)];
      assert log[i] in held;
    }
    if !Accepts(held, msg) {
      var m :| m in held && m.id == msg.id;
      var k :| 0 <= k < |held| && held[k] == m;
      assert longer[|log| - |held| + k].id == longer[|log|].id;
    }
  }

  lemma {:induction false} LogIsApart(n: nat, ops: seq<Op>)
    requires n >= 1
    ensures Apart(Fed(n, ops).log, n)
    decreases |ops|
  {
    if ops != [] {
      var before := Fed(n, ops[..|ops| - 1]);
      LogIsApart(n, ops[..|ops| - 1]);
      HeldIsTailOfLog(n, ops[..|ops| - 1]);
      hide LastOf, Accepts, Distinct;
      match ops[|ops| - 1] {
        case Receive(msg) => AcceptsApart(before.log, n, msg);
        case Learn(user, name) =>
      }
    }
  }

  lemma ApartAt(log: seq<Message>, n: nat, i: nat, j: nat)
    requires Apart(log, n) && i < j < |log| && log[i].id == log[j].id && log[i].id != ""
    ensures j - i > n
  {
  }

  /** The newest message to have left the cache cannot be back yet. */
  lemma JustGone(n: nat, q: Sequel, at: nat)
    requires Fits(n, q) && at < |Now(n, q).log| && at == |Now(n, q).log| - n - 1
    ensures IndexOf(CutAt(Now(n, q).held, q.nextTrigger), Now(n, q).log[at].id) < 0
  {
    SentInLog(n, q);
    LogIsApart(n, q.ops + q.more);
    var log := Now(n, q).log;
    hide Fed, CutAt, LastOf, IndexOf, SentFrom, QuotesBackward, Apart;
    if IndexOf(CutAt(Now(n, q).held, q.nextTrigger), log[at].id) >= 0 {
      var back := FoundInLog(log, n, q.nextTrigger, log[at].id);
      ApartAt(log, n, at, back);
    }
  }

  lemma EndsInLog(n: nat, q: Sequel)
    requires Fits(n, q)
    ensures var log, from := Now(n, q).log, SentFrom(n, q);
            && 0 <= from && from + |q.sent| <= |log| && q.sent != []
            && q.sent[0] == log[from] && q.sent[|q.sent| - 1] == log[from + |q.sent| - 1]
            && Past(n, q) == |log| - n - from && n >= 1 && Apart(log, n)
            && IdsGiven(LastOf(log, n)) && Now(n, q).held == LastOf(log, n)
  {
    hide Fed, CutAt, LastOf, SentFrom, QuotesBackward, Apart;
    SentInLog(n, q);
    LogIsApart(n, q.ops + q.more);
    var log, from := Now(n, q).log, SentFrom(n, q);
    assert q.sent[0] == log[from..from + |q.sent|][0];
    assert q.sent[|q.sent| - 1] == log[from..from + |q.sent|][|q.sent| - 1];
  }

  /** Either end only just gone: the prefix is still never missed. */
  lemma JustGoneIsServed(enc: Encoder, n: nat, q: Sequel)
    requires Fits(n, q) && (Past(n, q) == 1 || Past(n, q) == |q.sent|)
    ensures Served(enc, n, q)
  {
    hide *;
    EndsInLog(n, q);
    var from := SentFrom(n, q);
    if Past(n, q) == 1 {
      JustGone(n, q, from);
    } else {
      JustGone(n, q, from + |q.sent| - 1);
    }
    ResetServes(enc, n, q);
    assert Served(enc, n, q);
  }

  // Everywhere else the prefix can be missed.

  function Receives(msgs: seq<Message>): (ops: seq<Op>)
    ensures |ops| == |msgs| && forall i | 0 <= i < |msgs| :: ops[i] == Receive(msgs[i])
  {
    seq(|msgs|, i requires 0 <= i < |msgs| => Receive(msgs[i]))
  }

  lemma OneAccepted(n: nat, msgs: seq<Message>)
    requires msgs != [] && Accepts(Fed(n, Receives(msgs[..|msgs| - 1])).held, msgs[|msgs| - 1])
    ensures Fed(n, Receives(msgs)).log == Fed(n, Receives(msgs[..|msgs| - 1])).log + [msgs[|msgs| - 1]]
  {
    hide Accepts, Offered;
    assert Receives(msgs)[..|msgs| - 1] == Receives(msgs[..|msgs| - 1]);
  }

  lemma {:induction false} AllAccepted(n: nat, msgs: seq<Message>)
    requires n >= 1 && Apart(msgs, n)
    ensures Fed(n, Receives(msgs)).log == msgs && Fed(n, Receives(msgs)).held == LastOf(msgs, n)
    decreases |msgs|
  {
    hide LastOf, Accepts, Apart, Distinct, Fed, Receives;
    HeldIsTailOfLog(n, Receives(msgs));
    if msgs == [] {
      NothingAccepted(n, msgs);
    } else {
      var init, last := msgs[..|msgs| - 1], msgs[|msgs| - 1];
      assert init + [last] == msgs;
      ApartPrefix(msgs, n, |msgs| - 1);
      AllAccepted(n, init);
      AcceptsApart(init, n, last);
      OneAccepted(n, msgs);
    }
  }

  lemma NothingAccepted(n: nat, msgs: seq<Message>)
    requires msgs == []
    ensures Fed(n, Receives(msgs)).log == msgs
  {
  }

  lemma ApartPrefix(msgs: seq<Message>, n: nat, k: nat)
    requires Apart(msgs, n) && k <= |msgs|
    ensures Apart(msgs[..k], n)
  {
  }

  /** How many of the two ends come back: the last one only if it is another message and has had time to leave. */
  function Returning(len: nat, past: nat): nat { if past > len > 1 then 2 else 1 }

  /** The numbers 0, 1, 2 and so on, until the two ends of the window come back. */
  function Number(n: nat, len: nat, past: nat, i: nat): nat
    requires 1 <= len <= n
  {
    if i < 2 * n - len + past - Returning(len, past) then i
    else if i == 2 * n - len + past - Returning(len, past) then n - len
    else n - 1
  }

  lemma NumbersApart(n: nat, len: nat, past: nat, i: nat, j: nat)
    requires 1 <= len <= n && past >= 2 && past != len && i < j < 2 * n - len + past
    requires Number(n, len, past, i) == Number(n, len, past, j)
    ensures j - i > n
  {
  }

  /** Messages with these IDs; the ones that come back say something else. */
  function Script(n: nat, len: nat, past: nat): (msgs: seq<Message>)
    requires 1 <= len <= n && past >= 2
    ensures |msgs| == 2 * n - len + past
    ensures forall i | 0 <= i < |msgs| ::
              msgs[i] == Says(Decimal(Number(n, len, past, i)), if i < |msgs| - Returning(len, past) then "x" else "y")
  {
    var size := 2 * n - len + past;
    seq(size, i requires 0 <= i < size =>
      Says(Decimal(Number(n, len, past, i)), if i < size - Returning(len, past) then "x" else "y"))
  }

  lemma ScriptApart(n: nat, len: nat, past: nat)
    requires 1 <= len <= n && past >= 2 && past != len
    ensures Apart(Script(n, len, past), n)
  {
    hide Number, Script;
    var msgs := Script(n, len, past);
    forall i, j | 0 <= i < j < |msgs| && msgs[i].id == msgs[j].id
      ensures j - i > n
    {
      DecimalInjective(Number(n, len, past, i), Number(n, len, past, j));
      NumbersApart(n, len, past, i, j);
    }
  }

  /** Everything is received in order; the window sent are the last `len` of the first n messages. */
  function Replay(msgs: seq<Message>, n: nat, len: nat): Sequel
    requires 1 <= len <= n <= |msgs|
  {
    Sequel(Receives(msgs[..n]), "", msgs[n - len..n], Receives(msgs[n..]), "", 0, Prices(0.0, 1.0), 0, 0, 1)
  }

  lemma ReceivesSplit(msgs: seq<Message>, k: nat)
    requires k <= |msgs|
    ensures Receives(msgs[..k]) + Receives(msgs[k..]) == Receives(msgs)
    ensures OnlyReceives(Receives(msgs[k..]))
  {
  }

  lemma ReplayRuns(msgs: seq<Message>, n: nat, len: nat)
    requires 1 <= len <= n <= |msgs| && Apart(msgs, n)
    ensures var q := Replay(msgs, n, len);
            && Before(n, q) == Run(msgs[..n], msgs[..n]) && Now(n, q) == Run(msgs, msgs[|msgs| - n..])
            && OnlyReceives(q.more)
  {
    hide Apart, Fed, Receives, OnlyReceives;
    ApartPrefix(msgs, n, n);
    ReceivesSplit(msgs, n);
    AllAccepted(n, msgs[..n]);
    AllAccepted(n, msgs);
  }

  lemma ReplayFits(msgs: seq<Message>, n: nat, len: nat)
    requires 1 <= len <= n <= |msgs| && Apart(msgs, n)
    requires forall i | 0 <= i < |msgs| :: msgs[i].id != "" && msgs[i].replyTo == ""
    ensures var q := Replay(msgs, n, len); Fits(n, q) && |q.sent| == len && Past(n, q) == |msgs| - 2 * n + len
  {
    hide Fed, Receives, OnlyReceives;
    ReplayRuns(msgs, n, len);
    var q := Replay(msgs, n, len);
    assert CutAt(Before(n, q).held, "") == msgs[..n];
    assert q.sent == msgs[..n][n - len..];
  }

  lemma ReplayServed(enc: Encoder, msgs: seq<Message>, n: nat, len: nat)
    requires 1 <= len <= n <= |msgs| && Apart(msgs, n)
    ensures Replay(msgs, n, len).sent != []
    ensures Served(enc, n, Replay(msgs, n, len)) <==>
            PrefixServed(enc, msgs[|msgs| - n..], msgs[n - len..n], 0, Prices(0.0, 1.0), 0, 0, 1)
    ensures LogServed(enc, n, Replay(msgs, n, len)) <==>
            BytesServed(enc, msgs[|msgs| - n..], msgs[n - len..n], 0, Prices(0.0, 1.0), 0, 0, 1)
  {
    hide Fed, Receives, OnlyReceives, PrefixServed, BytesServed;
    ReplayRuns(msgs, n, len);
    assert CutAt(msgs[|msgs| - n..], "") == msgs[|msgs| - n..];
  }

  /** Only the message that came back has the number of the first one sent. */
  lemma StartFound(n: nat, len: nat, past: nat)
    requires 1 <= len <= n && past >= 2 && past != len
    ensures n >= Returning(len, past)
    ensures var msgs := Script(n, len, past); IndexOf(msgs[|msgs| - n..], msgs[n - len].id) == n - Returning(len, past)
  {
    hide Script, IndexOf;
    var msgs, back := Script(n, len, past), Returning(len, past);
    var held, start := msgs[|msgs| - n..], msgs[n - len].id;
    IndexOfFinds(held, start);
    assert held[n - back] == msgs[|msgs| - back];
    assert held[n - back].id == start;
    forall j: nat | j < n - back
      ensures held[j].id != start
    {
      assert held[j] == msgs[|msgs| - n + j];
      if held[j].id == start {
        DecimalInjective(|msgs| - n + j, n - len);
      }
    }
  }

  /** What is found, and not before this place, is found there. */
  lemma FoundHere(held: seq<Message>, at: nat, id: string)
    requires at < |held| && held[at].id == id && forall j | 0 <= j < at :: held[j].id != id
    ensures IndexOf(held, id) == at
  {
    IndexOfFinds(held, id);
  }

  lemma LastFound(n: nat, len: nat, past: nat)
    requires 1 <= len <= n && past >= 2 && past != len
    ensures var msgs := Script(n, len, past); IndexOf(msgs[|msgs| - n..], msgs[n - 1].id) >= 0
  {
    hide Script, IndexOf;
    var msgs := Script(n, len, past);
    var held, last := msgs[|msgs| - n..], msgs[n - 1].id;
    IndexOfFinds(held, last);
    var at := if past > len || len == 1 then n - 1 else len - 1 - past;
    assert held[at] == msgs[|msgs| - n + at];
    assert held[at].id == last;
  }

  /** Where both come back, the last one comes last. */
  lemma LastIsLast(n: nat, len: nat, past: nat)
    requires 1 <= len <= n && past >= 2 && past != len && Returning(len, past) == 2
    ensures var msgs := Script(n, len, past); IndexOf(msgs[|msgs| - n..], msgs[n - 1].id) == n - 1
  {
    hide Script, IndexOf;
    var msgs := Script(n, len, past);
    var held, last := msgs[|msgs| - n..], msgs[n - 1].id;
    assert held[n - 1] == msgs[|msgs| - 1];
    forall j: nat | j < n - 1
      ensures held[j].id != last
    {
      assert held[j] == msgs[|msgs| - n + j];
      if held[j].id == last {
        DecimalInjective(Number(n, len, past, |msgs| - n + j), n - 1);
      }
    }
    FoundHere(held, n - 1, last);
  }

  lemma SpanIs(held: seq<Message>, sent: seq<Message>)
    requires sent != []
    ensures SentSpan(held, AnchorOf(sent, 0)) ==
            (IndexOf(held, sent[0].id), Max(IndexOf(held, sent[|sent| - 1].id), IndexOf(held, sent[0].id)))
  {
  }

  /** Both ends are found and nothing is new: the decision extends, over what begins with the first one found. */
  lemma ExtendsFrom(enc: Encoder, held: seq<Message>, sent: seq<Message>)
    requires sent != [] && held != []
    requires 0 <= IndexOf(held, sent[|sent| - 1].id) && 0 <= IndexOf(held, sent[0].id)
    requires SentSpan(held, AnchorOf(sent, 0)).1 == |held| - 1
    ensures var d := Decide(enc, held, Some(AnchorOf(sent, 0)), Prices(0.0, 1.0), 0, 0, 1);
            d.mode.Extend? && d.window == held[IndexOf(held, sent[0].id)..]
  {
    hide Log, IndexOf, Tokens, Trim;
    SpanIs(held, sent);
    assert held[SentSpan(held, AnchorOf(sent, 0)).1 + 1..] == [];
    EmptyLog(enc);
  }

  lemma EmptyLog(enc: Encoder)
    ensures Log(enc, []) == "" && Tokens(Log(enc, [])) == 0
  {
  }

  lemma Misses(enc: Encoder, held: seq<Message>, sent: seq<Message>)
    requires sent != [] && held != []
    requires 0 <= IndexOf(held, sent[|sent| - 1].id) && 0 <= IndexOf(held, sent[0].id)
    requires SentSpan(held, AnchorOf(sent, 0)).1 == |held| - 1
    ensures !(sent <= held[IndexOf(held, sent[0].id)..]) ==> !PrefixServed(enc, held, sent, 0, Prices(0.0, 1.0), 0, 0, 1)
    ensures !(Log(enc, sent) <= Log(enc, held[IndexOf(held, sent[0].id)..])) ==>
              !BytesServed(enc, held, sent, 0, Prices(0.0, 1.0), 0, 0, 1)
  {
    hide Log, IndexOf, Tokens, Decide, SentSpan, AnchorOf;
    ExtendsFrom(enc, held, sent);
  }

  /** Two texts give lines of the same length that differ, as JSON does for any two plain letters. */
  predicate TellsApart(enc: Encoder) {
    |enc(0, "", "", "x")| == |enc(0, "", "", "y")| && enc(0, "", "", "x") != enc(0, "", "", "y")
  }

  lemma LogBegins(enc: Encoder, msgs: seq<Message>, id: string, content: string)
    requires msgs != [] && msgs[0] == Says(id, content) && content != ""
    ensures enc(0, "", "", content) + "}\n" <= Log(enc, msgs)
  {
    var rows, line := Rows(msgs), enc(0, "", "", content) + "}\n";
    assert msgs == [msgs[0]] + msgs[1..] && [] + [msgs[0]] == [msgs[0]];
    LinesAppend(enc, rows, [msgs[0]], msgs[1..]);
    OneMore(enc, rows, [], msgs[0]);
    assert Lines(enc, rows, []) == "" && "" + line == line;
  }

  lemma BeginningsDiffer(a: string, b: string, s: string, t: string)
    requires |a| == |b| && a != b && a <= s && b <= t
    ensures !(s <= t)
  {
    var i :| 0 <= i < |a| && a[i] != b[i];
    assert s[i] == a[i] && t[i] == b[i];
  }

  lemma OtherText(enc: Encoder, sent: seq<Message>, window: seq<Message>, a: string, b: string)
    requires sent != [] && sent[0] == Says(a, "x") && window != [] && window[0] == Says(b, "y")
    ensures !(sent <= window) && (TellsApart(enc) ==> !(Log(enc, sent) <= Log(enc, window)))
  {
    LogBegins(enc, sent, a, "x");
    LogBegins(enc, window, b, "y");
    assert sent[0].content != window[0].content;
    hide Log;
    var x, y := enc(0, "", "", "x"), enc(0, "", "", "y");
    if TellsApart(enc) {
      assert (x + "}\n")[..|x|] == x && (y + "}\n")[..|y|] == y;
      BeginningsDiffer(x + "}\n", y + "}\n", Log(enc, sent), Log(enc, window));
    }
  }

  lemma BreakingBreaks(enc: Encoder, n: nat, len: nat, past: nat)
    requires 1 <= len <= n && past >= 2 && past != len
    ensures !Served(enc, n, Replay(Script(n, len, past), n, len))
    ensures TellsApart(enc) ==> !LogServed(enc, n, Replay(Script(n, len, past), n, len))
  {
    hide *;
    var msgs := Script(n, len, past);
    var held, sent := msgs[|msgs| - n..], msgs[n - len..n];
    ScriptApart(n, len, past);
    BreakingSent(n, len, past);
    BreakingSpan(n, len, past);
    Misses(enc, held, sent);
    OtherText(enc, sent, held[IndexOf(held, sent[0].id)..], sent[0].id, held[n - Returning(len, past)].id);
    ReplayServed(enc, msgs, n, len);
    assert !Served(enc, n, Replay(Script(n, len, past), n, len));
    assert TellsApart(enc) ==> !LogServed(enc, n, Replay(Script(n, len, past), n, len));
  }

  lemma BreakingSent(n: nat, len: nat, past: nat)
    requires 1 <= len <= n && past >= 2 && past != len
    ensures var msgs, back := Script(n, len, past), Returning(len, past);
            var sent, held := msgs[n - len..n], msgs[|msgs| - n..];
            && sent[0] == msgs[n - len] && sent[len - 1] == msgs[n - 1] && 1 <= back <= n
            && sent[0] == Says(sent[0].id, "x") && held[n - back] == Says(held[n - back].id, "y")
  {
    hide Number;
  }

  lemma BreakingSpan(n: nat, len: nat, past: nat)
    requires 1 <= len <= n && past >= 2 && past != len
    ensures var msgs := Script(n, len, past);
            var held, sent := msgs[|msgs| - n..], msgs[n - len..n];
            && IndexOf(held, sent[0].id) == n - Returning(len, past) >= 0 && IndexOf(held, sent[len - 1].id) >= 0
            && SentSpan(held, AnchorOf(sent, 0)).1 == n - 1
  {
    hide IndexOf, Script, SentSpan, AnchorOf, Number;
    StartFound(n, len, past);
    LastFound(n, len, past);
    BreakingSent(n, len, past);
    if Returning(len, past) == 2 {
      LastIsLast(n, len, past);
    }
    var msgs := Script(n, len, past);
    SpanIs(msgs[|msgs| - n..], msgs[n - len..n]);
  }

  lemma BreakingFits(n: nat, len: nat, past: nat)
    requires 1 <= len <= n && past >= 2 && past != len
    ensures var q := Replay(Script(n, len, past), n, len); Fits(n, q) && |q.sent| == len && Past(n, q) == past
  {
    hide Number, Replay, Fits, Past, Apart;
    ScriptApart(n, len, past);
    ReplayFits(Script(n, len, past), n, len);
  }

  /** What the sequels of one shape have in common: their window's length and how much of it is gone. */
  ghost predicate Shaped(n: nat, len: nat, past: int, q: Sequel) { Fits(n, q) && |q.sent| == len && Past(n, q) == past }

  lemma GoneOrWhole(enc: Encoder, n: nat, len: nat, past: int, q: Sequel)
    requires Shaped(n, len, past, q) && (past <= 1 || past == len)
    ensures Served(enc, n, q) && LogServed(enc, n, q)
  {
    hide Served, LogServed, Past, Fits;
    FitsSent(n, q);
    if past <= 0 {
      WholeIsServed(enc, n, q);
    } else {
      JustGoneIsServed(enc, n, q);
    }
    ServedHasLog(enc, n, q);
  }

  lemma FitsSent(n: nat, q: Sequel)
    requires Fits(n, q)
    ensures q.sent != []
  {
  }

  /**
   * The exact boundary when IDs may come twice. For a window of `len` messages of which `past` and more
   * have left the cache, the prefix is served in every case exactly while nothing has left, or one end
   * has only just left, so that its ID cannot be back. Where lines tell texts apart the same is true of the
   * bytes alone.
   */
  lemma PrefixBoundary(enc: Encoder, n: nat, len: nat, past: int)
    requires 1 <= len <= n
    ensures (forall q | Shaped(n, len, past, q) :: Served(enc, n, q)) <==> past <= 1 || past == len
    ensures TellsApart(enc) ==>
              ((forall q | Shaped(n, len, past, q) :: LogServed(enc, n, q)) <==> past <= 1 || past == len)
  {
    hide Fits, Past, Served, LogServed, TellsApart, Script, Replay;
    if past <= 1 || past == len {
      forall q | Shaped(n, len, past, q)
        ensures Served(enc, n, q) && LogServed(enc, n, q)
      {
        GoneOrWhole(enc, n, len, past, q);
      }
    } else {
      BreakingFits(n, len, past);
      BreakingBreaks(enc, n, len, past);
      assert Shaped(n, len, past, Replay(Script(n, len, past), n, len));
    }
  }

  // ---------------------------------------------------------------------------------------------
  // When an ID that comes twice always brings the same message.

  ghost predicate SameMessages(log: seq<Message>) {
    forall i, j | 0 <= i < j < |log| && log[i].id == log[j].id && log[i].id != "" :: log[i] == log[j]
  }

  lemma SameAt(log: seq<Message>, i: nat, j: nat)
    requires SameMessages(log) && i < |log| && j < |log| && log[i].id == log[j].id && log[i].id != ""
    ensures log[i] == log[j]
  {
    if i != j {
      assert log[if i < j then i else j] == log[if i < j then j else i];
    }
  }

  /** A window that is found again as a piece of the cache is served. */
  lemma PieceIsServed(enc: Encoder, n: nat, q: Sequel, k: nat)
    requires Fits(n, q) && k + |q.sent| <= |Now(n, q).held| && Now(n, q).held[k..k + |q.sent|] == q.sent
    ensures Served(enc, n, q)
  {
    HeldIsTailOfLog(n, q.ops + q.more);
    hide IdsGiven, QuotesBackward, PrefixServed, Fed, CutAt, LastOf, Distinct, OnlyReceives;
    PieceServed(enc, Now(n, q).held, q, k);
  }

  lemma PieceServed(enc: Encoder, held: seq<Message>, q: Sequel, k: nat)
    requires IdsGiven(held) && Distinct(held) && QuotesBackward(held) && q.sent != []
    requires k + |q.sent| <= |held| && held[k..k + |q.sent|] == q.sent
    ensures PrefixServed(enc, CutAt(held, q.nextTrigger), q.sent, q.at, q.prices, q.limit, q.sendCount, q.systemTokens)
  {
    hide *;
    var msgs := CutAt(held, q.nextTrigger);
    CutIsPrefix(held, q.nextTrigger);
    ExtendsOverSent(enc, held, 0, |msgs|, k, k + |q.sent|, q.at, q.prices, q.limit, q.sendCount, q.systemTokens);
    assert PrefixServed(enc, msgs, q.sent, q.at, q.prices, q.limit, q.sendCount, q.systemTokens);
  }

  /** One message is its own window, wherever it comes back. */
  lemma SingleIsServed(enc: Encoder, n: nat, q: Sequel)
    requires Fits(n, q) && SameMessages(Now(n, q).log) && |q.sent| == 1
    ensures Served(enc, n, q)
  {
    hide *;
    EndsInLog(n, q);
    var log, from := Now(n, q).log, SentFrom(n, q);
    if IndexOf(CutAt(LastOf(log, n), q.nextTrigger), q.sent[0].id) >= 0 {
      var at := FoundInLog(log, n, q.nextTrigger, q.sent[0].id);
      SameAt(log, from, at);
      assert log[at..at + 1] == q.sent;
      HeldPiece(n, log, at, q.sent);
      PieceIsServed(enc, n, q, at - (|log| - |LastOf(log, n)|));
    } else {
      ResetServes(enc, n, q);
    }
    assert Served(enc, n, q);
  }

  lemma HeldPiece(n: nat, log: seq<Message>, at: nat, sent: seq<Message>)
    requires |log| - n <= at && at + |sent| <= |log| && log[at..at + |sent|] == sent
    ensures var held, k := LastOf(log, n), at - (|log| - |LastOf(log, n)|);
            0 <= k && k + |sent| <= |held| && held[k..k + |sent|] == sent
  {
  }

  /** Two messages three places on can only have come back side by side, in their old order. */
  lemma PairIsServed(enc: Encoder, n: nat, q: Sequel)
    requires Fits(n, q) && SameMessages(Now(n, q).log) && |q.sent| == 2 && Past(n, q) == 3
    ensures Served(enc, n, q)
  {
    hide *;
    var log, from := Now(n, q).log, SentFrom(n, q);
    EndsInLog(n, q);
    var msgs := CutAt(LastOf(log, n), q.nextTrigger);
    if IndexOf(msgs, q.sent[0].id) >= 0 && IndexOf(msgs, q.sent[1].id) >= 0 {
      var a := FoundInLog(log, n, q.nextTrigger, q.sent[0].id);
      var b := FoundInLog(log, n, q.nextTrigger, q.sent[1].id);
      SideBySide(log, n, from, a, b, q.sent);
      HeldPiece(n, log, a, q.sent);
      PieceIsServed(enc, n, q, a - (|log| - |LastOf(log, n)|));
    } else {
      ResetServes(enc, n, q);
    }
    assert Served(enc, n, q);
  }

  lemma SideBySide(log: seq<Message>, n: nat, from: nat, a: nat, b: nat, sent: seq<Message>)
    requires Apart(log, n) && SameMessages(log) && |log| == from + n + 3 && |sent| == 2
    requires sent[0] == log[from] && sent[1] == log[from + 1]
    requires from + 3 <= a < |log| && log[a].id == sent[0].id != "" && from + 3 <= b < |log| && log[b].id == sent[1].id != ""
    ensures a + 2 <= |log| && log[a..a + 2] == sent
  {
    hide Apart, SameMessages;
    BackInOrder(log, n, from, a, b);
    SameAt(log, from, a);
    SameAt(log, from + 1, b);
    assert log[a..a + 2] == [log[a], log[a + 1]];
  }

  lemma BackInOrder(log: seq<Message>, n: nat, from: nat, a: nat, b: nat)
    requires Apart(log, n) && |log| == from + n + 3 && from + 3 <= a < |log| && from + 3 <= b < |log|
    requires log[a].id == log[from].id != "" && log[b].id == log[from + 1].id != ""
    ensures a == from + n + 1 && b == from + n + 2
  {
    ApartAt(log, n, from, a);
    ApartAt(log, n, from + 1, b);
  }

  // Otherwise the prefix can be missed even so.

  /** Both ends come back last; a pair in the other order. A last message that is still there does not. */
  function Echo(n: nat, len: nat, past: nat, i: nat): nat
    requires 1 <= len <= n
  {
    var size := 2 * n - len + past;
    if i == size - 1 then (if past < len || len == 2 then n - len else n - 1)
    else if i == size - 2 && past > len then (if len == 2 then n - 1 else n - len)
    else i
  }

  ghost predicate CanMiss(len: nat, past: int) { len >= 2 && past >= 2 && past != len && !(len == 2 && past == 3) }

  lemma EchoApart(n: nat, len: nat, past: nat, i: nat, j: nat)
    requires 1 <= len <= n && CanMiss(len, past) && i < j < 2 * n - len + past
    requires Echo(n, len, past, i) == Echo(n, len, past, j)
    ensures j - i > n
  {
  }

  function Echoes(n: nat, len: nat, past: nat): (msgs: seq<Message>)
    requires 1 <= len <= n && past >= 2
    ensures |msgs| == 2 * n - len + past
    ensures forall i | 0 <= i < |msgs| :: msgs[i] == Says(Decimal(Echo(n, len, past, i)), "x")
  {
    seq(2 * n - len + past, i requires 0 <= i < 2 * n - len + past => Says(Decimal(Echo(n, len, past, i)), "x"))
  }

  lemma EchoesApart(n: nat, len: nat, past: nat)
    requires 1 <= len <= n && CanMiss(len, past)
    ensures Apart(Echoes(n, len, past), n) && SameMessages(Echoes(n, len, past))
  {
    hide Echo, Echoes;
    var msgs := Echoes(n, len, past);
    forall i, j | 0 <= i < j < |msgs| && msgs[i].id == msgs[j].id
      ensures j - i > n && msgs[i] == msgs[j]
    {
      DecimalInjective(Echo(n, len, past, i), Echo(n, len, past, j));
      EchoApart(n, len, past, i, j);
    }
  }

  /** Where the first message sent is found again, counted from the end. */
  function Behind(len: nat): nat { if len == 2 then 1 else 2 }

  lemma EchoFound(n: nat, len: nat, past: nat)
    requires 1 <= len <= n && CanMiss(len, past)
    ensures var msgs := Echoes(n, len, past);
            var held := msgs[|msgs| - n..];
            && IndexOf(held, msgs[n - len].id) == n - (if past < len then 1 else Behind(len))
            && IndexOf(held, msgs[n - 1].id) == if past < len then len - 1 - past else if len == 2 then n - 2 else n - 1
  {
    EchoAt(n, len, past, n - len, n - (if past < len then 1 else Behind(len)));
    EchoAt(n, len, past, n - 1, if past < len then len - 1 - past else if len == 2 then n - 2 else n - 1);
  }

  lemma EchoAt(n: nat, len: nat, past: nat, number: nat, at: nat)
    requires 1 <= len <= n && CanMiss(len, past) && number < n && at < n
    requires Echo(n, len, past, n - len + past + at) == number == Echo(n, len, past, number)
    requires forall i | n - len + past <= i < n - len + past + at :: Echo(n, len, past, i) != number
    ensures var msgs := Echoes(n, len, past); IndexOf(msgs[|msgs| - n..], msgs[number].id) == at
  {
    hide Echo, Echoes, IndexOf;
    var msgs := Echoes(n, len, past);
    var held := msgs[|msgs| - n..];
    assert held[at] == msgs[n - len + past + at];
    forall j | 0 <= j < at
      ensures held[j].id != msgs[number].id
    {
      assert held[j] == msgs[n - len + past + j];
      if held[j].id == msgs[number].id {
        DecimalInjective(Echo(n, len, past, n - len + past + j), number);
      }
    }
    FoundHere(held, at, msgs[number].id);
  }

  ghost predicate AllSay(msgs: seq<Message>) {
    forall i | 0 <= i < |msgs| :: msgs[i] == Says(msgs[i].id, "x")
  }

  lemma {:induction false} SameLines(enc: Encoder, rows: map<string, nat>, msgs: seq<Message>)
    requires AllSay(msgs)
    ensures |Lines(enc, rows, msgs)| == |msgs| * (|enc(0, "", "", "x")| + 2)
    decreases |msgs|
  {
    if msgs != [] {
      var m := msgs[|msgs| - 1];
      SameLines(enc, rows, msgs[..|msgs| - 1]);
      OneMore(enc, rows, msgs[..|msgs| - 1], m);
      assert msgs == msgs[..|msgs| - 1] + [m];
    }
  }

  /** A log of fewer lines, all alike, does not begin with one of more. */
  lemma FewerLines(enc: Encoder, sent: seq<Message>, held: seq<Message>, from: nat)
    requires from <= |held| && |held| - from < |sent| && AllSay(sent) && AllSay(held)
    ensures !(sent <= held[from..]) && !(Log(enc, sent) <= Log(enc, held[from..]))
  {
    hide Lines, Rows;
    var window := held[from..];
    SameLines(enc, Rows(sent), sent);
    SameLines(enc, Rows(window), window);
    var line := |enc(0, "", "", "x")| + 2;
    assert |sent| * line == |window| * line + (|sent| - |window|) * line;
    assert (|sent| - |window|) * line > 0;
  }

  lemma EchoBreaks(enc: Encoder, n: nat, len: nat, past: nat)
    requires 1 <= len <= n && CanMiss(len, past)
    ensures var q := Replay(Echoes(n, len, past), n, len); q.sent != [] && !Served(enc, n, q) && !LogServed(enc, n, q)
  {
    hide Echoes, Replay, Served, LogServed, PrefixServed, BytesServed, Apart, SameMessages, IndexOf, SentSpan, AnchorOf;
    EchoMisses(enc, n, len, past);
    EchoesApart(n, len, past);
    ReplayServed(enc, Echoes(n, len, past), n, len);
  }

  lemma EchoMisses(enc: Encoder, n: nat, len: nat, past: nat)
    requires 1 <= len <= n && CanMiss(len, past)
    ensures var msgs := Echoes(n, len, past);
            var held, sent := msgs[|msgs| - n..], msgs[n - len..n];
            && !PrefixServed(enc, held, sent, 0, Prices(0.0, 1.0), 0, 0, 1)
            && !BytesServed(enc, held, sent, 0, Prices(0.0, 1.0), 0, 0, 1)
  {
    hide Echoes, PrefixServed, BytesServed, AllSay, IndexOf, SentSpan, AnchorOf, Log;
    var msgs := Echoes(n, len, past);
    var held, sent := msgs[|msgs| - n..], msgs[n - len..n];
    EchoSpan(n, len, past);
    Misses(enc, held, sent);
    FewerLines(enc, sent, held, IndexOf(held, sent[0].id));
  }

  lemma EchoEnds(n: nat, len: nat, past: nat)
    requires 1 <= len <= n && CanMiss(len, past)
    ensures var msgs := Echoes(n, len, past);
            var a, b := IndexOf(msgs[|msgs| - n..], msgs[n - len].id), IndexOf(msgs[|msgs| - n..], msgs[n - 1].id);
            n - len < a && 0 <= b && Max(b, a) == n - 1
  {
    hide IndexOf, Echo, Echoes;
    EchoFound(n, len, past);
  }

  lemma EchoSpan(n: nat, len: nat, past: nat)
    requires 1 <= len <= n && CanMiss(len, past)
    ensures var msgs := Echoes(n, len, past);
            var held, sent := msgs[|msgs| - n..], msgs[n - len..n];
            var from := IndexOf(held, sent[0].id);
            && n - len < from && IndexOf(held, sent[len - 1].id) >= 0
            && SentSpan(held, AnchorOf(sent, 0)).1 == n - 1
            && AllSay(sent) && AllSay(held)
  {
    hide IndexOf, Echo, SentSpan, AnchorOf, Echoes, AllSay, Behind;
    var msgs := Echoes(n, len, past);
    var held, sent := msgs[|msgs| - n..], msgs[n - len..n];
    EchoEnds(n, len, past);
    EchoesSay(n, len, past, |msgs| - n, |msgs|);
    EchoesSay(n, len, past, n - len, n);
    assert msgs[|msgs| - n..|msgs|] == held && sent[0] == msgs[n - len] && sent[len - 1] == msgs[n - 1];
    SpanIs(held, sent);
  }

  lemma EchoesSay(n: nat, len: nat, past: nat, from: nat, upTo: nat)
    requires 1 <= len <= n && past >= 2 && from <= upTo <= |Echoes(n, len, past)|
    ensures AllSay(Echoes(n, len, past)[from..upTo])
  {
  }

  lemma EchoFits(n: nat, len: nat, past: nat)
    requires 1 <= len <= n && CanMiss(len, past)
    ensures var q := Replay(Echoes(n, len, past), n, len);
            Fits(n, q) && |q.sent| == len && Past(n, q) == past && SameMessages(Now(n, q).log)
  {
    hide Echo, Replay, Fits, Past, Apart, Now, SameMessages;
    EchoesApart(n, len, past);
    ReplayFits(Echoes(n, len, past), n, len);
    ReplayRuns(Echoes(n, len, past), n, len);
  }

  ghost predicate Faithful(n: nat, len: nat, past: int, q: Sequel) {
    Shaped(n, len, past, q) && SameMessages(Now(n, q).log)
  }

  lemma FaithfulServed(enc: Encoder, n: nat, len: nat, past: int, q: Sequel)
    requires Faithful(n, len, past, q) && (past <= 1 || past == len || len == 1 || (len == 2 && past == 3))
    ensures Served(enc, n, q) && LogServed(enc, n, q)
  {
    hide Served, LogServed, Past, Fits, Now, SameMessages;
    FitsSent(n, q);
    if len == 1 {
      SingleIsServed(enc, n, q);
      ServedHasLog(enc, n, q);
    } else if past == 3 && len == 2 {
      PairIsServed(enc, n, q);
      ServedHasLog(enc, n, q);
    } else {
      GoneOrWhole(enc, n, len, past, q);
    }
  }

  /**
   * The exact boundary when an ID accepted again always brings the same message: besides the cases
   * above, a window of one message is always served, and one of two messages three places on. It is the
   * same for the bytes alone, whatever the lines look like.
   */
  lemma SameMessagesBoundary(enc: Encoder, n: nat, len: nat, past: int)
    requires 1 <= len <= n
    ensures (forall q | Faithful(n, len, past, q) :: Served(enc, n, q)) <==>
              past <= 1 || past == len || len == 1 || (len == 2 && past == 3)
    ensures (forall q | Faithful(n, len, past, q) :: LogServed(enc, n, q)) <==>
              past <= 1 || past == len || len == 1 || (len == 2 && past == 3)
  {
    hide Fits, Past, Served, LogServed, Echoes, Replay, SameMessages, Now;
    if past <= 1 || past == len || len == 1 || (len == 2 && past == 3) {
      forall q | Faithful(n, len, past, q)
        ensures Served(enc, n, q) && LogServed(enc, n, q)
      {
        FaithfulServed(enc, n, len, past, q);
      }
    } else {
      EchoFits(n, len, past);
      EchoBreaks(enc, n, len, past);
      assert Faithful(n, len, past, Replay(Echoes(n, len, past), n, len));
    }
  }
}
