/**
 * Which messages go to the model (speech/chat_window.go, speech/generate.go): extend the window sent
 * last time, whose prefix the server still has cached, or start again from the newest messages.
 */
module ChatWindow {
  import opened Decimals
  import opened Options
  import opened RingCache
  import opened ChatLog

  /** First and last message of the window sent last time; `at` is unknown for anchors without a time. */
  datatype Anchor = Anchor(start: string, lastSent: string, at: Option<int>)

  datatype Mode = Extend | Reset
  datatype Reason = AnchorLost | CostNotBetter

  datatype Decision = Decision(
    window: seq<Message>,
    mode: Mode,
    reason: Reason,
    hitTokens: int,
    newTokens: int,
    resetTokens: int,
    extendCost: real,
    resetCost: real)

  datatype Prices = Prices(hit: real, miss: real)

  predicate Expired(anchor: Anchor, ttl: int, now: int) {
    ttl > 0 && anchor.at.Some? && now - anchor.at.value > ttl
  }

  function Max(a: int, b: int): int { if a >= b then a else b }

  /** Position of the first message with the ID, or -1. */
  function IndexOf(msgs: seq<Message>, id: string): (k: int)
    ensures -1 <= k < |msgs|
  {
    if msgs == [] then -1
    else
      var k := IndexOf(msgs[..|msgs| - 1], id);
      if k >= 0 then k else if msgs[|msgs| - 1].id == id then |msgs| - 1 else -1
  }

  lemma {:induction false} IndexOfFinds(msgs: seq<Message>, id: string)
    ensures var k := IndexOf(msgs, id);
            && (k >= 0 ==> msgs[k].id == id)
            && forall j | 0 <= j < (if k < 0 then |msgs| else k) :: msgs[j].id != id
    decreases |msgs|
  {
    if msgs != [] {
      var init := msgs[..|msgs| - 1];
      IndexOfFinds(init, id);
      assert forall j | 0 <= j < |init| :: init[j] == msgs[j];
    }
  }

  method FindMsgIndex(msgs: seq<Message>, id: string) returns (k: int)
    ensures k == IndexOf(msgs, id)
  {
    IndexOfFinds(msgs, id);
    for i := 0 to |msgs|
      invariant forall j | 0 <= j < i :: msgs[j].id != id
    {
      if msgs[i].id == id {
        return i;
      }
    }
    k := -1;
  }

  /** How many messages there are up to and including the newest one with the ID; 0 if there is none. */
  function UpTo(msgs: seq<Message>, id: string): (n: nat)
    ensures n <= |msgs|
  {
    if msgs == [] then 0
    else if msgs[|msgs| - 1].id == id then |msgs|
    else UpTo(msgs[..|msgs| - 1], id)
  }

  lemma {:induction false} UpToNewest(msgs: seq<Message>, id: string)
    ensures UpTo(msgs, id) > 0 ==> msgs[UpTo(msgs, id) - 1].id == id
    ensures forall j | UpTo(msgs, id) <= j < |msgs| :: msgs[j].id != id
    decreases |msgs|
  {
    if msgs != [] && msgs[|msgs| - 1].id != id {
      UpToNewest(msgs[..|msgs| - 1], id);
      assert forall j | 0 <= j < |msgs| - 1 :: msgs[j] == msgs[..|msgs| - 1][j];
    }
  }

  /** The messages up to the trigger; all of them if it is not there. */
  function CutAt(msgs: seq<Message>, id: string): seq<Message> {
    if id == "" || UpTo(msgs, id) == 0 then msgs else msgs[..UpTo(msgs, id)]
  }

  method CutAtMessage(msgs: seq<Message>, id: string) returns (cut: seq<Message>)
    ensures cut == CutAt(msgs, id)
  {
    if |msgs| == 0 || id == "" {
      return msgs;
    }
    UpToNewest(msgs, id);
    var i := |msgs| - 1;
    while i >= 0
      invariant -1 <= i < |msgs|
      invariant forall j | i < j < |msgs| :: msgs[j].id != id
    {
      if msgs[i].id == id {
        return msgs[..i + 1];
      }
      i := i - 1;
    }
    cut := msgs;
  }

  function ResetWindow(msgs: seq<Message>, sendCount: nat): seq<Message> {
    msgs[Max(|msgs| - sendCount, 0)..]
  }

  /** Drops the oldest message while the running total is over the limit, taking its own estimate off the total. */
  function Trim(enc: Encoder, window: seq<Message>, total: int, limit: int): seq<Message> {
    if limit > 0 && total > limit && |window| > 1 then
      Trim(enc, window[1..], total - Tokens(Log(enc, window[..1])), limit)
    else window
  }

  /** Where the window sent last time starts and ends in the cache; an end that is gone counts as the start. */
  function SentSpan(msgs: seq<Message>, anchor: Anchor): (span: (int, int))
    ensures -1 <= span.0 <= span.1 < |msgs|
  {
    (IndexOf(msgs, anchor.start), Max(IndexOf(msgs, anchor.lastSent), IndexOf(msgs, anchor.start)))
  }

  /** The figures of both choices, with the choice still open. */
  function Weighed(enc: Encoder, msgs: seq<Message>, anchor: Anchor, prices: Prices, sendCount: nat,
                   systemTokens: nat): Decision
    requires SentSpan(msgs, anchor).0 >= 0
  {
    var (start, last) := SentSpan(msgs, anchor);
    var hit := systemTokens + Tokens(Log(enc, msgs[start..last + 1]));
    var added := Tokens(Log(enc, msgs[last + 1..]));
    var reset := systemTokens + Tokens(Log(enc, ResetWindow(msgs, sendCount)));
    Decision([], Reset, AnchorLost, hit, added, reset,
             hit as real * prices.hit + added as real * prices.miss, reset as real * prices.miss)
  }

  predicate ExtendsBetter(d: Decision, limit: int) {
    d.extendCost < d.resetCost && (limit <= 0 || d.hitTokens + d.newTokens <= limit)
  }

  function Restarted(enc: Encoder, d: Decision, msgs: seq<Message>, limit: int, sendCount: nat,
                     systemTokens: nat): Decision
  {
    var whole := ResetWindow(msgs, sendCount);
    var window := Trim(enc, whole, systemTokens + Tokens(Log(enc, whole)), limit);
    d.(window := window, mode := Reset, resetTokens := systemTokens + Tokens(Log(enc, window)))
  }

  function Decide(enc: Encoder, msgs: seq<Message>, anchor: Option<Anchor>, prices: Prices, limit: int,
                  sendCount: nat, systemTokens: nat): Decision
  {
    if anchor.Some? && SentSpan(msgs, anchor.value).0 >= 0 then
      var d := Weighed(enc, msgs, anchor.value, prices, sendCount, systemTokens);
      if ExtendsBetter(d, limit) then d.(window := msgs[SentSpan(msgs, anchor.value).0..], mode := Extend)
      else Restarted(enc, d.(reason := CostNotBetter), msgs, limit, sendCount, systemTokens)
    else
      Restarted(enc, Decision([], Reset, AnchorLost, 0, 0, 0, 0.0, 0.0), msgs, limit, sendCount, systemTokens)
  }

  method DecideChatWindow(enc: Encoder, msgs: seq<Message>, anchor: Option<Anchor>, prices: Prices, limit: int,
                          sendCount: nat, systemTokens: nat) returns (d: Decision)
    ensures d == Decide(enc, msgs, anchor, prices, limit, sendCount, systemTokens)
  {
    hide Log, Tokens, IndexOf, Trim;
    d := Decision([], Reset, AnchorLost, 0, 0, 0, 0.0, 0.0);
    var extending := false;
    if anchor.Some? {
      var anchorIndex := FindMsgIndex(msgs, anchor.value.start);
      var lastSentIndex := FindMsgIndex(msgs, anchor.value.lastSent);
      lastSentIndex := if lastSentIndex >= anchorIndex then lastSentIndex else anchorIndex;
      if anchorIndex >= 0 {
        var sent := BuildChatLog(enc, msgs[anchorIndex..lastSentIndex + 1]);
        var sentTokens := EstimateTokens(sent);
        var added := BuildChatLog(enc, msgs[lastSentIndex + 1..]);
        var addedTokens := EstimateTokens(added);
        d := d.(newTokens := addedTokens, hitTokens := systemTokens + sentTokens);
        var resetWindowStart := Max(|msgs| - sendCount, 0);
        var renewed := BuildChatLog(enc, msgs[resetWindowStart..]);
        var resetTokens := EstimateTokens(renewed);
        d := d.(resetTokens := systemTokens + resetTokens);
        d := d.(extendCost := d.hitTokens as real * prices.hit + d.newTokens as real * prices.miss,
                resetCost := d.resetTokens as real * prices.miss);
        if d.extendCost < d.resetCost && (limit <= 0 || d.hitTokens + d.newTokens <= limit) {
          d := d.(window := msgs[anchorIndex..], mode := Extend);
          extending := true;
        } else {
          d := d.(reason := CostNotBetter);
        }
      }
    }
    if !extending {
      var window, tokens := TrimToLimit(enc, msgs[Max(|msgs| - sendCount, 0)..], limit, systemTokens);
      d := d.(window := window, mode := Reset, resetTokens := tokens);
    }
  }

  method TrimToLimit(enc: Encoder, whole: seq<Message>, limit: int, systemTokens: nat)
    returns (window: seq<Message>, tokens: int)
    ensures window == Trim(enc, whole, systemTokens + Tokens(Log(enc, whole)), limit)
    ensures tokens == systemTokens + Tokens(Log(enc, window))
  {
    hide Log, Tokens;
    window := whole;
    var log := BuildChatLog(enc, window);
    var logTokens := EstimateTokens(log);
    var total: int := systemTokens + logTokens;
    while limit > 0 && total > limit && |window| > 1
      invariant Trim(enc, window, total, limit) == Trim(enc, whole, systemTokens + Tokens(Log(enc, whole)), limit)
      decreases |window|
    {
      var oldest := BuildChatLog(enc, window[..1]);
      var oldestTokens := EstimateTokens(oldest);
      total := total - oldestTokens;
      window := window[1..];
    }
    var kept := BuildChatLog(enc, window);
    var keptTokens := EstimateTokens(kept);
    tokens := systemTokens + keptTokens;
  }

  /** An expired anchor is as good as none. */
  function Select(enc: Encoder, msgs: seq<Message>, anchor: Option<Anchor>, ttl: int, now: int, prices: Prices,
                  limit: int, sendCount: nat, systemTokens: nat): Decision
  {
    var usable := if anchor.Some? && Expired(anchor.value, ttl, now) then None else anchor;
    Decide(enc, msgs, usable, prices, limit, sendCount, systemTokens)
  }

  // ---------------------------------------------------------------------------------------------
  // The window.

  lemma {:induction false} TrimIsSuffix(enc: Encoder, window: seq<Message>, total: int, limit: int)
    ensures var kept := Trim(enc, window, total, limit);
            |kept| <= |window| && kept == window[|window| - |kept|..] && (window != [] ==> kept != [])
    decreases |window|
  {
    hide Log, Tokens;
    if limit > 0 && total > limit && |window| > 1 {
      TrimIsSuffix(enc, window[1..], total - Tokens(Log(enc, window[..1])), limit);
    }
  }

  /** Whatever is decided, what is sent is a run of messages up to the newest, and there is something to send. */
  lemma WindowIsSuffix(enc: Encoder, msgs: seq<Message>, anchor: Option<Anchor>, prices: Prices, limit: int,
                       sendCount: nat, systemTokens: nat)
    ensures var w := Decide(enc, msgs, anchor, prices, limit, sendCount, systemTokens).window;
            && |w| <= |msgs| && w == msgs[|msgs| - |w|..]
            && (msgs != [] && sendCount >= 1 ==> w != [])
  {
    hide Log, Tokens, IndexOf, Trim, ExtendsBetter;
    var whole := ResetWindow(msgs, sendCount);
    TrimIsSuffix(enc, whole, systemTokens + Tokens(Log(enc, whole)), limit);
  }

  lemma DecidesToReset(enc: Encoder, msgs: seq<Message>, anchor: Option<Anchor>, prices: Prices, limit: int,
                       sendCount: nat, systemTokens: nat)
    ensures var d, whole := Decide(enc, msgs, anchor, prices, limit, sendCount, systemTokens), ResetWindow(msgs, sendCount);
            d.mode.Reset? ==>
              && d.window == Trim(enc, whole, systemTokens + Tokens(Log(enc, whole)), limit)
              && d.resetTokens == systemTokens + Tokens(Log(enc, d.window))
  {
    hide Log, Tokens, IndexOf, Trim, ExtendsBetter;
  }

  lemma DecidesToExtend(enc: Encoder, msgs: seq<Message>, anchor: Anchor, prices: Prices, limit: int,
                        sendCount: nat, systemTokens: nat)
    ensures var d, span := Decide(enc, msgs, Some(anchor), prices, limit, sendCount, systemTokens), SentSpan(msgs, anchor);
            d.mode.Extend? ==>
              && span.0 >= 0 && d.window == msgs[span.0..]
              && d.hitTokens == systemTokens + Tokens(Log(enc, msgs[span.0..span.1 + 1]))
              && d.newTokens == Tokens(Log(enc, msgs[span.1 + 1..]))
              && d.extendCost < d.resetCost && (limit <= 0 || d.hitTokens + d.newTokens <= limit)
  {
    hide Log, Tokens, IndexOf, Trim, SentSpan;
  }
}
