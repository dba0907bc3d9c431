/**
 * How far a window can pass the token limit (the guardrail in speech/chat_window.go). A restarted
 * window is trimmed by subtracting rounded-up estimates, an extended one is weighed in two parts.
 */
module WindowLimit {
  import opened Decimals
  import opened Options
  import opened RingCache
  import opened ChatLog
  import opened ChatWindow

  // ---------------------------------------------------------------------------------------------
  // A restarted window.

  /** What the trimming loop believes is left after dropping the first k messages. */
  function Claimed(enc: Encoder, window: seq<Message>, total: int, k: nat): int
    requires k <= |window|
  {
    if k == 0 then total else Claimed(enc, window[1..], total - Tokens(Log(enc, window[..1])), k - 1)
  }

  /** The loop stops at the first count that brings its own total within the limit, or at one message. */
  lemma {:induction false} TrimStops(enc: Encoder, window: seq<Message>, total: int, limit: int)
    requires limit > 0 && window != []
    ensures var k := |window| - |Trim(enc, window, total, limit)|;
            && 0 <= k < |window|
            && (Claimed(enc, window, total, k) <= limit || k == |window| - 1)
            && forall j: nat | j < k :: Claimed(enc, window, total, j) > limit
    decreases |window|
  {
    TrimIsSuffix(enc, window, total, limit);
    hide Log, Tokens;
    if total > limit && |window| > 1 {
      TrimStops(enc, window[1..], total - Tokens(Log(enc, window[..1])), limit);
      var k := |window| - |Trim(enc, window, total, limit)|;
      forall j: nat | j < k
        ensures Claimed(enc, window, total, j) > limit
      {
        if j > 0 {
          assert Claimed(enc, window[1..], total - Tokens(Log(enc, window[..1])), j - 1) > limit;
        }
      }
    }
  }

  /** Four times the estimate before rounding. */
  function Weight(s: string): nat { 4 * Wide(s) + Narrow(s) }

  lemma Rounding(s: string)
    ensures Weight(s) <= 4 * Tokens(s) <= Weight(s) + 3
  {
  }

  lemma DropOne(enc: Encoder, window: seq<Message>)
    requires Distinct(window) && window != []
    ensures Distinct(window[1..])
    ensures Weight(Log(enc, window[1..])) + 4 * Tokens(Log(enc, window[..1])) <= Weight(Log(enc, window)) + 3
  {
    assert window == window[..1] + window[1..];
    LogSplits(enc, window[..1], window[1..]);
    Rounding(Log(enc, window[..1]));
  }

  lemma {:induction false} WeightDrift(enc: Encoder, window: seq<Message>, total: int, k: nat)
    requires Distinct(window) && k <= |window|
    ensures Weight(Log(enc, window[k..])) <= Weight(Log(enc, window)) + 4 * (Claimed(enc, window, total, k) - total) + 3 * k
    decreases k
  {
    hide Log, Tokens, Distinct, Weight;
    if k == 0 {
      assert window[0..] == window;
    } else {
      DropOne(enc, window);
      WeightDrift(enc, window[1..], total - Tokens(Log(enc, window[..1])), k - 1);
      assert window[1..][k - 1..] == window[k..];
    }
  }

  /** k subtracted estimates and the one of what is left are k + 1 roundings, each of at most three quarters of a token. */
  lemma DriftPerDrop(enc: Encoder, window: seq<Message>, total: int, k: nat)
    requires Distinct(window) && k <= |window|
    ensures Tokens(Log(enc, window[k..])) <=
              Tokens(Log(enc, window)) + Claimed(enc, window, total, k) - total + 3 * (k + 1) / 4
  {
    hide Log, Tokens, Distinct, Weight, Claimed;
    WeightDrift(enc, window, total, k);
    Rounding(Log(enc, window));
    Rounding(Log(enc, window[k..]));
  }

  /**
   * `tokens` is what the window really costs. After k drops it passes the limit by no more than
   * 3(k + 1)/4; in particular a window that dropped nothing is within the limit. Only a window cut down
   * to one message can exceed it by more.
   */
  ghost predicate DriftBounded(enc: Encoder, whole: seq<Message>, window: seq<Message>, tokens: int, limit: int,
                               systemTokens: nat)
  {
    var k := |whole| - |window|;
    && 0 <= k < |whole| && tokens == systemTokens + Tokens(Log(enc, window))
    && (Claimed(enc, whole, systemTokens + Tokens(Log(enc, whole)), k) <= limit ==> tokens <= limit + 3 * (k + 1) / 4)
    && (|window| > 1 ==> tokens <= limit + 3 * (k + 1) / 4)
    && (|window| > 1 && k == 0 ==> tokens <= limit)
  }

  /** Every restarted window keeps to that bound. */
  lemma ResetBound(enc: Encoder, msgs: seq<Message>, anchor: Option<Anchor>, prices: Prices, limit: int,
                   sendCount: nat, systemTokens: nat)
    requires Distinct(msgs) && limit > 0 && msgs != [] && sendCount >= 1
    ensures var d := Decide(enc, msgs, anchor, prices, limit, sendCount, systemTokens);
            d.mode.Reset? ==> DriftBounded(enc, ResetWindow(msgs, sendCount), d.window, d.resetTokens, limit, systemTokens)
  {
    hide *;
    DecidesToReset(enc, msgs, anchor, prices, limit, sendCount, systemTokens);
    ResetIsDistinct(msgs, sendCount);
    var whole := ResetWindow(msgs, sendCount);
    var total := systemTokens + Tokens(Log(enc, whole));
    TrimIsSuffix(enc, whole, total, limit);
    TrimStops(enc, whole, total, limit);
    DriftPerDrop(enc, whole, total, |whole| - |Trim(enc, whole, total, limit)|);
    DriftOf(enc, whole, Trim(enc, whole, total, limit), limit, systemTokens);
    assert var d := Decide(enc, msgs, anchor, prices, limit, sendCount, systemTokens);
           d.mode.Reset? ==> DriftBounded(enc, whole, d.window, d.resetTokens, limit, systemTokens);
  }

  lemma ResetIsDistinct(msgs: seq<Message>, sendCount: nat)
    requires Distinct(msgs)
    ensures Distinct(ResetWindow(msgs, sendCount)) && (msgs != [] && sendCount >= 1 ==> ResetWindow(msgs, sendCount) != [])
  {
  }

  lemma DriftOf(enc: Encoder, whole: seq<Message>, window: seq<Message>, limit: int, systemTokens: nat)
    requires window != [] && |window| <= |whole| && window == whole[|whole| - |window|..]
    requires var k, total := |whole| - |window|, systemTokens + Tokens(Log(enc, whole));
             && (Claimed(enc, whole, total, k) <= limit || k == |whole| - 1)
             && Tokens(Log(enc, whole[k..])) <= Tokens(Log(enc, whole)) + Claimed(enc, whole, total, k) - total + 3 * (k + 1) / 4
    ensures DriftBounded(enc, whole, window, systemTokens + Tokens(Log(enc, window)), limit, systemTokens)
  {
    hide Claimed, Log, Tokens;
  }

  // The bound is met, whatever the number of dropped messages.

  /** Messages that each give one ASCII line of the same length. */
  ghost predicate Even(enc: Encoder, msgs: seq<Message>, width: nat) {
    forall i | 0 <= i < |msgs| ::
      && msgs[i].content != "" && msgs[i].replyTo == ""
      && Wide(Line(enc, msgs[i], 0)) == 0 && Narrow(Line(enc, msgs[i], 0)) == width
  }

  lemma {:induction false} EvenSize(enc: Encoder, rows: map<string, nat>, msgs: seq<Message>, width: nat)
    requires Even(enc, msgs, width)
    ensures Wide(Lines(enc, rows, msgs)) == 0 && Narrow(Lines(enc, rows, msgs)) == width * |msgs|
    decreases |msgs|
  {
    if msgs != [] {
      var init, m := msgs[..|msgs| - 1], msgs[|msgs| - 1];
      EvenSize(enc, rows, init, width);
      hide Line, Wide, Narrow;
      CountsAppend(Lines(enc, rows, init), Line(enc, m, 0));
      assert width * |msgs| == width * |init| + width;
    }
  }

  lemma EvenTokens(enc: Encoder, msgs: seq<Message>, width: nat)
    requires Even(enc, msgs, width)
    ensures Tokens(Log(enc, msgs)) == (width * |msgs| + 3) / 4
  {
    hide Wide, Narrow, Lines, Even;
    EvenSize(enc, Rows(msgs), msgs, width);
  }

  lemma {:induction false} EvenClaimed(enc: Encoder, msgs: seq<Message>, width: nat, total: int, k: nat)
    requires Even(enc, msgs, width) && k <= |msgs|
    ensures Claimed(enc, msgs, total, k) == total - k * ((width + 3) / 4)
    decreases k
  {
    hide Log, Tokens, Line, Wide, Narrow;
    if k > 0 {
      var one := (width + 3) / 4;
      EvenTokens(enc, msgs[..1], width);
      assert |msgs[..1]| == 1 && width * 1 == width;
      EvenClaimed(enc, msgs[1..], width, total - one, k - 1);
      assert k * one == (k - 1) * one + one;
    }
  }

  /** A line of 33 ASCII characters is estimated at nine tokens, three quarters of one too many. */
  const WIDTH := 33

  /** A system prompt of k tokens, and k messages too many by the loop's own count. */
  function LaughterLimit(k: nat): int { k + (WIDTH * (k + 5) + 3) / 4 - 9 * k }

  lemma LaughterLimitValue(k: nat)
    ensures LaughterLimit(k) > 0 && LaughterLimit(k) + 3 * (k + 1) / 4 == k + 42
  {
  }

  /** By the loop's own count exactly k drops are needed. */
  lemma EvenTrim(enc: Encoder, msgs: seq<Message>, limit: int, systemTokens: nat, k: nat)
    requires Even(enc, msgs, WIDTH) && |msgs| == k + 5
    requires systemTokens == k && limit == LaughterLimit(k)
    ensures var window := Trim(enc, msgs, systemTokens + Tokens(Log(enc, msgs)), limit);
            |window| == 5 && systemTokens + Tokens(Log(enc, window)) == systemTokens + 42
  {
    hide Even, Log, Tokens, Trim, Claimed;
    var total := systemTokens + Tokens(Log(enc, msgs));
    LaughterLimitValue(k);
    EvenTokens(enc, msgs, WIDTH);
    TrimStops(enc, msgs, total, limit);
    TrimIsSuffix(enc, msgs, total, limit);
    var window := Trim(enc, msgs, total, limit);
    var dropped := |msgs| - |window|;
    EvenClaimed(enc, msgs, WIDTH, total, k);
    EvenClaimed(enc, msgs, WIDTH, total, dropped);
    assert dropped <= k;
    assert dropped >= k;
    EvenTail(enc, msgs, WIDTH, k);
    EvenTokens(enc, window, WIDTH);
  }

  lemma EvenTail(enc: Encoder, msgs: seq<Message>, width: nat, k: nat)
    requires Even(enc, msgs, width) && k <= |msgs|
    ensures Even(enc, msgs[k..], width)
  {
  }

  /** `n` people laugh, under different IDs. */
  function Laughter(n: nat): seq<Message> { seq(n, i requires 0 <= i < n => Says(Decimal(i), "haha")) }

  lemma LaughterDistinct(n: nat)
    ensures Distinct(Laughter(n)) && forall i | 0 <= i < n :: Laughter(n)[i].id != ""
  {
    forall i, j | 0 <= i < j < n
      ensures Laughter(n)[i].id != Laughter(n)[j].id
    {
      if Decimal(i) == Decimal(j) {
        DecimalInjective(i, j);
      }
    }
  }

  lemma LaughterEven(enc: Encoder, n: nat)
    requires enc(0, "", "", "haha") == "{\"nickname\":\"\",\"message\":\"haha\""
    ensures Even(enc, Laughter(n), WIDTH)
  {
    var body := "{\"nickname\":\"\",\"message\":\"haha\"";
    assert |body| == 31;
    var line := body + "" + "}\n";
    NarrowText(line);
    assert forall i | 0 <= i < n :: Line(enc, Laughter(n)[i], 0) == line;
  }

  /**
   * The drift bound is met for every number k of dropped messages, with distinct IDs and the line that
   * JSON gives a nameless message saying "haha": five messages are left, and they cost 3(k + 1)/4 too much.
   */
  lemma ResetOvershoots(enc: Encoder, k: nat)
    requires enc(0, "", "", "haha") == "{\"nickname\":\"\",\"message\":\"haha\""
    ensures Distinct(Laughter(k + 5)) && LaughterLimit(k) > 0
    ensures var d := Decide(enc, Laughter(k + 5), None, Prices(0.0, 0.0), LaughterLimit(k), k + 5, k);
            d.mode.Reset? && |d.window| == 5 && d.resetTokens == LaughterLimit(k) + 3 * (k + 1) / 4
  {
    hide *;
    var msgs, limit := Laughter(k + 5), LaughterLimit(k);
    LaughterEven(enc, k + 5);
    LaughterDistinct(k + 5);
    LaughterWhole(k + 5);
    LaughterLimitValue(k);
    DecidesToReset(enc, msgs, None, Prices(0.0, 0.0), limit, k + 5, k);
    NoAnchorResets(enc, msgs, Prices(0.0, 0.0), limit, k + 5, k);
    EvenTrim(enc, msgs, limit, k, k);
    assert var d := Decide(enc, Laughter(k + 5), None, Prices(0.0, 0.0), LaughterLimit(k), k + 5, k);
           d.mode.Reset? && |d.window| == 5 && d.resetTokens == LaughterLimit(k) + 3 * (k + 1) / 4;
  }

  lemma LaughterWhole(n: nat)
    ensures |Laughter(n)| == n && ResetWindow(Laughter(n), n) == Laughter(n)
  {
  }

  lemma NoAnchorResets(enc: Encoder, msgs: seq<Message>, prices: Prices, limit: int, sendCount: nat, systemTokens: nat)
    ensures Decide(enc, msgs, None, prices, limit, sendCount, systemTokens).mode.Reset?
  {
    hide Trim, Log, Tokens;
  }

  // ---------------------------------------------------------------------------------------------
  // An extended window.

  /** The reply_id fields that point between the part sent before and the rest. */
  function CrossingAt(msgs: seq<Message>, anchor: Anchor): string
    requires SentSpan(msgs, anchor).0 >= 0
  {
    var (start, last) := SentSpan(msgs, anchor);
    Crossing(msgs[start..last + 1], msgs[last + 1..])
  }

  /**
   * An extended window costs no more than what was weighed exactly if no reply_id field crosses between
   * the part already sent and the new part, and otherwise more by no more than those fields.
   */
  lemma ExtendBound(enc: Encoder, msgs: seq<Message>, anchor: Anchor, prices: Prices, limit: int,
                    sendCount: nat, systemTokens: nat)
    requires Distinct(msgs)
    ensures var d := Decide(enc, msgs, Some(anchor), prices, limit, sendCount, systemTokens);
            d.mode.Extend? ==>
              var actual := systemTokens + Tokens(Log(enc, d.window));
              && SentSpan(msgs, anchor).0 >= 0 && d.extendCost < d.resetCost
              && (actual <= d.hitTokens + d.newTokens <==> CrossingAt(msgs, anchor) == "")
              && actual <= d.hitTokens + d.newTokens + Tokens(CrossingAt(msgs, anchor))
              && (limit > 0 ==> d.hitTokens + d.newTokens <= limit)
  {
    var (start, last) := SentSpan(msgs, anchor);
    DecidesToExtend(enc, msgs, anchor, prices, limit, sendCount, systemTokens);
    hide Decide, SentSpan, Log, Tokens, Crossing, Distinct;
    if start >= 0 {
      SplitWindow(enc, msgs, start, last + 1);
    }
  }

  lemma SplitWindow(enc: Encoder, msgs: seq<Message>, a: nat, b: nat)
    requires Distinct(msgs) && a <= b <= |msgs|
    ensures Tokens(Log(enc, msgs[a..])) <= Tokens(Log(enc, msgs[a..b])) + Tokens(Log(enc, msgs[b..])) <==>
              Crossing(msgs[a..b], msgs[b..]) == ""
    ensures Tokens(Log(enc, msgs[a..])) <=
              Tokens(Log(enc, msgs[a..b])) + Tokens(Log(enc, msgs[b..])) + Tokens(Crossing(msgs[a..b], msgs[b..]))
  {
    var sent, added := msgs[a..b], msgs[b..];
    assert msgs[a..] == sent + added;
    assert forall i | 0 <= i < |sent + added| :: (sent + added)[i] == msgs[a + i];
    hide Log, Tokens, Crossing;
    SplitExactly(enc, sent, added);
  }

  /** With this limit the window is extended, and passes it. */
  predicate Overshoots(enc: Encoder, msgs: seq<Message>, anchor: Anchor, prices: Prices, limit: int,
                       sendCount: nat, systemTokens: nat)
  {
    var d := Decide(enc, msgs, Some(anchor), prices, limit, sendCount, systemTokens);
    limit > 0 && d.mode.Extend? && systemTokens + Tokens(Log(enc, d.window)) > limit
  }

  /** Where extending is the cheaper choice: some limit lets an oversized window through exactly if a field crosses. */
  lemma ExtendOvershootsExactly(enc: Encoder, msgs: seq<Message>, anchor: Anchor, prices: Prices, sendCount: nat,
                                systemTokens: nat)
    requires Distinct(msgs) && Decide(enc, msgs, Some(anchor), prices, 0, sendCount, systemTokens).mode.Extend?
    ensures SentSpan(msgs, anchor).0 >= 0
    ensures (exists limit :: Overshoots(enc, msgs, anchor, prices, limit, sendCount, systemTokens)) <==>
              CrossingAt(msgs, anchor) != ""
  {
    ExtendBound(enc, msgs, anchor, prices, 0, sendCount, systemTokens);
    var d := Decide(enc, msgs, Some(anchor), prices, 0, sendCount, systemTokens);
    var bound := d.hitTokens + d.newTokens;
    if CrossingAt(msgs, anchor) != "" {
      WeighedSomething(enc, msgs, anchor, prices, sendCount, systemTokens);
      SameButForLimit(enc, msgs, anchor, prices, bound, sendCount, systemTokens);
      hide Decide, CrossingAt, SentSpan, Log, Tokens;
      assert Overshoots(enc, msgs, anchor, prices, bound, sendCount, systemTokens);
    } else {
      forall limit
        ensures !Overshoots(enc, msgs, anchor, prices, limit, sendCount, systemTokens)
      {
        hide Decide, CrossingAt, SentSpan, Log, Tokens;
        ExtendBound(enc, msgs, anchor, prices, limit, sendCount, systemTokens);
      }
    }
  }

  /** A limit of exactly what was weighed changes nothing. */
  lemma SameButForLimit(enc: Encoder, msgs: seq<Message>, anchor: Anchor, prices: Prices, limit: int, sendCount: nat,
                        systemTokens: nat)
    requires var d := Decide(enc, msgs, Some(anchor), prices, 0, sendCount, systemTokens);
             d.mode.Extend? && limit == d.hitTokens + d.newTokens
    ensures Decide(enc, msgs, Some(anchor), prices, limit, sendCount, systemTokens) ==
            Decide(enc, msgs, Some(anchor), prices, 0, sendCount, systemTokens)
  {
    hide Log, Tokens, IndexOf, Trim, SentSpan;
  }

  lemma WeighedSomething(enc: Encoder, msgs: seq<Message>, anchor: Anchor, prices: Prices, sendCount: nat,
                         systemTokens: nat)
    requires SentSpan(msgs, anchor).0 >= 0 && CrossingAt(msgs, anchor) != ""
    requires Decide(enc, msgs, Some(anchor), prices, 0, sendCount, systemTokens).mode.Extend?
    ensures var d := Decide(enc, msgs, Some(anchor), prices, 0, sendCount, systemTokens); d.hitTokens + d.newTokens > 0
  {
    var (start, last) := SentSpan(msgs, anchor);
    DecidesToExtend(enc, msgs, anchor, prices, 0, sendCount, systemTokens);
    hide Decide, SentSpan, Tokens, Log;
    SomeField(enc, msgs[start..last + 1], msgs[last + 1..]);
  }

  lemma SomeField(enc: Encoder, xs: seq<Message>, ys: seq<Message>)
    requires Crossing(xs, ys) != ""
    ensures Tokens(Log(enc, xs)) + Tokens(Log(enc, ys)) > 0
  {
    hide Tokens, Log, Rows;
    if Fields(Rows(xs), ys) != "" {
      FieldNeedsLine(enc, Rows(xs), ys, Rows(ys));
    } else {
      FieldNeedsLine(enc, Rows(ys), xs, Rows(xs));
    }
    assert Tokens(Log(enc, xs)) + Tokens(Log(enc, ys)) > 0 by {
      LogIsLines(enc, xs);
      LogIsLines(enc, ys);
    }
  }

  lemma LogIsLines(enc: Encoder, msgs: seq<Message>)
    ensures Log(enc, msgs) == Lines(enc, Rows(msgs), msgs)
  {
  }

  lemma {:induction false} FieldNeedsLine(enc: Encoder, rows: map<string, nat>, msgs: seq<Message>, own: map<string, nat>)
    requires Fields(rows, msgs) != ""
    ensures Tokens(Lines(enc, own, msgs)) > 0
    decreases |msgs|
  {
    var init, m := msgs[..|msgs| - 1], msgs[|msgs| - 1];
    if m.content == "" {
      FieldNeedsLine(enc, rows, init, own);
    } else {
      Letters(Lines(enc, own, msgs));
    }
  }

  /** Two messages, the second quoting the first, which was sent before. */
  function Quote(): seq<Message> {
    [Message("1", 1, "", "", "", "a", "", 0), Message("2", 2, "", "", "", "b", "1", 0)]
  }

  /** It happens whatever the lines look like: an answer to the last message sent is enough. */
  lemma ExtendOvershoots(enc: Encoder)
    ensures exists limit :: Overshoots(enc, Quote(), Anchor("1", "1", None), Prices(0.0, 1.0), limit, 2, 0)
  {
    var a, b := Quote()[0], Quote()[1];
    var anchor := Anchor("1", "1", None);
    QuoteSpan(anchor);
    QuoteCrosses(a, b);
    assert Quote()[0..1] == [a] && Quote()[1..] == [b] && Distinct(Quote());
    hide Crossing, IndexOf, SentSpan;
    assert CrossingAt(Quote(), anchor) != "";
    QuoteExtends(enc, a, b);
    hide *;
    ExtendOvershootsExactly(enc, Quote(), anchor, Prices(0.0, 1.0), 2, 0);
    assert exists limit :: Overshoots(enc, Quote(), anchor, Prices(0.0, 1.0), limit, 2, 0);
  }

  lemma QuoteSpan(anchor: Anchor)
    requires anchor == Anchor("1", "1", None)
    ensures SentSpan(Quote(), anchor) == (0, 0)
  {
    IndexOfFinds(Quote(), "1");
    assert Quote()[0].id == "1";
  }

  lemma QuoteCrosses(a: Message, b: Message)
    requires [a, b] == Quote()
    ensures Crossing([a], [b]) != ""
  {
    assert a == Quote()[0] && b == Quote()[1];
    assert [a][..0] == [] && [b][..0] == [];
    assert Rows([a]) == map["1" := 1];
    assert ReplyOf(Rows([a]), b) == 1;
    assert Fields(Rows([a]), [b]) == "" + ReplyField(1);
  }

  lemma QuoteExtends(enc: Encoder, a: Message, b: Message)
    requires [a, b] == Quote()
    ensures Decide(enc, Quote(), Some(Anchor("1", "1", None)), Prices(0.0, 1.0), 0, 2, 0).mode.Extend?
  {
    QuoteSpan(Anchor("1", "1", None));
    QuoteCrosses(a, b);
    assert a == Quote()[0] && b == Quote()[1];
    assert Distinct([a] + [b]) && Quote() == [a] + [b];
    hide *;
    SplitMore(enc, [a], [b]);
    CheaperExtends(enc, a, b);
    assert Decide(enc, Quote(), Some(Anchor("1", "1", None)), Prices(0.0, 1.0), 0, 2, 0).mode.Extend?;
  }

  lemma CheaperExtends(enc: Encoder, a: Message, b: Message)
    requires Quote() == [a] + [b] && SentSpan(Quote(), Anchor("1", "1", None)) == (0, 0)
    requires Tokens(Log(enc, Quote())) > Tokens(Log(enc, [b]))
    ensures Decide(enc, Quote(), Some(Anchor("1", "1", None)), Prices(0.0, 1.0), 0, 2, 0).mode.Extend?
  {
    hide Quote, Log, Tokens, IndexOf, SentSpan, Trim;
    var msgs := Quote();
    assert msgs[0..1] == [a] && msgs[1..] == [b] && ResetWindow(msgs, 2) == msgs;
  }

  lemma SplitMore(enc: Encoder, xs: seq<Message>, ys: seq<Message>)
    requires Distinct(xs + ys) && Crossing(xs, ys) != ""
    ensures Tokens(Log(enc, xs + ys)) > Tokens(Log(enc, xs)) + Tokens(Log(enc, ys))
  {
    hide *;
    SplitExactly(enc, xs, ys);
  }
}
