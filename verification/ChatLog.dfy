/**
 * The chat log sent to the model and its token estimate (conversation/cache.go, conversation/token.go).
 *
 * A line is one JSON object. Everything in it up to the optional reply_id field, which comes last,
 * is given by an encoder: any function of the row number, user, nickname and text.
 */
module ChatLog {
  import opened Decimals
  import opened RingCache

  type Encoder = (int, string, string, string) -> string

  // ---------------------------------------------------------------------------------------------
  // Tokens.

  predicate IsWide(c: char) { c as int > 0x2E7F }

  function Wide(s: string): nat {
    if s == "" then 0 else Wide(s[..|s| - 1]) + if IsWide(s[|s| - 1]) then 1 else 0
  }

  function Narrow(s: string): nat {
    if s == "" then 0 else Narrow(s[..|s| - 1]) + if IsWide(s[|s| - 1]) then 0 else 1
  }

  function Tokens(s: string): nat { Wide(s) + (Narrow(s) + 3) / 4 }

  method EstimateTokens(s: string) returns (n: nat)
    ensures n == Tokens(s)
  {
    var cjk, ascii, i := 0, 0, 0;
    while i < |s|
      invariant 0 <= i <= |s|
      invariant cjk == Wide(s[..i]) && ascii == Narrow(s[..i])
    {
      assert s[..i + 1][..i] == s[..i];
      if s[i] as int > 0x2E7F {
        cjk := cjk + 1;
      } else {
        ascii := ascii + 1;
      }
      i := i + 1;
    }
    assert s[..|s|] == s;
    n := cjk + (ascii + 3) / 4;
  }

  lemma {:induction false} CountsAppend(a: string, b: string)
    ensures Wide(a + b) == Wide(a) + Wide(b) && Narrow(a + b) == Narrow(a) + Narrow(b)
    decreases |b|
  {
    if b == "" {
      assert a + b == a;
    } else {
      CountsAppend(a, b[..|b| - 1]);
      assert (a + b)[..|a + b| - 1] == a + b[..|b| - 1];
    }
  }

  /** Estimating two pieces apart never gives less than estimating them together, and at most one more. */
  lemma TokensAppend(a: string, b: string)
    ensures Tokens(a + b) <= Tokens(a) + Tokens(b) <= Tokens(a + b) + 1
  {
    CountsAppend(a, b);
  }

  // ---------------------------------------------------------------------------------------------
  // The log.

  /** A message that gets a line others can point to. */
  predicate Shown(m: Message) { m.content != "" && m.row > 0 && m.id != "" }

  /** The row number each message ID stands for; a later message with the same ID wins. */
  function Rows(msgs: seq<Message>): map<string, nat> {
    if msgs == [] then map[]
    else
      var before, m := Rows(msgs[..|msgs| - 1]), msgs[|msgs| - 1];
      if Shown(m) then before[m.id := m.row] else before
  }

  function ReplyOf(rows: map<string, nat>, m: Message): nat {
    if m.replyTo != "" && m.replyTo in rows then rows[m.replyTo] else 0
  }

  /** The last field of a line; omitted when there is nothing to point to. */
  function ReplyField(reply: nat): string {
    if reply == 0 then ""
    else ",\"reply_id\":" + Decimal(reply)
  }

  function Line(enc: Encoder, m: Message, reply: nat): string {
    enc(m.row, m.user, m.nickname, m.content) + ReplyField(reply) + "}\n"
  }

  function Lines(enc: Encoder, rows: map<string, nat>, msgs: seq<Message>): string {
    if msgs == [] then ""
    else
      var before, m := Lines(enc, rows, msgs[..|msgs| - 1]), msgs[|msgs| - 1];
      if m.content == "" then before else before + Line(enc, m, ReplyOf(rows, m))
  }

  function Log(enc: Encoder, msgs: seq<Message>): string { Lines(enc, Rows(msgs), msgs) }

  method BuildChatLog(enc: Encoder, msgs: seq<Message>) returns (log: string)
    ensures log == Log(enc, msgs)
  {
    var rows: map<string, nat> := map[];
    for i := 0 to |msgs|
      invariant rows == Rows(msgs[..i])
    {
      var msg := msgs[i];
      assert msgs[..i + 1][..i] == msgs[..i];
      if msg.content == "" || msg.row <= 0 {
        continue;
      }
      if msg.id != "" {
        rows := rows[msg.id := msg.row];
      }
    }
    assert msgs[..|msgs|] == msgs;
    log := "";
    for i := 0 to |msgs|
      invariant log == Lines(enc, rows, msgs[..i])
    {
      var msg := msgs[i];
      assert msgs[..i + 1][..i] == msgs[..i];
      if msg.content == "" {
        continue;
      }
      var reply := 0;
      if msg.replyTo != "" {
        reply := if msg.replyTo in rows then rows[msg.replyTo] else 0;
      }
      log := log + Line(enc, msg, reply);
    }
  }

  lemma {:induction false} RowsAppend(xs: seq<Message>, ys: seq<Message>)
    ensures Rows(xs + ys) == Rows(xs) + Rows(ys)
    decreases |ys|
  {
    if ys == [] {
      assert xs + ys == xs;
    } else {
      RowsAppend(xs, ys[..|ys| - 1]);
      assert (xs + ys)[..|xs + ys| - 1] == xs + ys[..|ys| - 1];
    }
  }

  lemma {:induction false} LinesAppend(enc: Encoder, rows: map<string, nat>, xs: seq<Message>, ys: seq<Message>)
    ensures Lines(enc, rows, xs + ys) == Lines(enc, rows, xs) + Lines(enc, rows, ys)
    decreases |ys|
  {
    if ys == [] {
      assert xs + ys == xs;
    } else {
      var init, m := ys[..|ys| - 1], ys[|ys| - 1];
      LinesAppend(enc, rows, xs, init);
      assert (xs + ys)[..|xs + ys| - 1] == xs + init && (xs + ys)[|xs + ys| - 1] == m;
      hide Line, ReplyOf;
      var line := Line(enc, m, ReplyOf(rows, m));
      assert Lines(enc, rows, xs) + Lines(enc, rows, init) + line == Lines(enc, rows, xs) + (Lines(enc, rows, init) + line);
    }
  }

  /** An ID is in the table exactly when a shown message has it, and stands for the row of the last such message. */
  lemma {:induction false} RowsMean(msgs: seq<Message>, id: string)
    ensures id in Rows(msgs) <==> exists i :: 0 <= i < |msgs| && Shown(msgs[i]) && msgs[i].id == id
    ensures id in Rows(msgs) ==>
              exists i :: 0 <= i < |msgs| && Shown(msgs[i]) && msgs[i].id == id && Rows(msgs)[id] == msgs[i].row
                          && forall j | i < j < |msgs| :: !(Shown(msgs[j]) && msgs[j].id == id)
    decreases |msgs|
  {
    if msgs != [] {
      var init, n := msgs[..|msgs| - 1], |msgs| - 1;
      RowsMean(init, id);
      assert forall i | 0 <= i < n :: init[i] == msgs[i];
      if id in Rows(init) {
        var i :| 0 <= i < |init| && Shown(init[i]) && init[i].id == id && Rows(init)[id] == init[i].row
                 && forall j | i < j < |init| :: !(Shown(init[j]) && init[j].id == id);
        assert Shown(msgs[i]) && msgs[i].id == id;
        assert (Shown(msgs[n]) && msgs[n].id == id) || forall j | i < j < |msgs| :: !(Shown(msgs[j]) && msgs[j].id == id);
      }
    }
  }

  lemma {:induction false} SameReplies(enc: Encoder, a: map<string, nat>, b: map<string, nat>, msgs: seq<Message>)
    requires forall i | 0 <= i < |msgs| :: ReplyOf(a, msgs[i]) == ReplyOf(b, msgs[i])
    ensures Lines(enc, a, msgs) == Lines(enc, b, msgs)
    decreases |msgs|
  {
    if msgs != [] {
      SameReplies(enc, a, b, msgs[..|msgs| - 1]);
      assert ReplyOf(a, msgs[|msgs| - 1]) == ReplyOf(b, msgs[|msgs| - 1]);
    }
  }

  /** No message of `xs` quotes a message of `ys`. */
  ghost predicate NoneQuotes(xs: seq<Message>, ys: seq<Message>) {
    forall i, j | 0 <= i < |xs| && 0 <= j < |ys| :: xs[i].replyTo != "" ==> ys[j].id != xs[i].replyTo
  }

  /** If no old message quotes a new one, the old log is, byte for byte, a prefix of the extended log. */
  lemma PrefixKept(enc: Encoder, xs: seq<Message>, ys: seq<Message>)
    requires NoneQuotes(xs, ys)
    ensures Log(enc, xs) <= Log(enc, xs + ys)
  {
    RowsAppend(xs, ys);
    forall i | 0 <= i < |xs|
      ensures ReplyOf(Rows(xs), xs[i]) == ReplyOf(Rows(xs + ys), xs[i])
    {
      RowsMean(ys, xs[i].replyTo);
    }
    SameReplies(enc, Rows(xs), Rows(xs + ys), xs);
    LinesAppend(enc, Rows(xs + ys), xs, ys);
  }

  // ---------------------------------------------------------------------------------------------
  // How the sizes of two logs compare with the size of the log of both.

  function Fields(rows: map<string, nat>, msgs: seq<Message>): string {
    if msgs == [] then ""
    else
      var before, m := Fields(rows, msgs[..|msgs| - 1]), msgs[|msgs| - 1];
      if m.content == "" then before else before + ReplyField(ReplyOf(rows, m))
  }

  /** The reply_id fields that point from one part into the other: absent from the logs of the parts. */
  function Crossing(xs: seq<Message>, ys: seq<Message>): string {
    Fields(Rows(xs), ys) + Fields(Rows(ys), xs)
  }

  lemma DecimalNarrow(n: nat)
    ensures Wide(Decimal(n)) == 0 && Narrow(Decimal(n)) == |Decimal(n)|
  {
    OnlyDigits(n);
    NarrowText(Decimal(n));
  }

  /** A field is ASCII; if there is one it has at least the twelve characters around a numeral. */
  lemma FieldNarrow(reply: nat)
    ensures Wide(ReplyField(reply)) == 0
    ensures reply != 0 ==> Narrow(ReplyField(reply)) >= 13
  {
    if reply != 0 {
      DecimalNarrow(reply);
      NarrowText(",\"reply_id\":");
      CountsAppend(",\"reply_id\":", Decimal(reply));
    }
  }

  lemma {:induction false} NarrowText(s: string)
    requires forall i | 0 <= i < |s| :: !IsWide(s[i])
    ensures Wide(s) == 0 && Narrow(s) == |s|
    decreases |s|
  {
    if s != "" {
      NarrowText(s[..|s| - 1]);
    }
  }

  lemma LineSize(enc: Encoder, m: Message, reply: nat)
    ensures Wide(Line(enc, m, reply)) == Wide(Line(enc, m, 0))
    ensures Narrow(Line(enc, m, reply)) == Narrow(Line(enc, m, 0)) + Narrow(ReplyField(reply))
  {
    var body := enc(m.row, m.user, m.nickname, m.content);
    FieldNarrow(reply);
    CountsAppend(body + ReplyField(reply), "}\n");
    CountsAppend(body, ReplyField(reply));
    CountsAppend(body + ReplyField(0), "}\n");
    CountsAppend(body, ReplyField(0));
  }

  /** What the reply table adds to a log is its fields, and they are all ASCII. */
  lemma {:induction false} LinesSize(enc: Encoder, rows: map<string, nat>, msgs: seq<Message>)
    ensures Wide(Lines(enc, rows, msgs)) == Wide(Lines(enc, map[], msgs))
    ensures Narrow(Lines(enc, rows, msgs)) == Narrow(Lines(enc, map[], msgs)) + Narrow(Fields(rows, msgs))
    decreases |msgs|
  {
    if msgs != [] {
      var init, m := msgs[..|msgs| - 1], msgs[|msgs| - 1];
      LinesSize(enc, rows, init);
      LineSize(enc, m, ReplyOf(rows, m));
      CountsAppend(Lines(enc, rows, init), Line(enc, m, ReplyOf(rows, m)));
      CountsAppend(Lines(enc, map[], init), Line(enc, m, 0));
      CountsAppend(Fields(rows, init), ReplyField(ReplyOf(rows, m)));
    }
  }

  lemma {:induction false} FieldsSplit(a: map<string, nat>, b: map<string, nat>, msgs: seq<Message>)
    requires a.Keys !! b.Keys
    ensures Narrow(Fields(a + b, msgs)) == Narrow(Fields(a, msgs)) + Narrow(Fields(b, msgs))
    decreases |msgs|
  {
    if msgs != [] {
      var init, m := msgs[..|msgs| - 1], msgs[|msgs| - 1];
      FieldsSplit(a, b, init);
      assert ReplyField(ReplyOf(a, m)) == "" || ReplyField(ReplyOf(b, m)) == "";
      hide ReplyField, Narrow, Wide;
      CountsAppend(Fields(a + b, init), ReplyField(ReplyOf(a + b, m)));
      CountsAppend(Fields(a, init), ReplyField(ReplyOf(a, m)));
      CountsAppend(Fields(b, init), ReplyField(ReplyOf(b, m)));
    }
  }

  lemma {:induction false} FieldsAppend(rows: map<string, nat>, xs: seq<Message>, ys: seq<Message>)
    ensures Narrow(Fields(rows, xs + ys)) == Narrow(Fields(rows, xs)) + Narrow(Fields(rows, ys))
    decreases |ys|
  {
    if ys == [] {
      assert xs + ys == xs;
    } else {
      FieldsAppend(rows, xs, ys[..|ys| - 1]);
      assert (xs + ys)[..|xs + ys| - 1] == xs + ys[..|ys| - 1];
      var m := ys[|ys| - 1];
      CountsAppend(Fields(rows, xs + ys[..|ys| - 1]), ReplyField(ReplyOf(rows, m)));
      CountsAppend(Fields(rows, ys[..|ys| - 1]), ReplyField(ReplyOf(rows, m)));
    }
  }

  lemma DistinctRows(xs: seq<Message>, ys: seq<Message>)
    requires Distinct(xs + ys)
    ensures Rows(xs).Keys !! Rows(ys).Keys
  {
    forall id | id in Rows(xs)
      ensures id !in Rows(ys)
    {
      RowsMean(xs, id);
      RowsMean(ys, id);
      var i :| 0 <= i < |xs| && Shown(xs[i]) && xs[i].id == id;
      assert (xs + ys)[i] == xs[i];
      assert forall j | 0 <= j < |ys| :: (xs + ys)[|xs| + j] == ys[j] && ys[j].id != id;
    }
  }

  /** Exactly: the log of both parts is the two logs plus the fields that cross between them. */
  lemma LogSplits(enc: Encoder, xs: seq<Message>, ys: seq<Message>)
    requires Distinct(xs + ys)
    ensures Wide(Log(enc, xs + ys)) == Wide(Log(enc, xs)) + Wide(Log(enc, ys))
    ensures Narrow(Log(enc, xs + ys)) == Narrow(Log(enc, xs)) + Narrow(Log(enc, ys)) + Narrow(Crossing(xs, ys))
    ensures Wide(Crossing(xs, ys)) == 0
  {
    DistinctRows(xs, ys);
    RowsAppend(xs, ys);
    LinesSize(enc, Rows(xs + ys), xs + ys);
    LinesSize(enc, Rows(xs), xs);
    LinesSize(enc, Rows(ys), ys);
    LinesAppend(enc, map[], xs, ys);
    CountsAppend(Lines(enc, map[], xs), Lines(enc, map[], ys));
    FieldsAppend(Rows(xs + ys), xs, ys);
    FieldsSplit(Rows(xs), Rows(ys), xs);
    FieldsSplit(Rows(xs), Rows(ys), ys);
    CountsAppend(Fields(Rows(xs), ys), Fields(Rows(ys), xs));
    FieldsNarrow(Rows(xs), ys);
    FieldsNarrow(Rows(ys), xs);
  }

  lemma {:induction false} FieldsNarrow(rows: map<string, nat>, msgs: seq<Message>)
    ensures Wide(Fields(rows, msgs)) == 0
    ensures Fields(rows, msgs) == "" || Narrow(Fields(rows, msgs)) >= 13
    decreases |msgs|
  {
    if msgs != [] {
      var init, m := msgs[..|msgs| - 1], msgs[|msgs| - 1];
      FieldsNarrow(rows, init);
      FieldNarrow(ReplyOf(rows, m));
      CountsAppend(Fields(rows, init), ReplyField(ReplyOf(rows, m)));
    }
  }

  /**
   * Estimating two parts apart gives at least what the log of both costs exactly if no reply_id field
   * crosses between them: any one field outweighs the two roundings.
   */
  lemma SplitExactly(enc: Encoder, xs: seq<Message>, ys: seq<Message>)
    requires Distinct(xs + ys)
    ensures Tokens(Log(enc, xs + ys)) <= Tokens(Log(enc, xs)) + Tokens(Log(enc, ys)) <==> Crossing(xs, ys) == ""
    ensures Tokens(Log(enc, xs + ys)) <= Tokens(Log(enc, xs)) + Tokens(Log(enc, ys)) + Tokens(Crossing(xs, ys))
  {
    LogSplits(enc, xs, ys);
    CrossingSize(xs, ys);
    hide Log, Crossing, Wide, Narrow, Distinct;
  }

  lemma CrossingSize(xs: seq<Message>, ys: seq<Message>)
    ensures Crossing(xs, ys) == "" || Narrow(Crossing(xs, ys)) >= 13
    ensures Crossing(xs, ys) == "" ==> Narrow(Crossing(xs, ys)) == 0
  {
    FieldsNarrow(Rows(xs), ys);
    FieldsNarrow(Rows(ys), xs);
    CountsAppend(Fields(Rows(xs), ys), Fields(Rows(ys), xs));
  }

  /** A plain message without a row number, a name or a quote. */
  function Says(id: string, content: string): Message { Message(id, 0, "", "", "", content, "", 0) }

  lemma OneMore(enc: Encoder, rows: map<string, nat>, ms: seq<Message>, m: Message)
    requires m.content != "" && ReplyOf(rows, m) == 0
    ensures Lines(enc, rows, ms + [m]) == Lines(enc, rows, ms) + (enc(m.row, m.user, m.nickname, m.content) + "}\n")
  {
    assert (ms + [m])[..|ms|] == ms;
    var body := enc(m.row, m.user, m.nickname, m.content);
    assert body + "" + "}\n" == body + "}\n";
  }

  lemma {:induction false} Letters(s: string)
    ensures Wide(s) + Narrow(s) == |s|
    decreases |s|
  {
    if s != "" {
      Letters(s[..|s| - 1]);
    }
  }

  /** A log with a line in it costs something. */
  lemma SomethingToSay(enc: Encoder, ms: seq<Message>, m: Message)
    requires m.content != ""
    ensures Tokens(Log(enc, ms + [m])) > 0 && Log(enc, ms + [m]) != ""
  {
    assert (ms + [m])[..|ms|] == ms;
    Letters(Log(enc, ms + [m]));
  }
}
