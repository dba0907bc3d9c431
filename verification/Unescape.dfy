/**
 * The log unescaper (llm/llm.go): \u003c, \u003e and \u0026 become readable again, except where the
 * backslash is itself escaped. A byte is modelled by the character with its value.
 */
module Unescape {
  import opened Options

  const HTML := "<>&"

  /** The character a five-byte tail of an HTML escape stands for. */
  function Html(tail: string): Option<char> {
    if tail == "u003c" then Some('<')
    else if tail == "u003e" then Some('>')
    else if tail == "u0026" then Some('&')
    else None
  }

  /** The escape a text starts with, if it is one of the three. */
  function HtmlAt(s: string): Option<char> {
    if |s| >= 6 && s[0] == '\\' then Html(s[1..6]) else None
  }

  /** The reading, escape by escape: an escaped backslash is stepped over whole. */
  function Plain(s: string): string {
    if s == "" then ""
    else if s[0] != '\\' then [s[0]] + Plain(s[1..])
    else if |s| >= 2 && s[1] == '\\' then s[..2] + Plain(s[2..])
    else if HtmlAt(s).Some? then [HtmlAt(s).value] + Plain(s[6..])
    else [s[0]] + Plain(s[1..])
  }

  /** How many backslashes a text starts with. */
  function RunOf(s: string): (n: nat)
    ensures n <= |s|
    ensures forall i | 0 <= i < n :: s[i] == '\\'
    ensures n < |s| ==> s[n] != '\\'
  {
    if s == "" || s[0] != '\\' then 0 else 1 + RunOf(s[1..])
  }

  /** The first n characters are the whole run of backslashes at the front. */
  ghost predicate IsRun(s: string, n: nat) {
    n <= |s| && (forall i | 0 <= i < n :: s[i] == '\\') && (n < |s| ==> s[n] != '\\')
  }

  lemma SlicesAfterPair(s: string, n: nat)
    requires 2 <= n <= |s|
    ensures s[2..][n - 2..] == s[n..] && s[..2] + s[2..][..n - 2] == s[..n]
    ensures n >= 3 ==> s[2..][n - 3..] == s[n - 1..] && s[..2] + s[2..][..n - 3] == s[..n - 1]
    ensures n + 5 <= |s| ==> s[2..][n + 3..] == s[n + 5..]
  {
  }

  predicate RunEscapes(s: string, n: nat)
    requires n <= |s|
  {
    n % 2 == 1 && HtmlAt(s[n - 1..]).Some?
  }

  /** What a run of n backslashes becomes, with the escape its last one may begin. */
  function RunText(s: string, n: nat): string
    requires n <= |s|
  {
    if RunEscapes(s, n) then s[..n - 1] + [HtmlAt(s[n - 1..]).value] else s[..n]
  }

  function RunEnd(s: string, n: nat): (end: nat)
    requires n <= |s|
    ensures end <= |s|
  {
    if RunEscapes(s, n) then n + 5 else n
  }

  /** A run of backslashes is read in pairs; only the last one of an odd run can begin an escape. */
  lemma {:induction false} PlainRun(s: string, n: nat)
    requires IsRun(s, n)
    ensures Plain(s) == RunText(s, n) + Plain(s[RunEnd(s, n)..])
    decreases n
  {
    if n <= 1 {
      assert s[0..] == s;
    } else {
      PlainRun(s[2..], n - 2);
      PairThen(s, n);
      Regroup(s[..2], RunText(s[2..], n - 2), Plain(s[RunEnd(s, n)..]));
      assert Plain(s) == s[..2] + Plain(s[2..]);
    }
  }

  lemma PairThen(s: string, n: nat)
    requires 2 <= n <= |s|
    ensures s[..2] + RunText(s[2..], n - 2) == RunText(s, n)
    ensures RunEnd(s, n) == RunEnd(s[2..], n - 2) + 2 && s[2..][RunEnd(s[2..], n - 2)..] == s[RunEnd(s, n)..]
  {
    SlicesAfterPair(s, n);
  }

  lemma Regroup(a: string, b: string, c: string)
    ensures a + (b + c) == (a + b) + c
  {
  }

  predicate MarkAt(s: string, i: int) { 0 <= i <= |s| - 4 && s[i..i + 4] == "\\u00" }

  ghost predicate Mentions(s: string) { exists i :: MarkAt(s, i) }

  method Contains(s: string) returns (found: bool)
    ensures found <==> Mentions(s)
  {
    var i := 0;
    while i + 4 <= |s|
      invariant 0 <= i
      invariant forall j | 0 <= j < i :: !MarkAt(s, j)
    {
      if s[i..i + 4] == "\\u00" {
        assert MarkAt(s, i);
        return true;
      }
      i := i + 1;
    }
    found := false;
  }

  method CountRun(s: string, i: nat) returns (run: nat)
    requires i < |s| && s[i] == '\\'
    ensures 1 <= run <= |s| - i && (forall j | i <= j < i + run :: s[j] == '\\')
    ensures i + run < |s| ==> s[i + run] != '\\'
  {
    run := 0;
    while i + run < |s| && s[i + run] == '\\'
      invariant i + run <= |s|
      invariant forall j | i <= j < i + run :: s[j] == '\\'
      decreases |s| - run
    {
      run := run + 1;
    }
  }

  method UnescapeHTMLForLog(s: string) returns (result: string)
    ensures result == Plain(s)
  {
    var mentioned := Contains(s);
    if !mentioned {
      NothingToDo(s);
      return s;
    }
    result := "";
    var i := 0;
    assert s[0..] == s && "" + Plain(s) == Plain(s);
    while i < |s|
      invariant 0 <= i <= |s|
      invariant Done(s, i, result)
    {
      hide *;
      if s[i] != '\\' {
        ReadOther(s, i, result);
        result := result + [s[i]];
        i := i + 1;
        continue;
      }
      var run := CountRun(s, i);
      ReadRun(s, i, run, result);
      if i + run + 5 > |s| || run % 2 == 0 {
        result := result + s[i..i + run];
        i := i + run;
        continue;
      }
      var replacement := Html(s[i + run..i + run + 5]);
      if replacement.None? {
        result := result + s[i..i + run];
        i := i + run;
        continue;
      }
      result := result + s[i..i + run - 1];
      result := result + [replacement.value];
      i := i + run + 5;
    }
    assert s[|s|..] == "" && result + "" == result;
  }

  /** The output so far, with what the rest will give. */
  ghost predicate Done(s: string, i: nat, result: string) {
    i <= |s| && Plain(s) == result + Plain(s[i..])
  }

  lemma ReadOther(s: string, i: nat, result: string)
    requires i < |s| && s[i] != '\\' && Done(s, i, result)
    ensures Done(s, i + 1, result + [s[i]])
  {
    assert s[i..][1..] == s[i + 1..];
    Regroup(result, [s[i]], Plain(s[i + 1..]));
  }

  /** A run of backslashes at position i: copied, unless it ends in one of the three escapes. */
  lemma ReadRun(s: string, i: nat, run: nat, result: string)
    requires i + run <= |s| && run >= 1 && Done(s, i, result)
    requires (forall j | i <= j < i + run :: s[j] == '\\') && (i + run < |s| ==> s[i + run] != '\\')
    ensures if i + run + 5 > |s| || run % 2 == 0 || Html(s[i + run..i + run + 5]).None?
            then Done(s, i + run, result + s[i..i + run])
            else Done(s, i + run + 5, result + s[i..i + run - 1] + [Html(s[i + run..i + run + 5]).value])
  {
    PlainRun(s[i..], run);
    SlicesAtRun(s, i, run);
    hide Plain, Html, HtmlAt;
    Regroup(result, RunText(s[i..], run), Plain(s[i..][RunEnd(s[i..], run)..]));
    if RunEscapes(s[i..], run) {
      var c := Html(s[i + run..i + run + 5]).value;
      Regroup(result, s[i..i + run - 1], [c]);
    }
  }

  lemma SlicesAtRun(s: string, i: nat, run: nat)
    requires i + run <= |s|
    ensures s[i..][..run] == s[i..i + run] && s[i..][run..] == s[i + run..]
    ensures run >= 1 ==> s[i..][..run - 1] == s[i..i + run - 1]
    ensures run >= 1 && s[i + run - 1] == '\\' ==>
              HtmlAt(s[i..][run - 1..]) == if i + run + 5 <= |s| then Html(s[i + run..i + run + 5]) else None
    ensures i + run + 5 <= |s| ==> s[i..][run + 5..] == s[i + run + 5..]
  {
    if run >= 1 && i + run + 5 <= |s| {
      assert s[i..][run - 1..][1..6] == s[i + run..i + run + 5];
    }
  }

  /** Where the marker does not occur there is nothing to replace: returning early changes nothing. */
  lemma {:induction false} NothingToDo(s: string)
    requires !Mentions(s)
    ensures Plain(s) == s
    decreases |s|
  {
    if s != "" {
      Tail(s, 1);
      NothingToDo(s[1..]);
      if |s| >= 2 {
        Tail(s, 2);
        NothingToDo(s[2..]);
      }
      NoEscapeHere(s);
    }
  }

  lemma NoEscapeHere(s: string)
    requires !Mentions(s)
    ensures HtmlAt(s).None?
  {
    assert !MarkAt(s, 0);
    if |s| >= 6 {
      assert s[0..4] == [s[0]] + s[1..6][..3];
    }
  }

  lemma Tail(s: string, k: nat)
    requires !Mentions(s) && k <= |s|
    ensures !Mentions(s[k..])
  {
    forall i
      ensures !MarkAt(s[k..], i)
    {
      assert !MarkAt(s, k + i);
      if 0 <= i <= |s[k..]| - 4 {
        assert s[k..][i..i + 4] == s[k + i..k + i + 4];
      }
    }
  }

  // ---------------------------------------------------------------------------------------------
  // What the text means.

  predicate IsHex(c: char) { '0' <= c <= '9' || 'a' <= c <= 'f' || 'A' <= c <= 'F' }

  function HexValue(c: char): nat
    requires IsHex(c)
  {
    if '0' <= c <= '9' then c as int - '0' as int
    else if 'a' <= c <= 'f' then c as int - 'a' as int + 10
    else c as int - 'A' as int + 10
  }

  predicate FourHex(s: string) { |s| >= 4 && forall i | 0 <= i < 4 :: IsHex(s[i]) }

  function CodeOf(s: string): nat
    requires FourHex(s)
  {
    ((HexValue(s[0]) * 16 + HexValue(s[1])) * 16 + HexValue(s[2])) * 16 + HexValue(s[3])
  }

  /**
   * What comes out of a string: a byte standing for itself, or a code unit written as an escape. The two
   * are the same below 0x80.
   */
  datatype Piece = Byte(char) | Unit(nat)

  function PieceOf(code: nat): Piece {
    if code < 0x80 then Byte(code as char) else Unit(code)
  }

  /** The two-character escapes of section 7 of RFC 8259. */
  function Short(c: char): Option<char> {
    if c == '\"' || c == '\\' || c == '/' then Some(c)
    else if c == 'b' then Some('\U{8}')
    else if c == 'f' then Some('\U{c}')
    else if c == 'n' then Some('\n')
    else if c == 'r' then Some('\r')
    else if c == 't' then Some('\t')
    else None
  }

  function Then(p: Piece, rest: Option<seq<Piece>>): Option<seq<Piece>> {
    if rest.Some? then Some([p] + rest.value) else None
  }

  /** The meaning of the text under the string escapes of RFC 8259; None if an escape is malformed. */
  function Decode(s: string): Option<seq<Piece>> {
    if s == "" then Some([])
    else if s[0] != '\\' then Then(Byte(s[0]), Decode(s[1..]))
    else if |s| >= 2 && Short(s[1]).Some? then Then(Byte(Short(s[1]).value), Decode(s[2..]))
    else if |s| >= 6 && s[1] == 'u' && FourHex(s[2..6]) then Then(PieceOf(CodeOf(s[2..6])), Decode(s[6..]))
    else None
  }

  lemma HtmlDecodes(s: string)
    requires HtmlAt(s).Some?
    ensures s[0] == '\\' && s[1] == 'u' && FourHex(s[2..6]) && PieceOf(CodeOf(s[2..6])) == Byte(HtmlAt(s).value)
    ensures HtmlAt(s).value in HTML && HtmlAt(s).value != '\\'
  {
    assert s[1..6] == [s[1], s[2], s[3], s[4], s[5]];
    assert s[2..6] == [s[2], s[3], s[4], s[5]];
  }

  /** Neither a backslash nor what an escape turns into. */
  predicate Ordinary(c: char) { c != '\\' && c !in HTML }

  /** Ordinary characters at the front of the output were at the front of the input. */
  lemma {:induction false} FrontKept(s: string, k: nat)
    requires k <= |Plain(s)| && forall i | 0 <= i < k :: Ordinary(Plain(s)[i])
    ensures k <= |s| && s[..k] == Plain(s)[..k] && Plain(s)[k..] == Plain(s[k..])
    decreases k
  {
    if k > 0 {
      if HtmlAt(s).Some? {
        HtmlDecodes(s);
      }
      assert Plain(s)[0] == s[0] && Plain(s)[1..] == Plain(s[1..]) by {
        assert Ordinary(Plain(s)[0]);
      }
      FrontKept(s[1..], k - 1);
      assert s[..k] == [s[0]] + s[1..][..k - 1];
      assert Plain(s)[..k] == [s[0]] + Plain(s[1..])[..k - 1];
      assert s[k..] == s[1..][k - 1..] && Plain(s)[k..] == Plain(s)[1..][k - 1..];
    } else {
      assert s[0..] == s && Plain(s)[0..] == Plain(s);
    }
  }

  /** A stretch of ordinary characters passes through unchanged. */
  lemma {:induction false} OrdinaryPasses(s: string, k: nat)
    requires k <= |s| && forall i | 0 <= i < k :: s[i] != '\\'
    ensures Plain(s) == s[..k] + Plain(s[k..])
    decreases k
  {
    if k > 0 {
      assert Plain(s) == [s[0]] + Plain(s[1..]);
      OrdinaryPasses(s[1..], k - 1);
      hide Plain;
      Regroup([s[0]], s[1..][..k - 1], Plain(s[k..]));
      assert s[1..][k - 1..] == s[k..] && s[..k] == [s[0]] + s[1..][..k - 1];
    } else {
      assert s[0..] == s;
    }
  }

  /** A lone backslash that begins none of the three escapes means the same before and after. */
  lemma LoneBackslash(s: string)
    requires s != "" && s[0] == '\\' && (|s| >= 2 ==> s[1] != '\\') && HtmlAt(s).None?
    requires |s| >= 2 ==> Decode(Plain(s[2..])) == Decode(s[2..])
    requires |s| >= 6 ==> Decode(Plain(s[6..])) == Decode(s[6..])
    ensures Decode(Plain(s)) == Decode(s)
  {
    var rest := s[1..];
    var p := Plain(rest);
    assert Plain(s) == ['\\'] + p;
    assert Plain(s)[1..] == p;
    if rest != "" {
      assert p[0] == rest[0] && p[1..] == Plain(rest[1..]);
      assert rest[1..] == s[2..] && Plain(s)[2..] == Plain(s[2..]);
      if Short(rest[0]).None? && rest[0] == 'u' {
        UnicodeEscape(s);
      }
    }
  }

  /** What follows \u is four hex digits before exactly when it is after, and then the same ones. */
  lemma HexKept(tail: string)
    ensures FourHex(tail) <==> FourHex(Plain(tail))
    ensures FourHex(tail) ==> Plain(tail)[..4] == tail[..4] && Plain(tail)[4..] == Plain(tail[4..])
  {
    if FourHex(tail) {
      OrdinaryPasses(tail, 4);
    } else if FourHex(Plain(tail)) {
      FrontKept(tail, 4);
      FourHexOf(tail, Plain(tail));
    }
  }

  lemma FourHexOf(a: string, b: string)
    requires |a| >= 4 && |b| >= 4 && a[..4] == b[..4]
    ensures FourHex(a) <==> FourHex(b)
    ensures FourHex(a) ==> CodeOf(a) == CodeOf(b) && FourHex(a[..4]) && CodeOf(a[..4]) == CodeOf(a)
  {
    assert forall i | 0 <= i < 4 :: a[i] == a[..4][i] && b[i] == b[..4][i];
  }

  lemma UnicodeEscape(s: string)
    requires |s| >= 2 && s[0] == '\\' && s[1] == 'u'
    requires |Plain(s)| >= 2 && Plain(s)[0] == '\\' && Plain(s)[1] == 'u' && Plain(s)[2..] == Plain(s[2..])
    requires |s| >= 6 ==> Decode(Plain(s[6..])) == Decode(s[6..])
    ensures Decode(Plain(s)) == Decode(s)
  {
    var tail, p := s[2..], Plain(s);
    HexKept(tail);
    DecodeUnicode(s);
    DecodeUnicode(p);
    if FourHex(tail) {
      FourHexOf(tail, p[2..]);
      assert tail[4..] == s[6..] && p[2..][4..] == p[6..];
    }
  }

  lemma DecodeUnicode(s: string)
    requires |s| >= 2 && s[0] == '\\' && s[1] == 'u'
    ensures Decode(s) == if FourHex(s[2..]) then Then(PieceOf(CodeOf(s[2..])), Decode(s[6..])) else None
  {
    if |s| >= 6 {
      FourHexOf(s[2..6], s[2..]);
    }
  }

  /** For every text and every run of backslashes in it, unescaping changes nothing of what it means. */
  lemma {:induction false} MeaningKept(s: string)
    ensures Decode(Plain(s)) == Decode(s)
    decreases |s|
  {
    if s == "" {
    } else if s[0] != '\\' {
      MeaningKept(s[1..]);
      assert Plain(s)[1..] == Plain(s[1..]);
    } else if |s| >= 2 && s[1] == '\\' {
      MeaningKept(s[2..]);
      assert Plain(s)[2..] == Plain(s[2..]);
    } else if HtmlAt(s).Some? {
      MeaningKept(s[6..]);
      HtmlDecodes(s);
      assert Plain(s)[1..] == Plain(s[6..]);
    } else {
      if |s| >= 2 {
        MeaningKept(s[2..]);
      }
      if |s| >= 6 {
        MeaningKept(s[6..]);
      }
      LoneBackslash(s);
    }
  }

  /** Unescaping twice is unescaping once: no new escape appears. */
  lemma {:induction false} PlainTwice(s: string)
    ensures Plain(Plain(s)) == Plain(s)
    decreases |s|
  {
    if s == "" {
    } else if s[0] != '\\' {
      PlainTwice(s[1..]);
      assert Plain(s)[1..] == Plain(s[1..]);
    } else if |s| >= 2 && s[1] == '\\' {
      PlainTwice(s[2..]);
      assert Plain(s)[2..] == Plain(s[2..]) && Plain(s)[..2] == s[..2];
    } else if HtmlAt(s).Some? {
      HtmlDecodes(s);
      PlainTwice(s[6..]);
      assert Plain(s)[1..] == Plain(s[6..]);
    } else {
      PlainTwice(s[1..]);
      NoNewEscape(s);
      assert Plain(s)[1..] == Plain(s[1..]);
    }
  }

  lemma NoNewEscape(s: string)
    requires s != "" && s[0] == '\\' && (|s| >= 2 ==> s[1] != '\\') && HtmlAt(s).None?
    ensures HtmlAt(Plain(s)).None? && (|Plain(s)| >= 2 ==> Plain(s)[1] != '\\')
  {
    var rest := s[1..];
    var p := Plain(rest);
    assert Plain(s) == ['\\'] + p;
    if |p| >= 5 {
      assert Plain(s)[1..6] == p[..5];
      if Html(p[..5]).Some? {
        assert forall i | 0 <= i < 5 :: p[i] == p[..5][i] && Ordinary(p[i]);
        FrontKept(rest, 5);
        EscapeBehind(s, p);
      }
    }
  }

  lemma EscapeBehind(s: string, p: string)
    requires s != "" && s[0] == '\\' && |s| >= 6 && |p| >= 5 && s[1..][..5] == p[..5] && HtmlAt(s).None?
    ensures Html(p[..5]).None?
  {
    assert s[1..6] == s[1..][..5];
  }
}
