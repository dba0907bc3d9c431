/**
 * The names under which the tools of several servers are offered to the model
 * (mcpclient/manager.go, mcpclient/tool.go).
 */
module ToolNames {
  import opened Decimals
  import opened Options
  import opened Sets
  import opened Sorting

  const MAX_NAME := 64

  // ---------------------------------------------------------------------------------------------
  // One name.

  predicate Allowed(c: char) {
    'a' <= c <= 'z' || 'A' <= c <= 'Z' || '0' <= c <= '9' || c == '_' || c == '-'
  }

  predicate IsEdge(c: char) { c == '_' || c == '-' }

  function Mapped(raw: string): (s: string)
    ensures |s| == |raw|
    ensures forall i | 0 <= i < |s| :: s[i] == if Allowed(raw[i]) then raw[i] else '_'
  {
    seq(|raw|, i requires 0 <= i < |raw| => if Allowed(raw[i]) then raw[i] else '_')
  }

  function TrimRight(s: string): string {
    if s != "" && IsEdge(s[|s| - 1]) then TrimRight(s[..|s| - 1]) else s
  }

  function TrimLeft(s: string): string {
    if s != "" && IsEdge(s[0]) then TrimLeft(s[1..]) else s
  }

  function Sanitize(raw: string): string {
    var out := TrimRight(TrimLeft(Mapped(raw)));
    if out == "" then "tool" else if |out| > MAX_NAME then TrimRight(out[..MAX_NAME]) else out
  }

  method SanitizeToolName(raw: string) returns (name: string)
    ensures name == Sanitize(raw)
  {
    var b := "";
    for i := 0 to |raw|
      invariant b == Mapped(raw)[..i]
    {
      var r := raw[i];
      if 'a' <= r <= 'z' || 'A' <= r <= 'Z' || '0' <= r <= '9' || r == '_' || r == '-' {
        b := b + [r];
      } else {
        b := b + ['_'];
      }
    }
    assert b == Mapped(raw);
    name := TrimRight(TrimLeft(b));
    if name == "" {
      return "tool";
    }
    if |name| > MAX_NAME {
      name := TrimRight(name[..MAX_NAME]);
    }
  }

  /** What the model's API accepts. */
  predicate Valid(name: string) {
    1 <= |name| <= MAX_NAME && forall i | 0 <= i < |name| :: Allowed(name[i])
  }

  /** Valid, and with nothing to trim at either end. */
  predicate Clean(name: string) { Valid(name) && !IsEdge(name[0]) && !IsEdge(name[|name| - 1]) }

  lemma {:induction false} TrimRightKeeps(s: string)
    ensures TrimRight(s) <= s
    ensures TrimRight(s) != "" ==> !IsEdge(TrimRight(s)[|TrimRight(s)| - 1])
    ensures s != "" && !IsEdge(s[0]) ==> TrimRight(s) != ""
    decreases |s|
  {
    if s != "" && IsEdge(s[|s| - 1]) {
      TrimRightKeeps(s[..|s| - 1]);
    }
  }

  lemma {:induction false} TrimLeftKeeps(s: string)
    ensures |TrimLeft(s)| <= |s| && TrimLeft(s) == s[|s| - |TrimLeft(s)|..]
    ensures TrimLeft(s) != "" ==> !IsEdge(TrimLeft(s)[0])
    decreases |s|
  {
    if s != "" && IsEdge(s[0]) {
      TrimLeftKeeps(s[1..]);
    }
  }

  /** Whatever the server calls a tool, its sanitized name is acceptable, and starts and ends with a letter or digit. */
  lemma SanitizeCleans(raw: string)
    ensures Clean(Sanitize(raw))
  {
    var left := TrimLeft(Mapped(raw));
    TrimLeftKeeps(Mapped(raw));
    TrimRightKeeps(left);
    var out := TrimRight(left);
    assert forall i | 0 <= i < |out| :: Allowed(out[i]);
    if |out| > MAX_NAME {
      TrimRightKeeps(out[..MAX_NAME]);
    }
  }

  /** A clean name is left alone; so sanitizing twice is sanitizing once. */
  lemma CleanStays(name: string)
    requires Clean(name)
    ensures Sanitize(name) == name
  {
    assert Mapped(name) == name;
  }

  lemma SanitizeTwice(raw: string)
    ensures Sanitize(Sanitize(raw)) == Sanitize(raw)
  {
    SanitizeCleans(raw);
    CleanStays(Sanitize(raw));
  }

  // ---------------------------------------------------------------------------------------------
  // Suffixes.

  function Suffixed(base: string, n: nat): string { base + "_" + Decimal(n) }

  function Candidate(base: string, n: nat): string { Sanitize(Suffixed(base, n)) }

  /** A suffix that fits is kept as it is. */
  lemma SuffixFits(base: string, n: nat)
    requires Clean(base) && |base| + 1 + |Decimal(n)| <= MAX_NAME
    ensures Candidate(base, n) == Suffixed(base, n)
  {
    OnlyDigits(n);
    var s := Suffixed(base, n);
    assert forall i | 0 <= i < |s| :: Allowed(s[i]);
    assert IsDigit(s[|s| - 1]) by {
      assert s[|s| - 1] == Decimal(n)[|Decimal(n)| - 1];
    }
    CleanStays(s);
  }

  lemma TrimNothing(s: string)
    requires s != "" && !IsEdge(s[0]) && !IsEdge(s[|s| - 1])
    ensures TrimRight(TrimLeft(s)) == s && TrimRight(s) == s && TrimRight(s + "_") == s
  {
    assert (s + "_")[..|s|] == s && (s + "_")[|s|] == '_';
  }

  /** A name that already fills the space swallows every suffix. */
  lemma SuffixSwallowed(base: string, n: nat)
    requires Clean(base) && |base| >= MAX_NAME - 1
    ensures Candidate(base, n) == base
  {
    OnlyDigits(n);
    var s := Suffixed(base, n);
    assert forall i | 0 <= i < |s| :: Allowed(s[i]);
    assert Mapped(s) == s;
    assert s[0] == base[0] && s[|s| - 1] == Decimal(n)[|Decimal(n)| - 1];
    assert s[..MAX_NAME] == if |base| == MAX_NAME then base else base + "_";
    assert |s| > MAX_NAME && IsDigit(s[|s| - 1]);
    hide Mapped, Clean, TrimRight, TrimLeft, Decimal;
    TrimNothing(s);
    TrimNothing(base);
  }

  predicate Free(taken: set<string>, base: string, n: nat) { Candidate(base, n) !in taken }

  /** The search for a suffix comes to an end exactly when one of the candidates is free. */
  ghost predicate SearchEnds(taken: set<string>, base: string) {
    base !in taken || exists n: nat :: n >= 2 && Free(taken, base, n)
  }

  /** The candidates 2..k are all different. */
  lemma {:induction false} Candidates(base: string, k: nat) returns (names: set<string>)
    requires Clean(base) && k >= 1 && |base| + 1 + |Decimal(k)| <= MAX_NAME
    ensures |names| == k - 1 && base !in names
    ensures forall s | s in names :: exists n :: 2 <= n <= k && s == Candidate(base, n)
    decreases k
  {
    if k == 1 {
      names := {};
    } else {
      DecimalGrows(k - 1, k);
      var fewer := Candidates(base, k - 1);
      SuffixFits(base, k);
      forall n | 2 <= n <= k - 1
        ensures Candidate(base, n) != Candidate(base, k)
      {
        DecimalGrows(n, k);
        SuffixFits(base, n);
        SameSuffix(base, n, k);
      }
      names := fewer + {Candidate(base, k)};
    }
  }

  lemma SameSuffix(base: string, a: nat, b: nat)
    ensures Suffixed(base, a) == Suffixed(base, b) ==> a == b
  {
    var s, t := Suffixed(base, a), Suffixed(base, b);
    assert s[|base| + 1..] == Decimal(a) && t[|base| + 1..] == Decimal(b);
    if s == t {
      DecimalInjective(a, b);
    }
  }

  /** As long as the numbered names fit, one of the first |taken| candidates is free. */
  lemma RoomMeansFree(taken: set<string>, base: string) returns (n: nat)
    requires Clean(base) && base in taken && |base| + 1 + |Decimal(|taken| + 1)| <= MAX_NAME
    ensures 2 <= n <= |taken| + 1 && Free(taken, base, n)
  {
    var k := |taken| + 1;
    var names := Candidates(base, k);
    if names + {base} <= taken {
      SubsetSize(names + {base}, taken);
      assert false;
    } else {
      var s :| s in names && s !in taken;
      n :| 2 <= n <= k && s == Candidate(base, n);
    }
  }

  /** With no room, a clash is never resolved: the search runs for ever. */
  lemma FullNeverEnds(taken: set<string>, base: string)
    requires Clean(base) && |base| >= MAX_NAME - 1
    ensures SearchEnds(taken, base) <==> base !in taken
  {
    forall n: nat
      ensures Candidate(base, n) == base
    {
      SuffixSwallowed(base, n);
    }
  }

  /** Where not all of it fits, a number is cut down to its leading digits. */
  lemma CandidateIs(base: string, n: nat)
    requires Clean(base) && |base| <= MAX_NAME - 2
    ensures Candidate(base, n) == Suffixed(base, Lead(n, MAX_NAME - 1 - |base|))
  {
    var room := MAX_NAME - 1 - |base|;
    LeadIsPrefix(n, room);
    if |Decimal(n)| <= room {
      SuffixFits(base, n);
    } else {
      OnlyDigits(n);
      var s, cut := Suffixed(base, n), Suffixed(base, Lead(n, room));
      assert forall i | 0 <= i < |s| :: Allowed(s[i]);
      assert Mapped(s) == s;
      assert s[..MAX_NAME] == cut;
      assert IsDigit(s[|s| - 1]) by {
        assert s[|s| - 1] == Decimal(n)[|Decimal(n)| - 1];
      }
      assert IsDigit(cut[|cut| - 1]) by {
        assert cut[|cut| - 1] == Decimal(n)[room - 1];
      }
      hide Mapped, Clean, TrimRight, TrimLeft, Decimal, Lead;
      TrimNothing(s);
      TrimNothing(cut);
    }
  }

  /** The numbers a candidate can end with after the cut: a one only if ten is cut down to it. */
  function Numbers(base: string): set<nat> {
    if |base| > MAX_NAME - 2 then {}
    else Range(if |base| == MAX_NAME - 2 then 1 else 2, Tens(MAX_NAME - 1 - |base|))
  }

  /** All the names the search ever looks at after the first: finitely many. */
  function Choices(base: string): set<string> { set m | m in Numbers(base) :: Suffixed(base, m) }

  lemma CandidateIsChoice(base: string, n: nat)
    requires Clean(base) && |base| <= MAX_NAME - 2 && n >= 2
    ensures Candidate(base, n) in Choices(base)
  {
    var room := MAX_NAME - 1 - |base|;
    var m := Lead(n, room);
    CandidateIs(base, n);
    LeadIsPrefix(n, room);
    DigitsBound(m, room);
    assert |Decimal(m)| <= room;
    if m == 1 {
      assert |Decimal(1)| == 1;
    }
    assert m in Numbers(base);
  }

  lemma ChoiceIsCandidate(base: string, m: nat) returns (n: nat)
    requires Clean(base) && m in Numbers(base)
    ensures n >= 2 && Candidate(base, n) == Suffixed(base, m)
  {
    DigitsBound(m, MAX_NAME - 1 - |base|);
    n := if m == 1 then 10 else m;
    CandidateIs(base, n);
    if m == 1 {
      assert Decimal(10) == Decimal(1) + "0";
    }
  }

  /** Exactly: the search ends unless there is a clash and all of its finitely many names are taken. */
  lemma SearchEndsExactly(taken: set<string>, base: string)
    requires Clean(base)
    ensures SearchEnds(taken, base) <==> base !in taken || !(Choices(base) <= taken)
  {
    if |base| > MAX_NAME - 2 {
      FullNeverEnds(taken, base);
    } else {
      hide Candidate, Numbers, Suffixed;
      forall n: nat | n >= 2
        ensures Candidate(base, n) in Choices(base)
      {
        CandidateIsChoice(base, n);
      }
      if !(Choices(base) <= taken) {
        var s :| s in Choices(base) && s !in taken;
        var m :| m in Numbers(base) && s == Suffixed(base, m);
        var n := ChoiceIsCandidate(base, m);
        assert Free(taken, base, n);
      }
    }
  }

  lemma {:induction false} SuffixedSize(base: string, ms: set<nat>)
    ensures |set m | m in ms :: Suffixed(base, m)| == |ms|
    decreases |ms|
  {
    hide Suffixed;
    var names := set m | m in ms :: Suffixed(base, m);
    if ms == {} {
      assert names == {};
    } else {
      var m :| m in ms;
      var rest := set k | k in ms - {m} :: Suffixed(base, k);
      SuffixedSize(base, ms - {m});
      forall k | k in ms - {m}
        ensures Suffixed(base, k) != Suffixed(base, m)
      {
        SameSuffix(base, k, m);
      }
      assert Suffixed(base, m) !in rest;
      assert names == rest + {Suffixed(base, m)};
    }
  }

  lemma ChoicesSize(base: string)
    ensures |Choices(base)| == if |base| > MAX_NAME - 2 then 0
                               else if |base| == MAX_NAME - 2 then 9
                               else Tens(MAX_NAME - 1 - |base|) - 2
  {
    SuffixedSize(base, Numbers(base));
    if |base| <= MAX_NAME - 2 {
      assert Tens(MAX_NAME - 1 - |base|) == 10 * Tens(MAX_NAME - 2 - |base|);
    }
  }

  lemma BaseIsNoChoice(base: string)
    ensures base !in Choices(base)
  {
  }

  /** So a clash is resolved whatever the names taken exactly while they are no more than the names to choose from. */
  lemma FewTakenExactly(base: string, k: nat)
    requires Clean(base)
    ensures (forall taken: set<string> | |taken| <= k :: SearchEnds(taken, base)) <==> k <= |Choices(base)|
  {
    BaseIsNoChoice(base);
    hide Choices, SearchEnds;
    var all := Choices(base) + {base};
    if k <= |Choices(base)| {
      forall taken: set<string> | |taken| <= k
        ensures SearchEnds(taken, base)
      {
        SearchEndsExactly(taken, base);
        if all <= taken {
          SubsetSize(all, taken);
        }
      }
    } else {
      SearchEndsExactly(all, base);
    }
  }

  /** While no more than nine names are taken, the search ends exactly if there is no clash or room for a digit. */
  lemma SmallSearchEnds(taken: set<string>, base: string)
    requires Clean(base) && |taken| <= 9
    ensures SearchEnds(taken, base) <==> base !in taken || |base| <= MAX_NAME - 2
  {
    ChoicesSize(base);
    if |base| < MAX_NAME - 2 {
      TensGrows(2, MAX_NAME - 1 - |base|);
    }
    if |base| <= MAX_NAME - 2 {
      FewTakenExactly(base, 9);
    } else {
      FullNeverEnds(taken, base);
    }
  }

  lemma {:induction false} TensGrows(a: nat, b: nat)
    requires 2 <= a <= b
    ensures 100 <= Tens(a) <= Tens(b)
    decreases b
  {
    if b > 2 {
      TensGrows(if a == b then a - 1 else a, b - 1);
    } else {
      assert Tens(2) == 10 * Tens(1) && Tens(1) == 10 * Tens(0);
    }
  }

  function LeastFree(taken: set<string>, base: string, from: nat, bound: nat): (n: nat)
    requires from <= bound && Free(taken, base, bound)
    ensures from <= n <= bound && Free(taken, base, n)
    ensures forall m | from <= m < n :: !Free(taken, base, m)
    decreases bound - from
  {
    if Free(taken, base, from) then from else LeastFree(taken, base, from + 1, bound)
  }

  /** Number n is the first free one. */
  ghost predicate FirstFree(taken: set<string>, base: string, n: nat) {
    n >= 2 && Free(taken, base, n) && forall m | 2 <= m < n :: !Free(taken, base, m)
  }

  lemma FirstFreeUnique(taken: set<string>, base: string, m: nat, n: nat)
    requires FirstFree(taken, base, m) && FirstFree(taken, base, n)
    ensures m == n
  {
    hide Free;
  }

  /** The name a tool gets, given the names taken: its own if free, else the first free numbered one, if any. */
  ghost function Pick(taken: set<string>, base: string): (name: Option<string>)
    ensures name.Some? <==> SearchEnds(taken, base)
    ensures name.Some? ==> name.value !in taken
    ensures base !in taken ==> name == Some(base)
    ensures name.Some? && base in taken ==> exists n: nat :: FirstFree(taken, base, n) && name.value == Candidate(base, n)
  {
    if base !in taken then Some(base)
    else if n: nat :| n >= 2 && Free(taken, base, n) then
      assert FirstFree(taken, base, LeastFree(taken, base, 2, n));
      Some(Candidate(base, LeastFree(taken, base, 2, n)))
    else None
  }

  lemma PickIs(taken: set<string>, base: string, n: nat)
    requires base in taken && FirstFree(taken, base, n)
    ensures Pick(taken, base) == Some(Candidate(base, n))
  {
    assert n >= 2 && Free(taken, base, n);
    var name := Pick(taken, base);
    hide FirstFree, Pick, Candidate;
    var m: nat :| FirstFree(taken, base, m) && name.value == Candidate(base, m);
    FirstFreeUnique(taken, base, m, n);
  }

  method FreeName(taken: set<string>, base: string) returns (name: string)
    requires SearchEnds(taken, base)
    ensures Pick(taken, base) == Some(name)
  {
    if base !in taken {
      return base;
    }
    ghost var bound: nat :| bound >= 2 && Free(taken, base, bound);
    hide Pick, SearchEnds, Candidate;
    var n := 2;
    var candidate := CandidateName(base, n);
    while candidate in taken
      invariant 2 <= n <= bound && candidate == Candidate(base, n)
      invariant forall m | 2 <= m < n :: !Free(taken, base, m)
      decreases bound - n
    {
      n := n + 1;
      candidate := CandidateName(base, n);
    }
    assert FirstFree(taken, base, n);
    PickIs(taken, base, n);
    name := candidate;
  }

  method CandidateName(base: string, n: nat) returns (name: string)
    ensures name == Candidate(base, n)
  {
    name := SanitizeToolName(base + "_" + Decimal(n));
  }

  // ---------------------------------------------------------------------------------------------
  // All names.

  datatype Offer = Offer(name: string, desc: string)

  datatype Server = Server(name: string, inject: bool, online: bool, tools: seq<Offer>)

  /** A tool on offer: whose it is, what its server calls it, and what goes with it. */
  datatype Entry = Entry(server: string, raw: string, desc: string)

  datatype Tool = Tool(name: string, entry: Entry)

  function OffersOf(server: string, tools: seq<Offer>): seq<Entry> {
    if tools == [] then []
    else
      var before, t := OffersOf(server, tools[..|tools| - 1]), tools[|tools| - 1];
      if t.name == "" then before else before + [Entry(server, t.name, t.desc)]
  }

  function Collected(servers: seq<Server>): seq<Entry> {
    if servers == [] then []
    else
      var before, s := Collected(servers[..|servers| - 1]), servers[|servers| - 1];
      if s.inject && s.online then before + OffersOf(s.name, s.tools) else before
  }

  /** How many entries would like a name. */
  function Count(es: seq<Entry>, name: string): nat {
    if es == [] then 0 else Count(es[..|es| - 1], name) + if Sanitize(es[|es| - 1].raw) == name then 1 else 0
  }

  /** The name an entry would like, made specific to its server when several would like the same. */
  function Base(e: Entry, all: seq<Entry>): string {
    if Count(all, Sanitize(e.raw)) > 1 then Sanitize(e.server + "__" + Sanitize(e.raw)) else Sanitize(e.raw)
  }

  function NamesOf(ns: seq<string>): set<string> { set n | n in ns }

  /** Names for the entries in order, each given what the ones before it took; None if a search never ends. */
  ghost function Names(es: seq<Entry>, all: seq<Entry>): (ns: Option<seq<string>>)
    ensures ns.Some? ==> |ns.value| == |es|
  {
    if es == [] then Some([])
    else
      var before := Names(es[..|es| - 1], all);
      if before.None? then None
      else
        var name := Pick(NamesOf(before.value), Base(es[|es| - 1], all));
        if name.None? then None else Some(before.value + [name.value])
  }

  function KeyOf(e: Entry): SortKey { (e.server, e.raw) }

  function NameKey(t: Tool): SortKey { (t.name, "") }

  function Ordered(servers: seq<Server>): seq<Entry> { Sort(Collected(servers), KeyOf) }

  function Tools(ns: seq<string>, es: seq<Entry>): seq<Tool>
    requires |ns| == |es|
  {
    seq(|es|, i requires 0 <= i < |es| => Tool(ns[i], es[i]))
  }

  lemma BaseClean(e: Entry, all: seq<Entry>)
    ensures Clean(Base(e, all))
  {
    SanitizeCleans(e.raw);
    SanitizeCleans(e.server + "__" + Sanitize(e.raw));
  }

  /** Names are all different and all acceptable. */
  lemma {:induction false} NamesDistinct(es: seq<Entry>, all: seq<Entry>)
    requires Names(es, all).Some?
    ensures var ns := Names(es, all).value;
            && (forall i, j | 0 <= i < j < |ns| :: ns[i] != ns[j])
            && (forall i | 0 <= i < |ns| :: Valid(ns[i]))
    decreases |es|
  {
    if es != [] {
      NamesDistinct(es[..|es| - 1], all);
      var before, e := Names(es[..|es| - 1], all).value, es[|es| - 1];
      BaseClean(e, all);
      PickValid(NamesOf(before), Base(e, all));
    }
  }

  lemma PickValid(taken: set<string>, base: string)
    requires SearchEnds(taken, base) && Valid(base)
    ensures Valid(Pick(taken, base).value)
  {
    var name := Pick(taken, base).value;
    if name != base {
      var n: nat :| FirstFree(taken, base, n) && name == Candidate(base, n);
      SanitizeCleans(Suffixed(base, n));
    }
  }

  lemma {:induction false} NamesPrefix(es: seq<Entry>, all: seq<Entry>, i: nat)
    requires i <= |es| && Names(es, all).Some?
    ensures Names(es[..i], all) == Some(Names(es, all).value[..i])
    decreases |es|
  {
    if i < |es| {
      NamesPrefix(es[..|es| - 1], all, i);
      assert es[..|es| - 1][..i] == es[..i];
      assert Names(es[..|es| - 1], all).value[..i] == Names(es, all).value[..i];
    } else {
      assert es[..i] == es && Names(es, all).value[..i] == Names(es, all).value;
    }
  }

  lemma {:induction false} CountAppend(xs: seq<Entry>, ys: seq<Entry>, name: string)
    ensures Count(xs + ys, name) == Count(xs, name) + Count(ys, name)
    decreases |ys|
  {
    if ys == [] {
      assert xs + ys == xs;
    } else {
      CountAppend(xs, ys[..|ys| - 1], name);
      assert (xs + ys)[..|xs + ys| - 1] == xs + ys[..|ys| - 1];
    }
  }

  /** The count does not depend on the order. */
  lemma {:induction false} CountForgetsOrder(xs: seq<Entry>, ys: seq<Entry>, name: string)
    requires multiset(xs) == multiset(ys)
    ensures Count(xs, name) == Count(ys, name)
    decreases |xs|
  {
    assert |multiset(xs)| == |xs| && |multiset(ys)| == |ys|;
    if xs != [] {
      var n := |xs| - 1;
      var i := TakeOutLast(xs, ys);
      var rest := ys[..i] + ys[i + 1..];
      CountForgetsOrder(xs[..n], rest, name);
      CountAppend(ys[..i], [ys[i]], name);
      CountAppend(ys[..i] + [ys[i]], ys[i + 1..], name);
      CountAppend(ys[..i], ys[i + 1..], name);
      assert [ys[i]][..0] == [];
    }
  }

  ghost predicate Binds(bindings: map<string, Entry>, ns: seq<string>, es: seq<Entry>)
    requires |ns| == |es|
  {
    && bindings.Keys == NamesOf(ns)
    && forall i | 0 <= i < |ns| :: ns[i] in bindings && bindings[ns[i]] == es[i]
  }

  /** `nameCount` counts, for every name somebody would like, who would. */
  ghost predicate Tallied(nameCount: map<string, nat>, entries: seq<Entry>) {
    forall name :: Count(entries, name) == if name in nameCount then nameCount[name] else 0
  }

  lemma TallyOne(nameCount: map<string, nat>, entries: seq<Entry>, e: Entry)
    requires Tallied(nameCount, entries)
    ensures var exposed := Sanitize(e.raw);
            Tallied(nameCount[exposed := (if exposed in nameCount then nameCount[exposed] else 0) + 1], entries + [e])
  {
    hide Sanitize;
    assert (entries + [e])[..|entries|] == entries;
  }

  method Collect(servers: seq<Server>) returns (entries: seq<Entry>, nameCount: map<string, nat>)
    ensures entries == Collected(servers) && Tallied(nameCount, entries)
  {
    entries, nameCount := [], map[];
    for i := 0 to |servers|
      invariant entries == Collected(servers[..i]) && Tallied(nameCount, entries)
    {
      hide Tallied, Sanitize;
      var s := servers[i];
      assert servers[..i + 1][..i] == servers[..i];
      if !s.inject || !s.online {
        continue;
      }
      ghost var before := entries;
      for j := 0 to |s.tools|
        invariant entries == before + OffersOf(s.name, s.tools[..j]) && Tallied(nameCount, entries)
      {
        var t := s.tools[j];
        assert s.tools[..j + 1][..j] == s.tools[..j];
        if t.name == "" {
          continue;
        }
        var exposed := SanitizeToolName(t.name);
        TallyOne(nameCount, entries, Entry(s.name, t.name, t.desc));
        nameCount := nameCount[exposed := (if exposed in nameCount then nameCount[exposed] else 0) + 1];
        entries := entries + [Entry(s.name, t.name, t.desc)];
      }
      assert s.tools[..|s.tools|] == s.tools;
    }
    assert servers[..|servers|] == servers;
  }

  lemma {:induction false} Counted(es: seq<Entry>, i: nat)
    requires i < |es|
    ensures Count(es, Sanitize(es[i].raw)) >= 1
    decreases |es|
  {
    if i < |es| - 1 {
      Counted(es[..|es| - 1], i);
    }
  }

  lemma BindOne(bindings: map<string, Entry>, ns: seq<string>, es: seq<Entry>, name: string, e: Entry)
    requires |ns| == |es| && Binds(bindings, ns, es) && name !in NamesOf(ns)
    ensures Binds(bindings[name := e], ns + [name], es + [e])
  {
    assert forall i | 0 <= i < |ns| :: ns[i] in NamesOf(ns);
  }

  lemma NamesStep(es: seq<Entry>, ns: seq<string>, i: nat)
    requires i < |es| == |ns| && Names(es, es) == Some(ns)
    ensures Pick(NamesOf(ns[..i]), Base(es[i], es)) == Some(ns[i]) && ns[i] !in NamesOf(ns[..i])
  {
    hide *;
    NamesPrefix(es, es, i);
    NamesPrefix(es, es, i + 1);
    NamesLast(es[..i + 1], es);
    assert es[..i + 1][..i] == es[..i] && ns[..i + 1][i] == ns[i];
    assert Pick(NamesOf(ns[..i]), Base(es[i], es)) == Some(ns[i]) && ns[i] !in NamesOf(ns[..i]);
  }

  lemma NamesLast(es: seq<Entry>, all: seq<Entry>)
    requires es != [] && Names(es, all).Some?
    ensures Names(es[..|es| - 1], all).Some?
    ensures var before, ns := Names(es[..|es| - 1], all).value, Names(es, all).value;
            Pick(NamesOf(before), Base(es[|es| - 1], all)) == Some(ns[|es| - 1]) && ns[|es| - 1] !in NamesOf(before)
  {
    hide Pick, Base, SearchEnds, NamesOf;
  }

  /** The name one entry is given: prefixed if it is wanted twice, numbered if it is still taken. */
  method NameEntry(e: Entry, nameCount: map<string, nat>, taken: set<string>, ghost all: seq<Entry>)
    returns (name: string)
    requires Tallied(nameCount, all) && SearchEnds(taken, Base(e, all)) && Count(all, Sanitize(e.raw)) >= 1
    ensures Pick(taken, Base(e, all)) == Some(name)
  {
    hide Sanitize, Count, Pick, SearchEnds;
    var exposed := SanitizeToolName(e.raw);
    if nameCount[exposed] > 1 {
      exposed := SanitizeToolName(e.server + "__" + exposed);
    }
    assert exposed == Base(e, all);
    name := FreeName(taken, exposed);
  }

  lemma TallyForgetsOrder(nameCount: map<string, nat>, xs: seq<Entry>, ys: seq<Entry>)
    requires multiset(xs) == multiset(ys) && Tallied(nameCount, xs)
    ensures Tallied(nameCount, ys)
  {
    forall name
      ensures Count(xs, name) == Count(ys, name)
    {
      CountForgetsOrder(xs, ys, name);
    }
  }

  /** The snapshot published to the model, and whom to call under each name. */
  method RebuildSnapshot(servers: seq<Server>) returns (tools: seq<Tool>, bindings: map<string, Entry>)
    requires Names(Ordered(servers), Ordered(servers)).Some?
    ensures var es := Ordered(servers);
            var ns := Names(es, es).value;
            tools == Sort(Tools(ns, es), NameKey) && Binds(bindings, ns, es)
  {
    var entries, nameCount := Collect(servers);
    var es := Sort(entries, KeyOf);
    SortKeeps(entries, KeyOf);
    TallyForgetsOrder(nameCount, entries, es);
    ghost var ns := Names(es, es).value;
    assert Names(es, es) == Some(ns);
    tools, bindings := BindAll(es, nameCount, ns);
    tools := Sort(tools, NameKey);
  }

  method BindAll(es: seq<Entry>, nameCount: map<string, nat>, ghost ns: seq<string>)
    returns (tools: seq<Tool>, bindings: map<string, Entry>)
    requires |ns| == |es| && Names(es, es) == Some(ns) && Tallied(nameCount, es)
    ensures tools == Tools(ns, es) && Binds(bindings, ns, es)
  {
    hide Names, Pick, Sanitize, Count, SearchEnds, Tallied, Base, NamesOf, Binds;
    bindings := map[];
    tools := [];
    BindsNothing(ns, es);
    for i := 0 to |es|
      invariant |tools| == i && forall j | 0 <= j < i :: tools[j] == Tool(ns[j], es[j])
      invariant Binds(bindings, ns[..i], es[..i])
    {
      BindsKeys(bindings, ns[..i], es[..i]);
      NamesStep(es, ns, i);
      Counted(es, i);
      var name := NameEntry(es[i], nameCount, bindings.Keys, es);
      BindOne(bindings, ns[..i], es[..i], name, es[i]);
      assert ns[..i + 1] == ns[..i] + [name] && es[..i + 1] == es[..i] + [es[i]];
      bindings := bindings[name := es[i]];
      tools := tools + [Tool(name, es[i])];
    }
    assert es[..|es|] == es && ns[..|es|] == ns;
    assert tools == Tools(ns, es) && Binds(bindings, ns, es);
  }

  lemma BindsNothing(ns: seq<string>, es: seq<Entry>)
    ensures Binds(map[], ns[..0], es[..0])
  {
  }

  lemma BindsKeys(bindings: map<string, Entry>, ns: seq<string>, es: seq<Entry>)
    requires |ns| == |es| && Binds(bindings, ns, es)
    ensures bindings.Keys == NamesOf(ns)
  {
  }

  /** Nothing on offer is lost or doubled, and the names are distinct and acceptable. */
  lemma SnapshotComplete(servers: seq<Server>)
    requires Names(Ordered(servers), Ordered(servers)).Some?
    ensures var es := Ordered(servers);
            var tools := Sort(Tools(Names(es, es).value, es), NameKey);
            && |tools| == |Collected(servers)|
            && multiset(EntriesOf(tools)) == multiset(Collected(servers))
            && (forall i, j | 0 <= i < j < |tools| :: tools[i].name != tools[j].name)
            && (forall i | 0 <= i < |tools| :: Valid(tools[i].name))
  {
    var es := Ordered(servers);
    var given := Tools(Names(es, es).value, es);
    SortKeeps(Collected(servers), KeyOf);
    hide *;
    GivenNames(es);
    SortedNames(given);
    assert |multiset(es)| == |es| && |multiset(Collected(servers))| == |Collected(servers)|;
  }

  /** The tools as they are named: one for each entry, no name twice. */
  lemma GivenNames(es: seq<Entry>)
    requires Names(es, es).Some?
    ensures var given := Tools(Names(es, es).value, es);
            && EntriesOf(given) == es && UniqueKeys(given, NameKey)
            && forall i | 0 <= i < |given| :: Valid(given[i].name)
  {
    hide Names, Valid;
    NamesDistinct(es, es);
  }

  /** Sorting the tools by name loses none of that. */
  lemma SortedNames(given: seq<Tool>)
    requires UniqueKeys(given, NameKey) && forall i | 0 <= i < |given| :: Valid(given[i].name)
    ensures var tools := Sort(given, NameKey);
            && |tools| == |given| && multiset(EntriesOf(tools)) == multiset(EntriesOf(given))
            && (forall i, j | 0 <= i < j < |tools| :: tools[i].name != tools[j].name)
            && (forall i | 0 <= i < |tools| :: Valid(tools[i].name))
  {
    var tools := Sort(given, NameKey);
    hide Valid, Sort;
    SortKeeps(given, NameKey);
    assert |multiset(tools)| == |tools| && |multiset(given)| == |given|;
    EntriesForgetOrder(tools, given);
    KeysStayUnique(given, tools, NameKey);
    forall i, j | 0 <= i < j < |tools|
      ensures tools[i].name != tools[j].name
    {
      assert NameKey(tools[i]) != NameKey(tools[j]);
    }
    forall i | 0 <= i < |tools|
      ensures Valid(tools[i].name)
    {
      var k := FoundIn(given, tools, tools[i]);
    }
  }

  function EntriesOf(tools: seq<Tool>): seq<Entry> {
    seq(|tools|, i requires 0 <= i < |tools| => tools[i].entry)
  }

  lemma {:induction false} EntriesForgetOrder(xs: seq<Tool>, ys: seq<Tool>)
    requires multiset(xs) == multiset(ys)
    ensures multiset(EntriesOf(xs)) == multiset(EntriesOf(ys))
    decreases |xs|
  {
    assert |multiset(xs)| == |xs| && |multiset(ys)| == |ys|;
    if xs != [] {
      var n := |xs| - 1;
      var i := TakeOutLast(xs, ys);
      var rest := ys[..i] + ys[i + 1..];
      EntriesForgetOrder(xs[..n], rest);
      assert EntriesOf(xs) == EntriesOf(xs[..n]) + [xs[n].entry];
      assert EntriesOf(ys) == EntriesOf(ys[..i]) + [ys[i].entry] + EntriesOf(ys[i + 1..]);
      assert EntriesOf(rest) == EntriesOf(ys[..i]) + EntriesOf(ys[i + 1..]);
    }
  }

  lemma {:induction false} OffersAppend(server: string, xs: seq<Offer>, ys: seq<Offer>)
    ensures OffersOf(server, xs + ys) == OffersOf(server, xs) + OffersOf(server, ys)
    decreases |ys|
  {
    if ys == [] {
      assert xs + ys == xs;
    } else {
      OffersAppend(server, xs, ys[..|ys| - 1]);
      assert (xs + ys)[..|xs + ys| - 1] == xs + ys[..|ys| - 1];
    }
  }

  lemma {:induction false} OffersForgetOrder(server: string, xs: seq<Offer>, ys: seq<Offer>)
    requires multiset(xs) == multiset(ys)
    ensures multiset(OffersOf(server, xs)) == multiset(OffersOf(server, ys))
    decreases |xs|
  {
    assert |multiset(xs)| == |xs| && |multiset(ys)| == |ys|;
    if xs != [] {
      var n := |xs| - 1;
      var i := TakeOutLast(xs, ys);
      OffersForgetOrder(server, xs[..n], ys[..i] + ys[i + 1..]);
      assert xs == xs[..n] + [xs[n]];
      hide OffersOf;
      OffersAppend(server, xs[..n], [xs[n]]);
      OffersAppend(server, ys[..i], [ys[i]]);
      OffersAppend(server, ys[..i] + [ys[i]], ys[i + 1..]);
      OffersAppend(server, ys[..i], ys[i + 1..]);
    }
  }

  lemma {:induction false} CollectedAppend(xs: seq<Server>, ys: seq<Server>)
    ensures Collected(xs + ys) == Collected(xs) + Collected(ys)
    decreases |ys|
  {
    if ys == [] {
      assert xs + ys == xs;
    } else {
      CollectedAppend(xs, ys[..|ys| - 1]);
      assert (xs + ys)[..|xs + ys| - 1] == xs + ys[..|ys| - 1];
    }
  }

  lemma {:induction false} CollectedForgetsOrder(xs: seq<Server>, ys: seq<Server>)
    requires multiset(xs) == multiset(ys)
    ensures multiset(Collected(xs)) == multiset(Collected(ys))
    decreases |xs|
  {
    assert |multiset(xs)| == |xs| && |multiset(ys)| == |ys|;
    if xs != [] {
      var n := |xs| - 1;
      var i := TakeOutLast(xs, ys);
      CollectedForgetsOrder(xs[..n], ys[..i] + ys[i + 1..]);
      assert xs == xs[..n] + [xs[n]];
      hide Collected;
      CollectedAppend(xs[..n], [xs[n]]);
      CollectedAppend(ys[..i], [ys[i]]);
      CollectedAppend(ys[..i] + [ys[i]], ys[i + 1..]);
      CollectedAppend(ys[..i], ys[i + 1..]);
    }
  }

  /** The same server, except that it lists its tools in another order. */
  ghost predicate Relisted(a: Server, b: Server) {
    a.name == b.name && a.inject == b.inject && a.online == b.online && multiset(a.tools) == multiset(b.tools)
  }

  lemma {:induction false} CollectedForgetsListing(xs: seq<Server>, ys: seq<Server>)
    requires |xs| == |ys| && forall i | 0 <= i < |xs| :: Relisted(xs[i], ys[i])
    ensures multiset(Collected(xs)) == multiset(Collected(ys))
    decreases |xs|
  {
    if xs != [] {
      var n := |xs| - 1;
      CollectedForgetsListing(xs[..n], ys[..n]);
      assert Relisted(xs[n], ys[n]);
      hide OffersOf;
      OffersForgetOrder(xs[n].name, xs[n].tools, ys[n].tools);
    }
  }

  /**
   * With (server, tool) pairs unique, neither the order in which the servers are kept nor the order in
   * which any of them lists its tools shows in the snapshot.
   */
  lemma SnapshotForgetsOrder(servers: seq<Server>, relisted: seq<Server>, shuffled: seq<Server>)
    requires |servers| == |relisted| && forall i | 0 <= i < |servers| :: Relisted(servers[i], relisted[i])
    requires multiset(relisted) == multiset(shuffled)
    requires UniqueKeys(Collected(servers), KeyOf)
    ensures Ordered(servers) == Ordered(shuffled)
    ensures Names(Ordered(servers), Ordered(servers)) == Names(Ordered(shuffled), Ordered(shuffled))
  {
    CollectedForgetsListing(servers, relisted);
    CollectedForgetsOrder(relisted, shuffled);
    SortForgetsOrder(Collected(servers), Collected(shuffled), KeyOf);
  }

  /** Every tool with a name, of every injected server that is online, is collected once per listing. */
  lemma {:induction false} CollectedAll(servers: seq<Server>, i: nat, j: nat)
    requires i < |servers| && servers[i].inject && servers[i].online && j < |servers[i].tools|
    requires servers[i].tools[j].name != ""
    ensures Entry(servers[i].name, servers[i].tools[j].name, servers[i].tools[j].desc) in Collected(servers)
    decreases |servers|
  {
    if i < |servers| - 1 {
      CollectedAll(servers[..|servers| - 1], i, j);
    } else {
      OffersAll(servers[i].name, servers[i].tools, j);
    }
  }

  lemma {:induction false} OffersAll(server: string, tools: seq<Offer>, j: nat)
    requires j < |tools| && tools[j].name != ""
    ensures Entry(server, tools[j].name, tools[j].desc) in OffersOf(server, tools)
    decreases |tools|
  {
    if j < |tools| - 1 {
      OffersAll(server, tools[..|tools| - 1], j);
    }
  }

  /** If every wanted name leaves room for a number as large as the list, the snapshot is always completed. */
  lemma {:induction false} RoomyNamesComplete(es: seq<Entry>, all: seq<Entry>)
    requires |es| <= |all|
    requires forall e | e in es :: |Base(e, all)| + 1 + |Decimal(|all| + 1)| <= MAX_NAME
    ensures Names(es, all).Some?
    decreases |es|
  {
    if es != [] {
      var e := es[|es| - 1];
      RoomyNamesComplete(es[..|es| - 1], all);
      var taken := NamesOf(Names(es[..|es| - 1], all).value);
      BaseClean(e, all);
      assert e in es;
      if Base(e, all) in taken {
        NamesSize(Names(es[..|es| - 1], all).value);
        DecimalGrows(|taken| + 1, |all| + 1);
        var n := RoomMeansFree(taken, Base(e, all));
      }
    }
  }

  lemma {:induction false} NamesSize(ns: seq<string>)
    ensures |NamesOf(ns)| <= |ns|
    decreases |ns|
  {
    if ns != [] {
      var init := ns[..|ns| - 1];
      NamesSize(init);
      assert NamesOf(ns) == NamesOf(init) + {ns[|ns| - 1]};
    }
  }

  /** The name wanted is taken, and so is every name the search could come up with. */
  predicate Stuck(taken: set<string>, base: string) { base in taken && Choices(base) <= taken }

  lemma PickStuck(taken: set<string>, base: string)
    requires Clean(base)
    ensures Pick(taken, base).None? <==> Stuck(taken, base)
  {
    hide Choices;
    SearchEndsExactly(taken, base);
  }

  /** Entry i is reached, and its search never ends. */
  ghost predicate StuckAt(es: seq<Entry>, all: seq<Entry>, i: nat)
    requires i < |es|
  {
    Names(es[..i], all).Some? && Stuck(NamesOf(Names(es[..i], all).value), Base(es[i], all))
  }

  lemma HangsLast(es: seq<Entry>, all: seq<Entry>)
    requires es != []
    ensures var before := Names(es[..|es| - 1], all);
            Names(es, all).None? <==>
              before.None? || Stuck(NamesOf(before.value), Base(es[|es| - 1], all))
  {
    hide Stuck, Pick, Base, Clean, NamesOf;
    var before := Names(es[..|es| - 1], all);
    BaseClean(es[|es| - 1], all);
    if before.Some? {
      PickStuck(NamesOf(before.value), Base(es[|es| - 1], all));
    }
  }

  lemma StuckEarlier(es: seq<Entry>, all: seq<Entry>, n: nat, i: nat)
    requires i < n <= |es|
    ensures StuckAt(es[..n], all, i) <==> StuckAt(es, all, i)
  {
    hide Stuck, Base, NamesOf, Names;
    assert es[..n][..i] == es[..i];
  }

  lemma StuckLast(es: seq<Entry>, all: seq<Entry>)
    requires es != []
    ensures StuckAt(es, all, |es| - 1) <==> Names(es[..|es| - 1], all).Some? && Names(es, all).None?
    ensures Names(es[..|es| - 1], all).None? ==> Names(es, all).None?
  {
    hide Stuck, Base, NamesOf, Names;
    HangsLast(es, all);
  }

  /** Exactly: rebuilding the snapshot never ends if and only if some entry finds all its names taken by those before it. */
  lemma {:induction false} RebuildHangsExactly(es: seq<Entry>, all: seq<Entry>)
    ensures Names(es, all).None? <==> exists i: nat :: i < |es| && StuckAt(es, all, i)
    decreases |es|
  {
    hide StuckAt, Names;
    if es == [] {
      NoneNamed(es, all);
    } else {
      var n := |es| - 1;
      RebuildHangsExactly(es[..n], all);
      StuckLast(es, all);
      if Names(es, all).Some? {
        forall i: nat | i < |es|
          ensures !StuckAt(es, all, i)
        {
          if i < n {
            StuckEarlier(es, all, n, i);
          }
        }
      } else if Names(es[..n], all).None? {
        var i: nat :| i < n && StuckAt(es[..n], all, i);
        StuckEarlier(es, all, n, i);
      }
    }
  }

  lemma NoneNamed(es: seq<Entry>, all: seq<Entry>)
    requires es == []
    ensures Names(es, all) == Some([])
  {
  }

  /** Two entries wanting the same name of 63 or 64 characters: rebuilding the snapshot never ends. */
  lemma LongClashHangs(es: seq<Entry>, all: seq<Entry>, i: nat, j: nat)
    requires i < j < |es| && Base(es[i], all) == Base(es[j], all) && |Base(es[i], all)| >= MAX_NAME - 1
    ensures Names(es, all).None?
  {
    hide Base, SearchEnds, Pick, Clean, NamesOf, Names;
    RebuildHangsExactly(es, all);
    RebuildHangsExactly(es[..j], all);
    assert es[..j][i] == es[i];
    if Names(es[..j], all).Some? {
      LongNameTaken(es[..j], all, i);
      assert StuckAt(es, all, j);
    } else {
      var k: nat :| k < j && StuckAt(es[..j], all, k);
      assert es[..j][..k] == es[..k] && StuckAt(es, all, k);
    }
  }

  lemma FullPick(taken: set<string>, base: string)
    requires base !in taken
    ensures Pick(taken, base) == Some(base)
  {
  }

  lemma {:induction false} LongNameTaken(es: seq<Entry>, all: seq<Entry>, i: nat)
    requires i < |es| && |Base(es[i], all)| >= MAX_NAME - 1 && Names(es, all).Some?
    ensures Base(es[i], all) in NamesOf(Names(es, all).value)
    decreases |es|
  {
    var n := |es| - 1;
    hide Base, SearchEnds, Pick, Clean;
    if i < n {
      LongNameTaken(es[..n], all, i);
    } else {
      BaseClean(es[i], all);
      var taken := NamesOf(Names(es[..n], all).value);
      FullNeverEnds(taken, Base(es[i], all));
      assert Pick(taken, Base(es[i], all)).Some?;
      FullPick(taken, Base(es[i], all));
    }
  }

  // Three tools, each wanting an acceptable name and no two the same long one, and still no end.

  lemma SanitizeTo(raw: string, name: string)
    requires Clean(name) && Mapped(raw) == name
    ensures Sanitize(raw) == name
  {
    TrimNothing(name);
  }

  lemma {:induction false} LessAfter(prefix: string, a: string, b: string)
    ensures StringLess(prefix + a, prefix + b) == StringLess(a, b)
    decreases |prefix|
  {
    if prefix == "" {
      assert prefix + a == a && prefix + b == b;
    } else {
      LessAfter(prefix[1..], a, b);
      assert (prefix + a)[1..] == prefix[1..] + a && (prefix + b)[1..] == prefix[1..] + b;
    }
  }

  predicate LowerCase(s: string) { forall i | 0 <= i < |s| :: 'a' <= s[i] <= 'z' }

  /** Two tools of server s whose names differ in a character that is not allowed, and one of server t. */
  function ThreeTools(y: string): seq<Server> {
    [Server("s", true, true, [Offer(y + " b", ""), Offer(y + ".b", "")]),
     Server("t", true, true, [Offer("s__" + y + "_b_2", "")])]
  }

  function ThreeEntries(y: string): (es: seq<Entry>)
    ensures |es| == 3
  {
    [Entry("s", y + " b", ""), Entry("s", y + ".b", ""), Entry("t", "s__" + y + "_b_2", "")]
  }

  lemma ThreeCollected(y: string)
    ensures Collected(ThreeTools(y)) == ThreeEntries(y)
  {
    var s, t := ThreeTools(y)[0], ThreeTools(y)[1];
    assert s.tools[..1][..0] == [] && t.tools[..0] == [] && ThreeTools(y)[..1] == [s] && [s][..0] == [];
    assert s.tools[..1] == [s.tools[0]];
    assert OffersOf("s", s.tools[..1]) == [ThreeEntries(y)[0]];
    assert OffersOf("s", s.tools) == [ThreeEntries(y)[0], ThreeEntries(y)[1]];
    assert OffersOf("t", t.tools) == [ThreeEntries(y)[2]];
    assert Collected([s]) == OffersOf("s", s.tools);
  }

  lemma ThreeAscend(y: string)
    ensures Ascending(ThreeEntries(y), KeyOf) && UniqueKeys(ThreeEntries(y), KeyOf)
  {
    var es := ThreeEntries(y);
    var a, b, c := KeyOf(es[0]), KeyOf(es[1]), KeyOf(es[2]);
    LessAfter(y, " b", ".b");
    assert StringLess(" b", ".b") && StringLess("s", "t");
    assert Less(a, b) && Less(a, c) && Less(b, c);
    hide Less, KeyOf, ThreeEntries, StringLess;
    KeysCompare(a, b);
    KeysCompare(a, c);
    KeysCompare(b, c);
    NeverLessThanItself(a);
  }

  lemma NeverLessThanItself(a: SortKey)
    ensures !Less(a, a)
  {
    KeysCompare(a, a);
  }

  lemma ThreeOrdered(y: string)
    ensures Ordered(ThreeTools(y)) == ThreeEntries(y)
  {
    hide Sort, Less, KeyOf, Collected, ThreeEntries, ThreeTools, Ascending, UniqueKeys;
    var es := ThreeEntries(y);
    ThreeCollected(y);
    ThreeAscend(y);
    SortKeeps(es, KeyOf);
    SameElements(es, Sort(es, KeyOf), KeyOf);
  }

  /** What they want: the two of s the same name, then made specific to s; the third what the second will be given. */
  lemma ThreeWanted(y: string)
    requires |y| == 57 && LowerCase(y)
    ensures var es, p := ThreeEntries(y), "s__" + y + "_b";
            && Base(es[0], es) == p && Base(es[1], es) == p && Base(es[2], es) == p + "_2"
            && |p| == MAX_NAME - 2 && Clean(p) && Clean(p + "_2")
  {
    var es, p := ThreeEntries(y), "s__" + y + "_b";
    ThreeSanitized(y);
    hide Sanitize, Clean;
    ThreeCounts(es, y + "_b", p + "_2");
  }

  lemma ThreeSanitized(y: string)
    requires |y| == 57 && LowerCase(y)
    ensures var es, p := ThreeEntries(y), "s__" + y + "_b";
            && Sanitize(es[0].raw) == Sanitize(es[1].raw) == y + "_b" && Sanitize("s__" + (y + "_b")) == p
            && "s" + "__" + (y + "_b") == "s__" + (y + "_b") && |p| == MAX_NAME - 2
            && Sanitize(es[2].raw) == p + "_2" && Clean(p) && Clean(p + "_2")
  {
    hide Sanitize, Mapped, Clean, LowerCase;
    var p := "s__" + y + "_b";
    ThreeClean(y, p);
    ThreeJoined(y, p);
    SanitizeTo(y + " b", y + "_b");
    SanitizeTo(y + ".b", y + "_b");
    CleanStays(p);
    CleanStays(p + "_2");
  }

  lemma ThreeJoined(y: string, p: string)
    requires p == "s__" + y + "_b" && LowerCase(y)
    ensures "s__" + (y + "_b") == p && "s__" + y + "_b_2" == p + "_2" && "s" + "__" + (y + "_b") == "s__" + (y + "_b")
    ensures Mapped(y + " b") == y + "_b" && Mapped(y + ".b") == y + "_b"
  {
  }

  lemma ThreeClean(y: string, p: string)
    requires |y| == 57 && LowerCase(y) && p == "s__" + y + "_b"
    ensures Clean(y + "_b") && Clean(p) && Clean(p + "_2")
  {
  }

  lemma ThreeCounts(es: seq<Entry>, short: string, long: string)
    requires |es| == 3 && short != long
    requires Sanitize(es[0].raw) == Sanitize(es[1].raw) == short && Sanitize(es[2].raw) == long
    ensures Count(es, short) == 2 && Count(es, long) == 1
  {
    hide Sanitize;
    assert es[..2][..1] == es[..1] && es[..1][..0] == [];
    assert Count(es[..1], short) == 1 && Count(es[..2], short) == 2;
    assert Count(es[..1], long) == 0 && Count(es[..2], long) == 0;
  }

  lemma SecondGivenTwo(p: string)
    requires Clean(p) && |p| == MAX_NAME - 2
    ensures Pick({p}, p) == Some(p + "_2")
  {
    assert Decimal(2) == "2" && Suffixed(p, 2) == p + "_2";
    SuffixFits(p, 2);
    hide Clean, Decimal, Pick, Sanitize;
    assert FirstFree({p}, p, 2);
    PickIs({p}, p, 2);
  }

  /**
   * The second of s is given a name of 64 characters, the very one that t's tool wants: no two tools want
   * the same long name, and the rebuild never ends.
   */
  lemma ThreeToolsHang(y: string)
    requires |y| == 57 && LowerCase(y)
    ensures var es := Ordered(ThreeTools(y));
            && Names(es, es).None?
            && forall i, j | 0 <= i < j < |es| && Base(es[i], es) == Base(es[j], es) :: |Base(es[i], es)| <= MAX_NAME - 2
  {
    hide Base, Clean, Ordered, Names, ThreeEntries;
    var p := "s__" + y + "_b";
    ThreeOrdered(y);
    ThreeWanted(y);
    SecondGivenTwo(p);
    ThirdStuck(ThreeEntries(y), p, p + "_2");
  }

  lemma OneMoreName(es: seq<Entry>, all: seq<Entry>, before: seq<string>, name: string)
    requires es != [] && Names(es[..|es| - 1], all) == Some(before)
    requires Pick(NamesOf(before), Base(es[|es| - 1], all)) == Some(name)
    ensures Names(es, all) == Some(before + [name])
  {
  }

  lemma ThirdStuck(es: seq<Entry>, p: string, q: string)
    requires |es| == 3 && Base(es[0], es) == p && Base(es[1], es) == p && Base(es[2], es) == q
    requires Pick({p}, p) == Some(q) && |q| >= MAX_NAME - 1
    ensures Names(es, es).None?
  {
    hide Base, Choices, Pick, Names;
    assert es[..2][..1] == es[..1] && es[..1][..0] == [];
    NoneNamed([], es);
    FullPick({}, p);
    assert NamesOf([]) == {} && NamesOf([] + [p]) == {p};
    OneMoreName(es[..1], es, [], p);
    OneMoreName(es[..2], es, [] + [p], q);
    NoChoices(q);
    assert StuckAt(es, es, 2);
    hide StuckAt;
    RebuildHangsExactly(es, es);
  }

  lemma NoChoices(base: string)
    requires |base| >= MAX_NAME - 1
    ensures Choices(base) == {}
  {
  }
}
