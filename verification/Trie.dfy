/**
 * The command table (speech/command.go): a prefix tree of keywords, against a plain search through the
 * commands. Nodes live in one table and point to each other by position.
 */
module Trie {
  import opened Options
  import opened Sorting

  type Route = nat

  datatype Command = Command(keyword: string, route: Route)

  type Routes = map<string, Route>

  function RoutesAfter(commands: seq<Command>): Routes {
    if commands == [] then map[]
    else
      var last := commands[|commands| - 1];
      RoutesAfter(commands[..|commands| - 1])[last.keyword := last.route]
  }

  /** The route of the longest keyword among the first `upTo` prefixes of the text that are not empty. */
  function Longest(routes: Routes, text: string, upTo: nat): Option<Route>
    requires upTo <= |text|
  {
    if upTo == 0 then None
    else if text[..upTo] in routes then Some(routes[text[..upTo]])
    else Longest(routes, text, upTo - 1)
  }

  datatype Node = Node(children: map<char, nat>, route: Option<Route>)

  const LEAF := Node(map[], None)

  type Paths = map<string, nat>

  /** Every path leads to its own node, and is reached through the paths shorter than it. */
  ghost predicate PathsOk(n: nat, paths: Paths) {
    && "" in paths && paths[""] == 0
    && (forall p | p in paths :: paths[p] < n)
    && (forall p, q | p in paths && q in paths && paths[p] == paths[q] :: p == q)
    && (forall p | p in paths && p != "" :: p[..|p| - 1] in paths)
  }

  /** A node's children are exactly the paths one character longer. */
  ghost predicate ChildrenOk(nodes: seq<Node>, paths: Paths)
    requires forall p | p in paths :: paths[p] < |nodes|
  {
    && (forall p, c | p in paths && c in nodes[paths[p]].children ::
          p + [c] in paths && nodes[paths[p]].children[c] == paths[p + [c]])
    && (forall p, c | p in paths && p + [c] in paths :: c in nodes[paths[p]].children)
  }

  ghost predicate IsTree(nodes: seq<Node>, paths: Paths) {
    PathsOk(|nodes|, paths) && ChildrenOk(nodes, paths)
  }

  function RoutesOf(nodes: seq<Node>, paths: Paths): Routes {
    map p | p in paths && paths[p] < |nodes| && nodes[paths[p]].route.Some? :: nodes[paths[p]].route.value
  }

  lemma OneMore(text: string, i: nat)
    requires i < |text|
    ensures text[..i + 1] == text[..i] + [text[i]]
  {
  }

  lemma SnocSplits(p: string, c: char, q: string, d: char)
    ensures p + [c] == q + [d] <==> p == q && c == d
  {
    if p + [c] == q + [d] {
      assert (p + [c])[..|p|] == p && (q + [d])[..|q|] == q;
      assert (p + [c])[|p|] == c && (q + [d])[|q|] == d;
    }
  }

  lemma GrowPaths(n: nat, paths: Paths, p: string, c: char)
    requires PathsOk(n, paths) && p in paths && p + [c] !in paths
    ensures PathsOk(n + 1, paths[p + [c] := n])
    ensures forall d :: p + [c] + [d] !in paths[p + [c] := n]
  {
    assert (p + [c])[..|p + [c]| - 1] == p;
    forall d
      ensures p + [c] + [d] !in paths[p + [c] := n]
    {
      assert (p + [c] + [d])[..|p + [c] + [d]| - 1] == p + [c];
    }
  }

  lemma GrowChildren(nodes: seq<Node>, paths: Paths, p: string, c: char)
    requires IsTree(nodes, paths) && p in paths && p + [c] !in paths
    requires var more := paths[p + [c] := |nodes|]; PathsOk(|nodes| + 1, more) && forall d :: p + [c] + [d] !in more
    ensures ChildrenOk(Grown(nodes, paths[p], c), paths[p + [c] := |nodes|])
  {
    var grown, more := Grown(nodes, paths[p], c), paths[p + [c] := |nodes|];
    forall q, d | q in more
      ensures d in grown[more[q]].children <==> q + [d] in more
      ensures d in grown[more[q]].children && q + [d] in more ==> grown[more[q]].children[d] == more[q + [d]]
    {
      SnocSplits(q, d, p, c);
      if q != p + [c] {
        TreeStep(nodes, paths, q, d);
        OldChildren(nodes, paths, p, c, q);
      }
    }
  }

  lemma OldChildren(nodes: seq<Node>, paths: Paths, p: string, c: char, q: string)
    requires PathsOk(|nodes|, paths) && p in paths && q in paths
    ensures Grown(nodes, paths[p], c)[paths[q]].children ==
              if q == p then nodes[paths[p]].children[c := |nodes|] else nodes[paths[q]].children
  {
  }

  /** From a path, a character leads on exactly if the tree has the longer path, and then to its node. */
  lemma TreeStep(nodes: seq<Node>, paths: Paths, p: string, c: char)
    requires IsTree(nodes, paths) && p in paths
    ensures paths[p] < |nodes| && (c in nodes[paths[p]].children <==> p + [c] in paths)
    ensures p + [c] in paths ==> nodes[paths[p]].children[c] == paths[p + [c]]
  {
  }

  lemma Root(nodes: seq<Node>, paths: Paths)
    requires IsTree(nodes, paths)
    ensures "" in paths && paths[""] == 0 && |nodes| > 0
  {
  }

  lemma RouteAt(nodes: seq<Node>, paths: Paths, p: string)
    requires IsTree(nodes, paths) && p in paths
    ensures p in RoutesOf(nodes, paths) <==> nodes[paths[p]].route.Some?
    ensures p in RoutesOf(nodes, paths) ==> Some(RoutesOf(nodes, paths)[p]) == nodes[paths[p]].route
  {
  }

  lemma GrowRoutes(nodes: seq<Node>, paths: Paths, p: string, c: char)
    requires PathsOk(|nodes|, paths) && p in paths && p + [c] !in paths
    ensures RoutesOf(Grown(nodes, paths[p], c), paths[p + [c] := |nodes|]) == RoutesOf(nodes, paths)
  {
  }

  /** Growing a child where there was none. */
  lemma GrowKeeps(nodes: seq<Node>, paths: Paths, p: string, c: char)
    requires IsTree(nodes, paths) && p in paths && c !in nodes[paths[p]].children
    ensures var grown := Grown(nodes, paths[p], c);
            var more := paths[p + [c] := |nodes|];
            IsTree(grown, more) && RoutesOf(grown, more) == RoutesOf(nodes, paths)
  {
    hide PathsOk, ChildrenOk, RoutesOf, Grown;
    TreeStep(nodes, paths, p, c);
    GrowPaths(|nodes|, paths, p, c);
    GrowChildren(nodes, paths, p, c);
    GrowRoutes(nodes, paths, p, c);
  }

  function Grown(nodes: seq<Node>, at: nat, c: char): (grown: seq<Node>)
    requires at < |nodes|
    ensures |grown| == |nodes| + 1
  {
    nodes[at := nodes[at].(children := nodes[at].children[c := |nodes|])] + [LEAF]
  }

  function Routed(nodes: seq<Node>, at: nat, route: Route): seq<Node>
    requires at < |nodes|
  {
    nodes[at := nodes[at].(route := Some(route))]
  }

  lemma RoutedChildren(nodes: seq<Node>, paths: Paths, at: nat, route: Route)
    requires PathsOk(|nodes|, paths) && ChildrenOk(nodes, paths) && at < |nodes|
    ensures ChildrenOk(Routed(nodes, at, route), paths)
  {
    assert forall p | p in paths :: Routed(nodes, at, route)[paths[p]].children == nodes[paths[p]].children;
  }

  lemma RoutedRoutes(nodes: seq<Node>, paths: Paths, p: string, route: Route)
    requires PathsOk(|nodes|, paths) && p in paths
    ensures RoutesOf(Routed(nodes, paths[p], route), paths) == RoutesOf(nodes, paths)[p := route]
  {
  }

  lemma RouteKeeps(nodes: seq<Node>, paths: Paths, p: string, route: Route)
    requires IsTree(nodes, paths) && p in paths
    ensures IsTree(Routed(nodes, paths[p], route), paths)
    ensures RoutesOf(Routed(nodes, paths[p], route), paths) == RoutesOf(nodes, paths)[p := route]
  {
    Root(nodes, paths);
    TreeStep(nodes, paths, p, 'a');
    assert |Routed(nodes, paths[p], route)| == |nodes|;
    hide PathsOk, ChildrenOk, RoutesOf, Routed;
    RoutedChildren(nodes, paths, paths[p], route);
    RoutedRoutes(nodes, paths, p, route);
  }

  lemma ShorterPath(nodes: seq<Node>, paths: Paths, p: string)
    requires IsTree(nodes, paths) && p in paths && p != ""
    ensures p[..|p| - 1] in paths
  {
  }

  /** Past the end of a branch there are no keywords. */
  lemma {:induction false} NoLonger(nodes: seq<Node>, paths: Paths, text: string, i: nat, j: nat)
    requires IsTree(nodes, paths) && i < j <= |text| && text[..i + 1] !in paths
    ensures text[..j] !in paths
    decreases j
  {
    hide IsTree;
    if j > i + 1 {
      NoLonger(nodes, paths, text, i, j - 1);
      assert text[..j][..|text[..j]| - 1] == text[..j - 1];
      if text[..j] in paths {
        ShorterPath(nodes, paths, text[..j]);
      }
    }
  }

  lemma NotRouted(nodes: seq<Node>, paths: Paths, p: string)
    requires IsTree(nodes, paths) && p !in paths
    ensures p !in RoutesOf(nodes, paths)
  {
  }

  lemma {:induction false} StopsAt(nodes: seq<Node>, paths: Paths, text: string, i: nat, j: nat)
    requires IsTree(nodes, paths) && i < |text| && i <= j <= |text| && text[..i + 1] !in paths
    ensures Longest(RoutesOf(nodes, paths), text, j) == Longest(RoutesOf(nodes, paths), text, i)
    decreases j
  {
    hide IsTree, RoutesOf;
    if j > i {
      NoLonger(nodes, paths, text, i, j);
      NotRouted(nodes, paths, text[..j]);
      StopsAt(nodes, paths, text, i, j - 1);
    }
  }

  class RouteTrie {
    var nodes: seq<Node>
    ghost var paths: Paths

    ghost predicate Valid()
      reads this
    {
      IsTree(nodes, paths)
    }

    /** Keyword by keyword, what the tree holds. */
    ghost function Contents(): Routes
      reads this
    {
      RoutesOf(nodes, paths)
    }

    constructor ()
      ensures Valid() && Contents() == map[]
    {
      nodes := [LEAF];
      paths := map["" := 0];
    }

    method Insert(keyword: string, route: Route)
      requires Valid()
      modifies this
      ensures Valid() && Contents() == old(Contents())[keyword := route]
    {
      Root(nodes, paths);
      hide *;
      ghost var routes, p := RoutesOf(nodes, paths), "";
      var node, i := 0, 0;
      while i < |keyword|
        invariant 0 <= i <= |keyword| && p == keyword[..i]
        invariant IsTree(nodes, paths) && RoutesOf(nodes, paths) == routes
        invariant p in paths && node == paths[p]
      {
        node := Descend(p, node, keyword[i]);
        p := p + [keyword[i]];
        OneMore(keyword, i);
        i := i + 1;
      }
      assert p == keyword;
      SetRoute(p, node, route);
    }

    /** Every command in turn, on top of the ones before. */
    method InsertAll(ghost before: seq<Command>, commands: seq<Command>)
      requires Valid() && Contents() == RoutesAfter(before)
      modifies this
      ensures Valid() && Contents() == RoutesAfter(before + commands)
    {
      hide IsTree, RoutesOf;
      assert before + commands[..0] == before;
      for i := 0 to |commands|
        invariant Valid() && Contents() == RoutesAfter(before + commands[..i])
      {
        AfterOneMore(before, commands, i);
        Insert(commands[i].keyword, commands[i].route);
      }
      assert commands[..|commands|] == commands;
    }

    method SetRoute(ghost p: string, node: nat, route: Route)
      requires IsTree(nodes, paths) && p in paths && node == paths[p]
      modifies this
      ensures IsTree(nodes, paths) && RoutesOf(nodes, paths) == old(RoutesOf(nodes, paths))[p := route]
    {
      TreeStep(nodes, paths, p, 'a');
      RouteKeeps(nodes, paths, p, route);
      hide IsTree, RoutesOf, PathsOk;
      nodes := nodes[node := nodes[node].(route := Some(route))];
    }

    /** One character of Insert: to the child, which is created if it is not there. */
    method Descend(ghost p: string, node: nat, ch: char) returns (next: nat)
      requires IsTree(nodes, paths) && p in paths && node == paths[p]
      modifies this
      ensures IsTree(nodes, paths) && RoutesOf(nodes, paths) == old(RoutesOf(nodes, paths))
      ensures p + [ch] in paths && next == paths[p + [ch]]
    {
      TreeStep(nodes, paths, p, ch);
      hide IsTree, RoutesOf, PathsOk;
      if ch !in nodes[node].children {
        GrowKeeps(nodes, paths, p, ch);
        next := |nodes|;
        paths := paths[p + [ch] := |nodes|];
        nodes := nodes[node := nodes[node].(children := nodes[node].children[ch := |nodes|])] + [LEAF];
      } else {
        next := nodes[node].children[ch];
      }
    }

    method Match(text: string) returns (route: Option<Route>)
      requires Valid()
      ensures route == Longest(Contents(), text, |text|)
    {
      Root(nodes, paths);
      hide IsTree, RoutesOf, PathsOk;
      ghost var p := "";
      var node, i := 0, 0;
      route := None;
      while i < |text|
        invariant 0 <= i <= |text| && p == text[..i]
        invariant p in paths && node == paths[p]
        invariant route == Longest(Contents(), text, i)
      {
        var ch := text[i];
        TreeStep(nodes, paths, p, ch);
        p := p + [ch];
        OneMore(text, i);
        if ch !in nodes[node].children {
          StopsAt(nodes, paths, text, i, |text|);
          return;
        }
        node := nodes[node].children[ch];
        RouteAt(nodes, paths, p);
        if nodes[node].route.Some? {
          route := nodes[node].route;
        }
        i := i + 1;
      }
    }
  }

  lemma AfterOneMore(before: seq<Command>, commands: seq<Command>, i: nat)
    requires i < |commands|
    ensures RoutesAfter(before + commands[..i + 1]) ==
            RoutesAfter(before + commands[..i])[commands[i].keyword := commands[i].route]
  {
    assert (before + commands[..i + 1])[..|before| + i] == before + commands[..i];
  }

  /** The user's commands, by the name of what they run. */
  type Prompts = map<string, seq<Command>>

  /** Commands whose name has no handler are left out. */
  function Handled(prompts: Prompts, handlers: set<string>, name: string): seq<Command> {
    if name in prompts && name in handlers then prompts[name] else []
  }

  /** All commands, one name after another. */
  function Listed(prompts: Prompts, handlers: set<string>, order: seq<string>): seq<Command> {
    if order == [] then []
    else Listed(prompts, handlers, order[..|order| - 1]) + Handled(prompts, handlers, order[|order| - 1])
  }

  /** Every name of the map, once: an order a range over the map may take. */
  ghost predicate Enumerates(order: seq<string>, prompts: Prompts) {
    && (forall i | 0 <= i < |order| :: order[i] in prompts)
    && (forall name | name in prompts :: name in order)
    && (forall i, j | 0 <= i < j < |order| :: order[i] != order[j])
  }

  function Table(internals: seq<Command>, prompts: Prompts, handlers: set<string>, order: seq<string>): Routes {
    RoutesAfter(internals + Listed(prompts, handlers, order))
  }

  /**
   * A fresh table and the list beside it: the internal commands, then the user's in the order the map gives.
   * The list has every command; the tree is what the list comes to, later ones replacing earlier ones.
   */
  method Rebuild(internals: seq<Command>, prompts: Prompts, handlers: set<string>, order: seq<string>)
    returns (trie: RouteTrie, routes: seq<Command>)
    requires Enumerates(order, prompts)
    ensures routes == internals + Listed(prompts, handlers, order)
    ensures fresh(trie) && trie.Valid() && trie.Contents() == Table(internals, prompts, handlers, order) == RoutesAfter(routes)
  {
    hide IsTree, RoutesOf, Enumerates, Listed, RoutesAfter;
    trie := new RouteTrie();
    ListBegins(internals, prompts, handlers, order);
    trie.InsertAll([], internals);
    routes := internals;
    for i := 0 to |order|
      invariant fresh(trie) && trie.Valid()
      invariant routes == internals + Listed(prompts, handlers, order[..i])
      invariant trie.Contents() == RoutesAfter(routes)
    {
      ListGoesOn(internals, prompts, handlers, order, i);
      if order[i] !in handlers {
        continue;
      }
      trie.InsertAll(routes, Handled(prompts, handlers, order[i]));
      routes := routes + Handled(prompts, handlers, order[i]);
    }
    assert order[..|order|] == order;
  }

  lemma ListBegins(internals: seq<Command>, prompts: Prompts, handlers: set<string>, order: seq<string>)
    ensures [] + internals == internals == internals + Listed(prompts, handlers, order[..0]) && RoutesAfter([]) == map[]
  {
  }

  lemma ListGoesOn(internals: seq<Command>, prompts: Prompts, handlers: set<string>, order: seq<string>, i: nat)
    requires i < |order|
    ensures var before, more := internals + Listed(prompts, handlers, order[..i]), Handled(prompts, handlers, order[i]);
            && internals + Listed(prompts, handlers, order[..i + 1]) == before + more
            && (order[i] !in handlers ==> internals + Listed(prompts, handlers, order[..i + 1]) == before)
  {
    assert order[..i + 1][..i] == order[..i];
  }

  // Whether the order of the map matters.

  lemma {:induction false} RoutesAppend(xs: seq<Command>, ys: seq<Command>)
    ensures RoutesAfter(xs + ys) == RoutesAfter(xs) + RoutesAfter(ys)
    decreases |ys|
  {
    if ys == [] {
      assert xs + ys == xs;
    } else {
      RoutesAppend(xs, ys[..|ys| - 1]);
      assert (xs + ys)[..|xs + ys| - 1] == xs + ys[..|ys| - 1];
    }
  }

  /** The routes one name contributes. */
  function RoutesFor(prompts: Prompts, handlers: set<string>, name: string): Routes {
    RoutesAfter(Handled(prompts, handlers, name))
  }

  /** Different names give a keyword they share the same route. */
  ghost predicate Agree(prompts: Prompts, handlers: set<string>) {
    forall a, b, k | a in prompts && b in prompts && k in RoutesFor(prompts, handlers, a) && k in RoutesFor(prompts, handlers, b) ::
      RoutesFor(prompts, handlers, a)[k] == RoutesFor(prompts, handlers, b)[k]
  }

  lemma {:induction false} ListedMeans(prompts: Prompts, handlers: set<string>, order: seq<string>, k: string)
    requires Agree(prompts, handlers) && forall i | 0 <= i < |order| :: order[i] in prompts
    ensures var routes := RoutesAfter(Listed(prompts, handlers, order));
            && (k in routes <==> exists i :: 0 <= i < |order| && k in RoutesFor(prompts, handlers, order[i]))
            && forall i | 0 <= i < |order| && k in RoutesFor(prompts, handlers, order[i]) ::
                 k in routes && routes[k] == RoutesFor(prompts, handlers, order[i])[k]
    decreases |order|
  {
    if order != [] {
      var init, n := order[..|order| - 1], |order| - 1;
      ListedMeans(prompts, handlers, init, k);
      RoutesAppend(Listed(prompts, handlers, init), Handled(prompts, handlers, order[n]));
      assert forall i | 0 <= i < n :: init[i] == order[i];
      hide RoutesAfter, Handled;
      var routes := RoutesAfter(Listed(prompts, handlers, order));
      assert routes == RoutesAfter(Listed(prompts, handlers, init)) + RoutesFor(prompts, handlers, order[n]);
      if k in RoutesAfter(Listed(prompts, handlers, init)) {
        var i :| 0 <= i < |init| && k in RoutesFor(prompts, handlers, init[i]);
        assert k in RoutesFor(prompts, handlers, order[i]);
      }
    }
  }

  lemma SameRoutes(prompts: Prompts, handlers: set<string>, one: seq<string>, other: seq<string>)
    requires Agree(prompts, handlers) && Enumerates(one, prompts) && Enumerates(other, prompts)
    ensures RoutesAfter(Listed(prompts, handlers, one)) == RoutesAfter(Listed(prompts, handlers, other))
  {
    hide RoutesFor, RoutesAfter, Listed, Agree;
    forall k
      ensures var a, b := RoutesAfter(Listed(prompts, handlers, one)), RoutesAfter(Listed(prompts, handlers, other));
              (k in a <==> k in b) && (k in a ==> a[k] == b[k])
    {
      ListedMeans(prompts, handlers, one, k);
      ListedMeans(prompts, handlers, other, k);
      forall i | 0 <= i < |one|
        ensures exists j :: 0 <= j < |other| && other[j] == one[i]
      {
        assert one[i] in other;
      }
      forall i | 0 <= i < |other|
        ensures exists j :: 0 <= j < |one| && one[j] == other[i]
      {
        assert other[i] in one;
      }
    }
  }

  lemma {:induction false} SomeOrder(names: set<string>) returns (order: seq<string>)
    ensures (forall i | 0 <= i < |order| :: order[i] in names) && (forall name | name in names :: name in order)
    ensures forall i, j | 0 <= i < j < |order| :: order[i] != order[j]
    decreases |names|
  {
    if names == {} {
      order := [];
    } else {
      var name :| name in names;
      var rest := SomeOrder(names - {name});
      order := rest + [name];
      assert forall other | other in names && other != name :: other in rest;
    }
  }

  lemma LastTwo(internals: seq<Command>, prompts: Prompts, handlers: set<string>, rest: seq<string>, a: string, b: string,
                k: string)
    requires k in RoutesFor(prompts, handlers, b)
    ensures var routes := Table(internals, prompts, handlers, rest + [a] + [b]);
            k in routes && routes[k] == RoutesFor(prompts, handlers, b)[k]
  {
    var order := rest + [a] + [b];
    assert order[..|order| - 1] == rest + [a];
    hide RoutesAfter, Handled;
    RoutesAppend(internals, Listed(prompts, handlers, order));
    RoutesAppend(Listed(prompts, handlers, rest + [a]), Handled(prompts, handlers, b));
  }

  lemma TwoOrders(prompts: Prompts, a: string, b: string) returns (rest: seq<string>)
    requires a in prompts && b in prompts && a != b
    ensures Enumerates(rest + [a] + [b], prompts) && Enumerates(rest + [b] + [a], prompts)
  {
    rest := SomeOrder(prompts.Keys - {a, b});
    assert forall name | name in prompts && name != a && name != b :: name in rest;
  }

  /** Rebuilding from the same prompts always gives the same table exactly if the names agree on the keywords they share. */
  lemma RebuildDetermined(internals: seq<Command>, prompts: Prompts, handlers: set<string>)
    ensures (forall one, other | Enumerates(one, prompts) && Enumerates(other, prompts) ::
               Table(internals, prompts, handlers, one) == Table(internals, prompts, handlers, other))
            <==> Agree(prompts, handlers)
  {
    hide RoutesFor, RoutesAfter, Listed, Enumerates;
    if Agree(prompts, handlers) {
      hide Agree;
      forall one, other | Enumerates(one, prompts) && Enumerates(other, prompts)
        ensures Table(internals, prompts, handlers, one) == Table(internals, prompts, handlers, other)
      {
        SameRoutes(prompts, handlers, one, other);
        RoutesAppend(internals, Listed(prompts, handlers, one));
        RoutesAppend(internals, Listed(prompts, handlers, other));
      }
    } else {
      hide Table;
      var a, b, k :| a in prompts && b in prompts && k in RoutesFor(prompts, handlers, a) && k in RoutesFor(prompts, handlers, b)
                     && RoutesFor(prompts, handlers, a)[k] != RoutesFor(prompts, handlers, b)[k];
      var rest := TwoOrders(prompts, a, b);
      LastTwo(internals, prompts, handlers, rest, a, b, k);
      LastTwo(internals, prompts, handlers, rest, b, a, k);
    }
  }

  lemma {:induction false} ListedAppend(prompts: Prompts, handlers: set<string>, a: seq<string>, b: seq<string>)
    ensures Listed(prompts, handlers, a + b) == Listed(prompts, handlers, a) + Listed(prompts, handlers, b)
    decreases |b|
  {
    if b == [] {
      assert a + b == a;
    } else {
      ListedAppend(prompts, handlers, a, b[..|b| - 1]);
      assert (a + b)[..|a + b| - 1] == a + b[..|b| - 1];
    }
  }

  lemma {:induction false} ListedForgetsOrder(prompts: Prompts, handlers: set<string>, one: seq<string>, other: seq<string>)
    requires multiset(one) == multiset(other)
    ensures multiset(Listed(prompts, handlers, one)) == multiset(Listed(prompts, handlers, other))
    decreases |one|
  {
    assert |multiset(one)| == |one| && |multiset(other)| == |other|;
    if one != [] {
      var n := |one| - 1;
      var i := TakeOutLast(one, other);
      ListedForgetsOrder(prompts, handlers, one[..n], other[..i] + other[i + 1..]);
      assert one == one[..n] + [one[n]];
      hide Listed;
      ListedAppend(prompts, handlers, one[..n], [one[n]]);
      ListedAppend(prompts, handlers, other[..i], [other[i]]);
      ListedAppend(prompts, handlers, other[..i] + [other[i]], other[i + 1..]);
      ListedAppend(prompts, handlers, other[..i], other[i + 1..]);
    }
  }

  lemma {:induction false} OncePerName(order: seq<string>, name: string)
    requires forall i, j | 0 <= i < j < |order| :: order[i] != order[j]
    ensures multiset(order)[name] == if name in order then 1 else 0
    decreases |order|
  {
    if order != [] {
      var n := |order| - 1;
      assert order == order[..n] + [order[n]];
      OncePerName(order[..n], name);
    }
  }

  /** Whatever order the map gives, the list holds the same commands as often: only their order may differ. */
  lemma ListKeepsItsCommands(internals: seq<Command>, prompts: Prompts, handlers: set<string>,
                             one: seq<string>, other: seq<string>)
    requires Enumerates(one, prompts) && Enumerates(other, prompts)
    ensures multiset(internals + Listed(prompts, handlers, one)) == multiset(internals + Listed(prompts, handlers, other))
  {
    SameNames(prompts, one, other);
    ListedForgetsOrder(prompts, handlers, one, other);
  }

  /** The list itself is settled by the prompts exactly if the commands of any two names come to the same list either way round. */
  ghost predicate Commute(prompts: Prompts, handlers: set<string>) {
    forall a, b | a in prompts && b in prompts ::
      Handled(prompts, handlers, a) + Handled(prompts, handlers, b) == Handled(prompts, handlers, b) + Handled(prompts, handlers, a)
  }

  lemma {:induction false} CommuteAll(prompts: Prompts, handlers: set<string>, order: seq<string>, name: string)
    requires Commute(prompts, handlers) && name in prompts && forall i | 0 <= i < |order| :: order[i] in prompts
    ensures Listed(prompts, handlers, order) + Handled(prompts, handlers, name) ==
            Handled(prompts, handlers, name) + Listed(prompts, handlers, order)
    decreases |order|
  {
    var mine := Handled(prompts, handlers, name);
    if order == [] {
      assert [] + mine == mine + [];
    } else {
      var n := |order| - 1;
      CommuteAll(prompts, handlers, order[..n], name);
      var before, last := Listed(prompts, handlers, order[..n]), Handled(prompts, handlers, order[n]);
      assert last + mine == mine + last;
      hide Listed, Handled, Commute;
      assert before + last + mine == before + (last + mine) == before + mine + last == mine + before + last == mine + (before + last);
    }
  }

  lemma ListedSplit(prompts: Prompts, handlers: set<string>, front: seq<string>, name: string, back: seq<string>)
    ensures Listed(prompts, handlers, front + [name] + back) ==
            Listed(prompts, handlers, front) + Handled(prompts, handlers, name) + Listed(prompts, handlers, back)
  {
    hide Listed, Handled;
    ListedAppend(prompts, handlers, front, [name]);
    ListedAppend(prompts, handlers, front + [name], back);
    OneListed(prompts, handlers, name);
  }

  lemma MoveToEnd(f: seq<Command>, x: seq<Command>, b: seq<Command>)
    requires b + x == x + b
    ensures f + x + b == f + b + x
  {
    assert f + x + b == f + (x + b) && f + b + x == f + (b + x);
  }

  lemma {:induction false} CommutingLists(prompts: Prompts, handlers: set<string>, one: seq<string>, other: seq<string>)
    requires Commute(prompts, handlers) && multiset(one) == multiset(other) && forall i | 0 <= i < |one| :: one[i] in prompts
    requires forall i | 0 <= i < |other| :: other[i] in prompts
    ensures Listed(prompts, handlers, one) == Listed(prompts, handlers, other)
    decreases |one|
  {
    hide Listed, Commute, Handled;
    assert |multiset(one)| == |one| && |multiset(other)| == |other|;
    if one == [] {
      assert one == other;
    } else {
      var n := |one| - 1;
      var i := TakeOutLast(one, other);
      var front, name, back := other[..i], one[n], other[i + 1..];
      CommutingLists(prompts, handlers, one[..n], front + back);
      CommuteAll(prompts, handlers, back, name);
      assert one == one[..n] + [name] + [];
      ListedSplit(prompts, handlers, one[..n], name, []);
      ListedSplit(prompts, handlers, front, name, back);
      ListedAppend(prompts, handlers, front, back);
      NothingListed(prompts, handlers);
      MoveToEnd(Listed(prompts, handlers, front), Handled(prompts, handlers, name), Listed(prompts, handlers, back));
    }
  }

  lemma NothingListed(prompts: Prompts, handlers: set<string>)
    ensures Listed(prompts, handlers, []) == []
  {
  }

  lemma OneListed(prompts: Prompts, handlers: set<string>, name: string)
    ensures Listed(prompts, handlers, [name]) == Handled(prompts, handlers, name)
  {
    assert [name][..0] == [];
    assert [] + Handled(prompts, handlers, name) == Handled(prompts, handlers, name);
  }

  lemma SameNames(prompts: Prompts, one: seq<string>, other: seq<string>)
    requires Enumerates(one, prompts) && Enumerates(other, prompts)
    ensures multiset(one) == multiset(other)
  {
    forall name
      ensures multiset(one)[name] == multiset(other)[name]
    {
      OncePerName(one, name);
      OncePerName(other, name);
      assert name in one <==> name in prompts;
      assert name in other <==> name in prompts;
    }
  }

  lemma ListDetermined(prompts: Prompts, handlers: set<string>)
    ensures (forall one, other | Enumerates(one, prompts) && Enumerates(other, prompts) ::
               Listed(prompts, handlers, one) == Listed(prompts, handlers, other))
            <==> Commute(prompts, handlers)
  {
    hide Listed, Handled;
    if Commute(prompts, handlers) {
      hide Commute;
      forall one, other | Enumerates(one, prompts) && Enumerates(other, prompts)
        ensures Listed(prompts, handlers, one) == Listed(prompts, handlers, other)
      {
        SameNames(prompts, one, other);
        CommutingLists(prompts, handlers, one, other);
      }
    } else {
      hide Enumerates;
      var a, b :| a in prompts && b in prompts
        && Handled(prompts, handlers, a) + Handled(prompts, handlers, b) != Handled(prompts, handlers, b) + Handled(prompts, handlers, a);
      var rest := TwoOrders(prompts, a, b);
      var l, x, y := Listed(prompts, handlers, rest), Handled(prompts, handlers, a), Handled(prompts, handlers, b);
      TwoListed(prompts, handlers, rest, a, b);
      TwoListed(prompts, handlers, rest, b, a);
      assert (l + (x + y))[|l|..] == x + y && (l + (y + x))[|l|..] == y + x;
    }
  }

  lemma TwoListed(prompts: Prompts, handlers: set<string>, rest: seq<string>, a: string, b: string)
    ensures Listed(prompts, handlers, rest + [a] + [b]) ==
            Listed(prompts, handlers, rest) + (Handled(prompts, handlers, a) + Handled(prompts, handlers, b))
  {
    hide Listed, Handled;
    ListedSplit(prompts, handlers, rest, a, [b]);
    OneListed(prompts, handlers, b);
  }

  // ---------------------------------------------------------------------------------------------
  // The plain search.

  datatype Found = Nothing | Hit(length: nat, route: Route)

  /** Goes through the commands and keeps the longest keyword the text starts with; ties go to the later one. */
  function Search(commands: seq<Command>, text: string): Found {
    if commands == [] then Nothing
    else
      var best, c := Search(commands[..|commands| - 1], text), commands[|commands| - 1];
      if c.keyword != "" && c.keyword <= text && (best.Hit? ==> |c.keyword| >= best.length)
      then Hit(|c.keyword|, c.route) else best
  }

  /** What a search has found, said of the table: this prefix is a keyword, and no longer one is. */
  ghost predicate Describes(found: Found, routes: Routes, text: string) {
    match found
    case Nothing => forall k | 1 <= k <= |text| :: text[..k] !in routes
    case Hit(n, route) =>
      && 1 <= n <= |text| && text[..n] in routes && routes[text[..n]] == route
      && forall k | n < k <= |text| :: text[..k] !in routes
  }

  lemma {:induction false} SearchDescribes(commands: seq<Command>, text: string)
    ensures Describes(Search(commands, text), RoutesAfter(commands), text)
    decreases |commands|
  {
    if commands != [] {
      var init, c := commands[..|commands| - 1], commands[|commands| - 1];
      SearchDescribes(init, text);
      forall k | 1 <= k <= |text|
        ensures text[..k] == c.keyword <==> c.keyword != "" && c.keyword <= text && k == |c.keyword|
      {
      }
    }
  }

  lemma {:induction false} LongestIs(found: Found, routes: Routes, text: string, upTo: nat)
    requires Describes(found, routes, text) && upTo <= |text| && (found.Hit? ==> found.length <= upTo)
    ensures Longest(routes, text, upTo) == if found.Hit? then Some(found.route) else None
    decreases upTo
  {
    if upTo > 0 && !(found.Hit? && found.length == upTo) {
      LongestIs(found, routes, text, upTo - 1);
    }
  }

  /**
   * After any sequence of insertions the tree finds what the plain search finds: the last route given
   * to the longest non-empty keyword the text starts with, or nothing.
   */
  lemma TreeAgreesWithSearch(commands: seq<Command>, text: string)
    ensures Longest(RoutesAfter(commands), text, |text|) ==
              match Search(commands, text) case Nothing => None case Hit(_, route) => Some(route)
  {
    SearchDescribes(commands, text);
    LongestIs(Search(commands, text), RoutesAfter(commands), text, |text|);
  }

  /** A command with an empty keyword is never matched, whatever the text. */
  lemma EmptyKeywordNeverMatches(commands: seq<Command>, route: Route, text: string)
    ensures Longest(RoutesAfter(commands + [Command("", route)]), text, |text|) ==
              Longest(RoutesAfter(commands), text, |text|)
  {
    assert (commands + [Command("", route)])[..|commands|] == commands;
    SameBeyondEmpty(RoutesAfter(commands), route, text, |text|);
  }

  lemma {:induction false} SameBeyondEmpty(routes: Routes, route: Route, text: string, upTo: nat)
    requires upTo <= |text|
    ensures Longest(routes["" := route], text, upTo) == Longest(routes, text, upTo)
    decreases upTo
  {
    if upTo > 0 {
      assert text[..upTo] != "";
      SameBeyondEmpty(routes, route, text, upTo - 1);
    }
  }
}
