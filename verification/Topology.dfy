/**
 * The orchestration layer (bot/orchestrator.go): workflows over mounted domains, declared before the
 * start; and how one batch is split by workflow, handled and delivered. A panic during wiring is a
 * refused operation.
 */
module Topology {
  import opened Items
  import opened Subsequences

  datatype Workflow = Workflow(entry: string, next: map<string, string>, ends: set<string>)

  datatype Topo = Topo(nodes: set<string>, hasRouter: bool, workflows: map<string, Workflow>)

  const EMPTY := Topo({}, false, map[])

  datatype Op =
    | Mount(name: string)
    | MountRouter
    | Declare(name: string, entry: string)
    | Connect(name: string, event: string, node: string)
    | Exit(name: string, event: string)

  /** No wiring mistake: otherwise the construction panics. */
  predicate Allowed(t: Topo, op: Op) {
    match op
    case Mount(name) => name !in t.nodes
    case MountRouter => !t.hasRouter
    case Declare(name, entry) => name != "" && entry != "" && entry in t.nodes && name !in t.workflows
    case Connect(name, event, node) =>
      && name in t.workflows && event !in t.workflows[name].ends && node in t.nodes
      && (event in t.workflows[name].next ==> t.workflows[name].next[event] == node)
    case Exit(name, event) => name in t.workflows && event !in t.workflows[name].next
  }

  function Wired(t: Topo, op: Op): Topo
    requires Allowed(t, op)
  {
    match op
    case Mount(name) => t.(nodes := t.nodes + {name})
    case MountRouter => t.(hasRouter := true)
    case Declare(name, entry) => t.(workflows := t.workflows[name := Workflow(entry, map[], {})])
    case Connect(name, event, node) =>
      var wf := t.workflows[name];
      t.(workflows := t.workflows[name := wf.(next := wf.next[event := node])])
    case Exit(name, event) =>
      var wf := t.workflows[name];
      t.(workflows := t.workflows[name := wf.(ends := wf.ends + {event})])
  }

  /** Every entry and every target is mounted, and no event both ends and goes on. */
  ghost predicate Valid(t: Topo) {
    forall name | name in t.workflows ::
      var wf := t.workflows[name];
      && wf.entry in t.nodes && wf.entry != ""
      && (forall event | event in wf.next :: wf.next[event] in t.nodes && event !in wf.ends)
  }

  /** What becomes of an event of a message with a tag. */
  datatype Hop = Ends | To(node: string) | Nowhere

  function HopOf(t: Topo, tag: string, event: string): Hop {
    if tag !in t.workflows then Nowhere
    else if event in t.workflows[tag].ends then Ends
    else if event in t.workflows[tag].next then To(t.workflows[tag].next[event])
    else Nowhere
  }

  /** Wiring keeps the topology valid. */
  lemma WiringKeepsValid(t: Topo, op: Op)
    requires Valid(t) && Allowed(t, op)
    ensures Valid(Wired(t, op))
  {
  }

  /** A hop once decided is never changed by later wiring, whatever the order; and other workflows are not touched. */
  lemma HopsAreStable(t: Topo, op: Op, tag: string, event: string)
    requires Valid(t) && Allowed(t, op)
    ensures !HopOf(t, tag, event).Nowhere? ==> HopOf(Wired(t, op), tag, event) == HopOf(t, tag, event)
    ensures (op.Connect? || op.Exit?) && (op.name != tag || op.event != event) ==>
              HopOf(Wired(t, op), tag, event) == HopOf(t, tag, event)
  {
  }

  /** A delivery goes to a mounted domain, ends by declaration, or is dropped as a wiring mistake. */
  lemma HopsAreMounted(t: Topo, tag: string, event: string)
    requires Valid(t)
    ensures HopOf(t, tag, event).To? ==> HopOf(t, tag, event).node in t.nodes
    ensures HopOf(t, tag, event).Ends? <==> tag in t.workflows && event in t.workflows[tag].ends
  {
  }

  class Orchestrator {
    var nodes: set<string>
    var hasRouter: bool
    var workflows: map<string, Workflow>

    function Model(): Topo
      reads this
    {
      Topo(nodes, hasRouter, workflows)
    }

    constructor ()
      ensures Model() == EMPTY && Valid(Model())
    {
      nodes, hasRouter, workflows := {}, false, map[];
    }

    method Mount(name: string) returns (ok: bool)
      modifies this
      ensures ok == Allowed(old(Model()), Op.Mount(name))
      ensures Model() == if ok then Wired(old(Model()), Op.Mount(name)) else old(Model())
    {
      if name in nodes {
        return false;
      }
      nodes := nodes + {name};
      ok := true;
    }

    method MountRouter() returns (ok: bool)
      modifies this
      ensures ok == Allowed(old(Model()), Op.MountRouter)
      ensures Model() == if ok then Wired(old(Model()), Op.MountRouter) else old(Model())
    {
      if hasRouter {
        return false;
      }
      hasRouter := true;
      ok := true;
    }

    method Declare(name: string, entry: string) returns (ok: bool)
      modifies this
      ensures ok == Allowed(old(Model()), Op.Declare(name, entry))
      ensures Model() == if ok then Wired(old(Model()), Op.Declare(name, entry)) else old(Model())
    {
      if name == "" || entry == "" || entry !in nodes || name in workflows {
        return false;
      }
      workflows := workflows[name := Workflow(entry, map[], {})];
      ok := true;
    }

    method Connect(name: string, event: string, node: string) returns (ok: bool)
      modifies this
      ensures ok == Allowed(old(Model()), Op.Connect(name, event, node))
      ensures Model() == if ok then Wired(old(Model()), Op.Connect(name, event, node)) else old(Model())
    {
      if name !in workflows {
        return false;
      }
      var wf := workflows[name];
      if event in wf.ends {
        return false;
      }
      if event in wf.next && wf.next[event] != node {
        return false;
      }
      if node !in nodes {
        return false;
      }
      workflows := workflows[name := wf.(next := wf.next[event := node])];
      ok := true;
    }

    method Exit(name: string, event: string) returns (ok: bool)
      modifies this
      ensures ok == Allowed(old(Model()), Op.Exit(name, event))
      ensures Model() == if ok then Wired(old(Model()), Op.Exit(name, event)) else old(Model())
    {
      if name !in workflows {
        return false;
      }
      if event in workflows[name].next {
        return false;
      }
      workflows := workflows[name := workflows[name].(ends := workflows[name].ends + {event})];
      ok := true;
    }

    /** The entry domain of the workflow picked; none if there is no such workflow. */
    method Enter(name: string) returns (node: string)
      ensures node == if name in workflows then workflows[name].entry else ""
      ensures Valid(Model()) && name in workflows ==> node in nodes && node != ""
    {
      node := if name in workflows then workflows[name].entry else "";
    }

    /** The two questions of dispatch. */
    method IsEnd(tag: string, event: string) returns (end: bool)
      ensures end <==> HopOf(Model(), tag, event).Ends?
    {
      end := tag in workflows && event in workflows[tag].ends;
    }

    method Advance(tag: string, event: string) returns (node: string)
      ensures Valid(Model()) && "" !in nodes && !HopOf(Model(), tag, event).Ends? ==>
                HopOf(Model(), tag, event) == if node == "" then Nowhere else To(node)
      ensures !HopOf(Model(), tag, event).Ends? ==>
                node == match HopOf(Model(), tag, event) case To(next) => next case _ => ""
    {
      if tag !in workflows {
        return "";
      }
      node := if event in workflows[tag].next then workflows[tag].next[event] else "";
    }

    /** dispatch: ended signals and those without a way to go are left; the others become items of the next domain. */
    method Dispatch(tag: string, signals: seq<Signal>) returns (sent: seq<Sent>)
      ensures sent == Sends(Model(), tag, signals)
    {
      sent := [];
      for i := 0 to |signals|
        invariant sent == Sends(Model(), tag, signals[..i])
      {
        var signal := signals[i];
        assert signals[..i + 1][..i] == signals[..i];
        var end := IsEnd(tag, signal.event);
        if end {
          continue;
        }
        var node := Advance(tag, signal.event);
        if node == "" {
          continue;
        }
        var item := NewItem(node, tag, signal.key, signal.msg, signal.decodes);
        if item.Ok? {
          sent := sent + [Sent(node, item.value)];
        }
      }
      assert signals[..|signals|] == signals;
    }

    /** consume: one handler call per workflow in the batch, and what each call reports goes on under its own tag. */
    method Consume(items: seq<Item>, handler: Handler)
      returns (calls: seq<Call>, failed: seq<Item>, sent: seq<Sent>)
      ensures calls == Calls(items) && failed == FailedOf(calls, handler) && sent == SentOf(Model(), calls, handler)
    {
      calls, failed, sent := [], [], [];
      if |items| == 0 {
        return;
      }
      var first, same, i := items[0].tag, true, 1;
      while i < |items| && same
        invariant 1 <= i <= |items|
        invariant same ==> forall j | 0 <= j < i :: items[j].tag == first
      {
        if items[i].tag != first {
          same := false;
        }
        i := i + 1;
      }
      if same {
        OneTag(items, first);
        calls := [Call(first, items)];
        failed := handler(items).failed;
        sent := Dispatch(first, handler(items).signals);
        assert calls == Calls(items) && calls[..0] == [] && [] + failed == failed && [] + sent == sent;
        return;
      }
      var groups, order := Group(items);
      for k := 0 to |order|
        invariant calls == Calls(items)[..k] && failed == FailedOf(calls, handler)
        invariant sent == SentOf(Model(), calls, handler)
      {
        var call := Call(order[k], groups[order[k]]);
        assert (calls + [call])[..|calls|] == calls;
        failed := failed + handler(groups[order[k]]).failed;
        var more := Dispatch(order[k], handler(groups[order[k]]).signals);
        sent := sent + more;
        calls := calls + [call];
      }
    }
  }

  // ---------------------------------------------------------------------------------------------
  // The bot's own wiring.

  const WORKFLOW_CHAT := "chat"
  const NODE_SYNC := "sync"
  const NODE_COMMAND := "command"
  const NODE_ASSETS := "assets"
  const NODE_AGENT := "agent"
  const EVENT_COMMAND_PASS := "command_pass"
  const EVENT_COMMAND_DONE := "command_done"
  const EVENT_TAGGED := "tagged"
  const EVENT_REPLIED := "replied"

  /** The wiring of the bot goes through without a panic, and makes a chain: command, assets, agent. */
  method NewBot() returns (o: Orchestrator)
    ensures fresh(o) && Valid(o.Model()) && o.hasRouter
    ensures o.nodes == {NODE_COMMAND, NODE_ASSETS, NODE_AGENT} && o.workflows.Keys == {WORKFLOW_CHAT}
    ensures o.workflows[WORKFLOW_CHAT].entry == NODE_COMMAND
    ensures HopOf(o.Model(), WORKFLOW_CHAT, EVENT_COMMAND_PASS) == To(NODE_ASSETS)
    ensures HopOf(o.Model(), WORKFLOW_CHAT, EVENT_TAGGED) == To(NODE_AGENT)
    ensures forall tag, event :: HopOf(o.Model(), tag, event).Ends? <==>
              tag == WORKFLOW_CHAT && (event == EVENT_COMMAND_DONE || event == EVENT_REPLIED)
    ensures forall tag, event :: HopOf(o.Model(), tag, event).To? <==>
              tag == WORKFLOW_CHAT && (event == EVENT_COMMAND_PASS || event == EVENT_TAGGED)
  {
    o := new Orchestrator();
    var ok := o.MountRouter();
    assert ok;
    ok := o.Mount(NODE_ASSETS);
    assert ok;
    ok := o.Mount(NODE_AGENT);
    assert ok;
    ok := o.Mount(NODE_COMMAND);
    assert ok;
    ok := o.Declare(WORKFLOW_CHAT, NODE_COMMAND);
    assert ok;
    ok := o.Connect(WORKFLOW_CHAT, EVENT_COMMAND_PASS, NODE_ASSETS);
    assert ok;
    ok := o.Connect(WORKFLOW_CHAT, EVENT_TAGGED, NODE_AGENT);
    assert ok;
    ok := o.Exit(WORKFLOW_CHAT, EVENT_COMMAND_DONE);
    assert ok;
    ok := o.Exit(WORKFLOW_CHAT, EVENT_REPLIED);
    assert ok;
  }

  // ---------------------------------------------------------------------------------------------
  // One batch, by workflow.

  /** The tags of a batch, in order of first appearance. */
  function Tags(items: seq<Item>): seq<string> {
    if items == [] then []
    else
      var before, tag := Tags(items[..|items| - 1]), items[|items| - 1].tag;
      if tag in before then before else before + [tag]
  }

  function WithTag(items: seq<Item>, tag: string): seq<Item> {
    if items == [] then []
    else
      var before, item := WithTag(items[..|items| - 1], tag), items[|items| - 1];
      if item.tag == tag then before + [item] else before
  }

  datatype Call = Call(tag: string, items: seq<Item>)

  /** The handler calls a batch leads to. */
  function Calls(items: seq<Item>): (calls: seq<Call>)
    ensures |calls| == |Tags(items)|
    ensures forall i | 0 <= i < |calls| :: calls[i] == Call(Tags(items)[i], WithTag(items, Tags(items)[i]))
  {
    seq(|Tags(items)|, i requires 0 <= i < |Tags(items)| => Call(Tags(items)[i], WithTag(items, Tags(items)[i])))
  }

  /** What a domain reports of one message: an event and what to pass on; `decodes` as for items. */
  datatype Signal = Signal(event: string, key: Key, msg: nat, decodes: bool)

  datatype Outcome = Outcome(failed: seq<Item>, signals: seq<Signal>)

  /** An item on its way to a domain. */
  datatype Sent = Sent(node: string, item: Item)

  /** What becomes of one signal. */
  function SendOf(t: Topo, tag: string, signal: Signal): seq<Sent> {
    match HopOf(t, tag, signal.event)
    case To(node) =>
      var item := NewItem(node, tag, signal.key, signal.msg, signal.decodes);
      if item.Ok? then [Sent(node, item.value)] else []
    case Ends => []
    case Nowhere => []
  }

  function Sends(t: Topo, tag: string, signals: seq<Signal>): seq<Sent> {
    if signals == [] then [] else Sends(t, tag, signals[..|signals| - 1]) + SendOf(t, tag, signals[|signals| - 1])
  }

  /** What a batch sends on: call by call, each under the tag of its call. */
  function SentOf(t: Topo, calls: seq<Call>, handler: Handler): seq<Sent> {
    if calls == [] then []
    else
      var call := calls[|calls| - 1];
      SentOf(t, calls[..|calls| - 1], handler) + Sends(t, call.tag, handler(call.items).signals)
  }

  /** The messages a workflow has a way on for, in the order they were reported. */
  function Onward(t: Topo, tag: string, signals: seq<Signal>): seq<nat> {
    if signals == [] then []
    else
      var signal := signals[|signals| - 1];
      Onward(t, tag, signals[..|signals| - 1])
      + if signal.key != "" && HopOf(t, tag, signal.event).To? && HopOf(t, tag, signal.event).node != "" then [signal.msg] else []
  }

  /**
   * Whatever a domain reports under a tag goes only to mounted domains, along a hop of the workflow of
   * that tag, with that tag, a key and no attempts yet; and nothing that has a way on is lost or reordered.
   */
  lemma {:induction false} SendsFollowTheWiring(t: Topo, tag: string, signals: seq<Signal>)
    requires Valid(t)
    ensures forall x | x in Sends(t, tag, signals) ::
              && x.node in t.nodes && x.item.tag == tag && x.item.key != "" && x.item.attempts == 0
              && exists i :: 0 <= i < |signals| && HopOf(t, tag, signals[i].event) == To(x.node)
                             && x.item.msg == signals[i].msg && x.item.key == signals[i].key
    ensures |Sends(t, tag, signals)| == |Onward(t, tag, signals)|
    ensures forall i | 0 <= i < |Onward(t, tag, signals)| :: Sends(t, tag, signals)[i].item.msg == Onward(t, tag, signals)[i]
    decreases |signals|
  {
    if signals != [] {
      var init, n := signals[..|signals| - 1], |signals| - 1;
      SendsFollowTheWiring(t, tag, init);
      HopsAreMounted(t, tag, signals[n].event);
      hide Valid;
      forall x | x in Sends(t, tag, init)
        ensures exists i :: 0 <= i < |signals| && HopOf(t, tag, signals[i].event) == To(x.node)
                            && x.item.msg == signals[i].msg && x.item.key == signals[i].key
      {
        var i :| 0 <= i < |init| && HopOf(t, tag, init[i].event) == To(x.node)
                 && x.item.msg == init[i].msg && x.item.key == init[i].key;
        assert signals[i] == init[i];
      }
    }
  }

  /** A batch sends nothing under a tag that none of its items carries. */
  lemma {:induction false} SentUnderOwnTags(t: Topo, items: seq<Item>, handler: Handler, k: nat)
    requires Valid(t) && k <= |Calls(items)|
    ensures forall x | x in SentOf(t, Calls(items)[..k], handler) :: x.node in t.nodes && x.item.tag in Tags(items)
    decreases k
  {
    if k > 0 {
      var calls := Calls(items)[..k];
      assert calls[..k - 1] == Calls(items)[..k - 1] && calls[k - 1] == Calls(items)[k - 1];
      SentUnderOwnTags(t, items, handler, k - 1);
      SendsFollowTheWiring(t, calls[k - 1].tag, handler(calls[k - 1].items).signals);
      hide Valid, Sends, HopOf;
    }
  }

  type Handler = seq<Item> -> Outcome

  /** What consume returns: the failed items of all calls, one call after another. */
  function FailedOf(calls: seq<Call>, handler: Handler): seq<Item> {
    if calls == [] then []
    else FailedOf(calls[..|calls| - 1], handler) + handler(calls[|calls| - 1].items).failed
  }

  lemma {:induction false} OneTag(items: seq<Item>, tag: string)
    requires forall i | 0 <= i < |items| :: items[i].tag == tag
    ensures WithTag(items, tag) == items && Tags(items) == if items == [] then [] else [tag]
    decreases |items|
  {
    if items != [] {
      OneTag(items[..|items| - 1], tag);
      assert items == items[..|items| - 1] + [items[|items| - 1]];
    }
  }

  method Group(items: seq<Item>) returns (groups: map<string, seq<Item>>, order: seq<string>)
    ensures order == Tags(items)
    ensures forall tag | tag in order :: tag in groups && groups[tag] == WithTag(items, tag)
  {
    groups, order := map[], [];
    for i := 0 to |items|
      invariant order == Tags(items[..i])
      invariant forall tag :: tag in groups <==> tag in order
      invariant forall tag :: WithTag(items[..i], tag) == if tag in groups then groups[tag] else []
    {
      var it := items[i];
      assert items[..i + 1][..i] == items[..i];
      if it.tag !in groups {
        order := order + [it.tag];
      }
      groups := groups[it.tag := (if it.tag in groups then groups[it.tag] else []) + [it]];
    }
    assert items[..|items|] == items;
  }

  /** Tags are listed once, and all of them are. */
  lemma {:induction false} TagsOnce(items: seq<Item>)
    ensures forall i, j | 0 <= i < j < |Tags(items)| :: Tags(items)[i] != Tags(items)[j]
    ensures forall i | 0 <= i < |items| :: items[i].tag in Tags(items)
    ensures forall tag | tag in Tags(items) :: exists i :: 0 <= i < |items| && items[i].tag == tag
    decreases |items|
  {
    if items != [] {
      var init := items[..|items| - 1];
      TagsOnce(init);
      assert forall i | 0 <= i < |init| :: init[i] == items[i];
      forall tag | tag in Tags(items)
        ensures exists i :: 0 <= i < |items| && items[i].tag == tag
      {
        if tag in Tags(init) {
          var i :| 0 <= i < |init| && init[i].tag == tag;
          assert items[i].tag == tag;
        } else {
          assert items[|items| - 1].tag == tag;
        }
      }
    }
  }

  /** How often an item occurs in the calls. */
  function Handled(calls: seq<Call>): multiset<Item> {
    if calls == [] then multiset{} else Handled(calls[..|calls| - 1]) + multiset(calls[|calls| - 1].items)
  }

  lemma {:induction false} WithTagCounts(items: seq<Item>, tag: string, x: Item)
    ensures multiset(WithTag(items, tag))[x] == if x.tag == tag then multiset(items)[x] else 0
    decreases |items|
  {
    if items != [] {
      WithTagCounts(items[..|items| - 1], tag, x);
      assert items == items[..|items| - 1] + [items[|items| - 1]];
    }
  }

  lemma {:induction false} HandledCounts(items: seq<Item>, k: nat, x: Item)
    requires k <= |Calls(items)|
    ensures Handled(Calls(items)[..k])[x] == if x.tag in Tags(items)[..k] then multiset(items)[x] else 0
    decreases k
  {
    if k > 0 {
      var calls := Calls(items)[..k];
      HandledCounts(items, k - 1, x);
      assert calls[..k - 1] == Calls(items)[..k - 1];
      WithTagCounts(items, Tags(items)[k - 1], x);
      TagsOnce(items);
      assert Tags(items)[..k] == Tags(items)[..k - 1] + [Tags(items)[k - 1]];
    }
  }

  /** Every item of a batch is handled in exactly one call, the one for its own tag. */
  lemma EachHandledOnce(items: seq<Item>)
    ensures Handled(Calls(items)) == multiset(items)
    ensures forall i, j | 0 <= i < |Calls(items)| && 0 <= j < |Calls(items)[i].items| ::
              Calls(items)[i].items[j].tag == Calls(items)[i].tag
  {
    var calls := Calls(items);
    assert calls[..|calls|] == calls && Tags(items)[..|calls|] == Tags(items);
    TagsOnce(items);
    forall x: Item
      ensures Handled(calls)[x] == multiset(items)[x]
    {
      HandledCounts(items, |calls|, x);
      if multiset(items)[x] > 0 {
        assert x in items;
      }
    }
    forall i | 0 <= i < |calls|
      ensures forall j | 0 <= j < |calls[i].items| :: calls[i].items[j].tag == calls[i].tag
    {
      WithTagIs(items, calls[i].tag);
    }
  }

  lemma {:induction false} WithTagIs(items: seq<Item>, tag: string)
    ensures forall j | 0 <= j < |WithTag(items, tag)| :: WithTag(items, tag)[j].tag == tag
    decreases |items|
  {
    if items != [] {
      WithTagIs(items[..|items| - 1], tag);
    }
  }

  /** Within a call the batch's order is kept. */
  lemma {:induction false} OrderKept(items: seq<Item>, tag: string)
    ensures Sub(WithTag(items, tag), items)
    decreases |items|
  {
    if items != [] {
      OrderKept(items[..|items| - 1], tag);
    }
  }
}
