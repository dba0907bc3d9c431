/**
 * The chat workflow as the bot wires it (bot/handler.go, bot/orchestrator.go, bot/domains.go):
 * sync, command, assets and agent, each a node, each delivering into the buffer of the next. A
 * worker that delivers a message is, while it does so, one of the goroutines putting into the next
 * node, and it does nothing else until that delivery is over.
 */
module Chain {
  import opened Items
  import opened Buffers
  import opened Consumers
  import opened NodeProtocol
  import opened Options
  import opened Subsequences

  const SYNC := 0
  const COMMAND := 1
  const ASSETS := 2
  const AGENT := 3
  const WORKFLOW_CHAT := "chat"

  /** What a domain does with one item: hand it on, end here, drop it, or report a failure. */
  datatype Verdict = Forward(decodes: bool) | Finish | Filter | Fail

  /**
   * The verdicts each domain can give. A body that does not decode is a reported failure everywhere
   * but in the command domain, which logs and drops it; nothing else is ever reported as failed.
   */
  predicate Legal(i: nat, item: Item, v: Verdict) {
    if i == COMMAND then (if item.decodes then v.Forward? || v.Finish? else v.Filter?)
    else if !item.decodes then v.Fail?
    else if i == SYNC then v.Forward? || v.Filter?
    else if i == ASSETS then v.Forward?
    else v.Finish?
  }

  datatype Sorted = Sorted(failed: seq<Item>, outbox: seq<Item>, finished: seq<nat>, filtered: seq<nat>)

  /** The outcome of one handler call, in the order of the batch. */
  function Sort(items: seq<Item>, vs: seq<Verdict>): Sorted
    requires |items| == |vs|
  {
    if items == [] then Sorted([], [], [], [])
    else
      var n := |items| - 1;
      var s, item := Sort(items[..n], vs[..n]), items[n];
      match vs[n]
      case Forward(decodes) => s.(outbox := s.outbox + [Item(item.key, WORKFLOW_CHAT, item.msg, decodes, 0)])
      case Finish => s.(finished := s.finished + [item.msg])
      case Filter => s.(filtered := s.filtered + [item.msg])
      case Fail => s.(failed := s.failed + [item])
  }

  /** Per key, what became of the messages a node handled, and which deliveries into it were refused. */
  datatype Book = Book(forwarded: Record<nat>, finished: Record<nat>, filtered: Record<nat>, lost: Record<nat>)

  datatype State = State(nodes: seq<Node>, books: seq<Book>, used: set<nat>)

  datatype ChainAction =
    | Admit(t: Id, item: Item)
    | Local(i: nat, a: Action)
    | Deal(i: nat, w: Id, verdicts: seq<Verdict>)
    | Offer(i: nat, w: Id)

  predicate Shape(s: State) { |s.nodes| == 4 && |s.books| == 4 }

  predicate IsLocal(a: Action) { !a.BeginPut? && !a.Handle? && !a.SendNext? }

  ghost predicate Can(s: State, ca: ChainAction)
    requires Shape(s)
  {
    match ca
    case Admit(t, item) =>
      CanBeginPut(s.nodes[SYNC], t, item) && item.msg !in s.used
    case Local(i, a) =>
      && i < 4 && IsLocal(a) && Enabled(s.nodes[i], a)
      && (a.AfterCall? && i < AGENT ==> a.w !in s.nodes[i + 1].putters)
      && (a.GiveUp? && i > SYNC ==> s.nodes[i - 1].cancelled)
    case Deal(i, w, verdicts) =>
      && i < 4 && At(s.nodes[i], w) && StageOf(s.nodes[i], w).Calling?
      && Batch(i, StageOf(s.nodes[i], w).items, verdicts, s.nodes[i].workers[w].key)
    case Offer(i, w) =>
      i < AGENT && CanSendNext(s.nodes[i], w) && w !in s.nodes[i + 1].putters
      && StageOf(s.nodes[i], w).outbox[0].key != ""
  }

  /** The put of a goroutine that is about to be refused, or that gives up, loses its item. */
  predicate Loses(n: Node, a: Action) {
    || (a.TryPut? && a.t in n.putters && n.putters[a.t].Trying? && n.buf.closed)
    || (a.GiveUp? && a.t in n.putters && n.putters[a.t].Waiting?)
  }

  function Lost(n: Node, a: Action, book: Book): Book {
    if Loses(n, a) then
      var item := n.putters[a.t].item;
      book.(lost := Extend(book.lost, item.key, [item.msg]))
    else book
  }

  function Booked(book: Book, key: Key, sorted: Sorted): Book {
    book.(forwarded := Extend(book.forwarded, key, Msgs(sorted.outbox)),
          finished := Extend(book.finished, key, sorted.finished),
          filtered := Extend(book.filtered, key, sorted.filtered))
  }

  ghost predicate Batch(i: nat, items: seq<Item>, vs: seq<Verdict>, key: Key) {
    && |items| == |vs|
    && forall j | 0 <= j < |items| :: Legal(i, items[j], vs[j]) && items[j].key == key
  }

  /** Only what does not decode is reported as failed; what is handed on keeps its key. */
  lemma {:induction false} SortShape(i: nat, items: seq<Item>, vs: seq<Verdict>, key: Key)
    requires Batch(i, items, vs, key)
    ensures forall x | x in Sort(items, vs).failed :: x in items && !x.decodes
    ensures forall x | x in Sort(items, vs).outbox :: x.key == key
    ensures i == AGENT ==> Sort(items, vs).outbox == []
    ensures (forall j | 0 <= j < |items| :: !items[j].decodes) ==> Sort(items, vs).outbox == []
    decreases |items|
  {
    if items != [] {
      var n := |items| - 1;
      SortShape(i, items[..n], vs[..n], key);
    }
  }

  /** What is handed on is, item by item, what making a new item for the next node gives: the check never fails there. */
  lemma {:induction false} HandedOnIsNew(i: nat, items: seq<Item>, vs: seq<Verdict>, key: Key, node: string)
    requires Batch(i, items, vs, key) && key != "" && node != ""
    ensures forall x | x in Sort(items, vs).outbox :: NewItem(node, WORKFLOW_CHAT, key, x.msg, x.decodes) == Ok(x)
    decreases |items|
  {
    if items != [] {
      var n := |items| - 1;
      HandedOnIsNew(i, items[..n], vs[..n], key, node);
    }
  }

  lemma {:induction false} SortOrder(items: seq<Item>, vs: seq<Verdict>)
    requires |items| == |vs|
    ensures Sub(Msgs(Sort(items, vs).outbox), Msgs(items))
    decreases |items|
  {
    if items != [] {
      var n := |items| - 1;
      var s := Sort(items[..n], vs[..n]);
      SortOrder(items[..n], vs[..n]);
      assert Msgs(items)[..n] == Msgs(items[..n]);
      if vs[n].Forward? {
        assert Msgs(Sort(items, vs).outbox)[..|s.outbox|] == Msgs(s.outbox);
      }
    }
  }

  lemma MsgsSnoc(xs: seq<Item>, x: Item)
    ensures multiset(Msgs(xs + [x])) == multiset(Msgs(xs)) + multiset{x.msg}
  {
    assert Msgs(xs + [x]) == Msgs(xs) + [x.msg];
  }

  /** No message of the batch is lost or doubled by sorting it. */
  lemma {:induction false} SortCounts(items: seq<Item>, vs: seq<Verdict>)
    requires |items| == |vs|
    ensures var s := Sort(items, vs);
            multiset(Msgs(items)) == multiset(Msgs(s.outbox)) + multiset(s.finished)
                                     + multiset(s.filtered) + multiset(Msgs(s.failed))
    decreases |items|
  {
    if items != [] {
      var n := |items| - 1;
      var s, item := Sort(items[..n], vs[..n]), items[n];
      SortCounts(items[..n], vs[..n]);
      assert items == items[..n] + [item];
      MsgsSnoc(items[..n], item);
      match vs[n] {
        case Forward(decodes) => MsgsSnoc(s.outbox, Item(item.key, WORKFLOW_CHAT, item.msg, decodes, 0));
        case Finish =>
        case Filter =>
        case Fail => MsgsSnoc(s.failed, item);
      }
    }
  }

  ghost function Next(s: State, ca: ChainAction): (s': State)
    requires Shape(s) && Can(s, ca)
    ensures Shape(s')
  {
    match ca
    case Admit(t, item) =>
      s.(nodes := s.nodes[SYNC := BeginPutting(s.nodes[SYNC], t, item)], used := s.used + {item.msg})
    case Local(i, a) =>
      s.(nodes := s.nodes[i := Apply(s.nodes[i], a)], books := s.books[i := Lost(s.nodes[i], a, s.books[i])])
    case Deal(i, w, verdicts) =>
      var n, key := s.nodes[i], s.nodes[i].workers[w].key;
      var sorted := Sort(StageOf(n, w).items, verdicts);
      SortShape(i, StageOf(n, w).items, verdicts, key);
      s.(nodes := s.nodes[i := HandledBatch(n, w, sorted.failed, sorted.outbox)],
         books := s.books[i := Booked(s.books[i], key, sorted)])
    case Offer(i, w) =>
      var item := StageOf(s.nodes[i], w).outbox[0];
      s.(nodes := s.nodes[i := SentNext(s.nodes[i], w)]
                         [i + 1 := BeginPutting(s.nodes[i + 1], w, item)])
  }
}
