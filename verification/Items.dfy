/** What travels between nodes (pipeline/contracts.go, pipeline/buffer.go). */
module Items {
  type Key = string

  const FALLBACK_KEY: Key := "serial"

  /**
   * One item in transit. `msg` is the message it carries; `decodes` says whether the JSON body
   * decodes at the node it is addressed to, which is a property of the body and never changes.
   */
  datatype Item = Item(key: Key, tag: string, msg: nat, decodes: bool, attempts: nat)

  datatype Result<+T> = Ok(value: T) | Err

  /** An item needs a target node and a key. */
  function NewItem(node: string, tag: string, key: Key, msg: nat, decodes: bool): (r: Result<Item>)
    ensures r.Ok? <==> node != "" && key != ""
    ensures r.Ok? ==> r.value.key == key && r.value.tag == tag && r.value.msg == msg && r.value.attempts == 0
  {
    if node == "" || key == "" then Err else Ok(Item(key, tag, msg, decodes, 0))
  }

  /** The buffer files items without a key under the fallback key. */
  function Normalize(key: Key): (r: Key)
    ensures r != ""
  {
    if key == "" then FALLBACK_KEY else key
  }

  /** The messages carried by a sequence of items, in order. */
  function Msgs(items: seq<Item>): (ms: seq<nat>)
    ensures |ms| == |items|
    ensures forall i | 0 <= i < |items| :: ms[i] == items[i].msg
  {
    seq(|items|, i requires 0 <= i < |items| => items[i].msg)
  }

  lemma MsgsAppend(xs: seq<Item>, ys: seq<Item>)
    ensures Msgs(xs + ys) == Msgs(xs) + Msgs(ys)
  {
  }
}
