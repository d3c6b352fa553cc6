/** Doubly linked queues threaded through pool slots, as values: a heap is the sequence of slots. */
module Chains {
  import opened Types
  import opened Pool

  datatype Node = Node(order: Order, prev: int, next: int)

  type Heap = seq<Slot<Node>>

  /** A price level of the pooled book; its price is its key in the level map. */
  datatype LinkedLevel = LinkedLevel(total: Quantity, count: nat, head: int, tail: int)

  const NO_ORDER := Order(0, 0, 0, 0, 0, 0, 0, 0, Buy, Limit, GoodTillCancel, New)

  predicate Holds(h: Heap, x: int) {
    0 <= x < |h| && h[x].Used?
  }

  function OrderIn(h: Heap, x: int): Order {
    if Holds(h, x) then h[x].value.order else NO_ORDER
  }

  function NodeIn(h: Heap, x: int): Node {
    if Holds(h, x) then h[x].value else Node(NO_ORDER, NULL, NULL)
  }

  function Orders(h: Heap, c: seq<int>): (s: seq<Order>)
    ensures |s| == |c| && forall i :: 0 <= i < |c| ==> s[i] == OrderIn(h, c[i])
  {
    seq(|c|, i requires 0 <= i < |c| => OrderIn(h, c[i]))
  }

  /** Slots `c` are linked in that order: next and prev are inverse, null at the two ends. */
  ghost predicate Linked(h: Heap, c: seq<int>) {
    Distinct(c) && forall i :: 0 <= i < |c| ==> LinkAt(h, c, i)
  }

  ghost predicate LinkAt(h: Heap, c: seq<int>, i: nat)
    requires i < |c|
  {
    Holds(h, c[i]) && h[c[i]].value.prev == Nth(c, i - 1) && h[c[i]].value.next == Nth(c, i + 1)
  }

  /** A level's head, tail and count describe the linked slots `c`. */
  ghost predicate Chain(h: Heap, v: LinkedLevel, c: seq<int>) {
    Linked(h, c) && v.head == Nth(c, 0) && v.tail == Nth(c, |c| - 1) && v.count == |c|
  }

  function SetNext(h: Heap, x: int, y: int): Heap {
    if Holds(h, x) then h[x := Used(h[x].value.(next := y))] else h
  }

  function SetPrev(h: Heap, x: int, y: int): Heap {
    if Holds(h, x) then h[x := Used(h[x].value.(prev := y))] else h
  }

  function SetOrder(h: Heap, x: int, o: Order): Heap {
    if Holds(h, x) then h[x := Used(h[x].value.(order := o))] else h
  }

  // ----- PushBack -----

  function PushedHeap(h: Heap, v: LinkedLevel, x: int): Heap {
    SetNext(SetNext(SetPrev(h, x, v.tail), x, NULL), v.tail, x)
  }

  function PushedLevel(v: LinkedLevel, x: int): LinkedLevel {
    v.(head := if v.tail == NULL then x else v.head, tail := x, count := v.count + 1)
  }

  lemma PushBackLinks(h: Heap, v: LinkedLevel, c: seq<int>, x: int)
    requires Chain(h, v, c) && Holds(h, x) && x !in c
    ensures Chain(PushedHeap(h, v, x), PushedLevel(v, x), c + [x])
  {
    var g, d := PushedHeap(h, v, x), c + [x];
    forall i | 0 <= i < |d| ensures LinkAt(g, d, i) {
      if i < |c| { assert d[i] == c[i] && LinkAt(h, c, i); }
    }
    assert c != [] ==> LinkAt(h, c, |c| - 1);
  }

  lemma PushBackOrders(h: Heap, v: LinkedLevel, x: int, y: int)
    requires Holds(h, x)
    ensures Holds(h, y) <==> Holds(PushedHeap(h, v, x), y)
    ensures OrderIn(PushedHeap(h, v, x), y) == OrderIn(h, y)
    ensures 0 <= y < |h| && y != x && y != v.tail ==> PushedHeap(h, v, x)[y] == h[y]
    ensures |PushedHeap(h, v, x)| == |h|
  {
  }

  // ----- Unlink -----

  function UnlinkedHeap(h: Heap, x: int): Heap {
    if !Holds(h, x) then h
    else
      var n := h[x].value;
      SetNext(SetPrev(SetPrev(SetNext(h, n.prev, n.next), n.next, n.prev), x, NULL), x, NULL)
  }

  function UnlinkedLevel(v: LinkedLevel, n: Node): LinkedLevel {
    LinkedLevel(v.total, if v.count > 0 then v.count - 1 else 0,
                if n.prev == NULL then n.next else v.head, if n.next == NULL then n.prev else v.tail)
  }

  function Cut(c: seq<int>, k: nat): seq<int>
    requires k < |c|
  {
    c[..k] + c[k + 1..]
  }

  /** Unlinking the k-th slot reroutes its two neighbours and no other link. */
  lemma UnlinkAt(h: Heap, c: seq<int>, k: nat, i: nat)
    requires Linked(h, c) && k < |c| && i < |Cut(c, k)|
    ensures LinkAt(UnlinkedHeap(h, c[k]), Cut(c, k), i)
  {
    var j := if i < k then i else i + 1;
    assert Cut(c, k)[i] == c[j] && c[j] != c[k];
    assert LinkAt(h, c, k) && LinkAt(h, c, j);
    assert k > 0 && i != k - 1 ==> c[j] != c[k - 1];
    assert k + 1 < |c| && i != k ==> c[j] != c[k + 1];
  }

  lemma CutDistinct(c: seq<int>, k: nat)
    requires Distinct(c) && k < |c|
    ensures Distinct(Cut(c, k)) && c[k] !in Cut(c, k)
  {
  }

  lemma UnlinkLinks(h: Heap, v: LinkedLevel, c: seq<int>, k: nat)
    requires Chain(h, v, c) && k < |c|
    ensures Chain(UnlinkedHeap(h, c[k]), UnlinkedLevel(v, NodeIn(h, c[k])), Cut(c, k))
  {
    hide Distinct, UnlinkedHeap;
    CutDistinct(c, k);
    assert LinkAt(h, c, k);
    assert k > 0 ==> LinkAt(h, c, k - 1);
    assert k + 1 < |c| ==> LinkAt(h, c, k + 1);
    forall i | 0 <= i < |Cut(c, k)| ensures LinkAt(UnlinkedHeap(h, c[k]), Cut(c, k), i) {
      UnlinkAt(h, c, k, i);
    }
  }

  lemma UnlinkOrders(h: Heap, x: int, y: int)
    requires Holds(h, x)
    ensures Holds(h, y) <==> Holds(UnlinkedHeap(h, x), y)
    ensures OrderIn(UnlinkedHeap(h, x), y) == OrderIn(h, y)
    ensures 0 <= y < |h| && y != x && y != h[x].value.prev && y != h[x].value.next ==> UnlinkedHeap(h, x)[y] == h[y]
    ensures |UnlinkedHeap(h, x)| == |h|
  {
  }
}
