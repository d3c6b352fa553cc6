/** One side of the pooled book: a map of linked levels, and the abstract levels it stands for. */
module LinkedLevels {
  import opened Types
  import opened BookModel
  import opened SortedMap
  import opened Levels
  import opened Pool
  import opened Chains

  type LinkedMap = seq<Entry<LinkedLevel>>

  /** Ghost companion of a LinkedMap: the slots of each level, in queue order. */
  type Queues = seq<Entry<seq<int>>>

  function Abs(h: Heap, g: Queues): (ls: seq<Level>)
    ensures |ls| == |g|
    ensures forall i :: 0 <= i < |g| ==> ls[i] == Entry(g[i].price, Orders(h, g[i].value))
  {
    seq(|g|, i requires 0 <= i < |g| => Entry(g[i].price, Orders(h, g[i].value)))
  }

  ghost predicate LevelRep(h: Heap, v: LinkedLevel, c: seq<int>) {
    Chain(h, v, c) && v.total == Wrap64(Sum(Orders(h, c)))
  }

  ghost predicate Threaded(h: Heap, m: LinkedMap, g: Queues) {
    |m| == |g| && forall i :: 0 <= i < |m| ==> m[i].price == g[i].price && LevelRep(h, m[i].value, g[i].value)
  }

  ghost predicate SideRep(side: Side, h: Heap, m: LinkedMap, g: Queues) {
    Threaded(h, m, g) && LevelsOk(side, Abs(h, g))
  }

  ghost predicate OrdersAt(h: Heap, c: seq<int>, side: Side, p: Price) {
    forall k :: 0 <= k < |c| ==> OrderIn(h, c[k]).side == side && OrderIn(h, c[k]).price == p
  }

  /** Only the level (side, p), or free slots, may differ between the two heaps. */
  ghost predicate Elsewhere(h: Heap, h': Heap, side: Side, p: Price) {
    && |h| == |h'|
    && forall x :: Holds(h, x) && !(OrderIn(h, x).side == side && OrderIn(h, x).price == p) ==> h'[x] == h[x]
  }

  lemma ElsewhereTrans(h: Heap, h': Heap, h'': Heap, side: Side, p: Price)
    requires Elsewhere(h, h', side, p) && Elsewhere(h', h'', side, p)
    ensures Elsewhere(h, h'', side, p)
  {
  }

  lemma SameOrders(h: Heap, h': Heap, c: seq<int>)
    requires |h| == |h'| && forall k :: 0 <= k < |c| ==> Holds(h, c[k]) && h'[c[k]] == h[c[k]]
    ensures Orders(h', c) == Orders(h, c)
  {
  }

  lemma SameChain(h: Heap, h': Heap, v: LinkedLevel, c: seq<int>)
    requires |h| == |h'| && forall k :: 0 <= k < |c| ==> Holds(h, c[k]) && h'[c[k]] == h[c[k]]
    requires Chain(h, v, c)
    ensures Chain(h', v, c)
  {
    hide Distinct;
    forall i | 0 <= i < |c| ensures LinkAt(h', c, i) { assert LinkAt(h, c, i); }
  }

  /** A level at another place is untouched. */
  lemma KeepLevel(h: Heap, h': Heap, side: Side, p: Price, v: LinkedLevel, c: seq<int>, side2: Side, p2: Price)
    requires Elsewhere(h, h', side, p) && LevelRep(h, v, c) && OrdersAt(h, c, side2, p2) && (side2 != side || p2 != p)
    ensures LevelRep(h', v, c) && Orders(h', c) == Orders(h, c)
  {
    hide Sum, Wrap64;
    forall k | 0 <= k < |c| ensures Holds(h, c[k]) && h'[c[k]] == h[c[k]] { assert LinkAt(h, c, k); }
    SameChain(h, h', v, c);
    SameOrders(h, h', c);
  }

  lemma LevelOrders(side: Side, h: Heap, m: LinkedMap, g: Queues, i: nat)
    requires SideRep(side, h, m, g) && i < |g|
    ensures OrdersAt(h, g[i].value, side, g[i].price) && g[i].value != []
    ensures m[i].price == g[i].price && LevelRep(h, m[i].value, g[i].value)
  {
    assert LevelOk(side, Abs(h, g)[i]);
    var s := Abs(h, g)[i].value;
    forall k | 0 <= k < |g[i].value| ensures OrderIn(h, g[i].value[k]).side == side && OrderIn(h, g[i].value[k]).price == g[i].price {
      assert s[k] == OrderIn(h, g[i].value[k]);
    }
  }

  /** Every level of this side other than `p` is untouched. */
  lemma KeepLevelAt(side2: Side, h: Heap, h': Heap, side: Side, p: Price, m: LinkedMap, g: Queues, i: nat)
    requires SideRep(side2, h, m, g) && Elsewhere(h, h', side, p) && i < |g| && (side2 != side || g[i].price != p)
    ensures m[i].price == g[i].price && LevelRep(h', m[i].value, g[i].value)
    ensures Orders(h', g[i].value) == Orders(h, g[i].value)
  {
    hide LevelRep, Elsewhere, LevelsOk;
    LevelOrders(side2, h, m, g, i);
    KeepLevel(h, h', side, p, m[i].value, g[i].value, side2, g[i].price);
  }

  /** The other side is untouched. */
  lemma KeepSide(side2: Side, h: Heap, h': Heap, side: Side, p: Price, m: LinkedMap, g: Queues)
    requires SideRep(side2, h, m, g) && Elsewhere(h, h', side, p) && side2 != side
    ensures SideRep(side2, h', m, g) && Abs(h', g) == Abs(h, g)
  {
    hide LevelRep, Elsewhere;
    forall i | 0 <= i < |g|
      ensures m[i].price == g[i].price && LevelRep(h', m[i].value, g[i].value)
      ensures Orders(h', g[i].value) == Orders(h, g[i].value)
    {
      KeepLevelAt(side2, h, h', side, p, m, g, i);
    }
  }

  // ----- One level changes -----

  lemma ReplaceLevel(side: Side, h: Heap, h': Heap, m: LinkedMap, g: Queues, i: nat, v: LinkedLevel, c: seq<int>)
    requires SideRep(side, h, m, g) && i < |m| && i < |g| && Elsewhere(h, h', side, g[i].price) && LevelRep(h', v, c)
    ensures Threaded(h', m[i := Entry(m[i].price, v)], g[i := Entry(g[i].price, c)])
    ensures Abs(h', g[i := Entry(g[i].price, c)]) == Abs(h, g)[i := Entry(g[i].price, Orders(h', c))]
  {
    hide LevelRep, Elsewhere, LevelOk;
    forall j | 0 <= j < |g| && j != i
      ensures m[j].price == g[j].price && LevelRep(h', m[j].value, g[j].value)
      ensures Orders(h', g[j].value) == Orders(h, g[j].value)
    {
      OtherPrice(side, h, g, i, j);
      KeepLevelAt(side, h, h', side, g[i].price, m, g, j);
    }
  }

  lemma OtherPrice(side: Side, h: Heap, g: Queues, i: nat, j: nat)
    requires LevelsOk(side, Abs(h, g)) && i < |g| && j < |g| && i != j
    ensures g[i].price != g[j].price
  {
    var ls := Abs(h, g);
    if i < j { assert Better(side, ls[i].price, ls[j].price); } else { assert Better(side, ls[j].price, ls[i].price); }
  }

  lemma EraseLevel(side: Side, h: Heap, h': Heap, m: LinkedMap, g: Queues, i: nat)
    requires SideRep(side, h, m, g) && i < |m| && i < |g| && Elsewhere(h, h', side, g[i].price)
    ensures Threaded(h', Erase(m, i), Erase(g, i)) && Abs(h', Erase(g, i)) == Erase(Abs(h, g), i)
  {
    hide LevelRep, Elsewhere, LevelOk;
    forall j | 0 <= j < |g| && j != i
      ensures m[j].price == g[j].price && LevelRep(h', m[j].value, g[j].value)
      ensures Orders(h', g[j].value) == Orders(h, g[j].value)
    {
      OtherPrice(side, h, g, i, j);
      KeepLevelAt(side, h, h', side, g[i].price, m, g, j);
    }
    assert forall j :: 0 <= j < |g| - 1 ==> Erase(g, i)[j] == g[if j < i then j else j + 1];
    assert forall j :: 0 <= j < |g| - 1 ==> Erase(m, i)[j] == m[if j < i then j else j + 1];
  }

  lemma GrowLevel(side: Side, h: Heap, h': Heap, m: LinkedMap, g: Queues, i: nat, p: Price, v: LinkedLevel, c: seq<int>)
    requires SideRep(side, h, m, g) && i <= |m| && i <= |g| && Elsewhere(h, h', side, p) && LevelRep(h', v, c)
    requires forall j :: 0 <= j < |g| ==> g[j].price != p
    ensures Threaded(h', m[..i] + [Entry(p, v)] + m[i..], g[..i] + [Entry(p, c)] + g[i..])
    ensures Abs(h', g[..i] + [Entry(p, c)] + g[i..]) == Abs(h, g)[..i] + [Entry(p, Orders(h', c))] + Abs(h, g)[i..]
  {
    hide LevelRep, Elsewhere, LevelsOk;
    forall j | 0 <= j < |g|
      ensures m[j].price == g[j].price && LevelRep(h', m[j].value, g[j].value)
      ensures Orders(h', g[j].value) == Orders(h, g[j].value)
    {
      KeepLevelAt(side, h, h', side, p, m, g, j);
    }
  }

  lemma {:induction false} SameFind(side: Side, h: Heap, m: LinkedMap, g: Queues, p: Price)
    requires |m| == |g| && forall i :: 0 <= i < |m| ==> m[i].price == g[i].price
    ensures Find(side, m, p) == Find(side, g, p) == Find(side, Abs(h, g), p)
    ensures Has(side, m, p) == Has(side, g, p) == Has(side, Abs(h, g), p)
  {
    if m != [] {
      assert Abs(h, g)[1..] == Abs(h, g[1..]);
      SameFind(side, h, m[1..], g[1..], p);
    }
  }

  /** The slots at price `p`, none when there is no such level. */
  function SlotsAt(side: Side, g: Queues, p: Price): seq<int> {
    if Has(side, g, p) then g[Find(side, g, p)].value else []
  }

  function LevelAt(side: Side, m: LinkedMap, p: Price): LinkedLevel {
    if Has(side, m, p) then m[Find(side, m, p)].value else LinkedLevel(0, 0, NULL, NULL)
  }

  lemma LevelAtRep(side: Side, h: Heap, m: LinkedMap, g: Queues, p: Price)
    requires SideRep(side, h, m, g)
    ensures LevelRep(h, LevelAt(side, m, p), SlotsAt(side, g, p)) && OrdersAt(h, SlotsAt(side, g, p), side, p)
    ensures QueueAt(side, Abs(h, g), p) == Orders(h, SlotsAt(side, g, p))
  {
    hide LevelsOk, Sum, Wrap64;
    SameFind(side, h, m, g, p);
    if Has(side, m, p) {
      LevelOrders(side, h, m, g, Find(side, g, p));
    } else {
      EmptyTotal();
    }
  }

  /** Put a level where its price belongs, in the map and in its ghost companion. */
  lemma PutLevel(side: Side, h: Heap, h': Heap, m: LinkedMap, g: Queues, p: Price, v: LinkedLevel, c: seq<int>)
    requires SideRep(side, h, m, g) && Elsewhere(h, h', side, p) && LevelRep(h', v, c)
    ensures Threaded(h', Put(side, m, p, v), Put(side, g, p, c))
    ensures Abs(h', Put(side, g, p, c)) == Put(side, Abs(h, g), p, Orders(h', c))
  {
    hide LevelRep, Elsewhere, LevelOk, Abs;
    SameFind(side, h, m, g, p);
    var i := Find(side, g, p);
    if Has(side, g, p) {
      ReplaceLevel(side, h, h', m, g, i, v, c);
    } else {
      NoOtherPrice(side, h, g, p);
      GrowLevel(side, h, h', m, g, i, p, v, c);
    }
  }

  lemma NoOtherPrice(side: Side, h: Heap, g: Queues, p: Price)
    requires LevelsOk(side, Abs(h, g)) && !Has(side, g, p)
    ensures forall j :: 0 <= j < |g| ==> g[j].price != p
  {
    hide LevelOk;
    forall j | 0 <= j < |g| ensures g[j].price != p {
      assert Sorted(side, g) by {
        forall a, b | 0 <= a < b < |g| ensures Better(side, g[a].price, g[b].price) {
          assert Better(side, Abs(h, g)[a].price, Abs(h, g)[b].price);
        }
      }
      FindUnique(side, g, j);
    }
  }

  // ----- An order joins, leaves or shrinks -----

  /** A free slot takes the order and goes to the back of its level. */
  lemma JoinLevel(h: Heap, x: int, o: Order, v: LinkedLevel, c: seq<int>)
    requires LevelRep(h, v, c) && OrdersAt(h, c, o.side, o.price) && 0 <= x < |h| && h[x].Free?
    ensures var v' := v.(total := Wrap64(v.total + o.remaining));
            var h' := PushedHeap(h[x := Used(Node(o, NULL, NULL))], v', x);
            && LevelRep(h', PushedLevel(v', x), c + [x])
            && Orders(h', c + [x]) == Orders(h, c) + [o]
            && Elsewhere(h, h', o.side, o.price)
  {
    hide Sum, Wrap64, PushedHeap, Distinct;
    var h1 := h[x := Used(Node(o, NULL, NULL))];
    var v' := v.(total := Wrap64(v.total + o.remaining));
    var h' := PushedHeap(h1, v', x);
    forall k | 0 <= k < |c| ensures Holds(h, c[k]) && h1[c[k]] == h[c[k]] { assert LinkAt(h, c, k); }
    SameChain(h, h1, v, c);
    PushBackLinks(h1, v', c, x);
    forall y ensures Holds(h1, y) ==> OrderIn(h', y) == OrderIn(h1, y) { PushBackOrders(h1, v', x, y); }
    assert Orders(h', c + [x]) == Orders(h, c) + [o];
    SumConcat(Orders(h, c), [o]);
    assert Sum([o]) == o.remaining by { SingleSum(o); }
    WrapAdd(Sum(Orders(h, c)), o.remaining);
    PushElsewhere(h, x, o, v', c);
  }

  lemma SingleSum(o: Order)
    ensures Sum([o]) == o.remaining
  {
  }

  lemma PushElsewhere(h: Heap, x: int, o: Order, v: LinkedLevel, c: seq<int>)
    requires Chain(h, v, c) && OrdersAt(h, c, o.side, o.price) && 0 <= x < |h| && h[x].Free?
    ensures Elsewhere(h, PushedHeap(h[x := Used(Node(o, NULL, NULL))], v, x), o.side, o.price)
  {
    hide PushedHeap, Distinct;
    var h1 := h[x := Used(Node(o, NULL, NULL))];
    var h' := PushedHeap(h1, v, x);
    assert |h'| == |h| by { PushBackOrders(h1, v, x, x); }
    forall y | Holds(h, y) && !(OrderIn(h, y).side == o.side && OrderIn(h, y).price == o.price) ensures h'[y] == h[y] {
      PushBackOrders(h1, v, x, y);
    }
  }

  lemma LeaveChain(h: Heap, v: LinkedLevel, c: seq<int>, k: nat, f: int)
    requires Chain(h, v, c) && k < |c|
    ensures Holds(h, c[k]) && Holds(UnlinkedHeap(h, c[k]), c[k]) && |UnlinkedHeap(h, c[k])| == |h|
    ensures Chain(UnlinkedHeap(h, c[k])[c[k] := Free(f)], UnlinkedLevel(v, NodeIn(h, c[k])), Cut(c, k))
  {
    hide UnlinkedHeap, Distinct, UnlinkedLevel;
    var x := c[k];
    assert LinkAt(h, c, k);
    UnlinkOrders(h, x, x);
    var h1 := UnlinkedHeap(h, x);
    var h' := h1[x := Free(f)];
    UnlinkLinks(h, v, c, k);
    CutDistinct(c, k);
    forall j | 0 <= j < |Cut(c, k)| ensures Holds(h1, Cut(c, k)[j]) && h'[Cut(c, k)[j]] == h1[Cut(c, k)[j]] {
      assert LinkAt(h1, Cut(c, k), j);
    }
    SameChain(h1, h', UnlinkedLevel(v, NodeIn(h, x)), Cut(c, k));
  }

  lemma LeaveOrders(h: Heap, c: seq<int>, k: nat, f: int)
    requires Linked(h, c) && k < |c| && Holds(h, c[k]) && |UnlinkedHeap(h, c[k])| == |h|
    ensures Orders(UnlinkedHeap(h, c[k])[c[k] := Free(f)], Cut(c, k)) == RemoveAt(Orders(h, c), k)
  {
    hide UnlinkedHeap, Distinct;
    CutDistinct(c, k);
    var h' := UnlinkedHeap(h, c[k])[c[k] := Free(f)];
    forall j | 0 <= j < |Cut(c, k)| ensures OrderIn(h', Cut(c, k)[j]) == RemoveAt(Orders(h, c), k)[j] {
      assert Cut(c, k)[j] in Cut(c, k);
      UnlinkOrders(h, c[k], Cut(c, k)[j]);
    }
  }

  /** The k-th slot of a level is unlinked and freed. */
  lemma LeaveLevel(h: Heap, v: LinkedLevel, c: seq<int>, k: nat, side: Side, p: Price, f: int)
    requires LevelRep(h, v, c) && k < |c| && OrdersAt(h, c, side, p)
    ensures Holds(h, c[k]) && Holds(UnlinkedHeap(h, c[k]), c[k]) && |UnlinkedHeap(h, c[k])| == |h|
    ensures var v' := UnlinkedLevel(v, NodeIn(h, c[k])).(total := Wrap64(v.total - OrderIn(h, c[k]).remaining));
            var h' := UnlinkedHeap(h, c[k])[c[k] := Free(f)];
            && LevelRep(h', v', Cut(c, k))
            && Orders(h', Cut(c, k)) == RemoveAt(Orders(h, c), k)
            && Elsewhere(h, h', side, p)
  {
    hide Sum, Wrap64, UnlinkedHeap, Linked, OrdersAt, Elsewhere, Cut, RemoveAt;
    LeaveChain(h, v, c, k, f);
    LeaveOrders(h, c, k, f);
    SumRemove(Orders(h, c), k);
    WrapAdd(Sum(Orders(h, c)), OrderIn(h, c[k]).remaining);
    LeaveElsewhere(h, c, k, side, p, f);
  }

  lemma LeaveElsewhere(h: Heap, c: seq<int>, k: nat, side: Side, p: Price, f: int)
    requires Linked(h, c) && k < |c| && OrdersAt(h, c, side, p) && Holds(h, c[k]) && |UnlinkedHeap(h, c[k])| == |h|
    ensures Elsewhere(h, UnlinkedHeap(h, c[k])[c[k] := Free(f)], side, p)
  {
    hide UnlinkedHeap, Distinct;
    assert LinkAt(h, c, k);
    forall y | Holds(h, y) && !(OrderIn(h, y).side == side && OrderIn(h, y).price == p)
      ensures UnlinkedHeap(h, c[k])[c[k] := Free(f)][y] == h[y]
    {
      UnlinkOrders(h, c[k], y);
    }
  }

  lemma AmendLinks(h: Heap, c: seq<int>, k: nat, o: Order)
    requires Linked(h, c) && k < |c|
    ensures Linked(SetOrder(h, c[k], o), c) && Holds(h, c[k])
  {
    hide Distinct;
    assert LinkAt(h, c, k);
    forall j | 0 <= j < |c| ensures LinkAt(SetOrder(h, c[k], o), c, j) { assert LinkAt(h, c, j); }
  }

  lemma AmendOrders(h: Heap, c: seq<int>, k: nat, o: Order)
    requires Linked(h, c) && k < |c|
    ensures Orders(SetOrder(h, c[k], o), c) == Orders(h, c)[k := o]
  {
    var h' := SetOrder(h, c[k], o);
    assert LinkAt(h, c, k);
    forall j | 0 <= j < |c| ensures OrderIn(h', c[j]) == Orders(h, c)[k := o][j] { assert LinkAt(h, c, j); }
  }

  /** The k-th slot's order is overwritten by one of the same side and price. */
  lemma AmendLevel(h: Heap, v: LinkedLevel, c: seq<int>, k: nat, o: Order, t: Quantity)
    requires LevelRep(h, v, c) && k < |c| && OrdersAt(h, c, o.side, o.price)
    requires o.remaining == OrderIn(h, c[k]).remaining - t
    ensures Holds(h, c[k])
    ensures var h' := SetOrder(h, c[k], o);
            && LevelRep(h', v.(total := Wrap64(v.total - t)), c)
            && Orders(h', c) == Orders(h, c)[k := o]
            && Elsewhere(h, h', o.side, o.price)
  {
    hide Sum, Wrap64, Linked;
    AmendLinks(h, c, k, o);
    AmendOrders(h, c, k, o);
    SumUpdate(Orders(h, c), k, o);
    WrapAdd(Sum(Orders(h, c)), t);
  }

  // ----- The id index -----

  ghost predicate PointsAt(index: map<OrderId, int>, h: Heap, x: int) {
    OrderIn(h, x).id in index && index[OrderIn(h, x).id] == x
  }

  ghost predicate LevelPoints(index: map<OrderId, int>, h: Heap, c: seq<int>) {
    forall k :: 0 <= k < |c| ==> PointsAt(index, h, c[k])
  }

  ghost predicate SidePoints(index: map<OrderId, int>, h: Heap, g: Queues) {
    forall i :: 0 <= i < |g| ==> LevelPoints(index, h, g[i].value)
  }
}
