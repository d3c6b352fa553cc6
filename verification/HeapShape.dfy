/** What the pooled book's invariant says about memory: every slot is in exactly one place. */
module HeapShape {
  import opened Types
  import opened BookModel
  import opened SortedMap
  import opened Levels
  import opened Pool
  import opened Chains
  import opened LinkedLevels
  import opened LinkedSides
  import Matching
  import FastBook

  /** All slots of one side, level by level, each level from head to tail. */
  function SlotList(g: Queues): seq<int> {
    if g == [] then [] else g[0].value + SlotList(g[1..])
  }

  lemma {:induction false} SlotOrders(h: Heap, m: LinkedMap, g: Queues)
    requires Threaded(h, m, g)
    ensures |SlotList(g)| == |Flatten(Abs(h, g))|
    ensures forall j :: 0 <= j < |SlotList(g)| ==> Holds(h, SlotList(g)[j]) && OrderIn(h, SlotList(g)[j]) == Flatten(Abs(h, g))[j]
  {
    hide LevelRep;
    if g != [] {
      assert Abs(h, g)[1..] == Abs(h, g[1..]);
      SlotOrders(h, m[1..], g[1..]);
      var c := g[0].value;
      forall k | 0 <= k < |c| ensures Holds(h, c[k]) && OrderIn(h, c[k]) == Abs(h, g)[0].value[k] {
        ChainHolds(h, m[0].value, c, k);
      }
    }
  }

  lemma {:induction false} SlotPointed(h: Heap, g: Queues, index: Index)
    requires SidePoints(index, h, g)
    ensures forall j :: 0 <= j < |SlotList(g)| ==> PointsAt(index, h, SlotList(g)[j])
  {
    if g != [] {
      assert LevelPoints(index, h, g[0].value);
      assert forall i :: 0 <= i < |g[1..]| ==> g[1..][i] == g[i + 1];
      SlotPointed(h, g[1..], index);
    }
  }

  /** Distinct ids of used slots keep the lists of the two sides from sharing or repeating a slot. */
  lemma SidesDistinct(h: Heap, s: seq<int>, t: seq<int>, a: seq<Order>, b: seq<Order>, side: Side)
    requires |s| == |a| && forall j :: 0 <= j < |s| ==> OrderIn(h, s[j]) == a[j]
    requires |t| == |b| && forall j :: 0 <= j < |t| ==> OrderIn(h, t[j]) == b[j]
    requires Ranked(side, a) && Ranked(Opposite(side), b) && Apart(a, b)
    ensures Distinct(s + t)
  {
    var u := s + t;
    forall i, j | 0 <= i < j < |u| ensures u[i] != u[j] {
      assert OrderIn(h, u[i]).id == (a + b)[i].id && OrderIn(h, u[j]).id == (a + b)[j].id;
    }
  }

  lemma WithFreeDistinct(h: Heap, u: seq<int>, free: seq<int>, head: int)
    requires Distinct(u) && (forall j :: 0 <= j < |u| ==> Holds(h, u[j])) && FreeOk(h, head, free)
    ensures Distinct(u + free)
    ensures forall j :: 0 <= j < |u + free| ==> 0 <= (u + free)[j] < |h|
  {
  }

  function Below(n: nat): (s: set<int>)
    ensures |s| == n && forall x :: x in s <==> 0 <= x < n
  {
    if n == 0 then {} else Below(n - 1) + {n - 1}
  }

  /** Distinct numbers below `n`, as many as `n`, are all the numbers below `n`. */
  lemma Pigeonhole(u: seq<int>, n: nat)
    requires Distinct(u) && |u| == n && forall j :: 0 <= j < n ==> 0 <= u[j] < n
    ensures forall x :: 0 <= x < n ==> x in u
  {
    var got := set j | 0 <= j < |u| :: u[j];
    ImageSize(u);
    assert got <= Below(n);
    SubsetSize(got, Below(n));
    forall x | 0 <= x < n ensures x in u { assert x in got; }
  }

  lemma SubsetSize(a: set<int>, b: set<int>)
    requires a <= b && |a| == |b|
    ensures a == b
  {
    assert b == a + (b - a);
  }

  lemma {:induction false} ImageSize(u: seq<int>)
    requires Distinct(u)
    ensures |set j | 0 <= j < |u| :: u[j]| == |u|
  {
    if u != [] {
      var v := u[..|u| - 1];
      ImageSize(v);
      var s, t := set j | 0 <= j < |u| :: u[j], set j | 0 <= j < |v| :: v[j];
      assert s == t + {u[|u| - 1]} by {
        forall j | 0 <= j < |u| ensures u[j] in t + {u[|u| - 1]} { if j < |v| { assert v[j] == u[j]; } }
        forall j | 0 <= j < |v| ensures v[j] in s { assert v[j] == u[j]; }
      }
    }
  }

  /**
    In every valid state of the pooled book, the chains of all levels of both sides and the free list,
    laid end to end, name every slot of the pool exactly once; and the index leads, by id, to exactly
    the chained slots.
   */
  lemma SlotsPartitioned(b: Book, h: Heap, m: LinkedMap, g: Queues, mo: LinkedMap, go: Queues, index: Index,
                         head: int, free: seq<int>)
    requires Sides(b, h, Buy, m, g, mo, go, index) && FreeOk(h, head, free) && b.Count() + |free| == |h|
    ensures var chained := SlotList(g) + SlotList(go);
            && Distinct(chained + free) && |chained + free| == |h|
            && (forall x :: 0 <= x < |h| ==> x in chained + free)
            && (forall j :: 0 <= j < |chained| ==> PointsAt(index, h, chained[j]))
            && |index| == |chained|
  {
    hide LevelRep, LevelsOk, Ranked, Apart, SidePoints, FreeOk, Flatten, Distinct;
    SlotOrders(h, m, g);
    SlotOrders(h, mo, go);
    SlotPointed(h, g, index);
    SlotPointed(h, go, index);
    var s, t := SlotList(g), SlotList(go);
    SidesDistinct(h, s, t, b.bids, b.asks, Buy);
    WithFreeDistinct(h, s + t, free, head);
    Pigeonhole(s + t + free, |h|);
    KeyCount(index, b);
  }

  lemma KeyCount(index: Index, b: Book)
    requires Keyed(index, b.bids, b.asks) && Ranked(Buy, b.bids) && Ranked(Sell, b.asks) && Apart(b.bids, b.asks)
    ensures |index| == b.Count()
  {
    IdCount(Buy, b.bids);
    IdCount(Sell, b.asks);
    var p, q := Matching.Ids(b.bids), Matching.Ids(b.asks);
    assert p !! q;
    assert |index.Keys| == |p + q|;
  }

  lemma {:induction false} IdCount(side: Side, s: seq<Order>)
    requires Ranked(side, s)
    ensures |Matching.Ids(s)| == |s|
  {
    if s != [] {
      Matching.IdsRemove(side, s, |s| - 1);
      assert BookModel.RemoveAt(s, |s| - 1) == s[..|s| - 1];
      IdCount(side, s[..|s| - 1]);
      assert s[|s| - 1].id in Matching.Ids(s);
    }
  }

  /** The same, read off a live object. */
  lemma PoolPartitioned(book: FastBook.OrderBook)
    requires book.Valid()
    ensures var all := SlotList(book.bidQueues) + SlotList(book.askQueues) + book.pool.free;
            Distinct(all) && |all| == book.pool.slots.Length && forall x :: 0 <= x < book.pool.slots.Length ==> x in all
  {
    SlotsPartitioned(book.View(), book.Mem(), book.bids, book.bidQueues, book.asks, book.askQueues, book.index,
                     book.pool.freeHead, book.pool.free);
  }

  /**
    A level as memory should hold it: a non-empty chain `c` from head to tail whose links are inverse and
    null at the ends, with the right count and 64-bit total, of orders of that side and price, each of
    which the index finds by id.
   */
  ghost predicate Sound(h: Heap, side: Side, p: Price, v: LinkedLevel, c: seq<int>, index: Index) {
    && c != [] && v.head == c[0] && v.tail == c[|c| - 1] && v.count == |c| && v.total == Wrap64(Sum(Orders(h, c)))
    && (forall k :: 0 <= k < |c| ==> SoundAt(h, side, p, c, index, k))
  }

  ghost predicate SoundAt(h: Heap, side: Side, p: Price, c: seq<int>, index: Index, k: nat)
    requires k < |c|
  {
    && 0 <= c[k] < |h| && h[c[k]].Used?
    && h[c[k]].value.prev == (if k == 0 then NULL else c[k - 1])
    && h[c[k]].value.next == (if k == |c| - 1 then NULL else c[k + 1])
    && h[c[k]].value.order.side == side && h[c[k]].value.order.price == p
    && h[c[k]].value.order.id in index && index[h[c[k]].value.order.id] == c[k]
  }

  lemma SoundFromRep(h: Heap, side: Side, p: Price, v: LinkedLevel, c: seq<int>, index: Index)
    requires c != [] && LevelRep(h, v, c) && LevelPoints(index, h, c) && OrdersAt(h, c, side, p)
    ensures Sound(h, side, p, v, c, index)
  {
    hide Sum, Distinct;
    forall k | 0 <= k < |c| ensures SoundAt(h, side, p, c, index, k) {
      assert LinkAt(h, c, k) && PointsAt(index, h, c[k]);
    }
  }

  lemma AtLevel(h: Heap, side: Side, m: LinkedMap, g: Queues, index: Index, i: nat)
    requires SideRep(side, h, m, g) && SidePoints(index, h, g) && i < |m|
    ensures i < |g| && g[i].value != [] && LevelRep(h, m[i].value, g[i].value)
    ensures LevelPoints(index, h, g[i].value) && OrdersAt(h, g[i].value, side, m[i].price)
  {
    hide LevelRep, LevelPoints, Sorted;
    assert LevelOk(side, Abs(h, g)[i]);
    var s := Abs(h, g)[i].value;
    forall k | 0 <= k < |g[i].value| ensures OrderIn(h, g[i].value[k]).side == side && OrderIn(h, g[i].value[k]).price == m[i].price {
      assert s[k] == OrderIn(h, g[i].value[k]);
    }
  }

  /** Every level of a live pooled book is sound. */
  lemma LevelSound(book: FastBook.OrderBook, side: Side, i: nat)
    requires book.Valid() && i < |book.On(side)|
    ensures i < |book.Lists(side)|
    ensures Sound(book.Mem(), side, book.On(side)[i].price, book.On(side)[i].value, book.Lists(side)[i].value, book.index)
  {
    hide FastBook.OrderBook.Valid, Flatten, Ranked, Apart, Keyed, SideRep, SidePoints, Sound, LevelRep, LevelPoints, OrdersAt;
    book.FromSide(side);
    AtLevel(book.Mem(), side, book.On(side), book.Lists(side), book.index, i);
    SoundFromRep(book.Mem(), side, book.On(side)[i].price, book.On(side)[i].value, book.Lists(side)[i].value, book.index);
  }
}
