/** The whole pooled book as a value: both sides over one heap, with the id index, standing for a book. */
module LinkedSides {
  import opened Types
  import opened BookModel
  import opened BookFacts
  import opened SortedMap
  import opened Levels
  import opened Matching
  import opened Pool
  import opened Chains
  import opened LinkedLevels

  type Index = map<OrderId, int>

  ghost predicate Keyed(index: Index, own: seq<Order>, opp: seq<Order>) {
    index.Keys == Ids(own) + Ids(opp)
  }

  /** The heap, the two level maps and the index stand for `b`, told from one side. */
  ghost predicate Sides(b: Book, h: Heap, side: Side, m: LinkedMap, g: Queues, mo: LinkedMap, go: Queues, index: Index) {
    && b.On(side) == Flatten(Abs(h, g)) && b.On(Opposite(side)) == Flatten(Abs(h, go))
    && SideRep(side, h, m, g) && SideRep(Opposite(side), h, mo, go)
    && Ranked(side, b.On(side)) && Ranked(Opposite(side), b.On(Opposite(side)))
    && Apart(b.On(side), b.On(Opposite(side)))
    && Keyed(index, b.On(side), b.On(Opposite(side)))
    && SidePoints(index, h, g) && SidePoints(index, h, go)
  }

  lemma Flip(b: Book, h: Heap, side: Side, m: LinkedMap, g: Queues, mo: LinkedMap, go: Queues, index: Index)
    requires Sides(b, h, side, m, g, mo, go, index)
    ensures Sides(b, h, Opposite(side), mo, go, m, g, index)
  {
    hide SideRep, Ranked, SidePoints, Ids, Flatten, Abs;
  }

  // ----- The index follows the heap -----

  lemma DisjointLevels(h: Heap, c: seq<int>, side: Side, p: Price, c0: seq<int>, side0: Side, p0: Price)
    requires OrdersAt(h, c, side, p) && OrdersAt(h, c0, side0, p0) && (side != side0 || p != p0)
    ensures forall k :: 0 <= k < |c| ==> c[k] !in c0
  {
  }

  /** Erasing the ids of some slots leaves the entries of all other slots. */
  lemma PointsErased(index0: Index, index: Index, h: Heap, h': Heap, c0: seq<int>, d: nat, c: seq<int>)
    requires LevelPoints(index0, h, c0) && d <= |c0| && Erased(index, index0, Orders(h, c0), d)
    requires LevelPoints(index0, h, c) && (forall k :: 0 <= k < |c| ==> c[k] !in c0[..d])
    requires forall k :: 0 <= k < |c| ==> OrderIn(h', c[k]).id == OrderIn(h, c[k]).id
    ensures LevelPoints(index, h', c)
  {
    forall k | 0 <= k < |c| ensures PointsAt(index, h', c[k]) {
      assert PointsAt(index0, h, c[k]);
      var id, s := OrderIn(h, c[k]).id, Orders(h, c0)[..d];
      forall j | 0 <= j < d ensures s[j].id != id {
        assert PointsAt(index0, h, c0[j]) && c0[..d][j] in c0[..d];
      }
    }
  }

  lemma PointsAdded(index: Index, id: OrderId, x: int, h: Heap, h': Heap, c: seq<int>)
    requires LevelPoints(index, h, c) && id !in index && Orders(h', c) == Orders(h, c)
    ensures LevelPoints(index[id := x], h', c)
  {
    forall k | 0 <= k < |c| ensures PointsAt(index[id := x], h', c[k]) {
      assert PointsAt(index, h, c[k]);
      assert Orders(h', c)[k] == Orders(h, c)[k];
    }
  }

  lemma AbsSame(h: Heap, h': Heap, g: Queues, i: nat)
    requires Abs(h', g) == Abs(h, g) && i < |g|
    ensures Orders(h', g[i].value) == Orders(h, g[i].value)
  {
    assert Abs(h', g)[i] == Abs(h, g)[i];
  }

  lemma OtherSidePointsAdded(index: Index, id: OrderId, x: int, h: Heap, h': Heap, g: Queues)
    requires SidePoints(index, h, g) && id !in index && Abs(h', g) == Abs(h, g)
    ensures SidePoints(index[id := x], h', g)
  {
    hide LevelPoints, Abs, Orders;
    forall i | 0 <= i < |g| ensures LevelPoints(index[id := x], h', g[i].value) {
      AbsSame(h, h', g, i);
      PointsAdded(index, id, x, h, h', g[i].value);
    }
  }

  /** The other levels of this side keep their entries when an id joins at price `p`. */
  lemma PutPointsAdded(side: Side, index: Index, id: OrderId, x: int, h: Heap, h': Heap, m: LinkedMap, g: Queues, p: Price, c: seq<int>)
    requires SideRep(side, h, m, g) && SidePoints(index, h, g) && id !in index && Elsewhere(h, h', side, p)
    requires LevelPoints(index[id := x], h', c)
    ensures SidePoints(index[id := x], h', Put(side, g, p, c))
  {
    hide LevelPoints, Orders, Elsewhere, LevelRep, LevelOk, LevelsOk;
    var g' := Put(side, g, p, c);
    var i := Find(side, g, p);
    forall j | 0 <= j < |g| && g[j].price != p ensures LevelPoints(index[id := x], h', g[j].value) {
      KeepLevelAt(side, h, h', side, p, m, g, j);
      PointsAdded(index, id, x, h, h', g[j].value);
    }
    forall j | 0 <= j < |g'| ensures LevelPoints(index[id := x], h', g'[j].value) {
      if Has(side, g, p) {
        if j != i { SidePricesDiffer(side, h, m, g, i, j); }
      } else {
        AbsentFromSide(side, h, m, g, p);
      }
    }
  }

  lemma SidePricesDiffer(side: Side, h: Heap, m: LinkedMap, g: Queues, i: nat, j: nat)
    requires SideRep(side, h, m, g) && i < |g| && j < |g| && i != j
    ensures g[i].price != g[j].price
  {
    OtherPrice(side, h, g, i, j);
  }

  lemma AbsentFromSide(side: Side, h: Heap, m: LinkedMap, g: Queues, p: Price)
    requires SideRep(side, h, m, g) && !Has(side, g, p)
    ensures forall j :: 0 <= j < |g| ==> g[j].price != p
  {
    NoOtherPrice(side, h, g, p);
  }

  // ----- An order joins -----

  lemma KeyedInsert(index: Index, side: Side, own: seq<Order>, opp: seq<Order>, o: Order, x: int)
    requires Keyed(index, own, opp)
    ensures Keyed(index[o.id := x], Insert(side, own, o), opp)
  {
    hide Ids, Insert;
    IdsInsert(side, own, o);
  }

  /** The heap after a free slot took `o` and was pushed on the back of its level. */
  function JoinedHeap(side: Side, h: Heap, m: LinkedMap, x: int, o: Order): Heap
    requires 0 <= x < |h|
  {
    PushedHeap(h[x := Used(Node(o, NULL, NULL))], LevelAt(side, m, o.price).(total := Wrap64(LevelAt(side, m, o.price).total + o.remaining)), x)
  }

  function JoinedLevel(side: Side, m: LinkedMap, x: int, o: Order): LinkedLevel {
    PushedLevel(LevelAt(side, m, o.price).(total := Wrap64(LevelAt(side, m, o.price).total + o.remaining)), x)
  }

  lemma JoinSide(side: Side, h: Heap, m: LinkedMap, g: Queues, x: int, o: Order, index: Index)
    requires SideRep(side, h, m, g) && SidePoints(index, h, g) && o.side == side && 0 <= x < |h| && h[x].Free? && o.id !in index
    ensures var h' := JoinedHeap(side, h, m, x, o);
            var g' := Put(side, g, o.price, SlotsAt(side, g, o.price) + [x]);
            && SideRep(side, h', Put(side, m, o.price, JoinedLevel(side, m, x, o)), g')
            && Flatten(Abs(h', g')) == Insert(side, Flatten(Abs(h, g)), o)
            && SidePoints(index[o.id := x], h', g')
            && Elsewhere(h, h', side, o.price)
  {
    hide LevelRep, Elsewhere, OrdersAt, LevelsOk, Flatten, Insert, PushedHeap, PushedLevel, Put, Sum, Wrap64, Abs, SlotsAt, LevelAt, Has, Find, LevelPoints;
    var c, v := SlotsAt(side, g, o.price), LevelAt(side, m, o.price);
    LevelAtRep(side, h, m, g, o.price);
    JoinLevel(h, x, o, v, c);
    var h' := JoinedHeap(side, h, m, x, o);
    PutLevel(side, h, h', m, g, o.price, JoinedLevel(side, m, x, o), c + [x]);
    JoinOk(side, Abs(h, g), o);
    JoinIsInsert(side, Abs(h, g), o);
    JoinPoints(side, index, h, h', g, x, o);
    PutPointsAdded(side, index, o.id, x, h, h', m, g, o.price, c + [x]);
  }

  lemma JoinPoints(side: Side, index: Index, h: Heap, h': Heap, g: Queues, x: int, o: Order)
    requires SidePoints(index, h, g) && o.id !in index
    requires var c := SlotsAt(side, g, o.price); Orders(h', c + [x]) == Orders(h, c) + [o]
    ensures LevelPoints(index[o.id := x], h', SlotsAt(side, g, o.price) + [x])
  {
    var c := SlotsAt(side, g, o.price);
    var d, index' := c + [x], index[o.id := x];
    forall k | 0 <= k < |d| ensures PointsAt(index', h', d[k]) {
      assert OrderIn(h', d[k]) == (Orders(h, c) + [o])[k];
      if k < |c| {
        assert LevelPoints(index, h, c);
        assert PointsAt(index, h, c[k]);
      }
    }
  }

  lemma JoinSides(b: Book, h: Heap, side: Side, m: LinkedMap, g: Queues, mo: LinkedMap, go: Queues, index: Index, x: int, o: Order)
    requires Sides(b, h, side, m, g, mo, go, index) && o.side == side && 0 <= x < |h| && h[x].Free?
    requires Locate(b, o.id) == Nowhere
    ensures Sides(b.With(side, Insert(side, b.On(side), o)), JoinedHeap(side, h, m, x, o), side,
                  Put(side, m, o.price, JoinedLevel(side, m, x, o)), Put(side, g, o.price, SlotsAt(side, g, o.price) + [x]),
                  mo, go, index[o.id := x])
  {
    hide SideRep, SidePoints, Flatten, Abs, Ranked, Apart, Elsewhere, JoinedHeap, JoinedLevel, Put, SlotsAt, Insert, Keyed;
    var own, opp := b.On(side), b.On(Opposite(side));
    FreshKey(b, side, index, o.id);
    JoinSide(side, h, m, g, x, o, index);
    var h' := JoinedHeap(side, h, m, x, o);
    KeepSide(Opposite(side), h, h', side, o.price, mo, go);
    OtherSidePointsAdded(index, o.id, x, h, h', go);
    InsertKeepsQueue(side, own, o);
    InsertKeepsApart(side, own, o, opp);
    KeyedInsert(index, side, own, opp, o, x);
  }

  lemma FreshKey(b: Book, side: Side, index: Index, id: OrderId)
    requires Keyed(index, b.On(side), b.On(Opposite(side))) && Locate(b, id) == Nowhere
    ensures id !in index && Absent(b.On(side), id) && Absent(b.On(Opposite(side)), id)
  {
    LocateIffIds(b, id);
  }

  // ----- An order leaves -----

  lemma KeyedRemove(index: Index, side: Side, own: seq<Order>, opp: seq<Order>, i: nat)
    requires Keyed(index, own, opp) && Ranked(side, own) && Apart(own, opp) && i < |own|
    ensures Keyed(index - {own[i].id}, RemoveAt(own, i), opp)
  {
    IdsRemove(side, own, i);
  }

  lemma KeyedTrimmed(index: Index, index0: Index, side: Side, own: seq<Order>, rest: seq<Order>, opp: seq<Order>)
    requires Keyed(index0, own, opp) && Ranked(side, own) && Apart(own, opp) && Trimmed(own, rest)
    requires Erased(index, index0, own, |own| - |rest|)
    ensures Keyed(index, rest, opp)
  {
    IdsTrimmed(side, own, rest);
    var gone := Ids(own[..|own| - |rest|]);
    forall id | id in Ids(opp) ensures id !in gone { }
  }

  /** Levels away from (side, p) keep their entries when slots of that level are erased from the index. */
  lemma KeepPoints(side2: Side, index0: Index, index: Index, h: Heap, h': Heap, m: LinkedMap, g: Queues, i: nat,
                   side: Side, p: Price, c0: seq<int>, d: nat)
    requires SideRep(side2, h, m, g) && SidePoints(index0, h, g) && i < |g| && (side2 != side || g[i].price != p)
    requires LevelPoints(index0, h, c0) && OrdersAt(h, c0, side, p) && d <= |c0|
    requires Erased(index, index0, Orders(h, c0), d) && Elsewhere(h, h', side, p)
    ensures LevelPoints(index, h', g[i].value)
  {
    hide Elsewhere, LevelRep, LevelsOk, LevelPoints, OrdersAt, Erased;
    var c := g[i].value;
    LevelOrders(side2, h, m, g, i);
    KeepLevelAt(side2, h, h', side, p, m, g, i);
    DisjointLevels(h, c, side2, g[i].price, c0, side, p);
    SameIds(h, h', c);
    PointsErased(index0, index, h, h', c0, d, c);
  }

  lemma SameIds(h: Heap, h': Heap, c: seq<int>)
    requires Orders(h', c) == Orders(h, c)
    ensures forall k :: 0 <= k < |c| ==> OrderIn(h', c[k]).id == OrderIn(h, c[k]).id
  {
    forall k | 0 <= k < |c| ensures OrderIn(h', c[k]).id == OrderIn(h, c[k]).id {
      assert Orders(h', c)[k] == Orders(h, c)[k];
    }
  }

  /** The level map with level `i` changed to (v, c), or gone when `c` is empty. */
  function Settle<V>(m: seq<Entry<V>>, i: nat, v: V, empty: bool): seq<Entry<V>>
    requires i < |m|
  {
    if empty then Erase(m, i) else m[i := Entry(m[i].price, v)]
  }

  /** One level changes to the slots `c`, its first `d` former slots leaving the index. */
  lemma SettleSide(side: Side, h: Heap, h': Heap, m: LinkedMap, g: Queues, i: nat, v: LinkedLevel, c: seq<int>)
    requires SideRep(side, h, m, g) && i < |m| && i < |g| && Elsewhere(h, h', side, g[i].price) && LevelRep(h', v, c)
    ensures Threaded(h', Settle(m, i, v, c == []), Settle(g, i, c, c == []))
    ensures Abs(h', Settle(g, i, c, c == [])) == Settle(Abs(h, g), i, Orders(h', c), c == [])
  {
    hide SideRep, Elsewhere, LevelRep, Threaded, Abs;
    if c == [] {
      EraseLevel(side, h, h', m, g, i);
    } else {
      ReplaceLevel(side, h, h', m, g, i, v, c);
    }
  }

  lemma SettlePoints(side: Side, index0: Index, index: Index, h: Heap, h': Heap, m: LinkedMap, g: Queues, i: nat,
                     c0: seq<int>, d: nat, c: seq<int>)
    requires SideRep(side, h, m, g) && SidePoints(index0, h, g) && i < |g|
    requires LevelPoints(index0, h, c0) && OrdersAt(h, c0, side, g[i].price) && d <= |c0|
    requires Erased(index, index0, Orders(h, c0), d) && Elsewhere(h, h', side, g[i].price) && LevelPoints(index, h', c)
    ensures SidePoints(index, h', Settle(g, i, c, c == []))
  {
    hide SideRep, LevelPoints, OrdersAt, Erased, Elsewhere, Orders;
    var g' := Settle(g, i, c, c == []);
    forall j | 0 <= j < |g| && j != i ensures LevelPoints(index, h', g[j].value) {
      SidePricesDiffer(side, h, m, g, i, j);
      KeepPoints(side, index0, index, h, h', m, g, j, side, g[i].price, c0, d);
    }
    assert c == [] ==> forall j :: 0 <= j < |g'| ==> g'[j] == g[if j < i then j else j + 1];
  }

  lemma OtherSidePoints(side2: Side, index0: Index, index: Index, h: Heap, h': Heap, m: LinkedMap, g: Queues,
                        side: Side, p: Price, c0: seq<int>, d: nat)
    requires SideRep(side2, h, m, g) && SidePoints(index0, h, g) && side2 != side
    requires LevelPoints(index0, h, c0) && OrdersAt(h, c0, side, p) && d <= |c0|
    requires Erased(index, index0, Orders(h, c0), d) && Elsewhere(h, h', side, p)
    ensures SidePoints(index, h', g)
  {
    hide SideRep, LevelPoints, OrdersAt, Erased, Elsewhere, Orders;
    forall i | 0 <= i < |g| ensures LevelPoints(index, h', g[i].value) {
      KeepPoints(side2, index0, index, h, h', m, g, i, side, p, c0, d);
    }
  }

  lemma ErasedOne(index: Index, o: Order)
    ensures Erased(index - {o.id}, index, [o], 1)
  {
    assert [o][..1] == [o] && [o][0] == o;
    assert o.id in Ids([o]);
  }

  /** The heap and the level after the k-th slot of level `i` was unlinked and freed. */
  function LeftHeap(h: Heap, x: int, f: int): Heap {
    if 0 <= x < |UnlinkedHeap(h, x)| then UnlinkedHeap(h, x)[x := Free(f)] else h
  }

  function LeftLevel(h: Heap, v: LinkedLevel, x: int): LinkedLevel {
    UnlinkedLevel(v, NodeIn(h, x)).(total := Wrap64(v.total - OrderIn(h, x).remaining))
  }

  lemma LeaveSide(side: Side, h: Heap, m: LinkedMap, g: Queues, i: nat, k: nat, f: int, index: Index)
    requires SideRep(side, h, m, g) && SidePoints(index, h, g) && i < |m| && i < |g| && k < |g[i].value|
    ensures var x := g[i].value[k];
            var h', v, c := LeftHeap(h, x, f), LeftLevel(h, m[i].value, x), Cut(g[i].value, k);
            && SideRep(side, h', Settle(m, i, v, c == []), Settle(g, i, c, c == []))
            && Abs(h', Settle(g, i, c, c == [])) == Leave(Abs(h, g), i, k)
            && SidePoints(index - {OrderIn(h, x).id}, h', Settle(g, i, c, c == []))
            && Elsewhere(h, h', side, g[i].price)
  {
    hide LevelRep, OrdersAt, Elsewhere, UnlinkedHeap, UnlinkedLevel, LevelsOk, LevelPoints, Wrap64, Erased;
    var c0, x, p := g[i].value, g[i].value[k], g[i].price;
    var c, index' := Cut(c0, k), index - {OrderIn(h, x).id};
    var h', v := LeftHeap(h, x, f), LeftLevel(h, m[i].value, x);
    LevelOrders(side, h, m, g, i);
    LeaveLevel(h, m[i].value, c0, k, side, p, f);
    SettleSide(side, h, h', m, g, i, v, c);
    LeaveOk(side, Abs(h, g), i, k);
    LeavePoints(side, index, h, h', m, g, i, k);
  }

  lemma LeavePoints(side: Side, index: Index, h: Heap, h': Heap, m: LinkedMap, g: Queues, i: nat, k: nat)
    requires SideRep(side, h, m, g) && SidePoints(index, h, g) && i < |g| && k < |g[i].value|
    requires Elsewhere(h, h', side, g[i].price) && Orders(h', Cut(g[i].value, k)) == RemoveAt(Orders(h, g[i].value), k)
    ensures var c := Cut(g[i].value, k);
            SidePoints(index - {OrderIn(h, g[i].value[k]).id}, h', Settle(g, i, c, c == []))
  {
    hide LevelRep, Elsewhere, LevelsOk, Erased;
    var c0, x := g[i].value, g[i].value[k];
    var c, index' := Cut(c0, k), index - {OrderIn(h, x).id};
    LevelOrders(side, h, m, g, i);
    ErasedOne(index, OrderIn(h, x));
    assert Orders(h, [x]) == [OrderIn(h, x)];
    ChainDistinct(h, m[i].value, c0);
    CutDistinct(c0, k);
    assert LevelPoints(index, h, c0) && PointsAt(index, h, c0[k]);
    forall j | 0 <= j < |c| ensures c[j] !in [x][..1] && OrderIn(h', c[j]).id == OrderIn(h, c[j]).id {
      assert Orders(h', c)[j] == RemoveAt(Orders(h, c0), k)[j];
      assert c[j] in c;
    }
    forall j | 0 <= j < |c| ensures PointsAt(index, h, c[j]) { assert PointsAt(index, h, c0[if j < k then j else j + 1]); }
    PointsErased(index, index', h, h', [x], 1, c);
    SettlePoints(side, index, index', h, h', m, g, i, [x], 1, c);
  }

  lemma ChainDistinct(h: Heap, v: LinkedLevel, c: seq<int>)
    requires LevelRep(h, v, c)
    ensures Distinct(c)
  {
  }

  lemma LeaveSides(b: Book, h: Heap, side: Side, m: LinkedMap, g: Queues, mo: LinkedMap, go: Queues, index: Index,
                   i: nat, k: nat, f: int)
    requires Sides(b, h, side, m, g, mo, go, index) && i < |m| && i < |g| && k < |g[i].value|
    ensures Offset(Abs(h, g), i) + k < |b.On(side)|
    ensures var x := g[i].value[k];
            var v, c := LeftLevel(h, m[i].value, x), Cut(g[i].value, k);
            Sides(Without(b, side, Offset(Abs(h, g), i) + k), LeftHeap(h, x, f), side,
                  Settle(m, i, v, c == []), Settle(g, i, c, c == []), mo, go, index - {OrderIn(h, x).id})
  {
    hide SideRep, SidePoints, Flatten, Ranked, Apart, Elsewhere, LeftHeap, LeftLevel, Settle, Keyed, Leave, Offset, RemoveAt, LevelPoints, OrdersAt, Erased;
    var own, opp, x, p := b.On(side), b.On(Opposite(side)), g[i].value[k], g[i].price;
    var pos := Offset(Abs(h, g), i) + k;
    FlatAt(Abs(h, g), i, k);
    LeaveSide(side, h, m, g, i, k, f, index);
    LeaveIsRemove(Abs(h, g), i, k);
    var h', index' := LeftHeap(h, x, f), index - {OrderIn(h, x).id};
    KeepSide(Opposite(side), h, h', side, p, mo, go);
    OneSlot(side, h, m, g, i, k, index);
    OtherSidePoints(Opposite(side), index, index', h, h', mo, go, side, p, [x], 1);
    RemoveKeepsQueue(side, own, pos, opp);
    KeyedRemove(index, side, own, opp, pos);
  }

  lemma OneSlot(side: Side, h: Heap, m: LinkedMap, g: Queues, i: nat, k: nat, index: Index)
    requires SideRep(side, h, m, g) && SidePoints(index, h, g) && i < |g| && k < |g[i].value|
    ensures var x := g[i].value[k];
            && LevelPoints(index, h, [x]) && OrdersAt(h, [x], side, g[i].price)
            && Erased(index - {OrderIn(h, x).id}, index, Orders(h, [x]), 1)
  {
    hide LevelRep, LevelsOk, Erased;
    var x := g[i].value[k];
    LevelOrders(side, h, m, g, i);
    assert LevelPoints(index, h, g[i].value) && PointsAt(index, h, x);
    assert Orders(h, [x]) == [OrderIn(h, x)];
    ErasedOne(index, OrderIn(h, x));
  }

  // ----- An order shrinks in place -----

  lemma PointsSame(index: Index, h: Heap, h': Heap, c: seq<int>)
    requires LevelPoints(index, h, c)
    requires forall k :: 0 <= k < |c| ==> OrderIn(h', c[k]).id == OrderIn(h, c[k]).id
    ensures LevelPoints(index, h', c)
  {
    forall k | 0 <= k < |c| ensures PointsAt(index, h', c[k]) { assert PointsAt(index, h, c[k]); }
  }

  lemma SwapOk(side: Side, ls: seq<Level>, i: nat, k: nat, o: Order)
    requires LevelsOk(side, ls) && i < |ls| && k < |ls[i].value| && o.side == side && o.price == ls[i].price
    ensures LevelsOk(side, Swap(ls, i, k, o))
  {
    assert LevelOk(side, ls[i]);
  }

  lemma AmendSide(side: Side, h: Heap, m: LinkedMap, g: Queues, i: nat, k: nat, o: Order, t: Quantity, index: Index)
    requires SideRep(side, h, m, g) && SidePoints(index, h, g) && i < |m| && i < |g| && k < |g[i].value|
    requires var w := OrderIn(h, g[i].value[k]);
             o.id == w.id && o.side == w.side && o.price == w.price && o.remaining == w.remaining - t
    ensures var h' := SetOrder(h, g[i].value[k], o);
            && SideRep(side, h', m[i := Entry(m[i].price, m[i].value.(total := Wrap64(m[i].value.total - t)))], g)
            && Abs(h', g) == Swap(Abs(h, g), i, k, o)
            && SidePoints(index, h', g)
            && Elsewhere(h, h', side, g[i].price)
  {
    hide LevelRep, Elsewhere, LevelsOk, Wrap64, LevelPoints;
    var c, p := g[i].value, g[i].price;
    var h', v := SetOrder(h, c[k], o), m[i].value.(total := Wrap64(m[i].value.total - t));
    LevelOrders(side, h, m, g, i);
    AmendLevel(h, m[i].value, c, k, o, t);
    ReplaceLevel(side, h, h', m, g, i, v, c);
    assert g[i := Entry(p, c)] == g;
    SwapOk(side, Abs(h, g), i, k, o);
    AmendPoints(side, index, h, h', m, g, i, k, o);
  }

  lemma AmendPoints(side: Side, index: Index, h: Heap, h': Heap, m: LinkedMap, g: Queues, i: nat, k: nat, o: Order)
    requires SideRep(side, h, m, g) && SidePoints(index, h, g) && i < |g| && k < |g[i].value|
    requires Elsewhere(h, h', side, g[i].price) && Orders(h', g[i].value) == Orders(h, g[i].value)[k := o]
    requires o.id == OrderIn(h, g[i].value[k]).id
    ensures SidePoints(index, h', g)
  {
    hide LevelRep, Elsewhere, LevelsOk, LevelPoints, OrdersAt;
    forall j | 0 <= j < |g| ensures LevelPoints(index, h', g[j].value) {
      var c := g[j].value;
      if j == i {
        forall l | 0 <= l < |c| ensures OrderIn(h', c[l]).id == OrderIn(h, c[l]).id {
          assert Orders(h', c)[l] == Orders(h, c)[k := o][l];
        }
      } else {
        SidePricesDiffer(side, h, m, g, i, j);
        KeepLevelAt(side, h, h', side, g[i].price, m, g, j);
        SameIds(h, h', c);
      }
      PointsSame(index, h, h', c);
    }
  }

  lemma OtherSideSame(index: Index, h: Heap, h': Heap, g: Queues)
    requires SidePoints(index, h, g) && Abs(h', g) == Abs(h, g)
    ensures SidePoints(index, h', g)
  {
    hide LevelPoints, Abs, Orders;
    forall i | 0 <= i < |g| ensures LevelPoints(index, h', g[i].value) {
      AbsSame(h, h', g, i);
      SameIds(h, h', g[i].value);
      PointsSame(index, h, h', g[i].value);
    }
  }

  lemma KeyedUpdate(index: Index, own: seq<Order>, opp: seq<Order>, i: nat, o: Order)
    requires Keyed(index, own, opp) && i < |own| && o.id == own[i].id
    ensures Keyed(index, own[i := o], opp)
  {
    IdsUpdate(own, i, o);
  }

  lemma AmendSides(b: Book, h: Heap, side: Side, m: LinkedMap, g: Queues, mo: LinkedMap, go: Queues, index: Index,
                   i: nat, k: nat, o: Order, t: Quantity)
    requires Sides(b, h, side, m, g, mo, go, index) && i < |m| && i < |g| && k < |g[i].value|
    requires var w := OrderIn(h, g[i].value[k]);
             o.id == w.id && o.side == w.side && o.price == w.price && o.remaining == w.remaining - t
    ensures Offset(Abs(h, g), i) + k < |b.On(side)|
    ensures Sides(b.With(side, b.On(side)[Offset(Abs(h, g), i) + k := o]), SetOrder(h, g[i].value[k], o), side,
                  m[i := Entry(m[i].price, m[i].value.(total := Wrap64(m[i].value.total - t)))], g, mo, go, index)
  {
    hide SideRep, SidePoints, Flatten, Ranked, Apart, Elsewhere, SetOrder, Keyed, Swap, Offset, Wrap64;
    var own, opp, pos := b.On(side), b.On(Opposite(side)), Offset(Abs(h, g), i) + k;
    FlatAt(Abs(h, g), i, k);
    AmendSide(side, h, m, g, i, k, o, t, index);
    SwapIsUpdate(Abs(h, g), i, k, o);
    var h' := SetOrder(h, g[i].value[k], o);
    KeepSide(Opposite(side), h, h', side, g[i].price, mo, go);
    OtherSideSame(index, h, h', go);
    UpdateKeepsQueue(side, own, opp, pos, o);
    KeyedUpdate(index, own, opp, pos, o);
  }

  // ----- Finding an order -----

  /** The slot the index names is the k-th of level `i`, and that is where the book has the id. */
  ghost predicate SlotAt(b: Book, h: Heap, side: Side, m: LinkedMap, g: Queues, x: int, id: OrderId, i: nat, k: nat) {
    && i < |m| && i < |g| && k < |g[i].value| && g[i].value[k] == x
    && i == Find(side, m, OrderIn(h, x).price)
    && Holds(h, x) && OrderIn(h, x).id == id && OrderIn(h, x).side == side
    && Locate(b, id) == Place.At(side, Offset(Abs(h, g), i) + k)
    && b.On(side)[Offset(Abs(h, g), i) + k] == OrderIn(h, x)
  }

  lemma FindInLevel(h: Heap, side: Side, m: LinkedMap, g: Queues, j: nat) returns (i: nat, k: nat)
    requires SideRep(side, h, m, g) && j < |Flatten(Abs(h, g))|
    ensures i < |m| && i < |g| && k < |g[i].value|
    ensures var o := Flatten(Abs(h, g))[j];
            OrderIn(h, g[i].value[k]) == o && i == Find(side, m, o.price) && o.side == side
    ensures Holds(h, g[i].value[k])
  {
    hide Flatten, LevelsOk, LevelRep;
    var o := Flatten(Abs(h, g))[j];
    FlatLevel(side, Abs(h, g), j);
    SameFind(side, h, m, g, o.price);
    i := Find(side, m, o.price);
    var s := Abs(h, g)[i].value;
    k :| 0 <= k < |s| && s[k] == o;
    LevelOrders(side, h, m, g, i);
    ChainHolds(h, m[i].value, g[i].value, k);
  }

  lemma SlotPoints(index: Index, h: Heap, g: Queues, i: nat, k: nat)
    requires SidePoints(index, h, g) && i < |g| && k < |g[i].value|
    ensures PointsAt(index, h, g[i].value[k])
  {
    assert LevelPoints(index, h, g[i].value);
  }

  lemma FindSlot(b: Book, h: Heap, side: Side, m: LinkedMap, g: Queues, mo: LinkedMap, go: Queues, index: Index, j: nat)
    returns (i: nat, k: nat)
    requires Sides(b, h, side, m, g, mo, go, index) && j < |b.On(side)|
    ensures b.On(side)[j].id in index
    ensures SlotAt(b, h, side, m, g, index[b.On(side)[j].id], b.On(side)[j].id, i, k)
  {
    hide Ranked, Apart, Keyed, Flatten, Locate, SideRep, SidePoints, Shaped, Holds, Find, OrderIn;
    i, k := FindInLevel(h, side, m, g, j);
    SlotPoints(index, h, g, i, k);
    FlatAt(Abs(h, g), i, k);
    SidesShaped(b, h, side, m, g, mo, go, index);
    LocateUnique(b, side, Offset(Abs(h, g), i) + k);
  }

  lemma ChainHolds(h: Heap, v: LinkedLevel, c: seq<int>, k: nat)
    requires LevelRep(h, v, c) && k < |c|
    ensures Holds(h, c[k])
  {
    assert LinkAt(h, c, k);
  }

  lemma SidesShaped(b: Book, h: Heap, side: Side, m: LinkedMap, g: Queues, mo: LinkedMap, go: Queues, index: Index)
    requires Sides(b, h, side, m, g, mo, go, index)
    ensures Shaped(b) && Keyed(index, b.bids, b.asks)
  {
    hide SideRep, Ranked, SidePoints, Flatten, Abs, Ids;
  }
}
