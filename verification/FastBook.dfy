/** The pooled order book: intrusive linked queues in a fixed pool of slots, standing for the same book. */
module FastBook {
  import opened Types
  import opened BookModel
  import opened BookFacts
  import opened SortedMap
  import opened Levels
  import opened Matching
  import opened Pool
  import opened Chains
  import opened LinkedLevels
  import opened LinkedSides
  import opened LinkedMatch

  class OrderBook {
    const symbol: SymbolId
    const pool: ObjectPool<Node>
    var bids: LinkedMap
    var asks: LinkedMap
    var index: Index
    ghost var bidQueues: Queues
    ghost var askQueues: Queues

    ghost function Mem(): Heap
      reads pool.slots
    {
      pool.slots[..]
    }

    function On(side: Side): LinkedMap
      reads this
    {
      if side == Buy then bids else asks
    }

    ghost function Lists(side: Side): Queues
      reads this
    {
      if side == Buy then bidQueues else askQueues
    }

    /** The book this representation stands for. */
    ghost function View(): Book
      reads this, pool.slots
    {
      Book(symbol, Flatten(Abs(Mem(), bidQueues)), Flatten(Abs(Mem(), askQueues)))
    }

    /** Chains, free list, counts, totals and index are sound, and used slots are exactly the resting orders. */
    ghost predicate Valid()
      reads this, pool, pool.slots
    {
      && pool.Valid() && pool.inUse == View().Count()
      && Sides(View(), Mem(), Buy, bids, bidQueues, asks, askQueues, index)
    }

    ghost function Cap(): Capacity {
      Slots(pool.slots.Length)
    }

    constructor (symbol: SymbolId, maxOrders: nat)
      ensures Valid() && View() == Empty(symbol) && this.symbol == symbol
      ensures fresh(pool) && fresh(pool.slots) && Cap() == Slots(maxOrders)
    {
      this.symbol := symbol;
      var p := new ObjectPool<Node>(maxOrders);
      pool := p;
      bids, asks, index := [], [], map[];
      bidQueues, askQueues := [], [];
    }

    lemma FromSide(side: Side)
      requires Valid()
      ensures Sides(View(), Mem(), side, On(side), Lists(side), On(Opposite(side)), Lists(Opposite(side)), index)
    {
      hide Sides;
      Flip(View(), Mem(), Buy, bids, bidQueues, asks, askQueues, index);
    }

    /** Give one side new levels, once heap and index already fit them. */
    method Install(side: Side, m: LinkedMap, ghost g: Queues, ghost b: Book)
      requires pool.Valid() && b.symbol == symbol && pool.inUse == b.Count()
      requires Sides(b, Mem(), side, m, g, On(Opposite(side)), Lists(Opposite(side)), index)
      modifies this`bids, this`asks, this`bidQueues, this`askQueues
      ensures Valid() && View() == b
    {
      InstallView(b, Mem(), side, m, g, On(Opposite(side)), Lists(Opposite(side)), index);
      hide Sides, Flatten, Abs;
      if side == Buy { bids, bidQueues := m, g; } else { asks, askQueues := m, g; }
    }

    // ----- PriceLevel::PushBack and Unlink -----

    method PushBack(v: LinkedLevel, x: int) returns (r: LinkedLevel)
      requires pool.Valid() && Holds(Mem(), x) && v.tail != x && (v.tail == NULL || Holds(Mem(), v.tail))
      modifies pool.slots
      ensures pool.Valid() && Mem() == PushedHeap(old(Mem()), v, x) && r == PushedLevel(v, x)
    {
      pool.Write(x, pool.slots[x].value.(prev := v.tail));
      pool.Write(x, pool.slots[x].value.(next := NULL));
      r := v;
      if v.tail != NULL {
        pool.Write(v.tail, pool.slots[v.tail].value.(next := x));
      } else {
        r := r.(head := x);
      }
      r := r.(tail := x, count := r.count + 1);
    }

    method Unlink(v: LinkedLevel, x: int) returns (r: LinkedLevel)
      requires pool.Valid() && Holds(Mem(), x) && v.count > 0
      requires var n := pool.slots[x].value;
               (n.prev == NULL || Holds(Mem(), n.prev)) && (n.next == NULL || Holds(Mem(), n.next))
      modifies pool.slots
      ensures pool.Valid() && Mem() == UnlinkedHeap(old(Mem()), x) && r == UnlinkedLevel(v, old(pool.slots[x].value))
    {
      var n := pool.slots[x].value;
      r := v;
      if n.prev != NULL {
        pool.Write(n.prev, pool.slots[n.prev].value.(next := n.next));
      } else {
        r := r.(head := n.next);
      }
      if n.next != NULL {
        pool.Write(n.next, pool.slots[n.next].value.(prev := n.prev));
      } else {
        r := r.(tail := n.prev);
      }
      pool.Write(x, pool.slots[x].value.(prev := NULL));
      pool.Write(x, pool.slots[x].value.(next := NULL));
      r := r.(count := r.count - 1);
    }

    /** Take a slot out of its level and give it back to the pool. */
    method Detach(v: LinkedLevel, x: int, ghost c: seq<int>, ghost k: nat) returns (r: LinkedLevel)
      requires pool.Valid() && Chain(Mem(), v, c) && k < |c| && c[k] == x && pool.inUse > 0
      modifies pool, pool.slots
      ensures pool.Valid() && pool.inUse == old(pool.inUse) - 1
      ensures Mem() == LeftHeap(old(Mem()), x, old(pool.freeHead)) && r == LeftLevel(old(Mem()), v, x)
    {
      hide UnlinkedHeap, Linked, Distinct, UnlinkedLevel, LeftLevel, FreeOk, Wrap64;
      NeighboursHeld(Mem(), c, k);
      UnlinkOrders(Mem(), x, x);
      LeftLevelIs(Mem(), v, x);
      var n := pool.slots[x].value;
      r := Unlink(v.(total := Wrap64(v.total - n.order.remaining)), x);
      pool.Release(x);
    }

    // ----- Match -----

    /** One turn of the inner loop: the incoming order trades with the head of a level. */
    method TradeHead(a: Incoming, v: LinkedLevel, q: Quantity, ghost c: seq<int>)
      returns (r: LinkedLevel, trade: Trade, exhausted: bool)
      requires pool.Valid() && Chain(Mem(), v, c) && c != [] && q > 0 && pool.inUse > 0
      modifies this`index, pool, pool.slots
      ensures pool.Valid() && v.head == c[0]
      ensures var o := OrderIn(old(Mem()), c[0]);
              && exhausted == (o.remaining <= q)
              && trade == TradeOf(symbol, a, o, Min(q, o.remaining))
              && trade.quantity == Min(q, o.remaining) <= q
              && (exhausted ==>
                    && Mem() == LeftHeap(old(Mem()), c[0], old(pool.freeHead)) && r == LeftLevel(old(Mem()), v, c[0])
                    && index == old(index) - {o.id} && pool.inUse == old(pool.inUse) - 1)
              && (!exhausted ==>
                    && Mem() == SetOrder(old(Mem()), c[0], Reduce(o, q)) && r == v.(total := Wrap64(v.total - q))
                    && index == old(index) && pool.inUse == old(pool.inUse))
    {
      hide Linked, LeftHeap, LeftLevel, FreeOk;
      var node := v.head;
      NeighboursHeld(Mem(), c, 0);
      var n := pool.slots[node].value;
      var o := n.order;
      var t := Min(q, o.remaining);
      trade := Trade(a.seqNo, a.timestamp, symbol, a.id, o.id, a.trader, o.trader, a.side, o.price, t);
      exhausted := t == o.remaining;
      if exhausted {
        r := Detach(v, node, c, 0);
        index := index - {o.id};
      } else {
        r := v.(total := Wrap64(v.total - t));
        pool.Write(node, n.(order := o.(remaining := o.remaining - t, status := PartiallyFilled)));
      }
    }

    /** The inner loop: one level against what is left of the incoming order. */
    method MatchLevel(a: Incoming, v: LinkedLevel, q: Quantity, ghost c0: seq<int>, ghost behind: seq<Order>, ghost side: Side, p: Price)
      returns (r: LinkedLevel, left: Quantity, trades: seq<Trade>, ghost c: seq<int>)
      requires pool.Valid() && LevelRep(Mem(), v, c0) && OrdersAt(Mem(), c0, side, p) && Crosses(a, p) && |c0| <= pool.inUse
      modifies this`index, pool, pool.slots
      ensures pool.Valid() && |c| <= |c0| && pool.inUse == old(pool.inUse) - (|c0| - |c|)
      ensures LevelMid(symbol, a, old(Mem()), c0, old(index), behind, q, side, p, Mem(), r, c, index, left, trades)
      ensures (left > 0 ==> c == []) && r.count == |c|
    {
      hide LevelMid, LevelRep, OrdersAt, Crosses, LeftHeap, LeftLevel, SetOrder, Reduce, TradeOf, Wrap64, FreeOk, Chain;
      MidStart(symbol, a, Mem(), c0, index, behind, q, side, p, v);
      r, left, trades, c := v, q, [], c0;
      var more := true;
      MidFacts(symbol, a, old(Mem()), c0, old(index), behind, q, side, p, Mem(), r, c, index, left, trades);
      while left > 0 && more && r.head != NULL
        invariant pool.Valid() && |c| <= |c0| && pool.inUse == old(pool.inUse) - (|c0| - |c|)
        invariant LevelMid(symbol, a, old(Mem()), c0, old(index), behind, q, side, p, Mem(), r, c, index, left, trades)
        invariant Chain(Mem(), r, c) && r.count == |c| && (r.head == NULL <==> c == [])
        invariant more || left == 0
        decreases |c|, more
      {
        ghost var h, index1, left1, v1, f := Mem(), index, left, r, pool.freeHead;
        var trade;
        r, trade, more := TradeHead(a, r, left, c);
        if more {
          MidExhausted(symbol, a, old(Mem()), c0, old(index), behind, q, side, p, h, v1, c, index1, left1, trades, f);
          left := left - trade.quantity;
          c := c[1..];
        } else {
          MidReduced(symbol, a, old(Mem()), c0, old(index), behind, q, side, p, h, v1, c, index1, left1, trades);
          left := 0;
        }
        trades := trades + [trade];
        MidFacts(symbol, a, old(Mem()), c0, old(index), behind, q, side, p, Mem(), r, c, index, left, trades);
      }
    }

    /** The nested matching loops over linked levels: the same fill of the opposite queue. */
    method Match(a: Incoming) returns (left: Quantity, trades: seq<Trade>)
      requires Valid()
      modifies this, pool, pool.slots
      ensures Valid()
      ensures var f := Fill(symbol, a, old(View()).On(Opposite(a.side)), a.quantity);
              left == f.left && trades == f.trades && View() == old(View()).With(Opposite(a.side), f.rest)
    {
      hide Sweep, LevelMid, Sides, Flatten, Abs, Fill, Crosses, LevelRep, OrdersAt, FreeOk;
      var opp := Opposite(a.side);
      ghost var b0 := View();
      FromSide(opp);
      var m := On(opp);
      ghost var g, mo, go := Lists(opp), On(a.side), Lists(a.side);
      left, trades := a.quantity, [];
      SweepStart(b0, a, Mem(), m, g, mo, go, index);
      var more := true;
      while left > 0 && more && m != [] && Crosses(a, m[0].price)
        invariant more || left == 0
        invariant bids == old(bids) && asks == old(asks) && bidQueues == old(bidQueues) && askQueues == old(askQueues)
        invariant Sweep(b0, a, Mem(), m, g, mo, go, index, left, trades)
        invariant pool.Valid() && pool.inUse == |Flatten(Abs(Mem(), g))| + |b0.On(a.side)|
        decreases |m|, more
      {
        SweepFront(b0, a, Mem(), m, g, mo, go, index, left, trades);
        SweepSize(Mem(), g);
        ghost var h, index1, left1 := Mem(), index, left;
        var v, some; ghost var c;
        v, left, some, c := MatchLevel(a, m[0].value, left, g[0].value, Flatten(Abs(Mem(), g)[1..]), opp, m[0].price);
        SweepLevel(b0, a, h, m, g, mo, go, index1, left1, trades, Mem(), v, c, index, left, some);
        SweepShrinks(b0, a, h, m, g, mo, go, index1, left1, trades, Mem(), v, c, index, left, some);
        trades := trades + some;
        more := v.count == 0;
        m := Settle(m, 0, v, v.count == 0);
        g := Settle(g, 0, c, c == []);
      }
      SweepDone(b0, a, Mem(), m, g, mo, go, index, left, trades);
      SidesFlat(b0.With(opp, Fill(symbol, a, b0.On(opp), a.quantity).rest), Mem(), opp, m, g, mo, go, index);
      Install(opp, m, g, b0.With(opp, Fill(symbol, a, b0.On(opp), a.quantity).rest));
    }

    // ----- Queries -----

    method AvailableCrossingQuantity(a: Incoming) returns (total: Quantity)
      requires Valid()
      ensures total == Wrap64(CrossingSum(a, View().On(Opposite(a.side))))
    {
      hide Wrap64, CrossingLevels, CrossingSum, Crosses, Flatten, Sides, LevelsOk, Abs, FreeOk;
      var opp := Opposite(a.side);
      var m := On(opp);
      ghost var g := Lists(opp);
      FromSide(opp);
      SideFacts(View(), Mem(), opp, m, g, On(a.side), Lists(a.side), index);
      total := 0;
      var i := 0;
      AvailableAll(opp, a, Abs(Mem(), g));
      while i < |m| && Crosses(a, m[i].price)
        invariant i <= |m|
        invariant Wrap64(total + CrossingLevels(a, Abs(Mem(), g)[i..])) == Wrap64(CrossingSum(a, Flatten(Abs(Mem(), g))))
      {
        LevelTotal(opp, Mem(), m, g, i);
        AvailableNext(a, Abs(Mem(), g), i, total, m[i].value.total);
        total := Wrap64(total + m[i].value.total);
        i := i + 1;
      }
      if i < |m| { LevelTotal(opp, Mem(), m, g, i); }
      AvailableDone(a, Abs(Mem(), g), i, total);
    }

    method QuantityAt(side: Side, p: Price) returns (q: Quantity)
      requires Valid()
      ensures q == BookModel.QuantityAt(View(), side, p)
    {
      hide Sides, Flatten, Sum, SumAt, Wrap64, LevelsOk, FreeOk, Threaded, Chain, Abs;
      var m := On(side);
      FromSide(side);
      SideFacts(View(), Mem(), side, m, Lists(side), On(Opposite(side)), Lists(Opposite(side)), index);
      QueueSum(side, Abs(Mem(), Lists(side)), p);
      LevelAtRep(side, Mem(), m, Lists(side), p);
      q := LevelAt(side, m, p).total;
    }

    method HasOrder(id: OrderId) returns (yes: bool)
      requires Valid()
      ensures yes <==> Locate(View(), id).At?
    {
      SidesShaped(View(), Mem(), Buy, bids, bidQueues, asks, askQueues, index);
      LocateIffIds(View(), id);
      yes := id in index;
    }

    /** The slot named by the index, as a place in the book. */
    lemma Located(id: OrderId) returns (side: Side, i: nat, k: nat)
      requires Valid() && Locate(View(), id).At?
      ensures id in index && SlotAt(View(), Mem(), side, On(side), Lists(side), index[id], id, i, k)
    {
      hide Sides, SlotAt, FreeOk, Flatten, Abs;
      side := Locate(View(), id).side;
      FromSide(side);
      LocatedId(View(), id);
      i, k := FindSlot(View(), Mem(), side, On(side), Lists(side), On(Opposite(side)), Lists(Opposite(side)), index, Locate(View(), id).pos);
    }

    method FindOrder(id: OrderId) returns (r: Option<Order>)
      requires Valid()
      ensures match Locate(View(), id)
              case Nowhere => r == None
              case At(side, i) => r == Some(View().On(side)[i])
      ensures r.Some? ==> id in index && r.value.id == id && Locate(View(), id).side == r.value.side
    {
      hide Sides, FreeOk, Flatten, Abs, Locate, Find, Offset;
      var known := HasOrder(id);
      if !known { return None; }
      ghost var side, i, k := Located(id);
      r := Some(pool.slots[index[id]].value.order);
    }

    // ----- Resting orders -----

    /** False, and nothing changes, exactly when the pool is exhausted. */
    method InsertResting(o: Order) returns (ok: bool)
      requires Valid() && Locate(View(), o.id) == Nowhere
      modifies this, pool, pool.slots
      ensures Valid()
      ensures ok == old(Cap().Admits(View().Count() + 1))
      ensures View() == if ok then old(View()).With(o.side, Insert(o.side, old(View()).On(o.side), o)) else old(View())
    {
      hide Sides, FreeOk, Flatten, Abs, Locate, PushedHeap, PushedLevel, SlotsAt, Insert, SortedMap.Put, Wrap64, Find, Has;
      var side := o.side;
      ghost var b, h := View(), Mem();
      FromSide(side);
      var m := On(side);
      ghost var g := Lists(side);
      var x := pool.Acquire(Node(o, NULL, NULL));
      if x == NULL {
        return false;
      }
      var v := LevelAt(side, m, o.price).(total := Wrap64(LevelAt(side, m, o.price).total + o.remaining));
      TailHeld(b, h, side, m, g, On(Opposite(side)), Lists(Opposite(side)), index, o.price, x, Mem());
      JoinSides(b, h, side, m, g, On(Opposite(side)), Lists(Opposite(side)), index, x, o);
      v := PushBack(v, x);
      index := index[o.id := x];
      InsertCount(b, o);
      Install(side, SortedMap.Put(side, m, o.price, v), SortedMap.Put(side, g, o.price, SlotsAt(side, g, o.price) + [x]),
              b.With(side, Insert(side, b.On(side), o)));
      ok := true;
    }

    method RemoveFromBook(id: OrderId)
      requires Valid() && Locate(View(), id).At?
      modifies this, pool, pool.slots
      ensures Valid()
      ensures var p := Locate(old(View()), id); View() == Without(old(View()), p.side, p.pos)
    {
      hide Sides, FreeOk, Flatten, Abs, Locate, LeftHeap, LeftLevel, Settle, Find, Offset, Without, LevelRep, Chain;
      ghost var b, h := View(), Mem();
      ghost var side', i', k := Located(id);
      var x := index[id];
      var o := pool.slots[x].value.order;
      var side := o.side;
      FromSide(side);
      var m := On(side);
      ghost var g := Lists(side);
      var i := Find(side, m, o.price);
      ghost var f := pool.freeHead;
      LeaveSides(b, h, side, m, g, On(Opposite(side)), Lists(Opposite(side)), index, i, k, f);
      LevelIsChain(b, h, side, m, g, On(Opposite(side)), Lists(Opposite(side)), index, i);
      LeftCount(h, m[i].value, g[i].value, k);
      WithoutCount(b, side, Offset(Abs(h, g), i) + k);
      var v := Detach(m[i].value, x, g[i].value, k);
      index := index - {id};
      Install(side, Settle(m, i, v, v.count == 0), Settle(g, i, Cut(g[i].value, k), Cut(g[i].value, k) == []),
              Without(b, side, Offset(Abs(h, g), i) + k));
    }

    // ----- AddOrder, CancelOrder, ModifyOrder -----

    method Admission(a: Incoming) returns (reason: RejectReason)
      requires Valid()
      ensures reason == Screen(View(), a)
    {
      hide Sides, FreeOk, Flatten, Abs, Locate, CrossingSum, Wrap64;
      if a.id == INVALID_ORDER_ID { return UnknownOrder; }
      var known := HasOrder(a.id);
      if known { return DuplicateOrderId; }
      if a.quantity == 0 { return InvalidQuantity; }
      if a.otype == Limit && a.price <= 0 { return InvalidPrice; }
      if a.otype == Market {
        FromSide(Opposite(a.side));
        NoLevels(View(), Mem(), Opposite(a.side), On(Opposite(a.side)), Lists(Opposite(a.side)), On(a.side), Lists(a.side), index);
        if On(Opposite(a.side)) == [] { return MarketOrderNoLiquidity; }
      }
      if a.tif == FillOrKill {
        var available := AvailableCrossingQuantity(a);
        if available < a.quantity { return FillOrKillNotFilled; }
      }
      return NoReason;
    }

    /** The same admission, matching and resting as the reference book, within the pool's capacity. */
    method AddOrder(a: Incoming) returns (r: AddResult)
      requires Valid()
      modifies this, pool, pool.slots
      ensures Valid()
      ensures var s := Add(old(View()), Cap(), a); View() == s.book && r == s.result
    {
      hide Sides, FreeOk, Flatten, Abs, Locate, Fill, Insert, Screen;
      var reason := Admission(a);
      if reason != NoReason {
        return AddResult(false, reason, Rejected, 0, 0, []);
      }
      ScreenedAbsent(View(), a);
      MatchedAbsent(View(), a);
      var left, trades := Match(a);
      var filled := a.quantity - left;
      if a.otype == Limit && a.tif == GoodTillCancel && left > 0 {
        var o := Order(a.id, a.trader, symbol, a.seqNo, a.timestamp, a.price, a.quantity, left, a.side, a.otype, a.tif,
                       if filled > 0 then PartiallyFilled else New);
        var ok := InsertResting(o);
        if !ok {
          return AddResult(filled > 0, PoolExhausted, if filled > 0 then Filled else Rejected, filled, 0, trades);
        }
        r := AddResult(true, NoReason, o.status, filled, left, trades);
      } else {
        r := AddResult(true, NoReason, if filled == a.quantity then Filled else Cancelled, filled, 0, trades);
      }
    }

    method CancelOrder(id: OrderId) returns (r: CancelResult)
      requires Valid()
      modifies this, pool, pool.slots
      ensures Valid()
      ensures var s := Cancel(old(View()), id); View() == s.book && r == s.result
    {
      hide Sides, FreeOk, Flatten, Abs, Locate;
      var found := FindOrder(id);
      if found == None {
        return CancelResult(false, UnknownOrder, 0, 0);
      }
      r := CancelResult(true, NoReason, found.value.symbol, found.value.trader);
      RemoveFromBook(id);
    }

    /** In-place amend: the node is rewritten where it is linked. */
    method Amend(id: OrderId, quantity: Quantity)
      requires Valid() && Locate(View(), id).At?
      requires var p := Locate(View(), id); quantity <= View().On(p.side)[p.pos].remaining
      modifies this, pool.slots
      ensures Valid()
      ensures var p := Locate(old(View()), id);
              View() == old(View()).With(p.side, old(View()).On(p.side)[p.pos := Shrink(old(View()).On(p.side)[p.pos], quantity)])
    {
      hide Sides, FreeOk, Flatten, Abs, Locate, Find, Offset, Wrap64;
      ghost var b, h := View(), Mem();
      ghost var side', i', k := Located(id);
      var x := index[id];
      var o := pool.slots[x].value.order;
      var side := o.side;
      FromSide(side);
      var m := On(side);
      ghost var g := Lists(side);
      var i := Find(side, m, o.price);
      var delta := o.remaining - quantity;
      var now := o.(remaining := quantity, quantity := Wrap64(o.quantity - delta));
      AmendSides(b, h, side, m, g, On(Opposite(side)), Lists(Opposite(side)), index, i, k, now, delta);
      pool.Write(x, pool.slots[x].value.(order := now));
      Install(side, m[i := Entry(m[i].price, m[i].value.(total := Wrap64(m[i].value.total - delta)))], g,
              b.With(side, b.On(side)[Offset(Abs(h, g), i) + k := now]));
    }

    method ModifyOrder(id: OrderId, price: Price, quantity: Quantity, seqNo: SequenceNumber, ts: Timestamp)
      returns (r: ModifyResult)
      requires Valid()
      modifies this, pool, pool.slots
      ensures Valid()
      ensures var s := Modify(old(View()), Cap(), id, price, quantity, seqNo, ts); View() == s.book && r == s.result
    {
      hide Sides, FreeOk, Flatten, Abs, Locate, Add, Shrink;
      var found := FindOrder(id);
      if found == None {
        return ModifyResult(false, UnknownOrder, false, Rejected, 0, 0, []);
      }
      if quantity == 0 {
        return ModifyResult(false, InvalidQuantity, false, Rejected, 0, 0, []);
      }
      if price <= 0 {
        return ModifyResult(false, InvalidPrice, false, Rejected, 0, 0, []);
      }
      var o := found.value;
      if price == o.price && quantity <= o.remaining {
        Amend(id, quantity);
        return ModifyResult(true, NoReason, false, PartiallyFilled, 0, quantity, []);
      }
      RemoveFromBook(id);
      var add := AddOrder(Incoming(id, o.trader, o.side, o.otype, price, quantity, o.tif, seqNo, ts));
      r := ModifyResult(add.accepted, add.reason, true, add.status, add.filled, add.remaining, add.trades);
    }
  }

  lemma NoLevels(b: Book, h: Heap, side: Side, m: LinkedMap, g: Queues, mo: LinkedMap, go: Queues, index: Index)
    requires Sides(b, h, side, m, g, mo, go, index)
    ensures m == [] <==> b.On(side) == []
  {
    hide LevelRep, Ranked, Apart, Keyed, SidePoints;
    if m != [] {
      LevelOrders(side, h, m, g, 0);
    }
  }

  lemma SideFacts(b: Book, h: Heap, side: Side, m: LinkedMap, g: Queues, mo: LinkedMap, go: Queues, index: Index)
    requires Sides(b, h, side, m, g, mo, go, index)
    ensures SideRep(side, h, m, g) && |m| == |g| && b.On(side) == Flatten(Abs(h, g)) && LevelsOk(side, Abs(h, g))
  {
  }

  lemma LevelTotal(side: Side, h: Heap, m: LinkedMap, g: Queues, i: nat)
    requires SideRep(side, h, m, g) && i < |m|
    ensures i < |g| && m[i].price == Abs(h, g)[i].price && m[i].value.total == Wrap64(Sum(Abs(h, g)[i].value))
  {
    LevelOrders(side, h, m, g, i);
  }

  lemma TailHeld(b: Book, h: Heap, side: Side, m: LinkedMap, g: Queues, mo: LinkedMap, go: Queues, index: Index,
                 p: Price, x: int, h': Heap)
    requires Sides(b, h, side, m, g, mo, go, index) && 0 <= x < |h| == |h'| && h[x].Free? && h'[x].Used?
    requires forall y :: 0 <= y < |h| && y != x ==> h'[y] == h[y]
    ensures var v := LevelAt(side, m, p); v.tail != x && (v.tail == NULL || Holds(h', v.tail))
  {
    hide Flatten, Abs, LevelsOk, Ranked, Apart, Keyed, SidePoints, Distinct, Sum, Wrap64;
    LevelAtRep(side, h, m, g, p);
    var c := SlotsAt(side, g, p);
    if c != [] { assert LinkAt(h, c, |c| - 1); }
  }

  lemma InsertCount(b: Book, o: Order)
    ensures b.With(o.side, Insert(o.side, b.On(o.side), o)).Count() == b.Count() + 1
  {
  }

  lemma WithoutCount(b: Book, side: Side, i: nat)
    requires i < |b.On(side)|
    ensures Without(b, side, i).Count() == b.Count() - 1 && Without(b, side, i).symbol == b.symbol
  {
  }

  lemma LevelIsChain(b: Book, h: Heap, side: Side, m: LinkedMap, g: Queues, mo: LinkedMap, go: Queues, index: Index, i: nat)
    requires Sides(b, h, side, m, g, mo, go, index) && i < |m| && i < |g|
    ensures Chain(h, m[i].value, g[i].value)
  {
    hide Flatten, LevelsOk, Ranked, Apart, Keyed, SidePoints;
    LevelOrders(side, h, m, g, i);
  }

  lemma LeftCount(h: Heap, v: LinkedLevel, c: seq<int>, k: nat)
    requires Chain(h, v, c) && k < |c|
    ensures LeftLevel(h, v, c[k]).count == |Cut(c, k)|
  {
  }

  lemma MidFacts(symbol: SymbolId, a: Incoming, h0: Heap, c0: seq<int>, index0: Index, behind: seq<Order>,
                 q: Quantity, side: Side, p: Price,
                 h: Heap, v: LinkedLevel, c: seq<int>, index: Index, left: Quantity, trades: seq<Trade>)
    requires LevelMid(symbol, a, h0, c0, index0, behind, q, side, p, h, v, c, index, left, trades)
    ensures Chain(h, v, c) && v.count == |c| && (v.head == NULL <==> c == [])
  {
    hide Midway, Erased, Elsewhere;
    if c != [] { assert LinkAt(h, c, 0); }
  }

  lemma SweepStart(b0: Book, a: Incoming, h: Heap, m: LinkedMap, g: Queues, mo: LinkedMap, go: Queues, index: Index)
    requires Sides(b0, h, Opposite(a.side), m, g, mo, go, index)
    ensures Sweep(b0, a, h, m, g, mo, go, index, a.quantity, [])
    ensures b0.Count() == |Flatten(Abs(h, g))| + |b0.On(a.side)|
  {
    hide SideRep, SidePoints, Ranked, Apart, Keyed, Flatten, Abs, Fill;
    var f := Fill(b0.symbol, a, b0.On(Opposite(a.side)), a.quantity);
    assert [] + f.trades == f.trades;
    assert b0.With(Opposite(a.side), Flatten(Abs(h, g))) == b0;
  }

  lemma SweepSize(h: Heap, g: Queues)
    requires g != []
    ensures |Flatten(Abs(h, g))| == |g[0].value| + |Flatten(Abs(h, g)[1..])|
  {
    FrontLeftFlat(Abs(h, g), []);
  }

  lemma SweepShrinks(b0: Book, a: Incoming, h: Heap, m: LinkedMap, g: Queues, mo: LinkedMap, go: Queues, index: Index,
                     left: Quantity, trades: seq<Trade>,
                     h': Heap, v: LinkedLevel, c: seq<int>, index': Index, left': Quantity, more: seq<Trade>)
    requires Sweep(b0, a, h, m, g, mo, go, index, left, trades) && m != [] && g != []
    requires LevelMid(b0.symbol, a, h, g[0].value, index, Flatten(Abs(h, g)[1..]), left, Opposite(a.side), g[0].price,
                      h', v, c, index', left', more)
    ensures |Flatten(Abs(h', Settle(g, 0, c, c == [])))| == |Flatten(Abs(h, g))| - (|g[0].value| - |c|)
  {
    hide SideRep, SidePoints, Ranked, Apart, Keyed, Flatten, Fill, LevelMid, Settle, Abs;
    SweepSide(b0.symbol, a, Opposite(a.side), h, m, g, index, left, h', v, c, index', left', more);
  }

  lemma SidesFlat(b: Book, h: Heap, side: Side, m: LinkedMap, g: Queues, mo: LinkedMap, go: Queues, index: Index)
    requires Sides(b, h, side, m, g, mo, go, index)
    ensures b.On(side) == Flatten(Abs(h, g)) && b.Count() == |b.On(side)| + |b.On(Opposite(side))|
  {
    hide SideRep, SidePoints, Ranked, Apart, Keyed, Flatten, Abs;
  }

  lemma LeftLevelIs(h: Heap, v: LinkedLevel, x: int)
    requires Holds(h, x)
    ensures UnlinkedLevel(v.(total := Wrap64(v.total - h[x].value.order.remaining)), h[x].value) == LeftLevel(h, v, x)
  {
  }

  lemma NeighboursHeld(h: Heap, c: seq<int>, k: nat)
    requires Linked(h, c) && k < |c|
    ensures Holds(h, c[k])
    ensures var n := h[c[k]].value; (n.prev == NULL || Holds(h, n.prev)) && (n.next == NULL || Holds(h, n.next))
  {
    assert LinkAt(h, c, k);
    assert k > 0 ==> LinkAt(h, c, k - 1);
    assert k + 1 < |c| ==> LinkAt(h, c, k + 1);
  }

  lemma InstallView(b: Book, h: Heap, side: Side, m: LinkedMap, g: Queues, mo: LinkedMap, go: Queues, index: Index)
    requires Sides(b, h, side, m, g, mo, go, index)
    ensures b.On(side) == Flatten(Abs(h, g)) && b.On(Opposite(side)) == Flatten(Abs(h, go))
    ensures side == Sell ==> Sides(b, h, Buy, mo, go, m, g, index)
  {
    hide SideRep, SidePoints, Ranked, Apart, Keyed, Flatten, Abs;
    Flip(b, h, side, m, g, mo, go, index);
  }
}
