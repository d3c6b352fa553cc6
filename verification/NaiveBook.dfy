/** The reference order book: sorted price levels with running totals, FIFO queues and an id index. */
module NaiveBook {
  import opened Types
  import opened BookModel
  import opened BookFacts
  import opened SortedMap
  import opened Levels
  import opened Matching

  datatype PriceLevel = PriceLevel(total: Quantity, orders: seq<Order>)

  /** Where the index says an order rests; the list iterator is the order's own id within that level. */
  datatype Locator = Locator(side: Side, price: Price)

  type LevelMap = seq<Entry<PriceLevel>>

  /** The levels without their running totals. */
  function Bare(m: LevelMap): (ls: seq<Level>)
    ensures |ls| == |m|
    ensures forall i :: 0 <= i < |m| ==> ls[i] == Entry(m[i].price, m[i].value.orders)
  {
    seq(|m|, i requires 0 <= i < |m| => Entry(m[i].price, m[i].value.orders))
  }

  ghost predicate Totalled(m: LevelMap) {
    forall i :: 0 <= i < |m| ==> TotalOk(m[i].value)
  }

  ghost predicate MapOk(side: Side, m: LevelMap) {
    LevelsOk(side, Bare(m)) && Totalled(m)
  }

  ghost predicate Points(index: map<OrderId, Locator>, s: seq<Order>) {
    forall k :: 0 <= k < |s| ==> s[k].id in index && index[s[k].id] == Locator(s[k].side, s[k].price)
  }

  ghost predicate Indexes(index: map<OrderId, Locator>, own: seq<Order>, opp: seq<Order>) {
    index.Keys == Ids(own) + Ids(opp) && Points(index, own) && Points(index, opp)
  }

  lemma {:induction false} BareFind(side: Side, m: LevelMap, p: Price)
    ensures Find(side, Bare(m), p) == Find(side, m, p)
    ensures Has(side, Bare(m), p) == Has(side, m, p)
  {
    if m != [] {
      assert Bare(m)[1..] == Bare(m[1..]);
      BareFind(side, m[1..], p);
    }
  }

  // ----- The index follows the queues -----

  lemma PointsInsert(index: map<OrderId, Locator>, side: Side, s: seq<Order>, o: Order)
    requires Points(index, s) && Absent(s, o.id) && o.side == side
    ensures Points(index[o.id := Locator(side, o.price)], Insert(side, s, o))
  {
  }

  lemma IndexesInsert(index: map<OrderId, Locator>, side: Side, own: seq<Order>, opp: seq<Order>, o: Order)
    requires Indexes(index, own, opp) && Absent(own, o.id) && Absent(opp, o.id) && o.side == side
    ensures Indexes(index[o.id := Locator(side, o.price)], Insert(side, own, o), opp)
  {
    PointsInsert(index, side, own, o);
    IdsInsert(side, own, o);
  }

  lemma IndexesRemove(index: map<OrderId, Locator>, side: Side, own: seq<Order>, opp: seq<Order>, i: nat)
    requires Indexes(index, own, opp) && Ranked(side, own) && Apart(own, opp) && i < |own|
    ensures Indexes(index - {own[i].id}, RemoveAt(own, i), opp)
  {
    IdsRemove(side, own, i);
  }

  lemma IndexesTrimmed(index: map<OrderId, Locator>, index0: map<OrderId, Locator>, side: Side, own: seq<Order>, s: seq<Order>, rest: seq<Order>)
    requires Indexes(index0, own, s) && Ranked(side, s) && Apart(own, s) && Trimmed(s, rest)
    requires Erased(index, index0, s, |s| - |rest|)
    ensures Indexes(index, own, rest)
  {
    IdsTrimmed(side, s, rest);
    var gone := Ids(s[..|s| - |rest|]);
    forall k | 0 <= k < |own| ensures own[k].id !in gone { }
    forall k | 0 <= k < |rest| ensures Points(index, [rest[k]]) {
      TrimmedAt(s, rest, k);
      assert rest[k].id in Ids(rest);
    }
    assert forall k :: 0 <= k < |rest| ==> [rest[k]][0] == rest[k];
  }

  lemma IndexesUpdate(index: map<OrderId, Locator>, own: seq<Order>, opp: seq<Order>, i: nat, o: Order)
    requires Indexes(index, own, opp) && i < |own|
    requires o.id == own[i].id && o.side == own[i].side && o.price == own[i].price
    ensures Indexes(index, own[i := o], opp)
  {
    IdsUpdate(own, i, o);
  }

  lemma IndexesSym(index: map<OrderId, Locator>, s: seq<Order>, t: seq<Order>)
    ensures Indexes(index, s, t) <==> Indexes(index, t, s)
  {
    hide Ids, Points;
  }

  // ----- Editing one level -----

  ghost predicate TotalOk(v: PriceLevel) {
    v.total == Wrap64(Sum(v.orders))
  }

  lemma BareUpdate(m: LevelMap, i: nat, e: Entry<PriceLevel>)
    requires i < |m|
    ensures Bare(m[i := e]) == Bare(m)[i := Entry(e.price, e.value.orders)]
    ensures Totalled(m) && TotalOk(e.value) ==> Totalled(m[i := e])
  {
    hide Sum, Wrap64;
  }

  lemma BareGrow(m: LevelMap, i: nat, e: Entry<PriceLevel>)
    requires i <= |m|
    ensures Bare(m[..i] + [e] + m[i..]) == Bare(m)[..i] + [Entry(e.price, e.value.orders)] + Bare(m)[i..]
    ensures Totalled(m) && TotalOk(e.value) ==> Totalled(m[..i] + [e] + m[i..])
  {
    hide Sum, Wrap64;
  }

  lemma BareErase(m: LevelMap, i: nat)
    requires i < |m|
    ensures Bare(Erase(m, i)) == Erase(Bare(m), i)
    ensures Totalled(m) ==> Totalled(Erase(m, i))
  {
    hide Sum, Wrap64;
  }

  /** The level at price `p` after an order joins its back; a fresh level starts from zero. */
  function Joined(side: Side, m: LevelMap, o: Order): PriceLevel {
    var was := if Has(side, m, o.price) then m[Find(side, m, o.price)].value else PriceLevel(0, []);
    PriceLevel(Wrap64(was.total + o.remaining), was.orders + [o])
  }

  lemma JoinedTotal(side: Side, m: LevelMap, o: Order)
    requires Totalled(m)
    ensures TotalOk(Joined(side, m, o))
  {
    hide Wrap64;
    var was := if Has(side, m, o.price) then m[Find(side, m, o.price)].value else PriceLevel(0, []);
    SumConcat(was.orders, [o]);
    WrapAdd(Sum(was.orders), o.remaining);
  }

  lemma PutJoined(side: Side, m: LevelMap, o: Order)
    requires MapOk(side, m) && o.side == side
    ensures MapOk(side, Put(side, m, o.price, Joined(side, m, o)))
    ensures Flatten(Bare(Put(side, m, o.price, Joined(side, m, o)))) == Insert(side, Flatten(Bare(m)), o)
  {
    hide Totalled, TotalOk, LevelsOk, Flatten, Insert, Bare;
    var v, i := Joined(side, m, o), Find(side, m, o.price);
    BareFind(side, m, o.price);
    JoinedTotal(side, m, o);
    if Has(side, m, o.price) {
      BareUpdate(m, i, Entry(o.price, v));
    } else {
      BareGrow(m, i, Entry(o.price, v));
    }
    JoinOk(side, Bare(m), o);
    JoinIsInsert(side, Bare(m), o);
  }

  /** Level `i` after its k-th order is erased; an empty level is erased from the map. */
  function Erasing(m: LevelMap, i: nat, k: nat): LevelMap
    requires i < |m| && k < |m[i].value.orders|
  {
    var v := PriceLevel(Wrap64(m[i].value.total - m[i].value.orders[k].remaining), RemoveAt(m[i].value.orders, k));
    if v.orders == [] then Erase(m, i) else m[i := Entry(m[i].price, v)]
  }

  lemma ErasingIsLeave(side: Side, m: LevelMap, i: nat, k: nat)
    requires MapOk(side, m) && i < |m| && k < |m[i].value.orders|
    ensures MapOk(side, Erasing(m, i, k)) && Bare(Erasing(m, i, k)) == Leave(Bare(m), i, k)
  {
    hide Totalled, LevelsOk, Wrap64, Sum;
    LeaveOk(side, Bare(m), i, k);
    var s := m[i].value.orders;
    if |s| == 1 {
      BareErase(m, i);
    } else {
      var v := PriceLevel(Wrap64(m[i].value.total - s[k].remaining), RemoveAt(s, k));
      ErasedTotal(m, i, k);
      BareUpdate(m, i, Entry(m[i].price, v));
    }
  }

  lemma ErasedTotal(m: LevelMap, i: nat, k: nat)
    requires Totalled(m) && i < |m| && k < |m[i].value.orders|
    ensures var s := m[i].value.orders;
            TotalOk(PriceLevel(Wrap64(m[i].value.total - s[k].remaining), RemoveAt(s, k)))
  {
    hide Wrap64;
    SumRemove(m[i].value.orders, k);
    WrapAdd(Sum(m[i].value.orders), m[i].value.orders[k].remaining);
  }

  /** Level `i` after its k-th order becomes `o`, smaller by `delta`. */
  function Shrinking(m: LevelMap, i: nat, k: nat, o: Order, delta: Quantity): LevelMap
    requires i < |m| && k < |m[i].value.orders|
  {
    m[i := Entry(m[i].price, PriceLevel(Wrap64(m[i].value.total - delta), m[i].value.orders[k := o]))]
  }

  lemma ShrinkingIsSwap(side: Side, m: LevelMap, i: nat, k: nat, o: Order, delta: Quantity)
    requires MapOk(side, m) && i < |m| && k < |m[i].value.orders|
    requires var r := m[i].value.orders[k]; o.price == r.price && o.side == r.side && o.remaining == r.remaining - delta
    ensures MapOk(side, Shrinking(m, i, k, o, delta)) && Bare(Shrinking(m, i, k, o, delta)) == Swap(Bare(m), i, k, o)
  {
    SumUpdate(m[i].value.orders, k, o);
    WrapAdd(Sum(m[i].value.orders), delta);
    assert LevelOk(side, Bare(m)[i]);
  }

  // ----- The outer loop of Match -----

  /** Part of the way through the opposite side: the levels `m` are sound and matching them finishes the match. */
  ghost predicate Sweeping(symbol: SymbolId, a: Incoming, own: seq<Order>, s0: seq<Order>,
                           m: LevelMap, index: map<OrderId, Locator>, left: Quantity, trades: seq<Trade>)
  {
    var opp, s := Opposite(a.side), Flatten(Bare(m));
    && MapOk(opp, m) && Ranked(opp, s) && Apart(own, s) && Indexes(index, own, s)
    && Fill(symbol, a, s, left).After(trades) == Fill(symbol, a, s0, a.quantity)
  }

  /** The front level after the inner loop: gone if empty, otherwise updated in place. */
  function FrontDone(m: LevelMap, after: PriceLevel): LevelMap
    requires m != []
  {
    if after.orders == [] then m[1..] else m[0 := Entry(m[0].price, after)]
  }

  lemma FrontDoneBare(m: LevelMap, after: PriceLevel)
    requires m != []
    ensures Bare(FrontDone(m, after)) == FrontLeft(Bare(m), after.orders)
    ensures Totalled(m) && after.total == Wrap64(Sum(after.orders)) ==> Totalled(FrontDone(m, after))
  {
  }

  lemma FrontIndex(index: map<OrderId, Locator>, index0: map<OrderId, Locator>, side: Side, own: seq<Order>, front: seq<Order>, rest: seq<Order>, behind: seq<Order>)
    requires Indexes(index0, own, front + behind) && Ranked(side, front + behind) && Apart(own, front + behind)
    requires Trimmed(front, rest) && Erased(index, index0, front, |front| - |rest|)
    ensures Indexes(index, own, rest + behind)
    ensures Ranked(side, rest + behind) && Apart(own, rest + behind)
  {
    var s, r := front + behind, rest + behind;
    TrimmedConcat(front, rest, behind);
    assert s[..|s| - |r|] == front[..|front| - |rest|];
    IndexesTrimmed(index, index0, side, own, s, r);
    TrimmedKeepsQueue(s, r, side);
    TrimmedKeepsApart(s, r, own);
  }

  lemma SweepLevel(symbol: SymbolId, a: Incoming, own: seq<Order>, s0: seq<Order>,
                   m: LevelMap, index: map<OrderId, Locator>, left: Quantity, trades: seq<Trade>,
                   after: PriceLevel, index': map<OrderId, Locator>, left': Quantity, more: seq<Trade>)
    requires m != [] && Sweeping(symbol, a, own, s0, m, index, left, trades)
    requires Midway(symbol, a, m[0].value.orders, Flatten(Bare(m)[1..]), left, after.orders, after.total, left', more)
    requires Erased(index', index, m[0].value.orders, |m[0].value.orders| - |after.orders|)
    ensures Sweeping(symbol, a, own, s0, FrontDone(m, after), index', left', trades + more)
  {
    hide Ranked, Apart, Indexes, LevelsOk, Totalled, Trimmed, Flatten, Fill, Sum, FrontDone, FrontLeft, Erased;
    var opp, front, behind := Opposite(a.side), m[0].value.orders, Flatten(Bare(m)[1..]);
    FrontDoneBare(m, after);
    FrontLeftOk(opp, Bare(m), after.orders);
    FrontLeftFlat(Bare(m), after.orders);
    FrontIndex(index', index, opp, own, front, after.orders, behind);
    assert Fill(symbol, a, after.orders + behind, left').After(trades + more)
        == Fill(symbol, a, front + behind, left).After(trades) by {
      Associate(trades, more, Fill(symbol, a, after.orders + behind, left').trades);
    }
  }

  /** The levels of both sides, and the index, stand for the book `b`. */
  ghost predicate Represents(b: Book, bids: LevelMap, asks: LevelMap, index: map<OrderId, Locator>) {
    && b.bids == Flatten(Bare(bids)) && b.asks == Flatten(Bare(asks))
    && MapOk(Buy, bids) && MapOk(Sell, asks) && Shaped(b) && Indexes(index, b.bids, b.asks)
  }

  function Pick<T>(side: Side, buy: T, sell: T): T {
    if side == Buy then buy else sell
  }

  /** The same, told from one side. */
  lemma RepresentsBySide(b: Book, side: Side, own: LevelMap, opp: LevelMap, index: map<OrderId, Locator>)
    ensures Represents(b, Pick(side, own, opp), Pick(side, opp, own), index) <==>
            && b.On(side) == Flatten(Bare(own)) && b.On(Opposite(side)) == Flatten(Bare(opp))
            && MapOk(side, own) && MapOk(Opposite(side), opp)
            && Ranked(side, b.On(side)) && Ranked(Opposite(side), b.On(Opposite(side)))
            && Apart(b.On(side), b.On(Opposite(side)))
            && Indexes(index, b.On(side), b.On(Opposite(side)))
  {
    hide MapOk, Ranked, Ids, Points, Flatten;
    ApartSym(b.bids, b.asks);
  }

  lemma ApartSym(s: seq<Order>, t: seq<Order>)
    ensures Apart(s, t) <==> Apart(t, s)
  {
  }

  class OrderBook {
    const symbol: SymbolId
    var bids: LevelMap
    var asks: LevelMap
    var index: map<OrderId, Locator>

    function On(side: Side): LevelMap
      reads this
    {
      if side == Buy then bids else asks
    }

    /** The book this representation stands for. */
    ghost function View(): Book
      reads this
    {
      Book(symbol, Flatten(Bare(bids)), Flatten(Bare(asks)))
    }

    ghost predicate Valid()
      reads this
    {
      Represents(View(), bids, asks, index)
    }

    constructor (symbol: SymbolId)
      ensures Valid() && View() == Empty(symbol) && this.symbol == symbol
    {
      this.symbol := symbol;
      bids, asks, index := [], [], map[];
    }

    /** Give one side new levels, which the index already describes. */
    method Put(side: Side, m: LevelMap)
      requires MapOk(side, m) && MapOk(Opposite(side), On(Opposite(side)))
      requires Ranked(side, Flatten(Bare(m))) && Ranked(Opposite(side), View().On(Opposite(side)))
      requires Apart(View().On(Opposite(side)), Flatten(Bare(m)))
      requires Indexes(index, View().On(Opposite(side)), Flatten(Bare(m)))
      modifies this`bids, this`asks
      ensures Valid() && View() == old(View()).With(side, Flatten(Bare(m))) && On(side) == m
      ensures On(Opposite(side)) == old(On(Opposite(side)))
    {
      hide MapOk, Ranked, Apart, Indexes, Flatten, Represents;
      if side == Buy { bids := m; } else { asks := m; }
      RepresentsBySide(View(), Opposite(side), On(Opposite(side)), m, index);
    }

    /** One turn of the inner loop of Match: the incoming order trades with the front of a level. */
    method TradeFront(a: Incoming, level: PriceLevel, q: Quantity)
      returns (after: PriceLevel, trade: Trade, exhausted: bool)
      requires level.orders != [] && q > 0
      modifies this`index
      ensures trade == TradeOf(symbol, a, level.orders[0], Min(q, level.orders[0].remaining))
      ensures after == PriceLevel(Wrap64(level.total - trade.quantity), FrontTraded(level.orders, q))
      ensures |after.orders| == if exhausted then |level.orders| - 1 else |level.orders|
      ensures index == if exhausted then old(index) - {level.orders[0].id} else old(index)
      ensures trade.quantity == Min(q, level.orders[0].remaining) <= q && (!exhausted ==> q == trade.quantity)
    {
      var resting := level.orders[0];
      var t := Min(q, resting.remaining);
      trade := Trade(a.seqNo, a.timestamp, symbol, a.id, resting.id, a.trader, resting.trader, a.side, resting.price, t);
      exhausted := t == resting.remaining;
      if exhausted {
        index := index - {resting.id};
        after := PriceLevel(Wrap64(level.total - t), level.orders[1..]);
      } else {
        var less := resting.(remaining := resting.remaining - t, status := PartiallyFilled);
        after := PriceLevel(Wrap64(level.total - t), level.orders[0 := less]);
        assert after.orders == [Reduce(resting, t)] + level.orders[1..];
      }
    }

    /** The inner loop of Match: one level against what is left of the incoming order. */
    method MatchLevel(a: Incoming, level: PriceLevel, q: Quantity, ghost behind: seq<Order>)
      returns (after: PriceLevel, left: Quantity, trades: seq<Trade>)
      requires level.total == Wrap64(Sum(level.orders))
      requires forall k :: 0 <= k < |level.orders| ==> Crosses(a, level.orders[k].price)
      modifies this`index
      ensures Midway(symbol, a, level.orders, behind, q, after.orders, after.total, left, trades)
      ensures left > 0 ==> after.orders == []
      ensures |after.orders| <= |level.orders|
      ensures Erased(index, old(index), level.orders, |level.orders| - |after.orders|)
    {
      hide *;
      after, left, trades := level, q, [];
      MidwayStart(symbol, a, level.orders, behind, q, level.total);
      ErasedNone(index, level.orders);
      var more := true;
      while left > 0 && more && after.orders != []
        invariant |after.orders| <= |level.orders| && (more || left == 0)
        invariant Midway(symbol, a, level.orders, behind, q, after.orders, after.total, left, trades)
        invariant Erased(index, old(index), level.orders, |level.orders| - |after.orders|)
        decreases |after.orders|, more
      {
        MidwayFront(symbol, a, level.orders, behind, q, after.orders, after.total, left, trades);
        MidwayStep(symbol, a, level.orders, behind, q, after.orders, after.total, left, trades);
        ErasedNext(index, old(index), level.orders, |level.orders| - |after.orders|);
        var trade;
        after, trade, more := TradeFront(a, after, left);
        trades, left := trades + [trade], left - trade.quantity;
      }
    }

    /** The nested matching loops: exactly the fill of the opposite queue, whatever its levels. */
    method Match(a: Incoming) returns (left: Quantity, trades: seq<Trade>)
      requires Valid()
      modifies this`bids, this`asks, this`index
      ensures Valid()
      ensures var f := Fill(symbol, a, old(View()).On(Opposite(a.side)), a.quantity);
              left == f.left && trades == f.trades && View() == old(View()).With(Opposite(a.side), f.rest)
    {
      hide Sweeping, Midway, Represents, MapOk, Bare, Flatten, Fill, Crosses, Erased, Ranked, Apart, Indexes, Valid;
      var opp := Opposite(a.side);
      ghost var own, s0 := View().On(a.side), View().On(opp);
      var m := On(opp);
      left, trades := a.quantity, [];
      StartSweep(a);
      var more := true;
      while left > 0 && more && m != [] && Crosses(a, m[0].price)
        invariant more || left == 0
        invariant bids == old(bids) && asks == old(asks)
        invariant Sweeping(symbol, a, own, s0, m, index, left, trades)
        decreases |m|, more
      {
        SweepingFront(symbol, a, own, s0, m, index, left, trades);
        ghost var index0, left0 := index, left;
        var after, some;
        after, left, some := MatchLevel(a, m[0].value, left, Flatten(Bare(m)[1..]));
        SweepLevel(symbol, a, own, s0, m, index0, left0, trades, after, index, left, some);
        trades := trades + some;
        more := after.orders == [];
        m := FrontDone(m, after);
      }
      SweepingDone(symbol, a, own, s0, m, index, left, trades);
      Put(opp, m);
    }

    /** The FillOrKill pre-check: the crossing quantity, kept in a 64-bit register. */
    method AvailableCrossingQuantity(a: Incoming) returns (total: Quantity)
      requires Valid()
      ensures total == Wrap64(CrossingSum(a, View().On(Opposite(a.side))))
    {
      hide Wrap64, CrossingLevels, CrossingSum, Crosses, Flatten, Represents, LevelsOk, Sum;
      var m := On(Opposite(a.side));
      RepresentsBySide(View(), a.side, On(a.side), m, index);
      total := 0;
      var i := 0;
      AvailableAll(Opposite(a.side), a, Bare(m));
      while i < |m| && Crosses(a, m[i].price)
        invariant i <= |m|
        invariant Wrap64(total + CrossingLevels(a, Bare(m)[i..])) == Wrap64(CrossingSum(a, Flatten(Bare(m))))
      {
        assert TotalOk(m[i].value);
        AvailableNext(a, Bare(m), i, total, m[i].value.total);
        total := Wrap64(total + m[i].value.total);
        i := i + 1;
      }
      AvailableDone(a, Bare(m), i, total);
    }

    /** The level's running total at a price, 0 when there is none. */
    method QuantityAt(side: Side, p: Price) returns (q: Quantity)
      requires Valid()
      ensures q == BookModel.QuantityAt(View(), side, p)
    {
      hide Represents, Flatten, Sum, SumAt, Wrap64, LevelsOk;
      var m := On(side);
      RepresentsBySide(View(), side, m, On(Opposite(side)), index);
      QueueSum(side, Bare(m), p);
      BareFind(side, m, p);
      q := if Has(side, m, p) then m[Find(side, m, p)].value.total else 0;
      EmptyTotal();
    }

    method HasOrder(id: OrderId) returns (yes: bool)
      requires Valid()
      ensures yes <==> Locate(View(), id).At?
    {
      LocateIffIds(View(), id);
      yes := id in index;
    }

    /** Where the index leads: the level, and the place in its queue, of the order with that id. */
    lemma Located(id: OrderId)
      requires Valid() && id in index
      ensures LeadsTo(View(), On(index[id].side), index[id], id)
    {
      hide LeadsTo, Locate;
      IndexSays(View(), bids, asks, index, id);
      var At(side, j) := Locate(View(), id);
      LevelSays(View(), On(side), side, j);
    }

    /** FindOrder: a copy of the resting order, if there is one. */
    method FindOrder(id: OrderId) returns (r: Option<Order>)
      requires Valid()
      ensures match Locate(View(), id)
              case Nowhere => r == None
              case At(side, i) => r == Some(View().On(side)[i])
    {
      hide Represents;
      var known := HasOrder(id);
      if !known { return None; }
      KnownIds(id);
      Located(id);
      var loc := index[id];
      var m := On(loc.side);
      var orders := m[Find(loc.side, m, loc.price)].value.orders;
      r := Some(orders[IndexOf(orders, id)]);
    }

    lemma KnownIds(id: OrderId)
      requires Valid()
      ensures id in index <==> Locate(View(), id).At?
    {
      LocateIffIds(View(), id);
    }

    /** Both sides are sound levels; says nothing of ids or of the index. */
    ghost predicate Leveled()
      reads this
    {
      MapOk(Buy, bids) && MapOk(Sell, asks)
    }

    lemma ValidLeveled()
      requires Valid()
      ensures Leveled()
    {
      hide MapOk, Shaped, Indexes, Flatten;
    }

    /** The order joins whatever its id; the book stays valid when the id is new. */
    method InsertResting(o: Order)
      requires Leveled()
      modifies this
      ensures Leveled() && View() == old(View()).With(o.side, Insert(o.side, old(View()).On(o.side), o))
      ensures index == old(index)[o.id := Locator(o.side, o.price)]
      ensures old(Valid()) && Locate(old(View()), o.id) == Nowhere ==> Valid()
    {
      hide Represents, Flatten, MapOk, Bare, Insert, Joined, Locate;
      var side := o.side;
      var m := On(side);
      PutJoined(side, m, o);
      var m' := SortedMap.Put(side, m, o.price, Joined(side, m, o));
      var index' := index[o.id := Locator(side, o.price)];
      if Valid() && Locate(View(), o.id) == Nowhere { StaysSound(o, m', index'); }
      index := index';
      if side == Buy { bids := m'; } else { asks := m'; }
    }

    /** A new id, its order in its level and its entry in the index make a sound book. */
    lemma StaysSound(o: Order, m: LevelMap, index': map<OrderId, Locator>)
      requires Valid() && Locate(View(), o.id) == Nowhere && index' == index[o.id := Locator(o.side, o.price)]
      requires MapOk(o.side, m) && Flatten(Bare(m)) == Insert(o.side, View().On(o.side), o)
      ensures Represents(View().With(o.side, Flatten(Bare(m))), Pick(o.side, m, On(Opposite(o.side))),
                         Pick(o.side, On(Opposite(o.side)), m), index')
    {
      hide Represents, Flatten, Indexes, Ranked, Apart, MapOk, Bare, Insert;
      var side := o.side;
      var own, opp := View().On(side), View().On(Opposite(side));
      RepresentsBySide(View(), side, On(side), On(Opposite(side)), index);
      IndexesInsert(index, side, own, opp, o);
      InsertKeepsQueue(side, own, o);
      InsertKeepsApart(side, own, o, opp);
      RepresentsBySide(View().With(side, Flatten(Bare(m))), side, m, On(Opposite(side)), index');
    }

    method RemoveFromBook(id: OrderId)
      requires Valid() && id in index
      modifies this
      ensures Valid()
      ensures var p := Locate(old(View()), id);
              p.At? && View() == Without(old(View()), p.side, p.pos)
    {
      hide Represents, Flatten, Indexes, Ranked, Apart, MapOk, Bare, Locate, Erasing, Leave;
      Located(id);
      var Locator(side, price) := index[id];
      var m := On(side);
      var i := Find(side, m, price);
      var k := IndexOf(m[i].value.orders, id);
      ghost var own, opp, pos := View().On(side), View().On(Opposite(side)), Offset(Bare(m), i) + k;
      RepresentsBySide(View(), side, m, On(Opposite(side)), index);
      ErasingIsLeave(side, m, i, k);
      LeaveIsRemove(Bare(m), i, k);
      RemoveKeepsQueue(side, own, pos, opp);
      IndexesRemove(index, side, own, opp, pos);
      index := index - {id};
      IndexesSym(index, RemoveAt(own, pos), opp);
      ApartSym(RemoveAt(own, pos), opp);
      Put(side, Erasing(m, i, k));
    }

    /** The admission tests of AddOrder, in order. */
    method Admission(a: Incoming) returns (reason: RejectReason)
      requires Valid()
      ensures reason == Screen(View(), a)
    {
      hide Represents, Locate, CrossingSum, Wrap64;
      if a.id == INVALID_ORDER_ID { return UnknownOrder; }
      var known := HasOrder(a.id);
      if known { return DuplicateOrderId; }
      if a.quantity == 0 { return InvalidQuantity; }
      if a.otype == Limit && a.price <= 0 { return InvalidPrice; }
      if a.otype == Market {
        NoLevels(Opposite(a.side));
        if On(Opposite(a.side)) == [] { return MarketOrderNoLiquidity; }
      }
      if a.tif == FillOrKill {
        var available := AvailableCrossingQuantity(a);
        if available < a.quantity { return FillOrKillNotFilled; }
      }
      return NoReason;
    }

    lemma NoLevels(side: Side)
      requires Valid()
      ensures On(side) == [] <==> View().On(side) == []
    {
      hide Indexes, Shaped;
      if On(side) != [] {
        assert LevelOk(side, Bare(On(side))[0]);
      }
    }

    method AddOrder(a: Incoming) returns (r: AddResult)
      requires Valid()
      modifies this
      ensures Valid()
      ensures var s := Add(old(View()), Unbounded, a); View() == s.book && r == s.result
    {
      hide Represents, Locate, Fill, Insert, Screen, Flatten, Bare;
      var reason := Admission(a);
      if reason != NoReason {
        return AddResult(false, reason, Rejected, 0, 0, []);
      }
      ScreenedAbsent(View(), a);
      MatchedAbsent(View(), a);
      var left, trades := Match(a);
      var filled := a.quantity - left;
      if a.otype == Limit && a.tif == GoodTillCancel && left > 0 {
        var o := Order(a.id, a.trader, symbol, a.seqNo, a.timestamp, a.price, a.quantity, left, a.side, a.otype, a.tif,
                       if filled > 0 then PartiallyFilled else New);
        r := AddResult(true, NoReason, o.status, filled, left, trades);
        ValidLeveled();
        InsertResting(o);
      } else {
        r := AddResult(true, NoReason, if filled == a.quantity then Filled else Cancelled, filled, 0, trades);
      }
    }

    method CancelOrder(id: OrderId) returns (r: CancelResult)
      requires Valid()
      modifies this
      ensures Valid()
      ensures var s := Cancel(old(View()), id); View() == s.book && r == s.result
    {
      hide Represents, Locate, Flatten, Bare;
      var found := FindOrder(id);
      KnownIds(id);
      if found == None {
        return CancelResult(false, UnknownOrder, 0, 0);
      }
      r := CancelResult(true, NoReason, found.value.symbol, found.value.trader);
      RemoveFromBook(id);
    }

    /** In-place amend: the order keeps its place in its level. */
    method Amend(id: OrderId, quantity: Quantity)
      requires Valid() && id in index
      requires var p := Locate(View(), id); p.At? ==> quantity <= View().On(p.side)[p.pos].remaining
      modifies this`bids, this`asks
      ensures Valid()
      ensures var p := Locate(old(View()), id);
              p.At? && View() == old(View()).With(p.side, old(View()).On(p.side)[p.pos := Shrink(old(View()).On(p.side)[p.pos], quantity)])
    {
      hide Represents, Flatten, Indexes, Ranked, Apart, MapOk, Bare, Locate, Shrinking, Swap;
      Located(id);
      var Locator(side, price) := index[id];
      var m := On(side);
      var i := Find(side, m, price);
      var k := IndexOf(m[i].value.orders, id);
      var was := m[i].value.orders[k];
      var now := was.(remaining := quantity, quantity := Wrap64(was.quantity - (was.remaining - quantity)));
      ghost var own, opp, pos := View().On(side), View().On(Opposite(side)), Offset(Bare(m), i) + k;
      RepresentsBySide(View(), side, m, On(Opposite(side)), index);
      ShrinkingIsSwap(side, m, i, k, now, was.remaining - quantity);
      SwapIsUpdate(Bare(m), i, k, now);
      IndexesUpdate(index, own, opp, pos, now);
      UpdateKeepsQueue(side, own, opp, pos, now);
      IndexesSym(index, own[pos := now], opp);
      ApartSym(own[pos := now], opp);
      Put(side, Shrinking(m, i, k, now, was.remaining - quantity));
    }

    method ModifyOrder(id: OrderId, price: Price, quantity: Quantity, seqNo: SequenceNumber, ts: Timestamp)
      returns (r: ModifyResult)
      requires Valid()
      modifies this
      ensures Valid()
      ensures var s := Modify(old(View()), Unbounded, id, price, quantity, seqNo, ts); View() == s.book && r == s.result
    {
      hide Represents, Locate, Flatten, Bare, Add, Shrink;
      var found := FindOrder(id);
      KnownIds(id);
      if found == None {
        return ModifyResult(false, UnknownOrder, false, Rejected, 0, 0, []);
      }
      if quantity == 0 {
        return ModifyResult(false, InvalidQuantity, false, Rejected, 0, 0, []);
      }
      if price <= 0 {
        return ModifyResult(false, InvalidPrice, false, Rejected, 0, 0, []);
      }
      var o := found.value;
      if price == o.price && quantity <= o.remaining {
        Amend(id, quantity);
        return ModifyResult(true, NoReason, false, PartiallyFilled, 0, quantity, []);
      }
      RemoveFromBook(id);
      LocatedId(old(View()), id);
      var add := AddOrder(Incoming(id, o.trader, o.side, o.otype, price, quantity, o.tif, seqNo, ts));
      r := ModifyResult(add.accepted, add.reason, true, add.status, add.filled, add.remaining, add.trades);
    }

    /** Put a saved order back at the end of its level, without matching. */
    method RestoreOrder(o: Order)
      requires Leveled()
      modifies this
      ensures Leveled() && View() == old(View()).With(o.side, Insert(o.side, old(View()).On(o.side), o))
      ensures index == old(index)[o.id := Locator(o.side, o.price)]
      ensures old(Valid()) && Locate(old(View()), o.id) == Nowhere ==> Valid()
    {
      InsertResting(o);
    }

    /** Every resting order, bids then asks, best price first and FIFO within a level. */
    method AllRestingOrders() returns (out: seq<Order>)
      requires Valid()
      ensures out == View().bids + View().asks
    {
      hide Represents;
      out := [];
      for i := 0 to |bids|
        invariant out == Flatten(Bare(bids)[..i])
      {
        FlattenNext(Bare(bids), i);
        out := out + bids[i].value.orders;
      }
      assert Bare(bids)[..|bids|] == Bare(bids);
      for i := 0 to |asks|
        invariant out == View().bids + Flatten(Bare(asks)[..i])
      {
        FlattenNext(Bare(asks), i);
        Associate(View().bids, Flatten(Bare(asks)[..i]), asks[i].value.orders);
        out := out + asks[i].value.orders;
      }
      assert Bare(asks)[..|asks|] == Bare(asks);
    }

    lemma StartSweep(a: Incoming)
      requires Valid()
      ensures Sweeping(symbol, a, View().On(a.side), View().On(Opposite(a.side)), On(Opposite(a.side)), index, a.quantity, [])
      ensures MapOk(a.side, On(a.side)) && Ranked(a.side, View().On(a.side))
    {
      hide MapOk, Ranked, Apart, Indexes, Flatten, Fill, Represents;
      RepresentsBySide(View(), a.side, On(a.side), On(Opposite(a.side)), index);
      var f := Fill(symbol, a, View().On(Opposite(a.side)), a.quantity);
      assert [] + f.trades == f.trades;
    }
  }

  lemma FlattenNext(ls: seq<Level>, i: nat)
    requires i < |ls|
    ensures Flatten(ls[..i + 1]) == Flatten(ls[..i]) + ls[i].value
  {
    FlattenConcat(ls[..i], [ls[i]]);
    assert ls[..i + 1] == ls[..i] + [ls[i]];
  }

  /** The locator names the order's side and price. */
  lemma IndexSays(b: Book, bids: LevelMap, asks: LevelMap, index: map<OrderId, Locator>, id: OrderId)
    requires Represents(b, bids, asks, index) && id in index
    ensures var p := Locate(b, id);
            p.At? && index[id] == Locator(p.side, b.On(p.side)[p.pos].price)
  {
    hide MapOk;
    LocateIffIds(b, id);
    var At(side, j) := Locate(b, id);
    SideOfOrder(b, side, j);
    assert Points(index, b.On(side));
  }

  /** Looking the locator's price up, and then the id in that level, finds the order. */
  ghost predicate LeadsTo(b: Book, m: LevelMap, loc: Locator, id: OrderId) {
    var i := Find(loc.side, m, loc.price);
    && i < |m|
    && var k := IndexOf(m[i].value.orders, id);
       && k >= 0
       && Locate(b, id) == At(loc.side, Offset(Bare(m), i) + k)
       && b.On(loc.side)[Locate(b, id).pos] == m[i].value.orders[k]
  }

  lemma LevelSays(b: Book, m: LevelMap, side: Side, j: nat)
    requires Shaped(b) && MapOk(side, m) && b.On(side) == Flatten(Bare(m)) && j < |b.On(side)|
    ensures LeadsTo(b, m, Locator(side, b.On(side)[j].price), b.On(side)[j].id)
  {
    hide Shaped, LevelsOk, Totalled, Flatten, Locate;
    var o := b.On(side)[j];
    FlatLevel(side, Bare(m), j);
    BareFind(side, m, o.price);
    var i := Find(side, m, o.price);
    var k := IndexOf(m[i].value.orders, o.id);
    FlatAt(Bare(m), i, k);
    LocateUnique(b, side, Offset(Bare(m), i) + k);
  }

  lemma SideOfOrder(b: Book, side: Side, j: nat)
    requires Shaped(b) && j < |b.On(side)|
    ensures b.On(side)[j].side == side
  {
  }

  /** What the inner loop needs of the front level. */
  lemma SweepingFront(symbol: SymbolId, a: Incoming, own: seq<Order>, s0: seq<Order>,
                      m: LevelMap, index: map<OrderId, Locator>, left: Quantity, trades: seq<Trade>)
    requires m != [] && Sweeping(symbol, a, own, s0, m, index, left, trades) && Crosses(a, m[0].price)
    ensures m[0].value.total == Wrap64(Sum(m[0].value.orders))
    ensures forall k :: 0 <= k < |m[0].value.orders| ==> Crosses(a, m[0].value.orders[k].price)
  {
    assert LevelOk(Opposite(a.side), Bare(m)[0]);
  }

  /** When the outer loop stops, the levels are what the fill leaves. */
  lemma SweepingDone(symbol: SymbolId, a: Incoming, own: seq<Order>, s0: seq<Order>,
                     m: LevelMap, index: map<OrderId, Locator>, left: Quantity, trades: seq<Trade>)
    requires Sweeping(symbol, a, own, s0, m, index, left, trades)
    requires left == 0 || m == [] || !Crosses(a, m[0].price)
    ensures Fill(symbol, a, s0, a.quantity) == Filling(Flatten(Bare(m)), left, trades)
    ensures MapOk(Opposite(a.side), m)
    ensures Ranked(Opposite(a.side), Flatten(Bare(m))) && Apart(own, Flatten(Bare(m)))
    ensures Indexes(index, own, Flatten(Bare(m)))
  {
    if m != [] {
      FrontLeftFlat(Bare(m), []);
      assert LevelOk(Opposite(a.side), Bare(m)[0]);
      assert Flatten(Bare(m))[0].price == m[0].price;
    }
    FillDone(symbol, a, Flatten(Bare(m)), left, trades);
  }
}
