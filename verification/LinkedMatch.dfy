/** The matching loops over linked levels, as values. */
module LinkedMatch {
  import opened Types
  import opened BookModel
  import opened BookFacts
  import opened Levels
  import opened Matching
  import opened Pool
  import opened Chains
  import opened LinkedLevels
  import opened LinkedSides

  // ----- One level during Match -----

  /** Part of the way through level (side, p): its first slots are consumed and freed, nothing else moved. */
  ghost predicate LevelMid(symbol: SymbolId, a: Incoming, h0: Heap, c0: seq<int>, index0: Index, behind: seq<Order>,
                           q: Quantity, side: Side, p: Price,
                           h: Heap, v: LinkedLevel, c: seq<int>, index: Index, left: Quantity, trades: seq<Trade>)
  {
    && |c| <= |c0| && c == c0[|c0| - |c|..]
    && LevelRep(h, v, c) && OrdersAt(h, c, side, p) && Elsewhere(h0, h, side, p)
    && Erased(index, index0, Orders(h0, c0), |c0| - |c|)
    && Midway(symbol, a, Orders(h0, c0), behind, q, Orders(h, c), v.total, left, trades)
  }

  lemma MidStart(symbol: SymbolId, a: Incoming, h: Heap, c: seq<int>, index: Index, behind: seq<Order>,
                 q: Quantity, side: Side, p: Price, v: LinkedLevel)
    requires LevelRep(h, v, c) && OrdersAt(h, c, side, p) && Crosses(a, p)
    ensures LevelMid(symbol, a, h, c, index, behind, q, side, p, h, v, c, index, q, [])
  {
    hide Chain, Midway, Erased;
    ErasedNone(index, Orders(h, c));
    forall k | 0 <= k < |c| ensures Crosses(a, Orders(h, c)[k].price) { }
    MidwayStart(symbol, a, Orders(h, c), behind, q, v.total);
  }

  /** The front order is used up: unlink it, drop its id, free its slot. */
  lemma MidExhausted(symbol: SymbolId, a: Incoming, h0: Heap, c0: seq<int>, index0: Index, behind: seq<Order>,
                     q: Quantity, side: Side, p: Price,
                     h: Heap, v: LinkedLevel, c: seq<int>, index: Index, left: Quantity, trades: seq<Trade>, f: int)
    requires LevelMid(symbol, a, h0, c0, index0, behind, q, side, p, h, v, c, index, left, trades)
    requires c != [] && left > 0 && OrderIn(h, c[0]).remaining <= left
    ensures var o := OrderIn(h, c[0]);
            LevelMid(symbol, a, h0, c0, index0, behind, q, side, p, LeftHeap(h, c[0], f), LeftLevel(h, v, c[0]), c[1..],
                     index - {o.id}, left - o.remaining, trades + [TradeOf(symbol, a, o, o.remaining)])
  {
    hide Elsewhere, Erased, Midway, OrdersAt, LevelRep, UnlinkedHeap, UnlinkedLevel, TradeOf, Wrap64;
    var s, o := Orders(h, c), OrderIn(h, c[0]);
    LeaveLevel(h, v, c, 0, side, p, f);
    assert Cut(c, 0) == c[1..];
    ElsewhereTrans(h0, h, LeftHeap(h, c[0], f), side, p);
    MidwayFront(symbol, a, Orders(h0, c0), behind, q, s, v.total, left, trades);
    MidwayStep(symbol, a, Orders(h0, c0), behind, q, s, v.total, left, trades);
    assert FrontTraded(s, left) == RemoveAt(s, 0);
    ErasedNext(index, index0, Orders(h0, c0), |c0| - |c|);
    TailAt(h, c, side, p, LeftHeap(h, c[0], f));
  }

  lemma TailAt(h: Heap, c: seq<int>, side: Side, p: Price, h': Heap)
    requires OrdersAt(h, c, side, p) && c != [] && Orders(h', c[1..]) == RemoveAt(Orders(h, c), 0)
    ensures OrdersAt(h', c[1..], side, p)
  {
    forall k | 0 <= k < |c[1..]| ensures OrderIn(h', c[1..][k]) == OrderIn(h, c[k + 1]) {
      assert Orders(h', c[1..])[k] == RemoveAt(Orders(h, c), 0)[k];
    }
  }

  /** The front order is larger than what is left: it shrinks in place. */
  lemma MidReduced(symbol: SymbolId, a: Incoming, h0: Heap, c0: seq<int>, index0: Index, behind: seq<Order>,
                   q: Quantity, side: Side, p: Price,
                   h: Heap, v: LinkedLevel, c: seq<int>, index: Index, left: Quantity, trades: seq<Trade>)
    requires LevelMid(symbol, a, h0, c0, index0, behind, q, side, p, h, v, c, index, left, trades)
    requires c != [] && 0 < left < OrderIn(h, c[0]).remaining
    ensures var o := OrderIn(h, c[0]);
            LevelMid(symbol, a, h0, c0, index0, behind, q, side, p, SetOrder(h, c[0], Reduce(o, left)),
                     v.(total := Wrap64(v.total - left)), c, index, 0, trades + [TradeOf(symbol, a, o, left)])
  {
    hide Elsewhere, Erased, Midway, LevelRep, TradeOf, Wrap64, SetOrder;
    var s, o := Orders(h, c), OrderIn(h, c[0]);
    var r := Reduce(o, left);
    AmendLevel(h, v, c, 0, r, left);
    ElsewhereTrans(h0, h, SetOrder(h, c[0], r), side, p);
    MidwayStep(symbol, a, Orders(h0, c0), behind, q, s, v.total, left, trades);
    assert FrontTraded(s, left) == s[0 := r];
    HeadAt(h, c, side, p, SetOrder(h, c[0], r), r);
  }

  lemma HeadAt(h: Heap, c: seq<int>, side: Side, p: Price, h': Heap, r: Order)
    requires OrdersAt(h, c, side, p) && c != [] && Orders(h', c) == Orders(h, c)[0 := r] && r.side == side && r.price == p
    ensures OrdersAt(h', c, side, p)
  {
    forall k | 0 <= k < |c| ensures OrderIn(h', c[k]).side == side && OrderIn(h', c[k]).price == p {
      assert Orders(h', c)[k] == Orders(h, c)[0 := r][k];
    }
  }

  // ----- The outer loop of Match -----

  /** The book with its opposite side part-matched. */
  ghost predicate Sweep(b0: Book, a: Incoming, h: Heap, m: LinkedMap, g: Queues, mo: LinkedMap, go: Queues, index: Index,
                        left: Quantity, trades: seq<Trade>)
  {
    var opp, s := Opposite(a.side), Flatten(Abs(h, g));
    && Sides(b0.With(opp, s), h, opp, m, g, mo, go, index)
    && Fill(b0.symbol, a, s, left).After(trades) == Fill(b0.symbol, a, b0.On(opp), a.quantity)
  }

  lemma SettleIsFront(ls: seq<Level>, rest: seq<Order>)
    requires ls != []
    ensures Settle(ls, 0, rest, rest == []) == FrontLeft(ls, rest)
  {
  }

  /** After the inner loop the side is sound again, minus what was consumed. */
  lemma SweepSide(symbol: SymbolId, a: Incoming, side: Side, h: Heap, m: LinkedMap, g: Queues, index: Index, left: Quantity,
                  h': Heap, v: LinkedLevel, c: seq<int>, index': Index, left': Quantity, more: seq<Trade>)
    requires SideRep(side, h, m, g) && SidePoints(index, h, g) && m != [] && g != []
    requires LevelMid(symbol, a, h, g[0].value, index, Flatten(Abs(h, g)[1..]), left, side, g[0].price, h', v, c, index', left', more)
    ensures var g' := Settle(g, 0, c, c == []);
            && SideRep(side, h', Settle(m, 0, v, c == []), g')
            && SidePoints(index', h', g')
            && Flatten(Abs(h', g')) == Orders(h', c) + Flatten(Abs(h, g)[1..])
            && Flatten(Abs(h, g)) == Orders(h, g[0].value) + Flatten(Abs(h, g)[1..])
            && Trimmed(Orders(h, g[0].value), Orders(h', c))
  {
    hide LevelRep, OrdersAt, Elsewhere, LevelsOk, Flatten, Erased, Threaded, LevelPoints, Settle, FrontLeft, Trimmed, Fill, Sum, Wrap64;
    SettleFront(side, h, h', m, g, v, c);
    SettleIsFront(Abs(h, g), Orders(h', c));
    FrontLeftOk(side, Abs(h, g), Orders(h', c));
    FrontLeftFlat(Abs(h, g), Orders(h', c));
    LevelOrders(side, h, m, g, 0);
    SweepPoints(symbol, a, side, h, m, g, index, left, h', v, c, index', left', more);
  }

  lemma SettleFront(side: Side, h: Heap, h': Heap, m: LinkedMap, g: Queues, v: LinkedLevel, c: seq<int>)
    requires SideRep(side, h, m, g) && m != [] && g != [] && Elsewhere(h, h', side, g[0].price) && LevelRep(h', v, c)
    ensures Threaded(h', Settle(m, 0, v, c == []), Settle(g, 0, c, c == []))
    ensures Abs(h', Settle(g, 0, c, c == [])) == Settle(Abs(h, g), 0, Orders(h', c), Orders(h', c) == [])
  {
    hide SideRep, Elsewhere, LevelRep, Threaded, Abs, Settle;
    SettleSide(side, h, h', m, g, 0, v, c);
    assert c == [] <==> Orders(h', c) == [];
  }

  lemma SweepPoints(symbol: SymbolId, a: Incoming, side: Side, h: Heap, m: LinkedMap, g: Queues, index: Index, left: Quantity,
                    h': Heap, v: LinkedLevel, c: seq<int>, index': Index, left': Quantity, more: seq<Trade>)
    requires SideRep(side, h, m, g) && SidePoints(index, h, g) && m != [] && g != []
    requires LevelMid(symbol, a, h, g[0].value, index, Flatten(Abs(h, g)[1..]), left, side, g[0].price, h', v, c, index', left', more)
    ensures SidePoints(index', h', Settle(g, 0, c, c == []))
  {
    hide LevelRep, OrdersAt, Elsewhere, LevelsOk, Flatten, Erased, LevelPoints, Settle, Fill, Sum, Wrap64, Trimmed, Distinct;
    var c0 := g[0].value;
    var d := |c0| - |c|;
    LevelOrders(side, h, m, g, 0);
    ChainDistinct(h, m[0].value, c0);
    SuffixKeeps(h, h', c0, c);
    SuffixPoints(index, h, c0, d);
    PointsErased(index, index', h, h', c0, d, c);
    SettlePoints(side, index, index', h, h', m, g, 0, c0, d, c);
  }

  lemma SuffixKeeps(h: Heap, h': Heap, c0: seq<int>, c: seq<int>)
    requires Distinct(c0) && |c| <= |c0| && c == c0[|c0| - |c|..] && Trimmed(Orders(h, c0), Orders(h', c))
    ensures forall k :: 0 <= k < |c| ==> c[k] !in c0[..|c0| - |c|] && OrderIn(h', c[k]).id == OrderIn(h, c[k]).id
  {
    hide Trimmed;
    var d := |c0| - |c|;
    forall k | 0 <= k < |c| ensures c[k] !in c0[..d] && OrderIn(h', c[k]).id == OrderIn(h, c[k]).id {
      assert c[k] == c0[d + k];
      TrimmedAt(Orders(h, c0), Orders(h', c), k);
    }
  }

  lemma SuffixPoints(index: Index, h: Heap, c: seq<int>, d: nat)
    requires LevelPoints(index, h, c) && d <= |c|
    ensures LevelPoints(index, h, c[d..])
  {
    forall k | 0 <= k < |c[d..]| ensures PointsAt(index, h, c[d..][k]) { assert PointsAt(index, h, c[d + k]); }
  }

  lemma SweepLevel(b0: Book, a: Incoming, h: Heap, m: LinkedMap, g: Queues, mo: LinkedMap, go: Queues, index: Index,
                   left: Quantity, trades: seq<Trade>,
                   h': Heap, v: LinkedLevel, c: seq<int>, index': Index, left': Quantity, more: seq<Trade>)
    requires Sweep(b0, a, h, m, g, mo, go, index, left, trades) && m != [] && g != []
    requires LevelMid(b0.symbol, a, h, g[0].value, index, Flatten(Abs(h, g)[1..]), left, Opposite(a.side), g[0].price,
                      h', v, c, index', left', more)
    ensures Sweep(b0, a, h', Settle(m, 0, v, c == []), Settle(g, 0, c, c == []), mo, go, index', left', trades + more)
  {
    hide SideRep, SidePoints, Ranked, Apart, Keyed, Flatten, Fill, LevelRep, OrdersAt, Elsewhere, Erased, Settle, Trimmed, Sum, Wrap64, LevelPoints, Abs, Orders;
    var opp, side := Opposite(a.side), a.side;
    var s, rest, behind := Orders(h, g[0].value), Orders(h', c), Flatten(Abs(h, g)[1..]);
    SweepSide(b0.symbol, a, opp, h, m, g, index, left, h', v, c, index', left', more);
    KeepSide(side, h, h', opp, g[0].price, mo, go);
    FrontPoints(opp, h, m, g, index);
    OtherSidePoints(side, index, index', h, h', mo, go, opp, g[0].price, g[0].value, |g[0].value| - |c|);
    FrontKeyed(index, index', opp, s, rest, behind, b0.On(side));
    Associate(trades, more, Fill(b0.symbol, a, rest + behind, left').trades);
  }

  lemma FrontPoints(side: Side, h: Heap, m: LinkedMap, g: Queues, index: Index)
    requires SideRep(side, h, m, g) && SidePoints(index, h, g) && g != []
    ensures LevelPoints(index, h, g[0].value) && OrdersAt(h, g[0].value, side, g[0].price)
  {
    LevelOrders(side, h, m, g, 0);
  }

  lemma FrontKeyed(index: Index, index': Index, side: Side, front: seq<Order>, rest: seq<Order>, behind: seq<Order>, opp: seq<Order>)
    requires Keyed(index, front + behind, opp) && Ranked(side, front + behind) && Apart(front + behind, opp)
    requires Trimmed(front, rest) && Erased(index', index, front, |front| - |rest|)
    ensures Keyed(index', rest + behind, opp) && Ranked(side, rest + behind) && Apart(rest + behind, opp)
  {
    hide Ranked, Apart, Keyed, Trimmed;
    var s, r := front + behind, rest + behind;
    TrimmedConcat(front, rest, behind);
    assert s[..|s| - |r|] == front[..|front| - |rest|];
    KeyedTrimmed(index', index, side, s, r, opp);
    TrimmedKeepsQueue(s, r, side);
    ApartBoth(s, r, opp);
  }

  lemma ApartBoth(s: seq<Order>, rest: seq<Order>, opp: seq<Order>)
    requires Trimmed(s, rest) && Apart(s, opp)
    ensures Apart(rest, opp)
  {
    forall i, j | 0 <= i < |rest| && 0 <= j < |opp| ensures rest[i].id != opp[j].id { TrimmedAt(s, rest, i); }
  }

  lemma SweepFront(b0: Book, a: Incoming, h: Heap, m: LinkedMap, g: Queues, mo: LinkedMap, go: Queues, index: Index,
                   left: Quantity, trades: seq<Trade>)
    requires Sweep(b0, a, h, m, g, mo, go, index, left, trades) && m != []
    ensures g != [] && m[0].price == g[0].price
    ensures LevelRep(h, m[0].value, g[0].value) && OrdersAt(h, g[0].value, Opposite(a.side), g[0].price)
  {
    hide LevelRep, LevelsOk, Fill, Ranked, Apart, Keyed, SidePoints;
    LevelOrders(Opposite(a.side), h, m, g, 0);
  }

  lemma SweepDone(b0: Book, a: Incoming, h: Heap, m: LinkedMap, g: Queues, mo: LinkedMap, go: Queues, index: Index,
                  left: Quantity, trades: seq<Trade>)
    requires Sweep(b0, a, h, m, g, mo, go, index, left, trades)
    requires left == 0 || m == [] || !Crosses(a, m[0].price)
    ensures var f := Fill(b0.symbol, a, b0.On(Opposite(a.side)), a.quantity);
            && f == Filling(f.rest, left, trades)
            && Sides(b0.With(Opposite(a.side), f.rest), h, Opposite(a.side), m, g, mo, go, index)
  {
    hide LevelRep, Ranked, Apart, Keyed, SidePoints;
    var opp, s := Opposite(a.side), Flatten(Abs(h, g));
    if m != [] {
      FrontLeftFlat(Abs(h, g), []);
      LevelOrders(opp, h, m, g, 0);
      assert LevelOk(opp, Abs(h, g)[0]);
    }
    FillDone(b0.symbol, a, s, left, trades);
  }
}
