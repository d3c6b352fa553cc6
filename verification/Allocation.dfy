/**
  Price-time priority, declaratively: what each resting order trades is a closed formula over the *set*
  of resting orders, with no queue, level or loop in it, and Match computes exactly that.
 */
module Allocation {
  import opened Types
  import opened BookModel
  import opened BookFacts
  import Levels

  /** `o` ranks ahead of `p`: better price, or the same price and an earlier sequence number. */
  predicate Ahead(side: Side, o: Order, p: Order) {
    Better(side, o.price, p.price) || (o.price == p.price && o.seqNo < p.seqNo)
  }

  /** A queue in strict priority order. */
  ghost predicate Prioritized(side: Side, s: seq<Order>) {
    forall i, j :: 0 <= i < j < |s| ==> Ahead(side, s[i], s[j])
  }

  function Elements(s: seq<Order>): set<Order> {
    set o | o in s
  }

  /** A set of orders has only one priority order. */
  lemma {:induction false} PriorityOrderUnique(side: Side, s: seq<Order>, t: seq<Order>)
    requires Prioritized(side, s) && Prioritized(side, t) && Elements(s) == Elements(t)
    ensures s == t
  {
    NoElements(s);
    NoElements(t);
    if s != [] {
      assert s[0] in Elements(t) && t[0] in Elements(s);
      var k :| 0 <= k < |t| && t[k] == s[0];
      var j :| 0 <= j < |s| && s[j] == t[0];
      assert s[0] == t[0];
      TailElements(side, s);
      TailElements(side, t);
      PriorityOrderUnique(side, s[1..], t[1..]);
    }
  }

  lemma NoElements(s: seq<Order>)
    ensures Elements(s) == {} <==> s == []
  {
    if s != [] { assert s[0] in Elements(s); }
  }

  lemma TailElements(side: Side, s: seq<Order>)
    requires s != [] && Prioritized(side, s)
    ensures Prioritized(side, s[1..]) && Elements(s[1..]) == Elements(s) - {s[0]}
  {
    forall o | o in s && o != s[0] ensures o in s[1..] {
      var j :| 0 <= j < |s| && s[j] == o;
      assert s[1..][j - 1] == o;
    }
    forall o | o in s[1..] ensures o != s[0] {
      var j :| 0 <= j < |s[1..]| && s[1..][j] == o;
      assert Ahead(side, s[0], s[j + 1]);
    }
  }

  // ----- Sums over sets of orders -----

  ghost function SumSet(x: set<Order>): nat {
    if x == {} then 0 else var o :| o in x; o.remaining + SumSet(x - {o})
  }

  lemma {:induction false} SumSetPick(x: set<Order>, o: Order)
    requires o in x
    ensures SumSet(x) == o.remaining + SumSet(x - {o})
  {
    var p :| p in x && SumSet(x) == p.remaining + SumSet(x - {p});
    if p != o {
      SumSetPick(x - {p}, o);
      SumSetPick(x - {o}, p);
      assert x - {p} - {o} == x - {o} - {p};
    }
  }

  lemma {:induction false} SumIsSumSet(side: Side, s: seq<Order>)
    requires Prioritized(side, s)
    ensures Sum(s) == SumSet(Elements(s))
  {
    if s != [] {
      TailElements(side, s);
      SumIsSumSet(side, s[1..]);
      assert s[0] in Elements(s);
      SumSetPick(Elements(s), s[0]);
    }
  }

  // ----- The allocation -----

  /** Resting quantity that ranks ahead of `o` among the orders `x`. */
  ghost function QuantityAhead(side: Side, x: set<Order>, o: Order): nat {
    SumSet(set p | p in x && Ahead(side, p, o))
  }

  /** What an order of `remaining` gets when `ahead` of it is served first out of `q`. */
  function Share(q: nat, ahead: nat, remaining: nat): nat {
    if q <= ahead then 0 else if q - ahead < remaining then q - ahead else remaining
  }

  /** The declarative rule: each crossing order is served after everything ranked ahead of it. */
  ghost function Allocated(a: Incoming, x: set<Order>, o: Order, q: nat): nat {
    if Crosses(a, o.price) then Share(q, QuantityAhead(Opposite(a.side), x, o), o.remaining) else 0
  }

  /** The same rule by position in a queue. */
  function ShareAt(a: Incoming, s: seq<Order>, q: nat, k: nat): nat
    requires k < |s|
  {
    if Crosses(a, s[k].price) then Share(q, Sum(s[..k]), s[k].remaining) else 0
  }

  lemma AheadIsPrefix(side: Side, s: seq<Order>, k: nat)
    requires Prioritized(side, s) && k < |s|
    ensures (set p | p in Elements(s) && Ahead(side, p, s[k])) == Elements(s[..k])
  {
    forall p | p in Elements(s) && Ahead(side, p, s[k]) ensures p in s[..k] {
      var j :| 0 <= j < |s| && s[j] == p;
      assert j < k;
      assert s[..k][j] == p;
    }
    forall p | p in s[..k] ensures p in Elements(s) && Ahead(side, p, s[k]) {
      var j :| 0 <= j < |s[..k]| && s[..k][j] == p;
      assert Ahead(side, s[j], s[k]);
    }
  }

  lemma ShareIsAllocated(a: Incoming, s: seq<Order>, q: nat, k: nat)
    requires Prioritized(Opposite(a.side), s) && k < |s|
    ensures ShareAt(a, s, q, k) == Allocated(a, Elements(s), s[k], q)
  {
    AheadIsPrefix(Opposite(a.side), s, k);
    SumIsSumSet(Opposite(a.side), s[..k]);
  }

  ghost predicate CrossesPrefix(a: Incoming, s: seq<Order>) {
    forall i, j :: 0 <= i < j < |s| && Crosses(a, s[j].price) ==> Crosses(a, s[i].price)
  }

  ghost predicate AllPositive(s: seq<Order>) {
    forall i :: 0 <= i < |s| ==> s[i].remaining > 0
  }

  lemma SumPrefix(s: seq<Order>, k: nat)
    requires 0 < k <= |s|
    ensures Sum(s[..k]) == s[0].remaining + Sum(s[1..][..k - 1])
  {
    assert s[..k][1..] == s[1..][..k - 1];
  }

  lemma ShareShifts(a: Incoming, s: seq<Order>, q: nat, k: nat)
    requires 0 < k < |s| && s[0].remaining <= q
    ensures ShareAt(a, s, q, k) == ShareAt(a, s[1..], q - s[0].remaining, k - 1)
  {
    SumPrefix(s, k);
  }

  /** What Match does to the k-th order of the queue: the trade, if any, and what is left of the order, if anything. */
  ghost predicate ServedAt(symbol: SymbolId, a: Incoming, s: seq<Order>, f: Filling, k: nat, share: nat)
    requires k < |s|
  {
    var d := |s| - |f.rest|;
    && |f.rest| <= |s|
    && (k < |f.trades| <==> share > 0)
    && (share > 0 ==> share <= s[k].remaining && f.trades[k] == TradeOf(symbol, a, s[k], share))
    && (k >= d <==> share < s[k].remaining)
    && (k >= d ==> f.rest[k - d] == if share == 0 then s[k] else Reduce(s[k], share))
  }

  lemma NothingAhead(s: seq<Order>)
    ensures Sum(s[..0]) == 0
  {
  }

  lemma ServedLater(symbol: SymbolId, a: Incoming, s: seq<Order>, f: Filling, trade: Trade, k: nat, share: nat)
    requires 0 < k < |s| && ServedAt(symbol, a, s[1..], f, k - 1, share)
    ensures ServedAt(symbol, a, s, f.After([trade]), k, share)
  {
  }

  lemma ServedWhole(symbol: SymbolId, a: Incoming, s: seq<Order>, f: Filling)
    requires s != [] && |f.rest| < |s| && s[0].remaining > 0
    ensures ServedAt(symbol, a, s, f.After([TradeOf(symbol, a, s[0], s[0].remaining)]), 0, s[0].remaining)
  {
  }

  lemma ServedPart(symbol: SymbolId, a: Incoming, s: seq<Order>, left: Quantity, t: Quantity, k: nat)
    requires k < |s| && 0 < t < s[0].remaining && s[k].remaining > 0
    ensures ServedAt(symbol, a, s, Filling([Reduce(s[0], t)] + s[1..], left, [TradeOf(symbol, a, s[0], t)]), k, if k == 0 then t else 0)
  {
  }

  lemma ServedNot(symbol: SymbolId, a: Incoming, s: seq<Order>, q: Quantity, k: nat)
    requires k < |s| && s[k].remaining > 0
    ensures ServedAt(symbol, a, s, Filling(s, q, []), k, 0)
  {
  }

  lemma {:induction false} FillServes(symbol: SymbolId, a: Incoming, s: seq<Order>, q: Quantity, k: nat)
    requires k < |s| && AllPositive(s) && CrossesPrefix(a, s)
    ensures ServedAt(symbol, a, s, Fill(symbol, a, s, q), k, ShareAt(a, s, q, k))
    decreases |s|
  {
    hide Sum, ServedAt;
    NothingAhead(s);
    if q == 0 || !Crosses(a, s[0].price) {
      ServedNot(symbol, a, s, q, k);
    } else {
      var t := Min(q, s[0].remaining);
      if t < s[0].remaining {
        if k > 0 { SumPrefix(s, k); }
        ServedPart(symbol, a, s, q - t, t, k);
      } else if k > 0 {
        ShareShifts(a, s, q, k);
        FillServes(symbol, a, s[1..], q - t, k - 1);
        ServedLater(symbol, a, s, Fill(symbol, a, s[1..], q - t), TradeOf(symbol, a, s[0], t), k, ShareAt(a, s, q, k));
      } else {
        ServedWhole(symbol, a, s, Fill(symbol, a, s[1..], q - t));
      }
    }
  }

  lemma PriorityCrossesPrefix(a: Incoming, s: seq<Order>)
    requires Prioritized(Opposite(a.side), s)
    ensures CrossesPrefix(a, s)
  {
    forall i, j | 0 <= i < j < |s| && Crosses(a, s[j].price) ensures Crosses(a, s[i].price) {
      assert Ahead(Opposite(a.side), s[i], s[j]);
    }
  }

  /** Quantity traded against the order with an id. */
  function TradedWith(ts: seq<Trade>, id: OrderId): nat {
    if ts == [] then 0 else (if ts[0].resting == id then ts[0].quantity else 0) + TradedWith(ts[1..], id)
  }

  lemma {:induction false} TradedWithOnly(ts: seq<Trade>, id: OrderId, k: nat)
    requires forall j :: 0 <= j < |ts| && j != k ==> ts[j].resting != id
    ensures TradedWith(ts, id) == if k < |ts| && ts[k].resting == id then ts[k].quantity else 0
  {
    if ts != [] {
      if k > 0 {
        TradedWithOnly(ts[1..], id, k - 1);
      } else {
        TradedWithNone(ts[1..], id);
      }
    }
  }

  lemma {:induction false} TradedWithNone(ts: seq<Trade>, id: OrderId)
    requires forall j :: 0 <= j < |ts| ==> ts[j].resting != id
    ensures TradedWith(ts, id) == 0
  {
    if ts != [] { TradedWithNone(ts[1..], id); }
  }

  /**
    The nested Match loops are the price-time allocation: whatever queue `s` lists the orders `x` in
    priority order, each order of `x` trades exactly its allocated quantity; it stays on the queue,
    smaller by that much, exactly when it was not used up. Every trade is with an order of `x`, at that
    order's price, for its allocated quantity.
   */
  lemma MatchIsAllocation(symbol: SymbolId, a: Incoming, x: set<Order>, s: seq<Order>, q: Quantity, o: Order)
    requires Prioritized(Opposite(a.side), s) && Elements(s) == x && AllPositive(s) && o in x
    requires forall i, j :: 0 <= i < j < |s| ==> s[i].id != s[j].id
    ensures var f := Fill(symbol, a, s, q);
            var share := Allocated(a, x, o, q);
            && share <= o.remaining
            && TradedWith(f.trades, o.id) == share
            && (share < o.remaining ==> (if share == 0 then o else Reduce(o, share)) in f.rest)
            && (share == o.remaining ==> Absent(f.rest, o.id))
    ensures AllAllocated(symbol, a, x, q, Fill(symbol, a, s, q).trades)
  {
    hide Fill, Sum, SumSet, QuantityAhead, AllAllocated;
    EveryTradeAllocated(symbol, a, x, s, q);
    var k :| 0 <= k < |s| && s[k] == o;
    var f, share := Fill(symbol, a, s, q), ShareAt(a, s, q, k);
    PriorityCrossesPrefix(a, s);
    ShareIsAllocated(a, s, q, k);
    FillServes(symbol, a, s, q, k);
    TradesWithQueue(symbol, a, s, q);
    TradedWithOnly(f.trades, o.id, k);
    if share == o.remaining {
      RestAfter(symbol, a, s, q, k);
    }
  }

  /** Every trade is the one that the incoming order makes with some order of `x` for what that order is allocated. */
  ghost predicate AllAllocated(symbol: SymbolId, a: Incoming, x: set<Order>, q: Quantity, trades: seq<Trade>) {
    forall j :: 0 <= j < |trades| ==> IsAllocated(symbol, a, x, q, trades[j])
  }

  ghost predicate IsAllocated(symbol: SymbolId, a: Incoming, x: set<Order>, q: Quantity, t: Trade) {
    exists p :: p in x && IsShare(symbol, a, x, q, t, p)
  }

  ghost predicate IsShare(symbol: SymbolId, a: Incoming, x: set<Order>, q: Quantity, t: Trade, p: Order) {
    t.quantity == Allocated(a, x, p, q) > 0 && t == TradeOf(symbol, a, p, t.quantity) && Crosses(a, p.price)
  }

  lemma EveryTradeAllocated(symbol: SymbolId, a: Incoming, x: set<Order>, s: seq<Order>, q: Quantity)
    requires Prioritized(Opposite(a.side), s) && Elements(s) == x && AllPositive(s)
    ensures AllAllocated(symbol, a, x, q, Fill(symbol, a, s, q).trades)
  {
    hide Fill, Sum, SumSet, Allocated;
    var f := Fill(symbol, a, s, q);
    PriorityCrossesPrefix(a, s);
    TradesWithQueue(symbol, a, s, q);
    forall j | 0 <= j < |f.trades| ensures IsAllocated(symbol, a, x, q, f.trades[j]) {
      ShareIsAllocated(a, s, q, j);
      FillServes(symbol, a, s, q, j);
      FillTrades(symbol, a, s, q, j);
      assert s[j] in x && IsShare(symbol, a, x, q, f.trades[j], s[j]);
    }
  }

  lemma TradesWithQueue(symbol: SymbolId, a: Incoming, s: seq<Order>, q: Quantity)
    requires AllPositive(s) && CrossesPrefix(a, s)
    ensures var f := Fill(symbol, a, s, q);
            |f.trades| <= |s| && forall j :: 0 <= j < |f.trades| ==> f.trades[j].resting == s[j].id
  {
    var f := Fill(symbol, a, s, q);
    if |f.trades| > |s| {
      FillTrades(symbol, a, s, q, |s|);
    }
    forall j | 0 <= j < |f.trades| ensures f.trades[j].resting == s[j].id { FillTrades(symbol, a, s, q, j); }
  }

  lemma RestAfter(symbol: SymbolId, a: Incoming, s: seq<Order>, q: Quantity, k: nat)
    requires k < |s| && k < |s| - |Fill(symbol, a, s, q).rest|
    requires forall i, j :: 0 <= i < j < |s| ==> s[i].id != s[j].id
    ensures Absent(Fill(symbol, a, s, q).rest, s[k].id)
  {
    hide Fill, Trimmed;
    FillShape(symbol, a, s, q);
    var rest := Fill(symbol, a, s, q).rest;
    forall j | 0 <= j < |rest| ensures rest[j].id != s[k].id { TrimmedAt(s, rest, j); }
  }

  /** No queue jumping: an order trades only when everything ahead of it trades completely, and only within the limit. */
  lemma NoQueueJumping(a: Incoming, x: set<Order>, s: seq<Order>, q: Quantity, o: Order, p: Order)
    requires Prioritized(Opposite(a.side), s) && Elements(s) == x && AllPositive(s) && o in x && p in x
    requires Ahead(Opposite(a.side), p, o) && Allocated(a, x, o, q) > 0
    ensures Crosses(a, o.price) && Crosses(a, p.price) && Allocated(a, x, p, q) == p.remaining
  {
    hide SumSet, QuantityAhead;
    var k :| 0 <= k < |s| && s[k] == o;
    var j :| 0 <= j < |s| && s[j] == p;
    assert j < k;
    ShareIsAllocated(a, s, q, k);
    ShareIsAllocated(a, s, q, j);
    PriorityCrossesPrefix(a, s);
    assert s[..k] == s[..j] + s[j..k] && s[j..k][0] == p;
    Levels.SumConcat(s[..j], s[j..k]);
  }

  // ----- How much is filled, and FillOrKill -----

  /** An admitted order is filled by the smaller of its quantity and the crossing quantity; never by more than is there. */
  lemma FilledIsMin(b: Book, cap: Capacity, a: Incoming)
    requires Screen(b, a) == NoReason
    ensures var there := CrossingSum(a, b.On(Opposite(a.side)));
            Add(b, cap, a).result.filled == if a.quantity <= there then a.quantity else there
  {
    FillIsCrossingMin(b.symbol, a, b.On(Opposite(a.side)), a.quantity);
  }

  /** All or nothing, for every book and capacity, even when the 64-bit sums wrap. */
  lemma FillOrKillAllOrNothing(b: Book, cap: Capacity, a: Incoming)
    requires a.tif == FillOrKill
    ensures var r := Add(b, cap, a);
            || (r.result.accepted && r.result.filled == a.quantity && r.result.status == Filled
                && TradedSum(r.result.trades) == a.quantity)
            || (!r.result.accepted && r.book == b && r.result.trades == [])
  {
    if Screen(b, a) == NoReason {
      var s := b.On(Opposite(a.side));
      assert Wrap64(CrossingSum(a, s)) <= CrossingSum(a, s);
      FillIsCrossingMin(b.symbol, a, s, a.quantity);
      FillConserves(b.symbol, a, s, a.quantity);
    }
  }

  /**
    A FillOrKill order that passes every other test is accepted exactly when the book can fill it, if and
    only if its quantity is above the true crossing sum or not above the wrapped one.
   */
  lemma FillOrKillTestExact(b: Book, cap: Capacity, a: Incoming)
    requires a.tif == FillOrKill && Screen(b, a.(tif := GoodTillCancel)) == NoReason
    ensures var there := CrossingSum(a, b.On(Opposite(a.side)));
            (Add(b, cap, a).result.accepted <==> a.quantity <= there) <==> (there < a.quantity || a.quantity <= Wrap64(there))
  {
    hide Fill, Insert, Locate;
    assert Wrap64(CrossingSum(a, b.On(Opposite(a.side)))) <= CrossingSum(a, b.On(Opposite(a.side)));
  }

  function WrapAsk(id: OrderId, n: SequenceNumber): Incoming {
    Incoming(id, 7, Sell, Limit, 100, HALF, GoodTillCancel, n, 0)
  }

  /** Two asks whose quantities sum to 2^64, then a FillOrKill bid for one of them: the book could fill it and turns it away. */
  lemma FillOrKillWrapRejects()
    ensures var a := Incoming(3, 8, Buy, Limit, 100, HALF, FillOrKill, 3, 0);
            var asks := [AddOp(WrapAsk(1, 1)), AddOp(WrapAsk(2, 2))];
            var b := Run(Empty(1), Unbounded, asks).book;
            && CrossingSum(a, b.asks) == 0x1_0000_0000_0000_0000 > a.quantity
            && Add(b, Unbounded, a) == Step(b, AddResult(false, FillOrKillNotFilled, Rejected, 0, 0, []))
  {
    var a := Incoming(3, 8, Buy, Limit, 100, HALF, FillOrKill, 3, 0);
    var s := TwoAsks();
    TwoAsksRest();
    assert s[1..] == [s[1]] && s[1..][1..] == [];
    assert CrossingSum(a, s[1..][1..]) == 0;
    assert CrossingSum(a, s[1..]) == HALF;
    assert IndexOf(s, 3) < 0 && IndexOf([], 3) < 0;
  }

  function TwoAsks(): seq<Order> {
    [RestingOrder(1, WrapAsk(1, 1), HALF), RestingOrder(1, WrapAsk(2, 2), HALF)]
  }

  lemma TwoAsksRest()
    ensures Run(Empty(1), Unbounded, [AddOp(WrapAsk(1, 1)), AddOp(WrapAsk(2, 2))]).book == Book(1, [], TwoAsks())
  {
    hide Add;
    var x, y := WrapAsk(1, 1), WrapAsk(2, 2);
    var ops := [AddOp(x), AddOp(y)];
    assert ops[1..] == [AddOp(y)] && ops[1..][1..] == [];
    var o, p := RestingOrder(1, x, HALF), RestingOrder(1, y, HALF);
    AddRestsWhole(Empty(1), x);
    assert Insert(Sell, [], o) == [o];
    var b := Book(1, [], [o]);
    assert IndexOf(b.asks, 2) < 0 && IndexOf(b.bids, 2) < 0;
    AddRestsWhole(b, y);
    assert InsertPos(Sell, [o], 100) == 1;
    assert Insert(Sell, [o], p) == TwoAsks();
    assert Apply(Empty(1), Unbounded, ops[0]).book == b;
  }
}
