/** What each call answers and leaves behind, told in the caller's terms: ids, prices, quantities and the queues before it. */
module Answers {
  import opened Types
  import opened BookModel
  import opened BookFacts
  import opened Matching

  // ----- Words a caller would use -----

  ghost predicate Resting(b: Book, id: OrderId) {
    || (exists i :: 0 <= i < |b.bids| && b.bids[i].id == id)
    || (exists i :: 0 <= i < |b.asks| && b.asks[i].id == id)
  }

  /** The queue an order of `side` trades with. */
  function Facing(b: Book, side: Side): seq<Order> {
    if side == Buy then b.asks else b.bids
  }

  function Own(b: Book, side: Side): seq<Order> {
    if side == Buy then b.bids else b.asks
  }

  /** Everything on a queue within an order's limit, wherever it stands; all of it for a market order. */
  function Reach(side: Side, otype: OrderType, price: Price, s: seq<Order>): nat {
    if s == [] then 0
    else
      (if otype == Market || (side == Buy && s[0].price <= price) || (side == Sell && s[0].price >= price)
       then s[0].remaining else 0)
      + Reach(side, otype, price, s[1..])
  }

  function Smaller(x: nat, y: nat): nat {
    if x <= y then x else y
  }

  lemma LocateResting(b: Book, id: OrderId)
    ensures Locate(b, id).At? <==> Resting(b, id)
  {
    hide IndexOf;
    var p := Locate(b, id);
    if p.At? {
      if p.side == Buy { assert b.bids[p.pos].id == id; } else { assert b.asks[p.pos].id == id; }
    }
  }

  lemma {:induction false} OutOfReach(side: Side, price: Price, s: seq<Order>)
    requires forall i :: 0 <= i < |s| ==> if side == Buy then s[i].price > price else s[i].price < price
    ensures Reach(side, Limit, price, s) == 0
  {
    if s != [] { OutOfReach(side, price, s[1..]); }
  }

  /** On a sorted queue the crossing front is all there is within the limit. */
  lemma {:induction false} ReachIsCrossing(a: Incoming, s: seq<Order>)
    requires Ranked(Opposite(a.side), s)
    ensures CrossingSum(a, s) == Reach(a.side, a.otype, a.price, s)
  {
    if s != [] {
      if Crosses(a, s[0].price) {
        ReachIsCrossing(a, s[1..]);
      } else {
        forall i | 0 <= i < |s| ensures if a.side == Buy then s[i].price > a.price else s[i].price < a.price {
          assert i > 0 ==> !Better(Opposite(a.side), s[i].price, s[0].price);
        }
        OutOfReach(a.side, a.price, s);
      }
    }
  }

  // ----- Trades -----

  /** Trade `t` is between the incoming order and the resting order `o`, at the resting price, within the limit. */
  ghost predicate TradeWith(t: Trade, symbol: SymbolId, a: Incoming, o: Order) {
    && t.symbol == symbol && t.seqNo == a.seqNo && t.timestamp == a.timestamp
    && t.aggressor == a.id && t.aggressorTrader == a.trader && t.aggressorSide == a.side
    && t.resting == o.id && t.restingTrader == o.trader && t.price == o.price
    && 0 < t.quantity <= o.remaining
    && (a.otype == Limit ==> if a.side == Buy then t.price <= a.price else t.price >= a.price)
  }

  /** The k-th trade is with the k-th order of the queue, and says so in every field. */
  lemma TradeSays(symbol: SymbolId, a: Incoming, s: seq<Order>, q: Quantity, k: nat)
    requires forall i :: 0 <= i < |s| ==> s[i].remaining > 0
    requires k < |Fill(symbol, a, s, q).trades|
    ensures k < |s| && TradeWith(Fill(symbol, a, s, q).trades[k], symbol, a, s[k])
  {
    hide Fill;
    FillTrades(symbol, a, s, q, k);
  }

  lemma LiveQueues(b: Book, side: Side)
    requires Valid(b)
    ensures forall i :: 0 <= i < |Facing(b, side)| ==> Facing(b, side)[i].remaining > 0
    ensures Ranked(Opposite(side), Facing(b, side)) && Facing(b, side) == b.On(Opposite(side)) && Own(b, side) == b.On(side)
  {
    hide Uncrossed, Apart;
    forall i | 0 <= i < |Facing(b, side)| ensures Facing(b, side)[i].remaining > 0 { assert Live(Facing(b, side)[i], b.symbol); }
  }

  lemma AddTradesSay(b: Book, cap: Capacity, a: Incoming, k: nat)
    requires Valid(b) && k < |Add(b, cap, a).result.trades|
    ensures k < |Facing(b, a.side)| && TradeWith(Add(b, cap, a).result.trades[k], b.symbol, a, Facing(b, a.side)[k])
  {
    hide Fill, Screen, Insert, Valid, TradeWith;
    LiveQueues(b, a.side);
    TradeSays(b.symbol, a, Facing(b, a.side), a.quantity, k);
  }

  // ----- Adding: which reason -----

  /** When each answer is due, from the order's own fields and the book. */
  ghost predicate Due(b: Book, id: OrderId, side: Side, otype: OrderType, price: Price, quantity: Quantity, tif: TimeInForce,
                      reason: RejectReason)
  {
    match reason
    case UnknownOrder => id == 0
    case DuplicateOrderId => id != 0 && Resting(b, id)
    case InvalidQuantity => id != 0 && !Resting(b, id) && quantity == 0
    case InvalidPrice => id != 0 && !Resting(b, id) && quantity > 0 && otype == Limit && price <= 0
    case MarketOrderNoLiquidity => id != 0 && !Resting(b, id) && quantity > 0 && otype == Market && Facing(b, side) == []
    case FillOrKillNotFilled =>
      && id != 0 && !Resting(b, id) && quantity > 0 && (otype == Limit ==> price > 0) && (otype == Market ==> Facing(b, side) != [])
      && tif == FillOrKill && Wrap64(Reach(side, otype, price, Facing(b, side))) < quantity
    case NoReason =>
      && id != 0 && !Resting(b, id) && quantity > 0 && (otype == Limit ==> price > 0) && (otype == Market ==> Facing(b, side) != [])
      && (tif == FillOrKill ==> quantity <= Wrap64(Reach(side, otype, price, Facing(b, side))))
    case _ => false
  }

  ghost predicate DueTo(b: Book, a: Incoming, reason: RejectReason) {
    Due(b, a.id, a.side, a.otype, a.price, a.quantity, a.tif, reason)
  }

  /** An add answers the reason that is due; any but NoReason refuses it and leaves the book alone. */
  lemma AddReason(b: Book, a: Incoming)
    requires Valid(b)
    ensures var s := Add(b, Unbounded, a);
            && (forall reason :: s.result.reason == reason <==> DueTo(b, a, reason))
            && (s.result.accepted <==> s.result.reason == NoReason)
            && (!s.result.accepted ==> s == Step(b, AddResult(false, s.result.reason, Rejected, 0, 0, [])))
  {
    hide Fill, Insert, Locate, Reach, CrossingSum, Valid, Resting;
    LiveQueues(b, a.side);
    ReachIsCrossing(a, Facing(b, a.side));
    LocateResting(b, a.id);
  }

  // ----- Adding: how much -----

  /** The answer to an order that passes every test: how much is filled, how much stays, under which status. */
  lemma AddFills(b: Book, a: Incoming)
    requires Valid(b) && DueTo(b, a, NoReason)
    ensures var r := Add(b, Unbounded, a).result;
            var rests := a.otype == Limit && a.tif == GoodTillCancel;
            && r.accepted && r.filled == Smaller(a.quantity, Reach(a.side, a.otype, a.price, Facing(b, a.side)))
            && TradedSum(r.trades) == r.filled
            && r.remaining == (if rests then a.quantity - r.filled else 0)
            && r.status == (if r.filled == a.quantity then Filled else if !rests then Cancelled
                            else if r.filled == 0 then New else PartiallyFilled)
  {
    hide Insert, Locate, Reach, CrossingSum, Valid, Resting, Fill;
    LiveQueues(b, a.side);
    ReachIsCrossing(a, Facing(b, a.side));
    AddReason(b, a);
    FillIsCrossingMin(b.symbol, a, Facing(b, a.side), a.quantity);
    FillConserves(b.symbol, a, Facing(b, a.side), a.quantity);
  }

  /** `book` has `o` at one place of a queue that is otherwise `rest`. */
  ghost predicate JoinedBy(book: Book, side: Side, o: Order, rest: seq<Order>) {
    var p := Locate(book, o.id);
    p.At? && p.side == side && p.pos < |Own(book, side)| && Own(book, side)[p.pos] == o && RemoveAt(Own(book, side), p.pos) == rest
  }

  /** What an accepted order leaves: itself, field by field, on its own side, when quantity remains; otherwise nothing. */
  lemma AddLeaves(b: Book, a: Incoming)
    requires Valid(b) && Add(b, Unbounded, a).result.accepted
    ensures var Step(c, r) := Add(b, Unbounded, a);
            if r.remaining > 0 then
              JoinedBy(c, a.side, Order(a.id, a.trader, b.symbol, a.seqNo, a.timestamp, a.price, a.quantity, r.remaining, a.side,
                                        Limit, GoodTillCancel, r.status), Own(b, a.side))
            else Own(c, a.side) == Own(b, a.side) && !Resting(c, a.id)
  {
    hide Insert, Locate, CrossingSum, Valid, Resting, Fill, Screen, Shaped;
    var Step(c, r) := Add(b, Unbounded, a);
    var f := Fill(b.symbol, a, b.On(Opposite(a.side)), a.quantity);
    ScreenedAbsent(b, a);
    MatchedAbsent(b, a);
    if r.remaining > 0 {
      var o := RestingOrder(b.symbol, a, r.remaining);
      ValidShaped(b);
      AddKeepsShape(b, Unbounded, a);
      InsertedAt(c, a.side, b.On(a.side), o);
    } else {
      LocateResting(c, a.id);
    }
  }

  lemma ValidShaped(b: Book)
    requires Valid(b)
    ensures Shaped(b)
  {
  }

  lemma InsertedAt(c: Book, side: Side, s: seq<Order>, o: Order)
    requires Shaped(c) && c.On(side) == Insert(side, s, o)
    ensures JoinedBy(c, side, o, s)
  {
    hide Locate, Shaped;
    var k := InsertPos(side, s, o.price);
    assert c.On(side)[k] == o;
    LocateUnique(c, side, k);
    assert RemoveAt(Insert(side, s, o), k) == s;
  }

  /** A book with `n` slots differs only when the reference book would exceed them: what matched stands, the rest is dropped. */
  lemma AddBounded(b: Book, n: nat, a: Incoming)
    requires Valid(b) && b.Count() <= n
    ensures var u, s := Add(b, Unbounded, a), Add(b, Slots(n), a);
            if u.book.Count() <= n then s == u
            else
              && s.result == AddResult(u.result.filled > 0, PoolExhausted, if u.result.filled > 0 then Filled else Rejected,
                                       u.result.filled, 0, u.result.trades)
              && Own(s.book, a.side) == Own(b, a.side) && Facing(s.book, a.side) == Facing(u.book, a.side)
  {
    hide Fill, Screen, Insert, Valid;
    if Screen(b, a) == NoReason {
      FillShrinksBook(b, a);
      var f := Fill(b.symbol, a, b.On(Opposite(a.side)), a.quantity);
      InsertLength(a.side, b.On(a.side), RestingOrder(b.symbol, a, f.left));
    }
  }

  // ----- Cancelling -----

  /** A cancel of a resting order removes it and nothing else, and names its trader; of any other id it is refused. */
  lemma CancelSays(b: Book, id: OrderId)
    requires Shaped(b)
    ensures var Step(c, r) := Cancel(b, id);
            match Locate(b, id)
            case Nowhere => !Resting(b, id) && c == b && !r.success && r.reason == UnknownOrder
            case At(side, i) =>
              && r == CancelResult(true, NoReason, b.On(side)[i].symbol, b.On(side)[i].trader) && b.On(side)[i].id == id
              && !Resting(c, id) && c.symbol == b.symbol && c.On(Opposite(side)) == b.On(Opposite(side))
              && |c.On(side)| == |b.On(side)| - 1
              && forall j :: 0 <= j < |c.On(side)| ==> c.On(side)[j] == b.On(side)[if j < i then j else j + 1]
  {
    hide Shaped, IndexOf, Resting;
    LocateResting(b, id);
    match Locate(b, id)
    case Nowhere =>
    case At(side, i) =>
      WithoutKeepsShape(b, side, i);
      LocateResting(Cancel(b, id).book, id);
  }

  // ----- Modifying -----

  lemma ModifyRefused(b: Book, cap: Capacity, id: OrderId, p: Price, q: Quantity, n: SequenceNumber, ts: Timestamp)
    requires !Resting(b, id) || q == 0 || p <= 0
    ensures Modify(b, cap, id, p, q, n, ts) ==
            Step(b, ModifyResult(false, if !Resting(b, id) then UnknownOrder else if q == 0 then InvalidQuantity else InvalidPrice,
                                 false, Rejected, 0, 0, []))
  {
    hide Add, Resting, Locate;
    LocateResting(b, id);
  }

  /** Priority is lost exactly by a new price or a larger quantity. */
  lemma PriorityLost(b: Book, cap: Capacity, id: OrderId, p: Price, q: Quantity, n: SequenceNumber, ts: Timestamp)
    requires Valid(b) && Locate(b, id).At? && p > 0 && q > 0 && cap.Admits(b.Count())
    ensures var At(side, i) := Locate(b, id);
            var r := Modify(b, cap, id, p, q, n, ts).result;
            r.success && (r.lostPriority <==> p != b.On(side)[i].price || q > b.On(side)[i].remaining)
  {
    hide Add, Valid, Locate;
    ModifyAlwaysSucceeds(b, cap, id, p, q, n, ts);
  }

  /**
    A modify that loses priority: the order is withdrawn and enters again under its own id, trader and
    side with the new price, quantity, sequence number and time. It fills against everything within the
    new limit and the rest of it rests; the other orders of its side stay as they were.
   */
  lemma ReplaceSays(b: Book, cap: Capacity, id: OrderId, p: Price, q: Quantity, n: SequenceNumber, ts: Timestamp)
    requires Valid(b) && Locate(b, id).At? && p > 0 && q > 0 && cap.Admits(b.Count())
    requires var At(side, i) := Locate(b, id); p != b.On(side)[i].price || q > b.On(side)[i].remaining
    ensures var At(side, i) := Locate(b, id);
            var Step(c, r) := Modify(b, cap, id, p, q, n, ts);
            && r.success && r.reason == NoReason && r.lostPriority
            && r.filled == Smaller(q, Reach(side, Limit, p, Facing(b, side))) == TradedSum(r.trades)
            && r.remaining == q - r.filled
            && r.status == (if r.remaining == 0 then Filled else if r.filled == 0 then New else PartiallyFilled)
            && if r.remaining == 0 then Own(c, side) == RemoveAt(b.On(side), i) && !Resting(c, id)
               else JoinedBy(c, side, Order(id, b.On(side)[i].trader, b.symbol, n, ts, p, q, r.remaining, side, Limit, GoodTillCancel,
                                            r.status), RemoveAt(b.On(side), i))
  {
    hide Add, Valid, Locate, Reach, Resting, JoinedBy, Due, TradedSum;
    var At(side, i) := Locate(b, id);
    ModifyAlwaysSucceeds(b, cap, id, p, q, n, ts);
    PriorityLost(b, cap, id, p, q, n, ts);
    var o, w := b.On(side)[i], Without(b, side, i);
    var a := Replacement(o, p, q, n, ts);
    ReplacementDue(b, id, p, q, n, ts);
    WithoutKeepsValid(b, side, i);
    AddFills(w, a);
    AddLeaves(w, a);
  }

  lemma ReplacementDue(b: Book, id: OrderId, p: Price, q: Quantity, n: SequenceNumber, ts: Timestamp)
    requires Valid(b) && Locate(b, id).At? && p > 0 && q > 0
    ensures var At(side, i) := Locate(b, id);
            var o := b.On(side)[i];
            && o.id == id && o.side == side && o.otype == Limit && o.tif == GoodTillCancel
            && DueTo(Without(b, side, i), Replacement(o, p, q, n, ts), NoReason)
  {
    hide Locate, Resting, Reach, Uncrossed;
    var At(side, i) := Locate(b, id);
    assert Live(b.On(side)[i], b.symbol);
    LocatedId(b, id);
    WithoutKeepsShape(b, side, i);
    LocateResting(Without(b, side, i), id);
  }

  /** The k-th trade of a replaced order is with the k-th order facing it. */
  lemma ModifyTradesSay(b: Book, cap: Capacity, id: OrderId, p: Price, q: Quantity, n: SequenceNumber, ts: Timestamp, k: nat)
    requires Valid(b) && Locate(b, id).At? && k < |Modify(b, cap, id, p, q, n, ts).result.trades|
    ensures var At(side, i) := Locate(b, id);
            k < |Facing(b, side)| &&
            TradeWith(Modify(b, cap, id, p, q, n, ts).result.trades[k], b.symbol,
                      Incoming(id, b.On(side)[i].trader, side, Limit, p, q, GoodTillCancel, n, ts), Facing(b, side)[k])
  {
    hide Add, Valid, Locate, TradeWith, Due;
    var At(side, i) := Locate(b, id);
    ReplacementDue(b, id, p, q, n, ts);
    WithoutKeepsValid(b, side, i);
    AddTradesSay(Without(b, side, i), cap, Replacement(b.On(side)[i], p, q, n, ts), k);
  }
}
