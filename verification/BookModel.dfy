/**
  The meaning of an order book: two priority queues, each one flat sequence of resting orders,
  best price first and first-in-first-out within a price. Price levels, id indexes, cached totals,
  linked nodes and free lists are representations of this and live in other modules.
 */
module BookModel {
  import opened Types

  datatype Book = Book(symbol: SymbolId, bids: seq<Order>, asks: seq<Order>) {
    function On(side: Side): seq<Order> {
      if side == Buy then bids else asks
    }

    function With(side: Side, s: seq<Order>): Book {
      if side == Buy then this.(bids := s) else this.(asks := s)
    }

    function Count(): nat {
      |bids| + |asks|
    }
  }

  function Empty(symbol: SymbolId): Book {
    Book(symbol, [], [])
  }

  /** Price `p` has strictly better priority than `q` on `side`. */
  predicate Better(side: Side, p: Price, q: Price) {
    if side == Buy then p > q else p < q
  }

  /** An order on its way in: the arguments of AddOrder. */
  datatype Incoming = Incoming(
    id: OrderId, trader: TraderId, side: Side, otype: OrderType, price: Price, quantity: Quantity,
    tif: TimeInForce, seqNo: SequenceNumber, timestamp: Timestamp)

  predicate Crosses(a: Incoming, levelPrice: Price) {
    a.otype == Market || (if a.side == Buy then levelPrice <= a.price else levelPrice >= a.price)
  }

  datatype AddResult = AddResult(
    accepted: bool, reason: RejectReason, status: OrderStatus, filled: Quantity, remaining: Quantity,
    trades: seq<Trade>)

  datatype CancelResult = CancelResult(success: bool, reason: RejectReason, symbol: SymbolId, trader: TraderId)

  datatype ModifyResult = ModifyResult(
    success: bool, reason: RejectReason, lostPriority: bool, status: OrderStatus, filled: Quantity,
    remaining: Quantity, trades: seq<Trade>)

  datatype Step<+R> = Step(book: Book, result: R)

  /** How many resting orders a book can store: the reference book is unbounded, the pooled one is not. */
  datatype Capacity = Unbounded | Slots(n: nat) {
    predicate Admits(count: nat) {
      Unbounded? || count <= n
    }
  }

  // ----- Searching -----

  function IndexOf(s: seq<Order>, id: OrderId): (r: int)
    ensures -1 <= r < |s|
    ensures r >= 0 ==> s[r].id == id
    ensures forall k :: 0 <= k < (if r < 0 then |s| else r) ==> s[k].id != id
  {
    if s == [] then -1
    else if s[0].id == id then 0
    else
      var r := IndexOf(s[1..], id);
      if r < 0 then -1 else r + 1
  }

  predicate Absent(s: seq<Order>, id: OrderId) {
    forall k :: 0 <= k < |s| ==> s[k].id != id
  }

  datatype Place = Nowhere | At(side: Side, pos: nat)

  function Locate(b: Book, id: OrderId): (p: Place)
    ensures p.At? ==> p.pos < |b.On(p.side)| && b.On(p.side)[p.pos].id == id
    ensures p.Nowhere? ==> Absent(b.bids, id) && Absent(b.asks, id)
  {
    var i := IndexOf(b.bids, id);
    var j := IndexOf(b.asks, id);
    if i >= 0 then At(Buy, i) else if j >= 0 then At(Sell, j) else Nowhere
  }

  // ----- Editing one queue -----

  function RemoveAt(s: seq<Order>, i: nat): seq<Order>
    requires i < |s|
  {
    s[..i] + s[i + 1..]
  }

  /** The place at which a new order of price `p` joins the queue: behind every order at least as good. */
  function InsertPos(side: Side, s: seq<Order>, p: Price): (r: nat)
    ensures r <= |s|
    ensures forall k :: 0 <= k < r ==> !Better(side, p, s[k].price)
    ensures r < |s| ==> Better(side, p, s[r].price)
  {
    if s == [] || Better(side, p, s[0].price) then 0 else 1 + InsertPos(side, s[1..], p)
  }

  function Insert(side: Side, s: seq<Order>, o: Order): seq<Order> {
    var k := InsertPos(side, s, o.price);
    s[..k] + [o] + s[k..]
  }

  // ----- Matching -----

  datatype Filling = Filling(rest: seq<Order>, left: Quantity, trades: seq<Trade>) {
    function After(earlier: seq<Trade>): Filling {
      this.(trades := earlier + trades)
    }
  }

  function TradeOf(symbol: SymbolId, a: Incoming, resting: Order, q: Quantity): Trade {
    Trade(a.seqNo, a.timestamp, symbol, a.id, resting.id, a.trader, resting.trader, a.side, resting.price, q)
  }

  /** The resting order after `t` of it has traded without exhausting it. */
  function Reduce(o: Order, t: Quantity): Order
    requires t <= o.remaining
  {
    o.(remaining := o.remaining - t, status := PartiallyFilled)
  }

  /** Walk the opposite queue from its front while it crosses and quantity is left. */
  function Fill(symbol: SymbolId, a: Incoming, s: seq<Order>, q: Quantity): (f: Filling)
    ensures f.left <= q && |f.rest| <= |s|
  {
    if s == [] || q == 0 || !Crosses(a, s[0].price) then
      Filling(s, q, [])
    else
      var t := Min(q, s[0].remaining);
      var trade := TradeOf(symbol, a, s[0], t);
      if t == s[0].remaining then
        Fill(symbol, a, s[1..], q - t).After([trade])
      else
        Filling([Reduce(s[0], t)] + s[1..], q - t, [trade])
  }

  /** Quantity at the front of the queue that the incoming order crosses, as an exact sum. */
  function CrossingSum(a: Incoming, s: seq<Order>): nat {
    if s == [] || !Crosses(a, s[0].price) then 0 else s[0].remaining + CrossingSum(a, s[1..])
  }

  /** The first failing admission test, in the order the tests are made. */
  function Screen(b: Book, a: Incoming): RejectReason {
    if a.id == INVALID_ORDER_ID then UnknownOrder
    else if Locate(b, a.id).At? then DuplicateOrderId
    else if a.quantity == 0 then InvalidQuantity
    else if a.otype == Limit && a.price <= 0 then InvalidPrice
    else if a.otype == Market && b.On(Opposite(a.side)) == [] then MarketOrderNoLiquidity
    else if a.tif == FillOrKill && Wrap64(CrossingSum(a, b.On(Opposite(a.side)))) < a.quantity then FillOrKillNotFilled
    else NoReason
  }

  function RestingOrder(symbol: SymbolId, a: Incoming, left: Quantity): Order {
    Order(a.id, a.trader, symbol, a.seqNo, a.timestamp, a.price, a.quantity, left, a.side, a.otype, a.tif,
          if left < a.quantity then PartiallyFilled else New)
  }

  predicate CanRest(a: Incoming, left: Quantity) {
    a.otype == Limit && a.tif == GoodTillCancel && left > 0
  }

  /** AddOrder on a book that can store as many orders as `cap` allows. */
  function Add(b: Book, cap: Capacity, a: Incoming): Step<AddResult> {
    var reason := Screen(b, a);
    if reason != NoReason then
      Step(b, AddResult(false, reason, Rejected, 0, 0, []))
    else
      var opp := Opposite(a.side);
      var f := Fill(b.symbol, a, b.On(opp), a.quantity);
      var matched := b.With(opp, f.rest);
      var filled := a.quantity - f.left;
      if !CanRest(a, f.left) then
        Step(matched, AddResult(true, NoReason, if f.left == 0 then Filled else Cancelled, filled, 0, f.trades))
      else if !cap.Admits(matched.Count() + 1) then
        Step(matched, AddResult(filled > 0, PoolExhausted, if filled > 0 then Filled else Rejected, filled, 0, f.trades))
      else
        var o := RestingOrder(b.symbol, a, f.left);
        Step(matched.With(a.side, Insert(a.side, matched.On(a.side), o)),
             AddResult(true, NoReason, o.status, filled, f.left, f.trades))
  }

  function Cancel(b: Book, id: OrderId): Step<CancelResult> {
    match Locate(b, id)
    case Nowhere => Step(b, CancelResult(false, UnknownOrder, 0, 0))
    case At(side, i) =>
      var o := b.On(side)[i];
      Step(b.With(side, RemoveAt(b.On(side), i)), CancelResult(true, NoReason, o.symbol, o.trader))
  }

  /** The same order, `delta` smaller, in the same place. */
  function Shrink(o: Order, newQuantity: Quantity): Order
    requires newQuantity <= o.remaining
  {
    o.(remaining := newQuantity, quantity := Wrap64(o.quantity - (o.remaining - newQuantity)))
  }

  function Replacement(o: Order, price: Price, quantity: Quantity, seqNo: SequenceNumber, ts: Timestamp): Incoming {
    Incoming(o.id, o.trader, o.side, o.otype, price, quantity, o.tif, seqNo, ts)
  }

  function Modify(b: Book, cap: Capacity, id: OrderId, price: Price, quantity: Quantity,
                  seqNo: SequenceNumber, ts: Timestamp): Step<ModifyResult>
  {
    match Locate(b, id)
    case Nowhere => Step(b, ModifyResult(false, UnknownOrder, false, Rejected, 0, 0, []))
    case At(side, i) =>
      var o := b.On(side)[i];
      if quantity == 0 then
        Step(b, ModifyResult(false, InvalidQuantity, false, Rejected, 0, 0, []))
      else if price <= 0 then
        Step(b, ModifyResult(false, InvalidPrice, false, Rejected, 0, 0, []))
      else if price == o.price && quantity <= o.remaining then
        Step(b.With(side, b.On(side)[i := Shrink(o, quantity)]),
             ModifyResult(true, NoReason, false, PartiallyFilled, 0, quantity, []))
      else
        var r := Add(b.With(side, RemoveAt(b.On(side), i)), cap, Replacement(o, price, quantity, seqNo, ts));
        Step(r.book, ModifyResult(r.result.accepted, r.result.reason, true, r.result.status, r.result.filled,
                                  r.result.remaining, r.result.trades))
  }

  // ----- Operations and runs -----

  datatype Op =
    | AddOp(a: Incoming)
    | CancelOp(id: OrderId)
    | ModifyOp(id: OrderId, price: Price, quantity: Quantity, seqNo: SequenceNumber, ts: Timestamp)

  datatype OpResult = Added(add: AddResult) | Canceled(cancel: CancelResult) | Modified(change: ModifyResult)

  function Apply(b: Book, cap: Capacity, op: Op): Step<OpResult> {
    match op
    case AddOp(a) => var r := Add(b, cap, a); Step(r.book, Added(r.result))
    case CancelOp(id) => var r := Cancel(b, id); Step(r.book, Canceled(r.result))
    case ModifyOp(id, p, q, n, ts) => var r := Modify(b, cap, id, p, q, n, ts); Step(r.book, Modified(r.result))
  }

  function Run(b: Book, cap: Capacity, ops: seq<Op>): Step<seq<OpResult>>
    decreases |ops|
  {
    if ops == [] then Step(b, [])
    else
      var first := Apply(b, cap, ops[0]);
      var others := Run(first.book, cap, ops[1..]);
      Step(others.book, [first.result] + others.result)
  }

  // ----- Quantities -----

  function Sum(s: seq<Order>): nat {
    if s == [] then 0 else s[0].remaining + Sum(s[1..])
  }

  function SumAt(s: seq<Order>, p: Price): nat {
    if s == [] then 0 else (if s[0].price == p then s[0].remaining else 0) + SumAt(s[1..], p)
  }

  /** What QuantityAt answers: the level's 64-bit total, 0 when there is no such level. */
  function QuantityAt(b: Book, side: Side, p: Price): Quantity {
    Wrap64(SumAt(b.On(side), p))
  }

  function TradedSum(ts: seq<Trade>): nat {
    if ts == [] then 0 else ts[0].quantity + TradedSum(ts[1..])
  }

  // ----- What a well-formed queue and book look like -----

  ghost predicate Ranked(side: Side, s: seq<Order>) {
    && (forall i :: 0 <= i < |s| ==> s[i].side == side)
    && (forall i, j :: 0 <= i < j < |s| ==> !Better(side, s[j].price, s[i].price))
    && (forall i, j :: 0 <= i < j < |s| ==> s[i].id != s[j].id)
  }

  ghost predicate Apart(s: seq<Order>, t: seq<Order>) {
    forall i, j :: 0 <= i < |s| && 0 <= j < |t| ==> s[i].id != t[j].id
  }

  /** What every representation needs: sides, sorting and unique ids. */
  ghost predicate Shaped(b: Book) {
    Ranked(Buy, b.bids) && Ranked(Sell, b.asks) && Apart(b.bids, b.asks)
  }

  ghost predicate Live(o: Order, symbol: SymbolId) {
    && o.symbol == symbol && o.id != INVALID_ORDER_ID && o.price > 0
    && o.otype == Limit && o.tif == GoodTillCancel
    && 0 < o.remaining <= o.quantity
    && o.status == (if o.remaining == o.quantity then New else PartiallyFilled)
  }

  ghost predicate AllLive(s: seq<Order>, symbol: SymbolId) {
    forall i :: 0 <= i < |s| ==> Live(s[i], symbol)
  }

  ghost predicate Uncrossed(b: Book) {
    forall i, j :: 0 <= i < |b.bids| && 0 <= j < |b.asks| ==> b.bids[i].price < b.asks[j].price
  }

  /** The invariant of every reachable book. */
  ghost predicate Valid(b: Book) {
    Shaped(b) && AllLive(b.bids, b.symbol) && AllLive(b.asks, b.symbol) && Uncrossed(b)
  }
}
