/** One partition as a deterministic state machine: commands in, sequence numbers and events out. */
module EngineModel {
  import opened Types
  import opened BookModel

  datatype Command =
    | NewOrder(orderId: OrderId, trader: TraderId, symbol: SymbolId, side: Side, otype: OrderType,
               price: Price, quantity: Quantity, tif: TimeInForce, timestamp: Timestamp)
    | CancelOrder(orderId: OrderId, trader: TraderId, symbol: SymbolId, timestamp: Timestamp)
    | ModifyOrder(orderId: OrderId, trader: TraderId, symbol: SymbolId, newPrice: Price, newQuantity: Quantity,
                  timestamp: Timestamp)

  datatype Event =
    | AcceptedEvent(seqNo: SequenceNumber, timestamp: Timestamp, symbol: SymbolId, orderId: OrderId, trader: TraderId,
                    side: Side, otype: OrderType, price: Price, quantity: Quantity, filled: Quantity,
                    remaining: Quantity, status: OrderStatus)
    | RejectedEvent(seqNo: SequenceNumber, timestamp: Timestamp, symbol: SymbolId, orderId: OrderId, trader: TraderId,
                    reason: RejectReason)
    | CancelledEvent(seqNo: SequenceNumber, timestamp: Timestamp, symbol: SymbolId, orderId: OrderId, trader: TraderId)
    | ModifiedEvent(seqNo: SequenceNumber, timestamp: Timestamp, symbol: SymbolId, orderId: OrderId, trader: TraderId,
                    newPrice: Price, newRemaining: Quantity, lostPriority: bool)
    | TradeEvent(trade: Trade)
    | BookUpdateEvent(seqNo: SequenceNumber, timestamp: Timestamp, symbol: SymbolId, side: Side, price: Price,
                      aggregate: Quantity)

  /** Where a command's levels may have changed. */
  datatype Spot = Spot(side: Side, price: Price)

  function AddTouched(touched: seq<Spot>, s: Spot): seq<Spot> {
    if s in touched then touched else touched + [s]
  }

  function TouchTrades(touched: seq<Spot>, side: Side, trades: seq<Trade>): seq<Spot>
    decreases |trades|
  {
    if trades == [] then touched
    else TouchTrades(AddTouched(touched, Spot(side, trades[0].price)), side, trades[1..])
  }

  function TradeEvents(trades: seq<Trade>): (es: seq<Event>)
    ensures |es| == |trades| && forall i :: 0 <= i < |es| ==> es[i] == TradeEvent(trades[i])
  {
    seq(|trades|, i requires 0 <= i < |trades| => TradeEvent(trades[i]))
  }

  function UpdateAt(b: Book, n: SequenceNumber, ts: Timestamp, symbol: SymbolId, s: Spot): Event {
    BookUpdateEvent(n, ts, symbol, s.side, s.price, QuantityAt(b, s.side, s.price))
  }

  function Updates(b: Book, n: SequenceNumber, ts: Timestamp, symbol: SymbolId, touched: seq<Spot>): (es: seq<Event>)
    ensures |es| == |touched| && forall i :: 0 <= i < |es| ==> es[i] == UpdateAt(b, n, ts, symbol, touched[i])
  {
    seq(|touched|, i requires 0 <= i < |touched| => UpdateAt(b, n, ts, symbol, touched[i]))
  }

  datatype Handled = Handled(book: Book, events: seq<Event>)

  function IncomingOf(c: Command, n: SequenceNumber): Incoming
    requires c.NewOrder?
  {
    Incoming(c.orderId, c.trader, c.side, c.otype, c.price, c.quantity, c.tif, n, c.timestamp)
  }

  /** Levels touched by an accepted new order. */
  function NewTouched(c: Command, r: AddResult): seq<Spot>
    requires c.NewOrder?
  {
    var touched := TouchTrades([], Opposite(c.side), r.trades);
    if r.remaining > 0 && r.status != Cancelled then AddTouched(touched, Spot(c.side, c.price)) else touched
  }

  function HandleNew(b: Book, c: Command, n: SequenceNumber): Handled
    requires c.NewOrder?
  {
    var s := Add(b, Unbounded, IncomingOf(c, n));
    var r := s.result;
    if !r.accepted then
      Handled(s.book, [RejectedEvent(n, c.timestamp, c.symbol, c.orderId, c.trader, r.reason)])
    else
      Handled(s.book,
        [AcceptedEvent(n, c.timestamp, c.symbol, c.orderId, c.trader, c.side, c.otype, c.price, c.quantity,
                       r.filled, r.remaining, r.status)]
        + TradeEvents(r.trades) + Updates(s.book, n, c.timestamp, c.symbol, NewTouched(c, r)))
  }

  function HandleCancel(b: Book, c: Command, n: SequenceNumber): Handled
    requires c.CancelOrder?
  {
    var s := Cancel(b, c.orderId);
    match Locate(b, c.orderId)
    case Nowhere =>
      Handled(s.book, [RejectedEvent(n, c.timestamp, c.symbol, c.orderId, c.trader, s.result.reason)])
    case At(side, i) =>
      Handled(s.book, [CancelledEvent(n, c.timestamp, c.symbol, c.orderId, s.result.trader)]
                      + Updates(s.book, n, c.timestamp, c.symbol, [Spot(side, b.On(side)[i].price)]))
  }

  /** Levels touched by a successful modify of an order that rested at (side, oldPrice). */
  function ModifyTouched(c: Command, side: Side, oldPrice: Price, trades: seq<Trade>): seq<Spot>
    requires c.ModifyOrder?
  {
    var touched := AddTouched(TouchTrades([], Opposite(side), trades), Spot(side, oldPrice));
    if c.newPrice != oldPrice then AddTouched(touched, Spot(side, c.newPrice)) else touched
  }

  function HandleModify(b: Book, c: Command, n: SequenceNumber): Handled
    requires c.ModifyOrder?
  {
    match Locate(b, c.orderId)
    case Nowhere =>
      Handled(b, [RejectedEvent(n, c.timestamp, c.symbol, c.orderId, c.trader, UnknownOrder)])
    case At(side, i) =>
      var s := Modify(b, Unbounded, c.orderId, c.newPrice, c.newQuantity, n, c.timestamp);
      if !s.result.success then
        Handled(s.book, [RejectedEvent(n, c.timestamp, c.symbol, c.orderId, c.trader, s.result.reason)])
      else
        Handled(s.book,
          [ModifiedEvent(n, c.timestamp, c.symbol, c.orderId, c.trader, c.newPrice, s.result.remaining, s.result.lostPriority)]
          + TradeEvents(s.result.trades)
          + Updates(s.book, n, c.timestamp, c.symbol, ModifyTouched(c, side, b.On(side)[i].price, s.result.trades)))
  }

  function Handle(b: Book, c: Command, n: SequenceNumber): Handled {
    match c
    case NewOrder(_, _, _, _, _, _, _, _, _) => HandleNew(b, c, n)
    case CancelOrder(_, _, _, _) => HandleCancel(b, c, n)
    case ModifyOrder(_, _, _, _, _, _) => HandleModify(b, c, n)
  }

  datatype Engine = Engine(nextSeq: SequenceNumber, books: map<SymbolId, Book>)

  datatype Processed = Processed(engine: Engine, seqNo: SequenceNumber, events: seq<Event>)

  function Register(e: Engine, symbol: SymbolId): Engine {
    if symbol in e.books then e else e.(books := e.books[symbol := Empty(symbol)])
  }

  /** Process: every command takes the next sequence number, also one for an unknown symbol. */
  function Process(e: Engine, c: Command): Processed {
    var n := e.nextSeq;
    var next := Wrap64(n + 1);
    if c.symbol !in e.books then
      Processed(e.(nextSeq := next), n, [RejectedEvent(n, c.timestamp, c.symbol, c.orderId, c.trader, InvalidSymbol)])
    else
      var h := Handle(e.books[c.symbol], c, n);
      Processed(Engine(next, e.books[c.symbol := h.book]), n, h.events)
  }

  datatype EngineRun = EngineRun(engine: Engine, events: seq<Event>)

  function RunEngine(e: Engine, cs: seq<Command>): EngineRun
    decreases |cs|
  {
    if cs == [] then EngineRun(e, [])
    else
      var p := Process(e, cs[0]);
      var r := RunEngine(p.engine, cs[1..]);
      EngineRun(r.engine, p.events + r.events)
  }

  /** The book operation a command amounts to. */
  function OpOf(c: Command, n: SequenceNumber): Op {
    match c
    case NewOrder(_, _, _, _, _, _, _, _, _) => AddOp(IncomingOf(c, n))
    case CancelOrder(_, _, _, _) => CancelOp(c.orderId)
    case ModifyOrder(_, _, _, _, _, _) => ModifyOp(c.orderId, c.newPrice, c.newQuantity, n, c.timestamp)
  }

  lemma HandleIsApply(b: Book, c: Command, n: SequenceNumber)
    ensures Handle(b, c, n).book == Apply(b, Unbounded, OpOf(c, n)).book
  {
    hide Add, Modify;
    match c
    case NewOrder(_, _, _, _, _, _, _, _, _) =>
    case CancelOrder(_, _, _, _) =>
    case ModifyOrder(_, _, _, _, _, _) =>
      ModifyUnknown(b, Unbounded, c.orderId, c.newPrice, c.newQuantity, n, c.timestamp);
  }

  lemma ModifyUnknown(b: Book, cap: Capacity, id: OrderId, p: Price, q: Quantity, n: SequenceNumber, ts: Timestamp)
    ensures Locate(b, id) == Nowhere ==> Modify(b, cap, id, p, q, n, ts).book == b
  {
  }
}
