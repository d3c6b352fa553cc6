/** The engine as an object: a counter and one reference book per registered symbol. */
module MatchingEngine {
  import opened Types
  import opened BookModel
  import opened EngineModel
  import NaiveBook

  type Books = map<SymbolId, NaiveBook.OrderBook>

  /** AddTouched: remember a level unless it is already remembered. */
  method NoteTouched(touched: seq<Spot>, s: Spot) returns (r: seq<Spot>)
    ensures r == AddTouched(touched, s)
  {
    for i := 0 to |touched|
      invariant s !in touched[..i]
    {
      if touched[i] == s { return touched; }
    }
    assert touched[..|touched|] == touched;
    r := touched + [s];
  }

  /** The loop over a result's trades: collect touched levels and append trade events. */
  method NoteTrades(touched: seq<Spot>, side: Side, trades: seq<Trade>, out: seq<Event>)
    returns (t: seq<Spot>, es: seq<Event>)
    ensures t == TouchTrades(touched, side, trades) && es == out + TradeEvents(trades)
  {
    hide TradeEvents, AddTouched;
    t, es := touched, out;
    for i := 0 to |trades|
      invariant TouchTrades(t, side, trades[i..]) == TouchTrades(touched, side, trades)
      invariant es == out + TradeEvents(trades)[..i]
    {
      assert trades[i..][1..] == trades[i + 1..];
      t := NoteTouched(t, Spot(side, trades[i].price));
      es := es + [TradeEvent(trades[i])];
      assert TradeEvents(trades)[..i + 1] == TradeEvents(trades)[..i] + [TradeEvent(trades[i])];
    }
    assert TradeEvents(trades)[..|trades|] == TradeEvents(trades);
  }

  /** The closing loop: one update per touched level, with the book's quantity there. */
  method NoteUpdates(book: NaiveBook.OrderBook, n: SequenceNumber, ts: Timestamp, symbol: SymbolId, touched: seq<Spot>,
                     out: seq<Event>)
    returns (es: seq<Event>)
    requires book.Valid()
    ensures es == out + Updates(book.View(), n, ts, symbol, touched)
  {
    hide NaiveBook.Represents, QuantityAt;
    es := out;
    ghost var us := Updates(book.View(), n, ts, symbol, touched);
    for i := 0 to |touched|
      invariant es == out + us[..i]
    {
      var q := book.QuantityAt(touched[i].side, touched[i].price);
      es := es + [BookUpdateEvent(n, ts, symbol, touched[i].side, touched[i].price, q)];
    }
    assert us[..|touched|] == us;
  }

  method ProcessNewOrder(book: NaiveBook.OrderBook, c: Command, n: SequenceNumber) returns (out: seq<Event>)
    requires book.Valid() && c.NewOrder?
    modifies book
    ensures book.Valid()
    ensures var h := HandleNew(old(book.View()), c, n); book.View() == h.book && out == h.events
  {
    hide NaiveBook.Represents, Add, TouchTrades, Updates, TradeEvents;
    var r := book.AddOrder(Incoming(c.orderId, c.trader, c.side, c.otype, c.price, c.quantity, c.tif, n, c.timestamp));
    if !r.accepted {
      return [RejectedEvent(n, c.timestamp, c.symbol, c.orderId, c.trader, r.reason)];
    }
    out := [AcceptedEvent(n, c.timestamp, c.symbol, c.orderId, c.trader, c.side, c.otype, c.price, c.quantity,
                          r.filled, r.remaining, r.status)];
    var touched;
    touched, out := NoteTrades([], Opposite(c.side), r.trades, out);
    if r.remaining > 0 && r.status != Cancelled {
      touched := NoteTouched(touched, Spot(c.side, c.price));
    }
    out := NoteUpdates(book, n, c.timestamp, c.symbol, touched, out);
  }

  method ProcessCancel(book: NaiveBook.OrderBook, c: Command, n: SequenceNumber) returns (out: seq<Event>)
    requires book.Valid() && c.CancelOrder?
    modifies book
    ensures book.Valid()
    ensures var h := HandleCancel(old(book.View()), c, n); book.View() == h.book && out == h.events
  {
    hide NaiveBook.Represents, Locate, Updates, QuantityAt;
    var existing := book.FindOrder(c.orderId);
    FoundSide(book, c.orderId);
    var r := book.CancelOrder(c.orderId);
    if !r.success {
      return [RejectedEvent(n, c.timestamp, c.symbol, c.orderId, c.trader, r.reason)];
    }
    out := [CancelledEvent(n, c.timestamp, c.symbol, c.orderId, r.trader)];
    out := NoteUpdates(book, n, c.timestamp, c.symbol, [Spot(existing.value.side, existing.value.price)], out);
  }

  method ProcessModify(book: NaiveBook.OrderBook, c: Command, n: SequenceNumber) returns (out: seq<Event>)
    requires book.Valid() && c.ModifyOrder?
    modifies book
    ensures book.Valid()
    ensures var h := HandleModify(old(book.View()), c, n); book.View() == h.book && out == h.events
  {
    hide NaiveBook.Represents, Locate, Updates, Modify, TouchTrades, TradeEvents;
    var existing := book.FindOrder(c.orderId);
    if existing == None {
      return [RejectedEvent(n, c.timestamp, c.symbol, c.orderId, c.trader, UnknownOrder)];
    }
    FoundSide(book, c.orderId);
    var side, oldPrice := existing.value.side, existing.value.price;
    var r := book.ModifyOrder(c.orderId, c.newPrice, c.newQuantity, n, c.timestamp);
    if !r.success {
      return [RejectedEvent(n, c.timestamp, c.symbol, c.orderId, c.trader, r.reason)];
    }
    out := [ModifiedEvent(n, c.timestamp, c.symbol, c.orderId, c.trader, c.newPrice, r.remaining, r.lostPriority)];
    var touched;
    touched, out := NoteTrades([], Opposite(side), r.trades, out);
    touched := NoteTouched(touched, Spot(side, oldPrice));
    if c.newPrice != oldPrice {
      touched := NoteTouched(touched, Spot(side, c.newPrice));
    }
    out := NoteUpdates(book, n, c.timestamp, c.symbol, touched, out);
  }

  lemma FoundSide(book: NaiveBook.OrderBook, id: OrderId)
    requires book.Valid()
    ensures var b := book.View(); var p := Locate(b, id); p.At? ==> b.On(p.side)[p.pos].side == p.side
  {
    hide NaiveBook.MapOk, NaiveBook.Indexes;
    var p := Locate(book.View(), id);
    if p.At? { NaiveBook.SideOfOrder(book.View(), p.side, p.pos); }
  }

  class Engine {
    var nextSeq: SequenceNumber
    var books: Books

    /** Books are filed under their own symbol, so no two symbols share one. */
    ghost predicate Valid()
      reads this, books.Values
    {
      forall s :: s in books ==> books[s].Valid() && books[s].symbol == s
    }

    ghost function State(): EngineModel.Engine
      reads this, books.Values
    {
      EngineModel.Engine(nextSeq, map s | s in books :: books[s].View())
    }

    ghost function Footprint(): set<object>
      reads this
    {
      {this} + books.Values
    }

    constructor ()
      ensures Valid() && State() == EngineModel.Engine(1, map[]) && books == map[]
    {
      nextSeq, books := 1, map[];
    }

    method RegisterSymbol(symbol: SymbolId)
      requires Valid()
      modifies this
      ensures Valid() && State() == Register(old(State()), symbol)
      ensures fresh(Footprint() - old(Footprint()))
    {
      hide NaiveBook.OrderBook.Valid, NaiveBook.OrderBook.View;
      if symbol !in books {
        var book := new NaiveBook.OrderBook(symbol);
        books := books[symbol := book];
      }
      assert State().books == Register(old(State()), symbol).books;
    }

    /** One command: the next sequence number, the book it names, and its events. */
    method Process(c: Command) returns (seqNo: SequenceNumber, out: seq<Event>)
      requires Valid()
      modifies this, books.Values
      ensures Valid() && books == old(books)
      ensures var p := EngineModel.Process(old(State()), c); State() == p.engine && seqNo == p.seqNo && out == p.events
    {
      hide NaiveBook.OrderBook.Valid, NaiveBook.OrderBook.View, HandleNew, HandleCancel, HandleModify;
      seqNo := nextSeq;
      nextSeq := Wrap64(nextSeq + 1);
      if c.symbol !in books {
        out := [RejectedEvent(seqNo, c.timestamp, c.symbol, c.orderId, c.trader, InvalidSymbol)];
      } else {
        var book := books[c.symbol];
        match c
        case NewOrder(_, _, _, _, _, _, _, _, _) => out := ProcessNewOrder(book, c, seqNo);
        case CancelOrder(_, _, _, _) => out := ProcessCancel(book, c, seqNo);
        case ModifyOrder(_, _, _, _, _, _) => out := ProcessModify(book, c, seqNo);
      }
      assert State().books == EngineModel.Process(old(State()), c).engine.books;
    }

    /** Every book has sound levels and is filed under its symbol; says nothing of ids. */
    ghost predicate Leveled()
      reads this, books.Values
    {
      forall s :: s in books ==> books[s].Leveled() && books[s].symbol == s
    }

    lemma ValidLeveled()
      requires Valid()
      ensures Leveled()
    {
      hide NaiveBook.OrderBook.Valid, NaiveBook.OrderBook.Leveled;
      forall s | s in books ensures books[s].Leveled() { books[s].ValidLeveled(); }
    }

    /** RestoreOrder: ignored for a symbol that is not registered. */
    method RestoreOrder(symbol: SymbolId, o: Order)
      requires Leveled()
      modifies books.Values
      ensures Leveled()
      ensures State() == Restore(old(State()), symbol, o)
      ensures books == old(books)
      ensures old(Valid()) && (symbol in old(State()).books ==> Locate(old(State()).books[symbol], o.id) == Nowhere) ==> Valid()
    {
      hide NaiveBook.OrderBook.Valid, NaiveBook.OrderBook.Leveled, NaiveBook.OrderBook.View, Insert, Locate;
      if symbol in books {
        books[symbol].RestoreOrder(o);
      }
      assert State().books == Restore(old(State()), symbol, o).books;
    }

    method SetNextSequenceNumber(n: SequenceNumber)
      requires Valid()
      modifies this`nextSeq
      ensures Valid() && State() == old(State()).(nextSeq := n)
    {
      hide NaiveBook.OrderBook.Valid, NaiveBook.OrderBook.View;
      nextSeq := n;
    }
  }

  /** A saved order goes to the back of its level, without matching. */
  function RestoreTo(b: Book, o: Order): Book {
    b.With(o.side, Insert(o.side, b.On(o.side), o))
  }

  function Restore(e: EngineModel.Engine, symbol: SymbolId, o: Order): EngineModel.Engine {
    if symbol in e.books then e.(books := e.books[symbol := RestoreTo(e.books[symbol], o)]) else e
  }
}
