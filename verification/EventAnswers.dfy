/** What the events of one command tell, in terms of the command, the book before it and the book after it. */
module EventAnswers {
  import opened Types
  import opened BookModel
  import opened BookFacts
  import opened EngineModel
  import opened Answers
  import EngineFacts
  import Subscriber

  /** The quantity that the trades among some events report. */
  function Told(es: seq<Event>): nat {
    if es == [] then 0 else (if es[0].TradeEvent? then es[0].trade.quantity else 0) + Told(es[1..])
  }

  lemma {:induction false} ToldNone(es: seq<Event>)
    requires forall i :: 0 <= i < |es| ==> !es[i].TradeEvent?
    ensures Told(es) == 0
  {
    if es != [] { ToldNone(es[1..]); }
  }

  lemma {:induction false} ToldTrades(ts: seq<Trade>, more: seq<Event>)
    requires forall i :: 0 <= i < |more| ==> !more[i].TradeEvent?
    ensures Told(TradeEvents(ts) + more) == TradedSum(ts)
    decreases |ts|
  {
    hide TradeEvents;
    if ts == [] {
      assert TradeEvents(ts) + more == more;
      ToldNone(more);
    } else {
      var es := TradeEvents(ts) + more;
      assert es[0] == TradeEvent(ts[0]) && es[1..] == TradeEvents(ts[1..]) + more;
      ToldTrades(ts[1..], more);
    }
  }

  /** What is left of an order in a book: nothing when it does not rest there. */
  function Left(b: Book, id: OrderId): Quantity {
    match Locate(b, id) case Nowhere => 0 case At(side, i) => b.On(side)[i].remaining
  }

  lemma LeftOf(c: Book, side: Side, o: Order, rest: seq<Order>)
    requires JoinedBy(c, side, o, rest)
    ensures Left(c, o.id) == o.remaining
  {
    hide Locate;
  }

  lemma LeftNone(c: Book, id: OrderId)
    requires !Resting(c, id)
    ensures Left(c, id) == 0 && Locate(c, id) == Nowhere
  {
    hide Locate, Resting;
    LocateResting(c, id);
  }

  // ----- Shape of an answer -----

  /** After its first event an answer has the trades, each with the order that stood at that place, and then updates. */
  ghost predicate ThenTrades(es: seq<Event>, symbol: SymbolId, a: Incoming, facing: seq<Order>, count: nat) {
    && 1 + count <= |es| && count <= |facing|
    && (forall i :: 1 <= i <= count ==> TradeAt(es, i, symbol, a, facing))
    && (forall i :: 1 + count <= i < |es| ==> es[i].BookUpdateEvent?)
  }

  lemma AnswerShape(first: Event, ts: seq<Trade>, us: seq<Event>, es: seq<Event>, symbol: SymbolId, a: Incoming, facing: seq<Order>)
    requires es == [first] + TradeEvents(ts) + us && forall i :: 0 <= i < |us| ==> us[i].BookUpdateEvent?
    requires |ts| <= |facing| && forall i :: 0 <= i < |ts| ==> TradeWith(ts[i], symbol, a, facing[i])
    ensures es[0] == first && ThenTrades(es, symbol, a, facing, |ts|) && Told(es[1..]) == TradedSum(ts)
  {
    hide *;
    AnswerSum(first, ts, us, es);
    AnswerTrades(first, ts, us, es, symbol, a, facing);
  }

  lemma AnswerSum(first: Event, ts: seq<Trade>, us: seq<Event>, es: seq<Event>)
    requires es == [first] + TradeEvents(ts) + us && forall i :: 0 <= i < |us| ==> us[i].BookUpdateEvent?
    ensures es[0] == first && Told(es[1..]) == TradedSum(ts)
  {
    hide Told, TradedSum, TradeEvents;
    assert es[1..] == TradeEvents(ts) + us;
    ToldTrades(ts, us);
  }

  lemma AnswerTrades(first: Event, ts: seq<Trade>, us: seq<Event>, es: seq<Event>, symbol: SymbolId, a: Incoming, facing: seq<Order>)
    requires es == [first] + TradeEvents(ts) + us && forall i :: 0 <= i < |us| ==> us[i].BookUpdateEvent?
    requires |ts| <= |facing| && forall i :: 0 <= i < |ts| ==> TradeWith(ts[i], symbol, a, facing[i])
    ensures ThenTrades(es, symbol, a, facing, |ts|)
  {
    hide TradeWith, TradeEvents, TradeAt;
    forall i | 1 <= i <= |ts| ensures TradeAt(es, i, symbol, a, facing) {
      LaidAt(first, TradeEvents(ts), us, i);
      TradeIsAt(es, i, ts[i - 1], symbol, a, facing);
    }
    forall i | 1 + |ts| <= i < |es| ensures es[i].BookUpdateEvent? {
      LaidAt(first, TradeEvents(ts), us, i);
    }
  }

  ghost predicate TradeAt(es: seq<Event>, i: nat, symbol: SymbolId, a: Incoming, facing: seq<Order>)
    requires 1 <= i < |es| && i <= |facing|
  {
    es[i].TradeEvent? && TradeWith(es[i].trade, symbol, a, facing[i - 1])
  }

  lemma TradeIsAt(es: seq<Event>, i: nat, t: Trade, symbol: SymbolId, a: Incoming, facing: seq<Order>)
    requires 1 <= i < |es| && i <= |facing| && es[i] == TradeEvent(t) && TradeWith(t, symbol, a, facing[i - 1])
    ensures TradeAt(es, i, symbol, a, facing)
  {
  }

  lemma LaidAt(first: Event, xs: seq<Event>, ys: seq<Event>, i: nat)
    requires 1 <= i < |[first] + xs + ys|
    ensures ([first] + xs + ys)[i] == if i <= |xs| then xs[i - 1] else ys[i - 1 - |xs|]
  {
  }

  // ----- A new order -----

  /** Accepted: the command's own fields, what was filled and what is left, and the order resting if anything is. */
  ghost predicate AcceptTells(b: Book, c: Command, n: SequenceNumber, h: Handled)
    requires c.NewOrder?
  {
    && h.events != []
    && h.events[0].AcceptedEvent?
    && (var e := h.events[0];
        && e.seqNo == n && e.timestamp == c.timestamp && e.symbol == c.symbol && e.orderId == c.orderId && e.trader == c.trader
        && e.side == c.side && e.otype == c.otype && e.price == c.price && e.quantity == c.quantity
        && e.filled == Told(h.events[1..]) == Smaller(c.quantity, Reach(c.side, c.otype, c.price, Facing(b, c.side)))
        && e.remaining == Left(h.book, c.orderId)
        && (if c.otype == Limit && c.tif == GoodTillCancel then e.filled + e.remaining == c.quantity else e.remaining == 0)
        && (e.remaining > 0 ==>
              JoinedBy(h.book, c.side, Order(c.orderId, c.trader, b.symbol, n, c.timestamp, c.price, c.quantity, e.remaining, c.side,
                                             Limit, GoodTillCancel, e.status), Own(b, c.side)))
        && e.status == (if e.filled == c.quantity then Filled else if e.remaining == 0 then Cancelled
                        else if e.filled == 0 then New else PartiallyFilled))
  }

  /** A new order is accepted exactly when nothing speaks against it; otherwise the one event names the reason. */
  lemma NewOrderTold(b: Book, c: Command, n: SequenceNumber)
    requires Valid(b) && c.NewOrder?
    ensures var h := Handle(b, c, n);
            if Due(b, c.orderId, c.side, c.otype, c.price, c.quantity, c.tif, NoReason) then
              && AcceptTells(b, c, n, h)
              && exists count :: ThenTrades(h.events, b.symbol,
                   Incoming(c.orderId, c.trader, c.side, c.otype, c.price, c.quantity, c.tif, n, c.timestamp), Facing(b, c.side), count)
            else
              && h.book == b && |h.events| == 1 && h.events[0].RejectedEvent?
              && (var e := h.events[0];
                  && e.seqNo == n && e.timestamp == c.timestamp && e.symbol == c.symbol && e.orderId == c.orderId && e.trader == c.trader
                  && Due(b, c.orderId, c.side, c.otype, c.price, c.quantity, c.tif, e.reason))
  {
    hide Add, Valid, Due, Reach, Resting, JoinedBy, TradedSum, Told, Left, Updates, TradeEvents, TradeWith, ThenTrades;
    var a := Incoming(c.orderId, c.trader, c.side, c.otype, c.price, c.quantity, c.tif, n, c.timestamp);
    assert a == IncomingOf(c, n);
    var s, h := Add(b, Unbounded, a), Handle(b, c, n);
    AddReason(b, a);
    assert DueTo(b, a, s.result.reason) && (DueTo(b, a, NoReason) <==> s.result.accepted);
    if s.result.accepted {
      AddFills(b, a);
      AddLeaves(b, a);
      forall k | 0 <= k < |s.result.trades|
        ensures k < |Facing(b, c.side)| && TradeWith(s.result.trades[k], b.symbol, a, Facing(b, c.side)[k])
      {
        AddTradesSay(b, Unbounded, a, k);
      }
      if s.result.trades != [] { AddTradesSay(b, Unbounded, a, |s.result.trades| - 1); }
      AnswerShape(AcceptedEvent(n, c.timestamp, c.symbol, c.orderId, c.trader, c.side, c.otype, c.price, c.quantity, s.result.filled,
                                s.result.remaining, s.result.status),
                  s.result.trades, Updates(s.book, n, c.timestamp, c.symbol, NewTouched(c, s.result)), h.events, b.symbol, a, Facing(b, c.side));
      if s.result.remaining > 0 {
        LeftOf(s.book, c.side, Order(a.id, a.trader, b.symbol, a.seqNo, a.timestamp, a.price, a.quantity, s.result.remaining, a.side,
                                     Limit, GoodTillCancel, s.result.status), Own(b, c.side));
      } else {
        LeftNone(s.book, c.orderId);
      }
    }
  }

  // ----- A cancel -----

  /** A CancelledEvent appears exactly when the order rested; it names that order's trader, and the order is gone. */
  lemma CancelTold(b: Book, c: Command, n: SequenceNumber)
    requires Valid(b) && c.CancelOrder?
    ensures var h := Handle(b, c, n);
            && ((exists i :: 0 <= i < |h.events| && h.events[i].CancelledEvent?) <==> Resting(b, c.orderId))
            && !Resting(h.book, c.orderId)
            && match Locate(b, c.orderId)
               case Nowhere => h.book == b && h.events == [RejectedEvent(n, c.timestamp, c.symbol, c.orderId, c.trader, UnknownOrder)]
               case At(side, i) =>
                 && h.book == Without(b, side, i) && |h.events| == 2
                 && h.events[0] == CancelledEvent(n, c.timestamp, c.symbol, c.orderId, b.On(side)[i].trader)
                 && h.events[1].BookUpdateEvent?
  {
    hide Valid, Resting, Locate, Updates;
    ValidShaped(b);
    CancelSays(b, c.orderId);
    LocateResting(b, c.orderId);
    var h := Handle(b, c, n);
    match Locate(b, c.orderId)
    case Nowhere => assert h.book == b;
    case At(side, i) =>
      assert h.book == Cancel(b, c.orderId).book;
      assert h.events[0].CancelledEvent?;
  }

  // ----- A modify -----

  /** Modified: the command's fields, what is left of the order, and whether it lost its place. */
  ghost predicate ModifyTells(b: Book, c: Command, n: SequenceNumber, h: Handled, side: Side, o: Order)
    requires c.ModifyOrder?
  {
    && h.events != []
    && h.events[0].ModifiedEvent?
    && (var e := h.events[0];
        && e.seqNo == n && e.timestamp == c.timestamp && e.symbol == c.symbol && e.orderId == c.orderId && e.trader == c.trader
        && e.newPrice == c.newPrice && e.newRemaining == Left(h.book, c.orderId)
        && (e.lostPriority <==> c.newPrice != o.price || c.newQuantity > o.remaining)
        && Told(h.events[1..]) + e.newRemaining == c.newQuantity
        && Told(h.events[1..]) == (if e.lostPriority then Smaller(c.newQuantity, Reach(side, Limit, c.newPrice, Facing(b, side))) else 0))
  }

  lemma ModifyTold(b: Book, c: Command, n: SequenceNumber)
    requires Valid(b) && c.ModifyOrder?
    ensures var h := Handle(b, c, n);
            if Resting(b, c.orderId) && c.newQuantity > 0 && c.newPrice > 0 then
              && Locate(b, c.orderId).At?
              && (var At(side, i) := Locate(b, c.orderId);
                  && ModifyTells(b, c, n, h, side, b.On(side)[i])
                  && exists count :: ThenTrades(h.events, b.symbol,
                       Incoming(c.orderId, b.On(side)[i].trader, side, Limit, c.newPrice, c.newQuantity, GoodTillCancel, n, c.timestamp),
                       Facing(b, side), count))
            else
              && h.book == b
              && h.events == [RejectedEvent(n, c.timestamp, c.symbol, c.orderId, c.trader,
                                            if !Resting(b, c.orderId) then UnknownOrder
                                            else if c.newQuantity == 0 then InvalidQuantity else InvalidPrice)]
  {
    hide Modify, Valid, Locate, Resting, ModifyTells, ThenTrades, Updates, TradeEvents;
    LocateResting(b, c.orderId);
    if Resting(b, c.orderId) && c.newQuantity > 0 && c.newPrice > 0 {
      ModifiedTold(b, c, n);
    } else {
      ModifyRefused(b, Unbounded, c.orderId, c.newPrice, c.newQuantity, n, c.timestamp);
    }
  }

  lemma ModifiedTold(b: Book, c: Command, n: SequenceNumber)
    requires Valid(b) && c.ModifyOrder? && Locate(b, c.orderId).At? && c.newQuantity > 0 && c.newPrice > 0
    ensures var h := Handle(b, c, n);
            var At(side, i) := Locate(b, c.orderId);
            && ModifyTells(b, c, n, h, side, b.On(side)[i])
            && exists count :: ThenTrades(h.events, b.symbol,
                 Incoming(c.orderId, b.On(side)[i].trader, side, Limit, c.newPrice, c.newQuantity, GoodTillCancel, n, c.timestamp),
                 Facing(b, side), count)
  {
    hide Modify, Valid, Locate, Resting, ThenTrades, Updates, TradeEvents, Told, Left, TradeWith, TradedSum, Reach;
    var At(side, i) := Locate(b, c.orderId);
    var o := b.On(side)[i];
    var a := Incoming(c.orderId, o.trader, side, Limit, c.newPrice, c.newQuantity, GoodTillCancel, n, c.timestamp);
    var s, h := Modify(b, Unbounded, c.orderId, c.newPrice, c.newQuantity, n, c.timestamp), Handle(b, c, n);
    PriorityLost(b, Unbounded, c.orderId, c.newPrice, c.newQuantity, n, c.timestamp);
    ModifyCounts(b, c.orderId, c.newPrice, c.newQuantity, n, c.timestamp);
    forall k | 0 <= k < |s.result.trades| ensures k < |Facing(b, side)| && TradeWith(s.result.trades[k], b.symbol, a, Facing(b, side)[k]) {
      ModifyTradesSay(b, Unbounded, c.orderId, c.newPrice, c.newQuantity, n, c.timestamp, k);
    }
    var last := |s.result.trades| - 1;
    if last >= 0 { ModifyTradesSay(b, Unbounded, c.orderId, c.newPrice, c.newQuantity, n, c.timestamp, last); }
    AnswerShape(ModifiedEvent(n, c.timestamp, c.symbol, c.orderId, c.trader, c.newPrice, s.result.remaining, s.result.lostPriority),
                s.result.trades, Updates(s.book, n, c.timestamp, c.symbol, ModifyTouched(c, side, o.price, s.result.trades)),
                h.events, b.symbol, a, Facing(b, side));
  }

  /** Quantities after a modify, whichever way it went. */
  lemma ModifyCounts(b: Book, id: OrderId, p: Price, q: Quantity, n: SequenceNumber, ts: Timestamp)
    requires Valid(b) && Locate(b, id).At? && p > 0 && q > 0
    ensures var At(side, i) := Locate(b, id);
            var Step(c, r) := Modify(b, Unbounded, id, p, q, n, ts);
            && r.remaining == Left(c, id) && TradedSum(r.trades) + r.remaining == q
            && TradedSum(r.trades) == (if r.lostPriority then Smaller(q, Reach(side, Limit, p, Facing(b, side))) else 0)
  {
    hide Modify, Valid, Locate, Resting, JoinedBy, Reach;
    var At(side, i) := Locate(b, id);
    var o := b.On(side)[i];
    var Step(c, r) := Modify(b, Unbounded, id, p, q, n, ts);
    if p == o.price && q <= o.remaining {
      ValidShaped(b);
      EngineFacts.AmendKeepsPlace(b, Unbounded, id, p, q, n, ts);
    } else {
      ReplaceSays(b, Unbounded, id, p, q, n, ts);
      if r.remaining == 0 {
        LeftNone(c, id);
      } else {
        LeftOf(c, side, Order(id, o.trader, b.symbol, n, ts, p, q, r.remaining, side, Limit, GoodTillCancel, r.status), RemoveAt(b.On(side), i));
      }
    }
  }

  // ----- Every event -----

  /** An event carries this sequence number, time and symbol. */
  ghost predicate Stamped(e: Event, n: SequenceNumber, ts: Timestamp, symbol: SymbolId) {
    if e.TradeEvent? then e.trade.seqNo == n && e.trade.timestamp == ts && e.trade.symbol == symbol
    else e.seqNo == n && e.timestamp == ts && e.symbol == symbol
  }

  lemma ThenStamped(es: seq<Event>, a: Incoming, facing: seq<Order>, symbol: SymbolId, i: nat)
    requires exists count :: ThenTrades(es, symbol, a, facing, count)
    requires 0 < i < |es| && !es[i].BookUpdateEvent?
    ensures Stamped(es[i], a.seqNo, a.timestamp, symbol)
  {
    var count :| ThenTrades(es, symbol, a, facing, count);
    assert TradeAt(es, i, symbol, a, facing);
  }

  lemma UpdatesStamped(b: Book, n: SequenceNumber, ts: Timestamp, symbol: SymbolId, touched: seq<Spot>, i: nat)
    requires i < |Updates(b, n, ts, symbol, touched)|
    ensures Stamped(Updates(b, n, ts, symbol, touched)[i], n, ts, symbol)
  {
  }

  /** The command takes the engine's next number, and all its events carry that number and the command's time and symbol. */
  lemma EventsStamped(e: Engine, c: Command, i: nat)
    requires c.symbol in e.books ==> Valid(e.books[c.symbol]) && e.books[c.symbol].symbol == c.symbol
    requires i < |Process(e, c).events|
    ensures Process(e, c).seqNo == e.nextSeq && Stamped(Process(e, c).events[i], e.nextSeq, c.timestamp, c.symbol)
  {
    hide Valid, Handle, Stamped;
    if c.symbol in e.books {
      HandleStamped(e.books[c.symbol], c, e.nextSeq, i);
    } else {
      Refusal(c, e.nextSeq, InvalidSymbol);
    }
  }

  lemma UpdateStamped(es: seq<Event>, b: Book, n: SequenceNumber, ts: Timestamp, symbol: SymbolId, touched: seq<Spot>, i: nat)
    requires Subscriber.Reports(es, b, n, ts, symbol, touched) && i < |es| && es[i].BookUpdateEvent?
    ensures Stamped(es[i], n, ts, symbol)
  {
    hide Updates, Stamped;
    var head: seq<Event> :| es == head + Updates(b, n, ts, symbol, touched) && forall i :: 0 <= i < |head| ==> !head[i].BookUpdateEvent?;
    UpdatesStamped(b, n, ts, symbol, touched, i - |head|);
  }

  lemma NewStamped(b: Book, c: Command, n: SequenceNumber, i: nat)
    requires Valid(b) && b.symbol == c.symbol && c.NewOrder? && i < |Handle(b, c, n).events| && !Handle(b, c, n).events[i].BookUpdateEvent?
    ensures Stamped(Handle(b, c, n).events[i], n, c.timestamp, c.symbol)
  {
    hide Valid, Handle, ThenTrades, Due, Told, Left, Reach, JoinedBy;
    NewOrderTold(b, c, n);
    if i > 0 {
      var a := Incoming(c.orderId, c.trader, c.side, c.otype, c.price, c.quantity, c.tif, n, c.timestamp);
      ThenStamped(Handle(b, c, n).events, a, Facing(b, c.side), c.symbol, i);
    }
  }

  lemma ModifyStamped(b: Book, c: Command, n: SequenceNumber, i: nat)
    requires Valid(b) && b.symbol == c.symbol && c.ModifyOrder? && i < |Handle(b, c, n).events| && !Handle(b, c, n).events[i].BookUpdateEvent?
    ensures Stamped(Handle(b, c, n).events[i], n, c.timestamp, c.symbol)
  {
    hide Valid, Handle, ThenTrades, Resting, Locate, Told, Left, Reach;
    ModifyTold(b, c, n);
    if i > 0 {
      var At(side, j) := Locate(b, c.orderId);
      var a := Incoming(c.orderId, b.On(side)[j].trader, side, Limit, c.newPrice, c.newQuantity, GoodTillCancel, n, c.timestamp);
      ThenStamped(Handle(b, c, n).events, a, Facing(b, side), c.symbol, i);
    }
  }

  lemma HandleStamped(b: Book, c: Command, n: SequenceNumber, i: nat)
    requires Valid(b) && b.symbol == c.symbol && i < |Handle(b, c, n).events|
    ensures Stamped(Handle(b, c, n).events[i], n, c.timestamp, c.symbol)
  {
    hide Valid, Handle, Resting, Locate, Subscriber.Touched, Subscriber.Reports;
    var es := Handle(b, c, n).events;
    if es[i].BookUpdateEvent? {
      Subscriber.HandleReports(b, c, n);
      UpdateStamped(es, Handle(b, c, n).book, n, c.timestamp, c.symbol, Subscriber.Touched(b, c, n), i);
    } else {
      match c
      case NewOrder(_, _, _, _, _, _, _, _, _) => NewStamped(b, c, n, i);
      case CancelOrder(_, _, _, _) => CancelTold(b, c, n);
      case ModifyOrder(_, _, _, _, _, _) => ModifyStamped(b, c, n, i);
    }
  }

  lemma Refusal(c: Command, n: SequenceNumber, reason: RejectReason)
    ensures Stamped(RejectedEvent(n, c.timestamp, c.symbol, c.orderId, c.trader, reason), n, c.timestamp, c.symbol)
  {
  }

  /** A command for a symbol the engine does not have: one rejection, no book touched, and a number used up. */
  lemma UnknownSymbolTold(e: Engine, c: Command)
    requires c.symbol !in e.books
    ensures var p := Process(e, c);
            && p.events == [RejectedEvent(e.nextSeq, c.timestamp, c.symbol, c.orderId, c.trader, InvalidSymbol)]
            && p.engine.books == e.books && p.engine.nextSeq == Wrap64(e.nextSeq + 1)
  {
  }
}
