/** Which bytes hold which field, at fixed places, independently of any reader. */
module WireLayout {
  import opened Types
  import opened BookModel
  import opened Codec
  import opened Protocol
  import Snapshot
  import SnapshotFile
  import Partitions
  import EngineModel

  /** The `n` bytes at `at` are the little-endian number `v`. */
  ghost predicate Has(body: seq<U8>, at: nat, n: nat, v: nat) {
    at + n <= |body| && Value(body[at..at + n]) == v
  }

  lemma WidthNext(ws: seq<nat>, k: nat)
    requires k < |ws|
    ensures TotalWidth(ws[..k + 1]) == TotalWidth(ws[..k]) + ws[k]
    decreases k
  {
    if k > 0 {
      WidthNext(ws[1..], k - 1);
      assert ws[..k + 1][1..] == ws[1..][..k] && ws[..k][1..] == ws[1..][..k - 1];
    }
  }

  lemma WidthNone(ws: seq<nat>)
    ensures TotalWidth(ws[..0]) == 0
  {
  }

  lemma WidthCons(ws: seq<nat>, k: nat)
    requires 0 < k <= |ws|
    ensures TotalWidth(ws[..k]) == ws[0] + TotalWidth(ws[1..][..k - 1])
  {
    assert ws[..k][1..] == ws[1..][..k - 1];
  }

  lemma Shift(front: seq<U8>, rest: seq<U8>, at: nat, n: nat)
    requires at + n <= |rest|
    ensures (front + rest)[|front| + at..|front| + at + n] == rest[at..at + n]
  {
  }

  /** The k-th field starts where the fields before it end. */
  lemma {:induction false} FieldAt(ws: seq<nat>, vs: seq<nat>, k: nat)
    requires Fit(ws, vs) && k < |ws|
    ensures Has(WriteFields(ws, vs), TotalWidth(ws[..k]), ws[k], vs[k])
    decreases |ws|
  {
    hide LE, Value, Pow256, TotalWidth;
    var head, tail := LE(ws[0], vs[0]), WriteFields(ws[1..], vs[1..]);
    if k == 0 {
      ValueOfLE(ws[0], vs[0]);
      WidthNone(ws);
      assert (head + tail)[0..0 + ws[0]] == head;
    } else {
      FieldAt(ws[1..], vs[1..], k - 1);
      WidthCons(ws, k);
      Shift(head, tail, TotalWidth(ws[1..][..k - 1]), ws[k]);
    }
  }

  /** One field of a body, after `front` bytes, and where the next one starts. */
  lemma Next(body: seq<U8>, front: seq<U8>, ws: seq<nat>, vs: seq<nat>, k: nat, at: nat)
    requires Fit(ws, vs) && body == front + WriteFields(ws, vs) && k < |ws| && at == |front| + TotalWidth(ws[..k])
    ensures Has(body, at, ws[k], vs[k]) && at + ws[k] == |front| + TotalWidth(ws[..k + 1])
  {
    hide *;
    FieldAt(ws, vs, k);
    WidthNext(ws, k);
    FitCount(ws, vs);
    HasAfter(front, WriteFields(ws, vs), TotalWidth(ws[..k]), ws[k], vs[k]);
  }

  lemma HasAfter(front: seq<U8>, rest: seq<U8>, at: nat, n: nat, v: nat)
    requires Has(rest, at, n, v)
    ensures Has(front + rest, |front| + at, n, v)
  {
    hide Value;
    Shift(front, rest, at, n);
  }

  lemma FitCount(ws: seq<nat>, vs: seq<nat>)
    requires Fit(ws, vs)
    ensures |ws| == |vs|
  {
  }

  lemma First(body: seq<U8>, front: seq<U8>, ws: seq<nat>, vs: seq<nat>)
    requires Fit(ws, vs) && body == front + WriteFields(ws, vs) && ws != []
    ensures Has(body, |front|, ws[0], vs[0]) && |front| + ws[0] == |front| + TotalWidth(ws[..1])
  {
    hide WriteFields, Value, Fit, Has;
    FitCount(ws, vs);
    Next(body, front, ws, vs, 0, |front|);
  }

  /** Signed prices travel in two's complement. */
  lemma TwosComplement(p: I64)
    ensures AsU64(p) == Wrap64(p)
  {
  }

  // ----- Commands -----

  /** The documented layout of each command. */
  ghost predicate CommandAt(c: WireCommand, body: seq<U8>) {
    match c
    case WireNew(orderId, trader, symbol, side, otype, tif, price, quantity, timestamp) =>
      && |body| == 48 && body[0] == 0x01 && Has(body, 1, 8, orderId) && Has(body, 9, 8, trader) && Has(body, 17, 4, symbol)
      && Has(body, 21, 1, side) && Has(body, 22, 1, otype) && Has(body, 23, 1, tif)
      && Has(body, 24, 8, Wrap64(price)) && Has(body, 32, 8, quantity) && Has(body, 40, 8, timestamp)
    case WireCancel(orderId, trader, symbol, timestamp) =>
      && |body| == 29 && body[0] == 0x02 && Has(body, 1, 8, orderId) && Has(body, 9, 8, trader) && Has(body, 17, 4, symbol)
      && Has(body, 21, 8, timestamp)
    case WireModify(orderId, trader, symbol, newPrice, newQuantity, timestamp) =>
      && |body| == 45 && body[0] == 0x03 && Has(body, 1, 8, orderId) && Has(body, 9, 8, trader) && Has(body, 17, 4, symbol)
      && Has(body, 21, 8, Wrap64(newPrice)) && Has(body, 29, 8, newQuantity) && Has(body, 37, 8, timestamp)
  }

  lemma CommandBytes(c: WireCommand)
    ensures CommandAt(c, EncodeCommand(c))
  {
    hide WriteFields, Fit, Has, TotalWidth, Wrap64, AsU64;
    CommandSize(c);
    CommandFits(c);
    var t, ws, vs, body := CommandType(c), CommandLayout(CommandType(c)).value, CommandFields(c), EncodeCommand(c);
    First(body, [t], ws, vs);
    Next(body, [t], ws, vs, 1, 9); Next(body, [t], ws, vs, 2, 17);
    match c {
      case WireNew(_, _, _, _, _, _, price, _, _) =>
        TwosComplement(price);
        Next(body, [t], ws, vs, 3, 21); Next(body, [t], ws, vs, 4, 22); Next(body, [t], ws, vs, 5, 23);
        Next(body, [t], ws, vs, 6, 24); Next(body, [t], ws, vs, 7, 32); Next(body, [t], ws, vs, 8, 40);
      case WireCancel(_, _, _, _) =>
        Next(body, [t], ws, vs, 3, 21);
      case WireModify(_, _, _, newPrice, _, _) =>
        TwosComplement(newPrice);
        Next(body, [t], ws, vs, 3, 21); Next(body, [t], ws, vs, 4, 29); Next(body, [t], ws, vs, 5, 37);
    }
  }

  /** The three enum bytes of an engine's new order. */
  lemma EnumBytes(c: EngineModel.Command)
    requires c.NewOrder?
    ensures var body := EncodeCommand(ToWire(c));
            && Has(body, 21, 1, if c.side == Buy then 0 else 1)
            && Has(body, 22, 1, if c.otype == Limit then 0 else 1)
            && Has(body, 23, 1, match c.tif case GoodTillCancel => 0 case ImmediateOrCancel => 1 case FillOrKill => 2)
  {
    hide EncodeCommand, Has;
    CommandBytes(ToWire(c));
  }

  // ----- Events -----

  /** Type byte and head of every event. */
  ghost predicate HeadAt(body: seq<U8>, t: U8, n: SequenceNumber, ts: Timestamp, symbol: SymbolId) {
    body != [] && body[0] == t && Has(body, 1, 8, n) && Has(body, 9, 8, ts) && Has(body, 17, 4, symbol)
  }

  /** The documented layout of each event. */
  ghost predicate EventAt(e: WireEvent, body: seq<U8>) {
    match e
    case WireAccepted(n, ts, symbol, orderId, trader, side, otype, price, quantity, filled, remaining, status) =>
      && HeadAt(body, 0x81, n, ts, symbol) && Has(body, 21, 8, orderId) && Has(body, 29, 8, trader)
      && Has(body, 37, 1, side) && Has(body, 38, 1, otype) && Has(body, 39, 8, Wrap64(price)) && Has(body, 47, 8, quantity)
      && Has(body, 55, 8, filled) && Has(body, 63, 8, remaining) && Has(body, 71, 1, status)
    case WireRejected(n, ts, symbol, orderId, trader, reason) =>
      HeadAt(body, 0x82, n, ts, symbol) && Has(body, 21, 8, orderId) && Has(body, 29, 8, trader) && Has(body, 37, 1, reason)
    case WireCancelled(n, ts, symbol, orderId, trader) =>
      HeadAt(body, 0x83, n, ts, symbol) && Has(body, 21, 8, orderId) && Has(body, 29, 8, trader)
    case WireModified(n, ts, symbol, orderId, trader, newPrice, newRemaining, lostPriority) =>
      && HeadAt(body, 0x84, n, ts, symbol) && Has(body, 21, 8, orderId) && Has(body, 29, 8, trader)
      && Has(body, 37, 8, Wrap64(newPrice)) && Has(body, 45, 8, newRemaining) && Has(body, 53, 1, if lostPriority then 1 else 0)
    case WireTrade(n, ts, symbol, aggressor, resting, aggressorTrader, restingTrader, side, price, quantity) =>
      && HeadAt(body, 0x85, n, ts, symbol) && Has(body, 21, 8, aggressor) && Has(body, 29, 8, resting)
      && Has(body, 37, 8, aggressorTrader) && Has(body, 45, 8, restingTrader) && Has(body, 53, 1, side)
      && Has(body, 54, 8, Wrap64(price)) && Has(body, 62, 8, quantity)
    case WireBookUpdate(n, ts, symbol, side, price, aggregate) =>
      && HeadAt(body, 0x86, n, ts, symbol) && Has(body, 21, 1, side) && Has(body, 22, 8, Wrap64(price)) && Has(body, 30, 8, aggregate)
  }

  lemma AcceptedBytes(e: WireEvent)
    requires e.WireAccepted?
    ensures EventAt(e, EncodeEvent(e))
  {
    hide WriteFields, Fit, Has, TotalWidth, Wrap64, AsU64;
    EventFits(e);
    var t, ws, vs, body := EventType(e), EventLayout(EventType(e)).value, EventFields(e), EncodeEvent(e);
    First(body, [t], ws, vs);
    Next(body, [t], ws, vs, 1, 9); Next(body, [t], ws, vs, 2, 17);
    TwosComplement(e.price);
    Next(body, [t], ws, vs, 3, 21);
    Next(body, [t], ws, vs, 4, 29);
    Next(body, [t], ws, vs, 5, 37);
    Next(body, [t], ws, vs, 6, 38);
    Next(body, [t], ws, vs, 7, 39);
    Next(body, [t], ws, vs, 8, 47);
    Next(body, [t], ws, vs, 9, 55);
    Next(body, [t], ws, vs, 10, 63);
    Next(body, [t], ws, vs, 11, 71);
  }

  lemma RejectedBytes(e: WireEvent)
    requires e.WireRejected?
    ensures EventAt(e, EncodeEvent(e))
  {
    hide WriteFields, Fit, Has, TotalWidth, Wrap64, AsU64;
    EventFits(e);
    var t, ws, vs, body := EventType(e), EventLayout(EventType(e)).value, EventFields(e), EncodeEvent(e);
    First(body, [t], ws, vs);
    Next(body, [t], ws, vs, 1, 9); Next(body, [t], ws, vs, 2, 17);
    Next(body, [t], ws, vs, 3, 21);
    Next(body, [t], ws, vs, 4, 29);
    Next(body, [t], ws, vs, 5, 37);
  }

  lemma CancelledBytes(e: WireEvent)
    requires e.WireCancelled?
    ensures EventAt(e, EncodeEvent(e))
  {
    hide WriteFields, Fit, Has, TotalWidth, Wrap64, AsU64;
    EventFits(e);
    var t, ws, vs, body := EventType(e), EventLayout(EventType(e)).value, EventFields(e), EncodeEvent(e);
    First(body, [t], ws, vs);
    Next(body, [t], ws, vs, 1, 9); Next(body, [t], ws, vs, 2, 17);
    Next(body, [t], ws, vs, 3, 21);
    Next(body, [t], ws, vs, 4, 29);
  }

  lemma ModifiedBytes(e: WireEvent)
    requires e.WireModified?
    ensures EventAt(e, EncodeEvent(e))
  {
    hide WriteFields, Fit, Has, TotalWidth, Wrap64, AsU64;
    EventFits(e);
    var t, ws, vs, body := EventType(e), EventLayout(EventType(e)).value, EventFields(e), EncodeEvent(e);
    First(body, [t], ws, vs);
    Next(body, [t], ws, vs, 1, 9); Next(body, [t], ws, vs, 2, 17);
    TwosComplement(e.newPrice);
    Next(body, [t], ws, vs, 3, 21);
    Next(body, [t], ws, vs, 4, 29);
    Next(body, [t], ws, vs, 5, 37);
    Next(body, [t], ws, vs, 6, 45);
    Next(body, [t], ws, vs, 7, 53);
  }

  lemma TradeBytes(e: WireEvent)
    requires e.WireTrade?
    ensures EventAt(e, EncodeEvent(e))
  {
    hide WriteFields, Fit, Has, TotalWidth, Wrap64, AsU64;
    EventFits(e);
    var t, ws, vs, body := EventType(e), EventLayout(EventType(e)).value, EventFields(e), EncodeEvent(e);
    First(body, [t], ws, vs);
    Next(body, [t], ws, vs, 1, 9); Next(body, [t], ws, vs, 2, 17);
    TwosComplement(e.price);
    Next(body, [t], ws, vs, 3, 21);
    Next(body, [t], ws, vs, 4, 29);
    Next(body, [t], ws, vs, 5, 37);
    Next(body, [t], ws, vs, 6, 45);
    Next(body, [t], ws, vs, 7, 53);
    Next(body, [t], ws, vs, 8, 54);
    Next(body, [t], ws, vs, 9, 62);
  }

  lemma BookUpdateBytes(e: WireEvent)
    requires e.WireBookUpdate?
    ensures EventAt(e, EncodeEvent(e))
  {
    hide WriteFields, Fit, Has, TotalWidth, Wrap64, AsU64;
    EventFits(e);
    var t, ws, vs, body := EventType(e), EventLayout(EventType(e)).value, EventFields(e), EncodeEvent(e);
    First(body, [t], ws, vs);
    Next(body, [t], ws, vs, 1, 9); Next(body, [t], ws, vs, 2, 17);
    TwosComplement(e.price);
    Next(body, [t], ws, vs, 3, 21);
    Next(body, [t], ws, vs, 4, 22);
    Next(body, [t], ws, vs, 5, 30);
  }

  lemma EventBytes(e: WireEvent)
    ensures EventAt(e, EncodeEvent(e))
  {
    hide *;
    match e
    case WireAccepted(_, _, _, _, _, _, _, _, _, _, _, _) => AcceptedBytes(e);
    case WireRejected(_, _, _, _, _, _) => RejectedBytes(e);
    case WireCancelled(_, _, _, _, _) => CancelledBytes(e);
    case WireModified(_, _, _, _, _, _, _, _) => ModifiedBytes(e);
    case WireTrade(_, _, _, _, _, _, _, _, _, _) => TradeBytes(e);
    case WireBookUpdate(_, _, _, _, _, _) => BookUpdateBytes(e);
  }

  // ----- Snapshots -----

  lemma OrderBytes(o: Order)
    ensures var r := Snapshot.WriteOrder(o);
            && Has(r, 0, 8, o.id) && Has(r, 8, 8, o.trader) && Has(r, 16, 4, o.symbol) && Has(r, 20, 8, o.seqNo)
            && Has(r, 28, 8, o.timestamp) && Has(r, 36, 8, Wrap64(o.price)) && Has(r, 44, 8, o.quantity) && Has(r, 52, 8, o.remaining)
            && Has(r, 60, 1, if o.side == Buy then 0 else 1) && Has(r, 61, 1, if o.otype == Limit then 0 else 1)
            && Has(r, 62, 1, match o.tif case GoodTillCancel => 0 case ImmediateOrCancel => 1 case FillOrKill => 2)
            && Has(r, 63, 1, match o.status case New => 0 case PartiallyFilled => 1 case Filled => 2 case Cancelled => 3 case Rejected => 4)
  {
    hide WriteFields, Fit, Has, TotalWidth, Wrap64, AsU64;
    var ws, vs, r := Snapshot.ORDER_LAYOUT, Snapshot.OrderFields(o), Snapshot.WriteOrder(o);
    Snapshot.OrderFits(o);
    TwosComplement(o.price);
    assert r == [] + WriteFields(ws, vs);
    First(r, [], ws, vs);
    Next(r, [], ws, vs, 1, 8); Next(r, [], ws, vs, 2, 16); Next(r, [], ws, vs, 3, 20); Next(r, [], ws, vs, 4, 28);
    Next(r, [], ws, vs, 5, 36); Next(r, [], ws, vs, 6, 44); Next(r, [], ws, vs, 7, 52); Next(r, [], ws, vs, 8, 60);
    Next(r, [], ws, vs, 9, 61); Next(r, [], ws, vs, 10, 62); Next(r, [], ws, vs, 11, 63);
  }

  lemma HasFirst(n: nat, v: nat, rest: seq<U8>)
    requires v < Pow256(n)
    ensures Has(LE(n, v) + rest, 0, n, v)
  {
    hide LE, Value, Pow256;
    ValueOfLE(n, v);
    assert (LE(n, v) + rest)[0..0 + n] == LE(n, v);
  }

  /** The file begins with MESN, version 1 and the number of partitions. */
  lemma SnapshotHeader(c: Partitions.Cluster, names: seq<seq<SymbolId>>)
    requires Snapshot.ListsAll(names, c.parts) && |c.parts| < 0x1_0000_0000
    ensures var data := Snapshot.WriteSnapshot(c, names);
            data[..4] == [0x4D, 0x45, 0x53, 0x4E] && data[4] == 1 && Has(data, 5, 4, |c.parts|)
  {
    hide LE, Snapshot.WriteParts, Has, Snapshot.ListsAll, Pow256;
    Widths();
    var rest := LE(4, |c.parts|) + Snapshot.WriteParts(c.parts, names);
    HasFirst(4, |c.parts|, Snapshot.WriteParts(c.parts, names));
    HasAfter(Snapshot.MAGIC + [Snapshot.VERSION], rest, 0, 4, |c.parts|);
    Associate(Snapshot.MAGIC, [Snapshot.VERSION], rest);
  }

  /** A partition begins with its sequence counter and the number of its books. */
  lemma PartHeader(e: EngineModel.Engine, names: seq<SymbolId>)
    requires (forall i :: 0 <= i < |names| ==> names[i] in e.books) && |names| < 0x1_0000_0000
    ensures Has(Snapshot.WritePart(e, names), 0, 8, e.nextSeq) && Has(Snapshot.WritePart(e, names), 8, 4, |names|)
  {
    hide LE, Snapshot.WriteBooks, Has, Pow256;
    Widths();
    var rest := LE(4, |names|) + Snapshot.WriteBooks(e.books, names);
    HasFirst(8, e.nextSeq, rest);
    HasFirst(4, |names|, Snapshot.WriteBooks(e.books, names));
    HasAfter(LE(8, e.nextSeq), rest, 0, 4, |names|);
  }

  /** A book begins with its symbol and the number of its orders. */
  lemma BookHeader(s: SymbolId, b: Book)
    requires b.Count() < 0x1_0000_0000
    ensures Has(Snapshot.WriteBook(s, b), 0, 4, s) && Has(Snapshot.WriteBook(s, b), 4, 4, b.Count())
  {
    hide LE, Snapshot.WriteOrders, Has, Pow256;
    Widths();
    var rest := LE(4, b.Count()) + Snapshot.WriteOrders(b.bids + b.asks);
    HasFirst(4, s, rest);
    HasFirst(4, b.Count(), Snapshot.WriteOrders(b.bids + b.asks));
    HasAfter(LE(4, s), rest, 0, 4, b.Count());
  }

  /** Then come the records, bids first, 64 bytes each. */
  lemma BookRecords(s: SymbolId, b: Book, k: nat)
    requires k < |b.bids| + |b.asks|
    ensures var data := Snapshot.WriteBook(s, b);
            && 8 + 64 * k + 64 <= |data|
            && data[8 + 64 * k..8 + 64 * k + 64] == Snapshot.WriteOrder(if k < |b.bids| then b.bids[k] else b.asks[k - |b.bids|])
  {
    hide *;
    var os := b.bids + b.asks;
    var front := LE(4, s) + LE(4, b.Count());
    RecordAt(os, k);
    AfterHeader(s, b);
    Shift(front, Snapshot.WriteOrders(os), 64 * k, 64);
  }

  lemma AfterHeader(s: SymbolId, b: Book)
    ensures Snapshot.WriteBook(s, b) == LE(4, s) + LE(4, b.Count()) + Snapshot.WriteOrders(b.bids + b.asks)
  {
    hide LE, Snapshot.WriteOrders;
    Associate(LE(4, s), LE(4, b.Count()), Snapshot.WriteOrders(b.bids + b.asks));
  }

  lemma {:induction false} RecordAt(os: seq<Order>, k: nat)
    requires k < |os|
    ensures 64 * k + 64 <= |Snapshot.WriteOrders(os)|
    ensures Snapshot.WriteOrders(os)[64 * k..64 * k + 64] == Snapshot.WriteOrder(os[k])
    decreases |os|
  {
    hide Snapshot.WriteOrder, TotalWidth;
    SnapshotFile.OrderWidth();
    var head, tail := Snapshot.WriteOrder(os[0]), Snapshot.WriteOrders(os[1..]);
    if k > 0 {
      RecordAt(os[1..], k - 1);
      Shift(head, tail, 64 * (k - 1), 64);
    } else {
      assert (head + tail)[0..64] == head;
    }
  }
}
