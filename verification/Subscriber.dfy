/** A market-data subscriber that sees only BookUpdate events holds the book's levels, command by command. */
module Subscriber {
  import opened Types
  import opened BookModel
  import opened BookFacts
  import opened EngineModel
  import Levels

  datatype Key = Key(symbol: SymbolId, side: Side, price: Price)

  type LevelView = map<Key, Quantity>

  /** An update with aggregate 0 removes the level, any other sets it. */
  function Note(v: LevelView, e: Event): LevelView {
    if !e.BookUpdateEvent? then v
    else if e.aggregate == 0 then v - {Key(e.symbol, e.side, e.price)}
    else v[Key(e.symbol, e.side, e.price) := e.aggregate]
  }

  function NoteAll(v: LevelView, es: seq<Event>): LevelView
    decreases |es|
  {
    if es == [] then v else NoteAll(Note(v, es[0]), es[1..])
  }

  function Shown(v: LevelView, k: Key): Quantity {
    if k in v then v[k] else 0
  }

  function Quoted(e: Engine, k: Key): Quantity {
    if k.symbol in e.books then QuantityAt(e.books[k.symbol], k.side, k.price) else 0
  }

  ghost predicate Mirrors(v: LevelView, e: Engine) {
    && (forall k :: Shown(v, k) == Quoted(e, k))
    && (forall k :: k in v ==> v[k] != 0)
  }

  // ----- Reading a run of updates -----

  lemma {:induction false} NoteConcat(v: LevelView, a: seq<Event>, b: seq<Event>)
    ensures NoteAll(v, a + b) == NoteAll(NoteAll(v, a), b)
    decreases |a|
  {
    if a == [] {
      assert a + b == b;
    } else {
      assert (a + b)[1..] == a[1..] + b;
      NoteConcat(Note(v, a[0]), a[1..], b);
    }
  }

  lemma {:induction false} NoteOthers(v: LevelView, es: seq<Event>)
    requires forall i :: 0 <= i < |es| ==> !es[i].BookUpdateEvent?
    ensures NoteAll(v, es) == v
    decreases |es|
  {
    if es != [] { NoteOthers(v, es[1..]); }
  }

  /** After the updates of one command the view shows the new quantity at each touched level, and no other change. */
  lemma {:induction false} NoteUpdates(v: LevelView, b: Book, n: SequenceNumber, ts: Timestamp, symbol: SymbolId,
                                       touched: seq<Spot>, k: Key)
    ensures var w := NoteAll(v, Updates(b, n, ts, symbol, touched));
            Shown(w, k) == if k.symbol == symbol && Spot(k.side, k.price) in touched
                           then QuantityAt(b, k.side, k.price) else Shown(v, k)
    decreases |touched|
  {
    hide QuantityAt;
    var es := Updates(b, n, ts, symbol, touched);
    if touched != [] {
      assert es[1..] == Updates(b, n, ts, symbol, touched[1..]);
      NoteUpdates(Note(v, es[0]), b, n, ts, symbol, touched[1..], k);
      assert touched == [touched[0]] + touched[1..];
    }
  }

  lemma {:induction false} NoteKeepsNonZero(v: LevelView, es: seq<Event>)
    requires forall k :: k in v ==> v[k] != 0
    ensures forall k :: k in NoteAll(v, es) ==> NoteAll(v, es)[k] != 0
    decreases |es|
  {
    if es != [] { NoteKeepsNonZero(Note(v, es[0]), es[1..]); }
  }

  // ----- What is touched -----

  lemma {:induction false} TouchTradesHolds(touched: seq<Spot>, side: Side, trades: seq<Trade>)
    ensures var t := TouchTrades(touched, side, trades);
            && (forall s :: s in touched ==> s in t)
            && (forall i :: 0 <= i < |trades| ==> Spot(side, trades[i].price) in t)
    decreases |trades|
  {
    if trades != [] {
      var u := AddTouched(touched, Spot(side, trades[0].price));
      TouchTradesHolds(u, side, trades[1..]);
      forall i | 0 <= i < |trades| ensures Spot(side, trades[i].price) in TouchTrades(touched, side, trades) {
        if i > 0 { assert trades[1..][i - 1] == trades[i]; }
      }
    }
  }

  ghost predicate NoRepeats(touched: seq<Spot>) {
    forall i, j :: 0 <= i < j < |touched| ==> touched[i] != touched[j]
  }

  lemma {:induction false} TouchTradesNoRepeats(touched: seq<Spot>, side: Side, trades: seq<Trade>)
    requires NoRepeats(touched)
    ensures NoRepeats(TouchTrades(touched, side, trades))
    decreases |trades|
  {
    if trades != [] {
      TouchTradesNoRepeats(AddTouched(touched, Spot(side, trades[0].price)), side, trades[1..]);
    }
  }

  // ----- What is not touched does not change -----

  lemma {:induction false} FillSumAt(symbol: SymbolId, a: Incoming, s: seq<Order>, q: Quantity, p: Price)
    requires var ts := Fill(symbol, a, s, q).trades; forall i :: 0 <= i < |ts| ==> ts[i].price != p
    ensures SumAt(Fill(symbol, a, s, q).rest, p) == SumAt(s, p)
  {
    var f := Fill(symbol, a, s, q);
    if s == [] || q == 0 || !Crosses(a, s[0].price) {
    } else {
      var t := Min(q, s[0].remaining);
      assert f.trades[0].price == s[0].price;
      if t == s[0].remaining {
        var g := Fill(symbol, a, s[1..], q - t);
        forall i | 0 <= i < |g.trades| ensures g.trades[i].price != p { assert f.trades[i + 1] == g.trades[i]; }
        FillSumAt(symbol, a, s[1..], q - t, p);
      } else {
        assert f.rest[1..] == s[1..];
      }
    }
  }

  lemma InsertSumAt(side: Side, s: seq<Order>, o: Order, p: Price)
    requires o.price != p
    ensures SumAt(Insert(side, s, o), p) == SumAt(s, p)
  {
    var k := InsertPos(side, s, o.price);
    Levels.SumAtConcat(s[..k] + [o], s[k..], p);
    Levels.SumAtConcat(s[..k], [o], p);
    Levels.SumAtConcat(s[..k], s[k..], p);
    assert s == s[..k] + s[k..];
    Levels.SumAtUniform([o], p);
  }

  lemma RemoveSumAt(s: seq<Order>, i: nat, p: Price)
    requires i < |s| && s[i].price != p
    ensures SumAt(RemoveAt(s, i), p) == SumAt(s, p)
  {
    Levels.SumAtConcat(s[..i], s[i + 1..], p);
    Levels.SumAtConcat(s[..i] + [s[i]], s[i + 1..], p);
    Levels.SumAtConcat(s[..i], [s[i]], p);
    assert s == s[..i] + [s[i]] + s[i + 1..];
    Levels.SumAtUniform([s[i]], p);
  }

  lemma UpdateSumAt(s: seq<Order>, i: nat, o: Order, p: Price)
    requires i < |s| && s[i].price != p && o.price == s[i].price
    ensures SumAt(s[i := o], p) == SumAt(s, p)
  {
    RemoveSumAt(s, i, p);
    RemoveSumAt(s[i := o], i, p);
    assert RemoveAt(s[i := o], i) == RemoveAt(s, i);
  }

  /** An add changes the quantity only at prices it traded at, and where it came to rest. */
  lemma AddElsewhere(b: Book, cap: Capacity, a: Incoming, side: Side, p: Price)
    requires var r := Add(b, cap, a).result;
             && (side == Opposite(a.side) ==> forall i :: 0 <= i < |r.trades| ==> r.trades[i].price != p)
             && (side == a.side ==> r.remaining == 0 || p != a.price)
    ensures QuantityAt(Add(b, cap, a).book, side, p) == QuantityAt(b, side, p)
  {
    hide Fill, Screen, SumAt, Insert, Wrap64;
    if Screen(b, a) == NoReason {
      var s := b.On(Opposite(a.side));
      var f := Fill(b.symbol, a, s, a.quantity);
      if side == Opposite(a.side) {
        FillSumAt(b.symbol, a, s, a.quantity, p);
      } else if CanRest(a, f.left) && Add(b, cap, a).result.remaining > 0 {
        InsertSumAt(a.side, b.On(a.side), RestingOrder(b.symbol, a, f.left), p);
      }
    }
  }

  lemma WithoutElsewhere(b: Book, side: Side, i: nat, side2: Side, p: Price)
    requires i < |b.On(side)| && (side2 != side || p != b.On(side)[i].price)
    ensures QuantityAt(Without(b, side, i), side2, p) == QuantityAt(b, side2, p)
  {
    hide SumAt, Wrap64;
    if side2 == side { RemoveSumAt(b.On(side), i, p); }
  }

  // ----- One command -----

  /** The command's events are one report, then trades, then the updates of the touched levels. */
  ghost predicate Reports(es: seq<Event>, b: Book, n: SequenceNumber, ts: Timestamp, symbol: SymbolId, touched: seq<Spot>) {
    exists head: seq<Event> ::
      es == head + Updates(b, n, ts, symbol, touched) && forall i :: 0 <= i < |head| ==> !head[i].BookUpdateEvent?
  }

  lemma ReportsMirror(v: LevelView, es: seq<Event>, b: Book, n: SequenceNumber, ts: Timestamp, symbol: SymbolId,
                      touched: seq<Spot>, k: Key)
    requires Reports(es, b, n, ts, symbol, touched)
    ensures Shown(NoteAll(v, es), k) == if k.symbol == symbol && Spot(k.side, k.price) in touched
                                        then QuantityAt(b, k.side, k.price) else Shown(v, k)
  {
    hide QuantityAt;
    var head: seq<Event> :| es == head + Updates(b, n, ts, symbol, touched) && forall i :: 0 <= i < |head| ==> !head[i].BookUpdateEvent?;
    NoteConcat(v, head, Updates(b, n, ts, symbol, touched));
    NoteOthers(v, head);
    NoteUpdates(v, b, n, ts, symbol, touched, k);
  }

  /** Which levels the engine reports for a command on book `b`. */
  function Touched(b: Book, c: Command, n: SequenceNumber): seq<Spot> {
    match c
    case NewOrder(_, _, _, _, _, _, _, _, _) =>
      var r := Add(b, Unbounded, IncomingOf(c, n)).result;
      if r.accepted then NewTouched(c, r) else []
    case CancelOrder(_, _, _, _) =>
      (match Locate(b, c.orderId)
       case Nowhere => []
       case At(side, i) => [Spot(side, b.On(side)[i].price)])
    case ModifyOrder(_, _, _, _, _, _) =>
      match Locate(b, c.orderId)
      case Nowhere => []
      case At(side, i) =>
        var r := Modify(b, Unbounded, c.orderId, c.newPrice, c.newQuantity, n, c.timestamp).result;
        if r.success then ModifyTouched(c, side, b.On(side)[i].price, r.trades) else []
  }

  lemma ReportsOf(es: seq<Event>, head: seq<Event>, b: Book, n: SequenceNumber, ts: Timestamp, symbol: SymbolId, touched: seq<Spot>)
    requires es == head + Updates(b, n, ts, symbol, touched) && forall i :: 0 <= i < |head| ==> !head[i].BookUpdateEvent?
    ensures Reports(es, b, n, ts, symbol, touched)
  {
  }

  lemma HandleReports(b: Book, c: Command, n: SequenceNumber)
    ensures var h := Handle(b, c, n); Reports(h.events, h.book, n, c.timestamp, c.symbol, Touched(b, c, n))
  {
    hide Reports, Add, Modify, Locate, NewTouched, ModifyTouched, Cancel;
    var h, touched := Handle(b, c, n), Touched(b, c, n);
    var us := Updates(h.book, n, c.timestamp, c.symbol, touched);
    if touched == [] && |h.events| == 1 {
      assert h.events == h.events + us;
      ReportsOf(h.events, h.events, h.book, n, c.timestamp, c.symbol, touched);
    } else {
      var head := h.events[..|h.events| - |us|];
      assert h.events == head + us;
      ReportsOf(h.events, head, h.book, n, c.timestamp, c.symbol, touched);
    }
  }

  /** A modify changes the quantity only where it traded, where the order was and where it went. */
  lemma ModifyElsewhere(b: Book, id: OrderId, p: Price, q: Quantity, n: SequenceNumber, ts: Timestamp, side: Side, i: nat,
                        side2: Side, p2: Price)
    requires Valid(b) && Locate(b, id) == At(side, i) && p > 0 && q > 0
    requires side2 == side ==> p2 != b.On(side)[i].price && p2 != p
    requires var ts := Modify(b, Unbounded, id, p, q, n, ts).result.trades;
             side2 == Opposite(side) ==> forall j :: 0 <= j < |ts| ==> ts[j].price != p2
    ensures QuantityAt(Modify(b, Unbounded, id, p, q, n, ts).book, side2, p2) == QuantityAt(b, side2, p2)
  {
    hide Valid, Add, SumAt, Wrap64;
    var o := b.On(side)[i];
    SideOf(b, side, i);
    if p == o.price && q <= o.remaining {
      if side2 == side { UpdateSumAt(b.On(side), i, Shrink(o, q), p2); }
    } else {
      WithoutElsewhere(b, side, i, side2, p2);
      AddElsewhere(Without(b, side, i), Unbounded, Replacement(o, p, q, n, ts), side2, p2);
    }
  }

  lemma SideOf(b: Book, side: Side, i: nat)
    requires Valid(b) && i < |b.On(side)|
    ensures b.On(side)[i].side == side
  {
    Disassemble(b, side);
  }

  /** Levels the engine does not report keep their quantity. */
  lemma UntouchedSame(b: Book, c: Command, n: SequenceNumber, side: Side, p: Price)
    requires Valid(b) && Spot(side, p) !in Touched(b, c, n)
    ensures QuantityAt(Handle(b, c, n).book, side, p) == QuantityAt(b, side, p)
  {
    match c
    case NewOrder(_, _, _, _, _, _, _, _, _) => NewUntouched(b, c, n, side, p);
    case CancelOrder(_, _, _, _) =>
      hide Valid, SumAt, Wrap64;
      match Locate(b, c.orderId) {
        case Nowhere =>
        case At(s, i) => WithoutElsewhere(b, s, i, side, p);
      }
    case ModifyOrder(_, _, _, _, _, _) => ModifyUntouched(b, c, n, side, p);
  }

  lemma NewUntouched(b: Book, c: Command, n: SequenceNumber, side: Side, p: Price)
    requires c.NewOrder? && Spot(side, p) !in Touched(b, c, n)
    ensures QuantityAt(HandleNew(b, c, n).book, side, p) == QuantityAt(b, side, p)
  {
    hide Add, QuantityAt, TouchTrades;
    var a := IncomingOf(c, n);
    var r := Add(b, Unbounded, a).result;
    TouchTradesHolds([], Opposite(c.side), r.trades);
    AddStatus(b, a);
    AddElsewhere(b, Unbounded, a, side, p);
  }

  lemma AddStatus(b: Book, a: Incoming)
    ensures var r := Add(b, Unbounded, a).result;
            && (r.remaining > 0 ==> r.accepted && r.status != Cancelled)
            && (!r.accepted ==> r.trades == [])
  {
  }

  lemma ModifyUntouched(b: Book, c: Command, n: SequenceNumber, side: Side, p: Price)
    requires Valid(b) && c.ModifyOrder? && Spot(side, p) !in Touched(b, c, n)
    ensures QuantityAt(HandleModify(b, c, n).book, side, p) == QuantityAt(b, side, p)
  {
    hide Valid, QuantityAt, TouchTrades, Add;
    match Locate(b, c.orderId) {
      case Nowhere =>
      case At(s, i) =>
        var r := Modify(b, Unbounded, c.orderId, c.newPrice, c.newQuantity, n, c.timestamp).result;
        if c.newPrice > 0 && c.newQuantity > 0 {
          ModifyAlwaysSucceeds(b, Unbounded, c.orderId, c.newPrice, c.newQuantity, n, c.timestamp);
          TouchTradesHolds([], Opposite(s), r.trades);
          ModifyElsewhere(b, c.orderId, c.newPrice, c.newQuantity, n, c.timestamp, s, i, side, p);
        }
    }
  }

  /** One command: a view that mirrored the engine before mirrors it after reading the command's events. */
  lemma ProcessMirrors(v: LevelView, e: Engine, c: Command)
    requires Mirrors(v, e) && (c.symbol in e.books ==> Valid(e.books[c.symbol]))
    ensures Mirrors(NoteAll(v, Process(e, c).events), Process(e, c).engine)
  {
    hide Valid, Handle, QuantityAt, NoteAll, Shown;
    var p := Process(e, c);
    NoteKeepsNonZero(v, p.events);
    if c.symbol !in e.books {
      NoteOthers(v, p.events);
      assert forall k :: Quoted(p.engine, k) == Quoted(e, k);
    } else {
      var b := e.books[c.symbol];
      HandleReports(b, c, e.nextSeq);
      forall k ensures Shown(NoteAll(v, p.events), k) == Quoted(p.engine, k) {
        ReportsMirror(v, p.events, Handle(b, c, e.nextSeq).book, e.nextSeq, c.timestamp, c.symbol, Touched(b, c, e.nextSeq), k);
        if k.symbol == c.symbol && Spot(k.side, k.price) !in Touched(b, c, e.nextSeq) {
          UntouchedSame(b, c, e.nextSeq, k.side, k.price);
        }
      }
    }
  }

  ghost predicate BooksValid(e: Engine) {
    forall s :: s in e.books ==> Valid(e.books[s])
  }

  lemma ProcessKeepsBooks(e: Engine, c: Command)
    requires BooksValid(e)
    ensures BooksValid(Process(e, c).engine)
  {
    hide Valid, Handle, Apply;
    if c.symbol in e.books {
      HandleIsApply(e.books[c.symbol], c, e.nextSeq);
      ApplyKeepsValid(e.books[c.symbol], Unbounded, OpOf(c, e.nextSeq));
    }
  }

  /** Every run: reading all events in order keeps the mirror, whatever the commands. */
  lemma {:induction false} RunMirrors(v: LevelView, e: Engine, cs: seq<Command>)
    requires Mirrors(v, e) && BooksValid(e)
    ensures Mirrors(NoteAll(v, RunEngine(e, cs).events), RunEngine(e, cs).engine)
    decreases |cs|
  {
    hide Mirrors, Process, NoteAll;
    if cs == [] {
      NoteOthers(v, []);
    } else {
      var p := Process(e, cs[0]);
      assert cs[0].symbol in e.books ==> Valid(e.books[cs[0].symbol]);
      ProcessMirrors(v, e, cs[0]);
      ProcessKeepsBooks(e, cs[0]);
      RunMirrors(NoteAll(v, p.events), p.engine, cs[1..]);
      NoteConcat(v, p.events, RunEngine(p.engine, cs[1..]).events);
    }
  }

  /** A level exists: some order rests at that key. */
  ghost predicate Rests(e: Engine, k: Key) {
    k.symbol in e.books && exists i :: 0 <= i < |e.books[k.symbol].On(k.side)| && e.books[k.symbol].On(k.side)[i].price == k.price
  }

  lemma {:induction false} SumAtPositive(s: seq<Order>, p: Price)
    requires forall i :: 0 <= i < |s| ==> s[i].remaining > 0
    ensures SumAt(s, p) > 0 <==> exists i :: 0 <= i < |s| && s[i].price == p
    ensures SumAt(s, p) <= Sum(s)
  {
    if s != [] {
      SumAtPositive(s[1..], p);
      if SumAt(s[1..], p) > 0 {
        var i :| 0 <= i < |s[1..]| && s[1..][i].price == p;
        assert s[i + 1].price == p;
      }
      forall i | 0 <= i < |s| && s[i].price == p && i > 0 ensures s[1..][i - 1].price == p { }
    }
  }

  /** The view is right about one level: it has the level exactly when orders rest there, with their true total. */
  ghost predicate RightAt(v: LevelView, e: Engine, k: Key) {
    && (k in v <==> Rests(e, k))
    && (k in v ==> k.symbol in e.books && v[k] == SumAt(e.books[k.symbol].On(k.side), k.price))
  }

  /** The true total at one level is a 64-bit number. */
  ghost predicate TotalFits(e: Engine, k: Key) {
    k.symbol in e.books ==> SumAt(e.books[k.symbol].On(k.side), k.price) < 0x1_0000_0000_0000_0000
  }

  /** A view that shows what the books quote is right about a level if and only if that level's total fits 64 bits. */
  lemma MirrorExact(v: LevelView, e: Engine, k: Key)
    requires Mirrors(v, e) && BooksValid(e)
    ensures RightAt(v, e, k) <==> TotalFits(e, k)
  {
    hide SumAt;
    assert Shown(v, k) == Quoted(e, k);
    if k.symbol in e.books {
      var b := e.books[k.symbol];
      assert Valid(b);
      LivePositive(b, k.side);
      SumAtPositive(b.On(k.side), k.price);
    }
  }

  lemma LivePositive(b: Book, side: Side)
    requires Valid(b)
    ensures forall i :: 0 <= i < |b.On(side)| ==> b.On(side)[i].remaining > 0
  {
    hide Shaped, Uncrossed;
    forall i | 0 <= i < |b.On(side)| ensures b.On(side)[i].remaining > 0 { assert Live(b.On(side)[i], b.symbol); }
  }

  /** The totals of all levels fit when the quantities of each side sum below 2^64. */
  lemma SidesFit(e: Engine, k: Key)
    requires BooksValid(e) && (k.symbol in e.books ==> Sum(e.books[k.symbol].On(k.side)) < 0x1_0000_0000_0000_0000)
    ensures TotalFits(e, k)
  {
    if k.symbol in e.books {
      LivePositive(e.books[k.symbol], k.side);
      SumAtPositive(e.books[k.symbol].On(k.side), k.price);
    }
  }

  lemma TouchedOnce(b: Book, c: Command, n: SequenceNumber)
    ensures NoRepeats(Touched(b, c, n))
  {
    hide Add, Modify, Locate;
    match c
    case NewOrder(_, _, _, _, _, _, _, _, _) =>
      TouchTradesNoRepeats([], Opposite(c.side), Add(b, Unbounded, IncomingOf(c, n)).result.trades);
    case CancelOrder(_, _, _, _) =>
    case ModifyOrder(_, _, _, _, _, _) =>
      if Locate(b, c.orderId).At? {
        var side := Locate(b, c.orderId).side;
        TouchTradesNoRepeats([], Opposite(side), Modify(b, Unbounded, c.orderId, c.newPrice, c.newQuantity, n, c.timestamp).result.trades);
      }
  }

  /** No two updates among one command's events are of the same side and price. */
  lemma NoLevelReportedTwice(b: Book, c: Command, n: SequenceNumber, i: nat, j: nat)
    requires i < j < |Handle(b, c, n).events|
    ensures var x, y := Handle(b, c, n).events[i], Handle(b, c, n).events[j];
            x.BookUpdateEvent? && y.BookUpdateEvent? ==> x.side != y.side || x.price != y.price
  {
    hide Handle, Touched;
    HandleReports(b, c, n);
    TouchedOnce(b, c, n);
    var h, touched := Handle(b, c, n), Touched(b, c, n);
    var head: seq<Event> :| h.events == head + Updates(h.book, n, c.timestamp, c.symbol, touched)
                            && forall i :: 0 <= i < |head| ==> !head[i].BookUpdateEvent?;
    if h.events[i].BookUpdateEvent? && h.events[j].BookUpdateEvent? {
      assert i >= |head| && touched[i - |head|] != touched[j - |head|];
    }
  }

  /** The empty view mirrors an engine whose books are all still empty. */
  lemma FreshMirrors(e: Engine)
    requires forall s :: s in e.books ==> e.books[s] == Empty(s)
    ensures Mirrors(map[], e) && BooksValid(e)
  {
    forall k ensures Shown(map[], k) == Quoted(e, k) {
      if k.symbol in e.books { assert e.books[k.symbol].On(k.side) == []; }
    }
  }

  lemma {:induction false} RunKeepsBooks(e: Engine, cs: seq<Command>)
    requires BooksValid(e)
    ensures BooksValid(RunEngine(e, cs).engine)
    decreases |cs|
  {
    hide Process, BooksValid;
    if cs != [] {
      ProcessKeepsBooks(e, cs[0]);
      RunKeepsBooks(Process(e, cs[0]).engine, cs[1..]);
    }
  }

  /**
    A subscriber that starts from nothing and reads the events of any run shows at every level what the
    book quotes there, and it is right about a level if and only if the level's total fits 64 bits.
   */
  lemma SubscriberFollows(e: Engine, cs: seq<Command>, k: Key)
    requires forall s :: s in e.books ==> e.books[s] == Empty(s)
    ensures var v, after := NoteAll(map[], RunEngine(e, cs).events), RunEngine(e, cs).engine;
            Shown(v, k) == Quoted(after, k) && (RightAt(v, after, k) <==> TotalFits(after, k))
  {
    hide NoteAll, RunEngine, Quoted, Shown, RightAt, TotalFits, BooksValid;
    FreshMirrors(e);
    RunMirrors(map[], e, cs);
    RunKeepsBooks(e, cs);
    MirrorExact(NoteAll(map[], RunEngine(e, cs).events), RunEngine(e, cs).engine, k);
  }

  /** The price-to-quantity map of all books, level by level. */
  ghost predicate IsLevelMap(v: LevelView, e: Engine) {
    forall k :: RightAt(v, e, k)
  }

  /** After every run the view is exactly the map of all levels, if and only if every level's total fits 64 bits. */
  lemma ViewIsLevelMap(e: Engine, cs: seq<Command>)
    requires forall s :: s in e.books ==> e.books[s] == Empty(s)
    ensures var v, after := NoteAll(map[], RunEngine(e, cs).events), RunEngine(e, cs).engine;
            IsLevelMap(v, after) <==> forall k :: TotalFits(after, k)
  {
    hide NoteAll, RunEngine, RightAt, TotalFits;
    var v, after := NoteAll(map[], RunEngine(e, cs).events), RunEngine(e, cs).engine;
    forall k ensures RightAt(v, after, k) <==> TotalFits(after, k) { SubscriberFollows(e, cs, k); }
  }

  /** In particular, while the quantities of each side of each book sum below 2^64. */
  lemma BoundedSidesExact(e: Engine, cs: seq<Command>)
    requires forall s :: s in e.books ==> e.books[s] == Empty(s)
    requires var after := RunEngine(e, cs).engine;
             forall s, side :: s in after.books ==> Sum(after.books[s].On(side)) < 0x1_0000_0000_0000_0000
    ensures IsLevelMap(NoteAll(map[], RunEngine(e, cs).events), RunEngine(e, cs).engine)
  {
    hide NoteAll, RunEngine, IsLevelMap, TotalFits, BooksValid, Mirrors;
    FreshMirrors(e);
    RunKeepsBooks(e, cs);
    var after := RunEngine(e, cs).engine;
    forall k ensures TotalFits(after, k) { SidesFit(after, k); }
    ViewIsLevelMap(e, cs);
  }

  // ----- A level that vanishes -----

  function HalfBid(id: OrderId): Command {
    NewOrder(id, 7, 1, Buy, Limit, 100, HALF, GoodTillCancel, 0)
  }

  /** Two bids that sum to 2^64: after the run that enters them both rest, and the subscriber has no such level. */
  lemma WrappedLevelVanishes()
    ensures var r := RunEngine(Engine(1, map[1 := Empty(1)]), [HalfBid(1), HalfBid(2)]);
            var k := Key(1, Buy, 100);
            Rests(r.engine, k) && k !in NoteAll(map[], r.events)
  {
    hide NoteAll, RunEngine, SumAt;
    var e, cs, k := Engine(1, map[1 := Empty(1)]), [HalfBid(1), HalfBid(2)], Key(1, Buy, 100);
    TwoBidsRest();
    TwoBidsSum();
    var r := RunEngine(e, cs);
    assert r.engine.books[1].On(Buy)[0].price == 100;
    SubscriberFollows(e, cs, k);
    ViewNonZero(r.events, k);
  }

  lemma ViewNonZero(es: seq<Event>, k: Key)
    ensures k in NoteAll(map[], es) ==> NoteAll(map[], es)[k] != 0
  {
    NoteKeepsNonZero(map[], es);
  }

  function TwoBids(): seq<Order> {
    [RestingOrder(1, IncomingOf(HalfBid(1), 1), HALF), RestingOrder(1, IncomingOf(HalfBid(2), 2), HALF)]
  }

  lemma TwoBidsSum()
    ensures SumAt(TwoBids(), 100) == 0x1_0000_0000_0000_0000
  {
    var s := TwoBids();
    assert s[1..] == [s[1]] && s[1..][1..] == [];
    assert SumAt(s[1..][1..], 100) == 0;
    assert SumAt(s[1..], 100) == HALF;
  }

  lemma TwoBidsRest()
    ensures RunEngine(Engine(1, map[1 := Empty(1)]), [HalfBid(1), HalfBid(2)]).engine == Engine(3, map[1 := Book(1, TwoBids(), [])])
  {
    hide Handle, Process;
    var cs := [HalfBid(1), HalfBid(2)];
    assert cs[1..] == [HalfBid(2)] && cs[1..][1..] == [];
    FirstBid();
    SecondBid();
  }

  lemma FirstBid()
    ensures Process(Engine(1, map[1 := Empty(1)]), HalfBid(1)).engine == Engine(2, map[1 := Book(1, TwoBids()[..1], [])])
  {
    hide Add;
    HandleIsApply(Empty(1), HalfBid(1), 1);
    AddRestsWhole(Empty(1), IncomingOf(HalfBid(1), 1));
    assert Insert(Buy, [], TwoBids()[0]) == TwoBids()[..1];
  }

  lemma SecondBid()
    ensures Process(Engine(2, map[1 := Book(1, TwoBids()[..1], [])]), HalfBid(2)).engine == Engine(3, map[1 := Book(1, TwoBids(), [])])
  {
    hide Add;
    var s := TwoBids()[..1];
    var b := Book(1, s, []);
    HandleIsApply(b, HalfBid(2), 2);
    assert s == [TwoBids()[0]];
    assert IndexOf(s, 2) < 0 && IndexOf(b.asks, 2) < 0;
    AddRestsWhole(b, IncomingOf(HalfBid(2), 2));
    assert InsertPos(Buy, s, 100) == 1;
    assert Insert(Buy, s, TwoBids()[1]) == TwoBids();
  }
}
