/** Invariants of every reachable engine state: valid books, and queues in sequence-number order. */
module EngineFacts {
  import opened Types
  import opened BookModel
  import opened BookFacts
  import opened Allocation
  import opened EngineModel
  import opened Matching

  /** Both queues are in strict priority order and every sequence number was assigned before `n`. */
  ghost predicate Sequenced(b: Book, n: int) {
    && Prioritized(Buy, b.bids) && Prioritized(Sell, b.asks)
    && (forall i :: 0 <= i < |b.bids| ==> b.bids[i].seqNo < n)
    && (forall i :: 0 <= i < |b.asks| ==> b.asks[i].seqNo < n)
  }

  ghost predicate SideSequenced(side: Side, s: seq<Order>, n: int) {
    Prioritized(side, s) && forall i :: 0 <= i < |s| ==> s[i].seqNo < n
  }

  lemma SequencedBySide(b: Book, side: Side, n: int)
    ensures Sequenced(b, n) <==> SideSequenced(side, b.On(side), n) && SideSequenced(Opposite(side), b.On(Opposite(side)), n)
  {
    hide Prioritized;
  }

  lemma TrimmedSequenced(side: Side, s: seq<Order>, rest: seq<Order>, n: int)
    requires SideSequenced(side, s, n) && Trimmed(s, rest)
    ensures SideSequenced(side, rest, n)
  {
    forall i | 0 <= i < |rest| ensures rest[i].seqNo == s[|s| - |rest| + i].seqNo && rest[i].price == s[|s| - |rest| + i].price {
      TrimmedSeq(s, rest, i);
    }
    forall i, j | 0 <= i < j < |rest| ensures Ahead(side, rest[i], rest[j]) {
      assert Ahead(side, s[|s| - |rest| + i], s[|s| - |rest| + j]);
    }
  }

  lemma TrimmedSeq(s: seq<Order>, rest: seq<Order>, i: nat)
    requires Trimmed(s, rest) && i < |rest|
    ensures rest[i].seqNo == s[|s| - |rest| + i].seqNo && rest[i].price == s[|s| - |rest| + i].price
  {
  }

  /** The newest order goes behind everything at its price. */
  lemma InsertSequenced(side: Side, s: seq<Order>, o: Order)
    requires SideSequenced(side, s, o.seqNo) && Ranked(side, s)
    ensures SideSequenced(side, Insert(side, s, o), o.seqNo + 1)
  {
    var k, r := InsertPos(side, s, o.price), Insert(side, s, o);
    forall i, j | 0 <= i < j < |r| ensures Ahead(side, r[i], r[j]) {
      if i == k {
        assert r[j] == s[j - 1] && Better(side, o.price, s[k].price);
      } else if j == k {
        assert r[i] == s[i];
      } else {
        assert Ahead(side, s[if i < k then i else i - 1], s[if j < k then j else j - 1]);
      }
    }
  }

  lemma RemoveSequenced(side: Side, s: seq<Order>, i: nat, n: int)
    requires SideSequenced(side, s, n) && i < |s|
    ensures SideSequenced(side, RemoveAt(s, i), n)
  {
    var r := RemoveAt(s, i);
    forall j, k | 0 <= j < k < |r| ensures Ahead(side, r[j], r[k]) {
      assert Ahead(side, s[if j < i then j else j + 1], s[if k < i then k else k + 1]);
    }
  }

  lemma ShrinkSequenced(side: Side, s: seq<Order>, i: nat, q: Quantity, n: int)
    requires SideSequenced(side, s, n) && i < |s| && q <= s[i].remaining
    ensures SideSequenced(side, s[i := Shrink(s[i], q)], n)
  {
    var r := s[i := Shrink(s[i], q)];
    forall j, k | 0 <= j < k < |r| ensures Ahead(side, r[j], r[k]) { assert Ahead(side, s[j], s[k]); }
  }

  lemma SequencedLater(b: Book, n: int, m: int)
    requires Sequenced(b, n) && n <= m
    ensures Sequenced(b, m)
  {
    hide Prioritized;
  }

  lemma AddSequenced(b: Book, a: Incoming)
    requires Shaped(b) && Sequenced(b, a.seqNo)
    ensures Sequenced(Add(b, Unbounded, a).book, a.seqNo + 1)
  {
    hide SideSequenced, Sequenced, Trimmed, Ranked, Fill, Insert, Screen, Apart;
    SequencedLater(b, a.seqNo, a.seqNo + 1);
    if Screen(b, a) == NoReason {
      var opp, own, s := Opposite(a.side), b.On(a.side), b.On(Opposite(a.side));
      var f := Fill(b.symbol, a, s, a.quantity);
      SequencedBySide(b, a.side, a.seqNo);
      SequencedBySide(b, a.side, a.seqNo + 1);
      FillShape(b.symbol, a, s, a.quantity);
      TrimmedSequenced(opp, s, f.rest, a.seqNo + 1);
      SequencedBySide(b.With(opp, f.rest), a.side, a.seqNo + 1);
      Disassemble(b, a.side);
      var o := RestingOrder(b.symbol, a, f.left);
      InsertSequenced(a.side, own, o);
      SequencedBySide(b.With(opp, f.rest).With(a.side, Insert(a.side, own, o)), a.side, a.seqNo + 1);
    }
  }

  lemma WithoutSequenced(b: Book, side: Side, i: nat, n: int)
    requires Sequenced(b, n) && i < |b.On(side)|
    ensures Sequenced(Without(b, side, i), n)
  {
    hide Sequenced, SideSequenced, RemoveAt;
    SequencedBySide(b, side, n);
    RemoveSequenced(side, b.On(side), i, n);
    SequencedBySide(Without(b, side, i), side, n);
  }

  lemma ApplySequenced(b: Book, c: Command, n: SequenceNumber)
    requires Valid(b) && Sequenced(b, n)
    ensures Sequenced(Apply(b, Unbounded, OpOf(c, n)).book, n + 1)
  {
    hide Sequenced, Add, Shaped, AllLive, Uncrossed, SideSequenced, Shrink;
    SequencedLater(b, n, n + 1);
    match c
    case NewOrder(_, _, _, _, _, _, _, _, _) => AddSequenced(b, IncomingOf(c, n));
    case CancelOrder(_, _, _, _) =>
      if Locate(b, c.orderId).At? { WithoutSequenced(b, Locate(b, c.orderId).side, Locate(b, c.orderId).pos, n + 1); }
    case ModifyOrder(_, _, _, _, _, _) =>
      match Locate(b, c.orderId)
      case Nowhere =>
      case At(side, i) =>
        var o := b.On(side)[i];
        if c.newPrice == o.price && c.newQuantity <= o.remaining {
          SequencedBySide(b, side, n + 1);
          ShrinkSequenced(side, b.On(side), i, c.newQuantity, n + 1);
          SequencedBySide(b.With(side, b.On(side)[i := Shrink(o, c.newQuantity)]), side, n + 1);
        } else {
          WithoutSequenced(b, side, i, n);
          WithoutKeepsShape(b, side, i);
          AddSequenced(Without(b, side, i), Replacement(o, c.newPrice, c.newQuantity, n, c.timestamp));
        }
  }

  /** The invariant of an engine whose sequence counter has not wrapped. */
  ghost predicate EngineValid(e: Engine) {
    forall s :: s in e.books ==> BookIn(e, s)
  }

  ghost predicate BookIn(e: Engine, s: SymbolId)
    requires s in e.books
  {
    Valid(e.books[s]) && e.books[s].symbol == s && Sequenced(e.books[s], e.nextSeq)
  }

  lemma ApplySymbol(b: Book, cap: Capacity, op: Op)
    ensures Apply(b, cap, op).book.symbol == b.symbol
  {
    hide Fill, Screen, Locate, Insert;
  }

  lemma ProcessKeepsValid(e: Engine, c: Command)
    requires EngineValid(e) && e.nextSeq < 0xFFFF_FFFF_FFFF_FFFF
    ensures EngineValid(Process(e, c).engine)
    ensures Process(e, c).engine.nextSeq == e.nextSeq + 1
  {
    hide Valid, Sequenced, Handle, Apply;
    var p := Process(e, c).engine;
    forall s | s in p.books ensures BookIn(p, s) {
      assert BookIn(e, s);
      SequencedLater(e.books[s], e.nextSeq, e.nextSeq + 1);
      if s == c.symbol {
        HandleIsApply(e.books[s], c, e.nextSeq);
        ApplyKeepsValid(e.books[s], Unbounded, OpOf(c, e.nextSeq));
        ApplySequenced(e.books[s], c, e.nextSeq);
        ApplySymbol(e.books[s], Unbounded, OpOf(c, e.nextSeq));
      }
    }
  }

  lemma RegisterKeepsValid(e: Engine, s: SymbolId)
    requires EngineValid(e)
    ensures EngineValid(Register(e, s))
  {
    var r := Register(e, s);
    forall t | t in r.books ensures BookIn(r, t) {
      if t in e.books { assert BookIn(e, t); }
    }
  }

  /** Registering a symbol gives it an empty book only when it has none, and touches no other book and not the counter. */
  lemma RegisterSays(e: Engine, s: SymbolId, t: SymbolId)
    ensures var r := Register(e, s);
            && r.nextSeq == e.nextSeq && s in r.books
            && (t in r.books <==> t in e.books || t == s)
            && (t in e.books ==> r.books[t] == e.books[t])
            && (s !in e.books ==> r.books[s].bids == [] && r.books[s].asks == [] && r.books[s].symbol == s)
  {
  }

  const LAST: SequenceNumber := 0xFFFF_FFFF_FFFF_FFFF

  ghost predicate AllEmpty(e: Engine) {
    forall s :: s in e.books ==> e.books[s].bids == [] && e.books[s].asks == []
  }

  lemma KeepsSymbols(e: Engine, c: Command)
    requires EngineValid(e)
    ensures forall s :: s in Process(e, c).engine.books ==> Process(e, c).engine.books[s].symbol == s
  {
    hide Valid, Sequenced, Handle, Apply;
    var p := Process(e, c).engine;
    forall s | s in p.books ensures p.books[s].symbol == s {
      assert BookIn(e, s);
      if s == c.symbol {
        HandleIsApply(e.books[s], c, e.nextSeq);
        ApplySymbol(e.books[s], Unbounded, OpOf(c, e.nextSeq));
      }
    }
  }

  /** One command keeps the invariant if and only if it does not wrap the counter, or leaves no order resting. */
  lemma ProcessValidExact(e: Engine, c: Command)
    requires EngineValid(e)
    ensures var p := Process(e, c).engine;
            p.nextSeq == Wrap64(e.nextSeq + 1) && (EngineValid(p) <==> e.nextSeq < LAST || AllEmpty(p))
  {
    hide Handle, Valid, Sequenced;
    var p := Process(e, c).engine;
    if e.nextSeq < LAST {
      ProcessKeepsValid(e, c);
    } else {
      KeepsSymbols(e, c);
      if EngineValid(p) {
        forall s | s in p.books ensures p.books[s].bids == [] && p.books[s].asks == [] {
          assert BookIn(p, s);
          NothingBelowZero(p.books[s]);
        }
      }
      if AllEmpty(p) {
        forall s | s in p.books ensures BookIn(p, s) { EmptyIsValid(p.books[s]); }
      }
    }
  }

  lemma NothingBelowZero(b: Book)
    requires Sequenced(b, 0)
    ensures b.bids == [] && b.asks == []
  {
    var x := if b.bids == [] then 0 else b.bids[0].seqNo;
    var y := if b.asks == [] then 0 else b.asks[0].seqNo;
    assert x >= 0 && y >= 0;
  }

  lemma EmptyIsValid(b: Book)
    requires b.bids == [] && b.asks == []
    ensures Valid(b) && Sequenced(b, 0)
  {
  }

  /** Whenever the counter wraps in the run, no order rests then. */
  ghost predicate WrapsEmpty(e: Engine, cs: seq<Command>)
    decreases |cs|
  {
    cs != [] ==>
      var p := Process(e, cs[0]).engine;
      (e.nextSeq < LAST || AllEmpty(p)) && WrapsEmpty(p, cs[1..])
  }

  /** The invariant holds after every command of the run. */
  ghost predicate StaysValid(e: Engine, cs: seq<Command>)
    decreases |cs|
  {
    cs != [] ==>
      var p := Process(e, cs[0]).engine;
      EngineValid(p) && StaysValid(p, cs[1..])
  }

  /**
    After every command of a run every queue is strictly increasing in sequence number at each price,
    every number is below the counter and every book is valid, if and only if no order rests whenever
    the counter wraps. The counter counts the commands, modulo 2^64.
   */
  lemma {:induction false} RunKeepsEngineValid(e: Engine, cs: seq<Command>)
    requires EngineValid(e)
    ensures StaysValid(e, cs) <==> WrapsEmpty(e, cs)
    ensures WrapsEmpty(e, cs) ==> EngineValid(RunEngine(e, cs).engine) && RunEngine(e, cs).engine.nextSeq == Wrap64(e.nextSeq + |cs|)
    decreases |cs|
  {
    hide Process, EngineValid, AllEmpty, Wrap64;
    if cs == [] {
      WrapSmall(e.nextSeq);
    } else {
      ProcessValidExact(e, cs[0]);
      if EngineValid(Process(e, cs[0]).engine) {
        RunKeepsEngineValid(Process(e, cs[0]).engine, cs[1..]);
        WrapAdd(e.nextSeq + 1, |cs| - 1);
      }
    }
  }

  lemma WrapSmall(n: SequenceNumber)
    ensures Wrap64(n) == n
  {
  }

  /** A run too short to wrap the counter meets the condition. */
  lemma {:induction false} ShortRun(e: Engine, cs: seq<Command>)
    requires e.nextSeq + |cs| < 0x1_0000_0000_0000_0000
    ensures WrapsEmpty(e, cs)
    decreases |cs|
  {
    hide Handle, AllEmpty;
    if cs != [] { ShortRun(Process(e, cs[0]).engine, cs[1..]); }
  }

  /** The last sequence number given to an order that rests: the counter is 0, and the order's number is not below it. */
  lemma WrapBreaksSequence()
    ensures var e, c := Engine(LAST, map[1 := Empty(1)]), NewOrder(1, 7, 1, Buy, Limit, 100, 5, GoodTillCancel, 0);
            EngineValid(e) && !EngineValid(Process(e, c).engine)
  {
    hide Handle, Add;
    var e, c := Engine(LAST, map[1 := Empty(1)]), NewOrder(1, 7, 1, Buy, Limit, 100, 5, GoodTillCancel, 0);
    EmptyIsValid(Empty(1));
    assert BookIn(e, 1);
    ProcessValidExact(e, c);
    HandleIsApply(Empty(1), c, LAST);
    AddRestsWhole(Empty(1), IncomingOf(c, LAST));
    var p := Process(e, c).engine;
    assert |p.books[1].bids| == 1;
  }

  // ----- Keeping and losing one's place -----

  /**
    A modify to the same price and no larger quantity leaves every order of the book where it was: the
    order keeps its sequence number and becomes smaller by the difference, and nothing else changes.
   */
  lemma AmendKeepsPlace(b: Book, cap: Capacity, id: OrderId, p: Price, q: Quantity, n: SequenceNumber, ts: Timestamp)
    requires Shaped(b) && Locate(b, id).At? && p > 0 && q > 0
    requires var At(side, i) := Locate(b, id); p == b.On(side)[i].price && q <= b.On(side)[i].remaining
    ensures var At(side, i) := Locate(b, id);
            var Step(c, r) := Modify(b, cap, id, p, q, n, ts);
            var o := b.On(side)[i];
            && r == ModifyResult(true, NoReason, false, PartiallyFilled, 0, q, [])
            && Locate(c, id) == Locate(b, id)
            && c.On(Opposite(side)) == b.On(Opposite(side)) && |c.On(side)| == |b.On(side)|
            && c.On(side)[i] == o.(remaining := q, quantity := Wrap64(o.quantity - (o.remaining - q)))
            && forall j :: 0 <= j < |b.On(side)| && j != i ==> c.On(side)[j] == b.On(side)[j]
  {
    var At(side, i) := Locate(b, id);
    var c := Modify(b, cap, id, p, q, n, ts).book;
    assert c.On(side)[i].id == id;
    ModifyKeepsShape(b, cap, id, p, q, n, ts);
    LocateUnique(c, side, i);
  }

  /** What rests of an added order is last at its price: behind every other order there. */
  lemma RestsAtTheBack(b: Book, cap: Capacity, a: Incoming)
    requires Shaped(b) && Add(b, cap, a).result.accepted && Add(b, cap, a).result.remaining > 0
    ensures var c := Add(b, cap, a).book;
            var p := Locate(c, a.id);
            && p.At? && p.side == a.side && c.On(a.side)[p.pos].seqNo == a.seqNo && c.On(a.side)[p.pos].price == a.price
            && forall j :: 0 <= j < |c.On(a.side)| && j != p.pos && c.On(a.side)[j].price == a.price ==> j < p.pos
  {
    hide Fill, Screen, Locate;
    var s, c := b.On(a.side), Add(b, cap, a).book;
    var f := Fill(b.symbol, a, b.On(Opposite(a.side)), a.quantity);
    var k := InsertPos(a.side, s, a.price);
    var o := RestingOrder(b.symbol, a, f.left);
    assert c.On(a.side) == s[..k] + [o] + s[k..];
    AddKeepsShape(b, cap, a);
    assert c.On(a.side)[k] == o;
    LocateUnique(c, a.side, k);
    Disassemble(b, a.side);
    forall j | k < j < |c.On(a.side)| ensures c.On(a.side)[j].price != a.price {
      assert c.On(a.side)[j] == s[j - 1] && Better(a.side, a.price, s[k].price);
    }
  }

  /** What rests of an order that lost its priority to a modify is last at its new price, with the new sequence number. */
  lemma ReplacedAtTheBack(b: Book, cap: Capacity, id: OrderId, p: Price, q: Quantity, n: SequenceNumber, ts: Timestamp)
    requires Shaped(b)
    requires var r := Modify(b, cap, id, p, q, n, ts).result; r.success && r.lostPriority && r.remaining > 0
    ensures var c := Modify(b, cap, id, p, q, n, ts).book;
            var At(side, _) := Locate(b, id);
            var at := Locate(c, id);
            && at.At? && at.side == side && c.On(side)[at.pos].seqNo == n && c.On(side)[at.pos].price == p
            && forall j :: 0 <= j < |c.On(side)| && j != at.pos && c.On(side)[j].price == p ==> j < at.pos
  {
    hide Add, Locate, Shaped;
    var At(side, i) := Locate(b, id);
    OrderAt(b, id);
    WithoutKeepsShape(b, side, i);
    RestsAtTheBack(Without(b, side, i), cap, Replacement(b.On(side)[i], p, q, n, ts));
  }

  lemma OrderAt(b: Book, id: OrderId)
    requires Shaped(b) && Locate(b, id).At?
    ensures var At(side, i) := Locate(b, id); b.On(side)[i].id == id && b.On(side)[i].side == side
  {
  }

  // ----- Matching in reachable states -----

  /**
    In every reachable engine state, whatever arrives at whichever book: each resting order on the other
    side trades exactly its price-time allocation, computed from the set of resting orders alone.
   */
  lemma ReachableMatchIsAllocation(e: Engine, cs: seq<Command>, symbol: SymbolId, a: Incoming, o: Order)
    requires EngineValid(e) && WrapsEmpty(e, cs)
    requires symbol in RunEngine(e, cs).engine.books
    requires o in RunEngine(e, cs).engine.books[symbol].On(Opposite(a.side))
    ensures var s := RunEngine(e, cs).engine.books[symbol].On(Opposite(a.side));
            var share := Allocated(a, Elements(s), o, a.quantity);
            var f := Fill(symbol, a, s, a.quantity);
            && TradedWith(f.trades, o.id) == share <= o.remaining
            && (share < o.remaining ==> (if share == 0 then o else Reduce(o, share)) in f.rest)
            && (share == o.remaining ==> Absent(f.rest, o.id))
            && AllAllocated(symbol, a, Elements(s), a.quantity, f.trades)
  {
    hide RunEngine, Fill, Allocated, TradedWith, AllAllocated, WrapsEmpty, StaysValid;
    RunKeepsEngineValid(e, cs);
    var r := RunEngine(e, cs).engine;
    assert BookIn(r, symbol);
    var b, opp := r.books[symbol], Opposite(a.side);
    QueueFacts(b, opp, r.nextSeq);
    MatchIsAllocation(symbol, a, Elements(b.On(opp)), b.On(opp), a.quantity, o);
  }

  lemma QueueFacts(b: Book, side: Side, n: int)
    requires Valid(b) && Sequenced(b, n)
    ensures var s := b.On(side);
            Prioritized(side, s) && AllPositive(s) && forall i, j :: 0 <= i < j < |s| ==> s[i].id != s[j].id
  {
    Disassemble(b, side);
    forall i | 0 <= i < |b.On(side)| ensures b.On(side)[i].remaining > 0 { assert Live(b.On(side)[i], b.symbol); }
  }
}
