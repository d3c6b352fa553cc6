/** When the pooled book and the reference book are the same book: exactly while the pool is large enough. */
module Equivalence {
  import opened Types
  import opened BookModel
  import opened BookFacts
  import NaiveBook
  import FastBook

  /** The reference book never ends one of the calls with more than `n` resting orders. */
  ghost predicate Fits(b: Book, n: nat, ops: seq<Op>)
    decreases |ops|
  {
    ops != [] ==> var c := Apply(b, Unbounded, ops[0]).book; c.Count() <= n && Fits(c, n, ops[1..])
  }

  /** One add agrees, in result and in book, if and only if the reference book ends within the capacity. */
  lemma AddAgrees(b: Book, n: nat, a: Incoming)
    requires b.Count() <= n
    ensures var u, s := Add(b, Unbounded, a), Add(b, Slots(n), a);
            && (u.book.Count() <= n <==> u == s)
            && (u.result == s.result <==> u == s)
            && s.book.Count() <= n && u.book.Count() <= b.Count() + 1
  {
    hide Fill, Screen, Insert;
    if Screen(b, a) == NoReason {
      FillShrinksBook(b, a);
      var f := Fill(b.symbol, a, b.On(Opposite(a.side)), a.quantity);
      InsertLength(a.side, b.On(a.side), RestingOrder(b.symbol, a, f.left));
    }
  }

  /** A modify agrees always: the slot it gives up is there for the order it puts back. */
  lemma ModifyAgrees(b: Book, n: nat, id: OrderId, p: Price, q: Quantity, k: SequenceNumber, ts: Timestamp)
    requires b.Count() <= n
    ensures Modify(b, Unbounded, id, p, q, k, ts) == Modify(b, Slots(n), id, p, q, k, ts)
    ensures Modify(b, Unbounded, id, p, q, k, ts).book.Count() <= n
  {
    hide Add, Locate;
    match Locate(b, id)
    case Nowhere =>
    case At(side, i) =>
      var a := Replacement(b.On(side)[i], p, q, k, ts);
      AddAgrees(Without(b, side, i), n - 1, a);
      AddAgrees(Without(b, side, i), n, a);
  }

  lemma ApplyAgrees(b: Book, n: nat, op: Op)
    requires b.Count() <= n
    ensures var u, s := Apply(b, Unbounded, op), Apply(b, Slots(n), op);
            && (u.book.Count() <= n <==> u == s)
            && (u.result == s.result <==> u == s)
  {
    hide Add, Modify;
    match op
    case AddOp(a) => AddAgrees(b, n, a);
    case CancelOp(id) =>
    case ModifyOp(id, p, q, k, ts) => ModifyAgrees(b, n, id, p, q, k, ts);
  }

  /**
    For every sequence of operations: the pooled book returns the same results and becomes the same book
    if and only if the reference book never ends a call with more orders than the pool has slots.
   */
  lemma {:induction false} RunsAgree(b: Book, n: nat, ops: seq<Op>)
    requires b.Count() <= n
    ensures Fits(b, n, ops) ==> Run(b, Slots(n), ops) == Run(b, Unbounded, ops)
    ensures Run(b, Slots(n), ops).result == Run(b, Unbounded, ops).result ==> Fits(b, n, ops)
    decreases |ops|
  {
    hide Apply;
    if ops != [] {
      ApplyAgrees(b, n, ops[0]);
      var u, s := Apply(b, Unbounded, ops[0]), Apply(b, Slots(n), ops[0]);
      var ru, rs := Run(b, Unbounded, ops).result, Run(b, Slots(n), ops).result;
      assert ru[0] == u.result && rs[0] == s.result;
      if u == s {
        RunsAgree(u.book, n, ops[1..]);
        assert ru[1..] == Run(u.book, Unbounded, ops[1..]).result;
        assert rs[1..] == Run(u.book, Slots(n), ops[1..]).result;
      }
    }
  }

  lemma {:induction false} FitsPrefix(b: Book, n: nat, ops: seq<Op>, k: nat)
    requires Fits(b, n, ops) && k <= |ops|
    ensures Fits(b, n, ops[..k])
    decreases |ops|
  {
    hide Apply;
    if k > 0 {
      assert ops[..k][0] == ops[0] && ops[..k][1..] == ops[1..][..k - 1];
      FitsPrefix(Apply(b, Unbounded, ops[0]).book, n, ops[1..], k - 1);
    }
  }

  /** While the capacity suffices the two books agree after every single call of the run. */
  lemma EveryCallAgrees(b: Book, n: nat, ops: seq<Op>, k: nat)
    requires b.Count() <= n && k <= |ops|
    ensures Fits(b, n, ops) ==> Run(b, Slots(n), ops[..k]) == Run(b, Unbounded, ops[..k])
  {
    hide Run, Fits;
    if Fits(b, n, ops) {
      FitsPrefix(b, n, ops, k);
      RunsAgree(b, n, ops[..k]);
    }
  }

  /** Past its capacity the pooled book does differ: one order that should rest, and no slot for it. */
  lemma OutgrownPoolDiffers(symbol: SymbolId)
    ensures var a := Incoming(1, 7, Buy, Limit, 100, 5, GoodTillCancel, 1, 0);
            var fast, naive := Run(Empty(symbol), Slots(0), [AddOp(a)]), Run(Empty(symbol), Unbounded, [AddOp(a)]);
            && naive.result == [Added(AddResult(true, NoReason, New, 0, 5, []))] && |naive.book.bids| == 1
            && fast.result == [Added(AddResult(false, PoolExhausted, Rejected, 0, 0, []))] && fast.book == Empty(symbol)
  {
    var a := Incoming(1, 7, Buy, Limit, 100, 5, GoodTillCancel, 1, 0);
    RunOne(Empty(symbol), Slots(0), AddOp(a));
    RunOne(Empty(symbol), Unbounded, AddOp(a));
  }

  lemma RunOne(b: Book, cap: Capacity, op: Op)
    ensures var s := Apply(b, cap, op); Run(b, cap, [op]) == Step(s.book, [s.result])
  {
    hide Apply;
    assert [op][1..] == [];
    var s := Apply(b, cap, op);
    assert [s.result] + [] == [s.result];
  }

  lemma {:induction false} RunSnoc(b: Book, cap: Capacity, ops: seq<Op>, op: Op)
    ensures var r := Run(b, cap, ops);
            var l := Apply(r.book, cap, op);
            Run(b, cap, ops + [op]) == Step(l.book, r.result + [l.result])
    decreases |ops|
  {
    hide Apply;
    if ops == [] {
      assert ops + [op] == [op];
      var l := Apply(b, cap, op);
      assert [op][1..] == [] && [l.result] + [] == [] + [l.result];
    } else {
      var c := Apply(b, cap, ops[0]);
      RunSnoc(c.book, cap, ops[1..], op);
      assert (ops + [op])[1..] == ops[1..] + [op];
      var r := Run(c.book, cap, ops[1..]);
      var l := Apply(r.book, cap, op);
      assert [c.result] + (r.result + [l.result]) == [c.result] + r.result + [l.result];
    }
  }

  method ApplyNaive(book: NaiveBook.OrderBook, op: Op) returns (r: OpResult)
    requires book.Valid()
    modifies book
    ensures book.Valid()
    ensures var s := Apply(old(book.View()), Unbounded, op); book.View() == s.book && r == s.result
  {
    hide Add, Cancel, Modify;
    match op
    case AddOp(a) => var x := book.AddOrder(a); r := Added(x);
    case CancelOp(id) => var x := book.CancelOrder(id); r := Canceled(x);
    case ModifyOp(id, p, q, n, ts) => var x := book.ModifyOrder(id, p, q, n, ts); r := Modified(x);
  }

  method ApplyFast(book: FastBook.OrderBook, op: Op) returns (r: OpResult)
    requires book.Valid()
    modifies book, book.pool, book.pool.slots
    ensures book.Valid()
    ensures var s := Apply(old(book.View()), book.Cap(), op); book.View() == s.book && r == s.result
  {
    hide Add, Cancel, Modify;
    match op
    case AddOp(a) => var x := book.AddOrder(a); r := Added(x);
    case CancelOp(id) => var x := book.CancelOrder(id); r := Canceled(x);
    case ModifyOp(id, p, q, n, ts) => var x := book.ModifyOrder(id, p, q, n, ts); r := Modified(x);
  }

  /** The differential run: both books, from empty, on the same operations. */
  method Differential(symbol: SymbolId, maxOrders: nat, ops: seq<Op>)
    returns (naive: NaiveBook.OrderBook, fast: FastBook.OrderBook, fromNaive: seq<OpResult>, fromFast: seq<OpResult>)
    ensures naive.Valid() && fast.Valid()
    ensures naive.View() == Run(Empty(symbol), Unbounded, ops).book
    ensures fromNaive == fromFast <==> Fits(Empty(symbol), maxOrders, ops)
    ensures fast.View() == Run(Empty(symbol), Slots(maxOrders), ops).book
    ensures Fits(Empty(symbol), maxOrders, ops) ==> fast.View() == naive.View()
  {
    hide *;
    ghost var b := Empty(symbol);
    naive := new NaiveBook.OrderBook(symbol);
    fast := new FastBook.OrderBook(symbol, maxOrders);
    fromNaive, fromFast := [], [];
    RunNone(b, Unbounded, ops);
    RunNone(b, Slots(maxOrders), ops);
    for i := 0 to |ops|
      invariant naive.Valid() && fast.Valid() && fast.Cap() == Slots(maxOrders)
      invariant fresh(naive) && fresh(fast) && fresh(fast.pool) && fresh(fast.pool.slots)
      invariant Step(naive.View(), fromNaive) == Run(b, Unbounded, ops[..i])
      invariant Step(fast.View(), fromFast) == Run(b, Slots(maxOrders), ops[..i])
    {
      RunSnoc(b, Unbounded, ops[..i], ops[i]);
      RunSnoc(b, Slots(maxOrders), ops[..i], ops[i]);
      assert ops[..i + 1] == ops[..i] + [ops[i]];
      var x := ApplyNaive(naive, ops[i]);
      var y := ApplyFast(fast, ops[i]);
      fromNaive, fromFast := fromNaive + [x], fromFast + [y];
    }
    assert ops[..|ops|] == ops;
    RunsAgreeFromEmpty(symbol, maxOrders, ops);
  }

  lemma RunsAgreeFromEmpty(symbol: SymbolId, n: nat, ops: seq<Op>)
    ensures Run(Empty(symbol), Slots(n), ops).result == Run(Empty(symbol), Unbounded, ops).result <==> Fits(Empty(symbol), n, ops)
    ensures Fits(Empty(symbol), n, ops) ==> Run(Empty(symbol), Slots(n), ops) == Run(Empty(symbol), Unbounded, ops)
  {
    hide Run, Fits;
    RunsAgree(Empty(symbol), n, ops);
  }

  lemma RunNone(b: Book, cap: Capacity, ops: seq<Op>)
    ensures Run(b, cap, ops[..0]) == Step(b, [])
  {
  }
}
