/** Double-entry accounting of quantity over whole runs. */
module Accounts {
  import opened Types
  import opened BookModel
  import opened BookFacts
  import Levels

  /**
    What went in, and where it went. Entries are posted from the operation, the order it names and the
    result the book reported, never from the book afterwards.
   */
  datatype Ledger = Ledger(entered: nat, traded: nat, withdrawn: nat, discarded: nat) {
    function Enter(q: Quantity, filled: Quantity, remaining: Quantity, trades: seq<Trade>): Ledger {
      Ledger(entered + q, traded + TradedSum(trades), withdrawn,
             discarded + if remaining == 0 && filled <= q then q - filled else 0)
    }

    function Withdraw(q: nat): Ledger {
      this.(withdrawn := withdrawn + q)
    }
  }

  function Post(l: Ledger, b: Book, op: Op, r: OpResult): Ledger {
    match (op, r, if op.AddOp? then Nowhere else Locate(b, op.id))
    case (AddOp(a), Added(r), _) =>
      if r.accepted then l.Enter(a.quantity, r.filled, r.remaining, r.trades) else l
    case (CancelOp(_), Canceled(r), At(side, i)) =>
      if r.success then l.Withdraw(b.On(side)[i].remaining) else l
    case (ModifyOp(_, _, q, _, _), Modified(r), At(side, i)) =>
      var o := b.On(side)[i];
      if !r.success then l
      else if !r.lostPriority then l.Withdraw(if q <= o.remaining then o.remaining - q else 0)
      else l.Withdraw(o.remaining).Enter(q, r.filled, r.remaining, r.trades)
    case _ => l
  }

  function Resting(b: Book): nat {
    Sum(b.bids) + Sum(b.asks)
  }

  /** Every unit entered is resting, or traded once on each side of a trade, or withdrawn, or discarded. */
  predicate Balanced(l: Ledger, b: Book) {
    l.entered == Resting(b) + 2 * l.traded + l.withdrawn + l.discarded
  }

  lemma RestingBySide(b: Book, side: Side)
    ensures Resting(b) == Sum(b.On(side)) + Sum(b.On(Opposite(side)))
  {
  }

  lemma SumInsert(side: Side, s: seq<Order>, o: Order)
    ensures Sum(Insert(side, s, o)) == Sum(s) + o.remaining
  {
    var k := InsertPos(side, s, o.price);
    Levels.SumConcat(s[..k] + [o], s[k..]);
    Levels.SumConcat(s[..k], [o]);
    Levels.SumConcat(s[..k], s[k..]);
    assert s == s[..k] + s[k..];
    assert Sum([o]) == o.remaining by { assert [o][1..] == []; }
  }

  /** Accepted or not, an add accounts for its whole quantity. */
  lemma AddBalances(b: Book, cap: Capacity, a: Incoming)
    ensures var s := Add(b, cap, a);
            var traded := TradedSum(s.result.trades);
            && s.result.filled == traded <= a.quantity
            && (s.result.accepted ==>
                  a.quantity + Resting(b) == Resting(s.book) + 2 * traded + (if s.result.remaining == 0 then a.quantity - traded else 0))
            && (!s.result.accepted ==> traded == 0 && Resting(s.book) == Resting(b))
  {
    hide Insert, Sum, Screen;
    if Screen(b, a) == NoReason {
      var opp := Opposite(a.side);
      FillConserves(b.symbol, a, b.On(opp), a.quantity);
      var f := Fill(b.symbol, a, b.On(opp), a.quantity);
      var c := b.With(opp, f.rest);
      RestingBySide(b, a.side);
      RestingBySide(c, a.side);
      var o := RestingOrder(b.symbol, a, f.left);
      SumInsert(a.side, c.On(a.side), o);
      RestingBySide(c.With(a.side, Insert(a.side, c.On(a.side), o)), a.side);
    }
  }

  lemma WithoutBalances(b: Book, side: Side, i: nat)
    requires i < |b.On(side)|
    ensures Resting(Without(b, side, i)) == Resting(b) - b.On(side)[i].remaining
  {
    hide Sum;
    Levels.SumRemove(b.On(side), i);
    RestingBySide(b, side);
    RestingBySide(Without(b, side, i), side);
  }

  lemma ShrinkBalances(b: Book, side: Side, i: nat, o: Order)
    requires i < |b.On(side)|
    ensures Resting(b.With(side, b.On(side)[i := o])) == Resting(b) - b.On(side)[i].remaining + o.remaining
  {
    hide Sum;
    Levels.SumUpdate(b.On(side), i, o);
    RestingBySide(b, side);
    RestingBySide(b.With(side, b.On(side)[i := o]), side);
  }

  lemma ModifyBalances(l: Ledger, b: Book, cap: Capacity, id: OrderId, p: Price, q: Quantity, n: SequenceNumber, ts: Timestamp)
    requires Balanced(l, b) && Valid(b) && cap.Admits(b.Count())
    ensures var s := Modify(b, cap, id, p, q, n, ts);
            Balanced(Post(l, b, ModifyOp(id, p, q, n, ts), Modified(s.result)), s.book)
  {
    hide Resting, Valid, Add, TradedSum;
    match Locate(b, id)
    case Nowhere =>
    case At(side, i) =>
      var o := b.On(side)[i];
      if q != 0 && p > 0 {
        if p == o.price && q <= o.remaining {
          ShrinkBalances(b, side, i, Shrink(o, q));
        } else {
          ModifyAlwaysSucceeds(b, cap, id, p, q, n, ts);
          WithoutBalances(b, side, i);
          AddBalances(Without(b, side, i), cap, Replacement(o, p, q, n, ts));
        }
      }
  }

  lemma StepBalances(l: Ledger, b: Book, cap: Capacity, op: Op)
    requires Balanced(l, b) && Valid(b) && cap.Admits(b.Count())
    ensures var s := Apply(b, cap, op); Balanced(Post(l, b, op, s.result), s.book)
  {
    hide Resting, Valid, Add, Modify, TradedSum;
    match op
    case AddOp(a) => AddBalances(b, cap, a);
    case CancelOp(id) =>
      if Locate(b, id).At? { WithoutBalances(b, Locate(b, id).side, Locate(b, id).pos); }
    case ModifyOp(id, p, q, n, ts) => ModifyBalances(l, b, cap, id, p, q, n, ts);
  }

  function PostAll(l: Ledger, b: Book, cap: Capacity, ops: seq<Op>): Ledger
    decreases |ops|
  {
    if ops == [] then l
    else
      var s := Apply(b, cap, ops[0]);
      PostAll(Post(l, b, ops[0], s.result), s.book, cap, ops[1..])
  }

  lemma AdmitsStep(b: Book, cap: Capacity, op: Op)
    requires cap.Admits(b.Count())
    ensures cap.Admits(Apply(b, cap, op).book.Count())
  {
    if cap.Slots? {
      AddCount(b, cap, op);
    }
  }

  lemma AddCount(b: Book, cap: Capacity, op: Op)
    requires cap.Slots? && b.Count() <= cap.n
    ensures Apply(b, cap, op).book.Count() <= cap.n
  {
    hide Add, Locate;
    match op
    case AddOp(a) => AddWithin(b, cap, a);
    case CancelOp(id) =>
    case ModifyOp(id, p, q, n, ts) =>
      match Locate(b, id)
      case Nowhere =>
      case At(side, i) => AddWithin(Without(b, side, i), cap, Replacement(b.On(side)[i], p, q, n, ts));
  }

  lemma AddWithin(b: Book, cap: Capacity, a: Incoming)
    requires cap.Slots? && b.Count() <= cap.n
    ensures Add(b, cap, a).book.Count() <= cap.n
  {
    hide Fill, Screen;
    FillShrinksBook(b, a);
  }

  /** Over every run from an empty book, bounded or not, quantity is conserved. */
  lemma {:induction false} QuantityConserved(l: Ledger, b: Book, cap: Capacity, ops: seq<Op>)
    requires Balanced(l, b) && Valid(b) && cap.Admits(b.Count())
    ensures Balanced(PostAll(l, b, cap, ops), Run(b, cap, ops).book)
    decreases |ops|
  {
    hide Balanced, Valid, Post, Apply;
    if ops != [] {
      StepBalances(l, b, cap, ops[0]);
      ApplyKeepsValid(b, cap, ops[0]);
      AdmitsStep(b, cap, ops[0]);
      var s := Apply(b, cap, ops[0]);
      QuantityConserved(Post(l, b, ops[0], s.result), s.book, cap, ops[1..]);
    }
  }

  lemma RunFromEmptyConserves(symbol: SymbolId, cap: Capacity, ops: seq<Op>)
    ensures var l := PostAll(Ledger(0, 0, 0, 0), Empty(symbol), cap, ops);
            l.entered == Resting(Run(Empty(symbol), cap, ops).book) + 2 * l.traded + l.withdrawn + l.discarded
  {
    QuantityConserved(Ledger(0, 0, 0, 0), Empty(symbol), cap, ops);
  }
}
