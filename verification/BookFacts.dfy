/** What matching, inserting, removing and amending keep, and the invariant of every reachable book. */
module BookFacts {
  import opened Types
  import opened BookModel

  // ----- Matching -----

  /** `rest` is `s` without its first orders, the next one possibly smaller. */
  ghost predicate Trimmed(s: seq<Order>, rest: seq<Order>) {
    && |rest| <= |s|
    && var d := |s| - |rest|;
       || rest == s[d..]
       || (&& rest != [] && rest == [rest[0]] + s[d + 1..]
           && 0 < rest[0].remaining < s[d].remaining
           && rest[0] == s[d].(remaining := rest[0].remaining, status := PartiallyFilled))
  }

  lemma TrimmedTail(s: seq<Order>, rest: seq<Order>)
    requires s != [] && Trimmed(s[1..], rest)
    ensures Trimmed(s, rest)
  {
    var d := |s| - |rest|;
    assert s[1..][d - 1..] == s[d..];
    if rest != [] {
      assert s[1..][d..] == s[d + 1..];
    }
  }

  lemma TrimmedFront(s: seq<Order>)
    ensures Trimmed(s, s)
    ensures s != [] ==> forall t: Quantity :: 0 < t < s[0].remaining ==> Trimmed(s, [Reduce(s[0], t)] + s[1..])
  {
  }

  /** Matching consumes a prefix of the queue whole, may shrink the next order, and leaves the rest alone. */
  lemma {:induction false} FillShape(symbol: SymbolId, a: Incoming, s: seq<Order>, q: Quantity)
    ensures Trimmed(s, Fill(symbol, a, s, q).rest)
  {
    hide Trimmed;
    TrimmedFront(s);
    if s == [] || q == 0 || !Crosses(a, s[0].price) {
    } else if Min(q, s[0].remaining) == s[0].remaining {
      FillShape(symbol, a, s[1..], q - s[0].remaining);
      TrimmedTail(s, Fill(symbol, a, s[1..], q - s[0].remaining).rest);
    }
  }

  /** Quantity is left over only when nothing at the front crosses any more. */
  lemma {:induction false} FillStops(symbol: SymbolId, a: Incoming, s: seq<Order>, q: Quantity)
    ensures var f := Fill(symbol, a, s, q);
            f.rest != [] && f.left > 0 ==> !Crosses(a, f.rest[0].price)
  {
    if s == [] || q == 0 || !Crosses(a, s[0].price) {
    } else if Min(q, s[0].remaining) == s[0].remaining {
      FillStops(symbol, a, s[1..], q - s[0].remaining);
    }
  }

  lemma TrimmedAt(s: seq<Order>, rest: seq<Order>, i: nat)
    requires Trimmed(s, rest) && i < |rest|
    ensures var o := s[|s| - |rest| + i];
            rest[i].id == o.id && rest[i].price == o.price && rest[i].side == o.side
  {
  }

  lemma TrimmedKeepsQueue(s: seq<Order>, rest: seq<Order>, side: Side)
    requires Ranked(side, s) && Trimmed(s, rest)
    ensures Ranked(side, rest)
  {
    forall i | 0 <= i < |rest| ensures rest[i].side == side { TrimmedAt(s, rest, i); }
    forall i, j | 0 <= i < j < |rest|
      ensures !Better(side, rest[j].price, rest[i].price) && rest[i].id != rest[j].id
    {
      TrimmedAt(s, rest, i); TrimmedAt(s, rest, j);
    }
  }

  lemma TrimmedKeepsLive(s: seq<Order>, rest: seq<Order>, symbol: SymbolId)
    requires AllLive(s, symbol) && Trimmed(s, rest)
    ensures AllLive(rest, symbol)
  {
  }

  lemma SumHead(s: seq<Order>)
    requires s != []
    ensures Sum(s) == s[0].remaining + Sum(s[1..])
  {
  }

  lemma SumCons(o: Order, s: seq<Order>)
    ensures Sum([o] + s) == o.remaining + Sum(s)
  {
    assert ([o] + s)[1..] == s;
  }

  lemma TradedCons(t: Trade, ts: seq<Trade>)
    ensures TradedSum([t] + ts) == t.quantity + TradedSum(ts)
  {
    assert ([t] + ts)[1..] == ts;
  }

  lemma NoneTraded()
    ensures TradedSum([]) == 0
  {
  }

  lemma OneTraded(t: Trade)
    ensures TradedSum([t]) == t.quantity
  {
    assert [t][1..] == [];
  }

  /** What trades leaves both the queue and the incoming order, and nothing else does. */
  lemma {:induction false} FillConserves(symbol: SymbolId, a: Incoming, s: seq<Order>, q: Quantity)
    ensures var f := Fill(symbol, a, s, q);
            && Sum(s) == Sum(f.rest) + TradedSum(f.trades)
            && q == f.left + TradedSum(f.trades)
  {
    hide Sum, TradedSum;
    if s == [] || q == 0 || !Crosses(a, s[0].price) {
      NoneTraded();
    } else {
      var t := Min(q, s[0].remaining);
      var trade := TradeOf(symbol, a, s[0], t);
      SumHead(s);
      if t == s[0].remaining {
        FillConserves(symbol, a, s[1..], q - t);
        TradedCons(trade, Fill(symbol, a, s[1..], q - t).trades);
      } else {
        SumCons(Reduce(s[0], t), s[1..]);
        OneTraded(trade);
      }
    }
  }

  /** The quantity filled is the smaller of what was asked and what the crossing prefix holds. */
  lemma {:induction false} FillIsCrossingMin(symbol: SymbolId, a: Incoming, s: seq<Order>, q: Quantity)
    ensures var f := Fill(symbol, a, s, q);
            q - f.left == if q <= CrossingSum(a, s) then q else CrossingSum(a, s)
  {
    if s == [] || q == 0 || !Crosses(a, s[0].price) {
    } else if Min(q, s[0].remaining) == s[0].remaining {
      FillIsCrossingMin(symbol, a, s[1..], q - s[0].remaining);
    }
  }

  /** Every trade is between the two parties, beyond no limit, for a positive quantity. */
  lemma {:induction false} FillTrades(symbol: SymbolId, a: Incoming, s: seq<Order>, q: Quantity, k: nat)
    requires forall i :: 0 <= i < |s| ==> s[i].remaining > 0
    requires k < |Fill(symbol, a, s, q).trades|
    ensures var t := Fill(symbol, a, s, q).trades[k];
            && k < |s| && t == TradeOf(symbol, a, s[k], t.quantity)
            && Crosses(a, t.price) && 0 < t.quantity <= s[k].remaining
  {
    var t := Min(q, s[0].remaining);
    if t == s[0].remaining && k > 0 {
      FillTrades(symbol, a, s[1..], q - t, k - 1);
    }
  }

  // ----- Inserting -----

  lemma InsertKeepsQueue(side: Side, s: seq<Order>, o: Order)
    requires Ranked(side, s) && o.side == side && forall i :: 0 <= i < |s| ==> s[i].id != o.id
    ensures Ranked(side, Insert(side, s, o))
  {
  }

  lemma InsertLength(side: Side, s: seq<Order>, o: Order)
    ensures |Insert(side, s, o)| == |s| + 1
  {
  }

  /** An order of price `p` belongs exactly where everything before is no worse and everything after is worse. */
  lemma InsertPosUnique(side: Side, s: seq<Order>, p: Price, k: nat)
    requires k <= |s|
    requires forall i :: 0 <= i < k ==> !Better(side, p, s[i].price)
    requires k < |s| ==> Better(side, p, s[k].price)
    ensures InsertPos(side, s, p) == k
  {
  }

  // ----- The whole book -----

  /** Both sides of the book at once, named from the point of view of `side`. */
  lemma Reassemble(b: Book, side: Side, own: seq<Order>, opp: seq<Order>)
    requires Ranked(side, own) && Ranked(Opposite(side), opp) && Apart(own, opp)
    ensures Shaped(b.With(Opposite(side), opp).With(side, own))
  {
  }

  lemma Disassemble(b: Book, side: Side)
    requires Shaped(b)
    ensures Ranked(side, b.On(side)) && Ranked(Opposite(side), b.On(Opposite(side)))
    ensures Apart(b.On(side), b.On(Opposite(side)))
  {
  }

  lemma TrimmedKeepsApart(s: seq<Order>, rest: seq<Order>, own: seq<Order>)
    requires Apart(own, s) && Trimmed(s, rest)
    ensures Apart(own, rest)
  {
    forall i, j | 0 <= i < |own| && 0 <= j < |rest| ensures own[i].id != rest[j].id { TrimmedAt(s, rest, j); }
  }

  lemma TrimmedKeepsAbsent(s: seq<Order>, rest: seq<Order>, id: OrderId)
    requires Absent(s, id) && Trimmed(s, rest)
    ensures Absent(rest, id)
  {
    forall j | 0 <= j < |rest| ensures rest[j].id != id { TrimmedAt(s, rest, j); }
  }

  lemma InsertKeepsApart(side: Side, s: seq<Order>, o: Order, opp: seq<Order>)
    requires Apart(s, opp) && Absent(opp, o.id)
    ensures Apart(Insert(side, s, o), opp)
  {
  }

  lemma AddKeepsShape(b: Book, cap: Capacity, a: Incoming)
    requires Shaped(b)
    ensures Shaped(Add(b, cap, a).book)
  {
    hide Shaped, Ranked, Apart, Trimmed;
    if Screen(b, a) == NoReason {
      var side, opp := a.side, Opposite(a.side);
      var own, s := b.On(side), b.On(opp);
      Disassemble(b, side);
      var f := Fill(b.symbol, a, s, a.quantity);
      FillShape(b.symbol, a, s, a.quantity);
      TrimmedKeepsQueue(s, f.rest, opp);
      TrimmedKeepsApart(s, f.rest, own);
      TrimmedKeepsAbsent(s, f.rest, a.id);
      Reassemble(b, side, own, f.rest);
      var o := RestingOrder(b.symbol, a, f.left);
      InsertKeepsQueue(side, own, o);
      InsertKeepsApart(side, own, o, f.rest);
      Reassemble(b, side, Insert(side, own, o), f.rest);
    }
  }

  lemma RemoveKeepsQueue(side: Side, s: seq<Order>, i: nat, opp: seq<Order>)
    requires Ranked(side, s) && Apart(s, opp) && i < |s|
    ensures Ranked(side, RemoveAt(s, i)) && Apart(RemoveAt(s, i), opp)
    ensures Absent(RemoveAt(s, i), s[i].id)
  {
  }

  lemma UpdateKeepsQueue(side: Side, s: seq<Order>, opp: seq<Order>, i: nat, o: Order)
    requires Ranked(side, s) && Apart(s, opp) && i < |s|
    requires o.id == s[i].id && o.side == s[i].side && o.price == s[i].price
    ensures Ranked(side, s[i := o]) && Apart(s[i := o], opp)
  {
  }

  /** The book with its order at one place taken out. */
  function Without(b: Book, side: Side, i: nat): Book
    requires i < |b.On(side)|
  {
    b.With(side, RemoveAt(b.On(side), i))
  }

  lemma WithoutKeepsShape(b: Book, side: Side, i: nat)
    requires Shaped(b) && i < |b.On(side)|
    ensures Shaped(Without(b, side, i))
    ensures Locate(Without(b, side, i), b.On(side)[i].id) == Nowhere
  {
    var opp := b.On(Opposite(side));
    Disassemble(b, side);
    RemoveKeepsQueue(side, b.On(side), i, opp);
    Reassemble(b, side, RemoveAt(b.On(side), i), opp);
  }

  lemma ShrinkKeepsShape(b: Book, side: Side, i: nat, q: Quantity)
    requires Shaped(b) && i < |b.On(side)| && q <= b.On(side)[i].remaining
    ensures Shaped(b.With(side, b.On(side)[i := Shrink(b.On(side)[i], q)]))
  {
    var own, opp := b.On(side), b.On(Opposite(side));
    Disassemble(b, side);
    Reassemble(b, side, own[i := Shrink(own[i], q)], opp);
  }

  lemma ModifyKeepsShape(b: Book, cap: Capacity, id: OrderId, p: Price, q: Quantity, n: SequenceNumber, ts: Timestamp)
    requires Shaped(b)
    ensures Shaped(Modify(b, cap, id, p, q, n, ts).book)
  {
    match Locate(b, id)
    case Nowhere =>
    case At(side, i) =>
      var o := b.On(side)[i];
      if p == o.price && q <= o.remaining {
        ShrinkKeepsShape(b, side, i, q);
      } else {
        WithoutKeepsShape(b, side, i);
        AddKeepsShape(Without(b, side, i), cap, Replacement(o, p, q, n, ts));
      }
  }

  /** A new id is still new after its order has matched. */
  lemma MatchedAbsent(b: Book, a: Incoming)
    requires Locate(b, a.id) == Nowhere
    ensures Locate(b.With(Opposite(a.side), Fill(b.symbol, a, b.On(Opposite(a.side)), a.quantity).rest), a.id) == Nowhere
  {
    hide Trimmed, Fill;
    var s := b.On(Opposite(a.side));
    FillShape(b.symbol, a, s, a.quantity);
    TrimmedKeepsAbsent(s, Fill(b.symbol, a, s, a.quantity).rest, a.id);
  }

  lemma ScreenedAbsent(b: Book, a: Incoming)
    requires Screen(b, a) == NoReason
    ensures Locate(b, a.id) == Nowhere
  {
  }

  lemma LocatedId(b: Book, id: OrderId)
    ensures var p := Locate(b, id); p.At? ==> b.On(p.side)[p.pos].id == id
  {
  }

  // ----- Live, uncrossed books -----

  /** No order of `own` reaches any order of `opp`: the book is uncrossed, seen from `side`. */
  ghost predicate Clear(side: Side, own: seq<Order>, opp: seq<Order>) {
    forall i, j :: 0 <= i < |own| && 0 <= j < |opp| ==> Better(Opposite(side), own[i].price, opp[j].price)
  }

  lemma UncrossedIsClear(b: Book, side: Side)
    ensures Uncrossed(b) <==> Clear(side, b.On(side), b.On(Opposite(side)))
  {
  }

  lemma InsertKeepsClear(side: Side, own: seq<Order>, opp: seq<Order>, o: Order)
    requires Clear(side, own, opp)
    requires forall j :: 0 <= j < |opp| ==> Better(Opposite(side), o.price, opp[j].price)
    ensures Clear(side, Insert(side, own, o), opp)
  {
  }

  lemma TrimmedKeepsClear(side: Side, own: seq<Order>, s: seq<Order>, rest: seq<Order>)
    requires Clear(side, own, s) && Trimmed(s, rest)
    ensures Clear(side, own, rest)
  {
    forall i, j | 0 <= i < |own| && 0 <= j < |rest| ensures Better(Opposite(side), own[i].price, rest[j].price) {
      TrimmedAt(s, rest, j);
    }
  }

  lemma AddKeepsUncrossed(b: Book, cap: Capacity, a: Incoming)
    requires Ranked(Opposite(a.side), b.On(Opposite(a.side))) && Uncrossed(b)
    ensures Uncrossed(Add(b, cap, a).book)
  {
    hide Ranked, Uncrossed, Clear, Trimmed;
    if Screen(b, a) == NoReason {
      var own, s := b.On(a.side), b.On(Opposite(a.side));
      UncrossedIsClear(b, a.side);
      FillShape(b.symbol, a, s, a.quantity);
      var f := Fill(b.symbol, a, s, a.quantity);
      TrimmedKeepsClear(a.side, own, s, f.rest);
      if CanRest(a, f.left) {
        FillLeavesUncrossing(b.symbol, a, s, a.quantity, Opposite(a.side));
        InsertKeepsClear(a.side, own, f.rest, RestingOrder(b.symbol, a, f.left));
      }
      UncrossedIsClear(Add(b, cap, a).book, a.side);
    }
  }

  /** When quantity is left over, nothing left on the queue crosses. */
  lemma FillLeavesUncrossing(symbol: SymbolId, a: Incoming, s: seq<Order>, q: Quantity, side: Side)
    requires Ranked(side, s) && side == Opposite(a.side) && Fill(symbol, a, s, q).left > 0
    ensures var rest := Fill(symbol, a, s, q).rest;
            forall j :: 0 <= j < |rest| ==> !Crosses(a, rest[j].price)
  {
    FillShape(symbol, a, s, q);
    FillStops(symbol, a, s, q);
    TrimmedKeepsQueue(s, Fill(symbol, a, s, q).rest, side);
  }

  lemma AllLiveInsert(side: Side, s: seq<Order>, o: Order, symbol: SymbolId)
    requires AllLive(s, symbol) && Live(o, symbol)
    ensures AllLive(Insert(side, s, o), symbol)
  {
  }

  lemma RestsLive(b: Book, a: Incoming, left: Quantity)
    requires Screen(b, a) == NoReason && CanRest(a, left) && left <= a.quantity
    ensures Live(RestingOrder(b.symbol, a, left), b.symbol)
  {
    hide Locate, CrossingSum;
  }

  lemma AddKeepsLive(b: Book, cap: Capacity, a: Incoming)
    requires AllLive(b.bids, b.symbol) && AllLive(b.asks, b.symbol)
    ensures var c := Add(b, cap, a).book; AllLive(c.bids, b.symbol) && AllLive(c.asks, b.symbol) && c.symbol == b.symbol
  {
    hide Fill, Screen, Trimmed, Insert, AllLive;
    if Screen(b, a) == NoReason {
      var s := b.On(Opposite(a.side));
      FillShape(b.symbol, a, s, a.quantity);
      var f := Fill(b.symbol, a, s, a.quantity);
      TrimmedKeepsLive(s, f.rest, b.symbol);
      if CanRest(a, f.left) {
        RestsLive(b, a, f.left);
        AllLiveInsert(a.side, b.On(a.side), RestingOrder(b.symbol, a, f.left), b.symbol);
      }
    }
  }

  lemma AddKeepsValid(b: Book, cap: Capacity, a: Incoming)
    requires Valid(b)
    ensures Valid(Add(b, cap, a).book)
  {
    AddKeepsShape(b, cap, a);
    AddKeepsLive(b, cap, a);
    Disassemble(b, a.side);
    AddKeepsUncrossed(b, cap, a);
  }

  lemma WithoutKeepsValid(b: Book, side: Side, i: nat)
    requires Valid(b) && i < |b.On(side)|
    ensures Valid(Without(b, side, i))
  {
    hide Shaped, Locate, Live;
    WithoutKeepsShape(b, side, i);
  }

  lemma ShrinkKeepsValid(b: Book, side: Side, i: nat, q: Quantity)
    requires Valid(b) && i < |b.On(side)| && 0 < q <= b.On(side)[i].remaining
    ensures Valid(b.With(side, b.On(side)[i := Shrink(b.On(side)[i], q)]))
  {
    ShrinkKeepsShape(b, side, i, q);
    assert Live(b.On(side)[i], b.symbol);
  }

  /** One step of any kind keeps the book sorted, live, uncrossed and free of duplicate ids. */
  lemma ApplyKeepsValid(b: Book, cap: Capacity, op: Op)
    requires Valid(b)
    ensures Valid(Apply(b, cap, op).book)
  {
    match op
    case AddOp(a) => AddKeepsValid(b, cap, a);
    case CancelOp(id) =>
      if Locate(b, id).At? { WithoutKeepsValid(b, Locate(b, id).side, Locate(b, id).pos); }
    case ModifyOp(id, p, q, n, ts) =>
      match Locate(b, id)
      case Nowhere =>
      case At(side, i) =>
        var o := b.On(side)[i];
        if q != 0 && p == o.price && q <= o.remaining {
          ShrinkKeepsValid(b, side, i, q);
        } else {
          WithoutKeepsValid(b, side, i);
          AddKeepsValid(Without(b, side, i), cap, Replacement(o, p, q, n, ts));
        }
  }

  /**
    Every book reachable from the empty one, under any capacity, is valid; in particular its best bid is
    below its best ask.
   */
  lemma {:induction false} RunKeepsValid(b: Book, cap: Capacity, ops: seq<Op>)
    requires Valid(b)
    ensures Valid(Run(b, cap, ops).book)
    decreases |ops|
  {
    if ops != [] {
      ApplyKeepsValid(b, cap, ops[0]);
      RunKeepsValid(Apply(b, cap, ops[0]).book, cap, ops[1..]);
    }
  }

  lemma NeverCrossed(symbol: SymbolId, cap: Capacity, ops: seq<Op>)
    ensures var b := Run(Empty(symbol), cap, ops).book;
            && Valid(b)
            && (b.bids != [] && b.asks != [] ==> b.bids[0].price < b.asks[0].price)
            && (forall i :: 0 <= i < |b.bids| ==> b.bids[i].price <= b.bids[0].price)
            && (forall i :: 0 <= i < |b.asks| ==> b.asks[0].price <= b.asks[i].price)
  {
    RunKeepsValid(Empty(symbol), cap, ops);
  }

  // ----- Replacing an order -----

  /** Re-adding a live order that was just taken out passes every admission test. */
  lemma ReplacementAdmitted(b: Book, side: Side, i: nat, p: Price, q: Quantity, n: SequenceNumber, ts: Timestamp)
    requires Valid(b) && i < |b.On(side)| && p > 0 && q > 0
    ensures Screen(Without(b, side, i), Replacement(b.On(side)[i], p, q, n, ts)) == NoReason
  {
    WithoutKeepsShape(b, side, i);
    assert Live(b.On(side)[i], b.symbol);
  }

  lemma FillShrinksBook(b: Book, a: Incoming)
    ensures b.With(Opposite(a.side), Fill(b.symbol, a, b.On(Opposite(a.side)), a.quantity).rest).Count() <= b.Count()
  {
  }

  /**
    Modifying a resting order to a positive price and quantity always succeeds, for any capacity the book
    respected before the call, even when it was full.
   */
  lemma ModifyAlwaysSucceeds(b: Book, cap: Capacity, id: OrderId, p: Price, q: Quantity, n: SequenceNumber, ts: Timestamp)
    requires Valid(b) && Locate(b, id).At? && p > 0 && q > 0 && cap.Admits(b.Count())
    ensures var r := Modify(b, cap, id, p, q, n, ts).result;
            r.success && r.reason == NoReason
    ensures Modify(b, cap, id, p, q, n, ts) == Modify(b, Unbounded, id, p, q, n, ts)
  {
    var At(side, i) := Locate(b, id);
    var o := b.On(side)[i];
    ReplacementAdmitted(b, side, i, p, q, n, ts);
    FillShrinksBook(Without(b, side, i), Replacement(o, p, q, n, ts));
  }

  /** With nothing on the other side, an admitted order that may rest rests whole. */
  lemma AddRestsWhole(b: Book, a: Incoming)
    requires Screen(b, a) == NoReason && b.On(Opposite(a.side)) == [] && a.otype == Limit && a.tif == GoodTillCancel
    ensures Add(b, Unbounded, a) == Step(b.With(a.side, Insert(a.side, b.On(a.side), RestingOrder(b.symbol, a, a.quantity))),
                                         AddResult(true, NoReason, New, 0, a.quantity, []))
  {
    hide Insert, Locate, CrossingSum;
  }
}
