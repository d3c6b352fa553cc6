/** Steps of the matching loops, and the id index both implementations keep beside their levels. */
module Matching {
  import opened Types
  import opened BookModel
  import opened BookFacts

  // ----- One turn of the inner loop -----

  /** The queue after the front order traded `Min(q, remaining)`. */
  function FrontTraded(s: seq<Order>, q: Quantity): seq<Order>
    requires s != []
  {
    var t := Min(q, s[0].remaining);
    if t == s[0].remaining then s[1..] else [Reduce(s[0], t)] + s[1..]
  }

  /** Trading with the front order and carrying on is the whole match. */
  lemma FillStep(symbol: SymbolId, a: Incoming, s: seq<Order>, q: Quantity, trades: seq<Trade>)
    requires s != [] && q > 0 && Crosses(a, s[0].price)
    ensures var t := Min(q, s[0].remaining);
            Fill(symbol, a, s, q).After(trades)
              == Fill(symbol, a, FrontTraded(s, q), q - t).After(trades + [TradeOf(symbol, a, s[0], t)])
  {
    var t := Min(q, s[0].remaining);
    var trade := TradeOf(symbol, a, s[0], t);
    var g := Fill(symbol, a, FrontTraded(s, q), q - t);
    assert trades + ([trade] + g.trades) == trades + [trade] + g.trades;
  }

  lemma FillDone(symbol: SymbolId, a: Incoming, s: seq<Order>, q: Quantity, trades: seq<Trade>)
    requires s == [] || q == 0 || !Crosses(a, s[0].price)
    ensures Fill(symbol, a, s, q).After(trades) == Filling(s, q, trades)
  {
    assert trades + [] == trades;
  }

  lemma TrimmedStep(s: seq<Order>, rest: seq<Order>, q: Quantity)
    requires rest != [] && |rest| <= |s| && rest == s[|s| - |rest|..] && q > 0
    ensures Trimmed(s, FrontTraded(rest, q))
  {
  }

  lemma TrimmedConcat(s: seq<Order>, rest: seq<Order>, tail: seq<Order>)
    requires Trimmed(s, rest)
    ensures Trimmed(s + tail, rest + tail)
  {
    var d := |s| - |rest|;
    if rest == s[d..] {
      assert (s + tail)[d..] == rest + tail;
    } else {
      assert rest + tail == [rest[0]] + (s + tail)[d + 1..];
    }
  }

  lemma FrontOfConcat(s: seq<Order>, behind: seq<Order>, q: Quantity)
    requires s != []
    ensures FrontTraded(s + behind, q) == FrontTraded(s, q) + behind
  {
  }

  lemma TotalAfterTrade(s: seq<Order>, q: Quantity, total: Quantity)
    requires s != [] && total == Wrap64(Sum(s))
    ensures Wrap64(total - Min(q, s[0].remaining)) == Wrap64(Sum(FrontTraded(s, q)))
  {
    WrapAdd(Sum(s), Min(q, s[0].remaining));
    var r := FrontTraded(s, q);
    if Min(q, s[0].remaining) != s[0].remaining {
      assert r[1..] == s[1..];
    }
  }

  /** A level's queue is down from `s0` to `s`, its total follows, and the match from here is the match from the start. */
  ghost predicate Midway(symbol: SymbolId, a: Incoming, s0: seq<Order>, behind: seq<Order>, q: Quantity,
                         s: seq<Order>, total: Quantity, left: Quantity, trades: seq<Trade>)
  {
    && Trimmed(s0, s)
    && (forall k :: 0 <= k < |s0| ==> Crosses(a, s0[k].price))
    && (left > 0 ==> s == s0[|s0| - |s|..])
    && total == Wrap64(Sum(s))
    && Fill(symbol, a, s + behind, left).After(trades) == Fill(symbol, a, s0 + behind, q)
  }

  lemma MidwayStart(symbol: SymbolId, a: Incoming, s0: seq<Order>, behind: seq<Order>, q: Quantity, total: Quantity)
    requires total == Wrap64(Sum(s0)) && forall k :: 0 <= k < |s0| ==> Crosses(a, s0[k].price)
    ensures Midway(symbol, a, s0, behind, q, s0, total, q, [])
  {
    var f := Fill(symbol, a, s0 + behind, q);
    assert [] + f.trades == f.trades;
  }

  lemma MidwayFront(symbol: SymbolId, a: Incoming, s0: seq<Order>, behind: seq<Order>, q: Quantity,
                    s: seq<Order>, total: Quantity, left: Quantity, trades: seq<Trade>)
    requires Midway(symbol, a, s0, behind, q, s, total, left, trades) && s != [] && left > 0
    ensures |s| <= |s0| && s[0] == s0[|s0| - |s|]
  {
  }

  /** One turn of the inner loop. */
  lemma MidwayStep(symbol: SymbolId, a: Incoming, s0: seq<Order>, behind: seq<Order>, q: Quantity,
                   s: seq<Order>, total: Quantity, left: Quantity, trades: seq<Trade>)
    requires Midway(symbol, a, s0, behind, q, s, total, left, trades)
    requires s != [] && left > 0
    ensures var t := Min(left, s[0].remaining);
            Midway(symbol, a, s0, behind, q, FrontTraded(s, left), Wrap64(total - t), left - t,
                   trades + [TradeOf(symbol, a, s[0], t)])
  {
    var t := Min(left, s[0].remaining);
    assert s[0] == s0[|s0| - |s|];
    FillStep(symbol, a, s + behind, left, trades);
    FrontOfConcat(s, behind, left);
    hide Fill;
    TrimmedStep(s0, s, left);
    TotalAfterTrade(s, left, total);
    if left - t > 0 {
      assert FrontTraded(s, left) == s[1..];
    }
  }

  // ----- Ids -----

  function Ids(s: seq<Order>): set<OrderId> {
    set k | 0 <= k < |s| :: s[k].id
  }

  /** `index` is `index0` without the first `d` orders of a queue. */
  ghost predicate Erased<V>(index: map<OrderId, V>, index0: map<OrderId, V>, s: seq<Order>, d: int) {
    0 <= d <= |s| && index == index0 - Ids(s[..d])
  }

  lemma ErasedNone<V>(index: map<OrderId, V>, s: seq<Order>)
    ensures Erased(index, index, s, 0)
  {
  }

  lemma ErasedNext<V>(index: map<OrderId, V>, index0: map<OrderId, V>, s: seq<Order>, d: nat)
    requires d < |s| && Erased(index, index0, s, d)
    ensures Erased(index - {s[d].id}, index0, s, d + 1)
  {
    assert Ids(s[..d + 1]) == Ids(s[..d]) + {s[d].id} by {
      assert forall k :: 0 <= k < d ==> s[..d + 1][k] == s[..d][k];
      assert s[..d + 1][d] == s[d];
    }
  }

  lemma IdsInsert(side: Side, s: seq<Order>, o: Order)
    ensures Ids(Insert(side, s, o)) == Ids(s) + {o.id}
  {
    var k := InsertPos(side, s, o.price);
    var r := Insert(side, s, o);
    assert r[k] == o;
    forall id | id in Ids(s) ensures id in Ids(r) {
      var j :| 0 <= j < |s| && s[j].id == id;
      assert r[if j < k then j else j + 1] == s[j];
    }
  }

  lemma IdsRemove(side: Side, s: seq<Order>, i: nat)
    requires Ranked(side, s) && i < |s|
    ensures Ids(RemoveAt(s, i)) == Ids(s) - {s[i].id}
  {
    var r := RemoveAt(s, i);
    forall id | id in Ids(s) && id != s[i].id ensures id in Ids(r) {
      var j :| 0 <= j < |s| && s[j].id == id;
      assert r[if j < i then j else j - 1] == s[j];
    }
  }

  lemma IdsUpdate(s: seq<Order>, i: nat, o: Order)
    requires i < |s| && o.id == s[i].id
    ensures Ids(s[i := o]) == Ids(s)
  {
    var r := s[i := o];
    forall k | 0 <= k < |s| ensures r[k].id == s[k].id { }
    forall id | id in Ids(s) ensures id in Ids(r) {
      var j :| 0 <= j < |s| && s[j].id == id;
      assert r[j].id == id;
    }
  }

  lemma IdsTrimmed(side: Side, s: seq<Order>, rest: seq<Order>)
    requires Ranked(side, s) && Trimmed(s, rest)
    ensures Ids(rest) == Ids(s) - Ids(s[..|s| - |rest|])
  {
    var d := |s| - |rest|;
    forall j | 0 <= j < |rest| ensures rest[j].id in Ids(s) - Ids(s[..d]) {
      TrimmedAt(s, rest, j);
      assert s[d + j].id !in Ids(s[..d]);
    }
    forall id | id in Ids(s) - Ids(s[..d]) ensures id in Ids(rest) {
      var k :| 0 <= k < |s| && s[k].id == id;
      TrimmedAt(s, rest, k - d);
    }
  }

  lemma LocateIffIds(b: Book, id: OrderId)
    ensures Locate(b, id).At? <==> id in Ids(b.bids) + Ids(b.asks)
  {
    match Locate(b, id)
    case At(side, i) => assert b.On(side)[i].id == id;
    case Nowhere =>
  }

  /** In a well-shaped book an id is in one place only, so that is where it is located. */
  lemma LocateUnique(b: Book, side: Side, i: nat)
    requires Shaped(b) && i < |b.On(side)|
    ensures Locate(b, b.On(side)[i].id) == At(side, i)
  {
    var id := b.On(side)[i].id;
    match Locate(b, id)
    case Nowhere =>
    case At(s2, j) => assert b.On(s2)[j].id == id;
  }
}
