/**
  Price levels: the grouped form of one side of a book that both implementations store, and how each
  edit of a level reads as an edit of the flat queue.
 */
module Levels {
  import opened Types
  import opened BookModel
  import opened SortedMap
  import BookFacts

  type Level = Entry<seq<Order>>

  ghost predicate LevelOk(side: Side, l: Level) {
    l.value != [] && forall k :: 0 <= k < |l.value| ==> l.value[k].price == l.price && l.value[k].side == side
  }

  ghost predicate LevelsOk(side: Side, ls: seq<Level>) {
    Sorted(side, ls) && forall i :: 0 <= i < |ls| ==> LevelOk(side, ls[i])
  }

  function Flatten(ls: seq<Level>): seq<Order> {
    if ls == [] then [] else ls[0].value + Flatten(ls[1..])
  }

  lemma {:induction false} FlattenConcat(a: seq<Level>, b: seq<Level>)
    ensures Flatten(a + b) == Flatten(a) + Flatten(b)
  {
    if a == [] {
      assert a + b == b;
    } else {
      FlattenConcat(a[1..], b);
      assert (a + b)[0] == a[0] && (a + b)[1..] == a[1..] + b;
      Associate(a[0].value, Flatten(a[1..]), Flatten(b));
    }
  }

  /** Level `i` is one contiguous stretch of the flat queue. */
  lemma FlattenSplit(ls: seq<Level>, i: nat)
    requires i < |ls|
    ensures Flatten(ls) == Flatten(ls[..i]) + ls[i].value + Flatten(ls[i + 1..])
  {
    FlattenConcat(ls[..i], ls[i..]);
    assert ls == ls[..i] + ls[i..];
    Associate(Flatten(ls[..i]), ls[i].value, Flatten(ls[i + 1..]));
  }

  lemma FlattenReplace(ls: seq<Level>, i: nat, l: Level)
    requires i < |ls|
    ensures Flatten(ls[i := l]) == Flatten(ls[..i]) + l.value + Flatten(ls[i + 1..])
  {
    FlattenSplit(ls[i := l], i);
    assert ls[i := l][..i] == ls[..i] && ls[i := l][i + 1..] == ls[i + 1..];
  }

  lemma FlattenOne(l: Level)
    ensures Flatten([l]) == l.value
  {
    assert [l][1..] == [];
  }

  lemma FlattenGrow(ls: seq<Level>, i: nat, l: Level)
    requires i <= |ls|
    ensures Flatten(ls[..i] + [l] + ls[i..]) == Flatten(ls[..i]) + l.value + Flatten(ls[i..])
    ensures Flatten(ls) == Flatten(ls[..i]) + Flatten(ls[i..])
  {
    hide Flatten;
    FlattenConcat(ls[..i] + [l], ls[i..]);
    FlattenConcat(ls[..i], [l]);
    FlattenOne(l);
    FlattenConcat(ls[..i], ls[i..]);
    assert ls == ls[..i] + ls[i..];
  }

  /** Whatever holds of every order of every level holds all along the flat queue. */
  lemma {:induction false} FlattenAll(ls: seq<Level>, p: Order -> bool)
    requires forall i, k :: 0 <= i < |ls| && 0 <= k < |ls[i].value| ==> p(ls[i].value[k])
    ensures forall j :: 0 <= j < |Flatten(ls)| ==> p(Flatten(ls)[j])
  {
    if ls != [] {
      assert forall k :: 0 <= k < |ls[0].value| ==> p(ls[0].value[k]);
      forall i, k | 0 <= i < |ls[1..]| && 0 <= k < |ls[1..][i].value| ensures p(ls[1..][i].value[k]) {
        assert ls[1..][i] == ls[i + 1];
      }
      FlattenAll(ls[1..], p);
    }
  }

  /** Levels of better (worse) price than `p` flatten to orders of better (worse) price. */
  lemma AllBetter(side: Side, ls: seq<Level>, p: Price)
    requires forall i :: 0 <= i < |ls| ==> LevelOk(side, ls[i]) && Better(side, ls[i].price, p)
    ensures forall j :: 0 <= j < |Flatten(ls)| ==> Better(side, Flatten(ls)[j].price, p)
  {
    FlattenAll(ls, (o: Order) => Better(side, o.price, p));
  }

  lemma AllWorse(side: Side, ls: seq<Level>, p: Price)
    requires forall i :: 0 <= i < |ls| ==> LevelOk(side, ls[i]) && Better(side, p, ls[i].price)
    ensures forall j :: 0 <= j < |Flatten(ls)| ==> Better(side, p, Flatten(ls)[j].price)
  {
    FlattenAll(ls, (o: Order) => Better(side, p, o.price));
  }

  // ----- An order joins -----

  /** The queue at price `p`, empty when there is no such level. */
  function QueueAt(side: Side, ls: seq<Level>, p: Price): seq<Order> {
    if Has(side, ls, p) then ls[Find(side, ls, p)].value else []
  }

  function Join(side: Side, ls: seq<Level>, o: Order): seq<Level> {
    Put(side, ls, o.price, QueueAt(side, ls, o.price) + [o])
  }

  lemma JoinOk(side: Side, ls: seq<Level>, o: Order)
    requires LevelsOk(side, ls) && o.side == side
    ensures LevelsOk(side, Join(side, ls, o))
  {
    PutSorted(side, ls, o.price, QueueAt(side, ls, o.price) + [o]);
    assert LevelOk(side, Entry(o.price, QueueAt(side, ls, o.price) + [o]));
  }

  lemma SpliceInsert(side: Side, a: seq<Order>, m: seq<Order>, c: seq<Order>, o: Order)
    requires forall j :: 0 <= j < |a| ==> Better(side, a[j].price, o.price)
    requires forall j :: 0 <= j < |m| ==> m[j].price == o.price
    requires forall j :: 0 <= j < |c| ==> Better(side, o.price, c[j].price)
    ensures a + (m + [o]) + c == Insert(side, a + m + c, o)
  {
    BookFacts.InsertPosUnique(side, a + m + c, o.price, |a| + |m|);
    assert (a + m + c)[..|a| + |m|] == a + m;
    assert (a + m + c)[|a| + |m|..] == c;
  }

  /** Joining the back of a level, new or old, is joining the flat queue in price-time order. */
  lemma JoinIsInsert(side: Side, ls: seq<Level>, o: Order)
    requires LevelsOk(side, ls)
    ensures Flatten(Join(side, ls, o)) == Insert(side, Flatten(ls), o)
  {
    var i := Find(side, ls, o.price);
    var j := if Has(side, ls, o.price) then i + 1 else i;
    var m := QueueAt(side, ls, o.price);
    FindSplits(side, ls, o.price);
    AllBetter(side, ls[..i], o.price);
    AllWorse(side, ls[j..], o.price);
    SpliceInsert(side, Flatten(ls[..i]), m, Flatten(ls[j..]), o);
    if Has(side, ls, o.price) {
      FlattenSplit(ls, i);
      FlattenReplace(ls, i, Entry(o.price, m + [o]));
    } else {
      FlattenGrow(ls, i, Entry(o.price, m + [o]));
      assert Flatten(ls[..i]) + m == Flatten(ls[..i]);
    }
  }

  // ----- An order leaves or shrinks -----

  /** Where the k-th order of level `i` sits in the flat queue. */
  function Offset(ls: seq<Level>, i: nat): nat
    requires i <= |ls|
  {
    |Flatten(ls[..i])|
  }

  /** Take the k-th order out of level `i`; a level left empty disappears. */
  function Leave(ls: seq<Level>, i: nat, k: nat): seq<Level>
    requires i < |ls| && k < |ls[i].value|
  {
    if |ls[i].value| == 1 then Erase(ls, i) else ls[i := Entry(ls[i].price, RemoveAt(ls[i].value, k))]
  }

  lemma LeaveOk(side: Side, ls: seq<Level>, i: nat, k: nat)
    requires LevelsOk(side, ls) && i < |ls| && k < |ls[i].value|
    ensures LevelsOk(side, Leave(ls, i, k))
  {
    assert LevelOk(side, ls[i]);
  }

  lemma FlatAt(ls: seq<Level>, i: nat, k: nat)
    requires i < |ls| && k < |ls[i].value|
    ensures Offset(ls, i) + k < |Flatten(ls)| && Flatten(ls)[Offset(ls, i) + k] == ls[i].value[k]
  {
    FlattenSplit(ls, i);
  }

  lemma SpliceRemove(a: seq<Order>, m: seq<Order>, c: seq<Order>, k: nat)
    requires k < |m|
    ensures RemoveAt(a + m + c, |a| + k) == a + RemoveAt(m, k) + c
  {
  }

  lemma RemoveOnly(a: seq<Order>, m: seq<Order>, c: seq<Order>, k: nat)
    requires k < |m| == 1
    ensures a + RemoveAt(m, k) + c == a + c
  {
    assert RemoveAt(m, k) == [];
  }

  lemma LeaveIsRemove(ls: seq<Level>, i: nat, k: nat)
    requires i < |ls| && k < |ls[i].value|
    ensures Offset(ls, i) + k < |Flatten(ls)|
    ensures Flatten(Leave(ls, i, k)) == RemoveAt(Flatten(ls), Offset(ls, i) + k)
  {
    hide Flatten, RemoveAt;
    FlatAt(ls, i, k);
    FlattenSplit(ls, i);
    var before, after := Flatten(ls[..i]), Flatten(ls[i + 1..]);
    SpliceRemove(before, ls[i].value, after, k);
    if |ls[i].value| == 1 {
      FlattenConcat(ls[..i], ls[i + 1..]);
      RemoveOnly(before, ls[i].value, after, k);
    } else {
      FlattenReplace(ls, i, Entry(ls[i].price, RemoveAt(ls[i].value, k)));
    }
  }

  function Swap(ls: seq<Level>, i: nat, k: nat, o: Order): seq<Level>
    requires i < |ls| && k < |ls[i].value|
  {
    ls[i := Entry(ls[i].price, ls[i].value[k := o])]
  }

  lemma SwapIsUpdate(ls: seq<Level>, i: nat, k: nat, o: Order)
    requires i < |ls| && k < |ls[i].value|
    ensures Offset(ls, i) + k < |Flatten(ls)|
    ensures Flatten(Swap(ls, i, k, o)) == Flatten(ls)[Offset(ls, i) + k := o]
  {
    FlatAt(ls, i, k);
    FlattenSplit(ls, i);
    FlattenReplace(ls, i, Entry(ls[i].price, ls[i].value[k := o]));
  }

  // ----- Quantities and membership -----

  lemma {:induction false} SumConcat(a: seq<Order>, b: seq<Order>)
    ensures Sum(a + b) == Sum(a) + Sum(b)
  {
    if a == [] {
      assert a + b == b;
    } else {
      SumConcat(a[1..], b);
      assert (a + b)[1..] == a[1..] + b;
    }
  }

  lemma {:induction false} SumRemove(s: seq<Order>, k: nat)
    requires k < |s|
    ensures Sum(RemoveAt(s, k)) == Sum(s) - s[k].remaining
  {
    SumConcat(s[..k], s[k + 1..]);
    SumConcat(s[..k], s[k..]);
    assert s == s[..k] + s[k..];
  }

  lemma {:induction false} SumUpdate(s: seq<Order>, k: nat, o: Order)
    requires k < |s|
    ensures Sum(s[k := o]) == Sum(s) - s[k].remaining + o.remaining
  {
    SumRemove(s, k);
    SumRemove(s[k := o], k);
    assert RemoveAt(s[k := o], k) == RemoveAt(s, k);
  }

  lemma {:induction false} SumAtConcat(a: seq<Order>, b: seq<Order>, p: Price)
    ensures SumAt(a + b, p) == SumAt(a, p) + SumAt(b, p)
  {
    if a == [] {
      assert a + b == b;
    } else {
      SumAtConcat(a[1..], b, p);
      assert (a + b)[1..] == a[1..] + b;
    }
  }

  lemma {:induction false} SumAtUniform(s: seq<Order>, p: Price)
    ensures (forall k :: 0 <= k < |s| ==> s[k].price != p) ==> SumAt(s, p) == 0
    ensures (forall k :: 0 <= k < |s| ==> s[k].price == p) ==> SumAt(s, p) == Sum(s)
  {
    if s != [] {
      SumAtUniform(s[1..], p);
    }
  }

  /** A level's total is the queue's quantity at that price. */
  lemma QueueSum(side: Side, ls: seq<Level>, p: Price)
    requires LevelsOk(side, ls)
    ensures SumAt(Flatten(ls), p) == Sum(QueueAt(side, ls, p))
  {
    var i := Find(side, ls, p);
    var j := if Has(side, ls, p) then i + 1 else i;
    var m := QueueAt(side, ls, p);
    FindSplits(side, ls, p);
    AllBetter(side, ls[..i], p);
    AllWorse(side, ls[j..], p);
    var a, c := Flatten(ls[..i]), Flatten(ls[j..]);
    if Has(side, ls, p) {
      FlattenSplit(ls, i);
      assert LevelOk(side, ls[i]);
    } else {
      FlattenGrow(ls, i, Entry(p, []));
      assert a + m == a;
    }
    SumAtConcat(a + m, c, p);
    SumAtConcat(a, m, p);
    SumAtUniform(a, p); SumAtUniform(m, p); SumAtUniform(c, p);
  }

  /** Quantity of the leading levels that an incoming order crosses, as an exact sum. */
  function CrossingLevels(a: Incoming, ls: seq<Level>): nat {
    if ls == [] || !Crosses(a, ls[0].price) then 0 else Sum(ls[0].value) + CrossingLevels(a, ls[1..])
  }

  lemma {:induction false} CrossingSumConcat(a: Incoming, s: seq<Order>, t: seq<Order>)
    requires forall k :: 0 <= k < |s| ==> Crosses(a, s[k].price)
    ensures CrossingSum(a, s + t) == Sum(s) + CrossingSum(a, t)
  {
    if s == [] {
      assert s + t == t;
    } else {
      CrossingSumConcat(a, s[1..], t);
      assert (s + t)[1..] == s[1..] + t;
    }
  }

  lemma {:induction false} CrossingIsPerLevel(side: Side, a: Incoming, ls: seq<Level>)
    requires forall i :: 0 <= i < |ls| ==> LevelOk(side, ls[i])
    ensures CrossingLevels(a, ls) == CrossingSum(a, Flatten(ls))
  {
    if ls != [] {
      assert LevelOk(side, ls[0]);
      if Crosses(a, ls[0].price) {
        CrossingIsPerLevel(side, a, ls[1..]);
        CrossingSumConcat(a, ls[0].value, Flatten(ls[1..]));
      }
    }
  }

  lemma EmptyTotal()
    ensures Wrap64(Sum([])) == 0
  {
  }

  // The FillOrKill pre-check adds level totals in a 64-bit register, one crossing level after another.

  lemma AvailableAll(side: Side, a: Incoming, ls: seq<Level>)
    requires LevelsOk(side, ls)
    ensures Wrap64(0 + CrossingLevels(a, ls[0..])) == Wrap64(CrossingSum(a, Flatten(ls)))
  {
    CrossingIsPerLevel(side, a, ls);
    assert ls[0..] == ls;
  }

  lemma AvailableNext(a: Incoming, ls: seq<Level>, i: nat, total: Quantity, level: Quantity)
    requires i < |ls| && Crosses(a, ls[i].price) && level == Wrap64(Sum(ls[i].value))
    ensures Wrap64(Wrap64(total + level) + CrossingLevels(a, ls[i + 1..])) == Wrap64(total + CrossingLevels(a, ls[i..]))
  {
    hide Wrap64, Sum;
    assert ls[i..][1..] == ls[i + 1..];
    WrapAdd(total + level, CrossingLevels(a, ls[i + 1..]));
    WrapAdd(total + CrossingLevels(a, ls[i + 1..]), Sum(ls[i].value));
  }

  lemma AvailableDone(a: Incoming, ls: seq<Level>, i: nat, total: Quantity)
    requires i <= |ls| && (i < |ls| ==> !Crosses(a, ls[i].price))
    ensures Wrap64(total + CrossingLevels(a, ls[i..])) == total
  {
  }

  // ----- Matching works through the front level -----

  /** Put `rest` in place of the front level's queue; an emptied level disappears. */
  function FrontLeft(ls: seq<Level>, rest: seq<Order>): seq<Level>
    requires ls != []
  {
    if rest == [] then ls[1..] else ls[0 := Entry(ls[0].price, rest)]
  }

  lemma FrontLeftOk(side: Side, ls: seq<Level>, rest: seq<Order>)
    requires LevelsOk(side, ls) && ls != [] && BookFacts.Trimmed(ls[0].value, rest)
    ensures LevelsOk(side, FrontLeft(ls, rest))
  {
    forall k | 0 <= k < |rest| ensures rest[k].price == ls[0].price && rest[k].side == side {
      assert LevelOk(side, ls[0]);
      BookFacts.TrimmedAt(ls[0].value, rest, k);
    }
  }

  lemma FrontLeftFlat(ls: seq<Level>, rest: seq<Order>)
    requires ls != []
    ensures Flatten(ls) == ls[0].value + Flatten(ls[1..])
    ensures Flatten(FrontLeft(ls, rest)) == rest + Flatten(ls[1..])
  {
    if rest != [] {
      assert ls[0 := Entry(ls[0].price, rest)][1..] == ls[1..];
    }
  }

  // ----- From the flat queue back to levels -----

  lemma {:induction false} FlatWhere(ls: seq<Level>, j: nat) returns (i: nat, k: nat)
    requires j < |Flatten(ls)|
    ensures i < |ls| && k < |ls[i].value| && ls[i].value[k] == Flatten(ls)[j]
  {
    if j < |ls[0].value| {
      i, k := 0, j;
    } else {
      i, k := FlatWhere(ls[1..], j - |ls[0].value|);
      i := i + 1;
    }
  }

  /** The order at a flat position is in the level that its own price names. */
  lemma FlatLevel(side: Side, ls: seq<Level>, j: nat)
    requires LevelsOk(side, ls) && j < |Flatten(ls)|
    ensures var o := Flatten(ls)[j];
            Has(side, ls, o.price) && o in ls[Find(side, ls, o.price)].value
  {
    var i, k := FlatWhere(ls, j);
    assert LevelOk(side, ls[i]);
    FindUnique(side, ls, i);
  }
}
