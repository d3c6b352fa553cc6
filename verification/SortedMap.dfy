/** `std::map` keyed by price, best price of its side first: a sorted sequence of entries. */
module SortedMap {
  import opened Types
  import opened BookModel

  datatype Entry<+V> = Entry(price: Price, value: V)

  ghost predicate Sorted<V>(side: Side, m: seq<Entry<V>>) {
    forall i, j :: 0 <= i < j < |m| ==> Better(side, m[i].price, m[j].price)
  }

  /** Where the entry of price `p` is, or would go. */
  function Find<V>(side: Side, m: seq<Entry<V>>, p: Price): (r: nat)
    ensures r <= |m|
    ensures forall k :: 0 <= k < r ==> Better(side, m[k].price, p)
    ensures r < |m| ==> !Better(side, m[r].price, p)
  {
    if m == [] || !Better(side, m[0].price, p) then 0 else 1 + Find(side, m[1..], p)
  }

  predicate Has<V>(side: Side, m: seq<Entry<V>>, p: Price) {
    var i := Find(side, m, p);
    i < |m| && m[i].price == p
  }

  function Erase<V>(m: seq<Entry<V>>, i: nat): seq<Entry<V>>
    requires i < |m|
  {
    m[..i] + m[i + 1..]
  }

  /** Replace the entry of price `p`, or add it in its sorted place. */
  function Put<V>(side: Side, m: seq<Entry<V>>, p: Price, v: V): (r: seq<Entry<V>>) {
    var i := Find(side, m, p);
    if Has(side, m, p) then m[i := Entry(p, v)] else m[..i] + [Entry(p, v)] + m[i..]
  }

  /** The only place a key can be is where Find looks. */
  lemma FindUnique<V>(side: Side, m: seq<Entry<V>>, i: nat)
    requires Sorted(side, m) && i < |m|
    ensures Find(side, m, m[i].price) == i && Has(side, m, m[i].price)
  {
  }

  lemma FindSplits<V>(side: Side, m: seq<Entry<V>>, p: Price)
    requires Sorted(side, m)
    ensures var i := Find(side, m, p);
            && (forall k :: (if Has(side, m, p) then i + 1 else i) <= k < |m| ==> Better(side, p, m[k].price))
  {
    var i := Find(side, m, p);
    if i < |m| && m[i].price != p {
      assert Better(side, p, m[i].price);
    }
  }

  lemma PutSorted<V>(side: Side, m: seq<Entry<V>>, p: Price, v: V)
    requires Sorted(side, m)
    ensures Sorted(side, Put(side, m, p, v))
  {
    FindSplits(side, m, p);
  }
}
