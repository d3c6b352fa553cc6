/** Snapshots: the bytes written for a whole cluster, and the cluster those bytes load as. */
module Snapshot {
  import opened Types
  import opened BookModel
  import opened BookFacts
  import opened Codec
  import opened Protocol
  import opened Partitions
  import E = EngineModel
  import MatchingEngine

  const MAGIC: seq<U8> := [0x4D, 0x45, 0x53, 0x4E]
  const VERSION: U8 := 1

  /** `Foreign` stands for bytes no engine writes: an enum byte without enumerator, or an order id twice in one book. */
  datatype Loaded<+T> = Loaded(value: T, rest: seq<U8>) | Truncated | BadMagic | BadVersion | Foreign {
    predicate IsFailure() { !Loaded? }
    function PropagateFailure<U>(): Loaded<U> requires !Loaded? {
      match this case Truncated => Truncated case BadMagic => BadMagic case BadVersion => BadVersion case Foreign => Foreign
    }
    function Extract(): (T, seq<U8>) requires Loaded? { (value, rest) }
  }

  // ----- One order -----

  const ORDER_LAYOUT: seq<nat> := [8, 8, 4, 8, 8, 8, 8, 8, 1, 1, 1, 1]

  function OrderFields(o: Order): seq<nat> {
    [o.id, o.trader, o.symbol, o.seqNo, o.timestamp, AsU64(o.price), o.quantity, o.remaining,
     SideByte(o.side), TypeByte(o.otype), TifByte(o.tif), StatusByte(o.status)]
  }

  lemma OrderFits(o: Order)
    ensures Fit(ORDER_LAYOUT, OrderFields(o))
  {
    hide Pow256;
    Widths();
  }

  function WriteOrder(o: Order): (s: seq<U8>)
    ensures |s| == TotalWidth(ORDER_LAYOUT)
  {
    WriteFields(ORDER_LAYOUT, OrderFields(o))
  }

  function OrderOf(vs: seq<nat>): Option<Order>
    requires Fit(ORDER_LAYOUT, vs)
  {
    Widths();
    var side :- SideOf(vs[8]);
    var otype :- TypeOf(vs[9]);
    var tif :- TifOf(vs[10]);
    var status :- StatusOf(vs[11]);
    Some(Order(vs[0], vs[1], vs[2], vs[3], vs[4], AsI64(vs[5]), vs[6], vs[7], side, otype, tif, status))
  }

  function ReadOrder(data: seq<U8>): Loaded<Order> {
    match ReadFields(ORDER_LAYOUT, data)
    case None => Truncated
    case Some(vs) =>
      ReadFit(ORDER_LAYOUT, data);
      match OrderOf(vs)
      case None => Foreign
      case Some(o) => Loaded(o, data[TotalWidth(ORDER_LAYOUT)..])
  }

  lemma OrderOfFields(o: Order)
    ensures Fit(ORDER_LAYOUT, OrderFields(o)) && OrderOf(OrderFields(o)) == Some(o)
  {
    OrderFits(o);
  }

  lemma OrderRoundTrip(o: Order, more: seq<U8>)
    ensures ReadOrder(WriteOrder(o) + more) == Loaded(o, more)
  {
    hide Fit, WriteFields, ReadFields, OrderOf, OrderFields, TotalWidth;
    OrderFits(o);
    ReadWritten(ORDER_LAYOUT, OrderFields(o), more);
    OrderOfFields(o);
    assert (WriteOrder(o) + more)[TotalWidth(ORDER_LAYOUT)..] == more;
  }

  // ----- Writing -----

  function WriteOrders(os: seq<Order>): seq<U8> {
    if os == [] then [] else WriteOrder(os[0]) + WriteOrders(os[1..])
  }

  function WriteBook(s: SymbolId, b: Book): seq<U8> {
    LE(4, s) + (LE(4, b.Count()) + WriteOrders(b.bids + b.asks))
  }

  /** Books in some order `names` of their symbols: an unordered map promises no particular one. */
  function WriteBooks(books: map<SymbolId, Book>, names: seq<SymbolId>): seq<U8>
    requires forall i :: 0 <= i < |names| ==> names[i] in books
  {
    if names == [] then [] else WriteBook(names[0], books[names[0]]) + WriteBooks(books, names[1..])
  }

  ghost predicate Lists(names: seq<SymbolId>, books: map<SymbolId, Book>) {
    && (forall i :: 0 <= i < |names| ==> names[i] in books)
    && (forall i, j :: 0 <= i < j < |names| ==> names[i] != names[j])
    && (forall s :: s in books ==> s in names)
  }

  function WritePart(e: E.Engine, names: seq<SymbolId>): seq<U8>
    requires forall i :: 0 <= i < |names| ==> names[i] in e.books
  {
    LE(8, e.nextSeq) + (LE(4, |names|) + WriteBooks(e.books, names))
  }

  ghost predicate ListsAll(names: seq<seq<SymbolId>>, parts: seq<E.Engine>) {
    |names| == |parts| && forall p :: 0 <= p < |parts| ==> Lists(names[p], parts[p].books)
  }

  ghost function WriteParts(parts: seq<E.Engine>, names: seq<seq<SymbolId>>): seq<U8>
    requires ListsAll(names, parts)
  {
    if parts == [] then [] else WritePart(parts[0], names[0]) + WriteParts(parts[1..], names[1..])
  }

  ghost function WriteSnapshot(c: Cluster, names: seq<seq<SymbolId>>): seq<U8>
    requires ListsAll(names, c.parts)
  {
    MAGIC + ([VERSION] + (LE(4, |c.parts|) + WriteParts(c.parts, names)))
  }

  // ----- Loading -----

  function Take(n: nat, data: seq<U8>): Loaded<nat> {
    if |data| < n then Truncated else Loaded(Value(data[..n]), data[n..])
  }

  function TakeU32(data: seq<U8>): Loaded<U32> {
    Widths();
    var (v, rest) :- Take(4, data);
    Loaded(v, rest)
  }

  function TakeU64(data: seq<U8>): Loaded<U64> {
    Widths();
    var (v, rest) :- Take(8, data);
    Loaded(v, rest)
  }

  lemma U32Written(v: U32, more: seq<U8>)
    ensures TakeU32(LE(4, v) + more) == Loaded(v, more)
  {
    hide Take, LE, Pow256;
    Widths();
    TakeWritten(4, v, more);
  }

  lemma U64Written(v: U64, more: seq<U8>)
    ensures TakeU64(LE(8, v) + more) == Loaded(v, more)
  {
    hide Take, LE, Pow256;
    Widths();
    TakeWritten(8, v, more);
  }

  lemma TakeWritten(n: nat, v: nat, more: seq<U8>)
    requires v < Pow256(n)
    ensures Take(n, LE(n, v) + more) == Loaded(v, more)
  {
    hide LE, Value, Pow256;
    ValueOfLE(n, v);
    assert (LE(n, v) + more)[..n] == LE(n, v) && (LE(n, v) + more)[n..] == more;
  }

  /** Restore `k` orders, one after another, into a book. */
  function LoadOrders(b: Book, k: nat, data: seq<U8>): Loaded<Book>
    decreases k
  {
    if k == 0 then Loaded(b, data)
    else
      var (o, d1) :- ReadOrder(data);
      if Locate(b, o.id).At? then Foreign
      else LoadOrders(MatchingEngine.RestoreTo(b, o), k - 1, d1)
  }

  /** Load one symbol into partition `p`: pin and register it, then restore its orders. */
  function LoadBook(c: Cluster, p: nat, data: seq<U8>): (r: Loaded<Cluster>)
    requires p < |c.parts|
    ensures r.Loaded? ==> |r.value.parts| == |c.parts|
  {
    var (symbol, d1) :- TakeU32(data);
    var (count, d2) :- TakeU32(d1);
    Filed(c, p, symbol, LoadOrders(Registered(c.parts[p], symbol), count, d2))
  }

  function Filed(c: Cluster, p: nat, s: SymbolId, b: Loaded<Book>): (r: Loaded<Cluster>)
    requires p < |c.parts|
    ensures r.Loaded? ==> |r.value.parts| == |c.parts|
  {
    var (book, rest) :- b;
    Loaded(File(c, p, s, book), rest)
  }

  /** The symbol's book once the symbol is registered. */
  function Registered(e: E.Engine, s: SymbolId): Book {
    if s in e.books then e.books[s] else Empty(s)
  }

  /** The cluster with one book filed on partition `p` and its symbol pinned there. */
  function File(c: Cluster, p: nat, s: SymbolId, b: Book): (d: Cluster)
    requires p < |c.parts|
    ensures |d.parts| == |c.parts|
  {
    Cluster(c.pins[s := p], c.parts[p := c.parts[p].(books := c.parts[p].books[s := b])])
  }

  function LoadBooks(c: Cluster, p: nat, k: nat, data: seq<U8>): (r: Loaded<Cluster>)
    requires p < |c.parts|
    ensures r.Loaded? ==> |r.value.parts| == |c.parts|
    decreases k
  {
    if k == 0 then Loaded(c, data)
    else
      var (c1, d1) :- LoadBook(c, p, data);
      LoadBooks(c1, p, k - 1, d1)
  }

  function LoadPart(c: Cluster, p: nat, data: seq<U8>): (r: Loaded<Cluster>)
    requires p < |c.parts|
    ensures r.Loaded? ==> |r.value.parts| == |c.parts|
  {
    var (next, d1) :- TakeU64(data);
    var (count, d2) :- TakeU32(d1);
    var (c1, d3) :- LoadBooks(c, p, count, d2);
    Loaded(WithCounter(c1, p, next), d3)
  }

  function WithCounter(c: Cluster, p: nat, n: SequenceNumber): (d: Cluster)
    requires p < |c.parts|
    ensures |d.parts| == |c.parts|
  {
    c.(parts := c.parts[p := c.parts[p].(nextSeq := n)])
  }

  function LoadParts(c: Cluster, p: nat, data: seq<U8>): (r: Loaded<Cluster>)
    requires p <= |c.parts|
    decreases |c.parts| - p
  {
    if p == |c.parts| then Loaded(c, data)
    else
      var (c1, d1) :- LoadPart(c, p, data);
      LoadParts(c1, p + 1, d1)
  }

  function LoadSnapshot(data: seq<U8>): Loaded<Cluster> {
    if |data| < 4 || data[..4] != MAGIC then BadMagic
    else if |data| < 5 || data[4] != VERSION then BadVersion
    else
      var (count, d1) :- TakeU32(data[5..]);
      LoadParts(Fresh(count), 0, d1)
  }

  // ----- Restoring a book order by order rebuilds it -----

  function RestoreAll(b: Book, os: seq<Order>): Book
    decreases |os|
  {
    if os == [] then b else RestoreAll(MatchingEngine.RestoreTo(b, os[0]), os[1..])
  }

  lemma {:induction false} RestoreConcat(b: Book, xs: seq<Order>, ys: seq<Order>)
    ensures RestoreAll(b, xs + ys) == RestoreAll(RestoreAll(b, xs), ys)
    decreases |xs|
  {
    if xs == [] {
      assert xs + ys == ys;
    } else {
      assert (xs + ys)[1..] == xs[1..] + ys;
      RestoreConcat(MatchingEngine.RestoreTo(b, xs[0]), xs[1..], ys);
    }
  }

  /** Putting a sorted queue back from the front, each order joins at the end. */
  lemma {:induction false} RestoreQueue(b: Book, side: Side, s: seq<Order>, k: nat)
    requires Ranked(side, s) && k <= |s| && b.On(side) == s[..k]
    ensures RestoreAll(b, s[k..]) == b.With(side, s)
    decreases |s| - k
  {
    if k == |s| {
      assert s[..k] == s;
    } else {
      assert s[k..][1..] == s[k + 1..] && s[k..][0] == s[k];
      InsertPosUnique(side, s[..k], s[k].price, k);
      assert s[..k][..k] + [s[k]] + s[..k][k..] == s[..k + 1];
      RestoreQueue(b.With(side, s[..k + 1]), side, s, k + 1);
    }
  }

  lemma RestoreBook(b: Book)
    requires Ranked(Buy, b.bids) && Ranked(Sell, b.asks)
    ensures RestoreAll(Empty(b.symbol), b.bids + b.asks) == b
  {
    hide RestoreAll, Ranked;
    var e := Empty(b.symbol);
    RestoreConcat(e, b.bids, b.asks);
    assert b.bids[0..] == b.bids && b.asks[0..] == b.asks;
    RestoreQueue(e, Buy, b.bids, 0);
    RestoreQueue(e.With(Buy, b.bids), Sell, b.asks, 0);
  }

  // ----- Loading what was written -----

  /** Orders that can all be added to a book: their ids differ and none is there yet. */
  ghost predicate Addable(b: Book, os: seq<Order>) {
    && (forall i :: 0 <= i < |os| ==> Locate(b, os[i].id) == Nowhere)
    && (forall i, j :: 0 <= i < j < |os| ==> os[i].id != os[j].id)
  }

  lemma StillAbsent(b: Book, o: Order, id: OrderId)
    requires Locate(b, id) == Nowhere && o.id != id
    ensures Locate(MatchingEngine.RestoreTo(b, o), id) == Nowhere
  {
    hide IndexOf, InsertPos;
  }

  lemma AddableNext(b: Book, os: seq<Order>)
    requires os != [] && Addable(b, os)
    ensures Locate(b, os[0].id) == Nowhere && Addable(MatchingEngine.RestoreTo(b, os[0]), os[1..])
  {
    hide Locate, MatchingEngine.RestoreTo;
    forall i | 0 <= i < |os| - 1 ensures Locate(MatchingEngine.RestoreTo(b, os[0]), os[1..][i].id) == Nowhere {
      StillAbsent(b, os[0], os[i + 1].id);
    }
  }

  lemma ShapedAddable(b: Book)
    requires Shaped(b)
    ensures Addable(Empty(b.symbol), b.bids + b.asks)
  {
  }

  lemma {:induction false} LoadWrittenOrders(b: Book, os: seq<Order>, more: seq<U8>)
    requires Addable(b, os)
    ensures LoadOrders(b, |os|, WriteOrders(os) + more) == Loaded(RestoreAll(b, os), more)
    decreases |os|
  {
    hide ReadOrder, WriteOrder, MatchingEngine.RestoreTo, Addable, Locate;
    if os == [] {
      assert WriteOrders(os) + more == more;
    } else {
      var tail := WriteOrders(os[1..]) + more;
      assert WriteOrders(os) + more == WriteOrder(os[0]) + tail;
      OrderRoundTrip(os[0], tail);
      AddableNext(b, os);
      LoadWrittenOrders(MatchingEngine.RestoreTo(b, os[0]), os[1..], more);
    }
  }

  function FileAll(c: Cluster, p: nat, books: map<SymbolId, Book>, names: seq<SymbolId>): (d: Cluster)
    requires p < |c.parts| && forall i :: 0 <= i < |names| ==> names[i] in books
    ensures |d.parts| == |c.parts|
    decreases |names|
  {
    if names == [] then c else FileAll(File(c, p, names[0], books[names[0]]), p, books, names[1..])
  }

  /** A book that can be written and restored: its queues are sorted, its ids differ, it knows its symbol, its size fits its field. */
  ghost predicate Storable(s: SymbolId, b: Book) {
    Shaped(b) && b.symbol == s && b.Count() < 0x1_0000_0000
  }

  ghost predicate AllStorable(books: map<SymbolId, Book>) {
    forall s :: s in books ==> Storable(s, books[s])
  }

  lemma LoadWrittenBook(c: Cluster, p: nat, s: SymbolId, b: Book, more: seq<U8>)
    requires p < |c.parts| && Storable(s, b) && s !in c.parts[p].books
    ensures LoadBook(c, p, WriteBook(s, b) + more) == Loaded(File(c, p, s, b), more)
  {
    hide LoadOrders, WriteOrders, LE, TakeU32, Ranked, Apart, Addable;
    ShapedAddable(b);
    var os := b.bids + b.asks;
    var d2 := WriteOrders(os) + more;
    var d1 := LE(4, b.Count()) + d2;
    assert WriteBook(s, b) + more == LE(4, s) + d1;
    U32Written(s, d1);
    U32Written(b.Count(), d2);
    LoadWrittenOrders(Empty(s), os, more);
    RestoreBook(b);
  }

  lemma {:induction false} LoadWrittenBooks(c: Cluster, p: nat, books: map<SymbolId, Book>, names: seq<SymbolId>, more: seq<U8>)
    requires p < |c.parts| && AllStorable(books)
    requires forall i :: 0 <= i < |names| ==> names[i] in books && names[i] !in c.parts[p].books
    requires forall i, j :: 0 <= i < j < |names| ==> names[i] != names[j]
    ensures LoadBooks(c, p, |names|, WriteBooks(books, names) + more) == Loaded(FileAll(c, p, books, names), more)
    decreases |names|
  {
    hide WriteBook, Storable, LoadBook;
    if names == [] {
      assert WriteBooks(books, names) + more == more;
    } else {
      var s := names[0];
      var tail := WriteBooks(books, names[1..]) + more;
      assert WriteBooks(books, names) + more == WriteBook(s, books[s]) + tail;
      LoadWrittenBook(c, p, s, books[s], tail);
      LoadWrittenBooks(File(c, p, s, books[s]), p, books, names[1..], more);
    }
  }

  function Names(names: seq<SymbolId>): set<SymbolId> {
    set s | s in names
  }

  function Pinned(ss: set<SymbolId>, p: nat): map<SymbolId, nat> {
    map s {:trigger s in ss} | s in ss :: p
  }

  function Only(books: map<SymbolId, Book>, ss: set<SymbolId>): map<SymbolId, Book> {
    map s | s in ss && s in books :: books[s]
  }

  lemma NamesCons(names: seq<SymbolId>)
    requires names != []
    ensures Names(names) == {names[0]} + Names(names[1..])
  {
    assert names == [names[0]] + names[1..];
  }

  lemma PinStep(pins: map<SymbolId, nat>, n: SymbolId, ss: set<SymbolId>, p: nat)
    ensures pins[n := p] + Pinned(ss, p) == pins + Pinned({n} + ss, p)
  {
  }

  lemma BookStep(into: map<SymbolId, Book>, books: map<SymbolId, Book>, n: SymbolId, ss: set<SymbolId>)
    requires n in books
    ensures into[n := books[n]] + Only(books, ss) == into + Only(books, {n} + ss)
  {
  }

  /** Filing every book of a partition gives the partition its books and pins its symbols to it. */
  lemma {:induction false} FileAllIs(c: Cluster, p: nat, books: map<SymbolId, Book>, names: seq<SymbolId>)
    requires p < |c.parts| && forall i :: 0 <= i < |names| ==> names[i] in books
    ensures var d := FileAll(c, p, books, names);
            && d.pins == c.pins + Pinned(Names(names), p)
            && d.parts == c.parts[p := c.parts[p].(books := c.parts[p].books + Only(books, Names(names)))]
    decreases |names|
  {
    hide Names, Pinned, Only;
    if names == [] {
      NothingNamed(c.pins, c.parts[p].books, books, p);
    } else {
      var n, rest := names[0], names[1..];
      FileAllIs(File(c, p, n, books[n]), p, books, rest);
      NamesCons(names);
      PinStep(c.pins, n, Names(rest), p);
      BookStep(c.parts[p].books, books, n, Names(rest));
    }
  }

  lemma NothingNamed(pins: map<SymbolId, nat>, into: map<SymbolId, Book>, books: map<SymbolId, Book>, p: nat)
    ensures pins + Pinned(Names([]), p) == pins && into + Only(books, Names([])) == into
  {
  }

  /** The symbols of the first `n` partitions, each with the last of those partitions that has it. */
  function Homes(parts: seq<E.Engine>, n: nat): map<SymbolId, nat>
    requires n <= |parts|
  {
    if n == 0 then map[] else Homes(parts, n - 1) + Pinned(parts[n - 1].books.Keys, n - 1)
  }

  /** Part of the way: partitions below `p` are loaded, the others are still fresh. */
  function Half(parts: seq<E.Engine>, p: nat): (c: Cluster)
    requires p <= |parts|
    ensures |c.parts| == |parts|
  {
    Cluster(Homes(parts, p), parts[..p] + seq(|parts| - p, _ => E.Engine(1, map[])))
  }

  ghost predicate PartStorable(e: E.Engine) {
    AllStorable(e.books) && |e.books| < 0x1_0000_0000
  }

  lemma {:induction false} NamesSize(names: seq<SymbolId>)
    requires forall i, j :: 0 <= i < j < |names| ==> names[i] != names[j]
    ensures |Names(names)| == |names|
    decreases |names|
  {
    if names != [] {
      NamesCons(names);
      NamesSize(names[1..]);
      assert names[0] !in Names(names[1..]);
    }
  }

  lemma ListSize(names: seq<SymbolId>, books: map<SymbolId, Book>)
    requires Lists(names, books)
    ensures |names| == |books| && Names(names) == books.Keys
  {
    NamesSize(names);
    assert Names(names) == books.Keys;
  }

  lemma LoadPartBytes(c: Cluster, p: nat, e: E.Engine, names: seq<SymbolId>, more: seq<U8>)
    requires p < |c.parts| && c.parts[p].books == map[] && PartStorable(e) && Lists(names, e.books)
    ensures LoadPart(c, p, WritePart(e, names) + more) ==
            Loaded(WithCounter(FileAll(c, p, e.books, names), p, e.nextSeq), more)
  {
    hide LoadBooks, WriteBooks, LE, TakeU32, TakeU64, Storable, FileAll, WithCounter;
    var d2 := WriteBooks(e.books, names) + more;
    var d1 := LE(4, |names|) + d2;
    assert WritePart(e, names) + more == LE(8, e.nextSeq) + d1;
    ListSize(names, e.books);
    U64Written(e.nextSeq, d1);
    U32Written(|names|, d2);
    LoadWrittenBooks(c, p, e.books, names, more);
  }

  lemma LoadWrittenPart(parts: seq<E.Engine>, p: nat, names: seq<SymbolId>, more: seq<U8>)
    requires p < |parts| && PartStorable(parts[p]) && Lists(names, parts[p].books)
    ensures LoadPart(Half(parts, p), p, WritePart(parts[p], names) + more) == Loaded(Half(parts, p + 1), more)
  {
    hide LoadPart, WritePart, FileAll, Homes, Names, Pinned, Only, PartStorable, Half;
    var e, c := parts[p], Half(parts, p);
    ListSize(names, e.books);
    HalfNext(parts, p, names);
    LoadPartBytes(c, p, e, names, more);
    FileListed(c, p, e.books, names);
    var d := FileAll(c, p, e.books, names);
    assert d.parts[p] == E.Engine(1, e.books);
    assert d.parts[p].(nextSeq := e.nextSeq) == e;
    assert d.parts[p := e] == c.parts[p := e];
  }

  lemma FileListed(c: Cluster, p: nat, books: map<SymbolId, Book>, names: seq<SymbolId>)
    requires p < |c.parts| && Lists(names, books)
    ensures var d := FileAll(c, p, books, names);
            && d.pins == c.pins + Pinned(Names(names), p)
            && d.parts == c.parts[p := c.parts[p].(books := c.parts[p].books + Only(books, Names(names)))]
  {
    hide FileAll, Names, Pinned, Only;
    FileAllIs(c, p, books, names);
  }

  lemma HalfNext(parts: seq<E.Engine>, p: nat, names: seq<SymbolId>)
    requires p < |parts| && Lists(names, parts[p].books) && Names(names) == parts[p].books.Keys
    ensures var c, e := Half(parts, p), parts[p];
            && Half(parts, p + 1).pins == c.pins + Pinned(Names(names), p)
            && c.parts[p] == E.Engine(1, map[])
            && map[] + Only(e.books, Names(names)) == e.books
            && Half(parts, p + 1).parts == c.parts[p := e]
  {
    hide Names, Pinned;
    var c, e := Half(parts, p), parts[p];
    assert Only(e.books, e.books.Keys) == e.books;
    assert parts[..p + 1] == parts[..p] + [e];
  }

  lemma {:induction false} LoadWrittenParts(parts: seq<E.Engine>, names: seq<seq<SymbolId>>, p: nat)
    requires ListsAll(names, parts) && p <= |parts| && forall i :: 0 <= i < |parts| ==> PartStorable(parts[i])
    ensures ListsAll(names[p..], parts[p..])
    ensures LoadParts(Half(parts, p), p, WriteParts(parts[p..], names[p..])) == Loaded(Half(parts, |parts|), [])
    decreases |parts| - p
  {
    hide Lists, LoadPart, WritePart, PartStorable, Half, Homes;
    assert ListsAll(names[p..], parts[p..]);
    if p < |parts| {
      LoadWrittenParts(parts, names, p + 1);
      assert parts[p..][1..] == parts[p + 1..] && names[p..][1..] == names[p + 1..];
      LoadWrittenPart(parts, p, names[p], WriteParts(parts[p + 1..], names[p + 1..]));
    }
  }

  ghost predicate ClusterStorable(c: Cluster) {
    |c.parts| < 0x1_0000_0000 && forall p :: 0 <= p < |c.parts| ==> PartStorable(c.parts[p])
  }

  /**
    Loading a written snapshot, whatever order each partition's books were written in, gives back every
    partition exactly: books, queue order and sequence counter. Every symbol is pinned to the last
    partition that has it.
   */
  lemma SnapshotRoundTrip(c: Cluster, names: seq<seq<SymbolId>>)
    requires ClusterStorable(c) && ListsAll(names, c.parts)
    ensures LoadSnapshot(WriteSnapshot(c, names)) == Loaded(Cluster(Homes(c.parts, |c.parts|), c.parts), [])
  {
    hide LoadParts, WriteParts, LE, TakeU32, PartStorable, Homes, ListsAll;
    var n := |c.parts|;
    assert c.parts[0..] == c.parts && names[0..] == names;
    LoadWrittenParts(c.parts, names, 0);
    var body := WriteParts(c.parts, names);
    var data := WriteSnapshot(c, names);
    assert data[..4] == MAGIC && data[4] == VERSION && data[5..] == LE(4, n) + body;
    U32Written(n, body);
    HalfEnds(c.parts);
  }

  lemma HalfEnds(parts: seq<E.Engine>)
    ensures Half(parts, 0) == Fresh(|parts|)
    ensures Half(parts, |parts|) == Cluster(Homes(parts, |parts|), parts)
  {
    assert Half(parts, 0).parts == Fresh(|parts|).parts;
    assert parts[..|parts|] == parts;
  }

  // ----- Routing -----

  lemma {:induction false} HomesHave(parts: seq<E.Engine>, n: nat, s: SymbolId)
    requires n <= |parts|
    ensures s in Homes(parts, n) <==> exists p :: 0 <= p < n && s in parts[p].books
    ensures s in Homes(parts, n) ==> Homes(parts, n)[s] < n && s in parts[Homes(parts, n)[s]].books
    ensures forall p :: 0 <= p < n && s in parts[p].books ==> s in Homes(parts, n) && p <= Homes(parts, n)[s]
  {
    if n > 0 { HomesHave(parts, n - 1, s); }
  }

  /**
    A symbol that some partition has is routed to a partition that has it, with no higher one that does;
    a symbol that no partition has is routed by its remainder.
   */
  ghost predicate RoutedLast(c: Cluster, s: SymbolId)
    requires c.Valid()
  {
    var q := c.PartitionFor(s);
    if exists p :: 0 <= p < |c.parts| && s in c.parts[p].books
    then s in c.parts[q].books && forall p :: q < p < |c.parts| ==> s !in c.parts[p].books
    else q == s % |c.parts|
  }

  ghost predicate WellHomed(c: Cluster)
    requires c.Valid()
  {
    forall s :: RoutedLast(c, s)
  }

  lemma ReloadValid(c: Cluster)
    requires c.Valid()
    ensures Cluster(Homes(c.parts, |c.parts|), c.parts).Valid()
  {
    forall s | s in Homes(c.parts, |c.parts|) ensures Homes(c.parts, |c.parts|)[s] < |c.parts| { HomesHave(c.parts, |c.parts|, s); }
  }

  lemma SameRoute(c: Cluster, s: SymbolId)
    requires c.Valid() && Cluster(Homes(c.parts, |c.parts|), c.parts).Valid()
    ensures Cluster(Homes(c.parts, |c.parts|), c.parts).PartitionFor(s) == c.PartitionFor(s) <==> RoutedLast(c, s)
  {
    hide Homes;
    HomesHave(c.parts, |c.parts|, s);
  }

  /**
    Writing a snapshot and loading it keeps every partition; it keeps the route of a symbol if and only if
    the symbol was routed to the last partition that has it, or nobody has it and it was not pinned away.
   */
  lemma RoutingKept(c: Cluster, names: seq<seq<SymbolId>>)
    requires c.Valid() && ClusterStorable(c) && ListsAll(names, c.parts)
    ensures var l := LoadSnapshot(WriteSnapshot(c, names));
            && l.Loaded? && l.value.Valid() && l.value.parts == c.parts
            && (forall s :: l.value.PartitionFor(s) == c.PartitionFor(s) <==> RoutedLast(c, s))
            && ((forall s :: l.value.PartitionFor(s) == c.PartitionFor(s)) <==> WellHomed(c))
  {
    hide LoadSnapshot, WriteSnapshot, ClusterStorable, ListsAll, Homes, RoutedLast;
    SnapshotRoundTrip(c, names);
    ReloadValid(c);
    var d := Cluster(Homes(c.parts, |c.parts|), c.parts);
    forall s ensures d.PartitionFor(s) == c.PartitionFor(s) <==> RoutedLast(c, s) { SameRoute(c, s); }
  }

  /** A symbol registered again on a lower partition is routed there, but not after a reload. */
  lemma RepinnedRoutingLost()
    ensures var c := RegisterOn(RegisterOn(Fresh(2), 5, 1), 5, 0);
            && c.Valid() && c.PartitionFor(5) == 0 && ListsAll([[5], [5]], c.parts)
            && (var l := LoadSnapshot(WriteSnapshot(c, [[5], [5]])); l.Loaded? && l.value.Valid() && l.value.PartitionFor(5) == 1)
  {
    hide LoadSnapshot, WriteSnapshot, Homes;
    var c := RegisterOn(RegisterOn(Fresh(2), 5, 1), 5, 0);
    Repinned(c);
    SnapshotRoundTrip(c, [[5], [5]]);
    ReloadValid(c);
    HomesHave(c.parts, 2, 5);
  }

  lemma Repinned(c: Cluster)
    requires c == RegisterOn(RegisterOn(Fresh(2), 5, 1), 5, 0)
    ensures c.Valid() && c.PartitionFor(5) == 0 && |c.parts| == 2 && 5 in c.parts[1].books
    ensures ClusterStorable(c) && ListsAll([[5], [5]], c.parts)
  {
    assert c.parts[0].books == map[5 := Empty(5)] && c.parts[1].books == map[5 := Empty(5)];
  }

  // ----- A snapshot cut short -----

  /** What loading says of some bytes it says of longer ones, unless it ran out of bytes. */
  ghost predicate Extends<T>(x: Loaded<T>, y: Loaded<T>, more: seq<U8>) {
    match x
    case Truncated => true
    case Loaded(v, rest) => y == Loaded(v, rest + more)
    case _ => y == x
  }

  lemma TakeExtends(n: nat, data: seq<U8>, more: seq<U8>)
    ensures Extends(Take(n, data), Take(n, data + more), more)
  {
    hide Value;
    if n <= |data| { assert (data + more)[..n] == data[..n] && (data + more)[n..] == data[n..] + more; }
  }

  lemma U32Extends(data: seq<U8>, more: seq<U8>)
    ensures Extends(TakeU32(data), TakeU32(data + more), more)
  {
    hide Take;
    TakeExtends(4, data, more);
  }

  lemma U64Extends(data: seq<U8>, more: seq<U8>)
    ensures Extends(TakeU64(data), TakeU64(data + more), more)
  {
    hide Take;
    TakeExtends(8, data, more);
  }

  lemma {:induction false} FieldsExtend(ws: seq<nat>, data: seq<U8>, more: seq<U8>)
    requires ReadFields(ws, data).Some?
    ensures ReadFields(ws, data + more) == ReadFields(ws, data)
  {
    hide Value;
    if ws != [] {
      assert (data + more)[..ws[0]] == data[..ws[0]] && (data + more)[ws[0]..] == data[ws[0]..] + more;
      FieldsExtend(ws[1..], data[ws[0]..], more);
    }
  }

  lemma OrderExtends(data: seq<U8>, more: seq<U8>)
    ensures Extends(ReadOrder(data), ReadOrder(data + more), more)
  {
    hide ReadFields, OrderOf, TotalWidth, Fit;
    if ReadFields(ORDER_LAYOUT, data).Some? {
      FieldsExtend(ORDER_LAYOUT, data, more);
      var w := TotalWidth(ORDER_LAYOUT);
      assert (data + more)[w..] == data[w..] + more;
    }
  }

  lemma {:induction false} OrdersExtend(b: Book, k: nat, data: seq<U8>, more: seq<U8>)
    ensures Extends(LoadOrders(b, k, data), LoadOrders(b, k, data + more), more)
    decreases k
  {
    hide ReadOrder, Locate, MatchingEngine.RestoreTo;
    if k > 0 {
      OrderExtends(data, more);
      match ReadOrder(data)
      case Loaded(o, d1) => OrdersExtend(MatchingEngine.RestoreTo(b, o), k - 1, d1, more);
      case _ =>
    }
  }

  lemma BookExtends(c: Cluster, p: nat, data: seq<U8>, more: seq<U8>)
    requires p < |c.parts|
    ensures Extends(LoadBook(c, p, data), LoadBook(c, p, data + more), more)
  {
    hide TakeU32, LoadOrders, File, Registered;
    U32Extends(data, more);
    match TakeU32(data)
    case Loaded(symbol, d1) =>
      U32Extends(d1, more);
      match TakeU32(d1) {
        case Loaded(count, d2) => OrdersExtend(Registered(c.parts[p], symbol), count, d2, more);
        case _ =>
      }
    case _ =>
  }

  lemma {:induction false} BooksExtend(c: Cluster, p: nat, k: nat, data: seq<U8>, more: seq<U8>)
    requires p < |c.parts|
    ensures Extends(LoadBooks(c, p, k, data), LoadBooks(c, p, k, data + more), more)
    decreases k
  {
    hide LoadBook;
    if k > 0 {
      BookExtends(c, p, data, more);
      match LoadBook(c, p, data)
      case Loaded(c1, d1) => BooksExtend(c1, p, k - 1, d1, more);
      case _ =>
    }
  }

  lemma PartExtends(c: Cluster, p: nat, data: seq<U8>, more: seq<U8>)
    requires p < |c.parts|
    ensures Extends(LoadPart(c, p, data), LoadPart(c, p, data + more), more)
  {
    hide TakeU32, TakeU64, LoadBooks, WithCounter;
    U64Extends(data, more);
    match TakeU64(data)
    case Loaded(next, d1) =>
      U32Extends(d1, more);
      match TakeU32(d1) {
        case Loaded(count, d2) => BooksExtend(c, p, count, d2, more);
        case _ =>
      }
    case _ =>
  }

  lemma {:induction false} PartsExtend(c: Cluster, p: nat, data: seq<U8>, more: seq<U8>)
    requires p <= |c.parts|
    ensures Extends(LoadParts(c, p, data), LoadParts(c, p, data + more), more)
    decreases |c.parts| - p
  {
    hide LoadPart;
    if p < |c.parts| {
      PartExtends(c, p, data, more);
      match LoadPart(c, p, data)
      case Loaded(c1, d1) => PartsExtend(c1, p + 1, d1, more);
      case _ =>
    }
  }

  /** A snapshot that lost any of its last bytes never loads, and is never taken for another cluster's. */
  lemma TornSnapshotRefused(c: Cluster, names: seq<seq<SymbolId>>, k: nat)
    requires ClusterStorable(c) && ListsAll(names, c.parts) && k < |WriteSnapshot(c, names)|
    ensures LoadSnapshot(WriteSnapshot(c, names)[..k]) == (if k < 4 then BadMagic else if k < 5 then BadVersion else Truncated)
  {
    hide LoadParts, TakeU32, ClusterStorable, ListsAll, Homes, WriteSnapshot;
    SnapshotRoundTrip(c, names);
    var whole := WriteSnapshot(c, names);
    if k >= 5 {
      var cut, more := whole[..k], whole[k..];
      assert cut[..4] == whole[..4] && cut[4] == whole[4] && whole[5..] == cut[5..] + more;
      U32Extends(cut[5..], more);
      match TakeU32(cut[5..])
      case Loaded(count, d1) => PartsExtend(Fresh(count), 0, d1, more);
      case _ =>
    }
  }
}
