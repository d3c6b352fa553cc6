/** Snapshots as they are taken and loaded: loops over a live engine, a writer and a reader. */
module SnapshotFile {
  import opened Types
  import opened BookModel
  import opened Codec
  import opened Protocol
  import opened Partitions
  import opened Snapshot
  import E = EngineModel
  import MatchingEngine
  import PartitionedEngine
  import NaiveBook

  // ----- Writing -----

  method SaveOrder(w: BufferWriter, o: Order)
    modifies w
    ensures w.buf == old(w.buf) + WriteOrder(o)
  {
    hide LE, WriteFields, Wrote;
    ghost var ws, vs, front := ORDER_LAYOUT, OrderFields(o), w.buf;
    WroteStart(front, ws, vs);
    WriteNext(w, front, ws, vs, 0, 8, o.id);
    WriteNext(w, front, ws, vs, 1, 8, o.trader);
    WriteNext(w, front, ws, vs, 2, 4, o.symbol);
    WriteNext(w, front, ws, vs, 3, 8, o.seqNo);
    WriteNext(w, front, ws, vs, 4, 8, o.timestamp);
    WriteNext(w, front, ws, vs, 5, 8, AsU64(o.price));
    WriteNext(w, front, ws, vs, 6, 8, o.quantity);
    WriteNext(w, front, ws, vs, 7, 8, o.remaining);
    WriteNext(w, front, ws, vs, 8, 1, SideByte(o.side));
    WriteNext(w, front, ws, vs, 9, 1, TypeByte(o.otype));
    WriteNext(w, front, ws, vs, 10, 1, TifByte(o.tif));
    WriteNext(w, front, ws, vs, 11, 1, StatusByte(o.status));
    WroteAll(w.buf, front, ws, vs);
  }

  lemma {:induction false} OrdersSnoc(os: seq<Order>, o: Order)
    ensures WriteOrders(os + [o]) == WriteOrders(os) + WriteOrder(o)
    decreases |os|
  {
    hide WriteOrder;
    if os == [] {
      assert (os + [o])[1..] == [];
    } else {
      assert (os + [o])[1..] == os[1..] + [o];
      OrdersSnoc(os[1..], o);
    }
  }

  lemma OrdersNext(os: seq<Order>, i: nat)
    requires i < |os|
    ensures WriteOrders(os[..i + 1]) == WriteOrders(os[..i]) + WriteOrder(os[i])
  {
    hide WriteOrders, WriteOrder;
    OrdersSnoc(os[..i], os[i]);
    assert os[..i + 1] == os[..i] + [os[i]];
  }

  method SaveOrders(w: BufferWriter, orders: seq<Order>)
    modifies w
    ensures w.buf == old(w.buf) + WriteOrders(orders)
  {
    hide WriteOrder, WriteOrders;
    NoOrders();
    for i := 0 to |orders|
      invariant w.buf == old(w.buf) + WriteOrders(orders[..i])
    {
      OrdersNext(orders, i);
      Associate(old(w.buf), WriteOrders(orders[..i]), WriteOrder(orders[i]));
      SaveOrder(w, orders[i]);
    }
    assert orders[..|orders|] == orders;
  }

  method SaveBook(w: BufferWriter, s: SymbolId, book: NaiveBook.OrderBook)
    requires book.Valid()
    modifies w
    ensures w.buf == old(w.buf) + WriteBook(s, book.View())
  {
    hide NaiveBook.OrderBook.Valid, NaiveBook.OrderBook.View, LE, WriteOrder, WriteOrders;
    w.Write(4, s);
    var orders := book.AllRestingOrders();
    w.Write(4, |orders|);
    SaveOrders(w, orders);
  }

  lemma NoOrders()
    ensures WriteOrders([]) == []
  {
  }

  lemma {:induction false} BooksSnoc(books: map<SymbolId, Book>, names: seq<SymbolId>, s: SymbolId)
    requires s in books && forall i :: 0 <= i < |names| ==> names[i] in books
    ensures WriteBooks(books, names + [s]) == WriteBooks(books, names) + WriteBook(s, books[s])
    decreases |names|
  {
    hide WriteBook;
    if names == [] {
      assert (names + [s])[1..] == [];
    } else {
      assert (names + [s])[1..] == names[1..] + [s];
      BooksSnoc(books, names[1..], s);
    }
  }

  /** Books go out in whatever order the map hands them over; `names` records it. */
  method SaveBooks(w: BufferWriter, e: MatchingEngine.Engine) returns (ghost names: seq<SymbolId>)
    requires e.Valid()
    modifies w
    ensures Lists(names, e.State().books) && w.buf == old(w.buf) + WriteBooks(e.State().books, names)
  {
    hide NaiveBook.OrderBook.Valid, NaiveBook.OrderBook.View, WriteBook, WriteBooks;
    ghost var books := e.State().books;
    names := [];
    var todo := e.books.Keys;
    NoBooks(books);
    while todo != {}
      invariant todo <= e.books.Keys && forall i :: 0 <= i < |names| ==> names[i] in books && names[i] !in todo
      invariant forall i, j :: 0 <= i < j < |names| ==> names[i] != names[j]
      invariant forall s :: s in books ==> s in names || s in todo
      invariant w.buf == old(w.buf) + WriteBooks(books, names)
      decreases |todo|
    {
      var s :| s in todo;
      BooksSnoc(books, names, s);
      Associate(old(w.buf), WriteBooks(books, names), WriteBook(s, books[s]));
      SaveBook(w, s, e.books[s]);
      names := names + [s];
      todo := todo - {s};
    }
  }

  method SavePart(w: BufferWriter, e: MatchingEngine.Engine) returns (ghost names: seq<SymbolId>)
    requires e.Valid()
    modifies w
    ensures Lists(names, e.State().books) && w.buf == old(w.buf) + WritePart(e.State(), names)
  {
    hide MatchingEngine.Engine.Valid, NaiveBook.OrderBook.View, LE, WriteBooks, Lists;
    w.Write(8, e.nextSeq);
    w.Write(4, |e.books|);
    names := SaveBooks(w, e);
    ListSize(names, e.State().books);
    assert |e.books| == |e.books.Keys| && e.State().books.Keys == e.books.Keys;
  }

  lemma NoBooks(books: map<SymbolId, Book>)
    ensures WriteBooks(books, []) == []
  {
  }

  lemma {:induction false} PartsSnoc(parts: seq<E.Engine>, names: seq<seq<SymbolId>>, e: E.Engine, more: seq<SymbolId>)
    requires ListsAll(names, parts) && Lists(more, e.books)
    ensures ListsAll(names + [more], parts + [e])
    ensures WriteParts(parts + [e], names + [more]) == WriteParts(parts, names) + WritePart(e, more)
    decreases |parts|
  {
    hide WritePart, Lists;
    assert ListsAll(names + [more], parts + [e]);
    if parts == [] {
      assert (parts + [e])[1..] == [] && (names + [more])[1..] == [];
    } else {
      assert (parts + [e])[1..] == parts[1..] + [e] && (names + [more])[1..] == names[1..] + [more];
      PartsSnoc(parts[1..], names[1..], e, more);
    }
  }

  method SaveHeader(w: BufferWriter, count: nat)
    modifies w
    ensures w.buf == old(w.buf) + MAGIC + [VERSION] + LE(4, count)
  {
    hide LE;
    for i := 0 to 4
      invariant w.buf == old(w.buf) + MAGIC[..i]
    {
      OneByte(MAGIC[i]);
      w.Write(1, MAGIC[i]);
      assert MAGIC[..i + 1] == MAGIC[..i] + [MAGIC[i]];
    }
    OneByte(VERSION);
    w.Write(1, VERSION);
    w.Write(4, count);
  }

  /** WriteSnapshot: the bytes handed to the file. */
  method Save(engine: PartitionedEngine.PartitionedEngine) returns (buf: seq<U8>)
    requires engine.Valid()
    ensures exists names :: ListsAll(names, engine.model.parts) && buf == WriteSnapshot(engine.model, names)
  {
    hide MatchingEngine.Engine.Valid, MatchingEngine.Engine.State, WritePart, WriteParts, LE, Lists;
    var w := new BufferWriter();
    SaveHeader(w, |engine.partitions|);
    ghost var front, parts := w.buf, engine.model.parts;
    ghost var names: seq<seq<SymbolId>> := [];
    NoParts();
    for p := 0 to |engine.partitions|
      invariant engine.Valid() && engine.model.parts == parts
      invariant ListsAll(names, parts[..p]) && w.buf == front + WriteParts(parts[..p], names)
    {
      ghost var more := SavePart(w, engine.partitions[p]);
      PartsSnoc(parts[..p], names, parts[p], more);
      assert parts[..p + 1] == parts[..p] + [parts[p]];
      names := names + [more];
    }
    assert parts[..|parts|] == parts;
    buf := w.buf;
    assert buf == WriteSnapshot(engine.model, names);
  }

  lemma NoParts()
    ensures ListsAll([], []) && WriteParts([], []) == []
  {
  }

  // ----- Loading -----

  lemma TakeAt(data: seq<U8>, pos: nat, n: nat)
    requires pos <= |data|
    ensures Take(n, data[pos..]) == if pos + n <= |data| then Loaded(Value(data[pos..pos + n]), data[pos + n..]) else Truncated
  {
    hide Value;
    if pos + n <= |data| {
      assert data[pos..][..n] == data[pos..pos + n] && data[pos..][n..] == data[pos + n..];
    }
  }

  method ReadU32(r: BufferReader) returns (ok: bool, v: U32)
    requires r.pos <= |r.data|
    modifies r
    ensures r.pos <= |r.data|
    ensures TakeU32(r.data[old(r.pos)..]) == if ok then Loaded(v, r.data[r.pos..]) else Truncated
  {
    hide Value, Take, Pow256;
    TakeAt(r.data, r.pos, 4);
    Widths();
    var n;
    ok, n := r.Read(4);
    v := if ok then n else 0;
  }

  method ReadU64(r: BufferReader) returns (ok: bool, v: U64)
    requires r.pos <= |r.data|
    modifies r
    ensures r.pos <= |r.data|
    ensures TakeU64(r.data[old(r.pos)..]) == if ok then Loaded(v, r.data[r.pos..]) else Truncated
  {
    hide Value, Take, Pow256;
    TakeAt(r.data, r.pos, 8);
    Widths();
    var n;
    ok, n := r.Read(8);
    v := if ok then n else 0;
  }

  /** What the twelve fields of an order record make, when its enum bytes are enumerators. */
  lemma RecordIs(data: seq<U8>, vs: seq<nat>)
    requires ReadFields(ORDER_LAYOUT, data) == Some(vs) && !ReadOrder(data).Foreign?
    ensures |vs| == 12 && 64 <= |data| && vs[0] < U64_LIMIT && vs[1] < U64_LIMIT && vs[2] < 0x1_0000_0000
    ensures vs[3] < U64_LIMIT && vs[4] < U64_LIMIT && vs[5] < U64_LIMIT && vs[6] < U64_LIMIT && vs[7] < U64_LIMIT
    ensures vs[8] < 0x100 && vs[9] < 0x100 && vs[10] < 0x100 && vs[11] < 0x100
    ensures SideOf(vs[8]).Some? && TypeOf(vs[9]).Some? && TifOf(vs[10]).Some? && StatusOf(vs[11]).Some?
    ensures ReadOrder(data) == Loaded(
              Order(vs[0], vs[1], vs[2], vs[3], vs[4], AsI64(vs[5]), vs[6], vs[7], SideOf(vs[8]).value, TypeOf(vs[9]).value,
                    TifOf(vs[10]).value, StatusOf(vs[11]).value), data[64..])
  {
    hide Pow256, ReadFields, TotalWidth;
    Widths();
    ReadFit(ORDER_LAYOUT, data);
    OrderWidth();
  }

  lemma OrderWidth()
    ensures TotalWidth(ORDER_LAYOUT) == 64
  {
    hide TotalWidth;
    var ws := ORDER_LAYOUT;
    SumOfTwo(ws); SumOfTwo(ws[2..]); SumOfTwo(ws[4..]); SumOfTwo(ws[6..]);
    assert ws[2..][2..] == ws[4..] && ws[4..][2..] == ws[6..] && ws[6..][2..] == ws[8..];
    SumOfFour(ws[8..]);
  }

  method LoadOrder(r: BufferReader) returns (o: Option<Order>)
    requires r.pos <= |r.data| && !ReadOrder(r.data[r.pos..]).Foreign?
    modifies r
    ensures r.pos <= |r.data|
    ensures ReadOrder(r.data[old(r.pos)..]) == if o.Some? then Loaded(o.value, r.data[r.pos..]) else Truncated
  {
    hide ReadSoFar, ReadFields, ReadOrder, SideOf, TypeOf, TifOf, StatusOf, AsI64, ORDER_LAYOUT;
    ghost var ws, start, vs := ORDER_LAYOUT, r.pos, [];
    OrderLayout();
    ReadStart(r.data, start, ws);
    var ok, id, trader, symbol, seqNo, ts, price, quantity, remaining, side, otype, tif, status;
    RecordCut(r.data[start..]);
    ok, id, trader, symbol, seqNo, ts, price, vs := ReadSix(r, start, ws, vs, 8, 8, 4, 8, 8, 8); if !ok { return None; }
    ok, quantity, remaining, side, otype, tif, status, vs := ReadSix(r, start, ws, vs, 8, 8, 1, 1, 1, 1); if !ok { return None; }
    ReadAll(r.data, start, ws, vs, r.pos);
    RecordIs(r.data[start..], vs);
    o := Some(Order(id, trader, symbol, seqNo, ts, AsI64(price), quantity, remaining,
                    SideOf(side).value, TypeOf(otype).value, TifOf(tif).value, StatusOf(status).value));
    assert r.data[start..][64..] == r.data[r.pos..];
  }

  lemma OrderLayout()
    ensures var ws := ORDER_LAYOUT;
            && |ws| == 12 && ws[0] == ws[1] == ws[3] == ws[4] == ws[5] == ws[6] == ws[7] == 8 && ws[2] == 4
            && ws[8] == ws[9] == ws[10] == ws[11] == 1
  {
  }

  lemma RecordCut(data: seq<U8>)
    ensures ReadFields(ORDER_LAYOUT, data) == None ==> ReadOrder(data) == Truncated
  {
  }

  /** The inner loop: read an order, restore it, and so on. */
  method LoadOrdersInto(r: BufferReader, engine: PartitionedEngine.PartitionedEngine, p: nat, s: SymbolId, count: nat)
    returns (ok: bool)
    requires engine.Valid() && r !in engine.repr && r.pos <= |r.data|
    requires p < |engine.partitions| && s in engine.model.parts[p].books
    requires !LoadOrders(engine.model.parts[p].books[s], count, r.data[r.pos..]).Foreign?
    modifies r, engine.repr
    ensures engine.Valid() && engine.repr == old(engine.repr) && engine.partitions == old(engine.partitions) && r.pos <= |r.data|
    ensures var l := LoadOrders(old(engine.model).parts[p].books[s], count, r.data[old(r.pos)..]);
            if ok then l.Loaded? && engine.model == Shelve(old(engine.model), p, s, l.value) && l.rest == r.data[r.pos..]
            else l.Truncated?
  {
    hide PartitionedEngine.PartitionedEngine.Valid, Locate, ReadOrder, MatchingEngine.RestoreTo, LoadOrders, Shelve;
    ghost var c0 := engine.model;
    OnePartEach(engine);
    ShelveSame(c0, p, s);
    ghost var whole := LoadOrders(c0.parts[p].books[s], count, r.data[r.pos..]);
    ghost var b := c0.parts[p].books[s];
    for i := 0 to count
      invariant engine.Valid() && engine.repr == old(engine.repr) && engine.partitions == old(engine.partitions) && r.pos <= |r.data|
      invariant engine.model == Shelve(c0, p, s, b)
      invariant LoadOrders(b, count - i, r.data[r.pos..]) == whole
    {
      OrdersStep(b, count - i, r.data[r.pos..]);
      var o := LoadOrder(r);
      if o == None { return false; }
      ShelveRestore(c0, p, s, b, o.value);
      OnePartEach(engine);
      engine.RestoreOn(p, s, o.value);
      b := MatchingEngine.RestoreTo(b, o.value);
    }
    OrdersDone(b, r.data[r.pos..]);
    ok := true;
  }

  /** The cluster with one registered book replaced. */
  ghost function Shelve(c: Cluster, p: nat, s: SymbolId, b: Book): Cluster
    requires p < |c.parts|
  {
    c.(parts := c.parts[p := c.parts[p].(books := c.parts[p].books[s := b])])
  }

  lemma ShelveSame(c: Cluster, p: nat, s: SymbolId)
    requires p < |c.parts| && s in c.parts[p].books
    ensures Shelve(c, p, s, c.parts[p].books[s]) == c
  {
    assert c.parts[p].books[s := c.parts[p].books[s]] == c.parts[p].books;
  }

  lemma ShelveRestore(c: Cluster, p: nat, s: SymbolId, b: Book, o: Order)
    requires p < |c.parts|
    ensures var d := Shelve(c, p, s, b);
            && |d.parts| == |c.parts| && s in d.parts[p].books && d.parts[p].books[s] == b
            && d.(parts := d.parts[p := MatchingEngine.Restore(d.parts[p], s, o)]) == Shelve(c, p, s, MatchingEngine.RestoreTo(b, o))
  {
    hide MatchingEngine.RestoreTo;
    var b' := MatchingEngine.RestoreTo(b, o);
    assert c.parts[p].books[s := b][s := b'] == c.parts[p].books[s := b'];
  }

  lemma OnePartEach(engine: PartitionedEngine.PartitionedEngine)
    requires engine.Valid()
    ensures |engine.partitions| == |engine.model.parts| && engine in engine.repr
  {
  }

  lemma OrdersStep(b: Book, k: nat, data: seq<U8>)
    requires k > 0 && !LoadOrders(b, k, data).Foreign?
    ensures match ReadOrder(data)
            case Truncated => LoadOrders(b, k, data) == Truncated
            case Foreign => false
            case Loaded(o, rest) => Locate(b, o.id) == Nowhere && LoadOrders(b, k, data) == LoadOrders(MatchingEngine.RestoreTo(b, o), k - 1, rest)
            case _ => true
  {
    hide ReadOrder, Locate, MatchingEngine.RestoreTo;
  }

  lemma OrdersDone(b: Book, data: seq<U8>)
    ensures LoadOrders(b, 0, data) == Loaded(b, data)
  {
  }

  /** What loading into an engine leaves: the engine the functional loader describes, or a cut found. */
  ghost predicate Tells(l: Loaded<Cluster>, ok: bool, model: Cluster, rest: seq<U8>) {
    if ok then l == Loaded(model, rest) else l.Truncated?
  }

  method LoadBookInto(r: BufferReader, engine: PartitionedEngine.PartitionedEngine, p: nat) returns (ok: bool)
    requires engine.Valid() && r !in engine.repr && r.pos <= |r.data| && p < |engine.partitions| == |engine.model.parts|
    requires !LoadBook(engine.model, p, r.data[r.pos..]).Foreign?
    modifies r, engine.repr
    ensures engine.Valid() && fresh(engine.repr - old(engine.repr)) && engine.partitions == old(engine.partitions) && r.pos <= |r.data|
    ensures Tells(LoadBook(old(engine.model), p, r.data[old(r.pos)..]), ok, engine.model, r.data[r.pos..])
  {
    hide PartitionedEngine.PartitionedEngine.Valid, TakeU32, LoadOrders, Shelve, File, Registered, RegisterOn;
    ghost var c0 := engine.model;
    OnePartEach(engine);
    var symbol, count;
    ok, symbol := ReadU32(r);
    if !ok { return; }
    ok, count := ReadU32(r);
    if !ok { return; }
    engine.RegisterSymbolOnPartition(symbol, p);
    OnePartEach(engine);
    RegisteredIs(c0, p, symbol);
    ghost var l := LoadOrders(Registered(c0.parts[p], symbol), count, r.data[r.pos..]);
    ok := LoadOrdersInto(r, engine, p, symbol, count);
    if ok { ShelveIsFile(c0, p, symbol, l.value); }
  }

  lemma RegisteredIs(c: Cluster, p: nat, s: SymbolId)
    requires p < |c.parts|
    ensures var d := RegisterOn(c, s, p);
            |d.parts| == |c.parts| && s in d.parts[p].books && d.parts[p].books[s] == Registered(c.parts[p], s)
  {
  }

  lemma ShelveIsFile(c: Cluster, p: nat, s: SymbolId, b: Book)
    requires p < |c.parts|
    ensures var d := RegisterOn(c, s, p); |d.parts| == |c.parts| && Shelve(d, p, s, b) == File(c, p, s, b)
  {
    var d := RegisterOn(c, s, p);
    assert d.parts[p].books[s := b] == c.parts[p].books[s := b];
  }

  method LoadBooksInto(r: BufferReader, engine: PartitionedEngine.PartitionedEngine, p: nat, count: nat) returns (ok: bool)
    requires engine.Valid() && r !in engine.repr && r.pos <= |r.data| && p < |engine.partitions| == |engine.model.parts|
    requires !LoadBooks(engine.model, p, count, r.data[r.pos..]).Foreign?
    modifies r, engine.repr
    ensures engine.Valid() && fresh(engine.repr - old(engine.repr)) && engine.partitions == old(engine.partitions) && r.pos <= |r.data|
    ensures Tells(LoadBooks(old(engine.model), p, count, r.data[old(r.pos)..]), ok, engine.model, r.data[r.pos..])
  {
    hide PartitionedEngine.PartitionedEngine.Valid, LoadBook;
    ghost var whole := LoadBooks(engine.model, p, count, r.data[r.pos..]);
    for i := 0 to count
      invariant engine.Valid() && fresh(engine.repr - old(engine.repr)) && engine.partitions == old(engine.partitions)
      invariant r !in engine.repr && r.pos <= |r.data| && |engine.model.parts| == |engine.partitions|
      invariant LoadBooks(engine.model, p, count - i, r.data[r.pos..]) == whole
    {
      ok := LoadBookInto(r, engine, p);
      if !ok { return; }
      OnePartEach(engine);
    }
    ok := true;
  }

  method LoadPartInto(r: BufferReader, engine: PartitionedEngine.PartitionedEngine, p: nat) returns (ok: bool)
    requires engine.Valid() && r !in engine.repr && r.pos <= |r.data| && p < |engine.partitions| == |engine.model.parts|
    requires !LoadPart(engine.model, p, r.data[r.pos..]).Foreign?
    modifies r, engine.repr
    ensures engine.Valid() && fresh(engine.repr - old(engine.repr)) && engine.partitions == old(engine.partitions) && r.pos <= |r.data|
    ensures Tells(LoadPart(old(engine.model), p, r.data[old(r.pos)..]), ok, engine.model, r.data[r.pos..])
  {
    hide PartitionedEngine.PartitionedEngine.Valid, LoadBooks, TakeU32, TakeU64;
    var next, count;
    ok, next := ReadU64(r);
    if !ok { return; }
    ok, count := ReadU32(r);
    if !ok { return; }
    ok := LoadBooksInto(r, engine, p, count);
    if ok { engine.SetCounter(p, next); }
  }

  datatype Status = Ready | CutShort | NotASnapshot | WrongVersion

  lemma PartsStep(c: Cluster, p: nat, data: seq<U8>)
    requires p < |c.parts|
    ensures match LoadPart(c, p, data)
            case Loaded(c1, d1) => |c1.parts| == |c.parts| && LoadParts(c, p, data) == LoadParts(c1, p + 1, d1)
            case Truncated => LoadParts(c, p, data) == Truncated
            case Foreign => LoadParts(c, p, data) == Foreign
            case _ => true
  {
    hide LoadPart;
  }

  /** LoadSnapshot, for bytes some engine wrote, whole or damaged in any way that leaves its records readable. */
  method Load(data: seq<U8>) returns (status: Status, engine: PartitionedEngine.PartitionedEngine?)
    requires !LoadSnapshot(data).Foreign?
    ensures match LoadSnapshot(data)
            case Loaded(c, _) => status == Ready && engine != null && fresh(engine.repr) && engine.Valid() && engine.model == c
            case Truncated => status == CutShort
            case BadMagic => status == NotASnapshot
            case BadVersion => status == WrongVersion
            case Foreign => true
  {
    hide PartitionedEngine.PartitionedEngine.Valid, LoadPart, LoadParts, TakeU32, Fresh, Value;
    engine := null;
    var r := new BufferReader(data);
    var ok := CheckMagic(r);
    if !ok { return NotASnapshot, null; }
    var version;
    ok, version := r.Read(1);
    if 4 < |data| { ByteAt(data, 4); }
    if !ok || version != VERSION { return WrongVersion, null; }
    var count;
    ok, count := ReadU32(r);
    if !ok { return CutShort, null; }
    engine := new PartitionedEngine.PartitionedEngine(count);
    OnePartEach(engine);
    ghost var whole := LoadParts(engine.model, 0, r.data[r.pos..]);
    FreshSize(count);
    for p := 0 to count
      invariant engine.Valid() && fresh(engine.repr) && r !in engine.repr && r.pos <= |r.data|
      invariant |engine.partitions| == |engine.model.parts| == count && LoadParts(engine.model, p, r.data[r.pos..]) == whole
    {
      PartsStep(engine.model, p, r.data[r.pos..]);
      ok := LoadPartInto(r, engine, p);
      if !ok { return CutShort, null; }
      OnePartEach(engine);
    }
    PartsDone(engine.model, count, r.data[r.pos..]);
    status := Ready;
  }

  lemma FreshSize(n: nat)
    ensures |Fresh(n).parts| == n
  {
  }

  lemma PartsDone(c: Cluster, p: nat, data: seq<U8>)
    requires p == |c.parts|
    ensures LoadParts(c, p, data) == Loaded(c, data)
  {
  }

  lemma ByteAt(data: seq<U8>, i: nat)
    requires i < |data|
    ensures Value(data[i..i + 1]) == data[i]
  {
    assert data[i..i + 1][1..] == [];
  }

  method CheckMagic(r: BufferReader) returns (ok: bool)
    requires r.pos == 0
    modifies r
    ensures ok <==> 4 <= |r.data| && r.data[..4] == MAGIC
    ensures ok ==> r.pos == 4
  {
    hide Value;
    for i := 0 to 4
      invariant r.pos == i <= |r.data| && r.data[..i] == MAGIC[..i]
    {
      if i < |r.data| { ByteAt(r.data, i); }
      var got;
      ok, got := r.Read(1);
      if !ok || got != MAGIC[i] {
        assert ok ==> r.data[i] != MAGIC[i];
        return false;
      }
      assert r.data[..i + 1] == r.data[..i] + [r.data[i]] && MAGIC[..i + 1] == MAGIC[..i] + [MAGIC[i]];
    }
    assert MAGIC[..4] == MAGIC;
    ok := true;
  }

  /** Writing a snapshot of an engine and loading it makes a second engine with the same partitions. */
  method Reload(engine: PartitionedEngine.PartitionedEngine) returns (copy: PartitionedEngine.PartitionedEngine)
    requires engine.Valid() && ClusterStorable(engine.model)
    ensures copy.Valid() && fresh(copy.repr) && copy.model.parts == engine.model.parts
    ensures copy.model.pins == Homes(engine.model.parts, |engine.model.parts|)
  {
    hide PartitionedEngine.PartitionedEngine.Valid, LoadSnapshot, WriteSnapshot, ClusterStorable, ListsAll, Homes;
    var buf := Save(engine);
    ghost var names :| ListsAll(names, engine.model.parts) && buf == WriteSnapshot(engine.model, names);
    SnapshotRoundTrip(engine.model, names);
    var status, loaded := Load(buf);
    copy := loaded;
  }
}
