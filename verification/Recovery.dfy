/** Snapshot plus journal: recovery ends where the uninterrupted run would have been. */
module Recovery {
  import opened Types
  import opened BookModel
  import opened BookFacts
  import opened EngineModel
  import opened Partitions
  import opened Snapshot
  import opened Journal
  import opened EngineFacts
  import Protocol

  // ----- What every run keeps -----

  /** Every partition's books are valid and filed under their own symbol. */
  ghost predicate PartOk(e: Engine) {
    forall s :: s in e.books ==> Valid(e.books[s]) && e.books[s].symbol == s
  }

  ghost predicate ClusterOk(c: Cluster) {
    c.Valid() && forall p :: 0 <= p < |c.parts| ==> PartOk(c.parts[p])
  }

  lemma ProcessKeepsPart(e: Engine, cmd: Command)
    requires PartOk(e)
    ensures PartOk(Process(e, cmd).engine) && Process(e, cmd).engine.books.Keys == e.books.Keys
  {
    hide Valid, Handle, Apply;
    if cmd.symbol in e.books {
      var b := e.books[cmd.symbol];
      HandleIsApply(b, cmd, e.nextSeq);
      ApplyKeepsValid(b, Unbounded, OpOf(cmd, e.nextSeq));
      KeepsSymbol(b, cmd, e.nextSeq);
    }
  }

  lemma KeepsSymbol(b: Book, cmd: Command, n: SequenceNumber)
    ensures Handle(b, cmd, n).book.symbol == b.symbol
  {
    hide Fill, Screen, Locate, Updates, TradeEvents;
  }

  /** Same partitions have the same symbols. */
  ghost predicate SameSymbols(c: Cluster, d: Cluster) {
    |c.parts| == |d.parts| && c.pins == d.pins && forall p :: 0 <= p < |c.parts| ==> c.parts[p].books.Keys == d.parts[p].books.Keys
  }

  lemma DispatchKeeps(c: Cluster, cmd: Command)
    requires ClusterOk(c)
    ensures ClusterOk(Dispatch(c, cmd).cluster) && SameSymbols(c, Dispatch(c, cmd).cluster)
  {
    hide PartOk, Process;
    ProcessKeepsPart(c.parts[c.PartitionFor(cmd.symbol)], cmd);
  }

  lemma {:induction false} RunKeeps(c: Cluster, cmds: seq<Command>)
    requires ClusterOk(c)
    ensures ClusterOk(RunCluster(c, cmds).cluster) && SameSymbols(c, RunCluster(c, cmds).cluster)
    decreases |cmds|
  {
    hide PartOk, Dispatch;
    if cmds != [] {
      DispatchKeeps(c, cmds[0]);
      RunKeeps(Dispatch(c, cmds[0]).cluster, cmds[1..]);
    }
  }

  /** Routing by the last partition that has the symbol: no run gives it or takes it away. */
  lemma RunKeepsHomes(c: Cluster, cmds: seq<Command>)
    requires ClusterOk(c)
    ensures WellHomed(RunCluster(c, cmds).cluster) <==> WellHomed(c)
  {
    hide PartOk, RunCluster, RoutedLast;
    RunKeeps(c, cmds);
    var d := RunCluster(c, cmds).cluster;
    forall s ensures RoutedLast(d, s) <==> RoutedLast(c, s) { SameHome(c, d, s); }
  }

  lemma SameHome(c: Cluster, d: Cluster, s: SymbolId)
    requires c.Valid() && d.Valid() && SameSymbols(c, d)
    ensures RoutedLast(d, s) <==> RoutedLast(c, s)
  {
    assert forall p :: 0 <= p < |c.parts| ==> (s in c.parts[p].books <==> s in d.parts[p].books);
  }

  // ----- Two clusters that route alike run alike -----

  ghost predicate Alike(c: Cluster, d: Cluster) {
    c.Valid() && d.Valid() && c.parts == d.parts && forall s :: c.PartitionFor(s) == d.PartitionFor(s)
  }

  lemma {:induction false} AlikeRun(c: Cluster, d: Cluster, cmds: seq<Command>)
    requires Alike(c, d)
    ensures Alike(RunCluster(c, cmds).cluster, RunCluster(d, cmds).cluster)
    ensures RunCluster(c, cmds).log == RunCluster(d, cmds).log
    decreases |cmds|
  {
    hide Process;
    if cmds != [] {
      var c1, d1 := Dispatch(c, cmds[0]).cluster, Dispatch(d, cmds[0]).cluster;
      assert c.PartitionFor(cmds[0].symbol) == d.PartitionFor(cmds[0].symbol);
      forall s ensures c1.PartitionFor(s) == d1.PartitionFor(s) { assert c.PartitionFor(s) == d.PartitionFor(s); }
      AlikeRun(c1, d1, cmds[1..]);
    }
  }

  lemma {:induction false} RunConcat(c: Cluster, xs: seq<Command>, ys: seq<Command>)
    requires c.Valid()
    ensures var r := RunCluster(c, xs);
            var s := RunCluster(r.cluster, ys);
            RunCluster(c, xs + ys) == ClusterRun(s.cluster, r.log + s.log)
    decreases |xs|
  {
    hide Dispatch;
    if xs == [] {
      assert xs + ys == ys;
      assert [] + RunCluster(c, ys).log == RunCluster(c, ys).log;
    } else {
      var d := Dispatch(c, xs[0]);
      assert (xs + ys)[1..] == xs[1..] + ys && (xs + ys)[0] == xs[0];
      RunConcat(d.cluster, xs[1..], ys);
      var r := RunCluster(d.cluster, xs[1..]);
      var s := RunCluster(r.cluster, ys);
      assert [d.entry] + (r.log + s.log) == [d.entry] + r.log + s.log;
    }
  }

  // ----- Recovery -----

  /** The commands a journal's records stand for; records whose enum bytes are no enumerators are not engine commands. */
  function Replay(ws: seq<Protocol.WireCommand>): seq<Command> {
    if ws == [] then []
    else (match Protocol.FromWire(ws[0]) case Some(c) => [c] case None => []) + Replay(ws[1..])
  }

  lemma {:induction false} ReplayWire(cs: seq<Command>)
    ensures Replay(Wire(cs)) == cs
    decreases |cs|
  {
    if cs != [] {
      Protocol.WireRoundTrip(cs[0]);
      assert Wire(cs)[1..] == Wire(cs[1..]);
      ReplayWire(cs[1..]);
      assert cs == [cs[0]] + cs[1..];
    }
  }

  lemma LoadedAlike(c: Cluster, names: seq<seq<SymbolId>>)
    requires c.Valid() && ClusterStorable(c) && ListsAll(names, c.parts)
    ensures var l := LoadSnapshot(WriteSnapshot(c, names));
            l.Loaded? && l.value.Valid() && l.value.parts == c.parts && (Alike(l.value, c) <==> WellHomed(c))
  {
    hide LoadSnapshot, WriteSnapshot, WellHomed, ClusterStorable, RoutedLast, ListsAll;
    RoutingKept(c, names);
  }

  ghost predicate SizesFit(c: Cluster) {
    && |c.parts| < 0x1_0000_0000
    && forall p :: 0 <= p < |c.parts| ==>
         |c.parts[p].books| < 0x1_0000_0000 && forall s :: s in c.parts[p].books ==> c.parts[p].books[s].Count() < 0x1_0000_0000
  }

  lemma OkIsStorable(c: Cluster)
    requires ClusterOk(c) && SizesFit(c)
    ensures ClusterStorable(c)
  {
    hide Ranked, Uncrossed, AllLive, Apart;
    forall p | 0 <= p < |c.parts| ensures PartStorable(c.parts[p]) {
      assert PartOk(c.parts[p]);
    }
  }

  /**
    The snapshot taken after `pre` loads, the journal of `post` cut at byte `k` reads as its whole records,
    and replaying these on the loaded cluster gives the partitions, the routing and the events of the
    uninterrupted run.
   */
  ghost predicate Recovers(c: Cluster, pre: seq<Command>, post: seq<Command>, names: seq<seq<SymbolId>>, k: nat)
    requires c.Valid() && ListsAll(names, RunCluster(c, pre).cluster.parts) && k <= |AppendAll([], post)|
  {
    var live := RunCluster(c, pre);
    var n := Whole(Wire(post), k);
    var snapshot := LoadSnapshot(WriteSnapshot(live.cluster, names));
    var journal := ReadFrom(AppendAll([], post)[..k], []);
    var whole := RunCluster(c, pre + post[..n]);
    && snapshot.Loaded? && snapshot.value.Valid() && journal.Commands?
    && Replay(journal.commands) == post[..n]
    && (var recovered := RunCluster(snapshot.value, Replay(journal.commands));
        Alike(recovered.cluster, whole.cluster) && whole.log == live.log + recovered.log)
  }

  /**
    Run `pre`, write a snapshot, and journal `post`; lose the journal's tail at any byte `k`. Snapshot and
    journal always read back, and recovery is exact if and only if every symbol is routed to the last
    partition that has it.
   */
  lemma RecoveryExact(c: Cluster, pre: seq<Command>, post: seq<Command>, names: seq<seq<SymbolId>>, k: nat)
    requires ClusterOk(c) && SizesFit(RunCluster(c, pre).cluster)
    requires ListsAll(names, RunCluster(c, pre).cluster.parts) && k <= |AppendAll([], post)|
    ensures ReadsBack(RunCluster(c, pre).cluster, post, names, k)
    ensures Recovers(c, pre, post, names, k) <==> WellHomed(c)
  {
    hide RunCluster, LoadSnapshot, WriteSnapshot, ReadFrom, AppendAll, Replay, Wire, Whole, WellHomed, SizesFit, PartOk, ListsAll,
      ClusterStorable, Alike;
    var live, n := RunCluster(c, pre).cluster, Whole(Wire(post), k);
    RunKeeps(c, pre);
    RunKeepsHomes(c, pre);
    OkIsStorable(live);
    LoadedAlike(live, names);
    TornTailDiscarded(post, k);
    ReplayWire(post[..n]);
    RunConcat(c, pre, post[..n]);
    var loaded := LoadSnapshot(WriteSnapshot(live, names)).value;
    if WellHomed(c) {
      AlikeRun(loaded, live, post[..n]);
    }
    AlikeBefore(loaded, live, post[..n]);
  }

  /** The snapshot of `live` loads, and the cut journal of `post` replays as its whole records. */
  ghost predicate ReadsBack(live: Cluster, post: seq<Command>, names: seq<seq<SymbolId>>, k: nat)
    requires ListsAll(names, live.parts) && k <= |AppendAll([], post)|
  {
    var snapshot, journal := LoadSnapshot(WriteSnapshot(live, names)), ReadFrom(AppendAll([], post)[..k], []);
    && snapshot.Loaded? && snapshot.value.Valid() && snapshot.value.parts == live.parts
    && journal.Commands? && Replay(journal.commands) == post[..Whole(Wire(post), k)]
  }

  /** Runs do not change routes, so clusters that route alike after a run did so before. */
  lemma AlikeBefore(c: Cluster, d: Cluster, cmds: seq<Command>)
    requires c.Valid() && d.Valid() && c.parts == d.parts
    ensures Alike(RunCluster(c, cmds).cluster, RunCluster(d, cmds).cluster) ==> Alike(c, d)
  {
    hide RunCluster;
    var c1, d1 := RunCluster(c, cmds).cluster, RunCluster(d, cmds).cluster;
    if Alike(c1, d1) {
      forall s ensures c.PartitionFor(s) == d.PartitionFor(s) { assert c1.PartitionFor(s) == d1.PartitionFor(s); }
    }
  }

  // ----- Reachable configurations are well homed -----

  /** Symbols live only where they are routed, and every pin belongs to a registered symbol. */
  ghost predicate Placed(c: Cluster)
    requires c.Valid()
  {
    && (forall p, s :: 0 <= p < |c.parts| && s in c.parts[p].books ==> c.PartitionFor(s) == p)
    && (forall s :: s in c.pins ==> s in c.parts[c.pins[s]].books)
  }

  lemma PlacedIsWellHomed(c: Cluster)
    requires c.Valid() && Placed(c)
    ensures WellHomed(c)
  {
    forall s ensures RoutedLast(c, s) { }
  }

  lemma FreshPlaced(n: nat)
    requires n > 0
    ensures ClusterOk(Fresh(n)) && Placed(Fresh(n))
  {
  }

  lemma RegisterPlaced(c: Cluster, s: SymbolId)
    requires ClusterOk(c) && Placed(c)
    ensures ClusterOk(RegisterSymbol(c, s)) && Placed(RegisterSymbol(c, s))
  {
    hide Shaped, AllLive, Uncrossed;
    EmptyValid(s);
    var d := RegisterSymbol(c, s);
    forall p, t | 0 <= p < |d.parts| && t in d.parts[p].books ensures d.PartitionFor(t) == p {
      assert c.PartitionFor(t) == d.PartitionFor(t);
      if t in c.parts[p].books { assert c.PartitionFor(t) == p; }
    }
    forall p | 0 <= p < |d.parts| ensures PartOk(d.parts[p]) { assert PartOk(c.parts[p]); }
  }

  /** Registering on a chosen partition keeps symbols where they are routed, if and only if the symbol lives nowhere else. */
  lemma RegisterOnPlaced(c: Cluster, s: SymbolId, q: nat)
    requires ClusterOk(c) && Placed(c) && q < |c.parts|
    ensures ClusterOk(RegisterOn(c, s, q)) && (Placed(RegisterOn(c, s, q)) <==> NowhereElse(c, s, q))
  {
    hide Shaped, AllLive, Uncrossed;
    EmptyValid(s);
    var d := RegisterOn(c, s, q);
    forall p | 0 <= p < |d.parts| ensures PartOk(d.parts[p]) { assert PartOk(c.parts[p]); }
    if NowhereElse(c, s, q) {
      forall p, t | 0 <= p < |d.parts| && t in d.parts[p].books ensures d.PartitionFor(t) == p {
        if t != s { assert t in c.parts[p].books && c.PartitionFor(t) == p; }
      }
      forall t | t in d.pins ensures t in d.parts[d.pins[t]].books { if t != s { assert t in c.parts[c.pins[t]].books; } }
    } else {
      var p :| 0 <= p < |c.parts| && p != q && s in c.parts[p].books;
      assert s in d.parts[p].books && d.PartitionFor(s) == q;
    }
  }

  ghost predicate NowhereElse(c: Cluster, s: SymbolId, q: nat) {
    forall p :: 0 <= p < |c.parts| && p != q ==> s !in c.parts[p].books
  }

  lemma EmptyValid(s: SymbolId)
    ensures Valid(Empty(s)) && Empty(s).symbol == s
  {
  }

  // ----- From the first registration to recovery -----

  datatype Registration = Default(symbol: SymbolId) | Chosen(symbol: SymbolId, partition: nat)

  /** A chosen partition exists and no other partition has the symbol. */
  ghost predicate Allowed(c: Cluster, r: Registration) {
    r.Chosen? ==> r.partition < |c.parts| && NowhereElse(c, r.symbol, r.partition)
  }

  ghost function RegisterOne(c: Cluster, r: Registration): (d: Cluster)
    requires c.Valid() && Allowed(c, r)
    ensures d.Valid() && |d.parts| == |c.parts|
  {
    match r
    case Default(s) => RegisterSymbol(c, s)
    case Chosen(s, p) => RegisterOn(c, s, p)
  }

  ghost predicate AllAllowed(c: Cluster, rs: seq<Registration>)
    requires c.Valid()
    decreases |rs|
  {
    rs != [] ==> Allowed(c, rs[0]) && AllAllowed(RegisterOne(c, rs[0]), rs[1..])
  }

  ghost function RegisterAll(c: Cluster, rs: seq<Registration>): (d: Cluster)
    requires c.Valid() && AllAllowed(c, rs)
    ensures d.Valid() && |d.parts| == |c.parts|
    decreases |rs|
  {
    if rs == [] then c else RegisterAll(RegisterOne(c, rs[0]), rs[1..])
  }

  /** A cluster that has registered symbols and not run yet. */
  ghost predicate Ready(c: Cluster) {
    && ClusterOk(c) && Placed(c)
    && forall p :: 0 <= p < |c.parts| ==> EngineValid(c.parts[p]) && c.parts[p].nextSeq == 1
  }

  lemma RegisterOneReady(c: Cluster, r: Registration)
    requires Ready(c) && Allowed(c, r)
    ensures Ready(RegisterOne(c, r))
  {
    hide PartOk, Placed, EngineValid;
    var p;
    match r {
      case Default(s) => RegisterPlaced(c, s); p := c.PartitionFor(s);
      case Chosen(s, q) => RegisterOnPlaced(c, s, q); p := q;
    }
    RegisterKeepsValid(c.parts[p], r.symbol);
  }

  lemma {:induction false} SetUpReady(c: Cluster, rs: seq<Registration>)
    requires Ready(c) && AllAllowed(c, rs)
    ensures Ready(RegisterAll(c, rs))
    decreases |rs|
  {
    hide PartOk, Placed, EngineValid, RegisterOne, Allowed;
    if rs != [] {
      RegisterOneReady(c, rs[0]);
      SetUpReady(RegisterOne(c, rs[0]), rs[1..]);
    }
  }

  lemma FreshReady(n: nat)
    requires n > 0
    ensures Ready(Fresh(n))
  {
    hide ClusterOk, Placed;
    FreshPlaced(n);
  }

  lemma {:induction false} RoutedCount(c: Cluster, cmds: seq<Command>, p: nat)
    requires c.Valid()
    ensures |RoutedTo(c, cmds, p)| <= |cmds|
    decreases |cmds|
  {
    if cmds != [] { RoutedCount(c, cmds[1..], p); }
  }

  /**
    Whatever is registered on new partitions and then run, each partition keeps its queues in sequence
    order below its counter, which counts the commands routed to it, as long as no order rests whenever
    that counter wraps.
   */
  lemma SetUpRuns(n: nat, rs: seq<Registration>, cmds: seq<Command>, p: nat)
    requires 0 < n && p < n && AllAllowed(Fresh(n), rs)
    ensures var c := RegisterAll(Fresh(n), rs);
            var routed := RoutedTo(c, cmds, p);
            var e := RunCluster(c, cmds).cluster.parts[p];
            && (StaysValid(c.parts[p], routed) <==> WrapsEmpty(c.parts[p], routed))
            && (WrapsEmpty(c.parts[p], routed) ==> EngineValid(e) && e.nextSeq == Wrap64(1 + |routed|))
            && (|cmds| < 0xFFFF_FFFF_FFFF_FFFF ==> WrapsEmpty(c.parts[p], routed))
  {
    hide RunCluster, RunEngine, RegisterAll, AllAllowed, EngineValid, ClusterOk, Placed, WrapsEmpty, StaysValid, Wrap64;
    FreshReady(n);
    SetUpReady(Fresh(n), rs);
    var c := RegisterAll(Fresh(n), rs);
    var routed := RoutedTo(c, cmds, p);
    RoutedCount(c, cmds, p);
    PartitionsIndependent(c, cmds, p);
    RunKeepsEngineValid(c.parts[p], routed);
    if |cmds| < 0xFFFF_FFFF_FFFF_FFFF { ShortRun(c.parts[p], routed); }
  }

  /** Recovery with nothing assumed about the cluster but how it was set up, and sizes that fit their fields. */
  lemma SetUpRecovers(n: nat, rs: seq<Registration>, pre: seq<Command>, post: seq<Command>, names: seq<seq<SymbolId>>, k: nat)
    requires n > 0 && AllAllowed(Fresh(n), rs) && k <= |AppendAll([], post)|
    requires var live := RunCluster(RegisterAll(Fresh(n), rs), pre).cluster; SizesFit(live) && ListsAll(names, live.parts)
    ensures Recovers(RegisterAll(Fresh(n), rs), pre, post, names, k)
  {
    hide RunCluster, RegisterAll, AllAllowed, Recovers, SizesFit, ListsAll, Placed, PartOk;
    FreshReady(n);
    SetUpReady(Fresh(n), rs);
    var c := RegisterAll(Fresh(n), rs);
    PlacedIsWellHomed(c);
    RecoveryExact(c, pre, post, names, k);
  }
}
