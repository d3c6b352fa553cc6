/** Recovery with the objects themselves: a live engine, its snapshot, its journal, and a second engine built from both. */
module RecoveryRun {
  import opened Types
  import opened EngineModel
  import opened Partitions
  import opened Snapshot
  import opened Journal
  import opened Recovery
  import PartitionedEngine
  import SnapshotFile

  lemma RunOne(c: Cluster, cmd: Command)
    requires c.Valid()
    ensures var d := Dispatch(c, cmd); RunCluster(c, [cmd]) == ClusterRun(d.cluster, [d.entry])
  {
    hide Dispatch;
    var d := Dispatch(c, cmd);
    assert [cmd][1..] == [] && [d.entry] + [] == [d.entry];
  }

  lemma RunMore(c: Cluster, cs: seq<Command>, i: nat)
    requires c.Valid() && i < |cs|
    ensures var r := RunCluster(c, cs[..i]);
            var d := Dispatch(r.cluster, cs[i]);
            RunCluster(c, cs[..i + 1]) == ClusterRun(d.cluster, r.log + [d.entry])
  {
    hide Dispatch, RunCluster, Cluster.Valid;
    assert cs[..i + 1] == cs[..i] + [cs[i]];
    RunConcat(c, cs[..i], [cs[i]]);
    RunOne(RunCluster(c, cs[..i]).cluster, cs[i]);
  }

  lemma RunNone(c: Cluster, cs: seq<Command>)
    requires c.Valid()
    ensures RunCluster(c, cs[..0]) == ClusterRun(c, [])
  {
  }

  method DispatchOne(engine: PartitionedEngine.PartitionedEngine, c: Command) returns (entry: Entry)
    requires engine.Valid() && engine.model.Valid()
    modifies engine.repr
    ensures engine.Valid() && engine.repr == old(engine.repr) && engine.model.Valid()
    ensures Dispatch(old(engine.model), c) == Dispatched(engine.model, entry)
  {
    hide PartitionedEngine.PartitionedEngine.Owned, Process;
    engine.RoutedInside(c.symbol);
    var p := engine.router.PartitionFor(c.symbol);
    var n, out := engine.Dispatch(c);
    entry := Entry(p, n, out);
  }

  /** Dispatch commands one after another. */
  method DispatchAll(engine: PartitionedEngine.PartitionedEngine, cs: seq<Command>) returns (log: seq<Entry>)
    requires engine.Valid() && engine.model.Valid()
    modifies engine.repr
    ensures engine.Valid() && engine.repr == old(engine.repr)
    ensures RunCluster(old(engine.model), cs) == ClusterRun(engine.model, log)
  {
    hide PartitionedEngine.PartitionedEngine.Valid, RunCluster, Dispatch, Cluster.Valid;
    log := [];
    ghost var c := engine.model;
    RunNone(c, cs);
    for i := 0 to |cs|
      invariant engine.Valid() && engine.repr == old(engine.repr) && engine.model.Valid()
      invariant RunCluster(c, cs[..i]) == ClusterRun(engine.model, log)
    {
      RunMore(c, cs, i);
      var entry := DispatchOne(engine, cs[i]);
      log := log + [entry];
    }
    assert cs[..|cs|] == cs;
  }

  lemma ModelValid(engine: PartitionedEngine.PartitionedEngine)
    requires engine.Valid()
    ensures |engine.partitions| > 0 <==> engine.model.Valid()
  {
  }

  /** Load a snapshot and replay a journal on it; nothing when either is refused or there is no partition to run on. */
  method Recover(snapshot: seq<U8>, journal: seq<U8>) returns (engine: PartitionedEngine.PartitionedEngine?, log: seq<Entry>)
    requires !LoadSnapshot(snapshot).Foreign?
    ensures var l, j := LoadSnapshot(snapshot), ReadFrom(journal, []);
            if l.Loaded? && l.value.Valid() && j.Commands? then
              && engine != null && fresh(engine.repr) && engine.Valid()
              && RunCluster(l.value, Replay(j.commands)) == ClusterRun(engine.model, log)
            else engine == null
  {
    hide PartitionedEngine.PartitionedEngine.Valid, RunCluster, Cluster.Valid, LoadSnapshot, ReadFrom, Replay;
    var status;
    status, engine := SnapshotFile.Load(snapshot);
    if status != SnapshotFile.Ready { return null, []; }
    ModelValid(engine);
    if |engine.partitions| == 0 { return null, []; }
    var r := ReadJournal(journal);
    if !r.Commands? { return null, []; }
    log := DispatchAll(engine, Replay(r.commands));
  }

  /**
    Run a live engine through `pre`, save it, journal `post`, lose the journal from byte `k` on, and
    recover: the second engine has the partitions and the routing of a run of `pre` and every command
    still whole in the journal, and the two logs together are that run's log, if and only if every symbol
    is routed to the last partition that has it.
   */
  method CrashAndRecover(engine: PartitionedEngine.PartitionedEngine, pre: seq<Command>, post: seq<Command>, k: nat)
    returns (copy: PartitionedEngine.PartitionedEngine, before: seq<Entry>, after: seq<Entry>)
    requires engine.Valid() && ClusterOk(engine.model)
    requires SizesFit(RunCluster(engine.model, pre).cluster) && k <= |AppendAll([], post)|
    modifies engine.repr
    ensures copy.Valid() && fresh(copy.repr)
    ensures var whole := RunCluster(old(engine.model), pre + post[..Whole(Wire(post), k)]);
            (Alike(copy.model, whole.cluster) && before + after == whole.log) <==> WellHomed(old(engine.model))
  {
    hide PartitionedEngine.PartitionedEngine.Valid, RunCluster, LoadSnapshot, WriteSnapshot, ReadFrom, Replay, AppendAll,
      WellHomed, SizesFit, PartOk, ListsAll, Whole, Wire, Alike;
    ghost var c := engine.model;
    before := DispatchAll(engine, pre);
    var snapshot := SnapshotFile.Save(engine);
    ghost var names :| ListsAll(names, engine.model.parts) && snapshot == WriteSnapshot(engine.model, names);
    RecoveryExact(c, pre, post, names, k);
    var journal := AppendAll([], post)[..k];
    var second;
    second, after := Recover(snapshot, journal);
    copy := second;
  }
}
