/** Partitions behind a symbol router, and why they can run apart. */
module Partitions {
  import opened Types
  import opened EngineModel

  /** The router's pins and the partitions it routes to; a symbol without a pin goes by its remainder. */
  datatype Cluster = Cluster(pins: map<SymbolId, nat>, parts: seq<Engine>) {
    ghost predicate Valid() {
      parts != [] && forall s :: s in pins ==> pins[s] < |parts|
    }

    function PartitionFor(s: SymbolId): (p: nat)
      requires Valid()
      ensures p < |parts|
    {
      if s in pins then pins[s] else s % |parts|
    }
  }

  function Fresh(count: nat): Cluster {
    Cluster(map[], seq(count, _ => Engine(1, map[])))
  }

  function RegisterSymbol(c: Cluster, s: SymbolId): Cluster
    requires c.Valid()
  {
    var p := c.PartitionFor(s);
    c.(parts := c.parts[p := Register(c.parts[p], s)])
  }

  function RegisterOn(c: Cluster, s: SymbolId, p: nat): Cluster
    requires p < |c.parts|
  {
    Cluster(c.pins[s := p], c.parts[p := Register(c.parts[p], s)])
  }

  /** Where a command went and what came of it. */
  datatype Entry = Entry(partition: nat, seqNo: SequenceNumber, events: seq<Event>)

  datatype Dispatched = Dispatched(cluster: Cluster, entry: Entry)

  function Dispatch(c: Cluster, cmd: Command): (d: Dispatched)
    requires c.Valid()
    ensures d.cluster.Valid() && d.cluster.pins == c.pins && |d.cluster.parts| == |c.parts|
  {
    var p := c.PartitionFor(cmd.symbol);
    var r := Process(c.parts[p], cmd);
    Dispatched(c.(parts := c.parts[p := r.engine]), Entry(p, r.seqNo, r.events))
  }

  /** A command goes to the partition its symbol is pinned to, or else to the remainder, under that partition's next number. */
  lemma DispatchSays(c: Cluster, cmd: Command)
    requires c.Valid()
    ensures var p := if cmd.symbol in c.pins then c.pins[cmd.symbol] else cmd.symbol % |c.parts|;
            var d := Dispatch(c, cmd);
            && p < |c.parts| && d.entry.partition == p && d.entry.seqNo == c.parts[p].nextSeq
            && d.cluster.parts[p].nextSeq == Wrap64(c.parts[p].nextSeq + 1)
            && forall q :: 0 <= q < |c.parts| && q != p ==> d.cluster.parts[q] == c.parts[q]
  {
    hide Handle;
  }

  datatype ClusterRun = ClusterRun(cluster: Cluster, log: seq<Entry>)

  function RunCluster(c: Cluster, cmds: seq<Command>): (r: ClusterRun)
    requires c.Valid()
    ensures r.cluster.Valid() && r.cluster.pins == c.pins && |r.cluster.parts| == |c.parts|
    decreases |cmds|
  {
    if cmds == [] then ClusterRun(c, [])
    else
      var d := Dispatch(c, cmds[0]);
      var r := RunCluster(d.cluster, cmds[1..]);
      ClusterRun(r.cluster, [d.entry] + r.log)
  }

  /** The commands routed to one partition, in order. */
  function RoutedTo(c: Cluster, cmds: seq<Command>, p: nat): seq<Command>
    requires c.Valid()
  {
    if cmds == [] then []
    else (if c.PartitionFor(cmds[0].symbol) == p then [cmds[0]] else []) + RoutedTo(c, cmds[1..], p)
  }

  /** The events one partition emitted, in order. */
  function EventsOf(log: seq<Entry>, p: nat): seq<Event> {
    if log == [] then [] else (if log[0].partition == p then log[0].events else []) + EventsOf(log[1..], p)
  }

  lemma {:induction false} SamePinsSameRouting(c: Cluster, d: Cluster, cmds: seq<Command>, p: nat)
    requires c.Valid() && d.Valid() && d.pins == c.pins && |d.parts| == |c.parts|
    ensures RoutedTo(d, cmds, p) == RoutedTo(c, cmds, p)
  {
    if cmds != [] { SamePinsSameRouting(c, d, cmds[1..], p); }
  }

  /** Each partition's final state and events are those of running only the commands routed to it. */
  lemma {:induction false} PartitionsIndependent(c: Cluster, cmds: seq<Command>, p: nat)
    requires c.Valid() && p < |c.parts|
    ensures var alone := RunEngine(c.parts[p], RoutedTo(c, cmds, p));
            var r := RunCluster(c, cmds);
            r.cluster.parts[p] == alone.engine && EventsOf(r.log, p) == alone.events
    decreases |cmds|
  {
    hide Process;
    if cmds != [] {
      var d := Dispatch(c, cmds[0]);
      var rest := RoutedTo(c, cmds[1..], p);
      SamePinsSameRouting(c, d.cluster, cmds[1..], p);
      PartitionsIndependent(d.cluster, cmds[1..], p);
      var r := RunCluster(d.cluster, cmds[1..]);
      assert RunCluster(c, cmds).log[1..] == r.log;
      if c.PartitionFor(cmds[0].symbol) == p {
        assert ([cmds[0]] + rest)[1..] == rest;
      } else {
        assert RoutedTo(c, cmds, p) == rest;
        assert EventsOf(RunCluster(c, cmds).log, p) == EventsOf(r.log, p);
      }
    }
  }

  /** All interleavings with the same commands per partition, in the same order, end in the same cluster. */
  lemma InterleavingsAgree(c: Cluster, xs: seq<Command>, ys: seq<Command>)
    requires c.Valid() && forall p :: 0 <= p < |c.parts| ==> RoutedTo(c, xs, p) == RoutedTo(c, ys, p)
    ensures RunCluster(c, xs).cluster == RunCluster(c, ys).cluster
    ensures forall p :: 0 <= p < |c.parts| ==> EventsOf(RunCluster(c, xs).log, p) == EventsOf(RunCluster(c, ys).log, p)
  {
    hide RoutedTo, RunEngine, EventsOf;
    var rx, ry := RunCluster(c, xs), RunCluster(c, ys);
    forall p | 0 <= p < |c.parts|
      ensures rx.cluster.parts[p] == ry.cluster.parts[p] && EventsOf(rx.log, p) == EventsOf(ry.log, p)
    {
      PartitionsIndependent(c, xs, p);
      PartitionsIndependent(c, ys, p);
    }
    assert rx.cluster.parts == ry.cluster.parts;
  }
}
