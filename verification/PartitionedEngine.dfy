/** The partitioned engine as an object that owns its partitions. */
module PartitionedEngine {
  import opened Types
  import opened BookModel
  import opened EngineModel
  import opened Partitions
  import MatchingEngine

  class Router {
    const partitionCount: nat
    var pins: map<SymbolId, nat>

    constructor (partitionCount: nat)
      ensures this.partitionCount == partitionCount && pins == map[]
    {
      this.partitionCount := partitionCount;
      pins := map[];
    }

    method Pin(symbol: SymbolId, partition: nat)
      modifies this
      ensures pins == old(pins)[symbol := partition]
    {
      pins := pins[symbol := partition];
    }

    function PartitionFor(symbol: SymbolId): nat
      requires partitionCount > 0
      reads this
    {
      if symbol in pins then pins[symbol] else symbol % partitionCount
    }
  }

  method NewEngines(count: nat) returns (es: seq<MatchingEngine.Engine>)
    ensures |es| == count && forall i, j :: 0 <= i < j < count ==> es[i] != es[j]
    ensures forall i :: 0 <= i < count ==> fresh(es[i]) && es[i].Valid() && es[i].State() == Engine(1, map[]) && es[i].books == map[]
  {
    hide MatchingEngine.Engine.Valid, MatchingEngine.Engine.State;
    es := [];
    for i := 0 to count
      invariant |es| == i && forall j, k :: 0 <= j < k < i ==> es[j] != es[k]
      invariant forall j :: 0 <= j < i ==> fresh(es[j]) && es[j].Valid() && es[j].State() == Engine(1, map[]) && es[j].books == map[]
    {
      var e := new MatchingEngine.Engine();
      es := es + [e];
    }
  }

  class PartitionedEngine {
    const router: Router
    var partitions: seq<MatchingEngine.Engine>
    ghost var model: Cluster
    ghost var repr: set<object>

    /** Every partition stands for its part of the model, and no two partitions share an object. */
    ghost predicate Valid()
      reads this, repr
    {
      && this in repr && router in repr
      && router.pins == model.pins && router.partitionCount == |partitions| == |model.parts|
      && (forall s :: s in model.pins ==> model.pins[s] < |partitions|)
      && (forall i :: 0 <= i < |partitions| ==> partitions[i] in repr)
      && (forall i :: 0 <= i < |partitions| ==> Owned(partitions[i], model.parts[i]))
      && (forall i, j :: 0 <= i < j < |partitions| ==> partitions[i].Footprint() !! partitions[j].Footprint())
    }

    ghost predicate Owned(e: MatchingEngine.Engine, state: Engine)
      requires e in repr
      reads this, repr
    {
      && e.Footprint() <= repr && this !in e.Footprint() && router !in e.Footprint()
      && e.Valid() && e.State() == state
    }

    lemma Part(p: nat)
      requires Valid() && p < |partitions|
      ensures this in repr && |model.parts| == |partitions| && partitions[p] in repr && Owned(partitions[p], model.parts[p])
      ensures router in repr && router.partitionCount == |partitions|
    {
      hide MatchingEngine.Engine.Valid, MatchingEngine.Engine.State, MatchingEngine.Engine.Footprint;
    }

    /** A change inside partition `p` leaves the other partitions as they were. */
    twostate lemma OthersKept(p: nat)
      requires old(Valid()) && partitions == old(partitions) && old(repr) <= repr && p < |partitions|
      requires forall o :: o in old(repr) && o != this && o !in old(partitions[p].Footprint()) ==> unchanged(o)
      ensures forall i :: 0 <= i < |partitions| && i != p ==>
                && partitions[i] in repr && partitions[i].Footprint() == old(partitions[i].Footprint())
                && partitions[i].Footprint() <= old(repr) && Owned(partitions[i], old(model.parts[i]))
    {
      hide MatchingEngine.Engine.Valid, MatchingEngine.Engine.State;
      assert forall i :: 0 <= i < |partitions| && i != p ==> old(partitions[i].Footprint()) !! old(partitions[p].Footprint());
    }

    /** A change inside partition `p` that the model follows, and new objects only there, keep the whole sound. */
    twostate lemma StillValid(p: nat)
      requires old(Valid()) && partitions == old(partitions) && p < |partitions|
      requires forall o :: o in old(repr) && o != this && o !in old(partitions[p].Footprint()) ==> unchanged(o)
      requires repr == old(repr) + partitions[p].Footprint() && fresh(partitions[p].Footprint() - old(partitions[p].Footprint()))
      requires partitions[p].Valid() && model == old(model).(parts := old(model).parts[p := partitions[p].State()])
      ensures Valid()
    {
      hide MatchingEngine.Engine.Valid, MatchingEngine.Engine.State, MatchingEngine.Engine.Footprint;
      assert old(Owned(partitions[p], model.parts[p]));
      OthersKept(p);
      OwnedNow(p);
    }

    twostate lemma OwnedNow(p: nat)
      requires old(Valid()) && partitions == old(partitions) && p < |partitions|
      requires repr == old(repr) + partitions[p].Footprint() && fresh(partitions[p].Footprint() - old(partitions[p].Footprint()))
      requires partitions[p].Valid()
      ensures partitions[p] in repr && Owned(partitions[p], partitions[p].State())
    {
      hide MatchingEngine.Engine.Valid, MatchingEngine.Engine.State;
    }

    constructor (partitionCount: nat)
      ensures Valid() && fresh(repr) && model == Fresh(partitionCount)
    {
      hide MatchingEngine.Engine.Valid, MatchingEngine.Engine.State;
      router := new Router(partitionCount);
      var es := NewEngines(partitionCount);
      partitions := es;
      model := Fresh(partitionCount);
      repr := {this, router} + set e | e in es;
      new;
      assert forall i :: 0 <= i < partitionCount ==> es[i].Footprint() == {es[i]} && Owned(es[i], model.parts[i]);
    }

    /** Every symbol is routed to a partition there is, the one the model routes it to. */
    lemma RoutedInside(symbol: SymbolId)
      requires Valid() && |partitions| > 0
      ensures model.Valid() && router.PartitionFor(symbol) == model.PartitionFor(symbol) < |partitions|
    {
      hide MatchingEngine.Engine.Valid, MatchingEngine.Engine.State;
    }

    method RegisterSymbol(symbol: SymbolId)
      requires Valid() && |partitions| > 0
      modifies repr
      ensures Valid() && fresh(repr - old(repr)) && partitions == old(partitions)
      ensures model == Partitions.RegisterSymbol(old(model), symbol)
    {
      RegisterAt(symbol, router.PartitionFor(symbol));
    }

    method RegisterSymbolOnPartition(symbol: SymbolId, partition: nat)
      requires Valid() && partition < |partitions|
      modifies repr
      ensures Valid() && fresh(repr - old(repr)) && partitions == old(partitions)
      ensures model == RegisterOn(old(model), symbol, partition)
    {
      hide MatchingEngine.Engine.Valid, MatchingEngine.Engine.State, MatchingEngine.Engine.Footprint;
      router.Pin(symbol, partition);
      model := model.(pins := model.pins[symbol := partition]);
      RegisterAt(symbol, partition);
    }

    method RegisterAt(symbol: SymbolId, p: nat)
      requires Valid() && p < |partitions|
      modifies repr
      ensures Valid() && fresh(repr - old(repr)) && partitions == old(partitions)
      ensures model == old(model).(parts := old(model).parts[p := Register(old(model).parts[p], symbol)])
    {
      hide Valid, MatchingEngine.Engine.Valid, MatchingEngine.Engine.State, Register;
      Part(p);
      partitions[p].RegisterSymbol(symbol);
      repr := repr + partitions[p].Footprint();
      model := model.(parts := model.parts[p := Register(model.parts[p], symbol)]);
      StillValid(p);
    }

    /** Route a command by its symbol and process it there. */
    method Dispatch(c: Command) returns (seqNo: SequenceNumber, out: seq<Event>)
      requires Valid() && |partitions| > 0
      modifies repr
      ensures Valid() && repr == old(repr) && partitions == old(partitions)
      ensures var d := Partitions.Dispatch(old(model), c);
              model == d.cluster && seqNo == d.entry.seqNo && out == d.entry.events
    {
      hide Valid, MatchingEngine.Engine.Valid, MatchingEngine.Engine.State, Process;
      Part(0);
      RoutedInside(c.symbol);
      var p := router.PartitionFor(c.symbol);
      Part(p);
      seqNo, out := partitions[p].Process(c);
      model := model.(parts := model.parts[p := Process(model.parts[p], c).engine]);
      StillValid(p);
    }

    /** Partition(p).RestoreOrder. */
    method RestoreOn(p: nat, symbol: SymbolId, o: Order)
      requires Valid() && p < |partitions|
      requires symbol in model.parts[p].books ==> Locate(model.parts[p].books[symbol], o.id) == Nowhere
      modifies repr
      ensures Valid() && repr == old(repr) && partitions == old(partitions)
      ensures model == old(model).(parts := old(model).parts[p := MatchingEngine.Restore(old(model).parts[p], symbol, o)])
    {
      hide Valid, MatchingEngine.Engine.Valid, MatchingEngine.Engine.Leveled, MatchingEngine.Engine.State, MatchingEngine.Restore, Locate;
      Part(p);
      partitions[p].ValidLeveled();
      partitions[p].RestoreOrder(symbol, o);
      model := model.(parts := model.parts[p := MatchingEngine.Restore(model.parts[p], symbol, o)]);
      StillValid(p);
    }

    /** Partition(p).SetNextSequenceNumber. */
    method SetCounter(p: nat, n: SequenceNumber)
      requires Valid() && p < |partitions|
      modifies repr
      ensures Valid() && repr == old(repr) && partitions == old(partitions)
      ensures model == old(model).(parts := old(model).parts[p := old(model).parts[p].(nextSeq := n)])
    {
      hide Valid, MatchingEngine.Engine.Valid, MatchingEngine.Engine.State;
      Part(p);
      partitions[p].SetNextSequenceNumber(n);
      model := model.(parts := model.parts[p := model.parts[p].(nextSeq := n)]);
      StillValid(p);
    }
  }
}
