/** The preallocated pool: a fixed array of slots, the free ones threaded on a list of indices (-1 is null). */
module Pool {

  datatype Slot<+T> = Free(nextFree: int) | Used(value: T)

  const NULL := -1

  /** The element of a list of indices at a position, null off either end. */
  function Nth(c: seq<int>, i: int): int {
    if 0 <= i < |c| then c[i] else NULL
  }

  ghost predicate Distinct(c: seq<int>) {
    forall i, j :: 0 <= i < j < |c| ==> c[i] != c[j]
  }

  /** `free` lists free slots from `head` along their next-free links. */
  ghost predicate FreeOk<T>(h: seq<Slot<T>>, head: int, free: seq<int>) {
    && head == Nth(free, 0) && Distinct(free)
    && forall i :: 0 <= i < |free| ==> 0 <= free[i] < |h| && h[free[i]] == Free(Nth(free, i + 1))
  }

  /** Taking the first free slot leaves a good free list. */
  lemma TakeFree<T>(h: seq<Slot<T>>, head: int, free: seq<int>, v: T)
    requires FreeOk(h, head, free) && free != []
    ensures 0 <= head < |h| && h[head].Free? && FreeOk(h[head := Used(v)], h[head].nextFree, free[1..])
  {
    assert forall i :: 0 <= i < |free[1..]| ==> free[1..][i] == free[i + 1];
  }

  /** A used slot can go to the front of the free list. */
  lemma GiveFree<T>(h: seq<Slot<T>>, head: int, free: seq<int>, x: int)
    requires FreeOk(h, head, free) && 0 <= x < |h| && h[x].Used?
    ensures FreeOk(h[x := Free(head)], x, [x] + free)
  {
    var f := [x] + free;
    forall i | 0 <= i < |f| ensures 0 <= f[i] < |h| && h[x := Free(head)][f[i]] == Free(Nth(f, i + 1)) {
      if i > 0 { assert f[i] == free[i - 1]; }
    }
  }

  /** Writing to used slots does not disturb the free list. */
  lemma KeepFree<T>(h: seq<Slot<T>>, h': seq<Slot<T>>, head: int, free: seq<int>)
    requires FreeOk(h, head, free) && |h'| == |h|
    requires forall x :: 0 <= x < |h| && h[x].Free? ==> h'[x] == h[x]
    ensures FreeOk(h', head, free)
  {
  }

  class ObjectPool<T> {
    const slots: array<Slot<T>>
    var freeHead: int
    var inUse: nat
    ghost var free: seq<int>

    ghost predicate Valid()
      reads this, slots
    {
      FreeOk(slots[..], freeHead, free) && inUse + |free| == slots.Length
    }

    constructor (capacity: nat)
      ensures Valid() && fresh(slots) && slots.Length == capacity && inUse == 0
    {
      var a := new Slot<T>[capacity](_ => Free(NULL));
      ghost var list: seq<int> := [];
      for i := 0 to capacity
        invariant |list| == i && forall k :: 0 <= k < i ==> list[k] == k
        invariant forall k :: 0 <= k < i ==> a[k] == Free(if k + 1 < capacity then k + 1 else NULL)
      {
        a[i] := Free(if i + 1 < capacity then i + 1 else NULL);
        list := list + [i];
      }
      slots := a;
      freeHead := if capacity > 0 then 0 else NULL;
      inUse := 0;
      free := list;
    }

    /** A slot holding `v`, or null when none is free. */
    method Acquire(v: T) returns (x: int)
      requires Valid()
      modifies this, slots
      ensures Valid()
      ensures x == NULL <==> old(inUse) == slots.Length
      ensures x == NULL ==> slots[..] == old(slots[..]) && inUse == old(inUse)
      ensures x != NULL ==> 0 <= x < slots.Length && old(slots[..])[x].Free?
                            && slots[..] == old(slots[..])[x := Used(v)] && inUse == old(inUse) + 1
    {
      if freeHead == NULL {
        assert free == [];
        return NULL;
      }
      TakeFree(slots[..], freeHead, free, v);
      x := freeHead;
      freeHead := slots[x].nextFree;
      slots[x] := Used(v);
      inUse := inUse + 1;
      free := free[1..];
    }

    method Release(x: int)
      requires Valid() && 0 <= x < slots.Length && slots[x].Used? && inUse > 0
      modifies this, slots
      ensures Valid() && inUse == old(inUse) - 1 && freeHead == x
      ensures slots[..] == old(slots[..])[x := Free(old(freeHead))]
    {
      GiveFree(slots[..], freeHead, free, x);
      slots[x] := Free(freeHead);
      freeHead := x;
      inUse := inUse - 1;
      free := [x] + free;
    }

    /** Overwrite what a used slot holds. */
    method Write(x: int, v: T)
      requires Valid() && 0 <= x < slots.Length && slots[x].Used?
      modifies slots
      ensures Valid() && slots[..] == old(slots[..])[x := Used(v)]
    {
      KeepFree(slots[..], slots[..][x := Used(v)], freeHead, free);
      slots[x] := Used(v);
    }
  }
}
