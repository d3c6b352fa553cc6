/**
  The single-producer single-consumer ring, step by step: one producer and one consumer interleave their
  atomic actions in any order, and a load of the other side's cursor may return any value that cursor has
  had since the last one seen. Cursors are 64-bit registers that wrap; slots are reached by masking.
 */
module SpscQueue {
  import opened Types
  import opened Bits

  /** Where TryPush is: nowhere, about to reload the tail, about to write the slot, or about to publish the head. */
  datatype Producer<T> = PIdle | PFull(value: T, head: U64) | PReady(value: T, head: U64) | PWritten(value: T, head: U64)

  /** Where TryPop is: nowhere, about to reload the head, about to read the slot, or about to publish the tail. */
  datatype Consumer<T> = CIdle | CEmpty(tail: U64) | CReady(tail: U64) | CRead(tail: U64, out: T)

  /** The object's fields, both program counters, and the history: what was pushed and popped, which cursor values were seen. */
  datatype State<T> = State(
    buffer: seq<T>, head: U64, tail: U64, cachedTail: U64, cachedHead: U64,
    producer: Producer<T>, consumer: Consumer<T>,
    pushed: seq<T>, popped: seq<T>, seenTail: nat, seenHead: nat)

  /** The constructor's test, on the capacity as given. */
  predicate CapacityOk(capacity: nat) {
    capacity != 0 && BitAnd(capacity, capacity - 1) == 0
  }

  function Init<T>(buffer: seq<T>): State<T> {
    State(buffer, 0, 0, 0, 0, PIdle, CIdle, [], [], 0, 0)
  }

  /** The slot a cursor names: `cursor & mask_`. */
  function Slot(cursor: U64, capacity: nat): nat
    requires capacity > 0
  {
    BitAnd(cursor, capacity - 1)
  }

  /** The full test of TryPush, on registers. */
  predicate LooksFull(head: U64, cachedTail: U64, capacity: nat) {
    Wrap64(Wrap64(head + 1) - cachedTail) > capacity
  }

  datatype Action<T> =
    | PushStart(value: T)   // load own head, test against the cached tail
    | PushReload(tail: nat) // acquire-load the tail, as of its value number `tail`, and test again
    | PushWrite             // store the element
    | PushPublish           // release-store the head
    | PopStart              // load own tail, test against the cached head
    | PopReload(head: nat)  // acquire-load the head, as of its value number `head`, and test again
    | PopRead               // move the element out
    | PopPublish            // release-store the tail

  /** One atomic action. */
  ghost predicate Step<T>(s: State<T>, a: Action<T>, t: State<T>)
    requires |s.buffer| > 0
  {
    var capacity := |s.buffer|;
    match a
    case PushStart(v) =>
      s.producer.PIdle?
      && t == s.(producer := if LooksFull(s.head, s.cachedTail, capacity) then PFull(v, s.head) else PReady(v, s.head))
    case PushReload(n) =>
      s.producer.PFull? && s.seenTail <= n <= |s.popped|
      && t == s.(cachedTail := Wrap64(n), seenTail := n,
                 producer := if LooksFull(s.producer.head, Wrap64(n), capacity) then PIdle
                             else PReady(s.producer.value, s.producer.head))
    case PushWrite =>
      s.producer.PReady? && Slot(s.producer.head, capacity) < capacity
      && t == s.(buffer := s.buffer[Slot(s.producer.head, capacity) := s.producer.value],
                 producer := PWritten(s.producer.value, s.producer.head))
    case PushPublish =>
      s.producer.PWritten?
      && t == s.(head := Wrap64(s.producer.head + 1), pushed := s.pushed + [s.producer.value], producer := PIdle)
    case PopStart =>
      s.consumer.CIdle?
      && t == s.(consumer := if s.tail == s.cachedHead then CEmpty(s.tail) else CReady(s.tail))
    case PopReload(n) =>
      s.consumer.CEmpty? && s.seenHead <= n <= |s.pushed|
      && t == s.(cachedHead := Wrap64(n), seenHead := n,
                 consumer := if s.consumer.tail == Wrap64(n) then CIdle else CReady(s.consumer.tail))
    case PopRead =>
      s.consumer.CReady? && Slot(s.consumer.tail, capacity) < capacity
      && t == s.(consumer := CRead(s.consumer.tail, s.buffer[Slot(s.consumer.tail, capacity)]))
    case PopPublish =>
      s.consumer.CRead?
      && t == s.(tail := Wrap64(s.consumer.tail + 1), popped := s.popped + [s.consumer.out], consumer := CIdle)
  }

  // ----- Registers stand for unbounded counts -----

  lemma Pow2Of8()
    ensures Pow2(8) == 256
  {
    assert Pow2(4) == 16;
  }

  lemma Pow2Of64()
    ensures Pow2(64) == 0x1_0000_0000_0000_0000
  {
    hide Pow2;
    Pow2Of8();
    Pow2Add(8, 8); Pow2Add(16, 16); Pow2Add(32, 32);
  }

  lemma ModOfMultiple(n: nat, c: nat, m: nat)
    requires c > 0 && m > 0
    ensures (n % (c * m)) % c == n % c
  {
    var q, r := n / (c * m), n % (c * m);
    assert n == (c * m) * q + r;
    assert (c * m) * q == c * (m * q);
    assert r == c * (r / c) + r % c;
    assert n == c * (m * q + r / c) + r % c by {
      assert c * (m * q + r / c) == c * (m * q) + c * (r / c);
    }
    DivModUnique(n, c, m * q + r / c, r % c);
  }

  /** A masked register names the same slot as the unbounded count, across any number of wraps. */
  lemma SlotOfCount(n: nat, k: nat)
    requires k <= 63
    ensures Slot(Wrap64(n), Pow2(k)) == n % Pow2(k) < Pow2(k)
  {
    MaskIsMod(Wrap64(n), k);
    Pow2Of64();
    Pow2Add(k, 64 - k);
    ModOfMultiple(n, Pow2(k), Pow2(64 - k));
  }

  /** The wrapped difference of two counts less than 2^64 apart is their difference. */
  lemma WrappedDifference(a: nat, b: nat)
    requires b <= a < b + 0x1_0000_0000_0000_0000
    ensures Wrap64(Wrap64(a) - Wrap64(b)) == a - b
    ensures Wrap64(Wrap64(a) + 1) == Wrap64(a + 1)
  {
    var m := 0x1_0000_0000_0000_0000;
    DivModUnique(Wrap64(a) - Wrap64(b), m, b / m - a / m, a - b);
    WrapAdd(a, 1);
  }

  lemma FullTestOnCounts(head: nat, tail: nat, k: nat)
    requires k <= 63 && tail <= head <= tail + Pow2(k)
    ensures LooksFull(Wrap64(head), Wrap64(tail), Pow2(k)) <==> head - tail == Pow2(k)
  {
    hide Pow2, Wrap64;
    Pow2Bound(k);
    WrappedDifference(head + 1, tail);
    WrappedDifference(head, tail);
  }

  lemma {:induction false} Pow2Below(j: nat, k: nat)
    requires j <= k
    ensures Pow2(j) <= Pow2(k)
    decreases k
  {
    if j < k { Pow2Below(j, k - 1); }
  }

  lemma Pow2Bound(k: nat)
    requires k <= 63
    ensures Pow2(k) <= 0x8000_0000_0000_0000
  {
    Pow2Of64();
    assert Pow2(64) == 2 * Pow2(63);
    Pow2Below(k, 63);
  }

  lemma EmptyTestOnCounts(tail: nat, head: nat)
    requires tail <= head < tail + 0x1_0000_0000_0000_0000
    ensures Wrap64(tail) == Wrap64(head) <==> tail == head
  {
    WrappedDifference(head, tail);
  }

  lemma DistinctSlots(i: nat, j: nat, c: nat)
    requires i < j < i + c
    ensures i % c != j % c
  {
    if i % c == j % c {
      assert i == c * (i / c) + i % c && j == c * (j / c) + j % c;
      assert c * (j / c - i / c) == j - i by { assert c * (j / c) - c * (i / c) == c * (j / c - i / c); }
      MulAtLeast(c, j / c - i / c);
    }
  }

  // ----- The invariant -----

  ghost predicate Registers<T>(s: State<T>) {
    && s.head == Wrap64(|s.pushed|) && s.tail == Wrap64(|s.popped|)
    && s.cachedTail == Wrap64(s.seenTail) && s.cachedHead == Wrap64(s.seenHead)
  }

  ghost predicate Counts<T>(s: State<T>) {
    && s.seenTail <= |s.popped| <= s.seenHead <= |s.pushed| <= s.seenTail + |s.buffer|
  }

  /** Unread elements are in their slots, in order. */
  ghost predicate Contents<T>(s: State<T>)
    requires |s.buffer| > 0
  {
    && |s.popped| <= |s.pushed| && s.popped == s.pushed[..|s.popped|]
    && forall i :: |s.popped| <= i < |s.pushed| ==> s.buffer[i % |s.buffer|] == s.pushed[i]
  }

  ghost predicate ProducerOk<T>(s: State<T>)
    requires |s.buffer| > 0
  {
    match s.producer
    case PIdle => true
    case PFull(_, h) => h == Wrap64(|s.pushed|)
    case PReady(_, h) => h == Wrap64(|s.pushed|) && |s.pushed| < s.seenTail + |s.buffer|
    case PWritten(v, h) =>
      h == Wrap64(|s.pushed|) && |s.pushed| < s.seenTail + |s.buffer| && s.buffer[|s.pushed| % |s.buffer|] == v
  }

  ghost predicate ConsumerOk<T>(s: State<T>) {
    match s.consumer
    case CIdle => true
    case CEmpty(t) => t == Wrap64(|s.popped|)
    case CReady(t) => t == Wrap64(|s.popped|) && |s.popped| < s.seenHead
    case CRead(t, out) => t == Wrap64(|s.popped|) && |s.popped| < s.seenHead <= |s.pushed| && out == s.pushed[|s.popped|]
  }

  ghost predicate Inv<T>(s: State<T>, k: nat) {
    && k <= 63 && |s.buffer| == Pow2(k)
    && Registers(s) && Counts(s) && Contents(s) && ProducerOk(s) && ConsumerOk(s)
  }

  lemma InitInv<T>(buffer: seq<T>, k: nat)
    requires k <= 63 && |buffer| == Pow2(k)
    ensures Inv(Init(buffer), k)
  {
  }

  lemma PushStartInv<T>(s: State<T>, v: T, t: State<T>, k: nat)
    requires Inv(s, k) && Step(s, PushStart(v), t)
    ensures Inv(t, k)
  {
    hide Wrap64, Pow2, LooksFull;
    FullTestOnCounts(|s.pushed|, s.seenTail, k);
  }

  lemma PushReloadInv<T>(s: State<T>, n: nat, t: State<T>, k: nat)
    requires Inv(s, k) && Step(s, PushReload(n), t)
    ensures Inv(t, k)
  {
    hide Wrap64, Pow2, LooksFull;
    FullTestOnCounts(|s.pushed|, n, k);
  }

  lemma PushWriteInv<T>(s: State<T>, t: State<T>, k: nat)
    requires Inv(s, k) && Step(s, PushWrite, t)
    ensures Inv(t, k)
  {
    hide Wrap64, Pow2, Slot;
    SlotOfCount(|s.pushed|, k);
    forall i | |s.popped| <= i < |s.pushed| ensures t.buffer[i % |t.buffer|] == s.pushed[i] {
      DistinctSlots(i, |s.pushed|, |s.buffer|);
    }
  }

  lemma PushPublishInv<T>(s: State<T>, t: State<T>, k: nat)
    requires Inv(s, k) && Step(s, PushPublish, t)
    ensures Inv(t, k)
  {
    hide Pow2, Slot;
    WrappedDifference(|s.pushed|, |s.pushed|);
  }

  lemma PopStartInv<T>(s: State<T>, t: State<T>, k: nat)
    requires Inv(s, k) && Step(s, PopStart, t)
    ensures Inv(t, k)
  {
    hide Wrap64, Pow2, Slot;
    Pow2Bound(k);
    EmptyTestOnCounts(|s.popped|, s.seenHead);
  }

  lemma PopReloadInv<T>(s: State<T>, n: nat, t: State<T>, k: nat)
    requires Inv(s, k) && Step(s, PopReload(n), t)
    ensures Inv(t, k)
  {
    hide Wrap64, Pow2, Slot;
    Pow2Bound(k);
    EmptyTestOnCounts(|s.popped|, n);
  }

  lemma PopReadInv<T>(s: State<T>, t: State<T>, k: nat)
    requires Inv(s, k) && Step(s, PopRead, t)
    ensures Inv(t, k)
  {
    hide Wrap64, Pow2, Slot;
    SlotOfCount(|s.popped|, k);
  }

  lemma PopPublishInv<T>(s: State<T>, t: State<T>, k: nat)
    requires Inv(s, k) && Step(s, PopPublish, t)
    ensures Inv(t, k)
  {
    hide Pow2, Slot;
    WrappedDifference(|s.popped|, |s.popped|);
  }

  /** Every action keeps the invariant, whatever the other thread is in the middle of. */
  lemma StepInv<T>(s: State<T>, a: Action<T>, t: State<T>, k: nat)
    requires Inv(s, k) && Step(s, a, t)
    ensures Inv(t, k)
  {
    match a
    case PushStart(v) => PushStartInv(s, v, t, k);
    case PushReload(n) => PushReloadInv(s, n, t, k);
    case PushWrite => PushWriteInv(s, t, k);
    case PushPublish => PushPublishInv(s, t, k);
    case PopStart => PopStartInv(s, t, k);
    case PopReload(n) => PopReloadInv(s, n, t, k);
    case PopRead => PopReadInv(s, t, k);
    case PopPublish => PopPublishInv(s, t, k);
  }

  // ----- Every interleaving -----

  /** `states` is a run of the ring from its initial state by the actions `acts`. */
  ghost predicate IsRun<T>(states: seq<State<T>>, acts: seq<Action<T>>) {
    && |states| == |acts| + 1 && |states[0].buffer| > 0 && states[0] == Init(states[0].buffer)
    && forall i :: 0 <= i < |acts| ==> |states[i].buffer| > 0 && Step(states[i], acts[i], states[i + 1])
  }

  lemma {:induction false} RunInv<T>(states: seq<State<T>>, acts: seq<Action<T>>, k: nat, i: nat)
    requires IsRun(states, acts) && k <= 63 && |states[0].buffer| == Pow2(k) && i < |states|
    ensures Inv(states[i], k)
  {
    hide Inv, Step;
    if i == 0 {
      InitInv(states[0].buffer, k);
    } else {
      RunInv(states, acts, k, i - 1);
      StepInv(states[i - 1], acts[i - 1], states[i], k);
    }
  }

  lemma CapacityIsPower(capacity: nat) returns (k: nat)
    requires CapacityOk(capacity) && capacity < 0x1_0000_0000_0000_0000
    ensures k <= 63 && capacity == Pow2(k)
  {
    PowerOfTwoTest(capacity);
    k :| capacity == Pow2(k);
    if k > 63 {
      Pow2Of64();
      Pow2Add(64, k - 64);
      MulAtLeast(Pow2(64), Pow2(k - 64));
    }
  }

  /**
    In every state of every interleaving, with stale loads and however often the cursors have wrapped, for
    every capacity the constructor accepts: what was popped is a prefix of what was pushed, at most
    `capacity` elements are unread, a producer about to write and a consumer about to read are at
    different slots, a producer about to write is at the slot of no unread element, and every slot reached
    is inside the buffer.
   */
  lemma RingSafety<T>(states: seq<State<T>>, acts: seq<Action<T>>, i: nat)
    requires IsRun(states, acts) && CapacityOk(|states[0].buffer|) && |states[0].buffer| < 0x1_0000_0000_0000_0000
    requires i < |states|
    ensures var s := states[i];
            var c := |states[0].buffer|;
            && |s.buffer| == c && s.popped <= s.pushed && |s.pushed| - |s.popped| <= c
            && (s.producer.PReady? ==> Slot(s.producer.head, c) < c)
            && (s.consumer.CReady? ==> Slot(s.consumer.tail, c) < c)
            && (s.producer.PReady? && s.consumer.CReady? ==> Slot(s.producer.head, c) != Slot(s.consumer.tail, c))
            && (s.producer.PReady? ==> forall j :: |s.popped| <= j < |s.pushed| ==> Slot(s.producer.head, c) != SlotOf(s, j))
  {
    hide Slot, SlotOf, Step, Pow2, CapacityOk, Wrap64, Inv, Init;
    var k := CapacityIsPower(|states[0].buffer|);
    RunInv(states, acts, k, i);
    RunInv(states, acts, k, 0);
    var s := states[i];
    InvFacts(s, k);
    if s.producer.PReady? {
      forall j | |s.popped| <= j < |s.pushed| ensures Slot(s.producer.head, |s.buffer|) != SlotOf(s, j) {
        WriteSlotFree(s, k, j);
      }
    }
  }

  lemma InvFacts<T>(s: State<T>, k: nat)
    requires Inv(s, k)
    ensures |s.buffer| == Pow2(k) && s.popped <= s.pushed && |s.pushed| - |s.popped| <= |s.buffer|
    ensures s.producer.PReady? ==> Slot(s.producer.head, |s.buffer|) < |s.buffer|
    ensures s.consumer.CReady? ==>
              Slot(s.consumer.tail, |s.buffer|) < |s.buffer| && |s.popped| < |s.pushed|
              && Slot(s.consumer.tail, |s.buffer|) == SlotOf(s, |s.popped|)
  {
    hide Pow2, Wrap64, Slot;
    SlotOfCount(|s.pushed|, k);
    SlotOfCount(|s.popped|, k);
  }

  lemma WriteSlotFree<T>(s: State<T>, k: nat, j: nat)
    requires Inv(s, k) && s.producer.PReady? && |s.popped| <= j < |s.pushed|
    ensures Slot(s.producer.head, |s.buffer|) != SlotOf(s, j)
  {
    hide Pow2, Wrap64, Slot;
    SlotOfCount(|s.pushed|, k);
    SlotOfCount(j, k);
    DistinctSlots(j, |s.pushed|, |s.buffer|);
  }

  /** The slot of the j-th element ever pushed. */
  function SlotOf<T>(s: State<T>, j: nat): nat
    requires |s.buffer| > 0
  {
    Slot(Wrap64(j), |s.buffer|)
  }

  /** The elements pushed and not yet popped. */
  ghost function Unread<T>(s: State<T>): seq<T>
    requires |s.popped| <= |s.pushed|
  {
    s.pushed[|s.popped|..]
  }

  /** Each action either changes nothing abstractly, or adds at the back, or takes from the front what it returns. */
  lemma StepRefinesQueue<T>(s: State<T>, a: Action<T>, t: State<T>, k: nat)
    requires Inv(s, k) && Step(s, a, t)
    ensures |t.popped| <= |t.pushed|
    ensures match a
            case PushPublish => Unread(t) == Unread(s) + [s.producer.value]
            case PopPublish => Unread(s) != [] && s.consumer.out == Unread(s)[0] && Unread(t) == Unread(s)[1..]
            case _ => Unread(t) == Unread(s)
  {
    hide Pow2, Wrap64, Slot;
    StepInv(s, a, t, k);
  }

  /** TryPush gives up only when the ring was full at the tail value it loaded; TryPop only when it was empty. */
  lemma FailuresAreReal<T>(s: State<T>, a: Action<T>, t: State<T>, k: nat)
    requires Inv(s, k) && Step(s, a, t)
    ensures a.PushReload? ==> (t.producer.PIdle? <==> |s.pushed| == a.tail + |s.buffer|)
    ensures a.PopReload? ==> (t.consumer.CIdle? <==> |s.popped| == a.head)
  {
    hide Pow2, Slot, LooksFull, Wrap64;
    Pow2Bound(k);
    if a.PushReload? { FullTestOnCounts(|s.pushed|, a.tail, k); }
    if a.PopReload? { EmptyTestOnCounts(|s.popped|, a.head); }
  }

  // ----- The object, one call at a time -----

  /** The ring's own code. Each atomic access is one action of the step system, here with no other thread in between. */
  class Ring<T> {
    const mask: nat
    const buffer: array<T>
    var head: U64
    var cachedTail: U64
    var tail: U64
    var cachedHead: U64
    ghost var model: State<T>
    ghost const log: nat

    ghost predicate Valid()
      reads this, buffer
    {
      Agrees() && model.producer.PIdle? && model.consumer.CIdle?
    }

    /** The fields are those of a state the step system keeps. */
    ghost predicate Agrees()
      reads this, buffer
    {
      && Inv(model, log) && mask == buffer.Length - 1
      && model.buffer == buffer[..] && model.head == head && model.tail == tail
      && model.cachedTail == cachedTail && model.cachedHead == cachedHead
    }

    /** Elements pushed and not yet popped. */
    ghost function Contents(): seq<T>
      requires Valid()
      reads this, buffer
    {
      Unread(model)
    }

    constructor (capacity: nat, initial: T)
      requires CapacityOk(capacity) && capacity < 0x1_0000_0000_0000_0000
      ensures Valid() && Contents() == [] && buffer.Length == capacity && fresh(buffer)
    {
      var k := CapacityIsPower(capacity);
      mask := capacity - 1;
      buffer := new T[capacity](_ => initial);
      head, cachedTail, tail, cachedHead := 0, 0, 0, 0;
      log := k;
      new;
      model := Init(buffer[..]);
      InitInv(buffer[..], k);
    }

    ghost method Take(a: Action<T>, t: State<T>)
      requires Inv(model, log) && Step(model, a, t)
      modifies this`model
      ensures model == t && Inv(t, log)
    {
      StepInv(model, a, t, log);
      model := t;
    }

    /** The full test: against the cached tail first, then against the tail itself. */
    method HasRoom(value: T) returns (ok: bool)
      requires Valid()
      modifies this
      ensures Agrees() && model.consumer.CIdle? && model.producer == (if ok then PReady(value, head) else PIdle)
      ensures ok <==> |old(Contents())| < buffer.Length
      ensures Unread(model) == old(Contents()) && head == old(head)
    {
      hide Inv, Slot, Wrap64;
      InvFacts(model, log);
      var h, next := head, Wrap64(head + 1);
      var full := Wrap64(next - cachedTail) > buffer.Length;
      Take(PushStart(value), model.(producer := if full then PFull(value, h) else PReady(value, h)));
      if full {
        var seen := tail;
        TailRegister(model, log);
        full := Wrap64(next - seen) > buffer.Length;
        FailuresAreReal(model, PushReload(|model.popped|),
                        model.(cachedTail := seen, seenTail := |model.popped|, producer := if full then PIdle else PReady(value, h)), log);
        Take(PushReload(|model.popped|),
             model.(cachedTail := seen, seenTail := |model.popped|, producer := if full then PIdle else PReady(value, h)));
        cachedTail := seen;
      }
      ok := !full;
      if ok { RoomWhenReady(model, log); }
    }

    /** False exactly when the ring is full; otherwise the element is at the back. */
    method TryPush(value: T) returns (ok: bool)
      requires Valid()
      modifies this, buffer
      ensures Valid()
      ensures ok <==> |old(Contents())| < buffer.Length
      ensures Contents() == if ok then old(Contents()) + [value] else old(Contents())
    {
      hide Inv, Slot, Wrap64;
      ok := HasRoom(value);
      if ok {
        InvFacts(model, log);
        var h, next := head, Wrap64(head + 1);
        buffer[Slot(h, mask + 1)] := value;
        Take(PushWrite, model.(buffer := model.buffer[Slot(h, mask + 1) := value], producer := PWritten(value, h)));
        head := next;
        Take(PushPublish, model.(head := next, pushed := model.pushed + [value], producer := PIdle));
        InvFacts(model, log);
      }
    }

    /** False exactly when the ring is empty; otherwise the front element comes out. */
    method TryPop() returns (r: Option<T>)
      requires Valid()
      modifies this
      ensures Valid()
      ensures r.Some? <==> old(Contents()) != []
      ensures r.Some? ==> r.value == old(Contents())[0] && Contents() == old(Contents())[1..]
      ensures r == None ==> Contents() == old(Contents())
    {
      hide Inv, Slot, Wrap64;
      InvFacts(model, log);
      var t: int := tail;
      var empty := t == cachedHead;
      Take(PopStart, model.(consumer := if empty then CEmpty(t) else CReady(t)));
      if empty {
        var seen := head;
        TailRegister(model, log);
        empty := t == seen;
        FailuresAreReal(model, PopReload(|model.pushed|),
                        model.(cachedHead := seen, seenHead := |model.pushed|, consumer := if empty then CIdle else CReady(t)), log);
        Take(PopReload(|model.pushed|),
             model.(cachedHead := seen, seenHead := |model.pushed|, consumer := if empty then CIdle else CReady(t)));
        cachedHead := seen;
        if empty { return None; }
      }
      InvFacts(model, log);
      var out := buffer[Slot(t, mask + 1)];
      Take(PopRead, model.(consumer := CRead(t, out)));
      ghost var m := model;
      StepRefinesQueue(m, PopPublish, m.(tail := Wrap64(t + 1), popped := m.popped + [out], consumer := CIdle), log);
      tail := Wrap64(t + 1);
      Take(PopPublish, m.(tail := Wrap64(t + 1), popped := m.popped + [out], consumer := CIdle));
      r := Some(out);
    }
  }

  lemma TailRegister<T>(s: State<T>, k: nat)
    requires Inv(s, k)
    ensures s.tail == Wrap64(|s.popped|) && s.head == Wrap64(|s.pushed|)
    ensures s.seenTail <= |s.popped| && s.seenHead <= |s.pushed|
    ensures s.producer.PFull? ==> s.producer.head == s.head
    ensures s.consumer.CEmpty? ==> s.consumer.tail == s.tail
  {
  }

  lemma RoomWhenReady<T>(s: State<T>, k: nat)
    requires Inv(s, k) && s.producer.PReady?
    ensures |s.pushed| - |s.popped| < |s.buffer|
  {
  }
}
