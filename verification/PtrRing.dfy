/**
 * include/linux/ptr_ring.h as a step machine: any number of threads produce and consume, each side
 * behind its own spinlock, one shared access per step.  Whether a slot is free is told by its being
 * NULL, so that neither side reads the other's index.
 */
module PtrRing {
  import opened Options
  import opened Runs
  import opened Words
  import opened RingCopy

  type Tid = nat

  // Inside the lock: load the slot, store it, increment the index, take it back to 0 at the end.
  datatype ProducePc = PLock | PLoad | PStore | PIncrement | PWrap | PUnlock(full: bool)
  datatype ConsumePc = CLock | CLoad | CClear(ptr: Ptr) | CIncrement(ptr: Ptr) | CWrap(ptr: Ptr) | CUnlock(ptr: Ptr)

  datatype Local =
    | Idle
    | Produce(item: Ptr, ppc: ProducePc)
    | Consume(cpc: ConsumePc)

  datatype Result = NoResult | Produced | NoSpace | Consumed(ptr: Ptr)

  datatype State = State(
    size: nat,
    queue: seq<Ptr>,
    producer: nat,
    consumer: nat,
    producerLock: Option<Tid>,
    consumerLock: Option<Tid>,
    loc: seq<Local>,
    ret: seq<Result>,
    // ---- history: no step branches on it ----
    items: seq<Ptr>,   // every item stored, in order
    got: seq<Ptr>      // every item cleared, in order
  )

  function Goto(s: State, t: Tid, l: Local): State
    requires t < |s.loc|
  {
    s.(loc := s.loc[t := l])
  }

  function Return(s: State, t: Tid, r: Result): State
    requires t < |s.loc| == |s.ret|
  {
    s.(loc := s.loc[t := Idle], ret := s.ret[t := r])
  }

  // __ptr_ring_produce
  function ProduceStep(s: State, t: Tid, item: Ptr, pc: ProducePc): State
    requires t < |s.loc| == |s.ret|
  {
    match pc
    case PLock =>
      if s.producerLock == None then Goto(s, t, Produce(item, PLoad)).(producerLock := Some(t)) else s
    case PLoad =>
      if s.producer >= |s.queue| then s
      else Goto(s, t, Produce(item, if s.queue[s.producer] != NULL then PUnlock(true) else PStore))
    case PStore =>
      if s.producer >= |s.queue| then s
      else Goto(s, t, Produce(item, PIncrement)).(queue := s.queue[s.producer := item], items := s.items + [item])
    case PIncrement => Goto(s, t, Produce(item, PWrap)).(producer := s.producer + 1)
    case PWrap =>
      Goto(s, t, Produce(item, PUnlock(false))).(producer := if s.producer >= s.size then 0 else s.producer)
    case PUnlock(full) => Return(s, t, if full then NoSpace else Produced).(producerLock := None)
  }

  // __ptr_ring_consume: __ptr_ring_peek and __ptr_ring_discard_one
  function ConsumeStep(s: State, t: Tid, pc: ConsumePc): State
    requires t < |s.loc| == |s.ret|
  {
    match pc
    case CLock =>
      if s.consumerLock == None then Goto(s, t, Consume(CLoad)).(consumerLock := Some(t)) else s
    case CLoad =>
      if s.consumer >= |s.queue| then s
      else
        var ptr := s.queue[s.consumer];
        Goto(s, t, Consume(if ptr == NULL then CUnlock(NULL) else CClear(ptr)))
    case CClear(ptr) =>
      if s.consumer >= |s.queue| then s
      else Goto(s, t, Consume(CIncrement(ptr))).(queue := s.queue[s.consumer := NULL], got := s.got + [ptr])
    case CIncrement(ptr) => Goto(s, t, Consume(CWrap(ptr))).(consumer := s.consumer + 1)
    case CWrap(ptr) =>
      Goto(s, t, Consume(CUnlock(ptr))).(consumer := if s.consumer >= s.size then 0 else s.consumer)
    case CUnlock(ptr) => Return(s, t, Consumed(ptr)).(consumerLock := None)
  }

  datatype Action = Run | BeginProduce(item: Ptr) | BeginConsume

  // NULL cannot be produced: it marks a free slot.
  predicate Enabled(s: State, t: Tid, a: Action) {
    && t < |s.loc| && (a.Run? <==> s.loc[t] != Idle)
    && (a.BeginProduce? ==> a.item != NULL)
  }

  function Step(s: State, t: Tid): State
    requires t < |s.loc| == |s.ret|
  {
    match s.loc[t]
    case Idle => s
    case Produce(item, pc) => ProduceStep(s, t, item, pc)
    case Consume(pc) => ConsumeStep(s, t, pc)
  }

  function Apply(s: State, t: Tid, a: Action): State
    requires t < |s.loc| == |s.ret|
  {
    match a
    case Run => Step(s, t)
    case BeginProduce(item) => Goto(s, t, Produce(item, PLock))
    case BeginConsume => Goto(s, t, Consume(CLock))
  }

  ghost predicate Init(s: State) {
    && s.size >= 1 && |s.queue| == s.size && (forall j :: 0 <= j < |s.queue| ==> s.queue[j] == NULL)
    && s.producer == 0 && s.consumer == 0 && s.producerLock == None && s.consumerLock == None
    && (forall t :: 0 <= t < |s.loc| ==> s.loc[t] == Idle) && |s.ret| == |s.loc|
    && s.items == [] && s.got == []
  }

  ghost predicate Next(s: State, s': State) {
    |s.ret| == |s.loc| && exists t, a :: Enabled(s, t, a) && s' == Apply(s, t, a)
  }

  ghost predicate Reachable(s: State, n: nat) {
    Reach(Init, Next, s, n)
  }

  // ---- The abstract queue ----

  /** What is stored and not yet cleared, oldest first. */
  function Contents(s: State): seq<Ptr> {
    if |s.got| <= |s.items| then s.items[|s.got|..] else []
  }

  // ---- The invariant ----

  ghost predicate Shape(s: State) {
    s.size >= 1 && |s.queue| == s.size && |s.ret| == |s.loc|
  }

  // Counting on from the oldest item, the first slots hold the items and the rest of the ring is NULL.
  ghost predicate Block(s: State)
    requires Shape(s)
  {
    && |s.got| <= |s.items| <= |s.got| + s.size && s.got == s.items[..|s.got|]
    && (forall k :: 0 <= k < |s.items| ==> s.items[k] != NULL)
    && (forall k :: |s.got| <= k < |s.got| + s.size ==>
          s.queue[Index(s.size, k)] == if k < |s.items| then s.items[k] else NULL)
  }

  // The producer inside the lock, if any.
  ghost predicate ProducerAt(s: State, pc: ProducePc) {
    var n := |s.items|;
    match pc
    case PIncrement => n > 0 && s.size > 0 && s.producer == Index(s.size, n - 1)
    case PWrap => n > 0 && s.size > 0 && s.producer == Index(s.size, n - 1) + 1
    case PStore => s.size > 0 && s.producer == Index(s.size, n) && n < |s.got| + s.size
    case _ => s.size > 0 && s.producer == Index(s.size, n)
  }

  ghost predicate ConsumerAt(s: State, pc: ConsumePc) {
    var n := |s.got|;
    match pc
    case CIncrement(ptr) => n > 0 && s.size > 0 && s.consumer == Index(s.size, n - 1)
    case CWrap(ptr) => n > 0 && s.size > 0 && s.consumer == Index(s.size, n - 1) + 1
    case CClear(ptr) => s.size > 0 && s.consumer == Index(s.size, n) && n < |s.items| && ptr == s.items[n]
    case _ => s.size > 0 && s.consumer == Index(s.size, n)
  }

  ghost predicate Locks(s: State) {
    && (forall t :: 0 <= t < |s.loc| ==> (s.producerLock == Some(t) <==> s.loc[t].Produce? && s.loc[t].ppc != PLock))
    && (forall t :: 0 <= t < |s.loc| ==> (s.consumerLock == Some(t) <==> s.loc[t].Consume? && s.loc[t].cpc != CLock))
    && (s.producerLock.Some? ==> s.producerLock.value < |s.loc|)
    && (s.consumerLock.Some? ==> s.consumerLock.value < |s.loc|)
    && (forall t :: 0 <= t < |s.loc| && s.loc[t].Produce? ==> s.loc[t].item != NULL)
  }

  function ProducePcOf(s: State): ProducePc {
    if s.producerLock.Some? && s.producerLock.value < |s.loc| && s.loc[s.producerLock.value].Produce?
    then s.loc[s.producerLock.value].ppc else PLock
  }

  function ConsumePcOf(s: State): ConsumePc {
    if s.consumerLock.Some? && s.consumerLock.value < |s.loc| && s.loc[s.consumerLock.value].Consume?
    then s.loc[s.consumerLock.value].cpc else CLock
  }

  ghost predicate Inv(s: State) {
    Shape(s) && Locks(s) && Block(s) && ProducerAt(s, ProducePcOf(s)) && ConsumerAt(s, ConsumePcOf(s))
  }

  lemma InitInv(s: State)
    requires Init(s)
    ensures Inv(s)
  {
  }

  /** The slot where the next item goes is NULL exactly when the ring is not full. */
  lemma FreeSlot(s: State)
    requires Shape(s) && Block(s)
    ensures s.queue[Index(s.size, |s.items|)] == NULL <==> |Contents(s)| < s.size
  {
    if |s.items| == |s.got| + s.size {
      IndexAfter(s.size, |s.got|, s.size);
      assert s.queue[Index(s.size, |s.got|)] == s.items[|s.got|];
    }
  }

  /** The slot of the oldest item holds it, or NULL exactly when there is none. */
  lemma OldestSlot(s: State)
    requires Shape(s) && Block(s)
    ensures s.queue[Index(s.size, |s.got|)] == if Contents(s) == [] then NULL else Contents(s)[0]
    ensures Contents(s) != [] ==> Contents(s)[0] != NULL
  {
  }

  lemma StoreKeepsBlock(s: State, s': State, x: Ptr)
    requires Shape(s) && Block(s) && Shape(s') && x != NULL && |Contents(s)| < s.size && s'.size == s.size
    requires s'.queue == s.queue[Index(s.size, |s.items|) := x] && s'.items == s.items + [x] && s'.got == s.got
    ensures Block(s')
  {
    hide Index;
    forall k | |s.got| <= k < |s.got| + s.size
      ensures s'.queue[Index(s.size, k)] == if k < |s'.items| then s'.items[k] else NULL
    {
      if k < |s.items| { SlotsDiffer(s.size, k, |s.items|); }
      if k > |s.items| { SlotsDiffer(s.size, |s.items|, k); }
    }
  }

  lemma ClearKeepsBlock(s: State, s': State)
    requires Shape(s) && Block(s) && Shape(s') && Contents(s) != [] && s'.size == s.size
    requires s'.queue == s.queue[Index(s.size, |s.got|) := NULL]
    requires s'.items == s.items && s'.got == s.got + [Contents(s)[0]]
    ensures Block(s')
  {
    hide Index;
    forall k | |s'.got| <= k < |s'.got| + s.size
      ensures s'.queue[Index(s.size, k)] == if k < |s.items| then s.items[k] else NULL
    {
      if k < |s.got| + s.size { SlotsDiffer(s.size, |s.got|, k); } else { WholeRing(s.size, |s.got|); }
    }
  }

  lemma WholeRing(size: nat, n: nat)
    requires size > 0
    ensures Index(size, n + size) == Index(size, n)
  {
    IndexAfter(size, n, size);
  }

  /** Incrementing an index and taking it back to 0 at the end of the ring is counting one on. */
  lemma NextIndex(size: nat, n: nat)
    requires size >= 1 && n > 0
    ensures Index(size, n) == if Index(size, n - 1) + 1 >= size then 0 else Index(size, n - 1) + 1
  {
    IndexAfter(size, n - 1, 1);
  }

  predicate InProducerLock(l: Local) {
    l.Produce? && l.ppc != PLock
  }

  predicate InConsumerLock(l: Local) {
    l.Consume? && l.cpc != CLock
  }

  // What a step of thread t does to the locks.
  ghost predicate LockStep(s: State, s': State, t: Tid) {
    && t < |s.loc| == |s'.loc| && (forall u :: 0 <= u < |s.loc| && u != t ==> s'.loc[u] == s.loc[u])
    && (s'.loc[t].Produce? ==> s'.loc[t].item != NULL)
    && (!InProducerLock(s.loc[t]) && InProducerLock(s'.loc[t]) ==> s.producerLock == None)
    && (!InConsumerLock(s.loc[t]) && InConsumerLock(s'.loc[t]) ==> s.consumerLock == None)
    && s'.producerLock == (if InProducerLock(s'.loc[t]) then Some(t) else if InProducerLock(s.loc[t]) then None else s.producerLock)
    && s'.consumerLock == (if InConsumerLock(s'.loc[t]) then Some(t) else if InConsumerLock(s.loc[t]) then None else s.consumerLock)
  }

  lemma StepIsLockStep(s: State, t: Tid)
    requires Shape(s) && Locks(s) && t < |s.loc|
    ensures LockStep(s, Step(s, t), t)
  {
    hide LockStep, ProduceStep, ConsumeStep;
    match s.loc[t] {
      case Produce(item, pc) => ProduceIsLockStep(s, t, item, pc);
      case Consume(pc) => ConsumeIsLockStep(s, t, pc);
      case Idle => NothingIsLockStep(s, t);
    }
  }

  lemma NothingIsLockStep(s: State, t: Tid)
    requires Locks(s) && t < |s.loc| && s.loc[t] == Idle
    ensures LockStep(s, s, t)
  {
  }

  lemma ProduceIsLockStep(s: State, t: Tid, item: Ptr, pc: ProducePc)
    requires Shape(s) && Locks(s) && t < |s.loc| && s.loc[t] == Produce(item, pc)
    ensures LockStep(s, ProduceStep(s, t, item, pc), t)
  {
  }

  lemma ConsumeIsLockStep(s: State, t: Tid, pc: ConsumePc)
    requires Shape(s) && Locks(s) && t < |s.loc| && s.loc[t] == Consume(pc)
    ensures LockStep(s, ConsumeStep(s, t, pc), t)
  {
  }

  lemma LockStepKeepsLocks(s: State, s': State, t: Tid)
    requires Locks(s) && LockStep(s, s', t)
    ensures Locks(s')
  {
  }

  // A step that touches neither the slots nor the abstract queue.
  ghost predicate SameSlots(s: State, s': State) {
    s'.size == s.size && s'.queue == s.queue && s'.items == s.items && s'.got == s.got && Shape(s')
  }

  lemma SameBlock(s: State, s': State)
    requires Shape(s) && Block(s) && SameSlots(s, s')
    ensures Block(s')
  {
  }

  // A step of the thread in the producer lock leaves the consumer's side alone, and the other way round.
  lemma ProducerSide(s: State, s': State, t: Tid)
    requires Shape(s) && Locks(s) && LockStep(s, s', t) && s.loc[t].Produce? && !s'.loc[t].Consume?
    ensures ConsumePcOf(s') == ConsumePcOf(s)
    ensures InProducerLock(s.loc[t]) ==> ProducePcOf(s) == s.loc[t].ppc
    ensures ProducePcOf(s') == if InProducerLock(s'.loc[t]) then s'.loc[t].ppc
                               else if InProducerLock(s.loc[t]) then PLock else ProducePcOf(s)
  {
  }

  lemma ConsumerSide(s: State, s': State, t: Tid)
    requires Shape(s) && Locks(s) && LockStep(s, s', t) && s.loc[t].Consume? && !s'.loc[t].Produce?
    ensures ProducePcOf(s') == ProducePcOf(s)
    ensures InConsumerLock(s.loc[t]) ==> ConsumePcOf(s) == s.loc[t].cpc
    ensures ConsumePcOf(s') == if InConsumerLock(s'.loc[t]) then s'.loc[t].cpc
                               else if InConsumerLock(s.loc[t]) then CLock else ConsumePcOf(s)
  {
  }

  // Steps other than the store: the producer's index follows the count of items.
  lemma QuietProduce(s: State, s': State, t: Tid)
    requires Shape(s) && Block(s) && t < |s.loc| && s.loc[t].Produce? && s.loc[t].ppc != PStore && s' == Step(s, t)
    requires ProducerAt(s, s.loc[t].ppc)
    ensures |s'.loc| == |s.loc| && SameSlots(s, s') && ProducedStep(s, s', t)
  {
    hide Index, Block;
    var pc := s.loc[t].ppc;
    if pc == PLoad { FreeSlot(s); }
    if pc == PWrap { NextIndex(s.size, |s.items|); }
  }

  lemma ProduceStepInv(s: State, s': State, t: Tid)
    requires Inv(s) && t < |s.loc| && s.loc[t].Produce? && s' == Step(s, t)
    ensures Inv(s')
  {
    hide Index, Block, ConsumerAt;
    if s.loc[t].ppc == PLock && s.producerLock != None {
      assert s' == s;
    } else {
      StepIsLockStep(s, t);
      assert ProducePcOf(s) == s.loc[t].ppc;
      if s.loc[t].ppc == PStore { StoreStepBlock(s, s', t); } else { QuietProduce(s, s', t); }
      ProducedInv(s, s', t);
    }
  }

  // What a producer's step does to the rest of the state.
  ghost predicate ProducedStep(s: State, s': State, t: Tid)
    requires t < |s'.loc|
  {
    && ProducerAt(s', if s'.loc[t].Produce? then s'.loc[t].ppc else PLock)
    && s'.consumer == s.consumer && s'.size == s.size && s'.got == s.got && Shape(s')
    && |s.items| <= |s'.items| && s'.items[..|s.items|] == s.items
    && (SameSlots(s, s') || Block(s'))
  }

  lemma ProducedInv(s: State, s': State, t: Tid)
    requires Inv(s) && LockStep(s, s', t) && ProducedStep(s, s', t) && s.loc[t].Produce? && !s'.loc[t].Consume?
    requires ProducePcOf(s) == s.loc[t].ppc
    ensures Inv(s')
  {
    hide Index, Block;
    assert Locks(s') by { LockStepKeepsLocks(s, s', t); }
    ProducerSide(s, s', t);
    assert ConsumerAt(s', ConsumePcOf(s)) by { SameConsumer(s, s', ConsumePcOf(s)); }
    if SameSlots(s, s') { SameBlock(s, s'); }
    assert ProducePcOf(s') == if s'.loc[t].Produce? then s'.loc[t].ppc else PLock;
  }

  lemma SameConsumer(s: State, s': State, pc: ConsumePc)
    requires s'.size == s.size && s'.consumer == s.consumer && s'.got == s.got && ConsumerAt(s, pc)
    requires |s.items| <= |s'.items| && s'.items[..|s.items|] == s.items
    ensures ConsumerAt(s', pc)
  {
  }

  lemma SameProducer(s: State, s': State, pc: ProducePc)
    requires s'.size == s.size && s'.producer == s.producer && s'.items == s.items && ProducerAt(s, pc)
    requires |s.got| <= |s'.got|
    ensures ProducerAt(s', pc)
  {
  }

  lemma StoreStepBlock(s: State, s': State, t: Tid)
    requires Shape(s) && Block(s) && t < |s.loc| && s.loc[t].Produce? && s.loc[t].ppc == PStore && s' == Step(s, t)
    requires ProducerAt(s, PStore) && s.loc[t].item != NULL
    ensures |s'.loc| == |s.loc| && Block(s') && ProducedStep(s, s', t)
  {
    StoreKeepsBlock(s, s', s.loc[t].item);
  }

  lemma QuietConsume(s: State, s': State, t: Tid)
    requires Shape(s) && Block(s) && t < |s.loc| && s.loc[t].Consume? && !s.loc[t].cpc.CClear? && s' == Step(s, t)
    requires ConsumerAt(s, s.loc[t].cpc)
    ensures |s'.loc| == |s.loc| && SameSlots(s, s') && ConsumedStep(s, s', t)
  {
    hide Index, Block;
    var pc := s.loc[t].cpc;
    if pc == CLoad { OldestSlot(s); }
    if pc.CWrap? { NextIndex(s.size, |s.got|); }
  }

  ghost predicate ConsumedStep(s: State, s': State, t: Tid)
    requires t < |s'.loc|
  {
    && ConsumerAt(s', if s'.loc[t].Consume? then s'.loc[t].cpc else CLock)
    && s'.producer == s.producer && s'.size == s.size && s'.items == s.items && Shape(s')
    && |s.got| <= |s'.got|
    && (SameSlots(s, s') || Block(s'))
  }

  lemma ConsumedInv(s: State, s': State, t: Tid)
    requires Inv(s) && LockStep(s, s', t) && ConsumedStep(s, s', t) && s.loc[t].Consume? && !s'.loc[t].Produce?
    requires ConsumePcOf(s) == s.loc[t].cpc
    ensures Inv(s')
  {
    hide Index, Block;
    assert Locks(s') by { LockStepKeepsLocks(s, s', t); }
    ConsumerSide(s, s', t);
    assert ProducerAt(s', ProducePcOf(s)) by { SameProducer(s, s', ProducePcOf(s)); }
    if SameSlots(s, s') { SameBlock(s, s'); }
    assert ConsumePcOf(s') == if s'.loc[t].Consume? then s'.loc[t].cpc else CLock;
  }

  lemma ConsumeStepInv(s: State, s': State, t: Tid)
    requires Inv(s) && t < |s.loc| && s.loc[t].Consume? && s' == Step(s, t)
    ensures Inv(s')
  {
    hide Index, Block, ProducerAt;
    if s.loc[t].cpc == CLock && s.consumerLock != None {
      assert s' == s;
    } else {
      StepIsLockStep(s, t);
      assert ConsumePcOf(s) == s.loc[t].cpc;
      if s.loc[t].cpc.CClear? { ClearStepBlock(s, s', t); } else { QuietConsume(s, s', t); }
      ConsumedInv(s, s', t);
    }
  }

  lemma ClearStepBlock(s: State, s': State, t: Tid)
    requires Shape(s) && Block(s) && t < |s.loc| && s.loc[t].Consume? && s.loc[t].cpc.CClear? && s' == Step(s, t)
    requires ConsumerAt(s, s.loc[t].cpc)
    ensures |s'.loc| == |s.loc| && Block(s') && ConsumedStep(s, s', t)
  {
    ClearKeepsBlock(s, s');
  }

  lemma ActionKeepsInv(s: State, s': State, t: Tid, a: Action)
    requires Inv(s) && Enabled(s, t, a) && s' == Apply(s, t, a)
    ensures Inv(s')
  {
    if a.Run? {
      if s.loc[t].Produce? { ProduceStepInv(s, s', t); } else { ConsumeStepInv(s, s', t); }
    } else {
      BeginKeepsInv(s, s', t);
    }
  }

  lemma BeginKeepsInv(s: State, s': State, t: Tid)
    requires Inv(s) && t < |s.loc| && s.loc[t] == Idle && s' == s.(loc := s'.loc) && LockStep(s, s', t)
    requires !InProducerLock(s'.loc[t]) && !InConsumerLock(s'.loc[t])
    ensures Inv(s')
  {
    hide Index, Block;
    LockStepKeepsLocks(s, s', t);
    SameBlock(s, s');
    assert ProducePcOf(s') == ProducePcOf(s) && ConsumePcOf(s') == ConsumePcOf(s);
  }

  lemma ReachableInv(s: State, n: nat)
    requires Reachable(s, n)
    ensures Inv(s)
  {
    forall a | Init(a) ensures Inv(a) { InitInv(a); }
    forall a, b | Inv(a) && Next(a, b) ensures Inv(b) {
      var t, act :| Enabled(a, t, act) && b == Apply(a, t, act);
      ActionKeepsInv(a, b, t, act);
    }
    Induct(Init, Next, Inv, s, n);
  }

  // ---- What is promised ----

  /** At most one thread is inside each lock. */
  lemma OneOnEachSide(s: State, n: nat, t: Tid, u: Tid)
    requires Reachable(s, n) && t < |s.loc| && u < |s.loc| && t != u
    ensures !(s.loc[t].Produce? && s.loc[t].ppc != PLock && s.loc[u].Produce? && s.loc[u].ppc != PLock)
    ensures !(s.loc[t].Consume? && s.loc[t].cpc != CLock && s.loc[u].Consume? && s.loc[u].cpc != CLock)
  {
    ReachableInv(s, n);
  }

  // Slot j is one of the `length` slots that follow `from` round the ring.
  predicate InBlock(size: nat, from: nat, length: nat, j: nat) {
    Distance(size, from, j) < length
  }

  /**
   * The non-NULL slots are exactly the circular block from the consumer's slot to the producer's, which
   * holds the abstract queue.  The indices name these two slots, except that a producer between its
   * store and its increment, and a consumer between its clear and its increment, is at the slot just used,
   * and until it wraps its index is one past that slot, which may be the end of the ring.
   */
  lemma SlotsAreBlock(s: State, n: nat, j: nat)
    requires Reachable(s, n) && j < s.size
    ensures |s.queue| == s.size && |Contents(s)| <= s.size
    ensures var from := Index(s.size, |s.got|);
      && (s.queue[j] != NULL <==> InBlock(s.size, from, |Contents(s)|, j))
      && (InBlock(s.size, from, |Contents(s)|, j) ==>
            0 <= Distance(s.size, from, j) && s.queue[j] == Contents(s)[Distance(s.size, from, j)])
    ensures !(ProducePcOf(s).PIncrement? || ProducePcOf(s).PWrap?) ==> s.producer == Index(s.size, |s.items|)
    ensures !(ConsumePcOf(s).CIncrement? || ConsumePcOf(s).CWrap?) ==> s.consumer == Index(s.size, |s.got|)
    ensures ProducePcOf(s).PIncrement? ==> |s.items| > 0 && s.producer == Index(s.size, |s.items| - 1)
    ensures ConsumePcOf(s).CIncrement? ==> |s.got| > 0 && s.consumer == Index(s.size, |s.got| - 1)
    ensures ProducePcOf(s).PWrap? ==> |s.items| > 0 && s.producer == Index(s.size, |s.items| - 1) + 1
    ensures ConsumePcOf(s).CWrap? ==> |s.got| > 0 && s.consumer == Index(s.size, |s.got| - 1) + 1
  {
    hide Index, Reachable, Locks, Distance, InBlock;
    assert Inv(s) by { ReachableInv(s, n); }
    SlotInBlock(s, j);
  }

  lemma SlotInBlock(s: State, j: nat)
    requires Shape(s) && Block(s) && j < s.size
    ensures var from := Index(s.size, |s.got|);
      && (s.queue[j] != NULL <==> InBlock(s.size, from, |Contents(s)|, j))
      && (InBlock(s.size, from, |Contents(s)|, j) ==>
            0 <= Distance(s.size, from, j) && s.queue[j] == Contents(s)[Distance(s.size, from, j)])
  {
    var from := Index(s.size, |s.got|);
    var d := Distance(s.size, from, j);
    IndexAfter(s.size, |s.got|, d);
    assert Index(s.size, |s.got| + d) == j;
  }

  /** Every step leaves the queue alone, appends the item of a store, or removes the oldest item with a clear. */
  lemma StepsRefineFifo(s: State, n: nat, t: Tid)
    requires Reachable(s, n) && t < |s.loc|
    ensures |s.ret| == |s.loc|
    ensures var l := s.loc[t];
      if l.Produce? && l.ppc == PStore then
        Contents(Step(s, t)) == Contents(s) + [l.item] && |Contents(s)| < s.size
      else if l.Consume? && l.cpc.CClear? then
        Contents(s) == [l.cpc.ptr] + Contents(Step(s, t))
      else
        Contents(Step(s, t)) == Contents(s)
  {
    assert Inv(s) by { ReachableInv(s, n); }
    var l := s.loc[t];
    if l.Produce? && l.ppc == PStore {
      assert s.producerLock == Some(t) && ProducePcOf(s) == PStore;
      StoreAppends(s, t);
    } else if l.Consume? && l.cpc.CClear? {
      assert s.consumerLock == Some(t) && ConsumePcOf(s) == l.cpc;
      ClearRemoves(s, t);
    } else {
      OthersKeepContents(s, t);
    }
  }

  lemma StoreAppends(s: State, t: Tid)
    requires Shape(s) && Block(s) && t < |s.loc| && s.loc[t].Produce? && s.loc[t].ppc == PStore && ProducerAt(s, PStore)
    ensures Contents(Step(s, t)) == Contents(s) + [s.loc[t].item] && |Contents(s)| < s.size
  {
    assert Step(s, t).items == s.items + [s.loc[t].item];
  }

  lemma ClearRemoves(s: State, t: Tid)
    requires Shape(s) && Block(s) && t < |s.loc| && s.loc[t].Consume? && s.loc[t].cpc.CClear? && ConsumerAt(s, s.loc[t].cpc)
    ensures Contents(s) == [s.loc[t].cpc.ptr] + Contents(Step(s, t))
  {
    assert Step(s, t).got == s.got + [s.loc[t].cpc.ptr];
    assert s.items[|s.got|..] == [s.items[|s.got|]] + s.items[|s.got| + 1..];
  }

  lemma OthersKeepContents(s: State, t: Tid)
    requires Shape(s) && t < |s.loc| && !(s.loc[t].Produce? && s.loc[t].ppc == PStore) && !(s.loc[t].Consume? && s.loc[t].cpc.CClear?)
    ensures Contents(Step(s, t)) == Contents(s)
  {
    assert Step(s, t).items == s.items && Step(s, t).got == s.got;
  }

  /** -ENOSPC is decided at the load of the slot, and only if the ring holds `size` items then. */
  lemma NoSpaceIffFull(s: State, n: nat, t: Tid, item: Ptr)
    requires Reachable(s, n) && t < |s.loc| && s.loc[t] == Produce(item, PLoad)
    ensures |s.ret| == |s.loc|
    ensures Step(s, t).loc[t] == Produce(item, if |Contents(s)| == s.size then PUnlock(true) else PStore)
  {
    ReachableInv(s, n);
    assert s.producerLock == Some(t);
    FreeSlot(s);
  }

  /** NULL is returned only if the ring was empty at the load; otherwise the oldest item is. */
  lemma NullIffEmpty(s: State, n: nat, t: Tid)
    requires Reachable(s, n) && t < |s.loc| && s.loc[t] == Consume(CLoad)
    ensures |s.ret| == |s.loc|
    ensures Step(s, t).loc[t] == Consume(if Contents(s) == [] then CUnlock(NULL) else CClear(Contents(s)[0]))
  {
    ReachableInv(s, n);
    assert s.consumerLock == Some(t);
    OldestSlot(s);
  }

  /** What has been taken out is a prefix of what has been put in. */
  lemma FirstInFirstOut(s: State, n: nat)
    requires Reachable(s, n)
    ensures s.got <= s.items && s.items == s.got + Contents(s) && |Contents(s)| <= s.size
  {
    ReachableInv(s, n);
  }

  // ---- What the calls return ----

  // A producer that has stored its item: nobody has stored another one since.
  ghost predicate PutAt(s: State, t: Tid)
    requires t < |s.loc|
  {
    var l := s.loc[t];
    l.Produce? && (l.ppc.PIncrement? || l.ppc.PWrap? || l.ppc == PUnlock(false)) ==>
      s.items != [] && s.items[|s.items| - 1] == l.item
  }

  function Carried(pc: ConsumePc): Ptr {
    if pc.CIncrement? || pc.CWrap? || pc.CUnlock? then pc.ptr else NULL
  }

  // A consumer that has cleared its slot: nobody has cleared another one since.
  ghost predicate TakenAt(s: State, t: Tid)
    requires t < |s.loc|
  {
    var l := s.loc[t];
    l.Consume? && Carried(l.cpc) != NULL ==> s.got != [] && s.got[|s.got| - 1] == Carried(l.cpc)
  }

  ghost predicate Matched(s: State) {
    Inv(s) && forall t :: 0 <= t < |s.loc| ==> PutAt(s, t) && TakenAt(s, t)
  }

  lemma StepKeepsPut(s: State, t: Tid, u: Tid)
    requires Shape(s) && Locks(s) && t < |s.loc| && u < |s.loc| && PutAt(s, u)
    ensures PutAt(Step(s, t), u)
  {
    hide Index, Contents;
    if u != t && s.loc[t].Produce? && s.loc[t].ppc == PStore { assert s.producerLock == Some(t); }
  }

  lemma StepKeepsTaken(s: State, t: Tid, u: Tid)
    requires Shape(s) && Locks(s) && t < |s.loc| && u < |s.loc| && TakenAt(s, u)
    ensures TakenAt(Step(s, t), u)
  {
    hide Index, Contents;
    if u != t && s.loc[t].Consume? && s.loc[t].cpc.CClear? { assert s.consumerLock == Some(t); }
  }

  lemma ActionKeepsMatch(s: State, s': State, t: Tid, a: Action, u: Tid)
    requires Shape(s) && Locks(s) && Enabled(s, t, a) && s' == Apply(s, t, a) && u < |s.loc| == |s'.loc|
    requires PutAt(s, u) && TakenAt(s, u)
    ensures PutAt(s', u) && TakenAt(s', u)
  {
    if a.Run? {
      StepKeepsPut(s, t, u);
      StepKeepsTaken(s, t, u);
    }
  }

  lemma StepKeepsThreads(s: State, t: Tid, a: Action)
    requires Shape(s) && Enabled(s, t, a)
    ensures |Apply(s, t, a).loc| == |s.loc|
  {
  }

  lemma ActionKeepsMatched(s: State, s': State, t: Tid, a: Action)
    requires Matched(s) && Enabled(s, t, a) && s' == Apply(s, t, a)
    ensures Matched(s')
  {
    assert Inv(s') by { ActionKeepsInv(s, s', t, a); }
    StepKeepsThreads(s, t, a);
    forall u | 0 <= u < |s'.loc| ensures PutAt(s', u) && TakenAt(s', u) { ActionKeepsMatch(s, s', t, a, u); }
  }

  /**
   * When produce reports success its item is the one stored last, and a pointer that consume returns is the
   * one cleared last, as the caller still holds the lock.  PtrRingCalls has the other direction.
   */
  lemma ReturnsMatch(s: State, n: nat, t: Tid)
    requires Reachable(s, n) && t < |s.loc|
    ensures |s.ret| == |s.loc|
    ensures s.loc[t].Produce? && s.loc[t].ppc.PUnlock? ==>
              && Step(s, t).ret[t] == (if s.loc[t].ppc.full then NoSpace else Produced)
              && (!s.loc[t].ppc.full ==> s.items != [] && s.items[|s.items| - 1] == s.loc[t].item)
    ensures s.loc[t].Consume? && s.loc[t].cpc.CUnlock? ==>
              && Step(s, t).ret[t] == Consumed(s.loc[t].cpc.ptr)
              && (s.loc[t].cpc.ptr != NULL ==> s.got != [] && s.got[|s.got| - 1] == s.loc[t].cpc.ptr)
  {
    assert Shape(s) && PutAt(s, t) && TakenAt(s, t) by { ReachableMatched(s, n); }
  }

  lemma ReachableMatched(s: State, n: nat)
    requires Reachable(s, n)
    ensures Matched(s)
  {
    forall a | Init(a) ensures Matched(a) { InitInv(a); }
    forall a, b | Matched(a) && Next(a, b) ensures Matched(b) {
      var u, act :| Enabled(a, u, act) && b == Apply(a, u, act);
      ActionKeepsMatched(a, b, u, act);
    }
    Induct(Init, Next, Matched, s, n);
  }
}
