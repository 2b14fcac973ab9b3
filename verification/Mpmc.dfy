/**
 * The bounded multi-producer multi-consumer ring shared by include/linux/alf_queue.h and
 * include/linux/ring_queue.h, as a step machine.
 *
 * An operation loads the two indices, reserves slots by a cmpxchg of its side's head, copies element
 * by element, waits until its side's tail reaches the start of its reservation, and publishes by
 * storing the tail.  One step is one shared access.  The queues differ in one constant: an alf queue
 * of `size` slots holds `size` elements (slack 0), a ring queue `size - 1` (slack 1).
 *
 * The shared memory is `prod`, `cons` and `ring`.  Everything below "history" is bookkeeping with
 * unbounded counters: no step ever branches on it or returns it.
 */
module Mpmc {
  import opened Options
  import opened Runs
  import opened Words

  type Tid = nat

  datatype Actor = Actor(head: u32, tail: u32)

  // Alf: enqueue all or nothing, dequeue what there is.  Fixed and Variable: RING_QUEUE_FIXED and
  // RING_QUEUE_VARIABLE.
  datatype Mode = Alf | Fixed | Variable

  datatype Local =
    | Idle
    | Enq(items: seq<Ptr>, mode: Mode, epc: EnqPc)
    | Deq(max: nat, dmode: Mode, dpc: DeqPc)

  // `ghead`, `gtail` and `start` are the unbounded counters behind the loaded words.
  datatype EnqPc =
    | ELoadHead
    | ELoadTail(head: u32, ghead: nat)
    | ECas(head: u32, free: u32, n: nat, ghead: nat, gtail: nat)
    | ECopy(head: u32, free: u32, i: nat, start: nat)
    | EWait(head: u32, free: u32, start: nat)
    | EPublish(head: u32, free: u32, start: nat)

  datatype DeqPc =
    | DLoadHead
    | DLoadTail(head: u32, ghead: nat)
    | DCas(head: u32, n: nat, ghead: nat)
    | DCopy(head: u32, n: nat, got: seq<Ptr>, start: nat, claim: nat)
    | DWait(head: u32, got: seq<Ptr>, start: nat, claim: nat)
    | DPublish(head: u32, got: seq<Ptr>, start: nat, claim: nat)

  datatype Result =
    | NoResult
    | Refused                       // nothing was enqueued or dequeued
    | Enqueued(n: nat, free: u32)   // n elements, with the free space seen before reserving them
    | Dequeued(got: seq<Ptr>)

  // A reservation of a consumer, in the order of the exchanges of cons.head.
  datatype Claim = Claim(start: nat, n: nat, got: Option<seq<Ptr>>)

  datatype State = State(
    size: nat,
    slack: nat,
    prod: Actor,
    cons: Actor,
    ring: seq<Ptr>,
    loc: seq<Local>,
    ret: seq<Result>,
    // ---- history ----
    ph: nat, pt: nat, ch: nat, ct: nat,  // the counters whose wrapped values the indices are
    enq: seq<Ptr>,                       // every element reserved a slot, in the order of prod.head
    claims: seq<Claim>,
    pown: map<nat, Tid>,                 // whose reservation an unpublished index belongs to
    cown: map<nat, Tid>
  )

  function Cap(s: State): int {
    s.size - s.slack
  }

  // space = q->size + c_tail - p_head, or mask + cons_tail - prod_head, modulo 2^32
  function Free(s: State, head: u32): u32 {
    W(Cap(s) + s.cons.tail - head)
  }

  // elems = p_tail - c_head modulo 2^32
  function Entries(s: State, head: u32): u32 {
    W(s.prod.tail - head)
  }

  /** How many of n elements an enqueue reserves when it sees `free` free slots. */
  function EnqTake(mode: Mode, n: nat, free: nat): Option<nat> {
    if n <= free then Some(n)
    else if mode != Variable || free == 0 then None
    else Some(free)
  }

  /** How many of at most n elements a dequeue reserves when it sees `entries` of them. */
  function DeqTake(mode: Mode, n: nat, entries: nat): Option<nat> {
    if mode == Alf then (if entries == 0 then None else Some(if entries < n then entries else n))
    else if n <= entries then Some(n)
    else if mode == Fixed || entries == 0 then None
    else Some(entries)
  }

  function Goto(s: State, t: Tid, l: Local): State
    requires t < |s.loc|
  {
    s.(loc := s.loc[t := l])
  }

  function Return(s: State, t: Tid, r: Result): State
    requires t < |s.loc| == |s.ret|
  {
    s.(loc := s.loc[t := Idle], ret := s.ret[t := r])
  }

  function Range(from: nat, n: nat, t: Tid): (r: map<nat, Tid>)
    ensures forall k :: k in r <==> from <= k < from + n
    ensures forall k :: k in r ==> r[k] == t
  {
    if n == 0 then map[] else Range(from, n - 1, t)[from + n - 1 := t]
  }

  function Above(m: map<nat, Tid>, from: nat): map<nat, Tid> {
    map k | k in m && from <= k :: m[k]
  }

  // ---- Producers: alf_mp_enqueue, __ring_queue_mp_do_enqueue ----

  function EnqReserve(s: State, t: Tid, items: seq<Ptr>, mode: Mode, pc: EnqPc): State
    requires t < |s.loc| && pc.ECas? && pc.n <= |items|
  {
    Goto(s, t, Enq(items[..pc.n], mode,
                   if pc.n == 0 then EWait(pc.head, pc.free, s.ph) else ECopy(pc.head, pc.free, 0, s.ph))).(
      prod := s.prod.(head := W(pc.head + pc.n)),
      ph := s.ph + pc.n,
      enq := s.enq + items[..pc.n],
      pown := s.pown + Range(s.ph, pc.n, t))
  }

  function EnqStore(s: State, t: Tid, items: seq<Ptr>, mode: Mode, pc: EnqPc): State
    requires t < |s.loc| && pc.ECopy? && pc.i < |items| && RingSize(s.size)
  {
    var j := Slot(s.size, W(pc.head + pc.i));
    if j >= |s.ring| then s else
    Goto(s, t, Enq(items, mode, if pc.i + 1 == |items| then EWait(pc.head, pc.free, pc.start)
                               else ECopy(pc.head, pc.free, pc.i + 1, pc.start))).(
      ring := s.ring[j := items[pc.i]])
  }

  function EnqPublish(s: State, t: Tid, items: seq<Ptr>, pc: EnqPc): State
    requires t < |s.loc| == |s.ret| && pc.EPublish?
  {
    Return(s, t, Enqueued(|items|, pc.free)).(
      prod := s.prod.(tail := W(pc.head + |items|)),
      pt := pc.start + |items|,
      pown := Above(s.pown, pc.start + |items|))
  }

  function EnqStep(s: State, t: Tid, items: seq<Ptr>, mode: Mode, pc: EnqPc): State
    requires t < |s.loc| == |s.ret| && RingSize(s.size)
  {
    match pc
    case ELoadHead => Goto(s, t, Enq(items, mode, ELoadTail(s.prod.head, s.ph)))
    case ELoadTail(head, ghead) =>
      (match EnqTake(mode, |items|, Free(s, head))
       case None => Return(s, t, Refused)
       case Some(n) => Goto(s, t, Enq(items, mode, ECas(head, Free(s, head), n, ghead, s.ct))))
    case ECas(head, _, n, _, _) =>
      if s.prod.head == head && n <= |items| then EnqReserve(s, t, items, mode, pc)
      else Goto(s, t, Enq(items, mode, ELoadHead))
    case ECopy(_, _, i, _) => if i < |items| then EnqStore(s, t, items, mode, pc) else s
    case EWait(head, free, start) =>
      if s.prod.tail == head then Goto(s, t, Enq(items, mode, EPublish(head, free, start))) else s
    case EPublish(_, _, _) => EnqPublish(s, t, items, pc)
  }

  // ---- Consumers: alf_mc_dequeue, __ring_queue_mc_do_dequeue ----

  function DeqReserve(s: State, t: Tid, max: nat, mode: Mode, pc: DeqPc): State
    requires t < |s.loc| && pc.DCas?
  {
    var claim := |s.claims|;
    Goto(s, t, Deq(max, mode,
                   if pc.n == 0 then DWait(pc.head, [], s.ch, claim) else DCopy(pc.head, pc.n, [], s.ch, claim))).(
      cons := s.cons.(head := W(pc.head + pc.n)),
      ch := s.ch + pc.n,
      claims := s.claims + [Claim(s.ch, pc.n, None)],
      cown := s.cown + Range(s.ch, pc.n, t))
  }

  function DeqLoad(s: State, t: Tid, max: nat, mode: Mode, pc: DeqPc): State
    requires t < |s.loc| && pc.DCopy? && RingSize(s.size)
  {
    var j := Slot(s.size, W(pc.head + |pc.got|));
    if j >= |s.ring| then s else
    var got := pc.got + [s.ring[j]];
    Goto(s, t, Deq(max, mode, if |got| == pc.n then DWait(pc.head, got, pc.start, pc.claim)
                              else DCopy(pc.head, pc.n, got, pc.start, pc.claim)))
  }

  function DeqPublish(s: State, t: Tid, pc: DeqPc): State
    requires t < |s.loc| == |s.ret| && pc.DPublish?
  {
    Return(s, t, Dequeued(pc.got)).(
      cons := s.cons.(tail := W(pc.head + |pc.got|)),
      ct := pc.start + |pc.got|,
      claims := if pc.claim < |s.claims| then s.claims[pc.claim := s.claims[pc.claim].(got := Some(pc.got))] else s.claims,
      cown := Above(s.cown, pc.start + |pc.got|))
  }

  function DeqStep(s: State, t: Tid, max: nat, mode: Mode, pc: DeqPc): State
    requires t < |s.loc| == |s.ret| && RingSize(s.size)
  {
    match pc
    case DLoadHead => Goto(s, t, Deq(max, mode, DLoadTail(s.cons.head, s.ch)))
    case DLoadTail(head, ghead) =>
      (match DeqTake(mode, max, Entries(s, head))
       case None => Return(s, t, Refused)
       case Some(n) => Goto(s, t, Deq(max, mode, DCas(head, n, ghead))))
    case DCas(head, _, _) =>
      if s.cons.head == head then DeqReserve(s, t, max, mode, pc) else Goto(s, t, Deq(max, mode, DLoadHead))
    case DCopy(_, _, _, _, _) => DeqLoad(s, t, max, mode, pc)
    case DWait(head, got, start, claim) =>
      if s.cons.tail == head then Goto(s, t, Deq(max, mode, DPublish(head, got, start, claim))) else s
    case DPublish(_, _, _, _) => DeqPublish(s, t, pc)
  }

  // ---- The machine ----

  datatype Action = Run | BeginEnqueue(items: seq<Ptr>, mode: Mode) | BeginDequeue(max: nat, mode: Mode)

  ghost predicate Shape(s: State) {
    RingSize(s.size) && s.slack <= s.size && |s.ring| == s.size && |s.ret| == |s.loc|
  }

  /** One shared access of thread t. */
  function Step(s: State, t: Tid): State
    requires t < |s.loc| == |s.ret| && RingSize(s.size)
  {
    match s.loc[t]
    case Idle => s
    case Enq(items, mode, pc) => EnqStep(s, t, items, mode, pc)
    case Deq(max, mode, pc) => DeqStep(s, t, max, mode, pc)
  }

  predicate Enabled(s: State, t: Tid, a: Action) {
    t < |s.loc| && (a.Run? <==> s.loc[t] != Idle)
  }

  function Apply(s: State, t: Tid, a: Action): State
    requires t < |s.loc| == |s.ret| && RingSize(s.size)
  {
    match a
    case Run => Step(s, t)
    case BeginEnqueue(items, mode) => Goto(s, t, Enq(items, mode, ELoadHead))
    case BeginDequeue(max, mode) => Goto(s, t, Deq(max, mode, DLoadHead))
  }

  // Every operation asks for at least one element.
  predicate Positive(a: Action) {
    match a case Run => true case BeginEnqueue(items, _) => items != [] case BeginDequeue(max, _) => max > 0
  }

  // Fewer than 2^32 elements pass between a thread's load of a head and its cmpxchg of that head.
  predicate NoLap(s: State, t: Tid) {
    t < |s.loc| &&
    match s.loc[t]
    case Idle => true
    case Enq(_, _, pc) => pc.ECas? ==> s.ph - pc.ghead < TWO32
    case Deq(_, _, pc) => pc.DCas? ==> s.ch - pc.ghead < TWO32
  }

  ghost predicate Init(s: State) {
    && Shape(s)
    && (forall t :: 0 <= t < |s.loc| ==> s.loc[t] == Idle)
    && s.prod == Actor(0, 0) && s.cons == Actor(0, 0)
    && s.ph == 0 && s.pt == 0 && s.ch == 0 && s.ct == 0
    && s.enq == [] && s.claims == [] && s.pown == map[] && s.cown == map[]
  }

  ghost predicate Next(s: State, s': State) {
    Shape(s) && exists t, a :: Enabled(s, t, a) && Positive(a) && NoLap(s, t) && s' == Apply(s, t, a)
  }

  /** s is reached from an initial state in n steps. */
  ghost predicate Reachable(s: State, n: nat) {
    Reach(Init, Next, s, n)
  }
}
