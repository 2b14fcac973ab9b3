/**
 * What an operation of length zero does to the MPMC ring: its late store takes a tail back, and the
 * queue does not recover.
 */
module MpmcZeroLength {
  import opened Options
  import opened Runs
  import opened Words
  import opened Mpmc

  // A step of any operation, zero-length ones included.
  ghost predicate AnyStep(s: State, s': State) {
    Shape(s) && exists t, a :: Enabled(s, t, a) && NoLap(s, t) && s' == Apply(s, t, a)
  }

  ghost function Just(s0: State): State -> bool {
    s => s == s0
  }

  /** s is reached from s0 in n steps of any operations. */
  ghost predicate Leads(s0: State, s: State, n: nat) {
    Reach(Just(s0), AnyStep, s, n)
  }

  lemma Then(s0: State, s: State, n: nat, t: Tid, a: Action) returns (s': State)
    requires Leads(s0, s, n) && Shape(s) && Enabled(s, t, a) && NoLap(s, t)
    ensures s' == Apply(s, t, a) && Leads(s0, s', n + 1)
  {
    s' := Apply(s, t, a);
    assert AnyStep(s, s');
  }

  // ---- Runs of two threads near the start of a queue ----

  // What two threads on an alf queue, its first slot, its indices and its claims look like.
  datatype View = View(prod: Actor, cons: Actor, cell: Ptr, l0: Local, l1: Local, r1: Result, claims: nat)

  function Of(v: View, t: Tid): Local {
    if t == 0 then v.l0 else v.l1
  }

  function With(v: View, t: Tid, l: Local): View {
    if t == 0 then v.(l0 := l) else v.(l1 := l)
  }

  ghost predicate At(s: State, size: nat, v: View) {
    && Shape(s) && s.size == size && s.slack == 0 && |s.ring| > 0 && s.ring[0] == v.cell
    && s.prod == v.prod && s.cons == v.cons && s.ph == v.prod.head && s.ch == v.cons.head && s.ct == v.cons.tail
    && s.loc == [v.l0, v.l1] && s.ret[1] == v.r1 && |s.claims| == v.claims
  }

  const EMPTY: View := View(Actor(0, 0), Actor(0, 0), 0, Idle, Idle, NoResult, 0)

  // Two idle threads on an empty alf queue.
  function Start(size: nat): (s: State)
    requires RingSize(size)
    ensures Init(s) && At(s, size, EMPTY)
  {
    State(size, 0, Actor(0, 0), Actor(0, 0), seq(size, _ => 0), [Idle, Idle], [NoResult, NoResult],
          0, 0, 0, 0, [], [], map[], map[])
  }

  /** Some run of n steps from there comes to v. */
  ghost predicate Comes(size: nat, n: nat, v: View) {
    RingSize(size) && exists s :: Leads(Start(size), s, n) && At(s, size, v)
  }

  lemma Starts(size: nat)
    requires RingSize(size)
    ensures Comes(size, 0, EMPTY)
  {
    assert Leads(Start(size), Start(size), 0);
  }

  // A step that does the same in every state that looks like v.
  lemma StepsTo(size: nat, n: nat, v: View, t: Tid, a: Action, v': View)
    requires Comes(size, n, v) && t < 2 && (a.Run? <==> Of(v, t) != Idle)
    requires forall s :: At(s, size, v) ==> NoLap(s, t) && At(Apply(s, t, a), size, v')
    ensures Comes(size, n + 1, v')
  {
    hide RingSize, Leads;
    var s :| Leads(Start(size), s, n) && At(s, size, v);
    var s' := Then(Start(size), s, n, t, a);
  }

  lemma Begins(size: nat, n: nat, v: View, t: Tid, a: Action, l: Local)
    requires Comes(size, n, v) && t < 2 && Of(v, t) == Idle && !a.Run?
    requires l == if a.BeginEnqueue? then Enq(a.items, a.mode, ELoadHead) else Deq(a.max, a.mode, DLoadHead)
    ensures Comes(size, n + 1, With(v, t, l))
  {
    hide RingSize, Comes;
    StepsTo(size, n, v, t, a, With(v, t, l));
  }

  lemma FirstSlot(size: nat)
    requires RingSize(size)
    ensures Slot(size, W(0)) == 0
  {
    SlotIsIndex(size, 0);
  }

  lemma SmallWord(x: u32)
    ensures W(x) == x
  {
  }

  // ---- One step of an enqueue ----

  lemma EnqLoadsHead(size: nat, n: nat, v: View, t: Tid, items: seq<Ptr>)
    requires Comes(size, n, v) && t < 2 && Of(v, t) == Enq(items, Alf, ELoadHead)
    ensures Comes(size, n + 1, With(v, t, Enq(items, Alf, ELoadTail(v.prod.head, v.prod.head))))
  {
    hide RingSize, Comes;
    StepsTo(size, n, v, t, Run, With(v, t, Enq(items, Alf, ELoadTail(v.prod.head, v.prod.head))));
  }

  lemma EnqLoadsTail(size: nat, n: nat, v: View, t: Tid, items: seq<Ptr>, h: u32, free: u32)
    requires Comes(size, n, v) && t < 2 && Of(v, t) == Enq(items, Alf, ELoadTail(h, h))
    requires |items| <= free == W(size + v.cons.tail - h)
    ensures Comes(size, n + 1, With(v, t, Enq(items, Alf, ECas(h, free, |items|, h, v.cons.tail))))
  {
    hide RingSize, W, Comes;
    StepsTo(size, n, v, t, Run, With(v, t, Enq(items, Alf, ECas(h, free, |items|, h, v.cons.tail))));
  }

  // The place of a producer that has reserved.
  function Reserved(items: seq<Ptr>, h: u32, free: u32): Local {
    Enq(items, Alf, if items == [] then EWait(h, free, h) else ECopy(h, free, 0, h))
  }

  lemma EnqCas(size: nat, n: nat, v: View, t: Tid, items: seq<Ptr>, h: u32, free: u32, next: u32)
    requires Comes(size, n, v) && t < 2 && Of(v, t) == Enq(items, Alf, ECas(h, free, |items|, h, v.cons.tail))
    requires v.prod.head == h && next == h + |items|
    ensures Comes(size, n + 1, With(v.(prod := v.prod.(head := next)), t, Reserved(items, h, free)))
  {
    hide RingSize, W, Comes, Reserved;
    SmallWord(next);
    var v' := With(v.(prod := v.prod.(head := next)), t, Reserved(items, h, free));
    forall s | At(s, size, v) ensures NoLap(s, t) && At(Apply(s, t, Run), size, v') {
      EnqCasAt(s, size, v, t, items, h, free, next);
    }
    StepsTo(size, n, v, t, Run, v');
  }

  lemma EnqCasAt(s: State, size: nat, v: View, t: Tid, items: seq<Ptr>, h: u32, free: u32, next: u32)
    requires At(s, size, v) && t < 2 && Of(v, t) == Enq(items, Alf, ECas(h, free, |items|, h, v.cons.tail))
    requires v.prod.head == h && next == h + |items| == W(h + |items|)
    ensures NoLap(s, t) && At(Apply(s, t, Run), size, With(v.(prod := v.prod.(head := next)), t, Reserved(items, h, free)))
  {
    hide RingSize, W, Range;
    assert items[..|items|] == items;
    assert Apply(s, t, Run) == EnqReserve(s, t, items, Alf, s.loc[t].epc);
  }

  lemma EnqReserves(size: nat, n: nat, v: View, t: Tid, items: seq<Ptr>, h: u32, free: u32, next: u32)
    requires Comes(size, n, v) && t < 2 && Of(v, t) == Idle && v.prod.head == h && next == h + |items|
    requires |items| <= free == W(size + v.cons.tail - h)
    ensures Comes(size, n + 4, With(v.(prod := v.prod.(head := next)), t, Reserved(items, h, free)))
  {
    hide RingSize, W, Comes, Reserved;
    Begins(size, n, v, t, BeginEnqueue(items, Alf), Enq(items, Alf, ELoadHead));
    EnqLoadsHead(size, n + 1, With(v, t, Enq(items, Alf, ELoadHead)), t, items);
    EnqLoadsTail(size, n + 2, With(v, t, Enq(items, Alf, ELoadTail(h, h))), t, items, h, free);
    EnqCas(size, n + 3, With(v, t, Enq(items, Alf, ECas(h, free, |items|, h, v.cons.tail))), t, items, h, free, next);
  }

  lemma EnqStores(size: nat, n: nat, v: View, t: Tid, x: Ptr, free: u32)
    requires RingSize(size) && Comes(size, n, v) && t < 2 && Of(v, t) == Reserved([x], 0, free)
    ensures Comes(size, n + 1, With(v.(cell := x), t, Enq([x], Alf, EWait(0, free, 0))))
  {
    hide RingSize, W, Slot, Comes;
    FirstSlot(size);
    StepsTo(size, n, v, t, Run, With(v.(cell := x), t, Enq([x], Alf, EWait(0, free, 0))));
  }

  lemma EnqWaits(size: nat, n: nat, v: View, t: Tid, items: seq<Ptr>, h: u32, free: u32)
    requires Comes(size, n, v) && t < 2 && Of(v, t) == Enq(items, Alf, EWait(h, free, h)) && v.prod.tail == h
    ensures Comes(size, n + 1, With(v, t, Enq(items, Alf, EPublish(h, free, h))))
  {
    hide RingSize, Comes;
    StepsTo(size, n, v, t, Run, With(v, t, Enq(items, Alf, EPublish(h, free, h))));
  }

  lemma EnqPublishes(size: nat, n: nat, v: View, t: Tid, items: seq<Ptr>, h: u32, free: u32, next: u32, v': View)
    requires Comes(size, n, v) && t < 2 && Of(v, t) == Enq(items, Alf, EPublish(h, free, h)) && next == W(h + |items|)
    requires v' == With(v, t, Idle).(prod := v.prod.(tail := next), r1 := if t == 1 then Enqueued(|items|, free) else v.r1)
    ensures Comes(size, n + 1, v')
  {
    hide RingSize, W, Comes;
    StepsTo(size, n, v, t, Run, v');
  }

  // ---- One step of a dequeue ----

  lemma DeqLoadsHead(size: nat, n: nat, v: View, t: Tid, max: nat)
    requires Comes(size, n, v) && t < 2 && Of(v, t) == Deq(max, Alf, DLoadHead)
    ensures Comes(size, n + 1, With(v, t, Deq(max, Alf, DLoadTail(v.cons.head, v.cons.head))))
  {
    hide RingSize, Comes;
    StepsTo(size, n, v, t, Run, With(v, t, Deq(max, Alf, DLoadTail(v.cons.head, v.cons.head))));
  }

  lemma DeqLoadsTail(size: nat, n: nat, v: View, t: Tid, max: nat, h: u32)
    requires Comes(size, n, v) && t < 2 && Of(v, t) == Deq(max, Alf, DLoadTail(h, h)) && max <= 1 == W(v.prod.tail - h)
    ensures Comes(size, n + 1, With(v, t, Deq(max, Alf, DCas(h, max, h))))
  {
    hide RingSize, W, Comes;
    StepsTo(size, n, v, t, Run, With(v, t, Deq(max, Alf, DCas(h, max, h))));
  }

  // The place of a consumer that has claimed max elements.
  function Claimed(max: nat, h: u32, claim: nat): Local {
    Deq(max, Alf, if max == 0 then DWait(h, [], h, claim) else DCopy(h, max, [], h, claim))
  }

  lemma DeqCas(size: nat, n: nat, v: View, t: Tid, max: nat, h: u32, next: u32)
    requires Comes(size, n, v) && t < 2 && Of(v, t) == Deq(max, Alf, DCas(h, max, h)) && v.cons.head == h && next == h + max
    ensures Comes(size, n + 1, With(v.(cons := v.cons.(head := next), claims := v.claims + 1), t, Claimed(max, h, v.claims)))
  {
    hide RingSize, W, Comes, Claimed;
    SmallWord(next);
    var v' := With(v.(cons := v.cons.(head := next), claims := v.claims + 1), t, Claimed(max, h, v.claims));
    forall s | At(s, size, v) ensures NoLap(s, t) && At(Apply(s, t, Run), size, v') {
      DeqCasAt(s, size, v, t, max, h, next);
    }
    StepsTo(size, n, v, t, Run, v');
  }

  lemma DeqCasAt(s: State, size: nat, v: View, t: Tid, max: nat, h: u32, next: u32)
    requires At(s, size, v) && t < 2 && Of(v, t) == Deq(max, Alf, DCas(h, max, h)) && v.cons.head == h
    requires next == h + max == W(h + max)
    ensures NoLap(s, t)
    ensures At(Apply(s, t, Run), size,
               With(v.(cons := v.cons.(head := next), claims := v.claims + 1), t, Claimed(max, h, v.claims)))
  {
    hide RingSize, W, Range;
    assert Apply(s, t, Run) == DeqReserve(s, t, max, Alf, s.loc[t].dpc);
  }

  lemma DeqClaims(size: nat, n: nat, v: View, t: Tid, max: nat, h: u32, next: u32)
    requires Comes(size, n, v) && t < 2 && Of(v, t) == Idle && v.cons.head == h && next == h + max
    requires max <= 1 == W(v.prod.tail - h)
    ensures Comes(size, n + 4, With(v.(cons := v.cons.(head := next), claims := v.claims + 1), t, Claimed(max, h, v.claims)))
  {
    hide RingSize, W, Comes, Claimed;
    Begins(size, n, v, t, BeginDequeue(max, Alf), Deq(max, Alf, DLoadHead));
    DeqLoadsHead(size, n + 1, With(v, t, Deq(max, Alf, DLoadHead)), t, max);
    DeqLoadsTail(size, n + 2, With(v, t, Deq(max, Alf, DLoadTail(h, h))), t, max, h);
    DeqCas(size, n + 3, With(v, t, Deq(max, Alf, DCas(h, max, h))), t, max, h, next);
  }

  lemma DeqLoads(size: nat, n: nat, v: View, t: Tid, claim: nat)
    requires Comes(size, n, v) && t < 2 && Of(v, t) == Claimed(1, 0, claim)
    ensures Comes(size, n + 1, With(v, t, Deq(1, Alf, DWait(0, [v.cell], 0, claim))))
  {
    hide RingSize, Comes;
    var v' := With(v, t, Deq(1, Alf, DWait(0, [v.cell], 0, claim)));
    forall s | At(s, size, v) ensures NoLap(s, t) && At(Apply(s, t, Run), size, v') { DeqLoadsAt(s, size, v, t, claim); }
    StepsTo(size, n, v, t, Run, v');
  }

  lemma DeqLoadsAt(s: State, size: nat, v: View, t: Tid, claim: nat)
    requires At(s, size, v) && t < 2 && Of(v, t) == Claimed(1, 0, claim)
    ensures NoLap(s, t) && At(Apply(s, t, Run), size, With(v, t, Deq(1, Alf, DWait(0, [v.cell], 0, claim))))
  {
    hide RingSize, W, Slot;
    FirstSlot(size);
    assert [] + [s.ring[0]] == [v.cell];
    assert Apply(s, t, Run) == DeqLoad(s, t, 1, Alf, s.loc[t].dpc);
  }

  lemma DeqWaits(size: nat, n: nat, v: View, t: Tid, max: nat, got: seq<Ptr>, h: u32, claim: nat)
    requires Comes(size, n, v) && t < 2 && Of(v, t) == Deq(max, Alf, DWait(h, got, h, claim)) && v.cons.tail == h
    ensures Comes(size, n + 1, With(v, t, Deq(max, Alf, DPublish(h, got, h, claim))))
  {
    hide RingSize, Comes;
    StepsTo(size, n, v, t, Run, With(v, t, Deq(max, Alf, DPublish(h, got, h, claim))));
  }

  lemma DeqPublishes(size: nat, n: nat, v: View, t: Tid, max: nat, got: seq<Ptr>, h: u32, claim: nat, next: u32, v': View)
    requires Comes(size, n, v) && t < 2 && Of(v, t) == Deq(max, Alf, DPublish(h, got, h, claim)) && next == h + |got|
    requires v' == With(v, t, Idle).(cons := v.cons.(tail := next), r1 := if t == 1 then Dequeued(got) else v.r1)
    ensures Comes(size, n + 1, v')
  {
    hide RingSize, W, Comes;
    SmallWord(next);
    forall s | At(s, size, v) ensures NoLap(s, t) && At(Apply(s, t, Run), size, v') {
      DeqPublishesAt(s, size, v, t, max, got, h, claim, next, v');
    }
    StepsTo(size, n, v, t, Run, v');
  }

  lemma DeqPublishesAt(s: State, size: nat, v: View, t: Tid, max: nat, got: seq<Ptr>, h: u32, claim: nat, next: u32, v': View)
    requires At(s, size, v) && t < 2 && Of(v, t) == Deq(max, Alf, DPublish(h, got, h, claim))
    requires next == h + |got| == W(h + |got|)
    requires v' == With(v, t, Idle).(cons := v.cons.(tail := next), r1 := if t == 1 then Dequeued(got) else v.r1)
    ensures NoLap(s, t) && At(Apply(s, t, Run), size, v')
  {
    hide RingSize, W, Above;
    assert Apply(s, t, Run) == DeqPublish(s, t, s.loc[t].dpc);
  }

  // ---- The two runs ----

  // The state that the first run comes to.
  ghost predicate LostElement(s: State) {
    && Shape(s) && s.slack == 0 && s.prod == Actor(1, 0) && s.cons == Actor(0, 0)
    && forall t :: 0 <= t < |s.loc| ==> s.loc[t] == Idle
  }

  // The state that the second run comes to, on a ring of one slot.
  ghost predicate LostSlot(s: State) {
    && Shape(s) && s.slack == 0 && s.size == 1 && s.prod == Actor(1, 1) && s.cons == Actor(1, 0)
    && forall t :: 0 <= t < |s.loc| ==> s.loc[t] == Idle
  }

  // Thread 0 at l0, thread 1 at l1, nothing dequeued yet.
  function Producing(prod: Actor, cell: Ptr, l0: Local, l1: Local, r1: Result): View {
    View(prod, Actor(0, 0), cell, l0, l1, r1, 0)
  }

  // Thread 1 enqueues x, from start to finish, into an empty queue.
  lemma OneElementPasses(size: nat, n: nat, l0: Local, x: Ptr)
    requires RingSize(size) && Comes(size, n, Producing(Actor(0, 0), 0, l0, Idle, NoResult))
    ensures Comes(size, n + 7, Producing(Actor(1, 1), x, l0, Idle, Enqueued(1, size)))
  {
    hide RingSize, W, Comes, Reserved;
    WordsNearStart(size);
    EnqReserves(size, n, Producing(Actor(0, 0), 0, l0, Idle, NoResult), 1, [x], 0, size, 1);
    EnqStores(size, n + 4, Producing(Actor(1, 0), 0, l0, Reserved([x], 0, size), NoResult), 1, x, size);
    EnqWaits(size, n + 5, Producing(Actor(1, 0), x, l0, Enq([x], Alf, EWait(0, size, 0)), NoResult), 1, [x], 0, size);
    EnqPublishes(size, n + 6, Producing(Actor(1, 0), x, l0, Enq([x], Alf, EPublish(0, size, 0)), NoResult), 1, [x], 0, size, 1,
                 Producing(Actor(1, 1), x, l0, Idle, Enqueued(1, size)));
  }

  lemma WordsNearStart(size: nat)
    requires RingSize(size)
    ensures 1 <= size < TWO32 && W(size) == W(size + 0 - 0) == size && W(0) == 0 && W(1) == 1
  {
  }

  // Thread 0 is held before its last store, with nothing to publish.
  lemma NothingHeld(size: nat)
    requires RingSize(size)
    ensures Comes(size, 5, Producing(Actor(0, 0), 0, Enq([], Alf, EPublish(0, size, 0)), Idle, NoResult))
  {
    hide RingSize, W, Comes;
    WordsNearStart(size);
    Starts(size);
    EnqReserves(size, 0, EMPTY, 0, [], 0, size, 0);
    EnqWaits(size, 4, Producing(Actor(0, 0), 0, Enq([], Alf, EWait(0, size, 0)), Idle, NoResult), 0, [], 0, size);
  }

  /**
   * The run on which a zero-length enqueue loses an element: thread 0 is held before its last store
   * while thread 1 enqueues x.  The late store takes prod.tail back behind x, which was reported as
   * enqueued.
   */
  lemma ZeroLengthLosesElement(size: nat, x: Ptr)
    requires RingSize(size)
    ensures Comes(size, 13, Producing(Actor(1, 0), x, Idle, Idle, Enqueued(1, size)))
    ensures forall s :: At(s, size, Producing(Actor(1, 0), x, Idle, Idle, Enqueued(1, size))) ==> LostElement(s)
  {
    hide RingSize, W, Comes;
    NothingHeld(size);
    OneElementPasses(size, 5, Enq([], Alf, EPublish(0, size, 0)), x);
    LateStore(size, x);
  }

  lemma LateStore(size: nat, x: Ptr)
    requires size < TWO32 && Comes(size, 12, Producing(Actor(1, 1), x, Enq([], Alf, EPublish(0, size, 0)), Idle, Enqueued(1, size)))
    ensures Comes(size, 13, Producing(Actor(1, 0), x, Idle, Idle, Enqueued(1, size)))
  {
    hide RingSize, W, Comes;
    SmallWord(0);
    var v := Producing(Actor(1, 1), x, Enq([], Alf, EPublish(0, size, 0)), Idle, Enqueued(1, size));
    EnqPublishes(size, 12, v, 0, [], 0, size, 0, v.(prod := Actor(1, 0), l0 := Idle));
  }

  // Thread 0 is held before its last store, with a claim of nothing on a queue that holds x.
  lemma NothingClaimed(size: nat, x: Ptr)
    requires RingSize(size)
    ensures Comes(size, 12, View(Actor(1, 1), Actor(0, 0), x, Deq(0, Alf, DPublish(0, [], 0, 0)), Idle, Enqueued(1, size), 1))
  {
    hide RingSize, W, Comes;
    SmallWord(1);
    Starts(size);
    OneElementPasses(size, 0, Idle, x);
    DeqClaims(size, 7, Producing(Actor(1, 1), x, Idle, Idle, Enqueued(1, size)), 0, 0, 0, 0);
    DeqWaits(size, 11, View(Actor(1, 1), Actor(0, 0), x, Deq(0, Alf, DWait(0, [], 0, 0)), Idle, Enqueued(1, size), 1),
             0, 0, [], 0, 0);
  }

  // Thread 1 dequeues it, from start to finish.
  lemma OneElementTaken(size: nat, x: Ptr, l0: Local, r1: Result)
    requires RingSize(size) && Comes(size, 12, View(Actor(1, 1), Actor(0, 0), x, l0, Idle, r1, 1))
    ensures Comes(size, 19, View(Actor(1, 1), Actor(1, 1), x, l0, Idle, Dequeued([x]), 2))
  {
    hide RingSize, W, Comes, Claimed;
    SmallWord(1);
    DeqClaims(size, 12, View(Actor(1, 1), Actor(0, 0), x, l0, Idle, r1, 1), 1, 1, 0, 1);
    DeqLoads(size, 16, View(Actor(1, 1), Actor(1, 0), x, l0, Claimed(1, 0, 1), r1, 2), 1, 1);
    DeqWaits(size, 17, View(Actor(1, 1), Actor(1, 0), x, l0, Deq(1, Alf, DWait(0, [x], 0, 1)), r1, 2), 1, 1, [x], 0, 1);
    DeqPublishes(size, 18, View(Actor(1, 1), Actor(1, 0), x, l0, Deq(1, Alf, DPublish(0, [x], 0, 1)), r1, 2),
                 1, 1, [x], 0, 1, 1, View(Actor(1, 1), Actor(1, 1), x, l0, Idle, Dequeued([x]), 2));
  }

  /**
   * The run on which a zero-length dequeue loses a slot: thread 0 is held before its last store while
   * thread 1 dequeues x.  The late store takes cons.tail back behind x, whose slot had been released.
   */
  lemma ZeroLengthLosesSlot(size: nat, x: Ptr)
    requires RingSize(size)
    ensures Comes(size, 20, View(Actor(1, 1), Actor(1, 0), x, Idle, Idle, Dequeued([x]), 2))
    ensures forall s :: At(s, 1, View(Actor(1, 1), Actor(1, 0), x, Idle, Idle, Dequeued([x]), 2)) ==> LostSlot(s)
  {
    hide RingSize, W, Comes;
    SmallWord(0);
    WordsNearStart(size);
    var held := Deq(0, Alf, DPublish(0, [], 0, 0));
    NothingClaimed(size, x);
    OneElementTaken(size, x, held, Enqueued(1, size));
    DeqPublishes(size, 19, View(Actor(1, 1), Actor(1, 1), x, held, Idle, Dequeued([x]), 2),
                 0, 0, [], 0, 0, 0, View(Actor(1, 1), Actor(1, 0), x, Idle, Idle, Dequeued([x]), 2));
  }

  // ---- What becomes of the queue ----

  // prod.tail is behind: no producer that reserves from here on comes to publish, and consumers see nothing.
  ghost predicate Invisible(s: State) {
    && Shape(s) && s.slack == 0 && s.cons == Actor(0, 0) && s.prod.tail == 0 && 1 <= s.prod.head <= s.size
    && forall t :: 0 <= t < |s.loc| ==> Unseeing(s.size, s.loc[t])
  }

  ghost predicate Unseeing(size: nat, l: Local) {
    match l
    case Idle => true
    case Enq(items, _, pc) =>
      (match pc
       case ELoadHead => true
       case ELoadTail(head, _) => 1 <= head <= size
       case ECas(head, _, n, _, _) => 1 <= head && head + n <= size
       case ECopy(head, _, _, _) => 1 <= head <= size
       case EWait(head, _, _) => 1 <= head <= size
       case EPublish(_, _, _) => false)
    case Deq(_, _, pc) =>
      (match pc
       case DLoadHead => true
       case DLoadTail(head, _) => head == 0
       case DCas(head, n, _) => head == 0 && n == 0
       case DCopy(_, _, _, _, _) => false
       case DWait(head, got, _, _) => head == 0 && got == []
       case DPublish(head, got, _, _) => head == 0 && got == [])
  }

  lemma SizeIsSmall(s: State)
    requires Shape(s)
    ensures 1 <= s.size < TWO32
  {
  }

  // The place of thread t, and the head of the producers, after its step.
  ghost predicate StillInvisible(s: State, s': State, t: Tid) {
    && Shape(s') && s'.slack == 0 && s'.size == s.size && t < |s'.loc| == |s.loc| && s'.cons == s.cons
    && s'.prod.tail == s.prod.tail && 1 <= s'.prod.head <= s.size
    && s'.loc == s.loc[t := s'.loc[t]] && Unseeing(s.size, s'.loc[t])
  }

  lemma InvisibleEnqStep(s: State, t: Tid, items: seq<Ptr>, mode: Mode, pc: EnqPc)
    requires Invisible(s) && t < |s.loc| && s.loc[t] == Enq(items, mode, pc)
    ensures StillInvisible(s, Step(s, t), t)
  {
    hide RingSize, Slot, W;
    assert Unseeing(s.size, s.loc[t]);
    SizeIsSmall(s);
    if pc.ELoadTail? { SmallWord(s.size - pc.head); }
    if pc.ECas? { InvisibleCas(s, t, items, mode, pc); }
  }

  lemma InvisibleCas(s: State, t: Tid, items: seq<Ptr>, mode: Mode, pc: EnqPc)
    requires Invisible(s) && t < |s.loc| && s.loc[t] == Enq(items, mode, pc) && pc.ECas?
    ensures StillInvisible(s, Step(s, t), t)
  {
    hide RingSize, Slot, W, Range;
    assert Unseeing(s.size, s.loc[t]);
    SizeIsSmall(s);
    SmallWord(pc.head + pc.n);
  }

  lemma InvisibleDeqStep(s: State, t: Tid, max: nat, mode: Mode, pc: DeqPc)
    requires Invisible(s) && t < |s.loc| && s.loc[t] == Deq(max, mode, pc)
    ensures StillInvisible(s, Step(s, t), t)
  {
    hide RingSize, Slot, W;
    assert Unseeing(s.size, s.loc[t]);
    SmallWord(0);
  }

  lemma InvisibleStep(s: State, t: Tid, a: Action)
    requires Invisible(s) && Enabled(s, t, a)
    ensures Invisible(Apply(s, t, a))
  {
    hide RingSize, Slot, W, Step;
    match s.loc[t] {
      case Enq(items, mode, pc) => InvisibleEnqStep(s, t, items, mode, pc);
      case Deq(max, mode, pc) => InvisibleDeqStep(s, t, max, mode, pc);
      case Idle =>
    }
  }

  /**
   * From there on no producer that has reserved slots gets past its wait for prod.tail, whatever
   * operations follow, and no consumer is ever given an element.
   */
  lemma NextProducerWaitsForEver(s0: State, s: State, n: nat, t: Tid)
    requires LostElement(s0) && Leads(s0, s, n) && t < |s.loc|
    ensures Shape(s) && s.prod.tail == 0 && Entries(s, s.cons.head) == 0
    ensures s.loc[t].Enq? ==> !s.loc[t].epc.EPublish?
    ensures s.loc[t].Enq? && s.loc[t].epc.EWait? ==> s.prod.tail != s.loc[t].epc.head && Step(s, t) == s
    ensures s.loc[t].Deq? && s.loc[t].dpc.DPublish? ==> s.loc[t].dpc.got == []
  {
    hide RingSize, Slot, Apply;
    SizeIsSmall(s0);
    forall a, b | Invisible(a) && AnyStep(a, b) ensures Invisible(b) {
      var u, c :| Enabled(a, u, c) && NoLap(a, u) && b == Apply(a, u, c);
      InvisibleStep(a, u, c);
    }
    Induct(Just(s0), AnyStep, Invisible, s, n);
    assert Unseeing(s.size, s.loc[t]);
  }

  // On a ring of one slot: it counts as full and as empty at once.
  ghost predicate FullAndEmpty(s: State) {
    && Shape(s) && s.slack == 0 && s.size == 1 && s.prod == Actor(1, 1) && s.cons == Actor(1, 0)
    && forall t :: 0 <= t < |s.loc| ==> Starved(s.loc[t])
  }

  ghost predicate Starved(l: Local) {
    match l
    case Idle => true
    case Enq(items, _, pc) =>
      (match pc
       case ELoadHead => true
       case ELoadTail(head, _) => head == 1
       case ECas(head, _, n, _, _) => head == 1 && n == 0
       case ECopy(_, _, _, _) => false
       case EWait(head, _, _) => head == 1 && items == []
       case EPublish(head, _, _) => head == 1 && items == [])
    case Deq(_, _, pc) =>
      (match pc
       case DLoadHead => true
       case DLoadTail(head, _) => head == 1
       case DCas(head, n, _) => head == 1 && n == 0
       case DWait(head, _, _, _) => head == 1
       case _ => false)
  }

  lemma StarvedEnqStep(s: State, t: Tid, items: seq<Ptr>, mode: Mode, pc: EnqPc)
    requires FullAndEmpty(s) && t < |s.loc| && s.loc[t] == Enq(items, mode, pc)
    ensures var s' := Step(s, t);
      && Shape(s') && s'.slack == 0 && s'.size == s.size && s'.cons == s.cons && s'.prod == s.prod
      && |s'.loc| == |s.loc| && s'.loc == s.loc[t := s'.loc[t]] && Starved(s'.loc[t])
  {
    hide RingSize, Slot, W;
    assert Starved(s.loc[t]);
    SmallWord(0);
    SmallWord(1);
  }

  lemma StarvedDeqStep(s: State, t: Tid, max: nat, mode: Mode, pc: DeqPc)
    requires FullAndEmpty(s) && t < |s.loc| && s.loc[t] == Deq(max, mode, pc)
    ensures var s' := Step(s, t);
      && Shape(s') && s'.slack == 0 && s'.size == s.size && s'.cons == s.cons && s'.prod == s.prod
      && |s'.loc| == |s.loc| && s'.loc == s.loc[t := s'.loc[t]] && Starved(s'.loc[t])
  {
    hide RingSize, Slot, W;
    assert Starved(s.loc[t]);
    SmallWord(0);
    SmallWord(1);
  }

  lemma StarvedStep(s: State, t: Tid, a: Action)
    requires FullAndEmpty(s) && Enabled(s, t, a)
    ensures FullAndEmpty(Apply(s, t, a))
  {
    hide RingSize, Slot, W, Step;
    match s.loc[t] {
      case Enq(items, mode, pc) => StarvedEnqStep(s, t, items, mode, pc);
      case Deq(max, mode, pc) => StarvedDeqStep(s, t, max, mode, pc);
      case Idle =>
    }
  }

  /**
   * From there on there is never a free slot and never an element, whatever operations follow: no
   * producer reserves anything, no consumer claims anything, and one that tries to claim nothing never
   * gets past its wait for cons.tail.
   */
  lemma OneSlotIsLostForEver(s0: State, s: State, n: nat, t: Tid)
    requires LostSlot(s0) && Leads(s0, s, n) && t < |s.loc|
    ensures Shape(s) && Free(s, s.prod.head) == 0 && Entries(s, s.cons.head) == 0
    ensures s.loc[t].Enq? ==> !s.loc[t].epc.ECopy?
    ensures s.loc[t].Deq? ==> !s.loc[t].dpc.DCopy? && !s.loc[t].dpc.DPublish?
    ensures s.loc[t].Deq? && s.loc[t].dpc.DWait? ==> s.cons.tail != s.loc[t].dpc.head && Step(s, t) == s
  {
    hide RingSize, Slot, Apply;
    forall a, b | FullAndEmpty(a) && AnyStep(a, b) ensures FullAndEmpty(b) {
      var u, c :| Enabled(a, u, c) && NoLap(a, u) && b == Apply(a, u, c);
      StarvedStep(a, u, c);
    }
    Induct(Just(s0), AnyStep, FullAndEmpty, s, n);
    assert Starved(s.loc[t]);
  }
}
