/**
 * The MPMC ring as its callers see it: every enqueue and dequeue takes effect once, on the elements it was
 * called with, and says what it has done; and every step brings it nearer to its return, or waits its turn,
 * or has lost the race for the head.
 */
module MpmcCalls {
  import opened Options
  import opened Runs
  import opened Words
  import opened Calls
  import opened Mpmc
  import opened MpmcInv
  import opened MpmcTheorems

  datatype Op = EnqueueOp(items: seq<Ptr>, mode: Mode) | DequeueOp(max: nat, mode: Mode)

  // What a call holds between the exchange of its side's head and the store of its tail.
  datatype Hold = Reserved(taken: seq<Ptr>, room: u32) | Claimed(got: seq<Ptr>)

  // ---- The calls that the places in the code belong to ----

  // The elements that a consumer has claimed.
  function ClaimOf(s: State, pc: DeqPc): seq<Ptr> {
    if Claiming(pc) && pc.start + DeqLen(pc) <= |s.enq| then s.enq[pc.start..pc.start + DeqLen(pc)] else []
  }

  function PhaseOf(s: State, l: Local): Phase<Op, Hold, Result> {
    match l
    case Idle => NoCall
    case Enq(items, mode, pc) => if Reserving(pc) then Midway(Reserved(items, pc.free)) else Asked(EnqueueOp(items, mode))
    case Deq(max, mode, pc) => if Claiming(pc) then Midway(Claimed(ClaimOf(s, pc))) else Asked(DequeueOp(max, mode))
  }

  function PhaseAt(s: State, t: nat): Phase<Op, Hold, Result> {
    if t < |s.loc| then PhaseOf(s, s.loc[t]) else NoCall
  }

  function ResultAt(s: State, t: nat): Result {
    if t < |s.ret| then s.ret[t] else NoResult
  }

  // ---- What a call does ----

  /** What a consumer can still claim: published, and not claimed by another. */
  function Contents(s: State): seq<Ptr> {
    if s.ch <= s.pt <= |s.enq| then s.enq[s.ch..s.pt] else []
  }

  /** The slots reserved and not yet released. */
  function InUse(s: State): int {
    s.ph - s.ct
  }

  // The order of the reservations, the contents and the slots in use, after a step.
  ghost predicate Becomes(s: State, s': State, order: seq<Ptr>, contents: seq<Ptr>, inUse: int) {
    s'.size == s.size && s'.slack == s.slack && s'.enq == order && Contents(s') == contents && InUse(s') == inUse
  }

  ghost predicate Quiet(s: State, s': State) {
    Becomes(s, s', s.enq, Contents(s), InUse(s))
  }

  /** Without effect: a refusal, for want of room or of elements. */
  ghost predicate Whole(s: State, s': State, t: nat, op: Op, r: Result) {
    Quiet(s, s') && r == Refused &&
    match op
    case EnqueueOp(items, mode) => if mode == Variable then InUse(s) == Cap(s) else InUse(s) + |items| > Cap(s)
    case DequeueOp(max, mode) => if mode == Fixed then |Contents(s)| < max else Contents(s) == []
  }

  /**
   * A producer's place in the order is settled by its first effect: all of its elements, or in Variable mode
   * those for which it saw room.  A consumer takes the oldest elements by its first effect.
   */
  ghost predicate First(s: State, s': State, t: nat, op: Op, hold: Hold) {
    PhaseAt(s, t) == Asked(op) && PhaseAt(s', t) == Midway(hold) &&
    match op
    case EnqueueOp(items, mode) =>
      && hold.Reserved? && hold.taken != [] && hold.taken <= items
      && |hold.taken| == (if mode == Variable && hold.room < |items| then hold.room else |items|)
      && |hold.taken| <= hold.room <= Cap(s) - InUse(s)
      && Becomes(s, s', s.enq + hold.taken, Contents(s), InUse(s) + |hold.taken|)
    case DequeueOp(max, mode) =>
      && hold.Claimed? && hold.got <= Contents(s) && 1 <= |hold.got| <= max && (mode == Fixed ==> |hold.got| == max)
      && Becomes(s, s', s.enq, Contents(s)[|hold.got|..], InUse(s))
  }

  /** A producer's second effect makes its elements visible, a consumer's releases its slots. */
  ghost predicate Last(s: State, s': State, t: nat, hold: Hold, r: Result) {
    match hold
    case Reserved(taken, room) => Becomes(s, s', s.enq, Contents(s) + taken, InUse(s)) && r == Enqueued(|taken|, room)
    case Claimed(got) => Becomes(s, s', s.enq, Contents(s), InUse(s) - |got|) && r == Dequeued(got)
  }

  ghost function Ring(): Object<State, Op, Hold, Result> {
    Object(PhaseAt, ResultAt, Quiet, Whole, First, Last)
  }

  function OpOf(a: Action): Option<Op> {
    match a
    case Run => None
    case BeginEnqueue(items, mode) => Some(EnqueueOp(items, mode))
    case BeginDequeue(max, mode) => Some(DequeueOp(max, mode))
  }

  // ---- What a thread goes on to reserve is what it found ----

  // The number of elements a thread is about to reserve agrees with its mode and with the room it saw.
  predicate OfferOk(l: Local) {
    && (l.Enq? && l.epc.ECas? ==> l.epc.n == (if l.mode == Variable && l.epc.free < |l.items| then l.epc.free else |l.items|))
    && (l.Deq? && l.dpc.DCas? ==> l.dpc.n <= l.max && (l.dmode == Fixed ==> l.dpc.n == l.max))
  }

  ghost predicate CallInv(s: State) {
    Inv(s) && forall t :: 0 <= t < |s.loc| ==> OfferOk(s.loc[t])
  }

  lemma EnqOffers(s: State, t: Tid, items: seq<Ptr>, mode: Mode, pc: EnqPc)
    requires Shape(s) && t < |s.loc| && s.loc[t] == Enq(items, mode, pc)
    ensures OnlyThread(s, EnqStep(s, t, items, mode, pc), t) && OfferOk(EnqStep(s, t, items, mode, pc).loc[t])
  {
    hide W, Slot, RingSize, Range, Above, Free, EnqReserve, EnqStore, EnqPublish;
    if pc.ECas? && pc.n <= |items| { ReserveOffers(s, t, items, mode, pc); }
    if pc.ECopy? && pc.i < |items| { StoreOffers(s, t, items, mode, pc); }
    if pc.EPublish? { PublishOffers(s, t, items, pc); }
  }

  lemma ReserveOffers(s: State, t: Tid, items: seq<Ptr>, mode: Mode, pc: EnqPc)
    requires Shape(s) && t < |s.loc| && pc.ECas? && pc.n <= |items|
    ensures OnlyThread(s, EnqReserve(s, t, items, mode, pc), t) && OfferOk(EnqReserve(s, t, items, mode, pc).loc[t])
  {
    hide W, Range;
  }

  lemma StoreOffers(s: State, t: Tid, items: seq<Ptr>, mode: Mode, pc: EnqPc)
    requires Shape(s) && t < |s.loc| && s.loc[t] == Enq(items, mode, pc) && pc.ECopy? && pc.i < |items|
    ensures OnlyThread(s, EnqStore(s, t, items, mode, pc), t) && OfferOk(EnqStore(s, t, items, mode, pc).loc[t])
  {
    hide W, Slot, RingSize;
  }

  lemma PublishOffers(s: State, t: Tid, items: seq<Ptr>, pc: EnqPc)
    requires Shape(s) && t < |s.loc| && pc.EPublish?
    ensures OnlyThread(s, EnqPublish(s, t, items, pc), t) && OfferOk(EnqPublish(s, t, items, pc).loc[t])
  {
    hide W, Above;
  }

  lemma DeqOffers(s: State, t: Tid, max: nat, mode: Mode, pc: DeqPc)
    requires Shape(s) && t < |s.loc| && s.loc[t] == Deq(max, mode, pc)
    ensures OnlyThread(s, DeqStep(s, t, max, mode, pc), t) && OfferOk(DeqStep(s, t, max, mode, pc).loc[t])
  {
    hide W, Slot, RingSize, Range, Above, Entries;
  }

  lemma ActionOffers(s: State, t: Tid, a: Action)
    requires Shape(s) && Enabled(s, t, a)
    ensures OnlyThread(s, Apply(s, t, a), t) && OfferOk(Apply(s, t, a).loc[t])
  {
    hide EnqStep, DeqStep;
    if a.Run? {
      match s.loc[t] {
        case Enq(items, mode, pc) => EnqOffers(s, t, items, mode, pc);
        case Deq(max, mode, pc) => DeqOffers(s, t, max, mode, pc);
        case Idle =>
      }
    }
  }

  lemma ActionKeepsCallInv(s: State, t: Tid, a: Action)
    requires CallInv(s) && Enabled(s, t, a) && Positive(a) && NoLap(s, t)
    ensures CallInv(Apply(s, t, a))
  {
    hide Apply, OfferOk, Counters, Stored, Owners, Locals, Claims;
    ActionKeepsInv(s, Apply(s, t, a), t, a);
    ActionOffers(s, t, a);
  }

  lemma ReachableCallInv(s: State, n: nat)
    requires Reachable(s, n)
    ensures CallInv(s)
  {
    forall a | Init(a) ensures CallInv(a) { InitInv(a); }
    forall a, b | CallInv(a) && Next(a, b) ensures CallInv(b) {
      var t, act :| Enabled(a, t, act) && Positive(act) && NoLap(a, t) && b == Apply(a, t, act);
      ActionKeepsCallInv(a, t, act);
    }
    Induct(Init, Next, CallInv, s, n);
  }

  // ---- Every step keeps to the calls ----

  // Fewer than 2^32 slots, or elements, pass between a thread's loads of the two indices (see FreeExactIff).
  predicate Prompt(s: State, t: Tid) {
    t < |s.loc| &&
    match s.loc[t]
    case Idle => true
    case Enq(_, _, pc) => pc.ELoadTail? ==> Cap(s) + s.ct - pc.ghead < TWO32
    case Deq(_, _, pc) => pc.DLoadTail? ==> s.pt - pc.ghead < TWO32
  }

  // Nothing that a caller can see has changed.
  lemma SameIsQuiet(s: State, s': State)
    requires s'.size == s.size && s'.slack == s.slack && s'.enq == s.enq
    requires s'.ph == s.ph && s'.pt == s.pt && s'.ch == s.ch && s'.ct == s.ct
    ensures Quiet(s, s')
  {
  }

  lemma EnqGoesOn(s: State, t: Tid, items: seq<Ptr>, mode: Mode, pc: EnqPc)
    requires Shape(s) && t < |s.loc| && s.loc[t] == Enq(items, mode, pc) && !pc.EPublish?
    requires pc.ELoadTail? ==> EnqTake(mode, |items|, Free(s, pc.head)) != None
    requires pc.ECas? ==> s.prod.head != pc.head
    ensures Keeps(Ring(), s, EnqStep(s, t, items, mode, pc), t)
  {
    hide W, Slot, RingSize, Range, Above, Free, EnqTake, Quiet, Whole, First, Last;
    SameIsQuiet(s, EnqStep(s, t, items, mode, pc));
  }

  lemma EnqTurnedAway(s: State, t: Tid, items: seq<Ptr>, mode: Mode, pc: EnqPc)
    requires Inv(s) && t < |s.loc| && s.loc[t] == Enq(items, mode, pc) && pc.ELoadTail? && Prompt(s, t)
    requires EnqTake(mode, |items|, Free(s, pc.head)) == None
    ensures Keeps(Ring(), s, EnqStep(s, t, items, mode, pc), t)
  {
    hide W, Slot, RingSize, Free, Quiet, Locals, Stored, Owners, Claims, Index;
    SameIsQuiet(s, EnqStep(s, t, items, mode, pc));
    EnqueueRefused(s, t, items, mode, pc);
  }

  lemma EnqReserves(s: State, t: Tid, items: seq<Ptr>, mode: Mode, pc: EnqPc)
    requires Shape(s) && Counters(s) && t < |s.loc| && s.loc[t] == Enq(items, mode, pc) && pc.ECas? && s.prod.head == pc.head
    requires EnqOk(s, t, items, pc) && s.ph == pc.ghead && OfferOk(s.loc[t])
    ensures Keeps(Ring(), s, EnqStep(s, t, items, mode, pc), t)
  {
    hide W, Slot, RingSize, Range, Above;
    var s' := EnqReserve(s, t, items, mode, pc);
    assert (s.enq + items[..pc.n])[s.ch..s.pt] == s.enq[s.ch..s.pt];
    assert First(s, s', t, EnqueueOp(items, mode), Reserved(items[..pc.n], pc.free));
  }

  lemma EnqPublishKeeps(s: State, t: Tid, items: seq<Ptr>, mode: Mode, pc: EnqPc)
    requires Shape(s) && Counters(s) && t < |s.loc| && s.loc[t] == Enq(items, mode, pc) && pc.EPublish? && EnqOk(s, t, items, pc)
    ensures Keeps(Ring(), s, EnqStep(s, t, items, mode, pc), t)
  {
    hide W, Slot, RingSize, Above;
    assert s.enq[s.ch..s.pt] + s.enq[s.pt..s.pt + |items|] == s.enq[s.ch..s.pt + |items|];
  }

  lemma EnqKeeps(s: State, t: Tid, items: seq<Ptr>, mode: Mode, pc: EnqPc)
    requires CallInv(s) && t < |s.loc| && s.loc[t] == Enq(items, mode, pc) && NoLap(s, t) && Prompt(s, t)
    ensures Keeps(Ring(), s, EnqStep(s, t, items, mode, pc), t)
  {
    hide EnqStep, Keeps, Counters, Stored, Owners, Claims, Free, EnqTake, EnqReserve, W, RingSize;
    assert LocalOk(s, t);
    if pc.EPublish? {
      EnqPublishKeeps(s, t, items, mode, pc);
    } else if pc.ECas? && s.prod.head == pc.head {
      CasReservesEnq(s, t, items, mode, pc);
      EnqReserves(s, t, items, mode, pc);
    } else if pc.ELoadTail? && EnqTake(mode, |items|, Free(s, pc.head)) == None {
      EnqTurnedAway(s, t, items, mode, pc);
    } else {
      EnqGoesOn(s, t, items, mode, pc);
    }
  }

  lemma DeqGoesOn(s: State, t: Tid, max: nat, mode: Mode, pc: DeqPc)
    requires Shape(s) && t < |s.loc| && s.loc[t] == Deq(max, mode, pc) && !pc.DPublish?
    requires pc.DLoadTail? ==> DeqTake(mode, max, Entries(s, pc.head)) != None
    requires pc.DCas? ==> s.cons.head != pc.head
    ensures Keeps(Ring(), s, DeqStep(s, t, max, mode, pc), t)
  {
    hide W, Slot, RingSize, Range, Above, Entries, DeqTake, Quiet, Whole, First, Last;
    SameIsQuiet(s, DeqStep(s, t, max, mode, pc));
  }

  lemma DeqTurnedAway(s: State, t: Tid, max: nat, mode: Mode, pc: DeqPc)
    requires Inv(s) && t < |s.loc| && s.loc[t] == Deq(max, mode, pc) && pc.DLoadTail? && Prompt(s, t)
    requires DeqTake(mode, max, Entries(s, pc.head)) == None
    ensures Keeps(Ring(), s, DeqStep(s, t, max, mode, pc), t)
  {
    hide W, Slot, RingSize, Entries, Quiet, Locals, Stored, Owners, Claims, Index;
    SameIsQuiet(s, DeqStep(s, t, max, mode, pc));
    DequeueRefused(s, t, max, mode, pc);
  }

  lemma DeqReserves(s: State, t: Tid, max: nat, mode: Mode, pc: DeqPc)
    requires Shape(s) && Counters(s) && t < |s.loc| && s.loc[t] == Deq(max, mode, pc) && pc.DCas? && s.cons.head == pc.head
    requires DeqOk(s, t, max, pc) && s.ch == pc.ghead && OfferOk(s.loc[t])
    ensures Keeps(Ring(), s, DeqStep(s, t, max, mode, pc), t)
  {
    hide W, Slot, RingSize, Range, Above;
    var s' := DeqReserve(s, t, max, mode, pc);
    var got := s.enq[s.ch..s.ch + pc.n];
    assert got + s.enq[s.ch + pc.n..s.pt] == s.enq[s.ch..s.pt];
    assert First(s, s', t, DequeueOp(max, mode), Claimed(got));
  }

  lemma DeqPublishKeeps(s: State, t: Tid, max: nat, mode: Mode, pc: DeqPc)
    requires Shape(s) && Counters(s) && t < |s.loc| && s.loc[t] == Deq(max, mode, pc) && pc.DPublish? && DeqOk(s, t, max, pc)
    ensures Keeps(Ring(), s, DeqStep(s, t, max, mode, pc), t)
  {
    hide W, Slot, RingSize, Above;
  }

  lemma DeqKeeps(s: State, t: Tid, max: nat, mode: Mode, pc: DeqPc)
    requires CallInv(s) && t < |s.loc| && s.loc[t] == Deq(max, mode, pc) && NoLap(s, t) && Prompt(s, t)
    ensures Keeps(Ring(), s, DeqStep(s, t, max, mode, pc), t)
  {
    hide DeqStep, Keeps, Counters, Stored, Owners, Claims, Entries, DeqTake, DeqReserve, W, RingSize;
    assert LocalOk(s, t);
    if pc.DPublish? {
      DeqPublishKeeps(s, t, max, mode, pc);
    } else if pc.DCas? && s.cons.head == pc.head {
      CasReservesDeq(s, t, max, mode, pc);
      DeqReserves(s, t, max, mode, pc);
    } else if pc.DLoadTail? && DeqTake(mode, max, Entries(s, pc.head)) == None {
      DeqTurnedAway(s, t, max, mode, pc);
    } else {
      DeqGoesOn(s, t, max, mode, pc);
    }
  }

  lemma BeginKeeps(s: State, t: Tid, a: Action)
    requires Shape(s) && Enabled(s, t, a) && !a.Run?
    ensures Keeps(Ring(), s, Apply(s, t, a), t)
    ensures PhaseAt(s, t).NoCall? && OpOf(a).Some? && PhaseAt(Apply(s, t, a), t) == Asked(OpOf(a).value)
  {
    hide Quiet;
    SameIsQuiet(s, Apply(s, t, a));
  }

  // What a step of thread t leaves alone: the places of others, their results and the order so far.
  ghost predicate OthersAlone(s: State, s': State, t: Tid) {
    && |s.loc| == |s.ret| == |s'.loc| == |s'.ret| && s.enq <= s'.enq && s.ph <= s'.ph && s.ch <= s'.ch
    && forall u :: 0 <= u < |s.loc| && u != t ==> s'.loc[u] == s.loc[u] && s'.ret[u] == s.ret[u]
  }

  lemma EnqAlone(s: State, t: Tid, items: seq<Ptr>, mode: Mode, pc: EnqPc)
    requires Shape(s) && t < |s.loc| && s.loc[t] == Enq(items, mode, pc)
    ensures OthersAlone(s, EnqStep(s, t, items, mode, pc), t)
  {
    hide W, Slot, RingSize, Range, Above, Free, EnqTake;
  }

  lemma DeqAlone(s: State, t: Tid, max: nat, mode: Mode, pc: DeqPc)
    requires Shape(s) && t < |s.loc| && s.loc[t] == Deq(max, mode, pc)
    ensures OthersAlone(s, DeqStep(s, t, max, mode, pc), t)
  {
    hide W, Slot, RingSize, Range, Above, Entries, DeqTake;
  }

  lemma StepAlone(s: State, t: Tid, a: Action)
    requires Shape(s) && Enabled(s, t, a)
    ensures OthersAlone(s, Apply(s, t, a), t)
  {
    hide EnqStep, DeqStep;
    if a.Run? {
      match s.loc[t] {
        case Enq(items, mode, pc) => EnqAlone(s, t, items, mode, pc);
        case Deq(max, mode, pc) => DeqAlone(s, t, max, mode, pc);
        case Idle =>
      }
    }
  }

  // A step of thread t leaves the call of thread u alone.
  lemma OthersSpared(s: State, t: Tid, a: Action, u: Tid)
    requires Shape(s) && Locals(s) && Enabled(s, t, a) && u != t
    ensures Spares(Ring(), s, Apply(s, t, a), u)
  {
    hide Apply, Index, W, RingSize;
    StepAlone(s, t, a);
    if u < |s.loc| && s.loc[u].Deq? && Claiming(s.loc[u].dpc) {
      assert LocalOk(s, u);
      var d := s.loc[u].dpc;
      SameSlice(s.enq, Apply(s, t, a).enq, d.start, d.start + DeqLen(d));
    }
  }

  lemma SameSlice(a: seq<Ptr>, b: seq<Ptr>, i: nat, j: nat)
    requires a <= b && i <= j <= |a|
    ensures b[i..j] == a[i..j]
  {
  }

  lemma StepLaw(s: State, t: Tid, a: Action, u: Tid)
    requires CallInv(s) && Enabled(s, t, a) && NoLap(s, t)
    ensures Prompt(s, t) ==> Keeps(Ring(), s, Apply(s, t, a), t)
    ensures u != t ==> Spares(Ring(), s, Apply(s, t, a), u)
    ensures OpOf(a).Some? ==> PhaseAt(s, t).NoCall? && PhaseAt(Apply(s, t, a), t) == Asked(OpOf(a).value)
  {
    hide EnqStep, DeqStep, Keeps, Spares, PhaseOf, Prompt;
    if !a.Run? {
      BeginKeeps(s, t, a);
    } else if Prompt(s, t) {
      match s.loc[t] {
        case Enq(items, mode, pc) => EnqKeeps(s, t, items, mode, pc);
        case Deq(max, mode, pc) => DeqKeeps(s, t, max, mode, pc);
        case Idle =>
      }
    }
    if u != t { OthersSpared(s, t, a, u); }
  }

  /**
   * Every step of every thread, in every reachable state: a step inside a call is quiet or is an effect of
   * that call; a step outside one begins the call it names on the arguments it names; and no step touches
   * the call of another thread.
   */
  lemma StepsKeepCalls(s: State, n: nat, t: Tid, a: Action, u: Tid)
    requires Reachable(s, n) && Enabled(s, t, a) && NoLap(s, t)
    ensures Shape(s) && (Prompt(s, t) ==> Keeps(Ring(), s, Apply(s, t, a), t))
    ensures u != t ==> Spares(Ring(), s, Apply(s, t, a), u)
    ensures OpOf(a).Some? ==> PhaseAt(s, t).NoCall? && PhaseAt(Apply(s, t, a), t) == Asked(OpOf(a).value)
  {
    hide Reachable, Apply, Keeps, Spares;
    ReachableCallInv(s, n);
    StepLaw(s, t, a, u);
  }

  /**
   * The only ways out of an enqueue: the store of prod.tail, which publishes all that was reserved, or the
   * load of cons.tail, when it found no room.  A lost cmpxchg is not one.
   */
  lemma EnqueueReturns(s: State, n: nat, t: Tid, items: seq<Ptr>, mode: Mode, pc: EnqPc)
    requires Reachable(s, n) && t < |s.loc| && s.loc[t] == Enq(items, mode, pc) && NoLap(s, t) && Prompt(s, t)
    ensures Shape(s) && t < |Step(s, t).loc| == |Step(s, t).ret|
    ensures Step(s, t).loc[t] == Idle <==>
              || pc.EPublish?
              || (pc.ELoadTail? && |items| > Cap(s) + s.ct - pc.ghead && (mode == Variable ==> Cap(s) + s.ct == pc.ghead))
    ensures Step(s, t).loc[t] == Idle ==>
              if pc.EPublish? then Step(s, t).ret[t] == Enqueued(|items|, pc.free) && Step(s, t).pt == s.pt + |items|
              else
                && Step(s, t).ret[t] == Refused && InUse(s) + |items| > Cap(s)
                && (mode == Variable ==> InUse(s) == Cap(s))
  {
    hide Reachable, Index, W, Slot, RingSize, Range, Above, Stored, Owners, Claims, Free, EnqTake;
    ReachableCallInv(s, n);
    assert LocalOk(s, t);
    if pc.ELoadTail? { EnqueueRefused(s, t, items, mode, pc); }
  }

  /** And of a dequeue: the store of cons.tail, or the load of prod.tail when it found too little. */
  lemma DequeueReturns(s: State, n: nat, t: Tid, max: nat, mode: Mode, pc: DeqPc)
    requires Reachable(s, n) && t < |s.loc| && s.loc[t] == Deq(max, mode, pc) && NoLap(s, t) && Prompt(s, t)
    ensures Shape(s) && t < |Step(s, t).loc| == |Step(s, t).ret|
    ensures Step(s, t).loc[t] == Idle <==>
              pc.DPublish? || (pc.DLoadTail? && s.pt - pc.ghead < max && (mode != Fixed ==> s.pt == pc.ghead))
    ensures Step(s, t).loc[t] == Idle ==>
              if pc.DPublish? then
                Step(s, t).ret[t] == Dequeued(ClaimOf(s, pc)) && ClaimOf(s, pc) == pc.got && Step(s, t).ct == s.ct + |pc.got|
              else
                Step(s, t).ret[t] == Refused && |Contents(s)| < max && (mode != Fixed ==> Contents(s) == [])
  {
    hide Reachable, Index, W, Slot, RingSize, Range, Above, Stored, Owners, Claims, Entries, DeqTake;
    ReachableCallInv(s, n);
    assert LocalOk(s, t);
    if pc.DLoadTail? { DequeueRefused(s, t, max, mode, pc); }
  }

  // ---- Whole calls ----

  ghost predicate Goes(s: State, e: Event<Action>, s': State) {
    Shape(s) && Enabled(s, e.thread, e.action) && Positive(e.action) && NoLap(s, e.thread) && s' == Apply(s, e.thread, e.action)
  }

  ghost predicate Trace(run: seq<State>, ev: seq<Event<Action>>) {
    |run| == |ev| + 1 && forall i :: 0 <= i < |ev| ==> Goes(run[i], ev[i], run[i + 1])
  }

  lemma {:induction false} TraceInv(run: seq<State>, ev: seq<Event<Action>>, n: nat, i: nat)
    requires Trace(run, ev) && Reachable(run[0], n) && i <= |ev|
    ensures CallInv(run[i])
    decreases i
  {
    hide Reachable, CallInv, Enabled, Apply;
    if i == 0 {
      ReachableCallInv(run[0], n);
    } else {
      TraceInv(run, ev, n, i - 1);
      assert Goes(run[i - 1], ev[i - 1], run[i - 1 + 1]);
      ActionKeepsCallInv(run[i - 1], ev[i - 1].thread, ev[i - 1].action);
    }
  }

  /** The run is a whole call of op by thread t: it begins it, and is back from it at the end for the first time. */
  ghost predicate CallOf(run: seq<State>, ev: seq<Event<Action>>, t: Tid, op: Op) {
    && Trace(run, ev) && ev != [] && ev[0].thread == t && OpOf(ev[0].action) == Some(op)
    && (forall i :: 1 <= i < |ev| ==> !PhaseAt(run[i], t).NoCall?) && PhaseAt(run[|ev|], t).NoCall?
    && (forall i :: 0 <= i < |ev| && ev[i].thread == t ==> Prompt(run[i], t))
  }

  lemma CallCompletes(run: seq<State>, ev: seq<Event<Action>>, n: nat, t: Tid, op: Op)
    requires CallOf(run, ev, t, op) && Reachable(run[0], n)
    ensures |run| == |ev| + 1 && Complete(Ring(), run, Threads(ev), t, op)
  {
    hide Reachable, CallInv, Enabled, Apply, Keeps, Spares, PhaseOf, OpOf, Prompt;
    var who := Threads(ev);
    forall i | 0 <= i < |ev| ensures StepOk(Ring(), run, who, t, i) {
      TraceInv(run, ev, n, i);
      assert Goes(run[i], ev[i], run[i + 1]);
      StepLaw(run[i], ev[i].thread, ev[i].action, t);
    }
    TraceInv(run, ev, n, 0);
    assert Goes(run[0], ev[0], run[0 + 1]);
    StepLaw(run[0], t, ev[0].action, t);
  }

  /** Every call takes effect once, whatever the other threads do: by a refusal, or at two steps of its thread. */
  lemma CallTakesEffect(run: seq<State>, ev: seq<Event<Action>>, n: nat, t: Tid, op: Op) returns (j: nat, k: nat)
    requires CallOf(run, ev, t, op) && Reachable(run[0], n)
    ensures |run| == |ev| + 1 && Done(Ring(), run, Threads(ev), t, op, |ev|, j, k, ResultAt(run[|ev|], t))
  {
    hide Reachable, Done, Complete, CallOf, OpOf, PhaseOf;
    CallCompletes(run, ev, n, t, op);
    j, k := TakesEffectOnce(Ring(), run, Threads(ev), t, op);
  }

  // Of the steps of thread t, only j and k do what a caller can see.
  ghost predicate OnlyAt(run: seq<State>, ev: seq<Event<Action>>, t: Tid, j: nat, k: nat)
    requires |run| == |ev| + 1
  {
    && 1 <= j <= k < |ev| && ev[j].thread == t && ev[k].thread == t
    && forall i :: 0 <= i < |ev| && ev[i].thread == t && i != j && i != k ==> Quiet(run[i], run[i + 1])
  }

  // The two effects of a call that holds `hold` in between.
  ghost predicate TwoSteps(run: seq<State>, t: Tid, op: Op, j: nat, k: nat, hold: Hold, r: Result)
    requires j + 1 < |run| && k + 1 < |run|
  {
    First(run[j], run[j + 1], t, op, hold) && Last(run[k], run[k + 1], t, hold, r)
  }

  lemma DoneAt(run: seq<State>, ev: seq<Event<Action>>, t: Tid, op: Op, j: nat, k: nat, r: Result) returns (hold: Hold)
    requires |run| == |ev| + 1 && Done(Ring(), run, Threads(ev), t, op, |ev|, j, k, r)
    ensures OnlyAt(run, ev, t, j, k)
    ensures if j == k then Whole(run[k], run[k + 1], t, op, r) else TwoSteps(run, t, op, j, k, hold, r)
  {
    hide Whole, Quiet, First, Last;
    assert forall i :: 0 <= i < |ev| && ev[i].thread == t ==> Threads(ev)[i] == t;
    hold := Claimed([]);
    if j != k {
      hold :| FirstAt(Ring(), run, Threads(ev), t, op, j, hold) && LastAt(Ring(), run, Threads(ev), t, k, hold, r);
    }
  }

  // ---- How many elements, in terms of what the call found when it looked ----

  // At step i thread t loaded the other side's tail, on its way to the cmpxchg that it stands at in l.
  ghost predicate Looked(s: State, t: Tid, l: Local) {
    && t < |s.loc| && Prompt(s, t) && CallInv(s)
    && (l.Enq? && l.epc.ECas? ==>
          && s.loc[t] == Enq(l.items, l.mode, ELoadTail(l.epc.head, l.epc.ghead))
          && l.epc.free == Cap(s) + s.ct - l.epc.ghead)
    && (l.Deq? && l.dpc.DCas? ==>
          && s.loc[t] == Deq(l.max, l.dmode, DLoadTail(l.dpc.head, l.dpc.ghead))
          && l.dpc.n == if s.pt - l.dpc.ghead < l.max then s.pt - l.dpc.ghead else l.max)
  }

  predicate AtCas(l: Local) {
    (l.Enq? && l.epc.ECas?) || (l.Deq? && l.dpc.DCas?)
  }

  lemma LooksNow(s: State, t: Tid)
    requires CallInv(s) && t < |s.loc| && Prompt(s, t) && NoLap(s, t)
    ensures t < |Step(s, t).loc|
    ensures AtCas(Step(s, t).loc[t]) ==> Looked(s, t, Step(s, t).loc[t])
  {
    hide Locals, Stored, Owners, Claims, EnqStep, DeqStep, Looked, AtCas;
    match s.loc[t] {
      case Enq(items, mode, pc) => EnqLooks(s, t, items, mode, pc);
      case Deq(max, mode, pc) => DeqLooks(s, t, max, mode, pc);
      case Idle => IdleIsNotAtCas();
    }
  }

  lemma IdleIsNotAtCas()
    ensures !AtCas(Idle)
  {
  }

  lemma EnqLooks(s: State, t: Tid, items: seq<Ptr>, mode: Mode, pc: EnqPc)
    requires CallInv(s) && t < |s.loc| && Prompt(s, t) && s.loc[t] == Enq(items, mode, pc)
    ensures var s' := EnqStep(s, t, items, mode, pc); t < |s'.loc| && (AtCas(s'.loc[t]) ==> Looked(s, t, s'.loc[t]))
  {
    hide Locals, Stored, Owners, Claims, Counters, W, Slot, RingSize, Range, Above, Free, EnqTake;
    if pc.ELoadTail? { EnqueueRefused(s, t, items, mode, pc); }
  }

  lemma DeqLooks(s: State, t: Tid, max: nat, mode: Mode, pc: DeqPc)
    requires CallInv(s) && t < |s.loc| && Prompt(s, t) && s.loc[t] == Deq(max, mode, pc)
    ensures var s' := DeqStep(s, t, max, mode, pc); t < |s'.loc| && (AtCas(s'.loc[t]) ==> Looked(s, t, s'.loc[t]))
  {
    hide Locals, Stored, Owners, Claims, Counters, W, Slot, RingSize, Range, Above, Entries, DeqTake;
    if pc.DLoadTail? { DequeueRefused(s, t, max, mode, pc); }
  }

  lemma {:induction false} LookedBefore(run: seq<State>, ev: seq<Event<Action>>, n: nat, t: Tid, op: Op, m: nat) returns (i: nat)
    requires CallOf(run, ev, t, op) && Reachable(run[0], n) && m <= |ev| && t < |run[m].loc| && AtCas(run[m].loc[t])
    ensures i < m && ev[i].thread == t && Looked(run[i], t, run[m].loc[t])
    decreases m
  {
    hide Reachable, CallInv, Apply, Looked, AtCas, Prompt, PhaseOf;
    assert m > 0 by { FirstIsFree(run, ev, t, op); }
    assert Goes(run[m - 1], ev[m - 1], run[m - 1 + 1]);
    TraceInv(run, ev, n, m - 1);
    if ev[m - 1].thread == t {
      i := m - 1;
      NotAtBegin(run[i], t, ev[i].action);
      LooksNow(run[i], t);
    } else {
      StepAlone(run[m - 1], ev[m - 1].thread, ev[m - 1].action);
      i := LookedBefore(run, ev, n, t, op, m - 1);
    }
  }

  lemma FirstIsFree(run: seq<State>, ev: seq<Event<Action>>, t: Tid, op: Op)
    requires CallOf(run, ev, t, op)
    ensures t < |run[0].loc| && !AtCas(run[0].loc[t])
  {
    assert Goes(run[0], ev[0], run[0 + 1]);
  }

  lemma NotAtBegin(s: State, t: Tid, a: Action)
    requires Shape(s) && Enabled(s, t, a) && t < |Apply(s, t, a).loc| && AtCas(Apply(s, t, a).loc[t])
    ensures a == Run && Apply(s, t, a) == Step(s, t)
  {
    hide EnqStep, DeqStep;
  }

  // The first effect of a call is its cmpxchg, of a head that has not moved since it was loaded.
  lemma FirstIsCas(s: State, t: Tid, a: Action, op: Op, hold: Hold)
    requires CallInv(s) && Enabled(s, t, a) && NoLap(s, t) && First(s, Apply(s, t, a), t, op, hold)
    ensures t < |s.loc| && AtCas(s.loc[t])
    ensures s.loc[t].Enq? ==> hold.Reserved? && hold.room == s.loc[t].epc.free && s.loc[t].epc.ghead == s.ph
    ensures s.loc[t].Deq? ==> hold.Claimed? && |hold.got| == s.loc[t].dpc.n && s.loc[t].dpc.ghead == s.ch
  {
    hide Locals, Stored, Owners, Claims, Index, W, Slot, RingSize, Range, Above, Free, EnqTake, Entries, DeqTake;
    assert a.Run?;
    match s.loc[t] {
      case Enq(items, mode, pc) => EnqFirstIsCas(s, t, items, mode, pc, op, hold);
      case Deq(max, mode, pc) => DeqFirstIsCas(s, t, max, mode, pc, op, hold);
      case Idle =>
    }
  }

  lemma EnqFirstIsCas(s: State, t: Tid, items: seq<Ptr>, mode: Mode, pc: EnqPc, op: Op, hold: Hold)
    requires Shape(s) && Counters(s) && Locals(s) && t < |s.loc| && s.loc[t] == Enq(items, mode, pc) && NoLap(s, t)
    requires First(s, EnqStep(s, t, items, mode, pc), t, op, hold)
    ensures pc.ECas? && hold.Reserved? && hold.room == pc.free && pc.ghead == s.ph
  {
    hide Index, W, Slot, RingSize, Range, Above, Free, EnqTake;
    assert LocalOk(s, t);
    if pc.ECas? && s.prod.head == pc.head { CasReservesEnq(s, t, items, mode, pc); }
  }

  lemma DeqFirstIsCas(s: State, t: Tid, max: nat, mode: Mode, pc: DeqPc, op: Op, hold: Hold)
    requires Shape(s) && Counters(s) && Locals(s) && t < |s.loc| && s.loc[t] == Deq(max, mode, pc) && NoLap(s, t)
    requires First(s, DeqStep(s, t, max, mode, pc), t, op, hold)
    ensures pc.DCas? && hold.Claimed? && |hold.got| == pc.n && pc.ghead == s.ch
  {
    hide Index, W, Slot, RingSize, Range, Above, Entries, DeqTake;
    assert LocalOk(s, t);
    if pc.DCas? && s.cons.head == pc.head { CasReservesDeq(s, t, max, mode, pc); }
  }

  lemma {:induction false} HeadsRiseTo(run: seq<State>, ev: seq<Event<Action>>, i: nat, j: nat)
    requires Trace(run, ev) && i <= j <= |ev|
    ensures run[i].ph <= run[j].ph && run[i].ch <= run[j].ch
    decreases j
  {
    hide Enabled, Apply;
    if i < j {
      HeadsRiseTo(run, ev, i, j - 1);
      assert Goes(run[j - 1], ev[j - 1], run[j - 1 + 1]);
      StepAlone(run[j - 1], ev[j - 1].thread, ev[j - 1].action);
    }
  }

  // The step i at which the call found what its first effect, at step j, goes by.
  ghost predicate FoundAt(run: seq<State>, ev: seq<Event<Action>>, t: Tid, hold: Hold, max: nat, i: nat, j: nat)
    requires |run| == |ev| + 1
  {
    && i < j < |ev| && ev[i].thread == t
    && match hold
       case Reserved(_, room) => room == Cap(run[i]) - InUse(run[i])
       case Claimed(got) => |got| == if |Contents(run[i])| < max then |Contents(run[i])| else max
  }

  lemma FirstFound(run: seq<State>, ev: seq<Event<Action>>, n: nat, t: Tid, op: Op, j: nat, hold: Hold) returns (i: nat)
    requires CallOf(run, ev, t, op) && Reachable(run[0], n) && j < |ev| && ev[j].thread == t
    requires First(run[j], run[j + 1], t, op, hold)
    ensures |run| == |ev| + 1 && FoundAt(run, ev, t, hold, if op.DequeueOp? then op.max else 0, i, j)
  {
    hide Reachable, CallInv, Apply, First, Looked;
    TraceInv(run, ev, n, j);
    assert Goes(run[j], ev[j], run[j + 1]);
    FirstIsCas(run[j], t, ev[j].action, op, hold);
    i := LookedBefore(run, ev, n, t, op, j);
    HeadsRiseTo(run, ev, i, j);
    MaxIs(run[j], run[j + 1], t, op, hold);
    HeadAtLook(run[i], t, run[j]);
  }

  lemma MaxIs(s: State, s': State, t: Tid, op: Op, hold: Hold)
    requires First(s, s', t, op, hold)
    ensures t < |s.loc| && (op.DequeueOp? ==> hold.Claimed? && s.loc[t].Deq? && s.loc[t].max == op.max)
    ensures op.EnqueueOp? ==> hold.Reserved? && s.loc[t].Enq?
  {
    hide Becomes;
  }

  lemma HeadAtLook(s: State, t: Tid, s': State)
    requires t < |s'.loc| && AtCas(s'.loc[t]) && Looked(s, t, s'.loc[t]) && s.ph <= s'.ph && s.ch <= s'.ch
    ensures s'.loc[t].Enq? && s'.loc[t].epc.ghead == s'.ph ==> s'.loc[t].epc.free == Cap(s) - InUse(s)
    ensures s'.loc[t].Deq? && s'.loc[t].dpc.ghead == s'.ch ==>
              s'.loc[t].dpc.n == if |Contents(s)| < s'.loc[t].max then |Contents(s)| else s'.loc[t].max
  {
    hide Stored, Owners, Claims, Index, W, RingSize;
    assert LocalOk(s, t);
  }

  /**
   * An enqueue of items: refused at step k, for want of room; or, with `room` free slots at its look at step i,
   * it reserves at step j, next in the order, all of them, or in Variable mode the first `room`, makes them
   * visible at step k, and says how many, and the room.
   */
  lemma EnqueueCall(run: seq<State>, ev: seq<Event<Action>>, n: nat, t: Tid, items: seq<Ptr>, mode: Mode)
    returns (i: nat, j: nat, k: nat, hold: Hold)
    requires CallOf(run, ev, t, EnqueueOp(items, mode)) && Reachable(run[0], n)
    ensures |run| == |ev| + 1 && OnlyAt(run, ev, t, j, k)
    ensures var op, r := EnqueueOp(items, mode), ResultAt(run[|ev|], t);
      if j == k then r == Refused && Whole(run[k], run[k + 1], t, op, r)
      else
        && FoundAt(run, ev, t, hold, 0, i, j) && TwoSteps(run, t, op, j, k, hold, r)
        && hold.Reserved? && r == Enqueued(|hold.taken|, hold.room)
  {
    hide Reachable, CallOf, OnlyAt, FoundAt, Quiet, Done, Becomes;
    j, k := CallTakesEffect(run, ev, n, t, EnqueueOp(items, mode));
    hold := DoneAt(run, ev, t, EnqueueOp(items, mode), j, k, ResultAt(run[|ev|], t));
    i := 0;
    if j != k {
      OnlyAtHas(run, ev, t, j, k);
      i := FirstFound(run, ev, n, t, EnqueueOp(items, mode), j, hold);
    }
  }

  lemma OnlyAtHas(run: seq<State>, ev: seq<Event<Action>>, t: Tid, j: nat, k: nat)
    requires |run| == |ev| + 1 && OnlyAt(run, ev, t, j, k)
    ensures j < |ev| && k < |ev| && ev[j].thread == t
  {
  }

  /**
   * A dequeue of up to max elements: refused at step k, for want of elements; or it takes the oldest at step
   * j, as many as it asked for or as there were at its look at step i, and returns them when it releases
   * their slots, at step k.
   */
  lemma DequeueCall(run: seq<State>, ev: seq<Event<Action>>, n: nat, t: Tid, max: nat, mode: Mode)
    returns (i: nat, j: nat, k: nat, hold: Hold)
    requires CallOf(run, ev, t, DequeueOp(max, mode)) && Reachable(run[0], n)
    ensures |run| == |ev| + 1 && OnlyAt(run, ev, t, j, k)
    ensures var op, r := DequeueOp(max, mode), ResultAt(run[|ev|], t);
      if j == k then r == Refused && Whole(run[k], run[k + 1], t, op, r)
      else
        && FoundAt(run, ev, t, hold, max, i, j) && TwoSteps(run, t, op, j, k, hold, r)
        && hold.Claimed? && r == Dequeued(hold.got)
  {
    hide Reachable, CallOf, OnlyAt, FoundAt, Quiet, Done, Becomes;
    j, k := CallTakesEffect(run, ev, n, t, DequeueOp(max, mode));
    hold := DoneAt(run, ev, t, DequeueOp(max, mode), j, k, ResultAt(run[|ev|], t));
    i := 0;
    if j != k {
      OnlyAtHas(run, ev, t, j, k);
      i := FirstFound(run, ev, n, t, DequeueOp(max, mode), j, hold);
    }
  }

  // ---- Progress ----

  // A bound on the steps a thread takes until its call returns, apart from those in which it waits its turn
  // or loses the cmpxchg.
  function Left(l: Local): nat {
    match l
    case Idle => 0
    case Enq(items, _, pc) =>
      if pc.ELoadHead? then |items| + 5 else if pc.ELoadTail? then |items| + 4 else if pc.ECas? then |items| + 3 else Rank(l)
    case Deq(max, _, pc) =>
      if pc.DLoadHead? then max + 5 else if pc.DLoadTail? then max + 4 else if pc.DCas? then max + 3 else Rank(l)
  }

  // The head that thread t is about to exchange has moved since it loaded it.
  predicate LosesRace(s: State, t: Tid) {
    && t < |s.loc| && AtCas(s.loc[t])
    && (s.loc[t].Enq? ==> s.prod.head != s.loc[t].epc.head) && (s.loc[t].Deq? ==> s.cons.head != s.loc[t].dpc.head)
  }

  /**
   * Every step of a call brings its return nearer, but for two kinds: a thread that is not first in the order
   * of the tail waits; and one whose cmpxchg fails begins again, because another thread has reserved since.
   */
  lemma StepsBringNearer(s: State, n: nat, t: Tid)
    requires Reachable(s, n) && Enabled(s, t, Run)
    ensures Shape(s) && t < |Step(s, t).loc|
    ensures if Blocked(s, t) then Step(s, t) == s
            else if LosesRace(s, t) then
              match s.loc[t]
              case Enq(items, mode, pc) => s.ph > pc.ghead && Step(s, t).loc[t] == Enq(items, mode, ELoadHead)
              case Deq(max, mode, pc) => s.ch > pc.ghead && Step(s, t).loc[t] == Deq(max, mode, DLoadHead)
              case Idle => false
            else Left(Step(s, t).loc[t]) < Left(s.loc[t])
  {
    hide Reachable, Step, Stored, Owners, Claims, Index, Slot, RingSize, W;
    ReachableCallInv(s, n);
    assert LocalOk(s, t);
    StepInRing(s, t);
    match s.loc[t] {
      case Enq(items, mode, pc) => EnqNearer(s, t, items, mode, pc);
      case Deq(max, mode, pc) => DeqNearer(s, t, max, mode, pc);
      case Idle =>
    }
  }

  lemma EnqNearer(s: State, t: Tid, items: seq<Ptr>, mode: Mode, pc: EnqPc)
    requires Shape(s) && t < |s.loc| && s.loc[t] == Enq(items, mode, pc) && OfferOk(s.loc[t])
    requires pc.ECopy? ==> pc.i < |items| && TargetSlot(s.size, s.loc[t]) < |s.ring|
    ensures t < |Step(s, t).loc|
    ensures if Blocked(s, t) then Step(s, t) == s
            else if LosesRace(s, t) then Step(s, t).loc[t] == Enq(items, mode, ELoadHead)
            else Left(Step(s, t).loc[t]) < Left(s.loc[t])
  {
    hide W, Slot, RingSize, Range, Above, Free, EnqTake;
  }

  lemma DeqNearer(s: State, t: Tid, max: nat, mode: Mode, pc: DeqPc)
    requires Shape(s) && t < |s.loc| && s.loc[t] == Deq(max, mode, pc) && OfferOk(s.loc[t])
    requires pc.DCopy? ==> |pc.got| < pc.n && TargetSlot(s.size, s.loc[t]) < |s.ring|
    ensures t < |Step(s, t).loc|
    ensures if Blocked(s, t) then Step(s, t) == s
            else if LosesRace(s, t) then Step(s, t).loc[t] == Deq(max, mode, DLoadHead)
            else Left(Step(s, t).loc[t]) < Left(s.loc[t])
  {
    hide W, Slot, RingSize, Range, Above, Entries, DeqTake;
  }
}
