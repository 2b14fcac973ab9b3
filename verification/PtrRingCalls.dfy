/**
 * The pointer ring as its callers see it: every produce and consume takes effect once, or finds the ring
 * full or empty, and returns what it has done; and every step brings it nearer to its return, or waits for
 * a lock whose holder is not waiting.
 */
module PtrRingCalls {
  import opened Options
  import opened Words
  import opened RingCopy
  import opened Calls
  import opened PtrRing

  datatype Op = ProduceOp(item: Ptr) | ConsumeOp

  // Every call has one effect: none is ever between two.
  datatype Between = Between

  // ---- The calls that the places in the code belong to ----

  function PhaseOf(l: Local): Phase<Op, Between, Result> {
    match l
    case Idle => NoCall
    case Produce(item, pc) =>
      (match pc
       case PIncrement => Answered(Produced)
       case PWrap => Answered(Produced)
       case PUnlock(full) => Answered(if full then NoSpace else Produced)
       case _ => Asked(ProduceOp(item)))
    case Consume(pc) =>
      (match pc
       case CIncrement(ptr) => Answered(Consumed(ptr))
       case CWrap(ptr) => Answered(Consumed(ptr))
       case CUnlock(ptr) => Answered(Consumed(ptr))
       case _ => Asked(ConsumeOp))
  }

  function PhaseAt(s: State, t: nat): Phase<Op, Between, Result> {
    if t < |s.loc| then PhaseOf(s.loc[t]) else NoCall
  }

  function ResultAt(s: State, t: nat): Result {
    if t < |s.ret| then s.ret[t] else NoResult
  }

  // ---- What a call does ----

  ghost predicate Quiet(s: State, s': State) {
    s'.size == s.size && s'.items == s.items && s'.got == s.got && Contents(s') == Contents(s)
  }

  ghost predicate Stores(s: State, s': State, item: Ptr) {
    s'.size == s.size && s'.items == s.items + [item] && s'.got == s.got && Contents(s') == Contents(s) + [item]
  }

  ghost predicate Takes(s: State, s': State, ptr: Ptr) {
    s'.size == s.size && s'.items == s.items && s'.got == s.got + [ptr] && Contents(s) == [ptr] + Contents(s')
  }

  /** A produce stores its item, or the ring is full; a consume takes the oldest item, or the ring is empty. */
  ghost predicate Whole(s: State, s': State, t: nat, op: Op, r: Result) {
    match op
    case ProduceOp(item) =>
      if |Contents(s)| == s.size then Quiet(s, s') && r == NoSpace else Stores(s, s', item) && r == Produced
    case ConsumeOp =>
      if Contents(s) == [] then Quiet(s, s') && r == Consumed(NULL)
      else r.Consumed? && r.ptr != NULL && Takes(s, s', r.ptr)
  }

  ghost predicate NoFirst(s: State, s': State, t: nat, op: Op, b: Between) {
    false
  }

  ghost predicate NoLast(s: State, s': State, t: nat, b: Between, r: Result) {
    false
  }

  ghost function Ring(): Object<State, Op, Between, Result> {
    Object(PhaseAt, ResultAt, Quiet, Whole, NoFirst, NoLast)
  }

  function OpOf(a: Action): Option<Op> {
    match a
    case Run => None
    case BeginProduce(item) => Some(ProduceOp(item))
    case BeginConsume => Some(ConsumeOp)
  }

  // ---- Every step keeps to the calls ----

  lemma SameIsQuiet(s: State, s': State)
    requires s'.size == s.size && s'.items == s.items && s'.got == s.got
    ensures Quiet(s, s')
  {
  }

  lemma ProduceKeeps(s: State, t: Tid, item: Ptr, pc: ProducePc)
    requires Inv(s) && t < |s.loc| && s.loc[t] == Produce(item, pc)
    ensures Keeps(Ring(), s, Step(s, t), t)
  {
    hide Index, Block, ConsumerAt, Contents;
    if pc == PStore {
      assert ProducePcOf(s) == PStore;
      StoreAppends(s, t);
    } else {
      if pc == PLoad {
        assert ProducePcOf(s) == PLoad;
        FreeSlot(s);
        AtMostFull(s);
      }
      SameIsQuiet(s, Step(s, t));
    }
  }

  lemma AtMostFull(s: State)
    requires Shape(s) && Block(s)
    ensures |Contents(s)| <= s.size
  {
  }

  lemma ConsumeKeeps(s: State, t: Tid, pc: ConsumePc)
    requires Inv(s) && t < |s.loc| && s.loc[t] == Consume(pc)
    ensures Keeps(Ring(), s, Step(s, t), t)
  {
    hide Index, Block, ProducerAt, Contents;
    if pc.CClear? {
      assert ConsumePcOf(s) == pc;
      ClearRemoves(s, t);
      OldestSlot(s);
    } else {
      if pc == CLoad {
        assert ConsumePcOf(s) == CLoad;
        OldestSlot(s);
      }
      SameIsQuiet(s, Step(s, t));
    }
  }

  lemma BeginKeeps(s: State, t: Tid, a: Action)
    requires Shape(s) && Enabled(s, t, a) && !a.Run?
    ensures Keeps(Ring(), s, Apply(s, t, a), t)
    ensures PhaseAt(s, t).NoCall? && OpOf(a).Some? && PhaseAt(Apply(s, t, a), t) == Asked(OpOf(a).value)
  {
  }

  lemma OthersSpared(s: State, t: Tid, a: Action, u: Tid)
    requires Shape(s) && Enabled(s, t, a) && u != t
    ensures Spares(Ring(), s, Apply(s, t, a), u)
  {
    hide PhaseOf;
  }

  lemma StepLaw(s: State, t: Tid, a: Action, u: Tid)
    requires Inv(s) && Enabled(s, t, a)
    ensures Keeps(Ring(), s, Apply(s, t, a), t) && (u != t ==> Spares(Ring(), s, Apply(s, t, a), u))
    ensures OpOf(a).Some? ==> PhaseAt(s, t).NoCall? && PhaseAt(Apply(s, t, a), t) == Asked(OpOf(a).value)
  {
    hide Keeps, Spares, PhaseOf, Step, Locks, Block, ProducerAt, ConsumerAt;
    if !a.Run? {
      BeginKeeps(s, t, a);
    } else {
      match s.loc[t] {
        case Produce(item, pc) => ProduceKeeps(s, t, item, pc);
        case Consume(pc) => ConsumeKeeps(s, t, pc);
        case Idle =>
      }
    }
    if u != t { OthersSpared(s, t, a, u); }
  }

  /**
   * Every step of every thread, in every reachable state: a step inside a call is quiet or is the effect of
   * that call; a step outside one begins the call it names on the argument it names; and no step touches the
   * call of another thread.
   */
  lemma StepsKeepCalls(s: State, n: nat, t: Tid, a: Action, u: Tid)
    requires Reachable(s, n) && Enabled(s, t, a)
    ensures |s.ret| == |s.loc|
    ensures Keeps(Ring(), s, Apply(s, t, a), t) && (u != t ==> Spares(Ring(), s, Apply(s, t, a), u))
    ensures OpOf(a).Some? ==> PhaseAt(s, t).NoCall? && PhaseAt(Apply(s, t, a), t) == Asked(OpOf(a).value)
  {
    hide Reachable, Apply, Keeps, Spares;
    ReachableInv(s, n);
    StepLaw(s, t, a, u);
  }

  // ---- Whole calls ----

  predicate Goes(s: State, e: Event<Action>, s': State) {
    |s.ret| == |s.loc| && Enabled(s, e.thread, e.action) && s' == Apply(s, e.thread, e.action)
  }

  predicate Trace(run: seq<State>, ev: seq<Event<Action>>) {
    |run| == |ev| + 1 && forall i :: 0 <= i < |ev| ==> Goes(run[i], ev[i], run[i + 1])
  }

  lemma {:induction false} TraceInv(run: seq<State>, ev: seq<Event<Action>>, n: nat, i: nat)
    requires Trace(run, ev) && Reachable(run[0], n) && i <= |ev|
    ensures Inv(run[i])
    decreases i
  {
    hide Reachable, Inv, Enabled, Apply;
    if i == 0 {
      ReachableInv(run[0], n);
    } else {
      TraceInv(run, ev, n, i - 1);
      assert Goes(run[i - 1], ev[i - 1], run[i - 1 + 1]);
      ActionKeepsInv(run[i - 1], run[i], ev[i - 1].thread, ev[i - 1].action);
    }
  }

  /** The run is a whole call of op by thread t: it begins it, and is back from it at the end for the first time. */
  ghost predicate CallOf(run: seq<State>, ev: seq<Event<Action>>, t: Tid, op: Op) {
    && Trace(run, ev) && ev != [] && ev[0].thread == t && OpOf(ev[0].action) == Some(op)
    && (forall i :: 1 <= i < |ev| ==> !PhaseAt(run[i], t).NoCall?) && PhaseAt(run[|ev|], t).NoCall?
  }

  lemma CallCompletes(run: seq<State>, ev: seq<Event<Action>>, n: nat, t: Tid, op: Op)
    requires CallOf(run, ev, t, op) && Reachable(run[0], n)
    ensures |run| == |ev| + 1 && Complete(Ring(), run, Threads(ev), t, op)
  {
    hide Reachable, Inv, Enabled, Apply, Keeps, Spares, PhaseOf, OpOf;
    var who := Threads(ev);
    forall i | 0 <= i < |ev| ensures StepOk(Ring(), run, who, t, i) {
      TraceInv(run, ev, n, i);
      assert Goes(run[i], ev[i], run[i + 1]);
      StepLaw(run[i], ev[i].thread, ev[i].action, t);
    }
    TraceInv(run, ev, n, 0);
    assert Goes(run[0], ev[0], run[0 + 1]);
    StepLaw(run[0], t, ev[0].action, t);
  }

  // Of the steps of thread t, only k changes what the ring holds.
  ghost predicate OnlyAt(run: seq<State>, ev: seq<Event<Action>>, t: Tid, k: nat)
    requires |run| == |ev| + 1
  {
    && 1 <= k < |ev| && ev[k].thread == t
    && forall i :: 0 <= i < |ev| && ev[i].thread == t && i != k ==> Quiet(run[i], run[i + 1])
  }

  lemma CallTakesEffect(run: seq<State>, ev: seq<Event<Action>>, n: nat, t: Tid, op: Op) returns (k: nat)
    requires CallOf(run, ev, t, op) && Reachable(run[0], n)
    ensures |run| == |ev| + 1 && OnlyAt(run, ev, t, k) && Whole(run[k], run[k + 1], t, op, ResultAt(run[|ev|], t))
  {
    hide Reachable, Complete, CallOf, OpOf, PhaseOf, Whole, Quiet;
    CallCompletes(run, ev, n, t, op);
    var j: nat;
    j, k := TakesEffectOnce(Ring(), run, Threads(ev), t, op);
    assert forall i :: 0 <= i < |ev| && ev[i].thread == t ==> Threads(ev)[i] == t;
  }

  /**
   * A produce of item returns success exactly when one step of it has stored the item, at the end of what the
   * ring holds, and -ENOSPC exactly when none has stored anything, and the ring was full when it looked.
   */
  lemma ProduceCall(run: seq<State>, ev: seq<Event<Action>>, n: nat, t: Tid, item: Ptr) returns (k: nat)
    requires CallOf(run, ev, t, ProduceOp(item)) && Reachable(run[0], n)
    ensures |run| == |ev| + 1 && OnlyAt(run, ev, t, k)
    ensures var r := ResultAt(run[|ev|], t);
      && (r == Produced || r == NoSpace)
      && (r == Produced <==> Stores(run[k], run[k + 1], item))
      && (r == NoSpace <==> Quiet(run[k], run[k + 1]) && |Contents(run[k])| == run[k].size)
  {
    hide Reachable, CallOf, Contents;
    k := CallTakesEffect(run, ev, n, t, ProduceOp(item));
    assert run[k].items + [item] != run[k].items;
  }

  /**
   * A consume returns the pointer that one step of it has taken, the oldest that the ring held, and NULL
   * exactly when none has taken anything, and the ring was empty when it looked.
   */
  lemma ConsumeCall(run: seq<State>, ev: seq<Event<Action>>, n: nat, t: Tid) returns (k: nat)
    requires CallOf(run, ev, t, ConsumeOp) && Reachable(run[0], n)
    ensures |run| == |ev| + 1 && OnlyAt(run, ev, t, k)
    ensures var r := ResultAt(run[|ev|], t);
      && r.Consumed?
      && (r.ptr != NULL <==> Takes(run[k], run[k + 1], r.ptr))
      && (r.ptr == NULL <==> Quiet(run[k], run[k + 1]) && Contents(run[k]) == [])
  {
    hide Reachable, CallOf, Contents;
    k := CallTakesEffect(run, ev, n, t, ConsumeOp);
    var r := ResultAt(run[|ev|], t);
    assert r.Consumed? ==> run[k].got + [r.ptr] != run[k].got;
  }

  // ---- Progress ----

  // The steps a thread takes until its call returns, but for those in which it waits for the lock.
  function Left(l: Local): nat {
    match l
    case Idle => 0
    case Produce(_, pc) =>
      (match pc case PLock => 6 case PLoad => 5 case PStore => 4 case PIncrement => 3 case PWrap => 2 case PUnlock(_) => 1)
    case Consume(pc) =>
      (match pc case CLock => 6 case CLoad => 5 case CClear(_) => 4 case CIncrement(_) => 3 case CWrap(_) => 2 case CUnlock(_) => 1)
  }

  // Thread t waits for a lock that thread u holds.
  predicate WaitsFor(s: State, t: Tid, u: Tid) {
    && t < |s.loc|
    && ((s.loc[t].Produce? && s.loc[t].ppc == PLock && s.producerLock == Some(u))
        || (s.loc[t].Consume? && s.loc[t].cpc == CLock && s.consumerLock == Some(u)))
  }

  /**
   * Every step of a call brings its return nearer, but for that of a thread that waits for a lock: then the
   * lock is another's, who is inside a call on the same side and not waiting.
   */
  lemma StepsBringNearer(s: State, n: nat, t: Tid)
    requires Reachable(s, n) && Enabled(s, t, Run)
    ensures |s.ret| == |s.loc| == |Step(s, t).loc|
    ensures if exists u: Tid :: WaitsFor(s, t, u) then Step(s, t) == s else Left(Step(s, t).loc[t]) < Left(s.loc[t])
    ensures forall u: Tid :: WaitsFor(s, t, u) ==> u != t && u < |s.loc| && s.loc[u] != Idle && forall v: Tid :: !WaitsFor(s, u, v)
  {
    hide Reachable, Block, Index;
    ReachableInv(s, n);
    var l := s.loc[t];
    if l.Produce? && l.ppc == PLock && s.producerLock.Some? { assert WaitsFor(s, t, s.producerLock.value); }
    if l.Consume? && l.cpc == CLock && s.consumerLock.Some? { assert WaitsFor(s, t, s.consumerLock.value); }
    IndicesInRing(s);
  }

  lemma IndicesInRing(s: State)
    requires Shape(s) && ProducerAt(s, ProducePcOf(s)) && ConsumerAt(s, ConsumePcOf(s))
    ensures ProducePcOf(s) == PLoad || ProducePcOf(s) == PStore ==> s.producer < |s.queue|
    ensures ConsumePcOf(s) == CLoad || ConsumePcOf(s).CClear? ==> s.consumer < |s.queue|
  {
  }
}
