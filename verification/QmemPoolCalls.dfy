/**
 * The allocator as its callers see it, with the CPUs interleaving: what an allocation hands out and when it
 * returns NULL, where a freed element goes, and that a call that nobody interrupts does exactly what module
 * QmemPools says of it.
 */
module QmemPoolCalls {
  import opened Options
  import opened Words
  import opened Calls
  import opened QmemPoolSteps
  import QmemPools
  import Sums

  datatype Op = AllocOp | FreeOp(elem: Ptr)

  // What a call has on its stack between its two effects: a bulk out of the sharedq, or one on its way there.
  datatype Bulk = Took(elems: seq<Ptr>) | Giving(elems: seq<Ptr>)

  // ---- The calls that the places in the code belong to ----

  function PhaseOf(pc: Cpu): Phase<Op, Bulk, Result> {
    match pc
    case Idle => NoCall
    case AllocLocal => Asked(AllocOp)
    case AllocShared => Asked(AllocOp)
    case FillLocal(elems) => Midway(Took(elems))
    case SlabFirst => Midway(Took([]))
    case SlabFill(elem, _, _) => Answered(Allocated(elem))
    case Push(elem, _, _) => Answered(Allocated(elem))
    case PushBroken(elem, _) => Answered(Allocated(elem))
    case FreeLocal(elem) => Asked(FreeOp(elem))
    case TakeLocal(elem) => Asked(FreeOp(elem))
    case GiveShared(elems) => Midway(Giving(elems))
    case FreeSlab(_, _) => Answered(Freed)
    case Bug(elems) => Answered(if elems == [] then NoResult else Allocated(elems[0]))
  }

  function PhaseAt(s: State, c: nat): Phase<Op, Bulk, Result> {
    if c < |s.cpu| then PhaseOf(s.cpu[c]) else NoCall
  }

  function ResultAt(s: State, c: nat): Result {
    if c < |s.ret| then s.ret[c] else NoResult
  }

  // ---- What a call does ----

  // The local queues stay as they are.  A refill, or elements going back to the slab, may be under way behind them.
  ghost predicate Quiet(s: State, s': State) {
    s'.localq == s.localq && s'.localSize == s.localSize && s'.sharedSize == s.sharedSize
  }

  // The local queue of CPU c and the sharedq, after a step that does nothing else.
  ghost predicate Becomes(s: State, s': State, c: nat, local: seq<Ptr>, shared: seq<Ptr>) {
    && c < |s.localq| && s'.localq == s.localq[c := local] && s'.sharedq == shared
    && s'.localSize == s.localSize && s'.sharedSize == s.sharedSize && s'.lost == s.lost
  }

  /** An allocation that finds an element in the localq, or one alone in the sharedq; a free that finds room. */
  ghost predicate Whole(s: State, s': State, c: nat, op: Op, r: Result) {
    c < |s.localq| && s'.live == s.live &&
    match op
    case AllocOp =>
      r.Allocated? &&
      (if s.localq[c] != [] then r.elem == s.localq[c][0] && Becomes(s, s', c, s.localq[c][1..], s.sharedq)
       else s.sharedq == [r.elem] && Becomes(s, s', c, [], []))
    case FreeOp(elem) =>
      r == Freed && |s.localq[c]| < s.localSize && Becomes(s, s', c, s.localq[c] + [elem], s.sharedq)
  }

  /** An allocation with an empty localq takes up to 16 elements; a free with a full one brings 15 with it. */
  ghost predicate First(s: State, s': State, c: nat, op: Op, bulk: Bulk) {
    c < |s.localq| && s'.live == s.live &&
    match op
    case AllocOp =>
      && bulk.Took? && s.localq[c] == [] && s.sharedq == bulk.elems + s'.sharedq && Becomes(s, s', c, [], s'.sharedq)
      && |bulk.elems| == (if |s.sharedq| < 16 then |s.sharedq| else 16)
    case FreeOp(elem) =>
      && bulk.Giving? && |s.localq[c]| == s.localSize >= 15 && bulk.elems == [elem] + s.localq[c][..15]
      && Becomes(s, s', c, s.localq[c][15..], s.sharedq)
  }

  /**
   * Of the bulk the first is the caller's, and the rest goes to the localq.  When there was none, the slab is
   * asked: it hands out a fresh element, or has failed, and NULL is returned.  A bulk on its way to the sharedq
   * gets there, or there is no room and it goes to the slab.
   */
  ghost predicate Last(s: State, s': State, c: nat, bulk: Bulk, r: Result) {
    c < |s.localq| && PhaseAt(s, c) == Midway(bulk) &&
    match bulk
    case Took(elems) =>
      && r.Allocated?
      && (if elems != [] then
            r.elem == elems[0] && Becomes(s, s', c, s.localq[c] + elems[1..], s.sharedq) && s'.live == s.live
          else
            && Becomes(s, s', c, s.localq[c], s.sharedq)
            && (if r.elem == NULL then s'.live == s.live else r.elem !in s.live && s'.live == s.live + {r.elem}))
    case Giving(elems) =>
      && r == Freed && s'.live == s.live
      && Becomes(s, s', c, s.localq[c], if |s.sharedq| + |elems| <= s.sharedSize then s.sharedq + elems else s.sharedq)
  }

  ghost function Pool(): Object<State, Op, Bulk, Result> {
    Object(PhaseAt, ResultAt, Quiet, Whole, First, Last)
  }

  function OpOf(a: Action): Option<Op> {
    match a
    case Run(_) => None
    case BeginAlloc => Some(AllocOp)
    case BeginFree(elem) => Some(FreeOp(elem))
  }

  // ---- Every step keeps to the calls ----

  lemma AllocKeeps(s: State, c: nat, fail: bool)
    requires Shape(s) && c < |s.cpu| && CpuOk(s, c) && Allocating(s.cpu[c]) && s.last + 1 !in s.live
    ensures Keeps(Pool(), s, AllocStep(s, c, fail), c)
  {
    hide Becomes;
    match s.cpu[c] {
      case AllocLocal => AllocLocalKeeps(s, c, fail);
      case AllocShared => AllocSharedKeeps(s, c, fail);
      case FillLocal(_) => FillLocalKeeps(s, c, fail);
      case SlabFirst => SlabFirstKeeps(s, c, fail);
      case _ => RefillKeeps(s, c, fail);
    }
  }

  lemma AllocLocalKeeps(s: State, c: nat, fail: bool)
    requires Shape(s) && c < |s.cpu| && s.cpu[c] == AllocLocal
    ensures Keeps(Pool(), s, AllocStep(s, c, fail), c)
  {
  }

  lemma AllocSharedKeeps(s: State, c: nat, fail: bool)
    requires Shape(s) && c < |s.cpu| && CpuOk(s, c) && s.cpu[c] == AllocShared
    ensures Keeps(Pool(), s, AllocStep(s, c, fail), c)
  {
    var s', n := AllocStep(s, c, fail), Min(|s.sharedq|, BULK);
    assert s.localq[c := []] == s.localq;
    assert s.sharedq == s.sharedq[..n] + s.sharedq[n..];
    if n == 0 { assert s.sharedq[..n] == []; }
    if n == 1 { assert s.sharedq == [s.sharedq[0]] && s.sharedq[1..] == []; }
  }

  lemma FillLocalKeeps(s: State, c: nat, fail: bool)
    requires Shape(s) && c < |s.cpu| && CpuOk(s, c) && s.cpu[c].FillLocal?
    ensures Keeps(Pool(), s, AllocStep(s, c, fail), c)
  {
  }

  lemma SlabFirstKeeps(s: State, c: nat, fail: bool)
    requires Shape(s) && c < |s.cpu| && CpuOk(s, c) && s.cpu[c] == SlabFirst && s.last + 1 !in s.live
    ensures Keeps(Pool(), s, AllocStep(s, c, fail), c)
  {
    assert s.localq[c := s.localq[c]] == s.localq;
  }

  lemma RefillKeeps(s: State, c: nat, fail: bool)
    requires Shape(s) && c < |s.cpu| && CpuOk(s, c) && (s.cpu[c].SlabFill? || s.cpu[c].Push? || s.cpu[c].PushBroken?)
    ensures Keeps(Pool(), s, AllocStep(s, c, fail), c)
  {
    hide Keeps;
    if s.cpu[c].SlabFill? { FillKeeps(s, c, fail); } else { PushKeeps(s, c, fail); }
  }

  lemma FillKeeps(s: State, c: nat, fail: bool)
    requires Shape(s) && c < |s.cpu| && s.cpu[c].SlabFill?
    ensures Keeps(Pool(), s, AllocStep(s, c, fail), c)
  {
    hide Whole, First, Last;
  }

  lemma PushKeeps(s: State, c: nat, fail: bool)
    requires Shape(s) && c < |s.cpu| && (s.cpu[c].Push? || s.cpu[c].PushBroken?)
    ensures Keeps(Pool(), s, AllocStep(s, c, fail), c)
  {
    hide Whole, First, Last;
  }

  lemma FreeKeeps(s: State, c: nat)
    requires Shape(s) && c < |s.cpu| && CpuOk(s, c) && !Allocating(s.cpu[c]) && s.cpu[c] != Idle && !s.cpu[c].Bug?
    ensures Keeps(Pool(), s, FreeStep(s, c), c)
  {
    assert s.localq[c := s.localq[c]] == s.localq;
  }

  lemma BeginKeeps(s: State, c: nat, a: Action)
    requires Shape(s) && Enabled(s, c, a) && !a.Run?
    ensures Keeps(Pool(), s, Apply(s, c, a), c)
    ensures PhaseAt(s, c).NoCall? && OpOf(a).Some? && PhaseAt(Apply(s, c, a), c) == Asked(OpOf(a).value)
  {
  }

  // What a step of CPU c leaves alone.
  ghost predicate OthersAlone(s: State, s': State, c: nat) {
    && |s'.cpu| == |s.cpu| == |s.ret| == |s'.ret|
    && forall d :: 0 <= d < |s.cpu| && d != c ==> s'.cpu[d] == s.cpu[d] && s'.ret[d] == s.ret[d]
  }

  lemma AllocAlone(s: State, c: nat, fail: bool)
    requires Shape(s) && c < |s.cpu|
    ensures OthersAlone(s, AllocStep(s, c, fail), c)
  {
  }

  lemma FreeAlone(s: State, c: nat)
    requires Shape(s) && c < |s.cpu|
    ensures OthersAlone(s, FreeStep(s, c), c)
  {
  }

  lemma OthersSpared(s: State, c: nat, a: Action, d: nat)
    requires Shape(s) && Enabled(s, c, a) && d != c
    ensures Spares(Pool(), s, Apply(s, c, a), d)
  {
    hide PhaseOf, AllocStep, FreeStep;
    if a.Run? { if Allocating(s.cpu[c]) { AllocAlone(s, c, a.fail); } else { FreeAlone(s, c); } }
  }

  lemma StepLaw(s: State, c: nat, a: Action, d: nat)
    requires Inv(s) && Enabled(s, c, a)
    ensures Keeps(Pool(), s, Apply(s, c, a), c) && (d != c ==> Spares(Pool(), s, Apply(s, c, a), d))
    ensures OpOf(a).Some? ==> PhaseAt(s, c).NoCall? && PhaseAt(Apply(s, c, a), c) == Asked(OpOf(a).value)
  {
    hide Keeps, Spares, PhaseOf, AllocStep, FreeStep, Count;
    assert CpuOk(s, c);
    if !a.Run? {
      BeginKeeps(s, c, a);
    } else if Allocating(s.cpu[c]) {
      AllocKeeps(s, c, a.fail);
    } else {
      FreeKeeps(s, c);
    }
    if d != c { OthersSpared(s, c, a, d); }
  }

  /**
   * Every step of every CPU, in every reachable state: a step inside a call is quiet or is an effect of that
   * call; a step outside one begins the call it names on the element it names; and no step touches the call of
   * another CPU.
   */
  lemma StepsKeepCalls(s: State, n: nat, c: nat, a: Action, d: nat)
    requires Reachable(s, n) && Enabled(s, c, a)
    ensures Shape(s) && Keeps(Pool(), s, Apply(s, c, a), c) && (d != c ==> Spares(Pool(), s, Apply(s, c, a), d))
    ensures OpOf(a).Some? ==> PhaseAt(s, c).NoCall? && PhaseAt(Apply(s, c, a), c) == Asked(OpOf(a).value)
  {
    hide Reachable, Apply, Keeps, Spares;
    ReachableInv(s, n);
    StepLaw(s, c, a, d);
  }

  // ---- Whose hands an element is in ----

  /**
   * The users hold what allocations have returned and not been given back: a free takes its element away when
   * it begins, an allocation adds the one it returns, which nobody else holds; nothing else changes hands.
   * An allocation returns NULL exactly when it has asked the slab for an element and the slab has failed.
   */
  lemma HandsChange(s: State, n: nat, c: nat, a: Action)
    requires Reachable(s, n) && Enabled(s, c, a)
    ensures |s.cpu| == |s.localq| == |s.ret|
    ensures var s', r := Apply(s, c, a), ResultAt(Apply(s, c, a), c);
      if a.BeginFree? then s'.held == s.held - multiset{a.elem}
      else if Hands(s, s', c, a) then
        && r.Allocated?
        && if r.elem == NULL then s.cpu[c] == SlabFirst && a.fail && s'.held == s.held
           else s'.held == s.held + multiset{r.elem} && r.elem !in s.held && r.elem in s'.live
      else s'.held == s.held
    ensures a.Run? && s.cpu[c] == SlabFirst ==> (Hands(s, Apply(s, c, a), c, a) <==> a.fail)
  {
    hide Reachable, AllocStep, FreeStep, Apply, Count, CpusOk;
    ReachableInv(s, n);
    ActionKeepsInv(s, Apply(s, c, a), c, a);
    HandsStep(s, c, a);
    HeldOnce(s);
    HeldOnce(Apply(s, c, a));
    var s', r := Apply(s, c, a), ResultAt(Apply(s, c, a), c);
    if Hands(s, s', c, a) && !s.cpu[c].SlabFirst? { assert s'.held[r.elem] == s.held[r.elem] + 1; }
  }

  lemma HeldOnce(s: State)
    requires Conserved(s)
    ensures forall e :: s.held[e] <= 1 && (e in s.held ==> e in s.live && e != NULL)
  {
    forall e: Ptr ensures s.held[e] <= 1 && (e in s.held ==> e in s.live && e != NULL) {
      assert Count(s, e) == if e in s.live then 1 else 0;
    }
  }

  // An allocation returns from the step that CPU c takes.
  predicate Hands(s: State, s': State, c: nat, a: Action) {
    a.Run? && c < |s.cpu| && Allocating(s.cpu[c]) && c < |s'.cpu| && s'.cpu[c] == Idle
  }

  lemma HandsStep(s: State, c: nat, a: Action)
    requires Shape(s) && Enabled(s, c, a)
    ensures var s', r := Apply(s, c, a), ResultAt(Apply(s, c, a), c);
      if a.BeginFree? then s'.held == s.held - multiset{a.elem}
      else if Hands(s, s', c, a) then
        && r.Allocated?
        && if s.cpu[c].SlabFirst? then a.fail && r.elem == NULL && s'.held == s.held else s'.held == s.held + multiset{r.elem}
      else s'.held == s.held
    ensures a.Run? && s.cpu[c] == SlabFirst ==> (Hands(s, Apply(s, c, a), c, a) <==> a.fail)
  {
    hide AllocStep, FreeStep;
    if a.Run? { if Allocating(s.cpu[c]) { AllocHands(s, c, a.fail); } else { FreeHands(s, c); } }
  }

  lemma AllocHands(s: State, c: nat, fail: bool)
    requires Shape(s) && c < |s.cpu| && Allocating(s.cpu[c])
    ensures var s', r := AllocStep(s, c, fail), ResultAt(AllocStep(s, c, fail), c);
      && |s'.cpu| == |s.cpu|
      && if s'.cpu[c] == Idle then
           && r.Allocated?
           && if s.cpu[c].SlabFirst? then fail && r.elem == NULL && s'.held == s.held else s'.held == s.held + multiset{r.elem}
         else s'.held == s.held && (s.cpu[c].SlabFirst? ==> !fail)
  {
  }

  lemma FreeHands(s: State, c: nat)
    requires Shape(s) && c < |s.cpu|
    ensures FreeStep(s, c).held == s.held
  {
  }

  // ---- Whole calls ----

  predicate Goes(s: State, e: Calls.Event<Action>, s': State) {
    |s.cpu| == |s.localq| == |s.ret| && Enabled(s, e.thread, e.action) && s' == Apply(s, e.thread, e.action)
  }

  predicate Trace(run: seq<State>, ev: seq<Calls.Event<Action>>) {
    |run| == |ev| + 1 && forall i :: 0 <= i < |ev| ==> Goes(run[i], ev[i], run[i + 1])
  }

  lemma {:induction false} TraceInv(run: seq<State>, ev: seq<Calls.Event<Action>>, n: nat, i: nat)
    requires Trace(run, ev) && Reachable(run[0], n) && i <= |ev|
    ensures Inv(run[i])
    decreases i
  {
    hide Reachable, Inv, Enabled, Apply;
    if i == 0 {
      ReachableInv(run[0], n);
    } else {
      TraceInv(run, ev, n, i - 1);
      assert Goes(run[i - 1], ev[i - 1], run[i - 1 + 1]);
      ActionKeepsInv(run[i - 1], run[i], ev[i - 1].thread, ev[i - 1].action);
    }
  }

  /** The run is a whole call of op on CPU c: it begins it, and is back from it at the end for the first time. */
  ghost predicate CallOf(run: seq<State>, ev: seq<Calls.Event<Action>>, c: nat, op: Op) {
    && Trace(run, ev) && ev != [] && ev[0].thread == c && OpOf(ev[0].action) == Some(op)
    && (forall i :: 1 <= i < |ev| ==> !PhaseAt(run[i], c).NoCall?) && PhaseAt(run[|ev|], c).NoCall?
  }

  lemma CallCompletes(run: seq<State>, ev: seq<Calls.Event<Action>>, n: nat, c: nat, op: Op)
    requires CallOf(run, ev, c, op) && Reachable(run[0], n)
    ensures |run| == |ev| + 1 && Complete(Pool(), run, Threads(ev), c, op)
  {
    hide Reachable, Inv, Enabled, Apply, Keeps, Spares, PhaseOf, OpOf;
    var who := Threads(ev);
    forall i | 0 <= i < |ev| ensures StepOk(Pool(), run, who, c, i) {
      TraceInv(run, ev, n, i);
      assert Goes(run[i], ev[i], run[i + 1]);
      StepLaw(run[i], ev[i].thread, ev[i].action, c);
    }
    TraceInv(run, ev, n, 0);
    assert Goes(run[0], ev[0], run[0 + 1]);
    StepLaw(run[0], c, ev[0].action, c);
  }

  // Of the steps of CPU c, only j and k change a local queue.
  ghost predicate OnlyAt(run: seq<State>, ev: seq<Calls.Event<Action>>, c: nat, j: nat, k: nat)
    requires |run| == |ev| + 1
  {
    && 1 <= j <= k < |ev| && ev[j].thread == c && ev[k].thread == c
    && forall i :: 0 <= i < |ev| && ev[i].thread == c && i != j && i != k ==> Quiet(run[i], run[i + 1])
  }

  /** Every call takes effect once, whatever the other CPUs do: at one step of its CPU, or at two. */
  lemma CallTakesEffect(run: seq<State>, ev: seq<Calls.Event<Action>>, n: nat, c: nat, op: Op) returns (j: nat, k: nat, bulk: Bulk)
    requires CallOf(run, ev, c, op) && Reachable(run[0], n)
    ensures |run| == |ev| + 1 && OnlyAt(run, ev, c, j, k)
    ensures if j == k then Whole(run[k], run[k + 1], c, op, ResultAt(run[|ev|], c))
            else First(run[j], run[j + 1], c, op, bulk) && Last(run[k], run[k + 1], c, bulk, ResultAt(run[|ev|], c))
  {
    hide Reachable, Complete, CallOf, OpOf, PhaseOf, Whole, First, Last, Quiet;
    CallCompletes(run, ev, n, c, op);
    j, k := TakesEffectOnce(Pool(), run, Threads(ev), c, op);
    bulk := Took([]);
    if j != k {
      bulk :| FirstAt(Pool(), run, Threads(ev), c, op, j, bulk) && LastAt(Pool(), run, Threads(ev), c, k, bulk, ResultAt(run[|ev|], c));
    }
    assert forall i :: 0 <= i < |ev| && ev[i].thread == c ==> Threads(ev)[i] == c;
  }

  // NULL comes from the slab.
  lemma NullIsFailure(s: State, c: nat, a: Action, r: Result)
    requires Inv(s) && Enabled(s, c, a) && Last(s, Apply(s, c, a), c, Took([]), r)
    ensures a.Run? && (a.fail <==> r == Allocated(NULL))
  {
    hide Count;
    assert CpuOk(s, c);
    assert s.last + 1 !in s.live;
  }

  /**
   * What an allocation on CPU c hands out: the first element of its localq at step k; or, that being empty, the
   * oldest of the sharedq at step j, of which up to 15 more come to the localq; or, that being empty too, at
   * step j, a fresh element of the slab.  NULL only in this last case, and exactly when the slab has failed.
   */
  lemma AllocCall(run: seq<State>, ev: seq<Calls.Event<Action>>, n: nat, c: nat) returns (j: nat, k: nat, bulk: Bulk)
    requires CallOf(run, ev, c, AllocOp) && Reachable(run[0], n)
    ensures |run| == |ev| + 1 && OnlyAt(run, ev, c, j, k) && ResultAt(run[|ev|], c).Allocated?
    ensures var e := ResultAt(run[|ev|], c).elem;
      if j == k then
        && c < |run[k].localq| && run[k].localq[c] + (if run[k].localq[c] == [] then run[k].sharedq else []) != []
        && e == (run[k].localq[c] + run[k].sharedq)[0]
        && e != NULL
      else
        && First(run[j], run[j + 1], c, AllocOp, bulk) && Last(run[k], run[k + 1], c, bulk, Allocated(e)) && bulk.Took?
        && (bulk.elems != [] ==> e == run[j].sharedq[0])
        && (e == NULL <==> run[j].sharedq == [] && ev[k].action == Run(true))
  {
    hide Reachable, CallOf, OnlyAt, Count;
    j, k, bulk := CallTakesEffect(run, ev, n, c, AllocOp);
    EventAt(run, ev, n, c, AllocOp, j, k);
    if j == k {
      NotNull(run[k], c);
    } else if bulk.elems == [] {
      NullIsFailure(run[k], c, ev[k].action, ResultAt(run[|ev|], c));
    } else {
      assert run[j].sharedq[0] == bulk.elems[0];
      NotNull(run[j], c);
    }
  }

  lemma EventAt(run: seq<State>, ev: seq<Calls.Event<Action>>, n: nat, c: nat, op: Op, j: nat, k: nat)
    requires CallOf(run, ev, c, op) && Reachable(run[0], n) && |run| == |ev| + 1 && OnlyAt(run, ev, c, j, k)
    ensures j < |ev| && k < |ev| && Inv(run[j]) && Inv(run[k]) && Goes(run[k], ev[k], run[k + 1]) && ev[k].thread == c
  {
    hide Reachable, Inv, Goes;
    TraceInv(run, ev, n, j);
    TraceInv(run, ev, n, k);
  }

  // No queue holds a NULL.
  lemma NotNull(s: State, c: nat)
    requires Inv(s) && c < |s.localq|
    ensures s.localq[c] != [] ==> s.localq[c][0] != NULL
    ensures s.sharedq != [] ==> s.sharedq[0] != NULL
  {
    assert Count(s, NULL) == 0;
    if s.localq[c] != [] { TimesMember(s.localq[c], 0); Sums.SumMember(InQueue(NULL), s.localq, c); }
    if s.sharedq != [] { TimesMember(s.sharedq, 0); }
  }

  /**
   * Where a freed element goes: to the end of the localq at step k; or, that being full at step j, with 15 of
   * its elements to the sharedq at step k, or to the slab when there is no room.
   */
  lemma FreeCall(run: seq<State>, ev: seq<Calls.Event<Action>>, n: nat, c: nat, elem: Ptr) returns (j: nat, k: nat, bulk: Bulk)
    requires CallOf(run, ev, c, FreeOp(elem)) && Reachable(run[0], n)
    ensures |run| == |ev| + 1 && OnlyAt(run, ev, c, j, k) && ResultAt(run[|ev|], c) == Freed
    ensures if j == k then Whole(run[k], run[k + 1], c, FreeOp(elem), Freed)
            else First(run[j], run[j + 1], c, FreeOp(elem), bulk) && Last(run[k], run[k + 1], c, bulk, Freed) && bulk.Giving?
  {
    hide Reachable, CallOf, OnlyAt;
    j, k, bulk := CallTakesEffect(run, ev, n, c, FreeOp(elem));
  }
}
