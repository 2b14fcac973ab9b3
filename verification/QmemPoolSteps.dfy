/**
 * The allocator of mm/qmempool.c as a step machine: the CPUs interleave between queue operations and
 * slab calls.  Each CPU runs one call at a time (softirqs are off) and alone touches its local queue.
 */
module QmemPoolSteps {
  import opened Runs
  import opened Sums
  import opened Words
  import QmemPools

  const BULK := QmemPools.BULK
  const REFILL_MULTIPLIER := QmemPools.REFILL_MULTIPLIER

  // Where a CPU is, with the elements it has on its stack.
  datatype Cpu =
    | Idle
    | AllocLocal                                               // alf_sc_dequeue(localq, 1)
    | AllocShared                                              // alf_mc_dequeue(sharedq, 16)
    | FillLocal(elems: seq<Ptr>)                               // alf_sp_enqueue(localq, elems[1..])
    | SlabFirst                                                // the element for the caller
    | SlabFill(elem: Ptr, round: nat, elems: seq<Ptr>)         // elems[j] = kmem_cache_alloc()
    | Push(elem: Ptr, round: nat, elems: seq<Ptr>)             // alf_mp_enqueue(sharedq, elems, 16)
    | PushBroken(elem: Ptr, elems: seq<Ptr>)                   // alf_mp_enqueue(sharedq, elems, j - 1)
    | FreeLocal(elem: Ptr)                                     // alf_sp_enqueue(localq, elem)
    | TakeLocal(elem: Ptr)                                     // alf_sc_dequeue(localq, 15)
    | GiveShared(elems: seq<Ptr>)                              // alf_mp_enqueue(sharedq, elems)
    | FreeSlab(elems: seq<Ptr>, rounds: nat)                   // kmem_cache_free(elems[0]), or the next round
    | Bug(elems: seq<Ptr>)                                     // BUG() has fired

  // What the last call on a CPU has returned; a failed allocation has returned NULL.
  datatype Result = NoResult | Allocated(elem: Ptr) | Freed

  datatype State = State(
    localSize: nat,
    sharedSize: nat,
    localq: seq<seq<Ptr>>,
    sharedq: seq<Ptr>,
    cpu: seq<Cpu>,
    ret: seq<Result>,
    held: multiset<Ptr>,    // in users' hands
    // ---- history ----
    live: set<Ptr>,         // allocated from the slab and not freed to it
    last: nat,              // the last element the slab handed out
    lost: multiset<Ptr>     // dropped by the broken refill
  )

  function Goto(s: State, c: nat, pc: Cpu): State
    requires c < |s.cpu|
  {
    s.(cpu := s.cpu[c := pc])
  }

  function Min(a: nat, b: nat): nat {
    if a < b then a else b
  }

  function Return(s: State, c: nat, r: Result): State
    requires c < |s.cpu| == |s.ret|
  {
    s.(cpu := s.cpu[c := Idle], ret := s.ret[c := r])
  }

  // The caller gets elem.
  function Hand(s: State, c: nat, elem: Ptr): State
    requires c < |s.cpu| == |s.ret|
  {
    Return(s, c, Allocated(elem)).(held := s.held + multiset{elem})
  }

  // The slab hands out a fresh element.
  function Fresh(s: State): State {
    s.(live := s.live + {s.last + 1}, last := s.last + 1)
  }

  function AllocStep(s: State, c: nat, fail: bool): State
    requires c < |s.cpu| == |s.localq| == |s.ret|
  {
    match s.cpu[c]
    case AllocLocal =>
      if s.localq[c] == [] then Goto(s, c, AllocShared)
      else Hand(s, c, s.localq[c][0]).(localq := s.localq[c := s.localq[c][1..]])
    case AllocShared =>
      var n := Min(|s.sharedq|, BULK);
      if n == 0 then Goto(s, c, SlabFirst)
      else if n == 1 then Hand(s, c, s.sharedq[0]).(sharedq := s.sharedq[1..])
      else Goto(s, c, FillLocal(s.sharedq[..n])).(sharedq := s.sharedq[n..])
    case FillLocal(elems) =>
      if elems == [] then s
      else if |s.localq[c]| + |elems| - 1 > s.localSize then Goto(s, c, Bug(elems))
      else Hand(s, c, elems[0]).(localq := s.localq[c := s.localq[c] + elems[1..]])
    case SlabFirst =>
      if fail then Return(s, c, Allocated(NULL)) else Goto(Fresh(s), c, SlabFill(s.last + 1, 0, []))
    case SlabFill(elem, round, elems) =>
      if fail then Goto(s, c, PushBroken(elem, elems))
      else
        var more := elems + [s.last + 1];
        Goto(Fresh(s), c, if |more| == BULK then Push(elem, round, more) else SlabFill(elem, round, more))
    case Push(elem, round, elems) =>
      if |s.sharedq| + |elems| > s.sharedSize then Goto(s, c, Bug([elem] + elems))
      else if round + 1 < REFILL_MULTIPLIER then Goto(s, c, SlabFill(elem, round + 1, [])).(sharedq := s.sharedq + elems)
      else Hand(s, c, elem).(sharedq := s.sharedq + elems)
    case PushBroken(elem, elems) =>
      // j - 1 is -1 for j == 0, and 0 for j == 1: alf_mp_enqueue returns 0
      if |elems| <= 1 || |s.sharedq| + |elems| - 1 > s.sharedSize then Goto(s, c, Bug([elem] + elems))
      else Hand(s, c, elem).(sharedq := s.sharedq + elems[..|elems| - 1], lost := s.lost + multiset{elems[|elems| - 1]})
    case _ => s
  }

  function FreeStep(s: State, c: nat): State
    requires c < |s.cpu| == |s.localq| == |s.ret|
  {
    match s.cpu[c]
    case FreeLocal(elem) =>
      if |s.localq[c]| + 1 > s.localSize then Goto(s, c, TakeLocal(elem))
      else Return(s, c, Freed).(localq := s.localq[c := s.localq[c] + [elem]])
    case TakeLocal(elem) =>
      var n := Min(|s.localq[c]|, BULK - 1);
      if n == 0 then Goto(s, c, Bug([elem]))
      else Goto(s, c, GiveShared([elem] + s.localq[c][..n])).(localq := s.localq[c := s.localq[c][n..]])
    case GiveShared(elems) =>
      if |s.sharedq| + |elems| > s.sharedSize then Goto(s, c, FreeSlab(elems, REFILL_MULTIPLIER))
      else Return(s, c, Freed).(sharedq := s.sharedq + elems)
    case FreeSlab(elems, rounds) =>
      if elems != [] then Goto(s, c, FreeSlab(elems[1..], rounds)).(live := s.live - {elems[0]})
      else if rounds == 0 then Return(s, c, Freed)
      else
        var n := Min(|s.sharedq|, BULK);
        Goto(s, c, FreeSlab(s.sharedq[..n], rounds - 1)).(sharedq := s.sharedq[n..])
    case _ => s
  }

  predicate Allocating(pc: Cpu) {
    pc.AllocLocal? || pc.AllocShared? || pc.FillLocal? || pc.SlabFirst? || pc.SlabFill? || pc.Push? || pc.PushBroken?
  }

  // `fail`: whether the slab, when the step asks it, returns NULL.
  datatype Action = Run(fail: bool) | BeginAlloc | BeginFree(elem: Ptr)

  // A user frees only what it holds; a CPU that has hit a BUG does nothing more.
  predicate Enabled(s: State, c: nat, a: Action) {
    && c < |s.cpu| && (a.Run? <==> s.cpu[c] != Idle) && !s.cpu[c].Bug?
    && (a.BeginFree? ==> a.elem in s.held)
  }

  function Apply(s: State, c: nat, a: Action): State
    requires c < |s.cpu| == |s.localq| == |s.ret|
  {
    match a
    case Run(fail) => if Allocating(s.cpu[c]) then AllocStep(s, c, fail) else FreeStep(s, c)
    case BeginAlloc => Goto(s, c, AllocLocal)
    case BeginFree(elem) => Goto(s, c, FreeLocal(elem)).(held := s.held - multiset{elem})
  }

  // A pool that qmempool_create has made, with `prealloc` elements in the sharedq.
  ghost predicate Init(s: State) {
    && |s.localq| == |s.cpu| == |s.ret| && BULK <= s.localSize && BULK * REFILL_MULTIPLIER <= s.sharedSize
    && (forall c :: 0 <= c < |s.cpu| ==> s.cpu[c] == Idle && s.localq[c] == [])
    && |s.sharedq| <= s.sharedSize && s.sharedq == QmemPools.Ids(0, |s.sharedq|)
    && s.held == multiset{} && s.lost == multiset{}
    && s.last == |s.sharedq| && s.live == set e | e in s.sharedq
  }

  ghost predicate Next(s: State, s': State) {
    |s.localq| == |s.cpu| == |s.ret| && exists c, a :: Enabled(s, c, a) && s' == Apply(s, c, a)
  }

  ghost predicate Reachable(s: State, n: nat) {
    Reach(Init, Next, s, n)
  }

  // ---- Where the elements are ----

  // The elements on the stack of a CPU.
  function Stack(pc: Cpu): seq<Ptr> {
    match pc
    case FillLocal(elems) => elems
    case SlabFill(elem, _, elems) => [elem] + elems
    case Push(elem, _, elems) => [elem] + elems
    case PushBroken(elem, elems) => [elem] + elems
    case FreeLocal(elem) => [elem]
    case TakeLocal(elem) => [elem]
    case GiveShared(elems) => elems
    case FreeSlab(elems, _) => elems
    case Bug(elems) => elems
    case _ => []
  }

  /** How often e occurs in q. */
  function Times(q: seq<Ptr>, e: Ptr): nat {
    if q == [] then 0 else Times(q[..|q| - 1], e) + (if q[|q| - 1] == e then 1 else 0)
  }

  lemma {:induction false} TimesAppend(a: seq<Ptr>, b: seq<Ptr>, e: Ptr)
    ensures Times(a + b, e) == Times(a, e) + Times(b, e)
    decreases |b|
  {
    if b == [] {
      assert a + b == a;
    } else {
      var n := |b| - 1;
      TimesAppend(a, b[..n], e);
      assert (a + b)[..|a| + n] == a + b[..n];
    }
  }

  lemma TimesSplit(q: seq<Ptr>, n: nat, e: Ptr)
    requires n <= |q|
    ensures Times(q, e) == Times(q[..n], e) + Times(q[n..], e)
  {
    TimesAppend(q[..n], q[n..], e);
    assert q[..n] + q[n..] == q;
  }

  lemma TimesNone(e: Ptr)
    ensures Times([], e) == 0
  {
  }

  lemma TimesOne(x: Ptr, q: seq<Ptr>, e: Ptr)
    ensures Times([x], e) == if x == e then 1 else 0
    ensures Times([x] + q, e) == (if x == e then 1 else 0) + Times(q, e)
    ensures Times(q + [x], e) == (if x == e then 1 else 0) + Times(q, e)
  {
    TimesAppend([x], q, e);
    TimesAppend(q, [x], e);
    assert [x][..0] == [];
  }

  lemma {:induction false} TimesMember(q: seq<Ptr>, i: nat)
    requires i < |q|
    ensures Times(q, q[i]) >= 1
    decreases |q|
  {
    if i < |q| - 1 { TimesMember(q[..|q| - 1], i); }
  }

  function OnStack(e: Ptr): Cpu -> nat {
    pc => Times(Stack(pc), e)
  }

  function InQueue(e: Ptr): seq<Ptr> -> nat {
    q => Times(q, e)
  }

  // How often e is counted: on a stack, in a local queue, in the sharedq, with a user, or lost.
  function Count(s: State, e: Ptr): nat {
    SumOf(OnStack(e), s.cpu) + SumOf(InQueue(e), s.localq) + Times(s.sharedq, e) + s.held[e] + s.lost[e]
  }

  // ---- The invariant ----

  ghost predicate Shape(s: State) {
    && |s.localq| == |s.cpu| == |s.ret| && BULK <= s.localSize && BULK * REFILL_MULTIPLIER <= s.sharedSize
    && |s.sharedq| <= s.sharedSize && (forall c :: 0 <= c < |s.localq| ==> |s.localq[c]| <= s.localSize)
  }

  // Every element that the slab has handed out and not got back is in exactly one place.
  ghost predicate Conserved(s: State) {
    && (forall e :: Count(s, e) == if e in s.live then 1 else 0)
    && (forall e :: e in s.live ==> 1 <= e <= s.last)
  }

  // What CPU c knows of its own local queue and of its on-stack bulk.
  predicate CpuOk(s: State, c: nat)
    requires c < |s.cpu| == |s.localq|
  {
    match s.cpu[c]
    case AllocShared => s.localq[c] == []
    case FillLocal(elems) => s.localq[c] == [] && 2 <= |elems| <= BULK
    case SlabFirst => s.localq[c] == []
    case SlabFill(_, round, elems) => s.localq[c] == [] && round < REFILL_MULTIPLIER && |elems| < BULK
    case Push(_, round, elems) => s.localq[c] == [] && round < REFILL_MULTIPLIER && |elems| == BULK
    case PushBroken(_, elems) => s.localq[c] == [] && |elems| < BULK
    case TakeLocal(_) => |s.localq[c]| == s.localSize
    case GiveShared(elems) => 2 <= |elems| <= BULK
    case _ => true
  }

  ghost predicate CpusOk(s: State)
    requires |s.cpu| == |s.localq|
  {
    forall c :: 0 <= c < |s.cpu| ==> CpuOk(s, c)
  }

  ghost predicate Inv(s: State) {
    Shape(s) && CpusOk(s) && Conserved(s)
  }

  lemma InitInv(s: State)
    requires Init(s)
    ensures Inv(s)
  {
    forall e: Ptr ensures Count(s, e) == if e in s.live then 1 else 0 {
      SumZero(OnStack(e), s.cpu);
      SumZero(InQueue(e), s.localq);
      IdTimes(0, |s.sharedq|, e);
      assert 1 <= e <= |s.sharedq| ==> s.sharedq[e - 1] == e;
    }
  }

  // Fresh elements are distinct.
  lemma {:induction false} IdTimes(call: nat, n: nat, e: Ptr)
    ensures Times(QmemPools.Ids(call, n), e) == if call < e <= call + n then 1 else 0
  {
    if n > 0 {
      IdTimes(call, n - 1, e);
      TimesLast(QmemPools.Ids(call, n - 1), call + n, QmemPools.Ids(call, n), e);
    }
  }

  lemma TimesLast(q: seq<Ptr>, x: Ptr, all: seq<Ptr>, e: Ptr)
    requires all == q + [x]
    ensures Times(all, e) == Times(q, e) + (if x == e then 1 else 0)
  {
    TimesOne(x, q, e);
  }

  // One CPU moves on: what it had on its stack and in its queue, and what it has now.
  ghost predicate Moves(s: State, s': State, c: nat) {
    && c < |s.cpu| == |s.localq| == |s.ret| && |s'.cpu| == |s.cpu| && |s'.localq| == |s.localq| && |s'.ret| == |s.ret|
    && s'.cpu == s.cpu[c := s'.cpu[c]] && s'.localq == s.localq[c := s'.localq[c]]
    && s'.localSize == s.localSize && s'.sharedSize == s.sharedSize
  }

  function Near(s: State, c: nat, e: Ptr): nat
    requires c < |s.cpu| == |s.localq|
  {
    Times(Stack(s.cpu[c]), e) + Times(s.localq[c], e) + Times(s.sharedq, e) + s.held[e] + s.lost[e]
  }

  /** Only what is near the moving CPU can change the count. */
  lemma CountNear(s: State, s': State, c: nat, e: Ptr)
    requires Moves(s, s', c)
    ensures Count(s', e) - Count(s, e) == Near(s', c, e) - Near(s, c, e)
  {
    SumUpdate(OnStack(e), s.cpu, c, s'.cpu[c]);
    SumUpdate(InQueue(e), s.localq, c, s'.localq[c]);
  }

  // What a step does to the count of one element: nothing, unless the slab hands it out or takes it back.
  ghost predicate Balanced(s: State, s': State, c: nat, e: Ptr)
    requires c < |s.cpu| == |s.localq| && |s'.cpu| == |s'.localq| == |s.cpu|
  {
    Near(s', c, e) - Near(s, c, e) == (if e in s'.live then 1 else 0) - (if e in s.live then 1 else 0)
  }

  lemma AllocFromLocal(s: State, s': State, c: nat, fail: bool, e: Ptr)
    requires Shape(s) && c < |s.cpu| && s' == AllocStep(s, c, fail) && s.cpu[c].AllocLocal?
    ensures Moves(s, s', c) && Balanced(s, s', c, e)
  {
    hide Times;
    TimesNone(e);
    var q := s.localq[c];
    if q != [] {
      TimesSplit(q, 1, e);
      TimesOne(q[0], [], e);
      assert q[..1] == [q[0]];
    }
  }

  lemma AllocFromShared(s: State, s': State, c: nat, fail: bool, e: Ptr)
    requires Shape(s) && c < |s.cpu| && s' == AllocStep(s, c, fail) && s.cpu[c].AllocShared?
    ensures Moves(s, s', c) && Balanced(s, s', c, e)
  {
    hide Times;
    TimesNone(e);
    var q, n := s.sharedq, Min(|s.sharedq|, BULK);
    TimesSplit(q, n, e);
    if n == 1 {
      TimesOne(q[0], [], e);
      assert q[..1] == [q[0]];
    }
  }

  lemma AllocFill(s: State, s': State, c: nat, fail: bool, e: Ptr)
    requires Shape(s) && c < |s.cpu| && CpuOk(s, c) && s' == AllocStep(s, c, fail) && s.cpu[c].FillLocal?
    ensures Moves(s, s', c) && Balanced(s, s', c, e)
  {
    hide Times;
    TimesNone(e);
    var elems := s.cpu[c].elems;
    TimesSplit(elems, 1, e);
    TimesOne(elems[0], [], e);
    assert elems[..1] == [elems[0]];
    TimesAppend(s.localq[c], elems[1..], e);
  }

  lemma AllocSlabFirst(s: State, s': State, c: nat, fail: bool, e: Ptr)
    requires Shape(s) && c < |s.cpu| && s' == AllocStep(s, c, fail) && s.cpu[c].SlabFirst? && s.last + 1 !in s.live
    ensures Moves(s, s', c) && Balanced(s, s', c, e)
  {
    if !fail {
      TimesOne(s.last + 1, [], e);
      assert Stack(s'.cpu[c]) == [s.last + 1];
    }
  }

  lemma AllocSlabFill(s: State, s': State, c: nat, fail: bool, e: Ptr)
    requires Shape(s) && c < |s.cpu| && s' == AllocStep(s, c, fail) && s.cpu[c].SlabFill? && s.last + 1 !in s.live
    ensures Moves(s, s', c) && Balanced(s, s', c, e)
  {
    hide Times;
    var was := Stack(s.cpu[c]);
    if !fail {
      TimesOne(s.last + 1, was, e);
      assert Stack(s'.cpu[c]) == was + [s.last + 1];
    }
  }

  lemma AllocPush(s: State, s': State, c: nat, fail: bool, e: Ptr)
    requires Shape(s) && c < |s.cpu| && s' == AllocStep(s, c, fail) && s.cpu[c].Push?
    ensures Moves(s, s', c) && Balanced(s, s', c, e)
  {
    hide Times;
    TimesNone(e);
    var elem, elems := s.cpu[c].elem, s.cpu[c].elems;
    TimesOne(elem, elems, e);
    TimesOne(elem, [], e);
    TimesAppend(s.sharedq, elems, e);
    assert [elem] + [] == [elem];
  }

  lemma AllocPushBroken(s: State, s': State, c: nat, fail: bool, e: Ptr)
    requires Shape(s) && c < |s.cpu| && s' == AllocStep(s, c, fail) && s.cpu[c].PushBroken?
    ensures Moves(s, s', c) && Balanced(s, s', c, e)
  {
    hide Times;
    TimesNone(e);
    var elem, elems := s.cpu[c].elem, s.cpu[c].elems;
    if !s'.cpu[c].Bug? { LastIsLost(elem, elems, s.sharedq, e); }
  }

  lemma LastIsLost(elem: Ptr, elems: seq<Ptr>, sharedq: seq<Ptr>, e: Ptr)
    requires elems != []
    ensures var n := |elems| - 1;
      Times([elem] + elems, e) + Times(sharedq, e) ==
      (if elem == e then 1 else 0) + Times(sharedq + elems[..n], e) + (if elems[n] == e then 1 else 0)
  {
    TimesOne(elem, elems, e);
    TimesAppend(sharedq, elems[..|elems| - 1], e);
  }

  lemma AllocBalanced(s: State, s': State, c: nat, fail: bool, e: Ptr)
    requires Shape(s) && c < |s.cpu| && CpuOk(s, c) && s.last + 1 !in s.live && Allocating(s.cpu[c])
    requires s' == AllocStep(s, c, fail)
    ensures Moves(s, s', c) && Balanced(s, s', c, e)
  {
    match s.cpu[c]
    case AllocLocal => AllocFromLocal(s, s', c, fail, e);
    case AllocShared => AllocFromShared(s, s', c, fail, e);
    case FillLocal(_) => AllocFill(s, s', c, fail, e);
    case Push(_, _, _) => AllocPush(s, s', c, fail, e);
    case PushBroken(_, _) => AllocPushBroken(s, s', c, fail, e);
    case SlabFirst => AllocSlabFirst(s, s', c, fail, e);
    case _ => AllocSlabFill(s, s', c, fail, e);
  }

  lemma FreeToLocal(s: State, s': State, c: nat, e: Ptr)
    requires Shape(s) && c < |s.cpu| && s' == FreeStep(s, c) && s.cpu[c].FreeLocal?
    ensures Moves(s, s', c) && Balanced(s, s', c, e)
  {
    hide Times;
    TimesNone(e);
    TimesOne(s.cpu[c].elem, s.localq[c], e);
  }

  lemma FreeTake(s: State, s': State, c: nat, e: Ptr)
    requires Shape(s) && c < |s.cpu| && s' == FreeStep(s, c) && s.cpu[c].TakeLocal?
    ensures Moves(s, s', c) && Balanced(s, s', c, e)
  {
    hide Times;
    TimesNone(e);
    var q, n := s.localq[c], Min(|s.localq[c]|, BULK - 1);
    TimesSplit(q, n, e);
    TimesOne(s.cpu[c].elem, q[..n], e);
  }

  lemma FreeGive(s: State, s': State, c: nat, e: Ptr)
    requires Shape(s) && c < |s.cpu| && s' == FreeStep(s, c) && s.cpu[c].GiveShared?
    ensures Moves(s, s', c) && Balanced(s, s', c, e)
  {
    hide Times;
    TimesNone(e);
    TimesAppend(s.sharedq, s.cpu[c].elems, e);
  }

  lemma FreeBack(s: State, s': State, c: nat, e: Ptr)
    requires Shape(s) && c < |s.cpu| && s' == FreeStep(s, c) && s.cpu[c].FreeSlab?
    requires s.cpu[c].elems != [] ==> s.cpu[c].elems[0] in s.live
    ensures Moves(s, s', c) && Balanced(s, s', c, e)
  {
    hide Times;
    TimesNone(e);
    var elems := s.cpu[c].elems;
    if elems != [] {
      TimesOne(elems[0], elems[1..], e);
      assert elems == [elems[0]] + elems[1..];
    } else {
      TimesSplit(s.sharedq, Min(|s.sharedq|, BULK), e);
    }
  }

  /** What a CPU has on its stack is live. */
  lemma StackIsLive(s: State, c: nat, i: nat)
    requires Conserved(s) && c < |s.cpu| && i < |Stack(s.cpu[c])|
    ensures Stack(s.cpu[c])[i] in s.live
  {
    var e := Stack(s.cpu[c])[i];
    TimesMember(Stack(s.cpu[c]), i);
    SumMember(OnStack(e), s.cpu, c);
    assert Count(s, e) >= 1;
  }

  lemma FreeBalanced(s: State, s': State, c: nat, e: Ptr)
    requires Shape(s) && c < |s.cpu| && Conserved(s) && !Allocating(s.cpu[c]) && s' == FreeStep(s, c)
    ensures Moves(s, s', c) && Balanced(s, s', c, e)
  {
    match s.cpu[c]
    case FreeLocal(_) => FreeToLocal(s, s', c, e);
    case TakeLocal(_) => FreeTake(s, s', c, e);
    case GiveShared(_) => FreeGive(s, s', c, e);
    case FreeSlab(elems, _) =>
      if elems != [] { StackIsLive(s, c, 0); }
      FreeBack(s, s', c, e);
    case _ =>
  }

  lemma BeginBalanced(s: State, s': State, c: nat, a: Action, e: Ptr)
    requires Shape(s) && Enabled(s, c, a) && !a.Run? && s' == Apply(s, c, a)
    ensures Moves(s, s', c) && Balanced(s, s', c, e)
  {
    hide Times;
    TimesNone(e);
    if a.BeginFree? { TimesOne(a.elem, [], e); assert [a.elem] + [] == [a.elem]; }
  }

  // ---- Every step keeps the invariant ----

  lemma CountStep(s: State, s': State, c: nat, a: Action, e: Ptr)
    requires Inv(s) && Enabled(s, c, a) && s' == Apply(s, c, a)
    ensures Moves(s, s', c) && Count(s', e) == if e in s'.live then 1 else 0
  {
    if a.Run? {
      if Allocating(s.cpu[c]) { AllocBalanced(s, s', c, a.fail, e); } else { FreeBalanced(s, s', c, e); }
    } else {
      BeginBalanced(s, s', c, a, e);
    }
    CountNear(s, s', c, e);
    assert Count(s, e) == if e in s.live then 1 else 0;
  }

  lemma StepShape(s: State, s': State, c: nat, a: Action)
    requires Shape(s) && Enabled(s, c, a) && CpuOk(s, c) && s' == Apply(s, c, a) && Moves(s, s', c)
    ensures Shape(s')
  {
    hide AllocStep, FreeStep;
    if a.Run? && Allocating(s.cpu[c]) { AllocShape(s, c, a.fail); } else if a.Run? { FreeShape(s, c); }
  }

  lemma AllocShape(s: State, c: nat, fail: bool)
    requires Shape(s) && c < |s.cpu| && CpuOk(s, c) && Allocating(s.cpu[c])
    ensures Shape(AllocStep(s, c, fail))
  {
  }

  lemma FreeShape(s: State, c: nat)
    requires Shape(s) && c < |s.cpu| && CpuOk(s, c) && !Allocating(s.cpu[c])
    ensures Shape(FreeStep(s, c))
  {
  }

  lemma StepCpuOk(s: State, s': State, c: nat, a: Action)
    requires Shape(s) && Enabled(s, c, a) && CpuOk(s, c) && s' == Apply(s, c, a) && Moves(s, s', c)
    ensures CpuOk(s', c)
  {
    hide AllocStep, FreeStep;
    if a.Run? && Allocating(s.cpu[c]) { AllocCpuOk(s, c, a.fail); } else if a.Run? { FreeCpuOk(s, c); }
  }

  lemma AllocCpuOk(s: State, c: nat, fail: bool)
    requires Shape(s) && c < |s.cpu| && CpuOk(s, c) && Allocating(s.cpu[c])
    ensures var s' := AllocStep(s, c, fail); |s'.cpu| == |s'.localq| == |s.cpu| && CpuOk(s', c)
  {
  }

  lemma FreeCpuOk(s: State, c: nat)
    requires Shape(s) && c < |s.cpu| && CpuOk(s, c) && !Allocating(s.cpu[c])
    ensures var s' := FreeStep(s, c); |s'.cpu| == |s'.localq| == |s.cpu| && CpuOk(s', c)
  {
  }

  lemma StepLive(s: State, s': State, c: nat, a: Action)
    requires Shape(s) && Enabled(s, c, a) && s' == Apply(s, c, a) && forall e :: e in s.live ==> 1 <= e <= s.last
    ensures forall e :: e in s'.live ==> 1 <= e <= s'.last
  {
  }

  lemma ActionKeepsInv(s: State, s': State, c: nat, a: Action)
    requires Inv(s) && Enabled(s, c, a) && s' == Apply(s, c, a)
    ensures Inv(s') && Moves(s, s', c)
  {
    forall e ensures Moves(s, s', c) && Count(s', e) == if e in s'.live then 1 else 0 { CountStep(s, s', c, a, e); }
    CountStep(s, s', c, a, 0);
    StepShape(s, s', c, a);
    StepCpuOk(s, s', c, a);
    StepLive(s, s', c, a);
    OthersOk(s, s', c);
  }

  lemma OthersOk(s: State, s': State, c: nat)
    requires CpusOkAt(s) && Moves(s, s', c) && CpuOk(s', c)
    ensures CpusOkAt(s')
  {
    forall d | 0 <= d < |s'.cpu| ensures CpuOk(s', d) {
      if d != c { assert CpuOk(s, d); }
    }
  }

  ghost predicate CpusOkAt(s: State) {
    |s.cpu| == |s.localq| && CpusOk(s)
  }

  lemma ReachableInv(s: State, n: nat)
    requires Reachable(s, n)
    ensures Inv(s)
  {
    forall a | Init(a) ensures Inv(a) { InitInv(a); }
    forall a, b | Inv(a) && Next(a, b) ensures Inv(b) {
      var c, act :| Enabled(a, c, act) && b == Apply(a, c, act);
      ActionKeepsInv(a, b, c, act);
    }
    Induct(Init, Next, Inv, s, n);
  }

  // ---- Conservation, in every interleaving ----

  /** An element the slab has out is in exactly one place: on a stack, in one queue, with one user, or lost. */
  lemma ExactlyOnePlace(s: State, n: nat, e: Ptr)
    requires Reachable(s, n)
    ensures SumOf(OnStack(e), s.cpu) + SumOf(InQueue(e), s.localq) + Times(s.sharedq, e) + s.held[e] + s.lost[e]
         == if e in s.live then 1 else 0
  {
    ReachableInv(s, n);
    assert Count(s, e) == if e in s.live then 1 else 0;
  }

  // The step of CPU c loses an element: a refill that broke off after j >= 2 of 16 elements has queued j - 1 of them.
  predicate Loses(s: State, c: nat) {
    c < |s.cpu| && s.cpu[c].PushBroken? && |s.cpu[c].elems| >= 2 && |s.sharedq| + |s.cpu[c].elems| - 1 <= s.sharedSize
  }

  /** Such a step loses elems[j - 1], and no other step loses anything. */
  lemma LostIff(s: State, n: nat, c: nat, a: Action)
    requires Reachable(s, n) && Enabled(s, c, a)
    ensures |s.cpu| == |s.localq| == |s.ret|
    ensures var pc, s' := s.cpu[c], Apply(s, c, a);
      s'.lost == if Loses(s, c) then s.lost + multiset{pc.elems[|pc.elems| - 1]} else s.lost
  {
    hide Reachable, Apply, CpusOk, Conserved;
    ReachableInv(s, n);
    LostStep(s, c, a);
  }

  lemma LostStep(s: State, c: nat, a: Action)
    requires Shape(s) && Enabled(s, c, a)
    ensures var pc, s' := s.cpu[c], Apply(s, c, a);
      s'.lost == if Loses(s, c) then s.lost + multiset{pc.elems[|pc.elems| - 1]} else s.lost
  {
    hide AllocStep, FreeStep;
    if a.Run? && Allocating(s.cpu[c]) { AllocLoses(s, c, a.fail); } else if a.Run? { FreeLosesNothing(s, c); }
  }

  lemma AllocLoses(s: State, c: nat, fail: bool)
    requires Shape(s) && c < |s.cpu|
    ensures var pc := s.cpu[c];
      AllocStep(s, c, fail).lost == if Loses(s, c) then s.lost + multiset{pc.elems[|pc.elems| - 1]} else s.lost
  {
  }

  lemma FreeLosesNothing(s: State, c: nat)
    requires Shape(s) && c < |s.cpu|
    ensures FreeStep(s, c).lost == s.lost
  {
  }

  // A run, with the CPU and the action of each step.
  datatype Event = Event(cpu: nat, action: Action)

  ghost predicate Trace(run: seq<State>, ev: seq<Event>) {
    |run| == |ev| + 1 && if ev == [] then Init(run[0]) else
      var n := |ev| - 1;
      && Trace(run[..n + 1], ev[..n]) && |run[n].cpu| == |run[n].localq| == |run[n].ret|
      && Enabled(run[n], ev[n].cpu, ev[n].action) && run[n + 1] == Apply(run[n], ev[n].cpu, ev[n].action)
  }

  // How many steps of the run lose an element.
  function Losses(run: seq<State>, ev: seq<Event>): nat
    requires |run| == |ev| + 1
  {
    if ev == [] then 0 else
      var n := |ev| - 1;
      Losses(run[..n + 1], ev[..n]) + if Loses(run[n], ev[n].cpu) then 1 else 0
  }

  lemma {:induction false} TraceInv(run: seq<State>, ev: seq<Event>)
    requires Trace(run, ev)
    ensures Inv(run[|ev|])
    decreases |ev|
  {
    hide Inv, Init, Enabled, Apply;
    if ev == [] {
      InitInv(run[0]);
    } else {
      var n := |ev| - 1;
      TraceInv(run[..n + 1], ev[..n]);
      ActionKeepsInv(run[n], run[n + 1], ev[n].cpu, ev[n].action);
    }
  }

  /**
   * Over every run, the elements lost are as many as the refills that broke off with j >= 2 elements
   * and queued j - 1 of them.
   */
  lemma {:induction false} LostInRun(run: seq<State>, ev: seq<Event>)
    requires Trace(run, ev)
    ensures |run[|ev|].lost| == Losses(run, ev)
    decreases |ev|
  {
    hide Enabled, Apply, CpusOk, Conserved, Loses;
    if ev != [] {
      var n := |ev| - 1;
      LostInRun(run[..n + 1], ev[..n]);
      TraceInv(run[..n + 1], ev[..n]);
      LostStep(run[n], ev[n].cpu, ev[n].action);
    }
  }

  lemma {:induction false} LossesZeroIff(run: seq<State>, ev: seq<Event>)
    requires |run| == |ev| + 1
    ensures Losses(run, ev) == 0 <==> forall i :: 0 <= i < |ev| ==> !Loses(run[i], ev[i].cpu)
    decreases |ev|
  {
    hide Loses;
    if ev != [] {
      var n := |ev| - 1;
      LossesZeroIff(run[..n + 1], ev[..n]);
      assert forall i :: 0 <= i < n ==> run[..n + 1][i] == run[i] && ev[..n][i] == ev[i];
    }
  }

  /** Nothing is lost in a run exactly when no step of it is such a refill. */
  lemma NothingLostIff(run: seq<State>, ev: seq<Event>)
    requires Trace(run, ev)
    ensures run[|ev|].lost == multiset{} <==> forall i :: 0 <= i < |ev| ==> !Loses(run[i], ev[i].cpu)
  {
    hide Loses, Losses, Init, Enabled, Apply;
    LostInRun(run, ev);
    LossesZeroIff(run, ev);
  }

  /**
   * Which checks can fire, in any interleaving: the one after a refill for which the sharedq has no room,
   * and the one after a refill that breaks off with j <= 1 elements or without room for j - 1.  Never
   * those of the localq, full or empty.
   */
  lemma BugIff(s: State, n: nat, c: nat, a: Action)
    requires Reachable(s, n) && Enabled(s, c, a) && a.Run?
    ensures |s.cpu| == |s.localq| == |s.ret|
    ensures var pc := s.cpu[c];
      IsBug(Apply(s, c, a), c) <==>
        || (pc.Push? && |s.sharedq| + BULK > s.sharedSize)
        || (pc.PushBroken? && (|pc.elems| <= 1 || |s.sharedq| + |pc.elems| - 1 > s.sharedSize))
  {
    assert Shape(s) && CpuOk(s, c) by { ReachableInv(s, n); }
    BugStep(s, c, a.fail);
  }

  predicate IsBug(s: State, c: nat) {
    c < |s.cpu| && s.cpu[c].Bug?
  }

  lemma BugStep(s: State, c: nat, fail: bool)
    requires Shape(s) && c < |s.cpu| && CpuOk(s, c) && !s.cpu[c].Bug? && s.cpu[c] != Idle
    ensures var pc := s.cpu[c];
      IsBug(Apply(s, c, Run(fail)), c) <==>
        || (pc.Push? && |s.sharedq| + BULK > s.sharedSize)
        || (pc.PushBroken? && (|pc.elems| <= 1 || |s.sharedq| + |pc.elems| - 1 > s.sharedSize))
  {
  }

  // Runs in which the slab does not fail inside a refill.
  predicate Unbroken(s: State, c: nat, a: Action) {
    c < |s.cpu| && (a.Run? && a.fail ==> !s.cpu[c].SlabFill?)
  }

  ghost predicate NextUnbroken(s: State, s': State) {
    |s.localq| == |s.cpu| == |s.ret| && exists c, a :: Enabled(s, c, a) && Unbroken(s, c, a) && s' == Apply(s, c, a)
  }

  ghost predicate NoneBroken(s: State) {
    Inv(s) && s.lost == multiset{} && forall c :: 0 <= c < |s.cpu| ==> !s.cpu[c].PushBroken?
  }

  lemma UnbrokenStep(s: State, s': State, c: nat, a: Action)
    requires NoneBroken(s) && Enabled(s, c, a) && Unbroken(s, c, a) && s' == Apply(s, c, a) && Moves(s, s', c)
    ensures s'.lost == multiset{} && forall d :: 0 <= d < |s'.cpu| ==> !s'.cpu[d].PushBroken?
  {
    hide CpusOk, Conserved, AllocStep, FreeStep;
    if a.Run? && Allocating(s.cpu[c]) { UnbrokenAlloc(s, c, a.fail); } else if a.Run? { UnbrokenFree(s, c); }
  }

  lemma UnbrokenAlloc(s: State, c: nat, fail: bool)
    requires c < |s.cpu| == |s.localq| == |s.ret| && Allocating(s.cpu[c]) && !s.cpu[c].PushBroken? && (fail ==> !s.cpu[c].SlabFill?)
    ensures var s' := AllocStep(s, c, fail); s'.lost == s.lost && c < |s'.cpu| && !s'.cpu[c].PushBroken?
  {
  }

  lemma UnbrokenFree(s: State, c: nat)
    requires c < |s.cpu| == |s.localq| == |s.ret| && !s.cpu[c].PushBroken?
    ensures var s' := FreeStep(s, c); s'.lost == s.lost && c < |s'.cpu| && !s'.cpu[c].PushBroken?
  {
  }

  /** When the slab does not fail inside a refill, nothing is ever lost. */
  lemma NothingLost(s: State, n: nat, e: Ptr)
    requires Reach(Init, NextUnbroken, s, n)
    ensures s.lost == multiset{}
    ensures SumOf(OnStack(e), s.cpu) + SumOf(InQueue(e), s.localq) + Times(s.sharedq, e) + s.held[e]
         == if e in s.live then 1 else 0
  {
    forall a | Init(a) ensures NoneBroken(a) { InitInv(a); }
    forall a, b | NoneBroken(a) && NextUnbroken(a, b) ensures NoneBroken(b) {
      var c, act :| Enabled(a, c, act) && Unbroken(a, c, act) && b == Apply(a, c, act);
      ActionKeepsInv(a, b, c, act);
      UnbrokenStep(a, b, c, act);
    }
    Induct(Init, NextUnbroken, NoneBroken, s, n);
    assert Count(s, e) == if e in s.live then 1 else 0;
  }

  // ---- Calls one after another ----

  // A call begins only when no other is under way.
  predicate Serial(s: State, c: nat, a: Action) {
    !a.Run? ==> forall d :: 0 <= d < |s.cpu| ==> s.cpu[d] == Idle
  }

  ghost predicate NextSerial(s: State, s': State) {
    |s.localq| == |s.cpu| == |s.ret| &&
    exists c, a :: Enabled(s, c, a) && Unbroken(s, c, a) && Serial(s, c, a) && s' == Apply(s, c, a)
  }

  // A refill finds the sharedq as the rounds before it have left it.
  ghost predicate RefillOk(s: State, pc: Cpu) {
    && !pc.Bug?
    && (pc.SlabFirst? ==> s.sharedq == [])
    && (pc.SlabFill? ==> |s.sharedq| == BULK * pc.round)
    && (pc.Push? ==> |s.sharedq| == BULK * pc.round)
  }

  ghost predicate OneActive(s: State) {
    && NoneBroken(s)
    && (forall c, d :: 0 <= c < d < |s.cpu| ==> s.cpu[c] == Idle || s.cpu[d] == Idle)
    && (forall c :: 0 <= c < |s.cpu| ==> RefillOk(s, s.cpu[c]))
  }

  lemma SerialOwn(s: State, s': State, c: nat, a: Action)
    requires OneActive(s) && Enabled(s, c, a) && Unbroken(s, c, a) && s' == Apply(s, c, a) && Moves(s, s', c)
    ensures RefillOk(s', s'.cpu[c])
  {
    hide Conserved, AllocStep, FreeStep;
    assert CpuOk(s, c) && RefillOk(s, s.cpu[c]);
    if a.Run? && Allocating(s.cpu[c]) { SerialAlloc(s, c, a.fail); } else if a.Run? { SerialFree(s, c); }
  }

  lemma SerialAlloc(s: State, c: nat, fail: bool)
    requires Shape(s) && c < |s.cpu| && CpuOk(s, c) && RefillOk(s, s.cpu[c]) && Allocating(s.cpu[c])
    requires !s.cpu[c].PushBroken? && (fail ==> !s.cpu[c].SlabFill?)
    ensures RefillOk(AllocStep(s, c, fail), AllocStep(s, c, fail).cpu[c])
  {
  }

  lemma SerialFree(s: State, c: nat)
    requires Shape(s) && c < |s.cpu| && CpuOk(s, c) && RefillOk(s, s.cpu[c]) && !Allocating(s.cpu[c])
    ensures RefillOk(FreeStep(s, c), FreeStep(s, c).cpu[c])
  {
  }

  lemma SerialStep(s: State, s': State, c: nat, a: Action)
    requires OneActive(s) && Enabled(s, c, a) && Unbroken(s, c, a) && Serial(s, c, a) && s' == Apply(s, c, a)
    requires NoneBroken(s') && Moves(s, s', c)
    ensures OneActive(s')
  {
    SerialOwn(s, s', c, a);
    forall d | 0 <= d < |s.cpu| && d != c ensures s'.cpu[d] == Idle && RefillOk(s', s'.cpu[d]) {
      assert s'.cpu[d] == s.cpu[d];
      assert s.cpu[d] == Idle;
    }
  }

  /** Calls from any CPUs, one after another, never run into a BUG, if the slab does not fail inside a refill. */
  lemma SerializedCallsNeverBug(s: State, n: nat, c: nat)
    requires Reach(Init, NextSerial, s, n) && c < |s.cpu|
    ensures !s.cpu[c].Bug?
  {
    forall a | Init(a) ensures OneActive(a) { InitInv(a); }
    forall a, b | OneActive(a) && NextSerial(a, b) ensures OneActive(b) {
      var d, act :| Enabled(a, d, act) && Unbroken(a, d, act) && Serial(a, d, act) && b == Apply(a, d, act);
      ActionKeepsInv(a, b, d, act);
      UnbrokenStep(a, b, d, act);
      SerialStep(a, b, d, act);
    }
    Induct(Init, NextSerial, OneActive, s, n);
  }

  // ---- Destroying the pool ----

  lemma {:induction false} SumOfAppend<T>(f: T -> nat, xs: seq<T>, x: T)
    ensures SumOf(f, xs + [x]) == SumOf(f, xs) + f(x)
  {
    if xs == [] {
      assert xs + [x] == [x];
    } else {
      assert (xs + [x])[1..] == xs[1..] + [x];
      SumOfAppend(f, xs[1..], x);
    }
  }

  lemma {:induction false} FlatCounts(queues: seq<seq<Ptr>>, e: Ptr)
    ensures Times(QmemPools.Flat(queues), e) == SumOf(InQueue(e), queues)
  {
    if queues != [] {
      var n := |queues| - 1;
      FlatCounts(queues[..n], e);
      TimesAppend(QmemPools.Flat(queues[..n]), queues[n], e);
      SumOfAppend(InQueue(e), queues[..n], queues[n]);
      assert queues[..n] + [queues[n]] == queues;
    }
  }

  /**
   * When no call is under way, what qmempool_destroy gives back to the slab, the local queues and then
   * the sharedq, is every live element that no user holds and that is not lost, each once.
   */
  lemma DestroyReturnsEachOnce(s: State, n: nat, e: Ptr)
    requires Reachable(s, n) && forall c :: 0 <= c < |s.cpu| ==> s.cpu[c] == Idle
    ensures Times(QmemPools.Flat(s.localq) + s.sharedq, e) + s.held[e] + s.lost[e] == if e in s.live then 1 else 0
  {
    ReachableInv(s, n);
    TimesAppend(QmemPools.Flat(s.localq), s.sharedq, e);
    FlatCounts(s.localq, e);
    SumZero(OnStack(e), s.cpu);
    assert Count(s, e) == if e in s.live then 1 else 0;
  }
}
