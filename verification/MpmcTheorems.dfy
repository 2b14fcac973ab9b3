/**
 * What the MPMC ring promises in every reachable state, with any number of producers and consumers.
 */
module MpmcTheorems {
  import opened Options
  import opened Runs
  import opened Sums
  import opened Words
  import opened Mpmc
  import opened MpmcInv

  // ---- Safety through the wrap of the indices ----

  /** The four indices never cross, and never more than the capacity is between the outer two. */
  lemma IndicesOrdered(s: State, n: nat)
    requires Reachable(s, n)
    ensures s.prod == Actor(W(s.ph), W(s.pt)) && s.cons == Actor(W(s.ch), W(s.ct))
    ensures s.ct <= s.ch <= s.pt <= s.ph <= s.ct + Cap(s)
    ensures W(s.prod.head - s.cons.tail) == s.ph - s.ct <= Cap(s)
    ensures W(s.prod.tail - s.cons.head) == s.pt - s.ch
  {
    hide Reachable, W;
    ReachableInv(s, n);
    WrappedDistance(s.ph, s.ct);
    WrappedDistance(s.pt, s.ch);
  }

  /** In-flight reservations partition the unpublished ranges: each index has exactly one owner. */
  lemma ReservationsPartition(s: State, n: nat, k: nat)
    requires Reachable(s, n)
    ensures s.pt <= k < s.ph <==> exists t :: InEnq(s, t, k)
    ensures s.ct <= k < s.ch <==> exists t :: InDeq(s, t, k)
    ensures forall t, u :: InEnq(s, t, k) && InEnq(s, u, k) ==> t == u
    ensures forall t, u :: InDeq(s, t, k) && InDeq(s, u, k) ==> t == u
  {
    hide Reachable;
    ReachableInv(s, n);
    assert k in s.pown ==> InEnq(s, s.pown[k], k);
    assert k in s.cown ==> InDeq(s, s.cown[k], k);
    forall t | InEnq(s, t, k) ensures k in s.pown && s.pown[k] == t { EnqOwns(s, t, k); }
    forall t | InDeq(s, t, k) ensures k in s.cown && s.cown[k] == t { DeqOwns(s, t, k); }
  }

  lemma EnqOwns(s: State, t: Tid, k: nat)
    requires Shape(s) && Locals(s) && InEnq(s, t, k)
    ensures k in s.pown && s.pown[k] == t
  {
    assert LocalOk(s, t);
  }

  lemma DeqOwns(s: State, t: Tid, k: nat)
    requires Shape(s) && Locals(s) && InDeq(s, t, k)
    ensures k in s.cown && s.cown[k] == t
  {
    assert LocalOk(s, t);
  }

  // The unbounded index of the slot that thread t's next access stores to or loads from.
  function Target(l: Local): Option<nat> {
    if l.Enq? && l.epc.ECopy? then Some(l.epc.start + l.epc.i)
    else if l.Deq? && l.dpc.DCopy? then Some(l.dpc.start + |l.dpc.got|)
    else None
  }

  // The slot itself, computed as the code does from the u32 head.
  function TargetSlot(size: nat, l: Local): nat
    requires size > 0 && Target(l).Some?
  {
    if l.Enq? then Slot(size, W(l.epc.head + l.epc.i)) else Slot(size, W(l.dpc.head + |l.dpc.got|))
  }

  lemma TargetOwned(s: State, t: Tid)
    requires Shape(s) && t < |s.loc| && LocalOk(s, t) && Target(s.loc[t]).Some?
    ensures var k := Target(s.loc[t]).value;
      && TargetSlot(s.size, s.loc[t]) == Index(s.size, k)
      && (if s.loc[t].Enq? then s.pt <= k < s.ph && k in s.pown && s.pown[k] == t
          else s.ct <= k < s.ch && k in s.cown && s.cown[k] == t)
  {
    hide W, Slot, Index, RingSize;
    if s.loc[t].Enq? {
      SlotOf(s.size, s.loc[t].epc.head, s.loc[t].epc.start, s.loc[t].epc.i);
    } else {
      SlotOf(s.size, s.loc[t].dpc.head, s.loc[t].dpc.start, |s.loc[t].dpc.got|);
    }
  }

  /** No two threads ever access one slot of the ring at a time, neither two sides nor one. */
  lemma SlotsExclusive(s: State, n: nat, t: Tid, u: Tid)
    requires Reachable(s, n) && t < |s.loc| && u < |s.loc| && t != u
    requires Target(s.loc[t]).Some? && Target(s.loc[u]).Some?
    ensures s.size > 0 && TargetSlot(s.size, s.loc[t]) != TargetSlot(s.size, s.loc[u])
  {
    hide Reachable, Slot, W, Index;
    ReachableInv(s, n);
    assert LocalOk(s, t) && LocalOk(s, u);
    TargetOwned(s, t);
    TargetOwned(s, u);
    TargetsDiffer(s, Target(s.loc[t]).value, Target(s.loc[u]).value);
  }

  lemma TargetsDiffer(s: State, j: nat, k: nat)
    requires Shape(s) && s.ct <= j < s.ph && s.ct <= k < s.ph && j != k && s.ph <= s.ct + Cap(s)
    ensures Index(s.size, j) != Index(s.size, k)
  {
    hide Index;
    if j < k { SlotsDiffer(s.size, j, k); } else { SlotsDiffer(s.size, k, j); }
  }

  // ---- Refinement of a FIFO ----

  function Delivered(claims: seq<Claim>): seq<Ptr>
    requires forall i :: 0 <= i < |claims| ==> claims[i].got.Some?
  {
    if claims == [] then [] else Delivered(claims[..|claims| - 1]) + claims[|claims| - 1].got.value
  }

  /**
   * The bulks handed to consumers, concatenated in the order of their exchanges of cons.head, are a
   * prefix of the bulks of the producers, concatenated in the order of their exchanges of prod.head.
   */
  lemma {:induction false} DeliveredIsPrefix(s: State, m: nat)
    requires Claims(s) && m <= |s.claims| && forall i :: 0 <= i < m ==> s.claims[i].got.Some?
    ensures var end := if m == 0 then 0 else s.claims[m - 1].start + s.claims[m - 1].n;
      end <= |s.enq| && Delivered(s.claims[..m]) == s.enq[..end]
    decreases m
  {
    if m > 0 {
      DeliveredIsPrefix(s, m - 1);
      assert s.claims[..m][..m - 1] == s.claims[..m - 1];
      assert ClaimAt(s, m - 1);
      var c := s.claims[m - 1];
      assert m == 1 ==> c.start == 0;
      if m > 1 { ClaimsFollow(s, m - 2, m - 1); }
      NextSlice(s.enq, c.start, c.n);
    }
  }

  lemma NextSlice(q: seq<Ptr>, at: nat, n: nat)
    requires at + n <= |q|
    ensures q[..at] + q[at..at + n] == q[..at + n]
  {
  }

  lemma ClaimsFollow(s: State, i: nat, j: nat)
    requires Claims(s) && j == i + 1 < |s.claims|
    ensures s.claims[j].start == s.claims[i].start + s.claims[i].n
  {
  }

  lemma Fifo(s: State, n: nat, m: nat)
    requires Reachable(s, n) && m <= |s.claims| && forall i :: 0 <= i < m ==> s.claims[i].got.Some?
    ensures Delivered(s.claims[..m]) <= s.enq
    ensures m == |s.claims| ==> s.ch <= |s.enq| && Delivered(s.claims) == s.enq[..s.ch]
  {
    hide Reachable, Delivered;
    ReachableInv(s, n);
    DeliveredIsPrefix(s, m);
    assert s.claims[..|s.claims|] == s.claims;
  }

  /** The bulk a dequeue returns is the one recorded for its claim, and what was enqueued there. */
  lemma DequeueDelivers(s: State, t: Tid, max: nat, mode: Mode, pc: DeqPc)
    requires Inv(s) && t < |s.loc| && s.loc[t] == Deq(max, mode, pc) && pc.DPublish?
    ensures var s' := Step(s, t);
      && s'.ret[t] == Dequeued(pc.got) && s'.loc[t] == Idle && 1 <= |pc.got|
      && pc.claim < |s.claims| && s'.claims == s.claims[pc.claim := Claim(pc.start, |pc.got|, Some(pc.got))]
      && pc.start + |pc.got| <= |s.enq| && pc.got == s.enq[pc.start..pc.start + |pc.got|]
  {
    assert LocalOk(s, t);
  }

  /**
   * An enqueue reports the number of its elements, which are in their places in the enqueue order and in
   * their slots, and become visible to consumers with its last store, not before and not in part.
   */
  lemma EnqueuePublishes(s: State, t: Tid, items: seq<Ptr>, mode: Mode, pc: EnqPc, k: nat)
    requires Inv(s) && t < |s.loc| && s.loc[t] == Enq(items, mode, pc) && pc.EPublish? && k < |items|
    ensures var s' := Step(s, t);
      && s'.ret[t] == Enqueued(|items|, pc.free) && s'.loc[t] == Idle
      && s.pt == pc.start && s'.pt == pc.start + |items| && s'.prod.tail == W(pc.start + |items|)
      && pc.start + |items| <= |s.enq| && s.enq[pc.start..pc.start + |items|] == items
      && Index(s.size, pc.start + k) < |s.ring| && s.ring[Index(s.size, pc.start + k)] == items[k]
  {
    hide W, Index, Slot, RingSize, Locals, Counters, Stored, Owners, Claims, ReservedOk;
    ReservedToPublish(s, t, items, mode, pc);
    ReservedAt(s, t, items, pc.head, pc.start, k);
    WrappedSum(pc.start, |items|);
  }

  lemma ReservedToPublish(s: State, t: Tid, items: seq<Ptr>, mode: Mode, pc: EnqPc)
    requires Shape(s) && Locals(s) && t < |s.loc| && s.loc[t] == Enq(items, mode, pc) && pc.EPublish?
    ensures ReservedOk(s, t, items, pc.head, pc.start, |items|) && pc.head == W(pc.start) && s.pt == pc.start
    ensures pc.start + |items| <= |s.enq| && s.enq[pc.start..pc.start + |items|] == items
  {
    hide W, Index, RingSize;
    assert LocalOk(s, t);
  }

  lemma ReservedAt(s: State, t: Tid, items: seq<Ptr>, head: u32, start: nat, k: nat)
    requires Shape(s) && ReservedOk(s, t, items, head, start, |items|) && k < |items|
    ensures Index(s.size, start + k) < |s.ring| && s.ring[Index(s.size, start + k)] == items[k]
  {
    assert s.enq[start + k] == s.enq[start..start + |items|][k];
  }

  // ---- When an operation is refused ----

  /**
   * Enqueue refuses only if, when it read cons.tail, the slots reserved and not yet released plus the n
   * it wanted exceeded the capacity (Variable: only if none was free).  Otherwise it goes on to reserve all
   * n, or in Variable mode as many as it found room for.  This needs the free space to fit in 32 bits,
   * which is exactly when it is computed right (FreeExactIff).
   */
  lemma EnqueueRefused(s: State, t: Tid, items: seq<Ptr>, mode: Mode, pc: EnqPc)
    requires Inv(s) && t < |s.loc| && s.loc[t] == Enq(items, mode, pc) && pc.ELoadTail?
    requires Cap(s) + s.ct - pc.ghead < TWO32
    ensures var s', room := Step(s, t), Cap(s) + s.ct - pc.ghead;
      if |items| <= room || (mode == Variable && room > 0) then
        var n := if |items| <= room then |items| else room;
        s' == s.(loc := s.loc[t := Enq(items, mode, ECas(pc.head, room, n, pc.ghead, s.ct))])
      else
        && s' == s.(loc := s.loc[t := Idle], ret := s.ret[t := Refused])
        && s.ph - s.ct + |items| > Cap(s) && (mode == Variable ==> s.ph - s.ct == Cap(s))
  {
    hide W, RingSize, Free, Index;
    assert LocalOk(s, t);
    FreeIsExact(s, pc.head, pc.ghead);
  }

  /**
   * Dequeue refuses only if, when it read prod.tail, fewer elements than it needs were unclaimed.  Otherwise
   * it goes on to claim as many as it asked for, or (not Fixed) those there were.
   */
  lemma DequeueRefused(s: State, t: Tid, max: nat, mode: Mode, pc: DeqPc)
    requires Inv(s) && t < |s.loc| && s.loc[t] == Deq(max, mode, pc) && pc.DLoadTail?
    requires s.pt - pc.ghead < TWO32
    ensures var s', n := Step(s, t), s.pt - pc.ghead;
      if n >= max || (mode != Fixed && n > 0) then
        s' == s.(loc := s.loc[t := Deq(max, mode, DCas(pc.head, if n >= max then max else n, pc.ghead))])
      else
        && s' == s.(loc := s.loc[t := Idle], ret := s.ret[t := Refused])
        && s.pt - s.ch < max && (mode != Fixed ==> s.pt == s.ch)
  {
    hide W, RingSize, Entries, Index;
    assert LocalOk(s, t);
    EntriesIsExact(s, pc.head, pc.ghead);
  }

  /** The wrapped free space is the true one exactly when the true one is below 2^32. */
  lemma FreeExactIff(s: State, head: u32, ghead: nat)
    requires Counters(s) && head == W(ghead) && ghead <= s.ph
    ensures Free(s, head) == Cap(s) + s.ct - ghead <==> Cap(s) + s.ct - ghead < TWO32
  {
    hide W;
    WrappedSpace(Cap(s), s.ct, ghead);
    WordExactIff(Cap(s) + s.ct - ghead);
  }

  lemma WordExactIff(x: nat)
    ensures W(x) == x <==> x < TWO32
  {
  }

  /** A cmpxchg takes a head that has moved for one that has not exactly when it moved a multiple of 2^32. */
  lemma CasConfusedIff(now: nat, seen: nat)
    requires seen <= now
    ensures W(now) == W(seen) <==> (now - seen) % TWO32 == 0
  {
  }

  // ---- Progress of the ordered publication ----

  // Accesses left until thread t has published, not counting the spinning.
  function Rank(l: Local): nat {
    if l.Enq? && l.epc.ECopy? then 2 + (if l.epc.i < |l.items| then |l.items| - l.epc.i else 0)
    else if l.Enq? && l.epc.EWait? then 2
    else if l.Enq? && l.epc.EPublish? then 1
    else if l.Deq? && l.dpc.DCopy? then 2 + (if |l.dpc.got| < l.dpc.n then l.dpc.n - |l.dpc.got| else 0)
    else if l.Deq? && l.dpc.DWait? then 2
    else if l.Deq? && l.dpc.DPublish? then 1
    else 0
  }

  function Work(s: State): nat {
    SumOf(Rank, s.loc)
  }

  // Thread t waits for the tail to reach its reservation.
  predicate Blocked(s: State, t: Tid)
    requires t < |s.loc|
  {
    var l := s.loc[t];
    (l.Enq? && l.epc.EWait? && s.prod.tail != l.epc.head) || (l.Deq? && l.dpc.DWait? && s.cons.tail != l.dpc.head)
  }

  /** Every step of a thread that has reserved and does not spin brings the end nearer. */
  lemma StepMakesProgress(s: State, t: Tid)
    requires Inv(s) && t < |s.loc| && Rank(s.loc[t]) > 0
    ensures if Blocked(s, t) then Step(s, t) == s else Work(Step(s, t)) < Work(s)
  {
    hide Step, Rank, Counters, Stored, Owners, Claims;
    var s' := Step(s, t);
    StepLowersRank(s, t);
    if !Blocked(s, t) { SumUpdate(Rank, s.loc, t, s'.loc[t]); }
  }

  ghost predicate Nearer(s: State, s': State, t: Tid) {
    && t < |s.loc| == |s'.loc| && s'.loc == s.loc[t := s'.loc[t]] && Rank(s'.loc[t]) < Rank(s.loc[t])
  }

  lemma StepLowersRank(s: State, t: Tid)
    requires Shape(s) && Locals(s) && t < |s.loc| && Rank(s.loc[t]) > 0
    ensures if Blocked(s, t) then Step(s, t) == s else Nearer(s, Step(s, t), t)
  {
    hide W, Index, Slot, RingSize;
    assert LocalOk(s, t);
    StepInRing(s, t);
    match s.loc[t] {
      case Enq(items, mode, pc) => EnqLowersRank(s, t, items, mode, pc);
      case Deq(max, mode, pc) => DeqLowersRank(s, t, max, mode, pc);
      case Idle =>
    }
  }

  lemma EnqLowersRank(s: State, t: Tid, items: seq<Ptr>, mode: Mode, pc: EnqPc)
    requires Shape(s) && t < |s.loc| && s.loc[t] == Enq(items, mode, pc) && Rank(s.loc[t]) > 0
    requires pc.ECopy? ==> pc.i < |items| && TargetSlot(s.size, s.loc[t]) < |s.ring|
    ensures var s' := EnqStep(s, t, items, mode, pc); if Blocked(s, t) then s' == s else Nearer(s, s', t)
  {
    hide W, Slot, RingSize, Above;
  }

  lemma DeqLowersRank(s: State, t: Tid, max: nat, mode: Mode, pc: DeqPc)
    requires Shape(s) && t < |s.loc| && s.loc[t] == Deq(max, mode, pc) && Rank(s.loc[t]) > 0
    requires pc.DCopy? ==> |pc.got| < pc.n && TargetSlot(s.size, s.loc[t]) < |s.ring|
    ensures var s' := DeqStep(s, t, max, mode, pc); if Blocked(s, t) then s' == s else Nearer(s, s', t)
  {
    hide W, Slot, RingSize, Above;
  }

  lemma StepInRing(s: State, t: Tid)
    requires Shape(s) && t < |s.loc| && LocalOk(s, t)
    ensures Target(s.loc[t]).Some? ==> TargetSlot(s.size, s.loc[t]) < |s.ring|
  {
    if Target(s.loc[t]).Some? { TargetOwned(s, t); }
  }

  /** While reservations are in flight, exactly one producer (consumer) is at the tail, and unblocked. */
  lemma OneIsFirst(s: State, t: Tid, u: Tid)
    requires Inv(s)
    ensures s.pt < s.ph ==> s.pt in s.pown && var f := s.pown[s.pt];
      f < |s.loc| && s.loc[f].Enq? && Reserving(s.loc[f].epc) && s.loc[f].epc.start == s.pt && !Blocked(s, f)
    ensures s.ct < s.ch ==> s.ct in s.cown && var f := s.cown[s.ct];
      f < |s.loc| && s.loc[f].Deq? && Claiming(s.loc[f].dpc) && s.loc[f].dpc.start == s.ct && !Blocked(s, f)
    ensures InEnq(s, t, s.pt) && InEnq(s, u, s.pt) ==> t == u
    ensures InDeq(s, t, s.ct) && InDeq(s, u, s.ct) ==> t == u
  {
    hide W, RingSize, Index;
    if s.pt < s.ph {
      assert InEnq(s, s.pown[s.pt], s.pt);
      assert LocalOk(s, s.pown[s.pt]);
    }
    if s.ct < s.ch {
      assert InDeq(s, s.cown[s.ct], s.ct);
      assert LocalOk(s, s.cown[s.ct]);
    }
    if InEnq(s, t, s.pt) && InEnq(s, u, s.pt) { EnqOwns(s, t, s.pt); EnqOwns(s, u, s.pt); }
    if InDeq(s, t, s.ct) && InDeq(s, u, s.ct) { DeqOwns(s, t, s.ct); DeqOwns(s, u, s.ct); }
  }

  /** As long as anything is unpublished some thread can bring the end nearer: no deadlock. */
  lemma NoDeadlock(s: State) returns (t: Tid)
    requires Inv(s) && Work(s) > 0
    ensures t < |s.loc| && Rank(s.loc[t]) > 0 && Work(Step(s, t)) < Work(s)
  {
    hide Step, W, RingSize, Index;
    t := SumPositive(Rank, s.loc);
    if Blocked(s, t) {
      var l := s.loc[t];
      assert LocalOk(s, t);
      OneIsFirst(s, t, t);
      t := if l.Enq? then s.pown[s.pt] else s.cown[s.ct];
    }
    StepMakesProgress(s, t);
  }

  // ---- One producer or one consumer: alf_sp_enqueue, alf_sc_dequeue and their ring_queue twins ----

  // Steps of a machine in which only thread t ever enqueues (only thread t ever dequeues).
  ghost function OneProducer(t: Tid): (State, State) -> bool {
    (a, b) => Shape(a) && exists u, c ::
      Enabled(a, u, c) && Positive(c) && NoLap(a, u) && (c.BeginEnqueue? ==> u == t) && b == Apply(a, u, c)
  }

  ghost function OneConsumer(t: Tid): (State, State) -> bool {
    (a, b) => Shape(a) && exists u, c ::
      Enabled(a, u, c) && Positive(c) && NoLap(a, u) && (c.BeginDequeue? ==> u == t) && b == Apply(a, u, c)
  }

  // Nobody but t produces, and the head that t has loaded is still current.
  ghost predicate SoleProducer(s: State, t: Tid) {
    && (forall u :: 0 <= u < |s.loc| && u != t ==> !s.loc[u].Enq?)
    && (t < |s.loc| && s.loc[t].Enq? && (s.loc[t].epc.ELoadTail? || s.loc[t].epc.ECas?) ==> s.loc[t].epc.ghead == s.ph)
  }

  ghost predicate SoleConsumer(s: State, t: Tid) {
    && (forall u :: 0 <= u < |s.loc| && u != t ==> !s.loc[u].Deq?)
    && (t < |s.loc| && s.loc[t].Deq? && (s.loc[t].dpc.DLoadTail? || s.loc[t].dpc.DCas?) ==> s.loc[t].dpc.ghead == s.ch)
  }

  ghost predicate EnqFrame(s: State, s': State, u: Tid) {
    && u < |s.loc| == |s'.loc| && (forall v :: 0 <= v < |s.loc| && v != u ==> s'.loc[v] == s.loc[v])
    && (!s.loc[u].Enq? ==> s'.ph == s.ph && !s'.loc[u].Enq?)
    && (s'.loc[u].Enq? && s'.loc[u].epc.ELoadTail? ==> s'.loc[u].epc.ghead == s'.ph)
    && (s'.loc[u].Enq? && s'.loc[u].epc.ECas? ==>
          s.loc[u].Enq? && s.loc[u].epc.ELoadTail? && s'.loc[u].epc.ghead == s.loc[u].epc.ghead && s'.ph == s.ph)
  }

  ghost predicate DeqFrame(s: State, s': State, u: Tid) {
    && u < |s.loc| == |s'.loc| && (forall v :: 0 <= v < |s.loc| && v != u ==> s'.loc[v] == s.loc[v])
    && (!s.loc[u].Deq? ==> s'.ch == s.ch && !s'.loc[u].Deq?)
    && (s'.loc[u].Deq? && s'.loc[u].dpc.DLoadTail? ==> s'.loc[u].dpc.ghead == s'.ch)
    && (s'.loc[u].Deq? && s'.loc[u].dpc.DCas? ==>
          s.loc[u].Deq? && s.loc[u].dpc.DLoadTail? && s'.loc[u].dpc.ghead == s.loc[u].dpc.ghead && s'.ch == s.ch)
  }

  lemma EnqStepFrame(s: State, u: Tid)
    requires Shape(s) && u < |s.loc|
    ensures EnqFrame(s, Step(s, u), u)
  {
    match s.loc[u] {
      case Enq(items, mode, pc) => ProducerFrame(s, u, items, mode, pc);
      case Deq(max, mode, pc) => ConsumerFrame(s, u, max, mode, pc);
      case Idle =>
    }
  }

  lemma DeqStepFrame(s: State, u: Tid)
    requires Shape(s) && u < |s.loc|
    ensures DeqFrame(s, Step(s, u), u)
  {
    match s.loc[u] {
      case Enq(items, mode, pc) => ProducerFrame(s, u, items, mode, pc);
      case Deq(max, mode, pc) => ConsumerFrame(s, u, max, mode, pc);
      case Idle =>
    }
  }

  lemma ProducerFrame(s: State, u: Tid, items: seq<Ptr>, mode: Mode, pc: EnqPc)
    requires Shape(s) && u < |s.loc| && s.loc[u] == Enq(items, mode, pc)
    ensures EnqFrame(s, EnqStep(s, u, items, mode, pc), u) && DeqFrame(s, EnqStep(s, u, items, mode, pc), u)
  {
    hide W, Slot, RingSize, Range, Above, Free, EnqTake;
  }

  lemma ConsumerFrame(s: State, u: Tid, max: nat, mode: Mode, pc: DeqPc)
    requires Shape(s) && u < |s.loc| && s.loc[u] == Deq(max, mode, pc)
    ensures EnqFrame(s, DeqStep(s, u, max, mode, pc), u) && DeqFrame(s, DeqStep(s, u, max, mode, pc), u)
  {
    hide W, Slot, RingSize, Range, Above, Entries, DeqTake;
  }

  lemma SoleProducerStep(a: State, b: State, t: Tid, u: Tid, c: Action)
    requires Shape(a) && Enabled(a, u, c) && (c.BeginEnqueue? ==> u == t) && b == Apply(a, u, c)
    requires SoleProducer(a, t)
    ensures SoleProducer(b, t)
  {
    if c.Run? { EnqStepFrame(a, u); }
  }

  lemma SoleConsumerStep(a: State, b: State, t: Tid, u: Tid, c: Action)
    requires Shape(a) && Enabled(a, u, c) && (c.BeginDequeue? ==> u == t) && b == Apply(a, u, c)
    requires SoleConsumer(a, t)
    ensures SoleConsumer(b, t)
  {
    if c.Run? { DeqStepFrame(a, u); }
  }

  lemma SoleProducerInv(s: State, n: nat, t: Tid)
    requires Reach(Init, OneProducer(t), s, n)
    ensures Inv(s) && SoleProducer(s, t)
  {
    forall a, b | SoleProducerOk(t)(a) && OneProducer(t)(a, b) ensures SoleProducerOk(t)(b) {
      var u, c :| Enabled(a, u, c) && Positive(c) && NoLap(a, u) && (c.BeginEnqueue? ==> u == t) && b == Apply(a, u, c);
      ActionKeepsInv(a, b, u, c);
      SoleProducerStep(a, b, t, u, c);
    }
    forall a | Init(a) ensures SoleProducerOk(t)(a) { InitInv(a); }
    Induct(Init, OneProducer(t), SoleProducerOk(t), s, n);
  }

  ghost function SoleProducerOk(t: Tid): State -> bool {
    s => Inv(s) && SoleProducer(s, t)
  }

  ghost function SoleConsumerOk(t: Tid): State -> bool {
    s => Inv(s) && SoleConsumer(s, t)
  }

  lemma SoleConsumerInv(s: State, n: nat, t: Tid)
    requires Reach(Init, OneConsumer(t), s, n)
    ensures Inv(s) && SoleConsumer(s, t)
  {
    forall a, b | SoleConsumerOk(t)(a) && OneConsumer(t)(a, b) ensures SoleConsumerOk(t)(b) {
      var u, c :| Enabled(a, u, c) && Positive(c) && NoLap(a, u) && (c.BeginDequeue? ==> u == t) && b == Apply(a, u, c);
      ActionKeepsInv(a, b, u, c);
      SoleConsumerStep(a, b, t, u, c);
    }
    forall a | Init(a) ensures SoleConsumerOk(t)(a) { InitInv(a); }
    Induct(Init, OneConsumer(t), SoleConsumerOk(t), s, n);
  }

  /**
   * With one producer the cmpxchg of prod.head always succeeds and the wait for prod.tail is over at
   * once, so a plain store of the head and no wait do the same; and enqueue is refused exactly when the
   * elements not yet released and the n new ones exceed the capacity.
   */
  lemma OneProducerNeedsNoCas(s: State, n: nat, t: Tid, items: seq<Ptr>, mode: Mode, pc: EnqPc)
    requires Reach(Init, OneProducer(t), s, n) && t < |s.loc| && s.loc[t] == Enq(items, mode, pc)
    ensures pc.ECas? ==> s.prod.head == pc.head
    ensures pc.EWait? ==> s.prod.tail == pc.head
    ensures pc.ELoadTail? && mode != Variable ==>
              (EnqTake(mode, |items|, Free(s, pc.head)) == None <==> s.ph - s.ct + |items| > Cap(s))
  {
    hide W, RingSize, Index;
    SoleProducerInv(s, n, t);
    CapIsSmall(s);
    assert LocalOk(s, t);
    if pc.EWait? {
      assert s.pt in s.pown && InEnq(s, s.pown[s.pt], s.pt);
      assert LocalOk(s, s.pown[s.pt]);
    }
    if pc.ELoadTail? { FreeIsExact(s, pc.head, pc.ghead); }
  }

  /** With one consumer likewise; and dequeue finds nothing exactly when nothing is published. */
  lemma OneConsumerNeedsNoCas(s: State, n: nat, t: Tid, max: nat, mode: Mode, pc: DeqPc)
    requires Reach(Init, OneConsumer(t), s, n) && t < |s.loc| && s.loc[t] == Deq(max, mode, pc)
    ensures pc.DCas? ==> s.cons.head == pc.head
    ensures pc.DWait? ==> s.cons.tail == pc.head
    ensures pc.DLoadTail? && mode != Fixed ==> (DeqTake(mode, max, Entries(s, pc.head)) == None <==> s.pt == s.ch)
  {
    hide W, RingSize, Index;
    SoleConsumerInv(s, n, t);
    CapIsSmall(s);
    assert LocalOk(s, t);
    if pc.DWait? {
      assert s.ct in s.cown && InDeq(s, s.cown[s.ct], s.ct);
      assert LocalOk(s, s.cown[s.ct]);
    }
    if pc.DLoadTail? { EntriesIsExact(s, pc.head, pc.ghead); }
  }
}
