/**
 * The invariant of the MPMC ring: unbounded counters behind the wrapping indices, reservations that
 * tile the unpublished index ranges, and slots that keep their element until they are released.
 */
module MpmcInv {
  import opened Options
  import opened Runs
  import opened Words
  import opened Mpmc

  // The u32 indices are the counters modulo 2^32, and the counters never cross.
  ghost predicate Counters(s: State) {
    && s.prod == Actor(W(s.ph), W(s.pt)) && s.cons == Actor(W(s.ch), W(s.ct))
    && s.ct <= s.ch <= s.pt <= s.ph <= s.ct + Cap(s)
    && |s.enq| == s.ph
  }

  // Every published element that has not been released is still in its slot.
  ghost predicate Stored(s: State)
    requires Shape(s)
  {
    forall k :: s.ct <= k < s.pt && k < |s.enq| ==> s.ring[Index(s.size, k)] == s.enq[k]
  }

  // Indices [tail, head) belong to reservations; each belongs to one thread.
  ghost predicate Owners(s: State) {
    EnqOwners(s) && DeqOwners(s)
  }

  ghost predicate EnqOwners(s: State) {
    && (forall k :: k in s.pown <==> s.pt <= k < s.ph)
    && (forall k :: k in s.pown ==> InEnq(s, s.pown[k], k))
  }

  ghost predicate DeqOwners(s: State) {
    && (forall k :: k in s.cown <==> s.ct <= k < s.ch)
    && (forall k :: k in s.cown ==> InDeq(s, s.cown[k], k))
  }

  predicate Reserving(pc: EnqPc) {
    pc.ECopy? || pc.EWait? || pc.EPublish?
  }

  predicate Claiming(pc: DeqPc) {
    pc.DCopy? || pc.DWait? || pc.DPublish?
  }

  function DeqLen(pc: DeqPc): nat {
    if pc.DCopy? || pc.DCas? then pc.n else if pc.DWait? || pc.DPublish? then |pc.got| else 0
  }

  // Index k is in the reservation of producer t.
  ghost predicate InEnq(s: State, t: Tid, k: int) {
    && t < |s.loc| && s.loc[t].Enq? && Reserving(s.loc[t].epc)
    && s.loc[t].epc.start <= k < s.loc[t].epc.start + |s.loc[t].items|
  }

  ghost predicate InDeq(s: State, t: Tid, k: int) {
    && t < |s.loc| && s.loc[t].Deq? && Claiming(s.loc[t].dpc)
    && s.loc[t].dpc.start <= k < s.loc[t].dpc.start + DeqLen(s.loc[t].dpc)
  }

  ghost predicate EnqOk(s: State, t: Tid, items: seq<Ptr>, pc: EnqPc)
    requires Shape(s)
  {
    items != [] &&
    match pc
    case ELoadHead => true
    case ELoadTail(head, ghead) => ghead <= s.ph && head == W(ghead)
    case ECas(head, free, n, ghead, gtail) =>
      && ghead <= s.ph && head == W(ghead) && 1 <= n <= |items| && gtail <= s.ct
      && (ghead == s.ph ==> ghead + n <= gtail + Cap(s) && free == Cap(s) + gtail - ghead)
    case ECopy(head, free, i, start) => i < |items| && ReservedOk(s, t, items, head, start, i)
    case EWait(head, free, start) => ReservedOk(s, t, items, head, start, |items|)
    case EPublish(head, free, start) => ReservedOk(s, t, items, head, start, |items|) && s.pt == start
  }

  // Producer t has reserved [start, start + |items|) and stored the first i of its elements.
  ghost predicate ReservedOk(s: State, t: Tid, items: seq<Ptr>, head: u32, start: nat, i: nat)
    requires Shape(s)
  {
    && head == W(start) && s.pt <= start && start + |items| <= s.ph && i <= |items|
    && start + |items| <= |s.enq| && s.enq[start..start + |items|] == items
    && (forall k :: start <= k < start + |items| ==> k in s.pown && s.pown[k] == t)
    && (forall k :: start <= k < start + i && k < |s.enq| ==> s.ring[Index(s.size, k)] == s.enq[k])
  }

  ghost predicate DeqOk(s: State, t: Tid, max: nat, pc: DeqPc)
    requires Shape(s)
  {
    max > 0 &&
    match pc
    case DLoadHead => true
    case DLoadTail(head, ghead) => ghead <= s.ch && head == W(ghead)
    case DCas(head, n, ghead) => ghead <= s.ch && head == W(ghead) && n >= 1 && (ghead == s.ch ==> ghead + n <= s.pt)
    case DCopy(head, n, got, start, claim) => |got| < n && ClaimOk(s, t, head, start, n, got, claim)
    case DWait(head, got, start, claim) => got != [] && ClaimOk(s, t, head, start, |got|, got, claim)
    case DPublish(head, got, start, claim) =>
      got != [] && ClaimOk(s, t, head, start, |got|, got, claim) && s.ct == start
  }

  // Consumer t has claimed [start, start + n) and loaded the first |got| of its elements.
  ghost predicate ClaimOk(s: State, t: Tid, head: u32, start: nat, n: nat, got: seq<Ptr>, claim: nat) {
    && head == W(start) && s.ct <= start && start + n <= s.ch && |got| <= n
    && start + n <= |s.enq| && got == s.enq[start..start + |got|]
    && (forall k :: start <= k < start + n ==> k in s.cown && s.cown[k] == t)
    && claim < |s.claims| && s.claims[claim] == Claim(start, n, None)
  }

  ghost predicate LocalOk(s: State, t: Tid)
    requires Shape(s) && t < |s.loc|
  {
    match s.loc[t]
    case Idle => true
    case Enq(items, _, pc) => EnqOk(s, t, items, pc)
    case Deq(max, _, pc) => DeqOk(s, t, max, pc)
  }

  ghost predicate Locals(s: State)
    requires Shape(s)
  {
    forall t :: 0 <= t < |s.loc| ==> LocalOk(s, t)
  }

  // The claims follow one another without gap from index 0 to cons.head, and what a finished claim
  // delivered is what was enqueued there.
  ghost predicate ClaimAt(s: State, i: nat)
    requires i < |s.claims|
  {
    var c := s.claims[i];
    && c.start + c.n <= |s.enq|
    && (c.got.Some? ==> c.got.value == s.enq[c.start..c.start + c.n])
  }

  ghost predicate Claims(s: State) {
    && (forall i, j :: 0 <= i && j == i + 1 < |s.claims| ==> s.claims[j].start == s.claims[i].start + s.claims[i].n)
    && (if s.claims == [] then s.ch == 0
        else s.claims[0].start == 0 && s.claims[|s.claims| - 1].start + s.claims[|s.claims| - 1].n == s.ch)
    && (forall i :: 0 <= i < |s.claims| ==> ClaimAt(s, i))
  }

  ghost predicate Inv(s: State) {
    Shape(s) && Counters(s) && Stored(s) && Owners(s) && Locals(s) && Claims(s)
  }

  lemma InitInv(s: State)
    requires Init(s)
    ensures Inv(s)
  {
  }

  // ---- Steps that change nothing but one thread's place: loads, failed cmpxchgs, starts ----

  ghost predicate SameQueue(s: State, s': State) {
    && s'.size == s.size && s'.slack == s.slack && s'.prod == s.prod && s'.cons == s.cons && s'.ring == s.ring
    && s'.ph == s.ph && s'.pt == s.pt && s'.ch == s.ch && s'.ct == s.ct
    && s'.enq == s.enq && s'.claims == s.claims && s'.pown == s.pown && s'.cown == s.cown
  }

  ghost predicate OnlyThread(s: State, s': State, t: Tid) {
    && t < |s.loc| == |s'.loc| == |s'.ret|
    && forall u :: 0 <= u < |s.loc| && u != t ==> s'.loc[u] == s.loc[u]
  }

  // Thread t keeps whatever it has reserved.
  predicate SameHold(l: Local, l': Local) {
    && (l.Enq? && Reserving(l.epc) <==> l'.Enq? && Reserving(l'.epc))
    && (l.Enq? && Reserving(l.epc) ==> l'.items == l.items && l'.epc.start == l.epc.start)
    && (l.Deq? && Claiming(l.dpc) <==> l'.Deq? && Claiming(l'.dpc))
    && (l.Deq? && Claiming(l.dpc) ==> DeqLen(l'.dpc) == DeqLen(l.dpc) && l'.dpc.start == l.dpc.start)
  }

  ghost predicate Moved(s: State, s': State, t: Tid) {
    && SameQueue(s, s') && OnlyThread(s, s', t) && SameHold(s.loc[t], s'.loc[t]) && Shape(s') && LocalOk(s', t)
  }

  lemma MoveKeepsInv(s: State, s': State, t: Tid)
    requires Inv(s) && Moved(s, s', t)
    ensures Inv(s')
  {
    MoveOwners(s, s', t);
    MoveLocals(s, s', t);
    SameClaims(s, s');
  }

  lemma MoveOwners(s: State, s': State, t: Tid)
    requires Owners(s) && OnlyThread(s, s', t) && SameHold(s.loc[t], s'.loc[t])
    requires s'.pown == s.pown && s'.cown == s.cown && s'.ph == s.ph && s'.pt == s.pt && s'.ch == s.ch && s'.ct == s.ct
    ensures Owners(s')
  {
    assert forall k :: k in s.pown ==> InEnq(s, s.pown[k], k) ==> InEnq(s', s.pown[k], k);
    assert forall k :: k in s.cown ==> InDeq(s, s.cown[k], k) ==> InDeq(s', s.cown[k], k);
  }

  lemma SameClaims(s: State, s': State)
    requires Claims(s) && s'.claims == s.claims && s'.enq == s.enq && s'.ch == s.ch
    ensures Claims(s')
  {
    forall i | 0 <= i < |s'.claims| ensures ClaimAt(s', i) { assert ClaimAt(s, i); }
  }

  lemma MoveLocals(s: State, s': State, t: Tid)
    requires Shape(s) && Shape(s') && SameQueue(s, s') && OnlyThread(s, s', t) && Locals(s) && LocalOk(s', t)
    ensures Locals(s')
  {
    hide EnqOk, DeqOk, RingSize;
    forall u | 0 <= u < |s'.loc| ensures LocalOk(s', u) {
      if u != t {
        assert LocalOk(s, u);
        match s.loc[u] {
          case Enq(items, _, pc) => EnqFrame(s, s', u, items, pc);
          case Deq(max, _, pc) => DeqFrame(s, s', u, max, pc);
          case Idle =>
        }
      }
    }
  }

  // ---- What another thread knows survives a step that does not touch it ----

  lemma EnqOwnersFrame(s: State, s': State, t: Tid)
    requires EnqOwners(s) && OnlyThread(s, s', t) && !s.loc[t].Enq?
    requires s'.pown == s.pown && s'.pt == s.pt && s'.ph == s.ph
    ensures EnqOwners(s')
  {
    forall k | k in s'.pown ensures InEnq(s', s'.pown[k], k) { assert InEnq(s, s.pown[k], k); }
  }

  lemma DeqOwnersFrame(s: State, s': State, t: Tid)
    requires DeqOwners(s) && OnlyThread(s, s', t) && !s.loc[t].Deq?
    requires s'.cown == s.cown && s'.ct == s.ct && s'.ch == s.ch
    ensures DeqOwners(s')
  {
    forall k | k in s'.cown ensures InDeq(s', s'.cown[k], k) { assert InDeq(s, s.cown[k], k); }
  }

  lemma EnqFrame(s: State, s': State, u: Tid, items: seq<Ptr>, pc: EnqPc)
    requires Shape(s) && Shape(s') && EnqOk(s, u, items, pc)
    requires s'.size == s.size && s'.slack == s.slack && s'.ring == s.ring && s'.enq == s.enq && s'.pown == s.pown
    requires s'.ph == s.ph && s'.pt == s.pt && s.ct <= s'.ct
    ensures EnqOk(s', u, items, pc)
  {
    hide Index, W, RingSize;
    if Reserving(pc) {
      var i := if pc.ECopy? then pc.i else |items|;
      assert ReservedOk(s, u, items, pc.head, pc.start, i);
      ReservedFrame(s, s', u, items, pc.head, pc.start, i);
    }
  }

  lemma ReservedFrame(s: State, s': State, u: Tid, items: seq<Ptr>, head: u32, start: nat, i: nat)
    requires Shape(s) && Shape(s') && ReservedOk(s, u, items, head, start, i)
    requires s'.size == s.size && s'.ring == s.ring && s'.enq == s.enq && s'.pown == s.pown && s'.ph == s.ph && s'.pt == s.pt
    ensures ReservedOk(s', u, items, head, start, i)
  {
    hide Index, W, RingSize;
  }

  lemma DeqFrame(s: State, s': State, u: Tid, max: nat, pc: DeqPc)
    requires Shape(s) && Shape(s') && DeqOk(s, u, max, pc)
    requires s'.ct == s.ct && s.pt <= s'.pt && s.ch <= s'.ch && s.enq <= s'.enq && s.claims <= s'.claims
    requires forall k :: k in s.cown && k < s.ch ==> k in s'.cown && s'.cown[k] == s.cown[k]
    ensures DeqOk(s', u, max, pc)
  {
    hide Index, W, RingSize;
    if Claiming(pc) {
      ClaimFrame(s, s', u, pc.head, pc.start, DeqLen(pc), pc.got, pc.claim);
    }
  }

  lemma ClaimFrame(s: State, s': State, u: Tid, head: u32, start: nat, n: nat, got: seq<Ptr>, claim: nat)
    requires ClaimOk(s, u, head, start, n, got, claim)
    requires s'.ct == s.ct && s.ch <= s'.ch && s.enq <= s'.enq && s.claims <= s'.claims
    requires forall k :: k in s.cown && k < s.ch ==> k in s'.cown && s'.cown[k] == s.cown[k]
    ensures ClaimOk(s', u, head, start, n, got, claim)
  {
    hide W;
    assert s'.enq[start..start + |got|] == s.enq[start..start + |got|];
  }

  // ---- The cmpxchg of prod.head: a producer reserves [ph, ph + n) ----

  ghost predicate ReservesEnq(s: State, s': State, t: Tid, items: seq<Ptr>, mode: Mode, pc: EnqPc) {
    && Shape(s) && t < |s.loc| && s.loc[t] == Enq(items, mode, pc) && pc.ECas? && 1 <= pc.n <= |items|
    && s.prod.head == pc.head && s' == EnqReserve(s, t, items, mode, pc)
    && pc.head == W(s.ph) && s.ph + pc.n <= s.ct + Cap(s) && Counters(s)
  }

  // The words are equal and fewer than 2^32 elements have passed, so the head has not moved.
  lemma CasSeesSameHead(now: nat, seen: nat)
    requires seen <= now < seen + TWO32 && W(now) == W(seen)
    ensures now == seen
  {
  }

  lemma CasReservesEnq(s: State, t: Tid, items: seq<Ptr>, mode: Mode, pc: EnqPc)
    requires Shape(s) && Counters(s) && t < |s.loc| && s.loc[t] == Enq(items, mode, pc) && pc.ECas? && NoLap(s, t)
    requires EnqOk(s, t, items, pc) && s.prod.head == pc.head
    ensures s.ph == pc.ghead && ReservesEnq(s, EnqReserve(s, t, items, mode, pc), t, items, mode, pc)
  {
    CasSeesSameHead(s.ph, pc.ghead);
  }

  lemma ReserveEnqOther(s: State, s': State, t: Tid, items: seq<Ptr>, mode: Mode, pc: EnqPc, u: Tid)
    requires ReservesEnq(s, s', t, items, mode, pc) && u < |s.loc| && u != t && LocalOk(s, u)
    ensures LocalOk(s', u)
  {
    var l := s.loc[u];
    hide W, Index, RingSize, DeqOk, EnqOk;
    if l.Enq? {
      ReserveEnqOtherEnq(s, s', t, items, mode, pc, u);
    } else if l.Deq? {
      DeqFrame(s, s', u, l.max, l.dpc);
    }
  }

  lemma ReserveEnqOtherEnq(s: State, s': State, t: Tid, items: seq<Ptr>, mode: Mode, pc: EnqPc, u: Tid)
    requires ReservesEnq(s, s', t, items, mode, pc) && u < |s.loc| && u != t && LocalOk(s, u) && s.loc[u].Enq?
    ensures LocalOk(s', u)
  {
    hide W, Index, RingSize;
    var l := s.loc[u];
    if Reserving(l.epc) {
      var i := if l.epc.ECopy? then l.epc.i else |l.items|;
      assert ReservedOk(s, u, l.items, l.epc.head, l.epc.start, i);
      ReserveEnqReserved(s, s', t, items, mode, pc, u, l.items, l.epc.head, l.epc.start, i);
    }
  }

  lemma ReserveEnqReserved(s: State, s': State, t: Tid, items: seq<Ptr>, mode: Mode, pc: EnqPc, u: Tid,
      xs: seq<Ptr>, head: u32, start: nat, i: nat)
    requires ReservesEnq(s, s', t, items, mode, pc) && ReservedOk(s, u, xs, head, start, i)
    ensures ReservedOk(s', u, xs, head, start, i)
  {
    hide W, Index, RingSize;
    assert s'.enq[start..start + |xs|] == s.enq[start..start + |xs|];
  }

  lemma ReserveEnqOwn(s: State, s': State, t: Tid, items: seq<Ptr>, mode: Mode, pc: EnqPc)
    requires ReservesEnq(s, s', t, items, mode, pc)
    ensures LocalOk(s', t)
  {
    assert s'.enq[s.ph..s.ph + pc.n] == items[..pc.n];
  }

  lemma ReserveEnqLocals(s: State, s': State, t: Tid, items: seq<Ptr>, mode: Mode, pc: EnqPc)
    requires ReservesEnq(s, s', t, items, mode, pc) && Locals(s)
    ensures Locals(s')
  {
    forall u | 0 <= u < |s'.loc| ensures LocalOk(s', u) {
      if u == t { ReserveEnqOwn(s, s', t, items, mode, pc); } else { ReserveEnqOther(s, s', t, items, mode, pc, u); }
    }
  }

  lemma ReserveEnqOwners(s: State, s': State, t: Tid, items: seq<Ptr>, mode: Mode, pc: EnqPc)
    requires ReservesEnq(s, s', t, items, mode, pc) && Owners(s)
    ensures Owners(s')
  {
    hide W, RingSize, Cap, InEnq;
    DeqOwnersFrame(s, s', t);
    forall k | k in s'.pown ensures InEnq(s', s'.pown[k], k) { ReserveEnqOwner(s, s', t, items, mode, pc, k); }
  }

  lemma ReserveEnqOwner(s: State, s': State, t: Tid, items: seq<Ptr>, mode: Mode, pc: EnqPc, k: nat)
    requires ReservesEnq(s, s', t, items, mode, pc) && EnqOwners(s) && k in s'.pown
    ensures InEnq(s', s'.pown[k], k)
  {
    hide W, RingSize, Cap;
    if k in s.pown { assert InEnq(s, s.pown[k], k); }
  }

  lemma ReserveEnqClaims(s: State, s': State, t: Tid, items: seq<Ptr>, mode: Mode, pc: EnqPc)
    requires ReservesEnq(s, s', t, items, mode, pc) && Claims(s)
    ensures Claims(s')
  {
    hide W, RingSize;
    forall i | 0 <= i < |s'.claims| ensures ClaimAt(s', i) { assert ClaimAt(s, i); }
  }

  lemma ReserveEnqCounters(s: State, s': State, t: Tid, items: seq<Ptr>, mode: Mode, pc: EnqPc)
    requires ReservesEnq(s, s', t, items, mode, pc) && Stored(s)
    ensures Shape(s') && Counters(s') && Stored(s')
  {
    hide W, RingSize, Index;
    WrappedSum(s.ph, pc.n);
  }

  lemma ReserveEnqKeepsInv(s: State, s': State, t: Tid, items: seq<Ptr>, mode: Mode, pc: EnqPc)
    requires Inv(s) && ReservesEnq(s, s', t, items, mode, pc)
    ensures Inv(s')
  {
    ReserveEnqCounters(s, s', t, items, mode, pc);
    ReserveEnqLocals(s, s', t, items, mode, pc);
    ReserveEnqOwners(s, s', t, items, mode, pc);
    ReserveEnqClaims(s, s', t, items, mode, pc);
  }

  // ---- A producer stores one element ----

  ghost predicate StoresOne(s: State, s': State, t: Tid, k: nat, x: Ptr) {
    && Shape(s) && Shape(s') && OnlyThread(s, s', t) && SameQueue(s, s'.(ring := s.ring)) && Counters(s)
    && s.pt <= k < s.ph && k in s.pown && s.pown[k] == t && s.enq[k] == x
    && s'.ring == s.ring[Index(s.size, k) := x]
  }

  // The masked u32 index of the i-th element after start is the slot of start + i.
  lemma SlotOf(size: nat, head: u32, start: nat, i: nat)
    requires RingSize(size) && head == W(start)
    ensures Slot(size, W(head + i)) == Index(size, start + i)
  {
    SlotIsIndex(size, start + i);
    WrappedSum(start, i);
  }

  lemma StoreStoresOne(s: State, s': State, t: Tid, items: seq<Ptr>, mode: Mode, pc: EnqPc)
    requires Shape(s) && Counters(s) && t < |s.loc| && s.loc[t] == Enq(items, mode, pc) && pc.ECopy?
    requires EnqOk(s, t, items, pc) && s' == EnqStore(s, t, items, mode, pc)
    requires Slot(s.size, W(pc.head + pc.i)) == Index(s.size, pc.start + pc.i)
    ensures StoresOne(s, s', t, pc.start + pc.i, items[pc.i]) && SameHold(s.loc[t], s'.loc[t])
  {
    hide W, RingSize, Index, Slot;
    assert s.enq[pc.start..pc.start + |items|][pc.i] == s.enq[pc.start + pc.i];
  }

  lemma StoreOwn(s: State, s': State, t: Tid, items: seq<Ptr>, mode: Mode, pc: EnqPc)
    requires Shape(s) && Counters(s) && t < |s.loc| && s.loc[t] == Enq(items, mode, pc) && pc.ECopy?
    requires EnqOk(s, t, items, pc) && s' == EnqStore(s, t, items, mode, pc)
    requires StoresOne(s, s', t, pc.start + pc.i, items[pc.i])
    ensures LocalOk(s', t)
  {
    hide W, Index, RingSize, Slot;
    StoreReserved(s, s', t, items, pc.head, pc.start, pc.i);
  }

  lemma StoreReserved(s: State, s': State, t: Tid, items: seq<Ptr>, head: u32, start: nat, i: nat)
    requires i < |items| && StoresOne(s, s', t, start + i, items[i]) && ReservedOk(s, t, items, head, start, i)
    ensures ReservedOk(s', t, items, head, start, i + 1)
  {
    hide W, RingSize, Index;
    forall k | start <= k < start + i + 1 && k < |s.enq| ensures s'.ring[Index(s.size, k)] == s.enq[k] {
      if k < start + i { StoreElsewhere(s, s', t, start + i, items[i], k); }
    }
  }

  // Slots of other live indices are not touched.
  lemma StoreElsewhere(s: State, s': State, t: Tid, k: nat, x: Ptr, j: nat)
    requires StoresOne(s, s', t, k, x) && s.ct <= j < s.ph && j != k
    ensures s'.ring[Index(s.size, j)] == s.ring[Index(s.size, j)]
  {
    if j < k { SlotsDiffer(s.size, j, k); } else { SlotsDiffer(s.size, k, j); }
  }

  lemma StoreOther(s: State, s': State, t: Tid, k: nat, x: Ptr, u: Tid)
    requires StoresOne(s, s', t, k, x) && u < |s.loc| && u != t && LocalOk(s, u)
    ensures LocalOk(s', u)
  {
    hide W, Index, RingSize;
    var l := s.loc[u];
    if l.Deq? {
      hide DeqOk, EnqOk;
      DeqFrame(s, s', u, l.max, l.dpc);
    } else if l.Enq? && Reserving(l.epc) {
      var i := if l.epc.ECopy? then l.epc.i else |l.items|;
      StoreOtherReserved(s, s', t, k, x, u, l.items, l.epc.head, l.epc.start, i);
    }
  }

  lemma StoreOtherReserved(s: State, s': State, t: Tid, k: nat, x: Ptr, u: Tid,
      items: seq<Ptr>, head: u32, start: nat, i: nat)
    requires StoresOne(s, s', t, k, x) && u != t && ReservedOk(s, u, items, head, start, i)
    ensures ReservedOk(s', u, items, head, start, i)
  {
    hide W, Index, RingSize;
    forall j | start <= j < start + i && j < |s.enq| ensures s'.ring[Index(s.size, j)] == s.enq[j] {
      assert s.pown[j] == u;
      StoreElsewhere(s, s', t, k, x, j);
    }
  }

  lemma StoreLocals(s: State, s': State, t: Tid, k: nat, x: Ptr)
    requires StoresOne(s, s', t, k, x) && Locals(s) && LocalOk(s', t)
    ensures Locals(s')
  {
    forall u | 0 <= u < |s'.loc| ensures LocalOk(s', u) {
      if u != t { StoreOther(s, s', t, k, x, u); }
    }
  }

  lemma StoreStored(s: State, s': State, t: Tid, k: nat, x: Ptr)
    requires StoresOne(s, s', t, k, x) && Stored(s)
    ensures Stored(s')
  {
    forall j | s'.ct <= j < s'.pt && j < |s'.enq| ensures s'.ring[Index(s'.size, j)] == s'.enq[j] {
      StoreElsewhere(s, s', t, k, x, j);
    }
  }

  lemma StoreKeepsInv(s: State, s': State, t: Tid, k: nat, x: Ptr)
    requires Inv(s) && StoresOne(s, s', t, k, x) && SameHold(s.loc[t], s'.loc[t]) && LocalOk(s', t)
    ensures Inv(s')
  {
    StoreLocals(s, s', t, k, x);
    StoreStored(s, s', t, k, x);
    MoveOwners(s, s', t);
    SameClaims(s, s');
  }

  // ---- The store of prod.tail: a producer publishes ----

  ghost predicate PublishesEnq(s: State, s': State, t: Tid, items: seq<Ptr>, mode: Mode, pc: EnqPc) {
    && Shape(s) && t < |s.loc| && s.loc[t] == Enq(items, mode, pc) && pc.EPublish? && EnqOk(s, t, items, pc)
    && s' == EnqPublish(s, t, items, pc) && Counters(s)
  }

  // Another reservation starts where t's ends, or later.
  lemma PublishEnqOther(s: State, s': State, t: Tid, items: seq<Ptr>, mode: Mode, pc: EnqPc, u: Tid)
    requires PublishesEnq(s, s', t, items, mode, pc) && u < |s.loc| && u != t && LocalOk(s, u)
    ensures LocalOk(s', u)
  {
    hide W, Index, RingSize;
    var l := s.loc[u];
    if l.Deq? {
      hide DeqOk;
      DeqFrame(s, s', u, l.max, l.dpc);
    } else if l.Enq? && Reserving(l.epc) {
      var i := if l.epc.ECopy? then l.epc.i else |l.items|;
      assert ReservedOk(s, t, items, pc.head, pc.start, |items|);
      PublishEnqReserved(s, s', t, items, mode, pc, u, l.items, l.epc.head, l.epc.start, i);
    }
  }

  lemma PublishEnqReserved(s: State, s': State, t: Tid, items: seq<Ptr>, mode: Mode, pc: EnqPc, u: Tid,
      xs: seq<Ptr>, head: u32, start: nat, i: nat)
    requires PublishesEnq(s, s', t, items, mode, pc) && u != t && xs != [] && ReservedOk(s, u, xs, head, start, i)
    ensures ReservedOk(s', u, xs, head, start, i) && s.pt < start
  {
    hide W, Index, RingSize;
    assert start in s.pown && s.pown[start] == u;
    assert pc.start + |items| <= start;
  }

  lemma PublishEnqLocals(s: State, s': State, t: Tid, items: seq<Ptr>, mode: Mode, pc: EnqPc)
    requires PublishesEnq(s, s', t, items, mode, pc) && Locals(s)
    ensures Locals(s')
  {
    forall u | 0 <= u < |s'.loc| ensures LocalOk(s', u) {
      if u != t { PublishEnqOther(s, s', t, items, mode, pc, u); }
    }
  }

  lemma PublishEnqOwners(s: State, s': State, t: Tid, items: seq<Ptr>, mode: Mode, pc: EnqPc)
    requires PublishesEnq(s, s', t, items, mode, pc) && Owners(s)
    ensures Owners(s')
  {
    hide Index;
    hide W, RingSize;
    DeqOwnersFrame(s, s', t);
    forall k | k in s'.pown ensures InEnq(s', s'.pown[k], k) { assert InEnq(s, s.pown[k], k); }
  }

  lemma PublishEnqCounters(s: State, s': State, t: Tid, items: seq<Ptr>, mode: Mode, pc: EnqPc)
    requires PublishesEnq(s, s', t, items, mode, pc) && Stored(s)
    ensures Shape(s') && Counters(s') && Stored(s')
  {
    hide W, RingSize, Index;
    WrappedSum(pc.start, |items|);
  }

  lemma PublishEnqKeepsInv(s: State, s': State, t: Tid, items: seq<Ptr>, mode: Mode, pc: EnqPc)
    requires Inv(s) && PublishesEnq(s, s', t, items, mode, pc)
    ensures Inv(s')
  {
    PublishEnqCounters(s, s', t, items, mode, pc);
    PublishEnqLocals(s, s', t, items, mode, pc);
    PublishEnqOwners(s, s', t, items, mode, pc);
    SameClaims(s, s');
  }

  lemma StoreSlot(s: State, t: Tid, items: seq<Ptr>, pc: EnqPc)
    requires Shape(s) && pc.ECopy? && EnqOk(s, t, items, pc)
    ensures Slot(s.size, W(pc.head + pc.i)) == Index(s.size, pc.start + pc.i)
  {
    hide RingSize, Slot, W, Index;
    SlotOf(s.size, pc.head, pc.start, pc.i);
  }

  lemma StoreStep(s: State, s': State, t: Tid, items: seq<Ptr>, mode: Mode, pc: EnqPc)
    requires Shape(s) && Counters(s) && t < |s.loc| && s.loc[t] == Enq(items, mode, pc) && pc.ECopy?
    requires EnqOk(s, t, items, pc) && s' == EnqStore(s, t, items, mode, pc)
    ensures StoresOne(s, s', t, pc.start + pc.i, items[pc.i]) && SameHold(s.loc[t], s'.loc[t]) && LocalOk(s', t)
  {
    hide Counters, EnqStore, SameHold, LocalOk, Slot, W, Index, ReservedOk, RingSize;
    StoreSlot(s, t, items, pc);
    StoreStoresOne(s, s', t, items, mode, pc);
    StoreOwn(s, s', t, items, mode, pc);
  }

  lemma StoreStepKeepsInv(s: State, s': State, t: Tid, items: seq<Ptr>, mode: Mode, pc: EnqPc)
    requires Inv(s) && t < |s.loc| && s.loc[t] == Enq(items, mode, pc) && pc.ECopy? && EnqOk(s, t, items, pc)
    requires s' == EnqStore(s, t, items, mode, pc)
    ensures Inv(s')
  {
    hide Counters, Stored, Owners, Locals, Claims, EnqStore, SameHold, StoresOne, LocalOk, ReservedOk;
    StoreStep(s, s', t, items, mode, pc);
    StoreKeepsInv(s, s', t, pc.start + pc.i, items[pc.i]);
  }

  // ---- The cmpxchg of cons.head: a consumer claims [ch, ch + n) ----

  ghost predicate ReservesDeq(s: State, s': State, t: Tid, max: nat, mode: Mode, pc: DeqPc) {
    && Shape(s) && t < |s.loc| && s.loc[t] == Deq(max, mode, pc) && pc.DCas? && 1 <= pc.n && max > 0
    && s.cons.head == pc.head && s' == DeqReserve(s, t, max, mode, pc)
    && pc.head == W(s.ch) && s.ch + pc.n <= s.pt && Counters(s)
  }

  lemma CasReservesDeq(s: State, t: Tid, max: nat, mode: Mode, pc: DeqPc)
    requires Shape(s) && Counters(s) && t < |s.loc| && s.loc[t] == Deq(max, mode, pc) && pc.DCas? && NoLap(s, t)
    requires DeqOk(s, t, max, pc) && s.cons.head == pc.head
    ensures s.ch == pc.ghead && ReservesDeq(s, DeqReserve(s, t, max, mode, pc), t, max, mode, pc)
  {
    CasSeesSameHead(s.ch, pc.ghead);
  }

  lemma ReserveDeqOther(s: State, s': State, t: Tid, max: nat, mode: Mode, pc: DeqPc, u: Tid)
    requires ReservesDeq(s, s', t, max, mode, pc) && u < |s.loc| && u != t && LocalOk(s, u)
    ensures LocalOk(s', u)
  {
    hide W, Index, RingSize, EnqOk, DeqOk;
    var l := s.loc[u];
    if l.Enq? { EnqFrame(s, s', u, l.items, l.epc); } else if l.Deq? { DeqFrame(s, s', u, l.max, l.dpc); }
  }

  lemma ReserveDeqLocals(s: State, s': State, t: Tid, max: nat, mode: Mode, pc: DeqPc)
    requires ReservesDeq(s, s', t, max, mode, pc) && Locals(s)
    ensures Locals(s')
  {
    forall u | 0 <= u < |s'.loc| ensures LocalOk(s', u) {
      if u != t { ReserveDeqOther(s, s', t, max, mode, pc, u); }
    }
  }

  lemma ReserveDeqOwners(s: State, s': State, t: Tid, max: nat, mode: Mode, pc: DeqPc)
    requires ReservesDeq(s, s', t, max, mode, pc) && Owners(s)
    ensures Owners(s')
  {
    hide W, RingSize, Cap, InDeq;
    EnqOwnersFrame(s, s', t);
    forall k | k in s'.cown ensures InDeq(s', s'.cown[k], k) { ReserveDeqOwner(s, s', t, max, mode, pc, k); }
  }

  lemma ReserveDeqOwner(s: State, s': State, t: Tid, max: nat, mode: Mode, pc: DeqPc, k: nat)
    requires ReservesDeq(s, s', t, max, mode, pc) && DeqOwners(s) && k in s'.cown
    ensures InDeq(s', s'.cown[k], k)
  {
    hide W, RingSize, Cap;
    if k in s.cown { assert InDeq(s, s.cown[k], k); }
  }

  lemma ReserveDeqClaims(s: State, s': State, t: Tid, max: nat, mode: Mode, pc: DeqPc)
    requires ReservesDeq(s, s', t, max, mode, pc) && Claims(s)
    ensures Claims(s')
  {
    hide W, RingSize;
    forall i | 0 <= i < |s'.claims| ensures ClaimAt(s', i) {
      if i < |s.claims| { assert ClaimAt(s, i); }
    }
  }

  lemma ReserveDeqCounters(s: State, s': State, t: Tid, max: nat, mode: Mode, pc: DeqPc)
    requires ReservesDeq(s, s', t, max, mode, pc) && Stored(s)
    ensures Shape(s') && Counters(s') && Stored(s')
  {
    hide W, RingSize, Index;
    WrappedSum(s.ch, pc.n);
  }

  lemma ReserveDeqKeepsInv(s: State, s': State, t: Tid, max: nat, mode: Mode, pc: DeqPc)
    requires Inv(s) && ReservesDeq(s, s', t, max, mode, pc)
    ensures Inv(s')
  {
    ReserveDeqCounters(s, s', t, max, mode, pc);
    ReserveDeqLocals(s, s', t, max, mode, pc);
    ReserveDeqOwners(s, s', t, max, mode, pc);
    ReserveDeqClaims(s, s', t, max, mode, pc);
  }

  // ---- A consumer loads one element ----

  lemma LoadsNext(s: State, t: Tid, pc: DeqPc)
    requires Shape(s) && Counters(s) && Stored(s) && pc.DCopy? && |pc.got| < pc.n
    requires ClaimOk(s, t, pc.head, pc.start, pc.n, pc.got, pc.claim)
    ensures ClaimOk(s, t, pc.head, pc.start, pc.n, pc.got + [s.ring[Index(s.size, pc.start + |pc.got|)]], pc.claim)
  {
    var k := pc.start + |pc.got|;
    assert s.ring[Index(s.size, k)] == s.enq[k];
    assert s.enq[pc.start..k + 1] == s.enq[pc.start..k] + [s.enq[k]];
  }

  lemma LoadOwn(s: State, s': State, t: Tid, max: nat, mode: Mode, pc: DeqPc)
    requires Shape(s) && t < |s.loc| && s.loc[t] == Deq(max, mode, pc) && pc.DCopy?
    requires DeqOk(s, t, max, pc) && s' == DeqLoad(s, t, max, mode, pc)
    requires Slot(s.size, W(pc.head + |pc.got|)) == Index(s.size, pc.start + |pc.got|)
    requires ClaimOk(s, t, pc.head, pc.start, pc.n, pc.got + [s.ring[Index(s.size, pc.start + |pc.got|)]], pc.claim)
    ensures Moved(s, s', t)
  {
    hide W, Index, Slot;
  }

  // ---- The store of cons.tail: a consumer releases its slots ----

  ghost predicate PublishesDeq(s: State, s': State, t: Tid, max: nat, mode: Mode, pc: DeqPc) {
    && Shape(s) && t < |s.loc| && s.loc[t] == Deq(max, mode, pc) && pc.DPublish? && DeqOk(s, t, max, pc)
    && s' == DeqPublish(s, t, pc) && Counters(s)
  }

  lemma PublishDeqOther(s: State, s': State, t: Tid, max: nat, mode: Mode, pc: DeqPc, u: Tid)
    requires PublishesDeq(s, s', t, max, mode, pc) && u < |s.loc| && u != t && LocalOk(s, u)
    ensures LocalOk(s', u)
  {
    hide W, Index, RingSize, EnqOk;
    var l := s.loc[u];
    if l.Enq? {
      EnqFrame(s, s', u, l.items, l.epc);
    } else if l.Deq? && Claiming(l.dpc) {
      PublishDeqClaim(s, s', t, max, mode, pc, u, l.dpc.head, l.dpc.start, DeqLen(l.dpc), l.dpc.got, l.dpc.claim);
    }
  }

  lemma PublishDeqClaim(s: State, s': State, t: Tid, max: nat, mode: Mode, pc: DeqPc, u: Tid,
      head: u32, start: nat, n: nat, got: seq<Ptr>, claim: nat)
    requires PublishesDeq(s, s', t, max, mode, pc) && u != t && n > 0 && ClaimOk(s, u, head, start, n, got, claim)
    ensures ClaimOk(s', u, head, start, n, got, claim) && s.ct < start
  {
    hide W, Index, RingSize;
    assert start in s.cown && s.cown[start] == u;
    assert pc.start + |pc.got| <= start;
  }

  lemma PublishDeqLocals(s: State, s': State, t: Tid, max: nat, mode: Mode, pc: DeqPc)
    requires PublishesDeq(s, s', t, max, mode, pc) && Locals(s)
    ensures Locals(s')
  {
    forall u | 0 <= u < |s'.loc| ensures LocalOk(s', u) {
      if u != t { PublishDeqOther(s, s', t, max, mode, pc, u); }
    }
  }

  lemma PublishDeqOwners(s: State, s': State, t: Tid, max: nat, mode: Mode, pc: DeqPc)
    requires PublishesDeq(s, s', t, max, mode, pc) && Owners(s)
    ensures Owners(s')
  {
    hide Index;
    hide W, RingSize;
    EnqOwnersFrame(s, s', t);
    forall k | k in s'.cown ensures InDeq(s', s'.cown[k], k) { assert InDeq(s, s.cown[k], k); }
  }

  lemma PublishDeqClaims(s: State, s': State, t: Tid, max: nat, mode: Mode, pc: DeqPc)
    requires PublishesDeq(s, s', t, max, mode, pc) && Claims(s)
    ensures Claims(s')
  {
    assert s.claims[pc.claim] == Claim(pc.start, |pc.got|, None);
    assert s'.claims == s.claims[pc.claim := Claim(pc.start, |pc.got|, Some(pc.got))] && s'.enq == s.enq && s'.ch == s.ch;
    ClaimDelivered(s, s', pc.claim, Claim(pc.start, |pc.got|, Some(pc.got)));
  }

  lemma ClaimDelivered(s: State, s': State, k: nat, c: Claim)
    requires Claims(s) && k < |s.claims| && s'.claims == s.claims[k := c] && s'.enq == s.enq && s'.ch == s.ch
    requires c.start == s.claims[k].start && c.n == s.claims[k].n
    requires c.start + c.n <= |s.enq| && c.got == Some(s.enq[c.start..c.start + c.n])
    ensures Claims(s')
  {
    forall i | 0 <= i < |s'.claims| ensures ClaimAt(s', i) { assert ClaimAt(s, i); }
  }

  lemma PublishDeqCounters(s: State, s': State, t: Tid, max: nat, mode: Mode, pc: DeqPc)
    requires PublishesDeq(s, s', t, max, mode, pc) && Stored(s)
    ensures Shape(s') && Counters(s') && Stored(s')
  {
    hide W, RingSize, Index;
    WrappedSum(pc.start, |pc.got|);
  }

  lemma PublishDeqKeepsInv(s: State, s': State, t: Tid, max: nat, mode: Mode, pc: DeqPc)
    requires Inv(s) && PublishesDeq(s, s', t, max, mode, pc)
    ensures Inv(s')
  {
    PublishDeqCounters(s, s', t, max, mode, pc);
    PublishDeqLocals(s, s', t, max, mode, pc);
    PublishDeqOwners(s, s', t, max, mode, pc);
    PublishDeqClaims(s, s', t, max, mode, pc);
  }

  // ---- Every step ----

  // A reservation starts less than 2^32 after the tail, so equal words mean equal counters.
  lemma TailIsStart(tail: nat, start: nat, head: nat)
    requires tail <= start <= head < tail + TWO32
    ensures W(tail) == W(start) ==> tail == start
  {
  }

  lemma EnqWaitOk(s: State, s': State, t: Tid, items: seq<Ptr>, mode: Mode, pc: EnqPc)
    requires Shape(s) && Counters(s) && t < |s.loc| && s.loc[t] == Enq(items, mode, pc) && EnqOk(s, t, items, pc)
    requires s' == EnqStep(s, t, items, mode, pc) && pc.EWait?
    ensures Moved(s, s', t)
  {
    TailIsStart(s.pt, pc.start, s.ph);
    hide W, RingSize, Index;
    assert ReservedOk(s', t, items, pc.head, pc.start, |items|);
  }

  lemma EnqTakeFits(mode: Mode, n: nat, free: nat)
    requires n > 0
    ensures EnqTake(mode, n, free).Some? ==> 1 <= EnqTake(mode, n, free).value <= free && EnqTake(mode, n, free).value <= n
  {
  }

  lemma DeqTakeFits(mode: Mode, n: nat, entries: nat)
    requires n > 0
    ensures DeqTake(mode, n, entries).Some? ==> 1 <= DeqTake(mode, n, entries).value <= entries
  {
  }

  lemma CapIsSmall(s: State)
    requires Shape(s)
    ensures 0 <= Cap(s) < TWO32
  {
  }

  lemma EnqTailOk(s: State, s': State, t: Tid, items: seq<Ptr>, mode: Mode, pc: EnqPc)
    requires Shape(s) && Counters(s) && t < |s.loc| && s.loc[t] == Enq(items, mode, pc) && EnqOk(s, t, items, pc)
    requires s' == EnqStep(s, t, items, mode, pc) && pc.ELoadTail?
    ensures Moved(s, s', t)
  {
    hide W, Free, RingSize, EnqTake;
    CapIsSmall(s);
    EnqTakeFits(mode, |items|, Free(s, pc.head));
    if pc.ghead == s.ph { FreeIsExact(s, pc.head, pc.ghead); }
  }

  /** The wrapped free-space computation is exact while it stays below 2^32. */
  lemma FreeIsExact(s: State, head: u32, ghead: nat)
    requires Counters(s) && head == W(ghead) && 0 <= Cap(s) + s.ct - ghead < TWO32
    ensures Free(s, head) == Cap(s) + s.ct - ghead
  {
    assert W(Cap(s) + s.ct - ghead) == Cap(s) + s.ct - ghead;
    hide W;
    WrappedSpace(Cap(s), s.ct, ghead);
  }

  lemma EnqStartOk(s: State, s': State, t: Tid, items: seq<Ptr>, mode: Mode, pc: EnqPc)
    requires Shape(s) && Counters(s) && t < |s.loc| && s.loc[t] == Enq(items, mode, pc) && EnqOk(s, t, items, pc)
    requires s' == EnqStep(s, t, items, mode, pc) && (pc.ELoadHead? || (pc.ECas? && s.prod.head != pc.head))
    ensures Moved(s, s', t)
  {
  }

  lemma EnqStepKeepsInv(s: State, s': State, t: Tid, items: seq<Ptr>, mode: Mode, pc: EnqPc)
    requires Inv(s) && t < |s.loc| && s.loc[t] == Enq(items, mode, pc) && EnqOk(s, t, items, pc) && NoLap(s, t)
    requires s' == EnqStep(s, t, items, mode, pc)
    ensures Inv(s')
  {
    if pc.ECopy? {
      StoreStepKeepsInv(s, s', t, items, mode, pc);
    } else if pc.EPublish? {
      PublishEnqKeepsInv(s, s', t, items, mode, pc);
    } else if pc.ECas? && s.prod.head == pc.head {
      CasReservesEnq(s, t, items, mode, pc);
      ReserveEnqKeepsInv(s, s', t, items, mode, pc);
    } else {
      if pc.EWait? {
        EnqWaitOk(s, s', t, items, mode, pc);
      } else if pc.ELoadTail? {
        EnqTailOk(s, s', t, items, mode, pc);
      } else {
        EnqStartOk(s, s', t, items, mode, pc);
      }
      MoveKeepsInv(s, s', t);
    }
  }

  lemma DeqWaitOk(s: State, s': State, t: Tid, max: nat, mode: Mode, pc: DeqPc)
    requires Shape(s) && Counters(s) && t < |s.loc| && s.loc[t] == Deq(max, mode, pc) && DeqOk(s, t, max, pc)
    requires s' == DeqStep(s, t, max, mode, pc) && pc.DWait?
    ensures Moved(s, s', t)
  {
    TailIsStart(s.ct, pc.start, s.ch);
    hide W, RingSize, Index;
  }

  lemma EntriesIsExact(s: State, head: u32, ghead: nat)
    requires Counters(s) && head == W(ghead) && 0 <= s.pt - ghead < TWO32
    ensures Entries(s, head) == s.pt - ghead
  {
    hide W;
    WrappedDistance(s.pt, ghead);
  }

  lemma DeqTailOk(s: State, s': State, t: Tid, max: nat, mode: Mode, pc: DeqPc)
    requires Shape(s) && Counters(s) && t < |s.loc| && s.loc[t] == Deq(max, mode, pc) && DeqOk(s, t, max, pc)
    requires s' == DeqStep(s, t, max, mode, pc) && pc.DLoadTail?
    ensures Moved(s, s', t)
  {
    hide W, RingSize, Entries, DeqTake;
    CapIsSmall(s);
    DeqTakeFits(mode, max, Entries(s, pc.head));
    if pc.ghead == s.ch { EntriesIsExact(s, pc.head, pc.ghead); }
  }

  lemma DeqStartOk(s: State, s': State, t: Tid, max: nat, mode: Mode, pc: DeqPc)
    requires Shape(s) && Counters(s) && t < |s.loc| && s.loc[t] == Deq(max, mode, pc) && DeqOk(s, t, max, pc)
    requires s' == DeqStep(s, t, max, mode, pc) && (pc.DLoadHead? || (pc.DCas? && s.cons.head != pc.head))
    ensures Moved(s, s', t)
  {
  }

  lemma DeqMoves(s: State, s': State, t: Tid, max: nat, mode: Mode, pc: DeqPc)
    requires Inv(s) && t < |s.loc| && s.loc[t] == Deq(max, mode, pc) && DeqOk(s, t, max, pc)
    requires s' == DeqStep(s, t, max, mode, pc) && !pc.DPublish? && (pc.DCas? ==> s.cons.head != pc.head)
    ensures Moved(s, s', t)
  {
    hide Counters, Stored, Owners, Locals, Claims, Moved, Index, Slot, RingSize;
    if pc.DCopy? {
      SlotOf(s.size, pc.head, pc.start, |pc.got|);
      LoadsNext(s, t, pc);
      LoadOwn(s, s', t, max, mode, pc);
    } else if pc.DWait? {
      DeqWaitOk(s, s', t, max, mode, pc);
    } else if pc.DLoadTail? {
      DeqTailOk(s, s', t, max, mode, pc);
    } else {
      DeqStartOk(s, s', t, max, mode, pc);
    }
  }

  lemma DeqStepKeepsInv(s: State, s': State, t: Tid, max: nat, mode: Mode, pc: DeqPc)
    requires Inv(s) && t < |s.loc| && s.loc[t] == Deq(max, mode, pc) && DeqOk(s, t, max, pc) && NoLap(s, t)
    requires s' == DeqStep(s, t, max, mode, pc)
    ensures Inv(s')
  {
    if pc.DPublish? {
      PublishDeqKeepsInv(s, s', t, max, mode, pc);
    } else if pc.DCas? && s.cons.head == pc.head {
      CasReservesDeq(s, t, max, mode, pc);
      ReserveDeqKeepsInv(s, s', t, max, mode, pc);
    } else {
      DeqMoves(s, s', t, max, mode, pc);
      MoveKeepsInv(s, s', t);
    }
  }

  lemma BeginMoved(s: State, s': State, t: Tid, a: Action)
    requires Shape(s) && Enabled(s, t, a) && !a.Run? && Positive(a) && s' == Apply(s, t, a)
    ensures Moved(s, s', t)
  {
  }

  lemma ActionKeepsInv(s: State, s': State, t: Tid, a: Action)
    requires Inv(s) && Enabled(s, t, a) && Positive(a) && NoLap(s, t) && s' == Apply(s, t, a)
    ensures Inv(s')
  {
    if !a.Run? {
      BeginMoved(s, s', t, a);
      MoveKeepsInv(s, s', t);
    } else {
      assert LocalOk(s, t);
      match s.loc[t] {
        case Enq(items, mode, pc) => EnqStepKeepsInv(s, s', t, items, mode, pc);
        case Deq(max, mode, pc) => DeqStepKeepsInv(s, s', t, max, mode, pc);
        case Idle =>
      }
    }
  }

  lemma NextKeepsInv(s: State, s': State)
    requires Inv(s) && Next(s, s')
    ensures Inv(s')
  {
    var t, a :| Enabled(s, t, a) && Positive(a) && NoLap(s, t) && s' == Apply(s, t, a);
    ActionKeepsInv(s, s', t, a);
  }

  lemma ReachableInv(s: State, n: nat)
    requires Reachable(s, n)
    ensures Inv(s)
  {
    forall a | Init(a) ensures Inv(a) { InitInv(a); }
    forall a, b | Inv(a) && Next(a, b) ensures Inv(b) { NextKeepsInv(a, b); }
    Induct(Init, Next, Inv, s, n);
  }
}
