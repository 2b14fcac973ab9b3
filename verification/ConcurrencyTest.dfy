/**
 * lib/alf_queue_concurrency_test.c as a closed system over the MPMC queue: any number of producers, which
 * send their serial numbers in bulks of 8 and on a full queue retry or roll back, and one consumer,
 * which checks that every producer's numbers arrive increasing by one.
 */
module ConcurrencyTest {
  import opened Runs
  import opened Words
  import Q = Mpmc
  import MpmcInv

  const BULK := 8 // PRODUCER_BULK and CONSUMER_BULK

  // struct my_data: id in the low half of the word, cnt in the high half.
  function Pack(id: u32, cnt: u32): Ptr {
    id + cnt * TWO32
  }

  function IdOf(raw: Ptr): u32 {
    raw % TWO32
  }

  function CntOf(raw: Ptr): nat {
    raw / TWO32
  }

  datatype Producer = Producer(cnt: u32, objs: seq<Ptr>, busy: bool)

  datatype Phase = Ready | Dequeuing | Checking(got: seq<Ptr>, i: nat) | Failed

  // Producers are threads 0 .. |prods| - 1 of the queue, the consumer is thread |prods|.
  datatype Test = Test(
    q: Q.State,
    prods: seq<Producer>,
    prodCnt: seq<u32>,
    phase: Phase,
    bulkBug: bool,    // BUG_ON(n != PRODUCER_BULK) has fired
    checked: nat      // history: how many elements the consumer has checked
  )

  // objs[k] = data.raw; data.cnt++
  function Packs(id: u32, cnt: u32, n: nat): (r: seq<Ptr>)
    ensures |r| == n
  {
    if n == 0 then [] else Packs(id, cnt, n - 1) + [Pack(id, W(cnt + n - 1))]
  }

  datatype Action =
    | Send(id: nat)      // fill objs, begin to enqueue
    | Retry(id: nat)
    | RollBack(id: nat)
    | Sent(id: nat)
    | Ask                // begin to dequeue
    | Asked
    | Check
    | Queue(t: Q.Tid)    // one access of the queue's code

  predicate Idle(t: Test, tid: nat) {
    tid < |t.q.loc| == |t.q.ret| && t.q.loc[tid] == Q.Idle
  }

  ghost predicate Enabled(t: Test, a: Action) {
    && |t.q.loc| == |t.q.ret| == |t.prods| + 1 && |t.prodCnt| == |t.prods| && RingSize(t.q.size)
    && match a
       case Send(id) => id < |t.prods| && !t.prods[id].busy && Idle(t, id)
       case Retry(id) => id < |t.prods| && t.prods[id].busy && Idle(t, id) && t.q.ret[id] == Q.Refused
       case RollBack(id) => id < |t.prods| && t.prods[id].busy && Idle(t, id) && t.q.ret[id] == Q.Refused
       case Sent(id) => id < |t.prods| && t.prods[id].busy && Idle(t, id) && t.q.ret[id].Enqueued?
       case Ask => t.phase.Ready? && Idle(t, |t.prods|)
       case Asked => t.phase.Dequeuing? && Idle(t, |t.prods|)
       case Check => t.phase.Checking?
       case Queue(u) => Q.Enabled(t.q, u, Q.Run) && Q.NoLap(t.q, u)
  }

  function Predict(cnt: int): u32 {
    W(cnt + 1)
  }

  function CheckOne(t: Test): Test
    requires t.phase.Checking?
  {
    var got, i := t.phase.got, t.phase.i;
    if i >= |got| then t.(phase := Ready)
    else
      var id := IdOf(got[i]);
      if id < |t.prodCnt| && Predict(t.prodCnt[id]) == CntOf(got[i])
      then t.(prodCnt := t.prodCnt[id := W(CntOf(got[i]))], phase := Checking(got, i + 1), checked := t.checked + 1)
      else t.(phase := Failed)
  }

  ghost function Apply(t: Test, a: Action): Test
    requires Enabled(t, a)
  {
    match a
    case Send(id) =>
      var objs := Packs(W(id), t.prods[id].cnt, BULK);
      t.(prods := t.prods[id := Producer(W(t.prods[id].cnt + BULK), objs, true)],
         q := Q.Apply(t.q, id, Q.BeginEnqueue(objs, Q.Alf)))
    case Retry(id) => t.(q := Q.Apply(t.q, id, Q.BeginEnqueue(t.prods[id].objs, Q.Alf)))
    case RollBack(id) => t.(prods := t.prods[id := t.prods[id].(cnt := W(t.prods[id].cnt - BULK), busy := false)])
    case Sent(id) => t.(prods := t.prods[id := t.prods[id].(busy := false)], bulkBug := t.bulkBug || t.q.ret[id].n != BULK)
    case Ask => t.(phase := Dequeuing, q := Q.Apply(t.q, |t.prods|, Q.BeginDequeue(BULK, Q.Alf)))
    case Asked =>
      (match t.q.ret[|t.prods|]
       case Dequeued(got) => t.(phase := Checking(got, 0))
       case _ => t.(phase := Ready))
    case Check => CheckOne(t)
    case Queue(u) => t.(q := Q.Apply(t.q, u, Q.Run))
  }

  // The counters are set before the consumer runs.
  ghost predicate Init(t: Test) {
    && Q.Init(t.q) && |t.q.loc| == |t.prods| + 1 && |t.prodCnt| == |t.prods| < TWO32
    && (forall id :: 0 <= id < |t.prods| ==> t.prods[id].cnt == 0 && !t.prods[id].busy && t.prodCnt[id] == TWO32 - 1)
    && t.phase == Ready && !t.bulkBug && t.checked == 0
  }

  ghost predicate Next(t: Test, t': Test) {
    exists a :: Enabled(t, a) && t' == Apply(t, a)
  }

  ghost predicate Reachable(t: Test, n: nat) {
    Reach(Init, Next, t, n)
  }

  // ---- Serial numbers ----

  /** How many elements of xs come from producer id. */
  function Occ(xs: seq<Ptr>, id: nat): nat {
    if xs == [] then 0 else Occ(xs[..|xs| - 1], id) + (if IdOf(xs[|xs| - 1]) == id then 1 else 0)
  }

  // Every element carries the number of elements its producer has sent before it, modulo 2^32.
  predicate Numbered(xs: seq<Ptr>) {
    xs == [] || (
      var n := |xs| - 1;
      Numbered(xs[..n]) && CntOf(xs[n]) == W(Occ(xs[..n], IdOf(xs[n]))))
  }

  lemma {:induction false} NumberedAt(xs: seq<Ptr>, k: nat)
    requires Numbered(xs) && k < |xs|
    ensures CntOf(xs[k]) == W(Occ(xs[..k], IdOf(xs[k])))
    decreases |xs|
  {
    if k < |xs| - 1 {
      NumberedAt(xs[..|xs| - 1], k);
      assert xs[..|xs| - 1][..k] == xs[..k];
    }
  }

  lemma PackParts(id: u32, cnt: u32)
    ensures IdOf(Pack(id, cnt)) == id && CntOf(Pack(id, cnt)) == cnt
  {
  }

  lemma OccMore(xs: seq<Ptr>, x: Ptr, id: nat)
    ensures Occ(xs + [x], id) == Occ(xs, id) + (if IdOf(x) == id then 1 else 0)
  {
    assert (xs + [x])[..|xs|] == xs;
  }

  lemma NumberedMore(xs: seq<Ptr>, x: Ptr)
    requires Numbered(xs) && CntOf(x) == W(Occ(xs, IdOf(x)))
    ensures Numbered(xs + [x])
  {
    assert (xs + [x])[..|xs|] == xs;
  }

  lemma PacksMore(xs: seq<Ptr>, id: u32, cnt: u32, n: nat)
    requires n > 0
    ensures xs + Packs(id, cnt, n) == (xs + Packs(id, cnt, n - 1)) + [Pack(id, W(cnt + n - 1))]
  {
  }

  lemma {:induction false} BulkCounted(xs: seq<Ptr>, id: u32, cnt: u32, n: nat, other: nat)
    ensures Occ(xs + Packs(id, cnt, n), other) == Occ(xs, other) + (if other == id then n else 0)
    decreases n
  {
    hide W, Packs, Occ, Pack;
    if n == 0 {
      assert xs + [] == xs;
    } else {
      PacksMore(xs, id, cnt, n);
      BulkCounted(xs, id, cnt, n - 1, other);
      PackParts(id, W(cnt + n - 1));
      OccMore(xs + Packs(id, cnt, n - 1), Pack(id, W(cnt + n - 1)), other);
    }
  }

  lemma BulkNext(xs: seq<Ptr>, id: u32, cnt: u32, n: nat)
    requires cnt == W(Occ(xs, id))
    ensures W(cnt + n) == W(Occ(xs + Packs(id, cnt, n), id))
  {
    BulkCounted(xs, id, cnt, n, id);
    WrappedSum(Occ(xs, id), n);
  }

  /** A bulk numbered on from its producer's count keeps the numbering. */
  lemma {:induction false} BulkNumbered(xs: seq<Ptr>, id: u32, cnt: u32, n: nat)
    requires Numbered(xs) && cnt == W(Occ(xs, id))
    ensures Numbered(xs + Packs(id, cnt, n))
    decreases n
  {
    hide W, Packs, Numbered, Occ;
    var all := xs + Packs(id, cnt, n);
    if n == 0 {
      assert all == xs;
    } else {
      BulkNumbered(xs, id, cnt, n - 1);
      BulkNext(xs, id, cnt, n - 1);
      PacksMore(xs, id, cnt, n);
      NextNumber(all, xs + Packs(id, cnt, n - 1), id, W(cnt + n - 1));
    }
  }

  lemma NextNumber(all: seq<Ptr>, xs: seq<Ptr>, id: u32, cnt: u32)
    requires Numbered(xs) && cnt == W(Occ(xs, id)) && all == xs + [Pack(id, cnt)]
    ensures Numbered(all)
  {
    PackParts(id, cnt);
    NumberedMore(xs, Pack(id, cnt));
  }

  // ---- What one access of the queue does, as far as the test is concerned ----

  predicate Reserved(l: Q.Local) {
    l.Enq? && MpmcInv.Reserving(l.epc)
  }

  // Producer u's enqueue of items: it goes on, is refused, reserves all items at once, or returns.
  ghost predicate EnqEffect(s: Q.State, s': Q.State, u: Q.Tid, items: seq<Ptr>) {
    && u < |s.loc| == |s'.loc| == |s.ret| == |s'.ret| && s'.ct == s.ct && s'.size == s.size
    && (forall v :: 0 <= v < |s.loc| && v != u ==> s'.loc[v] == s.loc[v] && s'.ret[v] == s.ret[v])
    && EnqShape(s'.loc[u], items)
    && (if s'.loc[u].Enq? then
          s'.enq == (if Reserved(s'.loc[u]) && !Reserved(s.loc[u]) then s.enq + items else s.enq)
          && (Reserved(s.loc[u]) ==> Reserved(s'.loc[u]))
        else
          s'.enq == s.enq && (if Reserved(s.loc[u]) then s'.ret[u].Enqueued? && s'.ret[u].n == |items| else s'.ret[u] == Q.Refused))
  }

  predicate EnqShape(l: Q.Local, items: seq<Ptr>) {
    l == Q.Idle || (l.Enq? && l.items == items && l.mode == Q.Alf && (l.epc.ECas? ==> l.epc.n == |items|))
  }

  lemma EnqHasEffect(s: Q.State, u: Q.Tid, items: seq<Ptr>)
    requires MpmcInv.Inv(s) && u < |s.loc| && s.loc[u].Enq? && EnqShape(s.loc[u], items)
    ensures EnqEffect(s, Q.Step(s, u), u, items)
  {
    hide EnqEffect, Q.EnqStep, MpmcInv.Counters, MpmcInv.Stored, MpmcInv.Owners, MpmcInv.Locals, MpmcInv.Claims, W, Slot;
    EnqPlace(s, u, items, s.loc[u].epc);
    EnqStepHasEffect(s, u, items, s.loc[u].epc);
  }

  lemma EnqPlace(s: Q.State, u: Q.Tid, items: seq<Ptr>, pc: Q.EnqPc)
    requires Q.Shape(s) && MpmcInv.Locals(s) && u < |s.loc| && s.loc[u] == Q.Enq(items, Q.Alf, pc)
    ensures pc.ECopy? ==> pc.i < |items| && Slot(s.size, W(pc.head + pc.i)) < |s.ring|
  {
    hide W, Slot, Index;
    assert MpmcInv.LocalOk(s, u);
    if pc.ECopy? { MpmcInv.SlotOf(s.size, pc.head, pc.start, pc.i); }
  }

  lemma EnqStepHasEffect(s: Q.State, u: Q.Tid, items: seq<Ptr>, pc: Q.EnqPc)
    requires Q.Shape(s) && u < |s.loc| && s.loc[u] == Q.Enq(items, Q.Alf, pc) && EnqShape(s.loc[u], items)
    requires pc.ECopy? ==> pc.i < |items| && Slot(s.size, W(pc.head + pc.i)) < |s.ring|
    ensures EnqEffect(s, Q.EnqStep(s, u, items, Q.Alf, pc), u, items)
  {
    hide W, Slot, RingSize, Q.Range, Q.Above, Q.Free;
    if pc.ECas? { EnqCasHasEffect(s, u, items, pc); }
  }

  lemma EnqCasHasEffect(s: Q.State, u: Q.Tid, items: seq<Ptr>, pc: Q.EnqPc)
    requires Q.Shape(s) && u < |s.loc| && s.loc[u] == Q.Enq(items, Q.Alf, pc) && EnqShape(s.loc[u], items) && pc.ECas?
    ensures EnqEffect(s, Q.EnqStep(s, u, items, Q.Alf, pc), u, items)
  {
    hide W, Slot, RingSize, Q.Range, Q.Above, Q.Free;
    assert items[..|items|] == items;
  }

  // The consumer's dequeue: it goes on, is refused, or returns the elements released by its last store.
  ghost predicate DeqEffect(s: Q.State, s': Q.State, u: Q.Tid) {
    && u < |s.loc| == |s'.loc| == |s.ret| == |s'.ret| && s'.enq == s.enq && s'.size == s.size
    && (forall v :: 0 <= v < |s.loc| && v != u ==> s'.loc[v] == s.loc[v] && s'.ret[v] == s.ret[v])
    && (if s'.loc[u].Deq? then s'.ct == s.ct && s'.loc[u].max == BULK && s'.loc[u].dmode == Q.Alf
        else
          && s'.loc[u] == Q.Idle
          && match s'.ret[u]
             case Dequeued(got) => s'.ct == s.ct + |got| <= |s.enq| && got == s.enq[s.ct..s.ct + |got|]
             case Refused => s'.ct == s.ct
             case _ => false)
  }

  lemma DeqHasEffect(s: Q.State, u: Q.Tid)
    requires MpmcInv.Inv(s) && u < |s.loc| && s.loc[u].Deq? && s.loc[u].max == BULK && s.loc[u].dmode == Q.Alf
    ensures DeqEffect(s, Q.Step(s, u), u)
  {
    hide DeqEffect, Q.DeqStep, MpmcInv.Counters, MpmcInv.Stored, MpmcInv.Owners, MpmcInv.Locals, MpmcInv.Claims, W, Slot;
    DeqPlace(s, u, s.loc[u].dpc);
    DeqStepHasEffect(s, u, s.loc[u].dpc);
  }

  lemma DeqPlace(s: Q.State, u: Q.Tid, pc: Q.DeqPc)
    requires Q.Shape(s) && MpmcInv.Locals(s) && u < |s.loc| && s.loc[u] == Q.Deq(BULK, Q.Alf, pc)
    ensures pc.DCopy? ==> Slot(s.size, W(pc.head + |pc.got|)) < |s.ring|
    ensures pc.DPublish? ==>
              pc.start == s.ct && s.ct + |pc.got| <= |s.enq| && pc.got == s.enq[s.ct..s.ct + |pc.got|]
  {
    hide W, Slot, Index;
    assert MpmcInv.LocalOk(s, u);
    if pc.DCopy? { MpmcInv.SlotOf(s.size, pc.head, pc.start, |pc.got|); }
  }

  lemma DeqStepHasEffect(s: Q.State, u: Q.Tid, pc: Q.DeqPc)
    requires Q.Shape(s) && u < |s.loc| && s.loc[u] == Q.Deq(BULK, Q.Alf, pc)
    requires pc.DCopy? ==> Slot(s.size, W(pc.head + |pc.got|)) < |s.ring|
    requires pc.DPublish? ==>
               pc.start == s.ct && s.ct + |pc.got| <= |s.enq| && pc.got == s.enq[s.ct..s.ct + |pc.got|]
    ensures DeqEffect(s, Q.DeqStep(s, u, BULK, Q.Alf, pc), u)
  {
    hide W, Slot, RingSize, Q.Range, Q.Above, Q.Entries;
  }

  // ---- The invariant ----

  ghost predicate Sizes(t: Test) {
    && MpmcInv.Inv(t.q) && |t.q.loc| == |t.q.ret| == |t.prods| + 1 && |t.prodCnt| == |t.prods| < TWO32
  }

  // What has been reserved is numbered, and comes from producers that exist.
  ghost predicate EnqOk(enq: seq<Ptr>, producers: nat) {
    Numbered(enq) && forall k :: 0 <= k < |enq| ==> IdOf(enq[k]) < producers
  }

  // Producer id has counted a bulk that is not in the queue.
  predicate Unsent(p: Producer, l: Q.Local, r: Q.Result) {
    p.busy && (if l.Enq? then !Reserved(l) else r == Q.Refused)
  }

  ghost predicate ProdOk(p: Producer, id: u32, l: Q.Local, r: Q.Result, enq: seq<Ptr>) {
    && EnqShape(l, p.objs) && (!p.busy ==> l == Q.Idle) && (p.busy ==> |p.objs| == BULK)
    && (p.busy && l == Q.Idle ==> r == Q.Refused || (r.Enqueued? && r.n == BULK))
    && (if Unsent(p, l, r) then p.objs == Packs(id, W(Occ(enq, id)), BULK) && p.cnt == W(Occ(enq, id) + BULK)
        else p.cnt == W(Occ(enq, id)))
  }

  ghost predicate ProdsOk(t: Test)
    requires |t.q.loc| == |t.q.ret| == |t.prods| + 1 && |t.prods| < TWO32
  {
    forall id :: 0 <= id < |t.prods| ==> ProdOk(t.prods[id], id, t.q.loc[id], t.q.ret[id], t.q.enq)
  }

  // The consumer has checked the first elements, and knows each producer's last number among them.
  ghost predicate CountsOk(prodCnt: seq<u32>, enq: seq<Ptr>, checked: nat) {
    checked <= |enq| && forall id :: 0 <= id < |prodCnt| ==> prodCnt[id] == W(Occ(enq[..checked], id) - 1)
  }

  // What it has dequeued and not checked is what follows.
  ghost predicate PhaseOk(phase: Phase, l: Q.Local, r: Q.Result, enq: seq<Ptr>, checked: nat, ct: nat) {
    match phase
    case Ready => l == Q.Idle && checked == ct
    case Dequeuing =>
      if l.Deq? then l.max == BULK && l.dmode == Q.Alf && checked == ct
      else
        && l == Q.Idle
        && (match r
            case Dequeued(got) => checked + |got| == ct <= |enq| && got == enq[checked..ct]
            case Refused => checked == ct
            case _ => false)
    case Checking(got, i) =>
      && l == Q.Idle && i <= |got| && i <= checked
      && checked - i + |got| == ct <= |enq| && got == enq[checked - i..ct]
    case Failed => false
  }

  ghost predicate ConsOk(t: Test)
    requires |t.q.loc| == |t.q.ret| == |t.prods| + 1
  {
    && !t.bulkBug && CountsOk(t.prodCnt, t.q.enq, t.checked)
    && PhaseOk(t.phase, t.q.loc[|t.prods|], t.q.ret[|t.prods|], t.q.enq, t.checked, t.q.ct)
  }

  ghost predicate Inv(t: Test) {
    Sizes(t) && EnqOk(t.q.enq, |t.prods|) && ProdsOk(t) && ConsOk(t)
  }

  lemma InitInv(t: Test)
    requires Init(t)
    ensures Inv(t)
  {
    MpmcInv.InitInv(t.q);
  }

  // ---- Accesses of the queue ----

  lemma ProdOkLater(p: Producer, id: u32, l: Q.Local, r: Q.Result, enq: seq<Ptr>, more: seq<Ptr>)
    requires ProdOk(p, id, l, r, enq) && Occ(enq + more, id) == Occ(enq, id)
    ensures ProdOk(p, id, l, r, enq + more)
  {
  }

  lemma ConsLater(phase: Phase, l: Q.Local, r: Q.Result, prodCnt: seq<u32>, enq: seq<Ptr>, more: seq<Ptr>, checked: nat, ct: nat)
    requires CountsOk(prodCnt, enq, checked) && PhaseOk(phase, l, r, enq, checked, ct)
    ensures CountsOk(prodCnt, enq + more, checked) && PhaseOk(phase, l, r, enq + more, checked, ct)
  {
    assert (enq + more)[..checked] == enq[..checked];
    if phase.Checking? { assert (enq + more)[checked - phase.i..ct] == enq[checked - phase.i..ct]; }
    if phase.Dequeuing? && !l.Deq? && r.Dequeued? { assert (enq + more)[checked..ct] == enq[checked..ct]; }
  }

  lemma EnqLater(enq: seq<Ptr>, producers: nat, id: u32)
    requires EnqOk(enq, producers) && id < producers
    ensures EnqOk(enq + Packs(id, W(Occ(enq, id)), BULK), producers)
  {
    BulkNumbered(enq, id, W(Occ(enq, id)), BULK);
    PacksFrom(id, W(Occ(enq, id)), BULK);
  }

  lemma {:induction false} PacksFrom(id: u32, cnt: u32, n: nat)
    ensures forall k :: 0 <= k < n ==> IdOf(Packs(id, cnt, n)[k]) == id
  {
    if n > 0 {
      PacksFrom(id, cnt, n - 1);
      PackParts(id, W(cnt + n - 1));
    }
  }

  // A producer's access that does not reserve.
  lemma EnqStepProd(p: Producer, id: u32, s: Q.State, s': Q.State)
    requires id < |s.loc| == |s.ret| && ProdOk(p, id, s.loc[id], s.ret[id], s.enq) && s.loc[id].Enq?
    requires EnqEffect(s, s', id, p.objs) && s'.enq == s.enq && (Reserved(s'.loc[id]) ==> Reserved(s.loc[id]))
    ensures ProdOk(p, id, s'.loc[id], s'.ret[id], s'.enq)
  {
  }

  lemma ReserveStepProd(p: Producer, id: u32, s: Q.State, s': Q.State)
    requires id < |s.loc| == |s.ret| && ProdOk(p, id, s.loc[id], s.ret[id], s.enq) && s.loc[id].Enq?
    requires EnqEffect(s, s', id, p.objs) && Reserved(s'.loc[id]) && !Reserved(s.loc[id])
    ensures ProdOk(p, id, s'.loc[id], s'.ret[id], s'.enq) && s'.enq == s.enq + Packs(id, W(Occ(s.enq, id)), BULK)
  {
    BulkCounted(s.enq, id, W(Occ(s.enq, id)), BULK, id);
  }

  lemma EnqAccess(t: Test, t': Test, u: nat)
    requires Inv(t) && u < |t.prods| && t.q.loc[u].Enq? && t' == t.(q := t'.q) && Sizes(t')
    requires EnqEffect(t.q, t'.q, u, t.prods[u].objs)
    ensures Inv(t')
  {
    hide W, Packs, Occ, EnqOk, MpmcInv.Inv;
    var s, s', n := t.q, t'.q, |t.prods|;
    assert ProdOk(t.prods[u], u, s.loc[u], s.ret[u], s.enq);
    if Reserved(s'.loc[u]) && !Reserved(s.loc[u]) {
      var more := Packs(u, W(Occ(s.enq, u)), BULK);
      ReserveStepProd(t.prods[u], u, s, s');
      EnqLater(s.enq, n, u);
      forall id | 0 <= id < n ensures ProdOk(t.prods[id], id, s'.loc[id], s'.ret[id], s'.enq) {
        if id != u {
          BulkCounted(s.enq, u, W(Occ(s.enq, u)), BULK, id);
          ProdOkLater(t.prods[id], id, s.loc[id], s.ret[id], s.enq, more);
        }
      }
      ConsLater(t.phase, s.loc[n], s.ret[n], t.prodCnt, s.enq, more, t.checked, s.ct);
    } else {
      EnqStepProd(t.prods[u], u, s, s');
      forall id | 0 <= id < n ensures ProdOk(t.prods[id], id, s'.loc[id], s'.ret[id], s'.enq) {
        assert ProdOk(t.prods[id], id, s.loc[id], s.ret[id], s.enq);
      }
    }
  }

  lemma DeqAccess(t: Test, t': Test)
    requires Inv(t) && t.q.loc[|t.prods|].Deq? && t' == t.(q := t'.q) && Sizes(t')
    requires DeqEffect(t.q, t'.q, |t.prods|)
    ensures Inv(t')
  {
    hide MpmcInv.Inv, EnqOk, ProdOk, CountsOk;
    forall id | 0 <= id < |t.prods| ensures ProdOk(t.prods[id], id, t'.q.loc[id], t'.q.ret[id], t'.q.enq) {
      assert ProdOk(t.prods[id], id, t.q.loc[id], t.q.ret[id], t.q.enq);
    }
  }

  // ---- The test's own steps ----

  // Beginning a call changes the place of one thread only.
  ghost predicate Begun(s: Q.State, s': Q.State, u: nat, l: Q.Local) {
    u < |s.loc| && s' == s.(loc := s.loc[u := l])
  }

  lemma BeginOk(s: Q.State, u: nat, a: Q.Action)
    requires MpmcInv.Inv(s) && Q.Enabled(s, u, a) && !a.Run? && Q.Positive(a)
    ensures MpmcInv.Inv(Q.Apply(s, u, a))
    ensures var l := if a.BeginEnqueue? then Q.Enq(a.items, a.mode, Q.ELoadHead) else Q.Deq(a.max, a.mode, Q.DLoadHead);
      Begun(s, Q.Apply(s, u, a), u, l)
  {
    MpmcInv.ActionKeepsInv(s, Q.Apply(s, u, a), u, a);
  }

  lemma SendStep(t: Test, t': Test, id: nat)
    requires Inv(t) && Enabled(t, Send(id)) && t' == Apply(t, Send(id))
    ensures Inv(t')
  {
    hide MpmcInv.Inv, Q.Apply, Packs, W, EnqOk, ConsOk, ProdOk, RingSize;
    var p := t.prods[id];
    assert ProdOk(p, id, t.q.loc[id], t.q.ret[id], t.q.enq);
    SmallWord(id);
    BeginOk(t.q, id, Q.BeginEnqueue(Packs(id, p.cnt, BULK), Q.Alf));
    SendProd(p, id, t.q.loc[id], t.q.ret[id], t.q.enq);
    OthersKept(t, t', id);
  }

  lemma SmallWord(x: u32)
    ensures W(x) == x
  {
  }

  lemma SendProd(p: Producer, id: u32, l: Q.Local, r: Q.Result, enq: seq<Ptr>)
    requires ProdOk(p, id, l, r, enq) && !p.busy
    ensures var objs := Packs(id, p.cnt, BULK);
      ProdOk(Producer(W(p.cnt + BULK), objs, true), id, Q.Enq(objs, Q.Alf, Q.ELoadHead), r, enq)
  {
    hide W, Packs, Occ;
    WrappedSum(Occ(enq, id), BULK);
  }

  // Everything but producer id is as it was.
  lemma OthersKept(t: Test, t': Test, id: nat)
    requires Inv(t) && Sizes(t') && id < |t.prods| && |t'.prods| == |t.prods| && t'.prods == t.prods[id := t'.prods[id]]
    requires t'.q.enq == t.q.enq && t'.q.ct == t.q.ct && t'.q.ret == t.q.ret && t'.q.loc == t.q.loc[id := t'.q.loc[id]]
    requires ProdOk(t'.prods[id], id, t'.q.loc[id], t'.q.ret[id], t'.q.enq)
    requires t'.prodCnt == t.prodCnt && t'.phase == t.phase && t'.bulkBug == t.bulkBug && t'.checked == t.checked
    ensures Inv(t')
  {
    hide MpmcInv.Inv, EnqOk, ProdOk;
    forall d | 0 <= d < |t.prods| ensures ProdOk(t'.prods[d], d, t'.q.loc[d], t'.q.ret[d], t'.q.enq) {
      if d != id { assert ProdOk(t.prods[d], d, t.q.loc[d], t.q.ret[d], t.q.enq); }
    }
  }

  lemma RetryStep(t: Test, t': Test, id: nat)
    requires Inv(t) && Enabled(t, Retry(id)) && t' == Apply(t, Retry(id))
    ensures Inv(t')
  {
    hide MpmcInv.Inv, Packs, W, EnqOk, ConsOk, RingSize;
    assert ProdOk(t.prods[id], id, t.q.loc[id], t.q.ret[id], t.q.enq);
    BeginOk(t.q, id, Q.BeginEnqueue(t.prods[id].objs, Q.Alf));
    assert t'.prods == t.prods[id := t'.prods[id]];
    OthersKept(t, t', id);
  }

  lemma RollBackStep(t: Test, t': Test, id: nat)
    requires Inv(t) && Enabled(t, RollBack(id)) && t' == Apply(t, RollBack(id))
    ensures Inv(t')
  {
    hide MpmcInv.Inv, Packs, W, EnqOk, ConsOk, RingSize;
    assert ProdOk(t.prods[id], id, t.q.loc[id], t.q.ret[id], t.q.enq);
    WrappedSum(Occ(t.q.enq, id) + BULK, -BULK);
    assert t'.q.loc == t.q.loc[id := t'.q.loc[id]];
    OthersKept(t, t', id);
  }

  lemma SentStep(t: Test, t': Test, id: nat)
    requires Inv(t) && Enabled(t, Sent(id)) && t' == Apply(t, Sent(id))
    ensures Inv(t')
  {
    hide MpmcInv.Inv, Packs, W, EnqOk, RingSize;
    assert ProdOk(t.prods[id], id, t.q.loc[id], t.q.ret[id], t.q.enq);
    assert t'.q.loc == t.q.loc[id := t'.q.loc[id]];
    OthersKept(t, t', id);
  }

  // The consumer's steps leave the producers alone.
  lemma ProducersKept(t: Test, t': Test)
    requires Inv(t) && Sizes(t') && t'.prods == t.prods && t'.q.enq == t.q.enq && t'.q.ret == t.q.ret
    requires t'.q.loc == t.q.loc[|t.prods| := t'.q.loc[|t.prods|]] && ConsOk(t')
    ensures Inv(t')
  {
    hide MpmcInv.Inv, EnqOk, ProdOk;
    forall d | 0 <= d < |t.prods| ensures ProdOk(t'.prods[d], d, t'.q.loc[d], t'.q.ret[d], t'.q.enq) {
      assert ProdOk(t.prods[d], d, t.q.loc[d], t.q.ret[d], t.q.enq);
    }
  }

  lemma AskStep(t: Test, t': Test)
    requires Inv(t) && Enabled(t, Ask) && t' == Apply(t, Ask)
    ensures Inv(t')
  {
    hide MpmcInv.Inv, EnqOk, ProdOk, RingSize;
    BeginOk(t.q, |t.prods|, Q.BeginDequeue(BULK, Q.Alf));
    ProducersKept(t, t');
  }

  lemma AskedStep(t: Test, t': Test)
    requires Inv(t) && Enabled(t, Asked) && t' == Apply(t, Asked)
    ensures Inv(t')
  {
    hide MpmcInv.Inv, EnqOk, ProdOk, RingSize;
    assert t'.q.loc == t.q.loc[|t.prods| := t'.q.loc[|t.prods|]];
    ProducersKept(t, t');
  }

  /** The check of one element succeeds, and the counts follow. */
  lemma CheckSucceeds(t: Test)
    requires Inv(t) && t.phase.Checking? && t.phase.i < |t.phase.got|
    ensures var t' := CheckOne(t);
      && t'.phase == Checking(t.phase.got, t.phase.i + 1) && t'.checked == t.checked + 1
      && CountsOk(t'.prodCnt, t.q.enq, t.checked + 1)
  {
    hide MpmcInv.Inv, W, Predict, Occ, Numbered;
    var enq, m := t.q.enq, t.checked;
    var x := t.phase.got[t.phase.i];
    assert x == enq[m];
    var id := IdOf(x);
    NumberedAt(enq, m);
    PredictsNext(Occ(enq[..m], id), t.prodCnt[id]);
    assert enq[..m + 1] == enq[..m] + [x];
    forall d | 0 <= d < |t.prodCnt| ensures CheckOne(t).prodCnt[d] == W(Occ(enq[..m + 1], d) - 1) {
      OccMore(enq[..m], x, d);
    }
  }

  lemma PredictsNext(n: nat, cnt: u32)
    requires cnt == W(n - 1)
    ensures Predict(cnt) == W(n) && W(W(n)) == W(n + 1 - 1)
  {
  }

  lemma CheckStep(t: Test, t': Test)
    requires Inv(t) && Enabled(t, Check) && t' == Apply(t, Check)
    ensures Inv(t')
  {
    hide MpmcInv.Inv, W, EnqOk, CountsOk, ProdsOk, RingSize;
    if t.phase.i < |t.phase.got| { CheckSucceeds(t); }
    assert t'.q.loc == t.q.loc[|t.prods| := t'.q.loc[|t.prods|]];
    ProducersKept(t, t');
  }

  lemma QueueStep(t: Test, t': Test, u: Q.Tid)
    requires Inv(t) && Enabled(t, Queue(u)) && t' == Apply(t, Queue(u))
    ensures Inv(t')
  {
    hide MpmcInv.Inv, Q.Step, EnqOk, CountsOk, W, RingSize;
    MpmcInv.ActionKeepsInv(t.q, t'.q, u, Q.Run);
    if u < |t.prods| {
      assert ProdOk(t.prods[u], u, t.q.loc[u], t.q.ret[u], t.q.enq);
      EnqHasEffect(t.q, u, t.prods[u].objs);
      EnqAccess(t, t', u);
    } else {
      DeqHasEffect(t.q, u);
      DeqAccess(t, t');
    }
  }

  lemma ActionKeepsInv(t: Test, t': Test, a: Action)
    requires Inv(t) && Enabled(t, a) && t' == Apply(t, a)
    ensures Inv(t')
  {
    match a
    case Send(id) => SendStep(t, t', id);
    case Retry(id) => RetryStep(t, t', id);
    case RollBack(id) => RollBackStep(t, t', id);
    case Sent(id) => SentStep(t, t', id);
    case Ask => AskStep(t, t');
    case Asked => AskedStep(t, t');
    case Check => CheckStep(t, t');
    case Queue(u) => QueueStep(t, t', u);
  }

  lemma ReachableInv(t: Test, n: nat)
    requires Reachable(t, n)
    ensures Inv(t)
  {
    forall a | Init(a) ensures Inv(a) { InitInv(a); }
    forall a, b | Inv(a) && Next(a, b) ensures Inv(b) {
      var act :| Enabled(a, act) && b == Apply(a, act);
      ActionKeepsInv(a, b, act);
    }
    Induct(Init, Next, Inv, t, n);
  }

  // ---- What the test promises ----

  /** Neither BUG() is reachable, with any number of producers retrying and rolling back. */
  lemma CheckNeverFails(t: Test, n: nat)
    requires Reachable(t, n)
    ensures t.phase != Failed && !t.bulkBug
  {
    hide Reachable, MpmcInv.Inv, Occ, Numbered, ProdsOk, W;
    ReachableInv(t, n);
  }

  /**
   * Each producer's elements enter the queue numbered 0, 1, 2, ... modulo 2^32, without gap in spite of
   * the bulks rolled back, and the consumer's record of it is its last number checked.
   */
  lemma SerialNumbers(t: Test, n: nat, k: nat, id: nat)
    requires Reachable(t, n) && k < |t.q.enq| && id < |t.prods|
    ensures IdOf(t.q.enq[k]) < |t.prods| && CntOf(t.q.enq[k]) == W(Occ(t.q.enq[..k], IdOf(t.q.enq[k])))
    ensures t.checked <= |t.q.enq| && |t.prodCnt| == |t.prods| && t.prodCnt[id] == W(Occ(t.q.enq[..t.checked], id) - 1)
    ensures t.checked <= t.q.ct
  {
    hide Reachable, MpmcInv.Inv, Occ, Numbered, ProdsOk, W;
    ReachableInv(t, n);
    NumberedAt(t.q.enq, k);
  }

  /** Every element that the queue has handed over is checked, in order, before the next dequeue. */
  lemma AllChecked(t: Test, n: nat)
    requires Reachable(t, n)
    ensures t.phase.Ready? ==> t.checked == t.q.ct
    ensures t.phase.Checking? ==>
              && t.phase.i <= |t.phase.got| && t.checked <= t.q.ct <= |t.q.enq|
              && t.phase.got[t.phase.i..] == t.q.enq[t.checked..t.q.ct]
  {
    hide Reachable, MpmcInv.Inv, Occ, Numbered, ProdsOk, W, CountsOk;
    ReachableInv(t, n);
    if t.phase.Checking? {
      var got, i := t.phase.got, t.phase.i;
      assert got[i..] == t.q.enq[t.checked - i..t.q.ct][i..];
    }
  }

  /** Between its bulks a producer's counter is the number of its elements in the queue's history. */
  lemma CountersAgree(t: Test, n: nat, id: nat)
    requires Reachable(t, n) && id < |t.prods| && !t.prods[id].busy
    ensures t.prods[id].cnt == W(Occ(t.q.enq, id))
  {
    hide Reachable, MpmcInv.Inv, Occ, Numbered, W, CountsOk, PhaseOk;
    ReachableInv(t, n);
    assert ProdOk(t.prods[id], id, t.q.loc[id], t.q.ret[id], t.q.enq);
  }

  // ---- What the checks catch, in any state ----

  /** The two BUG()s: an enqueue that has returned anything but 8, and an element that is not the one predicted. */
  lemma BugsFireIff(t: Test, a: Action)
    requires Enabled(t, a) && !t.bulkBug && !t.phase.Failed?
    ensures Apply(t, a).bulkBug <==> a.Sent? && t.q.ret[a.id].n != 8
    ensures Apply(t, a).phase.Failed? <==>
              && a.Check? && t.phase.i < |t.phase.got|
              && var x := t.phase.got[t.phase.i];
                 IdOf(x) >= |t.prodCnt| || CntOf(x) != (t.prodCnt[IdOf(x)] as int + 1) % 0x1_0000_0000
  {
    hide Q.Apply;
  }

  // The next n checks.
  function Checks(t: Test, n: nat): Test {
    if n == 0 then t
    else
      var p := Checks(t, n - 1);
      if p.phase.Checking? then CheckOne(p) else p
  }

  // Element k of a bulk carries the next number of its producer, given the numbers recorded before the bulk.
  ghost predicate NextInLine(prodCnt: seq<u32>, got: seq<Ptr>, k: nat)
    requires k < |got|
  {
    var id := IdOf(got[k]);
    id < |prodCnt| && CntOf(got[k]) == W(prodCnt[id] + 1 + Occ(got[..k], id))
  }

  // After k checks, none of which has failed, each record has moved on by the producer's elements among them.
  ghost predicate CheckedTo(t: Test, p: Test, got: seq<Ptr>, k: nat) {
    && k <= |got| && p.phase == Checking(got, k) && |p.prodCnt| == |t.prodCnt|
    && forall id :: 0 <= id < |t.prodCnt| ==> p.prodCnt[id] == W(t.prodCnt[id] + Occ(got[..k], id))
  }

  lemma OneCheck(t: Test, p: Test, got: seq<Ptr>, k: nat)
    requires CheckedTo(t, p, got, k) && k < |got|
    ensures if NextInLine(t.prodCnt, got, k) then CheckedTo(t, CheckOne(p), got, k + 1) else CheckOne(p).phase.Failed?
  {
    hide Occ, W;
    var x := got[k];
    assert got[..k + 1] == got[..k] + [x];
    if IdOf(x) < |t.prodCnt| { WrappedSum(t.prodCnt[IdOf(x)] + Occ(got[..k], IdOf(x)), 1); }
    if NextInLine(t.prodCnt, got, k) {
      SameWord(t.prodCnt[IdOf(x)] + 1 + Occ(got[..k], IdOf(x)));
      forall id: nat | id < |t.prodCnt| ensures CheckOne(p).prodCnt[id] == W(t.prodCnt[id] + Occ(got[..k + 1], id)) {
        OccMore(got[..k], x, id);
      }
    }
  }

  lemma SameWord(x: nat)
    ensures W(W(x)) == W(x)
  {
  }

  lemma {:induction false} ChecksTo(t: Test, got: seq<Ptr>, k: nat)
    requires t.phase == Checking(got, 0) && k <= |got|
    ensures if forall i :: 0 <= i < k ==> NextInLine(t.prodCnt, got, i) then CheckedTo(t, Checks(t, k), got, k)
            else Checks(t, k).phase.Failed?
    decreases k
  {
    hide Occ, W, NextInLine, CheckOne;
    if k == 0 {
      NoneChecked(t, got);
    } else {
      ChecksTo(t, got, k - 1);
      if forall i :: 0 <= i < k - 1 ==> NextInLine(t.prodCnt, got, i) { OneCheck(t, Checks(t, k - 1), got, k - 1); }
    }
  }

  lemma NoneChecked(t: Test, got: seq<Ptr>)
    requires t.phase == Checking(got, 0)
    ensures CheckedTo(t, t, got, 0)
  {
  }

  /**
   * Whatever bulk the consumer is handed, its checks fail exactly when some element of it is not the next in
   * line of its producer: nothing lost, doubled or out of order goes unnoticed.
   */
  lemma CheckCatchesIff(t: Test, got: seq<Ptr>)
    requires t.phase == Checking(got, 0)
    ensures Checks(t, |got|).phase.Failed? <==> !(forall i :: 0 <= i < |got| ==> NextInLine(t.prodCnt, got, i))
  {
    hide NextInLine, CheckOne, Checks, CheckedTo;
    ChecksTo(t, got, |got|);
    if CheckedTo(t, Checks(t, |got|), got, |got|) { StillChecking(t, Checks(t, |got|), got, |got|); }
  }

  lemma StillChecking(t: Test, p: Test, got: seq<Ptr>, k: nat)
    requires CheckedTo(t, p, got, k)
    ensures !p.phase.Failed?
  {
  }
}
