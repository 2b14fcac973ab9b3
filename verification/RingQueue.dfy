/**
 * The calls of include/linux/ring_queue.h on a queue that no other thread is using, over the real ring
 * and 32-bit indices, with their return codes and the watermark.  Concurrent calls are the subject of
 * module Mpmc; what depends on the snapshot such a call works on is stated here for every snapshot.
 */
module RingQueues {
  import opened Options
  import opened Words
  import opened RingCopy
  import opened Mpmc
  import MpmcInv
  import opened AlfQueues

  const SZ_MASK := 0x0fff_ffff
  const ENOENT := 2
  const ENOBUFS := 105
  const EDQUOT := 122

  // The int that holds n with RING_QUEUE_QUOT_EXCEED, bit 31, set.
  function QuotExceed(n: nat): int {
    n - 0x8000_0000
  }

  // ---- The watermark ----

  // (mask + 1) - free_entries + n > watermark, in u32 arithmetic
  predicate OverWatermark(size: nat, free: u32, n: nat, watermark: nat) {
    W(size - free + n) > watermark
  }

  /**
   * The signal is raised exactly when the occupancy seen by the snapshot, plus the n elements, reaches
   * the watermark; so with the default watermark, the size, it never is.
   */
  lemma SignalIff(size: nat, free: u32, n: nat, watermark: nat)
    requires RingSize(size) && n <= free < size
    ensures OverWatermark(size, free, n, watermark) <==> (size - 1 - free) + n >= watermark
    ensures watermark == size ==> !OverWatermark(size, free, n, watermark)
  {
    assert W(size - free + n) == size - free + n;
  }

  /** In any interleaving: the snapshot of a reservation that succeeds counts what is not yet released. */
  lemma SignalOfReservation(s: State, t: Tid, items: seq<Ptr>, mode: Mode, pc: EnqPc, watermark: nat)
    requires MpmcInv.Inv(s) && s.slack == 1 && t < |s.loc| && s.loc[t] == Enq(items, mode, pc) && pc.ECas?
    requires NoLap(s, t) && s.prod.head == pc.head
    ensures pc.n <= pc.free && pc.gtail <= s.ct
    ensures OverWatermark(s.size, pc.free, pc.n, watermark) <==> s.ph + pc.n - pc.gtail >= watermark
    ensures watermark == s.size ==> !OverWatermark(s.size, pc.free, pc.n, watermark)
  {
    assert MpmcInv.LocalOk(s, t);
    MpmcInv.CasSeesSameHead(s.ph, pc.ghead);
    SignalIff(s.size, pc.free, pc.n, watermark);
  }

  // ---- Counting ----

  predicate FullAt(size: nat, prodTail: u32, consTail: u32)
    requires size > 0
  {
    BitAnd(W(consTail - prodTail - 1), size - 1) == 0
  }

  function CountAt(size: nat, prodTail: u32, consTail: u32): nat
    requires size > 0
  {
    BitAnd(W(prodTail - consTail), size - 1)
  }

  function FreeCountAt(size: nat, prodTail: u32, consTail: u32): nat
    requires size > 0
  {
    BitAnd(W(consTail - prodTail - 1), size - 1)
  }

  /** For any two words, also when the difference has wrapped: the counts add up to what the ring can hold. */
  lemma CountsAddUp(size: nat, prodTail: u32, consTail: u32)
    requires RingSize(size)
    ensures CountAt(size, prodTail, consTail) + FreeCountAt(size, prodTail, consTail) == size - 1
    ensures FullAt(size, prodTail, consTail) <==> CountAt(size, prodTail, consTail) == size - 1
    ensures W(prodTail - consTail) < size ==>
              && CountAt(size, prodTail, consTail) == W(prodTail - consTail)
              && (prodTail == consTail <==> CountAt(size, prodTail, consTail) == 0)
  {
    hide W, BitAnd, RingSize;
    var used := W(prodTail - consTail);
    WordComplement(prodTail, consTail);
    ComplementSlot(size, used);
    SizeIsSmall(size);
    if used < size {
      SlotOfSmall(size, used);
      WordsEqualIff(prodTail, consTail);
    }
  }

  lemma WordsEqualIff(p: u32, c: u32)
    ensures p == c <==> W(p - c) == 0
  {
  }

  lemma WordComplement(p: u32, c: u32)
    ensures W(c - p - 1) == TWO32 - 1 - W(p - c)
  {
  }

  lemma ComplementSlot(size: nat, x: u32)
    requires RingSize(size)
    ensures Slot(size, x) + Slot(size, TWO32 - 1 - x) == size - 1
  {
    var y: u32 := TWO32 - 1 - x;
    SlotIsRem(size, x);
    SlotIsRem(size, y);
    SizeDivides(size);
    Complement(size, x, y, TWO32);
  }

  lemma Complement(m: nat, x: nat, y: nat, total: nat)
    requires m > 0 && x + y == total - 1 && total % m == 0
    ensures x % m + y % m == m - 1
  {
    var q := total / m - 1 - x / m;
    assert total == (total / m) * m && x == (x / m) * m + x % m;
    assert q * m == (total / m) * m - m - (x / m) * m;
    ModUnique(y, m, q, m - 1 - x % m);
  }

  lemma SlotIsRem(size: nat, x: u32)
    requires RingSize(size)
    ensures Slot(size, x) == x % size
  {
    SlotOfWord(size, x);
    SlotIsIndex(size, x);
    IndexIsMod(size, x);
  }

  lemma SizeDivides(size: nat)
    requires RingSize(size)
    ensures TWO32 % size == 0
  {
    PowerOf2Test(size);
    var k: nat :| IsPow2(size, k);
    if k > 32 { Pow2Grows(32, k); Pow2Thirty2(); }
    Pow2Divides(k, 32);
    Pow2Thirty2();
    ModUnique(TWO32, size, Pow2(32 - k), 0);
  }

  /**
   * At any moment of any interleaving the count is the number of elements published and not yet
   * released; when no dequeue is under way that is the length of the queue.
   */
  lemma CountIsExact(s: State)
    requires MpmcInv.Inv(s) && s.slack == 1
    ensures CountAt(s.size, s.prod.tail, s.cons.tail) == s.pt - s.ct
    ensures FreeCountAt(s.size, s.prod.tail, s.cons.tail) == s.size - 1 - (s.pt - s.ct)
    ensures FullAt(s.size, s.prod.tail, s.cons.tail) <==> s.pt - s.ct == s.size - 1
    ensures s.prod.tail == s.cons.tail <==> s.pt == s.ct
  {
    WrappedDistance(s.pt, s.ct);
    CountsAddUp(s.size, s.prod.tail, s.cons.tail);
  }

  // ---- The queue ----

  datatype Behavior = FIXED | VARIABLE

  function AsMode(behavior: Behavior): Mode {
    if behavior == FIXED then Mpmc.Fixed else Mpmc.Variable
  }

  // What an enqueue of n elements returns.
  function CodeOf(signal: bool, n: nat, behavior: Behavior): int {
    if signal then (if behavior == FIXED then -EDQUOT else QuotExceed(n))
    else if behavior == FIXED then 0 else n
  }

  class RingQueue {
    const size: nat
    const ring: array<Ptr>
    const spEnqueue: bool
    const scDequeue: bool
    var watermark: nat
    var prod: Actor
    var cons: Actor

    // No call is under way, and the indices are less than a ring apart.
    ghost predicate Valid()
      reads this
    {
      && RingSize(size) && ring.Length == size && 1 <= watermark <= size
      && prod.head == prod.tail && cons.head == cons.tail
      && W(prod.tail - cons.tail) < size
    }

    ghost function Contents(): (s: seq<Ptr>)
      requires Valid()
      reads this, ring
      ensures |s| < size
    {
      Loaded(ring[..], cons.tail, W(prod.tail - cons.tail))
    }

    constructor (count: u32, spEnqueue: bool, scDequeue: bool)
      ensures size == count && watermark == count && fresh(ring)
      ensures RingSize(count) ==> Valid() && Contents() == []
      ensures this.spEnqueue == spEnqueue && this.scDequeue == scDequeue
    {
      size, ring, watermark := count, new Ptr[count](i => NULL), count;
      this.spEnqueue, this.scDequeue := spEnqueue, scDequeue;
      prod, cons := Actor(0, 0), Actor(0, 0);
    }

    // A watermark below the size; 0 stands for the size, which disables the signal.
    method SetWaterMark(count: nat) returns (err: int)
      requires Valid()
      modifies this`watermark
      ensures Valid() && Contents() == old(Contents())
      ensures err == if count >= size then -EINVAL else 0
      ensures watermark == if count >= size then old(watermark) else if count == 0 then size else count
    {
      if count >= size { return -EINVAL; }
      watermark := if count == 0 then size else count;
      err := 0;
    }

    // How many of n elements the reservation takes when it sees `free` free slots, or why it takes none.
    static function Take(n: nat, free: nat, behavior: Behavior): Option<nat> {
      EnqTake(AsMode(behavior), n, free)
    }

    // The cmpxchg loop, with nobody else changing prod.head.
    method ReserveEnqueue(max: nat, behavior: Behavior) returns (take: Option<nat>, prodHead: u32, free: u32)
      modifies this`prod
      ensures prodHead == old(prod.head) && free == W(size - 1 + cons.tail - prodHead)
      ensures take == Take(max, free, behavior)
      ensures prod == if take == None then old(prod) else old(prod).(head := W(prodHead + take.value))
    {
      var success := false;
      take, prodHead, free := None, prod.head, W(size - 1 + cons.tail - prod.head);
      while !success
        invariant prodHead == old(prod.head) && free == W(size - 1 + cons.tail - prodHead)
        invariant success ==> take == Take(max, free, behavior) && take != None
        invariant prod == if success then old(prod).(head := W(prodHead + take.value)) else old(prod)
        decreases !success
      {
        prodHead := prod.head;
        free := W(size - 1 + cons.tail - prodHead);
        var n := max;
        if n > free {
          if behavior == FIXED || free == 0 { return None, prodHead, free; }
          n := free;
        }
        take := Some(n);
        success := prod.head == prodHead;
        if success { prod := prod.(head := W(prodHead + n)); }
      }
    }

    /**
     * FIXED enqueues all or nothing, VARIABLE what fits; the code says so, and whether the occupancy has
     * reached the watermark.
     */
    method MpDoEnqueue(objTable: seq<Ptr>, behavior: Behavior) returns (ret: int)
      requires Valid() && |objTable| < TWO32
      modifies this`prod, ring
      ensures Valid()
      ensures Enqueued(old(Contents()), Contents(), objTable, behavior, ret)
    {
      hide W, Loaded, RingSize, OverWatermark;
      ghost var c := Contents();
      EnqueueSnapshot(size, prod.head, cons.tail);
      var take, prodHead, free := ReserveEnqueue(|objTable|, behavior);
      if take == None { return if behavior == FIXED then -ENOBUFS else 0; }
      ret := Store(prodHead, free, objTable[..take.value], behavior);
      assert |c| == size - 1 - free;
    }

    // What both enqueues do once prod.head has been moved.
    method Store(prodHead: u32, free: u32, objs: seq<Ptr>, behavior: Behavior) returns (ret: int)
      requires RingSize(size) && ring.Length == size && 1 <= watermark <= size && cons.head == cons.tail
      requires prod == Actor(W(prodHead + |objs|), prodHead) && |objs| <= free < size
      requires W(prodHead - cons.tail) == size - 1 - free
      modifies this`prod, ring
      ensures Valid() && Contents() == Loaded(old(ring[..]), cons.tail, size - 1 - free) + objs
      ensures ret == CodeOf(size - 1 - free + |objs| >= watermark, |objs|, behavior)
    {
      ret := ReturnCode(free, |objs|, behavior);
      StoreAndPublish(prodHead, size - 1 - free, objs);
    }

    // No other enqueue precedes this one: the wait for prod.tail ends at once.
    method StoreAndPublish(prodHead: u32, ghost held: nat, objs: seq<Ptr>)
      requires RingSize(size) && ring.Length == size && 1 <= watermark <= size && cons.head == cons.tail
      requires prod == Actor(W(prodHead + |objs|), prodHead) && W(prodHead - cons.tail) == held && held + |objs| < size
      modifies this`prod, ring
      ensures Valid() && Contents() == Loaded(old(ring[..]), cons.tail, held) + objs
    {
      hide W, Stored, Loaded, RingSize;
      ghost var now := Stored(ring[..], prodHead, objs);
      AfterStore(ring[..], prodHead, cons.tail, objs, held);
      StoreTablePtrs(prodHead, ring, objs);
      assert ring[..] == now;
      prod := prod.(tail := prod.head);
    }

    method ReturnCode(free: u32, n: nat, behavior: Behavior) returns (ret: int)
      requires RingSize(size) && 1 <= watermark <= size && n <= free < size
      ensures ret == CodeOf(size - 1 - free + n >= watermark, n, behavior)
    {
      SignalIff(size, free, n, watermark);
      if OverWatermark(size, free, n, watermark) {
        ret := if behavior == FIXED then -EDQUOT else QuotExceed(n);
      } else {
        ret := if behavior == FIXED then 0 else n;
      }
    }

    method SpDoEnqueue(objTable: seq<Ptr>, behavior: Behavior) returns (ret: int)
      requires Valid() && |objTable| < TWO32
      modifies this`prod, ring
      ensures Valid()
      ensures Enqueued(old(Contents()), Contents(), objTable, behavior, ret)
    {
      hide W, Loaded, RingSize, OverWatermark;
      ghost var c := Contents();
      EnqueueSnapshot(size, prod.head, cons.tail);
      var prodHead := prod.head;
      var free := W(size - 1 + cons.tail - prodHead);
      var n := |objTable|;
      if n > free {
        if behavior == FIXED { return -ENOBUFS; }
        if free == 0 { return 0; }
        n := free;
      }
      prod := prod.(head := W(prodHead + n));
      ret := Store(prodHead, free, objTable[..n], behavior);
      assert |c| == size - 1 - free;
    }

    /**
     * The outcome of an enqueue of objTable on a queue that held `was` and then holds `now`.  FIXED: all or
     * nothing, and 0, or -EDQUOT (122) when that has reached the watermark, or -ENOBUFS (105).  VARIABLE: what
     * fits, and how many that is, with bit 31 set when it has reached the watermark; 0 on a full ring.
     */
    ghost predicate Enqueued(was: seq<Ptr>, now: seq<Ptr>, objTable: seq<Ptr>, behavior: Behavior, ret: int)
      reads this`watermark
    {
      var room, n := size - 1 - |was|, |now| - |was|;
      && 0 <= n <= |objTable| && now == was + objTable[..n]
      && match behavior
         case FIXED =>
           if |objTable| <= room then n == |objTable| && ret == (if |now| >= watermark then -122 else 0)
           else n == 0 && ret == -105
         case VARIABLE =>
           && n == (if |objTable| <= room then |objTable| else room)
           && ret == (if room == 0 < |objTable| then 0 else if |now| >= watermark then n - 0x8000_0000 else n)
    }

    /**
     * What the return value tells the caller: VARIABLE, without its sign bit, the number of elements that the
     * queue has grown by, and by its sign whether the watermark is reached, unless the ring was full; FIXED,
     * whether the queue has grown by all of them, and whether the watermark is reached.
     */
    lemma ReturnTells(was: seq<Ptr>, now: seq<Ptr>, objTable: seq<Ptr>, behavior: Behavior, ret: int)
      requires RingSize(size) && |was| < size && Enqueued(was, now, objTable, behavior, ret)
      ensures behavior == VARIABLE ==> (if ret < 0 then ret + 0x8000_0000 else ret) == |now| - |was|
      ensures behavior == VARIABLE && (|was| < size - 1 || objTable == []) ==> (ret < 0 <==> |now| >= watermark)
      ensures behavior == FIXED ==> (ret == 0 || ret == -122 <==> now == was + objTable && |now| < size)
      ensures behavior == FIXED ==> (ret == -105 <==> |was| + |objTable| >= size) && (ret == -122 ==> |now| >= watermark)
    {
      SizeIsSmall(size);
    }

    // The outcome of a dequeue of n elements.
    ghost predicate Dequeued(was: seq<Ptr>, now: seq<Ptr>, n: nat, behavior: Behavior, ret: int, objs: seq<Ptr>) {
      && was == objs + now
      && (if behavior == FIXED then
            |objs| == (if n <= |was| then n else 0) && ret == if n <= |was| then 0 else -ENOENT
          else
            |objs| == (if n <= |was| then n else |was|) && ret == |objs|)
    }

    method McDoDequeue(max: nat, behavior: Behavior) returns (ret: int, objs: seq<Ptr>)
      requires Valid() && max < TWO32
      modifies this`cons
      ensures Valid()
      ensures Dequeued(old(Contents()), Contents(), max, behavior, ret, objs)
    {
      hide W, Loaded, RingSize;
      ghost var before := Contents();
      var take, consHead := ReserveDequeue(max, behavior);
      if take == None { return if behavior == FIXED then -ENOENT else 0, []; }
      objs := Load(consHead, take.value);
      ret := if behavior == FIXED then 0 else |objs|;
    }

    // What both dequeues do once cons.head has been moved.
    method Load(consHead: u32, n: nat) returns (objs: seq<Ptr>)
      requires RingSize(size) && ring.Length == size && 1 <= watermark <= size && prod.head == prod.tail
      requires cons == Actor(W(consHead + n), consHead) && n <= W(prod.tail - consHead) < size
      modifies this`cons
      ensures Valid() && |objs| == n
      ensures Loaded(ring[..], consHead, W(prod.tail - consHead)) == objs + Contents()
    {
      hide W, Loaded, RingSize;
      AfterDequeue(ring[..], prod.tail, consHead, n);
      objs := LoadTablePtrs(consHead, ring, n);
      cons := cons.(tail := cons.head);
    }

    method ReserveDequeue(max: nat, behavior: Behavior) returns (take: Option<nat>, consHead: u32)
      modifies this`cons
      ensures consHead == old(cons.head)
      ensures take == DeqTake(AsMode(behavior), max, W(prod.tail - consHead))
      ensures cons == if take == None then old(cons) else old(cons).(head := W(consHead + take.value))
    {
      var success := false;
      take, consHead := None, cons.head;
      while !success
        invariant consHead == old(cons.head)
        invariant success ==> take != None
        invariant success ==> take == DeqTake(AsMode(behavior), max, W(prod.tail - consHead))
        invariant cons == if success then old(cons).(head := W(consHead + take.value)) else old(cons)
        decreases !success
      {
        consHead := cons.head;
        var entries := W(prod.tail - consHead);
        var n := max;
        if n > entries {
          if behavior == FIXED || entries == 0 { return None, consHead; }
          n := entries;
        }
        take := Some(n);
        success := cons.head == consHead;
        if success { cons := cons.(head := W(consHead + n)); }
      }
    }

    method ScDoDequeue(max: nat, behavior: Behavior) returns (ret: int, objs: seq<Ptr>)
      requires Valid() && max < TWO32
      modifies this`cons
      ensures Valid()
      ensures Dequeued(old(Contents()), Contents(), max, behavior, ret, objs)
    {
      var consHead := cons.head;
      var entries := W(prod.tail - consHead);
      var n := max;
      if n > entries {
        if behavior == FIXED { return -ENOENT, []; }
        if entries == 0 { return 0, []; }
        n := entries;
      }
      cons := cons.(head := W(consHead + n));
      objs := Load(consHead, n);
      ret := if behavior == FIXED then 0 else |objs|;
    }

    method Enqueue(objTable: seq<Ptr>, behavior: Behavior) returns (ret: int)
      requires Valid() && |objTable| < TWO32
      modifies this`prod, ring
      ensures Valid()
      ensures Enqueued(old(Contents()), Contents(), objTable, behavior, ret)
    {
      if spEnqueue { ret := SpDoEnqueue(objTable, behavior); } else { ret := MpDoEnqueue(objTable, behavior); }
    }

    method Dequeue(max: nat, behavior: Behavior) returns (ret: int, objs: seq<Ptr>)
      requires Valid() && max < TWO32
      modifies this`cons
      ensures Valid()
      ensures Dequeued(old(Contents()), Contents(), max, behavior, ret, objs)
    {
      if scDequeue { ret, objs := ScDoDequeue(max, behavior); } else { ret, objs := McDoDequeue(max, behavior); }
    }

    predicate Full()
      requires size > 0
      reads this
    {
      FullAt(size, prod.tail, cons.tail)
    }

    predicate Empty()
      reads this
    {
      cons.tail == prod.tail
    }

    function Count(): nat
      requires size > 0
      reads this
    {
      CountAt(size, prod.tail, cons.tail)
    }

    function FreeCount(): nat
      requires size > 0
      reads this
    {
      FreeCountAt(size, prod.tail, cons.tail)
    }

    /** Between calls the counts are exact, whatever the values of the wrapping indices. */
    lemma CountsContents()
      requires Valid()
      ensures Count() == |Contents()| && FreeCount() == size - 1 - |Contents()|
      ensures Full() <==> |Contents()| == size - 1
      ensures Empty() <==> Contents() == []
    {
      CountsAddUp(size, prod.tail, cons.tail);
    }
  }

  // ENQUEUE_PTRS and DEQUEUE_PTRS, with the caller's table as a value.
  method StoreTablePtrs(prodHead: u32, ring: array<Ptr>, objs: seq<Ptr>)
    requires RingSize(ring.Length) && |objs| <= ring.Length
    modifies ring
    ensures ring[..] == Stored(old(ring[..]), prodHead, objs)
  {
    var table := new Ptr[|objs|](i requires 0 <= i < |objs| => objs[i]);
    assert table[..|objs|] == objs;
    EnqueuePtrs(prodHead, ring, table, |objs|);
  }

  method LoadTablePtrs(consHead: u32, ring: array<Ptr>, n: nat) returns (objs: seq<Ptr>)
    requires RingSize(ring.Length) && n <= ring.Length
    ensures objs == Loaded(ring[..], consHead, n)
  {
    var table := new Ptr[n](i => NULL);
    DequeuePtrs(consHead, ring, table, n);
    objs := table[..];
  }

  lemma EnqueueSnapshot(size: nat, p: u32, c: u32)
    requires RingSize(size) && W(p - c) < size
    ensures W(size - 1 + c - p) == size - 1 - W(p - c)
  {
    hide W, BitAnd;
    SpaceLeft(size - 1, p, c);
  }

  lemma AfterStore(ring: seq<Ptr>, p: u32, c: u32, objs: seq<Ptr>, held: nat)
    requires RingSize(|ring|) && W(p - c) == held && held + |objs| < |ring|
    ensures W(W(p + |objs|) - c) == held + |objs|
    ensures Loaded(Stored(ring, p, objs), c, W(W(p + |objs|) - c)) == Loaded(ring, c, held) + objs
  {
    hide W, Stored, Loaded, RingSize;
    SizeIsSmall(|ring|);
    MovedOnBy(p, c, |objs|);
    WordsApart(p, c);
    StoreAppends(ring, c, held, objs);
  }

  /** ring_queue_create: a power of two up to the size mask.  Its test also lets 0 through. */
  predicate CreateAccepts(count: u32) {
    BitAnd(count, if count == 0 then TWO32 - 1 else count - 1) == 0 && count <= SZ_MASK
  }

  /** What create accepts: the powers of two below 2^28, which are usable ring sizes, and 0, which is not. */
  lemma CreateAcceptsIff(count: u32)
    ensures CreateAccepts(count) <==> count == 0 || (count < 0x1000_0000 && exists k: nat :: IsPow2(count, k))
    ensures CreateAccepts(count) ==> (RingSize(count) <==> count >= 1)
  {
    hide BitAnd;
    NothingAnd(TWO32 - 1);
    PowerOf2Test(count);
  }

  lemma NothingAnd(x: nat)
    ensures BitAnd(0, x) == 0
  {
  }

  method RingQueueCreate(count: u32, spEnqueue: bool, scDequeue: bool, memory: bool) returns (r: RingQueue?)
    ensures r != null <==> CreateAccepts(count) && memory
    ensures r != null ==> fresh(r) && fresh(r.ring) && r.size == count && r.watermark == count
    ensures r != null ==> (r.Valid() <==> count >= 1)
    ensures r != null && count >= 1 ==> r.Contents() == []
  {
    if !CreateAccepts(count) || !memory { return null; }
    CreateAcceptsIff(count);
    r := new RingQueue(count, spEnqueue, scDequeue);
  }
}
