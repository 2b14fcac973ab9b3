/**
 * The calls of include/linux/alf_queue.h on a queue that no other thread is using, over the real ring
 * and 32-bit indices.  Concurrent calls are the subject of module Mpmc.
 */
module AlfQueues {
  import opened Words
  import opened RingCopy
  import opened Mpmc

  const MAX_SIZE := 65536
  const EINVAL := 22
  const ENOMEM := 12

  /** Elements stored where the producer stands are appended to what a consumer will load. */
  lemma StoreAppends(ring: seq<Ptr>, from: u32, count: nat, xs: seq<Ptr>)
    requires RingSize(|ring|) && count + |xs| <= |ring|
    ensures Loaded(Stored(ring, W(from + count), xs), from, count + |xs|) == Loaded(ring, from, count) + xs
  {
    SlotAfter(|ring|, from, count);
    StoreAppendsAt(ring, from, count, xs, Slot(|ring|, from), W(from + count));
  }

  lemma StoreAppendsAt(ring: seq<Ptr>, from: u32, count: nat, xs: seq<Ptr>, at: nat, p: u32)
    requires RingSize(|ring|) && count + |xs| <= |ring| && Slot(|ring|, from) == at < |ring|
    requires Slot(|ring|, p) == Wrap(|ring|, at + count)
    ensures Loaded(Stored(ring, p, xs), from, count + |xs|) == Loaded(ring, from, count) + xs
  {
    hide W, Slot, RingSize, Loaded, Stored;
    var now, all := Stored(ring, p, xs), Loaded(ring, from, count) + xs;
    forall i | 0 <= i < |all| ensures Loaded(now, from, count + |xs|)[i] == all[i] {
      LoadedGoingRound(now, from, count + |xs|, i);
      StoredAfter(ring, p, at, count, xs, i);
      if i < count { LoadedGoingRound(ring, from, count, i); }
    }
  }

  // Slot i from `at` on, after the store of xs count slots on.
  lemma StoredAfter(ring: seq<Ptr>, p: u32, at: nat, count: nat, xs: seq<Ptr>, i: nat)
    requires RingSize(|ring|) && at < |ring| && count + |xs| <= |ring| && i < count + |xs|
    requires Slot(|ring|, p) == Wrap(|ring|, at + count)
    ensures Wrap(|ring|, at + i) < |ring|
    ensures Stored(ring, p, xs)[Wrap(|ring|, at + i)] == if i < count then ring[Wrap(|ring|, at + i)] else xs[i - count]
  {
    DistanceAfter(|ring|, at, count, i);
    StoredAt(ring, p, xs, Wrap(|ring|, at + i));
  }

  lemma DistanceAfter(size: nat, at: nat, count: nat, i: nat)
    requires at < size && count <= size && i < size
    ensures Wrap(size, at + i) < size
    ensures Distance(size, Wrap(size, at + count), Wrap(size, at + i)) == if i < count then size - (count - i) else i - count
  {
  }

  /** What a consumer loads is the front of the queue, and what is left is the rest. */
  lemma LoadSplits(ring: seq<Ptr>, from: u32, count: nat, n: nat)
    requires RingSize(|ring|) && n <= count <= |ring|
    ensures Loaded(ring, from, n) == Loaded(ring, from, count)[..n]
    ensures Loaded(ring, W(from + n), count - n) == Loaded(ring, from, count)[n..]
  {
    hide W, Slot, RingSize, Loaded;
    forall i | 0 <= i < n ensures Loaded(ring, from, n)[i] == Loaded(ring, from, count)[i] {
      LoadedAt(ring, from, n, i);
      LoadedAt(ring, from, count, i);
    }
    var rest := Loaded(ring, from, count)[n..];
    forall i | 0 <= i < count - n ensures Loaded(ring, W(from + n), count - n)[i] == rest[i] {
      LoadedAt(ring, W(from + n), count - n, i);
      LoadedAt(ring, from, count, n + i);
      WrappedSum(from + n, i);
    }
  }

  // __helper_alf_enqueue_store and __helper_alf_dequeue_load, with the caller's table as a value.
  method StoreTable(pHead: u32, ring: array<Ptr>, ptr: seq<Ptr>)
    requires RingSize(ring.Length) && |ptr| <= ring.Length
    modifies ring
    ensures ring[..] == Stored(old(ring[..]), pHead, ptr)
  {
    var table := new Ptr[|ptr|](i requires 0 <= i < |ptr| => ptr[i]);
    assert table[..|ptr|] == ptr;
    EnqueueStoreUnroll(pHead, ring, table, |ptr|);
  }

  method LoadTable(cHead: u32, ring: array<Ptr>, elems: nat) returns (ptr: seq<Ptr>)
    requires RingSize(ring.Length) && elems <= ring.Length
    ensures ptr == Loaded(ring[..], cHead, elems)
  {
    var table := new Ptr[elems](i => NULL);
    DequeueLoadUnroll(cHead, ring, table, elems);
    ptr := table[..];
  }

  /** The free space and the new index, for indices at most a ring apart. */
  lemma EnqueueIndices(size: nat, p: u32, c: u32, n: nat)
    requires size <= MAX_SIZE && W(p - c) <= size
    ensures W(size + c - p) == size - W(p - c) && p == W(c + W(p - c))
    ensures n <= size - W(p - c) ==> W(W(p + n) - c) == W(p - c) + n
  {
    hide W;
    SpaceLeft(size, p, c);
    WordsApart(p, c);
    if n <= size - W(p - c) { MovedOnBy(p, c, n); }
  }

  lemma SpaceLeft(size: nat, p: u32, c: u32)
    requires size < TWO32 && W(p - c) <= size
    ensures W(size + c - p) == size - W(p - c)
  {
  }

  lemma WordsApart(p: u32, c: u32)
    ensures p == W(c + W(p - c))
  {
  }

  lemma MovedOnBy(p: u32, c: u32, n: nat)
    requires W(p - c) + n < TWO32
    ensures W(W(p + n) - c) == W(p - c) + n
  {
  }

  /** After storing at p and moving p on, what lies between c and p has grown by the table. */
  lemma AfterEnqueue(ring: seq<Ptr>, p: u32, c: u32, held: nat, ptr: seq<Ptr>)
    requires RingSize(|ring|) && |ring| <= MAX_SIZE && W(p - c) == held && held + |ptr| <= |ring|
    ensures W(W(p + |ptr|) - c) == held + |ptr|
    ensures Loaded(Stored(ring, p, ptr), c, W(W(p + |ptr|) - c)) == Loaded(ring, c, held) + ptr
  {
    hide W, Stored, Loaded, RingSize;
    EnqueueIndices(|ring|, p, c, |ptr|);
    StoreAppends(ring, c, held, ptr);
  }

  lemma AfterDequeue(ring: seq<Ptr>, p: u32, c: u32, n: nat)
    requires RingSize(|ring|) && n <= W(p - c) <= |ring|
    ensures W(p - W(c + n)) == W(p - c) - n
    ensures Loaded(ring, c, W(p - c)) == Loaded(ring, c, n) + Loaded(ring, W(c + n), W(p - W(c + n)))
  {
    hide W, Loaded, RingSize;
    DequeueIndices(p, c, n);
    LoadSplits(ring, c, W(p - c), n);
  }

  lemma DequeueIndices(p: u32, c: u32, n: nat)
    requires n <= W(p - c)
    ensures W(p - W(c + n)) == W(p - c) - n
  {
  }

  class AlfQueue {
    const size: nat
    const ring: array<Ptr>
    var producer: Actor
    var consumer: Actor

    // No call is under way, and the indices are at most a ring apart.
    ghost predicate Valid()
      reads this
    {
      && RingSize(size) && size <= MAX_SIZE && ring.Length == size
      && producer.head == producer.tail && consumer.head == consumer.tail
      && W(producer.tail - consumer.tail) <= size
    }

    ghost function Contents(): (s: seq<Ptr>)
      requires Valid()
      reads this, ring
      ensures |s| <= size
    {
      Loaded(ring[..], consumer.tail, W(producer.tail - consumer.tail))
    }

    // kzalloc clears the indices and the ring.
    constructor (size: nat)
      requires IsPowerOf2(size) && size <= MAX_SIZE
      ensures Valid() && Contents() == [] && this.size == size && fresh(ring)
    {
      this.size, ring := size, new Ptr[size](i => NULL);
      producer, consumer := Actor(0, 0), Actor(0, 0);
    }

    // cmpxchg(&q->producer.head, expected, value), and the same on the consumer's.
    method CmpxchgProducerHead(expected: u32, value: u32) returns (seen: u32)
      modifies this`producer
      ensures seen == old(producer.head)
      ensures producer == if seen == expected then old(producer).(head := value) else old(producer)
    {
      seen := producer.head;
      if seen == expected { producer := producer.(head := value); }
    }

    method CmpxchgConsumerHead(expected: u32, value: u32) returns (seen: u32)
      modifies this`consumer
      ensures seen == old(consumer.head)
      ensures consumer == if seen == expected then old(consumer).(head := value) else old(consumer)
    {
      seen := consumer.head;
      if seen == expected { consumer := consumer.(head := value); }
    }

    // The do-while loops, with nobody else changing the heads.
    method ReserveEnqueue(n: nat) returns (ok: bool, pHead: u32, pNext: u32)
      modifies this`producer
      ensures ok <==> n <= W(size + consumer.tail - old(producer.head))
      ensures pHead == old(producer.head) && pNext == W(pHead + n)
      ensures producer == if ok then old(producer).(head := pNext) else old(producer)
    {
      ok, pHead, pNext := false, producer.head, W(producer.head + n);
      while !ok
        invariant pHead == old(producer.head) && pNext == W(pHead + n)
        invariant ok ==> n <= W(size + consumer.tail - pHead)
        invariant producer == if ok then old(producer).(head := pNext) else old(producer)
        decreases !ok
      {
        pHead := producer.head;
        var space := W(size + consumer.tail - pHead);
        if n > space { return; }
        pNext := W(pHead + n);
        var seen := CmpxchgProducerHead(pHead, pNext);
        ok := seen == pHead;
      }
    }

    method ReserveDequeue(n: nat) returns (elems: nat, cHead: u32, cNext: u32)
      modifies this`consumer
      ensures var count := W(producer.tail - old(consumer.head)); elems == if count < n then count else n
      ensures cHead == old(consumer.head) && cNext == W(cHead + elems)
      ensures consumer == old(consumer).(head := cNext)
    {
      var ok := false;
      elems, cHead, cNext := 0, consumer.head, consumer.head;
      while !ok
        invariant cHead == old(consumer.head) && cNext == W(cHead + elems)
        invariant ok ==> var count := W(producer.tail - cHead); elems == if count < n then count else n
        invariant consumer == if ok then old(consumer).(head := cNext) else old(consumer)
        decreases !ok
      {
        cHead := consumer.head;
        elems := W(producer.tail - cHead);
        if elems == 0 { return 0, cHead, cHead; }
        elems := if elems < n then elems else n;
        cNext := W(cHead + elems);
        var seen := CmpxchgConsumerHead(cHead, cNext);
        ok := seen == cHead;
      }
    }

    /** All of ptr is enqueued in order, or nothing when it does not fit. */
    method MpEnqueue(ptr: seq<Ptr>) returns (num: nat)
      requires Valid() && |ptr| < TWO32
      modifies this`producer, ring
      ensures Valid()
      ensures if |old(Contents())| + |ptr| <= size then num == |ptr| && Contents() == old(Contents()) + ptr
              else num == 0 && Contents() == old(Contents())
    {
      hide W, Loaded, RingSize;
      EnqueueIndices(size, producer.head, consumer.tail, |ptr|);
      var ok, pHead, pNext := ReserveEnqueue(|ptr|);
      if !ok { return 0; }
      StoreAndPublish(pHead, pNext, W(pHead - consumer.tail), ptr);
      num := |ptr|;
    }

    // What both enqueues do once producer.head has been moved.  With no other enqueue under way the wait
    // for producer.tail ends at once.
    method StoreAndPublish(pHead: u32, pNext: u32, ghost held: nat, ptr: seq<Ptr>)
      requires RingSize(size) && size <= MAX_SIZE && ring.Length == size && consumer.head == consumer.tail
      requires producer == Actor(pNext, pHead) && pNext == W(pHead + |ptr|)
      requires W(pHead - consumer.tail) == held && held + |ptr| <= size
      modifies this`producer, ring
      ensures Valid() && Contents() == Loaded(old(ring[..]), consumer.tail, held) + ptr
    {
      hide W, Stored, Loaded, RingSize;
      ghost var now := Stored(ring[..], pHead, ptr);
      AfterEnqueue(ring[..], pHead, consumer.tail, held, ptr);
      StoreTable(pHead, ring, ptr);
      assert ring[..] == now;
      producer := producer.(tail := pNext);
    }

    /** The front of the queue is taken: n elements, or as many as there are. */
    method McDequeue(n: nat) returns (ptr: seq<Ptr>)
      requires Valid() && n < TWO32
      modifies this`consumer
      ensures Valid()
      ensures |ptr| == (if |old(Contents())| < n then |old(Contents())| else n)
      ensures old(Contents()) == ptr + Contents()
    {
      hide W, Loaded, RingSize;
      var elems, cHead, cNext := ReserveDequeue(n);
      AfterDequeue(ring[..], producer.tail, cHead, elems);
      ptr := LoadTable(cHead, ring, elems);
      consumer := consumer.(tail := cNext);
    }

    method SpEnqueue(ptr: seq<Ptr>) returns (num: nat)
      requires Valid() && |ptr| < TWO32
      modifies this`producer, ring
      ensures Valid()
      ensures if |old(Contents())| + |ptr| <= size then num == |ptr| && Contents() == old(Contents()) + ptr
              else num == 0 && Contents() == old(Contents())
    {
      hide W, Loaded, RingSize;
      EnqueueIndices(size, producer.head, consumer.tail, |ptr|);
      var pHead := producer.head;
      var space := W(size + consumer.tail - pHead);
      if |ptr| > space { return 0; }
      var pNext := W(pHead + |ptr|);
      producer := producer.(head := pNext);
      StoreAndPublish(pHead, pNext, W(pHead - consumer.tail), ptr);
      num := |ptr|;
    }

    method ScDequeue(n: nat) returns (ptr: seq<Ptr>)
      requires Valid() && n < TWO32
      modifies this`consumer
      ensures Valid()
      ensures |ptr| == (if |old(Contents())| < n then |old(Contents())| else n)
      ensures old(Contents()) == ptr + Contents()
    {
      hide W, Loaded, RingSize;
      var cHead := consumer.head;
      var elems: nat := W(producer.tail - cHead);
      if elems == 0 { return []; }
      elems := if elems < n then elems else n;
      AfterDequeue(ring[..], producer.tail, cHead, elems);
      var cNext := W(cHead + elems);
      consumer := consumer.(head := cNext);
      ptr := LoadTable(cHead, ring, elems);
      consumer := consumer.(tail := cNext);
    }

    predicate Empty()
      reads this
      ensures Valid() ==> (Empty() <==> Contents() == [])
    {
      consumer.tail == producer.tail
    }

    function Count(): (elems: u32)
      reads this
      ensures Valid() ==> elems == |Contents()|
    {
      W(producer.tail - consumer.head)
    }

    function AvailSpace(): (space: u32)
      reads this, ring
      ensures Valid() ==> space == size - |Contents()|
    {
      assert W(producer.head - consumer.tail) <= size <= MAX_SIZE ==>
               W(size + consumer.tail - producer.head) == size - W(producer.head - consumer.tail) by {
        if W(producer.head - consumer.tail) <= size <= MAX_SIZE { EnqueueIndices(size, producer.head, consumer.tail, 0); }
      }
      W(size + consumer.tail - producer.head)
    }
  }

  /** alf_queue_alloc: the sizes accepted are the powers of two up to 65536. */
  method AlfQueueAlloc(size: u32, memory: bool) returns (q: AlfQueue?, err: int)
    ensures err == if !IsPowerOf2(size) || size > MAX_SIZE then -EINVAL else if !memory then -ENOMEM else 0
    ensures q != null <==> err == 0
    ensures q != null ==> fresh(q) && fresh(q.ring) && q.Valid() && q.size == size && q.Contents() == []
  {
    if !IsPowerOf2(size) || size > MAX_SIZE { return null, -EINVAL; }
    if !memory { return null, -ENOMEM; }
    q := new AlfQueue(size);
    err := 0;
  }

  /** The forms masked with size - 1 that the comments offer as the same are the same except at a full ring. */
  lemma MaskedFormIff(size: nat, value: u32)
    requires RingSize(size) && value <= size
    ensures BitAnd(value, size - 1) == value <==> value != size
  {
    if value < size { SlotOfSmall(size, value); } else { SlotInRing(size, value); }
  }
}
