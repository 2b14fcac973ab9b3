/**
 * The calls of include/linux/ptr_ring.h on the real ring while no other thread uses it: produce,
 * consume, resize and cleanup.
 */
module PtrRings {
  import opened Words
  import opened RingCopy

  const ENOSPC := 28
  const ENOMEM := 12

  /** The n slots that follow `from` round the ring. */
  function Circle(queue: seq<Ptr>, from: nat, n: nat): (r: seq<Ptr>)
    requires from < |queue| && n <= |queue|
    ensures |r| == n && forall k :: 0 <= k < n ==> r[k] == queue[Wrap(|queue|, from + k)]
  {
    if n == 0 then [] else Circle(queue, from, n - 1) + [queue[Wrap(|queue|, from + n - 1)]]
  }

  /** How far apart the indices are; equal indices mean full or empty, as the slot they name tells. */
  function Used(queue: seq<Ptr>, producer: nat, consumer: nat): (n: nat)
    requires producer < |queue| && consumer < |queue|
    ensures n <= |queue|
  {
    if producer == consumer then (if queue[consumer] == NULL then 0 else |queue|)
    else if consumer < producer then producer - consumer
    else producer + |queue| - consumer
  }

  // The slots from the consumer to the producer are not NULL, and the others are.
  ghost predicate RingOk(queue: seq<Ptr>, producer: nat, consumer: nat) {
    && producer < |queue| && consumer < |queue|
    && forall j :: 0 <= j < |queue| ==>
         (queue[j] != NULL <==> Distance(|queue|, consumer, j) < Used(queue, producer, consumer))
  }

  /** A store at the producer's slot appends; one of NULL at the consumer's slot removes the oldest item. */
  lemma StoreAppends(queue: seq<Ptr>, producer: nat, consumer: nat, ptr: Ptr)
    requires RingOk(queue, producer, consumer) && queue[producer] == NULL && ptr != NULL
    ensures var queue', producer' := queue[producer := ptr], if producer + 1 >= |queue| then 0 else producer + 1;
      && RingOk(queue', producer', consumer)
      && Circle(queue', consumer, Used(queue', producer', consumer)) == Circle(queue, consumer, Used(queue, producer, consumer)) + [ptr]
  {
    hide Circle, Distance;
    StoreKeepsRing(queue, producer, consumer, ptr);
    StoreKeepsRest(queue, producer, consumer, ptr, Used(queue, producer, consumer));
  }

  lemma StoreKeepsRing(queue: seq<Ptr>, producer: nat, consumer: nat, ptr: Ptr)
    requires RingOk(queue, producer, consumer) && queue[producer] == NULL && ptr != NULL
    ensures var queue', producer' := queue[producer := ptr], if producer + 1 >= |queue| then 0 else producer + 1;
      && RingOk(queue', producer', consumer)
      && Used(queue', producer', consumer) == Used(queue, producer, consumer) + 1
      && producer == Wrap(|queue|, consumer + Used(queue, producer, consumer))
  {
  }

  lemma StoreKeepsRest(queue: seq<Ptr>, producer: nat, consumer: nat, ptr: Ptr, n: nat)
    requires consumer < |queue| && n < |queue| && producer == Wrap(|queue|, consumer + n)
    ensures producer < |queue| && Circle(queue[producer := ptr], consumer, n + 1) == Circle(queue, consumer, n) + [ptr]
  {
    var was, now := Circle(queue, consumer, n), Circle(queue[producer := ptr], consumer, n + 1);
    forall k | 0 <= k < n ensures now[k] == was[k] {
      assert Wrap(|queue|, consumer + k) != producer;
    }
  }

  lemma ClearRemoves(queue: seq<Ptr>, producer: nat, consumer: nat)
    requires RingOk(queue, producer, consumer) && queue[consumer] != NULL
    ensures var queue', consumer' := queue[consumer := NULL], if consumer + 1 >= |queue| then 0 else consumer + 1;
      && RingOk(queue', producer, consumer')
      && Circle(queue, consumer, Used(queue, producer, consumer)) ==
           [queue[consumer]] + Circle(queue', consumer', Used(queue', producer, consumer'))
  {
    ClearKeepsRing(queue, producer, consumer);
    ClearKeepsRest(queue, consumer, Used(queue, producer, consumer));
  }

  lemma ClearKeepsRing(queue: seq<Ptr>, producer: nat, consumer: nat)
    requires RingOk(queue, producer, consumer) && queue[consumer] != NULL
    ensures var queue', consumer' := queue[consumer := NULL], if consumer + 1 >= |queue| then 0 else consumer + 1;
      && RingOk(queue', producer, consumer')
      && Used(queue', producer, consumer') == Used(queue, producer, consumer) - 1
  {
  }

  lemma ClearKeepsRest(queue: seq<Ptr>, consumer: nat, n: nat)
    requires consumer < |queue| && 1 <= n <= |queue|
    ensures var queue', consumer' := queue[consumer := NULL], if consumer + 1 >= |queue| then 0 else consumer + 1;
      Circle(queue, consumer, n) == [queue[consumer]] + Circle(queue', consumer', n - 1)
  {
    var queue', consumer' := queue[consumer := NULL], if consumer + 1 >= |queue| then 0 else consumer + 1;
    var all, after := Circle(queue, consumer, n), Circle(queue', consumer', n - 1);
    forall k | 0 <= k < n - 1 ensures after[k] == all[k + 1] {
      assert Wrap(|queue|, consumer' + k) == Wrap(|queue|, consumer + (k + 1));
    }
  }

  // The first n slots hold the first n items, and the rest is NULL.
  ghost predicate Holds(queue: seq<Ptr>, items: seq<Ptr>, n: nat) {
    n <= |items| && n <= |queue| && forall j :: 0 <= j < |queue| ==> queue[j] == if j < n then items[j] else NULL
  }

  // What is still to be handled: the item in hand and those still in the ring.
  function Left(ptr: Ptr, contents: seq<Ptr>): seq<Ptr> {
    if ptr == NULL then [] else [ptr] + contents
  }

  // The items were those kept, those dropped for want of room, and those left.
  ghost predicate Split(was: seq<Ptr>, kept: seq<Ptr>, dropped: seq<Ptr>, left: seq<Ptr>, room: nat) {
    |kept| <= room && (dropped != [] ==> |kept| == room) && was == kept + dropped + left
  }

  lemma SplitStart(was: seq<Ptr>, room: nat)
    ensures Split(was, [], [], was, room)
  {
  }

  lemma SplitLength(was: seq<Ptr>, kept: seq<Ptr>, dropped: seq<Ptr>, left: seq<Ptr>, room: nat)
    requires Split(was, kept, dropped, left, room)
    ensures |was| == |kept| + |dropped| + |left| && |kept| <= room
  {
  }

  lemma SplitKeep(was: seq<Ptr>, kept: seq<Ptr>, dropped: seq<Ptr>, x: Ptr, rest: seq<Ptr>, room: nat)
    requires Split(was, kept, dropped, [x] + rest, room) && |kept| < room
    ensures Split(was, kept + [x], dropped, rest, room)
  {
  }

  lemma SplitDrop(was: seq<Ptr>, kept: seq<Ptr>, dropped: seq<Ptr>, x: Ptr, rest: seq<Ptr>, room: nat)
    requires Split(was, kept, dropped, [x] + rest, room) && |kept| == room
    ensures Split(was, kept, dropped + [x], rest, room)
  {
  }

  lemma SplitEnd(was: seq<Ptr>, kept: seq<Ptr>, dropped: seq<Ptr>, queue: seq<Ptr>)
    requires Split(was, kept, dropped, [], |queue|) && Holds(queue, kept, |kept|)
    ensures |kept| == (if |was| < |queue| then |was| else |queue|) && Holds(queue, was, |kept|) && dropped == was[|kept|..]
  {
  }

  lemma ResizedRing(queue: seq<Ptr>, items: seq<Ptr>)
    requires |items| < |queue| && Holds(queue, items, |items|) && forall k :: 0 <= k < |items| ==> items[k] != NULL
    ensures RingOk(queue, |items|, 0) && Circle(queue, 0, Used(queue, |items|, 0)) == items
  {
  }

  class PtrRing {
    var producer: nat
    var consumer: nat
    var size: nat
    var queue: array<Ptr>

    ghost predicate Valid()
      reads this, queue
    {
      queue.Length == size && RingOk(queue[..], producer, consumer)
    }

    ghost function Contents(): (s: seq<Ptr>)
      requires Valid()
      reads this, queue
    {
      Circle(queue[..], consumer, Used(queue[..], producer, consumer))
    }

    // ptr_ring_init, after its allocation succeeded
    constructor (size: nat)
      requires size >= 1
      ensures Valid() && Contents() == [] && this.size == size && fresh(queue)
    {
      queue := new Ptr[size](i => NULL);
      this.size, producer, consumer := size, 0, 0;
    }

    // __ptr_ring_full and __ptr_ring_empty
    predicate Full()
      requires producer < queue.Length
      reads this, queue
      ensures Valid() ==> (Full() <==> |Contents()| == size)
    {
      queue[producer] != NULL
    }

    predicate Empty()
      requires consumer < queue.Length
      reads this, queue
      ensures Valid() ==> (Empty() <==> Contents() == [])
    {
      queue[consumer] == NULL
    }

    method Produce(ptr: Ptr) returns (err: int)
      requires Valid() && ptr != NULL
      modifies this`producer, queue
      ensures Valid()
      ensures if |old(Contents())| == size then err == -ENOSPC && Contents() == old(Contents())
              else err == 0 && Contents() == old(Contents()) + [ptr]
    {
      if queue[producer] != NULL { return -ENOSPC; }
      StoreAppends(queue[..], producer, consumer, ptr);
      queue[producer] := ptr;
      producer := producer + 1;
      if producer >= size { producer := 0; }
      err := 0;
    }

    method DiscardOne()
      requires Valid() && Contents() != []
      modifies this`consumer, queue
      ensures Valid() && Contents() == old(Contents())[1..]
    {
      hide RingOk, Circle, Used;
      NotEmpty();
      ghost var was, at := queue[..], consumer;
      ClearRemoves(was, producer, at);
      queue[consumer] := NULL;
      consumer := consumer + 1;
      if consumer >= size { consumer := 0; }
      assert queue[..] == was[at := NULL];
    }

    lemma NotEmpty()
      requires Valid() && Contents() != []
      ensures producer < queue.Length && consumer < queue.Length && queue[consumer] != NULL
    {
    }

    method Consume() returns (ptr: Ptr)
      requires Valid()
      modifies this`consumer, queue
      ensures Valid()
      ensures old(Contents()) == Left(ptr, Contents())
      ensures ptr == NULL ==> Contents() == []
    {
      ptr := queue[consumer];
      if ptr != NULL { DiscardOne(); }
    }

    // The loop of ptr_ring_resize: items go to newQueue while there is room, then to destroy.
    method Drain(newQueue: array<Ptr>, destroy: bool) returns (next: nat, destroyed: seq<Ptr>)
      requires Valid() && newQueue != queue && Holds(newQueue[..], [], 0)
      modifies this`consumer, queue, newQueue
      ensures var was := old(Contents());
        && next == (if |was| < newQueue.Length then |was| else newQueue.Length)
        && Holds(newQueue[..], was, next)
        && destroyed == (if destroy then was[next..] else [])
    {
      hide Valid, Contents, Holds, Split;
      ghost var was := Contents();
      next, destroyed := 0, [];
      ghost var kept, dropped := [], [];
      SplitStart(was, newQueue.Length);
      var ptr := Consume();
      while ptr != NULL
        invariant Valid() && next == |kept| && Holds(newQueue[..], kept, |kept|)
        invariant Split(was, kept, dropped, Left(ptr, Contents()), newQueue.Length)
        invariant destroyed == if destroy then dropped else []
        decreases |was| - |kept| - |dropped|
      {
        SplitLength(was, kept, dropped, Left(ptr, Contents()), newQueue.Length);
        if next < newQueue.Length {
          SplitKeep(was, kept, dropped, ptr, Contents(), newQueue.Length);
          ghost var item := ptr;
          ptr := KeepOne(newQueue, next, ptr, kept);
          next, kept := next + 1, kept + [item];
        } else {
          SplitDrop(was, kept, dropped, ptr, Contents(), newQueue.Length);
          if destroy { destroyed := destroyed + [ptr]; }
          dropped := dropped + [ptr];
          ptr := Consume();
        }
      }
      SplitEnd(was, kept, dropped, newQueue[..]);
    }

    method KeepOne(newQueue: array<Ptr>, next: nat, item: Ptr, ghost kept: seq<Ptr>) returns (ptr: Ptr)
      requires Valid() && newQueue != queue && Holds(newQueue[..], kept, |kept|) && next == |kept| < newQueue.Length
      modifies this`consumer, queue, newQueue
      ensures Valid() && Holds(newQueue[..], kept + [item], |kept| + 1)
      ensures old(Contents()) == Left(ptr, Contents())
    {
      ptr := Consume();
      newQueue[next] := item;
    }

    /**
     * The oldest items that fit are kept in order, the rest are passed to destroy in order, each once
     * (or dropped, when there is no destroy).  The ring is usable again exactly when the items were
     * fewer than the new size: otherwise producer is left equal to size, outside the ring.
     */
    method Resize(newSize: nat, memory: bool, destroy: bool) returns (err: int, destroyed: seq<Ptr>)
      requires Valid()
      modifies this, queue
      ensures !memory ==> err == -ENOMEM && destroyed == [] && Valid() && Contents() == old(Contents()) && size == old(size)
      ensures memory ==> err == 0 && size == newSize == queue.Length && fresh(queue) && consumer == 0
      ensures memory ==> producer == if |old(Contents())| < newSize then |old(Contents())| else newSize
      ensures memory ==> Holds(queue[..], old(Contents()), producer)
      ensures memory ==> destroyed == if destroy then old(Contents())[producer..] else []
      ensures memory ==> (Valid() <==> |old(Contents())| < newSize)
      ensures memory && |old(Contents())| < newSize ==> Contents() == old(Contents())
    {
      if !memory { return -ENOMEM, []; }
      ghost var was := Contents();
      ContentsNotNull();
      var newQueue := new Ptr[newSize](i => NULL);
      var next;
      next, destroyed := Drain(newQueue, destroy);
      size, producer, consumer, queue := newSize, next, 0, newQueue;
      err := 0;
      if |was| < newSize { ResizedRing(queue[..], was); }
    }

    lemma ContentsNotNull()
      requires Valid()
      ensures forall k :: 0 <= k < |Contents()| ==> Contents()[k] != NULL
    {
    }

    /** Every item left is destroyed once, oldest first. */
    method Cleanup(destroy: bool) returns (destroyed: seq<Ptr>)
      requires Valid()
      modifies this`consumer, queue
      ensures destroyed == if destroy then old(Contents()) else []
    {
      destroyed := [];
      if destroy {
        ghost var was := Contents();
        var ptr := Consume();
        while ptr != NULL
          invariant Valid()
          invariant ptr != NULL ==> was == destroyed + [ptr] + Contents()
          invariant ptr == NULL ==> was == destroyed
          decreases |was| - |destroyed|
        {
          destroyed := destroyed + [ptr];
          ptr := Consume();
        }
      }
    }
  }
}
