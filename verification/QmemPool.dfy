/**
 * The allocator cache of include/linux/qmempool.h and mm/qmempool.c, one call at a time, over the
 * queues of module AlfQueues: a local queue per CPU, a shared queue, and a slab behind them.
 * Calls that interleave are the subject of module QmemPoolSteps.
 */
module QmemPools {
  import opened Words
  import opened AlfQueues

  const BULK := 16
  const REFILL_MULTIPLIER := 2

  /** kmem_cache_alloc and kmem_cache_free: call number k returns the fresh element k + 1, or NULL. */
  class Slab {
    const oom: nat -> bool
    var calls: nat
    var freed: seq<Ptr>

    constructor (oom: nat -> bool)
      ensures calls == 0 && freed == [] && this.oom == oom
    {
      this.oom, calls, freed := oom, 0, [];
    }

    method Alloc() returns (elem: Ptr)
      modifies this`calls
      ensures calls == old(calls) + 1
      ensures elem == if oom(old(calls)) then NULL else old(calls) + 1
    {
      elem := if oom(calls) then NULL else calls + 1;
      calls := calls + 1;
    }

    // The loop over elems[j] in __qmempool_alloc_from_slab: n elements, or those before the first failure.
    method AllocUpTo(n: nat) returns (elems: seq<Ptr>)
      modifies this`calls
      ensures |elems| <= n && elems == Ids(old(calls), |elems|)
      ensures forall k :: old(calls) <= k < old(calls) + |elems| ==> !oom(k)
      ensures |elems| < n ==> oom(old(calls) + |elems|)
      ensures calls == old(calls) + (if |elems| < n then |elems| + 1 else n)
    {
      elems := [];
      var j := 0;
      while j < n
        invariant 0 <= j <= n && |elems| == j && calls == old(calls) + j && elems == Ids(old(calls), j)
        invariant forall k :: old(calls) <= k < old(calls) + j ==> !oom(k)
      {
        var elem := Alloc();
        if elem == NULL { return; }
        elems := elems + [elem];
        j := j + 1;
      }
    }

    method Free(elem: Ptr)
      modifies this`freed
      ensures freed == old(freed) + [elem]
    {
      freed := freed + [elem];
    }

    method FreeAll(elems: seq<Ptr>)
      modifies this`freed
      ensures freed == old(freed) + elems
    {
      var i := 0;
      while i < |elems|
        invariant 0 <= i <= |elems| && freed == old(freed) + elems[..i]
      {
        Free(elems[i]);
        i := i + 1;
      }
    }

    // while (alf_mc_dequeue(q, &elem, 1) == 1) kmem_cache_free(pool->kmem, elem); BUG_ON(!alf_queue_empty(q))
    method FreeQueue(q: AlfQueue) returns (bug: bool)
      requires q.Valid()
      modifies this`freed, q`consumer
      ensures q.Valid() && q.Contents() == [] && !bug
      ensures freed == old(freed) + old(q.Contents())
    {
      hide AlfQueue.Valid, AlfQueue.Contents, AlfQueue.Empty;
      ghost var was, before, done := q.Contents(), freed, [];
      var num := q.McDequeue(1);
      while |num| == 1
        invariant q.Valid() && |num| <= 1 && was == done + num + q.Contents() && freed == before + done
        invariant num == [] ==> q.Contents() == []
        decreases |was| - |done|
      {
        Free(num[0]);
        done := done + num;
        num := q.McDequeue(1);
      }
      bug := !q.Empty();
    }
  }

  /** The n elements that the slab hands out from call number `call` on, when it does not fail. */
  function Ids(call: nat, n: nat): (r: seq<Ptr>)
    ensures |r| == n && forall k :: 0 <= k < n ==> r[k] == call + k + 1
  {
    if n == 0 then [] else Ids(call, n - 1) + [call + n]
  }

  function Flat(queues: seq<seq<Ptr>>): seq<Ptr> {
    if queues == [] then [] else Flat(queues[..|queues| - 1]) + queues[|queues| - 1]
  }

  lemma FlatStep(freed: seq<Ptr>, queues: seq<seq<Ptr>>, j: nat)
    requires j < |queues|
    ensures freed + Flat(queues[..j]) + queues[j] == freed + Flat(queues[..j + 1])
  {
    assert queues[..j + 1][..j] == queues[..j];
  }

  lemma DrainTwice(freed: seq<Ptr>, q: seq<Ptr>, a: nat, b: nat)
    requires a + b <= |q|
    ensures freed + q[..a] + q[a..][..b] == freed + q[..a + b] && q[a..][b..] == q[a + b..]
  {
  }

  lemma IdsAppend(call: nat, n: nat, m: nat)
    ensures Ids(call, n) + Ids(call + n, m) == Ids(call, n + m)
  {
  }

  // A refill that began at slab call `call` got `got` elements: what it left in the sharedq, and the calls.
  ghost predicate Refilled(oom: nat -> bool, call: nat, got: nat, bug: bool, shared: seq<Ptr>, calls: nat) {
    var whole := BULK * REFILL_MULTIPLIER;
    && got <= whole && (forall k :: call <= k < call + got ==> !oom(k)) && (got < whole ==> oom(call + got))
    && shared == Ids(call, if got == whole || got % BULK == 0 then got else got - 1)
    && (bug <==> got < whole && got % BULK <= 1)
    && calls == call + (if got == whole then got else got + 1)
  }

  // The same while the refill is under way, after i whole rounds.
  ghost predicate Refilling(oom: nat -> bool, call: nat, i: nat, shared: seq<Ptr>, calls: nat) {
    && (forall k :: call <= k < call + BULK * i ==> !oom(k))
    && shared == Ids(call, BULK * i) && calls == call + BULK * i
  }

  // One round got n elements.
  ghost predicate Round(oom: nat -> bool, call: nat, n: nat, bug: bool, was: seq<Ptr>, now: seq<Ptr>, before: nat, calls: nat) {
    && n <= BULK && (forall k :: before <= k < before + n ==> !oom(k)) && (n < BULK ==> oom(before + n))
    && calls == before + (if n < BULK then n + 1 else n)
    && now == Ids(call, |was| + (if n == BULK || n == 0 then n else n - 1))
    && (bug <==> n <= 1)
  }

  lemma MakeRound(oom: nat -> bool, call: nat, bug: bool, was: seq<Ptr>, elems: seq<Ptr>, now: seq<Ptr>, before: nat, calls: nat)
    requires was == Ids(call, |was|) && before == call + |was| && elems == Ids(before, |elems|) && |elems| <= BULK
    requires (forall k :: before <= k < before + |elems| ==> !oom(k)) && (|elems| < BULK ==> oom(before + |elems|))
    requires calls == before + (if |elems| < BULK then |elems| + 1 else BULK)
    requires now == was + (if |elems| == BULK || elems == [] then elems else elems[..|elems| - 1])
    requires bug <==> |elems| <= 1
    ensures Round(oom, call, |elems|, bug, was, now, before, calls)
  {
    var n := if |elems| == BULK || elems == [] then |elems| else |elems| - 1;
    FirstIds(elems, before, n);
    assert now == was + elems[..n];
    IdsAppend(call, |was|, n);
  }

  lemma FirstIds(elems: seq<Ptr>, before: nat, n: nat)
    requires elems == Ids(before, |elems|) && n <= |elems|
    ensures elems[..n] == Ids(before, n)
  {
  }

  lemma RoundRefills(oom: nat -> bool, call: nat, i: nat, n: nat, bug: bool, was: seq<Ptr>, now: seq<Ptr>, before: nat, calls: nat)
    requires i < REFILL_MULTIPLIER && Refilling(oom, call, i, was, before) && Round(oom, call, n, bug, was, now, before, calls)
    ensures if n == BULK then Refilling(oom, call, i + 1, now, calls) && !bug
            else Refilled(oom, call, BULK * i + n, bug, now, calls)
  {
  }

  lemma RefillBegins(oom: nat -> bool, call: nat)
    ensures Refilling(oom, call, 0, [], call)
  {
  }

  lemma RefillingHolds(oom: nat -> bool, call: nat, i: nat, shared: seq<Ptr>, calls: nat)
    requires Refilling(oom, call, i, shared, calls)
    ensures |shared| == BULK * i && shared == Ids(call, |shared|) && calls == call + |shared|
  {
  }

  lemma RefillEnds(oom: nat -> bool, call: nat, shared: seq<Ptr>, calls: nat)
    requires Refilling(oom, call, REFILL_MULTIPLIER, shared, calls)
    ensures Refilled(oom, call, BULK * REFILL_MULTIPLIER, false, shared, calls)
  {
  }

  class QmemPool {
    const slab: Slab
    const sharedq: AlfQueue
    const localqs: seq<AlfQueue>

    ghost predicate Valid()
      reads this, sharedq, localqs
    {
      && SharedOk()
      && (forall i :: 0 <= i < |localqs| ==>
            localqs[i].Valid() && BULK <= localqs[i].size && localqs[i] != sharedq && localqs[i].ring != sharedq.ring)
      && (forall i, j :: 0 <= i < j < |localqs| ==> localqs[i] != localqs[j] && localqs[i].ring != localqs[j].ring)
    }

    ghost predicate SharedOk()
      reads sharedq
    {
      sharedq.Valid() && BULK * REFILL_MULTIPLIER <= sharedq.size
    }

    ghost function Shared(): seq<Ptr>
      requires sharedq.Valid()
      reads sharedq, sharedq.ring
    {
      sharedq.Contents()
    }

    ghost function Local(cpu: nat): seq<Ptr>
      requires cpu < |localqs| && localqs[cpu].Valid()
      reads localqs, set q | q in localqs :: q.ring
    {
      localqs[cpu].Contents()
    }

    // The queues of a pool whose allocations have all succeeded.
    constructor (slab: Slab, sharedq: AlfQueue, localqs: seq<AlfQueue>)
      ensures this.slab == slab && this.sharedq == sharedq && this.localqs == localqs
    {
      this.slab, this.sharedq, this.localqs := slab, sharedq, localqs;
    }

    /**
     * Refill the empty sharedq from the slab, and return one element more.  If the slab fails inside the
     * refill, after `got` of its 32 elements, then of the j = got % 16 elements on the stack the last is
     * enqueued nowhere, and the BUG fires exactly when j is 0 or 1.
     */
    method AllocFromSlab() returns (elem: Ptr, bug: bool, ghost got: nat)
      requires SharedOk() && Shared() == []
      modifies slab`calls, sharedq`producer, sharedq.ring
      ensures SharedOk()
      ensures slab.oom(old(slab.calls)) ==> elem == NULL && !bug && Shared() == [] && slab.calls == old(slab.calls) + 1
      ensures !slab.oom(old(slab.calls)) ==>
                elem == old(slab.calls) + 1 && Refilled(slab.oom, old(slab.calls) + 1, got, bug, Shared(), slab.calls)
    {
      hide Refilled, Refilling, Round, AlfQueue.Contents;
      ghost var call := slab.calls + 1;
      bug, got := false, 0;
      elem := slab.Alloc();
      if elem == NULL { return; }
      RefillBegins(slab.oom, call);
      var i := 0;
      while i < REFILL_MULTIPLIER
        invariant 0 <= i <= REFILL_MULTIPLIER && SharedOk() && !bug && elem == call && got == BULK * i
        invariant Refilling(slab.oom, call, i, Shared(), slab.calls)
      {
        ghost var was, before := Shared(), slab.calls;
        RefillingHolds(slab.oom, call, i, was, before);
        var n;
        bug, n := RefillBulk(call);
        RoundRefills(slab.oom, call, i, n, bug, was, Shared(), before, slab.calls);
        got := got + n;
        if n < BULK { return; }
        i := i + 1;
      }
      RefillEnds(slab.oom, call, Shared(), slab.calls);
    }

    // One round of the refill loop, which has got n elements from the slab.
    method RefillBulk(ghost call: nat) returns (bug: bool, n: nat)
      requires SharedOk() && |Shared()| + BULK <= sharedq.size
      requires Shared() == Ids(call, |Shared()|) && slab.calls == call + |Shared()|
      modifies slab`calls, sharedq`producer, sharedq.ring
      ensures SharedOk() && Round(slab.oom, call, n, bug, old(Shared()), Shared(), old(slab.calls), slab.calls)
    {
      ghost var was, before := Shared(), slab.calls;
      var elems := slab.AllocUpTo(BULK);
      n := |elems|;
      if n < BULK {
        bug := EnqueueBroken(elems);
      } else {
        // num = alf_mp_enqueue(pool->sharedq, elems, QMEMPOOL_BULK); BUG_ON(num == 0)
        var num := sharedq.MpEnqueue(elems);
        bug := num == 0;
      }
      MakeRound(slab.oom, call, bug, was, elems, Shared(), before, slab.calls);
    }

    // num = alf_mp_enqueue(pool->sharedq, elems, j-1); BUG_ON(num == 0), where elems holds j elements:
    // with j == 0 the count is 2^32 - 1, which no queue has room for.
    method EnqueueBroken(elems: seq<Ptr>) returns (bug: bool)
      requires SharedOk() && |Shared()| + |elems| <= sharedq.size
      modifies sharedq`producer, sharedq.ring
      ensures SharedOk() && Shared() == old(Shared()) + (if elems == [] then [] else elems[..|elems| - 1])
      ensures bug <==> |elems| <= 1
    {
      if elems == [] { return true; }
      var num := sharedq.MpEnqueue(elems[..|elems| - 1]);
      bug := num == 0;
    }

    // A local queue of this pool, as the functions below are handed it.
    ghost predicate LocalOk(localq: AlfQueue)
      reads localq
    {
      localq.Valid() && BULK <= localq.size && localq != sharedq && localq.ring != sharedq.ring
    }

    /** With the localq empty: up to 16 elements from the sharedq, one for the caller; else the slab. */
    method AllocFromSharedq(localq: AlfQueue) returns (elem: Ptr, bug: bool, ghost got: nat)
      requires SharedOk() && LocalOk(localq) && localq.Contents() == []
      modifies slab`calls, sharedq, sharedq.ring, localq`producer, localq.ring
      ensures SharedOk() && LocalOk(localq)
      ensures old(Shared()) != [] ==> Moved(old(Shared()), elem, localq.Contents(), Shared()) && !bug && slab.calls == old(slab.calls)
      ensures old(Shared()) == [] ==> localq.Contents() == [] && FromSlab(old(slab.calls), elem, got, bug)
    {
      hide AlfQueue.Valid, AlfQueue.Contents, Refilled;
      bug, got := false, 0;
      var elems := sharedq.McDequeue(BULK);
      if |elems| > 0 {
        elem := elems[0];
        if |elems| > 1 {
          var num := localq.SpEnqueue(elems[1..]);
          bug := num == 0;
        }
      } else {
        elem, bug, got := AllocFromSlab();
      }
    }

    // One element of the shared queue went to the caller, up to 15 more to the local queue.
    ghost predicate Moved(was: seq<Ptr>, elem: Ptr, local: seq<Ptr>, shared: seq<Ptr>) {
      && was == [elem] + local + shared && |local| == (if |was| < BULK then |was| else BULK) - 1
    }

    ghost predicate FromSlab(calls: nat, elem: Ptr, got: nat, bug: bool)
      requires sharedq.Valid()
      reads this, slab, sharedq, sharedq.ring
    {
      if slab.oom(calls) then elem == NULL && !bug && Shared() == [] && slab.calls == calls + 1
      else elem == calls + 1 && Refilled(slab.oom, calls + 1, got, bug, Shared(), slab.calls)
    }

    /** main_qmempool_alloc on CPU cpu. */
    method Alloc(cpu: nat) returns (elem: Ptr, bug: bool, ghost got: nat)
      requires Valid() && cpu < |localqs|
      modifies slab`calls, sharedq, sharedq.ring, localqs[cpu], localqs[cpu].ring
      ensures Valid()
      ensures old(Local(cpu)) != [] ==>
                old(Local(cpu)) == [elem] + Local(cpu) && Shared() == old(Shared()) && !bug && slab.calls == old(slab.calls)
      ensures old(Local(cpu)) == [] && old(Shared()) != [] ==>
                Moved(old(Shared()), elem, Local(cpu), Shared()) && !bug && slab.calls == old(slab.calls)
      ensures old(Local(cpu)) == [] && old(Shared()) == [] ==> Local(cpu) == [] && FromSlab(old(slab.calls), elem, got, bug)
    {
      bug, got := false, 0;
      var localq := localqs[cpu];
      var num := localq.ScDequeue(1);
      if |num| == 1 { return num[0], bug, got; }
      elem, bug, got := AllocFromSharedq(localq);
    }

    /** elems go back to the slab, and up to 32 more elements from the front of the sharedq. */
    method FreeToSlab(elems: seq<Ptr>)
      requires SharedOk()
      modifies slab`freed, sharedq`consumer
      ensures SharedOk()
      ensures var n := |old(Shared())| - |Shared()|;
        && n == (if |old(Shared())| < BULK * REFILL_MULTIPLIER then |old(Shared())| else BULK * REFILL_MULTIPLIER)
        && Shared() == old(Shared())[n..] && slab.freed == old(slab.freed) + elems + old(Shared())[..n]
    {
      ghost var was, freed := Shared(), slab.freed + elems;
      slab.FreeAll(elems);
      // REFILL_MULTIPLIER rounds: two
      var first := DrainBulk();
      var second := DrainBulk();
      DrainTwice(freed, was, first, second);
    }

    // One round of the loop that makes room in the sharedq.
    method DrainBulk() returns (num: nat)
      requires SharedOk()
      modifies slab`freed, sharedq`consumer
      ensures SharedOk() && num == (if |old(Shared())| < BULK then |old(Shared())| else BULK)
      ensures Shared() == old(Shared())[num..] && slab.freed == old(slab.freed) + old(Shared())[..num]
    {
      var elems := sharedq.McDequeue(BULK);
      slab.FreeAll(elems);
      num := |elems|;
    }

    /**
     * elem and 15 elements of the full localq go to the sharedq, or to the slab with up to 32 more when
     * the sharedq has no room for them.
     */
    method FreeToSharedq(elem: Ptr, localq: AlfQueue) returns (bug: bool)
      requires SharedOk() && LocalOk(localq) && |localq.Contents()| == localq.size
      modifies slab`freed, sharedq, sharedq.ring, localq`consumer
      ensures SharedOk() && LocalOk(localq) && !bug
      ensures localq.Contents() == old(localq.Contents())[BULK - 1..]
      ensures Returned([elem] + old(localq.Contents())[..BULK - 1], old(Shared()), old(slab.freed))
    {
      var taken := localq.ScDequeue(BULK - 1);
      if |taken| == 0 { return true; }
      var elems := [elem] + taken;
      var num := sharedq.MpEnqueue(elems);
      if num == |elems| { return false; }
      FreeToSlab(elems);
      bug := false;
    }

    // Where the elements given back ended up.
    ghost predicate Returned(elems: seq<Ptr>, shared: seq<Ptr>, freed: seq<Ptr>)
      requires sharedq.Valid()
      reads this, slab, sharedq, sharedq.ring
    {
      if |shared| + |elems| <= sharedq.size then
        Shared() == shared + elems && slab.freed == freed
      else
        var n := if |shared| < BULK * REFILL_MULTIPLIER then |shared| else BULK * REFILL_MULTIPLIER;
        Shared() == shared[n..] && slab.freed == freed + elems + shared[..n]
    }

    /** main_qmempool_free on CPU cpu. */
    method Free(cpu: nat, elem: Ptr) returns (bug: bool)
      requires Valid() && cpu < |localqs|
      modifies slab`freed, sharedq, sharedq.ring, localqs[cpu], localqs[cpu].ring
      ensures Valid() && !bug
      ensures |old(Local(cpu))| < localqs[cpu].size ==>
                Local(cpu) == old(Local(cpu)) + [elem] && Shared() == old(Shared()) && slab.freed == old(slab.freed)
      ensures |old(Local(cpu))| == localqs[cpu].size ==>
                && Local(cpu) == old(Local(cpu))[BULK - 1..]
                && Returned([elem] + old(Local(cpu))[..BULK - 1], old(Shared()), old(slab.freed))
    {
      bug := false;
      var localq := localqs[cpu];
      var num := localq.SpEnqueue([elem]);
      if num == 1 { return; }
      bug := FreeToSharedq(elem, localq);
    }

    // What the first n local queues hold.
    ghost function Locals(n: nat): (r: seq<seq<Ptr>>)
      requires n <= |localqs| && forall i :: 0 <= i < n ==> localqs[i].Valid()
      reads localqs, set q | q in localqs :: q.ring
      ensures |r| == n && forall i :: 0 <= i < n ==> r[i] == localqs[i].Contents()
    {
      if n == 0 then [] else Locals(n - 1) + [localqs[n - 1].Contents()]
    }

    // Local queues j and up still hold what they held, and so does the sharedq.
    ghost predicate HeldFrom(j: nat, was: seq<seq<Ptr>>, shared: seq<Ptr>)
      reads this, sharedq, sharedq.ring, localqs, set q | q in localqs :: q.ring
    {
      && SharedOk() && Shared() == shared && |was| == |localqs|
      && (forall i :: j <= i < |localqs| ==> localqs[i].Valid() && localqs[i].Contents() == was[i])
      && (forall i :: 0 <= i < |localqs| ==> localqs[i] != sharedq && localqs[i].ring != sharedq.ring)
      && (forall i, j :: 0 <= i < j < |localqs| ==> localqs[i] != localqs[j] && localqs[i].ring != localqs[j].ring)
    }

    method FreeLocal(j: nat, ghost was: seq<seq<Ptr>>, ghost shared: seq<Ptr>) returns (bug: bool)
      requires j < |localqs| && HeldFrom(j, was, shared)
      modifies slab`freed, localqs[j]
      ensures HeldFrom(j + 1, was, shared) && !bug && slab.freed == old(slab.freed) + was[j]
    {
      bug := slab.FreeQueue(localqs[j]);
    }

    method FreeLocals(ghost was: seq<seq<Ptr>>, ghost shared: seq<Ptr>) returns (bug: bool)
      requires HeldFrom(0, was, shared)
      modifies slab`freed, localqs
      ensures HeldFrom(|localqs|, was, shared) && !bug
      ensures slab.freed == old(slab.freed) + Flat(was)
    {
      bug := false;
      ghost var freed := slab.freed;
      var j := 0;
      while j < |localqs|
        invariant 0 <= j <= |localqs| && !bug && HeldFrom(j, was, shared)
        invariant slab.freed == freed + Flat(was[..j])
      {
        FlatStep(freed, was, j);
        bug := FreeLocal(j, was, shared);
        j := j + 1;
      }
      assert was[..j] == was;
    }

    /** qmempool_destroy: every element cached in any queue goes back to the slab, each once. */
    method Destroy() returns (bug: bool)
      requires Valid()
      modifies slab`freed, sharedq`consumer, localqs
      ensures !bug && slab.freed == old(slab.freed) + Flat(old(Locals(|localqs|))) + old(Shared())
    {
      bug := FreeLocals(Locals(|localqs|), Shared());
      if !bug { bug := slab.FreeQueue(sharedq); }
    }
  }

  // What one allocation does to the cached elements: it takes the first, or refills.
  ghost predicate NextOf(call: nat, rest: seq<Ptr>, elem: Ptr, rest': seq<Ptr>, asked: int) {
    if rest != [] then rest == [elem] + rest' && asked == 0
    else elem == call + 1 && rest' == Ids(call + 1, 32) && asked == 33
  }

  lemma NextIsId(call: nat, at: nat, rest: seq<Ptr>, elem: Ptr, rest': seq<Ptr>, asked: int)
    requires NextOf(call, rest, elem, rest', asked) && rest == Ids(at, |rest|) && (rest == [] ==> at == call)
    ensures elem == at + 1 && rest' == Ids(at + 1, |rest'|) && |rest'| == |rest| + asked - 1
  {
    if rest != [] { assert rest[0] == elem && rest' == rest[1..]; }
  }

  method AllocNext(pool: QmemPool, cpu: nat) returns (elem: Ptr, bug: bool)
    requires pool.Valid() && cpu < |pool.localqs| && forall c :: !pool.slab.oom(c)
    modifies pool.slab`calls, pool.sharedq, pool.sharedq.ring, pool.localqs[cpu], pool.localqs[cpu].ring
    ensures pool.Valid() && !bug
    ensures NextOf(old(pool.slab.calls), old(pool.Local(cpu) + pool.Shared()), elem, pool.Local(cpu) + pool.Shared(),
                   pool.slab.calls - old(pool.slab.calls))
  {
    hide AlfQueue.Valid, AlfQueue.Contents;
    ghost var got;
    elem, bug, got := pool.Alloc(cpu);
  }

  /**
   * k allocations in a row on one CPU of an empty pool, with a slab that does not fail: the elements come
   * in the order of the slab, no BUG fires, and the slab is asked for 33 elements ceil(k / 33) times.
   */
  method AllocRun(pool: QmemPool, cpu: nat, k: nat) returns (elems: seq<Ptr>, bug: bool, refills: nat)
    requires pool.Valid() && cpu < |pool.localqs| && pool.Local(cpu) == [] && pool.Shared() == []
    requires forall c :: !pool.slab.oom(c)
    modifies pool.slab`calls, pool.sharedq, pool.sharedq.ring, pool.localqs[cpu], pool.localqs[cpu].ring
    ensures pool.Valid() && !bug && elems == Ids(old(pool.slab.calls), k)
    ensures refills == (k + 32) / 33 && pool.slab.calls == old(pool.slab.calls) + 33 * refills
  {
    elems, bug, refills := [], false, 0;
    ghost var c := pool.slab.calls;
    var i := 0;
    while i < k
      invariant 0 <= i <= k && pool.Valid() && !bug
      invariant RunSoFar(c, i, elems, refills, pool.Local(cpu) + pool.Shared(), pool.slab.calls)
    {
      var before, elem := pool.slab.calls, NULL;
      ghost var rest := pool.Local(cpu) + pool.Shared();
      elem, bug := AllocNext(pool, cpu);
      RunOn(c, i, elems, refills, rest, before, elem, pool.Local(cpu) + pool.Shared(), pool.slab.calls);
      elems := elems + [elem];
      if pool.slab.calls != before { refills := refills + 1; }
      i := i + 1;
    }
  }

  // After i allocations from slab call c on: the elements handed out, and those cached.
  ghost predicate RunSoFar(c: nat, i: nat, elems: seq<Ptr>, refills: nat, rest: seq<Ptr>, calls: nat) {
    && elems == Ids(c, i) && refills == (i + 32) / 33 && calls == c + 33 * refills
    && rest == Ids(c + i, |rest|) && i + |rest| == 33 * refills
  }

  lemma RunOn(c: nat, i: nat, elems: seq<Ptr>, refills: nat, rest: seq<Ptr>, before: nat, elem: Ptr, rest': seq<Ptr>, calls: nat)
    requires RunSoFar(c, i, elems, refills, rest, before) && NextOf(before, rest, elem, rest', calls - before)
    ensures RunSoFar(c, i + 1, elems + [elem], if calls != before then refills + 1 else refills, rest', calls)
  {
    NextIsId(before, c + i, rest, elem, rest', calls - before);
  }

  /** The arguments that qmempool_create accepts. */
  predicate Accepts(localqSz: u32, sharedqSz: u32, prealloc: u32) {
    && BULK <= localqSz && BULK * REFILL_MULTIPLIER <= sharedqSz
    && IsPowerOf2(localqSz) && IsPowerOf2(sharedqSz) && prealloc <= sharedqSz
  }

  /** Powers of two of at least 16 and 32 elements, and no more preallocated than the second holds. */
  lemma AcceptsIff(localqSz: u32, sharedqSz: u32, prealloc: u32)
    ensures Accepts(localqSz, sharedqSz, prealloc) <==>
              && 16 <= localqSz && (exists k: nat :: IsPow2(localqSz, k))
              && 32 <= sharedqSz && (exists k: nat :: IsPow2(sharedqSz, k)) && prealloc <= sharedqSz
  {
    hide IsPowerOf2, IsPow2;
    PowerOf2Test(localqSz);
    PowerOf2Test(sharedqSz);
  }

  // Which of its allocations find memory: the pool, the sharedq, the per-CPU area, and each local queue.
  datatype Memory = Memory(pool: bool, shared: bool, percpu: bool, local: nat -> bool)

  // alf_queue_alloc returns a queue, and no error pointer.
  predicate QueueMade(size: u32, memory: bool) {
    IsPowerOf2(size) && size <= MAX_SIZE && memory
  }

  ghost predicate LocalsMade(size: u32, cpus: nat, local: nat -> bool) {
    forall j :: 0 <= j < cpus ==> QueueMade(size, local(j))
  }

  // The slab has n elements from call number `call` on.
  ghost predicate Lasts(oom: nat -> bool, call: nat, n: nat) {
    forall k :: call <= k < call + n ==> !oom(k)
  }

  lemma LastsNone(oom: nat -> bool, call: nat)
    ensures Lasts(oom, call, 0)
  {
  }

  lemma LastsOn(oom: nat -> bool, call: nat, n: nat)
    requires Lasts(oom, call, n) && !oom(call + n)
    ensures Lasts(oom, call, n + 1)
  {
  }

  // Nothing but the pool reaches its queues.
  ghost predicate FreshQueues(queues: seq<AlfQueue>, sharedq: AlfQueue)
    reads queues
  {
    && (forall i :: 0 <= i < |queues| ==> queues[i].Valid() && BULK <= queues[i].size && queues[i].Empty())
    && (forall i :: 0 <= i < |queues| ==> queues[i] != sharedq && queues[i].ring != sharedq.ring)
    && (forall i, j :: 0 <= i < j < |queues| ==> queues[i] != queues[j] && queues[i].ring != queues[j].ring)
  }

  method CreateLocals(localqSz: u32, cpus: nat, sharedq: AlfQueue, memory: nat -> bool)
    returns (ok: bool, localqs: seq<AlfQueue>)
    requires BULK <= localqSz
    ensures ok <==> LocalsMade(localqSz, cpus, memory)
    ensures ok ==> |localqs| == cpus && FreshQueues(localqs, sharedq)
    ensures forall i :: 0 <= i < |localqs| ==> fresh(localqs[i]) && fresh(localqs[i].ring)
  {
    hide AlfQueue.Valid, AlfQueue.Contents, IsPowerOf2;
    localqs := [];
    var j := 0;
    while j < cpus
      invariant 0 <= j <= cpus && |localqs| == j && FreshQueues(localqs, sharedq) && LocalsMade(localqSz, j, memory)
      invariant forall i :: 0 <= i < |localqs| ==> fresh(localqs[i]) && fresh(localqs[i].ring)
    {
      var q, err := AlfQueueAlloc(localqSz, memory(j));
      if q == null {
        assert !QueueMade(localqSz, memory(j));
        return false, localqs;
      }
      localqs := localqs + [q];
      j := j + 1;
    }
    ok := true;
  }

  // One turn of the prealloc loop: an element of the slab goes to the end of the sharedq.
  method PreallocateOne(sharedq: AlfQueue, kmem: Slab) returns (ok: bool, bug: bool)
    requires sharedq.Valid() && |sharedq.Contents()| < sharedq.size
    modifies kmem`calls, sharedq`producer, sharedq.ring
    ensures sharedq.Valid() && !bug && kmem.calls == old(kmem.calls) + 1
    ensures ok <==> !kmem.oom(old(kmem.calls))
    ensures sharedq.Contents() == old(sharedq.Contents()) + (if ok then [old(kmem.calls) + 1] else [])
  {
    hide AlfQueue.Valid, AlfQueue.Contents;
    var elem := kmem.Alloc();
    if elem == NULL { return false, false; }
    var num := sharedq.MpEnqueue([elem]);
    ok, bug := true, num <= 0;
  }

  // The prealloc loop: the elements are in the sharedq, or, when the slab has failed, back in the slab.
  method Preallocate(sharedq: AlfQueue, prealloc: nat, kmem: Slab) returns (ok: bool, bug: bool, ghost got: nat)
    requires sharedq.Valid() && sharedq.Contents() == [] && prealloc <= sharedq.size
    modifies kmem, sharedq, sharedq.ring
    ensures sharedq.Valid() && !bug && got <= prealloc && Lasts(kmem.oom, old(kmem.calls), got)
    ensures ok <==> got == prealloc
    ensures if ok then sharedq.Contents() == Ids(old(kmem.calls), prealloc) && kmem.freed == old(kmem.freed)
            else kmem.oom(old(kmem.calls) + got) && kmem.freed == old(kmem.freed) + Ids(old(kmem.calls), got)
    ensures kmem.calls == old(kmem.calls) + got + (if ok then 0 else 1)
  {
    hide Ids, AlfQueue.Valid, AlfQueue.Contents, Lasts;
    bug, got := false, 0;
    ghost var c := kmem.calls;
    NoIds(c);
    LastsNone(kmem.oom, c);
    var i := 0;
    while i < prealloc
      invariant 0 <= i <= prealloc && sharedq.Valid() && !bug && got == i && kmem.calls == c + i
      invariant sharedq.Contents() == Ids(c, i) && kmem.freed == old(kmem.freed) && Lasts(kmem.oom, c, i)
    {
      ok, bug := PreallocateOne(sharedq, kmem);
      if !ok {
        bug := kmem.FreeQueue(sharedq);
        return;
      }
      NextId(c, i);
      LastsOn(kmem.oom, c, i);
      i, got := i + 1, got + 1;
    }
    ok := true;
  }

  lemma NoIds(call: nat)
    ensures Ids(call, 0) == []
  {
  }

  lemma NextId(call: nat, n: nat)
    ensures Ids(call, n + 1) == Ids(call, n) + [call + n + 1]
  {
  }

  /**
   * qmempool_create.  When a queue cannot be made, the clean-up finds the error pointer of
   * alf_queue_alloc where it expects a queue, and follows it: `oops`.  When anything else fails every
   * element preallocated goes back to the slab.
   */
  method Create(localqSz: u32, sharedqSz: u32, prealloc: u32, kmem: Slab?, cpus: nat, memory: Memory)
    returns (pool: QmemPool?, oops: bool, bug: bool, ghost got: nat)
    modifies kmem
    ensures !bug
    ensures oops <==>
              && Accepts(localqSz, sharedqSz, prealloc) && kmem != null && memory.pool
              && (!QueueMade(sharedqSz, memory.shared)
                  || (Lasts(kmem.oom, old(kmem.calls), prealloc) && memory.percpu && !LocalsMade(localqSz, cpus, memory.local)))
    ensures pool != null <==>
              && Accepts(localqSz, sharedqSz, prealloc) && kmem != null && memory.pool
              && QueueMade(sharedqSz, memory.shared) && Lasts(kmem.oom, old(kmem.calls), prealloc)
              && memory.percpu && LocalsMade(localqSz, cpus, memory.local)
    ensures pool != null ==>
              && fresh(pool) && pool.Valid() && pool.slab == kmem && |pool.localqs| == cpus
              && pool.Shared() == Ids(old(kmem.calls), prealloc) && kmem.freed == old(kmem.freed)
              && forall i :: 0 <= i < cpus ==> pool.Local(i) == []
    ensures pool == null && !oops && kmem != null ==>
              && got <= prealloc && old(kmem.calls) + got <= kmem.calls <= old(kmem.calls) + got + 1
              && (kmem.calls == old(kmem.calls) + got + 1 ==> kmem.oom(old(kmem.calls) + got))
              && kmem.freed == old(kmem.freed) + Ids(old(kmem.calls), got)
  {
    hide Ids, IsPowerOf2, LocalsMade, AlfQueue.Valid, AlfQueue.Contents, AlfQueue.Empty;
    pool, oops, bug, got := null, false, false, 0;
    if kmem != null { NoIds(kmem.calls); }
    if !Accepts(localqSz, sharedqSz, prealloc) || kmem == null || !memory.pool { return; }
    var sharedq, err := AlfQueueAlloc(sharedqSz, memory.shared);
    if sharedq == null { oops := true; return; }
    var ok;
    ok, bug, got := Preallocate(sharedq, prealloc, kmem);
    if !ok { return; }
    if !memory.percpu { bug := kmem.FreeQueue(sharedq); return; }
    var localqs;
    ok, localqs := CreateLocals(localqSz, cpus, sharedq, memory.local);
    if !ok { oops := true; return; }
    pool := new QmemPool(kmem, sharedq, localqs);
  }
}
