/**
 * The object hash of mm/slab_bulk_test03.c and the benchmark loop around it: objects are hashed on the
 * page they lie in, extracted from the next bucket that has one, and freed in bulk.
 */
module ObjHashes {
  import opened Sums
  import opened Words
  import opened RingCopy
  import opened QmemPools
  import opened QmemPoolSteps

  const HASHSZ := 16
  const MAX_BULK := 32768

  function Length(bucket: seq<Ptr>): nat {
    |bucket|
  }

  // The buckets from `from` on, going round, are empty for `gap` buckets, and then there is one with objects.
  ghost predicate FirstAt(buckets: seq<seq<Ptr>>, from: nat, b: nat) {
    && from < |buckets| && b < |buckets| && buckets[b] != []
    && forall d :: 0 <= d < |buckets| && Distance(|buckets|, from, d) < Distance(|buckets|, from, b) ==> buckets[d] == []
  }

  // How often e is in the hash.
  ghost function Held(buckets: seq<seq<Ptr>>, e: Ptr): nat {
    SumOf(InQueue(e), buckets)
  }

  class ObjHash {
    const page: Ptr -> Ptr       // virt_to_head_page
    const jhash: Ptr -> nat      // jhash(&page, 8, 13)
    var objhash: seq<seq<Ptr>>
    var objhashCnt: int

    // The count is the number of objects, and every object is in the bucket of its page.
    ghost predicate Valid()
      reads this
    {
      && |objhash| == HASHSZ && objhashCnt == SumOf(Length, objhash)
      && forall b, k :: 0 <= b < HASHSZ && 0 <= k < |objhash[b]| ==> objhash[b][k] != NULL && Bucket(objhash[b][k]) == b
    }

    function Bucket(obj: Ptr): (b: nat)
      ensures b < HASHSZ
    {
      jhash(page(obj)) % HASHSZ
    }

    method AddOne(obj: Ptr) returns (added: nat)
      requires Valid()
      modifies this
      ensures Valid() && added == if obj == NULL then 0 else 1
      ensures objhashCnt == old(objhashCnt) + added
      ensures obj == NULL ==> objhash == old(objhash)
      ensures obj != NULL ==>
                var b := jhash(page(obj)) % 16;
                b < |old(objhash)| && objhash == old(objhash)[b := [obj] + old(objhash)[b]]
    {
      if obj == NULL { return 0; }
      objhashCnt := objhashCnt + 1;
      var hashIdx := Bucket(obj);
      SumUpdate(Length, objhash, hashIdx, [obj] + objhash[hashIdx]);
      objhash := objhash[hashIdx := [obj] + objhash[hashIdx]];
      added := 1;
    }

    /**
     * With two objects or more the search finds one: the first of the first bucket, from the start of the
     * search on, that has any.
     */
    method Extract(lastObj: Ptr, noMatch: bool) returns (obj: Ptr)
      requires Valid()
      modifies this
      ensures Valid()
      ensures old(objhashCnt) < 2 ==> obj == NULL && objhash == old(objhash) && objhashCnt == old(objhashCnt)
      ensures old(objhashCnt) >= 2 ==> obj != NULL && objhashCnt == old(objhashCnt) - 1
      ensures old(objhashCnt) >= 2 ==>
                var b := (if lastObj == NULL then 0 else jhash(page(lastObj)) % 16) + (if noMatch then 1 else 0);
                Taken(old(objhash), objhash, if b == 16 then 0 else b, obj)
    {
      hide FirstAt, Taken, SumOf;
      var hashIdx: nat := if lastObj == NULL then 0 else Bucket(lastObj);
      if objhashCnt < 2 { return NULL; }
      if noMatch { hashIdx := (hashIdx + 1) % HASHSZ; }
      ghost var was, from := objhash, hashIdx;
      hashIdx := FindBucket(hashIdx);
      IsTaken(was, from, hashIdx);
      obj := objhash[hashIdx][0];
      RemoveFirst(hashIdx);
    }

    // The search: each turn of the loop comes one bucket nearer to one that has objects.
    method FindBucket(from: nat) returns (hashIdx: nat)
      requires Valid() && objhashCnt > 0 && from < HASHSZ
      ensures FirstAt(objhash, from, hashIdx)
    {
      hashIdx := from;
      ghost var full := SumPositive(Length, objhash);
      while objhash[hashIdx] == []
        invariant hashIdx < HASHSZ == |objhash|
        invariant Distance(HASHSZ, from, hashIdx) <= Distance(HASHSZ, from, full)
        invariant forall d :: 0 <= d < HASHSZ && Distance(HASHSZ, from, d) < Distance(HASHSZ, from, hashIdx) ==> objhash[d] == []
        decreases Distance(HASHSZ, from, full) - Distance(HASHSZ, from, hashIdx)
      {
        NextBucket(from, hashIdx, full);
        hashIdx := (hashIdx + 1) % HASHSZ;
      }
    }

    // hlist_del, and objhash_cnt--
    method RemoveFirst(hashIdx: nat)
      requires Valid() && hashIdx < HASHSZ && objhash[hashIdx] != []
      modifies this
      ensures Valid() && objhashCnt == old(objhashCnt) - 1
      ensures objhash == old(objhash)[hashIdx := old(objhash)[hashIdx][1..]]
    {
      SumUpdate(Length, objhash, hashIdx, objhash[hashIdx][1..]);
      objhash := objhash[hashIdx := objhash[hashIdx][1..]];
      objhashCnt := objhashCnt - 1;
    }
  }

  // The bucket after idx is one further on from `from`, unless idx is the last one before it.
  lemma NextBucket(from: nat, idx: nat, full: nat)
    requires from < HASHSZ && idx < HASHSZ && full < HASHSZ && Distance(HASHSZ, from, idx) < Distance(HASHSZ, from, full)
    ensures var next := (idx + 1) % HASHSZ;
      next < HASHSZ && Distance(HASHSZ, from, next) == Distance(HASHSZ, from, idx) + 1
    ensures forall d :: 0 <= d < HASHSZ && Distance(HASHSZ, from, d) == Distance(HASHSZ, from, idx) ==> d == idx
  {
  }

  // The first object of the first bucket with any was taken out.
  ghost predicate Taken(was: seq<seq<Ptr>>, now: seq<seq<Ptr>>, from: nat, obj: Ptr) {
    exists b: nat :: FirstAt(was, from, b) && was[b][0] == obj && now == was[b := was[b][1..]]
  }

  lemma IsTaken(was: seq<seq<Ptr>>, from: nat, b: nat)
    requires FirstAt(was, from, b)
    ensures b < |was| && was[b] != [] && Taken(was, was[b := was[b][1..]], from, was[b][0])
  {
  }

  // ---- The benchmark loop ----

  /** What went into the hash and came out of it balances, object by object. */
  lemma AddedHeld(was: seq<seq<Ptr>>, b: nat, obj: Ptr, e: Ptr)
    requires b < |was|
    ensures Held(was[b := [obj] + was[b]], e) == Held(was, e) + (if e == obj then 1 else 0)
  {
    SumUpdate(InQueue(e), was, b, [obj] + was[b]);
    TimesOne(obj, was[b], e);
  }

  lemma TakenHeld(was: seq<seq<Ptr>>, now: seq<seq<Ptr>>, from: nat, obj: Ptr, e: Ptr)
    requires Taken(was, now, from, obj)
    ensures Held(now, e) == Held(was, e) - (if e == obj then 1 else 0)
  {
    var b: nat :| FirstAt(was, from, b) && was[b][0] == obj && now == was[b := was[b][1..]];
    SumUpdate(InQueue(e), was, b, was[b][1..]);
    TimesOne(obj, was[b][1..], e);
    assert was[b] == [obj] + was[b][1..];
  }

  // my__kmem_cache_alloc_bulk: all n objects, or none.
  method AllocBulk(slab: Slab, n: nat) returns (ok: bool, objs: seq<Ptr>, ghost got: nat)
    modifies slab
    ensures slab.calls >= old(slab.calls) + got && got <= n
    ensures ok <==> forall k :: old(slab.calls) <= k < old(slab.calls) + n ==> !slab.oom(k)
    ensures ok ==> objs == Ids(old(slab.calls), n) && slab.calls == old(slab.calls) + n && slab.freed == old(slab.freed)
    ensures !ok ==> objs == [] && slab.freed == old(slab.freed) + Ids(old(slab.calls), got)
  {
    objs := slab.AllocUpTo(n);
    ok, got := |objs| == n, |objs|;
    if !ok {
      slab.FreeAll(objs);
      objs := [];
    }
  }

  // The loop that places the new objects in the hash.
  method AddAll(h: ObjHash, objs: seq<Ptr>)
    requires h.Valid() && forall i :: 0 <= i < |objs| ==> objs[i] != NULL
    modifies h
    ensures h.Valid() && h.objhashCnt == old(h.objhashCnt) + |objs|
    ensures forall e :: Held(h.objhash, e) == Held(old(h.objhash), e) + Times(objs, e)
  {
    var j := 0;
    while j < |objs|
      invariant 0 <= j <= |objs| && h.Valid() && h.objhashCnt == old(h.objhashCnt) + j
      invariant forall e :: Held(h.objhash, e) == Held(old(h.objhash), e) + Times(objs[..j], e)
    {
      ghost var was := h.objhash;
      var added := h.AddOne(objs[j]);
      forall e: Ptr ensures Held(h.objhash, e) == Held(old(h.objhash), e) + Times(objs[..j + 1], e) {
        AddedHeld(was, h.Bucket(objs[j]), objs[j], e);
        TimesOne(objs[j], objs[..j], e);
        assert objs[..j + 1] == objs[..j] + [objs[j]];
      }
      j := j + 1;
    }
    assert objs[..j] == objs;
  }

  // The loop that takes bulk objects out again.  Object j is looked for from the page of the first object
  // when j is a multiple of modulo, and else away from the page of the one before; `stale` says whether
  // such an object had been freed before.
  method ExtractAll(h: ObjHash, objs: seq<Ptr>, modulo: nat, ghost freed: seq<Ptr>)
    returns (ok: bool, out: seq<Ptr>, ghost stale: bool, ghost seen: seq<seq<seq<Ptr>>>)
    requires h.Valid() && modulo > 0
    requires objs != [] ==> objs[0] !in freed && objs[0] != NULL
    requires forall e :: Held(h.objhash, e) + Times(freed, e) <= 1
    modifies h
    ensures h.Valid() && !stale && (ok <==> objs == [] || old(h.objhashCnt) > |objs|)
    ensures ok ==> |out| == |objs| && h.objhashCnt == old(h.objhashCnt) - |objs|
    ensures forall e :: Held(h.objhash, e) + Times(out, e) == Held(old(h.objhash), e)
    ensures Extracted(h, objs, modulo, out, seen) && seen[0] == old(h.objhash) && seen[|out|] == h.objhash
  {
    hide Extracted, Taken, Held, Times, ObjHash.Valid;
    out, stale, seen := [], false, [h.objhash];
    NothingExtracted(h, objs, modulo, h.objhash);
    var j := 0;
    while j < |objs|
      invariant 0 <= j == |out| <= |objs| && h.Valid() && h.objhashCnt == old(h.objhashCnt) - j && !stale
      invariant j > 0 ==> old(h.objhashCnt) > j
      invariant forall i :: 0 <= i < j ==> out[i] != NULL
      invariant forall e :: Held(h.objhash, e) + Times(out, e) == Held(old(h.objhash), e)
      invariant Extracted(h, objs, modulo, out, seen) && |seen| == j + 1 && seen[0] == old(h.objhash) && seen[j] == h.objhash
    {
      ghost var was := h.objhash;
      OutNotFreed(old(h.objhash), was, out, freed);
      stale := stale || Anchor(objs, modulo, out) in freed;
      var obj := ExtractOne(h, objs, modulo, out);
      if obj == NULL { return false, out, stale, seen; }
      ExtractedOneMore(h, objs, modulo, out, seen, obj, h.objhash);
      OneMoreOut(old(h.objhash), was, h.objhash, SearchFrom(h, objs, modulo, out, j), obj, out);
      out, seen := out + [obj], seen + [h.objhash];
      j := j + 1;
    }
    ok := true;
  }

  // The object that the search goes by.
  function Anchor(objs: seq<Ptr>, modulo: nat, out: seq<Ptr>): Ptr
    requires modulo > 0 && |out| < |objs|
  {
    if |out| % modulo != 0 then out[|out| - 1] else if out == [] then objs[0] else out[0]
  }

  method ExtractOne(h: ObjHash, objs: seq<Ptr>, modulo: nat, out: seq<Ptr>) returns (obj: Ptr)
    requires h.Valid() && modulo > 0 && |out| < |objs| && objs[0] != NULL && forall i :: 0 <= i < |out| ==> out[i] != NULL
    modifies h
    ensures h.Valid() && (obj == NULL <==> old(h.objhashCnt) < 2)
    ensures obj == NULL ==> h.objhash == old(h.objhash) && h.objhashCnt == old(h.objhashCnt)
    ensures obj != NULL ==>
              && h.objhashCnt == old(h.objhashCnt) - 1
              && Taken(old(h.objhash), h.objhash, SearchFrom(h, objs, modulo, out, |out|), obj)
  {
    hide Taken, ObjHash.Valid;
    obj := h.Extract(Anchor(objs, modulo, out), |out| % modulo != 0);
  }

  lemma OneMoreOut(start: seq<seq<Ptr>>, was: seq<seq<Ptr>>, now: seq<seq<Ptr>>, from: nat, obj: Ptr, out: seq<Ptr>)
    requires Taken(was, now, from, obj) && forall e :: Held(was, e) + Times(out, e) == Held(start, e)
    ensures forall e :: Held(now, e) + Times(out + [obj], e) == Held(start, e)
  {
    hide Taken, Held, Times;
    forall e: Ptr ensures Held(now, e) + Times(out + [obj], e) == Held(start, e) {
      TakenHeld(was, now, from, obj, e);
      TimesOne(obj, out, e);
    }
  }

  lemma NothingExtracted(h: ObjHash, objs: seq<Ptr>, modulo: nat, now: seq<seq<Ptr>>)
    requires modulo > 0
    ensures Extracted(h, objs, modulo, [], [now]) && forall e :: Times([], e) == 0
  {
  }

  // The bucket from which object j is looked for: that of the page of the first object, or the one after that
  // of the page of the object before.
  function SearchFrom(h: ObjHash, objs: seq<Ptr>, modulo: nat, out: seq<Ptr>, j: nat): nat
    requires modulo > 0 && j <= |out| && j < |objs|
  {
    if j % modulo == 0 then h.jhash(h.page(if j == 0 then objs[0] else out[0])) % 16
    else (h.jhash(h.page(out[j - 1])) % 16 + 1) % 16
  }

  // Object after object was taken from the first non-empty bucket; `seen` are the buckets before and after each.
  ghost predicate Extracted(h: ObjHash, objs: seq<Ptr>, modulo: nat, out: seq<Ptr>, seen: seq<seq<seq<Ptr>>>) {
    && modulo > 0 && |out| <= |objs| && |seen| == |out| + 1
    && forall j :: 0 <= j < |out| ==> Taken(seen[j], seen[j + 1], SearchFrom(h, objs, modulo, out, j), out[j])
  }

  lemma ExtractedOneMore(h: ObjHash, objs: seq<Ptr>, modulo: nat, out: seq<Ptr>, seen: seq<seq<seq<Ptr>>>, obj: Ptr, now: seq<seq<Ptr>>)
    requires Extracted(h, objs, modulo, out, seen) && |out| < |objs|
    requires Taken(seen[|out|], now, SearchFrom(h, objs, modulo, out, |out|), obj)
    ensures Extracted(h, objs, modulo, out + [obj], seen + [now])
  {
    forall j | 0 <= j < |out| + 1
      ensures Taken((seen + [now])[j], (seen + [now])[j + 1], SearchFrom(h, objs, modulo, out + [obj], j), (out + [obj])[j])
    {
      assert SearchFrom(h, objs, modulo, out + [obj], j) == SearchFrom(h, objs, modulo, out, j);
    }
  }

  lemma OutNotFreed(was: seq<seq<Ptr>>, now: seq<seq<Ptr>>, out: seq<Ptr>, freed: seq<Ptr>)
    requires forall e :: Held(was, e) + Times(freed, e) <= 1
    requires forall e :: Held(now, e) + Times(out, e) == Held(was, e)
    ensures forall i :: 0 <= i < |out| ==> out[i] !in freed
  {
    forall i, k | 0 <= i < |out| && 0 <= k < |freed| ensures out[i] != freed[k] {
      TimesMember(out, i);
      TimesMember(freed, k);
      assert Held(was, out[i]) + Times(freed, out[i]) <= 1;
      assert Held(now, out[i]) + Times(out, out[i]) == Held(was, out[i]);
    }
  }

  // Objects of the slab are in the hash or freed, each once at most.
  ghost predicate Accounted(buckets: seq<seq<Ptr>>, freed: seq<Ptr>, calls: nat) {
    forall e: Ptr :: Held(buckets, e) + Times(freed, e) <= if e <= calls then 1 else 0
  }

  /**
   * One round: with at least one object in the hash beforehand, bulk objects are allocated, and bulk
   * distinct ones are freed, none of them freed before, and none consulted after it was freed.  With an
   * empty hash the round breaks off without freeing anything.
   */
  method Round(h: ObjHash, slab: Slab, bulk: nat, modulo: nat)
    returns (ok: bool, ghost stale: bool, ghost out: seq<Ptr>, ghost seen: seq<seq<seq<Ptr>>>)
    requires h.Valid() && modulo > 0 && Accounted(h.objhash, slab.freed, slab.calls)
    modifies h, slab
    ensures h.Valid() && !stale && Accounted(h.objhash, slab.freed, slab.calls)
    ensures ok <==> bulk == 0 || (old(h.objhashCnt) > 0 && forall k :: old(slab.calls) <= k < old(slab.calls) + bulk ==> !slab.oom(k))
    ensures ok ==> h.objhashCnt == old(h.objhashCnt) && |slab.freed| == |old(slab.freed)| + bulk
    ensures ok ==>
              && slab.freed == old(slab.freed) + out && Extracted(h, Ids(old(slab.calls), bulk), modulo, out, seen)
              && seen[|out|] == h.objhash
  {
    stale, out, seen := false, [], [];
    ghost var was, freed, calls := h.objhash, slab.freed, slab.calls;
    var objs;
    ghost var got;
    ok, objs, got := AllocBulk(slab, bulk);
    if !ok {
      FreedAccounted(was, freed, calls, got, slab.calls);
      return;
    }
    AddAll(h, objs);
    ghost var full := h.objhash;
    AddedAccounted(was, full, freed, calls, bulk);
    var taken;
    ok, taken, stale, seen := ExtractAll(h, objs, modulo, slab.freed);
    out := taken;
    if ok { slab.FreeAll(taken); }
    OutAccounted(full, h.objhash, freed, out, slab.calls, ok);
  }

  lemma FreedAccounted(buckets: seq<seq<Ptr>>, freed: seq<Ptr>, calls: nat, got: nat, calls': nat)
    requires Accounted(buckets, freed, calls) && calls' >= calls + got
    ensures Accounted(buckets, freed + Ids(calls, got), calls')
  {
    forall e: Ptr ensures Held(buckets, e) + Times(freed + Ids(calls, got), e) <= if e <= calls' then 1 else 0 {
      TimesAppend(freed, Ids(calls, got), e);
      IdTimes(calls, got, e);
      assert Held(buckets, e) + Times(freed, e) <= if e <= calls then 1 else 0;
    }
  }

  lemma AddedAccounted(was: seq<seq<Ptr>>, full: seq<seq<Ptr>>, freed: seq<Ptr>, calls: nat, bulk: nat)
    requires Accounted(was, freed, calls)
    requires forall e :: Held(full, e) == Held(was, e) + Times(Ids(calls, bulk), e)
    ensures Accounted(full, freed, calls + bulk)
    ensures calls + 1 !in freed
  {
    forall e: Ptr ensures Held(full, e) + Times(freed, e) <= if e <= calls + bulk then 1 else 0 {
      IdTimes(calls, bulk, e);
      assert Held(was, e) + Times(freed, e) <= if e <= calls then 1 else 0;
    }
    forall k | 0 <= k < |freed| ensures freed[k] != calls + 1 {
      TimesMember(freed, k);
      assert Held(was, freed[k]) + Times(freed, freed[k]) <= if freed[k] <= calls then 1 else 0;
    }
  }

  lemma OutAccounted(full: seq<seq<Ptr>>, now: seq<seq<Ptr>>, freed: seq<Ptr>, out: seq<Ptr>, calls: nat, ok: bool)
    requires Accounted(full, freed, calls) && forall e :: Held(now, e) + Times(out, e) == Held(full, e)
    ensures Accounted(now, if ok then freed + out else freed, calls)
  {
    forall e: Ptr ensures Held(now, e) + Times(if ok then freed + out else freed, e) <= if e <= calls then 1 else 0 {
      TimesAppend(freed, out, e);
      assert Held(full, e) + Times(freed, e) <= if e <= calls then 1 else 0;
      assert Held(now, e) + Times(out, e) == Held(full, e);
    }
  }

  // The bulk is capped, and a loop count that could overflow 32 bits is refused.
  function Capped(bulk: nat): nat {
    if bulk > MAX_BULK then MAX_BULK else bulk
  }

  predicate TooBig(loops: nat, bulk: nat) {
    loops * bulk * 2 >= TWO32 - 1
  }

  /** The benchmark: all its rounds go through, given a prefilled hash and a slab that does not fail. */
  method Benchmark(h: ObjHash, slab: Slab, loops: nat, step: nat, modulo: int) returns (loopsCnt: nat, ghost stale: bool)
    requires h.Valid() && Accounted(h.objhash, slab.freed, slab.calls)
    modifies h, slab
    ensures h.Valid() && !stale && Accounted(h.objhash, slab.freed, slab.calls)
    ensures var bulk := if step > 32768 then 32768 else step;
      if loops * bulk * 2 >= 0xFFFF_FFFF then loopsCnt == 0
      else old(h.objhashCnt) > 0 && (forall k :: !slab.oom(k)) ==>
        loopsCnt == loops * bulk && |slab.freed| == |old(slab.freed)| + loopsCnt && h.objhashCnt == old(h.objhashCnt)
    ensures old(h.objhashCnt) == 0 && step > 0 ==> loopsCnt == 0
  {
    var moduloMatch := if modulo <= 0 then 32768 * 2 else modulo;
    var bulk := Capped(step);
    loopsCnt, stale := 0, false;
    if TooBig(loops, bulk) { return; }
    var i := 0;
    while i < loops
      invariant 0 <= i <= loops && h.Valid() && !stale && Accounted(h.objhash, slab.freed, slab.calls)
      invariant loopsCnt == i * bulk && |slab.freed| == |old(slab.freed)| + i * bulk && h.objhashCnt == old(h.objhashCnt)
      invariant old(h.objhashCnt) == 0 && bulk > 0 ==> i == 0
    {
      var ok;
      ghost var out, seen;
      ok, stale, out, seen := Round(h, slab, bulk, moduloMatch);
      if !ok { return; }
      i, loopsCnt := i + 1, loopsCnt + bulk;
    }
  }
}
