/**
 * The element copies between a caller's table and a ring: every variant of
 * include/linux/alf_queue_helpers.h, and ENQUEUE_PTRS / DEQUEUE_PTRS of include/linux/ring_queue.h.
 * Each is compared with the copy of one element per masked index.
 */
module RingCopy {
  import opened Words

  // ---- Specification: one element per masked index ----

  /** xs stored one by one at the masked indices head, head + 1, ... */
  function Stored(ring: seq<Ptr>, head: u32, xs: seq<Ptr>): (r: seq<Ptr>)
    requires RingSize(|ring|)
    ensures |r| == |ring|
  {
    if xs == [] then ring
    else
      var n := |xs| - 1;
      SlotInRing(|ring|, W(head + n));
      Stored(ring, head, xs[..n])[Slot(|ring|, W(head + n)) := xs[n]]
  }

  /** The n elements at the masked indices head, head + 1, ... */
  function Loaded(ring: seq<Ptr>, head: u32, n: nat): (r: seq<Ptr>)
    requires RingSize(|ring|)
    ensures |r| == n
  {
    if n == 0 then []
    else
      SlotInRing(|ring|, W(head + n - 1));
      Loaded(ring, head, n - 1) + [ring[Slot(|ring|, W(head + n - 1))]]
  }

  /** r with xs written from position at on, as memcpy does. */
  function Blit(r: seq<Ptr>, at: nat, xs: seq<Ptr>): (b: seq<Ptr>)
    requires at + |xs| <= |r|
    ensures |b| == |r|
  {
    r[..at] + xs + r[at + |xs|..]
  }

  lemma SlotInRing(size: nat, i: u32)
    requires RingSize(size)
    ensures Slot(size, i) < size
  {
    assert W(i) == i;
    SlotIsIndex(size, i);
  }

  /** i steps after head the slot is i further on, or wrapped round once. */
  lemma SlotAfter(size: nat, head: u32, i: nat)
    requires RingSize(size) && i <= size
    ensures Slot(size, head) < size
    ensures Slot(size, W(head + i)) == Wrap(size, Slot(size, head) + i)
  {
    SlotIsIndex(size, head);
    SlotIsIndex(size, head + i);
    IndexAfter(size, head, i);
    SlotOfWord(size, head);
  }

  lemma SlotOfWord(size: nat, i: u32)
    requires size > 0
    ensures Slot(size, W(i)) == Slot(size, i)
  {
    assert W(i) == i;
  }

  function Wrap(size: nat, at: nat): nat {
    if at < size then at else at - size
  }

  lemma {:induction false} IndexAfter(size: nat, x: nat, i: nat)
    requires 0 < size && i <= size
    ensures Index(size, x + i) == Wrap(size, Index(size, x) + i)
    decreases x
  {
    if x >= size { IndexAfter(size, x - size, i); }
  }

  lemma SizeIsSmall(size: nat)
    requires RingSize(size)
    ensures 0 < size < TWO32
  {
  }

  /** Masking head once before adding i, and again after, is masking head + i. */
  lemma SlotAgain(size: nat, head: u32, i: nat)
    requires RingSize(size) && i <= size
    ensures Slot(size, head) < size
    ensures Slot(size, W(Slot(size, head) + i)) == Slot(size, W(head + i))
  {
    hide RingSize, Slot, W, Wrap;
    SizeIsSmall(size);
    SlotAfter(size, head, i);
    var at: u32 := Slot(size, head);
    SlotAfter(size, at, i);
    SlotOfSmall(size, at);
  }

  lemma SlotOfSmall(size: nat, at: u32)
    requires RingSize(size) && at < size
    ensures Slot(size, at) == at
  {
    assert W(at) == at;
    SlotIsIndex(size, at);
  }

  // ---- What the specification means ----

  // The distance from head's slot to slot j, going round the ring.
  function Distance(size: nat, at: nat, j: nat): int {
    if at <= j then j - at else j + size - at
  }

  lemma DistanceIff(size: nat, at: nat, j: nat, n: nat)
    requires at < size && j < size && n < size
    ensures Distance(size, at, j) == n <==> Wrap(size, at + n) == j
  {
  }

  /** Slot j holds the element of the table as far on from head as j is, or what it held before. */
  lemma {:induction false} StoredAt(ring: seq<Ptr>, head: u32, xs: seq<Ptr>, j: nat)
    requires RingSize(|ring|) && |xs| <= |ring| && j < |ring|
    ensures Slot(|ring|, head) < |ring|
    ensures var d := Distance(|ring|, Slot(|ring|, head), j);
      Stored(ring, head, xs)[j] == if 0 <= d < |xs| then xs[d] else ring[j]
    decreases |xs|
  {
    hide RingSize, Slot, W, Distance, Wrap, Stored;
    SlotInRing(|ring|, head);
    StoredStep(ring, head, xs);
    if xs != [] {
      var n := |xs| - 1;
      StoredAt(ring, head, xs[..n], j);
      SlotAfter(|ring|, head, n);
      DistanceIff(|ring|, Slot(|ring|, head), j, n);
    }
  }

  lemma StoredStep(ring: seq<Ptr>, head: u32, xs: seq<Ptr>)
    requires RingSize(|ring|)
    ensures xs == [] ==> Stored(ring, head, xs) == ring
    ensures xs != [] ==>
              var n := |xs| - 1; var j := Slot(|ring|, W(head + n));
              j < |ring| && Stored(ring, head, xs) == Stored(ring, head, xs[..n])[j := xs[n]]
  {
    if xs != [] { SlotInRing(|ring|, W(head + |xs| - 1)); }
  }

  lemma {:induction false} LoadedAt(ring: seq<Ptr>, head: u32, n: nat, i: nat)
    requires RingSize(|ring|) && i < n
    ensures Slot(|ring|, W(head + i)) < |ring| && Loaded(ring, head, n)[i] == ring[Slot(|ring|, W(head + i))]
    decreases n
  {
    SlotInRing(|ring|, W(head + i));
    if i < n - 1 { LoadedAt(ring, head, n - 1, i); }
  }

  lemma LoadedGoingRound(ring: seq<Ptr>, head: u32, n: nat, i: nat)
    requires RingSize(|ring|) && i < n <= |ring|
    ensures Wrap(|ring|, Slot(|ring|, head) + i) < |ring|
    ensures Loaded(ring, head, n)[i] == ring[Wrap(|ring|, Slot(|ring|, head) + i)]
  {
    SlotAfter(|ring|, head, i);
    LoadedAt(ring, head, n, i);
  }

  /** Loading after storing, from the same index, gives the table back. */
  lemma LoadAfterStore(ring: seq<Ptr>, head: u32, xs: seq<Ptr>)
    requires RingSize(|ring|) && |xs| <= |ring|
    ensures Loaded(Stored(ring, head, xs), head, |xs|) == xs
  {
    hide RingSize, Slot, W, Stored, Loaded;
    forall i | 0 <= i < |xs| ensures Loaded(Stored(ring, head, xs), head, |xs|)[i] == xs[i] {
      LoadedAt(Stored(ring, head, xs), head, |xs|, i);
      SlotAfter(|ring|, head, i);
      StoredAt(ring, head, xs, Slot(|ring|, W(head + i)));
    }
  }

  /** Without a wrap the masked stores are one contiguous copy; with a wrap they are two. */
  lemma StoredIsBlit(ring: seq<Ptr>, head: u32, xs: seq<Ptr>, at: nat)
    requires RingSize(|ring|) && Slot(|ring|, head) == at && at + |xs| <= |ring|
    ensures Stored(ring, head, xs) == Blit(ring, at, xs)
  {
    forall j | 0 <= j < |ring| ensures Stored(ring, head, xs)[j] == Blit(ring, at, xs)[j] {
      StoredAt(ring, head, xs, j);
      BlitAt(ring, at, xs, j);
    }
  }

  lemma StoredIsTwoBlits(ring: seq<Ptr>, head: u32, xs: seq<Ptr>, at: nat, k: nat)
    requires RingSize(|ring|) && Slot(|ring|, head) == at && at + k == |ring| && k <= |xs| <= |ring|
    ensures Stored(ring, head, xs) == Blit(Blit(ring, at, xs[..k]), 0, xs[k..])
  {
    var two := Blit(Blit(ring, at, xs[..k]), 0, xs[k..]);
    forall j | 0 <= j < |ring| ensures Stored(ring, head, xs)[j] == two[j] {
      StoredAt(ring, head, xs, j);
      TwoBlitsAt(ring, at, xs, k, j);
    }
  }

  lemma TwoBlitsAt(ring: seq<Ptr>, at: nat, xs: seq<Ptr>, k: nat, j: nat)
    requires at + k == |ring| && k <= |xs| <= |ring| && j < |ring|
    ensures Blit(Blit(ring, at, xs[..k]), 0, xs[k..])[j] ==
            var d := Distance(|ring|, at, j); if 0 <= d < |xs| then xs[d] else ring[j]
  {
    BlitAt(ring, at, xs[..k], j);
    BlitAt(Blit(ring, at, xs[..k]), 0, xs[k..], j);
  }

  lemma BlitAt(r: seq<Ptr>, at: nat, xs: seq<Ptr>, j: nat)
    requires at + |xs| <= |r| && j < |r|
    ensures Blit(r, at, xs)[j] == if at <= j < at + |xs| then xs[j - at] else r[j]
  {
  }

  lemma LoadedIsSlice(ring: seq<Ptr>, head: u32, n: nat, at: nat)
    requires RingSize(|ring|) && Slot(|ring|, head) == at && at + n <= |ring|
    ensures Loaded(ring, head, n) == ring[at..at + n]
  {
    forall i | 0 <= i < n ensures Loaded(ring, head, n)[i] == ring[at + i] { LoadedGoingRound(ring, head, n, i); }
  }

  lemma LoadedIsTwoSlices(ring: seq<Ptr>, head: u32, n: nat, at: nat)
    requires RingSize(|ring|) && Slot(|ring|, head) == at <= |ring| <= at + n && n <= |ring|
    ensures Loaded(ring, head, n) == ring[at..] + ring[..at + n - |ring|]
  {
    forall i | 0 <= i < n ensures Loaded(ring, head, n)[i] == (ring[at..] + ring[..at + n - |ring|])[i] {
      LoadedGoingRound(ring, head, n, i);
      TwoSlicesAt(ring, n, at, i);
    }
  }

  lemma TwoSlicesAt(ring: seq<Ptr>, n: nat, at: nat, i: nat)
    requires at <= |ring| <= at + n && i < n <= |ring|
    ensures (ring[at..] + ring[..at + n - |ring|])[i] == ring[Wrap(|ring|, at + i)]
  {
  }

  /** A head already masked stores and loads at the same slots. */
  lemma {:induction false} StoredMasked(ring: seq<Ptr>, head: u32, xs: seq<Ptr>)
    requires RingSize(|ring|) && |xs| <= |ring|
    ensures Slot(|ring|, head) < |ring| && Stored(ring, Slot(|ring|, head), xs) == Stored(ring, head, xs)
  {
    hide RingSize, Slot, W, Wrap;
    SizeIsSmall(|ring|);
    SlotInRing(|ring|, head);
    if xs != [] {
      StoredMasked(ring, head, xs[..|xs| - 1]);
      SlotAgain(|ring|, head, |xs| - 1);
    }
  }

  lemma {:induction false} LoadedMasked(ring: seq<Ptr>, head: u32, n: nat)
    requires RingSize(|ring|) && n <= |ring|
    ensures Slot(|ring|, head) < |ring| && Loaded(ring, Slot(|ring|, head), n) == Loaded(ring, head, n)
  {
    hide RingSize, Slot, W, Wrap;
    SizeIsSmall(|ring|);
    SlotInRing(|ring|, head);
    if n > 0 {
      LoadedMasked(ring, head, n - 1);
      SlotAgain(|ring|, head, n - 1);
    }
  }

  // ---- Copies of a run of words ----

  // The words of dst from `to` on are the n words of src from `from` on; the others are as they were.
  ghost predicate Moved(was: seq<Ptr>, dst: array<Ptr>, to: nat, src: array<Ptr>, from: nat, n: nat)
    reads dst, src
  {
    |was| == dst.Length && to + n <= dst.Length && from + n <= src.Length &&
    forall j :: 0 <= j < dst.Length ==> dst[j] == if to <= j < to + n then src[from + (j - to)] else was[j]
  }

  lemma MovedIsBlit(was: seq<Ptr>, dst: array<Ptr>, to: nat, src: array<Ptr>, from: nat, n: nat)
    requires Moved(was, dst, to, src, from, n)
    ensures dst[..] == Blit(was, to, src[from..from + n])
  {
    forall j | 0 <= j < dst.Length ensures dst[..][j] == Blit(was, to, src[from..from + n])[j] {
      BlitAt(was, to, src[from..from + n], j);
    }
  }

  lemma MovedNothing(was: seq<Ptr>, dst: array<Ptr>, to: nat, src: array<Ptr>, from: nat)
    requires Moved(was, dst, to, src, from, 0)
    ensures dst[..] == was == Blit(was, 0, [])
  {
  }

  // One run and then the next.
  lemma MovedOn(was: seq<Ptr>, mid: seq<Ptr>, dst: array<Ptr>, to: nat, src: array<Ptr>, from: nat, i: nat, n: nat)
    requires |was| == |mid| == dst.Length && to + i + n <= dst.Length && from + i + n <= src.Length
    requires forall j :: 0 <= j < |mid| ==> mid[j] == if to <= j < to + i then src[from + (j - to)] else was[j]
    requires Moved(mid, dst, to + i, src, from + i, n)
    ensures Moved(was, dst, to, src, from, i + n)
  {
  }

  method Memcpy(dst: array<Ptr>, to: nat, src: array<Ptr>, from: nat, n: nat)
    requires dst != src && to + n <= dst.Length && from + n <= src.Length
    modifies dst
    ensures Moved(old(dst[..]), dst, to, src, from, n)
  {
    forall k | 0 <= k < n { dst[to + k] := src[from + k]; }
  }

  // The plain loop over a run without wrap.
  method CopyRun(dst: array<Ptr>, to: nat, src: array<Ptr>, from: nat, n: nat)
    requires dst != src && to + n <= dst.Length && from + n <= src.Length
    modifies dst
    ensures Moved(old(dst[..]), dst, to, src, from, n)
  {
    ghost var was := dst[..];
    var i, index := from, to;
    while i < from + n
      invariant from <= i <= from + n && index - to == i - from
      invariant Moved(was, dst, to, src, from, i - from)
    {
      dst[index] := src[i];
      i, index := i + 1, index + 1;
    }
  }

  // The loop unrolled four times, without its remainder.
  method CopyByFour(dst: array<Ptr>, to: nat, src: array<Ptr>, from: nat, iterations: nat)
    requires dst != src && iterations % 4 == 0 && to + iterations <= dst.Length && from + iterations <= src.Length
    modifies dst
    ensures Moved(old(dst[..]), dst, to, src, from, iterations)
  {
    ghost var was := dst[..];
    var i := 0;
    while i < iterations
      invariant 0 <= i <= iterations && i % 4 == 0
      invariant Moved(was, dst, to, src, from, i)
    {
      dst[to + i] := src[from + i];
      dst[to + i + 1] := src[from + i + 1];
      dst[to + i + 2] := src[from + i + 2];
      dst[to + i + 3] := src[from + i + 3];
      i := i + 4;
    }
  }

  // The remainder: a case for each of 3, 2 and 1.
  method CopyRest(dst: array<Ptr>, to: nat, src: array<Ptr>, from: nat, r: nat)
    requires dst != src && r < 4 && to + r <= dst.Length && from + r <= src.Length
    modifies dst
    ensures Moved(old(dst[..]), dst, to, src, from, r)
  {
    match r {
      case 3 =>
        dst[to] := src[from];
        dst[to + 1] := src[from + 1];
        dst[to + 2] := src[from + 2];
      case 2 =>
        dst[to] := src[from];
        dst[to + 1] := src[from + 1];
      case 1 =>
        dst[to] := src[from];
      case _ =>
    }
  }

  // The remainder in the queue of queues: the cases fall through, and move both indices on.
  method CopyFallingThrough(dst: array<Ptr>, to: nat, src: array<Ptr>, from: nat, r: nat)
    requires dst != src && r < 4 && to + r <= dst.Length && from + r <= src.Length
    modifies dst
    ensures Moved(old(dst[..]), dst, to, src, from, r)
  {
    var idx, i := to, from;
    if r == 3 { dst[idx] := src[i]; i, idx := i + 1, idx + 1; }
    if r >= 2 { dst[idx] := src[i]; i, idx := i + 1, idx + 1; }
    if r >= 1 { dst[idx] := src[i]; i, idx := i + 1, idx + 1; }
  }

  method CopyUnrolled(dst: array<Ptr>, to: nat, src: array<Ptr>, from: nat, n: nat)
    requires dst != src && to + n <= dst.Length && from + n <= src.Length
    modifies dst
    ensures Moved(old(dst[..]), dst, to, src, from, n)
  {
    ghost var was := dst[..];
    var i := n - n % 4;
    CopyByFour(dst, to, src, from, i);
    ghost var mid := dst[..];
    CopyRest(dst, to + i, src, from + i, n % 4);
    MovedOn(was, mid, dst, to, src, from, i, n % 4);
  }

  method CopyUnrolledThrough(dst: array<Ptr>, to: nat, src: array<Ptr>, from: nat, n: nat)
    requires dst != src && to + n <= dst.Length && from + n <= src.Length
    modifies dst
    ensures Moved(old(dst[..]), dst, to, src, from, n)
  {
    ghost var was := dst[..];
    var i := n - n % 4;
    CopyByFour(dst, to, src, from, i);
    ghost var mid := dst[..];
    CopyFallingThrough(dst, to + i, src, from + i, n % 4);
    MovedOn(was, mid, dst, to, src, from, i, n % 4);
  }

  // How many elements Duff's device copies when asked for n.
  function DuffLength(n: nat): nat {
    if n == 0 then 4 else n
  }

  // The body of Duff's device, entered at a case: 3, 2 and 1 skip the copies above them.
  method DuffBody(dst: array<Ptr>, to: nat, src: array<Ptr>, from: nat, entry: nat) returns (ghost copies: nat)
    requires dst != src && entry < 4 && to + DuffLength(entry) <= dst.Length && from + DuffLength(entry) <= src.Length
    modifies dst
    ensures copies == DuffLength(entry) && Moved(old(dst[..]), dst, to, src, from, copies)
  {
    copies := 0;
    if entry == 0 { dst[to + 3] := src[from + 3]; copies := copies + 1; }
    if entry == 0 || entry == 3 { dst[to + 2] := src[from + 2]; copies := copies + 1; }
    if entry != 1 { dst[to + 1] := src[from + 1]; copies := copies + 1; }
    dst[to] := src[from];
    copies := copies + 1;
  }

  // One round after i words.
  method DuffRound(ghost was: seq<Ptr>, dst: array<Ptr>, to: nat, src: array<Ptr>, from: nat, i: nat, entry: nat)
      returns (ghost copies: nat)
    requires dst != src && entry < 4 && Moved(was, dst, to, src, from, i)
    requires to + i + DuffLength(entry) <= dst.Length && from + i + DuffLength(entry) <= src.Length
    modifies dst
    ensures copies == DuffLength(entry) && Moved(was, dst, to, src, from, i + copies)
  {
    ghost var mid := dst[..];
    copies := DuffBody(dst, to + i, src, from + i, entry);
    MovedOn(was, mid, dst, to, src, from, i, copies);
  }

  /**
   * Duff's device: the switch on n % 4 enters the loop body at a case, and later rounds start at the top.
   * Every word is copied once, and asked for none it copies four.
   */
  method DuffCopy(dst: array<Ptr>, to: nat, src: array<Ptr>, from: nat, n: nat) returns (ghost copies: nat)
    requires dst != src && to + DuffLength(n) <= dst.Length && from + DuffLength(n) <= src.Length
    modifies dst
    ensures copies == DuffLength(n) && Moved(old(dst[..]), dst, to, src, from, copies)
  {
    ghost var was := dst[..];
    assert Moved(was, dst, to, src, from, 0);
    hide Moved;
    var i, r, iterations := 0, n % 4, n - n % 4;
    var entry, more := r, true;
    ghost var rounds := DuffLength(n) / 4;
    copies := 0;
    while more
      invariant 0 <= i == copies <= DuffLength(n)
      invariant DuffLength(n) - i == r + 4 * rounds && entry == r == if i == 0 then n % 4 else 0
      invariant more <==> i < DuffLength(n)
      invariant Moved(was, dst, to, src, from, i)
      decreases DuffLength(n) - i
    {
      ghost var c := DuffRound(was, dst, to, src, from, i, entry);
      copies := copies + c;
      if r > 0 {
        i, r := i + r, 0;
        more := iterations != 0;
      } else {
        i, rounds := i + 4, rounds - 1;
        more := i < iterations;
      }
      entry := 0;
    }
  }

  // ---- Stores ----

  // A ring, and a table with room for n elements.
  predicate CopyArgs(ring: array<Ptr>, ptr: array<Ptr>, n: nat) {
    RingSize(ring.Length) && ring != ptr && n <= ring.Length && n <= ptr.Length
  }

  lemma MovedIsStored(was: seq<Ptr>, ring: array<Ptr>, head: u32, ptr: array<Ptr>, n: nat)
    requires CopyArgs(ring, ptr, n) && Moved(was, ring, Slot(ring.Length, head), ptr, 0, n)
    ensures ring[..] == Stored(was, head, ptr[..n])
  {
    var at := Slot(ring.Length, head);
    MovedIsBlit(was, ring, at, ptr, 0, n);
    StoredIsBlit(was, head, ptr[..n], at);
  }

  // k elements up to the end of the ring, and the others from its start.
  lemma MovedRoundIsStored(was: seq<Ptr>, mid: seq<Ptr>, ring: array<Ptr>, head: u32, ptr: array<Ptr>, k: nat, n: nat)
    requires CopyArgs(ring, ptr, n) && k <= n && Slot(ring.Length, head) + k == ring.Length == |was|
    requires mid == Blit(was, Slot(ring.Length, head), ptr[..k]) && Moved(mid, ring, 0, ptr, k, n - k)
    ensures ring[..] == Stored(was, head, ptr[..n])
  {
    var xs := ptr[..n];
    MovedIsBlit(mid, ring, 0, ptr, k, n - k);
    assert xs[..k] == ptr[..k] && xs[k..] == ptr[k..n];
    StoredIsTwoBlits(was, head, xs, Slot(ring.Length, head), k);
  }

  // The n slots of the ring mem[..size] from `at` on, going round, hold the table; all other words are as they were.
  ghost predicate CopiedIn(was: seq<Ptr>, mem: array<Ptr>, size: nat, at: nat, ptr: array<Ptr>, n: nat)
    reads mem, ptr
  {
    n <= ptr.Length && |was| == mem.Length &&
    forall j :: 0 <= j < mem.Length ==>
      mem[j] == if j < size && 0 <= Distance(size, at, j) < n then ptr[Distance(size, at, j)] else was[j]
  }

  lemma CopiedInIsStored(was: seq<Ptr>, mem: array<Ptr>, size: nat, head: u32, ptr: array<Ptr>, n: nat)
    requires RingSize(size) && size <= mem.Length && n <= size && CopiedIn(was, mem, size, Slot(size, head), ptr, n)
    ensures mem[..] == Stored(was[..size], head, ptr[..n]) + was[size..]
  {
    hide Slot, RingSize, Stored, Distance;
    var now := Stored(was[..size], head, ptr[..n]) + was[size..];
    forall j | 0 <= j < |now| ensures mem[j] == now[j] {
      if j < size { StoredAt(was[..size], head, ptr[..n], j); }
    }
  }

  lemma FirstWord(head: u32)
    ensures head == W(head + 0)
  {
  }

  lemma NextWord(head: u32, i: nat)
    ensures W(W(head + i) + 1) == W(head + (i + 1))
  {
  }

  // One element to the slot i further on than `at`.
  method StoreAt(mem: array<Ptr>, size: nat, ghost at: nat, slot: nat, ptr: array<Ptr>, i: nat, ghost was: seq<Ptr>)
    requires mem != ptr && at < size <= mem.Length && i < size && i < ptr.Length && slot == Wrap(size, at + i)
    requires CopiedIn(was, mem, size, at, ptr, i)
    modifies mem
    ensures CopiedIn(was, mem, size, at, ptr, i + 1)
  {
    mem[slot] := ptr[i];
  }

  method EnqueueStoreMask(pHead: u32, ring: array<Ptr>, ptr: array<Ptr>, n: nat)
    requires CopyArgs(ring, ptr, n)
    modifies ring
    ensures ring[..] == Stored(old(ring[..]), pHead, ptr[..n])
  {
    ghost var was := ring[..];
    StoreMasked(pHead, ring, ring.Length, ptr, n);
    assert was[..ring.Length] == was && was[ring.Length..] == [];
  }

  // The masked loop, in a memory that may go on behind the ring.
  method StoreMasked(pHead: u32, mem: array<Ptr>, size: nat, ptr: array<Ptr>, n: nat)
    requires RingSize(size) && size <= mem.Length && mem != ptr && n <= size && n <= ptr.Length
    modifies mem
    ensures mem[..] == Stored(old(mem[..])[..size], pHead, ptr[..n]) + old(mem[..])[size..]
  {
    hide RingSize, Slot, W, Stored, Wrap;
    FirstWord(pHead);
    SizeIsSmall(size);
    ghost var was, at := mem[..], Slot(size, pHead);
    SlotInRing(size, pHead);
    var i := 0;
    var index: u32 := pHead;
    while i < n
      invariant 0 <= i <= n && index == W(pHead + i)
      invariant CopiedIn(was, mem, size, at, ptr, i)
    {
      var j := Slot(size, index);
      assert j == Wrap(size, at + i) by { SlotAfter(size, pHead, i); }
      StoreAt(mem, size, at, j, ptr, i, was);
      NextWord(pHead, i);
      i, index := i + 1, W(index + 1);
    }
    CopiedInIsStored(was, mem, size, pHead, ptr, n);
  }

  method EnqueueStoreMaskLess(pHead: u32, ring: array<Ptr>, ptr: array<Ptr>, n: nat)
    requires CopyArgs(ring, ptr, n)
    modifies ring
    ensures ring[..] == Stored(old(ring[..]), pHead, ptr[..n])
  {
    ghost var was := ring[..];
    SlotInRing(ring.Length, pHead);
    var index := Slot(ring.Length, pHead);
    if index + n <= ring.Length - 1 {
      CopyRun(ring, index, ptr, 0, n);
      MovedIsStored(was, ring, pHead, ptr, n);
    } else {
      StoredMasked(was, pHead, ptr[..n]);
      EnqueueStoreMask(index, ring, ptr, n);
    }
  }

  method EnqueueStoreMaskLess2(pHead: u32, ring: array<Ptr>, ptr: array<Ptr>, n: nat)
    requires CopyArgs(ring, ptr, n)
    modifies ring
    ensures ring[..] == Stored(old(ring[..]), pHead, ptr[..n])
  {
    ghost var was := ring[..];
    SlotInRing(ring.Length, pHead);
    var i, index := 0, Slot(ring.Length, pHead);
    if index + n <= ring.Length - 1 {
      CopyRun(ring, index, ptr, i, n - i);
      MovedIsStored(was, ring, pHead, ptr, n);
    } else {
      ghost var mid := Blit(was, index, ptr[..ring.Length - index]);
      i := StoreToEnd(ring, index, ptr, n);
      index := 0;
      CopyRun(ring, index, ptr, i, n - i);
      MovedRoundIsStored(was, mid, ring, pHead, ptr, i, n);
    }
  }

  // The first loop of a run that passes the end of the ring.
  method StoreToEnd(ring: array<Ptr>, at: nat, ptr: array<Ptr>, ghost n: nat) returns (i: nat)
    requires ring != ptr && at < ring.Length <= at + n && n <= ptr.Length
    modifies ring
    ensures at + i == ring.Length && ring[..] == Blit(old(ring[..]), at, ptr[..i])
  {
    ghost var was := ring[..];
    var index := at;
    i := 0;
    while index <= ring.Length - 1
      invariant 0 <= i <= n && index == at + i <= ring.Length
      invariant Moved(was, ring, at, ptr, 0, i)
    {
      ring[index] := ptr[i];
      i, index := i + 1, index + 1;
    }
    MovedIsBlit(was, ring, at, ptr, 0, i);
  }

  method EnqueueStoreNomask(pHead: u32, ring: array<Ptr>, ptr: array<Ptr>, n: nat)
    requires CopyArgs(ring, ptr, n)
    modifies ring
    ensures ring[..] == Stored(old(ring[..]), pHead, ptr[..n])
  {
    ghost var was := ring[..];
    SlotInRing(ring.Length, pHead);
    var index := Slot(ring.Length, pHead);
    var i := StoreUpToEnd(ring, index, ptr, n);
    if i == n { MovedIsStored(was, ring, pHead, ptr, n); } else { MovedIsBlit(was, ring, index, ptr, 0, i); }
    ghost var mid := ring[..];
    CopyRun(ring, 0, ptr, i, n - i);
    if i < n { MovedRoundIsStored(was, mid, ring, pHead, ptr, i, n); } else { MovedNothing(mid, ring, 0, ptr, i); }
  }

  // The first loop of "nomask".
  method StoreUpToEnd(ring: array<Ptr>, at: nat, ptr: array<Ptr>, n: nat) returns (i: nat)
    requires ring != ptr && at < ring.Length && n <= ptr.Length
    modifies ring
    ensures i == (if at + n <= ring.Length then n else ring.Length - at) && Moved(old(ring[..]), ring, at, ptr, 0, i)
  {
    ghost var was := ring[..];
    var index := at;
    i := 0;
    while i < n && index <= ring.Length - 1
      invariant 0 <= i <= n && index == at + i <= ring.Length
      invariant Moved(was, ring, at, ptr, 0, i)
    {
      ring[index] := ptr[i];
      i, index := i + 1, index + 1;
    }
  }

  method EnqueueStoreUnroll(pHead: u32, ring: array<Ptr>, ptr: array<Ptr>, n: nat)
    requires CopyArgs(ring, ptr, n)
    modifies ring
    ensures ring[..] == Stored(old(ring[..]), pHead, ptr[..n])
  {
    ghost var was := ring[..];
    SlotInRing(ring.Length, pHead);
    var index := Slot(ring.Length, pHead);
    if index + n <= ring.Length - 1 {
      CopyUnrolled(ring, index, ptr, 0, n);
      MovedIsStored(was, ring, pHead, ptr, n);
    } else {
      StoredMasked(was, pHead, ptr[..n]);
      EnqueueStoreMask(index, ring, ptr, n);
    }
  }

  // What the Duff store leaves in memory whose first `size` words are the ring.
  function DuffStored(mem: seq<Ptr>, size: nat, head: u32, xs: seq<Ptr>, n: nat): seq<Ptr>
    requires RingSize(size) && size + 3 <= |mem| && DuffLength(n) <= |xs|
  {
    SlotInRing(size, head);
    if n == 0 then Blit(mem, Slot(size, head), xs[..4]) else Stored(mem[..size], head, xs[..n]) + mem[size..]
  }

  method EnqueueStoreUnrollDuff(pHead: u32, mem: array<Ptr>, size: nat, ptr: array<Ptr>, n: nat)
    requires RingSize(size) && size + 3 <= mem.Length && mem != ptr && n <= size && DuffLength(n) <= ptr.Length
    modifies mem
    ensures mem[..] == DuffStored(old(mem[..]), size, pHead, ptr[..], n)
  {
    hide RingSize, Slot, W, Moved, Stored, Blit;
    SizeIsSmall(size);
    ghost var was := mem[..];
    SlotInRing(size, pHead);
    var index := Slot(size, pHead);
    if index + n <= size - 1 {
      ghost var copies := DuffCopy(mem, index, ptr, 0, n);
      MovedIsBlit(was, mem, index, ptr, 0, copies);
      BlitIsDuffStored(was, size, pHead, ptr[..], n);
    } else {
      MaskedIsDuffStored(was, size, pHead, ptr[..], n);
      assert ptr[..][..n] == ptr[..n];
      StoreMasked(index, mem, size, ptr, n);
    }
  }

  lemma BlitIsDuffStored(mem: seq<Ptr>, size: nat, head: u32, xs: seq<Ptr>, n: nat)
    requires RingSize(size) && size + 3 <= |mem| && DuffLength(n) <= |xs| && Slot(size, head) + n < size
    ensures Blit(mem, Slot(size, head), xs[0..0 + DuffLength(n)]) == DuffStored(mem, size, head, xs, n)
  {
    if n == 0 {
      assert xs[0..0 + DuffLength(n)] == xs[..4];
    } else {
      assert xs[0..0 + DuffLength(n)] == xs[..n];
      StoredIsBlit(mem[..size], head, xs[..n], Slot(size, head));
      BlitInRing(mem, size, Slot(size, head), xs[..n]);
    }
  }

  lemma MaskedIsDuffStored(mem: seq<Ptr>, size: nat, head: u32, xs: seq<Ptr>, n: nat)
    requires RingSize(size) && size + 3 <= |mem| && DuffLength(n) <= |xs| && 0 < n <= size
    ensures Slot(size, head) < size
    ensures Stored(mem[..size], Slot(size, head), xs[..n]) + mem[size..] == DuffStored(mem, size, head, xs, n)
  {
    StoredMasked(mem[..size], head, xs[..n]);
  }

  lemma BlitInRing(mem: seq<Ptr>, size: nat, at: nat, xs: seq<Ptr>)
    requires at + |xs| <= size <= |mem|
    ensures Blit(mem, at, xs) == Blit(mem[..size], at, xs) + mem[size..]
  {
  }

  // What the memcpy store leaves in the ring.
  function MemcpyStored(ring: seq<Ptr>, head: u32, xs: seq<Ptr>): seq<Ptr>
    requires RingSize(|ring|)
  {
    if |xs| == |ring| then ring else Stored(ring, head, xs)
  }

  method EnqueueStoreMemcpy(pHead: u32, ring: array<Ptr>, ptr: array<Ptr>, n: nat)
    requires CopyArgs(ring, ptr, n)
    modifies ring
    ensures ring[..] == MemcpyStored(old(ring[..]), pHead, ptr[..n])
  {
    ghost var was := ring[..];
    var next, head := Slot(ring.Length, W(pHead + n)), Slot(ring.Length, pHead);
    assert head < ring.Length && next == Wrap(ring.Length, head + n) by { SlotAfter(ring.Length, pHead, n); }
    if next >= head {
      Memcpy(ring, head, ptr, 0, next - head);
      if n < ring.Length { MovedIsStored(was, ring, pHead, ptr, n); } else { MovedNothing(was, ring, head, ptr, 0); }
    } else {
      Memcpy(ring, head, ptr, 0, ring.Length - head);
      MovedIsBlit(was, ring, head, ptr, 0, ring.Length - head);
      Memcpy(ring, 0, ptr, ring.Length - head, next);
      MovedRoundIsStored(was, Blit(was, head, ptr[..ring.Length - head]), ring, pHead, ptr, ring.Length - head, n);
    }
  }

  // ENQUEUE_PTRS: unrolled without a wrap, two loops with one.
  method EnqueuePtrs(prodHead: u32, ring: array<Ptr>, objTable: array<Ptr>, n: nat)
    requires CopyArgs(ring, objTable, n)
    modifies ring
    ensures ring[..] == Stored(old(ring[..]), prodHead, objTable[..n])
  {
    ghost var was := ring[..];
    SlotInRing(ring.Length, prodHead);
    var idx := Slot(ring.Length, prodHead);
    if idx + n < ring.Length {
      CopyUnrolledThrough(ring, idx, objTable, 0, n);
      MovedIsStored(was, ring, prodHead, objTable, n);
    } else {
      var i := StoreToEnd(ring, idx, objTable, n);
      CopyRun(ring, 0, objTable, i, n - i);
      MovedRoundIsStored(was, Blit(was, idx, objTable[..i]), ring, prodHead, objTable, i, n);
    }
  }

  // ---- "simple": the wrap is noticed one slot late ----

  // Where "simple" puts element i of a run that starts at slot `at`.
  function SimpleSlot(size: nat, at: nat, i: nat): nat {
    if at + i <= size then at + i else at + i - size
  }

  // mem[..size] is the ring, mem[size] the word after it: what "simple" leaves there.
  ghost predicate CopiedSimply(was: seq<Ptr>, now: seq<Ptr>, size: nat, at: nat, xs: seq<Ptr>)
  {
    && |was| == |now| && size < |now|
    && (forall i :: 0 <= i < |xs| && SimpleSlot(size, at, i) < |now| ==> now[SimpleSlot(size, at, i)] == xs[i])
    && (forall j :: 0 <= j < |now| && (forall i :: 0 <= i < |xs| ==> SimpleSlot(size, at, i) != j) ==> now[j] == was[j])
  }

  method EnqueueStoreSimple(pHead: u32, mem: array<Ptr>, size: nat, ptr: array<Ptr>, n: nat)
    requires RingSize(size) && size < mem.Length && mem != ptr && n <= size && n <= ptr.Length
    modifies mem
    ensures CopiedSimply(old(mem[..]), mem[..], size, Slot(size, pHead), ptr[..n])
  {
    SlotInRing(size, pHead);
    ghost var was, at := mem[..], Slot(size, pHead);
    var i, index := 0, Slot(size, pHead);
    while i < n
      invariant 0 <= i <= n && index == SimpleSlot(size, at, i)
      invariant CopiedSimply(was, mem[..], size, at, ptr[..i])
    {
      mem[index] := ptr[i];
      if index == size { index := 0; }
      i, index := i + 1, index + 1;
    }
  }

  // ---- Loads ----

  lemma MovedIsLoaded(was: seq<Ptr>, ptr: array<Ptr>, ring: array<Ptr>, head: u32, n: nat)
    requires CopyArgs(ring, ptr, n) && Moved(was, ptr, 0, ring, Slot(ring.Length, head), n)
    ensures ptr[..] == Blit(was, 0, Loaded(ring[..], head, n))
  {
    var at := Slot(ring.Length, head);
    MovedIsBlit(was, ptr, 0, ring, at, n);
    LoadedIsSlice(ring[..], head, n, at);
    assert ring[..][at..at + n] == ring[at..at + n];
  }

  // k elements from the end of the ring, and the others from its start.
  lemma MovedRoundIsLoaded(was: seq<Ptr>, mid: seq<Ptr>, ptr: array<Ptr>, ring: array<Ptr>, head: u32, k: nat, n: nat)
    requires CopyArgs(ring, ptr, n) && k <= n && Slot(ring.Length, head) + k == ring.Length && |was| == ptr.Length
    requires mid == Blit(was, 0, ring[ring.Length - k..]) && Moved(mid, ptr, k, ring, 0, n - k)
    ensures ptr[..] == Blit(was, 0, Loaded(ring[..], head, n))
  {
    hide Moved, Blit, Loaded;
    var at := Slot(ring.Length, head);
    MovedIsBlit(mid, ptr, k, ring, 0, n - k);
    BlitTwice(was, ring[at..], ring[0..0 + (n - k)]);
    LoadedIsTwoParts(ring, head, n, at);
  }

  lemma LoadedIsTwoParts(ring: array<Ptr>, head: u32, n: nat, at: nat)
    requires RingSize(ring.Length) && Slot(ring.Length, head) == at <= ring.Length <= at + n && n <= ring.Length
    ensures Loaded(ring[..], head, n) == ring[at..] + ring[0..0 + (at + n - ring.Length)]
  {
    LoadedIsTwoSlices(ring[..], head, n, at);
    assert ring[..][at..] == ring[at..] && ring[..][..at + n - ring.Length] == ring[0..0 + (at + n - ring.Length)];
  }

  lemma BlitTwice(r: seq<Ptr>, xs: seq<Ptr>, ys: seq<Ptr>)
    requires |xs| + |ys| <= |r|
    ensures Blit(Blit(r, 0, xs), |xs|, ys) == Blit(r, 0, xs + ys)
  {
  }

  method DequeueLoadMask(cHead: u32, ring: array<Ptr>, ptr: array<Ptr>, elems: nat)
    requires CopyArgs(ring, ptr, elems)
    modifies ptr
    ensures ptr[..] == Blit(old(ptr[..]), 0, Loaded(ring[..], cHead, elems))
  {
    LoadMasked(cHead, ring, ring.Length, ptr, elems);
    assert ring[..ring.Length] == ring[..];
  }

  method LoadMasked(cHead: u32, mem: array<Ptr>, size: nat, ptr: array<Ptr>, elems: nat)
    requires RingSize(size) && size <= mem.Length && mem != ptr && elems <= size && elems <= ptr.Length
    modifies ptr
    ensures ptr[..] == Blit(old(ptr[..]), 0, Loaded(mem[..size], cHead, elems))
  {
    hide RingSize, Slot, W, Loaded;
    FirstWord(cHead);
    SizeIsSmall(size);
    ghost var was, out := ptr[..], Loaded(mem[..size], cHead, elems);
    var i := 0;
    var index: u32 := cHead;
    while i < elems
      invariant 0 <= i <= elems && index == W(cHead + i)
      invariant forall k :: 0 <= k < ptr.Length ==> ptr[k] == if k < i then out[k] else was[k]
    {
      LoadedAt(mem[..size], cHead, elems, i);
      ptr[i] := mem[Slot(size, index)];
      NextWord(cHead, i);
      i, index := i + 1, W(index + 1);
    }
    forall k | 0 <= k < ptr.Length ensures ptr[k] == Blit(was, 0, out)[k] { BlitAt(was, 0, out, k); }
  }

  method DequeueLoadMaskLess(cHead: u32, ring: array<Ptr>, ptr: array<Ptr>, elems: nat)
    requires CopyArgs(ring, ptr, elems)
    modifies ptr
    ensures ptr[..] == Blit(old(ptr[..]), 0, Loaded(ring[..], cHead, elems))
  {
    ghost var was := ptr[..];
    SlotInRing(ring.Length, cHead);
    var index := Slot(ring.Length, cHead);
    if index + elems <= ring.Length - 1 {
      CopyRun(ptr, 0, ring, index, elems);
      MovedIsLoaded(was, ptr, ring, cHead, elems);
    } else {
      LoadedMasked(ring[..], cHead, elems);
      DequeueLoadMask(index, ring, ptr, elems);
    }
  }

  method DequeueLoadMaskLess2(cHead: u32, ring: array<Ptr>, ptr: array<Ptr>, elems: nat)
    requires CopyArgs(ring, ptr, elems)
    modifies ptr
    ensures ptr[..] == Blit(old(ptr[..]), 0, Loaded(ring[..], cHead, elems))
  {
    ghost var was := ptr[..];
    SlotInRing(ring.Length, cHead);
    var i, index := 0, Slot(ring.Length, cHead);
    if index + elems <= ring.Length - 1 {
      CopyRun(ptr, i, ring, index, elems - i);
      MovedIsLoaded(was, ptr, ring, cHead, elems);
    } else {
      ghost var mid := Blit(was, 0, ring[index..]);
      i := LoadToEnd(ring, index, ptr, elems);
      index := 0;
      CopyRun(ptr, i, ring, index, elems - i);
      MovedRoundIsLoaded(was, mid, ptr, ring, cHead, i, elems);
    }
  }

  // The first loop of a run that passes the end of the ring.
  method LoadToEnd(ring: array<Ptr>, at: nat, ptr: array<Ptr>, ghost n: nat) returns (i: nat)
    requires ring != ptr && at < ring.Length <= at + n && n <= ptr.Length
    modifies ptr
    ensures at + i == ring.Length && ptr[..] == Blit(old(ptr[..]), 0, ring[at..])
  {
    ghost var was := ptr[..];
    var index := at;
    i := 0;
    while index <= ring.Length - 1
      invariant 0 <= i <= n && index == at + i <= ring.Length
      invariant Moved(was, ptr, 0, ring, at, i)
    {
      ptr[i] := ring[index];
      i, index := i + 1, index + 1;
    }
    MovedIsBlit(was, ptr, 0, ring, at, i);
  }

  method DequeueLoadNomask(cHead: u32, ring: array<Ptr>, ptr: array<Ptr>, elems: nat)
    requires CopyArgs(ring, ptr, elems)
    modifies ptr
    ensures ptr[..] == Blit(old(ptr[..]), 0, Loaded(ring[..], cHead, elems))
  {
    ghost var was := ptr[..];
    SlotInRing(ring.Length, cHead);
    var index := Slot(ring.Length, cHead);
    var i := LoadUpToEnd(ring, index, ptr, elems);
    if i == elems { MovedIsLoaded(was, ptr, ring, cHead, elems); } else { MovedIsBlit(was, ptr, 0, ring, index, i); }
    ghost var mid := ptr[..];
    CopyRun(ptr, i, ring, 0, elems - i);
    if i < elems { MovedRoundIsLoaded(was, mid, ptr, ring, cHead, i, elems); } else { MovedNothing(mid, ptr, i, ring, 0); }
  }

  // The first loop of "nomask".
  method LoadUpToEnd(ring: array<Ptr>, at: nat, ptr: array<Ptr>, n: nat) returns (i: nat)
    requires ring != ptr && at < ring.Length && n <= ptr.Length
    modifies ptr
    ensures i == (if at + n <= ring.Length then n else ring.Length - at) && Moved(old(ptr[..]), ptr, 0, ring, at, i)
  {
    ghost var was := ptr[..];
    var index := at;
    i := 0;
    while i < n && index <= ring.Length - 1
      invariant 0 <= i <= n && index == at + i <= ring.Length
      invariant Moved(was, ptr, 0, ring, at, i)
    {
      ptr[i] := ring[index];
      i, index := i + 1, index + 1;
    }
  }

  method DequeueLoadUnroll(cHead: u32, ring: array<Ptr>, ptr: array<Ptr>, elems: nat)
    requires CopyArgs(ring, ptr, elems)
    modifies ptr
    ensures ptr[..] == Blit(old(ptr[..]), 0, Loaded(ring[..], cHead, elems))
  {
    ghost var was := ptr[..];
    SlotInRing(ring.Length, cHead);
    var index := Slot(ring.Length, cHead);
    if index + elems <= ring.Length - 1 {
      CopyUnrolled(ptr, 0, ring, index, elems);
      MovedIsLoaded(was, ptr, ring, cHead, elems);
    } else {
      LoadedMasked(ring[..], cHead, elems);
      DequeueLoadMask(index, ring, ptr, elems);
    }
  }

  // What the Duff load leaves in a table that held `was`.
  function DuffLoaded(was: seq<Ptr>, mem: seq<Ptr>, size: nat, head: u32, n: nat): seq<Ptr>
    requires RingSize(size) && size + 3 <= |mem| && DuffLength(n) <= |was|
  {
    SlotInRing(size, head);
    var at := Slot(size, head);
    Blit(was, 0, if n == 0 then mem[at..at + 4] else Loaded(mem[..size], head, n))
  }

  method DequeueLoadUnrollDuff(cHead: u32, mem: array<Ptr>, size: nat, ptr: array<Ptr>, elems: nat)
    requires RingSize(size) && size + 3 <= mem.Length && mem != ptr && elems <= size && DuffLength(elems) <= ptr.Length
    modifies ptr
    ensures ptr[..] == DuffLoaded(old(ptr[..]), mem[..], size, cHead, elems)
  {
    hide RingSize, Slot, W, Moved, Loaded, Blit;
    SizeIsSmall(size);
    ghost var was := ptr[..];
    SlotInRing(size, cHead);
    var index := Slot(size, cHead);
    if index + elems <= size - 1 {
      ghost var copies := DuffCopy(ptr, 0, mem, index, elems);
      MovedIsBlit(was, ptr, 0, mem, index, copies);
      BlitIsDuffLoaded(was, mem[..], size, cHead, elems);
      assert mem[..][index..index + copies] == mem[index..index + copies];
    } else {
      LoadedMasked(mem[..size], cHead, elems);
      LoadMasked(index, mem, size, ptr, elems);
      assert mem[..][..size] == mem[..size];
    }
  }

  lemma BlitIsDuffLoaded(was: seq<Ptr>, mem: seq<Ptr>, size: nat, head: u32, n: nat)
    requires RingSize(size) && size + 3 <= |mem| && DuffLength(n) <= |was| && Slot(size, head) + n < size
    ensures var at := Slot(size, head); Blit(was, 0, mem[at..at + DuffLength(n)]) == DuffLoaded(was, mem, size, head, n)
  {
    if n > 0 {
      var at := Slot(size, head);
      LoadedIsSlice(mem[..size], head, n, at);
      assert mem[..size][at..at + n] == mem[at..at + n];
    }
  }

  // What the memcpy load leaves in a table that held `was`.
  function MemcpyLoaded(was: seq<Ptr>, ring: seq<Ptr>, head: u32, n: nat): seq<Ptr>
    requires RingSize(|ring|) && n <= |was|
  {
    Blit(was, 0, if n == |ring| then [] else Loaded(ring, head, n))
  }

  method DequeueLoadMemcpy(cHead: u32, ring: array<Ptr>, ptr: array<Ptr>, elems: nat)
    requires CopyArgs(ring, ptr, elems)
    modifies ptr
    ensures ptr[..] == MemcpyLoaded(old(ptr[..]), ring[..], cHead, elems)
  {
    var next, head := Slot(ring.Length, W(cHead + elems)), Slot(ring.Length, cHead);
    assert head < ring.Length && next == Wrap(ring.Length, head + elems) by { SlotAfter(ring.Length, cHead, elems); }
    MemcpyLoads(cHead, head, next, ring, ptr, elems);
  }

  method MemcpyLoads(ghost cHead: u32, head: nat, next: nat, ring: array<Ptr>, ptr: array<Ptr>, ghost elems: nat)
    requires CopyArgs(ring, ptr, elems)
    requires head == Slot(ring.Length, cHead) < ring.Length && next == Wrap(ring.Length, head + elems)
    modifies ptr
    ensures ptr[..] == MemcpyLoaded(old(ptr[..]), ring[..], cHead, elems)
  {
    hide Moved, Blit, Loaded, Slot;
    ghost var was := ptr[..];
    if next >= head {
      Memcpy(ptr, 0, ring, head, next - head);
      if elems < ring.Length { MovedIsLoaded(was, ptr, ring, cHead, elems); } else { MovedNothing(was, ptr, 0, ring, head); }
    } else {
      ghost var k := ring.Length - head;
      Memcpy(ptr, 0, ring, head, ring.Length - head);
      MovedIsBlit(was, ptr, 0, ring, head, k);
      assert ring[head..head + k] == ring[ring.Length - k..];
      ghost var mid := ptr[..];
      Memcpy(ptr, ring.Length - head, ring, 0, next);
      MovedRoundIsLoaded(was, mid, ptr, ring, cHead, k, elems);
    }
  }

  // DEQUEUE_PTRS
  method DequeuePtrs(consHead: u32, ring: array<Ptr>, objTable: array<Ptr>, n: nat)
    requires CopyArgs(ring, objTable, n)
    modifies objTable
    ensures objTable[..] == Blit(old(objTable[..]), 0, Loaded(ring[..], consHead, n))
  {
    ghost var was := objTable[..];
    SlotInRing(ring.Length, consHead);
    var idx := Slot(ring.Length, consHead);
    if idx + n < ring.Length {
      CopyUnrolledThrough(objTable, 0, ring, idx, n);
      MovedIsLoaded(was, objTable, ring, consHead, n);
    } else {
      var i := LoadToEnd(ring, idx, objTable, n);
      CopyRun(objTable, i, ring, 0, n - i);
      MovedRoundIsLoaded(was, Blit(was, 0, ring[idx..]), objTable, ring, consHead, i, n);
    }
  }

  // What "simple" loads into the front of the table.
  ghost predicate LoadedSimply(out: seq<Ptr>, mem: seq<Ptr>, size: nat, at: nat) {
    forall k :: 0 <= k < |out| ==> SimpleSlot(size, at, k) < |mem| && out[k] == mem[SimpleSlot(size, at, k)]
  }

  method DequeueLoadSimple(cHead: u32, mem: array<Ptr>, size: nat, ptr: array<Ptr>, elems: nat)
    requires RingSize(size) && size < mem.Length && mem != ptr && elems <= size && elems <= ptr.Length
    modifies ptr
    ensures LoadedSimply(ptr[..elems], mem[..], size, Slot(size, cHead)) && ptr[elems..] == old(ptr[elems..])
  {
    SlotInRing(size, cHead);
    ghost var at := Slot(size, cHead);
    var i, index := 0, Slot(size, cHead);
    while i < elems
      invariant 0 <= i <= elems && index == SimpleSlot(size, at, i)
      invariant LoadedSimply(ptr[..i], mem[..], size, at) && ptr[i..] == old(ptr[i..])
    {
      ptr[i] := mem[index];
      if index == size { index := 0; }
      i, index := i + 1, index + 1;
    }
  }

  // ---- Which of them are right, and when ----

  /** Storing changes nothing exactly when the ring holds the table already. */
  lemma StoredNothingIff(ring: seq<Ptr>, head: u32, xs: seq<Ptr>)
    requires RingSize(|ring|) && |xs| <= |ring|
    ensures Stored(ring, head, xs) == ring <==> Loaded(ring, head, |xs|) == xs
  {
    hide Stored, Loaded;
    LoadAfterStore(ring, head, xs);
    if Loaded(ring, head, |xs|) == xs {
      forall j | 0 <= j < |ring| ensures Stored(ring, head, xs)[j] == ring[j] { HeldAlready(ring, head, xs, j); }
    }
  }

  lemma HeldAlready(ring: seq<Ptr>, head: u32, xs: seq<Ptr>, j: nat)
    requires RingSize(|ring|) && |xs| <= |ring| && j < |ring| && Loaded(ring, head, |xs|) == xs
    ensures Stored(ring, head, xs)[j] == ring[j]
  {
    hide RingSize, Slot, W, Distance, Wrap, Stored, Loaded;
    StoredAt(ring, head, xs, j);
    var d := Distance(|ring|, Slot(|ring|, head), j);
    if 0 <= d < |xs| {
      LoadedGoingRound(ring, head, |xs|, d);
      DistanceIff(|ring|, Slot(|ring|, head), j, d);
    }
  }

  function Filled(n: nat, x: Ptr): (r: seq<Ptr>)
    ensures |r| == n && forall i :: 0 <= i < n ==> r[i] == x
  {
    if n == 0 then [] else Filled(n - 1, x) + [x]
  }

  // A ring of zeros does not hold a table of ones.
  lemma ZerosAreNotOnes(size: nat, head: u32, n: nat)
    requires RingSize(size) && 0 < n <= size
    ensures Stored(Filled(size, 0), head, Filled(n, 1)) != Filled(size, 0)
  {
    StoredNothingIff(Filled(size, 0), head, Filled(n, 1));
    LoadedAt(Filled(size, 0), head, n, 0);
  }

  /** The Duff store leaves what the masked loop leaves, whatever the contents, exactly when asked for an element. */
  lemma StoreDuffRightIff(size: nat, head: u32, n: nat)
    requires RingSize(size) && n <= size
    ensures n >= 1 <==> forall mem: seq<Ptr>, xs: seq<Ptr> :: size + 3 <= |mem| && DuffLength(n) <= |xs| ==>
              DuffStored(mem, size, head, xs, n) == Stored(mem[..size], head, xs[..n]) + mem[size..]
  {
    if n == 0 {
      var mem, xs, at := Filled(size + 3, 0), Filled(4, 1), Slot(size, head);
      SlotInRing(size, head);
      BlitAt(mem, at, xs[..4], at);
      assert DuffStored(mem, size, head, xs, n)[at] == 1;
    }
  }

  /** And the Duff load. */
  lemma LoadDuffRightIff(size: nat, head: u32, n: nat)
    requires RingSize(size) && n <= size
    ensures n >= 1 <==> forall was: seq<Ptr>, mem: seq<Ptr> :: size + 3 <= |mem| && DuffLength(n) <= |was| ==>
              DuffLoaded(was, mem, size, head, n) == Blit(was, 0, Loaded(mem[..size], head, n))
  {
    if n == 0 {
      var was, mem, at := Filled(4, 0), Filled(size + 3, 1), Slot(size, head);
      SlotInRing(size, head);
      assert mem[at..at + 4][0] == 1;
      assert DuffLoaded(was, mem, size, head, n)[0] == 1;
    }
  }

  /** memcpy stores what was asked for, whatever the contents, exactly when that is less than a whole ring. */
  lemma StoreMemcpyRightIff(size: nat, head: u32, n: nat)
    requires RingSize(size) && n <= size
    ensures n < size <==> forall ring: seq<Ptr>, xs: seq<Ptr> :: |ring| == size && |xs| == n ==>
              MemcpyStored(ring, head, xs) == Stored(ring, head, xs)
  {
    if n == size {
      var ring, xs := Filled(size, 0), Filled(n, 1);
      ZerosAreNotOnes(size, head, n);
      assert MemcpyStored(ring, head, xs) != Stored(ring, head, xs);
    }
  }

  /** And loads it. */
  lemma LoadMemcpyRightIff(size: nat, head: u32, n: nat)
    requires RingSize(size) && n <= size
    ensures n < size <==> forall was: seq<Ptr>, ring: seq<Ptr> :: |ring| == size && n <= |was| ==>
              MemcpyLoaded(was, ring, head, n) == Blit(was, 0, Loaded(ring, head, n))
  {
    if n == size {
      var was, ring := Filled(n, 0), Filled(size, 1);
      LoadedAt(ring, head, n, 0);
      assert Blit(was, 0, Loaded(ring, head, n))[0] == 1 && MemcpyLoaded(was, ring, head, n)[0] == 0;
    }
  }

  // "simple" left in the ring what the masked loop leaves there, and nothing behind it.
  ghost predicate SimpleRight(was: seq<Ptr>, now: seq<Ptr>, size: nat, head: u32, xs: seq<Ptr>)
    requires RingSize(size) && size < |was|
  {
    now == Stored(was[..size], head, xs) + was[size..]
  }

  lemma SimpleIsRight(was: seq<Ptr>, now: seq<Ptr>, size: nat, head: u32, xs: seq<Ptr>)
    requires RingSize(size) && Slot(size, head) + |xs| <= size && CopiedSimply(was, now, size, Slot(size, head), xs)
    ensures SimpleRight(was, now, size, head, xs)
  {
    var at := Slot(size, head);
    forall j | 0 <= j < |now| ensures now[j] == (Stored(was[..size], head, xs) + was[size..])[j] {
      if j < size { StoredAt(was[..size], head, xs, j); }
      if at <= j < at + |xs| { assert SimpleSlot(size, at, j - at) == j; }
    }
  }

  // What "simple" leaves of ones written into zeros.
  function SimpleOnes(size: nat, at: nat, n: nat): (r: seq<Ptr>)
    ensures |r| == size + 1
  {
    seq(size + 1, j => if at <= j < at + n || 1 <= j < at + n - size then 1 else 0)
  }

  lemma SimpleIsWrong(size: nat, head: u32, n: nat)
    requires RingSize(size) && n <= size < Slot(size, head) + n
    ensures CopiedSimply(Filled(size + 1, 0), SimpleOnes(size, Slot(size, head), n), size, Slot(size, head), Filled(n, 1))
    ensures !SimpleRight(Filled(size + 1, 0), SimpleOnes(size, Slot(size, head), n), size, head, Filled(n, 1))
  {
    var at, was, now, xs := Slot(size, head), Filled(size + 1, 0), SimpleOnes(size, Slot(size, head), n), Filled(n, 1);
    SlotInRing(size, head);
    forall j | 0 <= j < |now| && now[j] != 0 ensures exists i :: 0 <= i < |xs| && SimpleSlot(size, at, i) == j {
      assert SimpleSlot(size, at, if at <= j < at + n then j - at else j + size - at) == j;
    }
    assert now[size] == 1 && (Stored(was[..size], head, xs) + was[size..])[size] == 0;
  }

  /** "simple" is right, whatever the contents, exactly when the run does not pass the end of the ring. */
  lemma StoreSimpleRightIff(size: nat, head: u32, n: nat)
    requires RingSize(size) && n <= size
    ensures Slot(size, head) + n <= size <==>
      forall was: seq<Ptr>, now: seq<Ptr>, xs: seq<Ptr> :: |xs| == n && CopiedSimply(was, now, size, Slot(size, head), xs) ==>
        SimpleRight(was, now, size, head, xs)
  {
    if Slot(size, head) + n <= size {
      forall was: seq<Ptr>, now: seq<Ptr>, xs: seq<Ptr> | |xs| == n && CopiedSimply(was, now, size, Slot(size, head), xs)
        ensures SimpleRight(was, now, size, head, xs)
      {
        SimpleIsRight(was, now, size, head, xs);
      }
    } else {
      SimpleIsWrong(size, head, n);
    }
  }

  lemma SimpleLoadIsRight(mem: seq<Ptr>, size: nat, head: u32, out: seq<Ptr>)
    requires RingSize(size) && size < |mem| && Slot(size, head) + |out| <= size
    requires LoadedSimply(out, mem, size, Slot(size, head))
    ensures out == Loaded(mem[..size], head, |out|)
  {
    hide RingSize, Slot, W, Loaded;
    forall k | 0 <= k < |out| ensures out[k] == Loaded(mem[..size], head, |out|)[k] {
      LoadedGoingRound(mem[..size], head, |out|, k);
      assert SimpleSlot(size, Slot(size, head), k) == Slot(size, head) + k;
    }
  }

  // A ring of zeros and a one behind it: past the end "simple" loads the one.
  lemma SimpleLoadIsWrong(size: nat, head: u32, n: nat)
    requires RingSize(size) && n <= size < Slot(size, head) + n
    ensures exists mem: seq<Ptr>, out: seq<Ptr> :: size < |mem| && |out| == n &&
              LoadedSimply(out, mem, size, Slot(size, head)) && out != Loaded(mem[..size], head, n)
  {
    SlotInRing(size, head);
    var at, mem := Slot(size, head), Filled(size, 0) + [1];
    var out: seq<Ptr> := seq(n, k => if at + k == size then 1 else 0);
    LoadedAt(mem[..size], head, n, size - at);
    assert LoadedSimply(out, mem, size, at) && out[size - at] == 1;
  }

  /** "simple" loads the masked loop's elements, whatever the contents, exactly when the run does not pass the end. */
  lemma LoadSimpleRightIff(size: nat, head: u32, n: nat)
    requires RingSize(size) && n <= size
    ensures Slot(size, head) + n <= size <==>
      forall mem: seq<Ptr>, out: seq<Ptr> :: size < |mem| && |out| == n && LoadedSimply(out, mem, size, Slot(size, head)) ==>
        out == Loaded(mem[..size], head, n)
  {
    if Slot(size, head) + n <= size {
      forall mem: seq<Ptr>, out: seq<Ptr> | size < |mem| && |out| == n && LoadedSimply(out, mem, size, Slot(size, head))
        ensures out == Loaded(mem[..size], head, n)
      {
        SimpleLoadIsRight(mem, size, head, out);
      }
    } else {
      SimpleLoadIsWrong(size, head, n);
    }
  }
}
