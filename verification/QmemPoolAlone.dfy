/**
 * A call of the allocator that no other CPU interrupts: the step machine then does exactly what module
 * QmemPools says of the call, down to the refill of two bulks, the refill that breaks off, and the two
 * bulks that make room in the sharedq.
 */
module QmemPoolAlone {
  import opened Words
  import opened QmemPoolSteps
  import opened QmemPools

  // Where CPU c has come to, and how often it has asked the slab.
  datatype Point = Point(s: State, asked: nat)

  predicate Sized(s: State, c: nat) {
    c < |s.cpu| == |s.localq| == |s.ret|
  }

  /** k steps of CPU c alone; oom(i) tells whether the slab fails when it is asked for the i-th time. */
  function Alone(s: State, c: nat, oom: nat -> bool, k: nat): (p: Point)
    requires Sized(s, c)
    ensures Sized(p.s, c)
  {
    if k == 0 then Point(s, 0) else One(Alone(s, c, oom, k - 1), c, oom)
  }

  function One(p: Point, c: nat, oom: nat -> bool): (p': Point)
    requires Sized(p.s, c)
    ensures Sized(p'.s, c)
  {
    var pc := p.s.cpu[c];
    Point(Apply(p.s, c, Run(oom(p.asked))), if pc.SlabFirst? || pc.SlabFill? then p.asked + 1 else p.asked)
  }

  // The n elements that the slab hands out next.
  function Fresh(last: nat, n: nat): set<Ptr> {
    if n == 0 then {} else Fresh(last, n - 1) + {last + n}
  }

  // The state of CPU c, its queues and the slab, with everything else as it was in s.
  ghost predicate Became(s: State, p: State, c: nat, pc: Cpu, ret: Result, local: seq<Ptr>, shared: seq<Ptr>,
      held: multiset<Ptr>, live: set<Ptr>, last: nat, lost: multiset<Ptr>)
    requires Sized(s, c)
  {
    p == State(s.localSize, s.sharedSize, s.localq[c := local], shared, s.cpu[c := pc], s.ret[c := ret], held, live, last, lost)
  }

  // An allocation that has found both queues empty has the element for its caller, has pushed `round` bulks,
  // and has j more elements on its stack.
  ghost predicate Refilling(s: State, p: Point, c: nat, round: nat, j: nat)
    requires Sized(s, c)
  {
    var elem, got := s.last + 1, 16 * round + j;
    && p.asked == got + 1
    && Became(s, p.s, c, SlabFill(elem, round, Ids(elem + 16 * round, j)), s.ret[c], [],
              Ids(elem, 16 * round), s.held, s.live + Fresh(s.last, got + 1), elem + got, s.lost)
  }

  // Nothing is cached for CPU c, which is about to allocate.
  ghost predicate Bare(s: State, c: nat) {
    Shape(s) && c < |s.cpu| && s.cpu[c] == AllocLocal && s.localq[c] == [] && s.sharedq == []
  }

  lemma Starts(s: State, c: nat, oom: nat -> bool)
    requires Bare(s, c)
    ensures if oom(0) then
              Became(s, Alone(s, c, oom, 3).s, c, Cpu.Idle, Allocated(NULL), [], [], s.held, s.live, s.last, s.lost)
            else Refilling(s, Alone(s, c, oom, 3), c, 0, 0)
  {
    hide Ids, One, Fresh;
    ThreeSteps(s, c, oom);
    FindsNothing(Point(s, 0), c, oom);
    FindsNothing(One(Point(s, 0), c, oom), c, oom);
    AsksSlab(One(One(Point(s, 0), c, oom), c, oom), c, oom);
    assert s.localq[c := []] == s.localq && s.ret[c := s.ret[c]] == s.ret;
    FreshOne(s.last);
    NoIds(s.last + 1);
  }

  lemma FreshOne(last: nat)
    ensures Fresh(last, 1) == {last + 1}
  {
    assert Fresh(last, 0) == {};
  }

  lemma FindsNothing(p: Point, c: nat, oom: nat -> bool)
    requires Sized(p.s, c) && p.s.localq[c] == [] && p.s.sharedq == [] && (p.s.cpu[c] == AllocLocal || p.s.cpu[c] == AllocShared)
    ensures One(p, c, oom) == Point(p.s.(cpu := p.s.cpu[c := if p.s.cpu[c] == AllocLocal then AllocShared else SlabFirst]), p.asked)
  {
  }

  lemma AsksSlab(p: Point, c: nat, oom: nat -> bool)
    requires Sized(p.s, c) && p.s.cpu[c] == SlabFirst
    ensures One(p, c, oom) ==
            Point(if oom(p.asked) then p.s.(cpu := p.s.cpu[c := Cpu.Idle], ret := p.s.ret[c := Allocated(NULL)])
                  else p.s.(cpu := p.s.cpu[c := SlabFill(p.s.last + 1, 0, [])], live := p.s.live + {p.s.last + 1}, last := p.s.last + 1),
                  p.asked + 1)
  {
  }

  // One more element of the refill.
  lemma FillOne(s: State, p: Point, c: nat, oom: nat -> bool, round: nat, j: nat)
    requires Shape(s) && c < |s.cpu| && Refilling(s, p, c, round, j) && j < 15 && !oom(16 * round + j + 1)
    ensures Refilling(s, One(p, c, oom), c, round, j + 1)
  {
    hide Ids;
    NextId(s.last + 1 + 16 * round, j);
  }

  // What a CPU that has filled a whole bulk is about to push.
  ghost predicate Pushing(s: State, p: Point, c: nat, round: nat)
    requires Sized(s, c)
  {
    var elem, got := s.last + 1, 16 * round + 16;
    && p.asked == got + 1
    && Became(s, p.s, c, Push(elem, round, Ids(elem + 16 * round, 16)), s.ret[c], [],
              Ids(elem, 16 * round), s.held, s.live + Fresh(s.last, got + 1), elem + got, s.lost)
  }

  lemma FillsBulk(s: State, p: Point, c: nat, oom: nat -> bool, round: nat)
    requires Shape(s) && c < |s.cpu| && Refilling(s, p, c, round, 15) && !oom(16 * round + 16)
    ensures Pushing(s, One(p, c, oom), c, round)
  {
    hide Ids;
    NextId(s.last + 1 + 16 * round, 15);
  }

  lemma PushesFirst(s: State, p: Point, c: nat, oom: nat -> bool)
    requires Shape(s) && c < |s.cpu| && Pushing(s, p, c, 0)
    ensures Refilling(s, One(p, c, oom), c, 1, 0)
  {
    hide Ids;
    IdsAppend(s.last + 1, 0, 16);
    NoIds(s.last + 1 + 16);
    assert s.cpu[c := p.s.cpu[c]][c := SlabFill(s.last + 1, 1, [])] == s.cpu[c := SlabFill(s.last + 1, 1, [])];
  }

  lemma {:induction false} FillTo(s: State, c: nat, oom: nat -> bool, round: nat, j: nat) returns (k: nat)
    requires Bare(s, c) && round < 2 && j < 16 && forall i :: 0 <= i <= 16 * round + j ==> !oom(i)
    ensures Refilling(s, Alone(s, c, oom, k), c, round, j)
    decreases round, j
  {
    hide Refilling, Pushing, One;
    if j > 0 {
      k := FillTo(s, c, oom, round, j - 1);
      FillOne(s, Alone(s, c, oom, k), c, oom, round, j - 1);
      k := k + 1;
    } else if round > 0 {
      k := FillTo(s, c, oom, 0, 15);
      FillsBulk(s, Alone(s, c, oom, k), c, oom, 0);
      PushesFirst(s, Alone(s, c, oom, k + 1), c, oom);
      k := k + 2;
    } else {
      k := 3;
      Starts(s, c, oom);
    }
  }

  /** The outcome of an allocation that found both queues empty, after got of the refill's 32 elements. */
  ghost predicate Refilled(s: State, p: State, c: nat, got: nat)
    requires Sized(s, c)
  {
    var elem, j := s.last + 1, got % 16;
    var live, last := s.live + Fresh(s.last, got + 1), s.last + 1 + got;
    if got == 32 then
      Became(s, p, c, Cpu.Idle, Allocated(elem), [], Ids(elem, 32), s.held + multiset{elem}, live, last, s.lost)
    else if j >= 2 then
      Became(s, p, c, Cpu.Idle, Allocated(elem), [], Ids(elem, got - 1), s.held + multiset{elem}, live, last, s.lost + multiset{last})
    else
      Became(s, p, c, Cpu.Bug([elem] + Ids(elem + got - j, j)), s.ret[c], [], Ids(elem, got - j), s.held, live, last, s.lost)
  }

  lemma Completes(s: State, p: Point, c: nat, oom: nat -> bool)
    requires Shape(s) && c < |s.cpu| && Pushing(s, p, c, 1)
    ensures Refilled(s, One(p, c, oom).s, c, 32)
  {
    hide Ids;
    IdsAppend(s.last + 1, 16, 16);
  }

  // The slab has failed with j elements of a bulk on the stack.
  ghost predicate Broken(s: State, p: Point, c: nat, round: nat, j: nat)
    requires Sized(s, c)
  {
    var elem, got := s.last + 1, 16 * round + j;
    Became(s, p.s, c, PushBroken(elem, Ids(elem + 16 * round, j)), s.ret[c], [],
           Ids(elem, 16 * round), s.held, s.live + Fresh(s.last, got + 1), elem + got, s.lost)
  }

  lemma Fails(s: State, p: Point, c: nat, oom: nat -> bool, round: nat, j: nat)
    requires Shape(s) && c < |s.cpu| && Refilling(s, p, c, round, j) && oom(16 * round + j + 1)
    ensures Broken(s, One(p, c, oom), c, round, j)
  {
    hide Ids, Fresh;
  }

  lemma BrokenStep(p: Point, c: nat, oom: nat -> bool, elem: Ptr, elems: seq<Ptr>)
    requires Sized(p.s, c) && p.s.cpu[c] == PushBroken(elem, elems)
    requires |elems| >= 2 && |p.s.sharedq| + |elems| - 1 <= p.s.sharedSize
    ensures One(p, c, oom).s == p.s.(cpu := p.s.cpu[c := Cpu.Idle], ret := p.s.ret[c := Allocated(elem)],
                                     held := p.s.held + multiset{elem}, sharedq := p.s.sharedq + elems[..|elems| - 1],
                                     lost := p.s.lost + multiset{elems[|elems| - 1]})
  {
  }

  lemma BreaksWithLoss(s: State, p: Point, c: nat, oom: nat -> bool, round: nat, j: nat)
    requires Shape(s) && c < |s.cpu| && round < 2 && 2 <= j < 16 && Broken(s, p, c, round, j)
    ensures var elem, got := s.last + 1, 16 * round + j;
      Became(s, One(p, c, oom).s, c, Cpu.Idle, Allocated(elem), [], Ids(elem, got - 1), s.held + multiset{elem},
             s.live + Fresh(s.last, got + 1), s.last + 1 + got, s.lost + multiset{s.last + 1 + got})
  {
    hide Ids, Fresh, One;
    var at, elems := s.last + 1 + 16 * round, Ids(s.last + 1 + 16 * round, j);
    BrokenStep(p, c, oom, s.last + 1, elems);
    NextId(at, j - 1);
    IdsAppend(s.last + 1, 16 * round, j - 1);
    assert elems[..j - 1] == Ids(at, j - 1) && elems[j - 1] == at + j;
  }

  lemma BreaksWithBug(s: State, p: Point, c: nat, oom: nat -> bool, round: nat, j: nat)
    requires Shape(s) && c < |s.cpu| && round < 2 && j < 2 && Broken(s, p, c, round, j)
    ensures var elem, got := s.last + 1, 16 * round + j;
      Became(s, One(p, c, oom).s, c, Cpu.Bug([elem] + Ids(elem + 16 * round, j)), s.ret[c], [], Ids(elem, 16 * round),
             s.held, s.live + Fresh(s.last, got + 1), s.last + 1 + got, s.lost)
  {
    hide Ids, Fresh;
  }

  lemma BreaksOff(s: State, p: Point, c: nat, oom: nat -> bool, round: nat, j: nat)
    requires Shape(s) && c < |s.cpu| && round < 2 && j < 16 && Broken(s, p, c, round, j)
    ensures Refilled(s, One(p, c, oom).s, c, 16 * round + j)
  {
    hide Ids, Fresh, One, Became;
    assert (16 * round + j) % 16 == j;
    if j >= 2 { BreaksWithLoss(s, p, c, oom, round, j); } else { BreaksWithBug(s, p, c, oom, round, j); }
  }

  /**
   * With both queues empty: NULL and nothing changed when the slab fails at once; otherwise a fresh element,
   * after a refill of 32, or of as many as the slab has given before it failed, which with j = got % 16 on the
   * stack loses the last of them if j >= 2, and runs into the BUG if not.
   */
  lemma AllocAlone(s: State, c: nat, oom: nat -> bool, got: nat) returns (k: nat)
    requires Bare(s, c) && got <= 32 && (forall i :: 1 <= i <= got ==> !oom(i)) && (got < 32 ==> oom(got + 1))
    ensures if oom(0) then
              Became(s, Alone(s, c, oom, k).s, c, Cpu.Idle, Allocated(NULL), [], [], s.held, s.live, s.last, s.lost)
            else Refilled(s, Alone(s, c, oom, k).s, c, got)
  {
    hide Refilling, Refilled, Pushing, Broken, One, Became;
    if oom(0) {
      k := 3;
      Starts(s, c, oom);
    } else if got == 32 {
      k := FillTo(s, c, oom, 1, 15);
      FillsBulk(s, Alone(s, c, oom, k), c, oom, 1);
      Completes(s, Alone(s, c, oom, k + 1), c, oom);
      k := k + 2;
    } else {
      var round, j := got / 16, got % 16;
      k := FillTo(s, c, oom, round, j);
      Fails(s, Alone(s, c, oom, k), c, oom, round, j);
      BreaksOff(s, Alone(s, c, oom, k + 1), c, oom, round, j);
      k := k + 2;
    }
  }

  // ---- A free that finds no room ----

  function Elems(q: seq<Ptr>): set<Ptr> {
    set e | e in q
  }

  // elems are on their way to the slab, and so many rounds of draining the sharedq are to follow.
  ghost predicate Emptying(s: State, p: State, c: nat, local: seq<Ptr>, elems: seq<Ptr>, rounds: nat, shared: seq<Ptr>, live: set<Ptr>)
    requires Sized(s, c)
  {
    Became(s, p, c, FreeSlab(elems, rounds), s.ret[c], local, shared, s.held, live, s.last, s.lost)
  }

  lemma OneOut(s: State, p: Point, c: nat, oom: nat -> bool, local: seq<Ptr>, elems: seq<Ptr>, rounds: nat, shared: seq<Ptr>, live: set<Ptr>)
    requires Sized(s, c) && Sized(p.s, c) && Emptying(s, p.s, c, local, elems, rounds, shared, live) && elems != []
    ensures Emptying(s, One(p, c, oom).s, c, local, elems[1..], rounds, shared, live - {elems[0]})
  {
  }

  lemma {:induction false} EmptiesOut(s: State, c: nat, oom: nat -> bool, m: nat, local: seq<Ptr>, elems: seq<Ptr>, rounds: nat,
      shared: seq<Ptr>, live: set<Ptr>) returns (k: nat)
    requires Sized(s, c) && Emptying(s, Alone(s, c, oom, m).s, c, local, elems, rounds, shared, live)
    ensures Emptying(s, Alone(s, c, oom, k).s, c, local, [], rounds, shared, live - Elems(elems))
    decreases |elems|
  {
    hide Emptying, One;
    if elems == [] {
      k := m;
      assert live - Elems(elems) == live;
    } else {
      OneOut(s, Alone(s, c, oom, m), c, oom, local, elems, rounds, shared, live);
      k := EmptiesOut(s, c, oom, m + 1, local, elems[1..], rounds, shared, live - {elems[0]});
      assert elems == [elems[0]] + elems[1..];
      assert live - {elems[0]} - Elems(elems[1..]) == live - Elems(elems);
    }
  }

  lemma TakesOut(s: State, p: Point, c: nat, oom: nat -> bool, local: seq<Ptr>, rounds: nat, shared: seq<Ptr>, live: set<Ptr>)
    requires Sized(s, c) && Sized(p.s, c) && Emptying(s, p.s, c, local, [], rounds, shared, live)
    ensures var n := Min(|shared|, 16);
      if rounds > 0 then Emptying(s, One(p, c, oom).s, c, local, shared[..n], rounds - 1, shared[n..], live)
      else Became(s, One(p, c, oom).s, c, Cpu.Idle, Freed, local, shared, s.held, live, s.last, s.lost)
  {
  }

  // A round: up to 16 elements leave the front of the sharedq.
  lemma DrainsOnce(s: State, c: nat, oom: nat -> bool, m: nat, local: seq<Ptr>, rounds: nat, shared: seq<Ptr>, live: set<Ptr>) returns (k: nat)
    requires Sized(s, c) && rounds > 0 && Emptying(s, Alone(s, c, oom, m).s, c, local, [], rounds, shared, live)
    ensures var n := Min(|shared|, 16);
      Emptying(s, Alone(s, c, oom, k).s, c, local, [], rounds - 1, shared[n..], live - Elems(shared[..n]))
  {
    hide Emptying, One;
    var n := Min(|shared|, 16);
    TakesOut(s, Alone(s, c, oom, m), c, oom, local, rounds, shared, live);
    k := EmptiesOut(s, c, oom, m + 1, local, shared[..n], rounds - 1, shared[n..], live);
  }

  lemma TwoParts(q: seq<Ptr>, n: nat, r: nat, live: set<Ptr>)
    requires n + r <= |q|
    ensures q[n..][r..] == q[n + r..]
    ensures live - Elems(q[..n]) - Elems(q[n..][..r]) == live - Elems(q[..n + r])
  {
    hide Elems;
    assert q[..n + r] == q[..n] + q[n..][..r];
    ElemsOfBoth(q[..n], q[n..][..r]);
  }

  lemma ElemsOfBoth(a: seq<Ptr>, b: seq<Ptr>)
    ensures Elems(a + b) == Elems(a) + Elems(b)
  {
  }

  /**
   * With the localq full: 15 of it and the element go to the sharedq; or, there being no room, to the slab, and
   * with them up to 32 elements from the front of the sharedq.
   */
  lemma FreeAlone(s: State, c: nat, oom: nat -> bool, elem: Ptr) returns (k: nat)
    requires Shape(s) && c < |s.cpu| && s.cpu[c] == FreeLocal(elem) && |s.localq[c]| == s.localSize
    ensures var elems, rest, n := [elem] + s.localq[c][..15], s.localq[c][15..], Min(|s.sharedq|, 32);
      if |s.sharedq| + 16 <= s.sharedSize then
        Became(s, Alone(s, c, oom, k).s, c, Cpu.Idle, Freed, rest, s.sharedq + elems, s.held, s.live, s.last, s.lost)
      else
        Became(s, Alone(s, c, oom, k).s, c, Cpu.Idle, Freed, rest, s.sharedq[n..], s.held,
               s.live - Elems(elems) - Elems(s.sharedq[..n]), s.last, s.lost)
  {
    hide Emptying, Became;
    Gives(s, c, oom, elem);
    k := 3;
    if |s.sharedq| + 16 > s.sharedSize { k := GivesBack(s, c, oom, [elem] + s.localq[c][..15], s.localq[c][15..]); }
  }

  lemma TakeStep(p: Point, c: nat, oom: nat -> bool, elem: Ptr)
    requires Sized(p.s, c) && p.s.cpu[c] == TakeLocal(elem) && |p.s.localq[c]| >= 15
    ensures One(p, c, oom).s == p.s.(cpu := p.s.cpu[c := GiveShared([elem] + p.s.localq[c][..15])],
                                     localq := p.s.localq[c := p.s.localq[c][15..]])
  {
  }

  lemma GiveStep(p: Point, c: nat, oom: nat -> bool, elems: seq<Ptr>)
    requires Sized(p.s, c) && p.s.cpu[c] == GiveShared(elems)
    ensures One(p, c, oom).s == if |p.s.sharedq| + |elems| <= p.s.sharedSize then
              p.s.(cpu := p.s.cpu[c := Cpu.Idle], ret := p.s.ret[c := Freed], sharedq := p.s.sharedq + elems)
            else p.s.(cpu := p.s.cpu[c := FreeSlab(elems, 2)])
  {
  }

  lemma Gives(s: State, c: nat, oom: nat -> bool, elem: Ptr)
    requires Shape(s) && c < |s.cpu| && s.cpu[c] == FreeLocal(elem) && |s.localq[c]| == s.localSize
    ensures var elems, rest := [elem] + s.localq[c][..15], s.localq[c][15..];
      if |s.sharedq| + 16 <= s.sharedSize then
        Became(s, Alone(s, c, oom, 3).s, c, Cpu.Idle, Freed, rest, s.sharedq + elems, s.held, s.live, s.last, s.lost)
      else Emptying(s, Alone(s, c, oom, 3).s, c, rest, elems, 2, s.sharedq, s.live)
  {
    hide One;
    ThreeSteps(s, c, oom);
    FullStep(Point(s, 0), c, oom, elem);
    TakeStep(One(Point(s, 0), c, oom), c, oom, elem);
    GiveStep(One(One(Point(s, 0), c, oom), c, oom), c, oom, [elem] + s.localq[c][..15]);
    assert s.ret[c := s.ret[c]] == s.ret;
  }

  lemma FullStep(p: Point, c: nat, oom: nat -> bool, elem: Ptr)
    requires Sized(p.s, c) && p.s.cpu[c] == FreeLocal(elem) && |p.s.localq[c]| + 1 > p.s.localSize
    ensures One(p, c, oom).s == p.s.(cpu := p.s.cpu[c := TakeLocal(elem)])
  {
  }

  lemma ThreeSteps(s: State, c: nat, oom: nat -> bool)
    requires Sized(s, c)
    ensures Alone(s, c, oom, 3) == One(One(One(Point(s, 0), c, oom), c, oom), c, oom)
  {
    hide One;
    assert Alone(s, c, oom, 1) == One(Alone(s, c, oom, 0), c, oom);
    assert Alone(s, c, oom, 2) == One(Alone(s, c, oom, 1), c, oom);
  }

  lemma GivesBack(s: State, c: nat, oom: nat -> bool, elems: seq<Ptr>, rest: seq<Ptr>) returns (k: nat)
    requires Sized(s, c) && Emptying(s, Alone(s, c, oom, 3).s, c, rest, elems, 2, s.sharedq, s.live)
    ensures var n := Min(|s.sharedq|, 32);
      Became(s, Alone(s, c, oom, k).s, c, Cpu.Idle, Freed, rest, s.sharedq[n..], s.held,
             s.live - Elems(elems) - Elems(s.sharedq[..n]), s.last, s.lost)
  {
    hide Emptying, Became, One, Elems;
    var live, first, second := s.live - Elems(elems), Min(|s.sharedq|, 16), Min(|s.sharedq| - Min(|s.sharedq|, 16), 16);
    k := EmptiesOut(s, c, oom, 3, rest, elems, 2, s.sharedq, s.live);
    k := DrainsOnce(s, c, oom, k, rest, 2, s.sharedq, live);
    k := DrainsOnce(s, c, oom, k, rest, 1, s.sharedq[first..], live - Elems(s.sharedq[..first]));
    var m := Min(|s.sharedq|, 32);
    assert m == first + second && |s.sharedq[first..]| == |s.sharedq| - first;
    TwoParts(s.sharedq, first, second, live);
    TakesOut(s, Alone(s, c, oom, k), c, oom, rest, 0, s.sharedq[m..], live - Elems(s.sharedq[..m]));
    k := k + 1;
  }
}
