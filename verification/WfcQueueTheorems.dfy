/**
 * What the wait-free queue promises, for every execution by any number of threads.
 */
module WfcQueueTheorems {
  import opened Options
  import opened WfcQueue
  import opened WfcQueueInv

  // ---- One chain per queue ----

  /** k links on from n, counting links that an append in flight has yet to store. */
  ghost function Follow(s: State, n: Node, k: nat): Option<Node>
    decreases k
  {
    if k == 0 then Some(n)
    else match Link(s, n) case None => None case Some(m) => Follow(s, m, k - 1)
  }

  lemma {:induction false} FollowFrom(s: State, q: Qid, i: nat, k: nat)
    requires Shape(s) && q in s.queue && QueueOk(s, q) && i < |s.queue[q]| && i + k <= |s.queue[q]|
    ensures Follow(s, s.queue[q][i], k) == if i + k < |s.queue[q]| then Some(s.queue[q][i + k]) else None
    decreases k
  {
    QueueLinks(s, q, i);
    if k > 0 && i + 1 < |s.queue[q]| {
      FollowFrom(s, q, i + 1, k - 1);
    }
  }

  // The first node of a non-empty queue, as the head or the remover holding the head knows it.
  ghost predicate KnownFirst(s: State, q: Qid, n: Node) {
    || (q !in s.holder && Link(s, Head(q)) == Some(n))
    || (q in s.holder && s.holder[q] < |s.loc| &&
        var l := s.loc[s.holder[q]];
        Holds(l, q) && n == (if l.Dequeue? then l.dpc.node else l.spc.first))
  }

  // The stored and in-flight links from the head (or its holder) to the tail spell out c.
  ghost predicate Chain(s: State, q: Qid, c: seq<Node>) {
    && NoDup(c) && q in s.tail
    && (if c == [] then s.tail[q] == Head(q) && Link(s, Head(q)) == None && q !in s.holder
        else
          && KnownFirst(s, q, c[0]) && s.tail[q] == c[|c| - 1]
          && (forall k :: 0 <= k < |c| ==> Follow(s, c[0], k) == Some(c[k])) && Follow(s, c[0], |c|) == None)
  }

  lemma QueueChain(s: State, q: Qid)
    requires Shape(s) && q in s.queue && QueueOk(s, q) && Holders(s)
    requires q in s.holder ==> LocalOk(s, s.holder[q])
    ensures Chain(s, q, s.queue[q])
  {
    var c := s.queue[q];
    if c != [] {
      forall k | 0 <= k < |c| ensures Follow(s, c[0], k) == Some(c[k]) { FollowFrom(s, q, 0, k); }
      FollowFrom(s, q, 0, |c|);
    }
  }

  /** The chain of stored and in-flight links is, at every moment, exactly the queue's contents. */
  lemma OneChain(s: State, n: nat, q: Qid)
    requires Reachable(s, n) && q in s.queue
    ensures Chain(s, q, s.queue[q])
  {
    ReachableInv(s, n);
    QueueChain(s, q) by { assert Locals(s) && Queues(s); }
  }

  /** FIFO: the nodes taken out of a queue, in order, are a prefix of those exchanged into it. */
  lemma Fifo(s: State, n: nat, q: Qid)
    requires Reachable(s, n) && q in s.queue
    ensures q in s.removed && q in s.entered && s.entered[q] == s.removed[q] + s.queue[q]
  {
    ReachableInv(s, n);
    assert QueueOk(s, q);
  }

  // ---- What the operations return ----

  // No thread will ever store to n's link on account of an append begun before n became private.
  ghost predicate Unreferenced(s: State, n: Node) {
    && n !in s.pend
    && forall u :: 0 <= u < |s.loc| ==> !(s.loc[u].Append? && s.loc[u].apc.Store? && s.loc[u].apc.prev == n)
  }

  ghost predicate DequeuePromise(s: State, s': State, t: Tid, q: Qid) {
    Shape(s) && Shape(s') && t < |s'.loc| && q in s.queue && q in s'.queue && s'.ret[t].Dequeued? &&
    match s'.ret[t].item {
      case None => s.queue[q] == [] && SameShared(s, s')
      case Some(n) =>
        && s.queue[q] == [n] + s'.queue[q] && s'.queue == s.queue[q := s'.queue[q]]
        && s'.removed == s.removed[q := s.removed[q] + [n]] && s'.entered == s.entered
        && n in s'.place && s'.place[n] == Owned(t) && Unreferenced(s', n)
    }
  }

  lemma DequeueNothing(s: State, s': State, t: Tid, q: Qid, pc: DequeuePc)
    requires Moves(s, s', t) && s.loc[t] == Dequeue(q, pc) && Reads(s, s.loc[t]) && QueueOk(s, q)
    requires s' == Goto(s, t, DequeueRead(s, q, pc)) && s'.loc[t] == Idle
    ensures DequeuePromise(s, s', t, q)
  {
    hide QueueOk, Holds, RoleOf, Unreferenced;
    HeadLinks(s, q);
  }

  lemma DequeuePops(s: State, t: Tid, q: Qid, pc: DequeuePc)
    requires Shape(s) && t < |s.loc| && s.loc[t] == Dequeue(q, pc) && !Reads(s, s.loc[t]) && !pc.ClearHead?
    requires LocalOk(s, t) && QueueOk(s, q) && Pends(s) && (q in s.holder <==> Holds(s.loc[t], q))
    ensures (pc.CasTail? || pc.Advance?) && Pops(s, Step(s, t), t, q, pc.node)
    ensures t < |Step(s, t).ret| && Step(s, t).ret[t] == Dequeued(Some(pc.node))
  {
    hide LocalOk, QueueOk, Pends, Holds, Pops, Poppable;
    DequeuesOk(s, t, q, pc);
    if pc.CasTail? {
      LastIsPoppable(s, q, pc.node);
      HeadNotBoth(s, q);
      CasTailPops(s, Step(s, t), t, q, pc.node);
    } else if pc.Advance? {
      StoredIsPoppable(s, q, pc.node);
      HeadNotPending(s, t, q, pc.node, pc.next, pc.held);
      AdvancePops(s, Step(s, t), t, q, pc.node, pc.next, pc.held);
    }
  }

  lemma NobodyStores(s: State, n: Node)
    requires Shape(s) && Locals(s) && n !in s.pend
    ensures Unreferenced(s, n)
  {
    forall u | 0 <= u < |s.loc| && s.loc[u].Append? && s.loc[u].apc.Store?
      ensures s.loc[u].apc.prev != n
    {
      assert LocalOk(s, u);
    }
  }

  lemma PopPromise(s: State, s': State, t: Tid, q: Qid, node: Node)
    requires Pops(s, s', t, q, node) && s'.ret[t] == Dequeued(Some(node)) && Unreferenced(s', node)
    ensures DequeuePromise(s, s', t, q)
  {
    hide Link, Unreferenced, PopThread, Holds;
    assert s.queue[q] == [node] + s.queue[q][1..];
  }

  /** __wfcq_dequeue: NULL only from an empty queue, otherwise the oldest node, free to reuse. */
  lemma DequeueReturns(s: State, t: Tid, q: Qid, pc: DequeuePc)
    requires Inv(s) && Enabled(s, t, Run) && s.loc[t] == Dequeue(q, pc)
    requires t < |Step(s, t).loc| && Step(s, t).loc[t] == Idle
    ensures DequeuePromise(s, Step(s, t), t, q)
  {
    hide Locals, Queues, Pends, Holders, Places, Roles, LocalOk, QueueOk, Holds, Pops, Unreferenced, Step, DequeuePromise;
    LocalAt(s, t);
    QueueAt(s, q);
    var s' := Step(s, t);
    if Reads(s, s.loc[t]) {
      DequeueReadReturns(s, s', t, q, pc);
    } else {
      DequeueWrites(s, t, q, pc);
      PopHolder(s, t, q);
      DequeuePops(s, t, q, pc);
      StepKeepsInv(s, t);
      PoppedPends(s, s', t, q, pc.node);
      NobodyStores(s', pc.node);
      PopPromise(s, s', t, q, pc.node);
    }
  }

  lemma DequeueReadReturns(s: State, s': State, t: Tid, q: Qid, pc: DequeuePc)
    requires Shape(s) && t < |s.loc| && s.loc[t] == Dequeue(q, pc) && Reads(s, s.loc[t]) && QueueOk(s, q)
    requires s' == Step(s, t) && t < |s'.loc| && s'.loc[t] == Idle
    ensures DequeuePromise(s, s', t, q)
  {
    hide QueueOk, Moves, DequeuePromise;
    ReadMoves(s, s', t);
    DequeueNothing(s, s', t, q, pc);
  }

  lemma DequeueWrites(s: State, t: Tid, q: Qid, pc: DequeuePc)
    requires Shape(s) && t < |s.loc| && s.loc[t] == Dequeue(q, pc) && !Reads(s, s.loc[t])
    requires t < |Step(s, t).loc| && Step(s, t).loc[t] == Idle
    ensures !pc.ClearHead?
  {
  }

  lemma PoppedPends(s: State, s': State, t: Tid, q: Qid, node: Node)
    requires Pops(s, s', t, q, node)
    ensures node !in s'.pend
  {
    hide Link;
  }

  ghost predicate AppendPromise(s: State, s': State, t: Tid, q: Qid, pc: AppendPc) {
    Shape(s) && Shape(s') && t < |s'.loc| && q in s.queue && q in s'.queue &&
    match pc
    case InitNode(node) =>
      s'.queue == s.queue && s'.entered == s.entered && s'.removed == s.removed
      && s'.loc[t] == Append(q, Exchange(node, node, [node], false)) && Load(s', node) == None
    case Exchange(first, last, chunk, splice) =>
      && chunk != [] && first == chunk[0] && last == chunk[|chunk| - 1] && Linked(s, chunk)
      && s'.queue == s.queue[q := s.queue[q] + chunk] && s'.entered == s.entered[q := s.entered[q] + chunk]
      && s'.removed == s.removed && s'.tail[q] == last
      && s'.loc[t].Append? && s'.loc[t].q == q && s'.loc[t].apc.Store? && s'.loc[t].apc.splice == splice
      && s'.loc[t].apc.wasEmpty == (s.queue[q] == [])
    case Store(_, _, wasEmpty, splice) =>
      && s'.queue == s.queue && s'.entered == s.entered && s'.removed == s.removed && s'.loc[t] == Idle
      && s'.ret[t] == if splice then Spliced(if wasEmpty then DestEmpty else DestNonEmpty) else Enqueued(!wasEmpty)
  }

  lemma AppendStep(s: State, s': State, t: Tid, q: Qid, pc: AppendPc)
    requires Shape(s) && Shape(s') && t < |s.loc| && s.loc[t] == Append(q, pc) && LocalOk(s, t) && s' == Step(s, t)
    ensures AppendPromise(s, s', t, q, pc)
  {
    hide Linked, PlaceAll;
  }

  /** __wfcq_append: false (DEST_EMPTY) exactly when the queue was empty at the exchange of its tail. */
  lemma AppendReturns(s: State, t: Tid, q: Qid, pc: AppendPc)
    requires Inv(s) && Enabled(s, t, Run) && s.loc[t] == Append(q, pc)
    ensures AppendPromise(s, Step(s, t), t, q, pc)
  {
    hide Locals, Queues, Pends, Holders, Places, Roles, LocalOk, QueueOk, Step, AppendPromise;
    LocalAt(s, t);
    StepKeepsInv(s, t);
    AppendStep(s, Step(s, t), t, q, pc);
  }

  ghost predicate SplicePromise(s: State, s': State, t: Tid, d: Qid, q: Qid, pc: SplicePc) {
    Shape(s) && Shape(s') && t < |s'.loc| && q in s.queue && q in s'.queue &&
    var c := s.queue[q];
    && (s'.loc[t] == Idle ==> s'.ret[t] == Spliced(SrcEmpty) && c == [] && SameShared(s, s'))
    && (pc.Detach? ==>
          && c != [] && s'.queue == s.queue[q := []] && s'.tail[q] == Head(q) && Linked(s', c)
          && s'.entered == s.entered && s'.removed == s.removed[q := s.removed[q] + c]
          && s'.loc[t] == Append(d, Exchange(c[0], c[|c| - 1], c, true)))
    && (s'.loc[t] != Idle && !pc.Detach? ==>
          && s'.queue == s.queue && s'.entered == s.entered && s'.removed == s.removed
          && s'.loc[t].Splice? && s'.loc[t].dst == d && s'.loc[t].src == q)
  }

  lemma DetachStep(s: State, s': State, t: Tid, d: Qid, q: Qid, first: Node)
    requires Shape(s) && Shape(s') && t < |s.loc| && s.loc[t] == Splice(d, q, Detach(first))
    requires s' == DoDetach(s, t, d, q, first) && LocalOk(s, t) && QueueOk(s, q)
    ensures SplicePromise(s, s', t, d, q, Detach(first))
  {
    hide Linked, HeadOk, PlaceAll;
    LinkedSame(s, s', s.queue[q]);
  }

  lemma SpliceStep(s: State, s': State, t: Tid, d: Qid, q: Qid, pc: SplicePc)
    requires Shape(s) && Shape(s') && t < |s.loc| && s.loc[t] == Splice(d, q, pc) && s' == Step(s, t)
    requires LocalOk(s, t) && QueueOk(s, q)
    ensures SplicePromise(s, s', t, d, q, pc)
  {
    hide LocalOk, QueueOk, SplicePromise, DoDetach, DoTakeHead, SpliceRead;
    if Reads(s, s.loc[t]) {
      SpliceReadStep(s, s', t, d, q, pc);
    } else if pc.Detach? {
      DetachStep(s, s', t, d, q, pc.first);
    } else {
      TakeHeadStep(s, s', t, d, q);
    }
  }

  lemma SpliceReadStep(s: State, s': State, t: Tid, d: Qid, q: Qid, pc: SplicePc)
    requires Shape(s) && Shape(s') && t < |s.loc| && s.loc[t] == Splice(d, q, pc) && QueueOk(s, q)
    requires Reads(s, s.loc[t]) && s' == Goto(s, t, SpliceRead(s, d, q, pc))
    ensures SplicePromise(s, s', t, d, q, pc)
  {
    hide QueueOk, Linked;
    HeadLinks(s, q);
  }

  lemma TakeHeadStep(s: State, s': State, t: Tid, d: Qid, q: Qid)
    requires Shape(s) && Shape(s') && t < |s.loc| && s.loc[t] == Splice(d, q, TakeHead)
    requires Head(q) in s.next && s' == DoTakeHead(s, t, d, q)
    ensures SplicePromise(s, s', t, d, q, TakeHead)
  {
    hide Linked;
  }

  /** __wfcq_splice: the whole source, in order, or SRC_EMPTY when the source was empty. */
  lemma SpliceReturns(s: State, t: Tid, d: Qid, q: Qid, pc: SplicePc)
    requires Inv(s) && Enabled(s, t, Run) && s.loc[t] == Splice(d, q, pc)
    ensures SplicePromise(s, Step(s, t), t, d, q, pc)
  {
    hide Locals, Queues, Pends, Holders, Places, Roles, LocalOk, QueueOk, Step, SplicePromise;
    LocalAt(s, t);
    QueueAt(s, q);
    StepKeepsInv(s, t);
    SpliceStep(s, Step(s, t), t, d, q, pc);
  }

  ghost predicate IteratePromise(s: State, s': State, t: Tid, q: Qid, pc: IteratePc) {
    && Shape(s) && Shape(s') && t < |s'.loc| && q in s.queue && SameShared(s, s')
    && (s'.loc[t] == Idle ==> s'.ret[t] == Found(None))
    && (s'.loc[t] == Idle ==> if pc.FirstTail? then s.queue[q] == [] else pc.NextTail? && pc.i + 1 == |s.queue[q]|)
    && (s'.loc[t].Iterate? && s'.loc[t].ipc.At? ==>
          var i := s'.loc[t].ipc.i;
          && i == (if pc.FirstSync? then 0 else if pc.NextLoad? || pc.NextSync? then pc.i + 1 else |s.queue[q]|)
          && i < |s.queue[q]| && s'.ret[t] == Found(Some(s.queue[q][i])))
  }

  lemma IterateStep(s: State, s': State, t: Tid, q: Qid, pc: IteratePc)
    requires Moves(s, s', t) && s.loc[t] == Iterate(q, pc) && Reads(s, s.loc[t])
    requires s' == Goto(s, t, IterateRead(s, q, pc)) && LocalOk(s, t) && QueueOk(s, q)
    ensures IteratePromise(s, s', t, q, pc)
  {
    hide LocalOk, QueueOk, Holds, RoleOf, MayTake, IterateRead, IterateOk, LinkAt;
    IteratesOk(s, t, q, pc);
    HeadLinks(s, q);
    if pc.NextLoad? || pc.NextTail? || pc.NextSync? { NextInQueue(s, q, pc); }
    IterateFound(s, q, pc);
  }

  lemma NextInQueue(s: State, q: Qid, pc: IteratePc)
    requires Shape(s) && q in s.queue && QueueOk(s, q) && IterateOk(s, q, pc) && (pc.NextLoad? || pc.NextTail? || pc.NextSync?)
    ensures pc.i < |s.queue[q]| && LinkAt(s, q, pc.i)
  {
    hide QueueOk, LinkAt;
    QueueLinks(s, q, pc.i);
  }

  // What a load by an iteration leads to and returns.
  lemma IterateFound(s: State, q: Qid, pc: IteratePc)
    requires Shape(s) && q in s.queue && !pc.At? && IterateOk(s, q, pc)
    requires pc.NextLoad? || pc.NextTail? || pc.NextSync? ==> LinkAt(s, q, pc.i)
    requires s.tail[q] == Head(q) <==> s.queue[q] == []
    requires Head(q) in s.next ==> s.queue[q] != [] && s.next[Head(q)] == s.queue[q][0]
    ensures var m := IterateRead(s, q, pc);
      && (m.to == Idle ==> m.result == Some(Found(None)))
      && (m.to == Idle ==> if pc.FirstTail? then s.queue[q] == [] else pc.NextTail? && pc.i + 1 == |s.queue[q]|)
      && (m.to == Idle || m.to.Iterate?)
      && (m.to.Iterate? && m.to.ipc.At? ==>
            && m.to.ipc.i == (if pc.FirstSync? then 0 else if pc.NextLoad? || pc.NextSync? then pc.i + 1 else |s.queue[q]|)
            && m.to.ipc.i < |s.queue[q]| && m.result == Some(Found(Some(s.queue[q][m.to.ipc.i]))))
  {
  }

  /** __wfcq_first and __wfcq_next walk the queue's nodes in order; NULL only at the end. */
  lemma IterationReturns(s: State, t: Tid, q: Qid, pc: IteratePc)
    requires Inv(s) && Enabled(s, t, Run) && s.loc[t] == Iterate(q, pc)
    ensures IteratePromise(s, Step(s, t), t, q, pc)
  {
    hide Locals, Queues, Pends, Holders, Places, Roles, LocalOk, QueueOk, Moves, IteratePromise, MayTake;
    LocalAt(s, t);
    QueueAt(s, q);
    ReadMoves(s, Step(s, t), t);
    IterateStep(s, Step(s, t), t, q, pc);
  }

  // The first exchange of a splice runs from a to a', the second from b to b'.
  lemma SplicePair(a: State, a': State, b: State, b': State, t: Tid, d: Qid, q: Qid, first: Node)
    requires SplicePromise(a, a', t, d, q, Detach(first)) && t < |b.loc| && b.loc[t] == a'.loc[t]
    requires b.loc[t].Append? && b.loc[t].q == d && AppendPromise(b, b', t, d, b.loc[t].apc)
    ensures SpliceMoved(a, a', b, b', t, d, q)
  {
    hide Linked;
  }

  // All of queue q of state a has gone to the end of queue d of state b.
  ghost predicate SpliceMoved(a: State, a': State, b: State, b': State, t: Tid, d: Qid, q: Qid) {
    && d in b.queue && d in b'.queue && q in a.queue && q in a'.queue
    && a.queue[q] != [] && a'.queue[q] == [] && b'.queue[d] == b.queue[d] + a.queue[q]
    && t < |b'.loc| && b'.loc[t].Append? && b'.loc[t].apc.Store? && b'.loc[t].apc.wasEmpty == (b.queue[d] == [])
  }

  // What holds of one thread and one queue of a reachable state, without the whole invariant.
  lemma Facts(s: State, n: nat, t: Tid, q: Qid)
    requires Reachable(s, n)
    ensures Shape(s) && (t < |s.loc| ==> LocalOk(s, t)) && (q in s.queue ==> QueueOk(s, q))
  {
    hide Reachable, LocalOk, QueueOk, Pends, Holders, Places, Roles;
    ReachableInv(s, n);
  }

  lemma ExchangeShapes(a: State, b: State, t: Tid, d: Qid, q: Qid, first: Node, pc: AppendPc)
    requires Shape(a) && Shape(b) && t < |a.loc| && t < |b.loc|
    requires a.loc[t] == Splice(d, q, Detach(first)) && b.loc[t] == Append(d, pc) && pc.Exchange?
    ensures Shape(Step(a, t)) && Step(a, t) == DoDetach(a, t, d, q, first)
    ensures Shape(Step(b, t)) && Step(b, t) == DoExchange(b, t, d, pc)
  {
    hide DoDetach, DoExchange;
    DetachShape(a, t, d, q, first);
    ExchangeShape(b, t, d, pc);
  }

  lemma DetachShape(a: State, t: Tid, d: Qid, q: Qid, first: Node)
    requires Shape(a) && t < |a.loc| && a.loc[t] == Splice(d, q, Detach(first))
    ensures Shape(DoDetach(a, t, d, q, first))
  {
    hide PlaceAll;
    ShapeKept(a, DoDetach(a, t, d, q, first), t);
  }

  lemma ExchangeShape(b: State, t: Tid, d: Qid, pc: AppendPc)
    requires Shape(b) && t < |b.loc| && b.loc[t] == Append(d, pc) && pc.Exchange?
    ensures Shape(DoExchange(b, t, d, pc))
  {
    hide PlaceAll;
    ShapeKept(b, DoExchange(b, t, d, pc), t);
  }

  /**
   * A splice takes its first exchange in state a and its second in state b, with any steps of other
   * threads in between.  It moves everything that was in the source at the first, in order, to the end
   * of the destination at the second, whatever the others do to both queues meanwhile.
   */
  lemma SpliceMovesAll(a: State, i: nat, b: State, j: nat, t: Tid, d: Qid, q: Qid, first: Node)
    requires Reachable(a, i) && Reachable(b, j) && t < |a.loc| && t < |b.loc| && Shape(a) && Shape(b)
    requires a.loc[t] == Splice(d, q, Detach(first)) && t < |Step(a, t).loc| && b.loc[t] == Step(a, t).loc[t]
    ensures SpliceMoved(a, Step(a, t), b, Step(b, t), t, d, q)
  {
    hide Reachable, LocalOk, QueueOk, Step, SplicePromise, AppendPromise, SpliceMoved;
    var a', b' := Step(a, t), Step(b, t);
    Facts(a, i, t, q);
    Facts(b, j, t, d);
    DetachLeads(a, t, d, q, first);
    ExchangeShapes(a, b, t, d, q, first, b.loc[t].apc);
    DetachStep(a, a', t, d, q, first);
    AppendStep(b, b', t, d, b.loc[t].apc);
    SplicePair(a, a', b, b', t, d, q, first);
  }

  lemma DetachLeads(a: State, t: Tid, d: Qid, q: Qid, first: Node)
    requires Shape(a) && t < |a.loc| && a.loc[t] == Splice(d, q, Detach(first))
    ensures t < |Step(a, t).loc| && Step(a, t).loc[t].Append? && Step(a, t).loc[t].q == d
    ensures Step(a, t).loc[t].apc.Exchange?
  {
    hide PlaceAll;
  }

  // ---- A dequeued node is free to be reused ----

  // The access thread u makes next is not to the link of n.
  ghost predicate LeavesAlone(l: Local, n: Node) {
    && (l.Append? ==> (l.apc.InitNode? ==> l.apc.node != n) && (l.apc.Store? ==> l.apc.prev != n))
    && (l.Dequeue? && (l.dpc.LoadNext? || l.dpc.SyncNext?) ==> l.dpc.node != n)
    && (l.Iterate? && (l.ipc.NextLoad? || l.ipc.NextSync?) ==> l.ipc.node != n)
  }

  lemma PrivateUntouched(s: State, u: Tid, n: Node, owner: Tid)
    requires Inv(s) && Owns(s, owner, n) && u < |s.loc|
    ensures LeavesAlone(s.loc[u], n)
  {
    hide Locals, Queues, Pends, Holders, Places, Roles, LocalOk, QueueOk, LinkAt;
    LocalAt(s, u);
    match s.loc[u] {
      case Append(q, pc) => AppendLeavesAlone(s, u, n, owner, q, pc);
      case Dequeue(q, pc) =>
        QueueAt(s, q);
        DequeuesOk(s, u, q, pc);
        if pc.LoadNext? || pc.SyncNext? { QueueLinks(s, q, 0); }
      case Iterate(q, pc) =>
        QueueAt(s, q);
        IteratesOk(s, u, q, pc);
        if pc.NextLoad? || pc.NextSync? { QueueLinks(s, q, pc.i); }
      case _ =>
    }
  }

  lemma AppendLeavesAlone(s: State, u: Tid, n: Node, owner: Tid, q: Qid, pc: AppendPc)
    requires Shape(s) && Pends(s) && Owns(s, owner, n) && u < |s.loc| && s.loc[u] == Append(q, pc) && LocalOk(s, u)
    ensures LeavesAlone(s.loc[u], n)
  {
    hide Link, Linked;
    if pc.InitNode? {
      assert ChunkOf(s.loc[u])[0] == pc.node;
    } else if pc.Store? {
      assert PendOk(s, pc.prev);
    }
  }

  // s and s2 differ at most in the link of the item n.
  ghost predicate Twin(s: State, s2: State, n: Node) {
    n.Item? && s2 == s.(next := s2.next) && forall m :: m != n ==> Load(s2, m) == Load(s, m)
  }

  lemma TwinRead(s: State, s2: State, n: Node, u: Tid)
    requires Shape(s) && Shape(s2) && Twin(s, s2, n) && u < |s.loc| && LeavesAlone(s.loc[u], n)
    ensures Reads(s2, s.loc[u]) == Reads(s, s.loc[u])
    ensures Reads(s, s.loc[u]) ==> AfterRead(s2, s.loc[u]) == AfterRead(s, s.loc[u])
  {
    assert forall q :: Load(s2, Head(q)) == Load(s, Head(q));
  }

  // The link of n survives in both, and the rest stays equal.
  ghost predicate TwinAgain(s: State, s2: State, s': State, s2': State, n: Node) {
    Twin(s', s2', n) && Load(s2', n) == Load(s2, n) && Load(s', n) == Load(s, n)
  }

  lemma TwinInit(s: State, s2: State, n: Node, u: Tid, q: Qid, node: Node)
    requires Shape(s) && Shape(s2) && Twin(s, s2, n) && u < |s.loc| && node != n
    ensures TwinAgain(s, s2, DoInitNode(s, u, q, node), DoInitNode(s2, u, q, node), n)
  {
    forall m | m != n ensures Load(DoInitNode(s2, u, q, node), m) == Load(DoInitNode(s, u, q, node), m) {
      assert Load(s2, m) == Load(s, m);
    }
  }

  lemma TwinExchange(s: State, s2: State, n: Node, u: Tid, q: Qid, pc: AppendPc)
    requires Shape(s) && Shape(s2) && Twin(s, s2, n) && u < |s.loc| && q in s.queue && pc.Exchange?
    ensures TwinAgain(s, s2, DoExchange(s, u, q, pc), DoExchange(s2, u, q, pc), n)
  {
    hide Knows, PlaceAll;
    forall m | m != n ensures Load(DoExchange(s2, u, q, pc), m) == Load(DoExchange(s, u, q, pc), m) {
      assert Load(s2, m) == Load(s, m);
    }
  }

  lemma TwinStore(s: State, s2: State, n: Node, u: Tid, q: Qid, pc: AppendPc)
    requires Shape(s) && Shape(s2) && Twin(s, s2, n) && u < |s.loc| && pc.Store? && pc.prev != n
    ensures TwinAgain(s, s2, DoStore(s, u, q, pc), DoStore(s2, u, q, pc), n)
  {
    forall m | m != n ensures Load(DoStore(s2, u, q, pc), m) == Load(DoStore(s, u, q, pc), m) {
      assert Load(s2, m) == Load(s, m);
    }
  }

  lemma TwinTakeHead(s: State, s2: State, n: Node, u: Tid, d: Qid, q: Qid)
    requires Shape(s) && Shape(s2) && Twin(s, s2, n) && u < |s.loc| && Head(q) in s.next && Head(q) in s2.next
    ensures TwinAgain(s, s2, DoTakeHead(s, u, d, q), DoTakeHead(s2, u, d, q), n)
  {
    assert Load(s2, Head(q)) == Load(s, Head(q));
    forall m | m != n ensures Load(DoTakeHead(s2, u, d, q), m) == Load(DoTakeHead(s, u, d, q), m) {
      assert Load(s2, m) == Load(s, m);
    }
  }

  lemma TwinDetach(s: State, s2: State, n: Node, u: Tid, d: Qid, q: Qid, first: Node)
    requires Shape(s) && Shape(s2) && Twin(s, s2, n) && u < |s.loc| && q in s.queue
    ensures TwinAgain(s, s2, DoDetach(s, u, d, q, first), DoDetach(s2, u, d, q, first), n)
  {
    hide Knows, PlaceAll;
    forall m | m != n ensures Load(DoDetach(s2, u, d, q, first), m) == Load(DoDetach(s, u, d, q, first), m) {
      assert Load(s2, m) == Load(s, m);
    }
  }

  lemma TwinAppend(s: State, s2: State, n: Node, u: Tid)
    requires Shape(s) && Shape(s2) && Twin(s, s2, n) && u < |s.loc| && LeavesAlone(s.loc[u], n) && s.loc[u].Append?
    ensures TwinAgain(s, s2, Step(s, u), Step(s2, u), n)
  {
    hide TwinAgain, DoInitNode, DoExchange, DoStore, Load;
    var q, pc := s.loc[u].q, s.loc[u].apc;
    match pc {
      case InitNode(node) => TwinInit(s, s2, n, u, q, node);
      case Exchange(_, _, _, _) => TwinExchange(s, s2, n, u, q, pc);
      case Store(_, _, _, _) => TwinStore(s, s2, n, u, q, pc);
    }
  }

  lemma TwinDequeue(s: State, s2: State, n: Node, u: Tid)
    requires Shape(s) && Shape(s2) && Twin(s, s2, n) && u < |s.loc| && s.loc[u].Dequeue?
    requires !Reads(s, s.loc[u]) && !Reads(s2, s.loc[u])
    ensures TwinAgain(s, s2, Step(s, u), Step(s2, u), n)
  {
    hide TwinAgain, DoClearHead, DoCasTail, DoAdvance, Load;
    var q := s.loc[u].q;
    match s.loc[u].dpc {
      case ClearHead(node) => TwinClearHead(s, s2, n, u, q, node);
      case CasTail(node) => TwinCasTail(s, s2, n, u, q, node);
      case Advance(node, next, _) => TwinAdvance(s, s2, n, u, q, node, next);
      case _ =>
    }
  }

  lemma TwinClearHead(s: State, s2: State, n: Node, u: Tid, q: Qid, node: Node)
    requires Shape(s) && Shape(s2) && Twin(s, s2, n) && u < |s.loc|
    ensures TwinAgain(s, s2, DoClearHead(s, u, q, node), DoClearHead(s2, u, q, node), n)
  {
    hide Knows;
    forall m | m != n ensures Load(DoClearHead(s2, u, q, node), m) == Load(DoClearHead(s, u, q, node), m) {
      assert Load(s2, m) == Load(s, m);
    }
  }

  lemma TwinCasTail(s: State, s2: State, n: Node, u: Tid, q: Qid, node: Node)
    requires Shape(s) && Shape(s2) && Twin(s, s2, n) && u < |s.loc| && q in s.queue
    ensures TwinAgain(s, s2, DoCasTail(s, u, q, node), DoCasTail(s2, u, q, node), n)
  {
    hide Knows;
    forall m | m != n ensures Load(DoCasTail(s2, u, q, node), m) == Load(DoCasTail(s, u, q, node), m) {
      assert Load(s2, m) == Load(s, m);
    }
  }

  lemma TwinAdvance(s: State, s2: State, n: Node, u: Tid, q: Qid, node: Node, next: Node)
    requires Shape(s) && Shape(s2) && Twin(s, s2, n) && u < |s.loc| && q in s.queue
    ensures TwinAgain(s, s2, DoAdvance(s, u, q, node, next), DoAdvance(s2, u, q, node, next), n)
  {
    hide Knows;
    forall m | m != n ensures Load(DoAdvance(s2, u, q, node, next), m) == Load(DoAdvance(s, u, q, node, next), m) {
      assert Load(s2, m) == Load(s, m);
    }
  }

  lemma TwinSplice(s: State, s2: State, n: Node, u: Tid)
    requires Shape(s) && Shape(s2) && Twin(s, s2, n) && u < |s.loc| && s.loc[u].Splice?
    requires !Reads(s, s.loc[u]) && !Reads(s2, s.loc[u])
    ensures TwinAgain(s, s2, Step(s, u), Step(s2, u), n)
  {
    hide TwinAgain, DoTakeHead, DoDetach;
    var l := s.loc[u];
    if l.spc.TakeHead? {
      TwinTakeHead(s, s2, n, u, l.dst, l.src);
    } else {
      TwinDetach(s, s2, n, u, l.dst, l.src, l.spc.first);
    }
  }

  lemma TwinStep(s: State, s2: State, n: Node, u: Tid)
    requires Shape(s) && Shape(s2) && Twin(s, s2, n) && u < |s.loc| && LeavesAlone(s.loc[u], n)
    ensures TwinAgain(s, s2, Step(s, u), Step(s2, u), n)
  {
    hide TwinAgain, AfterRead, Load, LeavesAlone, DoInitNode, DoExchange, DoStore, DoClearHead, DoCasTail, DoAdvance;
    TwinRead(s, s2, n, u);
    if Reads(s, s.loc[u]) {
      TwinReadStep(s, s2, n, u);
    } else if s.loc[u].Append? {
      TwinAppend(s, s2, n, u);
    } else if s.loc[u].Dequeue? {
      TwinDequeue(s, s2, n, u);
    } else if s.loc[u].Splice? {
      TwinSplice(s, s2, n, u);
    } else {
      TwinNothing(s, s2, n, u);
    }
  }

  lemma TwinReadStep(s: State, s2: State, n: Node, u: Tid)
    requires Shape(s) && Shape(s2) && Twin(s, s2, n) && u < |s.loc| && Reads(s, s.loc[u]) && Reads(s2, s.loc[u])
    requires AfterRead(s2, s.loc[u]) == AfterRead(s, s.loc[u])
    ensures TwinAgain(s, s2, Step(s, u), Step(s2, u), n)
  {
    hide AfterRead, Reads, Load;
    SameLoads(s, Step(s, u));
    SameLoads(s2, Step(s2, u));
  }

  lemma SameLoads(s: State, s': State)
    requires s'.next == s.next
    ensures forall m :: Load(s', m) == Load(s, m)
  {
  }

  lemma TwinNothing(s: State, s2: State, n: Node, u: Tid)
    requires Shape(s) && Shape(s2) && Twin(s, s2, n) && u < |s.loc| && !Reads(s, s.loc[u]) && !Reads(s2, s.loc[u])
    requires s.loc[u].Idle? || s.loc[u].Iterate?
    ensures TwinAgain(s, s2, Step(s, u), Step(s2, u), n)
  {
    hide Load;
  }

  /**
   * Whatever the owner of a node writes into it is invisible to every step of every other operation,
   * and survives it: the step does the same with and without the write.  Reusing a dequeued node at
   * once disturbs nobody, and nobody disturbs it.
   */
  lemma ReuseIsInvisible(s: State, owner: Tid, n: Node, v: Option<Node>, u: Tid)
    requires Inv(s) && Enabled(s, owner, Scribble(n, v)) && Enabled(s, u, Run)
    ensures WriteUnseen(s, Apply(s, owner, Scribble(n, v)), u, n, v)
  {
    hide Locals, Queues, Pends, Holders, Places, Roles, Apply, Step, LeavesAlone, Twin;
    var s2 := Apply(s, owner, Scribble(n, v));
    PrivateUntouched(s, u, n, owner);
    ScribbleTwin(s, s2, owner, n, v);
    TwinStep(s, s2, n, u);
  }

  // The next step of u does the same from s and from s2, where v has been written to n's link, and v survives it.
  ghost predicate WriteUnseen(s: State, s2: State, u: Tid, n: Node, v: Option<Node>) {
    && Shape(s) && Shape(s2) && u < |s.loc| && u < |s2.loc| && Twin(Step(s, u), Step(s2, u), n)
    && Load(Step(s2, u), n) == v && Load(Step(s, u), n) == Load(s, n)
  }

  lemma ScribbleTwin(s: State, s2: State, owner: Tid, n: Node, v: Option<Node>)
    requires Shape(s) && Enabled(s, owner, Scribble(n, v)) && s2 == Apply(s, owner, Scribble(n, v)) && n.Item?
    ensures Shape(s2) && s2.loc == s.loc && Twin(s, s2, n) && Load(s2, n) == v
  {
  }

  // ---- No node is lost or duplicated ----

  // n is in slot i of queue q.
  ghost predicate InSlot(s: State, n: Node, q: Qid, i: nat) {
    q in s.queue && i < |s.queue[q]| && s.queue[q][i] == n
  }

  /** A node has exactly one home: one slot of one queue, or one append in flight, or one owner. */
  lemma OneHome(s: State, n: Node)
    requires Inv(s) && n in s.place
    ensures s.place[n].Queued? ==> exists i :: InSlot(s, n, s.place[n].queue, i)
    ensures s.place[n].Moving? ==> s.place[n].mover < |s.loc| && n in ChunkOf(s.loc[s.place[n].mover])
    ensures forall q, i :: InSlot(s, n, q, i) ==> s.place[n] == Queued(q)
    ensures forall q, i, j :: InSlot(s, n, q, i) && InSlot(s, n, q, j) ==> i == j
    ensures forall t :: 0 <= t < |s.loc| && n in ChunkOf(s.loc[t]) ==> s.place[n] == Moving(t)
  {
    assert PlaceOk(s, n);
    if s.place[n].Queued? {
      var q := s.place[n].queue;
      var i :| 0 <= i < |s.queue[q]| && s.queue[q][i] == n;
      assert InSlot(s, n, q, i);
    }
    SlotUnique(s, n) by { assert Queues(s); }
    forall t | 0 <= t < |s.loc| && n in ChunkOf(s.loc[t]) ensures s.place[n] == Moving(t) {
      assert LocalOk(s, t);
    }
  }

  lemma SlotUnique(s: State, n: Node)
    requires Shape(s) && Queues(s) && n in s.place
    ensures forall q, i :: InSlot(s, n, q, i) ==> s.place[n] == Queued(q)
    ensures forall q, i, j :: InSlot(s, n, q, i) && InSlot(s, n, q, j) ==> i == j
  {
    forall q, i | InSlot(s, n, q, i) ensures s.place[n] == Queued(q) { assert QueueOk(s, q); }
    forall q, i, j | InSlot(s, n, q, i) && InSlot(s, n, q, j) ensures i == j { assert QueueOk(s, q); }
  }

  // ---- Whom a busy-waiting thread waits for ----

  ghost predicate WaitsFor(l: Local, n: Node) {
    || (l.Dequeue? && ((l.dpc.SyncHead? && n == Head(l.q)) || (l.dpc.SyncNext? && n == l.dpc.node)))
    || (l.Iterate? && ((l.ipc.FirstSync? && n == Head(l.q)) || (l.ipc.NextSync? && n == l.ipc.node)))
  }

  // Some append is about to store the link of n, and its next access does so.
  ghost predicate AboutToLink(s: State, n: Node)
    requires Shape(s)
  {
    n in s.pend && LinksNext(s, s.pend[n].thread, n, s.pend[n].to)
  }

  ghost predicate LinksNext(s: State, u: Tid, n: Node, to: Node)
    requires Shape(s)
  {
    Enabled(s, u, Run) && Load(Step(s, u), n) == Some(to)
  }

  lemma PendingLinks(s: State, n: Node)
    requires Shape(s) && n in s.pend && PendOk(s, n)
    ensures AboutToLink(s, n)
  {
  }

  /** A thread in ___wfcq_node_sync_next waits for one append, whose very next access ends the wait. */
  lemma WaitsForAppend(s: State, t: Tid, n: Node)
    requires Inv(s) && t < |s.loc| && WaitsFor(s.loc[t], n) && Load(s, n) == None
    ensures AboutToLink(s, n)
  {
    assert LocalOk(s, t) by { assert Locals(s); }
    assert QueueOk(s, s.loc[t].q) by { assert Queues(s); }
    WaitsAt(s, t, n);
  }

  lemma WaitsAt(s: State, t: Tid, n: Node)
    requires Shape(s) && t < |s.loc| && WaitsFor(s.loc[t], n) && Load(s, n) == None
    requires LocalOk(s, t) && QueueOk(s, s.loc[t].q) && Holders(s) && Roles(s) && Pends(s)
    ensures AboutToLink(s, n)
  {
    if n.Head? { HeadNotHeld(s, t, s.loc[t].q); }
    MissingLinkPends(s, t, n);
    LinkIsPending(s, n);
  }

  lemma LinkIsPending(s: State, n: Node)
    requires Shape(s) && Pends(s) && n in s.pend
    ensures AboutToLink(s, n)
  {
    PendingLinks(s, n);
  }

  lemma MissingLinkPends(s: State, t: Tid, n: Node)
    requires Shape(s) && t < |s.loc| && WaitsFor(s.loc[t], n) && Load(s, n) == None
    requires LocalOk(s, t) && QueueOk(s, s.loc[t].q) && (n.Head? ==> s.loc[t].q !in s.holder)
    ensures n in s.pend
  {
    var l := s.loc[t];
    if l.Dequeue? && l.dpc.SyncNext? { QueueLinks(s, l.q, 0); }
    if l.Iterate? && l.ipc.NextSync? { QueueLinks(s, l.q, l.ipc.i); }
  }

  // While t iterates q, or dequeues from q without having cleared its head, nobody holds the head.
  lemma HeadNotHeld(s: State, t: Tid, q: Qid)
    requires Shape(s) && Holders(s) && Roles(s) && t < |s.loc|
    requires (RoleOf(s.loc[t], q) == Dequeuer || RoleOf(s.loc[t], q) == Iterator) && !Holds(s.loc[t], q)
    ensures q !in s.holder
  {
    forall u | 0 <= u < |s.loc| ensures !Holds(s.loc[u], q) {
      if u != t {
        assert !Excluded(RoleOf(s.loc[t], q), RoleOf(s.loc[u], q));
        assert !Excluded(RoleOf(s.loc[u], q), RoleOf(s.loc[t], q));
      }
    }
  }

  /** A splice loops only while an append, or another splice that will empty the source, is at work on it. */
  lemma SpliceWaits(s: State, t: Tid, q: Qid)
    requires Inv(s) && t < |s.loc| && s.loc[t].Splice? && s.loc[t].src == q && s.loc[t].spc.CheckTail?
    requires Load(s, Head(q)) == None && s.tail[q] != Head(q)
    ensures s.queue[q] != []
    ensures if q in s.holder then s.holder[q] < |s.loc| && s.loc[s.holder[q]].Splice? && s.loc[s.holder[q]].spc.Detach?
            else AboutToLink(s, Head(q))
  {
    hide Locals, Queues, Pends, Places, QueueOk, AboutToLink;
    QueueAt(s, q);
    HeadLinks(s, q);
    if q in s.holder {
      assert !Excluded(RoleOf(s.loc[s.holder[q]], q), RoleOf(s.loc[t], q));
    } else {
      HeadPends(s, q);
      LinkIsPending(s, Head(q));
    }
  }

  lemma HeadPends(s: State, q: Qid)
    requires Shape(s) && q in s.queue && QueueOk(s, q) && q !in s.holder && s.queue[q] != [] && Load(s, Head(q)) == None
    ensures Head(q) in s.pend
  {
    hide Linked;
  }
}
