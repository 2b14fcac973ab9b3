/**
 * The invariant of the wait-free queue, and the proof that every step of every thread keeps it.
 *
 * A link is either stored in a node or still pending in the append that exchanged the tail away
 * from that node.  `Link` reads both; the invariant says that these links form, for each queue,
 * one duplicate-free chain that starts at the queue's head and ends at its tail.
 */
module WfcQueueInv {
  import opened Options
  import opened Runs
  import opened WfcQueue

  ghost function Link(s: State, n: Node): Option<Node> {
    if n in s.next then Some(s.next[n])
    else if n in s.pend then Some(s.pend[n].to)
    else None
  }

  ghost predicate NoDup(c: seq<Node>) {
    forall i, j :: 0 <= i < j < |c| ==> c[i] != c[j]
  }

  // c is a chain: every node links to its successor, the last one to nothing.
  ghost predicate Linked(s: State, c: seq<Node>) {
    && NoDup(c)
    && (forall i, j :: 0 <= i < |c| && j == i + 1 < |c| ==> Link(s, c[i]) == Some(c[j]))
    && (c != [] ==> Link(s, c[|c| - 1]) == None)
  }

  ghost predicate AllAt(s: State, c: seq<Node>, p: Place) {
    forall i :: 0 <= i < |c| ==> c[i].Item? && c[i] in s.place && s.place[c[i]] == p
  }

  function TailOf(q: Qid, c: seq<Node>): Node {
    if c == [] then Head(q) else c[|c| - 1]
  }

  ghost predicate QueueOk(s: State, q: Qid)
    requires Shape(s) && q in s.queue
  {
    && AllAt(s, s.queue[q], Queued(q))
    && Linked(s, s.queue[q])
    && s.tail[q] == TailOf(q, s.queue[q])
    && s.entered[q] == s.removed[q] + s.queue[q]
    && HeadOk(s, q)
  }

  ghost predicate HeadOk(s: State, q: Qid)
    requires q in s.queue
  {
    if q in s.holder then Link(s, Head(q)) == None && s.queue[q] != []
    else Link(s, Head(q)) == if s.queue[q] == [] then None else Some(s.queue[q][0])
  }

  // Thread state l has taken the link out of q's head and must restore it or move the tail.
  predicate Holds(l: Local, q: Qid) {
    || (l.Dequeue? && l.q == q && (l.dpc.CasTail? || l.dpc.SyncNext? || (l.dpc.Advance? && l.dpc.held)))
    || (l.Splice? && l.src == q && l.spc.Detach?)
  }

  ghost predicate FirstIs(s: State, q: Qid, n: Node)
    requires q in s.queue
  {
    s.queue[q] != [] && s.queue[q][0] == n
  }

  // The private chain that an append is about to exchange into a queue.
  function ChunkOf(l: Local): seq<Node> {
    if l.Append? then
      match l.apc case InitNode(node) => [node] case Exchange(_, _, chunk, _) => chunk case Store(_, _, _, _) => []
    else []
  }

  ghost predicate AppendOk(s: State, t: Tid, q: Qid, pc: AppendPc) {
    match pc
    case InitNode(node) => node !in s.pend
    case Exchange(first, last, chunk, splice) =>
      chunk != [] && first == chunk[0] && last == chunk[|chunk| - 1] && Linked(s, chunk) && (!splice ==> |chunk| == 1)
    case Store(prev, first, wasEmpty, _) =>
      (prev == Head(q) <==> wasEmpty) && (prev.Item? || prev == Head(q)) &&
      prev in s.pend && s.pend[prev] == Pending(t, first)
  }

  ghost predicate DequeueOk(s: State, q: Qid, pc: DequeuePc)
    requires q in s.queue
  {
    match pc
    case EmptyHead => true
    case EmptyTail => true
    case SyncHead => s.queue[q] != []
    case LoadNext(node) => FirstIs(s, q, node) && Head(q) in s.next
    case ClearHead(node) => FirstIs(s, q, node) && Head(q) in s.next
    case CasTail(node) => FirstIs(s, q, node)
    case SyncNext(node) => FirstIs(s, q, node) && |s.queue[q]| >= 2
    case Advance(node, n, held) =>
      FirstIs(s, q, node) && |s.queue[q]| >= 2 && s.queue[q][1] == n && node.Item? && node in s.next
      && (held || Head(q) in s.next)
  }

  ghost predicate IterateOk(s: State, q: Qid, pc: IteratePc)
    requires q in s.queue
  {
    && (pc.FirstSync? ==> s.queue[q] != [])
    && (pc.At? || pc.NextLoad? || pc.NextTail? || pc.NextSync? ==> pc.i < |s.queue[q]| && s.queue[q][pc.i] == pc.node)
    && (pc.NextSync? ==> pc.i + 1 < |s.queue[q]|)
  }

  ghost predicate LocalOk(s: State, t: Tid)
    requires Shape(s) && t < |s.loc|
  {
    var l := s.loc[t];
    && AllAt(s, ChunkOf(l), Moving(t))
    && match l
       case Idle => true
       case Append(q, pc) => AppendOk(s, t, q, pc)
       case Dequeue(q, pc) => DequeueOk(s, q, pc)
       case Splice(_, src, pc) => pc.Detach? ==> FirstIs(s, src, pc.first)
       case Iterate(q, pc) => IterateOk(s, q, pc)
  }

  ghost predicate Locals(s: State)
    requires Shape(s)
  {
    forall t :: 0 <= t < |s.loc| ==> LocalOk(s, t)
  }

  ghost predicate Queues(s: State)
    requires Shape(s)
  {
    forall q :: q in s.queue ==> QueueOk(s, q)
  }

  // The pending links are exactly the appends between their two accesses.
  ghost predicate PendOk(s: State, n: Node)
    requires n in s.pend
  {
    && n !in s.next
    && s.pend[n].thread < |s.loc|
    && (var l := s.loc[s.pend[n].thread]; l.Append? && l.apc.Store? && l.apc.prev == n && l.apc.first == s.pend[n].to)
    && (n.Item? ==> n in s.place && !s.place[n].Owned?)
  }

  ghost predicate Pends(s: State) {
    forall n :: n in s.pend ==> PendOk(s, n)
  }

  ghost predicate Holders(s: State) {
    && (forall q :: q in s.holder ==> s.holder[q] < |s.loc| && Holds(s.loc[s.holder[q]], q))
    && (forall t, q :: 0 <= t < |s.loc| && Holds(s.loc[t], q) ==> q in s.holder && s.holder[q] == t)
  }

  // No node is lost: the place of a node names the one sequence that contains it.
  ghost predicate PlaceOk(s: State, n: Node)
    requires n in s.place
  {
    var p := s.place[n];
    && n.Item?
    && (p.Queued? ==> p.queue in s.queue && n in s.queue[p.queue])
    && (p.Moving? ==> p.mover < |s.loc| && n in ChunkOf(s.loc[p.mover]))
    && (p.Owned? ==> p.owner < |s.loc|)
  }

  ghost predicate Places(s: State) {
    forall n :: n in s.place ==> PlaceOk(s, n)
  }

  ghost predicate Roles(s: State) {
    forall t, u, q :: 0 <= t < |s.loc| && 0 <= u < |s.loc| && t != u ==>
      !Excluded(RoleOf(s.loc[t], q), RoleOf(s.loc[u], q))
  }

  ghost predicate Inv(s: State) {
    Shape(s) && Locals(s) && Queues(s) && Pends(s) && Holders(s) && Places(s) && Roles(s)
  }

  lemma InitInv(s: State)
    requires Init(s)
    ensures Inv(s)
  {
    hide QueueOk;
    forall q | q in s.queue ensures QueueOk(s, q) { InitQueue(s, q); }
  }

  lemma InitQueue(s: State, q: Qid)
    requires Init(s) && q in s.queue
    ensures QueueOk(s, q)
  {
  }

  // ---- What each part of the invariant needs in order to survive a step of thread t ----

  // s' differs from s, as far as threads go, in thread t only.
  ghost predicate OnlyThread(s: State, s': State, t: Tid) {
    && t < |s.loc| == |s'.loc| == |s'.ret|
    && forall u :: 0 <= u < |s.loc| && u != t ==> s'.loc[u] == s.loc[u]
  }

  lemma ShapeKept(s: State, s': State, t: Tid)
    requires Shape(s) && OnlyThread(s, s', t) && Knows(s, s'.loc[t])
    requires s'.tail.Keys == s'.queue.Keys == s'.entered.Keys == s'.removed.Keys == s.queue.Keys
    ensures Shape(s')
  {
  }

  // Thread t keeps its roles, gives them up, or takes one that the table lets it take.
  lemma RolesKept(s: State, s': State, t: Tid)
    requires Roles(s) && OnlyThread(s, s', t)
    requires forall q :: RoleOf(s'.loc[t], q) == NoRole || RoleOf(s'.loc[t], q) == RoleOf(s.loc[t], q)
                         || MayTake(s, t, RoleOf(s'.loc[t], q), q)
    ensures Roles(s')
  {
    forall u, v, q | 0 <= u < |s'.loc| && 0 <= v < |s'.loc| && u != v
      ensures !Excluded(RoleOf(s'.loc[u], q), RoleOf(s'.loc[v], q))
    {
      assert !Excluded(RoleOf(s.loc[u], q), RoleOf(s.loc[v], q));
      assert !Excluded(RoleOf(s.loc[v], q), RoleOf(s.loc[u], q));
    }
  }

  lemma HoldersKept(s: State, s': State, t: Tid)
    requires Holders(s) && OnlyThread(s, s', t) && s'.holder == s.holder
    requires forall q :: Holds(s'.loc[t], q) <==> Holds(s.loc[t], q)
    ensures Holders(s')
  {
  }

  lemma PlacesKept(s: State, s': State, t: Tid)
    requires Places(s) && OnlyThread(s, s', t) && s'.place == s.place && s'.queue == s.queue
    requires ChunkOf(s'.loc[t]) == ChunkOf(s.loc[t])
    ensures Places(s')
  {
    forall n | n in s'.place ensures PlaceOk(s', n) { assert PlaceOk(s, n); }
  }

  lemma PendsKept(s: State, s': State, t: Tid)
    requires Pends(s) && OnlyThread(s, s', t) && s'.place == s.place && s'.pend == s.pend
    requires !(s.loc[t].Append? && s.loc[t].apc.Store?)
    requires forall n :: n in s'.next && n in s.pend ==> n in s.next
    ensures Pends(s')
  {
    forall n | n in s'.pend ensures PendOk(s', n) { assert PendOk(s, n); }
  }

  lemma PendNotStored(s: State)
    requires Pends(s)
    ensures forall n :: n in s.pend ==> n !in s.next
  {
    forall n | n in s.pend ensures n !in s.next { assert PendOk(s, n); }
  }

  // Thread t gives up the head of q, if it held it.
  lemma HolderLeaves(s: State, s': State, t: Tid, q: Qid)
    requires Holders(s) && OnlyThread(s, s', t) && s'.holder == s.holder - {q}
    requires q in s.holder <==> Holds(s.loc[t], q)
    requires forall r :: Holds(s'.loc[t], r) <==> r != q && Holds(s.loc[t], r)
    ensures Holders(s')
  {
    hide Holds;
  }

  lemma HeldBy(s: State, t: Tid, q: Qid)
    requires Holders(s) && t < |s.loc| && Holds(s.loc[t], q)
    ensures q in s.holder && s.holder[q] == t
  {
  }

  lemma QueueAt(s: State, q: Qid)
    requires Shape(s) && Queues(s) && q in s.queue
    ensures QueueOk(s, q)
  {
  }

  lemma LocalAt(s: State, t: Tid)
    requires Shape(s) && Locals(s) && t < |s.loc|
    ensures LocalOk(s, t)
  {
  }

  // The nodes on their way into a queue in thread u are as they were.
  ghost predicate MovingKept(s: State, s': State, u: Tid) {
    forall n: Node :: n.Item? && n in s.place && s.place[n] == Moving(u) ==>
      n in s'.place && s'.place[n] == Moving(u) && Link(s', n) == Link(s, n)
  }

  // The links of q, and of the nodes in q, are as they were.
  ghost predicate QueuedKept(s: State, s': State, q: Qid) {
    Link(s', Head(q)) == Link(s, Head(q)) &&
    forall n: Node :: n.Item? && n in s.place && s.place[n] == Queued(q) ==>
      n in s'.place && s'.place[n] == Queued(q) && Link(s', n) == Link(s, n)
  }

  lemma SameLinks(s: State, s': State)
    requires s'.next == s.next && s'.pend == s.pend
    ensures forall n :: Link(s', n) == Link(s, n)
  {
  }

  // Nothing that thread u, inside an append, relies on has changed.
  ghost predicate AppendUndisturbed(s: State, s': State, u: Tid, pc: AppendPc) {
    && MovingKept(s, s', u)
    && (pc.InitNode? ==> pc.node !in s'.pend)
    && (pc.Store? && pc.prev in s.pend ==> pc.prev in s'.pend && s'.pend[pc.prev] == s.pend[pc.prev])
  }

  // Nor what a thread inside another operation relies on.
  ghost predicate RemoverUndisturbed(s: State, s': State, l: Local)
    requires Shape(s) && Shape(s') && Knows(s, l) && Knows(s', l)
  {
    && (l.Dequeue? || l.Iterate? ==> s.queue[l.q] <= s'.queue[l.q])
    && (l.Splice? && l.spc.Detach? ==> s.queue[l.src] <= s'.queue[l.src])
    && (l.Dequeue? && Head(l.q) in s.next ==> Head(l.q) in s'.next)
    && (l.Dequeue? && l.dpc.Advance? && l.dpc.node in s.next ==> l.dpc.node in s'.next)
  }

  ghost predicate Undisturbed(s: State, s': State, u: Tid)
    requires Shape(s) && Shape(s') && u < |s.loc| && u < |s'.loc|
  {
    && s'.loc[u] == s.loc[u]
    && (s.loc[u].Append? ==> AppendUndisturbed(s, s', u, s.loc[u].apc))
    && (!s.loc[u].Append? ==> RemoverUndisturbed(s, s', s.loc[u]))
  }

  lemma OtherLocal(s: State, s': State, u: Tid)
    requires Shape(s) && Shape(s') && u < |s.loc| && u < |s'.loc| && LocalOk(s, u) && Undisturbed(s, s', u)
    ensures LocalOk(s', u)
  {
    hide Link;
  }

  lemma PendsStay(s: State, u: Tid)
    requires Shape(s) && u < |s.loc| && LocalOk(s, u)
    ensures s.loc[u].Append? && s.loc[u].apc.InitNode? ==> s.loc[u].apc.node !in s.pend
  {
    hide Link;
  }

  lemma OtherQueue(s: State, s': State, q: Qid)
    requires Shape(s) && Shape(s') && q in s.queue && q in s'.queue && QueueOk(s, q)
    requires s'.queue[q] == s.queue[q] && s'.tail[q] == s.tail[q]
    requires s'.entered[q] == s.entered[q] && s'.removed[q] == s.removed[q]
    requires q in s'.holder <==> q in s.holder
    requires QueuedKept(s, s', q)
    ensures QueueOk(s', q)
  {
    hide Link;
  }

  // The link of the node at position i of q, and whether the tail is at it.
  ghost predicate LinkAt(s: State, q: Qid, i: nat)
    requires Shape(s) && q in s.queue && i < |s.queue[q]|
  {
    && Link(s, s.queue[q][i]) == (if i + 1 < |s.queue[q]| then Some(s.queue[q][i + 1]) else None)
    && (i + 1 < |s.queue[q]| <==> s.tail[q] != s.queue[q][i])
  }

  lemma QueueLinks(s: State, q: Qid, i: nat)
    requires Shape(s) && q in s.queue && QueueOk(s, q) && i < |s.queue[q]|
    ensures LinkAt(s, q, i)
    ensures s.tail[q] != Head(q) && s.queue[q][i].Item?
    ensures s.queue[q][i] in s.place && s.place[s.queue[q][i]] == Queued(q)
  {
  }

  // ---- Accesses that write nothing shared, and the starts of operations ----

  ghost predicate SameShared(s: State, s': State) {
    && s'.next == s.next && s'.tail == s.tail && s'.queue == s.queue && s'.entered == s.entered
    && s'.removed == s.removed && s'.place == s.place && s'.pend == s.pend && s'.holder == s.holder
  }

  ghost predicate Moves(s: State, s': State, t: Tid) {
    && Shape(s) && Shape(s') && SameShared(s, s') && OnlyThread(s, s', t)
    && !s.loc[t].Append? && !s'.loc[t].Append?
    && (forall q :: Holds(s'.loc[t], q) <==> Holds(s.loc[t], q))
    && (forall q :: RoleOf(s'.loc[t], q) == NoRole || RoleOf(s'.loc[t], q) == RoleOf(s.loc[t], q)
                    || MayTake(s, t, RoleOf(s'.loc[t], q), q))
  }

  lemma MoveLocals(s: State, s': State, t: Tid)
    requires Moves(s, s', t) && Locals(s) && LocalOk(s', t)
    ensures Locals(s')
  {
    hide QueueOk;
    forall u | 0 <= u < |s'.loc| ensures LocalOk(s', u) {
      if u != t {
        assert LocalOk(s, u);
        OtherLocal(s, s', u);
      }
    }
  }

  lemma MoveQueues(s: State, s': State)
    requires Shape(s) && Shape(s') && SameShared(s, s') && Queues(s)
    ensures Queues(s')
  {
    hide QueueOk, Link;
    SameLinks(s, s');
    forall q | q in s'.queue ensures QueueOk(s', q) { OtherQueue(s, s', q); }
  }

  lemma MoveKeepsInv(s: State, s': State, t: Tid)
    requires Inv(s) && Moves(s, s', t) && LocalOk(s', t)
    ensures Inv(s')
  {
    hide Locals, Queues, Pends, Holders, Places, Roles, LocalOk, QueueOk, PendOk;
    MoveLocals(s, s', t);
    MoveQueues(s, s');
    PendsKept(s, s', t);
    HoldersKept(s, s', t);
    PlacesKept(s, s', t);
    RolesKept(s, s', t);
  }

  lemma ReadMoves(s: State, s': State, t: Tid)
    requires Shape(s) && t < |s.loc| && Reads(s, s.loc[t]) && s' == Goto(s, t, AfterRead(s, s.loc[t]))
    ensures Moves(s, s', t)
  {
    var l, l' := s.loc[t], s'.loc[t];
    assert l' == Idle || (l.Dequeue? && l'.Dequeue? && l'.q == l.q) || (l.Iterate? && l'.Iterate? && l'.q == l.q)
        || (l.Splice? && l'.Splice? && l'.src == l.src && l'.dst == l.dst);
    assert forall q :: Holds(l', q) <==> Holds(l, q);
    ShapeKept(s, s', t);
  }

  // What the thread learns from the word it has read.
  lemma DequeueReadOk(s: State, s': State, t: Tid, q: Qid, pc: DequeuePc)
    requires Moves(s, s', t) && s.loc[t] == Dequeue(q, pc) && Reads(s, s.loc[t])
    requires s'.loc[t] == DequeueRead(s, q, pc).to && LocalOk(s, t) && QueueOk(s, q)
    ensures LocalOk(s', t)
  {
    hide LocalOk, QueueOk, LinkAt, DequeueOk;
    DequeuesOk(s, t, q, pc);
    HeadLinks(s, q);
    if s.queue[q] != [] { QueueLinks(s, q, 0); }
    DequeuesOn(s, s', t, q, pc);
  }

  lemma DequeuesOk(s: State, t: Tid, q: Qid, pc: DequeuePc)
    requires Shape(s) && t < |s.loc| && s.loc[t] == Dequeue(q, pc) && LocalOk(s, t)
    ensures DequeueOk(s, q, pc)
  {
    hide FirstIs;
  }

  lemma DequeuesOn(s: State, s': State, t: Tid, q: Qid, pc: DequeuePc)
    requires Moves(s, s', t) && s.loc[t] == Dequeue(q, pc) && Reads(s, s.loc[t]) && DequeueOk(s, q, pc)
    requires s'.loc[t] == DequeueRead(s, q, pc).to
    requires s.queue[q] != [] ==> LinkAt(s, q, 0) && s.queue[q][0].Item?
    requires s.tail[q] == Head(q) <==> s.queue[q] == []
    requires Head(q) in s.next ==> s.queue[q] != [] && s.next[Head(q)] == s.queue[q][0]
    ensures LocalOk(s', t)
  {
    hide Holds, RoleOf, MayTake, DequeueRead, DequeueOk, LinkAt;
    DequeuesTo(s, q, pc);
    if s'.loc[t] != Idle { DequeueSame(s, s', q, s'.loc[t].dpc); }
  }

  lemma DequeuesTo(s: State, q: Qid, pc: DequeuePc)
    requires Shape(s) && q in s.queue && !pc.ClearHead? && !pc.Advance? && DequeueOk(s, q, pc)
    requires pc.CasTail? ==> s.tail[q] != pc.node
    requires s.queue[q] != [] ==> LinkAt(s, q, 0) && s.queue[q][0].Item?
    requires s.tail[q] == Head(q) <==> s.queue[q] == []
    requires Head(q) in s.next ==> s.queue[q] != [] && s.next[Head(q)] == s.queue[q][0]
    ensures var l := DequeueRead(s, q, pc).to; l == Idle || (l.Dequeue? && l.q == q && DequeueOk(s, q, l.dpc))
  {
  }

  lemma DequeueSame(s: State, s': State, q: Qid, pc: DequeuePc)
    requires q in s.queue && s'.queue == s.queue && s'.next == s.next && DequeueOk(s, q, pc)
    ensures DequeueOk(s', q, pc)
  {
  }

  lemma IterateReadOk(s: State, s': State, t: Tid, q: Qid, pc: IteratePc)
    requires Moves(s, s', t) && s.loc[t] == Iterate(q, pc) && Reads(s, s.loc[t])
    requires s'.loc[t] == IterateRead(s, q, pc).to && LocalOk(s, t) && QueueOk(s, q)
    ensures LocalOk(s', t)
  {
    hide QueueOk, LocalOk;
    assert IterateOk(s, q, pc) by { IteratesOk(s, t, q, pc); }
    if pc.NextLoad? || pc.NextTail? || pc.NextSync? {
      QueueLinks(s, q, pc.i);
    }
    HeadLinks(s, q);
    IteratesOn(s, s', t, q, pc);
  }

  lemma IteratesOk(s: State, t: Tid, q: Qid, pc: IteratePc)
    requires Shape(s) && t < |s.loc| && s.loc[t] == Iterate(q, pc) && LocalOk(s, t)
    ensures IterateOk(s, q, pc)
  {
  }

  // The head's link, while no remover has taken it out, and whether the tail is at the head.
  lemma HeadLinks(s: State, q: Qid)
    requires Shape(s) && q in s.queue && QueueOk(s, q)
    ensures s.tail[q] == Head(q) <==> s.queue[q] == []
    ensures Head(q) in s.next ==> s.queue[q] != [] && s.next[Head(q)] == s.queue[q][0]
  {
    hide Linked;
  }

  lemma IteratesOn(s: State, s': State, t: Tid, q: Qid, pc: IteratePc)
    requires Moves(s, s', t) && s.loc[t] == Iterate(q, pc) && Reads(s, s.loc[t]) && IterateOk(s, q, pc)
    requires s'.loc[t] == IterateRead(s, q, pc).to
    requires pc.NextLoad? || pc.NextTail? || pc.NextSync? ==> LinkAt(s, q, pc.i)
    requires s.tail[q] == Head(q) <==> s.queue[q] == []
    requires Head(q) in s.next ==> s.queue[q] != [] && s.next[Head(q)] == s.queue[q][0]
    ensures LocalOk(s', t)
  {
    hide Holds, RoleOf, MayTake, IterateRead, IterateOk;
    var l' := s'.loc[t];
    IteratesTo(s, q, pc);
    if l' != Idle { IterateSame(s, s', q, l'.ipc); }
  }

  lemma IteratesTo(s: State, q: Qid, pc: IteratePc)
    requires Shape(s) && q in s.queue && !pc.At? && IterateOk(s, q, pc)
    requires pc.NextLoad? || pc.NextTail? || pc.NextSync? ==> LinkAt(s, q, pc.i)
    requires s.tail[q] == Head(q) <==> s.queue[q] == []
    requires Head(q) in s.next ==> s.queue[q] != [] && s.next[Head(q)] == s.queue[q][0]
    ensures var l := IterateRead(s, q, pc).to; l == Idle || (l.Iterate? && l.q == q && IterateOk(s, q, l.ipc))
  {
  }

  lemma IterateSame(s: State, s': State, q: Qid, pc: IteratePc)
    requires q in s.queue && s'.queue == s.queue && IterateOk(s, q, pc)
    ensures IterateOk(s', q, pc)
  {
  }

  lemma ReadOk(s: State, s': State, t: Tid)
    requires Moves(s, s', t) && Reads(s, s.loc[t]) && s'.loc[t] == AfterRead(s, s.loc[t]).to && LocalOk(s, t)
    requires var l := s.loc[t]; l.Dequeue? || l.Iterate? ==> QueueOk(s, l.q)
    ensures LocalOk(s', t)
  {
    var l := s.loc[t];
    if l.Dequeue? {
      DequeueReadOk(s, s', t, l.q, l.dpc);
    } else if l.Iterate? {
      IterateReadOk(s, s', t, l.q, l.ipc);
    }
  }

  lemma ReadKeepsInv(s: State, s': State, t: Tid)
    requires Inv(s) && t < |s.loc| && Reads(s, s.loc[t]) && s' == Goto(s, t, AfterRead(s, s.loc[t]))
    ensures Inv(s')
  {
    hide Pends, Holders, Places, Roles, LocalOk, QueueOk, PendOk, Moves;
    ReadMoves(s, s', t);
    ReadOk(s, s', t) by { assert Locals(s) && Queues(s); }
    MoveKeepsInv(s, s', t);
  }

  // ---- wfcq_node_init on a node about to be enqueued ----

  // A private node's link changes: queues and other threads do not see it.
  ghost predicate Rewrites(s: State, s': State, t: Tid, node: Node) {
    && Shape(s) && Shape(s') && OnlyThread(s, s', t) && node.Item? && node in s.place
    && s'.tail == s.tail && s'.queue == s.queue && s'.entered == s.entered && s'.removed == s.removed
    && s'.place == s.place && s'.pend == s.pend && s'.holder == s.holder
    && (forall n :: n != node ==> Link(s', n) == Link(s, n) && (n in s'.next <==> n in s.next))
  }

  lemma RewriteOther(s: State, s': State, t: Tid, node: Node, u: Tid)
    requires Rewrites(s, s', t, node) && u < |s.loc| && LocalOk(s, u) && s'.loc[u] == s.loc[u]
    requires s.place[node] == Owned(t) || (s.place[node] == Moving(t) && u != t)
    requires s.loc[u].Dequeue? ==> QueueOk(s, s.loc[u].q)
    ensures LocalOk(s', u)
  {
    hide Linked, NoDup, IterateOk, HeadOk;
    var l := s.loc[u];
    if l.Dequeue? && l.dpc.Advance? { QueueLinks(s, l.q, 0); }
    OtherLocal(s, s', u);
  }

  lemma RewriteQueues(s: State, s': State, t: Tid, node: Node)
    requires Rewrites(s, s', t, node) && (s.place[node].Owned? || s.place[node].Moving?) && Queues(s)
    ensures Queues(s')
  {
    hide QueueOk, Link;
    forall q | q in s'.queue ensures QueueOk(s', q) { OtherQueue(s, s', q); }
  }

  lemma InitNodeShape(s: State, s': State, t: Tid, q: Qid, node: Node)
    requires Shape(s) && t < |s.loc| && s.loc[t] == Append(q, InitNode(node)) && s' == DoInitNode(s, t, q, node)
    requires LocalOk(s, t)
    ensures Rewrites(s, s', t, node) && s.place[node] == Moving(t) && LocalOk(s', t)
  {
    assert ChunkOf(s.loc[t])[0] == node;
    ShapeKept(s, s', t);
  }

  lemma InitNodeLocals(s: State, s': State, t: Tid, node: Node)
    requires Rewrites(s, s', t, node) && s.place[node] == Moving(t) && LocalOk(s', t) && Locals(s) && Queues(s)
    ensures Locals(s')
  {
    hide QueueOk;
    forall u | 0 <= u < |s'.loc| ensures LocalOk(s', u) {
      assert LocalOk(s, u);
      if u != t { RewriteOther(s, s', t, node, u); }
    }
  }

  lemma InitNodeKeepsInv(s: State, s': State, t: Tid, q: Qid, node: Node)
    requires Inv(s) && t < |s.loc| && s.loc[t] == Append(q, InitNode(node)) && s' == DoInitNode(s, t, q, node)
    ensures Inv(s')
  {
    hide Queues, Pends, Holders, Places, Roles, LocalOk, QueueOk, PendOk;
    InitNodeShape(s, s', t, q, node) by { assert Locals(s); }
    InitNodeLocals(s, s', t, node);
    RewriteQueues(s, s', t, node);
    PendsKept(s, s', t);
    HoldersKept(s, s', t);
    PlacesKept(s, s', t);
    RolesKept(s, s', t);
  }

  // ---- old_tail = xchg(&tail->p, new_tail): the chunk enters the queue ----

  ghost predicate Exchanges(s: State, s': State, t: Tid, q: Qid, pc: AppendPc) {
    && Shape(s) && Shape(s') && OnlyThread(s, s', t) && s.loc[t] == Append(q, pc) && pc.Exchange?
    && s'.loc[t] == Append(q, AppendPc.Store(s.tail[q], pc.first, s.queue[q] == [], pc.splice))
    && s'.next == s.next && s'.removed == s.removed && s'.holder == s.holder
    && s'.tail == s.tail[q := pc.last] && s'.queue == s.queue[q := s.queue[q] + pc.chunk]
    && s'.entered == s.entered[q := s.entered[q] + pc.chunk]
    && s'.place == PlaceAll(s.place, pc.chunk, Queued(q)) && s'.pend == s.pend[s.tail[q] := Pending(t, pc.first)]
  }

  lemma ExchangeExchanges(s: State, s': State, t: Tid, q: Qid, pc: AppendPc)
    requires Shape(s) && t < |s.loc| && s.loc[t] == Append(q, pc) && pc.Exchange? && s' == DoExchange(s, t, q, pc)
    ensures Exchanges(s, s', t, q, pc)
  {
    ShapeKept(s, s', t);
  }

  // The last node of q, or its head, links to nothing yet.
  lemma TailLink(s: State, q: Qid)
    requires Shape(s) && q in s.queue && QueueOk(s, q)
    ensures var prev := s.tail[q];
      && Link(s, prev) == None && prev !in s.pend && (prev == Head(q) <==> s.queue[q] == [])
      && (prev.Item? ==> prev in s.place && s.place[prev] == Queued(q)) && (prev.Head? ==> prev == Head(q))
  {
  }

  lemma ExchangeLinks(s: State, s': State, t: Tid, q: Qid, pc: AppendPc)
    requires Exchanges(s, s', t, q, pc) && QueueOk(s, q)
    ensures var prev := s.tail[q];
      && Link(s, prev) == None && Link(s', prev) == Some(pc.first)
      && (forall n :: n != prev ==> Link(s', n) == Link(s, n))
      && (prev == Head(q) <==> s.queue[q] == [])
      && (prev.Item? ==> prev in s.place && s.place[prev] == Queued(q))
      && (prev.Head? ==> prev == Head(q)) && prev !in s.pend
  {
    hide QueueOk;
    TailLink(s, q);
  }

  lemma ExchangeOther(s: State, s': State, t: Tid, q: Qid, pc: AppendPc, u: Tid)
    requires Exchanges(s, s', t, q, pc) && LocalOk(s, t) && QueueOk(s, q)
    requires u < |s.loc| && u != t && LocalOk(s, u)
    ensures LocalOk(s', u)
  {
    hide LocalOk, QueueOk, AppendUndisturbed;
    if s.loc[u].Append? { ExchangeOtherAppend(s, s', t, q, pc, u, s.loc[u].q, s.loc[u].apc); }
    OtherLocal(s, s', u);
  }

  lemma ExchangeOtherAppend(s: State, s': State, t: Tid, q: Qid, pc: AppendPc, u: Tid, r: Qid, upc: AppendPc)
    requires Exchanges(s, s', t, q, pc) && LocalOk(s, t) && QueueOk(s, q)
    requires u < |s.loc| && u != t && LocalOk(s, u) && s.loc[u] == Append(r, upc)
    ensures AppendUndisturbed(s, s', u, upc)
  {
    hide QueueOk, LocalOk, Link, Linked, MovingKept;
    ExchangeMoving(s, s', t, q, pc, u);
    TailLink(s, q);
    if upc.InitNode? { NodeToInit(s, u, r, upc.node); }
  }

  lemma NodeToInit(s: State, u: Tid, q: Qid, node: Node)
    requires Shape(s) && u < |s.loc| && s.loc[u] == Append(q, InitNode(node)) && LocalOk(s, u)
    ensures node.Item? && node in s.place && s.place[node] == Moving(u) && node !in s.pend
  {
    hide Link;
    assert ChunkOf(s.loc[u])[0] == node;
  }

  lemma ExchangeMoving(s: State, s': State, t: Tid, q: Qid, pc: AppendPc, u: Tid)
    requires Exchanges(s, s', t, q, pc) && LocalOk(s, t) && QueueOk(s, q) && u != t
    ensures MovingKept(s, s', u)
  {
    hide Linked, HeadOk, Link;
    ExchangeLinks(s, s', t, q, pc);
  }

  lemma ExchangeLocals(s: State, s': State, t: Tid, q: Qid, pc: AppendPc)
    requires Exchanges(s, s', t, q, pc) && Locals(s) && QueueOk(s, q)
    ensures Locals(s')
  {
    hide QueueOk, LocalOk;
    ExchangeOwn(s, s', t, q, pc);
    forall u | 0 <= u < |s'.loc| ensures LocalOk(s', u) {
      if u != t { ExchangeOther(s, s', t, q, pc, u); }
    }
  }

  lemma ExchangeOwn(s: State, s': State, t: Tid, q: Qid, pc: AppendPc)
    requires Exchanges(s, s', t, q, pc) && QueueOk(s, q)
    ensures LocalOk(s', t)
  {
    hide QueueOk, Link;
    ExchangeLinks(s, s', t, q, pc);
  }

  lemma Joined(s: State, s': State, a: seq<Node>, b: seq<Node>, p: Place, r: Place)
    requires Linked(s, a) && Linked(s, b) && b != [] && AllAt(s, a, p) && AllAt(s, b, r) && p != r
    requires a != [] ==> Link(s', a[|a| - 1]) == Some(b[0])
    requires forall i :: 0 <= i < |a| - 1 ==> Link(s', a[i]) == Link(s, a[i])
    requires forall i :: 0 <= i < |b| ==> Link(s', b[i]) == Link(s, b[i])
    ensures Linked(s', a + b)
  {
  }

  lemma ExchangeChain(s: State, s': State, t: Tid, q: Qid, pc: AppendPc)
    requires Exchanges(s, s', t, q, pc) && LocalOk(s, t) && QueueOk(s, q)
    ensures Linked(s', s.queue[q] + pc.chunk)
  {
    ExchangeLinks(s, s', t, q, pc);
    Joined(s, s', s.queue[q], pc.chunk, Queued(q), Moving(t));
  }

  lemma ExchangeHead(s: State, s': State, t: Tid, q: Qid, pc: AppendPc)
    requires Exchanges(s, s', t, q, pc) && LocalOk(s, t) && QueueOk(s, q)
    ensures HeadOk(s', q) && AllAt(s', s.queue[q] + pc.chunk, Queued(q))
  {
    hide QueueOk, LocalOk;
    ExchangePlacedAll(s, s', t, q, pc);
    ExchangedHead(s, s', t, q, pc);
  }

  lemma ExchangedHead(s: State, s': State, t: Tid, q: Qid, pc: AppendPc)
    requires Exchanges(s, s', t, q, pc) && LocalOk(s, t) && QueueOk(s, q)
    ensures HeadOk(s', q)
  {
    hide Link, Linked, AllAt;
    ExchangeLinks(s, s', t, q, pc);
  }

  lemma ExchangePlacedAll(s: State, s': State, t: Tid, q: Qid, pc: AppendPc)
    requires Exchanges(s, s', t, q, pc) && LocalOk(s, t) && QueueOk(s, q)
    ensures AllAt(s', s.queue[q] + pc.chunk, Queued(q))
  {
    hide Link, Linked, HeadOk;
  }

  lemma ExchangeQueue(s: State, s': State, t: Tid, q: Qid, pc: AppendPc)
    requires Exchanges(s, s', t, q, pc) && LocalOk(s, t) && QueueOk(s, q)
    ensures QueueOk(s', q)
  {
    hide LocalOk, AllAt, Linked, HeadOk;
    ExchangeChain(s, s', t, q, pc);
    ExchangeHead(s, s', t, q, pc);
    ExchangeTail(s, s', t, q, pc);
    Associative(s.removed[q], s.queue[q], pc.chunk);
  }

  lemma ExchangeTail(s: State, s': State, t: Tid, q: Qid, pc: AppendPc)
    requires Exchanges(s, s', t, q, pc) && LocalOk(s, t)
    ensures s'.tail[q] == TailOf(q, s.queue[q] + pc.chunk)
  {
    hide Linked, AllAt;
  }

  lemma Associative(a: seq<Node>, b: seq<Node>, c: seq<Node>)
    ensures (a + b) + c == a + (b + c)
  {
  }

  lemma ExchangeOtherQueue(s: State, s': State, t: Tid, q: Qid, pc: AppendPc, r: Qid)
    requires Exchanges(s, s', t, q, pc) && LocalOk(s, t) && QueueOk(s, q)
    requires r in s.queue && r != q && QueueOk(s, r)
    ensures QueueOk(s', r)
  {
    hide LocalOk, QueueOk, Link, QueuedKept;
    ExchangeQueued(s, s', t, q, pc, r);
    OtherQueue(s, s', r);
  }

  lemma ExchangeQueued(s: State, s': State, t: Tid, q: Qid, pc: AppendPc, r: Qid)
    requires Exchanges(s, s', t, q, pc) && LocalOk(s, t) && QueueOk(s, q) && r != q
    ensures QueuedKept(s, s', r)
  {
    hide QueueOk, LocalOk, Link;
    ExchangeLinks(s, s', t, q, pc);
    ChunkMoving(s, t, q, pc);
  }

  lemma ChunkMoving(s: State, t: Tid, q: Qid, pc: AppendPc)
    requires Shape(s) && t < |s.loc| && s.loc[t] == Append(q, pc) && pc.Exchange? && LocalOk(s, t)
    ensures forall n :: n in pc.chunk ==> n.Item? && n in s.place && s.place[n] == Moving(t)
  {
    hide Linked;
  }

  lemma ExchangeQueues(s: State, s': State, t: Tid, q: Qid, pc: AppendPc)
    requires Exchanges(s, s', t, q, pc) && LocalOk(s, t) && Queues(s) && QueueOk(s', q)
    ensures Queues(s')
  {
    forall r | r in s'.queue ensures QueueOk(s', r) {
      if r != q { ExchangeOtherQueue(s, s', t, q, pc, r); }
    }
  }

  lemma ExchangePends(s: State, s': State, t: Tid, q: Qid, pc: AppendPc)
    requires Exchanges(s, s', t, q, pc) && Pends(s) && QueueOk(s, q)
    ensures Pends(s')
  {
    hide QueueOk, PendOk;
    forall n | n in s'.pend ensures PendOk(s', n) {
      if n == s.tail[q] { ExchangePendsTail(s, s', t, q, pc); } else { ExchangePend(s, s', t, q, pc, n); }
    }
  }

  lemma ExchangePendsTail(s: State, s': State, t: Tid, q: Qid, pc: AppendPc)
    requires Exchanges(s, s', t, q, pc) && QueueOk(s, q)
    ensures PendOk(s', s.tail[q])
  {
    hide QueueOk;
    ExchangeLinks(s, s', t, q, pc);
  }

  lemma ExchangePend(s: State, s': State, t: Tid, q: Qid, pc: AppendPc, n: Node)
    requires Exchanges(s, s', t, q, pc) && n in s.pend && n != s.tail[q] && PendOk(s, n)
    ensures PendOk(s', n)
  {
    hide QueueOk, Link;
  }

  lemma ExchangePlaces(s: State, s': State, t: Tid, q: Qid, pc: AppendPc)
    requires Exchanges(s, s', t, q, pc) && Places(s) && LocalOk(s, t)
    ensures Places(s')
  {
    hide PlaceOk, Link;
    forall n | n in s'.place ensures PlaceOk(s', n) {
      if n in pc.chunk { ExchangePlaced(s, s', t, q, pc, n); } else { ExchangePlace(s, s', t, q, pc, n); }
    }
  }

  lemma ExchangePlaced(s: State, s': State, t: Tid, q: Qid, pc: AppendPc, n: Node)
    requires Exchanges(s, s', t, q, pc) && LocalOk(s, t) && n in pc.chunk
    ensures n in s'.place && PlaceOk(s', n)
  {
    hide Link, Linked;
  }

  lemma ExchangePlace(s: State, s': State, t: Tid, q: Qid, pc: AppendPc, n: Node)
    requires Exchanges(s, s', t, q, pc) && n in s.place && n !in pc.chunk && PlaceOk(s, n)
    ensures PlaceOk(s', n)
  {
    hide Link;
  }

  lemma ExchangedInv(s: State, s': State, t: Tid, q: Qid, pc: AppendPc)
    requires Inv(s) && Exchanges(s, s', t, q, pc)
    ensures Inv(s')
  {
    hide Pends, Holders, Places, Roles, LocalOk, QueueOk, PendOk;
    assert LocalOk(s, t) && QueueOk(s, q);
    ExchangeLocals(s, s', t, q, pc);
    ExchangeQueue(s, s', t, q, pc);
    ExchangeQueues(s, s', t, q, pc);
    HoldersKept(s, s', t);
    RolesKept(s, s', t);
    ExchangePends(s, s', t, q, pc);
    ExchangePlaces(s, s', t, q, pc);
  }

  lemma ExchangeKeepsInv(s: State, s': State, t: Tid, q: Qid, pc: AppendPc)
    requires Inv(s) && t < |s.loc| && s.loc[t] == Append(q, pc) && pc.Exchange? && s' == DoExchange(s, t, q, pc)
    ensures Inv(s')
  {
    ExchangeExchanges(s, s', t, q, pc);
    ExchangedInv(s, s', t, q, pc);
  }

  // ---- old_tail->next = new_head: the pending link becomes a stored one ----

  ghost predicate Stores(s: State, s': State, t: Tid, q: Qid, pc: AppendPc) {
    && Shape(s) && Shape(s') && OnlyThread(s, s', t) && s.loc[t] == Append(q, pc) && pc.Store? && s'.loc[t] == Idle
    && s'.tail == s.tail && s'.queue == s.queue && s'.entered == s.entered && s'.removed == s.removed
    && s'.place == s.place && s'.holder == s.holder
    && s'.next == s.next[pc.prev := pc.first] && s'.pend == s.pend - {pc.prev}
    && forall n :: Link(s', n) == Link(s, n)
  }

  lemma StoreLinks(s: State, s': State, t: Tid, q: Qid, pc: AppendPc)
    requires Shape(s) && t < |s.loc| && s.loc[t] == Append(q, pc) && pc.Store?
    requires s' == DoStore(s, t, q, pc) && LocalOk(s, t) && PendOk(s, pc.prev)
    ensures Stores(s, s', t, q, pc)
  {
    ShapeKept(s, s', t);
  }

  lemma StoreLocals(s: State, s': State, t: Tid, q: Qid, pc: AppendPc)
    requires Stores(s, s', t, q, pc) && Locals(s)
    ensures Locals(s')
  {
    hide QueueOk;
    assert LocalOk(s, t);
    forall u | 0 <= u < |s'.loc| ensures LocalOk(s', u) {
      assert LocalOk(s, u);
      if u != t { OtherLocal(s, s', u); }
    }
  }

  lemma StoreQueues(s: State, s': State, t: Tid, q: Qid, pc: AppendPc)
    requires Stores(s, s', t, q, pc) && Queues(s)
    ensures Queues(s')
  {
    hide QueueOk, Link;
    forall r | r in s'.queue ensures QueueOk(s', r) { OtherQueue(s, s', r); }
  }

  lemma StorePends(s: State, s': State, t: Tid, q: Qid, pc: AppendPc)
    requires Stores(s, s', t, q, pc) && Pends(s) && LocalOk(s, t)
    ensures Pends(s')
  {
    forall n | n in s'.pend ensures PendOk(s', n) { assert PendOk(s, n); }
  }

  lemma StoredInv(s: State, s': State, t: Tid, q: Qid, pc: AppendPc)
    requires Inv(s) && Stores(s, s', t, q, pc)
    ensures Inv(s')
  {
    hide Queues, Pends, Holders, Places, Roles, LocalOk, QueueOk, PendOk;
    assert LocalOk(s, t);
    StoreLocals(s, s', t, q, pc);
    StoreQueues(s, s', t, q, pc);
    StorePends(s, s', t, q, pc);
    HoldersKept(s, s', t);
    PlacesKept(s, s', t);
    RolesKept(s, s', t);
  }

  lemma StoreKeepsInv(s: State, s': State, t: Tid, q: Qid, pc: AppendPc)
    requires Inv(s) && t < |s.loc| && s.loc[t] == Append(q, pc) && pc.Store? && s' == DoStore(s, t, q, pc)
    ensures Inv(s')
  {
    StoreLinks(s, s', t, q, pc) by {
      assert LocalOk(s, t);
      assert PendOk(s, pc.prev);
    }
    StoredInv(s, s', t, q, pc);
  }

  // ---- A remover takes the link out of the head: dequeue's store of NULL, splice's xchg ----

  ghost predicate Unhooks(s: State, s': State, t: Tid, q: Qid) {
    && Shape(s) && Shape(s') && OnlyThread(s, s', t) && q in s.queue && Head(q) in s.next
    && s'.tail == s.tail && s'.queue == s.queue && s'.entered == s.entered && s'.removed == s.removed
    && s'.place == s.place && s'.pend == s.pend
    && s'.next == s.next - {Head(q)} && s'.holder == s.holder[q := t]
    && !s.loc[t].Append? && !s'.loc[t].Append? && UnhookThread(s.loc[t], s'.loc[t], q)
  }

  ghost predicate UnhookThread(l: Local, l': Local, q: Qid) {
    && (forall r :: RoleOf(l', r) == RoleOf(l, r)) && (RoleOf(l, q) == Dequeuer || RoleOf(l, q) == Splicer)
    && (forall r :: Holds(l', r) <==> r == q)
  }

  lemma ClearHeadUnhooks(s: State, s': State, t: Tid, q: Qid, node: Node)
    requires Shape(s) && t < |s.loc| && s.loc[t] == Dequeue(q, ClearHead(node)) && s' == DoClearHead(s, t, q, node)
    requires LocalOk(s, t)
    ensures Unhooks(s, s', t, q) && LocalOk(s', t)
  {
    ShapeKept(s, s', t);
  }

  lemma TakeHeadUnhooks(s: State, s': State, t: Tid, d: Qid, q: Qid)
    requires Shape(s) && t < |s.loc| && s.loc[t] == Splice(d, q, TakeHead)
    requires Head(q) in s.next && s' == DoTakeHead(s, t, d, q) && LocalOk(s, t) && QueueOk(s, q)
    ensures Unhooks(s, s', t, q) && LocalOk(s', t)
  {
    ShapeKept(s, s', t);
  }

  lemma AdvancesItem(s: State, u: Tid)
    requires Shape(s) && u < |s.loc| && LocalOk(s, u)
    ensures var l := s.loc[u]; l.Dequeue? && l.dpc.Advance? ==> l.dpc.node.Item?
  {
  }

  lemma UnhookOther(s: State, s': State, t: Tid, q: Qid, u: Tid)
    requires Unhooks(s, s', t, q) && Roles(s) && u < |s.loc| && u != t && LocalOk(s, u)
    requires s.loc[u].Dequeue? ==> QueueOk(s, s.loc[u].q)
    ensures LocalOk(s', u)
  {
    hide LocalOk, QueueOk, Link, Holds;
    assert !Excluded(RoleOf(s.loc[t], q), RoleOf(s.loc[u], q));
    assert !Excluded(RoleOf(s.loc[u], q), RoleOf(s.loc[t], q));
    UnhookMoving(s, s', t, q, u);
    AdvancesItem(s, u);
    PendsStay(s, u);
    OtherLocal(s, s', u);
  }

  lemma UnhookMoving(s: State, s': State, t: Tid, q: Qid, u: Tid)
    requires Unhooks(s, s', t, q)
    ensures MovingKept(s, s', u)
  {
    hide UnhookThread;
  }

  lemma UnhookLocals(s: State, s': State, t: Tid, q: Qid)
    requires Unhooks(s, s', t, q) && Roles(s) && LocalOk(s', t) && Locals(s) && Queues(s)
    ensures Locals(s')
  {
    forall u | 0 <= u < |s'.loc| ensures LocalOk(s', u) {
      assert LocalOk(s, u);
      if u != t { UnhookOther(s, s', t, q, u); }
    }
  }

  lemma UnhookOwnQueue(s: State, s': State, t: Tid, q: Qid)
    requires Unhooks(s, s', t, q) && QueueOk(s, q) && Head(q) !in s.pend
    ensures QueueOk(s', q)
  {
    assert Link(s, Head(q)) != None;
    assert forall n :: n != Head(q) ==> Link(s', n) == Link(s, n);
  }

  lemma UnhookQueues(s: State, s': State, t: Tid, q: Qid)
    requires Unhooks(s, s', t, q) && Queues(s) && Pends(s)
    ensures Queues(s')
  {
    PendNotStored(s);
    forall r | r in s'.queue ensures QueueOk(s', r) {
      assert QueueOk(s, r);
      if r == q { UnhookOwnQueue(s, s', t, q); } else { UnhookOtherQueue(s, s', t, q, r); }
    }
  }

  lemma UnhookOtherQueue(s: State, s': State, t: Tid, q: Qid, r: Qid)
    requires Unhooks(s, s', t, q) && Head(q) !in s.pend && r in s.queue && r != q && QueueOk(s, r)
    ensures QueueOk(s', r)
  {
    hide QueueOk, UnhookThread;
    OtherQueue(s, s', r);
  }

  lemma UnhookHolders(s: State, s': State, t: Tid, q: Qid)
    requires Unhooks(s, s', t, q) && Holders(s) && QueueOk(s, q)
    requires forall r :: !Holds(s.loc[t], r)
    ensures Holders(s')
  {
    assert q !in s.holder;
  }

  lemma UnhookKeepsInv(s: State, s': State, t: Tid, q: Qid)
    requires Inv(s) && Unhooks(s, s', t, q) && LocalOk(s', t) && forall r :: !Holds(s.loc[t], r)
    ensures Inv(s')
  {
    hide Locals, Pends, Holders, Places, Roles, LocalOk, QueueOk, PendOk;
    UnhookLocals(s, s', t, q);
    UnhookQueues(s, s', t, q);
    UnhookHolders(s, s', t, q) by { assert QueueOk(s, q); }
    PendsKept(s, s', t);
    PlacesKept(s, s', t);
    RolesKept(s, s', t);
  }

  // ---- The two ways a dequeue finishes: the cmpxchg of the tail, and the store to the head ----

  // What both have in common: the first node leaves q and becomes private to t.
  ghost predicate Pops(s: State, s': State, t: Tid, q: Qid, node: Node) {
    Shape(s) && Shape(s') && q in s.queue && q in s'.queue && PopsQueue(s, s', q, node) && PopsNode(s, s', t, q, node)
    && PopsThread(s, s', t, q)
  }

  ghost predicate PopsQueue(s: State, s': State, q: Qid, node: Node)
    requires Shape(s) && Shape(s') && q in s.queue && q in s'.queue
  {
    && s'.queue.Keys == s.queue.Keys && s'.entered == s.entered
    && s'.removed == s.removed[q := s.removed[q] + [node]]
    && FirstIs(s, q, node) && s'.queue[q] == s.queue[q][1..]
    && (forall r :: r in s.queue && r != q ==> s'.queue[r] == s.queue[r] && s'.tail[r] == s.tail[r])
  }

  ghost predicate PopsNode(s: State, s': State, t: Tid, q: Qid, node: Node) {
    && s'.pend == s.pend && s'.place == s.place[node := Owned(t)]
    && node.Item? && node in s.place && s.place[node] == Queued(q)
    && node !in s.pend && (Head(q) in s'.next ==> Head(q) !in s.pend)
    && (forall n :: n != Head(q) ==> Link(s', n) == Link(s, n) && (n in s'.next <==> n in s.next))
  }

  ghost predicate PopsThread(s: State, s': State, t: Tid, q: Qid) {
    && OnlyThread(s, s', t) && s'.loc[t] == Idle && !s.loc[t].Append? && s'.holder == s.holder - {q}
    && (q in s.holder <==> Holds(s.loc[t], q)) && PopThread(s.loc[t], q)
  }

  ghost predicate PopThread(l: Local, q: Qid) {
    forall r :: RoleOf(l, r) == if r == q then Dequeuer else NoRole
  }

  // The thread that holds the head of q is the dequeuer t, if it has unhooked it; otherwise nobody.
  lemma PopHolder(s: State, t: Tid, q: Qid)
    requires Shape(s) && t < |s.loc| && Holders(s) && Roles(s) && RoleOf(s.loc[t], q) == Dequeuer
    ensures q in s.holder <==> Holds(s.loc[t], q)
  {
    forall u | 0 <= u < |s.loc| && u != t ensures !Holds(s.loc[u], q) {
      assert !Excluded(RoleOf(s.loc[t], q), RoleOf(s.loc[u], q));
    }
  }

  // The first node of q, when no append is about to store its link.
  ghost predicate Poppable(s: State, q: Qid, node: Node)
    requires q in s.queue
  {
    && FirstIs(s, q, node) && node.Item? && node in s.place && s.place[node] == Queued(q) && node !in s.pend
  }

  lemma LastIsPoppable(s: State, q: Qid, node: Node)
    requires Shape(s) && q in s.queue && QueueOk(s, q) && FirstIs(s, q, node) && s.tail[q] == node
    ensures Poppable(s, q, node) && s.queue[q][1..] == []
  {
    hide HeadOk;
    QueueLinks(s, q, 0);
  }

  lemma StoredIsPoppable(s: State, q: Qid, node: Node)
    requires Shape(s) && q in s.queue && QueueOk(s, q) && FirstIs(s, q, node) && node in s.next && Pends(s)
    ensures Poppable(s, q, node)
  {
    hide HeadOk, Linked, PendOk;
    QueueLinks(s, q, 0);
    PendNotStored(s);
  }

  lemma DequeuerRoles(l: Local, q: Qid)
    requires l.Dequeue? && l.q == q
    ensures PopThread(l, q)
  {
  }

  lemma CasTailPops(s: State, s': State, t: Tid, q: Qid, node: Node)
    requires Shape(s) && t < |s.loc| && s.loc[t] == Dequeue(q, CasTail(node)) && s' == DoCasTail(s, t, q, node)
    requires Poppable(s, q, node) && s.queue[q][1..] == [] && (q in s.holder <==> Holds(s.loc[t], q))
    requires Head(q) in s.next ==> Head(q) !in s.pend
    ensures Pops(s, s', t, q, node) && s'.tail[q] == TailOf(q, s'.queue[q])
  {
    hide PopsThread, PopsNode, PopsQueue, Holds;
    CasTailThread(s, s', t, q, node);
    CasTailQueue(s, s', t, q, node);
    CasTailNode(s, s', t, q, node);
  }

  lemma CasTailThread(s: State, s': State, t: Tid, q: Qid, node: Node)
    requires Shape(s) && t < |s.loc| && s.loc[t] == Dequeue(q, CasTail(node)) && s' == DoCasTail(s, t, q, node)
    requires q in s.holder <==> Holds(s.loc[t], q)
    ensures Shape(s') && PopsThread(s, s', t, q)
  {
    hide Holds, PopThread;
    DequeuerRoles(s.loc[t], q);
    ShapeKept(s, s', t);
  }

  lemma CasTailQueue(s: State, s': State, t: Tid, q: Qid, node: Node)
    requires Shape(s) && Shape(s') && t < |s.loc| && q in s.queue && s' == DoCasTail(s, t, q, node)
    requires FirstIs(s, q, node) && s.queue[q][1..] == []
    ensures PopsQueue(s, s', q, node) && s'.tail[q] == TailOf(q, s'.queue[q])
  {
  }

  lemma CasTailNode(s: State, s': State, t: Tid, q: Qid, node: Node)
    requires Shape(s) && t < |s.loc| && q in s.queue && s' == DoCasTail(s, t, q, node)
    requires Poppable(s, q, node) && (Head(q) in s.next ==> Head(q) !in s.pend)
    ensures PopsNode(s, s', t, q, node)
  {
    hide Link;
    SameLinks(s, s');
  }

  lemma HeadNotBoth(s: State, q: Qid)
    requires Pends(s)
    ensures Head(q) in s.next ==> Head(q) !in s.pend
  {
    hide PendOk;
    PendNotStored(s);
  }

  lemma CasTailHead(s: State, s': State, t: Tid, q: Qid, node: Node)
    requires Shape(s) && t < |s.loc| && s.loc[t] == Dequeue(q, CasTail(node)) && s' == DoCasTail(s, t, q, node)
    requires QueueOk(s, q) && (q in s.holder <==> Holds(s.loc[t], q))
    ensures HeadOk(s', q)
  {
    hide Linked;
  }

  // Nobody is about to store the head's link: it is stored, or t has taken it out.
  lemma HeadNotPending(s: State, t: Tid, q: Qid, node: Node, n: Node, held: bool)
    requires Shape(s) && t < |s.loc| && s.loc[t] == Dequeue(q, Advance(node, n, held)) && LocalOk(s, t)
    requires QueueOk(s, q) && Pends(s) && (q in s.holder <==> Holds(s.loc[t], q))
    ensures Head(q) !in s.pend
  {
    hide Linked, PendOk;
    PendNotStored(s);
  }

  lemma AdvancePops(s: State, s': State, t: Tid, q: Qid, node: Node, n: Node, held: bool)
    requires Shape(s) && t < |s.loc| && s.loc[t] == Dequeue(q, Advance(node, n, held))
    requires s' == DoAdvance(s, t, q, node, n)
    requires Poppable(s, q, node) && Head(q) !in s.pend && (q in s.holder <==> Holds(s.loc[t], q))
    ensures Pops(s, s', t, q, node)
  {
    hide PopsThread, PopsNode, PopsQueue, Holds;
    AdvanceThread(s, s', t, q, node, n, held);
    AdvanceQueue(s, s', t, q, node, n);
    AdvanceNode(s, s', t, q, node, n);
  }

  lemma AdvanceThread(s: State, s': State, t: Tid, q: Qid, node: Node, n: Node, held: bool)
    requires Shape(s) && t < |s.loc| && s.loc[t] == Dequeue(q, Advance(node, n, held))
    requires s' == DoAdvance(s, t, q, node, n) && (q in s.holder <==> Holds(s.loc[t], q))
    ensures Shape(s') && PopsThread(s, s', t, q)
  {
    hide Holds, PopThread;
    DequeuerRoles(s.loc[t], q);
    ShapeKept(s, s', t);
  }

  lemma AdvanceQueue(s: State, s': State, t: Tid, q: Qid, node: Node, n: Node)
    requires Shape(s) && Shape(s') && t < |s.loc| && q in s.queue && s' == DoAdvance(s, t, q, node, n) && FirstIs(s, q, node)
    ensures PopsQueue(s, s', q, node)
  {
  }

  lemma AdvanceNode(s: State, s': State, t: Tid, q: Qid, node: Node, n: Node)
    requires Shape(s) && t < |s.loc| && q in s.queue && s' == DoAdvance(s, t, q, node, n)
    requires Poppable(s, q, node) && Head(q) !in s.pend
    ensures PopsNode(s, s', t, q, node)
  {
  }

  lemma AdvanceHead(s: State, s': State, t: Tid, q: Qid, node: Node, n: Node, held: bool)
    requires Shape(s) && Shape(s') && t < |s.loc| && s.loc[t] == Dequeue(q, Advance(node, n, held))
    requires s' == DoAdvance(s, t, q, node, n) && LocalOk(s, t) && QueueOk(s, q) && Head(q) !in s.pend
    ensures s'.tail[q] == TailOf(q, s'.queue[q]) && HeadOk(s', q)
  {
    QueueLinks(s, q, 0);
  }

  lemma PopLocals(s: State, s': State, t: Tid, q: Qid, node: Node)
    requires Pops(s, s', t, q, node) && Locals(s) && Roles(s)
    ensures Locals(s')
  {
    forall u | 0 <= u < |s'.loc| ensures LocalOk(s', u) {
      assert LocalOk(s, u);
      if u != t { PopOther(s, s', t, q, node, u); }
    }
  }

  lemma PopOther(s: State, s': State, t: Tid, q: Qid, node: Node, u: Tid)
    requires Pops(s, s', t, q, node) && Roles(s) && u < |s.loc| && u != t && LocalOk(s, u)
    ensures LocalOk(s', u)
  {
    hide LocalOk, AppendUndisturbed, RemoverUndisturbed, PopsNode, PopsQueue, Holds, PopThread;
    if s.loc[u].Append? {
      PopOtherAppend(s, s', t, q, node, u, s.loc[u].q, s.loc[u].apc);
    } else {
      PopOtherRemover(s, s', t, q, node, u);
    }
    OtherLocal(s, s', u);
  }

  lemma PopOtherAppend(s: State, s': State, t: Tid, q: Qid, node: Node, u: Tid, r: Qid, pc: AppendPc)
    requires Pops(s, s', t, q, node) && u < |s.loc| && LocalOk(s, u) && s.loc[u] == Append(r, pc)
    ensures AppendUndisturbed(s, s', u, pc)
  {
    hide Link, Linked, MovingKept, PopsQueue, PopsThread;
    PopMoving(s, s', t, q, node, u);
  }

  lemma PopOtherRemover(s: State, s': State, t: Tid, q: Qid, node: Node, u: Tid)
    requires Pops(s, s', t, q, node) && Roles(s) && u < |s.loc| && u != t && LocalOk(s, u) && !s.loc[u].Append?
    ensures RemoverUndisturbed(s, s', s.loc[u])
  {
    hide PopsNode, Holds, LocalOk;
    assert !Excluded(RoleOf(s.loc[t], q), RoleOf(s.loc[u], q));
    if s.loc[u].Dequeue? {
      AdvancesItem(s, u);
      PopStored(s, s', t, q, node, s.loc[u]);
    }
  }

  // The links of other nodes stay stored or unset.
  lemma PopStored(s: State, s': State, t: Tid, q: Qid, node: Node, l: Local)
    requires PopsNode(s, s', t, q, node) && l.Dequeue? && l.q != q && (l.dpc.Advance? ==> l.dpc.node.Item?)
    ensures Head(l.q) in s.next ==> Head(l.q) in s'.next
    ensures l.dpc.Advance? && l.dpc.node in s.next ==> l.dpc.node in s'.next
  {
    hide Link;
  }

  lemma PopMoving(s: State, s': State, t: Tid, q: Qid, node: Node, u: Tid)
    requires PopsNode(s, s', t, q, node)
    ensures MovingKept(s, s', u)
  {
    hide Link;
  }

  lemma PopChain(s: State, s': State, q: Qid, c: seq<Node>)
    requires Linked(s, c) && c != []
    requires forall i :: 0 <= i < |c| ==> Link(s', c[i]) == Link(s, c[i])
    ensures Linked(s', c[1..])
  {
  }

  lemma PopOwnQueue(s: State, s': State, t: Tid, q: Qid, node: Node)
    requires Pops(s, s', t, q, node) && QueueOk(s, q) && HeadOk(s', q) && s'.tail[q] == TailOf(q, s'.queue[q])
    ensures QueueOk(s', q)
  {
    hide Link, AllAt, Linked, HeadOk, TailOf;
    PopLinks(s, s', t, q, node);
    PopChain(s, s', q, s.queue[q]);
    PopPlaced(s, s', t, q, node);
    PopHistory(s.removed[q], s.queue[q]);
  }

  lemma PopLinks(s: State, s': State, t: Tid, q: Qid, node: Node)
    requires Pops(s, s', t, q, node) && QueueOk(s, q)
    ensures forall i :: 0 <= i < |s.queue[q]| ==> Link(s', s.queue[q][i]) == Link(s, s.queue[q][i])
  {
    hide Link, Linked, HeadOk, TailOf, PopsThread;
  }

  lemma PopPlaced(s: State, s': State, t: Tid, q: Qid, node: Node)
    requires Pops(s, s', t, q, node) && QueueOk(s, q)
    ensures AllAt(s', s'.queue[q], Queued(q))
  {
    hide Link, HeadOk, TailOf, PopsThread;
    var c := s.queue[q];
    forall i | 0 <= i < |c[1..]| ensures c[1..][i] == c[i + 1] && c[i + 1] != node {}
  }

  lemma PopHistory(removed: seq<Node>, c: seq<Node>)
    requires c != []
    ensures removed + c == (removed + [c[0]]) + c[1..]
  {
  }

  lemma PopQueues(s: State, s': State, t: Tid, q: Qid, node: Node)
    requires Pops(s, s', t, q, node) && Queues(s) && QueueOk(s', q)
    ensures Queues(s')
  {
    hide QueueOk, PopsNode;
    forall r | r in s'.queue ensures QueueOk(s', r) { if r != q { PopOtherQueue(s, s', t, q, node, r); } }
  }

  lemma PopOtherQueue(s: State, s': State, t: Tid, q: Qid, node: Node, r: Qid)
    requires Pops(s, s', t, q, node) && r in s.queue && r != q && QueueOk(s, r)
    ensures QueueOk(s', r)
  {
    hide QueueOk, PopsNode, QueuedKept, Holds, PopThread;
    PopQueued(s, s', t, q, node, r);
    OtherQueue(s, s', r);
  }

  lemma PopQueued(s: State, s': State, t: Tid, q: Qid, node: Node, r: Qid)
    requires PopsNode(s, s', t, q, node) && r != q
    ensures QueuedKept(s, s', r)
  {
    hide Link;
  }

  lemma PopThreads(s: State, s': State, t: Tid, q: Qid, node: Node)
    requires Pops(s, s', t, q, node) && Holders(s) && Roles(s)
    ensures Holders(s') && Roles(s')
  {
    assert forall r :: Holds(s.loc[t], r) ==> RoleOf(s.loc[t], r) != NoRole;
    HolderLeaves(s, s', t, q);
    RolesKept(s, s', t);
  }

  lemma PopPends(s: State, s': State, t: Tid, q: Qid, node: Node)
    requires Pops(s, s', t, q, node) && Pends(s)
    ensures Pends(s')
  {
    hide Link, PopsQueue, PopThread, Holds;
    forall n | n in s'.pend ensures PendOk(s', n) { assert PendOk(s, n); }
  }

  lemma PopPlaces(s: State, s': State, t: Tid, q: Qid, node: Node)
    requires Pops(s, s', t, q, node) && Places(s)
    ensures Places(s')
  {
    hide PlaceOk, Link;
    forall n | n in s'.place ensures PlaceOk(s', n) {
      if n == node { PopPlacesNode(s, s', t, q, node); } else { PopPlace(s, s', t, q, node, n); }
    }
  }

  lemma PopPlacesNode(s: State, s': State, t: Tid, q: Qid, node: Node)
    requires Pops(s, s', t, q, node)
    ensures node in s'.place && PlaceOk(s', node)
  {
    hide Link;
  }

  lemma PopPlace(s: State, s': State, t: Tid, q: Qid, node: Node, n: Node)
    requires Pops(s, s', t, q, node) && n in s.place && n != node && PlaceOk(s, n)
    ensures PlaceOk(s', n)
  {
    hide Link, PopThread, Holds;
    var c := s.queue[q];
    assert c == [node] + c[1..];
  }

  lemma PopKeepsInv(s: State, s': State, t: Tid, q: Qid, node: Node)
    requires Inv(s) && Pops(s, s', t, q, node) && HeadOk(s', q) && s'.tail[q] == TailOf(q, s'.queue[q])
    ensures Inv(s')
  {
    hide Locals, Pends, Holders, Places, Roles, LocalOk, QueueOk, PendOk;
    PopLocals(s, s', t, q, node);
    PopOwnQueue(s, s', t, q, node) by { assert QueueOk(s, q); }
    PopQueues(s, s', t, q, node);
    PopThreads(s, s', t, q, node);
    PopPends(s, s', t, q, node);
    PopPlaces(s, s', t, q, node);
  }

  // ---- tail = xchg(&src_q_tail->p, &src_q_head->node): the whole content leaves src ----

  ghost predicate Detaches(s: State, s': State, t: Tid, q: Qid) {
    && Shape(s) && Shape(s') && OnlyThread(s, s', t) && q in s.queue && !s.loc[t].Append?
    && s'.queue == s.queue[q := []] && s'.tail == s.tail[q := Head(q)] && s'.entered == s.entered
    && s'.removed == s.removed[q := s.removed[q] + s.queue[q]]
    && s'.next == s.next && s'.pend == s.pend && s'.holder == s.holder - {q}
    && s'.place == PlaceAll(s.place, s.queue[q], Moving(t)) && ChunkOf(s'.loc[t]) == s.queue[q]
    && DetachThread(s.loc[t], s'.loc[t], q)
  }

  ghost predicate DetachThread(l: Local, l': Local, q: Qid) {
    && (forall r :: Holds(l, r) <==> r == q) && (forall r :: !Holds(l', r))
    && (forall r :: RoleOf(l', r) == NoRole) && RoleOf(l, q) == Splicer
  }

  lemma DetachDetaches(s: State, s': State, t: Tid, d: Qid, q: Qid, first: Node)
    requires Shape(s) && t < |s.loc| && s.loc[t] == Splice(d, q, Detach(first)) && s' == DoDetach(s, t, d, q, first)
    ensures Detaches(s, s', t, q)
  {
    hide DetachThread, PlaceAll;
    DetacherThread(s.loc[t], s'.loc[t], q);
    ShapeKept(s, s', t);
  }

  lemma DetacherThread(l: Local, l': Local, q: Qid)
    requires l.Splice? && l.src == q && l.spc.Detach? && l'.Append?
    ensures DetachThread(l, l', q)
  {
  }

  lemma DetachLocal(s: State, s': State, t: Tid, d: Qid, q: Qid, first: Node)
    requires Shape(s) && t < |s.loc| && s.loc[t] == Splice(d, q, Detach(first)) && s' == DoDetach(s, t, d, q, first)
    requires LocalOk(s, t) && QueueOk(s, q) && Shape(s')
    ensures LocalOk(s', t)
  {
    hide Linked, HeadOk, PlaceAll;
    LinkedSame(s, s', s.queue[q]);
    PlacedAll(s, s', s.queue[q], Queued(q), Moving(t));
  }

  lemma LinkedSame(s: State, s': State, c: seq<Node>)
    requires Linked(s, c) && s'.next == s.next && s'.pend == s.pend
    ensures Linked(s', c)
  {
    hide Link;
    SameLinks(s, s');
  }

  lemma PlacedAll(s: State, s': State, c: seq<Node>, p: Place, r: Place)
    requires AllAt(s, c, p) && s'.place == PlaceAll(s.place, c, r)
    ensures AllAt(s', c, r)
  {
  }

  lemma DetachOther(s: State, s': State, t: Tid, q: Qid, u: Tid)
    requires Detaches(s, s', t, q) && QueueOk(s, q) && u < |s.loc| && u != t && LocalOk(s, u)
    requires RoleOf(s.loc[u], q) != Dequeuer && RoleOf(s.loc[u], q) != Iterator && !Holds(s.loc[u], q)
    ensures LocalOk(s', u)
  {
    hide LocalOk, QueueOk, MovingKept, Link, DetachThread;
    DetachMoving(s, s', t, q, u);
    PendsStay(s, u);
    OtherLocal(s, s', u);
  }

  lemma DetachMoving(s: State, s': State, t: Tid, q: Qid, u: Tid)
    requires Detaches(s, s', t, q) && QueueOk(s, q) && u != t
    ensures MovingKept(s, s', u)
  {
    hide DetachThread;
    hide Link, Linked, HeadOk, TailOf, Holds, RoleOf;
    SameLinks(s, s');
  }

  lemma DetachLocals(s: State, s': State, t: Tid, q: Qid)
    requires Detaches(s, s', t, q) && Locals(s) && Roles(s) && Holders(s) && QueueOk(s, q) && LocalOk(s', t)
    ensures Locals(s')
  {
    hide LocalOk, QueueOk;
    assert Holds(s.loc[t], q);
    forall u | 0 <= u < |s'.loc| ensures LocalOk(s', u) {
      if u != t {
        ExclusiveSplicer(s, t, u, q);
        DetachOther(s, s', t, q, u);
      }
    }
  }

  // While t splices from q and holds its head no other thread removes from q or walks it.
  lemma ExclusiveSplicer(s: State, t: Tid, u: Tid, q: Qid)
    requires Roles(s) && Holders(s) && t < |s.loc| && u < |s.loc| && t != u
    requires RoleOf(s.loc[t], q) == Splicer && Holds(s.loc[t], q)
    ensures RoleOf(s.loc[u], q) != Dequeuer && RoleOf(s.loc[u], q) != Iterator && !Holds(s.loc[u], q)
  {
    hide RoleOf;
    assert !Excluded(RoleOf(s.loc[u], q), RoleOf(s.loc[t], q));
    assert !Excluded(RoleOf(s.loc[t], q), RoleOf(s.loc[u], q));
    if Holds(s.loc[u], q) {
      HeldBy(s, t, q);
      HeldBy(s, u, q);
    }
  }

  lemma DetachOwnQueue(s: State, s': State, t: Tid, q: Qid)
    requires Detaches(s, s', t, q) && QueueOk(s, q) && q in s.holder
    ensures QueueOk(s', q)
  {
    hide LocalOk;
    hide DetachThread;
    assert forall n :: Link(s', n) == Link(s, n);
  }

  lemma DetachOtherQueue(s: State, s': State, t: Tid, q: Qid, r: Qid)
    requires Detaches(s, s', t, q) && QueueOk(s, q) && r in s.queue && r != q && QueueOk(s, r)
    ensures QueueOk(s', r)
  {
    hide QueueOk, Link, DetachThread, QueuedKept;
    DetachQueued(s, s', t, q, r);
    OtherQueue(s, s', r);
  }

  lemma DetachQueued(s: State, s': State, t: Tid, q: Qid, r: Qid)
    requires Detaches(s, s', t, q) && QueueOk(s, q) && r != q
    ensures QueuedKept(s, s', r)
  {
    hide Link, Linked, HeadOk, DetachThread;
    SameLinks(s, s');
  }

  lemma DetachQueues(s: State, s': State, t: Tid, q: Qid)
    requires Detaches(s, s', t, q) && Queues(s) && q in s.holder
    ensures Queues(s')
  {
    forall r | r in s'.queue ensures QueueOk(s', r) {
      if r == q { DetachOwnQueue(s, s', t, q); } else { DetachOtherQueue(s, s', t, q, r); }
    }
  }

  lemma DetachPends(s: State, s': State, t: Tid, q: Qid)
    requires Detaches(s, s', t, q) && Pends(s)
    ensures Pends(s')
  {
    hide DetachThread;
    hide Link;
    forall n | n in s'.pend ensures PendOk(s', n) { assert PendOk(s, n); }
  }

  lemma DetachPlaces(s: State, s': State, t: Tid, q: Qid)
    requires Detaches(s, s', t, q) && Places(s) && QueueOk(s, q)
    ensures Places(s')
  {
    hide DetachThread;
    hide Linked, NoDup, HeadOk;
    forall n | n in s'.place ensures PlaceOk(s', n) { assert n in s.place && PlaceOk(s, n); }
  }

  lemma DetachKeepsInv(s: State, s': State, t: Tid, q: Qid)
    requires Inv(s) && Detaches(s, s', t, q) && LocalOk(s', t)
    ensures Inv(s')
  {
    hide Locals, Queues, Pends, Holders, Places, Roles, LocalOk, QueueOk, PendOk;
    assert Holds(s.loc[t], q);
    HeldBy(s, t, q);
    QueueAt(s, q);
    DetachLocals(s, s', t, q);
    DetachQueues(s, s', t, q);
    HolderLeaves(s, s', t, q);
    DetachPends(s, s', t, q);
    DetachPlaces(s, s', t, q);
    RolesKept(s, s', t);
  }

  // ---- Every step ----

  lemma ClearHeadKeepsInv(s: State, s': State, t: Tid, q: Qid, node: Node)
    requires Inv(s) && t < |s.loc| && s.loc[t] == Dequeue(q, ClearHead(node)) && s' == DoClearHead(s, t, q, node)
    ensures Inv(s')
  {
    hide Queues, Pends, Holders, Places, Roles, LocalOk, QueueOk, PendOk, DoClearHead;
    ClearHeadUnhooks(s, s', t, q, node) by { assert Locals(s); }
    UnhookKeepsInv(s, s', t, q);
  }

  lemma CasTailKeepsInv(s: State, s': State, t: Tid, q: Qid, node: Node)
    requires Inv(s) && t < |s.loc| && s.loc[t] == Dequeue(q, CasTail(node)) && s.tail[q] == node
    requires s' == DoCasTail(s, t, q, node)
    ensures Inv(s')
  {
    hide Locals, Queues, Pends, Holders, Places, Roles, QueueOk, Linked, Poppable, DoCasTail, HeadOk, TailOf, Holds;
    PopHolder(s, t, q);
    LocalAt(s, t);
    QueueAt(s, q);
    LastIsPoppable(s, q, node);
    HeadNotBoth(s, q);
    CasTailPops(s, s', t, q, node);
    CasTailHead(s, s', t, q, node);
    PopKeepsInv(s, s', t, q, node);
  }

  lemma AdvanceKeepsInv(s: State, s': State, t: Tid, q: Qid, node: Node, n: Node, held: bool)
    requires Inv(s) && t < |s.loc| && s.loc[t] == Dequeue(q, Advance(node, n, held)) && s' == DoAdvance(s, t, q, node, n)
    ensures Inv(s')
  {
    hide Locals, Queues, Pends, Holders, Places, Roles, QueueOk, Linked, Poppable, DoAdvance, HeadOk, TailOf, Holds;
    PopHolder(s, t, q);
    LocalAt(s, t);
    QueueAt(s, q);
    HeadNotPending(s, t, q, node, n, held);
    StoredIsPoppable(s, q, node);
    AdvancePops(s, s', t, q, node, n, held);
    AdvanceHead(s, s', t, q, node, n, held);
    PopKeepsInv(s, s', t, q, node);
  }

  lemma DequeueWriteKeepsInv(s: State, s': State, t: Tid)
    requires Inv(s) && t < |s.loc| && s.loc[t].Dequeue? && !Reads(s, s.loc[t]) && s' == Step(s, t)
    ensures Inv(s')
  {
    hide Inv, DoClearHead, DoCasTail, DoAdvance;
    var q := s.loc[t].q;
    match s.loc[t].dpc {
      case ClearHead(node) => ClearHeadKeepsInv(s, s', t, q, node);
      case CasTail(node) => CasTailKeepsInv(s, s', t, q, node);
      case Advance(node, n, held) => AdvanceKeepsInv(s, s', t, q, node, n, held);
      case _ =>
    }
  }

  lemma SpliceWriteKeepsInv(s: State, s': State, t: Tid)
    requires Inv(s) && t < |s.loc| && s.loc[t].Splice? && !Reads(s, s.loc[t]) && s' == Step(s, t)
    ensures Inv(s')
  {
    hide Pends, Holders, Places, Roles, QueueOk, DoTakeHead, DoDetach;
    var d, q := s.loc[t].dst, s.loc[t].src;
    assert LocalOk(s, t) && QueueOk(s, q);
    if s.loc[t].spc.TakeHead? {
      TakeHeadUnhooks(s, s', t, d, q);
      UnhookKeepsInv(s, s', t, q);
    } else {
      DetachDetaches(s, s', t, d, q, s.loc[t].spc.first);
      DetachLocal(s, s', t, d, q, s.loc[t].spc.first);
      DetachKeepsInv(s, s', t, q);
    }
  }

  lemma AppendKeepsInv(s: State, s': State, t: Tid)
    requires Inv(s) && t < |s.loc| && s.loc[t].Append? && s' == Step(s, t)
    ensures Inv(s')
  {
    hide Inv, DoInitNode, DoExchange, DoStore;
    var q, pc := s.loc[t].q, s.loc[t].apc;
    match pc {
      case InitNode(node) => InitNodeKeepsInv(s, s', t, q, node);
      case Exchange(_, _, _, _) => ExchangeKeepsInv(s, s', t, q, pc);
      case Store(_, _, _, _) => StoreKeepsInv(s, s', t, q, pc);
    }
  }

  lemma StepKeepsInv(s: State, t: Tid)
    requires Inv(s) && Enabled(s, t, Run)
    ensures Inv(Step(s, t))
  {
    hide Locals, Queues, Pends, Holders, Places, Roles;
    var s' := Step(s, t);
    if Reads(s, s.loc[t]) {
      ReadKeepsInv(s, s', t);
    } else if s.loc[t].Append? {
      AppendKeepsInv(s, s', t);
    } else if s.loc[t].Dequeue? {
      DequeueWriteKeepsInv(s, s', t);
    } else {
      SpliceWriteKeepsInv(s, s', t);
    }
  }

  // ---- What a user does between operations ----

  // A node that changes hands while no queue and no append refers to it.
  ghost predicate Rehomes(s: State, s': State, t: Tid, node: Node) {
    && Shape(s) && Shape(s') && OnlyThread(s, s', t) && Owns(s, t, node) && node !in s.pend
    && s'.next == s.next && s'.tail == s.tail && s'.queue == s.queue && s'.entered == s.entered
    && s'.removed == s.removed && s'.pend == s.pend && s'.holder == s.holder
    && node in s'.place && s'.place == s.place[node := s'.place[node]]
    && ((s'.place[node] == Moving(t) && s.loc[t] == Idle && exists q :: s'.loc[t] == Append(q, InitNode(node)))
        || (s'.place[node].Owned? && s'.place[node].owner < |s.loc| && s'.loc == s.loc))
  }

  lemma RehomeLocal(s: State, s': State, t: Tid, node: Node, u: Tid)
    requires Rehomes(s, s', t, node) && u < |s.loc| && LocalOk(s, u)
    ensures LocalOk(s', u)
  {
    hide LocalOk, Link;
    SameLinks(s, s');
    if s'.loc[u] == s.loc[u] {
      PendsStay(s, u);
      OtherLocal(s, s', u);
    } else {
      RehomeOwn(s, s', t, node);
    }
  }

  lemma RehomeOwn(s: State, s': State, t: Tid, node: Node)
    requires Rehomes(s, s', t, node) && s'.loc[t] != s.loc[t]
    ensures LocalOk(s', t)
  {
    hide Link, Linked;
  }

  lemma RehomeLocals(s: State, s': State, t: Tid, node: Node)
    requires Rehomes(s, s', t, node) && Locals(s)
    ensures Locals(s')
  {
    hide QueueOk;
    forall u | 0 <= u < |s'.loc| ensures LocalOk(s', u) { RehomeLocal(s, s', t, node, u); }
  }

  lemma RehomeQueues(s: State, s': State, t: Tid, node: Node)
    requires Rehomes(s, s', t, node) && Queues(s)
    ensures Queues(s')
  {
    hide QueueOk, Link;
    SameLinks(s, s');
    forall q | q in s'.queue ensures QueueOk(s', q) { OtherQueue(s, s', q); }
  }

  lemma RehomeRest(s: State, s': State, t: Tid, node: Node)
    requires Rehomes(s, s', t, node) && Pends(s) && Places(s)
    ensures Pends(s') && Places(s')
  {
    hide PendOk, PlaceOk;
    forall n | n in s'.pend ensures PendOk(s', n) { RehomePend(s, s', t, node, n); }
    forall n | n in s'.place ensures PlaceOk(s', n) { RehomePlace(s, s', t, node, n); }
  }

  lemma RehomePend(s: State, s': State, t: Tid, node: Node, n: Node)
    requires Rehomes(s, s', t, node) && n in s.pend && PendOk(s, n)
    ensures PendOk(s', n)
  {
  }

  lemma RehomePlace(s: State, s': State, t: Tid, node: Node, n: Node)
    requires Rehomes(s, s', t, node) && n in s.place && PlaceOk(s, n)
    ensures PlaceOk(s', n)
  {
  }

  lemma RehomeKeepsInv(s: State, s': State, t: Tid, node: Node)
    requires Inv(s) && Rehomes(s, s', t, node)
    ensures Inv(s')
  {
    hide Locals, Queues, Pends, Holders, Places, Roles, LocalOk, QueueOk, PendOk;
    RehomeLocals(s, s', t, node);
    RehomeQueues(s, s', t, node);
    RehomeRest(s, s', t, node);
    HoldersKept(s, s', t);
    RolesKept(s, s', t);
  }

  lemma OwnedNotPending(s: State, t: Tid, node: Node)
    requires Pends(s) && Owns(s, t, node)
    ensures node !in s.pend
  {
    forall n | n in s.pend ensures n != node { assert PendOk(s, n); }
  }

  lemma ScribbleRewrites(s: State, s': State, t: Tid, node: Node)
    requires Shape(s) && t < |s.loc| && Owns(s, t, node) && node !in s.pend
    requires exists v :: s' == Apply(s, t, Scribble(node, v))
    ensures Rewrites(s, s', t, node) && s'.loc == s.loc
  {
  }

  lemma ScribbleLocals(s: State, s': State, t: Tid, node: Node)
    requires Rewrites(s, s', t, node) && Owns(s, t, node) && s'.loc == s.loc && Locals(s) && Queues(s)
    ensures Locals(s')
  {
    forall u | 0 <= u < |s'.loc| ensures LocalOk(s', u) {
      assert LocalOk(s, u);
      RewriteOther(s, s', t, node, u);
    }
  }

  lemma ScribbleKeepsInv(s: State, s': State, t: Tid, node: Node)
    requires Inv(s) && Rewrites(s, s', t, node) && Owns(s, t, node) && s'.loc == s.loc && node !in s.pend
    ensures Inv(s')
  {
    hide Locals, Queues, Pends, Holders, Places, Roles, LocalOk, QueueOk, PendOk;
    ScribbleLocals(s, s', t, node);
    RewriteQueues(s, s', t, node);
    ScribbleRest(s, s', t, node);
  }

  lemma ScribbleRest(s: State, s': State, t: Tid, node: Node)
    requires Rewrites(s, s', t, node) && s'.loc == s.loc && node !in s.pend
    requires Pends(s) && Holders(s) && Places(s) && Roles(s)
    ensures Pends(s') && Holders(s') && Places(s') && Roles(s')
  {
    hide PendOk, PlaceOk, Link, Holds, RoleOf, Excluded;
    forall n | n in s'.pend ensures PendOk(s', n) { ScribblePend(s, s', t, node, n); }
    forall n | n in s'.place ensures PlaceOk(s', n) { ScribblePlace(s, s', t, node, n); }
  }

  lemma ScribblePend(s: State, s': State, t: Tid, node: Node, n: Node)
    requires Rewrites(s, s', t, node) && s'.loc == s.loc && node !in s.pend && n in s.pend && PendOk(s, n)
    ensures PendOk(s', n)
  {
    hide Link;
  }

  lemma ScribblePlace(s: State, s': State, t: Tid, node: Node, n: Node)
    requires Rewrites(s, s', t, node) && s'.loc == s.loc && n in s.place && PlaceOk(s, n)
    ensures PlaceOk(s', n)
  {
    hide Link;
  }

  // A dequeue, a splice or an iteration starts, goes on, or (an iteration) is given up.
  lemma BeginMoves(s: State, s': State, t: Tid, a: Action)
    requires Shape(s) && Enabled(s, t, a) && s' == Apply(s, t, a)
    requires !a.Run? && !a.BeginEnqueue? && !a.Scribble? && !a.Give?
    ensures Moves(s, s', t)
  {
    hide RoleOf, Holds, MayTake;
    BeginRoles(s, t, a);
    ShapeKept(s, s', t);
  }

  lemma BeginRoles(s: State, t: Tid, a: Action)
    requires Shape(s) && Enabled(s, t, a) && !a.Run? && !a.BeginEnqueue? && !a.Scribble? && !a.Give?
    ensures var l, l' := s.loc[t], Begin(a, s.loc[t]);
      && (forall q :: Holds(l', q) <==> Holds(l, q))
      && (forall q :: RoleOf(l', q) == NoRole || RoleOf(l', q) == RoleOf(l, q) || MayTake(s, t, RoleOf(l', q), q))
  {
    hide MayTake, Shape;
  }

  lemma BeginLocal(s: State, s': State, t: Tid, a: Action)
    requires Shape(s) && Shape(s') && Enabled(s, t, a) && s' == Apply(s, t, a) && LocalOk(s, t)
    requires !a.Run? && !a.BeginEnqueue? && !a.Scribble? && !a.Give?
    ensures LocalOk(s', t)
  {
    hide MayTake, Link;
  }

  lemma BeginKeepsInv(s: State, s': State, t: Tid, a: Action)
    requires Inv(s) && Enabled(s, t, a) && s' == Apply(s, t, a)
    requires !a.Run? && !a.BeginEnqueue? && !a.Scribble? && !a.Give?
    ensures Inv(s')
  {
    hide Locals, Queues, Pends, Holders, Places, Roles, LocalOk, QueueOk, PendOk, Apply, MayTake;
    BeginMoves(s, s', t, a);
    LocalAt(s, t);
    BeginLocal(s, s', t, a);
    MoveKeepsInv(s, s', t);
  }

  lemma BeginEnqueueRehomes(s: State, s': State, t: Tid, q: Qid, node: Node)
    requires Shape(s) && Enabled(s, t, BeginEnqueue(q, node)) && s' == Apply(s, t, BeginEnqueue(q, node))
    requires node !in s.pend
    ensures Rehomes(s, s', t, node)
  {
    ShapeKept(s, s', t);
  }

  lemma GiveRehomes(s: State, s': State, t: Tid, node: Node, to: Tid)
    requires Shape(s) && Enabled(s, t, Give(node, to)) && s' == Apply(s, t, Give(node, to))
    requires node !in s.pend
    ensures Rehomes(s, s', t, node)
  {
  }

  lemma BeginEnqueueKeepsInv(s: State, s': State, t: Tid, q: Qid, node: Node)
    requires Inv(s) && Enabled(s, t, BeginEnqueue(q, node)) && s' == Apply(s, t, BeginEnqueue(q, node))
    ensures Inv(s')
  {
    hide Locals, Queues, Holders, Places, Roles, PendOk, Rehomes;
    OwnedNotPending(s, t, node);
    BeginEnqueueRehomes(s, s', t, q, node);
    RehomeKeepsInv(s, s', t, node);
  }

  lemma ScribbleActionKeepsInv(s: State, s': State, t: Tid, node: Node, v: Option<Node>)
    requires Inv(s) && Enabled(s, t, Scribble(node, v)) && s' == Apply(s, t, Scribble(node, v))
    ensures Inv(s')
  {
    hide Locals, Queues, Holders, Places, Roles, PendOk, Rewrites;
    OwnedNotPending(s, t, node);
    ScribbleRewrites(s, s', t, node);
    ScribbleKeepsInv(s, s', t, node);
  }

  lemma GiveKeepsInv(s: State, s': State, t: Tid, node: Node, to: Tid)
    requires Inv(s) && Enabled(s, t, Give(node, to)) && s' == Apply(s, t, Give(node, to))
    ensures Inv(s')
  {
    hide Locals, Queues, Holders, Places, Roles, PendOk, Rehomes;
    OwnedNotPending(s, t, node);
    GiveRehomes(s, s', t, node, to);
    RehomeKeepsInv(s, s', t, node);
  }

  lemma ActionKeepsInv(s: State, t: Tid, a: Action)
    requires Inv(s) && Enabled(s, t, a)
    ensures Inv(Apply(s, t, a))
  {
    hide Locals, Queues, Pends, Holders, Places, Roles, Step;
    var s' := Apply(s, t, a);
    match a {
      case Run => StepKeepsInv(s, t);
      case BeginEnqueue(q, node) => BeginEnqueueKeepsInv(s, s', t, q, node);
      case Scribble(node, v) => ScribbleActionKeepsInv(s, s', t, node, v);
      case Give(node, to) => GiveKeepsInv(s, s', t, node, to);
      case _ => BeginKeepsInv(s, s', t, a);
    }
  }

  lemma NextKeepsInv(s: State, s': State)
    requires Inv(s) && Next(s, s')
    ensures Inv(s')
  {
    var t, a :| Enabled(s, t, a) && s' == Apply(s, t, a);
    ActionKeepsInv(s, t, a);
  }

  lemma ReachableInv(s: State, n: nat)
    requires Reachable(s, n)
    ensures Inv(s)
  {
    forall a | Init(a) ensures Inv(a) { InitInv(a); }
    forall a, b | Inv(a) && Next(a, b) ensures Inv(b) { NextKeepsInv(a, b); }
    Induct(Init, Next, Inv, s, n);
  }
}
