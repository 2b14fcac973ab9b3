/**
 * The wait-free-enqueue queue of include/linux/wfc_queue.h as a step machine.
 *
 * Any number of threads run the queue operations on any number of queues.  One step performs one
 * access to shared memory (a node's `next` word or a queue's `tail->p` word), atomically, in a
 * sequentially consistent order.  A NULL link is an absent key of `next`.
 *
 * The shared memory is `next` and `tail`.  Everything below the line "history" in `State` is
 * bookkeeping: no step ever branches on it or returns it.
 */
module WfcQueue {
  import opened Options
  import opened Runs

  type Tid = nat
  type Qid = nat

  // A queue's head is itself a node: `struct wfcq_head` holds a `struct wfcq_node`.
  datatype Node = Head(of: Qid) | Item(id: nat)

  datatype Code = DestEmpty | DestNonEmpty | SrcEmpty

  datatype Result =
    | NoResult
    | Enqueued(nonEmpty: bool)
    | Dequeued(item: Option<Node>)
    | Spliced(code: Code)
    | Found(item: Option<Node>)

  // Where a thread is inside an operation; each name says which access comes next.
  datatype Local =
    | Idle
    | Append(q: Qid, apc: AppendPc)
    | Dequeue(q: Qid, dpc: DequeuePc)
    | Splice(dst: Qid, src: Qid, spc: SplicePc)
    | Iterate(q: Qid, ipc: IteratePc)

  // wfcq_enqueue starts at InitNode; __wfcq_append, shared with __wfcq_splice, at Exchange.
  datatype AppendPc =
    | InitNode(node: Node)
    | Exchange(first: Node, last: Node, chunk: seq<Node>, splice: bool)
    | Store(prev: Node, first: Node, wasEmpty: bool, splice: bool)

  datatype DequeuePc =
    | EmptyHead
    | EmptyTail
    | SyncHead
    | LoadNext(node: Node)
    | ClearHead(node: Node)
    | CasTail(node: Node)
    | SyncNext(node: Node)
    | Advance(node: Node, next: Node, held: bool)

  datatype SplicePc =
    | SrcHead
    | SrcTail
    | TakeHead
    | CheckTail
    | Detach(first: Node)

  datatype IteratePc =
    | FirstHead
    | FirstTail
    | FirstSync
    | At(node: Node, i: nat)        // between two calls, with the external mutual exclusion held
    | NextLoad(node: Node, i: nat)
    | NextTail(node: Node, i: nat)
    | NextSync(node: Node, i: nat)

  // A node is in a queue, inside an append on its way into one, or private to a thread.
  datatype Place = Queued(queue: Qid) | Moving(mover: Tid) | Owned(owner: Tid)

  // An append that has exchanged the tail but not yet stored the link `old_tail->next = to`.
  datatype Pending = Pending(thread: Tid, to: Node)

  datatype State = State(
    next: map<Node, Node>,
    tail: map<Qid, Node>,
    loc: seq<Local>,
    ret: seq<Result>,
    // ---- history ----
    queue: map<Qid, seq<Node>>,     // contents, in the order of the exchanges of the tail
    entered: map<Qid, seq<Node>>,   // every node ever exchanged into the queue
    removed: map<Qid, seq<Node>>,   // every node ever handed out by dequeue or splice
    place: map<Node, Place>,
    pend: map<Node, Pending>,
    holder: map<Qid, Tid>           // the remover that has taken the link out of the head
  )

  datatype Action =
    | Run
    | BeginEnqueue(q: Qid, node: Node)
    | BeginDequeue(q: Qid)
    | BeginSplice(dst: Qid, src: Qid)
    | BeginFirst(q: Qid)
    | BeginNext
    | EndIteration
    | Scribble(node: Node, value: Option<Node>)  // the owner writes over a private node
    | Give(node: Node, to: Tid)                  // the owner hands a private node to another thread

  // ---- The synchronization table (lines 42-69) ----

  datatype Role = NoRole | Dequeuer | Splicer | Iterator

  function RoleOf(l: Local, q: Qid): Role {
    if l.Dequeue? && l.q == q then Dequeuer
    else if l.Splice? && l.src == q then Splicer
    else if l.Iterate? && l.q == q then Iterator
    else NoRole
  }

  // "X" in the table: the two roles need external mutual exclusion on one queue.
  predicate Excluded(a: Role, b: Role) {
    a != NoRole && b != NoRole && (a == Dequeuer || a != b)
  }

  predicate MayTake(s: State, t: Tid, r: Role, q: Qid) {
    forall u :: 0 <= u < |s.loc| && u != t ==> !Excluded(r, RoleOf(s.loc[u], q))
  }

  // The queues that a thread is working on are initialised.
  predicate Knows(s: State, l: Local) {
    && (l.Append? || l.Dequeue? || l.Iterate? ==> l.q in s.queue)
    && (l.Splice? ==> l.dst in s.queue && l.src in s.queue)
  }

  predicate Shape(s: State) {
    && |s.ret| == |s.loc|
    && s.tail.Keys == s.queue.Keys == s.entered.Keys == s.removed.Keys
    && forall t :: 0 <= t < |s.loc| ==> Knows(s, s.loc[t])
  }

  predicate Owns(s: State, t: Tid, node: Node) {
    node.Item? && node in s.place && s.place[node] == Owned(t)
  }

  predicate Enabled(s: State, t: Tid, a: Action) {
    t < |s.loc| &&
    match a
    case Run => !s.loc[t].Idle? && !(s.loc[t].Iterate? && s.loc[t].ipc.At?)
    case BeginEnqueue(q, node) => s.loc[t].Idle? && q in s.queue && Owns(s, t, node)
    case BeginDequeue(q) => s.loc[t].Idle? && q in s.queue && MayTake(s, t, Dequeuer, q)
    case BeginSplice(dst, src) => s.loc[t].Idle? && dst in s.queue && src in s.queue && MayTake(s, t, Splicer, src)
    case BeginFirst(q) => s.loc[t].Idle? && q in s.queue && MayTake(s, t, Iterator, q)
    case BeginNext => s.loc[t].Iterate? && s.loc[t].ipc.At?
    case EndIteration => s.loc[t].Iterate? && s.loc[t].ipc.At?
    case Scribble(node, value) => Owns(s, t, node)
    case Give(node, to) => Owns(s, t, node) && to < |s.loc|
  }

  function Begin(a: Action, l: Local): Local {
    match a
    case BeginEnqueue(q, node) => Append(q, InitNode(node))
    case BeginDequeue(q) => Dequeue(q, EmptyHead)
    case BeginSplice(dst, src) => Splice(dst, src, SrcHead)
    case BeginFirst(q) => Iterate(q, FirstHead)
    case BeginNext => if l.Iterate? && l.ipc.At? then Iterate(l.q, NextLoad(l.ipc.node, l.ipc.i)) else l
    case _ => Idle
  }

  function Apply(s: State, t: Tid, a: Action): State
    requires Enabled(s, t, a) && Shape(s)
  {
    match a
    case Run => Step(s, t)
    case BeginEnqueue(q, node) => s.(loc := s.loc[t := Begin(a, s.loc[t])], place := s.place[node := Moving(t)])
    case Scribble(node, value) =>
      s.(next := match value case None => s.next - {node} case Some(v) => s.next[node := v])
    case Give(node, to) => s.(place := s.place[node := Owned(to)])
    case _ => s.(loc := s.loc[t := Begin(a, s.loc[t])])
  }

  function Load(s: State, n: Node): Option<Node> {
    if n in s.next then Some(s.next[n]) else None
  }

  function PlaceAll(place: map<Node, Place>, ns: seq<Node>, p: Place): map<Node, Place> {
    map n | n in place.Keys + (set i | 0 <= i < |ns| :: ns[i]) :: if n in ns then p else place[n]
  }

  // ---- Accesses that write no shared word: loads, and a cmpxchg or xchg that takes nothing ----

  predicate Reads(s: State, l: Local)
    requires Knows(s, l) && s.tail.Keys == s.queue.Keys
  {
    match l
    case Idle => false
    case Append(_, _) => false
    case Dequeue(q, pc) => !pc.ClearHead? && !pc.Advance? && (pc.CasTail? ==> s.tail[q] != pc.node)
    case Splice(_, src, pc) => !pc.Detach? && (pc.TakeHead? ==> Head(src) !in s.next)
    case Iterate(_, pc) => !pc.At?
  }

  // Where such an access leads, and the result if the operation returns there.
  datatype Move = Move(to: Local, result: Option<Result>)

  // wfcq_empty reads head->node.next, and tail->p only when that is NULL;
  // ___wfcq_node_sync_next stays where it is until the link is there.
  function DequeueRead(s: State, q: Qid, pc: DequeuePc): Move
    requires q in s.tail
  {
    match pc
    case EmptyHead => Move(Dequeue(q, if Load(s, Head(q)) == None then EmptyTail else SyncHead), None)
    case EmptyTail =>
      if s.tail[q] == Head(q) then Move(Idle, Some(Dequeued(None))) else Move(Dequeue(q, SyncHead), None)
    case SyncHead =>
      Move(Dequeue(q, match Load(s, Head(q)) case None => pc case Some(n) => LoadNext(n)), None)
    case LoadNext(node) =>
      Move(Dequeue(q, match Load(s, node) case None => ClearHead(node) case Some(n) => Advance(node, n, false)), None)
    case CasTail(node) => Move(Dequeue(q, SyncNext(node)), None)
    case SyncNext(node) =>
      Move(Dequeue(q, match Load(s, node) case None => pc case Some(n) => Advance(node, n, true)), None)
    case _ => Move(Dequeue(q, pc), None)
  }

  function SpliceRead(s: State, dst: Qid, src: Qid, pc: SplicePc): Move
    requires src in s.tail
  {
    match pc
    case SrcHead => Move(Splice(dst, src, if Load(s, Head(src)) == None then SrcTail else TakeHead), None)
    case TakeHead => Move(Splice(dst, src, CheckTail), None)
    case _ =>  // SrcTail and CheckTail: the same load, in wfcq_empty and in the loop
      if s.tail[src] == Head(src) then Move(Idle, Some(Spliced(SrcEmpty))) else Move(Splice(dst, src, TakeHead), None)
  }

  function IterateRead(s: State, q: Qid, pc: IteratePc): Move
    requires q in s.tail
  {
    match pc
    case FirstHead => Move(Iterate(q, if Load(s, Head(q)) == None then FirstTail else FirstSync), None)
    case FirstTail =>
      if s.tail[q] == Head(q) then Move(Idle, Some(Found(None))) else Move(Iterate(q, FirstSync), None)
    case FirstSync =>
      (match Load(s, Head(q))
       case None => Move(Iterate(q, pc), None)
       case Some(n) => Move(Iterate(q, At(n, 0)), Some(Found(Some(n)))))
    case NextTail(node, i) =>
      if s.tail[q] == node then Move(Idle, Some(Found(None))) else Move(Iterate(q, NextSync(node, i)), None)
    case _ =>  // NextLoad and NextSync: load node->next
      (match Load(s, pc.node)
       case None => Move(Iterate(q, if pc.NextLoad? then NextTail(pc.node, pc.i) else pc), None)
       case Some(n) => Move(Iterate(q, At(n, pc.i + 1)), Some(Found(Some(n)))))
  }

  function AfterRead(s: State, l: Local): Move
    requires Knows(s, l) && s.tail.Keys == s.queue.Keys && Reads(s, l)
  {
    match l
    case Dequeue(q, pc) => DequeueRead(s, q, pc)
    case Splice(dst, src, pc) => SpliceRead(s, dst, src, pc)
    case Iterate(q, pc) => IterateRead(s, q, pc)
  }

  function Goto(s: State, t: Tid, m: Move): State
    requires t < |s.loc| == |s.ret|
  {
    s.(loc := s.loc[t := m.to], ret := if m.result.Some? then s.ret[t := m.result.value] else s.ret)
  }

  // ---- Accesses that write ----

  // wfcq_node_init on the node about to be enqueued
  function DoInitNode(s: State, t: Tid, q: Qid, node: Node): State
    requires Shape(s) && t < |s.loc|
  {
    Goto(s, t, Move(Append(q, Exchange(node, node, [node], false)), None)).(next := s.next - {node})
  }

  // __wfcq_append: old_tail = xchg(&tail->p, new_tail)
  function DoExchange(s: State, t: Tid, q: Qid, pc: AppendPc): State
    requires Shape(s) && t < |s.loc| && q in s.queue && pc.Exchange?
  {
    var prev := s.tail[q];
    Goto(s, t, Move(Append(q, Store(prev, pc.first, s.queue[q] == [], pc.splice)), None)).(
      tail := s.tail[q := pc.last],
      queue := s.queue[q := s.queue[q] + pc.chunk],
      entered := s.entered[q := s.entered[q] + pc.chunk],
      place := PlaceAll(s.place, pc.chunk, Queued(q)),
      pend := s.pend[prev := Pending(t, pc.first)])
  }

  // __wfcq_append: old_tail->next = new_head; return old_tail != &head->node
  function DoStore(s: State, t: Tid, q: Qid, pc: AppendPc): State
    requires Shape(s) && t < |s.loc| && pc.Store?
  {
    var nonEmpty := pc.prev != Head(q);
    var r := if pc.splice then Spliced(if nonEmpty then DestNonEmpty else DestEmpty) else Enqueued(nonEmpty);
    Goto(s, t, Move(Idle, Some(r))).(next := s.next[pc.prev := pc.first], pend := s.pend - {pc.prev})
  }

  // __wfcq_dequeue: wfcq_node_init(&head->node)
  function DoClearHead(s: State, t: Tid, q: Qid, node: Node): State
    requires Shape(s) && t < |s.loc|
  {
    Goto(s, t, Move(Dequeue(q, CasTail(node)), None)).(next := s.next - {Head(q)}, holder := s.holder[q := t])
  }

  // __wfcq_dequeue: the cmpxchg that moves the tail back to the head
  function DoCasTail(s: State, t: Tid, q: Qid, node: Node): State
    requires Shape(s) && t < |s.loc| && q in s.queue
  {
    Goto(s, t, Move(Idle, Some(Dequeued(Some(node))))).(
      tail := s.tail[q := Head(q)],
      queue := s.queue[q := []],
      removed := s.removed[q := s.removed[q] + [node]],
      place := s.place[node := Owned(t)],
      holder := s.holder - {q})
  }

  // __wfcq_dequeue: head->node.next = next
  function DoAdvance(s: State, t: Tid, q: Qid, node: Node, next: Node): State
    requires Shape(s) && t < |s.loc| && q in s.queue
  {
    Goto(s, t, Move(Idle, Some(Dequeued(Some(node))))).(
      next := s.next[Head(q) := next],
      queue := s.queue[q := if s.queue[q] == [] then [] else s.queue[q][1..]],
      removed := s.removed[q := s.removed[q] + [node]],
      place := s.place[node := Owned(t)],
      holder := s.holder - {q})
  }

  // __wfcq_splice: head = xchg(&src_q_head->node.next, NULL), finding a node
  function DoTakeHead(s: State, t: Tid, dst: Qid, src: Qid): State
    requires Shape(s) && t < |s.loc| && Head(src) in s.next
  {
    Goto(s, t, Move(Splice(dst, src, Detach(s.next[Head(src)])), None)).(
      next := s.next - {Head(src)}, holder := s.holder[src := t])
  }

  // __wfcq_splice: tail = xchg(&src_q_tail->p, &src_q_head->node)
  function DoDetach(s: State, t: Tid, dst: Qid, src: Qid, first: Node): State
    requires Shape(s) && t < |s.loc| && src in s.queue
  {
    Goto(s, t, Move(Append(dst, Exchange(first, s.tail[src], s.queue[src], true)), None)).(
      tail := s.tail[src := Head(src)],
      queue := s.queue[src := []],
      removed := s.removed[src := s.removed[src] + s.queue[src]],
      place := PlaceAll(s.place, s.queue[src], Moving(t)),
      holder := s.holder - {src})
  }

  /** One shared access of thread t, and the local work up to its next one. */
  function Step(s: State, t: Tid): State
    requires t < |s.loc| && Shape(s)
  {
    var l := s.loc[t];
    if Reads(s, l) then Goto(s, t, AfterRead(s, l))
    else if l.Append? then
      match l.apc {
        case InitNode(node) => DoInitNode(s, t, l.q, node)
        case Exchange(_, _, _, _) => DoExchange(s, t, l.q, l.apc)
        case Store(_, _, _, _) => DoStore(s, t, l.q, l.apc)
      }
    else if l.Dequeue? then
      match l.dpc {
        case ClearHead(node) => DoClearHead(s, t, l.q, node)
        case CasTail(node) => DoCasTail(s, t, l.q, node)
        case Advance(node, next, _) => DoAdvance(s, t, l.q, node, next)
        case _ => s
      }
    else if l.Splice? then
      match l.spc {
        case TakeHead => DoTakeHead(s, t, l.dst, l.src)
        case Detach(first) => DoDetach(s, t, l.dst, l.src, first)
        case _ => s
      }
    else s
  }

  /** wfcq_init on every queue; every item is private to some thread and its link is arbitrary. */
  ghost predicate Init(s: State) {
    && Shape(s)
    && (forall t :: 0 <= t < |s.loc| ==> s.loc[t] == Idle)
    && (forall q :: q in s.queue ==>
          s.tail[q] == Head(q) && Head(q) !in s.next && s.queue[q] == [] && s.entered[q] == [] && s.removed[q] == [])
    && (forall n :: n in s.place ==> n.Item? && s.place[n].Owned? && s.place[n].owner < |s.loc|)
    && s.pend == map[] && s.holder == map[]
  }

  ghost predicate Next(s: State, s': State) {
    Shape(s) && exists t, a :: Enabled(s, t, a) && s' == Apply(s, t, a)
  }

  /** s is reached from an initial state in n steps. */
  ghost predicate Reachable(s: State, n: nat) {
    Reach(Init, Next, s, n)
  }
}
