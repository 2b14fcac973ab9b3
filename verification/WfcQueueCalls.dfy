/**
 * The wait-free queue as its callers see it: every call takes effect once, on the queues and the node it
 * was called with, and every step brings it nearer to its return, or waits for one append.
 */
module WfcQueueCalls {
  import opened Options
  import opened Calls
  import opened WfcQueue
  import opened WfcQueueInv
  import opened WfcQueueTheorems

  datatype Op =
    | EnqueueOp(q: Qid, node: Node)
    | DequeueOp(q: Qid)
    | SpliceOp(dst: Qid, src: Qid)
    | FirstOp(q: Qid)
    | NextOp(q: Qid, i: nat)          // from node i of the queue

  // What a splice carries between its two exchanges: a chain, and where it goes.
  datatype Chain = Chain(dst: Qid, nodes: seq<Node>)

  // ---- The calls that the places in the code belong to ----

  function PhaseOf(l: Local): Phase<Op, Chain, Result> {
    match l
    case Idle => NoCall
    case Append(q, InitNode(node)) => Asked(EnqueueOp(q, node))
    case Append(q, Exchange(first, _, chunk, splice)) => if splice then Midway(Chain(q, chunk)) else Asked(EnqueueOp(q, first))
    case Append(_, Store(_, _, wasEmpty, splice)) =>
      Answered(if splice then Spliced(if wasEmpty then DestEmpty else DestNonEmpty) else Enqueued(!wasEmpty))
    case Dequeue(q, _) => Asked(DequeueOp(q))
    case Splice(dst, src, _) => Asked(SpliceOp(dst, src))
    case Iterate(q, pc) =>
      if pc.At? then NoCall
      else if pc.FirstHead? || pc.FirstTail? || pc.FirstSync? then Asked(FirstOp(q))
      else Asked(NextOp(q, pc.i))
  }

  // The node that an iteration stands at between its calls.
  function CursorOf(l: Local): Option<(Qid, nat)> {
    if l.Iterate? && l.ipc.At? then Some((l.q, l.ipc.i)) else None
  }

  function PhaseAt(s: State, t: nat): Phase<Op, Chain, Result> {
    if t < |s.loc| then PhaseOf(s.loc[t]) else NoCall
  }

  function ResultAt(s: State, t: nat): Result {
    if t < |s.ret| then s.ret[t] else NoResult
  }

  // ---- What a call does, in terms of the contents of the queues ----

  ghost predicate Quiet(s: State, s': State) {
    s'.queue == s.queue && s'.entered == s.entered && s'.removed == s.removed
  }

  // xs have gone to the end of q, which was as r says.
  ghost predicate Appended(s: State, s': State, q: Qid, xs: seq<Node>) {
    && q in s.queue && q in s.entered && s'.removed == s.removed
    && s'.queue == s.queue[q := s.queue[q] + xs] && s'.entered == s.entered[q := s.entered[q] + xs]
  }

  // xs have left the front of q.
  ghost predicate Removed(s: State, s': State, q: Qid, xs: seq<Node>) {
    && q in s.queue && q in s.removed && s'.entered == s.entered
    && xs <= s.queue[q] && s'.queue == s.queue[q := s.queue[q][|xs|..]] && s'.removed == s.removed[q := s.removed[q] + xs]
  }

  ghost predicate Empty(s: State, q: Qid) {
    q in s.queue && s.queue[q] == []
  }

  // Node i of q, or NULL behind the last one.
  function NodeAt(s: State, q: Qid, i: nat): Option<Node> {
    if q in s.queue && i < |s.queue[q]| then Some(s.queue[q][i]) else None
  }

  /** The calls with one effect: an enqueue, a dequeue, a step of an iteration, a splice of an empty queue. */
  ghost predicate Whole(s: State, s': State, t: nat, op: Op, r: Result) {
    match op
    case EnqueueOp(q, node) => Appended(s, s', q, [node]) && r == Enqueued(!Empty(s, q))
    case DequeueOp(q) =>
      if Empty(s, q) then Quiet(s, s') && r == Dequeued(None)
      else exists node :: Dequeues(s, s', t, q, node) && r == Dequeued(Some(node))
    case SpliceOp(_, src) => Empty(s, src) && Quiet(s, s') && r == Spliced(SrcEmpty)
    case FirstOp(q) => Steps(s, s', t, q, 0, r)
    case NextOp(q, i) => Steps(s, s', t, q, i + 1, r)
  }

  ghost predicate Dequeues(s: State, s': State, t: nat, q: Qid, node: Node) {
    Removed(s, s', q, [node]) && node in s'.place && s'.place[node] == Owned(t) && Unreferenced(s', node)
  }

  // An iteration comes to node i, or to the end.
  ghost predicate Steps(s: State, s': State, t: nat, q: Qid, i: nat, r: Result) {
    && Quiet(s, s') && r == Found(NodeAt(s, q, i)) && t < |s'.loc|
    && CursorOf(s'.loc[t]) == if NodeAt(s, q, i) == None then None else Some((q, i))
  }

  /** A splice takes all of a non-empty source at its first exchange ... */
  ghost predicate First(s: State, s': State, t: nat, op: Op, chain: Chain) {
    && op.SpliceOp? && chain.dst == op.dst
    && Removed(s, s', op.src, chain.nodes) && chain.nodes == s.queue[op.src] && chain.nodes != []
  }

  /** ... and appends it to the destination at its second. */
  ghost predicate Last(s: State, s': State, t: nat, chain: Chain, r: Result) {
    Appended(s, s', chain.dst, chain.nodes) && r == Spliced(if Empty(s, chain.dst) then DestEmpty else DestNonEmpty)
  }

  ghost function Queue(): Object<State, Op, Chain, Result> {
    Object(PhaseAt, ResultAt, Quiet, Whole, First, Last)
  }

  // The call that an action of thread t begins.
  function OpOf(l: Local, a: Action): Option<Op> {
    match a
    case BeginEnqueue(q, node) => Some(EnqueueOp(q, node))
    case BeginDequeue(q) => Some(DequeueOp(q))
    case BeginSplice(dst, src) => Some(SpliceOp(dst, src))
    case BeginFirst(q) => Some(FirstOp(q))
    case BeginNext => if CursorOf(l).Some? then Some(NextOp(CursorOf(l).value.0, CursorOf(l).value.1)) else None
    case _ => None
  }

  // ---- Every step keeps to that ----

  lemma InitNodeKeeps(s: State, s': State, t: Tid, q: Qid, pc: AppendPc)
    requires t < |s.loc| && s.loc[t] == Append(q, pc) && pc.InitNode? && AppendPromise(s, s', t, q, pc)
    ensures Keeps(Queue(), s, s', t)
  {
    hide Unreferenced;
  }

  lemma ExchangeKeeps(s: State, s': State, t: Tid, q: Qid, pc: AppendPc)
    requires t < |s.loc| && s.loc[t] == Append(q, pc) && pc.Exchange? && AppendPromise(s, s', t, q, pc)
    requires !pc.splice ==> |pc.chunk| == 1
    ensures Keeps(Queue(), s, s', t)
  {
    hide Unreferenced, Linked, Removed, Steps, Dequeues;
    if !pc.splice { assert pc.chunk == [pc.first]; }
  }

  lemma StoreKeeps(s: State, s': State, t: Tid, q: Qid, pc: AppendPc)
    requires t < |s.loc| && s.loc[t] == Append(q, pc) && pc.Store? && AppendPromise(s, s', t, q, pc)
    ensures Keeps(Queue(), s, s', t)
  {
    hide Unreferenced;
  }

  lemma AppendKeeps(s: State, t: Tid, q: Qid, pc: AppendPc)
    requires Inv(s) && Enabled(s, t, Run) && s.loc[t] == Append(q, pc)
    ensures Keeps(Queue(), s, Step(s, t), t)
  {
    hide Locals, Queues, Pends, Holders, Places, Roles, QueueOk, Step, AppendPromise, Keeps, Linked;
    AppendReturns(s, t, q, pc);
    LocalAt(s, t);
    match pc {
      case InitNode(_) => InitNodeKeeps(s, Step(s, t), t, q, pc);
      case Exchange(_, _, _, _) => ExchangeKeeps(s, Step(s, t), t, q, pc);
      case Store(_, _, _, _) => StoreKeeps(s, Step(s, t), t, q, pc);
    }
  }

  lemma DequeueReturnKeeps(s: State, s': State, t: Tid, q: Qid, pc: DequeuePc)
    requires t < |s.loc| && s.loc[t] == Dequeue(q, pc) && DequeuePromise(s, s', t, q) && s'.loc[t] == Idle
    ensures Keeps(Queue(), s, s', t)
  {
    hide Unreferenced, Appended, Steps;
    var c := s.queue[q];
    match s'.ret[t].item {
      case None =>
      case Some(n) =>
        assert c[0] == n && [n] <= c && c[1..] == s'.queue[q];
        assert Dequeues(s, s', t, q, n);
    }
  }

  lemma DequeueGoesOn(s: State, t: Tid, q: Qid, pc: DequeuePc)
    requires Shape(s) && t < |s.loc| && s.loc[t] == Dequeue(q, pc)
    requires t < |Step(s, t).loc| && Step(s, t).loc[t] != Idle
    ensures Keeps(Queue(), s, Step(s, t), t)
  {
    hide Keeps, DequeueRead, DoClearHead, DoCasTail, DoAdvance;
    if pc.ClearHead? {
      ClearHeadKeeps(s, t, q, pc.node);
    } else if Reads(s, s.loc[t]) {
      DequeueStays(s, q, pc);
      GotoKeeps(s, t, q, DequeueRead(s, q, pc));
    } else {
      DequeueEnds(s, t, q, pc);
    }
  }

  lemma DequeueEnds(s: State, t: Tid, q: Qid, pc: DequeuePc)
    requires Shape(s) && t < |s.loc| && q in s.queue
    ensures pc.CasTail? ==> DoCasTail(s, t, q, pc.node).loc[t] == Idle
    ensures pc.Advance? ==> DoAdvance(s, t, q, pc.node, pc.next).loc[t] == Idle
  {
  }

  lemma DequeueStays(s: State, q: Qid, pc: DequeuePc)
    requires q in s.tail
    ensures DequeueRead(s, q, pc).to == Idle || (DequeueRead(s, q, pc).to.Dequeue? && DequeueRead(s, q, pc).to.q == q)
  {
  }

  lemma GotoKeeps(s: State, t: Tid, q: Qid, m: Move)
    requires t < |s.loc| == |s.ret| && s.loc[t].Dequeue? && s.loc[t].q == q && m.to.Dequeue? && m.to.q == q
    ensures Keeps(Queue(), s, Goto(s, t, m), t)
  {
    hide Whole, First, Last;
  }

  lemma ClearHeadKeeps(s: State, t: Tid, q: Qid, node: Node)
    requires Shape(s) && t < |s.loc| && s.loc[t] == Dequeue(q, ClearHead(node))
    ensures Keeps(Queue(), s, DoClearHead(s, t, q, node), t)
  {
    hide Whole, First, Last;
  }

  lemma DequeueKeeps(s: State, t: Tid, q: Qid, pc: DequeuePc)
    requires Inv(s) && Enabled(s, t, Run) && s.loc[t] == Dequeue(q, pc)
    ensures Keeps(Queue(), s, Step(s, t), t)
  {
    hide Locals, Queues, Pends, Holders, Places, Roles, LocalOk, QueueOk, Step, DequeuePromise, Keeps;
    StepKeepsInv(s, t);
    SameThreads(s, t);
    if Step(s, t).loc[t] == Idle {
      DequeueReturns(s, t, q, pc);
      DequeueReturnKeeps(s, Step(s, t), t, q, pc);
    } else {
      DequeueGoesOn(s, t, q, pc);
    }
  }

  lemma SpliceKeepsTo(s: State, s': State, t: Tid, d: Qid, q: Qid, pc: SplicePc)
    requires t < |s.loc| && s.loc[t] == Splice(d, q, pc) && SplicePromise(s, s', t, d, q, pc)
    ensures Keeps(Queue(), s, s', t)
  {
    hide Linked, Appended, Steps, Dequeues;
    var c := s.queue[q];
    assert c <= c && c[|c|..] == [];
  }

  lemma SpliceKeeps(s: State, t: Tid, d: Qid, q: Qid, pc: SplicePc)
    requires Inv(s) && Enabled(s, t, Run) && s.loc[t] == Splice(d, q, pc)
    ensures Keeps(Queue(), s, Step(s, t), t)
  {
    hide Locals, Queues, Pends, Holders, Places, Roles, Step, SplicePromise, Keeps;
    SpliceReturns(s, t, d, q, pc);
    SpliceKeepsTo(s, Step(s, t), t, d, q, pc);
  }

  lemma IterateKeepsTo(s: State, s': State, t: Tid, q: Qid, pc: IteratePc)
    requires t < |s.loc| && s.loc[t] == Iterate(q, pc) && IteratePromise(s, s', t, q, pc) && !pc.At?
    requires s'.loc[t] == Idle || IterateOn(pc, q, s'.loc[t])
    requires pc.NextLoad? || pc.NextTail? || pc.NextSync? ==> pc.i < |s.queue[q]|
    ensures Keeps(Queue(), s, s', t)
  {
    hide Appended, Removed, Dequeues;
  }

  // Inside a call an iteration stays on its queue and its node.
  predicate IterateOn(pc: IteratePc, q: Qid, l: Local) {
    && l.Iterate? && l.q == q
    && (if pc.FirstHead? || pc.FirstTail? || pc.FirstSync? then l.ipc.FirstTail? || l.ipc.FirstSync? || l.ipc.At?
        else l.ipc.At? || ((l.ipc.NextTail? || l.ipc.NextSync?) && l.ipc.i == pc.i))
    && (l.ipc.At? ==> !pc.FirstHead? && !pc.FirstTail? && !pc.NextTail?)
  }

  lemma IterateGoesOn(s: State, t: Tid, q: Qid, pc: IteratePc)
    requires Shape(s) && t < |s.loc| && s.loc[t] == Iterate(q, pc) && !pc.At?
    ensures t < |Step(s, t).loc| && (Step(s, t).loc[t] == Idle || IterateOn(pc, q, Step(s, t).loc[t]))
  {
  }

  lemma IterateKeeps(s: State, t: Tid, q: Qid, pc: IteratePc)
    requires Inv(s) && Enabled(s, t, Run) && s.loc[t] == Iterate(q, pc)
    ensures Keeps(Queue(), s, Step(s, t), t)
  {
    hide Locals, Queues, Pends, Holders, Places, Roles, QueueOk, Step, IteratePromise, Keeps, IterateOn;
    IterationReturns(s, t, q, pc);
    IterateGoesOn(s, t, q, pc);
    LocalAt(s, t);
    IterateKeepsTo(s, Step(s, t), t, q, pc);
  }

  // A step of thread t as far as threads are concerned.
  ghost predicate OneThread(s: State, s': State, t: Tid) {
    |s.ret| == |s.loc| && OnlyThread(s, s', t) && |s'.ret| == |s.ret| && forall u :: 0 <= u < |s.ret| && u != t ==> s'.ret[u] == s.ret[u]
  }

  lemma SameThreads(s: State, t: Tid)
    requires Shape(s) && t < |s.loc|
    ensures OneThread(s, Step(s, t), t)
  {
    hide AfterRead, OneThread, DoInitNode, DoExchange, DoStore, DoClearHead, DoCasTail, DoAdvance, DoTakeHead, DoDetach;
    var l := s.loc[t];
    if Reads(s, l) { GotoThreads(s, t, AfterRead(s, l)); } else { WriteThreads(s, t, l); }
  }

  lemma SameState(s: State, t: Tid)
    requires Shape(s) && t < |s.loc|
    ensures OneThread(s, s, t)
  {
  }

  lemma GotoThreads(s: State, t: Tid, m: Move)
    requires Shape(s) && t < |s.loc|
    ensures OneThread(s, Goto(s, t, m), t)
  {
  }

  lemma WriteThreads(s: State, t: Tid, l: Local)
    requires Shape(s) && t < |s.loc| && l == s.loc[t] && !Reads(s, l)
    ensures OneThread(s, Step(s, t), t)
  {
    hide AfterRead, OneThread, DoInitNode, DoExchange, DoStore, DoClearHead, DoCasTail, DoAdvance, DoTakeHead, DoDetach;
    SameState(s, t);
    match l {
      case Append(q, pc) => AppendThreads(s, t, q, pc);
      case Dequeue(q, pc) => DequeueThreads(s, t, q, pc);
      case Splice(d, q, pc) => SpliceThreads(s, t, d, q, pc);
      case _ =>
    }
  }

  lemma AppendThreads(s: State, t: Tid, q: Qid, pc: AppendPc)
    requires Shape(s) && t < |s.loc| && q in s.queue
    ensures pc.InitNode? ==> OneThread(s, DoInitNode(s, t, q, pc.node), t)
    ensures pc.Exchange? ==> OneThread(s, DoExchange(s, t, q, pc), t)
    ensures pc.Store? ==> OneThread(s, DoStore(s, t, q, pc), t)
  {
    hide PlaceAll;
  }

  lemma DequeueThreads(s: State, t: Tid, q: Qid, pc: DequeuePc)
    requires Shape(s) && t < |s.loc| && q in s.queue
    ensures pc.ClearHead? ==> OneThread(s, DoClearHead(s, t, q, pc.node), t)
    ensures pc.CasTail? ==> OneThread(s, DoCasTail(s, t, q, pc.node), t)
    ensures pc.Advance? ==> OneThread(s, DoAdvance(s, t, q, pc.node, pc.next), t)
  {
  }

  lemma SpliceThreads(s: State, t: Tid, d: Qid, q: Qid, pc: SplicePc)
    requires Shape(s) && t < |s.loc| && q in s.queue
    ensures Head(q) in s.next ==> OneThread(s, DoTakeHead(s, t, d, q), t)
    ensures pc.Detach? ==> OneThread(s, DoDetach(s, t, d, q, pc.first), t)
  {
    hide PlaceAll;
  }

  lemma RunKeeps(s: State, t: Tid)
    requires Inv(s) && Enabled(s, t, Run)
    ensures Keeps(Queue(), s, Step(s, t), t)
  {
    hide Inv, Step, Keeps;
    match s.loc[t] {
      case Append(q, pc) => AppendKeeps(s, t, q, pc);
      case Dequeue(q, pc) => DequeueKeeps(s, t, q, pc);
      case Splice(d, q, pc) => SpliceKeeps(s, t, d, q, pc);
      case Iterate(q, pc) => IterateKeeps(s, t, q, pc);
      case Idle =>
    }
  }

  lemma BeginKeeps(s: State, t: Tid, a: Action)
    requires Shape(s) && Enabled(s, t, a) && !a.Run?
    ensures Keeps(Queue(), s, Apply(s, t, a), t) && Quiet(s, Apply(s, t, a))
    ensures OpOf(s.loc[t], a).Some? ==> PhaseAt(s, t).NoCall? && PhaseAt(Apply(s, t, a), t) == Asked(OpOf(s.loc[t], a).value)
  {
    hide MayTake, Shape, Whole, First, Last, Knows, PhaseOf, Begin;
    if !a.Scribble? && !a.Give? { BeginPhase(s.loc[t], a); }
  }

  // An action outside a call leaves the phase alone, or begins the call that it names.
  lemma BeginPhase(l: Local, a: Action)
    requires !a.Run? && !a.Scribble? && !a.Give?
    requires if a.BeginNext? || a.EndIteration? then l.Iterate? && l.ipc.At? else l.Idle?
    ensures PhaseOf(l).NoCall?
    ensures PhaseOf(Begin(a, l)) == if OpOf(l, a).Some? then Asked(OpOf(l, a).value) else NoCall
  {
  }

  lemma OthersSpared(s: State, t: Tid, a: Action, u: Tid)
    requires Shape(s) && Enabled(s, t, a) && u != t
    ensures Spares(Queue(), s, Apply(s, t, a), u)
  {
    hide Step, PhaseOf;
    if a.Run? { SameThreads(s, t); } else { BeginThreads(s, t, a, u); }
  }

  /**
   * Every step of every thread, in every reachable state: a step inside a call is quiet or is the effect of
   * that call; a step outside one is quiet, and begins the call it names on the arguments it names; and no
   * step touches the call of another thread.
   */
  lemma StepsKeepCalls(s: State, n: nat, t: Tid, a: Action, u: Tid)
    requires Reachable(s, n) && Enabled(s, t, a)
    ensures Shape(s) && Keeps(Queue(), s, Apply(s, t, a), t)
    ensures !a.Run? ==> Quiet(s, Apply(s, t, a))
    ensures OpOf(s.loc[t], a).Some? ==> PhaseAt(s, t).NoCall? && PhaseAt(Apply(s, t, a), t) == Asked(OpOf(s.loc[t], a).value)
    ensures u != t ==> Spares(Queue(), s, Apply(s, t, a), u)
  {
    hide Reachable, Apply, Keeps, Locals, Queues, Pends, Holders, Places, Roles;
    ReachableInv(s, n);
    StepLaw(s, t, a, u);
  }

  lemma BeginThreads(s: State, t: Tid, a: Action, u: Tid)
    requires Shape(s) && Enabled(s, t, a) && !a.Run? && u != t
    ensures var s' := Apply(s, t, a);
      |s'.loc| == |s.loc| && s'.ret == s.ret && (u < |s.loc| ==> s'.loc[u] == s.loc[u])
  {
    hide MayTake, Knows, Owns, Begin;
  }

  lemma StepLaw(s: State, t: Tid, a: Action, u: Tid)
    requires Inv(s) && Enabled(s, t, a)
    ensures Keeps(Queue(), s, Apply(s, t, a), t) && (u != t ==> Spares(Queue(), s, Apply(s, t, a), u))
    ensures !a.Run? ==> Quiet(s, Apply(s, t, a))
    ensures OpOf(s.loc[t], a).Some? ==> PhaseAt(s, t).NoCall? && PhaseAt(Apply(s, t, a), t) == Asked(OpOf(s.loc[t], a).value)
  {
    hide Keeps, Spares, Locals, Queues, Pends, Holders, Places, Roles, Step, PhaseOf, Quiet;
    if a.Run? { RunKeeps(s, t); } else { BeginKeeps(s, t, a); }
    if u != t { OthersSpared(s, t, a, u); }
  }

  // ---- Whole calls ----

  predicate Goes(s: State, e: Event<Action>, s': State) {
    Shape(s) && Enabled(s, e.thread, e.action) && s' == Apply(s, e.thread, e.action)
  }

  predicate Trace(run: seq<State>, ev: seq<Event<Action>>) {
    |run| == |ev| + 1 && forall i :: 0 <= i < |ev| ==> Goes(run[i], ev[i], run[i + 1])
  }

  lemma {:induction false} TraceInv(run: seq<State>, ev: seq<Event<Action>>, n: nat, i: nat)
    requires Trace(run, ev) && Reachable(run[0], n) && i <= |ev|
    ensures Inv(run[i])
    decreases i
  {
    hide Reachable, Inv, Enabled, Apply;
    if i == 0 {
      ReachableInv(run[0], n);
    } else {
      TraceInv(run, ev, n, i - 1);
      assert Goes(run[i - 1], ev[i - 1], run[i - 1 + 1]);
      ActionKeepsInv(run[i - 1], ev[i - 1].thread, ev[i - 1].action);
    }
  }

  /** The run is a whole call of op by thread t: it begins it, and is back from it at the end for the first time. */
  ghost predicate CallOf(run: seq<State>, ev: seq<Event<Action>>, t: Tid, op: Op) {
    && Trace(run, ev) && ev != [] && ev[0].thread == t && t < |run[0].loc|
    && OpOf(run[0].loc[t], ev[0].action) == Some(op)
    && (forall i :: 1 <= i < |ev| ==> !PhaseAt(run[i], t).NoCall?) && PhaseAt(run[|ev|], t).NoCall?
  }

  lemma CallCompletes(run: seq<State>, ev: seq<Event<Action>>, n: nat, t: Tid, op: Op)
    requires CallOf(run, ev, t, op) && Reachable(run[0], n)
    ensures |run| == |ev| + 1 && Complete(Queue(), run, Threads(ev), t, op)
  {
    hide Reachable, Inv, Enabled, Apply, Keeps, Spares, PhaseOf, OpOf;
    var who := Threads(ev);
    forall i | 0 <= i < |ev| ensures StepOk(Queue(), run, who, t, i) {
      TraceInv(run, ev, n, i);
      assert Goes(run[i], ev[i], run[i + 1]);
      StepLaw(run[i], ev[i].thread, ev[i].action, t);
    }
    TraceInv(run, ev, n, 0);
    assert Goes(run[0], ev[0], run[0 + 1]);
    StepLaw(run[0], t, ev[0].action, t);
  }

  /** Every call takes effect once, whatever the other threads do: at one step of its thread, or at two. */
  lemma CallTakesEffect(run: seq<State>, ev: seq<Event<Action>>, n: nat, t: Tid, op: Op) returns (j: nat, k: nat)
    requires CallOf(run, ev, t, op) && Reachable(run[0], n)
    ensures |run| == |ev| + 1 && Done(Queue(), run, Threads(ev), t, op, |ev|, j, k, ResultAt(run[|ev|], t))
  {
    hide Reachable, Done, Complete, CallOf, OpOf, PhaseOf;
    CallCompletes(run, ev, n, t, op);
    j, k := TakesEffectOnce(Queue(), run, Threads(ev), t, op);
  }

  // Of the steps of thread t, only j and k change any queue.
  ghost predicate OnlyAt(run: seq<State>, ev: seq<Event<Action>>, t: Tid, j: nat, k: nat)
    requires |run| == |ev| + 1
  {
    && 1 <= j <= k < |ev| && ev[j].thread == t && ev[k].thread == t
    && forall i :: 0 <= i < |ev| && ev[i].thread == t && i != j && i != k ==> Quiet(run[i], run[i + 1])
  }

  lemma DoneAt(run: seq<State>, ev: seq<Event<Action>>, t: Tid, op: Op, j: nat, k: nat, r: Result)
    requires |run| == |ev| + 1 && Done(Queue(), run, Threads(ev), t, op, |ev|, j, k, r)
    ensures OnlyAt(run, ev, t, j, k)
    ensures if j == k then Whole(run[k], run[k + 1], t, op, r)
            else op.SpliceOp? && TwoSteps(run, t, op.dst, op.src, j, k, r)
  {
    hide Whole, Quiet, First, Last, TwoSteps;
    assert forall i :: 0 <= i < |ev| && ev[i].thread == t ==> Threads(ev)[i] == t;
    if j != k {
      var c :| FirstAt(Queue(), run, Threads(ev), t, op, j, c) && LastAt(Queue(), run, Threads(ev), t, k, c, r);
      BothSteps(run, t, op, j, k, c, r);
    }
  }

  lemma BothSteps(run: seq<State>, t: Tid, op: Op, j: nat, k: nat, c: Chain, r: Result)
    requires j + 1 < |run| && k + 1 < |run| && First(run[j], run[j + 1], t, op, c) && Last(run[k], run[k + 1], t, c, r)
    ensures op.SpliceOp? && TwoSteps(run, t, op.dst, op.src, j, k, r)
  {
    hide Appended;
  }

  // What was in src at step j has left it, and has gone to the end of dst at step k.
  ghost predicate TwoSteps(run: seq<State>, t: Tid, dst: Qid, src: Qid, j: nat, k: nat, r: Result)
    requires j + 1 < |run| && k + 1 < |run|
  {
    && src in run[j].queue && run[j].queue[src] != []
    && Removed(run[j], run[j + 1], src, run[j].queue[src]) && Appended(run[k], run[k + 1], dst, run[j].queue[src])
    && r == Spliced(if Empty(run[k], dst) then DestEmpty else DestNonEmpty)
  }

  /** wfcq_enqueue(q, node) puts node, and nothing else, at the end of q, and returns whether q was non-empty then. */
  lemma EnqueueCall(run: seq<State>, ev: seq<Event<Action>>, n: nat, t: Tid, q: Qid, node: Node) returns (k: nat)
    requires CallOf(run, ev, t, EnqueueOp(q, node)) && Reachable(run[0], n)
    ensures OnlyAt(run, ev, t, k, k) && Appended(run[k], run[k + 1], q, [node])
    ensures ResultAt(run[|ev|], t) == Enqueued(!Empty(run[k], q))
  {
    hide Reachable, Appended, Empty, OnlyAt, Done;
    var j: nat;
    j, k := CallTakesEffect(run, ev, n, t, EnqueueOp(q, node));
    DoneAt(run, ev, t, EnqueueOp(q, node), j, k, ResultAt(run[|ev|], t));
  }

  /** __wfcq_dequeue(q) takes the first node of q, free to reuse, or returns NULL and q was empty. */
  lemma DequeueCall(run: seq<State>, ev: seq<Event<Action>>, n: nat, t: Tid, q: Qid) returns (k: nat)
    requires CallOf(run, ev, t, DequeueOp(q)) && Reachable(run[0], n)
    ensures OnlyAt(run, ev, t, k, k)
    ensures var r := ResultAt(run[|ev|], t);
      if Empty(run[k], q) then Quiet(run[k], run[k + 1]) && r == Dequeued(None)
      else exists node :: Dequeues(run[k], run[k + 1], t, q, node) && r == Dequeued(Some(node))
  {
    hide Reachable, Dequeues, Empty, OnlyAt, Quiet, Done;
    var j: nat;
    j, k := CallTakesEffect(run, ev, n, t, DequeueOp(q));
    DoneAt(run, ev, t, DequeueOp(q), j, k, ResultAt(run[|ev|], t));
  }

  /**
   * __wfcq_splice(dst, src) takes everything out of src at step j and puts it, in order, at the end of dst at
   * step k, and returns whether dst was empty then; or src was empty, and it has done nothing.
   */
  lemma SpliceCall(run: seq<State>, ev: seq<Event<Action>>, n: nat, t: Tid, dst: Qid, src: Qid) returns (j: nat, k: nat)
    requires CallOf(run, ev, t, SpliceOp(dst, src)) && Reachable(run[0], n)
    ensures OnlyAt(run, ev, t, j, k)
    ensures var r := ResultAt(run[|ev|], t);
      if j == k then Empty(run[k], src) && Quiet(run[k], run[k + 1]) && r == Spliced(SrcEmpty)
      else TwoSteps(run, t, dst, src, j, k, r)
  {
    hide Reachable, TwoSteps, Empty, OnlyAt, Quiet, Done;
    j, k := CallTakesEffect(run, ev, n, t, SpliceOp(dst, src));
    DoneAt(run, ev, t, SpliceOp(dst, src), j, k, ResultAt(run[|ev|], t));
  }

  // ---- Progress ----

  // A bound on the steps a thread takes until its call returns, apart from those in which it waits.
  function Rank(l: Local): nat {
    match l
    case Idle => 0
    case Append(_, pc) => if pc.InitNode? then 3 else if pc.Exchange? then 2 else 1
    case Dequeue(_, pc) =>
      (match pc
       case EmptyHead => 8
       case EmptyTail => 7
       case SyncHead => 6
       case LoadNext(_) => 5
       case ClearHead(_) => 4
       case CasTail(_) => 3
       case SyncNext(_) => 2
       case Advance(_, _, _) => 1)
    case Splice(_, _, pc) =>
      (match pc
       case SrcHead => 7
       case SrcTail => 6
       case TakeHead => 5
       case CheckTail => 4
       case Detach(_) => 3)
    case Iterate(_, pc) =>
      (match pc
       case FirstHead => 3
       case FirstTail => 2
       case FirstSync => 1
       case At(_, _) => 0
       case NextLoad(_, _) => 3
       case NextTail(_, _) => 2
       case NextSync(_, _) => 1)
  }

  // The node whose link a thread waits for.
  function Awaited(l: Local): Option<Node> {
    if l.Dequeue? && l.dpc.SyncHead? then Some(Head(l.q))
    else if l.Dequeue? && l.dpc.SyncNext? then Some(l.dpc.node)
    else if l.Iterate? && l.ipc.FirstSync? then Some(Head(l.q))
    else if l.Iterate? && l.ipc.NextSync? then Some(l.ipc.node)
    else None
  }

  predicate Spins(s: State, t: Tid) {
    t < |s.loc| && Awaited(s.loc[t]).Some? && Awaited(s.loc[t]).value !in s.next
  }

  // A splice that has found no link in the source's head, and the source not empty.
  predicate Retries(s: State, t: Tid) {
    t < |s.loc| && s.loc[t].Splice? && s.loc[t].spc.CheckTail? && s.loc[t].src in s.tail && s.tail[s.loc[t].src] != Head(s.loc[t].src)
  }

  /**
   * Every step of a call brings its return nearer, but for two kinds: a thread in ___wfcq_node_sync_next
   * whose link is missing waits, for an append whose very next access stores it; and a splice that has found
   * the head of a non-empty source without a link tries again.  An enqueue does neither, nor a dequeue of an
   * empty queue.
   */
  lemma StepsBringNearer(s: State, n: nat, t: Tid)
    requires Reachable(s, n) && Enabled(s, t, Run)
    ensures Shape(s) && t < |Step(s, t).loc|
    ensures if Spins(s, t) then Step(s, t) == s && AboutToLink(s, Awaited(s.loc[t]).value)
            else if Retries(s, t) then !Empty(s, s.loc[t].src) && Step(s, t).loc[t] == Splice(s.loc[t].dst, s.loc[t].src, TakeHead)
            else Rank(Step(s, t).loc[t]) < Rank(s.loc[t])
    ensures s.loc[t].Append? ==> Rank(Step(s, t).loc[t]) == Rank(s.loc[t]) - 1
    ensures s.loc[t].Dequeue? && Empty(s, s.loc[t].q) ==> !Spins(s, t)
  {
    hide Reachable, AboutToLink, Locals, Queues, Pends, Holders, Places, Roles, Step, Rank, AppendOk, IterateOk, AllAt;
    ReachableInv(s, n);
    LocalAt(s, t);
    StepRank(s, t);
    if Spins(s, t) { WaitsForAppend(s, t, Awaited(s.loc[t]).value); }
    if Retries(s, t) { RetriesOnNodes(s, t); }
  }

  lemma RetriesOnNodes(s: State, t: Tid)
    requires Inv(s) && Retries(s, t)
    ensures !Empty(s, s.loc[t].src)
  {
    hide Locals, Pends, Holders, Places, Roles, QueueOk;
    QueueAt(s, s.loc[t].src);
    HeadLinks(s, s.loc[t].src);
  }

  // What a step of thread t, which was at l and is now at l', does to its rank.
  ghost predicate Nearer(s: State, s': State, t: Tid) {
    && t < |s.loc| && t < |s'.loc|
    && (if Spins(s, t) then s' == s
        else if Retries(s, t) then s'.loc[t] == Splice(s.loc[t].dst, s.loc[t].src, TakeHead)
        else Rank(s'.loc[t]) < Rank(s.loc[t]))
    && (s.loc[t].Append? ==> Rank(s'.loc[t]) == Rank(s.loc[t]) - 1 && (s'.loc[t] == Idle || s'.loc[t].Append?))
  }

  lemma StepRank(s: State, t: Tid)
    requires Shape(s) && Enabled(s, t, Run)
    ensures Nearer(s, Step(s, t), t)
  {
    hide Nearer, AfterRead, DoInitNode, DoExchange, DoStore, DoClearHead, DoCasTail, DoAdvance, DoTakeHead, DoDetach;
    var l := s.loc[t];
    if Reads(s, l) { ReadRank(s, t, l); } else { WriteRank(s, t, l); }
  }

  lemma ReadRank(s: State, t: Tid, l: Local)
    requires Shape(s) && t < |s.loc| && l == s.loc[t] && Reads(s, l)
    ensures Nearer(s, Goto(s, t, AfterRead(s, l)), t)
  {
    hide Nearer, DequeueRead, SpliceRead, IterateRead;
    match l {
      case Dequeue(q, pc) => DequeueReadRank(s, t, q, pc);
      case Splice(d, q, pc) => SpliceReadRank(s, t, d, q, pc);
      case Iterate(q, pc) => IterateReadRank(s, t, q, pc);
      case _ =>
    }
  }

  lemma DequeueReadRank(s: State, t: Tid, q: Qid, pc: DequeuePc)
    requires Shape(s) && t < |s.loc| && s.loc[t] == Dequeue(q, pc) && Reads(s, s.loc[t])
    ensures Nearer(s, Goto(s, t, DequeueRead(s, q, pc)), t)
  {
    hide Shape;
    assert s.loc[t := Dequeue(q, pc)] == s.loc;
  }

  lemma SpliceReadRank(s: State, t: Tid, d: Qid, q: Qid, pc: SplicePc)
    requires Shape(s) && q in s.tail && t < |s.loc| && s.loc[t] == Splice(d, q, pc) && Reads(s, s.loc[t])
    ensures Nearer(s, Goto(s, t, SpliceRead(s, d, q, pc)), t)
  {
    hide Shape;
  }

  lemma IterateReadRank(s: State, t: Tid, q: Qid, pc: IteratePc)
    requires Shape(s) && t < |s.loc| && s.loc[t] == Iterate(q, pc) && Reads(s, s.loc[t])
    ensures Nearer(s, Goto(s, t, IterateRead(s, q, pc)), t)
  {
    hide Shape;
    assert s.loc[t := Iterate(q, pc)] == s.loc;
  }

  lemma WriteRank(s: State, t: Tid, l: Local)
    requires Shape(s) && t < |s.loc| && l == s.loc[t] && !Reads(s, l) && Enabled(s, t, Run)
    ensures Nearer(s, Step(s, t), t)
  {
    hide Nearer, AfterRead, DoInitNode, DoExchange, DoStore, DoClearHead, DoCasTail, DoAdvance, DoTakeHead, DoDetach;
    match l {
      case Append(q, pc) => AppendRank(s, t, q, pc);
      case Dequeue(q, pc) => DequeueRank(s, t, q, pc);
      case Splice(d, q, pc) => SpliceRank(s, t, d, q, pc);
      case _ =>
    }
  }

  lemma AppendRank(s: State, t: Tid, q: Qid, pc: AppendPc)
    requires Shape(s) && t < |s.loc| && s.loc[t] == Append(q, pc)
    ensures pc.InitNode? ==> Nearer(s, DoInitNode(s, t, q, pc.node), t)
    ensures pc.Exchange? ==> Nearer(s, DoExchange(s, t, q, pc), t)
    ensures pc.Store? ==> Nearer(s, DoStore(s, t, q, pc), t)
  {
    hide PlaceAll;
  }

  lemma DequeueRank(s: State, t: Tid, q: Qid, pc: DequeuePc)
    requires Shape(s) && t < |s.loc| && s.loc[t] == Dequeue(q, pc) && q in s.queue
    ensures pc.ClearHead? ==> Nearer(s, DoClearHead(s, t, q, pc.node), t)
    ensures pc.CasTail? ==> Nearer(s, DoCasTail(s, t, q, pc.node), t)
    ensures pc.Advance? ==> Nearer(s, DoAdvance(s, t, q, pc.node, pc.next), t)
  {
    hide Shape;
  }

  lemma SpliceRank(s: State, t: Tid, d: Qid, q: Qid, pc: SplicePc)
    requires Shape(s) && t < |s.loc| && s.loc[t] == Splice(d, q, pc) && q in s.queue && d in s.queue
    ensures pc.TakeHead? && Head(q) in s.next ==> Nearer(s, DoTakeHead(s, t, d, q), t)
    ensures pc.Detach? ==> Nearer(s, DoDetach(s, t, d, q, pc.first), t)
  {
    hide PlaceAll, Shape;
  }

  // How many steps of the code thread t takes in the run.
  function StepsOf(ev: seq<Event<Action>>, t: Tid): nat {
    if ev == [] then 0 else StepsOf(ev[..|ev| - 1], t) + if ev[|ev| - 1] == Event(t, Run) then 1 else 0
  }

  lemma RankSpared(s: State, e: Event<Action>, s': State, t: Tid)
    requires Goes(s, e, s') && t < |s.loc| && s.loc[t].Append?
    ensures t < |s'.loc| && Rank(s'.loc[t]) == Rank(s.loc[t]) - if e == Event(t, Run) then 1 else 0
    ensures s'.loc[t] == Idle || s'.loc[t].Append?
  {
    hide Apply, Enabled, Rank, Shape;
    if e.action.Run? { RunSpares(s, e.thread, t); } else { BeginSpares(s, e.thread, e.action, t); }
  }

  lemma BeginSpares(s: State, u: Tid, a: Action, t: Tid)
    requires Shape(s) && Enabled(s, u, a) && !a.Run? && t < |s.loc| && s.loc[t].Append?
    ensures t < |Apply(s, u, a).loc| && Apply(s, u, a).loc[t] == s.loc[t]
  {
    hide MayTake, Shape, Knows, Owns;
  }

  lemma RunSpares(s: State, u: Tid, t: Tid)
    requires Shape(s) && Enabled(s, u, Run) && t < |s.loc| && s.loc[t].Append?
    ensures var s' := Apply(s, u, Run);
      && t < |s'.loc| && Rank(s'.loc[t]) == Rank(s.loc[t]) - (if u == t then 1 else 0)
      && (s'.loc[t] == Idle || s'.loc[t].Append?)
  {
    hide Step, Rank;
    SameThreads(s, u);
    StepRank(s, u);
  }

  lemma {:induction false} AppendSteps(run: seq<State>, ev: seq<Event<Action>>, t: Tid, q: Qid, node: Node, i: nat)
    requires CallOf(run, ev, t, EnqueueOp(q, node)) && 1 <= i <= |ev|
    ensures t < |run[i].loc| && Rank(run[i].loc[t]) + StepsOf(ev[..i], t) == 3
    ensures run[i].loc[t].Append? || (i == |ev| && run[i].loc[t] == Idle)
    decreases i
  {
    hide Step, Enabled, MayTake;
    assert Goes(run[i - 1], ev[i - 1], run[i - 1 + 1]);
    assert ev[..i][..i - 1] == ev[..i - 1];
    if i == 1 {
      FirstStepBegins(run, ev, t, q, node);
    } else {
      hide Rank;
      AppendSteps(run, ev, t, q, node, i - 1);
      RankSpared(run[i - 1], ev[i - 1], run[i], t);
    }
  }

  lemma FirstStepBegins(run: seq<State>, ev: seq<Event<Action>>, t: Tid, q: Qid, node: Node)
    requires CallOf(run, ev, t, EnqueueOp(q, node))
    ensures t < |run[1].loc| && run[1].loc[t] == Append(q, InitNode(node)) && StepsOf(ev[..1], t) == 0
  {
    hide MayTake, Step, PhaseOf, Knows;
    assert Goes(run[0], ev[0], run[0 + 1]);
    assert ev[..1][..0] == [];
  }

  /** wfcq_enqueue is wait-free: three accesses of its thread, whatever the other threads do. */
  lemma EnqueueIsWaitFree(run: seq<State>, ev: seq<Event<Action>>, t: Tid, q: Qid, node: Node)
    requires CallOf(run, ev, t, EnqueueOp(q, node))
    ensures StepsOf(ev, t) == 3
  {
    hide Trace, StepsOf;
    AppendSteps(run, ev, t, q, node, |ev|);
    assert ev[..|ev|] == ev;
  }

  // ---- The synchronization table ----

  /** Which roles on one queue exclude each other: a dequeuer all, and a splicer and an iterator each other. */
  lemma TableIs(a: Role, b: Role)
    ensures Excluded(a, b) <==>
              || (a == Dequeuer && b == Dequeuer) || (a == Dequeuer && b == Splicer) || (a == Splicer && b == Dequeuer)
              || (a == Dequeuer && b == Iterator) || (a == Iterator && b == Dequeuer)
              || (a == Splicer && b == Iterator) || (a == Iterator && b == Splicer)
  {
  }
}
