/**
 * Calls on a shared object, as the threads that make them see them: a call is asked for, takes effect
 * at one step of its thread, or at two, and returns; whatever other threads do meanwhile.
 */
module Calls {
  // Where a thread stands with its call.  Midway: the first of two effects has happened; Answered: what is
  // left of the call changes nothing that a caller can see.
  datatype Phase<Op, M, R> = NoCall | Asked(op: Op) | Midway(mid: M) | Answered(answer: R)

  /**
   * An object as its callers see it.  A call of `op` by thread t takes effect at once, by a step that is
   * `whole`, or by a `first` step, which leaves the call holding `mid`, and a `last` one; steps that are
   * `quiet` do nothing that a caller can see.
   */
  datatype Object<!S(!new), !Op, !M(!new), !R> = Object(
    phase: (S, nat) -> Phase<Op, M, R>,
    result: (S, nat) -> R,
    quiet: (S, S) -> bool,
    whole: (S, S, nat, Op, R) -> bool,
    first: (S, S, nat, Op, M) -> bool,
    last: (S, S, nat, M, R) -> bool)

  /** A step of thread t keeps to the phases of its call; outside a call it is quiet. */
  ghost predicate Keeps<S(!new), Op, M(!new), R>(o: Object<S, Op, M, R>, s: S, s': S, t: nat) {
    match o.phase(s, t)
    case NoCall => (o.phase(s', t).NoCall? || o.phase(s', t).Asked?) && o.quiet(s, s')
    case Asked(op) =>
      (match o.phase(s', t)
       case Asked(op') => op' == op && o.quiet(s, s')
       case Midway(m) => o.first(s, s', t, op, m)
       case Answered(r) => o.whole(s, s', t, op, r)
       case NoCall => o.whole(s, s', t, op, o.result(s', t)))
    case Midway(m) =>
      (match o.phase(s', t)
       case Asked(_) => false
       case Midway(m') => m' == m && o.quiet(s, s')
       case Answered(r) => o.last(s, s', t, m, r)
       case NoCall => o.last(s, s', t, m, o.result(s', t)))
    case Answered(r) =>
      (match o.phase(s', t)
       case Answered(r') => r' == r && o.quiet(s, s')
       case NoCall => o.result(s', t) == r && o.quiet(s, s')
       case _ => false)
  }

  /** Other threads do not touch the call of thread t. */
  ghost predicate Spares<S(!new), Op, M(!new), R>(o: Object<S, Op, M, R>, s: S, s': S, t: nat) {
    o.phase(s', t) == o.phase(s, t) && o.result(s', t) == o.result(s, t)
  }

  // A step of a run, with the thread that takes it.
  datatype Event<A> = Event(thread: nat, action: A)

  function Threads<A>(ev: seq<Event<A>>): (who: seq<nat>)
    ensures |who| == |ev| && forall i :: 0 <= i < |ev| ==> who[i] == ev[i].thread
  {
    if ev == [] then [] else Threads(ev[..|ev| - 1]) + [ev[|ev| - 1].thread]
  }

  // Step i of the run, by thread who[i], keeps to the call of thread t.
  ghost predicate StepOk<S(!new), Op, M(!new), R>(o: Object<S, Op, M, R>, run: seq<S>, who: seq<nat>, t: nat, i: nat)
    requires |run| == |who| + 1 && i < |who|
  {
    if who[i] == t then Keeps(o, run[i], run[i + 1], t) else Spares(o, run[i], run[i + 1], t)
  }

  /** The first step begins a call of op by thread t, and the last one returns from it. */
  ghost predicate Complete<S(!new), Op, M(!new), R>(o: Object<S, Op, M, R>, run: seq<S>, who: seq<nat>, t: nat, op: Op) {
    && |run| == |who| + 1 >= 2 && who[0] == t && o.phase(run[0], t).NoCall? && o.phase(run[1], t) == Asked(op)
    && (forall i :: 1 <= i < |who| ==> !o.phase(run[i], t).NoCall?) && o.phase(run[|who|], t).NoCall?
    && (forall i :: 0 <= i < |who| ==> StepOk(o, run, who, t, i))
  }

  // Of the steps of thread t before step n, only j and k may do something that a caller sees.
  ghost predicate QuietBut<S(!new), Op, M(!new), R>(o: Object<S, Op, M, R>, run: seq<S>, who: seq<nat>, t: nat, n: nat, j: int, k: int)
    requires |run| == |who| + 1 && n <= |who|
  {
    forall i :: 0 <= i < n && who[i] == t && i != j && i != k ==> o.quiet(run[i], run[i + 1])
  }

  ghost predicate FirstAt<S(!new), Op, M(!new), R>(o: Object<S, Op, M, R>, run: seq<S>, who: seq<nat>, t: nat, op: Op, j: int, m: M)
    requires |run| == |who| + 1
  {
    0 <= j < |who| && who[j] == t && o.first(run[j], run[j + 1], t, op, m)
  }

  ghost predicate LastAt<S(!new), Op, M(!new), R>(o: Object<S, Op, M, R>, run: seq<S>, who: seq<nat>, t: nat, k: int, m: M, r: R)
    requires |run| == |who| + 1
  {
    0 <= k < |who| && who[k] == t && o.last(run[k], run[k + 1], t, m, r)
  }

  /** The call has taken its whole effect before step n, at step k or at steps j and k, and its answer is r. */
  ghost predicate Done<S(!new), Op, M(!new), R>(o: Object<S, Op, M, R>, run: seq<S>, who: seq<nat>, t: nat, op: Op, n: nat, j: int, k: int, r: R)
    requires |run| == |who| + 1 && n <= |who|
  {
    && 1 <= j <= k < n && who[j] == t && who[k] == t && QuietBut(o, run, who, t, n, j, k)
    && if j == k then o.whole(run[k], run[k + 1], t, op, r)
       else exists m :: FirstAt(o, run, who, t, op, j, m) && LastAt(o, run, who, t, k, m, r)
  }

  // What is known of the call after n steps: j is its first effect, k its last, or 0.
  ghost predicate SoFar<S(!new), Op, M(!new), R>(o: Object<S, Op, M, R>, run: seq<S>, who: seq<nat>, t: nat, op: Op, n: nat, j: int, k: int)
    requires |run| == |who| + 1 && n <= |who|
  {
    match o.phase(run[n], t)
    case Asked(op') => op' == op && QuietBut(o, run, who, t, n, 0, 0)
    case Midway(m) => 1 <= j < n && QuietBut(o, run, who, t, n, j, 0) && FirstAt(o, run, who, t, op, j, m)
    case Answered(r) => Done(o, run, who, t, op, n, j, k, r)
    case NoCall => Done(o, run, who, t, op, n, j, k, o.result(run[n], t))
  }

  lemma OneMoreStep<S(!new), Op, M(!new), R>(o: Object<S, Op, M, R>, run: seq<S>, who: seq<nat>, t: nat, op: Op, n: nat, j: int, k: int)
    returns (j': int, k': int)
    requires |run| == |who| + 1 && 1 <= n < |who| && !o.phase(run[n], t).NoCall? && o.quiet(run[0], run[1])
    requires StepOk(o, run, who, t, n) && SoFar(o, run, who, t, op, n, j, k)
    ensures SoFar(o, run, who, t, op, n + 1, j', k')
  {
    var now, next := o.phase(run[n], t), o.phase(run[n + 1], t);
    j', k' := j, k;
    if who[n] == t && now != next {
      if now.Asked? { j' := n; }
      if !now.Answered? { k' := n; }
    }
    if who[n] == t && now.Midway? && (next.Answered? || next.NoCall?) {
      assert FirstAt(o, run, who, t, op, j, now.mid);
      assert LastAt(o, run, who, t, n, now.mid, if next.Answered? then next.answer else o.result(run[n + 1], t));
    }
  }

  lemma {:induction false} After<S(!new), Op, M(!new), R>(o: Object<S, Op, M, R>, run: seq<S>, who: seq<nat>, t: nat, op: Op, n: nat)
    returns (j: int, k: int)
    requires Complete(o, run, who, t, op) && 1 <= n <= |who|
    ensures SoFar(o, run, who, t, op, n, j, k)
    decreases n
  {
    assert StepOk(o, run, who, t, 0) && o.quiet(run[0], run[0 + 1]);
    if n == 1 {
      j, k := 0, 0;
    } else {
      j, k := After(o, run, who, t, op, n - 1);
      j, k := OneMoreStep(o, run, who, t, op, n - 1, j, k);
    }
  }

  /**
   * A call takes effect exactly once: at one step k of its thread, between its beginning and its return, or
   * at two, j and k, the second of which acts on what the first left the call with.  Every other step of the
   * call is quiet, and what the effect says is what the call returns.
   */
  lemma TakesEffectOnce<S(!new), Op, M(!new), R>(o: Object<S, Op, M, R>, run: seq<S>, who: seq<nat>, t: nat, op: Op)
    returns (j: nat, k: nat)
    requires Complete(o, run, who, t, op)
    ensures Done(o, run, who, t, op, |who|, j, k, o.result(run[|who|], t))
  {
    var first, last := After(o, run, who, t, op, |who|);
    j, k := first, last;
  }
}
