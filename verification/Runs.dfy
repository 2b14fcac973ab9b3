/** Runs of a step machine given by its initial states and its step relation. */
module Runs {
  /** s is reached from an initial state in n steps. */
  ghost predicate Reach<S(!new)>(init: S -> bool, next: (S, S) -> bool, s: S, n: nat)
    decreases n
  {
    if n == 0 then init(s) else exists p :: Reach(init, next, p, n - 1) && next(p, s)
  }

  /** What holds initially and is kept by every step holds in every reachable state. */
  lemma {:induction false} Induct<S(!new)>(init: S -> bool, next: (S, S) -> bool, inv: S -> bool, s: S, n: nat)
    requires forall a :: init(a) ==> inv(a)
    requires forall a, b :: inv(a) && next(a, b) ==> inv(b)
    requires Reach(init, next, s, n)
    ensures inv(s)
    decreases n
  {
    if n > 0 {
      var p :| Reach(init, next, p, n - 1) && next(p, s);
      Induct(init, next, inv, p, n - 1);
    }
  }
}
