/** Runs of a step relation: sequences of states joined by labelled steps. */
module Runs {
  ghost predicate IsRun<S(!new), L(!new)>(next: (S, L, S) -> bool, run: seq<S>, labels: seq<L>) {
    && |run| == |labels| + 1
    && forall i {:trigger run[i], labels[i]} :: 0 <= i < |labels| ==> next(run[i], labels[i], run[i + 1])
  }

  /** What holds at the start and is kept by every step holds in every state of a run. */
  lemma {:induction false} Invariant<S(!new), L(!new)>(
    next: (S, L, S) -> bool, inv: S -> bool, run: seq<S>, labels: seq<L>, n: nat)
    requires IsRun(next, run, labels) && n <= |labels| && inv(run[0])
    requires forall s, l, t {:trigger next(s, l, t)} :: inv(s) && next(s, l, t) ==> inv(t)
    ensures inv(run[n])
  {
    if n > 0 {
      Invariant(next, inv, run, labels, n - 1);
      assert next(run[n - 1], labels[n - 1], run[n]);
    }
  }

  /** A run of a relation is a run of every weaker one. */
  lemma {:induction false} Weaken<S(!new), L(!new)>(
    next: (S, L, S) -> bool, weaker: (S, L, S) -> bool, run: seq<S>, labels: seq<L>)
    requires IsRun(next, run, labels)
    requires forall s, l, t {:trigger next(s, l, t)} :: next(s, l, t) ==> weaker(s, l, t)
    ensures IsRun(weaker, run, labels)
  {
    forall i | 0 <= i < |labels| ensures weaker(run[i], labels[i], run[i + 1]) {
      assert next(run[i], labels[i], run[i + 1]);
    }
  }
}
