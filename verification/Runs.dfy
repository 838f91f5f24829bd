/** Finite runs of a step relation. */
module Runs {

  /** `t` is reached from `s` by exactly `n` steps of `next`. */
  ghost predicate Reaches<S(!new)>(next: (S, S) -> bool, s: S, t: S, n: nat)
    decreases n
  {
    if n == 0 then s == t else exists u :: next(s, u) && Reaches(next, u, t, n - 1)
  }

  lemma {:induction false} ReachesStep<S(!new)>(next: (S, S) -> bool, s: S, u: S, t: S, n: nat)
    requires next(s, u) && Reaches(next, u, t, n)
    ensures Reaches(next, s, t, n + 1)
  {
  }

  lemma {:induction false} ReachesAppend<S(!new)>(next: (S, S) -> bool, s: S, t: S, u: S, n: nat)
    requires Reaches(next, s, t, n) && next(t, u)
    ensures Reaches(next, s, u, n + 1)
    decreases n
  {
    if n == 0 {
      assert Reaches(next, u, u, 0);
    } else {
      var v :| next(s, v) && Reaches(next, v, t, n - 1);
      ReachesAppend(next, v, t, u, n - 1);
    }
  }

  /** What every step keeps, every run keeps. */
  lemma {:induction false} ReachesKeeps<S(!new)>(next: (S, S) -> bool, inv: S -> bool, s: S, t: S, n: nat)
    requires forall a, b :: inv(a) && next(a, b) ==> inv(b)
    requires inv(s) && Reaches(next, s, t, n)
    ensures inv(t)
    decreases n
  {
    if n > 0 {
      var u :| next(s, u) && Reaches(next, u, t, n - 1);
      ReachesKeeps(next, inv, u, t, n - 1);
    }
  }

  /** A relation that goes on until it is done, and brings down a measure, gets done. */
  lemma {:induction false} ReachesEnd<S(!new)>(next: (S, S) -> bool, good: S -> bool, done: S -> bool,
                                               measure: S -> nat, s: S) returns (t: S, n: nat)
    requires forall a, b :: good(a) && next(a, b) ==> good(b) && measure(b) < measure(a)
    requires forall a :: good(a) && !done(a) ==> exists b :: next(a, b)
    requires good(s)
    ensures Reaches(next, s, t, n) && done(t)
    decreases measure(s)
  {
    if done(s) {
      t, n := s, 0;
    } else {
      var u :| next(s, u);
      t, n := ReachesEnd(next, good, done, measure, u);
      ReachesStep(next, s, u, t, n);
      n := n + 1;
    }
  }

  /** Runs of steps that bring down a measure are bounded by it, and stand in every transitive relation
      that the steps stand in. */
  lemma {:induction false} ReachesGain<S(!new)>(next: (S, S) -> bool, keeps: (S, S) -> bool, measure: S -> nat, s: S, t: S, n: nat)
    requires forall a, b :: next(a, b) ==> keeps(a, b) && measure(b) < measure(a)
    requires forall a :: keeps(a, a)
    requires forall a, b, c :: keeps(a, b) && keeps(b, c) ==> keeps(a, c)
    requires Reaches(next, s, t, n)
    ensures keeps(s, t) && n + measure(t) <= measure(s)
    decreases n
  {
    if n > 0 {
      var u :| next(s, u) && Reaches(next, u, t, n - 1);
      ReachesGain(next, keeps, measure, u, t, n - 1);
    }
  }
}
