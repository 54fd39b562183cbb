/** A loop over a sequence that stops at the first failing step, as a function. */
module Folds {
  import opened Wrappers

  function FoldTo<S, X, E>(step: (S, X) -> Result<S, E>, s: S, xs: seq<X>, n: nat): Result<S, E>
    requires n <= |xs|
  {
    if n == 0 then Success(s)
    else
      var r := FoldTo(step, s, xs, n - 1);
      if r.Failure? then r else step(r.value, xs[n - 1])
  }

  function Fold<S, X, E>(step: (S, X) -> Result<S, E>, s: S, xs: seq<X>): Result<S, E> {
    FoldTo(step, s, xs, |xs|)
  }

  lemma {:induction false} FoldToPrefix<S, X, E>(step: (S, X) -> Result<S, E>, s: S, xs: seq<X>, ys: seq<X>, n: nat)
    requires n <= |xs| <= |ys| && forall i | 0 <= i < n :: xs[i] == ys[i]
    ensures FoldTo(step, s, xs, n) == FoldTo(step, s, ys, n)
  {
    if n > 0 { FoldToPrefix(step, s, xs, ys, n - 1); }
  }

  lemma {:induction false} FoldToConcat<S, X, E>(step: (S, X) -> Result<S, E>, s: S, xs: seq<X>, ys: seq<X>, n: nat)
    requires n <= |ys|
    ensures var r := Fold(step, s, xs);
            FoldTo(step, s, xs + ys, |xs| + n) == if r.Failure? then r else FoldTo(step, r.value, ys, n)
  {
    if n > 0 {
      FoldToConcat(step, s, xs, ys, n - 1);
      assert (xs + ys)[|xs| + n - 1] == ys[n - 1];
    } else {
      FoldToPrefix(step, s, xs, xs + ys, |xs|);
    }
  }

  // Folding in one go is folding the first part and then the second from where it ends.
  lemma {:induction false} FoldConcat<S, X, E>(step: (S, X) -> Result<S, E>, s: S, zs: seq<X>, xs: seq<X>, ys: seq<X>)
    requires zs == xs + ys
    ensures var r := Fold(step, s, xs);
            Fold(step, s, zs) == if r.Failure? then r else Fold(step, r.value, ys)
  {
    FoldToConcat(step, s, xs, ys, |ys|);
  }

  // Once a step fails the rest is skipped.
  lemma {:induction false} FailureStays<S, X, E>(step: (S, X) -> Result<S, E>, s: S, xs: seq<X>, n: nat, m: nat)
    requires n <= m <= |xs| && FoldTo(step, s, xs, n).Failure?
    ensures FoldTo(step, s, xs, m) == FoldTo(step, s, xs, n)
  {
    if n < m { FailureStays(step, s, xs, n, m - 1); }
  }
}
