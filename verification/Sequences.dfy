/** Small facts about sequences the models share. */
module Sequences {

  predicate Distinct<T(==)>(s: seq<T>) {
    forall i, j :: 0 <= i < j < |s| ==> s[i] != s[j]
  }

  lemma Assoc<T>(a: seq<T>, b: seq<T>, c: seq<T>)
    ensures a + (b + c) == a + b + c
    ensures a == [] ==> a + b == b
  {
  }

  lemma Halves<T>(s: seq<T>, n: nat)
    requires n <= |s|
    ensures s == s[..n] + s[n..]
  {
  }

  /** step over a sequence, from the left. */
  function Fold<S, T>(step: (S, T) -> S, start: S, xs: seq<T>): S {
    if xs == [] then start else step(Fold(step, start, xs[..|xs| - 1]), xs[|xs| - 1])
  }

  lemma {:induction false} FoldAppend<S, T>(step: (S, T) -> S, start: S, a: seq<T>, b: seq<T>)
    ensures Fold(step, start, a + b) == Fold(step, Fold(step, start, a), b)
  {
    if b == [] {
      assert a + b == a;
    } else {
      FoldAppend(step, start, a, b[..|b| - 1]);
      assert (a + b)[..|a + b| - 1] == a + b[..|b| - 1];
    }
  }
}
