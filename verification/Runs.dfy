/** Runs of a machine: actions performed one after the other. */
module Runs {
  function Fold<S, A>(step: (S, A) -> S, s: S, acts: seq<A>): S
    decreases |acts|
  {
    if acts == [] then s else Fold(step, step(s, acts[0]), acts[1..])
  }

  lemma {:induction false} FoldAppend<S, A>(step: (S, A) -> S, s: S, p: seq<A>, q: seq<A>)
    ensures Fold(step, s, p + q) == Fold(step, Fold(step, s, p), q)
    decreases |p|
  {
    if p == [] {
      assert p + q == q;
    } else {
      FoldAppend(step, step(s, p[0]), p[1..], q);
      assert (p + q)[1..] == p[1..] + q;
    }
  }

  lemma FoldOne<S, A>(step: (S, A) -> S, s: S, a: A)
    ensures Fold(step, s, [a]) == step(s, a)
  {
    assert Fold(step, step(s, a), []) == step(s, a);
  }

  /** A property every step keeps holds at the end of every run. */
  lemma {:induction false} FoldKeeps<S(!new), A(!new)>(step: (S, A) -> S, inv: S -> bool, s: S, acts: seq<A>)
    requires inv(s)
    requires forall t, a :: inv(t) ==> inv(step(t, a))
    ensures inv(Fold(step, s, acts))
    decreases |acts|
  {
    if acts != [] {
      FoldKeeps(step, inv, step(s, acts[0]), acts[1..]);
    }
  }
}
