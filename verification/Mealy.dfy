/** Every stage of the daemon is a loop that carries a state, reads one input and emits a
    list of outputs.  This module defines such a run once, and the two facts used everywhere:
    a run over a concatenation is the composition of the runs, and a state predicate kept by
    every step is kept by the run. */
module Mealy {

  /** Folds `step` over `xs`, collecting the final state and all outputs in order. */
  function Run<S, I, O>(step: (S, I) -> (S, seq<O>), s: S, xs: seq<I>): (S, seq<O>)
  {
    if xs == [] then (s, [])
    else
      var (mid, out) := Run(step, s, xs[..|xs| - 1]);
      var (fin, last) := step(mid, xs[|xs| - 1]);
      (fin, out + last)
  }

  lemma {:induction false} RunPrefix<S, I, O>(step: (S, I) -> (S, seq<O>), s: S, xs: seq<I>, i: nat)
    requires i < |xs|
    ensures Run(step, s, xs[..i + 1]) ==
            (step(Run(step, s, xs[..i]).0, xs[i]).0, Run(step, s, xs[..i]).1 + step(Run(step, s, xs[..i]).0, xs[i]).1)
  {
    assert xs[..i + 1][..i] == xs[..i];
  }

  lemma {:induction false} RunAppend<S, I, O>(step: (S, I) -> (S, seq<O>), s: S, xs: seq<I>, x: I)
    ensures Run(step, s, xs + [x]).0 == step(Run(step, s, xs).0, x).0
    ensures Run(step, s, xs + [x]).1 == Run(step, s, xs).1 + step(Run(step, s, xs).0, x).1
  {
    assert (xs + [x])[..|xs|] == xs;
  }

  lemma {:induction false} RunConcat<S, I, O>(step: (S, I) -> (S, seq<O>), s: S, xs: seq<I>, ys: seq<I>)
    ensures Run(step, s, xs + ys).0 == Run(step, Run(step, s, xs).0, ys).0
    ensures Run(step, s, xs + ys).1 == Run(step, s, xs).1 + Run(step, Run(step, s, xs).0, ys).1
    decreases |ys|
  {
    if ys == [] {
      assert xs + ys == xs;
    } else {
      var init := ys[..|ys| - 1];
      RunConcat(step, s, xs, init);
      assert (xs + ys)[..|xs + ys| - 1] == xs + init;
    }
  }

  lemma {:induction false} RunCons<S, I, O>(step: (S, I) -> (S, seq<O>), s: S, x: I, ys: seq<I>)
    ensures Run(step, s, [x]) == step(s, x)
    ensures Run(step, s, [x] + ys) ==
            (Run(step, step(s, x).0, ys).0, step(s, x).1 + Run(step, step(s, x).0, ys).1)
  {
    assert [x][..0] == [];
    assert [] + step(s, x).1 == step(s, x).1;
    RunConcat(step, s, [x], ys);
  }

  /** The state alone, for automata that emit nothing. */
  function Fold<S, I>(next: (S, I) -> S, s: S, xs: seq<I>): S {
    if xs == [] then s else next(Fold(next, s, xs[..|xs| - 1]), xs[|xs| - 1])
  }

  /** Every input is allowed in the state in which it arrives. */
  predicate Accepts<S, I>(next: (S, I) -> S, ok: (S, I) -> bool, s: S, xs: seq<I>) {
    xs == []
    || (Accepts(next, ok, s, xs[..|xs| - 1]) && ok(Fold(next, s, xs[..|xs| - 1]), xs[|xs| - 1]))
  }

  lemma {:induction false} AcceptsConcat<S, I>(next: (S, I) -> S, ok: (S, I) -> bool, s: S, xs: seq<I>, ys: seq<I>)
    ensures Fold(next, s, xs + ys) == Fold(next, Fold(next, s, xs), ys)
    ensures Accepts(next, ok, s, xs + ys) <==> Accepts(next, ok, s, xs) && Accepts(next, ok, Fold(next, s, xs), ys)
    decreases |ys|
  {
    if ys == [] {
      assert xs + ys == xs;
    } else {
      AcceptsConcat(next, ok, s, xs, ys[..|ys| - 1]);
      assert (xs + ys)[..|xs + ys| - 1] == xs + ys[..|ys| - 1];
    }
  }

  lemma {:induction false} AcceptsOne<S, I>(next: (S, I) -> S, ok: (S, I) -> bool, s: S, x: I)
    ensures Fold(next, s, [x]) == next(s, x)
    ensures Accepts(next, ok, s, [x]) <==> ok(s, x)
  {
    assert [x][..0] == [];
  }
}
