/** Runs of a step machine. `next` gives the state after one step, or `None` where the goroutine
    that would take it stands elsewhere or is blocked. */
module Machines {
  import opened Wrappers

  /** The state after a whole run of steps from `s`, or `None` if some step was blocked. */
  function Run<S, A>(next: (S, A) -> Option<S>, s: S, acts: seq<A>): Option<S> {
    if acts == [] then Some(s)
    else
      var before := Run(next, s, acts[..|acts| - 1]);
      if before.None? then None else next(before.value, acts[|acts| - 1])
  }

  lemma {:induction false} RunAppend<S, A>(next: (S, A) -> Option<S>, s: S, xs: seq<A>, ys: seq<A>)
    ensures Run(next, s, xs + ys) ==
            if Run(next, s, xs).None? then None else Run(next, Run(next, s, xs).value, ys)
  {
    if ys == [] {
      assert xs + ys == xs;
    } else {
      RunAppend(next, s, xs, ys[..|ys| - 1]);
      assert (xs + ys)[..|xs + ys| - 1] == xs + ys[..|ys| - 1];
    }
  }

  lemma OneStep<S, A>(next: (S, A) -> Option<S>, s: S, a: A)
    ensures Run(next, s, [a]) == next(s, a)
  {
    assert [a][..0] == [];
    assert Run(next, s, []) == Some(s);
  }

  /** One more step at the end of a run. */
  lemma StepAfter<S, A>(next: (S, A) -> Option<S>, s: S, acts: seq<A>, a: A)
    ensures Run(next, s, acts + [a]) ==
            if Run(next, s, acts).None? then None else next(Run(next, s, acts).value, a)
  {
    RunAppend(next, s, acts, [a]);
    if Run(next, s, acts).Some? {
      OneStep(next, Run(next, s, acts).value, a);
    }
  }

  lemma TwoSteps<S, A>(next: (S, A) -> Option<S>, s: S, a: A, b: A)
    ensures Run(next, s, [a, b]) == if next(s, a).None? then None else next(next(s, a).value, b)
  {
    OneStep(next, s, a);
    assert [a, b] == [a] + [b];
    StepAfter(next, s, [a], b);
  }

  lemma ThreeSteps<S, A>(next: (S, A) -> Option<S>, s: S, a: A, b: A, c: A)
    requires next(s, a).Some? && next(next(s, a).value, b).Some?
    ensures Run(next, s, [a, b, c]) == next(next(next(s, a).value, b).value, c)
  {
    TwoSteps(next, s, a, b);
    assert [a, b, c] == [a, b] + [c];
    StepAfter(next, s, [a, b], c);
  }

  /** Every prefix of a run is a run, and the step behind it is taken. */
  lemma PrefixRuns<S, A>(next: (S, A) -> Option<S>, s: S, acts: seq<A>, i: nat)
    requires i < |acts| && Run(next, s, acts).Some?
    ensures Run(next, s, acts[..i]).Some? && next(Run(next, s, acts[..i]).value, acts[i]).Some?
  {
    assert acts == acts[..i] + [acts[i]] + acts[i + 1..];
    RunAppend(next, s, acts[..i] + [acts[i]], acts[i + 1..]);
    StepAfter(next, s, acts[..i], acts[i]);
  }
}
