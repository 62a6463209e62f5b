/** Runs of a labelled transition system, shared by every protocol model here. */
module Traces {
  import opened Wrappers

  /** acts[i] takes states[i] to states[i + 1]. */
  datatype Run<S, A> = Run(states: seq<S>, acts: seq<A>)

  ghost predicate WellShaped<S, A>(r: Run<S, A>) {
    |r.states| == |r.acts| + 1
  }

  /** How many of the steps lo .. hi - 1 satisfy p, read with the state they start from. */
  ghost function Tally<S, A>(r: Run<S, A>, lo: nat, hi: nat, p: (S, A) -> bool): nat
    requires lo <= hi <= |r.acts| && WellShaped(r)
    decreases hi
  {
    if lo == hi then 0
    else Tally(r, lo, hi - 1, p) + One(p(r.states[hi - 1], r.acts[hi - 1]))
  }

  /** For bounds that charge k to each step of a tally. */
  lemma Distributes(k: nat, x: nat, y: nat)
    ensures k * (x + y) == k * x + k * y
  {}
}
