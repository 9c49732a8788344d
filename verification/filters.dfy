/** The filter abstraction shared by every filter of the pipeline.

A filter is a deterministic state machine: `update` consumes one measurement
and yields the next state together with the value the filter returns for it,
and `get` reads the current estimate off a state without changing it. A class
instance with mutable fields becomes a state value threaded through `Run`.
 */
module Filters {

  /** A filter over states of type S: one step and one read-out. */
  datatype Filter<!S> = Filter(update: (S, real) -> (S, real), get: S -> real)

  /** The state a filter ends in after a sequence of updates, and the values
      those updates returned, in order. */
  datatype Trace<!S> = Trace(state: S, outputs: seq<real>)

  /** Feeds xs to the filter one after another, starting from state s. */
  function Run<S>(f: Filter<S>, s: S, xs: seq<real>): (t: Trace<S>)
    ensures |t.outputs| == |xs|
    ensures |xs| > 0 ==> t.outputs[0] == f.update(s, xs[0]).1
    decreases |xs|
  {
    if |xs| == 0 then Trace(s, [])
    else
      var (s1, y) := f.update(s, xs[0]);
      var rest := Run(f, s1, xs[1..]);
      Trace(rest.state, [y] + rest.outputs)
  }

  /** What `get` reports after each of the updates of `Run(f, s, xs)`. */
  function Readings<S>(f: Filter<S>, s: S, xs: seq<real>): (r: seq<real>)
    ensures |r| == |xs|
    decreases |xs|
  {
    if |xs| == 0 then []
    else
      var s1 := f.update(s, xs[0]).0;
      [f.get(s1)] + Readings(f, s1, xs[1..])
  }

  /** A filter whose update returns exactly what a following `get` reports. */
  ghost predicate Coherent<S(!new)>(f: Filter<S>)
  {
    forall s: S, x: real :: f.update(s, x).1 == f.get(f.update(s, x).0)
  }

  /** One instance of coherence. */
  lemma CoherentStep<S(!new)>(f: Filter<S>, s: S, x: real)
    requires Coherent(f)
    ensures f.update(s, x).1 == f.get(f.update(s, x).0)
  {
  }

  /** For a coherent filter the values a run returns are the readings after each step. */
  lemma {:induction false} CoherentReadings<S(!new)>(f: Filter<S>, s: S, xs: seq<real>)
    requires Coherent(f)
    ensures Readings(f, s, xs) == Run(f, s, xs).outputs
    decreases |xs|
  {
    if |xs| > 0 {
      CoherentStep(f, s, xs[0]);
      CoherentReadings(f, f.update(s, xs[0]).0, xs[1..]);
    }
  }

  /** For a coherent filter, after a non-empty run `get` reports the last value returned. */
  lemma {:induction false} RunLastIsGet<S(!new)>(f: Filter<S>, s: S, xs: seq<real>)
    requires Coherent(f)
    requires |xs| > 0
    ensures Run(f, s, xs).outputs[|xs| - 1] == f.get(Run(f, s, xs).state)
    decreases |xs|
  {
    if |xs| > 1 {
      RunLastIsGet(f, f.update(s, xs[0]).0, xs[1..]);
    } else {
      CoherentStep(f, s, xs[0]);
    }
  }
}
