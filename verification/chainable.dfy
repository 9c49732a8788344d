/** Sequential composition of two filters (`ChainableFilter`).

The chain owns an upstream filter A and a downstream filter B; its state is
the pair of their states and it has no numeric state of its own. An update
feeds the measurement to A, feeds the value A returns to B, and returns B's
estimate as `get` reads it afterwards.
 */
module Chainable {
  import opened Filters

  /** One chain update: A steps on the measurement, B steps on A's result. */
  function ChainUpdate<A, B>(fa: Filter<A>, fb: Filter<B>, p: (A, B), x: real): (r: ((A, B), real))
    ensures r.0.0 == fa.update(p.0, x).0
    ensures r.0.1 == fb.update(p.1, fa.update(p.0, x).1).0
    ensures r.1 == ChainGet(fb, r.0)
  {
    var (a1, ya) := fa.update(p.0, x);
    var (b1, _) := fb.update(p.1, ya);
    ((a1, b1), ChainGet(fb, (a1, b1)))
  }

  /** The chain's estimate is the downstream filter's estimate; reading it
      changes neither filter. */
  function ChainGet<A, B>(fb: Filter<B>, p: (A, B)): real
  {
    fb.get(p.1)
  }

  /** The chain is itself a filter over the pair of states: its `update` is a
      chain update and its `get` reads B's estimate. */
  function ChainFilter<A, B>(fa: Filter<A>, fb: Filter<B>): Filter<(A, B)>
  {
    Filter((p: (A, B), x: real) => ChainUpdate(fa, fb, p, x), (p: (A, B)) => ChainGet(fb, p))
  }

  /** Whatever A and B are, the chain's update returns what its `get` then reports. */
  lemma ChainCoherent<A(!new), B(!new)>(fa: Filter<A>, fb: Filter<B>)
    ensures Coherent(ChainFilter(fa, fb))
  {
    var c := ChainFilter(fa, fb);
    forall p: (A, B), x: real
      ensures c.update(p, x).1 == c.get(c.update(p, x).0)
    {
      assert c.update(p, x) == ChainUpdate(fa, fb, p, x);
    }
  }

  /** Running the chain over xs leaves A where a standalone A fed xs ends, leaves
      B where a standalone B fed A's outputs ends, and returns B's readings after
      each of those steps. */
  lemma {:induction false} ChainRun<A, B>(fa: Filter<A>, fb: Filter<B>, a: A, b: B, xs: seq<real>)
    ensures Run(ChainFilter(fa, fb), (a, b), xs).state.0 == Run(fa, a, xs).state
    ensures Run(ChainFilter(fa, fb), (a, b), xs).state.1 == Run(fb, b, Run(fa, a, xs).outputs).state
    ensures Run(ChainFilter(fa, fb), (a, b), xs).outputs == Readings(fb, b, Run(fa, a, xs).outputs)
    decreases |xs|
  {
    if |xs| > 0 {
      var c := ChainFilter(fa, fb);
      var (a1, ya) := fa.update(a, xs[0]);
      var b1 := fb.update(b, ya).0;
      assert c.update((a, b), xs[0]) == ChainUpdate(fa, fb, (a, b), xs[0]);
      assert c.update((a, b), xs[0]).0 == (a1, b1);
      ChainRun(fa, fb, a1, b1, xs[1..]);
      var ys := Run(fa, a, xs).outputs;
      assert ys == [ya] + Run(fa, a1, xs[1..]).outputs;
      assert ys[0] == ya;
      assert ys[1..] == Run(fa, a1, xs[1..]).outputs;
    }
  }

  /** When B's update returns its own reading, the chain's outputs are exactly
      B's outputs on A's outputs: chain(A, B).update(x) is B.update(A.update(x)). */
  lemma ChainRunCoherent<A, B(!new)>(fa: Filter<A>, fb: Filter<B>, a: A, b: B, xs: seq<real>)
    requires Coherent(fb)
    ensures Run(ChainFilter(fa, fb), (a, b), xs).outputs == Run(fb, b, Run(fa, a, xs).outputs).outputs
  {
    ChainRun(fa, fb, a, b, xs);
    CoherentReadings(fb, b, Run(fa, a, xs).outputs);
  }
}
