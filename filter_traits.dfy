/**
 * The `Filter` interface and its combinators. A filter is a state together
 * with a step that maps (state, input) to (new state, output); `filter(&mut
 * self, x)` is one step. `ChainFilter` owns two filters, and its step runs
 * the first then the second, each exactly once. The chain's input type is
 * the first filter's input and its output the second's output, and the
 * shared type parameter M forces the second's input to be the first's
 * output, as the Rust bound `F2: Filter<In = F1::Out>` does.
 */
module FilterTraits {

  datatype Filter<!S, !I, O> = Filter(state: S, step: (S, I) -> (S, O))

  /** `filter(&mut self, x)`: the filter after the step, and the output. */
  function Run<S, I, O>(f: Filter<S, I, O>, x: I): (r: (Filter<S, I, O>, O))
    ensures r.0.step == f.step
    ensures (r.0.state, r.1) == f.step(f.state, x)
  {
    var (s, y) := f.step(f.state, x);
    (Filter(s, f.step), y)
  }

  /** `Filterable::apply`: the value fed to the filter's step, which it then keeps. */
  function Apply<S, I, O>(x: I, f: Filter<S, I, O>): (r: (Filter<S, I, O>, O))
    ensures r.0.step == f.step
    ensures (r.0.state, r.1) == f.step(f.state, x)
  {
    Run(f, x)
  }

  /** The struct returned by `chain`: both filters, stored as given. */
  datatype ChainFilter<!S1, !S2, !I, !M, O> = ChainFilter(f1: Filter<S1, I, M>, f2: Filter<S2, M, O>)

  /** `Filter::chain(self, other)`. */
  function Chain<S1, S2, I, M, O>(f1: Filter<S1, I, M>, f2: Filter<S2, M, O>): (c: ChainFilter<S1, S2, I, M, O>)
    ensures c.f1.state == f1.state && c.f1.step == f1.step
    ensures c.f2.state == f2.state && c.f2.step == f2.step
  {
    ChainFilter(f1, f2)
  }

  /** `ChainFilter::filter`: step f1 on x, then f2 on f1's output. */
  function ChainRun<S1, S2, I, M, O>(c: ChainFilter<S1, S2, I, M, O>, x: I): (ChainFilter<S1, S2, I, M, O>, O)
  {
    var (f1, m) := Run(c.f1, x);
    var (f2, y) := Run(c.f2, m);
    (ChainFilter(f1, f2), y)
  }

  /** The step of a chain viewed as a filter whose state is the pair of sub-states. */
  function ChainStep<S1, S2, I, M, O>(step1: (S1, I) -> (S1, M), step2: (S2, M) -> (S2, O)): ((S1, S2), I) -> ((S1, S2), O)
  {
    (s: (S1, S2), x: I) =>
      var (s1, m) := step1(s.0, x);
      var (s2, y) := step2(s.1, m);
      ((s1, s2), y)
  }

  /** A chain is itself a `Filter`, so chains nest. */
  function AsFilter<S1, S2, I, M, O>(c: ChainFilter<S1, S2, I, M, O>): Filter<(S1, S2), I, O>
  {
    Filter((c.f1.state, c.f2.state), ChainStep(c.f1.step, c.f2.step))
  }

  /**
   * One chain step feeds f1's output into f2, steps each exactly once and
   * keeps both steps; the chain seen as a filter agrees with it.
   */
  lemma ChainRunsBothOnce<S1, S2, I, M, O>(c: ChainFilter<S1, S2, I, M, O>, x: I)
    ensures var (c', y) := ChainRun(c, x);
      var (g1, m) := Run(c.f1, x);
      var (g2, z) := Run(c.f2, m);
      c'.f1.state == g1.state && c'.f2.state == g2.state && y == z &&
      c'.f1.step == c.f1.step && c'.f2.step == c.f2.step
    ensures var (c', y) := ChainRun(c, x);
      var (d, z) := Run(AsFilter(c), x);
      d.state == (c'.f1.state, c'.f2.state) && z == y
  {
  }

  /**
   * Nested chains compose left to right: chaining (f1 then f2) with f3 runs
   * f1, f2 and f3 in that order on one input, and the result does not
   * depend on how the chain is bracketed.
   */
  lemma NestedChainsComposeLeftToRight<S1, S2, S3, I, M, N, O>(
    f1: Filter<S1, I, M>, f2: Filter<S2, M, N>, f3: Filter<S3, N, O>, x: I)
    ensures var (r, y) := Run(AsFilter(Chain(AsFilter(Chain(f1, f2)), f3)), x);
      var (g1, m) := Run(f1, x);
      var (g2, n) := Run(f2, m);
      var (g3, z) := Run(f3, n);
      r.state == ((g1.state, g2.state), g3.state) && y == z
    ensures Run(AsFilter(Chain(AsFilter(Chain(f1, f2)), f3)), x).1
         == Run(AsFilter(Chain(f1, AsFilter(Chain(f2, f3)))), x).1
  {
    var (g1, m) := Run(f1, x);
    var (g2, n) := Run(f2, m);
    var (g3, z) := Run(f3, n);
    var inner := AsFilter(Chain(f1, f2));
    assert Run(inner, x).0.state == (g1.state, g2.state) && Run(inner, x).1 == n;
    var right := AsFilter(Chain(f2, f3));
    assert Run(right, m).1 == z;
  }
}
