/**
 * The low- and high-pass filters of a voice, kept opaque: their signal
 * processing is a response function of everything they were fed, each
 * sample tagged with the cutoff and Q in force when it arrived. Only the
 * parameter updates `set_cutoff` and `set_q` and the fact that `filter`
 * consumes one sample are modelled.
 */
module Pass {
  import Scales

  /** The low-pass filter's Q after `BiquadLowPassFilter::new`. */
  const LOW_PASS_Q: real := 0.72

  datatype Tap = Tap(x: real, cutoffFreq: real, q: real)

  datatype PassState = PassState(cutoffFreq: real, q: real, history: seq<Tap>)

  function WithCutoff(s: PassState, f: real): PassState
  {
    s.(cutoffFreq := f)
  }

  function WithQ(s: PassState, q: real): PassState
  {
    s.(q := q)
  }

  /** One `filter` call records the sample under the current parameters. */
  function Feed(s: PassState, x: real): PassState
  {
    s.(history := s.history + [Tap(x, s.cutoffFreq, s.q)])
  }

  /** The parameter updates commute with each other and leave the history alone. */
  lemma ParameterUpdatesIndependent(s: PassState, f: real, q: real)
    ensures WithQ(WithCutoff(s, f), q) == WithCutoff(WithQ(s, q), f)
    ensures WithCutoff(s, f).q == s.q && WithQ(s, q).cutoffFreq == s.cutoffFreq
    ensures WithCutoff(s, f).history == s.history && WithQ(s, q).history == s.history
    ensures WithCutoff(WithCutoff(s, q), f) == WithCutoff(s, f)
  {
  }

  /** Feeding extends the history by exactly the new sample and keeps the parameters. */
  lemma FeedAppends(s: PassState, x: real)
    ensures |Feed(s, x).history| == |s.history| + 1
    ensures Feed(s, x).history[..|s.history|] == s.history
    ensures Feed(s, x).history[|s.history|] == Tap(x, s.cutoffFreq, s.q)
    ensures Feed(s, x).cutoffFreq == s.cutoffFreq && Feed(s, x).q == s.q
  {
  }

  class PassFilter {
    var cutoffFreq: real
    var q: real
    var history: seq<Tap>
    /** The filter's output as a function of its tagged input history. */
    const response: seq<Tap> -> real

    function State(): PassState
      reads this
    {
      PassState(cutoffFreq, q, history)
    }

    /** `BiquadLowPassFilter::new`: cutoff at the reference frequency, Q 0.72. */
    constructor LowPass(response: seq<Tap> -> real)
      ensures State() == PassState(Scales.REFERENCE_FREQ, LOW_PASS_Q, [])
      ensures this.response == response
    {
      cutoffFreq := Scales.REFERENCE_FREQ;
      q := LOW_PASS_Q;
      history := [];
      this.response := response;
    }

    /** A filter whose initial parameters are given (the high-pass constructor is not part of this model). */
    constructor (cutoffFreq: real, q: real, response: seq<Tap> -> real)
      ensures State() == PassState(cutoffFreq, q, [])
      ensures this.response == response
    {
      this.cutoffFreq := cutoffFreq;
      this.q := q;
      history := [];
      this.response := response;
    }

    method SetCutoff(f: real)
      modifies this
      ensures State() == WithCutoff(old(State()), f)
    {
      cutoffFreq := f;
    }

    method SetQ(q: real)
      modifies this
      ensures State() == WithQ(old(State()), q)
    {
      this.q := q;
    }

    method Filter(x: real) returns (y: real)
      modifies this
      ensures State() == Feed(old(State()), x)
      ensures y == response(history)
    {
      history := history + [Tap(x, cutoffFreq, q)];
      y := response(history);
    }
  }
}
