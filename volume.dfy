/**
 * Volume stages: an `Amplifier` whose gain is set from outside and whose
 * output is clamped just inside [-1, 1], and a weighted `Mixer` of N inputs.
 */
module Volume {

  const CLIP: real := 0.99

  /** `f32::clamp(lo, hi)` for lo <= hi. */
  function Clamp(v: real, lo: real, hi: real): (r: real)
    requires lo <= hi
    ensures lo <= r <= hi
    ensures lo <= v <= hi ==> r == v
    ensures v < lo ==> r == lo
    ensures v > hi ==> r == hi
  {
    if v < lo then lo else if v > hi then hi else v
  }

  /** The output of an amplifier with gain `gain` for input x. */
  function Amplify(gain: real, x: real): (y: real)
    ensures -CLIP <= y <= CLIP
  {
    Clamp(x * gain, -CLIP, CLIP)
  }

  /** Inside the clipping band the amplifier is exactly linear; with zero gain it is silent. */
  lemma AmplifyLinearInBand(gain: real, x: real)
    ensures -CLIP <= x * gain <= CLIP ==> Amplify(gain, x) == x * gain
    ensures Amplify(0.0, x) == 0.0
    ensures x * gain >= CLIP ==> Amplify(gain, x) == CLIP
  {
  }

  class Amplifier {
    var gain: real

    /** `Amplifier::new`: gain 0, so the output is 0 until a gain is set. */
    constructor ()
      ensures gain == 0.0
    {
      gain := 0.0;
    }

    method SetGain(gain: real)
      modifies this
      ensures this.gain == gain
    {
      this.gain := gain;
    }

    /** Stateless: nothing changes, whatever the gain and the input. */
    method Filter(x: real) returns (y: real)
      ensures y == Amplify(gain, x)
      ensures -CLIP <= y <= CLIP
    {
      y := Clamp(x * gain, -CLIP, CLIP);
    }
  }

  /** `Mixer<N>`: one level per input. */
  datatype Mixer = Mixer(levels: seq<real>)

  /** `Mixer::<N>::new`: every level is 1/N. */
  function NewMixer(n: nat): (m: Mixer)
    ensures |m.levels| == n
    ensures forall i :: 0 <= i < n ==> m.levels[i] * n as real == 1.0
  {
    Mixer(seq(n, i requires 0 <= i < n => 1.0 / n as real))
  }

  /** The sum of xs, accumulated from the front. */
  function Sum(xs: seq<real>): real
  {
    if |xs| == 0 then 0.0 else Sum(xs[..|xs| - 1]) + xs[|xs| - 1]
  }

  /** The products of zipped levels and inputs, summed from the front. */
  function Weighted(levels: seq<real>, x: seq<real>): real
    requires |levels| == |x|
  {
    if |x| == 0 then 0.0
    else Weighted(levels[..|x| - 1], x[..|x| - 1]) + levels[|x| - 1] * x[|x| - 1]
  }

  /** `Mixer::filter`: the weighted sum of the inputs; the mixer itself is left as it is. */
  function MixerFilter(m: Mixer, x: seq<real>): real
    requires |x| == |m.levels|
  {
    Weighted(m.levels, x)
  }

  /** Inputs in [-1, 1] and levels that are not negative. */
  predicate InUnitRange(levels: seq<real>, x: seq<real>)
    requires |levels| == |x|
  {
    forall i :: 0 <= i < |x| ==> 0.0 <= levels[i] && -1.0 <= x[i] <= 1.0
  }

  /** l·v lies in [-l, l] for l >= 0 and v in [-1, 1]. */
  lemma ScaledUnit(l: real, v: real)
    requires 0.0 <= l && -1.0 <= v <= 1.0
    ensures -l <= l * v <= l
  {
    assert l - l * v == l * (1.0 - v);
    assert l + l * v == l * (1.0 + v);
  }

  /** With inputs in [-1, 1] and non-negative levels the mix is at most the sum of the levels in magnitude. */
  lemma {:induction false} WeightedBound(levels: seq<real>, x: seq<real>)
    requires |levels| == |x| && InUnitRange(levels, x)
    ensures -Sum(levels) <= Weighted(levels, x) <= Sum(levels)
  {
    if |x| > 0 {
      var k := |x| - 1;
      var l, v := levels[k], x[k];
      assert 0.0 <= l && -1.0 <= v <= 1.0;
      assert InUnitRange(levels[..k], x[..k]);
      WeightedBound(levels[..k], x[..k]);
      ScaledUnit(l, v);
      var w := Weighted(levels[..k], x[..k]);
      assert Sum(levels) == Sum(levels[..k]) + l;
      assert Weighted(levels, x) == w + l * v;
    }
  }

  /** The plain sum of n values in [-1, 1] lies in [-n, n]. */
  lemma {:induction false} SumUnitBound(x: seq<real>)
    requires forall i :: 0 <= i < |x| ==> -1.0 <= x[i] <= 1.0
    ensures -(|x| as real) <= Sum(x) <= |x| as real
  {
    if |x| > 0 {
      SumUnitBound(x[..|x| - 1]);
    }
  }

  /** With equal levels c the mixer outputs c times the plain sum. */
  lemma {:induction false} WeightedUniform(levels: seq<real>, x: seq<real>, c: real)
    requires |levels| == |x|
    requires forall i :: 0 <= i < |levels| ==> levels[i] == c
    ensures Weighted(levels, x) == c * Sum(x)
  {
    if |x| > 0 {
      var k := |x| - 1;
      WeightedUniform(levels[..k], x[..k], c);
      assert c * Sum(x) == c * Sum(x[..k]) + c * x[k];
    }
  }

  /** A fresh mixer outputs the mean of its inputs. */
  lemma NewMixerAverages(n: nat, x: seq<real>)
    requires n > 0 && |x| == n
    ensures MixerFilter(NewMixer(n), x) * n as real == Sum(x)
  {
    var c := 1.0 / n as real;
    WeightedUniform(NewMixer(n).levels, x, c);
    assert c * n as real == 1.0;
    assert c * Sum(x) * n as real == (c * n as real) * Sum(x);
  }

  /** A fresh mixer fed inputs in [-1, 1] outputs a value in [-1, 1]. */
  lemma NewMixerStaysInRange(n: nat, x: seq<real>)
    requires n > 0 && |x| == n
    requires forall i :: 0 <= i < n ==> -1.0 <= x[i] <= 1.0
    ensures -1.0 <= MixerFilter(NewMixer(n), x) <= 1.0
  {
    NewMixerAverages(n, x);
    SumUnitBound(x);
  }

  /** Replacing input k by v moves the output by levels[k]·(v - x[k]) and by nothing else. */
  lemma {:induction false} WeightedUpdate(levels: seq<real>, x: seq<real>, k: nat, v: real)
    requires |levels| == |x| && k < |x|
    ensures Weighted(levels, x[k := v]) == Weighted(levels, x) + levels[k] * (v - x[k])
  {
    var n := |x| - 1;
    if k < n {
      assert x[k := v][..n] == x[..n][k := v];
      WeightedUpdate(levels[..n], x[..n], k, v);
    } else {
      assert x[k := v][..n] == x[..n];
    }
  }
}
