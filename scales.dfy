/**
 * The 88-key equal-tempered frequency table, built at compile time from a
 * reference pitch at the A4 index by repeated multiplication (upwards) and
 * division (downwards) by the half-tone factor, and the `freq` lookup.
 */
module Scales {
  import opened Ints

  /** 2^(1/12) as the source writes it. */
  const HALF_TONE_FACTOR: real := 1.05946309436
  const REFERENCE_FREQ: real := 440.0

  const NOTE_A3: nat := 37
  const NOTE_A4: nat := 49
  const NOTE_A5: nat := 61
  const SCALE_LEN: nat := 88

  /** The entry k half tones above A4: the pitch multiplied k times by the factor. */
  function Above(pitch: real, k: nat): real
  {
    if k == 0 then pitch else HALF_TONE_FACTOR * Above(pitch, k - 1)
  }

  /** The entry k half tones below A4: the pitch divided k times by the factor. */
  function Below(pitch: real, k: nat): real
  {
    if k == 0 then pitch else Below(pitch, k - 1) / HALF_TONE_FACTOR
  }

  /** Entry i of the scale built from `pitch`. */
  function ScaleEntry(pitch: real, i: nat): real
  {
    if i >= NOTE_A4 then Above(pitch, i - NOTE_A4) else Below(pitch, NOTE_A4 - i)
  }

  function TemperedScaleOf(pitch: real): (s: seq<real>)
    ensures |s| == SCALE_LEN
  {
    seq(SCALE_LEN, i requires 0 <= i < SCALE_LEN => ScaleEntry(pitch, i))
  }

  /** `TEMPERED_SCALE`, the table built from 440 Hz. */
  function TemperedScale(): (s: seq<real>)
    ensures |s| == SCALE_LEN
  {
    TemperedScaleOf(REFERENCE_FREQ)
  }

  /**
   * `create_tempered_scale`: the A4 slot gets the pitch, the first loop
   * multiplies upwards to index 87, the second divides downwards to index 0.
   */
  method CreateTemperedScale(pitch: real) returns (scale: array<real>)
    ensures scale.Length == SCALE_LEN
    ensures scale[..] == TemperedScaleOf(pitch)
  {
    scale := new real[88](_ => 0.0);
    var i0 := NOTE_A4;
    scale[i0] := pitch;
    var i := i0;
    while i < scale.Length - 1
      invariant i0 <= i <= scale.Length - 1
      invariant forall k :: i0 <= k <= i ==> scale[k] == ScaleEntry(pitch, k)
    {
      assert ScaleEntry(pitch, i + 1) == HALF_TONE_FACTOR * ScaleEntry(pitch, i);
      scale[i + 1] := HALF_TONE_FACTOR * scale[i];
      i := i + 1;
    }
    i := i0;
    while i > 0
      invariant 0 <= i <= i0
      invariant forall k :: i <= k < scale.Length ==> scale[k] == ScaleEntry(pitch, k)
    {
      assert ScaleEntry(pitch, i - 1) == Below(pitch, NOTE_A4 - i + 1) == ScaleEntry(pitch, i) / HALF_TONE_FACTOR;
      scale[i - 1] := scale[i] / HALF_TONE_FACTOR;
      i := i - 1;
    }
    assert forall k :: 0 <= k < scale.Length ==> scale[..][k] == TemperedScaleOf(pitch)[k];
  }

  /** `freq`: the table entry of key n; n >= 88 indexes past the table (a panic), so n < 88 is required. */
  function Freq(n: U8): (f: real)
    requires n < SCALE_LEN
    ensures f == TemperedScale()[n]
    ensures n == NOTE_A4 ==> f == REFERENCE_FREQ
  {
    ScaleEntry(REFERENCE_FREQ, n)
  }

  /** The anchor and the two recurrences the loops implement. */
  lemma ScaleRecurrences(pitch: real, i: nat)
    requires i < SCALE_LEN
    ensures TemperedScaleOf(pitch)[NOTE_A4] == pitch
    ensures NOTE_A4 <= i < SCALE_LEN - 1 ==>
      TemperedScaleOf(pitch)[i + 1] == HALF_TONE_FACTOR * TemperedScaleOf(pitch)[i]
    ensures 1 <= i <= NOTE_A4 ==>
      TemperedScaleOf(pitch)[i - 1] == TemperedScaleOf(pitch)[i] / HALF_TONE_FACTOR
  {
    if 1 <= i <= NOTE_A4 {
      assert ScaleEntry(pitch, i) == Below(pitch, NOTE_A4 - i);
      assert ScaleEntry(pitch, i - 1) == Below(pitch, NOTE_A4 - i + 1);
    }
  }

  lemma {:induction false} AbovePositive(pitch: real, k: nat)
    requires pitch > 0.0
    ensures Above(pitch, k) > 0.0
  {
    if k > 0 {
      AbovePositive(pitch, k - 1);
    }
  }

  lemma {:induction false} BelowPositive(pitch: real, k: nat)
    requires pitch > 0.0
    ensures Below(pitch, k) > 0.0
  {
    if k > 0 {
      BelowPositive(pitch, k - 1);
    }
  }

  /** Neighbouring entries grow by the factor > 1, so each entry is below the next. */
  lemma AdjacentIncreasing(pitch: real, i: nat)
    requires pitch > 0.0 && i < SCALE_LEN - 1
    ensures 0.0 < ScaleEntry(pitch, i) < ScaleEntry(pitch, i + 1)
  {
    if i >= NOTE_A4 {
      AbovePositive(pitch, i - NOTE_A4);
    } else {
      BelowPositive(pitch, NOTE_A4 - i);
      BelowPositive(pitch, NOTE_A4 - i - 1);
      assert Below(pitch, NOTE_A4 - i) == Below(pitch, NOTE_A4 - i - 1) / HALF_TONE_FACTOR;
    }
  }

  /** With a positive pitch all 88 entries are positive and strictly increasing. */
  lemma {:induction false} ScaleStrictlyIncreasing(pitch: real, i: nat, j: nat)
    requires pitch > 0.0 && i < j < SCALE_LEN
    ensures 0.0 < TemperedScaleOf(pitch)[i] < TemperedScaleOf(pitch)[j]
    decreases j - i
  {
    AdjacentIncreasing(pitch, i);
    if i + 1 < j {
      ScaleStrictlyIncreasing(pitch, i + 1, j);
    }
  }
}
