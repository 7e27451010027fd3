/**
 * The phase accumulator at the heart of every phased oscillator. The state
 * of a `PhaseGenerator` is the value `PhaseState`; each method of the class
 * is proved to move that state by one of the transition functions below,
 * and the properties of the generator are lemmas about those functions.
 */
module Phaser {
  import opened DiscreteFunctions
  import I2s
  import Scales

  /** One sample period. */
  const DT: real := 1.0 / I2s.SAMPLE_RATE as real

  /** The phase step for a set frequency, a reference frequency and a tuning factor. */
  function PhaseIncrement(fSet: real, fRef: real, tune: real): real
  {
    TAU * fSet * DT * (fRef / Scales.REFERENCE_FREQ) * tune
  }

  /** The increment scales linearly with the set frequency and with the tune. */
  lemma PhaseIncrementProportional(fSet: real, fRef: real, tune: real, c: real)
    ensures PhaseIncrement(c * fSet, fRef, tune) == c * PhaseIncrement(fSet, fRef, tune)
    ensures PhaseIncrement(fSet, fRef, c * tune) == c * PhaseIncrement(fSet, fRef, tune)
    ensures PhaseIncrement(fSet, Scales.REFERENCE_FREQ, tune) == TAU * fSet * DT * tune
  {
    var k := TAU * DT * (fRef / Scales.REFERENCE_FREQ);
    assert PhaseIncrement(c * fSet, fRef, tune) == k * (c * fSet) * tune;
    assert PhaseIncrement(fSet, fRef, tune) == k * fSet * tune;
    assert PhaseIncrement(fSet, fRef, c * tune) == k * fSet * (c * tune);
  }

  datatype PhaseState = PhaseState(phi: real, dphi: real, fSet: real, fRef: real, tune: real)

  /** `PhaseGenerator::new`. */
  function NewPhase(fRef: real): (s: PhaseState)
    ensures s.phi == 0.0 && s.dphi == 0.0 && s.fRef == fRef
    ensures s.fSet == Scales.REFERENCE_FREQ && s.tune == 1.0
  {
    PhaseState(0.0, 0.0, Scales.REFERENCE_FREQ, fRef, 1.0)
  }

  /** The increment agrees with the three parameters it is computed from. */
  predicate Synced(s: PhaseState)
  {
    s.dphi == PhaseIncrement(s.fSet, s.fRef, s.tune)
  }

  function Tuned(s: PhaseState, tune: real): PhaseState
  {
    s.(tune := tune, dphi := PhaseIncrement(s.fSet, s.fRef, tune))
  }

  function WithFrequency(s: PhaseState, f: real): PhaseState
  {
    s.(fSet := f, dphi := PhaseIncrement(f, s.fRef, s.tune))
  }

  function ResetPhase(s: PhaseState): PhaseState
  {
    s.(phi := 0.0)
  }

  /** One `generate` step: add the increment and wrap once if strictly above TAU. */
  function Advance(s: PhaseState): PhaseState
  {
    var p := s.phi + s.dphi;
    s.(phi := if p > TAU then p - TAU else p)
  }

  /** n consecutive `generate` steps. */
  function AdvanceN(s: PhaseState, n: nat): PhaseState
  {
    if n == 0 then s else Advance(AdvanceN(s, n - 1))
  }

  /** `tune` and `set_frequency` set their own field, resynchronise the increment and keep phi. */
  lemma RetuneKeepsPhase(s: PhaseState, tune: real, f: real)
    ensures Synced(Tuned(s, tune)) && Synced(WithFrequency(s, f))
    ensures Tuned(s, tune).phi == s.phi && WithFrequency(s, f).phi == s.phi
    ensures Tuned(s, tune).fSet == s.fSet && WithFrequency(s, f).tune == s.tune
    ensures Tuned(s, tune).fRef == s.fRef && WithFrequency(s, f).fRef == s.fRef
    ensures Tuned(WithFrequency(s, f), tune) == WithFrequency(Tuned(s, tune), f)
  {
  }

  /** `reset` and `generate` never touch the frequency parameters, so they keep the sync. */
  lemma StepsKeepSync(s: PhaseState)
    requires Synced(s)
    ensures Synced(ResetPhase(s)) && Synced(Advance(s))
    ensures ResetPhase(s).phi == 0.0 && ResetPhase(s).(phi := s.phi) == s
    ensures Advance(s).(phi := s.phi) == s
  {
  }

  /** A fresh generator has a zero increment however it was built, and never moves. */
  lemma {:induction false} FreshNeverAdvances(fRef: real, n: nat)
    ensures AdvanceN(NewPhase(fRef), n) == NewPhase(fRef)
    ensures fRef != 0.0 ==> !Synced(NewPhase(fRef))
  {
    if n > 0 {
      FreshNeverAdvances(fRef, n - 1);
    }
    if fRef != 0.0 {
      assert PhaseIncrement(Scales.REFERENCE_FREQ, fRef, 1.0) != 0.0 by {
        var k := fRef / Scales.REFERENCE_FREQ;
        assert k != 0.0;
        assert PhaseIncrement(Scales.REFERENCE_FREQ, fRef, 1.0)
          == (TAU * Scales.REFERENCE_FREQ * DT) * k;
      }
    }
  }

  /** The wrap keeps phi in [0, TAU] whenever the step is in [0, TAU]. */
  lemma AdvanceInRange(s: PhaseState)
    requires 0.0 <= s.phi <= TAU && 0.0 <= s.dphi <= TAU
    ensures 0.0 <= Advance(s).phi <= TAU
    ensures Advance(s).phi == s.phi + s.dphi || Advance(s).phi == s.phi + s.dphi - TAU
  {
  }

  /**
   * phi can land on TAU exactly: set to 20500 Hz at the reference pitch, a
   * generator steps by PI and reaches TAU after two steps. A frequency of
   * three times the sample rate steps by 3 TAU, and one step escapes the
   * range despite the wrap.
   */
  lemma AdvanceRangeEdges()
    ensures var s := WithFrequency(NewPhase(Scales.REFERENCE_FREQ), 20500.0);
      Synced(s) && s.dphi == PI && AdvanceN(s, 2).phi == TAU
    ensures var s := WithFrequency(NewPhase(Scales.REFERENCE_FREQ), 3.0 * I2s.SAMPLE_RATE as real);
      Synced(s) && s.dphi == 3.0 * TAU && Advance(s).phi > TAU
  {
    var s := WithFrequency(NewPhase(Scales.REFERENCE_FREQ), 20500.0);
    assert s.dphi == TAU * 20500.0 * DT;
    assert AdvanceN(s, 1).phi == PI;
    assert PI + PI == TAU;
  }

  /** How many times the first n steps wrapped. */
  function WrapCount(s: PhaseState, n: nat): nat
  {
    if n == 0 then 0
    else WrapCount(s, n - 1) + (if AdvanceN(s, n - 1).phi + s.dphi > TAU then 1 else 0)
  }

  /** After n steps phi is the start plus n increments, less one TAU per wrap. */
  lemma {:induction false} AdvanceNPhase(s: PhaseState, n: nat)
    ensures AdvanceN(s, n).dphi == s.dphi
    ensures AdvanceN(s, n).phi == s.phi + n as real * s.dphi - WrapCount(s, n) as real * TAU
    ensures AdvanceN(s, n).(phi := s.phi) == s
  {
    AdvanceNFields(s, n);
    AdvanceNUnwound(s, n);
  }

  /** Steps change phi only: the increment and the three parameters stay. */
  lemma {:induction false} AdvanceNFields(s: PhaseState, n: nat)
    ensures AdvanceN(s, n).dphi == s.dphi
    ensures AdvanceN(s, n).(phi := s.phi) == s
  {
    if n > 0 {
      AdvanceNFields(s, n - 1);
      assert AdvanceN(s, n) == Advance(AdvanceN(s, n - 1));
    }
  }

  /** k increments of x, named so that the closed form below is linear in what the solver sees. */
  function Repeated(k: nat, x: real): real
  {
    k as real * x
  }

  /** The closed form of `AdvanceNPhase`, by induction on n. */
  lemma {:induction false} AdvanceNUnwound(s: PhaseState, n: nat)
    ensures AdvanceN(s, n).phi == s.phi + Repeated(n, s.dphi) - Repeated(WrapCount(s, n), TAU)
  {
    if n > 0 {
      var m := n - 1;
      AdvanceNUnwound(s, m);
      AdvanceNFields(s, m);
      AdvanceStepWraps(s, n);
      PhaseStepArith(s.phi, s.dphi, m, n, WrapCount(s, m), WrapCount(s, n), AdvanceN(s, m).phi, AdvanceN(s, n).phi);
    }
  }

  /** Step n adds the increment, and when it goes above TAU it also wraps and counts one more wrap. */
  lemma AdvanceStepWraps(s: PhaseState, n: nat)
    requires n > 0 && AdvanceN(s, n - 1).dphi == s.dphi
    ensures var p := AdvanceN(s, n - 1).phi + s.dphi;
      (p <= TAU ==> AdvanceN(s, n).phi == p && WrapCount(s, n) == WrapCount(s, n - 1)) &&
      (p > TAU ==> AdvanceN(s, n).phi == p - TAU && WrapCount(s, n) == WrapCount(s, n - 1) + 1)
  {
  }

  /** One more increment, with or without one more wrap, in closed form. */
  lemma PhaseStepArith(phi0: real, d: real, m: nat, n: nat, w: nat, w': nat, p: real, p': real)
    requires n == m + 1
    requires p == phi0 + Repeated(m, d) - Repeated(w, TAU)
    requires (p' == p + d && w' == w) || (p' == p + d - TAU && w' == w + 1)
    ensures p' == phi0 + Repeated(n, d) - Repeated(w', TAU)
  {
  }

  class PhaseGenerator {
    var phi: real
    var dphi: real
    var fSet: real
    var fRef: real
    var tune: real

    function State(): PhaseState
      reads this
    {
      PhaseState(phi, dphi, fSet, fRef, tune)
    }

    /** `PhaseGenerator::new(f_ref)`. */
    constructor (fRef: real)
      ensures State() == NewPhase(fRef)
    {
      phi := 0.0;
      dphi := 0.0;
      fSet := Scales.REFERENCE_FREQ;
      this.fRef := fRef;
      tune := 1.0;
    }

    method Tune(tune: real)
      modifies this
      ensures State() == Tuned(old(State()), tune)
    {
      this.tune := tune;
      dphi := PhaseIncrement(fSet, fRef, this.tune);
    }

    method SetFrequency(frequency: real)
      modifies this
      ensures State() == WithFrequency(old(State()), frequency)
    {
      fSet := frequency;
      dphi := PhaseIncrement(fSet, fRef, tune);
    }

    method Reset()
      modifies this
      ensures State() == ResetPhase(old(State()))
    {
      phi := 0.0;
    }

    /** Returns the phase before the step. */
    method Generate() returns (a: real)
      modifies this
      ensures a == old(phi)
      ensures State() == Advance(old(State()))
    {
      a := phi;
      phi := phi + dphi;
      if phi > TAU {
        phi := phi - TAU;
      }
    }
  }
}
