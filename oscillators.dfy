/**
 * The four oscillators and the blanket `Oscillator` behaviour of phased
 * generators. A phased oscillator owns a `PhaseGenerator` and forwards
 * tune, set_frequency, set_note and reset to it; `generate` advances it once
 * and maps the returned phase to a sample. `Noise` draws from a seeded
 * random generator instead and ignores every `Oscillator` call.
 */
module Oscillators {
  import opened Ints
  import opened DiscreteFunctions
  import opened Phaser
  import Scales

  datatype Wave = Sine | SawTooth | Pwm(dutyCycle: real) | Noise

  predicate Phased(w: Wave)
  {
    !w.Noise?
  }

  /**
   * The words a seeded XorShift generator hands out, reinterpreted as `i32`:
   * draw k is `stream(k)`. The generator itself is a collaborator.
   */
  type RandomStream = nat -> I32

  /** What an oscillator can change: its phase, and for noise how many words it drew. */
  datatype OscState = OscState(wave: Wave, phase: PhaseState, draws: nat)

  /** The sample a phased wave produces at phase phi. */
  function WaveValue(w: Wave, phi: real): real
    requires Phased(w)
  {
    match w
    case Sine => Sin(phi)
    case SawTooth => phi / PI - 1.0
    case Pwm(duty) => if phi < TAU * duty then 1.0 else -1.0
  }

  /** `i32::MAX as f32`: 2^31 - 1 rounds to the nearest f32, 2^31. */
  const I32_MAX_F32: real := 2147483648.0

  /** `a as f32 / i32::MAX as f32`: a random word mapped into [-1, 1]. */
  function NoiseValue(a: I32): real
  {
    a as real / I32_MAX_F32
  }

  /** The sample `generate` returns from state s. */
  function Output(s: OscState, stream: RandomStream): real
  {
    if s.wave.Noise? then NoiseValue(stream(s.draws)) else WaveValue(s.wave, s.phase.phi)
  }

  /** The state after `generate`. */
  function GenerateOsc(s: OscState): OscState
  {
    if s.wave.Noise? then s.(draws := s.draws + 1) else s.(phase := Advance(s.phase))
  }

  function TuneOsc(s: OscState, tune: real): OscState
  {
    if s.wave.Noise? then s else s.(phase := Tuned(s.phase, tune))
  }

  function SetFrequencyOsc(s: OscState, f: real): OscState
  {
    if s.wave.Noise? then s else s.(phase := WithFrequency(s.phase, f))
  }

  /** Only a phased oscillator looks the note up, so only it needs a key below 88. */
  function SetNoteOsc(s: OscState, n: U8): OscState
    requires Phased(s.wave) ==> n < Scales.SCALE_LEN
  {
    if s.wave.Noise? then s else SetFrequencyOsc(s, Scales.Freq(n))
  }

  function ResetOsc(s: OscState): OscState
  {
    if s.wave.Noise? then s else s.(phase := ResetPhase(s.phase))
  }

  /** The state of a freshly constructed oscillator. */
  function NewOsc(w: Wave, fRef: real): (s: OscState)
    ensures s.wave == w && s.draws == 0
  {
    OscState(w, NewPhase(fRef), 0)
  }

  /** Generating n samples in a row. */
  function GenerateN(s: OscState, n: nat): OscState
  {
    if n == 0 then s else GenerateOsc(GenerateN(s, n - 1))
  }

  /**
   * The phased oscillators forward to the phase generator one to one and
   * change nothing else; `set_note(n)` is `set_frequency(freq(n))`.
   */
  lemma PhasedDelegation(s: OscState, tune: real, f: real, n: U8)
    requires Phased(s.wave) && n < Scales.SCALE_LEN
    ensures TuneOsc(s, tune) == OscState(s.wave, Tuned(s.phase, tune), s.draws)
    ensures SetFrequencyOsc(s, f) == OscState(s.wave, WithFrequency(s.phase, f), s.draws)
    ensures SetNoteOsc(s, n) == SetFrequencyOsc(s, Scales.TemperedScale()[n])
    ensures ResetOsc(s) == OscState(s.wave, s.phase.(phi := 0.0), s.draws)
    ensures GenerateOsc(s) == OscState(s.wave, Advance(s.phase), s.draws)
  {
  }

  /** Every `Oscillator` call on noise is a no-op, and `generate` only consumes one word. */
  lemma NoiseIgnoresControls(s: OscState, tune: real, f: real, n: U8)
    requires s.wave.Noise?
    ensures TuneOsc(s, tune) == s && SetFrequencyOsc(s, f) == s
    ensures SetNoteOsc(s, n) == s && ResetOsc(s) == s
    ensures GenerateOsc(s) == s.(draws := s.draws + 1)
  {
  }

  /** A phased sample depends on the phase the generator returned, and on nothing else. */
  lemma OutputDependsOnPhaseOnly(s: OscState, t: OscState, r1: RandomStream, r2: RandomStream)
    requires Phased(s.wave) && s.wave == t.wave && s.phase.phi == t.phase.phi
    ensures Output(s, r1) == Output(t, r2)
  {
  }

  /** PWM is two-valued: high exactly while phi is below TAU times the duty cycle. */
  lemma PwmTwoLevels(duty: real, phi: real)
    ensures WaveValue(Pwm(duty), phi) == 1.0 || WaveValue(Pwm(duty), phi) == -1.0
    ensures WaveValue(Pwm(duty), phi) == 1.0 <==> phi < TAU * duty
  {
  }

  /** The sawtooth ramps from -1 at phase 0 to 1 at TAU and stays in [-1, 1] between. */
  lemma SawToothRange(phi: real)
    requires 0.0 <= phi <= TAU
    ensures -1.0 <= WaveValue(SawTooth, phi) <= 1.0
    ensures WaveValue(SawTooth, 0.0) == -1.0 && WaveValue(SawTooth, TAU) == 1.0
  {
    assert TAU / PI == 2.0;
    assert phi / PI <= TAU / PI;
  }

  /** A noise sample lies in [-1, 1], and the most negative word maps to -1 exactly. */
  lemma NoiseRange(a: I32)
    ensures -1.0 <= NoiseValue(a) <= 1.0
    ensures NoiseValue(-I32_MAX - 1) == -1.0
  {
    assert -I32_MAX_F32 <= a as real < I32_MAX_F32;
  }

  /** An untuned oscillator never leaves phase 0: a fresh sine is silent forever. */
  lemma {:induction false} FreshOscillatorStuck(w: Wave, fRef: real, n: nat)
    requires Phased(w)
    ensures GenerateN(NewOsc(w, fRef), n) == NewOsc(w, fRef)
    ensures w == Sine ==> Output(GenerateN(NewOsc(w, fRef), n), _ => 0) == 0.0
  {
    if n > 0 {
      FreshOscillatorStuck(w, fRef, n - 1);
    }
    SinCosAtZero();
    assert GenerateN(NewOsc(w, fRef), n).phase.phi == 0.0;
  }

  /**
   * A sine oscillator retuned to 20500 Hz steps by exactly PI, so its third
   * `generate` returns the phase TAU, at which the source's `sin` panics.
   */
  lemma SineReachesTau()
    ensures var s := SetFrequencyOsc(NewOsc(Sine, Scales.REFERENCE_FREQ), 20500.0);
      GenerateN(s, 2).phase.phi == TAU && SinAsWritten(GenerateN(s, 2).phase.phi).None?
  {
    AdvanceRangeEdges();
    var s := SetFrequencyOsc(NewOsc(Sine, Scales.REFERENCE_FREQ), 20500.0);
    assert s.phase == WithFrequency(NewPhase(Scales.REFERENCE_FREQ), 20500.0);
    assert GenerateN(s, 2).phase == AdvanceN(s.phase, 2);
    SinAsWrittenPanicsAtTau();
  }

  /**
   * An oscillator: the wave it produces, the phase generator it owns
   * (untouched by noise) and, for noise, the random stream and the number
   * of words drawn.
   */
  class Oscillator {
    const wave: Wave
    const phaseGen: PhaseGenerator
    const stream: RandomStream
    var draws: nat

    function State(): OscState
      reads this, phaseGen
    {
      OscState(wave, phaseGen.State(), draws)
    }

    /** `SineOscillator::new`, `SawToothOscillator::new` and `PWMOscillator::new`. */
    constructor PhasedWave(w: Wave, fRef: real)
      requires Phased(w)
      ensures State() == NewOsc(w, fRef)
      ensures w.Pwm? ==> wave.dutyCycle == w.dutyCycle
      ensures fresh(phaseGen)
    {
      wave := w;
      phaseGen := new PhaseGenerator(fRef);
      stream := _ => 0;
      draws := 0;
    }

    /** `Noise::new`: the seeded generator is the stream handed in. */
    constructor Noise(stream: RandomStream)
      ensures State() == NewOsc(Wave.Noise, Scales.REFERENCE_FREQ)
      ensures this.stream == stream
      ensures fresh(phaseGen)
    {
      wave := Wave.Noise;
      phaseGen := new PhaseGenerator(Scales.REFERENCE_FREQ);
      this.stream := stream;
      draws := 0;
    }

    method Generate() returns (y: real)
      modifies this, phaseGen
      ensures y == Output(old(State()), stream)
      ensures State() == GenerateOsc(old(State()))
    {
      if wave.Noise? {
        y := NoiseValue(stream(draws));
        draws := draws + 1;
      } else {
        var phi := phaseGen.Generate();
        y := WaveValue(wave, phi);
      }
    }

    method Tune(tune: real)
      modifies phaseGen
      ensures State() == TuneOsc(old(State()), tune)
    {
      if !wave.Noise? {
        phaseGen.Tune(tune);
      }
    }

    method SetFrequency(f: real)
      modifies phaseGen
      ensures State() == SetFrequencyOsc(old(State()), f)
    {
      if !wave.Noise? {
        phaseGen.SetFrequency(f);
      }
    }

    method SetNote(n: U8)
      requires Phased(wave) ==> n < Scales.SCALE_LEN
      modifies phaseGen
      ensures State() == SetNoteOsc(old(State()), n)
    {
      if !wave.Noise? {
        SetFrequency(Scales.Freq(n));
      }
    }

    method Reset()
      modifies phaseGen
      ensures State() == ResetOsc(old(State()))
    {
      if !wave.Noise? {
        phaseGen.Reset();
      }
    }
  }
}
