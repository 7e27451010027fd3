/**
 * A single synthesizer voice: a list of oscillators, an envelope, a
 * low-pass and a high-pass filter, and the note being held. MIDI messages
 * on channel 1 are routed to note-on, note-off and the control changes
 * 14-23; everything else is ignored. The value `VoiceState` is the state
 * of a `Voice` object and the functions on it say what every handler does.
 */
module Synth {
  import opened Ints
  import opened Wrappers
  import opened DiscreteFunctions
  import opened Phaser
  import opened Oscillators
  import opened Envelope
  import opened Pass
  import opened Midi
  import Scales
  import Volume

  /**
   * `f32::powf`, a collaborator; of it the model only assumes what real
   * exponentiation guarantees, that a positive base gives a positive power.
   */
  type Powf = f: (real, real) -> real | forall b: real, x: real :: b > 0.0 ==> f(b, x) > 0.0
    witness (b: real, x: real) => 1.0

  /** `linear_map`: 0..127 onto vmin..vmax, never outside them for vmin <= vmax. */
  function LinearMap(value: U8, vmin: real, vmax: real): (r: real)
    ensures vmin <= vmax && value <= 127 ==> vmin <= r <= vmax
  {
    var t := value as real / 127.0;
    if vmin <= vmax && value <= 127 then
      Envelope.MulBounds(t, vmax - vmin);
      vmin + (vmax - vmin) * t
    else
      vmin + (vmax - vmin) * t
  }

  /** `log_map`: the base raised to the linearly mapped exponent. */
  function LogMap(powf: Powf, value: U8, base: real, expmin: real, expmax: real): (r: real)
    ensures base > 0.0 ==> r > 0.0
  {
    powf(base, LinearMap(value, expmin, expmax))
  }

  /** The end points map to vmin and vmax, and the map is monotone between them. */
  lemma LinearMapRange(value: U8, other: U8, vmin: real, vmax: real)
    ensures LinearMap(0, vmin, vmax) == vmin && LinearMap(127, vmin, vmax) == vmax
    ensures vmin <= vmax && value <= other ==> LinearMap(value, vmin, vmax) <= LinearMap(other, vmin, vmax)
    ensures vmin <= vmax && value <= 127 ==> vmin <= LinearMap(value, vmin, vmax) <= vmax
  {
    var d := vmax - vmin;
    var r := value as real / 127.0;
    var q := other as real / 127.0;
    assert LinearMap(value, vmin, vmax) == vmin + d * r;
    assert LinearMap(other, vmin, vmax) == vmin + d * q;
    if vmin <= vmax && value <= other {
      assert d * q - d * r == d * (q - r);
      MulNonNegative(d, q - r);
    }
    if vmin <= vmax && value <= 127 {
      assert r <= 1.0;
      Envelope.MulBounds(r, d);
      assert d * r == r * d;
    }
  }

  datatype VoiceState = VoiceState(
    osc: seq<OscState>,
    env: EnvState,
    lp: PassState,
    hp: PassState,
    note: Option<U8>)

  /** A note a phased oscillator cannot look up (key 88 and above) panics in `freq`. */
  predicate NoteAccepted(oscs: seq<OscState>, n: U8)
  {
    forall i :: 0 <= i < |oscs| && Phased(oscs[i].wave) ==> n < Scales.SCALE_LEN
  }

  function NoteOnSpec(s: VoiceState, n: U8): VoiceState
    requires NoteAccepted(s.osc, n)
  {
    s.(note := Some(n),
       osc := seq(|s.osc|, i requires 0 <= i < |s.osc| => SetNoteOsc(s.osc[i], n)),
       env := EnvNoteOn(s.env))
  }

  function NoteOffSpec(s: VoiceState): VoiceState
  {
    s.(note := None, env := EnvNoteOff(s.env))
  }

  /** CC 14: oscillator i (even, with a partner) by f, its odd partner by 1/f. */
  function Detuned(oscs: seq<OscState>, f: real): (r: seq<OscState>)
    requires f != 0.0
    ensures |r| == |oscs|
  {
    seq(|oscs|, i requires 0 <= i < |oscs| =>
      if i % 2 == 0 && i + 1 < |oscs| then TuneOsc(oscs[i], f)
      else if i % 2 == 1 then TuneOsc(oscs[i], 1.0 / f)
      else oscs[i])
  }

  /** The value a CC converts to, for each of the controls that use it. */
  function TuningFactor(powf: Powf, v: U8): (f: real)
    ensures f > 0.0
  {
    LogMap(powf, v, 1.1, 0.0, 5.0)
  }

  function CutoffFor(powf: Powf, v: U8): real { LogMap(powf, v, 2.0, 7.0, 14.0) }

  function QFor(powf: Powf, v: U8): real { LogMap(powf, v, 2.0, -4.0, 2.0) }

  function TimeFor(powf: Powf, v: U8): real { LogMap(powf, v, 10.0, -4.0, 0.0) }

  /** Control changes 14 to 23; CC 14 indexes oscillator 0 and so needs one. */
  predicate ControlAccepted(s: VoiceState, cc: ControlChange)
  {
    cc.CC? && cc.control == 14 ==> |s.osc| > 0
  }

  function ControlChangeSpec(s: VoiceState, cc: ControlChange, powf: Powf): VoiceState
    requires ControlAccepted(s, cc)
  {
    match cc
    case OtherControl => s
    case CC(c, v) =>
      if c == 14 then s.(osc := Detuned(s.osc, TuningFactor(powf, v)))
      else if c == 15 then s.(lp := WithCutoff(s.lp, CutoffFor(powf, v)))
      else if c == 16 then s.(lp := WithQ(s.lp, QFor(powf, v)))
      else if c == 17 then s.(hp := WithCutoff(s.hp, CutoffFor(powf, v)))
      else if c == 18 then s.(hp := WithQ(s.hp, QFor(powf, v)))
      else if c == 19 then s.(env := s.env.(attackTime := TimeFor(powf, v)))
      else if c == 20 then s.(env := s.env.(decayTime := TimeFor(powf, v)))
      else if c == 21 then s.(env := s.env.(sustainLevel := TimeFor(powf, v)))
      else if c == 22 then s.(env := s.env.(releaseTime := TimeFor(powf, v)))
      else if c == 23 then
        var t := TimeFor(powf, v);
        s.(env := s.env.(attackTime := t, decayTime := t, releaseTime := t))
      else s
  }

  /** The messages a voice handles without panicking. */
  predicate Accepted(s: VoiceState, m: MidiMsg)
  {
    m.ChannelVoice? && m.channel == CH1 ==>
      match m.msg
      case NoteOn(n, _) => NoteAccepted(s.osc, n)
      case ControlChange(cc) => ControlAccepted(s, cc)
      case _ => true
  }

  /** `handle_midi`. */
  function HandleMidiSpec(s: VoiceState, m: MidiMsg, powf: Powf): VoiceState
    requires Accepted(s, m)
  {
    if m.ChannelVoice? && m.channel == CH1 then
      match m.msg
      case NoteOn(n, _) => NoteOnSpec(s, n)
      case NoteOff(_, _) => NoteOffSpec(s)
      case ControlChange(cc) => ControlChangeSpec(s, cc, powf)
      case OtherVoice => s
    else s
  }

  /** What `generate` sums: the outputs of the oscillators in list order. */
  function OscOutputs(oscs: seq<OscState>, streams: seq<RandomStream>): (ys: seq<real>)
    requires |streams| == |oscs|
    ensures |ys| == |oscs|
  {
    seq(|oscs|, i requires 0 <= i < |oscs| => Output(oscs[i], streams[i]))
  }

  /** `generate`: every oscillator steps once, the low-pass filter takes their sum, the envelope is left alone. */
  function GenerateSpec(s: VoiceState, streams: seq<RandomStream>): VoiceState
    requires |streams| == |s.osc|
  {
    s.(osc := seq(|s.osc|, i requires 0 <= i < |s.osc| => GenerateOsc(s.osc[i])),
       lp := Feed(s.lp, Volume.Sum(OscOutputs(s.osc, streams))))
  }

  /** Messages off channel 1, non-note and non-CC voice messages and unknown controls change nothing. */
  lemma IgnoredMessagesChangeNothing(s: VoiceState, m: MidiMsg, powf: Powf)
    requires !m.ChannelVoice? || m.channel != CH1 || m.msg.OtherVoice? ||
      (m.msg.ControlChange? && (m.msg.control.OtherControl? || !(14 <= m.msg.control.control <= 23)))
    ensures Accepted(s, m) && HandleMidiSpec(s, m, powf) == s
  {
  }

  /** Note-on holds the note, retunes every oscillator to it and restarts the envelope's attack. */
  lemma NoteOnEffect(s: VoiceState, n: U8, vel: U8, powf: Powf)
    requires NoteAccepted(s.osc, n)
    ensures var t := HandleMidiSpec(s, NoteOnMessage(n, vel), powf);
      t.note == Some(n) && |t.osc| == |s.osc| &&
      (forall i :: 0 <= i < |s.osc| && Phased(s.osc[i].wave) ==>
         t.osc[i] == SetFrequencyOsc(s.osc[i], Scales.TemperedScale()[n])) &&
      (forall i :: 0 <= i < |s.osc| && !Phased(s.osc[i].wave) ==> t.osc[i] == s.osc[i]) &&
      t.env == s.env.(stage := Attack) && t.lp == s.lp && t.hp == s.hp
  {
  }

  /** Note-off releases whatever note it names, and leaves the oscillators alone. */
  lemma NoteOffEffect(s: VoiceState, n: U8, vel: U8, powf: Powf)
    ensures var t := HandleMidiSpec(s, NoteOffMessage(n, vel), powf);
      t.note == None && t.osc == s.osc && t.env == s.env.(stage := Release) &&
      t.lp == s.lp && t.hp == s.hp
  {
  }

  /**
   * CC 14 tunes the pairs (0, 1), (2, 3), ... by f and 1/f; with an odd
   * number of oscillators the last one is left out; nothing else changes.
   */
  lemma DetuneEffect(s: VoiceState, v: U8, powf: Powf)
    requires |s.osc| > 0
    ensures var t := HandleMidiSpec(s, ControlMessage(14, v), powf);
      var f := TuningFactor(powf, v);
      |t.osc| == |s.osc| &&
      (forall k :: 0 <= k && 2 * k + 1 < |s.osc| ==>
         t.osc[2 * k] == TuneOsc(s.osc[2 * k], f) &&
         t.osc[2 * k + 1] == TuneOsc(s.osc[2 * k + 1], 1.0 / f)) &&
      (|s.osc| % 2 == 1 ==> t.osc[|s.osc| - 1] == s.osc[|s.osc| - 1]) &&
      t.env == s.env && t.lp == s.lp && t.hp == s.hp && t.note == s.note
  {
    var t := HandleMidiSpec(s, ControlMessage(14, v), powf);
    var f := TuningFactor(powf, v);
    assert t.osc == Detuned(s.osc, f);
    forall k | 0 <= k && 2 * k + 1 < |s.osc|
      ensures t.osc[2 * k] == TuneOsc(s.osc[2 * k], f)
      ensures t.osc[2 * k + 1] == TuneOsc(s.osc[2 * k + 1], 1.0 / f)
    {
      assert (2 * k) % 2 == 0 && (2 * k + 1) % 2 == 1;
    }
  }

  /** CC 15/16 change only the low-pass cutoff/Q, CC 17/18 only the high-pass ones. */
  lemma FilterControls(s: VoiceState, v: U8, powf: Powf)
    ensures HandleMidiSpec(s, ControlMessage(15, v), powf) == s.(lp := s.lp.(cutoffFreq := CutoffFor(powf, v)))
    ensures HandleMidiSpec(s, ControlMessage(16, v), powf) == s.(lp := s.lp.(q := QFor(powf, v)))
    ensures HandleMidiSpec(s, ControlMessage(17, v), powf) == s.(hp := s.hp.(cutoffFreq := CutoffFor(powf, v)))
    ensures HandleMidiSpec(s, ControlMessage(18, v), powf) == s.(hp := s.hp.(q := QFor(powf, v)))
  {
  }

  /** CC 19-22 each set one envelope parameter; CC 23 sets the three times and keeps the sustain. */
  lemma EnvelopeControls(s: VoiceState, v: U8, powf: Powf)
    ensures var t := TimeFor(powf, v);
      HandleMidiSpec(s, ControlMessage(19, v), powf) == s.(env := s.env.(attackTime := t)) &&
      HandleMidiSpec(s, ControlMessage(20, v), powf) == s.(env := s.env.(decayTime := t)) &&
      HandleMidiSpec(s, ControlMessage(21, v), powf) == s.(env := s.env.(sustainLevel := t)) &&
      HandleMidiSpec(s, ControlMessage(22, v), powf) == s.(env := s.env.(releaseTime := t))
    ensures var u := HandleMidiSpec(s, ControlMessage(23, v), powf);
      u.env.attackTime == u.env.decayTime == u.env.releaseTime == TimeFor(powf, v) &&
      u.env.sustainLevel == s.env.sustainLevel && u.env.stage == s.env.stage &&
      u.env.level == s.env.level && u.(env := s.env) == s
    ensures TimeFor(powf, v) > 0.0
  {
  }

  /** A message built by `send_control(c, v)` reaches the control-change handler with the same c and v. */
  lemma SendControlReachesHandler(s: VoiceState, c: U8, v: U8, powf: Powf)
    requires ControlAccepted(s, CC(c, v))
    ensures Accepted(s, ControlMessage(c, v))
    ensures HandleMidiSpec(s, ControlMessage(c, v), powf) == ControlChangeSpec(s, CC(c, v), powf)
  {
  }

  /** `generate` steps each oscillator exactly once, feeds their sum to the low-pass and nothing else. */
  lemma GenerateEffect(s: VoiceState, streams: seq<RandomStream>)
    requires |streams| == |s.osc|
    ensures var t := GenerateSpec(s, streams);
      |t.osc| == |s.osc| &&
      (forall i :: 0 <= i < |s.osc| ==> t.osc[i] == GenerateOsc(s.osc[i])) &&
      t.env == s.env && t.hp == s.hp && t.note == s.note &&
      t.lp.history == s.lp.history + [Tap(Volume.Sum(OscOutputs(s.osc, streams)), s.lp.cutoffFreq, s.lp.q)]
  {
  }

  /** Oscillators and their phase generators are pairwise distinct objects. */
  predicate Distinct(oscs: seq<Oscillator>)
  {
    forall i, j :: 0 <= i < j < |oscs| ==> oscs[i] != oscs[j] && oscs[i].phaseGen != oscs[j].phaseGen
  }

  /** Appends a fresh oscillator, keeping the list distinct. */
  method AppendFresh(oscs: seq<Oscillator>, w: Wave, fRef: real, noise: RandomStream)
    returns (r: seq<Oscillator>)
    requires Distinct(oscs)
    ensures Distinct(r) && |r| == |oscs| + 1 && r[..|oscs|] == oscs
    ensures fresh(r[|oscs|]) && fresh(r[|oscs|].phaseGen)
    ensures Phased(w) ==> r[|oscs|].State() == NewOsc(w, fRef)
    ensures !Phased(w) ==> r[|oscs|].State() == NewOsc(Wave.Noise, Scales.REFERENCE_FREQ)
    ensures !Phased(w) ==> r[|oscs|].stream == noise
  {
    var o;
    if Phased(w) {
      o := new Oscillator.PhasedWave(w, fRef);
    } else {
      o := new Oscillator.Noise(noise);
    }
    r := oscs + [o];
  }

  /** The five oscillators of `Voice::new`. */
  method NewOscillators(refA4: real, refA3: real, noise: RandomStream) returns (oscs: seq<Oscillator>)
    ensures Distinct(oscs) && |oscs| == 5
    ensures forall i :: 0 <= i < 5 ==> fresh(oscs[i]) && fresh(oscs[i].phaseGen)
    ensures oscs[0].State() == NewOsc(SawTooth, refA4) && oscs[1].State() == NewOsc(SawTooth, refA4)
    ensures oscs[2].State() == NewOsc(SawTooth, refA3) && oscs[3].State() == NewOsc(SawTooth, refA3)
    ensures oscs[4].State() == NewOsc(Wave.Noise, Scales.REFERENCE_FREQ) && oscs[4].stream == noise
  {
    oscs := AppendFresh([], SawTooth, refA4, noise);
    oscs := AppendFresh(oscs, SawTooth, refA4, noise);
    oscs := AppendFresh(oscs, SawTooth, refA3, noise);
    oscs := AppendFresh(oscs, SawTooth, refA3, noise);
    oscs := AppendFresh(oscs, Wave.Noise, 0.0, noise);
  }

  /** The whole voice, with the objects it owns. */
  class Voice {
    const osc: seq<Oscillator>
    const env: ADSREnvelope
    const lp: PassFilter
    const hp: PassFilter
    var note: Option<U8>
    const powf: Powf

    function PhaseGens(): set<object>
    {
      set i | 0 <= i < |osc| :: osc[i].phaseGen
    }

    /** The oscillators, and the phase generators they own, are pairwise distinct. */
    predicate Valid()
    {
      Distinct(osc) && lp != hp
    }

    function OscStates(): (r: seq<OscState>)
      reads osc, PhaseGens()
      ensures |r| == |osc|
    {
      seq(|osc|, i reads osc, PhaseGens() requires 0 <= i < |osc| => osc[i].State())
    }

    function Streams(): (r: seq<RandomStream>)
      ensures |r| == |osc|
    {
      seq<RandomStream>(|osc|, i requires 0 <= i < |osc| => osc[i].stream)
    }

    function State(): VoiceState
      reads this, osc, PhaseGens(), env, lp, hp
    {
      VoiceState(OscStates(), env.State(), lp.State(), hp.State(), note)
    }

    /**
     * `Voice::new`: two sawtooths at the A4 reference, two at the A3
     * reference and a noise source, the envelope (0.01, 0.01, 0.6, 0.2),
     * a fresh low-pass, the high-pass with its own start values, no note.
     */
    constructor (refA4: real, refA3: real, noise: RandomStream,
                 lpResponse: seq<Tap> -> real, hpCutoff: real, hpQ: real, hpResponse: seq<Tap> -> real,
                 powf: Powf)
      ensures Valid()
      ensures OscStates() ==
        [NewOsc(SawTooth, refA4), NewOsc(SawTooth, refA4), NewOsc(SawTooth, refA3),
         NewOsc(SawTooth, refA3), NewOsc(Wave.Noise, Scales.REFERENCE_FREQ)]
      ensures env.State() == NewEnv(0.01, 0.01, 0.6, 0.2)
      ensures lp.State() == PassState(Scales.REFERENCE_FREQ, LOW_PASS_Q, [])
      ensures hp.State() == PassState(hpCutoff, hpQ, [])
      ensures note == None
      ensures Streams()[4] == noise && this.powf == powf
    {
      var oscs := NewOscillators(refA4, refA3, noise);
      osc := oscs;
      env := new ADSREnvelope(0.01, 0.01, 0.6, 0.2);
      lp := new PassFilter.LowPass(lpResponse);
      hp := new PassFilter(hpCutoff, hpQ, hpResponse);
      note := None;
      this.powf := powf;
    }

    method HandleMidi(m: MidiMsg)
      requires Valid() && Accepted(State(), m)
      modifies this, PhaseGens(), env, lp, hp
      ensures State() == HandleMidiSpec(old(State()), m, powf)
    {
      if m.ChannelVoice? && m.channel == CH1 {
        match m.msg {
          case NoteOn(n, vel) => HandleNoteOn(n, vel);
          case NoteOff(n, vel) => HandleNoteOff(n, vel);
          case ControlChange(cc) => HandleControlChange(cc);
          case OtherVoice =>
        }
      }
    }

    method HandleNoteOn(n: U8, velocity: U8)
      requires Valid() && NoteAccepted(OscStates(), n)
      modifies this, PhaseGens(), env
      ensures State() == NoteOnSpec(old(State()), n)
    {
      ghost var s0 := OscStates();
      note := Some(n);
      var i := 0;
      while i < |osc|
        invariant 0 <= i <= |osc|
        invariant forall j :: 0 <= j < i ==> osc[j].State() == SetNoteOsc(s0[j], n)
        invariant forall j :: i <= j < |osc| ==> osc[j].State() == s0[j]
        invariant env.State() == old(env.State()) && note == Some(n)
      {
        osc[i].SetNote(n);
        i := i + 1;
      }
      env.NoteOn(n, velocity);
      assert OscStates() == NoteOnSpec(old(State()), n).osc;
    }

    method HandleNoteOff(n: U8, velocity: U8)
      modifies this, env
      ensures State() == NoteOffSpec(old(State()))
    {
      note := None;
      env.NoteOff(n, velocity);
    }

    /** CC 14's loop: i = 0, 2, 4, ... below len - 1. */
    method Detune(f: real)
      requires Valid() && |osc| > 0 && f != 0.0
      modifies PhaseGens()
      ensures OscStates() == Detuned(old(OscStates()), f)
    {
      ghost var s0 := OscStates();
      var i := 0;
      while i < |osc| - 1
        invariant 0 <= i <= |osc| && i % 2 == 0
        invariant forall j :: 0 <= j < i ==> osc[j].State() == Detuned(s0, f)[j]
        invariant forall j :: i <= j < |osc| ==> osc[j].State() == s0[j]
      {
        osc[i].Tune(f);
        osc[i + 1].Tune(1.0 / f);
        i := i + 2;
      }
      assert OscStates() == Detuned(s0, f);
    }

    method HandleControlChange(cc: ControlChange)
      requires Valid() && ControlAccepted(State(), cc)
      modifies PhaseGens(), env, lp, hp
      ensures State() == ControlChangeSpec(old(State()), cc, powf)
    {
      match cc {
        case OtherControl =>
        case CC(c, v) =>
          if c == 14 {
            Detune(TuningFactor(powf, v));
          } else if c == 15 {
            lp.SetCutoff(CutoffFor(powf, v));
          } else if c == 16 {
            lp.SetQ(QFor(powf, v));
          } else if c == 17 {
            hp.SetCutoff(CutoffFor(powf, v));
          } else if c == 18 {
            hp.SetQ(QFor(powf, v));
          } else if c == 19 {
            env.attackTime := TimeFor(powf, v);
          } else if c == 20 {
            env.decayTime := TimeFor(powf, v);
          } else if c == 21 {
            env.sustainLevel := TimeFor(powf, v);
          } else if c == 22 {
            env.releaseTime := TimeFor(powf, v);
          } else if c == 23 {
            var t := TimeFor(powf, v);
            env.attackTime := t;
            env.decayTime := t;
            env.releaseTime := t;
          }
      }
    }

    /** Steps every oscillator once, in list order, and sums their outputs. */
    method GenerateAll() returns (sum: real)
      requires Valid()
      modifies osc, PhaseGens()
      ensures OscStates() == seq(|osc|, i requires 0 <= i < |osc| => GenerateOsc(old(OscStates())[i]))
      ensures sum == Volume.Sum(OscOutputs(old(OscStates()), Streams()))
    {
      ghost var s0 := OscStates();
      ghost var ys := OscOutputs(s0, Streams());
      sum := 0.0;
      var i := 0;
      while i < |osc|
        invariant 0 <= i <= |osc|
        invariant forall j :: 0 <= j < i ==> osc[j].State() == GenerateOsc(s0[j])
        invariant forall j :: i <= j < |osc| ==> osc[j].State() == s0[j]
        invariant sum == Volume.Sum(ys[..i])
      {
        var o := osc[i].Generate();
        assert ys[..i + 1][..i] == ys[..i];
        sum := sum + o;
        i := i + 1;
      }
      assert ys[..i] == ys;
    }

    /** `generate`: returns the low-pass filter's output for the oscillators' sum. */
    method Generate() returns (y: real)
      requires Valid()
      modifies osc, PhaseGens(), lp
      ensures State() == GenerateSpec(old(State()), Streams())
      ensures y == lp.response(lp.history)
    {
      var sum := GenerateAll();
      y := lp.Filter(sum);
    }
  }
}
