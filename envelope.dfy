/**
 * The ADSR envelope: a four-stage machine stepped once per sample by
 * `filter`, which scales its input by the level after the step. Note-on
 * and note-off only force a stage. The state of an `ADSREnvelope` object is
 * the value `EnvState`, and each method is proved against a function on it.
 */
module Envelope {
  import opened Phaser

  datatype Stage = Attack | DecaySustain | Release | Idle

  datatype EnvState = EnvState(
    attackTime: real,
    decayTime: real,
    sustainLevel: real,
    releaseTime: real,
    stage: Stage,
    level: real)

  /** `ADSREnvelope::new`: the parameters as given, Idle, level 0. */
  function NewEnv(attack: real, decay: real, sustain: real, release: real): (s: EnvState)
    ensures s.stage == Idle && s.level == 0.0
    ensures s.attackTime == attack && s.decayTime == decay
    ensures s.sustainLevel == sustain && s.releaseTime == release
  {
    EnvState(attack, decay, sustain, release, Idle, 0.0)
  }

  function EnvNoteOn(s: EnvState): EnvState
  {
    s.(stage := Attack)
  }

  function EnvNoteOff(s: EnvState): EnvState
  {
    s.(stage := Release)
  }

  /**
   * The time the current stage divides by is non-zero. (In `f32` a zero
   * time divides to an infinity, which the real-valued model leaves out.)
   */
  predicate StepDefined(s: EnvState)
  {
    match s.stage
    case Attack => s.attackTime != 0.0
    case DecaySustain => s.decayTime != 0.0
    case Release => s.releaseTime != 0.0
    case Idle => true
  }

  /** One `filter` step of the stage machine. */
  function EnvStep(s: EnvState): EnvState
    requires StepDefined(s)
  {
    match s.stage
    case Attack =>
      var l := s.level + DT / s.attackTime;
      if l >= 1.0 then s.(level := 1.0, stage := DecaySustain) else s.(level := l)
    case DecaySustain =>
      s.(level := s.level - DT * (s.level - s.sustainLevel) / s.decayTime)
    case Release =>
      var l := s.level - DT * s.sustainLevel / s.releaseTime;
      if l <= 0.0 then s.(level := 0.0, stage := Idle) else s.(level := l)
    case Idle => s
  }

  /** The value `filter(x)` returns: x scaled by the level after the step. */
  function EnvOutput(s: EnvState, x: real): real
    requires StepDefined(s)
  {
    x * EnvStep(s).level
  }

  /** Only the four parameters, which no step touches. */
  predicate SameParameters(s: EnvState, t: EnvState)
  {
    s.attackTime == t.attackTime && s.decayTime == t.decayTime &&
    s.sustainLevel == t.sustainLevel && s.releaseTime == t.releaseTime
  }

  /** Note-on and note-off force their stage from any stage and touch nothing else. */
  lemma NotesForceStage(s: EnvState)
    ensures EnvNoteOn(s).stage == Attack && EnvNoteOff(s).stage == Release
    ensures EnvNoteOn(s).level == s.level && EnvNoteOff(s).level == s.level
    ensures SameParameters(EnvNoteOn(s), s) && SameParameters(EnvNoteOff(s), s)
    ensures EnvNoteOn(EnvNoteOff(s)) == EnvNoteOn(s) && EnvNoteOff(EnvNoteOn(s)) == EnvNoteOff(s)
  {
  }

  /** No step changes a parameter. */
  lemma StepKeepsParameters(s: EnvState)
    requires StepDefined(s)
    ensures SameParameters(EnvStep(s), s)
  {
  }

  /** Attack climbs by DT/attack_time; on reaching 1 it clamps to 1 and moves to DecaySustain. */
  lemma AttackStep(s: EnvState)
    requires s.stage == Attack && s.attackTime != 0.0
    ensures var l := s.level + DT / s.attackTime;
      (l >= 1.0 ==> EnvStep(s).level == 1.0 && EnvStep(s).stage == DecaySustain) &&
      (l < 1.0 ==> EnvStep(s).level == l && EnvStep(s).stage == Attack)
    ensures EnvStep(s).stage == Attack || EnvStep(s).stage == DecaySustain
  {
  }

  /**
   * DecaySustain never leaves its stage, and with a step ratio in (0, 1]
   * the level moves from its old value towards the sustain level without
   * overshooting it.
   */
  lemma DecayTowardsSustain(s: EnvState)
    requires s.stage == DecaySustain && s.decayTime != 0.0
    requires 0.0 < DT / s.decayTime <= 1.0
    ensures EnvStep(s).stage == DecaySustain
    ensures s.level <= s.sustainLevel ==> s.level <= EnvStep(s).level <= s.sustainLevel
    ensures s.sustainLevel <= s.level ==> s.sustainLevel <= EnvStep(s).level <= s.level
  {
    var r := DT / s.decayTime;
    var d := s.level - s.sustainLevel;
    assert DT * d / s.decayTime == r * d;
    assert EnvStep(s).level == s.level - r * d;
    if d >= 0.0 {
      assert 0.0 <= r * d <= d by { MulBounds(r, d); }
    } else {
      assert d <= r * d <= 0.0 by { MulBounds(r, -d); }
    }
  }

  /** 0 <= r <= 1 and d >= 0 give 0 <= r·d <= d. */
  lemma MulBounds(r: real, d: real)
    requires 0.0 <= r <= 1.0 && 0.0 <= d
    ensures 0.0 <= r * d <= d
  {
    assert d - r * d == (1.0 - r) * d;
  }

  /** Release falls by DT·sustain_level/release_time; at or below 0 it becomes 0 and Idle. */
  lemma ReleaseStep(s: EnvState)
    requires s.stage == Release && s.releaseTime != 0.0
    ensures var l := s.level - DT * s.sustainLevel / s.releaseTime;
      (l <= 0.0 ==> EnvStep(s).level == 0.0 && EnvStep(s).stage == Idle) &&
      (l > 0.0 ==> EnvStep(s).level == l && EnvStep(s).stage == Release)
  {
  }

  function EnvStepN(s: EnvState, n: nat): EnvState
    requires s.stage == Release && s.releaseTime != 0.0 && s.sustainLevel == 0.0
    decreases n
  {
    if n == 0 then s
    else
      var t := EnvStep(s);
      if t.stage == Release then EnvStepN(t, n - 1) else t
  }

  /** With sustain_level 0 a release above 0 never ends: the level never falls. */
  lemma {:induction false} ReleaseWithoutSustainStuck(s: EnvState, n: nat)
    requires s.stage == Release && s.releaseTime != 0.0 && s.sustainLevel == 0.0
    requires s.level > 0.0
    ensures EnvStepN(s, n) == s
  {
    assert DT * s.sustainLevel / s.releaseTime == 0.0;
    assert EnvStep(s) == s;
    if n > 0 {
      ReleaseWithoutSustainStuck(s, n - 1);
    }
  }

  /** Idle is a fixed point, and the output always uses the level after the step. */
  lemma IdleAndOutput(s: EnvState, x: real)
    requires StepDefined(s)
    ensures s.stage == Idle ==> EnvStep(s) == s && EnvOutput(s, x) == x * s.level
    ensures EnvOutput(s, x) == x * EnvStep(s).level
  {
  }

  /** The parameter ranges under which the level stays in [0, 1]. */
  predicate WellTuned(s: EnvState)
  {
    s.attackTime > 0.0 && s.decayTime >= DT && s.releaseTime > 0.0 &&
    0.0 <= s.sustainLevel <= 1.0
  }

  /** With positive times and a sustain level in [0, 1], every step keeps the level in [0, 1]. */
  lemma StepKeepsLevelInRange(s: EnvState)
    requires WellTuned(s) && 0.0 <= s.level <= 1.0
    ensures StepDefined(s) && WellTuned(EnvStep(s))
    ensures 0.0 <= EnvStep(s).level <= 1.0
  {
    match s.stage
    case Attack =>
      assert DT / s.attackTime > 0.0;
    case DecaySustain =>
      assert DT / s.decayTime <= 1.0 by {
        assert DT / s.decayTime <= DT / DT;
      }
      DecayTowardsSustain(s);
    case Release =>
      assert DT * s.sustainLevel / s.releaseTime >= 0.0;
    case Idle =>
  }

  class ADSREnvelope {
    var attackTime: real
    var decayTime: real
    var sustainLevel: real
    var releaseTime: real
    var stage: Stage
    var level: real

    function State(): EnvState
      reads this
    {
      EnvState(attackTime, decayTime, sustainLevel, releaseTime, stage, level)
    }

    constructor (attack: real, decay: real, sustain: real, release: real)
      ensures State() == NewEnv(attack, decay, sustain, release)
    {
      attackTime := attack;
      decayTime := decay;
      sustainLevel := sustain;
      releaseTime := release;
      stage := Idle;
      level := 0.0;
    }

    /** The note and velocity are ignored. */
    method NoteOn(note: nat, velocity: nat)
      modifies this
      ensures State() == EnvNoteOn(old(State()))
    {
      stage := Attack;
    }

    method NoteOff(note: nat, velocity: nat)
      modifies this
      ensures State() == EnvNoteOff(old(State()))
    {
      stage := Release;
    }

    method Filter(x: real) returns (y: real)
      requires StepDefined(State())
      modifies this
      ensures State() == EnvStep(old(State()))
      ensures y == x * level
    {
      match stage {
        case Attack =>
          level := level + DT / attackTime;
          if level >= 1.0 {
            level := 1.0;
            stage := DecaySustain;
          }
        case DecaySustain =>
          level := level - DT * (level - sustainLevel) / decayTime;
        case Release =>
          level := level - DT * sustainLevel / releaseTime;
          if level <= 0.0 {
            level := 0.0;
            stage := Idle;
          }
        case Idle =>
      }
      y := x * level;
    }
  }
}
