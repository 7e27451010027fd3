/**
 * Conditioning of the analog inputs: a 16-bit fixed-point one-pole
 * smoother (`AdcFilter`), a hysteresis gate (`AdcGate`), the `poll` that
 * feeds a reading through both, and the round-robin producer that turns
 * gated readings into MIDI control changes.
 *
 * The smoother's coefficients are fixed-point fractions of 2^16. As
 * written, `AdcFilter::new` scales alpha by 65535 and makes the two
 * coefficients sum to 65535 rather than 65536, so even the "no filtering"
 * setting loses one count. Both versions are modelled: the corrected one
 * scales by 2^16 and takes b = 2^16 - a.
 */
module Input {
  import opened Ints
  import opened Wrappers
  import opened Midi
  import FilterTraits

  /** 2^16: the fixed-point unit of the smoother, and the `>> 16` divisor. */
  const UNIT: nat := 0x1_0000

  /** One smoothing step: `(a·x + b·y) >> 16` in `u32`; with a + b <= 2^16 nothing overflows. */
  function Smooth(a: nat, b: nat, y: U16, x: U16): (r: U16)
    requires a + b <= UNIT
    ensures a * x + b * y < U32_LIMIT
    ensures r * UNIT <= a * x + b * y < (r + 1) * UNIT
  {
    SumBound(a, b, y, x);
    (a * x + b * y) / UNIT
  }

  /** a·x + b·y is at most (a + b)·max(x, y) and at least (a + b)·min(x, y). */
  lemma WeightedBetween(a: nat, b: nat, y: nat, x: nat)
    ensures var lo := if x <= y then x else y;
      var hi := if x <= y then y else x;
      (a + b) * lo <= a * x + b * y <= (a + b) * hi
  {
    var lo := if x <= y then x else y;
    var hi := if x <= y then y else x;
    assert a * lo <= a * x <= a * hi;
    assert b * lo <= b * y <= b * hi;
  }

  lemma SumBound(a: nat, b: nat, y: U16, x: U16)
    requires a + b <= UNIT
    ensures a * x + b * y < U32_LIMIT
  {
    WeightedBetween(a, b, y, x);
    var hi := if x <= y then y else x;
    assert (a + b) * hi <= UNIT * hi;
    assert UNIT * hi <= UNIT * (U16_LIMIT - 1);
  }

  /**
   * `(u16::MAX as f32 * alpha) as u32` as written: alpha scaled by 65535 and
   * truncated; the saturating cast sends a negative product to 0.
   */
  function AsWrittenA(alpha: real): (a: nat)
    requires alpha <= 1.0
    ensures a <= U16_LIMIT - 1
    ensures alpha >= 0.0 ==> a as real <= 65535.0 * alpha < a as real + 1.0
    ensures alpha <= 0.0 ==> a == 0
  {
    if alpha <= 0.0 then 0 else (65535.0 * alpha).Floor
  }

  /** The evidently intended `a = 2^16 * alpha`, as the comment above it says. */
  function CorrectedA(alpha: real): (a: nat)
    requires alpha <= 1.0
    ensures a <= UNIT
    ensures alpha >= 0.0 ==> a as real <= 65536.0 * alpha < a as real + 1.0
    ensures alpha <= 0.0 ==> a == 0
  {
    if alpha <= 0.0 then 0 else (65536.0 * alpha).Floor
  }

  /** `AdcFilter::new` as written: b = 65535 - a. */
  function AsWrittenB(a: nat): (b: nat)
    requires a <= U16_LIMIT - 1
    ensures a + b == U16_LIMIT - 1
  {
    U16_LIMIT - 1 - a
  }

  /** The evidently intended coefficient: b = 2^16 - a, so the weights sum to one. */
  function CorrectedB(a: nat): (b: nat)
    requires a <= UNIT
    ensures a + b == UNIT
  {
    UNIT - a
  }

  /**
   * As written, the output never exceeds max(x, y) and is at least
   * min(x, y) - 1: the weights sum to 65535/65536, so the output can sag by
   * one count below both inputs.
   */
  lemma AsWrittenBounds(a: nat, y: U16, x: U16)
    requires a <= U16_LIMIT - 1
    ensures var r := Smooth(a, AsWrittenB(a), y, x);
      var lo := if x <= y then x else y;
      var hi := if x <= y then y else x;
      lo - 1 <= r <= hi
  {
    var b := AsWrittenB(a);
    var r := Smooth(a, b, y, x);
    var lo := if x <= y then x else y;
    var hi := if x <= y then y else x;
    WeightedBetween(a, b, y, x);
    assert (a + b) * hi <= UNIT * hi;
    assert (a + b) * lo == UNIT * lo - lo;
  }

  /** With the corrected weights the output stays between the previous output and the input. */
  lemma CorrectedBounds(a: nat, y: U16, x: U16)
    requires a <= UNIT
    ensures var r := Smooth(a, CorrectedB(a), y, x);
      var lo := if x <= y then x else y;
      var hi := if x <= y then y else x;
      lo <= r <= hi
  {
    var b := CorrectedB(a);
    var r := Smooth(a, b, y, x);
    var lo := if x <= y then x else y;
    var hi := if x <= y then y else x;
    WeightedBetween(a, b, y, x);
  }

  /**
   * The documented "alpha = 1: no filtering" fails as written: alpha = 1
   * gives a = 65535, b = 0, and every reading x >= 1 comes out as x - 1.
   * Correcting b alone does not help: a = 65535 and b = 1 still turn every
   * reading above the previous output into x - 1, so from 0 a constant 100
   * settles at 99.
   */
  lemma AsWrittenFullAlphaLosesOne(y: U16, x: U16)
    requires x >= 1
    ensures AsWrittenA(1.0) == U16_LIMIT - 1 && AsWrittenB(AsWrittenA(1.0)) == 0
    ensures Smooth(AsWrittenA(1.0), AsWrittenB(AsWrittenA(1.0)), y, x) == x - 1
    ensures Smooth(AsWrittenA(1.0), AsWrittenB(AsWrittenA(1.0)), 0, 100) == 99
    ensures y < x ==> Smooth(AsWrittenA(1.0), CorrectedB(AsWrittenA(1.0)), y, x) == x - 1
    ensures Smooth(AsWrittenA(1.0), CorrectedB(AsWrittenA(1.0)), 99, 100) == 99
  {
    var a := U16_LIMIT - 1;
    assert a * x == (x - 1) * UNIT + (UNIT - x);
    assert a * x + y == (x - 1) * UNIT + (UNIT - x + y);
  }

  /** With a = 2^16 alpha and b = 2^16 - a, alpha = 1 passes every reading through unchanged. */
  lemma CorrectedFullAlphaIsIdentity(y: U16, x: U16)
    ensures CorrectedA(1.0) == UNIT && CorrectedB(CorrectedA(1.0)) == 0
    ensures Smooth(CorrectedA(1.0), CorrectedB(CorrectedA(1.0)), y, x) == x
  {
  }

  /** `AdcFilter`: the coefficient pair and the last output. */
  class AdcFilter {
    const a: nat
    const b: nat
    var y: U16

    predicate Valid()
    {
      a + b <= UNIT
    }

    /** `AdcFilter::new` as written. */
    constructor AsWritten(alpha: real)
      requires alpha <= 1.0
      ensures Valid() && a == AsWrittenA(alpha) && b == AsWrittenB(a) && y == 0
    {
      var a' := AsWrittenA(alpha);
      a := a';
      b := AsWrittenB(a');
      y := 0;
    }

    /** The corrected constructor: a = 2^16 alpha, b = 2^16 - a. */
    constructor Corrected(alpha: real)
      requires alpha <= 1.0
      ensures Valid() && a == CorrectedA(alpha) && b == CorrectedB(a) && y == 0
    {
      var a' := CorrectedA(alpha);
      a := a';
      b := CorrectedB(a');
      y := 0;
    }

    /** `filter`: the stored output is the returned one. */
    method Filter(x: U16) returns (r: U16)
      requires Valid()
      modifies this
      ensures r == y == Smooth(a, b, old(y), x)
    {
      SumBound(a, b, y, x);
      y := (a * x + b * y) / UNIT;
      r := y;
    }
  }

  datatype GateState = GateState(triggerThreshold: U16, sustainThreshold: U16, last: U16, active: bool)

  function AbsDiff(x: U16, y: U16): (d: U16)
    ensures d == x - y || d == y - x
  {
    if x >= y then x - y else y - x
  }

  /** The gate's next activity: open on a jump above trigger, closed on one below sustain. */
  function NextActive(g: GateState, x: U16): bool
  {
    var diff := AbsDiff(x, g.last);
    if diff > g.triggerThreshold then true
    else if diff < g.sustainThreshold then false
    else g.active
  }

  /** One `AdcGate::filter` step: the new gate and its output. */
  function GateStep(g: GateState, x: U16): (GateState, Option<U16>)
  {
    var active := NextActive(g, x);
    if active then (g.(active := true, last := x), Some(x)) else (g.(active := false), None)
  }

  /**
   * The three bands of the hysteresis: above trigger opens, below sustain
   * (and not above trigger) closes, in between keeps the old activity; the
   * gate emits exactly when it is open afterwards, and only then moves `last`.
   */
  lemma GateBands(g: GateState, x: U16)
    ensures var diff := AbsDiff(x, g.last);
      var (g', out) := GateStep(g, x);
      (diff > g.triggerThreshold ==> g'.active) &&
      (diff <= g.triggerThreshold && diff < g.sustainThreshold ==> !g'.active) &&
      (g.sustainThreshold <= diff <= g.triggerThreshold ==> g'.active == g.active) &&
      (out == Some(x) <==> g'.active) && (out == None <==> !g'.active) &&
      (g'.active ==> g'.last == x) && (!g'.active ==> g'.last == g.last) &&
      g'.triggerThreshold == g.triggerThreshold && g'.sustainThreshold == g.sustainThreshold
  {
  }

  /** Gating a sequence of readings: the final gate and the outputs, one per reading. */
  function GateRun(g: GateState, xs: seq<U16>): (r: (GateState, seq<Option<U16>>))
    ensures |r.1| == |xs|
    ensures forall i :: 0 <= i < |xs| && r.1[i].Some? ==> r.1[i].value == xs[i]
    decreases |xs|
  {
    if |xs| == 0 then (g, [])
    else
      var (g', out) := GateStep(g, xs[0]);
      var (g'', outs) := GateRun(g', xs[1..]);
      (g'', [out] + outs)
  }

  /** A closed gate fed readings that never jump more than the trigger away stays closed and silent. */
  lemma {:induction false} ClosedGateIgnoresNoise(g: GateState, xs: seq<U16>)
    requires !g.active
    requires forall i :: 0 <= i < |xs| ==> AbsDiff(xs[i], g.last) <= g.triggerThreshold
    ensures GateRun(g, xs).0 == g
    ensures forall i :: 0 <= i < |xs| ==> GateRun(g, xs).1[i] == None
    decreases |xs|
  {
    if |xs| > 0 {
      assert GateStep(g, xs[0]).0 == g;
      ClosedGateIgnoresNoise(g, xs[1..]);
    }
  }

  /** `AdcGate`. */
  class AdcGate {
    const triggerThreshold: U16
    const sustainThreshold: U16
    var last: U16
    var active: bool

    function State(): GateState
      reads this
    {
      GateState(triggerThreshold, sustainThreshold, last, active)
    }

    constructor (trigger: U16, sustain: U16)
      ensures State() == GateState(trigger, sustain, 0, false)
    {
      triggerThreshold := trigger;
      sustainThreshold := sustain;
      last := 0;
      active := false;
    }

    method Filter(x: U16) returns (r: Option<U16>)
      modifies this
      ensures (State(), r) == GateStep(old(State()), x)
    {
      var diff := AbsDiff(x, last);
      if diff > triggerThreshold {
        active := true;
      } else if diff < sustainThreshold {
        active := false;
      }
      if active {
        last := x;
        r := Some(x);
      } else {
        r := None;
      }
    }
  }

  /** What an analog input can change: its filter's last output and its gate. */
  datatype InputState = InputState(a: nat, b: nat, y: U16, gate: GateState)

  /** An input whose filter weights cannot overflow. */
  type ValidInput = s: InputState | s.a + s.b <= UNIT
    witness InputState(0, 0, 0, GateState(0, 0, 0, false))

  /** `poll`, with the ADC reading (or its failure) as the parameter. */
  function PollSpec(s: ValidInput, reading: Option<U16>): (ValidInput, Option<U16>)
  {
    match reading
    case None => (s, None)
    case Some(x) =>
      var y := Smooth(s.a, s.b, s.y, x);
      var (g, out) := GateStep(s.gate, y);
      (s.(y := y, gate := g), out)
  }

  /** The smoother as a `Filter`: its state is the last output `y`. */
  function SmootherFilter(s: ValidInput): FilterTraits.Filter<U16, U16, U16>
  {
    FilterTraits.Filter(s.y, (y: U16, x: U16) => var r := Smooth(s.a, s.b, y, x); (r, r))
  }

  /** The gate as a `Filter`: its state is the whole gate. */
  function GateFilter(g: GateState): FilterTraits.Filter<GateState, U16, Option<U16>>
  {
    FilterTraits.Filter(g, GateStep)
  }

  /**
   * `x.apply(&mut self.filter).apply(&mut self.gate)`: a successful poll is
   * the smoother applied to the reading and the gate applied to its output,
   * and it is also one step of the smoother chained with the gate.
   */
  lemma PollAppliesFilterThenGate(s: ValidInput, x: U16)
    ensures var (f, y) := FilterTraits.Apply(x, SmootherFilter(s));
      var (g, out) := FilterTraits.Apply(y, GateFilter(s.gate));
      PollSpec(s, Some(x)) == (s.(y := f.state, gate := g.state), out)
    ensures var (c, out) := FilterTraits.ChainRun(FilterTraits.Chain(SmootherFilter(s), GateFilter(s.gate)), x);
      PollSpec(s, Some(x)) == (s.(y := c.f1.state, gate := c.f2.state), out)
  {
  }

  /**
   * A failed read leaves filter and gate untouched and yields nothing; a
   * successful one always advances the filter, even when the gate then
   * yields nothing, and yields the smoothed value when the gate is open.
   */
  lemma PollEffect(s: ValidInput, reading: Option<U16>)
    ensures reading.None? ==> PollSpec(s, reading) == (s, None)
    ensures reading.Some? ==>
      var (t, out) := PollSpec(s, reading);
      var y := Smooth(s.a, s.b, s.y, reading.value);
      t.y == y && t.a == s.a && t.b == s.b && t.gate == GateStep(s.gate, y).0 &&
      (out.Some? ==> out.value == y) && (out.Some? <==> t.gate.active)
  {
  }

  /** An analog input: a filter and a gate owned by it (the ADC pin is the read parameter). */
  class AnalogInput {
    const filter: AdcFilter
    const gate: AdcGate

    predicate Valid()
    {
      filter.Valid()
    }

    function State(): ValidInput
      requires Valid()
      reads filter, gate
    {
      InputState(filter.a, filter.b, filter.y, gate.State())
    }

    /** `AnalogInput::new`, with the filter built as written. */
    constructor (alpha: real, trigger: U16, sustain: U16)
      requires alpha <= 1.0
      ensures Valid() && fresh(filter) && fresh(gate)
      ensures State() == InputState(AsWrittenA(alpha), AsWrittenB(AsWrittenA(alpha)), 0,
                                    GateState(trigger, sustain, 0, false))
    {
      filter := new AdcFilter.AsWritten(alpha);
      gate := new AdcGate(trigger, sustain);
    }

    /** `AnalogInput::new` with the corrected filter. */
    constructor Corrected(alpha: real, trigger: U16, sustain: U16)
      requires alpha <= 1.0
      ensures Valid() && fresh(filter) && fresh(gate)
      ensures State() == InputState(CorrectedA(alpha), CorrectedB(CorrectedA(alpha)), 0,
                                    GateState(trigger, sustain, 0, false))
    {
      filter := new AdcFilter.Corrected(alpha);
      gate := new AdcGate(trigger, sustain);
    }

    method Poll(reading: Option<U16>) returns (r: Option<U16>)
      requires Valid()
      modifies filter, gate
      ensures Valid() && (State(), r) == PollSpec(old(State()), reading)
    {
      match reading {
        case None =>
          r := None;
        case Some(x) =>
          var y := filter.Filter(x);
          r := gate.Filter(y);
      }
    }
  }

  /** `(v / 32) as u8`: the CC value sent for a gated reading. */
  function CcValue(v: U16): (c: U8)
    ensures v < 4096 ==> c <= 127 && c == v / 32
  {
    (v / 32) % U8_LIMIT
  }

  /** The message a poll with output `out` sends for control number `control`. */
  function Emitted(control: U8, out: Option<U16>): seq<MidiMsg>
  {
    if out.Some? then [ControlMessage(control, CcValue(out.value))] else []
  }

  /**
   * `produce_midi_on_analog_input_change` for as many ticks as there are
   * readings: tick t polls input t mod n with reading t. The result is the
   * inputs' new states and the messages sent, oldest first. With no inputs
   * the loop polls nothing and sends nothing.
   */
  function RoundRobin(states: seq<ValidInput>, controls: seq<U8>, readings: seq<Option<U16>>):
    (r: (seq<ValidInput>, seq<MidiMsg>))
    requires |states| == |controls|
    ensures |r.0| == |states|
  {
    if |readings| == 0 || |states| == 0 then (states, [])
    else
      var t := |readings| - 1;
      var prev := RoundRobin(states, controls, readings[..t]);
      var k := t % |states|;
      var poll := PollSpec(prev.0[k], readings[t]);
      (prev.0[k := poll.0], prev.1 + Emitted(controls[k], poll.1))
  }

  /** Inputs whose reads all fail send nothing and keep their state. */
  lemma {:induction false} FailedReadsSendNothing(states: seq<ValidInput>, controls: seq<U8>,
                                                  readings: seq<Option<U16>>)
    requires |states| == |controls|
    requires forall i :: 0 <= i < |readings| ==> readings[i].None?
    ensures RoundRobin(states, controls, readings) == (states, [])
  {
    if |readings| > 0 && |states| > 0 {
      var t := |readings| - 1;
      FailedReadsSendNothing(states, controls, readings[..t]);
      var k := t % |states|;
      var prev := RoundRobin(states, controls, readings[..t]);
      assert prev.0 == states && prev.1 == [];
      assert readings[t].None?;
      var poll := PollSpec(prev.0[k], readings[t]);
      assert poll.0 == states[k] && poll.1.None?;
      assert Emitted(controls[k], poll.1) == [];
      assert prev.0[k := poll.0] == states;
      assert RoundRobin(states, controls, readings).0 == states;
      assert RoundRobin(states, controls, readings).1 == [];
    }
  }

  /**
   * Tick t touches input t mod n only, and every message sent is a
   * channel-1 control change carrying one of the inputs' control numbers.
   */
  lemma {:induction false} RoundRobinSendsControls(states: seq<ValidInput>, controls: seq<U8>,
                                                   readings: seq<Option<U16>>)
    requires |states| == |controls|
    ensures var msgs := RoundRobin(states, controls, readings).1;
      |msgs| <= |readings| &&
      forall m :: m in msgs ==>
        m.ChannelVoice? && m.channel == CH1 && m.msg.ControlChange? && m.msg.control.CC? &&
        m.msg.control.control in controls
  {
    if |readings| > 0 {
      var t := |readings| - 1;
      RoundRobinSendsControls(states, controls, readings[..t]);
    }
  }

  /** A tick polls input t mod n and leaves every other input as it was. */
  lemma RoundRobinTouchesOneInput(states: seq<ValidInput>, controls: seq<U8>,
                                  readings: seq<Option<U16>>, i: nat)
    requires |states| == |controls| > 0 && |readings| > 0 && i < |states|
    ensures var t := |readings| - 1;
      var before := RoundRobin(states, controls, readings[..t]).0;
      var after := RoundRobin(states, controls, readings).0;
      i != t % |states| ==> after[i] == before[i]
    ensures var t := |readings| - 1;
      var before := RoundRobin(states, controls, readings[..t]).0;
      RoundRobin(states, controls, readings).0[t % |states|] == PollSpec(before[t % |states|], readings[t]).0
  {
    var t := |readings| - 1;
    var prev := RoundRobin(states, controls, readings[..t]);
    var k := t % |states|;
    assert RoundRobin(states, controls, readings).0 == prev.0[k := PollSpec(prev.0[k], readings[t]).0];
  }

  /** Analog inputs whose filters and gates are all distinct objects. */
  predicate Owned(inputs: seq<AnalogInput>)
  {
    forall i, j :: 0 <= i < j < |inputs| ==>
      inputs[i].filter != inputs[j].filter && inputs[i].gate != inputs[j].gate
  }

  function Parts(inputs: seq<AnalogInput>): set<object>
  {
    (set i | 0 <= i < |inputs| :: inputs[i].filter) + (set i | 0 <= i < |inputs| :: inputs[i].gate)
  }

  predicate AllValid(inputs: seq<AnalogInput>)
    reads Parts(inputs)
  {
    forall i :: 0 <= i < |inputs| ==> inputs[i].Valid()
  }

  function InputStates(inputs: seq<AnalogInput>): (r: seq<ValidInput>)
    requires AllValid(inputs)
    reads Parts(inputs)
    ensures |r| == |inputs|
  {
    seq(|inputs|, i reads Parts(inputs) requires 0 <= i < |inputs| && inputs[i].Valid() => inputs[i].State())
  }

  /** One step of the round robin, as a fact about the prefixes. */
  lemma RoundRobinStep(states: seq<ValidInput>, controls: seq<U8>, readings: seq<Option<U16>>, t: nat)
    requires |states| == |controls| > 0 && t < |readings|
    ensures var prev := RoundRobin(states, controls, readings[..t]);
      var k := t % |states|;
      var poll := PollSpec(prev.0[k], readings[t]);
      RoundRobin(states, controls, readings[..t + 1]) ==
        (prev.0[k := poll.0], prev.1 + Emitted(controls[k], poll.1))
  {
    assert readings[..t + 1][..t] == readings[..t];
  }

  /** The polling loop, run for |readings| ticks, sending onto the event queue. */
  method ProduceMidi(inputs: seq<AnalogInput>, controls: seq<U8>, readings: seq<Option<U16>>,
                     events: EventQueue)
    requires |inputs| == |controls| && Owned(inputs) && AllValid(inputs)
    modifies Parts(inputs), events
    ensures AllValid(inputs)
    ensures InputStates(inputs) == RoundRobin(old(InputStates(inputs)), controls, readings).0
    ensures events.sent == old(events.sent) + RoundRobin(old(InputStates(inputs)), controls, readings).1
  {
    if |inputs| == 0 {
      return;
    }
    ghost var s0 := InputStates(inputs);
    var t := 0;
    while t < |readings|
      invariant 0 <= t <= |readings| && AllValid(inputs)
      invariant InputStates(inputs) == RoundRobin(s0, controls, readings[..t]).0
      invariant events.sent == old(events.sent) + RoundRobin(s0, controls, readings[..t]).1
    {
      RoundRobinStep(s0, controls, readings, t);
      Tick(inputs, controls, t % |inputs|, readings[t], events);
      t := t + 1;
    }
    assert readings[..t] == readings;
  }

  /** Tick k of the loop: poll input k and send a control change if its gate is open. */
  method Tick(inputs: seq<AnalogInput>, controls: seq<U8>, k: nat, reading: Option<U16>,
              events: EventQueue)
    requires |inputs| == |controls| && k < |inputs| && Owned(inputs) && AllValid(inputs)
    modifies inputs[k].filter, inputs[k].gate, events
    ensures AllValid(inputs)
    ensures var poll := PollSpec(old(InputStates(inputs))[k], reading);
      InputStates(inputs) == old(InputStates(inputs))[k := poll.0] &&
      events.sent == old(events.sent) + Emitted(controls[k], poll.1)
  {
    var out := PollOne(inputs, k, reading);
    ghost var after := InputStates(inputs);
    if out.Some? {
      events.SendControl(controls[k], CcValue(out.value));
    }
    assert InputStates(inputs) == after;
  }

  /** Polls input k, leaving the other inputs' parts alone. */
  method PollOne(inputs: seq<AnalogInput>, k: nat, reading: Option<U16>) returns (out: Option<U16>)
    requires k < |inputs| && Owned(inputs) && AllValid(inputs)
    modifies inputs[k].filter, inputs[k].gate
    ensures AllValid(inputs)
    ensures var (s, o) := PollSpec(old(InputStates(inputs))[k], reading);
      InputStates(inputs) == old(InputStates(inputs))[k := s] && out == o
  {
    ghost var before := InputStates(inputs);
    out := inputs[k].Poll(reading);
    assert forall i :: 0 <= i < |inputs| && i != k ==> inputs[i].State() == before[i];
    assert InputStates(inputs) == before[k := inputs[k].State()];
  }
}
