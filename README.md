# esp-synth in Dafny

A model of the firmware core of esp-synth, a single-voice synthesizer for the ESP32, with
proofs about that model. The core covers three parts:

- **Control path.** Analog knobs are smoothed by a fixed-point one-pole filter and then gated by
  a hysteresis gate. The round-robin poller turns accepted readings into MIDI control changes.
  A sequencer task emits note-on/note-off pairs. A voice handles channel-1 MIDI: note-on,
  note-off, and control changes 14–23 that retune oscillators and set filter and envelope
  parameters.
- **Signal path.** A phase accumulator drives sine, sawtooth and PWM oscillators; a noise
  oscillator draws random words. An ADSR envelope is a four-stage machine. The filter
  combinators are `chain`, `apply`, an amplifier and a mixer. The low- and high-pass biquads are
  opaque.
- **Build-time tables and output.** The 88-key equal-tempered scale and the 64-entry sine table
  are built by loops, and `sin`/`cos` work by range reduction and interpolation. The I2S sample
  pipeline is the chunk buffer: its fill, `push`, `rotate_left`, and how `start` is recomputed.

Source files map to Dafny files one to one:

| source | model |
|---|---|
| `src/input.rs` | `input.dfy` |
| `src/synth.rs` | `synth.dfy` |
| `src/envelope.rs` | `envelope.dfy` |
| `src/filters/traits.rs` | `filter_traits.dfy` |
| `src/filters/volume.rs` | `volume.dfy` |
| `src/filters/pass.rs` | `pass.dfy` (opaque) |
| `src/oscillators/phaser.rs` | `phaser.dfy` |
| `src/oscillators/traits.rs` and `oscillators.rs` | `oscillators.dfy` |
| `src/oscillators/scales.rs` | `scales.dfy` |
| `src/discrete_functions.rs` | `discrete_functions.dfy` |
| `src/midi/send.rs` | `midi.dfy` |
| `src/midi/sequencer.rs` | `sequencer.dfy` |
| `src/i2s.rs` | `i2s.dfy` |
| `gen_fut` loops of `src/bin/usbsynthy.rs`, `synthy.rs` and `beepy.rs` | `pipeline.dfy` |

`ints.dfy` and `wrappers.dfy` hold the integer widths and `Option`.

Every struct that the source updates through `&mut self` is a class with the same fields:
`PhaseGenerator`, `Oscillator`, `ADSREnvelope`, `PassFilter`, `Amplifier`, `AdcFilter`,
`AdcGate`, `AnalogInput`, `Voice`, the MIDI event queue and the chunk-buffer loop. Each class
has a `State()` function that returns a pure datatype. Each method is proved to move that state
by a transition function, for example `ensures State() == Advance(old(State()))`. The
properties are lemmas about those transition functions. Loops (the table builders, `factorial`,
`pow`, `sin_apx`, the voice's loops over its oscillators, the poller, the sequencer and the
buffer fill) are `while` loops with invariants, tied to a reference function.

`f32` arithmetic is idealised as exact `real` arithmetic. `PI` is the `f32` constant as
written, 3.1415927, and `TAU` is exactly `2 * PI`. The integers the source works with (`u16`,
`u32`, `i16`, `i32`) are unbounded integers restricted to their ranges, and every conversion is
written out. That covers the `>> 16` of the smoother, `(v / 32) as u8`, the saturating
`as i16`, and the `i16 / 2` that rounds toward zero.

## Model

| member | source | states |
|---|---|---|
| Input.Smooth | src/input.rs:38-44 | `a*x + b*y` stays below 2^32 whenever a + b ≤ 2^16, and the result is that sum shifted right by 16: r·2^16 ≤ a·x + b·y < (r+1)·2^16, so it fits in u16 |
| Input.AsWrittenA | src/input.rs:27-28 | as written, a = `(65535·alpha) as u32`: alpha scaled by 65535 and truncated, at most 65535, and 0 for alpha ≤ 0 |
| Input.CorrectedA | src/input.rs:27-28 | the intended a = 2^16·alpha that the comment on line 27 gives, at most 2^16 |
| Input.AsWrittenB | src/input.rs:26-32 | as written, `b = u16::MAX - a`, so a + b = 65535 rather than 2^16 |
| Input.CorrectedB | src/input.rs:26-32 | the intended coefficient: a + b = 2^16, so the weights sum to one |
| Input.AsWrittenBounds | src/input.rs:42 | with the as-written weights the output lies in [min(x, y) − 1, max(x, y)]: it never exceeds either input and can sag one count below both |
| Input.CorrectedBounds | src/input.rs:42 | with the corrected weights the output lies between the previous output and the input |
| Input.AsWrittenFullAlphaLosesOne | src/input.rs:26-32 | alpha = 1 gives a = 65535, b = 0, and then every reading x ≥ 1 comes out as x − 1, for instance 100 ↦ 99, contradicting "alpha = 1: no filtering" (src/input.rs:107). Correcting line 30 alone gives b = 1, which still turns every reading above the previous output into x − 1, so 100 stays at 99 |
| Input.CorrectedFullAlphaIsIdentity | src/input.rs:26-44 | with a = 2^16·alpha and b = 2^16 − a, alpha = 1 gives a = 2^16, b = 0 and passes every reading through unchanged |
| Input.AdcFilter.AsWritten | src/input.rs:26-32 | the filter built as written from alpha: a = `(65535·alpha) as u32`, b = 65535 − a, y = 0 |
| Input.AdcFilter.Corrected | src/input.rs:26-32 | the filter with the corrected a = 2^16·alpha, b = 2^16 − a and y = 0 |
| Input.AdcFilter.Filter | src/input.rs:38-44 | the stored y and the returned value are the same and equal the smoothing step from the old y |
| Input.AbsDiff | src/input.rs:70 | `abs_diff`: \|x − last\| in either order |
| Input.GateBands | src/input.rs:69-83 | a difference above the trigger opens the gate. A difference below the sustain threshold, and not above the trigger, closes it. In the band between, activity is kept. The gate returns Some(x) exactly when it is open afterwards and None exactly when closed. `last` moves to x only when open, and the thresholds never change |
| Input.GateRun | src/input.rs:69-83 | gating a sequence of readings yields one output per reading, and every value it lets through is the reading itself |
| Input.ClosedGateIgnoresNoise | src/input.rs:70-82 | a closed gate fed readings that never differ from `last` by more than the trigger stays closed, keeps its state and yields only None |
| Input.AdcGate.constructor | src/input.rs:56-63 | the given thresholds, last = 0, inactive |
| Input.AdcGate.Filter | src/input.rs:69-83 | the new gate state and the output are one `GateStep` of the old state |
| Input.PollAppliesFilterThenGate | src/input.rs:139-143 | a successful poll is `x.apply(filter)` followed by `.apply(gate)` on the smoother and the gate viewed as filters, and equally one step of the smoother chained with the gate |
| Input.PollEffect | src/input.rs:139-143 | a failed read returns None and leaves filter and gate untouched. A successful read always advances the filter, even when the gate then yields None. It yields the smoothed value exactly when the gate is open afterwards |
| Input.AnalogInput.constructor | src/input.rs:119-125 | a fresh filter built by `AdcFilter::new` as written and y = 0, and a fresh gate with the given thresholds |
| Input.AnalogInput.Corrected | src/input.rs:119-125 | the same input with the corrected filter, a = 2^16·alpha and b = 2^16 − a |
| Input.AnalogInput.Poll | src/input.rs:139-143 | the new state and the result are the `poll` transition of the old state and the reading |
| Input.CcValue | src/input.rs:205 | `(v / 32) as u8`; for v ≤ 4095 it is v / 32 and at most 127 |
| Input.RoundRobin | src/input.rs:195-210 | the round robin keeps one state per input |
| Input.FailedReadsSendNothing | src/input.rs:202-207 | when every read fails, no message is sent and no input changes |
| Input.RoundRobinSendsControls | src/input.rs:202-207 | at most one message per tick, each a channel-1 control change whose control number is one of the inputs' controls |
| Input.RoundRobinTouchesOneInput | src/input.rs:202-204 | tick t polls input t mod n with its reading and leaves every other input as it was |
| Input.RoundRobinStep | src/input.rs:202-207 | one tick of the round robin: poll input t mod n, update it, append what it emitted |
| Input.ProduceMidi | src/input.rs:195-210 | after \|readings\| ticks the inputs hold the round-robin states, and the queue got exactly the round-robin messages, oldest first, appended |
| Input.Tick | src/input.rs:202-207 | one tick: input k is polled; a control change with value v/32 is sent iff its gate yields a value |
| Input.PollOne | src/input.rs:204 | polling input k changes input k only |
| Synth.LogMap | src/synth.rs:149-152 | `log_map` is the base raised to the linearly mapped exponent, positive for a positive base |
| Synth.LinearMap | src/synth.rs:144-146 | `linear_map` maps 0..127 into [vmin, vmax] for vmin ≤ vmax |
| Synth.LinearMapRange | src/synth.rs:144-146 | `linear_map(0) = vmin` and `linear_map(127) = vmax`. For vmin ≤ vmax the map is monotone in the value and stays in [vmin, vmax] |
| Synth.TuningFactor | src/synth.rs:91 | the CC 14 tuning factor is positive, so 1/f is defined |
| Synth.Detuned | src/synth.rs:90-96 | the detuned oscillator list keeps its length |
| Synth.OscOutputs | src/synth.rs:43 | one output per oscillator |
| Synth.IgnoredMessagesChangeNothing | src/synth.rs:53-72 | a message off channel 1, a voice message other than note-on/off/CC, an undefined CC or a CC outside 14–23 is accepted and leaves the whole voice unchanged |
| Synth.NoteOnEffect | src/synth.rs:74-79 | note-on holds the note and sets every phased oscillator's frequency to the scale entry of the note. Noise is left as it is, the envelope stage becomes Attack, and the filters are unchanged |
| Synth.NoteOffEffect | src/synth.rs:81-85 | note-off clears the held note whatever note it names, sets the envelope to Release, and leaves oscillators and filters untouched |
| Synth.DetuneEffect | src/synth.rs:90-96 | CC 14 tunes oscillator 2k by f and 2k+1 by 1/f for every full pair. With an odd count the last oscillator is untouched. Envelope, filters and note are unchanged |
| Synth.FilterControls | src/synth.rs:98-114 | CC 15/16 change only the low-pass cutoff/Q, and CC 17/18 only the high-pass cutoff/Q, to the mapped values |
| Synth.EnvelopeControls | src/synth.rs:116-133 | CC 19–22 each set exactly one envelope parameter. CC 23 sets attack, decay and release to one value and keeps sustain, stage and level. The mapped time is positive |
| Synth.SendControlReachesHandler | src/midi/send.rs:5-13 | a message built by `send_control(c, v)` is routed by `handle_midi` to the control-change handler with the same c and v (src/synth.rs:54-67) |
| Synth.GenerateEffect | src/synth.rs:42-46 | `generate` steps every oscillator exactly once and feeds the sum of their outputs to the low-pass filter. The envelope and high-pass are not touched, nor is the note |
| Synth.AppendFresh | src/synth.rs:28-34 | one freshly built oscillator is appended, and the oscillators and their phase generators stay pairwise distinct |
| Synth.NewOscillators | src/synth.rs:28-34 | two sawtooths at the A4 reference, two at the A3 reference, then noise, all fresh and distinct |
| Synth.Voice.OscStates | src/synth.rs:17-18 | one oscillator state per oscillator |
| Synth.Voice.Streams | src/synth.rs:33 | one random stream per oscillator |
| Synth.Voice.constructor | src/synth.rs:26-40 | the five oscillators in order, the envelope (0.01, 0.01, 0.6, 0.2) idle at level 0, the low-pass at 440 Hz with Q 0.72, the high-pass at its start values, and no note |
| Synth.Voice.HandleMidi | src/synth.rs:53-72 | the voice after `handle_midi` is `HandleMidiSpec` of the old voice |
| Synth.Voice.HandleNoteOn | src/synth.rs:74-79 | `set_note` is applied to every oscillator in order, then `note_on` to the envelope |
| Synth.Voice.HandleNoteOff | src/synth.rs:81-85 | note ← None and the envelope's `note_off` |
| Synth.Voice.Detune | src/synth.rs:92-95 | the loop over i = 0, 2, … < len − 1 leaves the oscillators detuned pairwise |
| Synth.Voice.HandleControlChange | src/synth.rs:87-137 | the voice after a control change is the control-change transition of the old voice |
| Synth.Voice.GenerateAll | src/synth.rs:43 | every oscillator is stepped once, and the returned sum is the sum of their outputs in list order |
| Synth.Voice.Generate | src/synth.rs:42-46 | the new voice is the `generate` transition, and the result is the low-pass filter's response to its input |
| Envelope.NewEnv | src/envelope.rs:27-36 | the parameters as given, Idle, level 0 |
| Envelope.NotesForceStage | src/envelope.rs:40-46 | from any stage note-on forces Attack and note-off forces Release. Neither touches level or parameters, and each undoes the other's stage |
| Envelope.StepKeepsParameters | src/envelope.rs:53-75 | no `filter` step changes a parameter |
| Envelope.AttackStep | src/envelope.rs:55-61 | attack adds DT/attack_time. On reaching ≥ 1 the level clamps to 1 and the stage becomes DecaySustain; otherwise it stays in Attack |
| Envelope.DecayTowardsSustain | src/envelope.rs:62-64 | DecaySustain never leaves its stage. With 0 < DT/decay_time ≤ 1 the level moves from its old value towards sustain_level without overshooting |
| Envelope.ReleaseStep | src/envelope.rs:65-71 | release subtracts DT·sustain_level/release_time. At or below 0 the level becomes 0 and the stage Idle; otherwise it stays in Release |
| Envelope.ReleaseWithoutSustainStuck | src/envelope.rs:65-71 | with sustain_level = 0 and a level above 0, any number of steps leaves the state unchanged: the release never ends |
| Envelope.IdleAndOutput | src/envelope.rs:72-74 | Idle is a fixed point, and every call returns x times the level after the step |
| Envelope.StepKeepsLevelInRange | src/envelope.rs:55-71 | with positive attack and release times, decay time ≥ DT and sustain in [0, 1], every step keeps the level in [0, 1] and the parameters well tuned |
| Envelope.ADSREnvelope.constructor | src/envelope.rs:27-36 | the state of `new` |
| Envelope.ADSREnvelope.NoteOn | src/envelope.rs:40-42 | the note-on transition |
| Envelope.ADSREnvelope.NoteOff | src/envelope.rs:44-46 | the note-off transition |
| Envelope.ADSREnvelope.Filter | src/envelope.rs:53-75 | the new state is one stage-machine step, and the result is x times the new level |
| FilterTraits.Run | src/filters/traits.rs:4 | one `filter` call is one application of the filter's step, and it keeps that step |
| FilterTraits.Apply | src/filters/traits.rs:13-16 | `x.apply(f)` is `f.filter(x)`: the filter's step on its state and x, and the step is kept. Its one use, `poll`, is `Input.PollAppliesFilterThenGate` |
| FilterTraits.Chain | src/filters/traits.rs:5-10 | `chain` stores both filters unchanged |
| FilterTraits.ChainRunsBothOnce | src/filters/traits.rs:29-37 | a chain step runs f1 on x and then f2 on f1's output, each exactly once. Both steps are kept, and the chain viewed as a filter on the pair of states agrees |
| FilterTraits.NestedChainsComposeLeftToRight | src/filters/traits.rs:29-37 | a chain of a chain runs f1, f2 and f3 in that order, and its output does not depend on the bracketing |
| Volume.Clamp | src/filters/volume.rs:23 | `clamp` returns a value in [lo, hi]: v itself inside, the nearer bound outside |
| Volume.Amplify | src/filters/volume.rs:22-24 | the amplifier's output is always within [−0.99, 0.99] |
| Volume.AmplifyLinearInBand | src/filters/volume.rs:22-24 | inside the band the amplifier is exactly x·gain. With zero gain it is silent, and above the band it saturates at 0.99 |
| Volume.Amplifier.constructor | src/filters/volume.rs:10-12 | gain 0 |
| Volume.Amplifier.SetGain | src/filters/volume.rs:14-16 | only the gain changes |
| Volume.Amplifier.Filter | src/filters/volume.rs:22-24 | stateless: the result is the clamped product and nothing changes |
| Volume.NewMixer | src/filters/volume.rs:32-36 | N levels, each 1/N |
| Volume.WeightedBound | src/filters/volume.rs:43-45 | `Mixer::filter`'s weighted sum: with non-negative levels and inputs in [−1, 1], its magnitude is at most the sum of the levels |
| Volume.NewMixerStaysInRange | src/filters/volume.rs:32-45 | a fresh mixer fed inputs in [−1, 1] outputs a value in [−1, 1] |
| Volume.WeightedUniform | src/filters/volume.rs:43-45 | with all levels equal to c the weighted sum is c times the plain sum |
| Volume.NewMixerAverages | src/filters/volume.rs:32-45 | a fresh mixer outputs the mean of its inputs |
| Volume.WeightedUpdate | src/filters/volume.rs:43-45 | changing input k moves the output by levels[k]·(new − old) and by nothing else |
| Pass.ParameterUpdatesIndependent | src/filters/pass.rs:38-46 | `set_cutoff` and `set_q` commute, each changes only its own parameter, and neither touches the input history |
| Pass.FeedAppends | src/filters/pass.rs:72-78 | one `filter` call appends exactly the new sample, tagged with the current parameters |
| Pass.PassFilter.LowPass | src/filters/pass.rs:22-36 | a low-pass filter starts at 440 Hz with Q 0.72 and an empty history |
| Pass.PassFilter.constructor | src/synth.rs:37 | the high-pass filter of the voice: the given start parameters and an empty history |
| Pass.PassFilter.SetCutoff | src/filters/pass.rs:38-41 | only the cutoff changes |
| Pass.PassFilter.SetQ | src/filters/pass.rs:43-46 | only Q changes |
| Pass.PassFilter.Filter | src/filters/pass.rs:72-78 | the sample is recorded, and the output is the response to the history |
| Phaser.PhaseIncrementProportional | src/oscillators/phaser.rs:10-12 | the increment is proportional to f_set and to tune, and f_ref = 440 makes the reference factor 1 |
| Phaser.NewPhase | src/oscillators/phaser.rs:32-40 | phi = 0, dphi = 0, f_set = 440, the given f_ref, tune = 1 |
| Phaser.RetuneKeepsPhase | src/oscillators/phaser.rs:42-50 | `tune` and `set_frequency` each set their own field and resynchronise dphi. They keep phi and the other fields, and they commute |
| Phaser.StepsKeepSync | src/oscillators/phaser.rs:52-63 | `reset` zeroes phi only, `generate` changes phi only, so both keep dphi in sync |
| Phaser.FreshNeverAdvances | src/oscillators/phaser.rs:32-40 | a fresh generator never moves, however many `generate` calls. For f_ref ≠ 0 its dphi = 0 disagrees with its own parameters until `tune`/`set_frequency` |
| Phaser.AdvanceInRange | src/oscillators/phaser.rs:56-63 | with 0 ≤ dphi ≤ TAU, phi in [0, TAU] stays in [0, TAU], and TAU is subtracted at most once |
| Phaser.AdvanceRangeEdges | src/oscillators/phaser.rs:42-63 | phi can land exactly on TAU because the wrap test is strict: a fresh generator set to 20500 Hz at the reference pitch steps by PI, in sync, and two steps reach TAU. A frequency of three times the sample rate steps by 3·TAU and leaves the range despite the wrap |
| Phaser.AdvanceNPhase | src/oscillators/phaser.rs:56-63 | after n steps phi is the start plus n increments minus one TAU per wrap, and nothing else changes |
| Phaser.AdvanceNFields | src/oscillators/phaser.rs:56-63 | n steps keep dphi and every field other than phi |
| Phaser.AdvanceStepWraps | src/oscillators/phaser.rs:58-62 | step n adds dphi; strictly above TAU it also subtracts TAU and counts one more wrap, otherwise the wrap count stays |
| Phaser.AdvanceNUnwound | src/oscillators/phaser.rs:56-63 | the closed form of phi after n steps, by induction over the steps |
| Phaser.PhaseGenerator.constructor | src/oscillators/phaser.rs:32-40 | the state of `new` |
| Phaser.PhaseGenerator.Tune | src/oscillators/phaser.rs:42-45 | the tune transition |
| Phaser.PhaseGenerator.SetFrequency | src/oscillators/phaser.rs:47-50 | the set-frequency transition |
| Phaser.PhaseGenerator.Reset | src/oscillators/phaser.rs:52-54 | the reset transition |
| Phaser.PhaseGenerator.Generate | src/oscillators/phaser.rs:56-63 | returns the phase before the step, and the state advances once |
| Oscillators.NewOsc | src/oscillators/oscillators.rs:28-32 | a new oscillator has the given wave, a fresh phase generator and no draws |
| Oscillators.PhasedDelegation | src/oscillators/traits.rs:38-54 | for a phased oscillator, `tune`, `set_frequency` and `reset` forward unchanged to the phase generator and change nothing else. `set_note(n)` is `set_frequency(freq(n))`, and `generate` advances the generator once |
| Oscillators.NoiseIgnoresControls | src/oscillators/oscillators.rs:155-160 | on noise, tune, set_frequency, set_note and reset are no-ops, and `generate` only draws one word |
| Oscillators.OutputDependsOnPhaseOnly | src/oscillators/oscillators.rs:38-41 | a phased sample depends only on the phase the generator returned |
| Oscillators.PwmTwoLevels | src/oscillators/oscillators.rs:114-121 | PWM is exactly 1 or −1, and 1 iff phi < TAU·duty |
| Oscillators.SawToothRange | src/oscillators/oscillators.rs:73-76 | phi/π − 1 lies in [−1, 1] for phi in [0, TAU], from −1 at 0 to 1 at TAU |
| Oscillators.NoiseRange | src/oscillators/oscillators.rs:146-151 | the divisor `i32::MAX as f32` is 2^31, so every noise sample lies in [−1, 1] and `i32::MIN` maps to −1 exactly |
| Oscillators.SineReachesTau | src/oscillators/oscillators.rs:38-41 | a sine oscillator set to 20500 Hz reaches the phase TAU after two `generate` calls, so the third call's `sin` panics |
| Oscillators.FreshOscillatorStuck | src/oscillators/oscillators.rs:28-41 | an untuned phased oscillator stays in its initial state forever, and an untuned sine outputs 0 |
| Oscillators.Oscillator.PhasedWave | src/oscillators/oscillators.rs:103-108 | `SineOscillator::new`, `SawToothOscillator::new` and `PWMOscillator::new` build a fresh `PhaseGenerator::new(f_ref)`, and PWM stores its duty cycle unchanged |
| Oscillators.Oscillator.Noise | src/oscillators/oscillators.rs:136-141 | noise starts with no draws and the given stream |
| Oscillators.Oscillator.Generate | src/oscillators/oscillators.rs:144-151 | the result is the output of the old state, and the state advances once (phase, or one draw) |
| Oscillators.Oscillator.Tune | src/oscillators/traits.rs:39-41 | the tune transition (a no-op for noise) |
| Oscillators.Oscillator.SetFrequency | src/oscillators/traits.rs:43-45 | the set-frequency transition (a no-op for noise) |
| Oscillators.Oscillator.SetNote | src/oscillators/traits.rs:47-49 | the set-note transition (a no-op for noise) |
| Oscillators.Oscillator.Reset | src/oscillators/traits.rs:51-53 | the reset transition (a no-op for noise) |
| Scales.TemperedScaleOf | src/oscillators/scales.rs:8-24 | the scale has 88 entries |
| Scales.TemperedScale | src/oscillators/scales.rs:26 | `TEMPERED_SCALE` has 88 entries |
| Scales.CreateTemperedScale | src/oscillators/scales.rs:8-24 | the two loops write every one of the 88 slots, each with the reference entry |
| Scales.Freq | src/oscillators/scales.rs:28-30 | `freq(n)` is `TEMPERED_SCALE[n]`, and `freq(NOTE_A4)` is 440 |
| Scales.ScaleRecurrences | src/oscillators/scales.rs:10-21 | entry 49 is the pitch. For 49 ≤ i < 87, scale[i+1] = factor·scale[i]; for 1 ≤ i ≤ 49, scale[i−1] = scale[i]/factor |
| Scales.AdjacentIncreasing | src/oscillators/scales.rs:13-21 | for a positive pitch each entry is positive and below the next |
| Scales.ScaleStrictlyIncreasing | src/oscillators/scales.rs:8-24 | for a positive pitch all 88 entries are positive and strictly increasing |
| DiscreteFunctions.Fact | src/discrete_functions.rs:7-15 | n! is at least 1 |
| DiscreteFunctions.FactorialU32Bound | src/discrete_functions.rs:7-15 | 12! fits in u32 and 13! does not |
| DiscreteFunctions.Factorial | src/discrete_functions.rs:7-15 | the loop computes n! |
| DiscreteFunctions.Pow | src/discrete_functions.rs:17-25 | the loop computes xⁿ by repeated multiplication |
| DiscreteFunctions.SinApx | src/discrete_functions.rs:27-37 | the loop sums the odd terms of degree 1, 3, … below n with alternating sign: the first n/2 Taylor terms |
| DiscreteFunctions.SinTable | src/discrete_functions.rs:39-60 | the table has 64 entries |
| DiscreteFunctions.SinTableSymmetry | src/discrete_functions.rs:43-57 | the anchors are table[0] = 0, table[16] = 1, table[32] = 0 and table[48] = −1. For 1 ≤ i < 16: table[32−i] = table[i], table[32+i] = −table[i], table[64−i] = −table[i] |
| DiscreteFunctions.Writer | src/discrete_functions.rs:50-57 | names the loop step that writes a non-anchor slot |
| DiscreteFunctions.SinTableSlotsWrittenOnce | src/discrete_functions.rs:43-57 | the four slots of a loop step are distinct, never an anchor, and no two steps share a slot, so every index 0..63 is written exactly once |
| DiscreteFunctions.WriteQuarterStep | src/discrete_functions.rs:51-54 | one loop step writes v, v, −v, −v into its four slots and nothing else |
| DiscreteFunctions.GenerateSinTable | src/discrete_functions.rs:39-60 | the loop builds exactly the reference table |
| DiscreteFunctions.QuarterStepFills | src/discrete_functions.rs:50-57 | one loop step writes quarter value i into slots i, 32 − i, 32 + i and 64 − i and leaves the rest. After it, every slot of steps up to i holds its final entry |
| DiscreteFunctions.AnchorsFilled | src/discrete_functions.rs:43-47 | the four anchors 0, 1, 0, −1 at slots 0, 16, 32, 48 are final before the loop starts |
| DiscreteFunctions.FilledIsTable | src/discrete_functions.rs:39-60 | once all 15 steps have run, every slot holds its final entry, so the array is the table |
| DiscreteFunctions.TableIndex | src/discrete_functions.rs:70-71 | `floor(phi/DPHI)` is at most 64, and it is 64 exactly at phi = TAU |
| DiscreteFunctions.Interpolate | src/discrete_functions.rs:70-76 | the result lies between the two adjacent entries it interpolates |
| DiscreteFunctions.SinAsWritten | src/discrete_functions.rs:64-78 | `sin` as written panics exactly at the non-zero whole multiples of TAU, and nowhere else |
| DiscreteFunctions.SinAsWrittenPanicsAtTau | src/discrete_functions.rs:64-78 | as written, `sin(TAU)` and `sin(-TAU)` index `SIN[64]`, past the table |
| DiscreteFunctions.Sin | src/discrete_functions.rs:64-78 | the corrected `sin` is defined for every phase and never exceeds the table's largest magnitude |
| DiscreteFunctions.SinAgreesWithSource | src/discrete_functions.rs:64-78 | wherever the source `sin` does not panic, it agrees with the corrected `Sin` |
| DiscreteFunctions.SinZeroWhereSourcePanics | src/discrete_functions.rs:64-78 | at the multiples of TAU where the source panics, the corrected `Sin` is 0 |
| DiscreteFunctions.SinTableMirror | src/discrete_functions.rs:43-57 | table entry (64 − j) mod 64 is the negation of entry j, for every j |
| DiscreteFunctions.InterpolateMirror | src/discrete_functions.rs:70-76 | in such a table, interpolating at TAU − y negates interpolating at y |
| DiscreteFunctions.MirrorAtNode | src/discrete_functions.rs:70-76 | the node case: y on node i gives TAU − y on node 64 − i, so the results are the two negated entries |
| DiscreteFunctions.MirrorInCell | src/discrete_functions.rs:70-76 | the cell case: y at weight e in cell i gives TAU − y at weight 1 − e in cell 63 − i, whose ends are the negated ends swapped |
| DiscreteFunctions.SinPeriodicOdd | src/discrete_functions.rs:64-78 | Sin is TAU-periodic and odd for every phase |
| DiscreteFunctions.SinAtNode | src/discrete_functions.rs:70-76 | at a node k·DPHI, Sin returns table entry k |
| DiscreteFunctions.Cos | src/discrete_functions.rs:80-82 | the corrected `cos` (through the corrected `Sin`) never exceeds the table's largest magnitude |
| DiscreteFunctions.CosAsWritten | src/discrete_functions.rs:80-82 | `cos` through the as-written `sin`: it panics exactly where phi + π/2 is a non-zero multiple of TAU |
| DiscreteFunctions.CosAgreesWithSource | src/discrete_functions.rs:80-82 | wherever the source's `cos` does not panic, it equals the corrected `Cos` |
| DiscreteFunctions.CosAsWrittenPanicsAtNode48 | src/discrete_functions.rs:65-82 | at node 48 (3π/2) the source's `cos` reaches `sin(TAU)` and panics, and the corrected `Cos` gives 0 there |
| DiscreteFunctions.CosAtNode | src/discrete_functions.rs:80-82 | at node k the corrected `Cos` is `Sin` a quarter period later: at node k + 16, wrapped below 64. At k = 48 the source panics instead (`CosAsWrittenPanicsAtNode48`) |
| DiscreteFunctions.SinCosAtZero | src/discrete_functions.rs:80-82 | sin 0 = 0, and cos 0 = sin(π/2) = 1 |
| Midi.ControlMessage | src/midi/send.rs:5-11 | a channel-1 control change `CC { control: c, value: v }` |
| Midi.NoteOnMessage | src/midi/send.rs:15-19 | a channel-1 NoteOn with the given note and velocity |
| Midi.NoteOffMessage | src/midi/send.rs:23-27 | a channel-1 NoteOff with the given note and velocity |
| Midi.MessagesDistinct | src/midi/send.rs:5-29 | each of the three constructions is injective in (control, value) or (note, velocity), and no control, note-on or note-off message equals one of another kind, for any arguments |
| Midi.EventQueue.constructor | src/midi.rs:10 | the event channel `MIDI_EVENTS` starts empty |
| Midi.EventQueue.SendControl | src/midi/send.rs:5-13 | exactly one control message is enqueued |
| Midi.EventQueue.SendNoteOn | src/midi/send.rs:15-21 | exactly one note-on is enqueued |
| Midi.EventQueue.SendNoteOff | src/midi/send.rs:23-29 | exactly one note-off is enqueued |
| Sequencer.Trace | src/midi/sequencer.rs:8-17 | b beats of a non-empty melody send 2b events, and an empty melody sends none |
| Sequencer.TraceShape | src/midi/sequencer.rs:10-16 | beat k sends NoteOn(melody[k mod len], 127) and then NoteOff of the same note at 127: two events per beat |
| Sequencer.OnsAndOffsAlternate | src/midi/sequencer.rs:12-16 | every event is on channel 1, ons and offs strictly alternate, and each on is followed at once by its own off |
| Sequencer.EmptyMelodySilent | src/midi/sequencer.rs:10 | an empty melody sends nothing |
| Sequencer.TraceExtends | src/midi/sequencer.rs:8-17 | later beats only append: events already sent never change |
| Sequencer.RunSequencer | src/midi/sequencer.rs:8-17 | running the loop for b beats appends exactly the trace, with the melody only read, in index order |
| I2s.Mono | src/bin/usbsynthy.rs:134 | a frame `[b, b]` carries b on both channels |
| I2s.BufferSizes | src/i2s.rs:10-21 | BYTES_PER_SAMPLE = 4, CHUNK_BYTES = 1024, TX_BYTES = 6144 |
| I2s.NewChunkBuffer | src/i2s.rs:55-57 | 256 frames, all [0, 0] |
| I2s.Push | src/i2s.rs:59-70 | an error panics (None) and only then. Otherwise the count is the whole samples in the bytes written, dropping a partial sample, and at most the samples offered when the transfer takes at most the bytes offered |
| Pipeline.TruncateBounds | src/bin/usbsynthy.rs:133 | `as` from float rounds toward zero and is monotone and odd |
| Pipeline.Saturate | src/bin/usbsynthy.rs:133 | `as i16` keeps in-range values and saturates to the nearer end |
| Pipeline.Half | src/bin/usbsynthy.rs:133 | `i16 / 2` rounds toward zero |
| Pipeline.SampleValue | src/bin/usbsynthy.rs:133 | `(a * i16::MAX as f32) as i16 / 2` always lies in [−16384, 16383] |
| Pipeline.SampleValueRange | src/bin/usbsynthy.rs:133 | every frame value lies in [−16384, 16383]. A sample in [−1, 1] gives at most 16383 in magnitude, and 0 gives 0 |
| Pipeline.SampleValueShape | src/bin/usbsynthy.rs:133 | the sample-to-frame map is monotone, and odd on [−1, 1] |
| Pipeline.Frames | src/bin/usbsynthy.rs:130-136 | value k becomes frame `[b, b]` with b its converted value |
| Pipeline.Filled | src/bin/usbsynthy.rs:130-136 | after the fill, slots before `start` are untouched and slot start+k holds value k on both channels |
| Pipeline.RotatedLeftIndex | src/bin/usbsynthy.rs:148 | after `rotate_left(w)`, new[i] = old[(i + w) mod len] |
| Pipeline.RotatedLeftPermutes | src/bin/usbsynthy.rs:148 | the rotation loses and duplicates no frame |
| Pipeline.NextStart | src/bin/usbsynthy.rs:149 | the next `start` is at most len, below len under `% len`, and len − w whenever the transfer took w > 0 frames (also src/bin/synthy.rs:127) |
| Pipeline.StartRules | src/bin/synthy.rs:127 | both rules point `start` just past the unsent frames and agree for w > 0. At w = 0 the `% len` rule (src/bin/usbsynthy.rs:149) gives 0 and the plain rule gives len. The plain rule gives 0 at w = len, and `start` always stays a valid slice start |
| Pipeline.UnsentFramesSurvive | src/bin/usbsynthy.rs:144-149 | for 0 < w < len the unsent frames old[w..len] land in 0..len−w and the next fill leaves them alone, under either rule |
| Pipeline.WrappedZeroDiscardsUnsent | src/bin/usbsynthy.rs:149 | as written, with `% len` a transfer that took nothing sets start = 0, so the next fill overwrites every unsent frame. For the initial buffer and samples of 1.0, slot 0 changes |
| Pipeline.UnwrappedKeepsUnsent | src/bin/synthy.rs:127 | with `len − w` the unsent frames survive for every w, 0 included. At w = 0 nothing is regenerated and the whole buffer is offered again |
| Pipeline.SourceValues | src/bin/usbsynthy.rs:130-132 | value k of a fill is the source's value number from + k |
| Pipeline.SilentSine | src/bin/beepy.rs:50-59 | the untuned sine of the beep binary keeps its state under `generate`, and yields 0, which becomes the silent frame [0, 0] |
| Pipeline.GenLoop.constructor | src/bin/usbsynthy.rs:124-125 | a fresh 256-frame silent buffer, and start = 0 |
| Pipeline.GenLoop.FillFromSource | src/bin/usbsynthy.rs:130-136 | `generate` is called len − start times, and the buffer becomes the filled buffer of those values |
| Pipeline.GenLoop.FillFromSilentSine | src/bin/beepy.rs:56-60 | len − start `generate` calls, every regenerated slot silent, slots before `start` kept, and the oscillator unchanged |
| Pipeline.GenLoop.SilentFrame | src/bin/beepy.rs:57-59 | one `generate` on the untuned sine gives the frame [0, 0] and keeps the oscillator's state |
| Pipeline.GenLoop.RotateLeft | src/bin/usbsynthy.rs:148 | the in-place rotation leaves the rotated frames |
| Pipeline.GenLoop.PushAndRotate | src/bin/usbsynthy.rs:144-149 | on a transfer error the loop panics with the buffer unchanged. Otherwise the buffer is rotated by the samples written and `start` follows the rule |
| Pipeline.VoiceCycle | src/bin/synthy.rs:110-128 | one loop pass: fill from the source, push, rotate and move `start` |
| Pipeline.UsbSynthyCycle | src/bin/usbsynthy.rs:126-150 | one pass of the USB synth's loop, whose next start is (len − w) % len |
| Pipeline.SynthyCycle | src/bin/synthy.rs:110-128 | one pass of the plain synth's loop, whose next start is len − w |
| Pipeline.BeepyCycle | src/bin/beepy.rs:55-71 | one pass of the beep loop: silent fill, oscillator unchanged, push, rotate, and start = (len − w) % len |

## Left out

- Floating point: `f32` is idealised as `real`. Rounding, infinities and NaN are not modelled.
- Envelope.ADSREnvelope.Filter: requires that the current stage's time is non-zero (`StepDefined`). In `f32` a zero time divides to an infinity, which `real` cannot express.
- `powf` in `log_map` is a parameter (`Powf`). The model assumes only that a positive base gives a positive power.
- The biquad coefficient maths in `src/filters/pass.rs` is opaque. A filter's output is a response function of its input history, and only `set_cutoff`, `set_q` and the recording of each sample are modelled. `BiquadHighPassFilter` is not part of this model: its start values are parameters, and it is assumed to offer the same `set_cutoff`/`set_q` as the low-pass.
- `XorShiftRng` is a parameter: noise words are a stream `nat -> i32`, and the seed `0xBAD_5EED` is not modelled.
- The `notes` module is not part of this model. The reference frequencies `freq(notes::A4)` and `freq(notes::A3)` of `Voice::new` are the parameters `refA4` and `refA3`.
- Scales.Freq: requires n < 88. `freq` panics on keys 88–127, which USB MIDI can deliver. The voice states this as `NoteAccepted`.
- Synth.Voice.HandleMidi: requires `Accepted`. A note-on of key ≥ 88 sent to a phased oscillator panics in `freq`. A CC 14 on an empty oscillator list underflows `len() - 1`, and the voice always holds five oscillators.
- DiscreteFunctions.Factorial: requires n ≤ 12. A larger n overflows u32, which aborts the const evaluation, and the source only uses n ≤ 9.
- DiscreteFunctions.SinApx: requires n ≤ 13, for the same reason; the table builder uses n = 10.
- Synth.Voice.HandleNoteOn, Synth.Voice.HandleNoteOff: the console logging `println!("on {}")` and `println!("off {}")` (src/synth.rs:75, 82) is not modelled; it is output only and changes no state.
- DiscreteFunctions.Cos: returns the corrected value, 0, where the source's `cos` panics, that is where phi + π/2 is a non-zero multiple of TAU (phi = 3π/2 + k·TAU). `CosAsWritten` models the panic, and `CosAgreesWithSource` shows that the two agree everywhere else. The only caller is the biquad (src/filters/pass.rs:49-51). Its cutoff is at most 2^14 Hz (src/synth.rs:99, 108), so omega = TAU·cutoff/41000 stays below 2.52, well short of 3π/2 ≈ 4.71.
- Oscillators.Oscillator.Generate: a sine oscillator at phase exactly TAU returns the corrected `Sin(TAU) = 0`, while the source's `sin` panics there (see Findings). The voice holds only sawtooths and noise, and the beep binary's sine stays at phase 0, so neither reaches it. `Oscillators.SineReachesTau` shows that a retuned sine does.
- Input.AsWrittenA: requires alpha ≤ 1. For a larger alpha, `u16::MAX as u32 - a` underflows. The f32 product is idealised as exact before truncation.
- The `PhaseGenerator` that `Noise` carries in the model is never used. It reflects how the model has one `Oscillator` class for all four kinds.
- The filter traits are modelled by value: a filter is a state together with a step function. `ChainFilter::filter`'s update of its two owned sub-filters is a new pair of states, not an update in place.
- The MIDI event channel of `src/midi.rs` is an unbounded FIFO (`EventQueue`). Its capacity of 4, blocking sends and the interleaving of tasks are not modelled.
- `src/midi/usb.rs` is context only. USB bring-up and MIDI parsing are foreign crates, and `&buf[1..n]` panics for an empty packet (n = 0).
- All embassy timing (tickers, timers, `await`) is abstracted. The sequencer is a trace per beat, and the poller is a function of the sequence of readings.
- The endless loops `loop { … }` are modelled for a finite number of ticks, beats or cycles.
- The ADC read `read_oneshot` is a parameter: one `Option<u16>` per tick. `AnalogInputBuilder` and the ADC pin setup are hardware configuration.
- Input.ProduceMidi: with no inputs the source spins forever without sending; the model polls nothing and sends nothing.
- Pipeline.GenLoop.PushAndRotate: requires that the transfer reports at most the bytes offered. A larger value would make `rotate_left` panic; the DMA transfer is a collaborator that promises this.
- The voice's sample stream in the synth binaries is abstract (`source`), because the MIDI task drives the voice between samples under a mutex. The beep binary's oscillator is modelled concretely (`FillFromSilentSine`).
- Pipeline.GenLoop.FillFromSource: the voice source is a function yielding its k-th value. The generic fill of arbitrary oscillator objects is not modelled, only the beep binary's untuned sine.
- Hardware setup, `i2s::new_i2s`, `take_tx_buffer`, the LEDs and the `join3`/`join4` task plumbing are not modelled. Nor are `src/bin/blinky.rs`, `src/bin/blank.rs` and `src/lib.rs`.

## Findings

| source | as written | input that shows it | evidently intended | confidence | as-written member | corrected member |
|---|---|---|---|---|---|---|
| src/input.rs:28-30 | `a = (u16::MAX as f32 * alpha) as u32` and `b = u16::MAX - a`, so the weights sum to 65535/65536 | alpha = 1: a = 65535, b = 0, reading 100 ↦ 99 (every x ≥ 1 ↦ x − 1). With only line 30 corrected, b = 1 and 100 still settles at 99 | a = 2^16·alpha and b = 2^16 − a, as the comments on lines 27 and 29 say, so that alpha = 1 means "no filtering" as documented at line 107 | not executed | Input.AsWrittenFullAlphaLosesOne | Input.CorrectedFullAlphaIsIdentity |
| src/discrete_functions.rs:65 | the reduction test is `phi > TAU`, so phi = TAU reaches the lookup with index 64 and reads `SIN[64]` (lines 70-75); so does every non-zero multiple of TAU | phi = TAU; a sine oscillator set to 20500 Hz produces exactly TAU on its third `generate` (`Oscillators.SineReachesTau`) | `phi >= TAU`, so every reduced phase lies in [0, TAU) | not executed | DiscreteFunctions.SinAsWrittenPanicsAtTau | DiscreteFunctions.SinAgreesWithSource |
| src/bin/usbsynthy.rs:149 | `start = (len - written) % len`; also src/bin/beepy.rs:70 | written = 0: start = 0, so all 256 generated but unsent frames are regenerated and discarded | `start = len - written` as in src/bin/synthy.rs:127, which keeps the unsent frames | not executed | Pipeline.WrappedZeroDiscardsUnsent | Pipeline.UnwrappedKeepsUnsent |

The analog input is built as written (`Input.AnalogInput.constructor`) or with the corrected
smoother (`Input.AnalogInput.Corrected`). The oscillators use the corrected `Sin`, as the
"## Left out" line for `Oscillators.Oscillator.Generate` says. `cos` inherits the same fault from line 65:
`DiscreteFunctions.CosAsWrittenPanicsAtNode48` exhibits it at 3π/2, and `DiscreteFunctions.Cos` is the
corrected partner, with a "## Left out" line of its own. The voice binaries' loop is modelled under both start rules
(`Pipeline.UsbSynthyCycle`, `Pipeline.SynthyCycle`).
