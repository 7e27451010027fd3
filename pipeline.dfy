/**
 * The sample pipeline of the three audio binaries: a 256-frame chunk
 * buffer whose slots `start..len` are regenerated, offered to the I2S
 * transfer, rotated left by the number of frames the transfer took, and
 * given a new `start` so that the frames not yet sent are kept for the next
 * cycle.
 *
 * The voice binaries draw samples from a `Voice` that the MIDI task also
 * drives between samples; here that source is the stream of values it
 * yields, `source(k)` being the k-th generated value. The beep binary
 * draws from one sine oscillator object.
 *
 * Two rules for the next `start` occur: `(len - w) % len` in the USB and
 * beep binaries, `len - w` in the plain synth binary. They differ only
 * when the transfer took nothing (w = 0): the first regenerates, and so
 * discards, the whole unsent buffer; the second keeps it.
 */
module Pipeline {
  import opened Ints
  import opened Wrappers
  import opened I2s
  import opened Oscillators
  import DiscreteFunctions
  import Scales

  /** `as i16` from a float: rounds toward zero. */
  function Truncate(x: real): int
  {
    if x >= 0.0 then x.Floor else -((-x).Floor)
  }

  /** Truncation drops the fraction and keeps the sign; it is monotone and odd. */
  lemma TruncateBounds(x: real, y: real)
    ensures 0.0 <= x ==> 0 <= Truncate(x) && Truncate(x) as real <= x < Truncate(x) as real + 1.0
    ensures x < 0.0 ==> Truncate(x) <= 0 && Truncate(x) as real - 1.0 < x <= Truncate(x) as real
    ensures x <= y ==> Truncate(x) <= Truncate(y)
    ensures Truncate(-x) == -Truncate(x)
  {
  }

  /** `as i16` from a float: out-of-range values stick at the nearest end of the i16 range. */
  function Saturate(v: int): (r: I16)
    ensures -I16_MAX - 1 <= v <= I16_MAX ==> r == v
    ensures v > I16_MAX ==> r == I16_MAX
    ensures v < -I16_MAX - 1 ==> r == -I16_MAX - 1
  {
    if v > I16_MAX then I16_MAX else if v < -I16_MAX - 1 then -I16_MAX - 1 else v
  }

  /** `i16 / 2`: rounds toward zero, unlike Dafny's division. */
  function Half(v: I16): (r: I16)
    ensures 0 <= v ==> 0 <= 2 * r <= v < 2 * r + 2
    ensures v < 0 ==> 2 * r - 2 < v <= 2 * r <= 0
  {
    var m: int := v;
    if m >= 0 then m / 2 else -((-m) / 2)
  }

  /** The frame value written for a generated sample a: `(a * i16::MAX as f32) as i16 / 2`. */
  function SampleValue(a: real): (r: I16)
    ensures -(I16_MAX + 1) / 2 <= r <= I16_MAX / 2
  {
    Half(Saturate(Truncate(a * I16_MAX as real)))
  }

  /**
   * Every frame value lies in [-16384, 16383], half the i16 range, a sample
   * in [-1, 1] gives at most 16383 in magnitude, and silence stays silence.
   */
  lemma SampleValueRange(a: real)
    ensures -(I16_MAX + 1) / 2 <= SampleValue(a) <= I16_MAX / 2
    ensures -1.0 <= a <= 1.0 ==> -(I16_MAX / 2) <= SampleValue(a) <= I16_MAX / 2
    ensures SampleValue(0.0) == 0
  {
    TruncateBounds(a * I16_MAX as real, 0.0);
    if -1.0 <= a <= 1.0 {
      var x := a * I16_MAX as real;
      assert -(I16_MAX as real) <= x <= I16_MAX as real by {
        if a >= 0.0 {
          MulAtMost(a, I16_MAX as real);
        } else {
          MulAtMost(-a, I16_MAX as real);
        }
      }
    }
  }

  /** 0 <= a <= 1 and c >= 0 give a * c <= c. */
  lemma MulAtMost(a: real, c: real)
    requires 0.0 <= a <= 1.0 && 0.0 <= c
    ensures a * c <= c
  {
    assert c - a * c == (1.0 - a) * c;
  }

  /** Louder samples never give smaller frame values, and within [-1, 1] the map is odd. */
  lemma SampleValueShape(a: real, b: real)
    ensures a <= b ==> SampleValue(a) <= SampleValue(b)
    ensures -1.0 <= a <= 1.0 ==> SampleValue(-a) == -SampleValue(a)
  {
    if a <= b {
      assert a * I16_MAX as real <= b * I16_MAX as real;
      TruncateBounds(a * I16_MAX as real, b * I16_MAX as real);
    }
    if -1.0 <= a <= 1.0 {
      SampleValueRange(a);
      SampleValueRange(-a);
      assert (-a) * I16_MAX as real == -(a * I16_MAX as real);
      TruncateBounds(a * I16_MAX as real, 0.0);
    }
  }

  /** The frames written for a run of generated values, each on both channels. */
  function Frames(values: seq<real>): (r: seq<Sample>)
    ensures |r| == |values|
    ensures forall k :: 0 <= k < |values| ==> r[k] == Mono(SampleValue(values[k]))
  {
    seq(|values|, k requires 0 <= k < |values| => Mono(SampleValue(values[k])))
  }

  /** The buffer after the fill: slots before `start` kept, slot start + k set to value k on both channels. */
  function Filled(buf: seq<Sample>, start: nat, values: seq<real>): (r: seq<Sample>)
    requires start <= |buf| && |values| == |buf| - start
    ensures |r| == |buf|
    ensures r[..start] == buf[..start]
    ensures forall k :: 0 <= k < |values| ==> r[start + k] == Mono(SampleValue(values[k]))
  {
    buf[..start] + Frames(values)
  }

  /** `rotate_left(w)` on the frames. */
  function RotatedLeft(buf: seq<Sample>, w: nat): seq<Sample>
    requires w <= |buf|
  {
    buf[w..] + buf[..w]
  }

  /** Slot i receives old slot (i + w) mod len. */
  lemma RotatedLeftIndex(buf: seq<Sample>, w: nat)
    requires w <= |buf|
    ensures |RotatedLeft(buf, w)| == |buf|
    ensures forall i :: 0 <= i < |buf| ==> RotatedLeft(buf, w)[i] == buf[(i + w) % |buf|]
  {
    var r := RotatedLeft(buf, w);
    forall i | 0 <= i < |buf|
      ensures r[i] == buf[(i + w) % |buf|]
    {
      if i < |buf| - w {
        ModBelow(i + w, |buf|);
      } else {
        ModWrapOnce(i + w, |buf|);
        assert r[i] == buf[..w][i - (|buf| - w)];
      }
    }
  }

  lemma ModBelow(x: nat, n: nat)
    requires x < n
    ensures x % n == x
  {
  }

  lemma ModWrapOnce(x: nat, n: nat)
    requires n <= x < 2 * n
    ensures x % n == x - n
  {
  }

  /** No frame is lost or duplicated by the rotation. */
  lemma RotatedLeftPermutes(buf: seq<Sample>, w: nat)
    requires w <= |buf|
    ensures multiset(RotatedLeft(buf, w)) == multiset(buf)
  {
    assert buf == buf[..w] + buf[w..];
  }

  /** The two rules for the next `start` after the transfer took w frames. */
  datatype StartRule =
    | Wrapped    // `(len - w) % len`, the USB synth and the beep binary
    | Unwrapped  // `len - w`, the plain synth binary

  function NextStart(rule: StartRule, len: nat, w: nat): (r: nat)
    requires 0 < len && w <= len
    ensures r <= len && (rule.Wrapped? ==> r < len)
    ensures 0 < w ==> r == len - w
  {
    match rule
    case Wrapped => (len - w) % len
    case Unwrapped => len - w
  }

  /**
   * Both rules agree whenever the transfer took something, and both point
   * `start` just past the unsent frames; only w = 0 tells them apart, the
   * wrapped rule giving 0 and the unwrapped one len. The wrapped start is
   * always below len, the unwrapped one at most len, so `buffer[start..]`
   * is always a valid slice.
   */
  lemma StartRules(len: nat, w: nat)
    requires 0 < len && w <= len
    ensures NextStart(Wrapped, len, w) < len && NextStart(Unwrapped, len, w) <= len
    ensures 0 < w ==> NextStart(Wrapped, len, w) == NextStart(Unwrapped, len, w) == len - w
    ensures NextStart(Wrapped, len, 0) == 0 && NextStart(Unwrapped, len, 0) == len
    ensures NextStart(Unwrapped, len, len) == 0
  {
    if 0 < w {
      assert (len - w) % len == len - w;
    }
  }

  /**
   * For either rule, when the transfer took w frames with 0 < w < len, the
   * len - w unsent frames old[w..len] move to slots 0..len-w and the next
   * fill leaves them alone.
   */
  lemma UnsentFramesSurvive(rule: StartRule, buf: seq<Sample>, w: nat, values: seq<real>)
    requires 0 < w < |buf|
    requires |values| == |buf| - NextStart(rule, |buf|, w)
    ensures var start := NextStart(rule, |buf|, w);
      start == |buf| - w &&
      Filled(RotatedLeft(buf, w), start, values)[..start] == buf[w..]
  {
    StartRules(|buf|, w);
  }

  /**
   * As written, with the wrapped rule a transfer that takes nothing sets
   * `start` to 0: the next fill overwrites every slot, so none of the len
   * frames that were generated but never sent survives, and `generate` is
   * called len more times.
   */
  lemma WrappedZeroDiscardsUnsent(buf: seq<Sample>, values: seq<real>)
    requires 0 < |buf| && |values| == |buf|
    ensures NextStart(Wrapped, |buf|, 0) == 0
    ensures forall i :: 0 <= i < |buf| ==>
      Filled(RotatedLeft(buf, 0), NextStart(Wrapped, |buf|, 0), values)[i] == Mono(SampleValue(values[i]))
    ensures buf == NewChunkBuffer() && values == seq(|buf|, _ => 1.0) ==>
      Filled(RotatedLeft(buf, 0), NextStart(Wrapped, |buf|, 0), values)[0] != buf[0]
  {
    StartRules(|buf|, 0);
    var r := Filled(RotatedLeft(buf, 0), 0, values);
    forall i | 0 <= i < |buf|
      ensures r[i] == Mono(SampleValue(values[i]))
    {
      assert r[0 + i] == Mono(SampleValue(values[i]));
    }
    if buf == NewChunkBuffer() && values == seq(|buf|, _ => 1.0) {
      assert r[0] == Mono(SampleValue(1.0));
      assert SampleValue(1.0) == I16_MAX / 2;
    }
  }

  /**
   * With the unwrapped rule the unsent frames old[w..len] survive the next
   * fill for every w the transfer can report, w = 0 included: then nothing
   * is regenerated and the whole buffer is offered again.
   */
  lemma UnwrappedKeepsUnsent(buf: seq<Sample>, w: nat, values: seq<real>)
    requires 0 < |buf| && w <= |buf|
    requires |values| == |buf| - NextStart(Unwrapped, |buf|, w)
    ensures var start := NextStart(Unwrapped, |buf|, w);
      start == |buf| - w &&
      Filled(RotatedLeft(buf, w), start, values)[..start] == buf[w..]
    ensures w == 0 ==> Filled(RotatedLeft(buf, w), NextStart(Unwrapped, |buf|, w), values) == buf
  {
    var start := |buf| - w;
    var r := Filled(RotatedLeft(buf, w), start, values);
    assert r[..start] == RotatedLeft(buf, w)[..start];
    assert RotatedLeft(buf, w)[..start] == buf[w..];
    if w == 0 {
      assert r == r[..start];
    }
  }

  /** The n values a sample source yields from its value number `from` on. */
  function SourceValues(source: nat -> real, from: nat, n: nat): (ys: seq<real>)
    ensures |ys| == n && forall k :: 0 <= k < n ==> ys[k] == source(from + k)
  {
    seq(n, k requires 0 <= k < n => source(from + k))
  }

  /**
   * The beep binary's oscillator is a sine built at the reference frequency
   * and never tuned, so `generate` leaves it in its initial state and yields
   * sin(0) = 0, which becomes the silent frame [0, 0].
   */
  lemma SilentSine(stream: RandomStream)
    ensures var s := NewOsc(Sine, Scales.REFERENCE_FREQ);
      GenerateOsc(s) == s && Output(s, stream) == 0.0 && Mono(SampleValue(Output(s, stream))) == Sample(0, 0)
  {
    FreshOscillatorStuck(Sine, Scales.REFERENCE_FREQ, 1);
    DiscreteFunctions.SinCosAtZero();
    SampleValueRange(0.0);
  }

  /** The `gen_fut` loop state: the chunk buffer and the first slot to regenerate. */
  class GenLoop {
    const buffer: array<Sample>
    var start: nat

    predicate Valid()
      reads this
    {
      0 < buffer.Length && start <= buffer.Length
    }

    /** `new_chunk_buffer()` and `start = 0`. */
    constructor ()
      ensures Valid() && fresh(buffer)
      ensures buffer[..] == NewChunkBuffer() && start == 0
    {
      buffer := new Sample[CHUNK_SAMPLES](_ => Sample(0, 0));
      start := 0;
    }

    /** The fill loop over `buffer[start..]`, taking value k from `source(from + k)`. */
    method FillFromSource(source: nat -> real, from: nat) returns (n: nat)
      requires Valid()
      modifies buffer
      ensures n == buffer.Length - start
      ensures buffer[..] == Filled(old(buffer[..]), start, SourceValues(source, from, n))
    {
      n := buffer.Length - start;
      ghost var frames := Frames(SourceValues(source, from, n));
      var i := start;
      while i < buffer.Length
        invariant start <= i <= buffer.Length
        invariant buffer[..start] == old(buffer[..start])
        invariant buffer[start..i] == frames[..i - start]
      {
        var a := source(from + (i - start));
        buffer[i] := Mono(SampleValue(a));
        assert buffer[start..i + 1] == buffer[start..i] + [buffer[i]];
        i := i + 1;
      }
      assert buffer[..] == buffer[..start] + buffer[start..];
      assert old(buffer[..start]) == old(buffer[..])[..start];
      assert buffer[..] == old(buffer[..])[..start] + frames;
    }

    /**
     * The fill loop drawing each value from the beep binary's untuned sine
     * oscillator: every regenerated slot becomes silent and the oscillator
     * stays in its initial state.
     */
    method FillFromSilentSine(osc: Oscillator) returns (n: nat)
      requires Valid() && osc.State() == NewOsc(Sine, Scales.REFERENCE_FREQ)
      modifies buffer, osc, osc.phaseGen
      ensures n == buffer.Length - start
      ensures osc.State() == NewOsc(Sine, Scales.REFERENCE_FREQ)
      ensures buffer[..] == old(buffer[..start]) + seq(n, _ => Sample(0, 0))
    {
      n := buffer.Length - start;
      var i := start;
      while i < buffer.Length
        invariant start <= i <= buffer.Length
        invariant osc.State() == NewOsc(Sine, Scales.REFERENCE_FREQ)
        invariant buffer[..start] == old(buffer[..start])
        invariant buffer[start..i] == seq(i - start, _ => Sample(0, 0))
      {
        var frame := SilentFrame(osc);
        buffer[i] := frame;
        assert buffer[start..i + 1] == buffer[start..i] + [buffer[i]];
        i := i + 1;
      }
      assert buffer[..] == buffer[..start] + buffer[start..];
    }

    /** One `generate` call on the untuned sine oscillator and the frame made of its value. */
    static method SilentFrame(osc: Oscillator) returns (frame: Sample)
      requires osc.State() == NewOsc(Sine, Scales.REFERENCE_FREQ)
      modifies osc, osc.phaseGen
      ensures osc.State() == NewOsc(Sine, Scales.REFERENCE_FREQ)
      ensures frame == Sample(0, 0)
    {
      SilentSine(osc.stream);
      var a := osc.Generate();
      frame := Mono(SampleValue(a));
    }

    /** `buffer.rotate_left(w)`, in place. */
    method RotateLeft(w: nat)
      requires w <= buffer.Length
      modifies buffer
      ensures buffer[..] == RotatedLeft(old(buffer[..]), w)
    {
      var before := buffer[..];
      RotatedLeftIndex(before, w);
      forall i | 0 <= i < buffer.Length {
        buffer[i] := before[(i + w) % buffer.Length];
      }
    }

    /**
     * `i2s::push` of the whole buffer, then the rotation and the new
     * `start`. `transfer` is what the DMA transfer reports; it never takes
     * more bytes than offered. An error panics through `unwrap`:
     * `panicked` is true and nothing after the push happens.
     */
    method PushAndRotate(transfer: Option<nat>, rule: StartRule) returns (panicked: bool)
      requires Valid()
      requires transfer.Some? ==> transfer.value <= ByteLength(buffer[..])
      modifies this, buffer
      ensures panicked <==> transfer.None?
      ensures panicked ==> buffer[..] == old(buffer[..]) && start == old(start)
      ensures !panicked ==>
        var w := Push(old(buffer[..]), transfer).value;
        Valid() && w <= buffer.Length &&
        buffer[..] == RotatedLeft(old(buffer[..]), w) && start == NextStart(rule, buffer.Length, w)
    {
      var written := Push(buffer[..], transfer);
      if written.None? {
        return true;
      }
      RotateLeft(written.value);
      StartRules(buffer.Length, written.value);
      match rule {
        case Wrapped => start := (buffer.Length - written.value) % buffer.Length;
        case Unwrapped => start := buffer.Length - written.value;
      }
      panicked := false;
    }
  }

  /**
   * One pass of the voice binaries' loop: regenerate `buffer[start..]` from
   * the source, starting at its value `from`, then push, rotate and move
   * `start` by `rule`. `n` is the number of `generate` calls.
   */
  method VoiceCycle(g: GenLoop, source: nat -> real, from: nat, transfer: Option<nat>, rule: StartRule)
    returns (n: nat, panicked: bool)
    requires g.Valid()
    requires transfer.Some? ==> transfer.value <= ByteLength(g.buffer[..])
    modifies g, g.buffer
    ensures n == g.buffer.Length - old(g.start)
    ensures var filled := Filled(old(g.buffer[..]), old(g.start), SourceValues(source, from, n));
      (panicked <==> transfer.None?) &&
      (panicked ==> g.buffer[..] == filled) &&
      (!panicked ==>
        var w := Push(filled, transfer).value;
        g.Valid() && w <= g.buffer.Length &&
        g.buffer[..] == RotatedLeft(filled, w) && g.start == NextStart(rule, g.buffer.Length, w))
  {
    n := g.FillFromSource(source, from);
    panicked := g.PushAndRotate(transfer, rule);
  }

  /** The USB synth binary's loop: the wrapped start rule. */
  method UsbSynthyCycle(g: GenLoop, source: nat -> real, from: nat, transfer: Option<nat>)
    returns (n: nat, panicked: bool)
    requires g.Valid()
    requires transfer.Some? ==> transfer.value <= ByteLength(g.buffer[..])
    modifies g, g.buffer
    ensures n == g.buffer.Length - old(g.start)
    ensures var filled := Filled(old(g.buffer[..]), old(g.start), SourceValues(source, from, n));
      (panicked <==> transfer.None?) &&
      (panicked ==> g.buffer[..] == filled) &&
      (!panicked ==>
        var w := Push(filled, transfer).value;
        g.buffer[..] == RotatedLeft(filled, w) && g.start == (g.buffer.Length - w) % g.buffer.Length)
  {
    n, panicked := VoiceCycle(g, source, from, transfer, Wrapped);
  }

  /** The plain synth binary's loop: the unwrapped start rule. */
  method SynthyCycle(g: GenLoop, source: nat -> real, from: nat, transfer: Option<nat>)
    returns (n: nat, panicked: bool)
    requires g.Valid()
    requires transfer.Some? ==> transfer.value <= ByteLength(g.buffer[..])
    modifies g, g.buffer
    ensures n == g.buffer.Length - old(g.start)
    ensures var filled := Filled(old(g.buffer[..]), old(g.start), SourceValues(source, from, n));
      (panicked <==> transfer.None?) &&
      (panicked ==> g.buffer[..] == filled) &&
      (!panicked ==>
        var w := Push(filled, transfer).value;
        g.buffer[..] == RotatedLeft(filled, w) && g.start == g.buffer.Length - w)
  {
    n, panicked := VoiceCycle(g, source, from, transfer, Unwrapped);
  }

  /**
   * One pass of the beep binary's loop over its untuned sine oscillator:
   * the regenerated slots are all silent, the oscillator stays in its
   * initial state, and the buffer is pushed and rotated with the wrapped rule.
   */
  method BeepyCycle(g: GenLoop, osc: Oscillator, transfer: Option<nat>) returns (n: nat, panicked: bool)
    requires g.Valid()
    requires osc.State() == NewOsc(Sine, Scales.REFERENCE_FREQ)
    requires transfer.Some? ==> transfer.value <= ByteLength(g.buffer[..])
    modifies g, g.buffer, osc, osc.phaseGen
    ensures n == g.buffer.Length - old(g.start)
    ensures osc.State() == NewOsc(Sine, Scales.REFERENCE_FREQ)
    ensures var filled := old(g.buffer[..g.start]) + seq(n, _ => Sample(0, 0));
      (panicked <==> transfer.None?) &&
      (panicked ==> g.buffer[..] == filled) &&
      (!panicked ==>
        var w := Push(filled, transfer).value;
        g.buffer[..] == RotatedLeft(filled, w) && g.start == (g.buffer.Length - w) % g.buffer.Length)
  {
    n := g.FillFromSilentSine(osc);
    panicked := g.PushAndRotate(transfer, Wrapped);
  }
}
