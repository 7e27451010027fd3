/**
 * Sizes of the I2S transfer, the zeroed chunk buffer and the sample count
 * reported by `push`. The DMA transfer itself is a collaborator: what it
 * reports back is a parameter.
 */
module I2s {
  import opened Ints
  import opened Wrappers

  const CHUNK_SAMPLES: nat := 256
  const SAMPLE_RATE: nat := 41_000
  const NUM_CHANNEL: nat := 2
  const BYTES_PER_SAMPLE: nat := NUM_CHANNEL * 2
  const DMA_NUM: nat := 6
  const CHUNK_BYTES: nat := BYTES_PER_SAMPLE * CHUNK_SAMPLES
  const TX_BYTES: nat := DMA_NUM * CHUNK_BYTES

  /** A stereo frame of two 16-bit channels. */
  datatype Sample = Sample(left: I16, right: I16)

  /** The same value on both channels, as every binary writes it. */
  function Mono(b: I16): (s: Sample)
    ensures s.left == b && s.right == b
  {
    Sample(b, b)
  }

  lemma BufferSizes()
    ensures BYTES_PER_SAMPLE == 4
    ensures CHUNK_BYTES == 1024
    ensures TX_BYTES == 6144
  {
  }

  /** `new_chunk_buffer`: 256 silent frames. */
  function NewChunkBuffer(): (buf: seq<Sample>)
    ensures |buf| == CHUNK_SAMPLES
    ensures forall i :: 0 <= i < |buf| ==> buf[i] == Sample(0, 0)
  {
    seq(CHUNK_SAMPLES, _ => Sample(0, 0))
  }

  /** The byte view of `samples` fed to the DMA transfer. */
  function ByteLength(samples: seq<Sample>): nat
  {
    |samples| * BYTES_PER_SAMPLE
  }

  /**
   * `push`: `transfer` is what the DMA push reports, `Some(bytes)` or an
   * error (`None`); an error panics through `unwrap`, modelled as `None`.
   * The count of whole samples written drops a trailing partial sample.
   */
  function Push(samples: seq<Sample>, transfer: Option<nat>): (r: Option<nat>)
    ensures r.None? <==> transfer.None?
    ensures r.Some? ==>
      r.value * BYTES_PER_SAMPLE <= transfer.value < (r.value + 1) * BYTES_PER_SAMPLE
    ensures r.Some? && transfer.value <= ByteLength(samples) ==> r.value <= |samples|
  {
    match transfer
    case None => None
    case Some(written) => Some(written / BYTES_PER_SAMPLE)
  }
}
