/**
  Constants and value types shared by every component of the player's
  streaming core: the output format (interleaved stereo at 48 kHz), the ring
  capacity, the gain, the width of the atomic counters and the panics the
  core's runtime assertions can raise.
 */
module Audio {

  /** Interleaved channels of the output stream (stereo). */
  const CHANNELS: nat := 2

  /** Output sample rate in frames per second. */
  const SAMPLE_RATE: nat := 48000

  /** Frames the audio device asks for per callback. */
  const FRAMES_PER_BUFFER: nat := 512

  /** Ring capacity in samples: one second of interleaved audio. */
  const BUFFER_SIZE: nat := SAMPLE_RATE * CHANNELS

  /** A normalized audio sample. The device's f32 is modelled as a real. */
  type Sample = real

  /** The fixed gain applied to every sample taken from the ring. */
  const GAIN: real := 0.5

  /** What the callback writes where the ring had nothing to give. */
  const SILENCE: Sample := 0.0

  /** A sample as the device receives it after the gain. */
  function Scale(s: Sample): Sample
  {
    s * GAIN
  }

  /** usize is 64 bits wide on the targets the player is built for. */
  const USIZE_MODULUS: nat := 0x1_0000_0000_0000_0000

  type Usize = x: int | 0 <= x < USIZE_MODULUS

  /** `fetch_add` on an `AtomicUsize`: wraps around on overflow. */
  function FetchAdd(c: Usize, k: nat): (r: Usize)
    // the new value is congruent to the exact sum, and equal to it without overflow
    ensures (c + k - r) % USIZE_MODULUS == 0
    ensures c + k < USIZE_MODULUS ==> r == c + k
  {
    (c + k) % USIZE_MODULUS
  }

  /** Two wrapping additions are one wrapping addition of the sum. */
  lemma FetchAddAccumulates(c: Usize, a: nat, b: nat)
    ensures FetchAdd(FetchAdd(c, a), b) == FetchAdd(c, a + b)
  {
    var q := (c + a) / USIZE_MODULUS;
    assert c + a == q * USIZE_MODULUS + FetchAdd(c, a);
    assert c + a + b == q * USIZE_MODULUS + (FetchAdd(c, a) + b);
    ModShift(FetchAdd(c, a) + b, q);
  }

  lemma ModShift(x: nat, q: nat)
    ensures (q * USIZE_MODULUS + x) % USIZE_MODULUS == x % USIZE_MODULUS
  {
    var r := x % USIZE_MODULUS;
    var d := x / USIZE_MODULUS;
    assert q * USIZE_MODULUS + x == (q + d) * USIZE_MODULUS + r;
  }

  function Min(a: nat, b: nat): nat
  {
    if a < b then a else b
  }

  /** A count of samples that is a whole number of frames. */
  predicate Aligned(n: int)
  {
    n % CHANNELS == 0
  }

  /** Why the process aborts: a failed `assert`, or a stream that would not start. */
  datatype Panic = AlignmentAssertion | StartFailed

  /** The result of a step that may panic. */
  datatype Outcome<+T> = Ok(value: T) | Panicked(reason: Panic)
}
