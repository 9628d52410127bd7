/**
  The decision whether decoded audio must go through the resampler before
  it reaches the ring: it may skip the resampler only when it already has
  the output's sample format, channels and rate.
 */
module Resample {
  import opened Audio

  /** How the channels of a sample format are laid out in memory. */
  datatype SampleType = Packed | Planar

  /** The decoder's sample formats. */
  datatype SampleFormat =
    | NoFormat
    | U8(kind: SampleType)
    | I16(kind: SampleType)
    | I32(kind: SampleType)
    | I64(kind: SampleType)
    | F32(kind: SampleType)
    | F64(kind: SampleType)

  /** A channel layout: one bit per speaker position. */
  type ChannelLayout = bv64

  const FRONT_LEFT: ChannelLayout := 0x1
  const FRONT_RIGHT: ChannelLayout := 0x2
  const FRONT_CENTER: ChannelLayout := 0x4
  const LOW_FREQUENCY: ChannelLayout := 0x8
  const SIDE_LEFT: ChannelLayout := 0x200
  const SIDE_RIGHT: ChannelLayout := 0x400

  /** The output's layout: front left and front right. */
  const STEREO: ChannelLayout := FRONT_LEFT | FRONT_RIGHT

  /** The common 5.1 layout: stereo plus centre, LFE and two side speakers. */
  const SURROUND_5_1: ChannelLayout :=
    STEREO | FRONT_CENTER | LOW_FREQUENCY | SIDE_LEFT | SIDE_RIGHT

  /** The output's sample format: interleaved 32-bit floats. */
  const SAMPLE_TYPE: SampleFormat := F32(Packed)

  /** A sample rate as the decoder reports it (a u32). */
  type Rate = x: int | 0 <= x < 0x1_0000_0000

  predicate HasChannel(layout: ChannelLayout, speaker: ChannelLayout)
  {
    layout & speaker != 0
  }

  /** Speakers of the layout other than front left and front right. */
  function ExtraChannels(layout: ChannelLayout): ChannelLayout
  {
    layout & !STEREO
  }

  /**
    The player's decision, as written: resampling is skipped exactly when
    the decoder gives interleaved floats at 48 kHz on a layout that has
    both front speakers, whatever other speakers the layout has.
   */
  function NeedsResample(format: SampleFormat, layout: ChannelLayout, rate: Rate): (r: bool)
    ensures !r <==> && format == F32(Packed)
                    && HasChannel(layout, FRONT_LEFT) && HasChannel(layout, FRONT_RIGHT)
                    && rate == SAMPLE_RATE
  {
    !(format == SAMPLE_TYPE && (layout & STEREO) == STEREO && rate == SAMPLE_RATE)
  }

  /**
    As written, a 5.1 stream of interleaved floats at 48 kHz skips the
    resampler, so six-channel frames reach a ring whose consumer reads them
    as stereo.
   */
  lemma SurroundSkipsResampleAsWritten()
    ensures !NeedsResample(F32(Packed), SURROUND_5_1, 48000)
    ensures HasChannel(SURROUND_5_1, FRONT_CENTER) && ExtraChannels(SURROUND_5_1) != 0
  {
  }

  /** The decision with the layout compared for equality, as the output format requires. */
  function NeedsResampleExact(format: SampleFormat, layout: ChannelLayout, rate: Rate): (r: bool)
    ensures !r ==> format == SAMPLE_TYPE && rate == SAMPLE_RATE
  {
    !(format == SAMPLE_TYPE && layout == STEREO && rate == SAMPLE_RATE)
  }

  /**
    With the corrected decision, audio skips the resampler exactly when it
    already is interleaved floats at 48 kHz carrying front left, front
    right and no other speaker: whatever reaches the ring is two-channel.
   */
  lemma ExactDecisionKeepsStereo(format: SampleFormat, layout: ChannelLayout, rate: Rate)
    ensures !NeedsResampleExact(format, layout, rate) <==>
              && format == F32(Packed) && rate == SAMPLE_RATE
              && HasChannel(layout, FRONT_LEFT) && HasChannel(layout, FRONT_RIGHT)
              && ExtraChannels(layout) == 0
  {
    if HasChannel(layout, FRONT_LEFT) && HasChannel(layout, FRONT_RIGHT) && ExtraChannels(layout) == 0 {
      assert layout == (layout & STEREO) | ExtraChannels(layout);
      assert layout & STEREO == STEREO;
    }
  }

  /** The corrected decision resamples in every case the written one does, and in more. */
  lemma ExactDecisionIsStricter(format: SampleFormat, layout: ChannelLayout, rate: Rate)
    ensures NeedsResample(format, layout, rate) ==> NeedsResampleExact(format, layout, rate)
    ensures NeedsResampleExact(format, layout, rate) && !NeedsResample(format, layout, rate)
            ==> ExtraChannels(layout) != 0
  {
    ExactDecisionKeepsStereo(format, layout, rate);
  }
}
