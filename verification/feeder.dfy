/**
  The producer side: `send_audio` pushes one decoded frame's interleaved
  samples into the ring, retrying while the ring is full, and counts the
  frames it hands over.
 */
module Feeder {
  import opened Audio
  import opened SampleRing
  import opened PlaybackStatus
  import opened RealtimeSink

  /** The pipe after a push attempt, and how much of the frame is now sent. */
  datatype Pushed = Pushed(pipe: Pipe, sent: nat)

  /**
    One iteration of `send_audio`'s loop for a frame `data` of which `sent`
    samples are already queued: push the unsent rest, advance `sent`, assert
    it is a whole number of frames, then count the frames just queued.
   */
  function SendStep(p: Pipe, data: seq<Sample>, sent: nat): (r: Outcome<Pushed>)
    requires p.ring.Valid() && sent <= |data|
    ensures r.Panicked? ==> r.reason == AlignmentAssertion
    // with whole frames everywhere the assertion cannot fire
    ensures Aligned(sent) && Aligned(|data|) && Aligned(|p.ring.items|) && Aligned(p.ring.capacity)
            ==> r.Ok?
    ensures r.Ok? ==> sent <= r.value.sent <= |data| && Aligned(r.value.sent)
    // the next unsent samples, in order, and only those, enter the ring
    ensures r.Ok? ==> r.value.pipe.ring.capacity == p.ring.capacity && r.value.pipe.ring.Valid()
    ensures r.Ok? ==> r.value.pipe.ring.items == p.ring.items + data[sent..r.value.sent]
    ensures r.Ok? ==> r.value.pipe.accepted == p.accepted + data[sent..r.value.sent]
    ensures r.Ok? ==> r.value.pipe.played == p.played && r.value.pipe.rendered == p.rendered
    // a push stops short only on a full ring
    ensures r.Ok? ==> r.value.sent == |data| || |r.value.pipe.ring.items| == p.ring.capacity
    // the frames counted are the frames accepted
    ensures r.Ok? ==> r.value.pipe.status == p.status.(framesDecoded :=
              FetchAdd(p.status.framesDecoded, (r.value.sent - sent) / CHANNELS))
  {
    var (ring', n) := PushSlice(p.ring, data[sent..]);
    var sent' := sent + n;
    if !Aligned(sent') then Panicked(AlignmentAssertion)
    else
      assert data[sent..][..n] == data[sent..sent'];
      var status := p.status.(framesDecoded := FetchAdd(p.status.framesDecoded, n / CHANNELS));
      Ok(Pushed(p.(ring := ring', status := status, accepted := p.accepted + data[sent..sent']), sent'))
  }

  /** A device buffer of one callback's size; its prior contents do not matter. */
  function DeviceBuffer(): (b: seq<Sample>)
    ensures |b| == FRAMES_PER_BUFFER * CHANNELS
  {
    seq(FRAMES_PER_BUFFER * CHANNELS, _ => SILENCE)
  }

  /**
    What happens while the producer sleeps on a full ring: the device calls
    back once, takes one buffer of samples and lets playback continue.
   */
  function BackOff(q: Pipe): (q': Pipe)
    requires Inv(q) && |q.ring.items| == q.ring.capacity
    ensures Inv(q') && q'.accepted == q.accepted && q.played <= q'.played
    ensures |q'.ring.items| == q.ring.capacity - FRAMES_PER_BUFFER * CHANNELS
    ensures q'.status.isPlaying == q.status.isPlaying && q'.status.isDecoding == q.status.isDecoding
    ensures q'.status.framesDecoded == q.status.framesDecoded
    ensures PlayCounted(q) ==> PlayCounted(q')
  {
    CallbackKeepsInv(q, DeviceBuffer(), FRAMES_PER_BUFFER);
    var tick := Callback(q, DeviceBuffer(), FRAMES_PER_BUFFER).value;
    assert tick.flow == Continue;
    tick.pipe
  }

  /**
    `send_audio` for one frame's samples `data`. The device keeps calling
    back while the producer backs off: between two push attempts the
    callback drains one device buffer. That is the only assumption about
    the consumer, and it is what makes the retry loop finish.

    The call panics exactly when `data` is not a whole number of frames.
    Otherwise every sample of `data` is queued once, in order, after
    everything queued before, and `frames_decoded` grows by exactly the
    frame count of `data`.
   */
  method SendAudio(p: Pipe, data: seq<Sample>) returns (r: Outcome<Pipe>)
    requires Inv(p)
    ensures r.Ok? <==> Aligned(|data|)
    ensures r.Panicked? ==> r.reason == AlignmentAssertion
    ensures r.Ok? ==> Inv(r.value)
    ensures r.Ok? ==> r.value.accepted == p.accepted + data
    ensures r.Ok? ==> r.value.status.framesDecoded ==
                        FetchAdd(p.status.framesDecoded, |data| / CHANNELS)
    ensures r.Ok? ==> Accounted(p) ==> Accounted(r.value)
    ensures r.Ok? ==> r.value.status.isDecoding == p.status.isDecoding
    ensures r.Ok? ==> r.value.status.isPlaying == p.status.isPlaying
    ensures r.Ok? ==> p.played <= r.value.played
    ensures r.Ok? ==> PlayCounted(p) ==> PlayCounted(r.value)
  {
    var q := p;
    var sent: nat := 0;
    var retrying := false;
    while sent < |data|
      invariant sent <= |data| && Aligned(sent)
      invariant Inv(q)
      invariant q.accepted == p.accepted + data[..sent]
      invariant q.status.framesDecoded == FetchAdd(p.status.framesDecoded, sent / CHANNELS)
      invariant q.status.isDecoding == p.status.isDecoding && q.status.isPlaying == p.status.isPlaying
      invariant p.played <= q.played
      invariant PlayCounted(p) ==> PlayCounted(q)
      invariant retrying && sent < |data| ==> |q.ring.items| == q.ring.capacity
      decreases |data| - sent, if retrying then 0 else 1
    {
      if retrying {
        q := BackOff(q);
      }
      var step := SendStep(q, data, sent);
      if step.Panicked? {
        return Panicked(AlignmentAssertion);
      }
      SendStepKeepsInv(p, q, data, sent);
      q, sent, retrying := step.value.pipe, step.value.sent, true;
    }
    assert data[..sent] == data;
    if Accounted(p) {
      AccountedAfterAppend(p.accepted, data, p.status.framesDecoded);
    }
    return Ok(q);
  }

  /** A push attempt keeps the pipe invariant. */
  lemma SendStepKeepsPipeInv(q: Pipe, data: seq<Sample>, sent: nat)
    requires Inv(q) && sent <= |data| && Aligned(sent)
    requires SendStep(q, data, sent).Ok?
    ensures Inv(SendStep(q, data, sent).value.pipe)
  {
    var q' := SendStep(q, data, sent).value.pipe;
    var chunk := data[sent..SendStep(q, data, sent).value.sent];
    assert Aligned(|chunk|);
    assert q'.played + q'.ring.items == q.played + (q.ring.items + chunk);
  }

  /** Counting the frames of each push one after another counts the frames sent. */
  lemma CountStep(base: Usize, sent: nat, sent': nat)
    requires Aligned(sent) && Aligned(sent') && sent <= sent'
    ensures FetchAdd(FetchAdd(base, sent / CHANNELS), (sent' - sent) / CHANNELS)
            == FetchAdd(base, sent' / CHANNELS)
  {
    assert sent / CHANNELS + (sent' - sent) / CHANNELS == sent' / CHANNELS;
    FetchAddAccumulates(base, sent / CHANNELS, (sent' - sent) / CHANNELS);
  }

  /**
    One push attempt keeps the pipe invariant and the loop's bookkeeping,
    and makes progress whenever the ring had room.
   */
  lemma SendStepKeepsInv(p: Pipe, q: Pipe, data: seq<Sample>, sent: nat)
    requires Inv(q) && sent <= |data| && Aligned(sent)
    requires q.accepted == p.accepted + data[..sent]
    requires q.status.framesDecoded == FetchAdd(p.status.framesDecoded, sent / CHANNELS)
    requires SendStep(q, data, sent).Ok?
    ensures var step := SendStep(q, data, sent).value;
      && Inv(step.pipe)
      && step.pipe.accepted == p.accepted + data[..step.sent]
      && step.pipe.status.framesDecoded == FetchAdd(p.status.framesDecoded, step.sent / CHANNELS)
      && step.pipe.status.isDecoding == q.status.isDecoding
      && step.pipe.status.isPlaying == q.status.isPlaying
      && step.pipe.played == q.played
      && step.pipe.rendered == q.rendered
      && step.pipe.status.framesPlayed == q.status.framesPlayed
      && (step.sent < |data| ==> |step.pipe.ring.items| == step.pipe.ring.capacity)
      && (sent < |data| && |q.ring.items| < q.ring.capacity ==> sent < step.sent)
  {
    var step := SendStep(q, data, sent).value;
    SendStepKeepsPipeInv(q, data, sent);
    assert data[..step.sent] == data[..sent] + data[sent..step.sent];
    assert step.pipe.accepted == (p.accepted + data[..sent]) + data[sent..step.sent];
    CountStep(p.status.framesDecoded, sent, step.sent);
  }

  /** Appending whole frames to an accounted history keeps it accounted. */
  lemma AccountedAfterAppend(accepted: seq<Sample>, data: seq<Sample>, c: Usize)
    requires Aligned(|accepted|) && Aligned(|data|)
    requires c == (|accepted| / CHANNELS) % USIZE_MODULUS
    ensures FetchAdd(c, |data| / CHANNELS) == (|accepted + data| / CHANNELS) % USIZE_MODULUS
  {
    FetchAddAccumulates(0, |accepted| / CHANNELS, |data| / CHANNELS);
  }
}
