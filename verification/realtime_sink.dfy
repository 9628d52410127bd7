/**
  The device callback: runs on the audio device's thread once per hardware
  buffer, moves queued samples into the device buffer with the gain applied,
  fills any shortfall with silence, counts the frames played and decides
  whether the stream is finished.
 */
module RealtimeSink {
  import opened Audio
  import opened SampleRing
  import opened PlaybackStatus

  /** What the callback tells the device: call again, or stop. */
  datatype Flow = Continue | Complete

  /** One callback's effect: the new shared state, the device buffer as handed back, and the verdict. */
  datatype Tick = Tick(pipe: Pipe, output: seq<Sample>, flow: Flow)

  /** The sample the frame loop leaves at `idx`: gained below `recv`, silence from `recv` on. */
  function Rendered(buffer: seq<Sample>, recv: nat, idx: nat): Sample
    requires idx < |buffer|
  {
    if idx >= recv then SILENCE else Scale(buffer[idx])
  }

  /** The inner loop over the channels of the frame starting at `base`. */
  function RenderFrame(buffer: seq<Sample>, recv: nat, base: nat): (out: seq<Sample>)
    requires base + CHANNELS <= |buffer|
    ensures |out| == CHANNELS
  {
    seq(CHANNELS, c requires 0 <= c < CHANNELS => Rendered(buffer, recv, base + c))
  }

  /**
    The outer loop over `frames` frames: the rendered buffer, and the played
    counter after one `fetch_add(1)` per frame. Every index below `recv` is
    the buffer's sample with the gain applied once; every index from `recv`
    on is silence, whatever the buffer held there before.
   */
  function Render(buffer: seq<Sample>, recv: nat, frames: nat, counter: Usize): (r: (seq<Sample>, Usize))
    requires |buffer| == frames * CHANNELS
    ensures |r.0| == |buffer|
    ensures forall i :: 0 <= i < recv && i < |buffer| ==> r.0[i] == Scale(buffer[i])
    ensures forall i :: recv <= i < |buffer| ==> r.0[i] == SILENCE
    ensures r.1 == FetchAdd(counter, frames)
    decreases frames
  {
    if frames == 0 then ([], counter)
    else
      var base := (frames - 1) * CHANNELS;
      var (head, played) := Render(buffer[..base], recv, frames - 1, counter);
      var out := head + RenderFrame(buffer, recv, base);
      assert forall i :: 0 <= i < base ==> out[i] == head[i] && buffer[..base][i] == buffer[i];
      assert forall i :: base <= i < |buffer| ==> out[i] == Rendered(buffer, recv, i) by {
        forall i | base <= i < |buffer|
          ensures out[i] == Rendered(buffer, recv, i)
        {
          assert out[i] == RenderFrame(buffer, recv, base)[i - base];
        }
      }
      FetchAddAccumulates(counter, frames - 1, 1);
      (out, FetchAdd(played, 1))
  }

  /** How many samples `pop_slice` moves into a buffer of this length. */
  function Received(p: Pipe, buffer: seq<Sample>): nat
  {
    Min(|buffer|, |p.ring.items|)
  }

  /**
    One invocation of the callback with the device buffer `buffer` of
    `frames` interleaved frames. It panics exactly when the number of samples
    it popped is not a whole number of frames.
   */
  function Callback(p: Pipe, buffer: seq<Sample>, frames: nat): (r: Outcome<Tick>)
    requires |buffer| == frames * CHANNELS
    ensures r.Ok? <==> Aligned(Received(p, buffer))
    ensures r.Panicked? ==> r.reason == AlignmentAssertion
    // the device gets the oldest queued samples, in order, each gained once
    ensures r.Ok? ==> |r.value.output| == |buffer|
    ensures r.Ok? ==> forall i :: 0 <= i < Received(p, buffer) ==>
                        r.value.output[i] == Scale(p.ring.items[i])
    // and silence, never stale buffer contents, for the rest
    ensures r.Ok? ==> forall i :: Received(p, buffer) <= i < |buffer| ==>
                        r.value.output[i] == SILENCE
    // exactly the delivered samples leave the ring
    ensures r.Ok? ==> r.value.pipe.ring.capacity == p.ring.capacity
    ensures r.Ok? ==> r.value.pipe.ring.items == p.ring.items[Received(p, buffer)..]
    ensures r.Ok? ==> r.value.pipe.played == p.played + p.ring.items[..Received(p, buffer)]
    ensures r.Ok? ==> r.value.pipe.accepted == p.accepted
    // one played frame per frame of the buffer, underrun or not
    ensures r.Ok? ==> r.value.pipe.status.framesPlayed == FetchAdd(p.status.framesPlayed, frames)
    ensures r.Ok? ==> r.value.pipe.rendered == p.rendered + frames
    ensures r.Ok? ==> r.value.pipe.status.framesDecoded == p.status.framesDecoded
    ensures r.Ok? ==> r.value.pipe.status.isDecoding == p.status.isDecoding
    // completion: the condition as the callback tests it ...
    ensures r.Ok? ==> (r.value.flow == Complete <==>
                         !p.status.isDecoding && r.value.pipe.ring.IsEmpty() && Received(p, buffer) == 0)
    // ... which amounts to: decoding is over and nothing was queued
    ensures r.Ok? ==> (r.value.flow == Complete <==> !p.status.isDecoding && p.ring.IsEmpty())
    ensures r.Ok? ==> r.value.pipe.status.isPlaying ==
                        (if r.value.flow == Complete then false else p.status.isPlaying)
  {
    var (ring', popped) := PopSlice(p.ring, |buffer|);
    var recv := |popped|;
    if !Aligned(recv) then Panicked(AlignmentAssertion)
    else
      var filled := popped + buffer[recv..];
      var (output, framesPlayed) := Render(filled, recv, frames, p.status.framesPlayed);
      var status := p.status.(framesPlayed := framesPlayed);
      var pipe := p.(ring := ring', status := status, played := p.played + popped,
                     rendered := p.rendered + frames);
      if !status.isDecoding && ring'.IsEmpty() && recv == 0 then
        Ok(Tick(pipe.(status := status.(isPlaying := false)), output, Complete))
      else
        Ok(Tick(pipe, output, Continue))
  }

  /**
    The callback's effect does not depend on what the device buffer held
    before the call: every index is overwritten, by a ring sample or by
    silence.
   */
  lemma CallbackIgnoresStaleBuffer(p: Pipe, b1: seq<Sample>, b2: seq<Sample>, frames: nat)
    requires |b1| == frames * CHANNELS && |b2| == frames * CHANNELS
    ensures Callback(p, b1, frames) == Callback(p, b2, frames)
  {
    var r1, r2 := Callback(p, b1, frames), Callback(p, b2, frames);
    if r1.Ok? {
      var recv := Received(p, b1);
      forall i | 0 <= i < |b1|
        ensures r1.value.output[i] == r2.value.output[i]
      {
        if i < recv {
          assert r1.value.output[i] == Scale(p.ring.items[i]);
        }
      }
      assert r1.value.output == r2.value.output;
      assert r1.value.pipe.status == r2.value.pipe.status;
    }
  }

  /**
    On a pipe whose ring holds whole frames the callback never panics, and
    it keeps the pipe's invariant and its frame accounting on both sides:
    `frames_played` still counts the rendered frames, which still cover
    every sample played.
   */
  lemma CallbackKeepsInv(p: Pipe, buffer: seq<Sample>, frames: nat)
    requires Inv(p) && |buffer| == frames * CHANNELS
    ensures Callback(p, buffer, frames).Ok?
    ensures Inv(Callback(p, buffer, frames).value.pipe)
    ensures Accounted(p) ==> Accounted(Callback(p, buffer, frames).value.pipe)
    ensures PlayCounted(p) ==> PlayCounted(Callback(p, buffer, frames).value.pipe)
  {
    var recv := Received(p, buffer);
    assert Aligned(recv);
    var q := Callback(p, buffer, frames).value.pipe;
    assert p.ring.items[..recv] + p.ring.items[recv..] == p.ring.items;
    assert q.played + q.ring.items == p.played + p.ring.items;
    FetchAddAccumulates(0, p.rendered, frames);
  }
}
