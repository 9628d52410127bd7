/**
  The player's lifecycle and the three activities it runs concurrently, as
  one sequential state machine whose steps are actions of the decoding
  thread and of the device callback. Each step is taken as indivisible,
  although in the player a whole callback and a whole push attempt are
  several atomic operations each. Any interleaving of those steps is a
  trace of events; the theorems below hold for every trace, and facts about
  the counters hold between steps.

  The lifecycle is Idle (before the stream starts), Streaming (the decoder
  still feeds the ring), Draining (input exhausted, the ring may still hold
  samples) and Stopped (the callback returned Complete).

  Two variants are modelled. `AsWritten` starts the stream with
  `is_decoding` still false, as the player does; `Corrected` raises
  `is_decoding` before `pa_stream.start()`, while no callback can run yet.
  Only the corrected variant guarantees that playback never stops before
  the input is exhausted and fully played, and that a stopped player has
  `is_playing` false (see `PrematureCompletionAsWritten` and
  `StartStoreRaceAsWritten`).
 */
module Orchestrator {
  import opened Audio
  import opened SampleRing
  import opened PlaybackStatus
  import opened RealtimeSink
  import opened Feeder

  datatype Variant = AsWritten | Corrected

  /** Where the decoding thread is: between frames, inside `send_audio`, or past the end of the input. */
  datatype Producer = Waiting | Sending(data: seq<Sample>, sent: nat) | Exhausted

  /**
    The whole player: whether the stream was started, whether the decoding
    thread has stored `is_playing` after the start, whether the device still
    calls back, the producer's position, every frame handed to `send_audio`
    so far, and the shared pipe.
   */
  datatype Machine = Machine(
    started: bool,
    raised: bool,
    sinkActive: bool,
    producer: Producer,
    frames: seq<seq<Sample>>,
    pipe: Pipe)

  datatype Phase = Idle | Streaming | Draining | Stopped

  function PhaseOf(m: Machine): Phase
  {
    if !m.started then Idle
    else if !m.sinkActive then Stopped
    else if m.producer.Exhausted? then Draining
    else Streaming
  }

  /** The phase that may follow each phase. */
  function NextPhase(ph: Phase): Phase
  {
    match ph
    case Idle => Streaming
    case Streaming => Draining
    case Draining => Stopped
    case Stopped => Stopped
  }

  /** One action of the decoding thread or of the device, taken as indivisible. */
  datatype Event =
    | DeviceStarted(ok: bool)                     // `pa_stream.start()` succeeded or failed
    | PlayingRaised                               // `is_playing.store(true)` after the start
    | FrameDecoded(data: seq<Sample>)             // `send_audio` is entered with a frame's samples
    | PushAttempt                                 // one iteration of `send_audio`'s loop
    | FrameSent(spurious: bool)                   // `send_audio` returned; weak exchange of `is_decoding`
    | InputExhausted                              // packets and resampler flushed; `is_decoding` stored false
    | SinkCallback(buffer: seq<Sample>, frames: nat)  // the device asks for `frames` frames

  /** Everything concatenated, in order. */
  function Flatten(frames: seq<seq<Sample>>): seq<Sample>
    decreases |frames|
  {
    if frames == [] then [] else Flatten(frames[..|frames| - 1]) + frames[|frames| - 1]
  }

  /** The state after the ring and status are built and before the stream starts. */
  function Init(): Machine
  {
    Machine(false, false, false, Waiting, [], NewPipe())
  }

  /** Structural facts every step relies on. */
  predicate Wf(m: Machine)
  {
    && m.pipe.ring.Valid()
    && (m.producer.Sending? ==> m.producer.sent <= |m.producer.data|)
  }

  /**
    Starting the device stream: on success the device may call back from
    now on, before the decoding thread gets to store `is_playing`; on
    failure the player panics. The corrected variant raises `is_decoding`
    just before the start, when no callback can run yet.
   */
  function Start(v: Variant, m: Machine, ok: bool): (r: Outcome<Machine>)
    ensures !ok <==> r.Panicked?
    ensures r.Panicked? ==> r.reason == StartFailed
    ensures r.Ok? ==> r.value.started && r.value.sinkActive && r.value.raised == m.raised
    // only the corrected variant touches a flag, and no counter changes
    ensures r.Ok? ==> r.value.pipe.status ==
                        m.pipe.status.(isDecoding := m.pipe.status.isDecoding || v == Corrected)
    ensures r.Ok? ==> r.value.pipe.ring == m.pipe.ring && r.value.producer == m.producer
    ensures r.Ok? ==> r.value.pipe.accepted == m.pipe.accepted && r.value.pipe.played == m.pipe.played
    ensures r.Ok? ==> r.value.pipe.rendered == m.pipe.rendered
    ensures r.Ok? ==> r.value.frames == m.frames
  {
    if !ok then Panicked(StartFailed)
    else
      var status := if v == Corrected then m.pipe.status.(isDecoding := true) else m.pipe.status;
      Ok(m.(started := true, sinkActive := true, pipe := m.pipe.(status := status)))
  }

  /**
    One event. An event whose thread is not at that point (a callback after
    the device stopped, a push with nothing left to send, ...) changes
    nothing.
   */
  function Step(v: Variant, m: Machine, e: Event): (r: Outcome<Machine>)
    requires Wf(m)
    ensures r.Ok? ==> Wf(r.value)
    // a panic is a failed start or a failed alignment assertion, nothing else
    ensures r.Panicked? ==>
              || (e.DeviceStarted? && r.reason == StartFailed)
              || ((e.PushAttempt? || e.SinkCallback?) && r.reason == AlignmentAssertion)
    // `is_playing.store(true)` happens once, after the start, and touches nothing else
    ensures e.PlayingRaised? ==> r.Ok? && r.value.raised == (m.raised || m.started)
    ensures e.PlayingRaised? && m.started && !m.raised ==>
              && r.value.pipe == m.pipe.(status := m.pipe.status.(isPlaying := true))
              && r.value.started && r.value.producer == m.producer
              && r.value.frames == m.frames && r.value.sinkActive == m.sinkActive
    ensures e.PlayingRaised? && !(m.started && !m.raised) ==> r == Ok(m)
    // `is_decoding.store(false)` ends the input, and touches nothing else
    ensures e.InputExhausted? && m.raised && m.producer.Waiting? ==>
              && r.Ok? && r.value.producer.Exhausted?
              && r.value.pipe == m.pipe.(status := m.pipe.status.(isDecoding := false))
              && r.value.frames == m.frames && r.value.started == m.started
              && r.value.raised == m.raised && r.value.sinkActive == m.sinkActive
    // the decoding thread does nothing before it has stored `is_playing`
    ensures (!m.raised && m.producer.Waiting?
             && (e.FrameDecoded? || e.InputExhausted? || e.PushAttempt? || e.FrameSent?))
            ==> r == Ok(m)
    // a device that returned Complete is not called again
    ensures e.SinkCallback? && !m.sinkActive ==> r == Ok(m)
  {
    match e
    case DeviceStarted(ok) =>
      if m.started then Ok(m) else Start(v, m, ok)
    case PlayingRaised =>
      if m.started && !m.raised then
        Ok(m.(raised := true, pipe := m.pipe.(status := m.pipe.status.(isPlaying := true))))
      else Ok(m)
    case FrameDecoded(data) =>
      if m.raised && m.producer.Waiting? then
        Ok(m.(producer := Sending(data, 0), frames := m.frames + [data]))
      else Ok(m)
    case PushAttempt =>
      if m.producer.Sending? && m.producer.sent < |m.producer.data| then
        match SendStep(m.pipe, m.producer.data, m.producer.sent)
        case Panicked(reason) => Panicked(reason)
        case Ok(step) => Ok(m.(pipe := step.pipe, producer := Sending(m.producer.data, step.sent)))
      else Ok(m)
    case FrameSent(spurious) =>
      if m.producer.Sending? && m.producer.sent == |m.producer.data| then
        Ok(m.(producer := Waiting, pipe := m.pipe.(status := MarkDecoding(m.pipe.status, spurious))))
      else Ok(m)
    case InputExhausted =>
      if m.raised && m.producer.Waiting? then
        Ok(m.(producer := Exhausted, pipe := m.pipe.(status := m.pipe.status.(isDecoding := false))))
      else Ok(m)
    case SinkCallback(buffer, frames) =>
      if m.sinkActive && |buffer| == frames * CHANNELS then
        match Callback(m.pipe, buffer, frames)
        case Panicked(reason) => Panicked(reason)
        case Ok(tick) => Ok(m.(pipe := tick.pipe, sinkActive := tick.flow == Continue))
      else Ok(m)
  }

  /** Runs a trace of events; a panic ends the run. */
  function Run(v: Variant, m: Machine, trace: seq<Event>): (r: Outcome<Machine>)
    requires Wf(m)
    ensures r.Ok? ==> Wf(r.value)
    decreases |trace|
  {
    if trace == [] then Ok(m)
    else
      match Step(v, m, trace[0])
      case Panicked(reason) => Panicked(reason)
      case Ok(m') => Run(v, m', trace[1..])
  }

  /** The decoder hands out whole stereo frames only. */
  predicate EventAligned(e: Event)
  {
    e.FrameDecoded? ==> Aligned(|e.data|)
  }

  predicate TraceAligned(trace: seq<Event>)
  {
    forall i :: 0 <= i < |trace| ==> EventAligned(trace[i])
  }

  /** The ring's history is the frames handed to `send_audio`, the last one up to what was sent. */
  predicate ProducerTracks(m: Machine)
  {
    match m.producer
    case Sending(data, sent) =>
      && |m.frames| > 0 && m.frames[|m.frames| - 1] == data
      && sent <= |data| && Aligned(sent) && Aligned(|data|)
      && m.pipe.accepted == Flatten(m.frames[..|m.frames| - 1]) + data[..sent]
    case _ =>
      m.pipe.accepted == Flatten(m.frames)
  }

  /** What holds in every reachable state of both variants. */
  predicate Common(m: Machine)
  {
    && Wf(m)
    && Inv(m.pipe)
    && Accounted(m.pipe)
    && PlayCounted(m.pipe)
    && (!m.started ==> m == Init())
    && (m.raised ==> m.started)
    // the decoding thread does nothing else before it stores `is_playing`
    && (!m.raised ==> m.producer.Waiting? && m.frames == [] && !m.pipe.status.isPlaying)
    && (m.raised && m.sinkActive ==> m.pipe.status.isPlaying)
    && (m.producer.Exhausted? ==> !m.pipe.status.isDecoding)
    && ProducerTracks(m)
  }

  /**
    What holds only in the corrected variant: the decoding flag is up for
    as long as input may still come, and a stopped player has nothing left
    to play and has `is_playing` down.
   */
  predicate FlagsTrackInput(m: Machine)
  {
    && (m.started && !m.producer.Exhausted? ==> m.pipe.status.isDecoding)
    && (m.started && !m.sinkActive ==> m.producer.Exhausted? && m.pipe.ring.IsEmpty())
    && (m.started && !m.sinkActive ==> !m.pipe.status.isPlaying)
  }

  predicate Good(v: Variant, m: Machine)
  {
    Common(m) && (v == Corrected ==> FlagsTrackInput(m))
  }

  lemma InitIsGood(v: Variant)
    ensures Good(v, Init())
  {
  }

  lemma FlattenSnoc(frames: seq<seq<Sample>>, data: seq<Sample>)
    ensures Flatten(frames + [data]) == Flatten(frames) + data
  {
    assert (frames + [data])[..|frames|] == frames;
  }

  /**
    A push attempt keeps the pipe invariant and the frame accounting on both
    sides; it combines `SendStepKeepsPipeInv` with `PushKeepsAccounting`.
   */
  lemma PushKeepsPipe(pipe: Pipe, prefix: seq<Sample>, data: seq<Sample>, sent: nat)
    requires Inv(pipe) && Accounted(pipe)
    requires sent < |data| && Aligned(sent) && Aligned(|data|)
    requires pipe.accepted == prefix + data[..sent]
    ensures SendStep(pipe, data, sent).Ok?
    ensures var step := SendStep(pipe, data, sent).value;
            && Inv(step.pipe) && Accounted(step.pipe)
            && step.pipe.accepted == prefix + data[..step.sent]
            && step.sent <= |data| && Aligned(step.sent)
            && step.pipe.status.isPlaying == pipe.status.isPlaying
            && step.pipe.status.isDecoding == pipe.status.isDecoding
            && (PlayCounted(pipe) ==> PlayCounted(step.pipe))
  {
    SendStepKeepsPipeInv(pipe, data, sent);
    PushKeepsAccounting(pipe, prefix, data, sent);
  }

  /** The samples a push attempt queues extend the history, and `frames_decoded` counts them. */
  lemma PushKeepsAccounting(pipe: Pipe, prefix: seq<Sample>, data: seq<Sample>, sent: nat)
    requires Inv(pipe) && Accounted(pipe)
    requires sent < |data| && Aligned(sent) && Aligned(|data|)
    requires pipe.accepted == prefix + data[..sent]
    ensures SendStep(pipe, data, sent).Ok?
    ensures var step := SendStep(pipe, data, sent).value;
            && Accounted(step.pipe) && step.pipe.accepted == prefix + data[..step.sent]
  {
    var step := SendStep(pipe, data, sent).value;
    assert data[..step.sent] == data[..sent] + data[sent..step.sent];
    assert step.pipe.accepted == (prefix + data[..sent]) + data[sent..step.sent];
    AccountedAfterAppend(pipe.accepted, data[sent..step.sent], pipe.status.framesDecoded);
  }

  /** A push attempt keeps the producer's bookkeeping. */
  lemma PushAttemptKeepsCommon(m: Machine)
    requires Common(m) && m.producer.Sending? && m.producer.sent < |m.producer.data|
    ensures SendStep(m.pipe, m.producer.data, m.producer.sent).Ok?
    ensures var step := SendStep(m.pipe, m.producer.data, m.producer.sent).value;
            Common(m.(pipe := step.pipe, producer := Sending(m.producer.data, step.sent)))
  {
    var data, sent := m.producer.data, m.producer.sent;
    PushKeepsPipe(m.pipe, Flatten(m.frames[..|m.frames| - 1]), data, sent);
  }

  /** A callback keeps the shared state and ties `is_playing` to the device. */
  lemma CallbackKeepsGood(v: Variant, m: Machine, buffer: seq<Sample>, frames: nat)
    requires Good(v, m) && m.sinkActive && |buffer| == frames * CHANNELS
    ensures Callback(m.pipe, buffer, frames).Ok?
    ensures var tick := Callback(m.pipe, buffer, frames).value;
            Good(v, m.(pipe := tick.pipe, sinkActive := tick.flow == Continue))
  {
    CallbackKeepsInv(m.pipe, buffer, frames);
  }

  /**
    Every step from a good state leads to a good state, and the only panic
    possible is a failed stream start: the alignment assertions of the
    callback and of `send_audio` never fire.
   */
  lemma StepKeepsGood(v: Variant, m: Machine, e: Event)
    requires Good(v, m) && EventAligned(e)
    ensures Step(v, m, e).Panicked? ==> Step(v, m, e).reason == StartFailed
    ensures Step(v, m, e).Ok? ==> Good(v, Step(v, m, e).value)
  {
    match e
    case DeviceStarted(ok) =>
      FlagEventKeepsGood(v, m, e);
    case PlayingRaised =>
      FlagEventKeepsGood(v, m, e);
    case FrameDecoded(data) =>
      if m.raised && m.producer.Waiting? {
        FrameDecodedKeepsGood(v, m, data);
      }
    case PushAttempt =>
      if m.producer.Sending? && m.producer.sent < |m.producer.data| {
        PushAttemptKeepsCommon(m);
      }
    case FrameSent(spurious) =>
      if m.producer.Sending? && m.producer.sent == |m.producer.data| {
        FrameSentKeepsGood(v, m, spurious);
      }
    case InputExhausted =>
      FlagEventKeepsGood(v, m, e);
    case SinkCallback(buffer, frames) =>
      if m.sinkActive && |buffer| == frames * CHANNELS {
        CallbackKeepsGood(v, m, buffer, frames);
      }
  }

  /** The start and the two flag stores keep the invariants. */
  lemma FlagEventKeepsGood(v: Variant, m: Machine, e: Event)
    requires Good(v, m) && (e.DeviceStarted? || e.PlayingRaised? || e.InputExhausted?)
    ensures Step(v, m, e).Panicked? ==> Step(v, m, e).reason == StartFailed
    ensures Step(v, m, e).Ok? ==> Good(v, Step(v, m, e).value)
  {
  }

  lemma FrameDecodedKeepsGood(v: Variant, m: Machine, data: seq<Sample>)
    requires Good(v, m) && m.raised && m.producer.Waiting? && Aligned(|data|)
    ensures Good(v, m.(producer := Sending(data, 0), frames := m.frames + [data]))
  {
    assert (m.frames + [data])[..|m.frames|] == m.frames;
  }

  lemma FrameSentKeepsGood(v: Variant, m: Machine, spurious: bool)
    requires Good(v, m) && m.producer.Sending? && m.producer.sent == |m.producer.data|
    ensures Good(v, m.(producer := Waiting, pipe := m.pipe.(status := MarkDecoding(m.pipe.status, spurious))))
  {
    var data := m.producer.data;
    assert data[..|data|] == data;
    assert m.frames == m.frames[..|m.frames| - 1] + [data];
    FlattenSnoc(m.frames[..|m.frames| - 1], data);
  }

  lemma {:induction false} RunKeepsGood(v: Variant, m: Machine, trace: seq<Event>)
    requires Good(v, m) && TraceAligned(trace)
    ensures Run(v, m, trace).Panicked? ==> Run(v, m, trace).reason == StartFailed
    ensures Run(v, m, trace).Ok? ==> Good(v, Run(v, m, trace).value)
    decreases |trace|
  {
    if trace != [] {
      StepKeepsGood(v, m, trace[0]);
      if Step(v, m, trace[0]).Ok? {
        assert TraceAligned(trace[1..]) by {
          forall i | 0 <= i < |trace[1..]| ensures EventAligned(trace[1..][i]) {
            assert trace[1..][i] == trace[i + 1];
          }
        }
        RunKeepsGood(v, Step(v, m, trace[0]).value, trace[1..]);
      }
    }
  }

  /**
    Under every interleaving of decoding and playback, in both variants:
    the assertions never fire, the ring never holds more than one second of
    audio and always holds whole frames, the samples delivered to the
    device are, in order, a prefix of the concatenation of all frames handed
    to `send_audio`, and `frames_decoded` counts exactly the frames queued.
   */
  lemma StreamingIsSafe(v: Variant, trace: seq<Event>)
    requires TraceAligned(trace)
    ensures Run(v, Init(), trace).Panicked? ==> Run(v, Init(), trace).reason == StartFailed
    ensures Run(v, Init(), trace).Ok? ==>
      var m := Run(v, Init(), trace).value;
      && |m.pipe.ring.items| <= BUFFER_SIZE
      && Aligned(|m.pipe.ring.items|)
      && Aligned(|m.pipe.played|)
      && m.pipe.played <= Flatten(m.frames)
      && m.pipe.status.framesDecoded == (|m.pipe.accepted| / CHANNELS) % USIZE_MODULUS
      && m.pipe.status.framesPlayed == m.pipe.rendered % USIZE_MODULUS
      && |m.pipe.played| <= CHANNELS * m.pipe.rendered
  {
    InitIsGood(v);
    RunKeepsGood(v, Init(), trace);
    if Run(v, Init(), trace).Ok? {
      var m := Run(v, Init(), trace).value;
      PlayedIsPrefix(m.pipe);
      match m.producer
      case Sending(data, sent) =>
        var prefix := Flatten(m.frames[..|m.frames| - 1]);
        assert m.frames == m.frames[..|m.frames| - 1] + [data];
        FlattenSnoc(m.frames[..|m.frames| - 1], data);
        assert data == data[..sent] + data[sent..];
        assert m.pipe.accepted <= Flatten(m.frames);
      case _ =>
    }
  }

  /**
    In the corrected variant playback stops only after the input is
    exhausted and every sample of every frame handed to `send_audio` has
    been delivered to the device, once and in order; `is_playing` is then
    false, which ends the teardown poll.
   */
  lemma CompletionNeverTruncates(trace: seq<Event>)
    requires TraceAligned(trace)
    ensures Run(Corrected, Init(), trace).Ok? && PhaseOf(Run(Corrected, Init(), trace).value) == Stopped ==>
      var m := Run(Corrected, Init(), trace).value;
      && m.producer.Exhausted?
      && m.pipe.played == Flatten(m.frames)
      && !m.pipe.status.isPlaying
  {
    InitIsGood(Corrected);
    RunKeepsGood(Corrected, Init(), trace);
  }

  /**
    In the corrected variant the lifecycle only moves forward, one phase at
    a time: Idle, Streaming, Draining, Stopped. In particular it never jumps
    from Streaming to Stopped.
   */
  lemma PhaseAdvancesInOrder(m: Machine, e: Event)
    requires Good(Corrected, m) && EventAligned(e)
    requires Step(Corrected, m, e).Ok?
    ensures PhaseOf(Step(Corrected, m, e).value) in {PhaseOf(m), NextPhase(PhaseOf(m))}
  {
    // only a callback can stop the device, and it needs the corrected invariant to do so in order
    if e.SinkCallback? {
      CallbackPhase(m, e.buffer, e.frames);
    }
  }

  lemma CallbackPhase(m: Machine, buffer: seq<Sample>, frames: nat)
    requires Good(Corrected, m)
    requires Step(Corrected, m, SinkCallback(buffer, frames)).Ok?
    ensures var m' := Step(Corrected, m, SinkCallback(buffer, frames)).value;
            PhaseOf(m') in {PhaseOf(m), NextPhase(PhaseOf(m))}
  {
    if m.sinkActive && |buffer| == frames * CHANNELS {
      var tick := Callback(m.pipe, buffer, frames).value;
      assert Step(Corrected, m, SinkCallback(buffer, frames)).value
             == m.(pipe := tick.pipe, sinkActive := tick.flow == Continue);
      assert m.started;
      if tick.flow == Complete {
        // Complete needs `is_decoding` down, which in the corrected variant means the input ended
        assert !m.pipe.status.isDecoding;
        assert m.producer.Exhausted?;
      }
    }
  }

  /**
    As written, the callback can end playback before any audio was queued:
    after a successful start `is_decoding` is still false, so a callback
    that finds the ring empty returns Complete and clears `is_playing`. The
    frame decoded afterwards is queued but never played, and the lifecycle
    jumps from Streaming straight to Stopped.
   */
  lemma PrematureCompletionAsWritten(s: Sample)
    ensures var trace := [DeviceStarted(true), PlayingRaised,
                          SinkCallback(DeviceBuffer(), FRAMES_PER_BUFFER),
                          FrameDecoded([s, s]), PushAttempt];
      && TraceAligned(trace)
      && Run(AsWritten, Init(), trace).Ok?
      && var m := Run(AsWritten, Init(), trace).value;
      && PhaseOf(m) == Stopped
      && !m.producer.Exhausted?
      && m.pipe.accepted == [s, s]
      && m.pipe.played == []
      && m.pipe.played != Flatten(m.frames)
  {
    var prefix := [DeviceStarted(true), PlayingRaised, SinkCallback(DeviceBuffer(), FRAMES_PER_BUFFER)];
    var suffix := [FrameDecoded([s, s]), PushAttempt];
    StopsOnFirstCallbackAsWritten();
    var m3 := Run(AsWritten, Init(), prefix).value;
    FrameQueuedAfterStop(m3, s);
    RunAppend(AsWritten, Init(), prefix, suffix);
    assert prefix + suffix == [DeviceStarted(true), PlayingRaised,
                               SinkCallback(DeviceBuffer(), FRAMES_PER_BUFFER),
                               FrameDecoded([s, s]), PushAttempt];
  }

  /** As written, a callback right after the start and the store of `is_playing` completes. */
  lemma StopsOnFirstCallbackAsWritten()
    ensures var r := Run(AsWritten, Init(),
                         [DeviceStarted(true), PlayingRaised, SinkCallback(DeviceBuffer(), FRAMES_PER_BUFFER)]);
      && r.Ok? && Wf(r.value) && Inv(r.value.pipe)
      && r.value.started && r.value.raised && !r.value.sinkActive
      && r.value.producer.Waiting? && r.value.frames == []
      && r.value.pipe.ring.IsEmpty() && r.value.pipe.accepted == [] && r.value.pipe.played == []
  {
    var m0 := Init();
    var m1 := m0.(started := true, sinkActive := true);
    assert Step(AsWritten, m0, DeviceStarted(true)) == Ok(m1);
    var m2 := m1.(raised := true, pipe := m1.pipe.(status := m1.pipe.status.(isPlaying := true)));
    assert Step(AsWritten, m1, PlayingRaised) == Ok(m2);
    EmptyRingCompletesAsWritten(m2);
    var m3 := Step(AsWritten, m2, SinkCallback(DeviceBuffer(), FRAMES_PER_BUFFER)).value;
    RunCons(AsWritten, m2, SinkCallback(DeviceBuffer(), FRAMES_PER_BUFFER), [], m3);
    RunCons(AsWritten, m1, PlayingRaised, [SinkCallback(DeviceBuffer(), FRAMES_PER_BUFFER)], m3);
    RunCons(AsWritten, m0, DeviceStarted(true),
            [PlayingRaised, SinkCallback(DeviceBuffer(), FRAMES_PER_BUFFER)], m3);
  }

  /** On a stopped device, a decoded frame is queued and stays unplayed. */
  lemma FrameQueuedAfterStop(m: Machine, s: Sample)
    requires Wf(m) && Inv(m.pipe) && m.started && m.raised && !m.sinkActive
    requires m.producer.Waiting? && m.frames == []
    requires m.pipe.ring.IsEmpty() && m.pipe.accepted == [] && m.pipe.played == []
    ensures var r := Run(AsWritten, m, [FrameDecoded([s, s]), PushAttempt]);
      && r.Ok? && PhaseOf(r.value) == Stopped && !r.value.producer.Exhausted?
      && r.value.pipe.accepted == [s, s] && r.value.pipe.played == []
      && Flatten(r.value.frames) == [s, s]
  {
    var m4 := m.(producer := Sending([s, s], 0), frames := m.frames + [[s, s]]);
    assert Step(AsWritten, m, FrameDecoded([s, s])) == Ok(m4);
    assert m4.frames == [[s, s]];
    PushIntoEmptyRing(m4, s);
    var m5 := Step(AsWritten, m4, PushAttempt).value;
    assert Flatten(m5.frames) == [s, s] by {
      assert m5.frames[..0] == [];
    }
    RunCons(AsWritten, m4, PushAttempt, [], m5);
    RunCons(AsWritten, m, FrameDecoded([s, s]), [PushAttempt], m5);
  }

  /** The push of a one-frame input into an empty ring takes the whole frame. */
  lemma PushIntoEmptyRing(m: Machine, s: Sample)
    requires Wf(m) && Inv(m.pipe) && m.producer == Sending([s, s], 0)
    requires m.pipe.ring.IsEmpty() && m.pipe.accepted == [] && m.pipe.played == []
    ensures var r := Step(AsWritten, m, PushAttempt);
      && r.Ok? && r.value.started == m.started && r.value.sinkActive == m.sinkActive
      && r.value.frames == m.frames && r.value.producer == Sending([s, s], 2)
      && r.value.pipe.accepted == [s, s] && r.value.pipe.played == []
  {
    var push := SendStep(m.pipe, [s, s], 0);
    assert push.Ok? && push.value.sent == 2 && push.value.pipe.accepted == [s, s] by {
      assert Aligned(0) && Aligned(|[s, s]|);
    }
  }

  /** Running two traces one after the other is running their concatenation. */
  lemma {:induction false} RunAppend(v: Variant, m: Machine, a: seq<Event>, b: seq<Event>)
    requires Wf(m)
    ensures Run(v, m, a).Ok? ==> Run(v, m, a + b) == Run(v, Run(v, m, a).value, b)
    decreases |a|
  {
    if a == [] {
      assert a + b == b;
    } else {
      assert (a + b)[0] == a[0] && (a + b)[1..] == a[1..] + b;
      if Step(v, m, a[0]).Ok? {
        RunAppend(v, Step(v, m, a[0]).value, a[1..], b);
      }
    }
  }

  /**
    As written, the device may call back between `pa_stream.start()` and
    the store of `is_playing`: that callback finds `is_decoding` false and
    the ring empty, stores `is_playing` false and completes, and the store
    that follows raises `is_playing` again on a device that no longer calls
    back.
   */
  lemma StartStoreRaceAsWritten()
    ensures var trace := [DeviceStarted(true), SinkCallback(DeviceBuffer(), FRAMES_PER_BUFFER),
                          PlayingRaised];
      && TraceAligned(trace)
      && Run(AsWritten, Init(), trace).Ok?
      && var m := Run(AsWritten, Init(), trace).value;
      && PhaseOf(m) == Stopped && m.raised
      && m.pipe.status.isPlaying
      && m.producer.Waiting? && m.frames == []
  {
    var m0 := Init();
    var m1 := m0.(started := true, sinkActive := true);
    assert Step(AsWritten, m0, DeviceStarted(true)) == Ok(m1);
    EmptyRingCompletesAsWritten(m1);
    var m2 := Step(AsWritten, m1, SinkCallback(DeviceBuffer(), FRAMES_PER_BUFFER)).value;
    var m3 := m2.(raised := true, pipe := m2.pipe.(status := m2.pipe.status.(isPlaying := true)));
    assert Step(AsWritten, m2, PlayingRaised) == Ok(m3);
    RunCons(AsWritten, m2, PlayingRaised, [], m3);
    RunCons(AsWritten, m1, SinkCallback(DeviceBuffer(), FRAMES_PER_BUFFER), [PlayingRaised], m3);
    RunCons(AsWritten, m0, DeviceStarted(true),
            [SinkCallback(DeviceBuffer(), FRAMES_PER_BUFFER), PlayingRaised], m3);
  }

  /**
    As written, a callback that finds `is_decoding` false and the ring empty
    completes: the device stops and `is_playing` is stored false, and
    nothing else changes.
   */
  lemma EmptyRingCompletesAsWritten(m: Machine)
    requires Wf(m) && Inv(m.pipe) && m.sinkActive
    requires !m.pipe.status.isDecoding && m.pipe.ring.IsEmpty()
    ensures var r := Step(AsWritten, m, SinkCallback(DeviceBuffer(), FRAMES_PER_BUFFER));
      && r.Ok? && !r.value.sinkActive && !r.value.pipe.status.isPlaying
      && r.value.started == m.started && r.value.raised == m.raised
      && r.value.producer == m.producer && r.value.frames == m.frames
      && Inv(r.value.pipe) && r.value.pipe.ring.IsEmpty()
      && r.value.pipe.accepted == m.pipe.accepted && r.value.pipe.played == m.pipe.played
  {
    CallbackKeepsInv(m.pipe, DeviceBuffer(), FRAMES_PER_BUFFER);
    var cb := Callback(m.pipe, DeviceBuffer(), FRAMES_PER_BUFFER);
    assert cb.Ok? && cb.value.flow == Complete;
  }

  /** A run that starts with a step that does not panic goes on from the step's result. */
  lemma RunCons(v: Variant, m: Machine, e: Event, rest: seq<Event>, m': Machine)
    requires Wf(m) && Step(v, m, e).Ok? && Run(v, Step(v, m, e).value, rest) == Ok(m')
    ensures Run(v, m, [e] + rest) == Ok(m')
  {
    assert ([e] + rest)[0] == e && ([e] + rest)[1..] == rest;
  }

  /**
    Once the device has stopped calling back while `is_playing` is still
    raised, no later action of either thread lowers it: the teardown poll
    on `is_playing` never ends, in either variant.
   */
  lemma {:induction false} StoppedWhilePlayingIsStuck(v: Variant, m: Machine, trace: seq<Event>)
    requires Wf(m) && m.started && m.raised && !m.sinkActive && m.pipe.status.isPlaying
    ensures Run(v, m, trace).Ok? ==>
      && PhaseOf(Run(v, m, trace).value) == Stopped
      && Run(v, m, trace).value.pipe.status.isPlaying
    decreases |trace|
  {
    if trace != [] {
      var r := Step(v, m, trace[0]);
      if r.Ok? {
        assert r.value.started && r.value.raised && !r.value.sinkActive;
        assert r.value.pipe.status.isPlaying;
        StoppedWhilePlayingIsStuck(v, r.value, trace[1..]);
      }
    }
  }

  /**
    The player end to end under one schedule of the device, in the corrected
    variant: start the stream and store `is_playing` by the lifecycle's own
    `DeviceStarted` and `PlayingRaised` steps, hand every decoded frame to
    `send_audio` (the device drains one buffer whenever the producer backs
    off) and raise `is_decoding` after each, store it false when the input
    is exhausted, then let the device call back until it completes. The
    feeding and draining use the same `SendStep` and `Callback` as `Step`'s
    `PushAttempt` and `SinkCallback`, but the schedule itself is not
    written as a trace of `Run`. Every loop finishes:
    playback ends with every sample of every frame delivered once, in order,
    `frames_decoded` equal to the frames decoded and `is_playing` false.
    `spurious[i]` says whether the weak exchange after frame `i` failed.
   */
  method Play(frames: seq<seq<Sample>>, spurious: seq<bool>, startOk: bool) returns (r: Outcome<Pipe>)
    requires |spurious| == |frames|
    requires forall i :: 0 <= i < |frames| ==> Aligned(|frames[i]|)
    ensures r.Ok? <==> startOk
    ensures r.Panicked? ==> r.reason == StartFailed
    ensures r.Ok? ==> r.value.played == Flatten(frames) && r.value.ring.IsEmpty()
    ensures r.Ok? ==> r.value.status.framesDecoded == (|Flatten(frames)| / CHANNELS) % USIZE_MODULUS
    ensures r.Ok? ==> !r.value.status.isPlaying && !r.value.status.isDecoding
    // `frames_played`, unwrapped, is at least the number of frames decoded
    ensures r.Ok? ==> r.value.status.framesPlayed == r.value.rendered % USIZE_MODULUS
    ensures r.Ok? ==> |Flatten(frames)| / CHANNELS <= r.value.rendered
  {
    var started := Step(Corrected, Init(), DeviceStarted(startOk));
    if started.Panicked? {
      return Panicked(StartFailed);
    }
    var m := Step(Corrected, started.value, PlayingRaised).value;
    var p := m.pipe;
    var k := 0;
    while k < |frames|
      invariant k <= |frames|
      invariant Inv(p) && Accounted(p) && PlayCounted(p)
      invariant p.accepted == Flatten(frames[..k])
      invariant p.status.isPlaying && p.status.isDecoding
    {
      assert frames[..k + 1] == frames[..k] + [frames[k]];
      FlattenSnoc(frames[..k], frames[k]);
      var sent := SendAudio(p, frames[k]);
      p := sent.value;
      p := p.(status := MarkDecoding(p.status, spurious[k]));
      k := k + 1;
    }
    assert frames[..k] == frames;
    p := p.(status := p.status.(isDecoding := false));
    var stopped := false;
    while !stopped
      invariant Inv(p) && Accounted(p) && PlayCounted(p)
      invariant p.accepted == Flatten(frames)
      invariant !p.status.isDecoding
      invariant stopped ==> p.ring.IsEmpty() && !p.status.isPlaying
      decreases |p.ring.items| + (if stopped then 0 else 1)
    {
      CallbackKeepsInv(p, DeviceBuffer(), FRAMES_PER_BUFFER);
      var tick := Callback(p, DeviceBuffer(), FRAMES_PER_BUFFER).value;
      p, stopped := tick.pipe, tick.flow == Complete;
    }
    return Ok(p);
  }
}
