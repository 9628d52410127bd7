# fluxplayercli streaming core in Dafny

A model of the audio streaming core of `fluxplayercli`, a command-line audio
player. The decoding thread pushes interleaved stereo `f32` samples into a
bounded single-producer/single-consumer ring of one second of audio
(96000 samples). A real-time device callback pops them, applies a fixed gain,
fills any shortfall with silence and counts the frames it played. Four shared
atomic fields (`is_decoding`, `is_playing`, `frames_decoded`,
`frames_played`) carry progress and end-of-stream between the threads. The
lifecycle is Idle → Streaming → Draining → Stopped.

Modules, one per component:

- `Audio` (`audio.dfy`): the constants (2 channels, 48 kHz, 512 frames per
  device buffer, 96000-sample ring, gain 0.5), samples, and 64-bit wrapping
  `usize` counters. It also defines the `Outcome` of a step that may panic.
- `SampleRing` (`sample_ring.dfy`): the bounded FIFO. `push_slice` and
  `pop_slice` are modelled as partial transfers. Runs of arbitrary
  interleaved operations are shown to be exactly-once FIFO and
  frame-aligned.
- `PlaybackStatus` (`playback_status.dfy`): `PlayerStatus`, its initial
  value, and the weak compare-exchange on `is_decoding`. It also defines the
  pipe shared by producer and consumer, with its invariant.
- `RealtimeSink` (`realtime_sink.dfy`): the device callback. It pops, applies
  the gain and zero-fills, counts frames and decides Complete or Continue.
- `Feeder` (`feeder.dfy`): `send_audio`, one push attempt at a time, and the
  whole retry loop as a method with loop invariants.
- `Orchestrator` (`orchestrator.dfy`): the lifecycle as a state machine.
  Its events are actions of the decoding thread and of the device, each
  taken as indivisible: a whole callback, one push attempt, the start, each
  flag store. `pa_stream.start()` and the store of `is_playing` are two
  separate events. Safety theorems cover every interleaving of these events, and `Play` shows that one
  schedule of the whole player finishes.
- `Resample` (`resample.dfy`): the decision whether decoded audio needs the
  resampler.

The assertions in the callback (`recv_size % CHANNELS == 0`) and in
`send_audio` (`sent_size % CHANNELS == 0`) are modelled as panics. The model
proves they cannot fire when every decoded frame is a whole number of stereo
frames. A failed `pa_stream.start()` is the `StartFailed` panic.

Two variants of the lifecycle are modelled. `AsWritten` is the code as it
stands. `Corrected` raises `is_decoding` before `pa_stream.start()`, for
example in `PlayerStatus::new` or just before src/main.rs:190, while no
callback can run yet (see Findings). The ring, accounting and alignment theorems hold
for both variants. The no-truncation theorem and the end-to-end `Play` are
about the corrected one.

## Model

| member | source | states |
|---|---|---|
| Audio.FetchAdd | src/main.rs:173 | The counter after `fetch_add(k)` is congruent to the exact sum modulo 2^64, and equals it when the sum does not overflow. |
| SampleRing.NewRing | src/main.rs:150 | A new ring is empty, valid, and has the requested capacity. |
| SampleRing.PushSlice | src/main.rs:274 | The longest prefix of the slice that fits is appended after the queued samples. It never overwrites and stops short only on a full ring. The count stays whole frames when the ring, capacity and slice are whole frames. |
| SampleRing.PopSlice | src/main.rs:159 | The oldest samples leave the ring in order, as many as the buffer holds or the ring has. It stops short only when the ring runs empty, and keeps frame alignment. |
| SampleRing.RunIsFifo | src/main.rs:150-151 | Under any interleaving of pushes and pops, popped samples followed by the remaining contents equal the initial contents followed by all accepted samples. Nothing is lost, duplicated or reordered. |
| SampleRing.RunStaysAligned | src/main.rs:24 | If the capacity, every pushed slice and every pop buffer are whole frames, then occupancy, every accepted run and every popped run stay whole frames. |
| PlaybackStatus.NewStatus | src/main.rs:39-46 | The initial status has both flags false and both counters zero. |
| PlaybackStatus.MarkDecoding | src/main.rs:225-226 | After the weak exchange, `is_decoding` is set exactly when it already was or the exchange did not fail spuriously. No other field changes. |
| PlaybackStatus.NewPipe | src/main.rs:150-153 | The ring and status built before playback satisfy the pipe invariant, with empty histories and no frame rendered. |
| PlaybackStatus.PlayedIsPrefix | src/main.rs:159 | Under the pipe invariant, the samples played so far are a whole-frame prefix of the samples accepted. |
| RealtimeSink.Render | src/main.rs:162-174 | Each index below `recv_size` holds the buffer's sample with the gain applied once. Each index from `recv_size` on is silence. `frames_played` advances by exactly `frames` through one wrapping `fetch_add(1)` per frame. |
| RealtimeSink.Callback | src/main.rs:158-182 | It panics exactly when the popped count is not whole frames. Otherwise the output holds the oldest queued samples gained, in FIFO order, then silence. Exactly those samples leave the ring, and `frames_played` grows by `frames`, underrun or not. It returns Complete and clears `is_playing` iff `!is_decoding` and the ring is empty and `recv_size == 0`, that is iff decoding is over and nothing was queued. Otherwise `is_playing` is unchanged. |
| RealtimeSink.CallbackIgnoresStaleBuffer | src/main.rs:162-171 | The callback's effect does not depend on what the device buffer held before: every index is overwritten. |
| RealtimeSink.CallbackKeepsInv | src/main.rs:159-174 | On a ring holding whole frames the callback never panics. It keeps the pipe invariant and the frame accounting on both sides: `frames_decoded` still counts the queued frames, and `frames_played` still counts the rendered frames modulo 2^64, which cover every sample taken from the ring. |
| Feeder.SendStep | src/main.rs:274-279 | One loop iteration queues the next unsent samples in order and stops short only on a full ring. It counts exactly the frames it queued. Its assertion cannot fire when everything is whole frames. |
| Feeder.BackOff | src/main.rs:270-272 | While the producer waits on a full ring, one callback drains a device buffer. It frees 1024 samples, returns Continue because the ring was not empty, and leaves both flags as they were. |
| Feeder.SendStepKeepsInv | src/main.rs:268-279 | Each iteration keeps the loop's invariants: `data[..sent_size]` is exactly what was queued and `frames_decoded` counts `sent_size / CHANNELS` more frames. It makes progress whenever the ring has room. |
| Feeder.SendAudio | src/main.rs:262-281 | It panics exactly when the frame is not whole stereo frames. Otherwise the loop ends with all of `data` queued once, in order, after earlier samples. `frames_decoded` then grows by exactly `data.len() / CHANNELS`, and the flags are unchanged. |
| Feeder.AccountedAfterAppend | src/main.rs:279 | Appending whole frames to an accounted history and adding their frame count keeps `frames_decoded` equal to the accepted frame count. |
| Orchestrator.Start | src/main.rs:190-194 | A failed start panics. A successful one lets the device call back from then on and leaves the status record as it was: `is_playing`, `frames_decoded` and `frames_played` are unchanged, because the store of `is_playing` is a later, separate action. Only in the corrected variant is `is_decoding` raised, before the start. The ring and the histories are unchanged. |
| Orchestrator.Step | src/main.rs:190-247 | One action of either thread. The only panics are a failed start and a failed alignment assertion in a push or a callback. `is_playing.store(true)` takes effect once, after the start, and changes no other field. `is_decoding.store(false)` ends the input and changes nothing else. The decoding thread does nothing before it has stored `is_playing`, and a device that returned Complete is not called again. |
| Orchestrator.StepKeepsGood | src/main.rs:214-247 | Every producer or device action keeps the shared invariants, and the only possible panic is a failed start. |
| Orchestrator.RunKeepsGood | src/main.rs:274-277 | The invariants hold after any trace from a good state. Neither the `send_audio` alignment assertion nor the callback's fires on any interleaving. |
| Orchestrator.StreamingIsSafe | src/main.rs:150-160 | On every interleaving, in both variants, occupancy never exceeds 96000 and stays whole frames, and the assertions never fire. The played samples are, in order, a prefix of the concatenation of all frames handed to `send_audio`. `frames_decoded` counts exactly the frames queued. `frames_played` is the number of rendered frames modulo 2^64, and those frames hold every played sample. All of these hold between events. |
| Orchestrator.CompletionNeverTruncates | src/main.rs:176-179 | In the corrected variant, a stopped player has exhausted its input and played every sample of every frame exactly once, in order. `is_playing` is then false. |
| Orchestrator.PhaseAdvancesInOrder | src/main.rs:190-247 | In the corrected variant the lifecycle only moves forward one phase at a time: Idle, Streaming, Draining, Stopped. |
| Orchestrator.PrematureCompletionAsWritten | src/main.rs:176-179 | As written, this trace ends with playback Stopped before the input is exhausted, with a queued frame that is never played: start, store of `is_playing`, then a callback on the empty ring, then a frame decoded and pushed. |
| Orchestrator.StartStoreRaceAsWritten | src/main.rs:190-192 | As written, a callback that runs between `pa_stream.start()` and the store of `is_playing` completes on the empty ring. The store then leaves `is_playing` raised on a device that has stopped. |
| Orchestrator.StoppedWhilePlayingIsStuck | src/main.rs:248-250 | Once the device has stopped with `is_playing` still raised, no later action of either thread lowers it, so the teardown poll never ends. |
| Orchestrator.Play | src/main.rs:190-255 | In the corrected lifecycle, every loop finishes, even with spurious exchange failures. Playback ends with every sample played once, in order, an empty ring, `frames_decoded` equal to the decoded frame count, and both flags false. `frames_played`, unwrapped, is at least the decoded frame count. |
| Resample.NeedsResample | src/main.rs:110-112 | Resampling is skipped iff the format is packed `f32`, the layout has both front speakers, and the rate is 48000. |
| Resample.SurroundSkipsResampleAsWritten | src/main.rs:110-112 | As written, packed `f32` 5.1 audio at 48 kHz skips the resampler even though its layout has speakers beyond stereo. |
| Resample.NeedsResampleExact | src/main.rs:110-112 | With the corrected test, skipping the resampler implies packed `f32` at 48 kHz. |
| Resample.ExactDecisionKeepsStereo | src/main.rs:110-112 | With the corrected test, resampling is skipped iff the audio is packed `f32` at 48 kHz with front left, front right and no other speaker. |
| Resample.ExactDecisionIsStricter | src/main.rs:110-112 | The corrected test resamples whenever the written one does. It differs only on layouts with extra speakers. |

## Left out

- ffmpeg demuxing, decoding, resampler construction, run and flush, and the packet loop (src/main.rs:63-136, 214-245) are foreign library calls. Decoded frames enter the model as `FrameDecoded` events, or as the `frames` argument of `Play`. A per-packet decode error produces no frame and is not modelled further.
- The PortAudio setup, device queries, stream open, stop and close (src/main.rs:138-148, 184-185, 254-255) are external real-time I/O. Only the success or failure of `start()` is modelled.
- Console reporting, the metadata whitelist and the progress observer thread (src/main.rs:54-125, 196-212) are output formatting, `f64` seconds and sleeps. The observer reads the status and writes nothing back.
- Memory orderings, threads, `join` and the sleep and poll loops (src/main.rs:209, 248-252, 271) are not modelled. Concurrency is modelled as arbitrary interleavings of indivisible events on one sequential state; the line on callbacks and push attempts below says what that hides. The teardown poll is reduced to `is_playing` becoming false.
- `f32` arithmetic is not modelled. A sample is a real, and the gain is exact multiplication by 0.5, so rounding is not represented.
- `align_to` and its head/tail assertion (src/main.rs:264-266) are not modelled. A frame's samples are given as a sequence.
- The internals of the `ringbuf` crate (split indices, atomics) are not modelled. Only its bounded-FIFO behaviour is, and that behaviour is assumed rather than derived from the crate, which is not part of this model.
- Each device callback and each push attempt is taken as one indivisible event. In the player a callback is several atomic operations: the pop, `frames` separate `fetch_add`s, the load of `is_decoding`, `is_empty()` and the store of `is_playing` (src/main.rs:159-177). A push attempt is two: `push_slice` and the `fetch_add` of `frames_decoded` (src/main.rs:274-279). So `frames_decoded` equals the queued frame count, and `frames_played` equals the rendered frame count, only between events, not between the operations inside one. The completion test reads its three conditions as one snapshot.
- `usize` is taken to be 64 bits wide. The counters wrap modulo 2^64, as `fetch_add` does.
- Feeder.SendAudio: the device is assumed to drain one buffer between two push attempts, whatever `is_playing` holds; `send_audio` itself never reads that flag. That is the one consumer schedule under which the retry loop is shown to finish. The source skips the back-off sleep while `sent_size` is 0 and relies on the device running concurrently. Arbitrary interleavings of pushes and callbacks are covered by `Orchestrator.StreamingIsSafe`.
- Orchestrator.Play: it starts through the lifecycle's own `DeviceStarted` and `PlayingRaised` steps, but its feeding and draining loops call `SendAudio` and `Callback` directly. No lemma shows that its schedule is a trace of `Orchestrator.Run`. It proves termination for one schedule of the device. It does not prove termination under every interleaving, because the source's retry loop spins forever if the device stops calling back.

## Findings

| source | as written | input that shows it | evidently intended | confidence | as-written member | corrected member |
|---|---|---|---|---|---|---|
| src/main.rs:176-179 | The callback completes when `!is_decoding && rb_rx.is_empty() && recv_size == 0`. But `is_decoding` is false from `PlayerStatus::new` until after the first `send_audio` returns. | The device calls back after `pa_stream.start()` and before the first decoded frame is pushed. It returns Complete and clears `is_playing`, so later frames are queued but never played. Once more than 96000 samples are queued, `send_audio` spins forever. | Playback stops only after the input is exhausted and the ring is drained. This holds, for example, if `is_decoding` is raised before `pa_stream.start()`, in `PlayerStatus::new` or just before src/main.rs:190. Raising it together with `is_playing` at line 191 would still leave the window between lines 190 and 191. | medium: depends on the device calling back before the first frame is pushed; not executed | Orchestrator.PrematureCompletionAsWritten | Orchestrator.CompletionNeverTruncates |
| src/main.rs:190-192 | The stream is started at line 190 and `is_playing` is stored true only at line 191. | The device calls back between the two lines. `is_decoding` is false and the ring empty, so the callback stores `is_playing` false and returns Complete. Line 191 then stores true. The device never calls back again, so the teardown poll at lines 248-250 never ends, even for a short file. | A stopped player has `is_playing` false. This holds if `is_decoding` is raised before `pa_stream.start()`, as in the row above. | medium: depends on the device calling back before line 191 runs; not executed | Orchestrator.StartStoreRaceAsWritten | Orchestrator.CompletionNeverTruncates |
| src/main.rs:110-112 | Resampling is skipped when `(layout & STEREO) == STEREO`, which is true for any layout containing both front speakers. | A 48 kHz 5.1 WAV file of 32-bit floats (`pcm_f32le`), whose decoder reports packed `f32`. Its six interleaved channels are queued and played as if they were stereo. | Skip resampling only when the layout is exactly stereo. | medium: depends on a decoder reporting packed `f32` surround at 48 kHz; not executed | Resample.SurroundSkipsResampleAsWritten | Resample.ExactDecisionKeepsStereo |
