/**
  The status record shared by the decoding thread, the device callback and
  the progress observer (`PlayerStatus`), and the state the producer and the
  consumer share: the ring together with that record.
 */
module PlaybackStatus {
  import opened Audio
  import opened SampleRing

  /** Four independently atomic fields; counters are in frames. */
  datatype PlayerStatus = PlayerStatus(
    isDecoding: bool,
    isPlaying: bool,
    framesDecoded: Usize,
    framesPlayed: Usize)

  /** `PlayerStatus::new`: nothing decoded, nothing playing. */
  function NewStatus(): (s: PlayerStatus)
    ensures !s.isDecoding && !s.isPlaying
    ensures s.framesDecoded == 0 && s.framesPlayed == 0
  {
    PlayerStatus(false, false, 0, 0)
  }

  /**
    `is_decoding.compare_exchange_weak(false, true)` with its result ignored.
    A weak exchange may fail even when the flag is false; `spurious` says
    whether this one did.
   */
  function MarkDecoding(s: PlayerStatus, spurious: bool): (r: PlayerStatus)
    ensures r.isDecoding <==> s.isDecoding || !spurious
    ensures r.isPlaying == s.isPlaying
    ensures r.framesDecoded == s.framesDecoded && r.framesPlayed == s.framesPlayed
  {
    if !s.isDecoding && !spurious then s.(isDecoding := true) else s
  }

  /**
    What the producer and the consumer share, with three history records
    that exist only in the model: `accepted` is every sample the ring has
    taken in, `played` every sample the callback has taken out, and
    `rendered` every frame the callback has filled, with samples or
    silence, counted without wrap-around.
   */
  datatype Pipe = Pipe(
    ring: Ring,
    status: PlayerStatus,
    accepted: seq<Sample>,
    played: seq<Sample>,
    rendered: nat)

  /** The empty pipe built before playback starts. */
  function NewPipe(): (p: Pipe)
    ensures Inv(p) && p.accepted == [] && p.played == []
    ensures PlayCounted(p) && p.rendered == 0
    ensures p.status == NewStatus()
  {
    Pipe(NewRing(BUFFER_SIZE), NewStatus(), [], [], 0)
  }

  /**
    What holds of the pipe between any two steps: the ring is within its
    one-second capacity and holds whole frames, and what was played followed
    by what is queued is exactly what was accepted.
   */
  predicate Inv(p: Pipe)
  {
    && p.ring.Valid()
    && p.ring.capacity == BUFFER_SIZE
    && Aligned(|p.ring.items|)
    && Aligned(|p.accepted|)
    && p.played + p.ring.items == p.accepted
  }

  /** `frames_decoded` counts the accepted frames, modulo the counter's width. */
  predicate Accounted(p: Pipe)
  {
    p.status.framesDecoded == (|p.accepted| / CHANNELS) % USIZE_MODULUS
  }

  /**
    `frames_played` counts the rendered frames, modulo the counter's width,
    and every sample taken from the ring went into one of those frames.
   */
  predicate PlayCounted(p: Pipe)
  {
    && p.status.framesPlayed == p.rendered % USIZE_MODULUS
    && |p.played| <= CHANNELS * p.rendered
  }

  /** Played samples form a prefix of the accepted ones. */
  lemma PlayedIsPrefix(p: Pipe)
    requires Inv(p)
    ensures |p.played| <= |p.accepted| && p.played == p.accepted[..|p.played|]
    ensures Aligned(|p.played|)
  {
    assert p.accepted[..|p.played|] == (p.played + p.ring.items)[..|p.played|];
  }
}
