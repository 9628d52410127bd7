/**
  The bounded single-producer/single-consumer sample queue between the
  decoding thread and the device callback (a `ringbuf::RingBuffer<f32>`).
  Only the queue's observable behaviour is modelled: a FIFO of at most
  `capacity` samples whose push may accept fewer samples than offered.
 */
module SampleRing {
  import opened Audio

  datatype Ring = Ring(capacity: nat, items: seq<Sample>) {

    predicate Valid()
    {
      |items| <= capacity
    }

    /** Samples a push can still accept. */
    function Free(): nat
      requires Valid()
    {
      capacity - |items|
    }

    predicate IsEmpty()
    {
      |items| == 0
    }
  }

  /** `RingBuffer::new(capacity)`: an empty queue. */
  function NewRing(capacity: nat): (r: Ring)
    ensures r.Valid() && r.IsEmpty() && r.capacity == capacity
  {
    Ring(capacity, [])
  }

  /**
    `push_slice`: appends the longest prefix of `data` that fits and returns
    how many samples it took. It never blocks and never overwrites.
   */
  function PushSlice(r: Ring, data: seq<Sample>): (res: (Ring, nat))
    requires r.Valid()
    ensures res.0.Valid() && res.0.capacity == r.capacity
    ensures res.1 <= |data| && res.0.items == r.items + data[..res.1]
    // a push stops short only when the queue is full
    ensures res.1 == |data| || |res.0.items| == r.capacity
    ensures Aligned(|r.items|) && Aligned(r.capacity) && Aligned(|data|)
            ==> Aligned(res.1) && Aligned(|res.0.items|)
  {
    var n := Min(|data|, r.Free());
    PushCountAligned(|r.items|, r.capacity, |data|);
    (Ring(r.capacity, r.items + data[..n]), n)
  }

  /** Whole frames in the queue, its capacity and the slice make the accepted count whole frames. */
  lemma PushCountAligned(queued: nat, capacity: nat, offered: nat)
    requires queued <= capacity
    ensures Aligned(queued) && Aligned(capacity) && Aligned(offered) ==>
              Aligned(Min(offered, capacity - queued)) && Aligned(queued + Min(offered, capacity - queued))
  {
  }

  /**
    `pop_slice` into a buffer of `len` samples: removes and returns the
    oldest samples, as many as the buffer holds or the queue has.
   */
  function PopSlice(r: Ring, len: nat): (res: (Ring, seq<Sample>))
    ensures res.0.capacity == r.capacity
    ensures res.1 + res.0.items == r.items
    // a pop stops short only when the queue ran empty
    ensures |res.1| <= len && (|res.1| == len || res.0.IsEmpty())
    ensures r.Valid() ==> res.0.Valid()
    ensures Aligned(|r.items|) && Aligned(len) ==> Aligned(|res.1|) && Aligned(|res.0.items|)
  {
    var n := Min(len, |r.items|);
    (Ring(r.capacity, r.items[n..]), r.items[..n])
  }

  /** One operation by the producer or by the consumer. */
  datatype RingOp = Push(data: seq<Sample>) | Pop(len: nat)

  /** A queue after some operations, with what they took in and what they gave out, in order. */
  datatype Transfer = Transfer(ring: Ring, taken: seq<Sample>, given: seq<Sample>)

  /** Applies one operation. */
  function Apply(r: Ring, op: RingOp): (t: Transfer)
    requires r.Valid()
    ensures t.ring.Valid() && t.ring.capacity == r.capacity
  {
    match op
    case Push(data) =>
      var (r', n) := PushSlice(r, data);
      Transfer(r', data[..n], [])
    case Pop(len) =>
      var (r', out) := PopSlice(r, len);
      Transfer(r', [], out)
  }

  /** Runs an interleaving of producer and consumer operations. */
  function RunOps(r: Ring, ops: seq<RingOp>): (t: Transfer)
    requires r.Valid()
    ensures t.ring.Valid() && t.ring.capacity == r.capacity
    decreases |ops|
  {
    if ops == [] then Transfer(r, [], [])
    else
      var first := Apply(r, ops[0]);
      var rest := RunOps(first.ring, ops[1..]);
      Transfer(rest.ring, first.taken + rest.taken, first.given + rest.given)
  }

  /**
    Exactly-once FIFO delivery under any interleaving: what was popped,
    followed by what is still queued, is what was queued at the start
    followed by everything the pushes accepted. Nothing is lost,
    duplicated or reordered.
   */
  lemma {:induction false} RunIsFifo(r: Ring, ops: seq<RingOp>)
    requires r.Valid()
    ensures RunOps(r, ops).given + RunOps(r, ops).ring.items == r.items + RunOps(r, ops).taken
    decreases |ops|
  {
    if ops != [] {
      var first := Apply(r, ops[0]);
      var rest := RunOps(first.ring, ops[1..]);
      assert RunOps(r, ops) == Transfer(rest.ring, first.taken + rest.taken, first.given + rest.given);
      ApplyIsFifo(r, ops[0]);
      RunIsFifo(first.ring, ops[1..]);
      Associative(first.given, rest.given, rest.ring.items);
      Associative(first.given, first.ring.items, rest.taken);
      Associative(r.items, first.taken, rest.taken);
    }
  }

  lemma Associative(a: seq<Sample>, b: seq<Sample>, c: seq<Sample>)
    ensures (a + b) + c == a + (b + c)
  {
  }

  lemma ApplyIsFifo(r: Ring, op: RingOp)
    requires r.Valid()
    ensures Apply(r, op).given + Apply(r, op).ring.items == r.items + Apply(r, op).taken
  {
  }

  /** Every pushed slice and every pop buffer is a whole number of frames. */
  predicate OpsAligned(ops: seq<RingOp>)
  {
    forall i :: 0 <= i < |ops| ==>
      match ops[i]
      case Push(data) => Aligned(|data|)
      case Pop(len) => Aligned(len)
  }

  /**
    Frame alignment is kept under any interleaving: with an aligned capacity
    and aligned slices and buffers, the occupancy, every accepted run and
    every popped run stay whole frames.
   */
  lemma {:induction false} RunStaysAligned(r: Ring, ops: seq<RingOp>)
    requires r.Valid() && Aligned(r.capacity) && Aligned(|r.items|) && OpsAligned(ops)
    ensures Aligned(|RunOps(r, ops).ring.items|)
    ensures Aligned(|RunOps(r, ops).taken|) && Aligned(|RunOps(r, ops).given|)
    decreases |ops|
  {
    if ops != [] {
      var first := Apply(r, ops[0]);
      assert Aligned(|first.ring.items|) && Aligned(|first.taken|) && Aligned(|first.given|) by {
        match ops[0]
        case Push(data) =>
          assert Aligned(|data|) by { assert ops[0] == Push(data); }
        case Pop(len) =>
          assert Aligned(len) by { assert ops[0] == Pop(len); }
      }
      assert OpsAligned(ops[1..]) by {
        forall i | 0 <= i < |ops[1..]|
          ensures match ops[1..][i]
                  case Push(data) => Aligned(|data|)
                  case Pop(len) => Aligned(len)
        {
          assert ops[1..][i] == ops[i + 1];
        }
      }
      RunStaysAligned(first.ring, ops[1..]);
    }
  }
}
