/**
 * The bounded audio channel between the recorder goroutine and the recogniser
 * (internal/orchestrator/orchestrator.go, `Start` and the end of `handleCommand`).
 * Only the sequential queue discipline is modelled: a non-blocking send that drops the
 * frame when the channel is full, and the drain loop run after a dispatched command.
 */
module AudioFeed {
  import opened Basics

  /** One recorder read: a block of signed 16-bit samples. */
  type Frame = seq<int16>

  /** The channel's buffer size, `make(chan []int16, 100)`. */
  const ChannelCapacity: nat := 100

  /** The queue a non-blocking send leaves: unchanged when full, the frame appended at the tail otherwise. */
  function Publish(frames: seq<Frame>, capacity: nat, f: Frame): (r: seq<Frame>)
    ensures |frames| >= capacity ==> r == frames
    ensures |frames| < capacity ==> r == frames + [f]
    ensures |frames| <= capacity ==> |r| <= capacity
  {
    if |frames| < capacity then frames + [f] else frames
  }

  /** A publish never reorders or alters what was already queued: the old queue is a prefix of the new. */
  lemma PublishKeepsPrefix(frames: seq<Frame>, capacity: nat, f: Frame)
    ensures frames <= Publish(frames, capacity, f)
  {
  }

  class AudioQueue {
    var frames: seq<Frame>
    const capacity: nat

    ghost predicate Valid()
      reads this
    {
      |frames| <= capacity
    }

    constructor (capacity: nat)
      ensures Valid() && this.capacity == capacity && frames == []
    {
      this.capacity := capacity;
      frames := [];
    }

    /** The recorder's `select { case audioChan <- samples: default: }`. */
    method TryPublish(f: Frame) returns (sent: bool)
      requires Valid()
      modifies this
      ensures Valid()
      ensures sent <==> |old(frames)| < capacity
      ensures frames == Publish(old(frames), capacity, f)
    {
      if |frames| < capacity {
        frames := frames + [f];
        sent := true;
      } else {
        sent := false;
      }
    }

    /** A blocking receive on a non-empty channel takes the oldest frame. */
    method Receive() returns (f: Frame)
      requires frames != []
      modifies this
      ensures f == old(frames)[0] && frames == old(frames)[1..]
    {
      f := frames[0];
      frames := frames[1..];
    }

    /** `n` receives in a row on a channel holding at least `n` frames: the oldest `n`, in order. */
    method ReceiveMany(n: nat) returns (received: seq<Frame>)
      requires Valid() && n <= |frames|
      modifies this
      ensures Valid()
      ensures received == old(frames)[..n] && frames == old(frames)[n..]
    {
      received := [];
      var i := 0;
      while i < n
        invariant 0 <= i <= n
        invariant received == old(frames)[..i] && frames == old(frames)[i..]
      {
        var f := Receive();
        received := received + [f];
        i := i + 1;
      }
    }

    /** `for len(audioChan) > 0 { <-audioChan }`. */
    method Drain()
      requires Valid()
      modifies this
      ensures Valid() && frames == []
    {
      while |frames| > 0
        invariant Valid()
        decreases |frames|
      {
        var stale := Receive();
      }
    }
  }
}
