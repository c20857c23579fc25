/** The stream service's frame queue (StreamService.kt, frameQueue): a
    LinkedBlockingQueue of JPEG frames with capacity 10, fed by the camera
    analyser with a drop-oldest policy and drained by the client handlers. */
module Frames {
  import opened Kotlin

  /** `LinkedBlockingQueue<ByteArray>(10)`. */
  const Capacity: nat := 10

  /** The queue after handleImageProxy's enqueue: `offer`, and when the offer
      is refused because the queue is full, `poll` then `offer` again. */
  function AfterEnqueue(q: seq<Bytes>, f: Bytes): (r: seq<Bytes>)
    requires |q| <= Capacity
    ensures |r| <= Capacity
    ensures 0 < |r| && r[|r| - 1] == f
    ensures |q| < Capacity ==> r[..|r| - 1] == q
    ensures |q| == Capacity ==> r[..|r| - 1] == q[1..]
  {
    if |q| < Capacity then q + [f] else q[1..] + [f]
  }

  /** The queue after enqueueing several frames, oldest first. */
  function EnqueueAll(q: seq<Bytes>, fs: seq<Bytes>): (r: seq<Bytes>)
    requires |q| <= Capacity
    ensures |r| <= Capacity
    decreases |fs|
  {
    if fs == [] then q else AfterEnqueue(EnqueueAll(q, fs[..|fs| - 1]), fs[|fs| - 1])
  }

  /** The most recent frames of a history, as many as the queue can hold. */
  function Latest(s: seq<Bytes>): (r: seq<Bytes>)
    ensures |r| == if |s| <= Capacity then |s| else Capacity
    ensures r == s[|s| - |r|..]
  {
    if |s| <= Capacity then s else s[|s| - Capacity..]
  }

  lemma LatestStep(s: seq<Bytes>, f: Bytes)
    ensures |Latest(s)| <= Capacity
    ensures AfterEnqueue(Latest(s), f) == Latest(s + [f])
  {
    if |s| >= Capacity {
      var l := s[|s| - Capacity..];
      assert AfterEnqueue(l, f) == l[1..] + [f];
      assert Latest(s + [f]) == (s + [f])[|s| + 1 - Capacity..];
      assert (s + [f])[|s| + 1 - Capacity..] == l[1..] + [f];
    } else {
      assert AfterEnqueue(s, f) == s + [f];
    }
  }

  /** Whatever was queued and whatever arrives, the queue ends up holding
      exactly the newest frames, at most ten, in arrival order: the
      drop-oldest policy never loses a newer frame to keep an older one. */
  lemma {:induction false} KeepsLatest(q: seq<Bytes>, fs: seq<Bytes>)
    requires |q| <= Capacity
    ensures EnqueueAll(q, fs) == Latest(q + fs)
    decreases |fs|
  {
    if fs == [] {
      assert q + fs == q;
    } else {
      var init, f := fs[..|fs| - 1], fs[|fs| - 1];
      assert fs == init + [f];
      KeepsLatest(q, init);
      LatestStep(q + init, f);
      assert (q + init) + [f] == q + fs;
    }
  }

  /** The queue object: its contents, oldest first. */
  class FrameQueue {
    var items: seq<Bytes>

    ghost predicate Valid()
      reads this
    {
      |items| <= Capacity
    }

    constructor ()
      ensures Valid() && items == []
    {
      items := [];
    }

    /** `offer`: appends unless the queue is full; reports whether it did. */
    method Offer(f: Bytes) returns (accepted: bool)
      requires Valid()
      modifies this
      ensures Valid()
      ensures accepted <==> |old(items)| < Capacity
      ensures items == if accepted then old(items) + [f] else old(items)
    {
      accepted := |items| < Capacity;
      if accepted {
        items := items + [f];
      }
    }

    /** `poll`: removes and returns the oldest frame, or null when empty. */
    method Poll() returns (head: Option<Bytes>)
      requires Valid()
      modifies this
      ensures Valid()
      ensures old(items) == [] ==> head == None && items == []
      ensures old(items) != [] ==> head == Some(old(items)[0]) && items == old(items)[1..]
    {
      if items == [] {
        head := None;
      } else {
        head := Some(items[0]);
        items := items[1..];
      }
    }

    /** `clear`. */
    method Clear()
      modifies this
      ensures Valid() && items == []
    {
      items := [];
    }

    /** handleImageProxy's drop-oldest enqueue. */
    method Enqueue(f: Bytes)
      requires Valid()
      modifies this
      ensures Valid() && items == AfterEnqueue(old(items), f)
    {
      var accepted := Offer(f);
      if !accepted {
        var _ := Poll();
        accepted := Offer(f);
      }
    }

    /** Several frames enqueued one after the other. */
    method EnqueueEach(fs: seq<Bytes>)
      requires Valid()
      modifies this
      ensures Valid() && items == EnqueueAll(old(items), fs)
    {
      var i := 0;
      while i < |fs|
        invariant i <= |fs|
        invariant Valid() && items == EnqueueAll(old(items), fs[..i])
      {
        assert fs[..i + 1][..i] == fs[..i];
        Enqueue(fs[i]);
        i := i + 1;
      }
      assert fs[..i] == fs;
    }
  }
}
