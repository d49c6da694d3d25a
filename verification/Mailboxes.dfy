/** The bounded mailboxes of an event loop: completions with a byte budget, and timeouts
    that fall back to a full rescan when the box is full. A failed wake-up takes the post
    back. */
module Mailboxes {
  import opened Wrappers
  import opened RingBuffer
  import opened FrameCodec
  import T = TimerSpec
  import S = Session

  /* Timeouts. */

  datatype TimeoutView = TimeoutView(queue: seq<T.Event>, accepting: bool, rescan: bool)

  predicate ConnectionTimeout(e: T.Event) {
    (e.kind.IdleTimeout? || e.kind.ReadTimeout? || e.kind.WriteTimeout? || e.kind.BusinessTimeout?) &&
    e.fd >= 0 && e.generation != 0 && e.sequence != 0
  }

  const CONNECTION_KINDS: set<T.EventKind> :=
    {T.IdleTimeout, T.ReadTimeout, T.WriteTimeout, T.BusinessTimeout}

  // Last in the queue, or covered by a rescan of every deadline.
  predicate Remembered(v: TimeoutView, v': TimeoutView, capacity: nat, e: T.Event) {
    if |v.queue| < capacity then v' == v.(queue := v.queue + [e]) else v' == v.(rescan := true)
  }

  function PostTimeout(v: TimeoutView, capacity: nat, e: T.Event, woken: bool): (TimeoutView, bool) {
    if !ConnectionTimeout(e) || !v.accepting then (v, false)
    else if |v.queue| == capacity then (v.(rescan := true), woken)
    else if woken then (v.(queue := v.queue + [e]), true)
    else (v, false)
  }

  class TimeoutMailbox {
    const ring: Ring<T.Event>
    var accepting: bool
    var rescanRequired: bool

    ghost predicate Valid()
      reads this, ring, ring.slots
    {
      ring.Valid()
    }

    ghost function Now(): TimeoutView
      requires Valid()
      reads this, ring, ring.slots
    {
      TimeoutView(ring.Contents(), accepting, rescanRequired)
    }

    constructor (capacity: nat)
      requires 0 < capacity
      ensures Valid() && Now() == TimeoutView([], true, false) && ring.slots.Length == capacity
      ensures fresh(ring) && fresh(ring.slots)
    {
      ring := new Ring(capacity);
      accepting, rescanRequired := true, false;
    }

    method TryPost(event: T.Event, woken: bool) returns (accepted: bool)
      requires Valid()
      modifies this, ring, ring.slots
      ensures Valid() && (Now(), accepted) == PostTimeout(old(Now()), ring.slots.Length, event, woken)
      ensures accepted <==> (event.kind in CONNECTION_KINDS && event.fd >= 0 && event.generation > 0 &&
        event.sequence > 0 && old(accepting) && woken)
      ensures accepted ==> Remembered(old(Now()), Now(), ring.slots.Length, event)
      ensures !accepted ==> Now() == old(Now()).(rescan := rescanRequired)
      ensures rescanRequired != old(rescanRequired) ==> |old(Now()).queue| == ring.slots.Length
    {
      if !ConnectionTimeout(event) || !accepting {
        return false;
      }
      if ring.size == ring.slots.Length {
        rescanRequired := true;
        return woken;
      }
      ring.Push(event);
      if !woken {
        ring.Undo();
        assert (old(ring.Contents()) + [event])[..old(ring.size)] == old(ring.Contents());
        return false;
      }
      return true;
    }

    method TryPop() returns (event: Option<T.Event>)
      requires Valid()
      modifies this, ring, ring.slots
      ensures Valid() && accepting == old(accepting) && rescanRequired == old(rescanRequired)
      ensures event.None? ==> Now() == old(Now()) && Now().queue == []
      ensures event.Some? ==> old(Now()).queue == [event.value] + Now().queue
    {
      if ring.size == 0 {
        return None;
      }
      var e := ring.Pop();
      return Some(e);
    }

    method TakeRescanRequest() returns (requested: bool)
      requires Valid()
      modifies this`rescanRequired
      ensures Valid() && requested == old(rescanRequired) && Now() == old(Now()).(rescan := false)
    {
      requested := rescanRequired;
      rescanRequired := false;
    }

    method Close()
      requires Valid()
      modifies this, ring, ring.slots
      ensures Valid() && Now() == TimeoutView([], false, false)
    {
      accepting, rescanRequired := false, false;
      var discarded := ring.Clear();
    }
  }

  /* Completions. */

  datatype CompletionStatus = Response | InvalidRequest | OutputLimitExceeded | Failure

  datatype Completion = Completion(token: S.Token, status: CompletionStatus, frame: Bytes)

  function TotalBytes(queue: seq<Completion>): nat {
    if queue == [] then 0 else |queue[0].frame| + TotalBytes(queue[1..])
  }

  lemma {:induction false} TotalBytesAppend(queue: seq<Completion>, c: Completion)
    ensures TotalBytes(queue + [c]) == TotalBytes(queue) + |c.frame|
    decreases |queue|
  {
    if queue == [] {
      assert [c][1..] == [] && queue + [c] == [c];
    } else {
      assert (queue + [c])[0] == queue[0] && (queue + [c])[1..] == queue[1..] + [c];
      TotalBytesAppend(queue[1..], c);
    }
  }

  predicate WellFormed(c: Completion) {
    c.token.fd >= 0 && c.token.generation != 0 && (c.status.Response? <==> c.frame != [])
  }

  // Whether a completion may enter: well formed, not oversized, a free slot, bytes to spare.
  predicate Fits(queue: seq<Completion>, c: Completion, capacity: nat, byteCapacity: nat, maxBytes: nat) {
    WellFormed(c) && |c.frame| <= maxBytes && |queue| < capacity && TotalBytes(queue) + |c.frame| <= byteCapacity
  }

  class LoopMailbox {
    const ring: Ring<Completion>
    const byteCapacity: nat
    const maxCompletionBytes: nat
    var bufferedBytes: nat
    var accepting: bool

    // The byte count is that of the queued frames and never passes the budget, so the
    // remaining budget never underflows.
    ghost predicate Valid()
      reads this, ring, ring.slots
    {
      ring.Valid() && bufferedBytes == TotalBytes(ring.Contents()) <= byteCapacity && maxCompletionBytes <= byteCapacity
    }

    constructor (capacity: nat, byteCapacity: nat, maxCompletionBytes: nat)
      requires 0 < capacity && 0 < maxCompletionBytes <= byteCapacity
      ensures Valid() && ring.Contents() == [] && accepting && ring.slots.Length == capacity
      ensures this.byteCapacity == byteCapacity && this.maxCompletionBytes == maxCompletionBytes
      ensures fresh(ring) && fresh(ring.slots)
    {
      ring := new Ring(capacity);
      this.byteCapacity, this.maxCompletionBytes := byteCapacity, maxCompletionBytes;
      bufferedBytes, accepting := 0, true;
    }

    method TryPost(c: Completion, woken: bool) returns (accepted: bool)
      requires Valid()
      modifies this, ring, ring.slots
      ensures Valid() && accepting == old(accepting)
      ensures accepted == (old(accepting) && woken &&
        Fits(old(ring.Contents()), c, ring.slots.Length, byteCapacity, maxCompletionBytes))
      ensures ring.Contents() == if accepted then old(ring.Contents()) + [c] else old(ring.Contents())
    {
      if !WellFormed(c) || |c.frame| > maxCompletionBytes || !accepting || ring.size == ring.slots.Length {
        return false;
      }
      var room: nat := byteCapacity - bufferedBytes;
      if |c.frame| > room {
        return false;
      }
      Enqueue(c, woken);
      return woken;
    }

    // Queued before the wake-up; when that fails, slot and bytes are taken back.
    method Enqueue(c: Completion, woken: bool)
      requires Valid() && ring.size < ring.slots.Length && bufferedBytes + |c.frame| <= byteCapacity
      modifies this`bufferedBytes, ring, ring.slots
      ensures Valid() && ring.Contents() == if woken then old(ring.Contents()) + [c] else old(ring.Contents())
    {
      ghost var before := ring.Contents();
      Put(c);
      if !woken {
        TakeBack(c, before);
      }
    }

    method Put(c: Completion)
      requires Valid() && ring.size < ring.slots.Length && bufferedBytes + |c.frame| <= byteCapacity
      modifies this`bufferedBytes, ring, ring.slots
      ensures Valid() && ring.Contents() == old(ring.Contents()) + [c]
    {
      TotalBytesAppend(ring.Contents(), c);
      ring.Push(c);
      bufferedBytes := bufferedBytes + |c.frame|;
    }

    method TakeBack(c: Completion, ghost before: seq<Completion>)
      requires Valid() && ring.Contents() == before + [c]
      modifies this`bufferedBytes, ring, ring.slots
      ensures Valid() && ring.Contents() == before
    {
      TotalBytesAppend(before, c);
      assert (before + [c])[..|before|] == before;
      ring.Undo();
      bufferedBytes := bufferedBytes - |c.frame|;
    }

    method TryPop() returns (c: Option<Completion>)
      requires Valid()
      modifies this, ring, ring.slots
      ensures Valid() && accepting == old(accepting)
      ensures c.None? ==> ring.Contents() == old(ring.Contents()) == []
      ensures c.Some? ==> old(ring.Contents()) == [c.value] + ring.Contents()
    {
      if ring.size == 0 {
        return None;
      }
      ghost var before := ring.Contents();
      var first := ring.Pop();
      assert before[0] == first && before[1..] == ring.Contents();
      bufferedBytes := bufferedBytes - |first.frame|;
      return Some(first);
    }

    method Close()
      requires Valid()
      modifies this, ring, ring.slots
      ensures Valid() && !accepting && ring.Contents() == []
    {
      accepting := false;
      while ring.size != 0
        invariant Valid() && !accepting
        decreases ring.size
      {
        ghost var before := ring.Contents();
        var first := ring.Pop();
        assert before[0] == first && before[1..] == ring.Contents();
        bufferedBytes := bufferedBytes - |first.frame|;
      }
      bufferedBytes := 0;
    }
  }
}
