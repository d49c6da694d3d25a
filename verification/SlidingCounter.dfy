/** SlidingCounter: a ring of buckets with a running total, against the plain list of
    the events it has accepted. */
module SlidingCounter {
  const WORD32: nat := 0x1_0000_0000
  const WORD64: nat := 0x1_0000_0000_0000_0000

  datatype Event = Event(bucket: nat, delta: nat)

  // The last n buckets up to now.
  predicate InWindow(bucket: nat, now: nat, n: nat) {
    bucket <= now && now - bucket < n
  }

  /* The reference: keep the events in the window, forget the others. */

  function Keep(events: seq<Event>, now: nat, n: nat): seq<Event> {
    if events == [] then []
    else if InWindow(events[0].bucket, now, n) then [events[0]] + Keep(events[1..], now, n)
    else Keep(events[1..], now, n)
  }

  function Sum(events: seq<Event>): nat {
    if events == [] then 0 else events[0].delta + Sum(events[1..])
  }

  function Add(events: seq<Event>, bucket: nat, now: nat, n: nat, delta: nat): seq<Event> {
    if InWindow(bucket, now, n) then Keep(events, now, n) + [Event(bucket, delta)] else Keep(events, now, n)
  }

  // What the ring keeps of one bucket, and what is left without it.
  function SumOf(events: seq<Event>, bucket: nat): nat {
    if events == [] then 0
    else (if events[0].bucket == bucket then events[0].delta else 0) + SumOf(events[1..], bucket)
  }

  function Without(events: seq<Event>, bucket: nat): seq<Event> {
    if events == [] then []
    else if events[0].bucket == bucket then Without(events[1..], bucket)
    else [events[0]] + Without(events[1..], bucket)
  }

  lemma {:induction false} KeepMembers(events: seq<Event>, now: nat, n: nat, e: Event)
    ensures e in Keep(events, now, n) <==> e in events && InWindow(e.bucket, now, n)
    decreases |events|
  {
    if events != [] { KeepMembers(events[1..], now, n, e); }
  }

  lemma {:induction false} KeepAll(events: seq<Event>, now: nat, n: nat)
    requires forall e :: e in events ==> InWindow(e.bucket, now, n)
    ensures Keep(events, now, n) == events
    decreases |events|
  {
    if events != [] {
      assert events[0] in events;
      KeepAll(events[1..], now, n);
    }
  }

  lemma {:induction false} SumSplits(events: seq<Event>, bucket: nat)
    ensures Sum(Without(events, bucket)) + SumOf(events, bucket) == Sum(events)
    decreases |events|
  {
    if events != [] {
      SumSplits(events[1..], bucket);
      if events[0].bucket != bucket { assert Without(events, bucket)[1..] == Without(events[1..], bucket); }
    }
  }

  lemma {:induction false} WithoutMembers(events: seq<Event>, bucket: nat, e: Event)
    ensures e in Without(events, bucket) <==> e in events && e.bucket != bucket
    decreases |events|
  {
    if events != [] { WithoutMembers(events[1..], bucket, e); }
  }

  lemma {:induction false} WithoutOthers(events: seq<Event>, bucket: nat, other: nat)
    requires other != bucket
    ensures SumOf(Without(events, bucket), other) == SumOf(events, other)
    decreases |events|
  {
    if events != [] {
      WithoutOthers(events[1..], bucket, other);
      if events[0].bucket != bucket { assert Without(events, bucket)[1..] == Without(events[1..], bucket); }
    }
  }

  lemma {:induction false} KeepWithout(events: seq<Event>, bucket: nat, now: nat, n: nat)
    requires !InWindow(bucket, now, n)
    ensures Keep(Without(events, bucket), now, n) == Keep(events, now, n)
    decreases |events|
  {
    if events != [] {
      KeepWithout(events[1..], bucket, now, n);
      if events[0].bucket != bucket { assert Without(events, bucket)[1..] == Without(events[1..], bucket); }
    }
  }

  lemma {:induction false} AppendSums(events: seq<Event>, e: Event, bucket: nat)
    ensures Sum(events + [e]) == Sum(events) + e.delta
    ensures SumOf(events + [e], bucket) == SumOf(events, bucket) + if e.bucket == bucket then e.delta else 0
    decreases |events|
  {
    if events == [] {
      assert [e][1..] == [];
      assert events + [e] == [e];
    } else {
      assert (events + [e])[0] == events[0] && (events + [e])[1..] == events[1..] + [e];
      AppendSums(events[1..], e, bucket);
    }
  }

  lemma {:induction false} AbsentSum(events: seq<Event>, bucket: nat)
    requires forall e :: e in events ==> e.bucket != bucket
    ensures SumOf(events, bucket) == 0
    decreases |events|
  {
    if events != [] {
      assert events[0] in events;
      AbsentSum(events[1..], bucket);
    }
  }

  /* Word arithmetic: the total is 64 bits wide and a bucket's count 32. */

  lemma SubtractWords(total: nat, sum: nat, part: nat)
    requires total < WORD64 && total % WORD32 == sum % WORD32 && part <= sum
    ensures ((total + WORD64 - part % WORD32) % WORD64) % WORD32 == (sum - part) % WORD32
  {
    var count := part % WORD32;
    assert WORD64 == WORD32 * WORD32;
    var t := (total + WORD64 - count) % WORD64;
    assert t == total - count || t == total - count + WORD64;
    assert t % WORD32 == (total + WORD64 - count) % WORD32;
    var d := (total - sum) / WORD32;
    assert total - sum == d * WORD32;
    assert part - count == (part / WORD32) * WORD32;
    assert total + WORD64 - count == (sum - part) + (d + part / WORD32 + WORD32) * WORD32;
    ModAdd(sum - part, d + part / WORD32 + WORD32);
  }

  lemma ModAdd(x: int, k: int)
    ensures (x + k * WORD32) % WORD32 == x % WORD32
  {}

  lemma AddWords(total: nat, sum: nat, delta: nat)
    requires total % WORD32 == sum % WORD32
    ensures ((total + delta) % WORD64) % WORD32 == (sum + delta) % WORD32
  {
    assert WORD64 == WORD32 * WORD32;
    var t := (total + delta) % WORD64;
    assert total + delta == ((total + delta) / WORD64) * WORD64 + t;
    ModAdd(t, ((total + delta) / WORD64) * WORD32);
  }

  lemma SubtractNothing(total: nat)
    requires total < WORD64
    ensures (total + WORD64 - 0) % WORD64 == total
  {}

  datatype Bucket = Bucket(id: nat, count: nat, occupied: bool)

  /** Two buckets of one window never share a slot of the ring. */
  lemma SlotsAreDistinct(a: nat, b: nat, now: nat, n: nat)
    requires 0 < n && InWindow(a, now, n) && InWindow(b, now, n) && a % n == b % n
    ensures a == b
  {
    if a < b { NearMultiples(a, b, n); }
    if b < a { NearMultiples(b, a, n); }
  }

  lemma NearMultiples(a: nat, b: nat, n: nat)
    requires 0 < n && a <= b < a + n && a % n == b % n
    ensures a == b
  {
    var qa, qb, r := a / n, b / n, a % n;
    SmallMultiple(qb - qa, n, b - a) by {
      assert a == qa * n + r && b == qb * n + r;
      Distribute(qb, qa, n);
    }
  }

  lemma Distribute(x: int, y: int, n: int)
    ensures (x - y) * n == x * n - y * n
  {}

  lemma SmallMultiple(k: int, n: int, d: int)
    requires 0 < n && d == k * n && 0 <= d < n
    ensures d == 0
  {
    if k > 0 { Grows(k - 1, n); } else if k < 0 { Grows(-k - 1, n); }
  }

  lemma Grows(k: int, n: int)
    requires 0 <= k && 0 < n
    ensures (k + 1) * n >= n && (-k - 1) * n <= -n
  {}

  /* The ring. */

  // The ring's slots hold the events, bucket by bucket.
  ghost predicate Represents(slots: seq<Bucket>, n: nat, events: seq<Event>) {
    |slots| == n && 0 < n &&
    (forall i :: 0 <= i < n ==>
      (slots[i].occupied ==> slots[i].id % n == i && slots[i].count == SumOf(events, slots[i].id) % WORD32) &&
      (!slots[i].occupied ==> slots[i].count == 0)) &&
    (forall e :: e in events ==> slots[e.bucket % n].occupied && slots[e.bucket % n].id == e.bucket)
  }

  lemma ClearSlot(slots: seq<Bucket>, n: nat, events: seq<Event>, i: nat)
    requires Represents(slots, n, events) && i < n && slots[i].occupied
    ensures Represents(slots[i := Bucket(0, 0, false)], n, Without(events, slots[i].id))
  {
    var id := slots[i].id;
    var cleared, rest := slots[i := Bucket(0, 0, false)], Without(events, id);
    forall j | 0 <= j < n && j != i && slots[j].occupied
      ensures SumOf(rest, slots[j].id) == SumOf(events, slots[j].id)
    {
      WithoutOthers(events, id, slots[j].id);
    }
    forall e | e in rest ensures cleared[e.bucket % n].occupied && cleared[e.bucket % n].id == e.bucket {
      WithoutMembers(events, id, e);
    }
  }

  lemma FillSlot(slots: seq<Bucket>, n: nat, events: seq<Event>, bucket: nat, delta: nat)
    requires Represents(slots, n, events)
    requires var slot := slots[bucket % n]; slot.occupied ==> slot.id == bucket
    ensures var slot := slots[bucket % n];
      Represents(slots[bucket % n := Bucket(bucket, (slot.count + delta) % WORD32, true)], n,
        events + [Event(bucket, delta)])
  {
    var slot, more := slots[bucket % n], events + [Event(bucket, delta)];
    forall b ensures SumOf(more, b) == SumOf(events, b) + if b == bucket then delta else 0 {
      AppendSums(events, Event(bucket, delta), b);
    }
    if !slot.occupied {
      forall e | e in events ensures e.bucket != bucket {}
      AbsentSum(events, bucket);
    } else {
      AddModulo(SumOf(events, bucket), delta);
    }
  }

  lemma AddModulo(x: nat, y: nat)
    ensures (x % WORD32 + y) % WORD32 == (x + y) % WORD32
  {
    assert x == (x / WORD32) * WORD32 + x % WORD32;
    ModAdd(x % WORD32 + y, x / WORD32);
  }

  lemma RecordStep(slots: seq<Bucket>, n: nat, events: seq<Event>, total: nat, bucket: nat, now: nat, delta: nat)
    requires Represents(slots, n, events) && total % WORD32 == Sum(events) % WORD32 && InWindow(bucket, now, n)
    requires forall j :: 0 <= j < n && slots[j].occupied ==> InWindow(slots[j].id, now, n)
    ensures var slot, more := slots[bucket % n], events + [Event(bucket, delta)];
      (if slot.occupied then slot.id == bucket else slot.count == 0) &&
      Represents(slots[bucket % n := Bucket(bucket, (slot.count + delta) % WORD32, true)], n, more) &&
      ((total + delta) % WORD64) % WORD32 == Sum(more) % WORD32
  {
    var slot := slots[bucket % n];
    if slot.occupied { SlotsAreDistinct(slot.id, bucket, now, n); }
    FillSlot(slots, n, events, bucket, delta);
    AddWords(total, Sum(events), delta);
    AppendSums(events, Event(bucket, delta), 0);
  }

  class Counter {
    const bucketMs: nat
    const buckets: array<Bucket>
    var total: nat
    ghost var events: seq<Event>  // accepted and still in the window of the last call

    ghost predicate Valid()
      reads this, buckets
    {
      0 < bucketMs && Represents(buckets[..], buckets.Length, events) &&
      total < WORD64 && total % WORD32 == Sum(events) % WORD32
    }

    constructor (bucketNum: nat, bucketMs: nat)
      requires 0 < bucketNum && 0 < bucketMs
      ensures Valid() && events == [] && buckets.Length == bucketNum && this.bucketMs == bucketMs && fresh(buckets)
    {
      this.bucketMs := bucketMs;
      buckets := new Bucket[bucketNum](_ => Bucket(0, 0, false));
      total, events := 0, [];
    }

    method Expire(nowMs: nat)
      requires Valid()
      modifies this, buckets
      ensures Valid() && events == Keep(old(events), nowMs / bucketMs, buckets.Length)
      ensures forall j :: 0 <= j < buckets.Length && buckets[j].occupied ==>
        InWindow(buckets[j].id, nowMs / bucketMs, buckets.Length)
    {
      var now, n := nowMs / bucketMs, buckets.Length;
      var minimum := if now < n - 1 then 0 else now - n + 1;
      for i := 0 to n
        invariant Valid() && Keep(events, now, n) == Keep(old(events), now, n)
        invariant forall j :: 0 <= j < i && buckets[j].occupied ==> InWindow(buckets[j].id, now, n)
      {
        var bucket := buckets[i];
        if bucket.occupied && !(minimum <= bucket.id <= now) {
          ClearSlot(buckets[..], n, events, i);
          SumSplits(events, bucket.id);
          SubtractWords(total, Sum(events), SumOf(events, bucket.id));
          KeepWithout(events, bucket.id, now, n);
          total := (total + WORD64 - bucket.count) % WORD64;
          ghost var slots := buckets[..];
          buckets[i] := Bucket(0, 0, false);
          assert buckets[..] == slots[i := Bucket(0, 0, false)];
          events := Without(events, bucket.id);
        }
      }
      forall e | e in events ensures InWindow(e.bucket, now, n) {
        assert buckets[..][e.bucket % n] == buckets[e.bucket % n];
      }
      KeepAll(events, now, n);
    }

    /** Accepts an event whose bucket lies in the window, for any clock sequence. */
    method AddEvent(eventMs: nat, nowMs: nat, delta: nat) returns (accepted: bool)
      requires Valid() && delta < WORD32
      modifies this, buckets
      ensures Valid() && accepted == InWindow(eventMs / bucketMs, nowMs / bucketMs, buckets.Length)
      ensures events == Add(old(events), eventMs / bucketMs, nowMs / bucketMs, buckets.Length, delta)
    {
      Expire(nowMs);
      var n, bucket, now := buckets.Length, eventMs / bucketMs, nowMs / bucketMs;
      if bucket > now || now - bucket >= n {
        return false;
      }
      Record(bucket, now, delta);
      return true;
    }

    method Record(bucket: nat, ghost now: nat, delta: nat)
      requires Valid() && InWindow(bucket, now, buckets.Length)
      requires forall j :: 0 <= j < buckets.Length && buckets[j].occupied ==>
        InWindow(buckets[j].id, now, buckets.Length)
      modifies this, buckets
      ensures Valid() && events == old(events) + [Event(bucket, delta)]
    {
      var n := buckets.Length;
      var index := bucket % n;
      var slot := buckets[index];
      ghost var slots := buckets[..];
      RecordStep(slots, n, events, total, bucket, now, delta);
      if !slot.occupied || slot.id != bucket {
        // The occupant, if any, has expired by now, so nothing leaves the total here.
        SubtractNothing(total);
        total := (total + WORD64 - slot.count) % WORD64;
        slot := Bucket(bucket, 0, true);
      }
      Store(index, slot.(count := (slot.count + delta) % WORD32), (total + delta) % WORD64);
      events := events + [Event(bucket, delta)];
    }

    method Store(index: nat, slot: Bucket, newTotal: nat)
      requires index < buckets.Length
      modifies this`total, buckets
      ensures buckets[..] == old(buckets[..])[index := slot] && total == newTotal
    {
      buckets[index] := slot;
      total := newTotal;
    }

    /** The sum of the events in the window, modulo 2^32 whatever wrapped on the way. */
    method SumNow(nowMs: nat) returns (sum: nat)
      requires Valid()
      modifies this, buckets
      ensures Valid() && events == Keep(old(events), nowMs / bucketMs, buckets.Length)
      ensures sum == Sum(events) % WORD32
    {
      Expire(nowMs);
      return total % WORD32;
    }
  }

  /* Whole call sequences; times are given as bucket numbers, as every call computes them. */

  datatype Call = AddCall(bucket: nat, now: nat, delta: nat) | SumCall(now: nat)

  function AfterCall(events: seq<Event>, c: Call, n: nat): seq<Event> {
    match c
    case AddCall(bucket, now, delta) => Add(events, bucket, now, n, delta)
    case SumCall(now) => Keep(events, now, n)
  }

  function AfterCalls(calls: seq<Call>, n: nat): seq<Event> {
    if calls == [] then [] else AfterCall(AfterCalls(calls[..|calls| - 1], n), calls[|calls| - 1], n)
  }

  // Every event that was accepted when it came.
  function Accepted(calls: seq<Call>, n: nat): seq<Event> {
    if calls == [] then []
    else
      var c, before := calls[|calls| - 1], Accepted(calls[..|calls| - 1], n);
      if c.AddCall? && InWindow(c.bucket, c.now, n) then before + [Event(c.bucket, c.delta)] else before
  }

  predicate NonDecreasing(calls: seq<Call>) {
    forall i, j :: 0 <= i < j < |calls| ==> calls[i].now <= calls[j].now
  }

  lemma {:induction false} KeepKeep(events: seq<Event>, early: nat, late: nat, n: nat)
    requires early <= late && forall e :: e in events ==> e.bucket <= early
    ensures Keep(Keep(events, early, n), late, n) == Keep(events, late, n)
    decreases |events|
  {
    if events != [] {
      assert events[0] in events;
      KeepKeep(events[1..], early, late, n);
      if InWindow(events[0].bucket, early, n) {
        assert Keep(events, early, n)[1..] == Keep(events[1..], early, n);
      }
    }
  }

  lemma {:induction false} KeepAppend(events: seq<Event>, e: Event, now: nat, n: nat)
    ensures Keep(events + [e], now, n) == Keep(events, now, n) + if InWindow(e.bucket, now, n) then [e] else []
    decreases |events|
  {
    if events == [] {
      assert events + [e] == [e] && [e][1..] == [];
    } else {
      assert (events + [e])[0] == events[0] && (events + [e])[1..] == events[1..] + [e];
      KeepAppend(events[1..], e, now, n);
    }
  }

  lemma DivMonotone(a: nat, b: nat, d: nat)
    requires 0 < d && a <= b
    ensures a / d <= b / d
  {
    if a / d > b / d {
      assert a / d * d >= (b / d + 1) * d by { Grows(a / d - b / d - 1, d); Distribute(a / d, b / d, d); }
    }
  }

  /** Under a clock that never runs back the ring holds exactly the accepted events of the
      current window, so an earlier expiry never removed one too many or one too few. */
  lemma {:induction false} SteadyClockKeepsTheWindow(calls: seq<Call>, n: nat)
    requires calls != [] && NonDecreasing(calls)
    ensures AfterCalls(calls, n) == Keep(Accepted(calls, n), calls[|calls| - 1].now, n)
    ensures forall e :: e in Accepted(calls, n) ==> e.bucket <= calls[|calls| - 1].now
    decreases |calls|
  {
    var c, before := calls[|calls| - 1], calls[..|calls| - 1];
    var all := Accepted(before, n);
    if before != [] {
      SteadyClockKeepsTheWindow(before, n);
      KeepKeep(all, before[|before| - 1].now, c.now, n);
    }
    assert Keep(AfterCalls(before, n), c.now, n) == Keep(all, c.now, n);
    if c.AddCall? { KeepAppend(all, Event(c.bucket, c.delta), c.now, n); }
  }

  /** What the window means in milliseconds: an event no older than the window less one
      bucket is always counted, one as old as the whole window never. */
  lemma WindowInMilliseconds(eventMs: nat, nowMs: nat, bucketMs: nat, n: nat)
    requires 0 < bucketMs && 0 < n && eventMs <= nowMs
    ensures nowMs - eventMs <= (n - 1) * bucketMs ==> InWindow(eventMs / bucketMs, nowMs / bucketMs, n)
    ensures nowMs - eventMs >= n * bucketMs ==> !InWindow(eventMs / bucketMs, nowMs / bucketMs, n)
  {
    var e, w := eventMs / bucketMs, nowMs / bucketMs;
    DivMonotone(eventMs, nowMs, bucketMs);
    assert e * bucketMs <= eventMs < e * bucketMs + bucketMs;
    assert w * bucketMs <= nowMs < w * bucketMs + bucketMs;
    Distribute(w, e, bucketMs);
    if w - e >= n { assert (w - e) * bucketMs >= n * bucketMs by { Scale(n, w - e, bucketMs); } }
    if w - e < n { assert (w - e) * bucketMs <= (n - 1) * bucketMs by { Scale(w - e, n - 1, bucketMs); } }
    Distribute(n, 1, bucketMs);
  }

  lemma Scale(a: int, b: int, k: int)
    requires a <= b && 0 <= k
    ensures a * k <= b * k
  {}
}
