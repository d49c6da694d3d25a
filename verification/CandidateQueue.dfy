/** The bounded queue between business workers and the maintenance worker: queued
    candidates plus the one reserved batch that has not been acknowledged yet. */
module CandidateQueue {
  import opened Wrappers
  import opened Blacklist

  const MAX_COUNT: nat := 0xFFFF_FFFF_FFFF_FFFF

  datatype SubmitStatus = Accepted | Full | Closed | Invalid

  datatype View = View(
    queued: seq<Mutation>,
    reserved: seq<Mutation>,
    closed: bool,
    dropped: nat,
    reported: nat,
    droppedOnShutdown: nat)

  // 0 never expires, so it is later than every finite expiry.
  predicate ExpiresLater(candidate: nat, current: nat) {
    candidate == 0 || (current != 0 && candidate > current)
  }

  // u blocks the entity of m for at least as long as m would.
  predicate Covers(u: Mutation, m: Mutation) {
    u.Upsert? && m.Upsert? && u.key == m.key &&
    (u.expireAt == 0 || (m.expireAt != 0 && u.expireAt >= m.expireAt))
  }

  predicate Covered(m: Mutation, records: seq<Mutation>) {
    exists i :: 0 <= i < |records| && Covers(records[i], m)
  }

  /* Specification of the operations. */

  function IndexOfKey(batch: seq<Mutation>, m: Mutation): (i: nat)
    requires m.Upsert?
    ensures i <= |batch|
    ensures forall j :: 0 <= j < i ==> !SameEntity(batch[j], m)
    ensures i < |batch| ==> SameEntity(batch[i], m)
  {
    if batch == [] then 0
    else if SameEntity(batch[0], m) then 0
    else 1 + IndexOfKey(batch[1..], m)
  }

  predicate SameEntity(a: Mutation, b: Mutation) {
    a.Upsert? && b.Upsert? && a.key == b.key
  }

  function Merge(batch: seq<Mutation>, m: Mutation): seq<Mutation>
    requires m.Upsert?
  {
    var i := IndexOfKey(batch, m);
    if i == |batch| then batch + [m]
    else if ExpiresLater(m.expireAt, batch[i].expireAt) then batch[i := m]
    else batch
  }

  predicate AllUpserts(ms: seq<Mutation>) {
    forall i :: 0 <= i < |ms| ==> ms[i].Upsert?
  }

  function MergeAll(batch: seq<Mutation>, ms: seq<Mutation>): seq<Mutation>
    requires AllUpserts(ms)
    decreases |ms|
  {
    if ms == [] then batch else MergeAll(Merge(batch, ms[0]), ms[1..])
  }

  function Submit(v: View, capacity: nat, m: Mutation): (View, SubmitStatus) {
    if !m.Upsert? then (v, Invalid)
    else if v.closed then (v, Closed)
    else if |v.queued| + |v.reserved| >= capacity then
      (if v.dropped == MAX_COUNT then v else v.(dropped := v.dropped + 1), Full)
    else (v.(queued := v.queued + [m]), Accepted)
  }

  function Reserve(v: View, count: nat): View
    requires AllUpserts(v.queued)
  {
    if v.reserved != [] then v
    else
      var n := Min(count, |v.queued|);
      v.(queued := v.queued[n..], reserved := MergeAll([], v.queued[..n]))
  }

  function Acknowledge(v: View): View {
    v.(reserved := [])
  }

  function Discard(v: View): View {
    var remaining := |v.queued| + |v.reserved|;
    var room := if v.droppedOnShutdown <= MAX_COUNT then MAX_COUNT - v.droppedOnShutdown else 0;
    v.(queued := [], reserved := [], droppedOnShutdown := v.droppedOnShutdown + Min(remaining, room))
  }

  predicate Empty(v: View) {
    v.queued == [] && v.reserved == []
  }

  predicate DistinctEntities(batch: seq<Mutation>) {
    forall i, j :: 0 <= i < j < |batch| ==> !SameEntity(batch[i], batch[j])
  }

  predicate Sound(v: View, capacity: nat) {
    AllUpserts(v.queued) && AllUpserts(v.reserved) && DistinctEntities(v.reserved) &&
    |v.queued| + |v.reserved| <= capacity && v.reported <= v.dropped <= MAX_COUNT &&
    v.droppedOnShutdown <= MAX_COUNT
  }

  /* What merging keeps. */

  lemma MergeCovers(batch: seq<Mutation>, m: Mutation)
    requires m.Upsert? && AllUpserts(batch) && DistinctEntities(batch)
    ensures AllUpserts(Merge(batch, m)) && DistinctEntities(Merge(batch, m))
    ensures |batch| <= |Merge(batch, m)| <= |batch| + 1
    ensures Covered(m, Merge(batch, m))
    ensures forall x :: Covered(x, batch) ==> Covered(x, Merge(batch, m))
  {
    var i := IndexOfKey(batch, m);
    var merged := Merge(batch, m);
    assert Covers(merged[i], m);
    forall x | Covered(x, batch) ensures Covered(x, merged) {
      var j :| 0 <= j < |batch| && Covers(batch[j], x);
      assert Covers(merged[j], x);
    }
  }

  /** A reserved batch covers every candidate that went into it: merging by entity never
      shortens an expiry, drops an entity, or repeats one. */
  lemma {:induction false} MergeAllCovers(batch: seq<Mutation>, ms: seq<Mutation>)
    requires AllUpserts(ms) && AllUpserts(batch) && DistinctEntities(batch)
    ensures AllUpserts(MergeAll(batch, ms)) && DistinctEntities(MergeAll(batch, ms))
    ensures |MergeAll(batch, ms)| <= |batch| + |ms|
    ensures ms != [] ==> MergeAll(batch, ms) != []
    ensures batch != [] ==> MergeAll(batch, ms) != []
    ensures forall x :: Covered(x, batch) || x in ms ==> Covered(x, MergeAll(batch, ms))
    decreases |ms|
  {
    if ms != [] {
      MergeCovers(batch, ms[0]);
      MergeAllCovers(Merge(batch, ms[0]), ms[1..]);
    }
  }

  // Nothing is made up: each reserved record is one of the candidates taken.
  lemma {:induction false} MergeAllFromInput(batch: seq<Mutation>, ms: seq<Mutation>, x: Mutation)
    requires AllUpserts(ms) && x in MergeAll(batch, ms)
    ensures x in batch || x in ms
    decreases |ms|
  {
    if ms != [] { MergeAllFromInput(Merge(batch, ms[0]), ms[1..], x); }
  }

  lemma {:induction false} MergeAllSplit(batch: seq<Mutation>, ms: seq<Mutation>, m: Mutation)
    requires AllUpserts(ms) && m.Upsert?
    ensures MergeAll(batch, ms + [m]) == Merge(MergeAll(batch, ms), m)
    decreases |ms|
  {
    if ms == [] {
      assert [m][1..] == [];
    } else {
      assert (ms + [m])[0] == ms[0] && (ms + [m])[1..] == ms[1..] + [m];
      MergeAllSplit(Merge(batch, ms[0]), ms[1..], m);
    }
  }

  lemma ReserveKeeps(v: View, capacity: nat, count: nat)
    requires Sound(v, capacity)
    ensures Sound(Reserve(v, count), capacity)
    ensures v.reserved != [] ==> Reserve(v, count) == v
    ensures forall m :: m in v.queued || Covered(m, v.reserved) ==>
      m in Reserve(v, count).queued || Covered(m, Reserve(v, count).reserved)
  {
    if v.reserved == [] {
      var n := Min(count, |v.queued|);
      MergeAllCovers([], v.queued[..n]);
      assert v.queued == v.queued[..n] + v.queued[n..];
    }
  }

  // The oldest candidates, up to count, have become the batch: each of them is covered by it,
  // it has one record an entity, and each record is one of them.
  ghost predicate TakesOldest(before: View, count: nat, after: View) {
    var n := Min(count, |before.queued|);
    after == before.(queued := before.queued[n..], reserved := after.reserved) &&
    (forall i :: 0 <= i < n ==> Covered(before.queued[i], after.reserved)) &&
    (forall m :: m in after.reserved ==> m in before.queued[..n]) && DistinctEntities(after.reserved)
  }

  lemma ReserveTakes(v: View, capacity: nat, count: nat)
    requires Sound(v, capacity) && v.reserved == []
    ensures TakesOldest(v, count, Reserve(v, count))
  {
    var n := Min(count, |v.queued|);
    var taken := v.queued[..n];
    MergeAllCovers([], taken);
    forall i | 0 <= i < n ensures Covered(v.queued[i], MergeAll([], taken)) {
      assert taken[i] in taken;
    }
    forall m | m in MergeAll([], taken) ensures m in taken { MergeAllFromInput([], taken, m); }
  }

  class BlacklistCandidateQueue {
    const capacity: nat
    var queued: seq<Mutation>
    var reserved: seq<Mutation>
    var closed: bool
    var dropped: nat
    var reported: nat
    var droppedOnShutdown: nat

    ghost function Now(): View
      reads this
    {
      View(queued, reserved, closed, dropped, reported, droppedOnShutdown)
    }

    ghost predicate Valid()
      reads this
    {
      0 < capacity && Sound(Now(), capacity)
    }

    constructor (capacity: nat)
      requires 0 < capacity
      ensures Valid() && this.capacity == capacity
      ensures Now() == View([], [], false, 0, 0, 0)
    {
      this.capacity := capacity;
      queued, reserved, closed := [], [], false;
      dropped, reported, droppedOnShutdown := 0, 0, 0;
    }

    method TrySubmit(candidate: Mutation) returns (status: SubmitStatus)
      requires Valid()
      modifies this
      ensures Valid() && (Now(), status) == Submit(old(Now()), capacity, candidate)
      ensures status.Accepted? <==> candidate.Upsert? && !old(closed) && |old(queued)| + |old(reserved)| < capacity
      ensures queued == (if status.Accepted? then old(queued) + [candidate] else old(queued)) &&
        reserved == old(reserved)
      ensures status.Full? <==> candidate.Upsert? && !old(closed) && |old(queued)| + |old(reserved)| == capacity
      ensures dropped == (if status.Full? then Min(old(dropped) + 1, MAX_COUNT) else old(dropped))
    {
      if !candidate.Upsert? {
        return Invalid;
      }
      if closed {
        return Closed;
      }
      if |queued| + |reserved| >= capacity {
        if dropped != MAX_COUNT { dropped := dropped + 1; }
        return Full;
      }
      queued := queued + [candidate];
      return Accepted;
    }

    method MergeIntoReserved(mutation: Mutation)
      requires mutation.Upsert?
      modifies this`reserved
      ensures reserved == Merge(old(reserved), mutation)
    {
      var existing := 0;
      while existing < |reserved| && !SameEntity(reserved[existing], mutation)
        invariant existing <= |reserved|
        invariant forall j :: 0 <= j < existing ==> !SameEntity(reserved[j], mutation)
      {
        existing := existing + 1;
      }
      assert existing == IndexOfKey(reserved, mutation);
      if existing == |reserved| {
        reserved := reserved + [mutation];
      } else if ExpiresLater(mutation.expireAt, reserved[existing].expireAt) {
        reserved := reserved[existing := mutation];
      }
    }

    method ReserveBatch(maxBatchSize: nat) returns (batch: seq<Mutation>)
      requires Valid()
      modifies this
      ensures Valid() && Now() == Reserve(old(Now()), maxBatchSize) && batch == reserved
      ensures if old(reserved) == [] then TakesOldest(old(Now()), maxBatchSize, Now()) else Now() == old(Now())
    {
      if reserved == [] { ReserveTakes(Now(), capacity, maxBatchSize); }
      ReserveKeeps(Now(), capacity, maxBatchSize);
      if |reserved| > 0 {
        return reserved;
      }
      if maxBatchSize == 0 {
        assert queued[0..] == queued;
        return [];
      }
      var takeCount := Min(maxBatchSize, |queued|);
      for index := 0 to takeCount
        invariant queued == old(queued)[index..]
        invariant reserved == MergeAll([], old(queued)[..index])
        invariant closed == old(closed) && dropped == old(dropped)
        invariant reported == old(reported) && droppedOnShutdown == old(droppedOnShutdown)
      {
        var mutation := queued[0];
        queued := queued[1..];
        assert old(queued)[..index + 1] == old(queued)[..index] + [mutation];
        MergeAllSplit([], old(queued)[..index], mutation);
        MergeIntoReserved(mutation);
      }
      return reserved;
    }

    method AcknowledgeReserved()
      requires Valid()
      modifies this`reserved
      ensures Valid() && Now() == Acknowledge(old(Now()))
    {
      reserved := [];
    }

    method Close()
      requires Valid()
      modifies this`closed
      ensures Valid() && Now() == old(Now()).(closed := true)
    {
      closed := true;
    }

    method DiscardRemainingOnShutdown() returns (added: nat)
      requires Valid()
      modifies this
      ensures Valid() && Now() == Discard(old(Now()))
      ensures added == droppedOnShutdown - old(droppedOnShutdown)
    {
      var remaining := |queued| + |reserved|;
      queued, reserved := [], [];
      added := Min(remaining, MAX_COUNT - droppedOnShutdown);
      droppedOnShutdown := droppedOnShutdown + added;
    }

    // Every Full is reported exactly once, short of a saturated counter.
    method TakeDroppedSinceLastReport() returns (delta: nat)
      requires Valid()
      modifies this`reported
      ensures Valid() && Now() == old(Now()).(reported := dropped)
      ensures old(reported) + delta == dropped
    {
      delta := dropped - reported;
      reported := dropped;
    }
  }
}
