/** SlidingDistinct: a map from member to latest bucket and a lazily pruned heap of past
    buckets, against the plain map filtered to the window. */
module SlidingDistinct {
  import opened Wrappers

  datatype Entry = Entry(bucket: nat, member: string)

  // The reference: latest bucket of each member, and the clock of the last call.
  datatype View = View(seen: map<string, nat>, started: bool, last: nat)

  function MinValid(now: nat, w: nat): nat {
    if now < w then 0 else now - w + 1
  }

  function Since(seen: map<string, nat>, minimum: nat): map<string, nat> {
    map m | m in seen && seen[m] >= minimum :: seen[m]
  }

  function Expire(v: View, now: nat, w: nat): View {
    if v.started && now < v.last then View(map[], true, now) else View(Since(v.seen, MinValid(now, w)), true, now)
  }

  predicate Admits(v: View, member: string, bucket: nat, now: nat, w: nat, max: nat) {
    MinValid(now, w) <= bucket <= now && (member in Expire(v, now, w).seen || |Expire(v, now, w).seen| < max)
  }

  function Latest(seen: map<string, nat>, member: string, bucket: nat): map<string, nat> {
    seen[member := if member in seen then Max(seen[member], bucket) else bucket]
  }

  function Add(v: View, member: string, bucket: nat, now: nat, w: nat, max: nat): View {
    var x := Expire(v, now, w);
    if Admits(v, member, bucket, now, w, max) then x.(seen := Latest(x.seen, member, bucket)) else x
  }

  predicate Sound(v: View, w: nat, max: nat) {
    |v.seen| <= max && (!v.started ==> v.seen == map[]) && forall m :: m in v.seen ==>
      MinValid(v.last, w) <= v.seen[m] <= v.last
  }

  /* The heap. */

  predicate IsTop(heap: multiset<Entry>, e: Entry) {
    e in heap && forall x :: x in heap ==> e.bucket <= x.bucket
  }

  lemma TopExists(heap: multiset<Entry>)
    requires heap != multiset{}
    ensures exists e :: IsTop(heap, e)
    decreases |heap|
  {
    var e :| e in heap;
    var rest := heap - multiset{e};
    if rest == multiset{} {
      assert heap == multiset{e};
      assert IsTop(heap, e);
    } else {
      TopExists(rest);
      var t :| IsTop(rest, t);
      assert forall x :: x in heap ==> x == e || x in rest;
      assert IsTop(heap, if e.bucket <= t.bucket then e else t);
    }
  }

  // Every member has its latest bucket in the heap, older nodes are never newer than it,
  // and no (bucket, member) pair is there twice.
  ghost predicate Indexes(heap: multiset<Entry>, seen: map<string, nat>) {
    (forall m :: m in seen ==> Entry(seen[m], m) in heap) &&
    (forall e :: e in heap ==> e.member in seen && e.bucket <= seen[e.member]) &&
    (forall e :: e in heap ==> heap[e] == 1)
  }

  lemma PopKeepsIndex(heap: multiset<Entry>, seen: map<string, nat>, e: Entry)
    requires Indexes(heap, seen) && IsTop(heap, e)
    ensures Indexes(heap - multiset{e}, if seen[e.member] == e.bucket then seen - {e.member} else seen)
  {
    var rest := heap - multiset{e};
    if seen[e.member] == e.bucket {
      assert rest[e] == 0;
      forall x | x in rest ensures x.member != e.member {
        assert x in heap && x != e;
      }
    }
  }

  lemma PushKeepsIndex(heap: multiset<Entry>, seen: map<string, nat>, m: string, bucket: nat)
    requires Indexes(heap, seen) && (m in seen ==> seen[m] < bucket)
    ensures Indexes(heap + multiset{Entry(bucket, m)}, seen[m := bucket])
  {
    assert Entry(bucket, m) !in heap;
  }

  /* The heap's size. */

  function Range(lo: nat, w: nat, m: string): set<Entry> {
    if w == 0 then {} else Range(lo, w - 1, m) + {Entry(lo + w - 1, m)}
  }

  lemma {:induction false} RangeSize(lo: nat, w: nat, m: string)
    ensures |Range(lo, w, m)| <= w
    ensures forall b :: lo <= b < lo + w ==> Entry(b, m) in Range(lo, w, m)
    decreases w
  {
    if w > 0 { RangeSize(lo, w - 1, m); }
  }

  // The pairs of the given members and the w buckets from lo on.
  lemma {:induction false} PairsSize(entries: set<Entry>, members: set<string>, lo: nat, w: nat)
    requires forall e :: e in entries ==> e.member in members && lo <= e.bucket < lo + w
    ensures |entries| <= |members| * w
    decreases |members|
  {
    if members == {} {
      assert entries == {};
    } else {
      var m :| m in members;
      var mine := set e | e in entries && e.member == m;
      var rest := entries - mine;
      RangeSize(lo, w, m);
      assert mine <= Range(lo, w, m);
      Subset(mine, Range(lo, w, m));
      PairsSize(rest, members - {m}, lo, w);
      assert entries == mine + rest;
      assert (|members| - 1) * w + w == |members| * w;
    }
  }

  lemma {:induction false} Subset(a: set<Entry>, b: set<Entry>)
    requires a <= b
    ensures |a| <= |b|
    decreases |a|
  {
    if a != {} {
      var x :| x in a;
      Subset(a - {x}, b - {x});
    }
  }

  function Entries(heap: multiset<Entry>): set<Entry> {
    set e | e in heap
  }

  lemma {:induction false} NoRepeats(heap: multiset<Entry>)
    requires forall e :: e in heap ==> heap[e] == 1
    ensures |Entries(heap)| == |heap|
    decreases |heap|
  {
    if heap != multiset{} {
      var x :| x in heap;
      var rest := heap - multiset{x};
      NoRepeats(rest);
      assert Entries(heap) == Entries(rest) + {x};
    } else {
      assert Entries(heap) == {};
    }
  }

  /** Lazy pruning stays within bounds: the heap never holds more than one node for each
      live member and bucket of the window. */
  lemma HeapIsBounded(heap: multiset<Entry>, v: View, w: nat, max: nat)
    requires Indexes(heap, v.seen) && Sound(v, w, max) && 0 < w
    requires forall e :: e in heap ==> MinValid(v.last, w) <= e.bucket
    ensures |heap| <= max * w
  {
    NoRepeats(heap);
    PairsSize(Entries(heap), v.seen.Keys, MinValid(v.last, w), w);
    assert |v.seen.Keys| * w <= max * w by { Scale(|v.seen|, max, w); }
  }

  lemma Scale(a: nat, b: nat, k: nat)
    requires a <= b
    ensures a * k <= b * k
  {}

  class Distinct {
    const windowBuckets: nat
    const bucketMs: nat
    const maxMembers: nat
    var lastNow: nat
    var clockInitialized: bool
    var lastSeen: map<string, nat>
    var expiredQueue: multiset<Entry>

    ghost function Now(): View
      reads this
    {
      View(lastSeen, clockInitialized, lastNow)
    }

    ghost predicate Valid()
      reads this
    {
      0 < windowBuckets && 0 < bucketMs && 0 < maxMembers && Indexes(expiredQueue, lastSeen) &&
      Sound(Now(), windowBuckets, maxMembers) &&
      forall e :: e in expiredQueue ==> MinValid(lastNow, windowBuckets) <= e.bucket
    }

    constructor (windowMs: nat, bucketMs: nat, maxMembers: nat)
      requires 0 < bucketMs <= windowMs && windowMs % bucketMs == 0 && 0 < maxMembers
      ensures Valid() && Now() == View(map[], false, 0)
      ensures windowBuckets == windowMs / bucketMs && this.bucketMs == bucketMs && this.maxMembers == maxMembers
    {
      windowBuckets, this.bucketMs, this.maxMembers := windowMs / bucketMs, bucketMs, maxMembers;
      lastNow, clockInitialized, lastSeen, expiredQueue := 0, false, map[], multiset{};
      AtLeastOne(windowMs, bucketMs);
    }

    // Pops one node; the index forgets the member only with its latest bucket.
    method Pop(entry: Entry)
      requires entry in expiredQueue
      modifies this`lastSeen, this`expiredQueue
      ensures expiredQueue == old(expiredQueue) - multiset{entry}
      ensures lastSeen == Forget(old(lastSeen), entry)
    {
      if entry.member in lastSeen && lastSeen[entry.member] == entry.bucket {
        lastSeen := lastSeen - {entry.member};
      }
      expiredQueue := expiredQueue - multiset{entry};
    }

    method Prune(minimum: nat)
      requires Indexes(expiredQueue, lastSeen)
      modifies this`lastSeen, this`expiredQueue
      ensures Indexes(expiredQueue, lastSeen) && lastSeen == Since(old(lastSeen), minimum)
      ensures forall e :: e in expiredQueue ==> minimum <= e.bucket
    {
      while expiredQueue != multiset{}
        invariant Pruning(old(lastSeen), lastSeen, expiredQueue, minimum)
        decreases |expiredQueue|
      {
        TopExists(expiredQueue);
        var entry :| IsTop(expiredQueue, entry);
        if entry.bucket >= minimum {
          break;
        }
        PruneStep(old(lastSeen), lastSeen, expiredQueue, minimum, entry);
        Pop(entry);
      }
      PruneDone(old(lastSeen), lastSeen, expiredQueue, minimum);
    }

    method ExpireNow(nowMs: nat)
      requires Valid()
      modifies this`lastNow, this`clockInitialized, this`lastSeen, this`expiredQueue
      ensures Valid() && Now() == Expire(old(Now()), nowMs / bucketMs, windowBuckets)
    {
      var now := nowMs / bucketMs;
      ExpireSound(Now(), now, windowBuckets, maxMembers);
      if clockInitialized && now < lastNow {
        lastSeen, expiredQueue := map[], multiset{};
      }
      clockInitialized, lastNow := true, now;
      Prune(MinValid(now, windowBuckets));
    }

    /** Counts a member as seen in its bucket, for any clock sequence: exactly the plain
        map, with the hard cap on new members. */
    method AddMember(member: string, eventMs: nat, nowMs: nat) returns (admitted: bool)
      requires Valid()
      modifies this`lastNow, this`clockInitialized, this`lastSeen, this`expiredQueue
      ensures Valid() && admitted ==
        Admits(old(Now()), member, eventMs / bucketMs, nowMs / bucketMs, windowBuckets, maxMembers)
      ensures Now() == Add(old(Now()), member, eventMs / bucketMs, nowMs / bucketMs, windowBuckets, maxMembers)
    {
      ExpireNow(nowMs);
      var bucket, now := eventMs / bucketMs, nowMs / bucketMs;
      if bucket > now || bucket < MinValid(now, windowBuckets) {
        return false;
      }
      admitted := Note(member, bucket);
    }

    // A saturated index still refreshes the members it has.
    method Note(member: string, bucket: nat) returns (admitted: bool)
      requires Valid() && clockInitialized && MinValid(lastNow, windowBuckets) <= bucket <= lastNow
      modifies this`lastSeen, this`expiredQueue
      ensures Valid() && admitted == (member in old(lastSeen) || |old(lastSeen)| < maxMembers)
      ensures lastSeen == if admitted then Latest(old(lastSeen), member, bucket) else old(lastSeen)
    {
      if member in lastSeen {
        if bucket <= lastSeen[member] {
          AlreadyLatest(lastSeen, member, bucket);
          return true;
        }
      } else if |lastSeen| >= maxMembers {
        return false;
      }
      NoteSound(Now(), expiredQueue, member, bucket, windowBuckets, maxMembers);
      Push(member, bucket);
      return true;
    }

    method Push(member: string, bucket: nat)
      modifies this`lastSeen, this`expiredQueue
      ensures lastSeen == old(lastSeen)[member := bucket]
      ensures expiredQueue == old(expiredQueue) + multiset{Entry(bucket, member)}
    {
      expiredQueue := expiredQueue + multiset{Entry(bucket, member)};
      lastSeen := lastSeen[member := bucket];
    }

    method Count(nowMs: nat) returns (count: nat)
      requires Valid()
      modifies this`lastNow, this`clockInitialized, this`lastSeen, this`expiredQueue
      ensures Valid() && Now() == Expire(old(Now()), nowMs / bucketMs, windowBuckets)
      ensures count == |Now().seen|
      ensures |expiredQueue| <= maxMembers * windowBuckets
    {
      ExpireNow(nowMs);
      HeapIsBounded(expiredQueue, Now(), windowBuckets, maxMembers);
      return |lastSeen|;
    }
  }

  lemma AtLeastOne(windowMs: nat, bucketMs: nat)
    requires 0 < bucketMs <= windowMs
    ensures windowMs / bucketMs >= 1
  {
    assert windowMs == windowMs / bucketMs * bucketMs + windowMs % bucketMs;
  }

  function Forget(seen: map<string, nat>, e: Entry): map<string, nat> {
    if e.member in seen && seen[e.member] == e.bucket then seen - {e.member} else seen
  }

  // Pruned so far: only members whose latest bucket lies before the minimum are gone.
  ghost predicate Pruning(before: map<string, nat>, seen: map<string, nat>, heap: multiset<Entry>, minimum: nat) {
    Indexes(heap, seen) &&
    (forall m :: m in seen ==> m in before && seen[m] == before[m]) &&
    (forall m :: m in before && m !in seen ==> before[m] < minimum)
  }

  lemma PruneStep(before: map<string, nat>, seen: map<string, nat>, heap: multiset<Entry>, minimum: nat, e: Entry)
    requires Pruning(before, seen, heap, minimum) && IsTop(heap, e) && e.bucket < minimum
    ensures Pruning(before, Forget(seen, e), heap - multiset{e}, minimum)
  {
    PopKeepsIndex(heap, seen, e);
  }

  lemma PruneDone(before: map<string, nat>, seen: map<string, nat>, heap: multiset<Entry>, minimum: nat)
    requires Pruning(before, seen, heap, minimum) && forall e :: e in heap ==> minimum <= e.bucket
    ensures seen == Since(before, minimum)
  {}

  lemma ExpireSound(v: View, now: nat, w: nat, max: nat)
    requires Sound(v, w, max)
    ensures Sound(Expire(v, now, w), w, max)
  {
    KeysShrink(Since(v.seen, MinValid(now, w)), v.seen);
  }

  lemma {:induction false} KeysShrink(a: map<string, nat>, b: map<string, nat>)
    requires a.Keys <= b.Keys
    ensures |a| <= |b|
    decreases |a|
  {
    if a.Keys != {} {
      var m :| m in a.Keys;
      KeysShrink(a - {m}, b - {m});
      assert a.Keys == (a - {m}).Keys + {m} && b.Keys == (b - {m}).Keys + {m};
    }
  }

  lemma AlreadyLatest(seen: map<string, nat>, m: string, bucket: nat)
    requires m in seen && bucket <= seen[m]
    ensures Latest(seen, m, bucket) == seen
  {}

  lemma NoteSound(v: View, heap: multiset<Entry>, m: string, bucket: nat, w: nat, max: nat)
    requires Indexes(heap, v.seen) && Sound(v, w, max) && v.started && MinValid(v.last, w) <= bucket <= v.last
    requires if m in v.seen then v.seen[m] < bucket else |v.seen| < max
    ensures Indexes(heap + multiset{Entry(bucket, m)}, v.seen[m := bucket]) &&
      Sound(v.(seen := v.seen[m := bucket]), w, max)
  {
    PushKeepsIndex(heap, v.seen, m, bucket);
    KeysGrow(v.seen, m, bucket);
  }

  lemma KeysGrow(a: map<string, nat>, m: string, bucket: nat)
    ensures |a[m := bucket]| == if m in a then |a| else |a| + 1
  {
    assert a[m := bucket].Keys == a.Keys + {m};
  }
}
