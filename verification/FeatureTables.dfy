/** The shards of the feature store as they are in memory: tables of entries whose ring
    counters and member windows are objects that a login updates in place. Each table is
    proved equal to its part of the store on values. */
module FeatureTables {
  import opened Wrappers
  import opened FeatureStore
  import C = SlidingCounter
  import D = SlidingDistinct

  datatype UserEntry = UserEntry(counter: C.Counter, lastSeenMs: nat)
  datatype IpEntry = IpEntry(members: D.Distinct, counter: C.Counter, lastSeenMs: nat)
  datatype DeviceEntry = DeviceEntry(members: D.Distinct, lastSeenMs: nat)

  ghost predicate UserShows(e: UserEntry, v: UserState)
    reads e.counter, e.counter.buckets
  {
    e.counter.Valid() && e.counter.buckets.Length == BUCKETS && e.counter.bucketMs == USER_BUCKET_MS &&
    v == UserState(e.counter.events, e.lastSeenMs)
  }

  lemma UserFacts(e: UserEntry, v: UserState)
    ensures UserShows(e, v) <==>
      e.counter.Valid() && e.counter.buckets.Length == BUCKETS && e.counter.bucketMs == USER_BUCKET_MS &&
      v == UserState(e.counter.events, e.lastSeenMs)
  {}

  class UserTable {
    var entries: map<string, UserEntry>
    ghost var owner: map<object, string>   // whose each counter and each ring is
    ghost var view: map<string, UserState>

    // No two entries share a counter or its ring.
    ghost predicate Apart()
      reads this
    {
      this !in owner && view.Keys == entries.Keys &&
      forall k :: k in entries ==>
        entries[k].counter in owner && owner[entries[k].counter] == k &&
        entries[k].counter.buckets in owner && owner[entries[k].counter.buckets] == k
    }

    ghost predicate Valid()
      reads this, owner.Keys
    {
      Apart() && forall k :: k in entries ==> UserShows(entries[k], view[k])
    }

    constructor ()
      ensures Valid() && owner == map[] && view == map[]
    {
      entries, owner, view := map[], map[], map[];
    }

    // A counter of nobody's yet gets its entry.
    method Insert(k: string, counter: C.Counter)
      requires Valid() && k !in entries && counter !in owner && counter.buckets !in owner
      requires UserShows(UserEntry(counter, 0), UserState([], 0))
      modifies this
      ensures Valid() && owner.Keys == old(owner).Keys + {counter, counter.buckets}
      ensures view == old(view)[k := UserState([], 0)]
    {
      hide UserShows;
      entries := entries[k := UserEntry(counter, 0)];
      owner := owner[counter := k][counter.buckets := k];
      view := view[k := UserState([], 0)];
    }

    method Create(k: string)
      requires Valid() && k !in entries
      modifies this
      ensures Valid() && fresh(owner.Keys - old(owner).Keys) && old(owner).Keys <= owner.Keys
      ensures view == old(view)[k := UserState([], 0)]
    {
      hide UserShows, C.Represents, C.Sum;
      var counter := new C.Counter(BUCKETS, USER_BUCKET_MS);
      UserFacts(UserEntry(counter, 0), UserState([], 0));
      Insert(k, counter);
    }

    // The entry's own counter moves, and no other does.
    method Count(k: string, eventMs: nat, nowMs: nat)
      requires Valid() && k in entries
      modifies this`view, owner.Keys
      ensures Valid() && view == old(view)[k := old(view)[k].(
        fails := C.Add(old(view)[k].fails, eventMs / USER_BUCKET_MS, nowMs / USER_BUCKET_MS, BUCKETS, 1))]
    {
      hide UserShows, C.Add, C.Represents, C.Sum;
      var counter := entries[k].counter;
      UserFacts(entries[k], view[k]);
      var accepted := counter.AddEvent(eventMs, nowMs, 1);
      UserFacts(entries[k], UserState(counter.events, entries[k].lastSeenMs));
      view := view[k := UserState(counter.events, entries[k].lastSeenMs)];
    }

    method Touch(k: string, nowMs: nat)
      requires Valid() && k in entries
      modifies this`entries, this`view
      ensures Valid() && view == old(view)[k := old(view)[k].(lastSeenMs := nowMs)]
    {
      hide UserShows, C.Represents, C.Sum;
      UserFacts(entries[k], view[k]);
      UserFacts(entries[k].(lastSeenMs := nowMs), view[k].(lastSeenMs := nowMs));
      entries := entries[k := entries[k].(lastSeenMs := nowMs)];
      view := view[k := view[k].(lastSeenMs := nowMs)];
    }

    method Total(k: string, nowMs: nat) returns (fails: nat)
      requires Valid() && k in entries
      modifies this`view, owner.Keys
      ensures Valid() && view == old(view)[k := old(view)[k].(
        fails := C.Keep(old(view)[k].fails, nowMs / USER_BUCKET_MS, BUCKETS))]
      ensures fails == C.Sum(view[k].fails) % C.WORD32
    {
      hide UserShows, C.Keep, C.Sum, C.Represents;
      var counter := entries[k].counter;
      UserFacts(entries[k], view[k]);
      fails := counter.SumNow(nowMs);
      UserFacts(entries[k], UserState(counter.events, entries[k].lastSeenMs));
      view := view[k := UserState(counter.events, entries[k].lastSeenMs)];
    }

    // A success reads an existing window but neither creates nor prolongs one.
    method Update(a: Attempt, nowMs: nat) returns (fails: nat)
      requires Valid()
      modifies this, owner.Keys
      ensures Valid() && fresh(owner.Keys - old(owner).Keys) && old(owner).Keys <= owner.Keys
      ensures var after := UserAfter(Get(old(view), a.user), a, nowMs);
        view == Put(old(view), a.user, after) && fails == UserCount(after)
    {
      hide UserShows, C.Add, C.Keep, C.Sum, UserAfter, Put;
      UserParts(view, a, nowMs);
      var canUpdate := a.failed && WithinWindow(a.timestampMs, nowMs, USER_WINDOW_MS);
      if a.user !in entries && canUpdate {
        Create(a.user);
      }
      if a.user !in entries {
        return 0;
      }
      if canUpdate {
        Count(a.user, a.timestampMs, nowMs);
        Touch(a.user, nowMs);
      }
      fails := Total(a.user, nowMs);
    }

    method ForgetIfCold(k: string, nowMs: nat, ttlMs: nat)
      requires Valid()
      modifies this`entries, this`view
      ensures Valid() && view == UsersWithout(old(view), {k}, nowMs, ttlMs)
    {
      hide UserShows;
      if k in entries {
        UserFacts(entries[k], view[k]);
        if Cold(entries[k].lastSeenMs, nowMs, ttlMs) {
          Drop(k);
        }
      }
      assert view == UsersWithout(old(view), {k}, nowMs, ttlMs);
    }

    method Drop(k: string)
      requires Valid() && k in entries
      modifies this`entries, this`view
      ensures Valid() && view == old(view) - {k}
    {
      hide UserShows;
      entries, view := entries - {k}, view - {k};
    }

    // One shard, walked under its lock.
    method Reclaim(shard: set<string>, nowMs: nat, ttlMs: nat)
      requires Valid()
      modifies this`entries, this`view
      ensures Valid() && view == UsersWithout(old(view), shard, nowMs, ttlMs)
    {
      hide UserShows, UsersWithout;
      var position := shard;
      UsersWithoutMore(view, {}, {}, nowMs, ttlMs);
      assert shard - shard == {};
      while position != {}
        invariant position <= shard && Valid()
        invariant view == UsersWithout(old(view), shard - position, nowMs, ttlMs)
        decreases |position|
      {
        var k :| k in position;
        assert shard - (position - {k}) == (shard - position) + {k};
        UsersWithoutMore(old(view), shard - position, {k}, nowMs, ttlMs);
        ForgetIfCold(k, nowMs, ttlMs);
        position := position - {k};
      }
      assert shard - {} == shard;
    }
  }

  // The update of a user, one change after another.
  lemma UserParts(view: map<string, UserState>, a: Attempt, nowMs: nat)
    ensures var k, now := a.user, nowMs / USER_BUCKET_MS;
      var can := a.failed && WithinWindow(a.timestampMs, nowMs, USER_WINDOW_MS);
      var made := if k !in view && can then view[k := UserState([], 0)] else view;
      var after := UserAfter(Get(view, k), a, nowMs);
      if k !in made then Put(view, k, after) == view && UserCount(after) == 0
      else
        var counted := if can then made[k := made[k].(
            fails := C.Add(made[k].fails, a.timestampMs / USER_BUCKET_MS, now, BUCKETS, 1))]
          else made;
        var touched := if can then counted[k := counted[k].(lastSeenMs := nowMs)] else counted;
        var kept := touched[k := touched[k].(fails := C.Keep(touched[k].fails, now, BUCKETS))];
        Put(view, k, after) == kept && UserCount(after) == C.Sum(kept[k].fails) % C.WORD32
  {}

  function UsersWithout(view: map<string, UserState>, keys: set<string>, nowMs: nat, ttlMs: nat):
    map<string, UserState>
  {
    map k | k in view && !(k in keys && Cold(view[k].lastSeenMs, nowMs, ttlMs)) :: view[k]
  }

  lemma UsersWithoutMore(view: map<string, UserState>, keys: set<string>, more: set<string>, nowMs: nat, ttlMs: nat)
    ensures UsersWithout(UsersWithout(view, keys, nowMs, ttlMs), more, nowMs, ttlMs) ==
      UsersWithout(view, keys + more, nowMs, ttlMs)
    ensures UsersWithout(view, {}, nowMs, ttlMs) == view
  {}

  ghost predicate MembersOk(d: D.Distinct)
    reads d
  {
    d.Valid() && d.windowBuckets == BUCKETS && d.bucketMs == DISTINCT_BUCKET_MS && d.maxMembers == DISTINCT_MAX_MEMBERS
  }

  ghost predicate IpShows(e: IpEntry, v: IpState)
    reads e.members, e.counter, e.counter.buckets
  {
    MembersOk(e.members) && e.counter.Valid() && e.counter.buckets.Length == BUCKETS &&
    e.counter.bucketMs == DISTINCT_BUCKET_MS && v == IpState(e.members.Now(), e.counter.events, e.lastSeenMs)
  }

  lemma IpFacts(e: IpEntry, v: IpState)
    ensures IpShows(e, v) <==>
      MembersOk(e.members) && e.counter.Valid() && e.counter.buckets.Length == BUCKETS &&
      e.counter.bucketMs == DISTINCT_BUCKET_MS && v == IpState(e.members.Now(), e.counter.events, e.lastSeenMs)
  {}

  class IpTable {
    var entries: map<string, IpEntry>
    ghost var owner: map<object, string>
    ghost var view: map<string, IpState>

    ghost predicate Apart()
      reads this
    {
      this !in owner && view.Keys == entries.Keys &&
      forall k :: k in entries ==>
        entries[k].members in owner && owner[entries[k].members] == k &&
        entries[k].counter in owner && owner[entries[k].counter] == k &&
        entries[k].counter.buckets in owner && owner[entries[k].counter.buckets] == k
    }

    ghost predicate Valid()
      reads this, owner.Keys
    {
      Apart() && forall k :: k in entries ==> IpShows(entries[k], view[k])
    }

    constructor ()
      ensures Valid() && owner == map[] && view == map[]
    {
      entries, owner, view := map[], map[], map[];
    }

    method Insert(k: string, members: D.Distinct, counter: C.Counter)
      requires Valid() && k !in entries && members !in owner && counter !in owner && counter.buckets !in owner
      requires IpShows(IpEntry(members, counter, 0), IpState(NoMembers(), [], 0))
      modifies this
      ensures Valid() && owner.Keys == old(owner).Keys + {members, counter, counter.buckets}
      ensures view == old(view)[k := IpState(NoMembers(), [], 0)]
    {
      hide IpShows;
      Claim(k, members);
      Claim(k, counter);
      Claim(k, counter.buckets);
      Enter(k, members, counter);
    }

    method Enter(k: string, members: D.Distinct, counter: C.Counter)
      requires Valid() && k !in entries && IpShows(IpEntry(members, counter, 0), IpState(NoMembers(), [], 0))
      requires members in owner && owner[members] == k && counter in owner && owner[counter] == k
      requires counter.buckets in owner && owner[counter.buckets] == k
      modifies this`entries, this`view
      ensures Valid() && view == old(view)[k := IpState(NoMembers(), [], 0)]
    {
      hide IpShows;
      entries := entries[k := IpEntry(members, counter, 0)];
      view := view[k := IpState(NoMembers(), [], 0)];
    }

    // One more object that belongs to the entry of k.
    ghost method Claim(k: string, o: object)
      requires Valid() && o !in owner && o != this
      modifies this`owner
      ensures Valid() && owner == old(owner)[o := k]
    {
      hide IpShows;
      owner := owner[o := k];
    }

    method Create(k: string)
      requires Valid() && k !in entries
      modifies this
      ensures Valid() && fresh(owner.Keys - old(owner).Keys) && old(owner).Keys <= owner.Keys
      ensures view == old(view)[k := IpState(NoMembers(), [], 0)]
    {
      hide IpShows, C.Represents, C.Sum, D.Indexes, D.Sound;
      var members := new D.Distinct(DISTINCT_WINDOW_MS, DISTINCT_BUCKET_MS, DISTINCT_MAX_MEMBERS);
      var counter := new C.Counter(BUCKETS, DISTINCT_BUCKET_MS);
      IpFacts(IpEntry(members, counter, 0), IpState(NoMembers(), [], 0));
      Insert(k, members, counter);
    }

    // The entry's own window moves, and no other does.
    method Note(k: string, member: string, eventMs: nat, nowMs: nat)
      requires Valid() && k in entries
      modifies this`view, owner.Keys
      ensures Valid() && view == old(view)[k := old(view)[k].(
        users := CountMember(old(view)[k].users, member, eventMs, nowMs))]
    {
      hide IpShows, D.Add, D.Admits, D.Indexes, D.Sound, C.Represents, C.Sum;
      var members := entries[k].members;
      IpFacts(entries[k], view[k]);
      var admitted := members.AddMember(member, eventMs, nowMs);
      IpFacts(entries[k], view[k].(users := members.Now()));
      view := view[k := view[k].(users := members.Now())];
    }

    method Count(k: string, eventMs: nat, nowMs: nat)
      requires Valid() && k in entries
      modifies this`view, owner.Keys
      ensures Valid() && view == old(view)[k := old(view)[k].(
        fails := C.Add(old(view)[k].fails, eventMs / DISTINCT_BUCKET_MS, nowMs / DISTINCT_BUCKET_MS, BUCKETS, 1))]
    {
      hide IpShows, C.Add, C.Represents, C.Sum, D.Indexes, D.Sound;
      var counter := entries[k].counter;
      IpFacts(entries[k], view[k]);
      var accepted := counter.AddEvent(eventMs, nowMs, 1);
      IpFacts(entries[k], view[k].(fails := counter.events));
      view := view[k := view[k].(fails := counter.events)];
    }

    method Touch(k: string, nowMs: nat)
      requires Valid() && k in entries
      modifies this`entries, this`view
      ensures Valid() && view == old(view)[k := old(view)[k].(lastSeenMs := nowMs)]
    {
      hide IpShows, C.Represents, C.Sum;
      IpFacts(entries[k], view[k]);
      IpFacts(entries[k].(lastSeenMs := nowMs), view[k].(lastSeenMs := nowMs));
      entries := entries[k := entries[k].(lastSeenMs := nowMs)];
      view := view[k := view[k].(lastSeenMs := nowMs)];
    }

    method Members(k: string, nowMs: nat) returns (distinct: nat)
      requires Valid() && k in entries
      modifies this`view, owner.Keys
      ensures Valid() && view == old(view)[k := old(view)[k].(users := Refresh(old(view)[k].users, nowMs))]
      ensures distinct == |view[k].users.seen|
    {
      hide IpShows, D.Expire, D.Indexes, D.Sound, C.Represents, C.Sum;
      var members := entries[k].members;
      IpFacts(entries[k], view[k]);
      distinct := members.Count(nowMs);
      IpFacts(entries[k], view[k].(users := members.Now()));
      view := view[k := view[k].(users := members.Now())];
    }

    method Total(k: string, nowMs: nat) returns (fails: nat)
      requires Valid() && k in entries
      modifies this`view, owner.Keys
      ensures Valid() && view == old(view)[k := old(view)[k].(
        fails := C.Keep(old(view)[k].fails, nowMs / DISTINCT_BUCKET_MS, BUCKETS))]
      ensures fails == C.Sum(view[k].fails) % C.WORD32
    {
      hide IpShows, C.Keep, C.Sum, C.Represents, D.Indexes, D.Sound;
      var counter := entries[k].counter;
      IpFacts(entries[k], view[k]);
      fails := counter.SumNow(nowMs);
      IpFacts(entries[k], view[k].(fails := counter.events));
      view := view[k := view[k].(fails := counter.events)];
    }

    method Record(k: string, a: Attempt, nowMs: nat)
      requires Valid() && k in entries
      modifies this, owner.Keys
      ensures Valid() && owner == old(owner) && view == old(view)[k := IpCounted(old(view)[k], a, nowMs)]
    {
      hide IpShows, C.Add, CountMember;
      Note(k, a.user, a.timestampMs, nowMs);
      Count(k, a.timestampMs, nowMs);
      Touch(k, nowMs);
    }

    method Read(k: string, nowMs: nat) returns (distinct: nat, fails: nat)
      requires Valid() && k in entries
      modifies this, owner.Keys
      ensures Valid() && owner == old(owner) && view == old(view)[k := IpRead(old(view)[k], nowMs)]
      ensures distinct == |view[k].users.seen| && fails == C.Sum(view[k].fails) % C.WORD32
    {
      hide IpShows, C.Keep, C.Sum, Refresh;
      distinct := Members(k, nowMs);
      fails := Total(k, nowMs);
    }

    method Update(a: Attempt, nowMs: nat) returns (distinct: nat, fails: nat)
      requires Valid()
      modifies this, owner.Keys
      ensures Valid() && fresh(owner.Keys - old(owner).Keys) && old(owner).Keys <= owner.Keys
      ensures var after := IpAfter(Get(old(view), a.ip), a, nowMs);
        view == Put(old(view), a.ip, after) && (distinct, fails) == IpCounts(after)
    {
      hide IpShows, C.Sum, IpCounted, IpRead, IpAfter, Put;
      IpParts(view, a, nowMs);
      var canUpdate := a.failed && WithinWindow(a.timestampMs, nowMs, DISTINCT_WINDOW_MS);
      if a.ip !in entries && canUpdate {
        Create(a.ip);
      }
      if a.ip !in entries {
        return 0, 0;
      }
      if canUpdate {
        Record(a.ip, a, nowMs);
      }
      distinct, fails := Read(a.ip, nowMs);
    }

    method ForgetIfCold(k: string, nowMs: nat, ttlMs: nat)
      requires Valid()
      modifies this`entries, this`view
      ensures Valid() && view == IpsWithout(old(view), {k}, nowMs, ttlMs)
    {
      hide IpShows, MembersOk, C.Represents, C.Sum;
      if k in entries {
        IpFacts(entries[k], view[k]);
        if Cold(entries[k].lastSeenMs, nowMs, ttlMs) {
          Drop(k);
        }
      }
      assert view == IpsWithout(old(view), {k}, nowMs, ttlMs);
    }

    method Drop(k: string)
      requires Valid() && k in entries
      modifies this`entries, this`view
      ensures Valid() && view == old(view) - {k}
    {
      hide IpShows;
      entries, view := entries - {k}, view - {k};
    }

    method Reclaim(shard: set<string>, nowMs: nat, ttlMs: nat)
      requires Valid()
      modifies this`entries, this`view
      ensures Valid() && view == IpsWithout(old(view), shard, nowMs, ttlMs)
    {
      hide IpShows, IpsWithout;
      var position := shard;
      IpsWithoutMore(view, {}, {}, nowMs, ttlMs);
      assert shard - shard == {};
      while position != {}
        invariant position <= shard && Valid()
        invariant view == IpsWithout(old(view), shard - position, nowMs, ttlMs)
        decreases |position|
      {
        var k :| k in position;
        assert shard - (position - {k}) == (shard - position) + {k};
        IpsWithoutMore(old(view), shard - position, {k}, nowMs, ttlMs);
        ForgetIfCold(k, nowMs, ttlMs);
        position := position - {k};
      }
      assert shard - {} == shard;
    }
  }

  // What a counted login does to an address's state, and then what reading it does.
  function IpCounted(v: IpState, a: Attempt, nowMs: nat): IpState {
    IpState(CountMember(v.users, a.user, a.timestampMs, nowMs),
      C.Add(v.fails, a.timestampMs / DISTINCT_BUCKET_MS, nowMs / DISTINCT_BUCKET_MS, BUCKETS, 1), nowMs)
  }

  function IpRead(v: IpState, nowMs: nat): IpState {
    IpState(Refresh(v.users, nowMs), C.Keep(v.fails, nowMs / DISTINCT_BUCKET_MS, BUCKETS), v.lastSeenMs)
  }

  lemma IpParts(view: map<string, IpState>, a: Attempt, nowMs: nat)
    ensures var k := a.ip;
      var can := a.failed && WithinWindow(a.timestampMs, nowMs, DISTINCT_WINDOW_MS);
      var made := if k !in view && can then view[k := IpState(NoMembers(), [], 0)] else view;
      var after := IpAfter(Get(view, k), a, nowMs);
      if k !in made then Put(view, k, after) == view && IpCounts(after) == (0, 0)
      else
        var counted := if can then IpCounted(made[k], a, nowMs) else made[k];
        var kept := IpRead(counted, nowMs);
        Put(view, k, after) == made[k := kept] && IpCounts(after) == (|kept.users.seen|, C.Sum(kept.fails) % C.WORD32)
  {}

  function IpsWithout(view: map<string, IpState>, keys: set<string>, nowMs: nat, ttlMs: nat):
    map<string, IpState>
  {
    map k | k in view && !(k in keys && Cold(view[k].lastSeenMs, nowMs, ttlMs)) :: view[k]
  }

  lemma IpsWithoutMore(view: map<string, IpState>, keys: set<string>, more: set<string>, nowMs: nat, ttlMs: nat)
    ensures IpsWithout(IpsWithout(view, keys, nowMs, ttlMs), more, nowMs, ttlMs) ==
      IpsWithout(view, keys + more, nowMs, ttlMs)
    ensures IpsWithout(view, {}, nowMs, ttlMs) == view
  {}

  ghost predicate DeviceShows(e: DeviceEntry, v: DeviceState)
    reads e.members
  {
    MembersOk(e.members) && v == DeviceState(e.members.Now(), e.lastSeenMs)
  }

  lemma DeviceFacts(e: DeviceEntry, v: DeviceState)
    ensures DeviceShows(e, v) <==> MembersOk(e.members) && v == DeviceState(e.members.Now(), e.lastSeenMs)
  {}

  class DeviceTable {
    var entries: map<string, DeviceEntry>
    ghost var owner: map<object, string>
    ghost var view: map<string, DeviceState>

    ghost predicate Apart()
      reads this
    {
      this !in owner && view.Keys == entries.Keys &&
      forall k :: k in entries ==> entries[k].members in owner && owner[entries[k].members] == k
    }

    ghost predicate Valid()
      reads this, owner.Keys
    {
      Apart() && forall k :: k in entries ==> DeviceShows(entries[k], view[k])
    }

    constructor ()
      ensures Valid() && owner == map[] && view == map[]
    {
      entries, owner, view := map[], map[], map[];
    }

    method Create(k: string)
      requires Valid() && k !in entries
      modifies this
      ensures Valid() && fresh(owner.Keys - old(owner).Keys) && old(owner).Keys <= owner.Keys
      ensures view == old(view)[k := DeviceState(NoMembers(), 0)]
    {
      hide DeviceShows, D.Indexes, D.Sound;
      var members := new D.Distinct(DISTINCT_WINDOW_MS, DISTINCT_BUCKET_MS, DISTINCT_MAX_MEMBERS);
      DeviceFacts(DeviceEntry(members, 0), DeviceState(NoMembers(), 0));
      entries := entries[k := DeviceEntry(members, 0)];
      owner := owner[members := k];
      view := view[k := DeviceState(NoMembers(), 0)];
    }

    method Note(k: string, member: string, eventMs: nat, nowMs: nat)
      requires Valid() && k in entries
      modifies this`view, owner.Keys
      ensures Valid() && view == old(view)[k := old(view)[k].(
        accounts := CountMember(old(view)[k].accounts, member, eventMs, nowMs))]
    {
      hide DeviceShows, D.Add, D.Admits, D.Indexes, D.Sound;
      var members := entries[k].members;
      DeviceFacts(entries[k], view[k]);
      var admitted := members.AddMember(member, eventMs, nowMs);
      DeviceFacts(entries[k], view[k].(accounts := members.Now()));
      view := view[k := view[k].(accounts := members.Now())];
    }

    method Touch(k: string, nowMs: nat)
      requires Valid() && k in entries
      modifies this`entries, this`view
      ensures Valid() && view == old(view)[k := old(view)[k].(lastSeenMs := nowMs)]
    {
      hide DeviceShows;
      DeviceFacts(entries[k], view[k]);
      DeviceFacts(entries[k].(lastSeenMs := nowMs), view[k].(lastSeenMs := nowMs));
      entries := entries[k := entries[k].(lastSeenMs := nowMs)];
      view := view[k := view[k].(lastSeenMs := nowMs)];
    }

    method Members(k: string, nowMs: nat) returns (accounts: nat)
      requires Valid() && k in entries
      modifies this`view, owner.Keys
      ensures Valid() && view == old(view)[k := old(view)[k].(accounts := Refresh(old(view)[k].accounts, nowMs))]
      ensures accounts == |view[k].accounts.seen|
    {
      hide DeviceShows, D.Expire, D.Indexes, D.Sound;
      var members := entries[k].members;
      DeviceFacts(entries[k], view[k]);
      accounts := members.Count(nowMs);
      DeviceFacts(entries[k], view[k].(accounts := members.Now()));
      view := view[k := view[k].(accounts := members.Now())];
    }

    method Record(k: string, a: Attempt, nowMs: nat)
      requires Valid() && k in entries
      modifies this, owner.Keys
      ensures Valid() && owner == old(owner) && view == old(view)[k := DeviceCounted(old(view)[k], a, nowMs)]
    {
      hide DeviceShows, CountMember;
      Note(k, a.user, a.timestampMs, nowMs);
      Touch(k, nowMs);
    }

    method Update(a: Attempt, nowMs: nat) returns (accounts: nat)
      requires Valid()
      modifies this, owner.Keys
      ensures Valid() && fresh(owner.Keys - old(owner).Keys) && old(owner).Keys <= owner.Keys
      ensures var after := DeviceAfter(Get(old(view), a.device), a, nowMs);
        view == Put(old(view), a.device, after) && accounts == DeviceCount(after)
    {
      hide DeviceShows, DeviceCounted, Refresh, DeviceAfter, Put;
      DeviceParts(view, a, nowMs);
      var canUpdate := WithinWindow(a.timestampMs, nowMs, DISTINCT_WINDOW_MS);
      if a.device !in entries && canUpdate {
        Create(a.device);
      }
      if a.device !in entries {
        return 0;
      }
      if canUpdate {
        Record(a.device, a, nowMs);
      }
      accounts := Members(a.device, nowMs);
    }

    method ForgetIfCold(k: string, nowMs: nat, ttlMs: nat)
      requires Valid()
      modifies this`entries, this`view
      ensures Valid() && view == DevicesWithout(old(view), {k}, nowMs, ttlMs)
    {
      hide DeviceShows;
      if k in entries {
        DeviceFacts(entries[k], view[k]);
        if Cold(entries[k].lastSeenMs, nowMs, ttlMs) {
          Drop(k);
        }
      }
      assert view == DevicesWithout(old(view), {k}, nowMs, ttlMs);
    }

    method Drop(k: string)
      requires Valid() && k in entries
      modifies this`entries, this`view
      ensures Valid() && view == old(view) - {k}
    {
      hide DeviceShows;
      entries, view := entries - {k}, view - {k};
    }

    method Reclaim(shard: set<string>, nowMs: nat, ttlMs: nat)
      requires Valid()
      modifies this`entries, this`view
      ensures Valid() && view == DevicesWithout(old(view), shard, nowMs, ttlMs)
    {
      hide DeviceShows, DevicesWithout;
      var position := shard;
      DevicesWithoutMore(view, {}, {}, nowMs, ttlMs);
      assert shard - shard == {};
      while position != {}
        invariant position <= shard && Valid()
        invariant view == DevicesWithout(old(view), shard - position, nowMs, ttlMs)
        decreases |position|
      {
        var k :| k in position;
        assert shard - (position - {k}) == (shard - position) + {k};
        DevicesWithoutMore(old(view), shard - position, {k}, nowMs, ttlMs);
        ForgetIfCold(k, nowMs, ttlMs);
        position := position - {k};
      }
      assert shard - {} == shard;
    }
  }

  function DeviceCounted(v: DeviceState, a: Attempt, nowMs: nat): DeviceState {
    DeviceState(CountMember(v.accounts, a.user, a.timestampMs, nowMs), nowMs)
  }

  lemma DeviceParts(view: map<string, DeviceState>, a: Attempt, nowMs: nat)
    ensures var k, can := a.device, WithinWindow(a.timestampMs, nowMs, DISTINCT_WINDOW_MS);
      var made := if k !in view && can then view[k := DeviceState(NoMembers(), 0)] else view;
      var after := DeviceAfter(Get(view, k), a, nowMs);
      if k !in made then Put(view, k, after) == view && DeviceCount(after) == 0
      else
        var counted := if can then DeviceCounted(made[k], a, nowMs) else made[k];
        var kept := counted.(accounts := Refresh(counted.accounts, nowMs));
        Put(view, k, after) == made[k := kept] && DeviceCount(after) == |kept.accounts.seen|
  {}

  function DevicesWithout(view: map<string, DeviceState>, keys: set<string>, nowMs: nat, ttlMs: nat):
    map<string, DeviceState>
  {
    map k | k in view && !(k in keys && Cold(view[k].lastSeenMs, nowMs, ttlMs)) :: view[k]
  }

  lemma DevicesWithoutMore(view: map<string, DeviceState>, keys: set<string>, more: set<string>, nowMs: nat, ttlMs: nat)
    ensures DevicesWithout(DevicesWithout(view, keys, nowMs, ttlMs), more, nowMs, ttlMs) ==
      DevicesWithout(view, keys + more, nowMs, ttlMs)
    ensures DevicesWithout(view, {}, nowMs, ttlMs) == view
  {}

  /** The store: three kinds of shards, each with its own lock, so that each part of a login
      and each reclaim pass is a step of its own. */
  class LoginFeatureStore {
    const config: Config
    const users: UserTable
    const ips: IpTable
    const devices: DeviceTable

    // The three kinds share nothing.
    ghost predicate Valid()
      reads this, users, ips, devices, users.owner.Keys, ips.owner.Keys, devices.owner.Keys
    {
      users.Valid() && ips.Valid() && devices.Valid() &&
      users.owner.Keys !! ips.owner.Keys && users.owner.Keys !! devices.owner.Keys &&
      ips.owner.Keys !! devices.owner.Keys &&
      ips !in users.owner && devices !in users.owner && users !in ips.owner && devices !in ips.owner &&
      users !in devices.owner && ips !in devices.owner
    }

    ghost function Now(): Store
      reads this, users, ips, devices
    {
      Store(users.view, ips.view, devices.view)
    }

    constructor (config: Config)
      requires ValidConfig(config)
      ensures Valid() && Now() == EmptyStore() && this.config == config
    {
      this.config := config;
      users := new UserTable();
      ips := new IpTable();
      devices := new DeviceTable();
    }

    method UpdateUser(a: Attempt, nowMs: nat) returns (fails: nat)
      requires Valid()
      modifies users, users.owner.Keys
      ensures Valid() && (Now(), UserAnswer(fails)) == Step(old(Now()), UserPart(a, nowMs), config)
    {
      hide UserShows, IpShows, DeviceShows, UserAfter, Put;
      fails := users.Update(a, nowMs);
    }

    method UpdateIp(a: Attempt, nowMs: nat) returns (distinct: nat, fails: nat)
      requires Valid()
      modifies ips, ips.owner.Keys
      ensures Valid() && (Now(), IpAnswer(distinct, fails)) == Step(old(Now()), IpPart(a, nowMs), config)
    {
      hide UserShows, IpShows, DeviceShows, IpAfter, Put;
      distinct, fails := ips.Update(a, nowMs);
    }

    method UpdateDevice(a: Attempt, nowMs: nat) returns (accounts: nat)
      requires Valid()
      modifies devices, devices.owner.Keys
      ensures Valid() && (Now(), DeviceAnswer(accounts)) == Step(old(Now()), DevicePart(a, nowMs), config)
    {
      hide UserShows, IpShows, DeviceShows, DeviceAfter, Put;
      accounts := devices.Update(a, nowMs);
    }

    method ReclaimUserShard(shard: set<string>, nowMs: nat)
      requires Valid()
      modifies users
      ensures Valid() && Now() == Step(old(Now()), ReclaimUsers(shard, nowMs), config).0
    {
      hide UserShows, IpShows, DeviceShows;
      users.Reclaim(shard, nowMs, config.userTtlMs);
    }

    method ReclaimIpShard(shard: set<string>, nowMs: nat)
      requires Valid()
      modifies ips
      ensures Valid() && Now() == Step(old(Now()), ReclaimIps(shard, nowMs), config).0
    {
      hide UserShows, IpShows, DeviceShows;
      ips.Reclaim(shard, nowMs, config.ipTtlMs);
    }

    method ReclaimDeviceShard(shard: set<string>, nowMs: nat)
      requires Valid()
      modifies devices
      ensures Valid() && Now() == Step(old(Now()), ReclaimDevices(shard, nowMs), config).0
    {
      hide UserShows, IpShows, DeviceShows;
      devices.Reclaim(shard, nowMs, config.deviceTtlMs);
    }
  }
}
