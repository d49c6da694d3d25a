/** What the feature store's answers mean: each is a count over the logins of the past,
    whatever was created, expired and reclaimed on the way. */
module FeatureHistory {
  import opened Wrappers
  import opened FeatureStore
  import C = SlidingCounter
  import D = SlidingDistinct

  /* What a login part leaves in the history of a key. */

  predicate Counted(eventMs: nat, nowMs: nat, windowMs: nat, bucketMs: nat)
    requires 0 < bucketMs
  {
    WithinWindow(eventMs, nowMs, windowMs) && C.InWindow(eventMs / bucketMs, nowMs / bucketMs, BUCKETS)
  }

  function UserEvent(op: Op, user: string): seq<C.Event> {
    if op.UserPart? && op.attempt.user == user && op.attempt.failed &&
       Counted(op.attempt.timestampMs, op.nowMs, USER_WINDOW_MS, USER_BUCKET_MS)
    then [C.Event(op.attempt.timestampMs / USER_BUCKET_MS, 1)] else []
  }

  predicate IpFailure(op: Op, ip: string) {
    op.IpPart? && op.attempt.ip == ip && op.attempt.failed &&
    Counted(op.attempt.timestampMs, op.nowMs, DISTINCT_WINDOW_MS, DISTINCT_BUCKET_MS)
  }

  function IpEvent(op: Op, ip: string): seq<C.Event> {
    if IpFailure(op, ip) then [C.Event(op.attempt.timestampMs / DISTINCT_BUCKET_MS, 1)] else []
  }

  function IpEntry(op: Op, ip: string): seq<D.Entry> {
    if IpFailure(op, ip) then [D.Entry(op.attempt.timestampMs / DISTINCT_BUCKET_MS, op.attempt.user)] else []
  }

  function DeviceEntry(op: Op, device: string): seq<D.Entry> {
    if op.DevicePart? && op.attempt.device == device &&
       Counted(op.attempt.timestampMs, op.nowMs, DISTINCT_WINDOW_MS, DISTINCT_BUCKET_MS)
    then [D.Entry(op.attempt.timestampMs / DISTINCT_BUCKET_MS, op.attempt.user)] else []
  }

  function UserFailures(past: seq<Op>, user: string): seq<C.Event> {
    if past == [] then [] else UserFailures(past[..|past| - 1], user) + UserEvent(past[|past| - 1], user)
  }

  function IpFailures(past: seq<Op>, ip: string): seq<C.Event> {
    if past == [] then [] else IpFailures(past[..|past| - 1], ip) + IpEvent(past[|past| - 1], ip)
  }

  function IpEntries(past: seq<Op>, ip: string): seq<D.Entry> {
    if past == [] then [] else IpEntries(past[..|past| - 1], ip) + IpEntry(past[|past| - 1], ip)
  }

  function DeviceEntries(past: seq<Op>, device: string): seq<D.Entry> {
    if past == [] then [] else DeviceEntries(past[..|past| - 1], device) + DeviceEntry(past[|past| - 1], device)
  }

  lemma OneMore(past: seq<Op>, op: Op, key: string)
    ensures UserFailures(past + [op], key) == UserFailures(past, key) + UserEvent(op, key)
    ensures IpFailures(past + [op], key) == IpFailures(past, key) + IpEvent(op, key)
    ensures IpEntries(past + [op], key) == IpEntries(past, key) + IpEntry(op, key)
    ensures DeviceEntries(past + [op], key) == DeviceEntries(past, key) + DeviceEntry(op, key)
  {
    assert (past + [op])[..|past|] == past;
  }

  /* The answers, as counts over the past. */

  // How many events lie in the window of the clock, as a 32-bit number.
  function Recent(events: seq<C.Event>, now: nat): nat {
    |C.Keep(events, now, BUCKETS)| % C.WORD32
  }

  // The members with an entry in the window of the clock.
  function Present(entries: seq<D.Entry>, now: nat): set<string> {
    set e | e in entries && e.bucket >= D.MinValid(now, BUCKETS) :: e.member
  }

  function Expected(past: seq<Op>): Answer
    requires past != []
  {
    match past[|past| - 1]
    case UserPart(a, now) => UserAnswer(Recent(UserFailures(past, a.user), now / USER_BUCKET_MS))
    case IpPart(a, now) =>
      IpAnswer(|Present(IpEntries(past, a.ip), now / DISTINCT_BUCKET_MS)|,
        Recent(IpFailures(past, a.ip), now / DISTINCT_BUCKET_MS))
    case DevicePart(a, now) => DeviceAnswer(|Present(DeviceEntries(past, a.device), now / DISTINCT_BUCKET_MS)|)
    case _ => Silent
  }

  // No window has more members than the store is prepared to hold.
  predicate Roomy(past: seq<Op>)
    requires past != []
  {
    match past[|past| - 1]
    case IpPart(a, now) => |Present(IpEntries(past, a.ip), now / DISTINCT_BUCKET_MS)| <= DISTINCT_MAX_MEMBERS
    case DevicePart(a, now) =>
      |Present(DeviceEntries(past, a.device), now / DISTINCT_BUCKET_MS)| <= DISTINCT_MAX_MEMBERS
    case _ => true
  }

  predicate RoomyAll(past: seq<Op>, ops: seq<Op>)
    decreases |ops|
  {
    ops == [] || (Roomy(past + [ops[0]]) && RoomyAll(past + [ops[0]], ops[1..]))
  }

  function ExpectedAll(past: seq<Op>, ops: seq<Op>): seq<Answer>
    decreases |ops|
  {
    if ops == [] then [] else [Expected(past + [ops[0]])] + ExpectedAll(past + [ops[0]], ops[1..])
  }

  /* Counters. */

  predicate Reflects(fails: seq<C.Event>, all: seq<C.Event>, now: nat) {
    Aged(fails, now) && Aged(all, now) && C.Keep(fails, now, BUCKETS) == C.Keep(all, now, BUCKETS) &&
    forall e :: e in all ==> e.delta == 1
  }

  lemma {:induction false} UnitSum(events: seq<C.Event>)
    requires forall e :: e in events ==> e.delta == 1
    ensures C.Sum(events) == |events|
    decreases |events|
  {
    if events != [] {
      assert events[0] in events;
      UnitSum(events[1..]);
    }
  }

  lemma Counts(all: seq<C.Event>, now: nat)
    requires forall e :: e in all ==> e.delta == 1
    ensures C.Sum(C.Keep(all, now, BUCKETS)) % C.WORD32 == Recent(all, now)
  {
    forall e | e in C.Keep(all, now, BUCKETS) ensures e.delta == 1 { C.KeepMembers(all, now, BUCKETS, e); }
    UnitSum(C.Keep(all, now, BUCKETS));
  }

  lemma ReflectsLater(fails: seq<C.Event>, all: seq<C.Event>, early: nat, late: nat)
    requires Reflects(fails, all, early) && early <= late
    ensures Reflects(fails, all, late)
  {
    KeepAgrees(fails, all, early, late);
  }

  lemma CounterRead(fails: seq<C.Event>, all: seq<C.Event>, early: nat, now: nat)
    requires Reflects(fails, all, early) && early <= now
    ensures var kept := C.Keep(fails, now, BUCKETS);
      Reflects(kept, all, now) && C.Sum(kept) % C.WORD32 == Recent(all, now)
  {
    ReflectsLater(fails, all, early, now);
    KeptIsAged(fails, now);
    Counts(all, now);
  }

  lemma CounterAdd(fails: seq<C.Event>, all: seq<C.Event>, bucket: nat, early: nat, now: nat)
    requires Reflects(fails, all, early) && early <= now
    ensures var kept := C.Keep(C.Add(fails, bucket, now, BUCKETS, 1), now, BUCKETS);
      var more := if C.InWindow(bucket, now, BUCKETS) then all + [C.Event(bucket, 1)] else all;
      Reflects(kept, more, now) && C.Sum(kept) % C.WORD32 == Recent(more, now)
  {
    ReflectsLater(fails, all, early, now);
    KeptIsAged(fails, now);
    if C.InWindow(bucket, now, BUCKETS) {
      var e := C.Event(bucket, 1);
      C.KeepAppend(all, e, now, BUCKETS);
      C.KeepAppend(C.Keep(fails, now, BUCKETS), e, now, BUCKETS);
      KeptIsAged(all + [e], now);
      Counts(all + [e], now);
    } else {
      Counts(all, now);
    }
  }

  /* Members. */

  function LatestOf(entries: seq<D.Entry>): map<string, nat> {
    if entries == [] then map[]
    else D.Latest(LatestOf(entries[..|entries| - 1]), entries[|entries| - 1].member, entries[|entries| - 1].bucket)
  }

  // The window that never forgets anything.
  function Unbounded(entries: seq<D.Entry>): D.View {
    D.View(LatestOf(entries), false, 0)
  }

  lemma {:induction false} LatestMembers(entries: seq<D.Entry>, minimum: nat)
    ensures D.Since(LatestOf(entries), minimum).Keys == set e | e in entries && e.bucket >= minimum :: e.member
    decreases |entries|
  {
    if entries != [] {
      var e, before := entries[|entries| - 1], entries[..|entries| - 1];
      LatestMembers(before, minimum);
      assert entries == before + [e];
      assert D.Since(LatestOf(entries), minimum).Keys ==
        D.Since(LatestOf(before), minimum).Keys + if e.bucket >= minimum then {e.member} else {};
    }
  }

  lemma LatestOneMore(entries: seq<D.Entry>, e: D.Entry, minimum: nat)
    requires e.bucket >= minimum
    ensures D.Since(LatestOf(entries + [e]), minimum) ==
      D.Latest(D.Since(LatestOf(entries), minimum), e.member, e.bucket)
  {
    assert (entries + [e])[..|entries|] == entries;
  }

  predicate MembersReflect(v: D.View, entries: seq<D.Entry>, now: nat) {
    MembersAlike(v, Unbounded(entries), now)
  }

  lemma MembersRead(v: D.View, entries: seq<D.Entry>, early: nat, nowMs: nat)
    requires MembersReflect(v, entries, early) && early <= nowMs / DISTINCT_BUCKET_MS
    ensures MembersReflect(v, entries, nowMs / DISTINCT_BUCKET_MS)
    ensures MembersReflect(Refresh(v, nowMs), entries, nowMs / DISTINCT_BUCKET_MS)
    ensures |Refresh(v, nowMs).seen| == |Present(entries, nowMs / DISTINCT_BUCKET_MS)|
  {
    var now := nowMs / DISTINCT_BUCKET_MS;
    ExpireAlike(v, Unbounded(entries), early, now);
    LatestMembers(entries, D.MinValid(now, BUCKETS));
    SinceSince(v.seen, D.MinValid(now, BUCKETS), D.MinValid(now, BUCKETS));
    assert |Refresh(v, nowMs).seen| == |Refresh(v, nowMs).seen.Keys|;
  }

  lemma MembersAdd(v: D.View, entries: seq<D.Entry>, e: D.Entry, eventMs: nat, early: nat, nowMs: nat)
    requires MembersReflect(v, entries, early) && early <= nowMs / DISTINCT_BUCKET_MS
    requires e.bucket == eventMs / DISTINCT_BUCKET_MS && C.InWindow(e.bucket, nowMs / DISTINCT_BUCKET_MS, BUCKETS)
    requires |Present(entries + [e], nowMs / DISTINCT_BUCKET_MS)| <= DISTINCT_MAX_MEMBERS
    ensures MembersReflect(CountMember(v, e.member, eventMs, nowMs), entries + [e], nowMs / DISTINCT_BUCKET_MS)
  {
    var now := nowMs / DISTINCT_BUCKET_MS;
    var minimum := D.MinValid(now, BUCKETS);
    ExpireAlike(v, Unbounded(entries), early, now);
    LatestOneMore(entries, e, minimum);
    LatestMembers(entries + [e], minimum);
    var kept := D.Since(LatestOf(entries), minimum);
    D.KeysGrow(kept, e.member, if e.member in kept then Max(kept[e.member], e.bucket) else e.bucket);
    assert |D.Latest(kept, e.member, e.bucket)| == |D.Latest(kept, e.member, e.bucket).Keys|;
    assert D.Expire(v, now, BUCKETS).seen == kept;
    assert D.Admits(v, e.member, e.bucket, now, BUCKETS, DISTINCT_MAX_MEMBERS);
  }

  /* One key of each kind. */

  predicate UserReflects(state: Option<UserState>, past: seq<Op>, user: string, clockMs: nat) {
    Reflects(Fails(state), UserFailures(past, user), clockMs / USER_BUCKET_MS)
  }

  predicate IpReflects(state: Option<IpState>, past: seq<Op>, ip: string, clockMs: nat) {
    Reflects(IpFails(state), IpFailures(past, ip), clockMs / DISTINCT_BUCKET_MS) &&
    MembersReflect(IpUsers(state), IpEntries(past, ip), clockMs / DISTINCT_BUCKET_MS)
  }

  predicate DeviceReflects(state: Option<DeviceState>, past: seq<Op>, device: string, clockMs: nat) {
    MembersReflect(Accounts(state), DeviceEntries(past, device), clockMs / DISTINCT_BUCKET_MS)
  }

  predicate Touches(a: Attempt, nowMs: nat, windowMs: nat) {
    a.failed && WithinWindow(a.timestampMs, nowMs, windowMs)
  }

  lemma UserTouchedAnswers(state: Option<UserState>, past: seq<Op>, a: Attempt, clockMs: nat, nowMs: nat)
    requires UserReflects(state, past, a.user, clockMs) && clockMs <= nowMs && Touches(a, nowMs, USER_WINDOW_MS)
    ensures var after, all :=
      UserAfter(state, a, nowMs), UserFailures(past, a.user) + UserEvent(UserPart(a, nowMs), a.user);
      Reflects(Fails(after), all, nowMs / USER_BUCKET_MS) && UserCount(after) == Recent(all, nowMs / USER_BUCKET_MS)
  {
    var all := UserFailures(past, a.user);
    assert all + [] == all;
    CounterAdd(Fails(state), all, a.timestampMs / USER_BUCKET_MS, clockMs / USER_BUCKET_MS, nowMs / USER_BUCKET_MS);
  }

  lemma UserReadAnswers(state: Option<UserState>, past: seq<Op>, a: Attempt, clockMs: nat, nowMs: nat)
    requires UserReflects(state, past, a.user, clockMs) && clockMs <= nowMs && !Touches(a, nowMs, USER_WINDOW_MS)
    ensures var after, all := UserAfter(state, a, nowMs), UserFailures(past, a.user);
      Reflects(Fails(after), all, nowMs / USER_BUCKET_MS) && UserCount(after) == Recent(all, nowMs / USER_BUCKET_MS)
  {
    var early, now, all := clockMs / USER_BUCKET_MS, nowMs / USER_BUCKET_MS, UserFailures(past, a.user);
    if state.Some? {
      CounterRead(state.value.fails, all, early, now);
    } else {
      CounterRead([], all, early, now);
    }
  }

  lemma UserAnswers(state: Option<UserState>, past: seq<Op>, a: Attempt, clockMs: nat, nowMs: nat)
    requires UserReflects(state, past, a.user, clockMs) && clockMs <= nowMs
    ensures var op := UserPart(a, nowMs);
      UserReflects(UserAfter(state, a, nowMs), past + [op], a.user, nowMs) &&
      UserCount(UserAfter(state, a, nowMs)) == Recent(UserFailures(past + [op], a.user), nowMs / USER_BUCKET_MS)
  {
    OneMore(past, UserPart(a, nowMs), a.user);
    if Touches(a, nowMs, USER_WINDOW_MS) {
      UserTouchedAnswers(state, past, a, clockMs, nowMs);
    } else {
      assert UserFailures(past, a.user) + [] == UserFailures(past, a.user);
      UserReadAnswers(state, past, a, clockMs, nowMs);
    }
  }

  /** A login that is inside the window in milliseconds may be too old by its bucket. Then
      nothing is noted; for a new member with room for it, that is exactly when. */
  lemma TooOldForBucket(v: D.View, member: string, eventMs: nat, nowMs: nat)
    requires v.started ==> v.last <= nowMs / DISTINCT_BUCKET_MS
    ensures var counted := C.InWindow(eventMs / DISTINCT_BUCKET_MS, nowMs / DISTINCT_BUCKET_MS, BUCKETS);
      var same := Refresh(CountMember(v, member, eventMs, nowMs), nowMs) == Refresh(v, nowMs);
      (!counted ==> same) &&
      (member !in Refresh(v, nowMs).seen && |Refresh(v, nowMs).seen| < DISTINCT_MAX_MEMBERS && same ==> !counted)
  {
    var minimum := D.MinValid(nowMs / DISTINCT_BUCKET_MS, BUCKETS);
    SinceSince(v.seen, minimum, minimum);
    if C.InWindow(eventMs / DISTINCT_BUCKET_MS, nowMs / DISTINCT_BUCKET_MS, BUCKETS) &&
       member !in Refresh(v, nowMs).seen && |Refresh(v, nowMs).seen| < DISTINCT_MAX_MEMBERS {
      assert member in Refresh(CountMember(v, member, eventMs, nowMs), nowMs).seen;
    }
  }

  // A failure at 9.999 s that is processed at 600 s, one millisecond inside the ten minutes.
  function LateFailure(): Attempt {
    Attempt("u", "i", "d", 9_999, true)
  }

  lemma TooOldExample(c: Config)
    ensures WithinWindow(9_999, 600_000, DISTINCT_WINDOW_MS) && !IpFailure(IpPart(LateFailure(), 600_000), "i")
    ensures var (s, answer) := Step(EmptyStore(), IpPart(LateFailure(), 600_000), c);
      answer == IpAnswer(0, 0) && "i" in s.ips && s.ips["i"].lastSeenMs == 600_000
  {
    assert !C.InWindow(0, 60, BUCKETS) && 9_999 / DISTINCT_BUCKET_MS == 0 && 600_000 / DISTINCT_BUCKET_MS == 60;
    assert C.Add([], 0, 60, BUCKETS, 1) == [];
    assert Refresh(CountMember(NoMembers(), "u", 9_999, 600_000), 600_000).seen == map[];
  }

  // An address's state says the same as a history of failures and of entries.
  predicate IpSays(state: Option<IpState>, all: seq<C.Event>, entries: seq<D.Entry>, nowMs: nat) {
    var now := nowMs / DISTINCT_BUCKET_MS;
    Reflects(IpFails(state), all, now) && MembersReflect(IpUsers(state), entries, now) &&
    IpCounts(state) == (|Present(entries, now)|, Recent(all, now))
  }

  lemma IpCountedAnswers(state: Option<IpState>, past: seq<Op>, a: Attempt, clockMs: nat, nowMs: nat)
    requires IpReflects(state, past, a.ip, clockMs) && clockMs <= nowMs && IpFailure(IpPart(a, nowMs), a.ip)
    requires |Present(IpEntries(past, a.ip) + IpEntry(IpPart(a, nowMs), a.ip),
      nowMs / DISTINCT_BUCKET_MS)| <= DISTINCT_MAX_MEMBERS
    ensures var op := IpPart(a, nowMs);
      IpSays(IpAfter(state, a, nowMs), IpFailures(past, a.ip) + IpEvent(op, a.ip),
        IpEntries(past, a.ip) + IpEntry(op, a.ip), nowMs)
  {
    var early, now := clockMs / DISTINCT_BUCKET_MS, nowMs / DISTINCT_BUCKET_MS;
    var e := D.Entry(a.timestampMs / DISTINCT_BUCKET_MS, a.user);
    var entries := IpEntries(past, a.ip);
    CounterAdd(IpFails(state), IpFailures(past, a.ip), e.bucket, early, now);
    MembersAdd(IpUsers(state), entries, e, a.timestampMs, early, nowMs);
    MembersRead(CountMember(IpUsers(state), a.user, a.timestampMs, nowMs), entries + [e], now, nowMs);
  }

  lemma IpTooOldAnswers(state: Option<IpState>, past: seq<Op>, a: Attempt, clockMs: nat, nowMs: nat)
    requires IpReflects(state, past, a.ip, clockMs) && clockMs <= nowMs && Touches(a, nowMs, DISTINCT_WINDOW_MS)
    requires !C.InWindow(a.timestampMs / DISTINCT_BUCKET_MS, nowMs / DISTINCT_BUCKET_MS, BUCKETS)
    ensures IpSays(IpAfter(state, a, nowMs), IpFailures(past, a.ip), IpEntries(past, a.ip), nowMs)
  {
    var early, now := clockMs / DISTINCT_BUCKET_MS, nowMs / DISTINCT_BUCKET_MS;
    CounterAdd(IpFails(state), IpFailures(past, a.ip), a.timestampMs / DISTINCT_BUCKET_MS, early, now);
    MembersRead(IpUsers(state), IpEntries(past, a.ip), early, nowMs);
    TooOldForBucket(IpUsers(state), a.user, a.timestampMs, nowMs);
  }

  lemma IpReadAnswers(state: Option<IpState>, past: seq<Op>, a: Attempt, clockMs: nat, nowMs: nat)
    requires IpReflects(state, past, a.ip, clockMs) && clockMs <= nowMs && !Touches(a, nowMs, DISTINCT_WINDOW_MS)
    ensures IpSays(IpAfter(state, a, nowMs), IpFailures(past, a.ip), IpEntries(past, a.ip), nowMs)
  {
    var early, now := clockMs / DISTINCT_BUCKET_MS, nowMs / DISTINCT_BUCKET_MS;
    CounterRead(IpFails(state), IpFailures(past, a.ip), early, now);
    MembersRead(IpUsers(state), IpEntries(past, a.ip), early, nowMs);
    assert state.None? ==> Refresh(NoMembers(), nowMs).seen == map[];
  }

  lemma IpAnswers(state: Option<IpState>, past: seq<Op>, a: Attempt, clockMs: nat, nowMs: nat)
    requires IpReflects(state, past, a.ip, clockMs) && clockMs <= nowMs && Roomy(past + [IpPart(a, nowMs)])
    ensures var op := IpPart(a, nowMs);
      IpSays(IpAfter(state, a, nowMs), IpFailures(past + [op], a.ip), IpEntries(past + [op], a.ip), nowMs)
  {
    OneMore(past, IpPart(a, nowMs), a.ip);
    if IpFailure(IpPart(a, nowMs), a.ip) {
      IpCountedAnswers(state, past, a, clockMs, nowMs);
    } else {
      assert IpFailures(past, a.ip) + [] == IpFailures(past, a.ip) &&
        IpEntries(past, a.ip) + [] == IpEntries(past, a.ip);
      if Touches(a, nowMs, DISTINCT_WINDOW_MS) {
        IpTooOldAnswers(state, past, a, clockMs, nowMs);
      } else {
        IpReadAnswers(state, past, a, clockMs, nowMs);
      }
    }
  }

  lemma DeviceAnswers(state: Option<DeviceState>, past: seq<Op>, a: Attempt, clockMs: nat, nowMs: nat)
    requires DeviceReflects(state, past, a.device, clockMs) && clockMs <= nowMs && Roomy(past + [DevicePart(a, nowMs)])
    ensures var op := DevicePart(a, nowMs);
      DeviceReflects(DeviceAfter(state, a, nowMs), past + [op], a.device, nowMs) &&
      DeviceAnswer(DeviceCount(DeviceAfter(state, a, nowMs))) == Expected(past + [op])
  {
    var early, now := clockMs / DISTINCT_BUCKET_MS, nowMs / DISTINCT_BUCKET_MS;
    var entries := DeviceEntries(past, a.device);
    OneMore(past, DevicePart(a, nowMs), a.device);
    if DeviceEntry(DevicePart(a, nowMs), a.device) != [] {
      var e := D.Entry(a.timestampMs / DISTINCT_BUCKET_MS, a.user);
      MembersAdd(Accounts(state), entries, e, a.timestampMs, early, nowMs);
      MembersRead(CountMember(Accounts(state), a.user, a.timestampMs, nowMs), entries + [e], now, nowMs);
    } else {
      assert entries + [] == entries;
      MembersRead(Accounts(state), entries, early, nowMs);
      TooOldForBucket(Accounts(state), a.user, a.timestampMs, nowMs);
    }
  }

  /* The whole store. */

  ghost predicate StoreReflects(s: Store, past: seq<Op>, clockMs: nat) {
    forall k: string ::
      UserReflects(Get(s.users, k), past, k, clockMs) && IpReflects(Get(s.ips, k), past, k, clockMs) &&
      DeviceReflects(Get(s.devices, k), past, k, clockMs)
  }

  // A step that says nothing about a key leaves its history and its state as they were.
  lemma Elsewhere(s: Store, past: seq<Op>, op: Op, k: string, clockMs: nat)
    requires StoreReflects(s, past, clockMs) && clockMs <= op.nowMs
    ensures !(op.UserPart? && op.attempt.user == k) ==> UserReflects(Get(s.users, k), past + [op], k, op.nowMs)
    ensures !(op.IpPart? && op.attempt.ip == k) ==> IpReflects(Get(s.ips, k), past + [op], k, op.nowMs)
    ensures !(op.DevicePart? && op.attempt.device == k) ==> DeviceReflects(Get(s.devices, k), past + [op], k, op.nowMs)
  {
    assert UserReflects(Get(s.users, k), past, k, clockMs);
    OneMore(past, op, k);
    assert UserFailures(past, k) + [] == UserFailures(past, k) && IpFailures(past, k) + [] == IpFailures(past, k);
    assert IpEntries(past, k) + [] == IpEntries(past, k) && DeviceEntries(past, k) + [] == DeviceEntries(past, k);
    ReflectsLater(Fails(Get(s.users, k)), UserFailures(past, k), clockMs / USER_BUCKET_MS, op.nowMs / USER_BUCKET_MS);
    ReflectsLater(IpFails(Get(s.ips, k)), IpFailures(past, k), clockMs / DISTINCT_BUCKET_MS,
      op.nowMs / DISTINCT_BUCKET_MS);
    MembersRead(IpUsers(Get(s.ips, k)), IpEntries(past, k), clockMs / DISTINCT_BUCKET_MS, op.nowMs);
    MembersRead(Accounts(Get(s.devices, k)), DeviceEntries(past, k), clockMs / DISTINCT_BUCKET_MS, op.nowMs);
  }

  lemma LoginAnswers(s: Store, past: seq<Op>, op: Op, c: Config, clockMs: nat)
    requires StoreReflects(s, past, clockMs) && clockMs <= op.nowMs && !Reclaims(op) && Roomy(past + [op])
    ensures StoreReflects(Step(s, op, c).0, past + [op], op.nowMs) && Step(s, op, c).1 == Expected(past + [op])
  {
    var s', more := Step(s, op, c).0, past + [op];
    assert more[|more| - 1] == op;
    match op
    case UserPart(a, now) =>
      assert UserReflects(Get(s.users, a.user), past, a.user, clockMs);
      UserAnswers(Get(s.users, a.user), past, a, clockMs, now);
      forall k: string
        ensures UserReflects(Get(s'.users, k), more, k, now) && IpReflects(Get(s'.ips, k), more, k, now) &&
                DeviceReflects(Get(s'.devices, k), more, k, now)
      {
        Elsewhere(s, past, op, k, clockMs);
        GetPut(s.users, a.user, UserAfter(Get(s.users, a.user), a, now), k);
      }
    case IpPart(a, now) =>
      assert IpReflects(Get(s.ips, a.ip), past, a.ip, clockMs);
      IpAnswers(Get(s.ips, a.ip), past, a, clockMs, now);
      forall k: string
        ensures UserReflects(Get(s'.users, k), more, k, now) && IpReflects(Get(s'.ips, k), more, k, now) &&
                DeviceReflects(Get(s'.devices, k), more, k, now)
      {
        Elsewhere(s, past, op, k, clockMs);
        GetPut(s.ips, a.ip, IpAfter(Get(s.ips, a.ip), a, now), k);
      }
    case DevicePart(a, now) =>
      assert DeviceReflects(Get(s.devices, a.device), past, a.device, clockMs);
      DeviceAnswers(Get(s.devices, a.device), past, a, clockMs, now);
      forall k: string
        ensures UserReflects(Get(s'.users, k), more, k, now) && IpReflects(Get(s'.ips, k), more, k, now) &&
                DeviceReflects(Get(s'.devices, k), more, k, now)
      {
        Elsewhere(s, past, op, k, clockMs);
        GetPut(s.devices, a.device, DeviceAfter(Get(s.devices, a.device), a, now), k);
      }
  }

  /* The cap on members. */

  predicate Capped(v: D.View) {
    |v.seen| <= DISTINCT_MAX_MEMBERS
  }

  lemma CapKept(v: D.View, member: string, eventMs: nat, nowMs: nat)
    requires Capped(v)
    ensures Capped(Refresh(v, nowMs)) && Capped(Refresh(CountMember(v, member, eventMs, nowMs), nowMs))
  {
    var x := Refresh(v, nowMs);
    D.KeysShrink(x.seen, v.seen);
    var bucket := eventMs / DISTINCT_BUCKET_MS;
    D.KeysGrow(x.seen, member, if member in x.seen then Max(x.seen[member], bucket) else bucket);
    D.KeysShrink(Refresh(CountMember(v, member, eventMs, nowMs), nowMs).seen,
      CountMember(v, member, eventMs, nowMs).seen);
  }

  ghost predicate StoreCapped(s: Store) {
    forall k: string :: Capped(IpUsers(Get(s.ips, k))) && Capped(Accounts(Get(s.devices, k)))
  }

  lemma LoginCapped(s: Store, op: Op, c: Config)
    requires StoreCapped(s) && !Reclaims(op)
    ensures StoreCapped(Step(s, op, c).0)
    ensures Step(s, op, c).1.IpAnswer? ==> Step(s, op, c).1.users <= DISTINCT_MAX_MEMBERS
    ensures Step(s, op, c).1.DeviceAnswer? ==> Step(s, op, c).1.accounts <= DISTINCT_MAX_MEMBERS
  {
    var s', a, now := Step(s, op, c).0, op.attempt, op.nowMs;
    assert Capped(IpUsers(Get(s.ips, a.ip))) && Capped(Accounts(Get(s.devices, a.device)));
    CapKept(IpUsers(Get(s.ips, a.ip)), a.user, a.timestampMs, now);
    CapKept(Accounts(Get(s.devices, a.device)), a.user, a.timestampMs, now);
    forall k: string ensures Capped(IpUsers(Get(s'.ips, k))) && Capped(Accounts(Get(s'.devices, k))) {
      assert Capped(IpUsers(Get(s.ips, k))) && Capped(Accounts(Get(s.devices, k)));
      GetPut(s.ips, a.ip, IpAfter(Get(s.ips, a.ip), a, now), k);
      GetPut(s.devices, a.device, DeviceAfter(Get(s.devices, a.device), a, now), k);
    }
  }

  lemma ReclaimPasses(s: Store, past: seq<Op>, op: Op, clockMs: nat)
    requires StoreReflects(s, past, clockMs) && clockMs <= op.nowMs && Reclaims(op)
    ensures StoreReflects(s, past + [op], op.nowMs) && Expected(past + [op]) == Silent && Roomy(past + [op])
  {
    var more := past + [op];
    assert more[|more| - 1] == op;
    forall k: string
      ensures UserReflects(Get(s.users, k), more, k, op.nowMs) && IpReflects(Get(s.ips, k), more, k, op.nowMs) &&
              DeviceReflects(Get(s.devices, k), more, k, op.nowMs)
    {
      Elsewhere(s, past, op, k, clockMs);
    }
  }

  lemma OverTheCap(s: Store, past: seq<Op>, op: Op, c: Config)
    requires StoreCapped(s) && !Reclaims(op) && !Roomy(past + [op])
    ensures Step(s, op, c).1 != Expected(past + [op])
  {
    LoginCapped(s, op, c);
    assert (past + [op])[|past|] == op;
  }

  lemma {:induction false} LazyStoreCounts(s: Store, past: seq<Op>, ops: seq<Op>, c: Config, clockMs: nat)
    requires StoreReflects(s, past, clockMs) && StoreCapped(s) && ClockFrom(ops, clockMs)
    ensures LazyAnswers(s, ops, c) == ExpectedAll(past, ops) <==> RoomyAll(past, ops)
    decreases |ops|
  {
    if ops != [] {
      var op, more := ops[0], past + [ops[0]];
      if Reclaims(op) {
        ReclaimPasses(s, past, op, clockMs);
        LazyStoreCounts(s, more, ops[1..], c, op.nowMs);
        SameTails(Silent, LazyAnswers(s, ops[1..], c), ExpectedAll(more, ops[1..]));
      } else if Roomy(more) {
        LoginAnswers(s, past, op, c, clockMs);
        LoginCapped(s, op, c);
        var s' := Step(s, op, c).0;
        LazyStoreCounts(s', more, ops[1..], c, op.nowMs);
        SameTails(Expected(more), LazyAnswers(s', ops[1..], c), ExpectedAll(more, ops[1..]));
      } else {
        OverTheCap(s, past, op, c);
        assert LazyAnswers(s, ops, c)[0] != ExpectedAll(past, ops)[0];
      }
    }
  }

  lemma SameTails(x: Answer, a: seq<Answer>, b: seq<Answer>)
    ensures [x] + a == [x] + b <==> a == b
  {
    assert ([x] + a)[1..] == a && ([x] + b)[1..] == b;
  }

  /** Every answer is a count over the past: the user's failures, the address's failures and
      the users behind them, the users of the device, each within the window that ends at the
      moment of the login. So for every interleaving of logins and reclaim passes under a
      clock that never runs back, exactly as long as no window outgrows its cap on members. */
  lemma AnswersCountThePast(ops: seq<Op>, c: Config)
    requires ValidConfig(c) && ClockFrom(ops, 0)
    ensures Answers(EmptyStore(), ops, c) == ExpectedAll([], ops) <==> RoomyAll([], ops)
  {
    ReclaimingIsInvisible(ops, c);
    LazyStoreCounts(EmptyStore(), [], ops, c, 0);
  }

  /* A history that outgrows the cap. */

  function Name(i: nat): string {
    seq(i, _ => 'x')
  }

  // n users, one after the other, on one device.
  function Crowd(n: nat): seq<Op> {
    if n == 0 then [] else Crowd(n - 1) + [DevicePart(Attempt(Name(n), "i", "d", 0, false), 0)]
  }

  lemma OnePresentMore(before: seq<D.Entry>, e: D.Entry)
    ensures Present(before + [e], 0) == Present(before, 0) + {e.member}
  {
    var entries := before + [e];
    forall m | m in Present(before, 0) ensures m in Present(entries, 0) {
      var x :| x in before && x.bucket >= D.MinValid(0, BUCKETS) && x.member == m;
      assert x in entries;
    }
    assert e in entries;
  }

  lemma {:induction false} CrowdIsPresent(n: nat)
    ensures |Present(DeviceEntries(Crowd(n), "d"), 0)| == n
    ensures forall m :: m in Present(DeviceEntries(Crowd(n), "d"), 0) ==> |m| <= n
    decreases n
  {
    hide Crowd, DeviceEntries, Present, Name;
    if n > 0 {
      CrowdIsPresent(n - 1);
      CrowdGrows(n);
      OnePresentMore(DeviceEntries(Crowd(n - 1), "d"), D.Entry(0, Name(n)));
      NameIsLong(n);
    } else {
      NobodyIsPresent();
    }
  }

  lemma NameIsLong(n: nat)
    ensures |Name(n)| == n
  {}

  lemma NobodyIsPresent()
    ensures Present(DeviceEntries(Crowd(0), "d"), 0) == {}
  {}

  lemma CrowdGrows(n: nat)
    requires n > 0
    ensures DeviceEntries(Crowd(n), "d") == DeviceEntries(Crowd(n - 1), "d") + [D.Entry(0, Name(n))]
  {
    OneMore(Crowd(n - 1), DevicePart(Attempt(Name(n), "i", "d", 0, false), 0), "d");
  }

  lemma {:induction false} CrowdIsSteady(n: nat)
    ensures ClockFrom(Crowd(n), 0) && forall op :: op in Crowd(n) ==> op.nowMs == 0
    decreases n
  {
    if n > 0 {
      CrowdIsSteady(n - 1);
      SteadyOn(Crowd(n - 1), DevicePart(Attempt(Name(n), "i", "d", 0, false), 0));
    }
  }

  lemma {:induction false} SteadyOn(ops: seq<Op>, last: Op)
    requires ClockFrom(ops, 0) && last.nowMs == 0 && forall op :: op in ops ==> op.nowMs == 0
    ensures ClockFrom(ops + [last], 0)
    decreases |ops|
  {
    if ops == [] {
      assert ops + [last] == [last] && [last][1..] == [];
    } else {
      assert (ops + [last])[1..] == ops[1..] + [last];
      SteadyOn(ops[1..], last);
    }
  }

  lemma {:induction false} RoomyAtTheEnd(past: seq<Op>, ops: seq<Op>)
    requires RoomyAll(past, ops) && ops != []
    ensures Roomy(past + ops)
    decreases |ops|
  {
    assert past + ops == (past + [ops[0]]) + ops[1..];
    if |ops| == 1 {
      assert past + ops == past + [ops[0]];
    } else {
      RoomyAtTheEnd(past + [ops[0]], ops[1..]);
    }
  }

  /** One user more than the cap on one device, and the answers are no longer the counts. */
  lemma CapExample(c: Config)
    requires ValidConfig(c)
    ensures ClockFrom(Crowd(DISTINCT_MAX_MEMBERS + 1), 0) && !RoomyAll([], Crowd(DISTINCT_MAX_MEMBERS + 1))
    ensures Answers(EmptyStore(), Crowd(DISTINCT_MAX_MEMBERS + 1), c) !=
      ExpectedAll([], Crowd(DISTINCT_MAX_MEMBERS + 1))
  {
    var n := DISTINCT_MAX_MEMBERS + 1;
    var ops := Crowd(n);
    CrowdIsPresent(n);
    CrowdIsSteady(n);
    assert ops[|ops| - 1] == DevicePart(Attempt(Name(n), "i", "d", 0, false), 0);
    assert !Roomy(ops);
    if RoomyAll([], ops) {
      RoomyAtTheEnd([], ops);
      assert [] + ops == ops;
    }
    AnswersCountThePast(ops, c);
  }
}
