/** The login feature store: per-user, per-address and per-device windows that are created
    on demand and reclaimed when cold. A login takes one shard lock at a time, so its three
    parts and the reclaiming of any set of keys interleave freely. */
module FeatureStore {
  import opened Wrappers
  import C = SlidingCounter
  import D = SlidingDistinct

  const BUCKETS: nat := 60
  const USER_WINDOW_MS: nat := 300_000
  const USER_BUCKET_MS: nat := 5_000
  const DISTINCT_WINDOW_MS: nat := 600_000
  const DISTINCT_BUCKET_MS: nat := 10_000
  const DISTINCT_MAX_MEMBERS: nat := 5_000

  datatype Attempt = Attempt(user: string, ip: string, device: string, timestampMs: nat, failed: bool)

  datatype UserState = UserState(fails: seq<C.Event>, lastSeenMs: nat)
  datatype IpState = IpState(users: D.View, fails: seq<C.Event>, lastSeenMs: nat)
  datatype DeviceState = DeviceState(accounts: D.View, lastSeenMs: nat)

  datatype Store = Store(users: map<string, UserState>, ips: map<string, IpState>, devices: map<string, DeviceState>)

  datatype Config = Config(userTtlMs: nat, ipTtlMs: nat, deviceTtlMs: nat)

  predicate ValidConfig(c: Config) {
    c.userTtlMs >= USER_WINDOW_MS && c.ipTtlMs >= DISTINCT_WINDOW_MS && c.deviceTtlMs >= DISTINCT_WINDOW_MS
  }

  predicate WithinWindow(eventMs: nat, nowMs: nat, windowMs: nat) {
    eventMs <= nowMs && nowMs - eventMs < windowMs
  }

  predicate Cold(lastSeenMs: nat, nowMs: nat, ttlMs: nat) {
    nowMs >= lastSeenMs && nowMs - lastSeenMs >= ttlMs
  }

  function NoMembers(): D.View {
    D.View(map[], false, 0)
  }

  function CountMember(v: D.View, member: string, eventMs: nat, nowMs: nat): D.View {
    D.Add(v, member, eventMs / DISTINCT_BUCKET_MS, nowMs / DISTINCT_BUCKET_MS, BUCKETS, DISTINCT_MAX_MEMBERS)
  }

  function Refresh(v: D.View, nowMs: nat): D.View {
    D.Expire(v, nowMs / DISTINCT_BUCKET_MS, BUCKETS)
  }

  /* The three parts of a login. A key that is absent and may not be created answers zero. */

  function UserAfter(state: Option<UserState>, a: Attempt, nowMs: nat): Option<UserState> {
    var now := nowMs / USER_BUCKET_MS;
    if a.failed && WithinWindow(a.timestampMs, nowMs, USER_WINDOW_MS) then
      var fails := if state.Some? then state.value.fails else [];
      Some(UserState(C.Keep(C.Add(fails, a.timestampMs / USER_BUCKET_MS, now, BUCKETS, 1), now, BUCKETS), nowMs))
    else if state.Some? then Some(state.value.(fails := C.Keep(state.value.fails, now, BUCKETS)))
    else None
  }

  function UserCount(state: Option<UserState>): nat {
    if state.Some? then C.Sum(state.value.fails) % C.WORD32 else 0
  }

  function IpAfter(state: Option<IpState>, a: Attempt, nowMs: nat): Option<IpState> {
    var now := nowMs / DISTINCT_BUCKET_MS;
    if a.failed && WithinWindow(a.timestampMs, nowMs, DISTINCT_WINDOW_MS) then
      var known := if state.Some? then state.value else IpState(NoMembers(), [], 0);
      Some(IpState(
        Refresh(CountMember(known.users, a.user, a.timestampMs, nowMs), nowMs),
        C.Keep(C.Add(known.fails, a.timestampMs / DISTINCT_BUCKET_MS, now, BUCKETS, 1), now, BUCKETS),
        nowMs))
    else if state.Some? then
      Some(state.value.(users := Refresh(state.value.users, nowMs), fails := C.Keep(state.value.fails, now, BUCKETS)))
    else None
  }

  function IpCounts(state: Option<IpState>): (nat, nat) {
    if state.Some? then (|state.value.users.seen|, C.Sum(state.value.fails) % C.WORD32) else (0, 0)
  }

  function DeviceAfter(state: Option<DeviceState>, a: Attempt, nowMs: nat): Option<DeviceState> {
    if WithinWindow(a.timestampMs, nowMs, DISTINCT_WINDOW_MS) then
      var accounts := if state.Some? then state.value.accounts else NoMembers();
      Some(DeviceState(Refresh(CountMember(accounts, a.user, a.timestampMs, nowMs), nowMs), nowMs))
    else if state.Some? then Some(state.value.(accounts := Refresh(state.value.accounts, nowMs)))
    else None
  }

  function DeviceCount(state: Option<DeviceState>): nat {
    if state.Some? then |state.value.accounts.seen| else 0
  }

  function Get<T>(m: map<string, T>, k: string): Option<T> {
    if k in m then Some(m[k]) else None
  }

  function Put<T>(m: map<string, T>, k: string, v: Option<T>): map<string, T> {
    if v.Some? then m[k := v.value] else m
  }

  /* Runs. */

  datatype Op =
    | UserPart(attempt: Attempt, nowMs: nat)
    | IpPart(attempt: Attempt, nowMs: nat)
    | DevicePart(attempt: Attempt, nowMs: nat)
    | ReclaimUsers(keys: set<string>, nowMs: nat)
    | ReclaimIps(keys: set<string>, nowMs: nat)
    | ReclaimDevices(keys: set<string>, nowMs: nat)

  datatype Answer = Silent | UserAnswer(fails: nat) | IpAnswer(users: nat, fails: nat) | DeviceAnswer(accounts: nat)

  function Step(s: Store, op: Op, c: Config): (Store, Answer) {
    match op
    case UserPart(a, now) =>
      var after := UserAfter(Get(s.users, a.user), a, now);
      (s.(users := Put(s.users, a.user, after)), UserAnswer(UserCount(after)))
    case IpPart(a, now) =>
      var after := IpAfter(Get(s.ips, a.ip), a, now);
      (s.(ips := Put(s.ips, a.ip, after)), IpAnswer(IpCounts(after).0, IpCounts(after).1))
    case DevicePart(a, now) =>
      var after := DeviceAfter(Get(s.devices, a.device), a, now);
      (s.(devices := Put(s.devices, a.device, after)), DeviceAnswer(DeviceCount(after)))
    case ReclaimUsers(keys, now) =>
      (s.(users := map k | k in s.users && !(k in keys && Cold(s.users[k].lastSeenMs, now, c.userTtlMs)) ::
            s.users[k]), Silent)
    case ReclaimIps(keys, now) =>
      (s.(ips := map k | k in s.ips && !(k in keys && Cold(s.ips[k].lastSeenMs, now, c.ipTtlMs)) :: s.ips[k]), Silent)
    case ReclaimDevices(keys, now) =>
      (s.(devices := map k | k in s.devices && !(k in keys && Cold(s.devices[k].lastSeenMs, now, c.deviceTtlMs)) ::
            s.devices[k]), Silent)
  }

  predicate Reclaims(op: Op) {
    op.ReclaimUsers? || op.ReclaimIps? || op.ReclaimDevices?
  }

  function Answers(s: Store, ops: seq<Op>, c: Config): seq<Answer>
    decreases |ops|
  {
    if ops == [] then [] else var (s', answer) := Step(s, ops[0], c); [answer] + Answers(s', ops[1..], c)
  }

  // The store that never reclaims.
  function LazyAnswers(s: Store, ops: seq<Op>, c: Config): seq<Answer>
    decreases |ops|
  {
    if ops == [] then []
    else if Reclaims(ops[0]) then [Silent] + LazyAnswers(s, ops[1..], c)
    else var (s', answer) := Step(s, ops[0], c); [answer] + LazyAnswers(s', ops[1..], c)
  }

  predicate ClockFrom(ops: seq<Op>, clockMs: nat)
    decreases |ops|
  {
    ops == [] || (ops[0].nowMs >= clockMs && ClockFrom(ops[1..], ops[0].nowMs))
  }

  /* Counters: only what is in the window of the clock matters. */

  predicate Aged(fails: seq<C.Event>, lastSeen: nat) {
    forall e :: e in fails ==> e.bucket <= lastSeen
  }

  lemma KeepAgrees(a: seq<C.Event>, b: seq<C.Event>, early: nat, late: nat)
    requires early <= late && Aged(a, early) && Aged(b, early) && C.Keep(a, early, BUCKETS) == C.Keep(b, early, BUCKETS)
    ensures C.Keep(a, late, BUCKETS) == C.Keep(b, late, BUCKETS)
  {
    C.KeepKeep(a, early, late, BUCKETS);
    C.KeepKeep(b, early, late, BUCKETS);
  }

  lemma ColdKeepsNothing(fails: seq<C.Event>, lastSeen: nat, now: nat)
    requires Aged(fails, lastSeen) && now >= lastSeen + BUCKETS
    ensures C.Keep(fails, now, BUCKETS) == []
  {
    if C.Keep(fails, now, BUCKETS) != [] {
      var e := C.Keep(fails, now, BUCKETS)[0];
      C.KeepMembers(fails, now, BUCKETS, e);
      assert false;
    }
  }

  lemma KeptIsAged(fails: seq<C.Event>, now: nat)
    ensures Aged(C.Keep(fails, now, BUCKETS), now)
    ensures C.Keep(C.Keep(fails, now, BUCKETS), now, BUCKETS) == C.Keep(fails, now, BUCKETS)
  {
    forall e | e in C.Keep(fails, now, BUCKETS) ensures C.InWindow(e.bucket, now, BUCKETS) && e in fails {
      C.KeepMembers(fails, now, BUCKETS, e);
    }
    C.KeepAll(C.Keep(fails, now, BUCKETS), now, BUCKETS);
  }

  lemma KeptStaysAged(fails: seq<C.Event>, lastSeen: nat, now: nat)
    requires Aged(fails, lastSeen)
    ensures Aged(C.Keep(fails, now, BUCKETS), lastSeen)
  {
    forall e | e in C.Keep(fails, now, BUCKETS) ensures e.bucket <= lastSeen { C.KeepMembers(fails, now, BUCKETS, e); }
  }

  /* Members: the same for the distinct windows. */

  predicate MembersAged(v: D.View, lastSeen: nat) {
    forall m :: m in v.seen ==> v.seen[m] <= lastSeen
  }

  predicate MembersAlike(a: D.View, b: D.View, now: nat) {
    (a.started ==> a.last <= now) && (b.started ==> b.last <= now) &&
    D.Since(a.seen, D.MinValid(now, BUCKETS)) == D.Since(b.seen, D.MinValid(now, BUCKETS))
  }

  lemma SinceSince(seen: map<string, nat>, early: nat, late: nat)
    requires early <= late
    ensures D.Since(D.Since(seen, early), late) == D.Since(seen, late)
  {}

  // Once the clock has moved on, windows that agreed become the same.
  lemma ExpireAlike(a: D.View, b: D.View, early: nat, late: nat)
    requires MembersAlike(a, b, early) && early <= late
    ensures D.Expire(a, late, BUCKETS) == D.Expire(b, late, BUCKETS) && MembersAlike(a, b, late)
  {
    SinceSince(a.seen, D.MinValid(early, BUCKETS), D.MinValid(late, BUCKETS));
    SinceSince(b.seen, D.MinValid(early, BUCKETS), D.MinValid(late, BUCKETS));
  }

  lemma ColdHasNoMembers(v: D.View, lastSeen: nat, now: nat)
    requires MembersAged(v, lastSeen) && now >= lastSeen + BUCKETS
    ensures D.Since(v.seen, D.MinValid(now, BUCKETS)) == map[]
  {}

  /* One user, one address, one device. */

  function Fails(state: Option<UserState>): seq<C.Event> {
    if state.Some? then state.value.fails else []
  }

  predicate UserOk(state: Option<UserState>, clockMs: nat) {
    state.Some? ==>
      state.value.lastSeenMs <= clockMs && Aged(state.value.fails, state.value.lastSeenMs / USER_BUCKET_MS)
  }

  predicate UserAlike(a: Option<UserState>, b: Option<UserState>, clockMs: nat) {
    UserOk(a, clockMs) && UserOk(b, clockMs) &&
    C.Keep(Fails(a), clockMs / USER_BUCKET_MS, BUCKETS) == C.Keep(Fails(b), clockMs / USER_BUCKET_MS, BUCKETS)
  }

  lemma UserLater(a: Option<UserState>, b: Option<UserState>, clockMs: nat, nowMs: nat)
    requires UserAlike(a, b, clockMs) && clockMs <= nowMs
    ensures UserAlike(a, b, nowMs)
  {
    KeepAgrees(Fails(a), Fails(b), clockMs / USER_BUCKET_MS, nowMs / USER_BUCKET_MS);
  }

  lemma UserStep(a: Option<UserState>, b: Option<UserState>, x: Attempt, clockMs: nat, nowMs: nat)
    requires UserAlike(a, b, clockMs) && clockMs <= nowMs
    ensures UserAlike(UserAfter(a, x, nowMs), UserAfter(b, x, nowMs), nowMs)
    ensures UserCount(UserAfter(a, x, nowMs)) == UserCount(UserAfter(b, x, nowMs))
  {
    var now := nowMs / USER_BUCKET_MS;
    UserLater(a, b, clockMs, nowMs);
    KeptIsAged(Fails(a), now);
    KeptIsAged(Fails(b), now);
    KeptIsAged(C.Add(Fails(a), x.timestampMs / USER_BUCKET_MS, now, BUCKETS, 1), now);
    if a.Some? { KeptStaysAged(a.value.fails, a.value.lastSeenMs / USER_BUCKET_MS, now); }
    if b.Some? { KeptStaysAged(b.value.fails, b.value.lastSeenMs / USER_BUCKET_MS, now); }
  }

  lemma UserForgotten(a: Option<UserState>, b: Option<UserState>, clockMs: nat, nowMs: nat, ttlMs: nat)
    requires UserAlike(a, b, clockMs) && clockMs <= nowMs && a.Some? && ttlMs >= USER_WINDOW_MS
    requires Cold(a.value.lastSeenMs, nowMs, ttlMs)
    ensures UserAlike(None, b, nowMs)
  {
    UserLater(a, b, clockMs, nowMs);
    ColdKeepsNothing(a.value.fails, a.value.lastSeenMs / USER_BUCKET_MS, nowMs / USER_BUCKET_MS);
  }

  function IpFails(state: Option<IpState>): seq<C.Event> {
    if state.Some? then state.value.fails else []
  }

  function IpUsers(state: Option<IpState>): D.View {
    if state.Some? then state.value.users else NoMembers()
  }

  predicate IpOk(state: Option<IpState>, clockMs: nat) {
    state.Some? ==>
      state.value.lastSeenMs <= clockMs &&
      Aged(state.value.fails, state.value.lastSeenMs / DISTINCT_BUCKET_MS) &&
      MembersAged(state.value.users, state.value.lastSeenMs / DISTINCT_BUCKET_MS)
  }

  predicate IpAlike(a: Option<IpState>, b: Option<IpState>, clockMs: nat) {
    IpOk(a, clockMs) && IpOk(b, clockMs) &&
    C.Keep(IpFails(a), clockMs / DISTINCT_BUCKET_MS, BUCKETS) ==
      C.Keep(IpFails(b), clockMs / DISTINCT_BUCKET_MS, BUCKETS) &&
    MembersAlike(IpUsers(a), IpUsers(b), clockMs / DISTINCT_BUCKET_MS)
  }

  lemma IpLater(a: Option<IpState>, b: Option<IpState>, clockMs: nat, nowMs: nat)
    requires IpAlike(a, b, clockMs) && clockMs <= nowMs
    ensures IpAlike(a, b, nowMs)
    ensures Refresh(IpUsers(a), nowMs) == Refresh(IpUsers(b), nowMs)
  {
    KeepAgrees(IpFails(a), IpFails(b), clockMs / DISTINCT_BUCKET_MS, nowMs / DISTINCT_BUCKET_MS);
    ExpireAlike(IpUsers(a), IpUsers(b), clockMs / DISTINCT_BUCKET_MS, nowMs / DISTINCT_BUCKET_MS);
  }

  lemma IpTouched(a: Option<IpState>, b: Option<IpState>, x: Attempt, clockMs: nat, nowMs: nat)
    requires IpAlike(a, b, clockMs) && clockMs <= nowMs && x.failed &&
      WithinWindow(x.timestampMs, nowMs, DISTINCT_WINDOW_MS)
    ensures IpAfter(a, x, nowMs) == IpAfter(b, x, nowMs) && IpOk(IpAfter(a, x, nowMs), nowMs)
    ensures MembersAlike(IpUsers(IpAfter(a, x, nowMs)), IpUsers(IpAfter(a, x, nowMs)), nowMs / DISTINCT_BUCKET_MS)
  {
    IpLater(a, b, clockMs, nowMs);
    var now := nowMs / DISTINCT_BUCKET_MS;
    KeptIsAged(C.Add(IpFails(a), x.timestampMs / DISTINCT_BUCKET_MS, now, BUCKETS, 1), now);
    MembersCounted(IpUsers(a), x.user, x.timestampMs, nowMs);
  }

  lemma MembersCounted(v: D.View, member: string, eventMs: nat, nowMs: nat)
    requires forall m :: m in v.seen ==> v.seen[m] <= nowMs / DISTINCT_BUCKET_MS
    ensures var v' := Refresh(CountMember(v, member, eventMs, nowMs), nowMs);
      MembersAged(v', nowMs / DISTINCT_BUCKET_MS) && v'.last == nowMs / DISTINCT_BUCKET_MS
  {}

  lemma IpUntouched(a: Option<IpState>, b: Option<IpState>, x: Attempt, clockMs: nat, nowMs: nat)
    requires IpAlike(a, b, clockMs) && clockMs <= nowMs &&
      !(x.failed && WithinWindow(x.timestampMs, nowMs, DISTINCT_WINDOW_MS))
    ensures IpAlike(IpAfter(a, x, nowMs), IpAfter(b, x, nowMs), nowMs)
    ensures IpCounts(IpAfter(a, x, nowMs)) == IpCounts(IpAfter(b, x, nowMs))
  {
    var now := nowMs / DISTINCT_BUCKET_MS;
    IpLater(a, b, clockMs, nowMs);
    KeptIsAged(IpFails(a), now);
    KeptIsAged(IpFails(b), now);
    if a.Some? { KeptStaysAged(a.value.fails, a.value.lastSeenMs / DISTINCT_BUCKET_MS, now); }
    if b.Some? { KeptStaysAged(b.value.fails, b.value.lastSeenMs / DISTINCT_BUCKET_MS, now); }
  }

  lemma IpStep(a: Option<IpState>, b: Option<IpState>, x: Attempt, clockMs: nat, nowMs: nat)
    requires IpAlike(a, b, clockMs) && clockMs <= nowMs
    ensures IpAlike(IpAfter(a, x, nowMs), IpAfter(b, x, nowMs), nowMs)
    ensures IpCounts(IpAfter(a, x, nowMs)) == IpCounts(IpAfter(b, x, nowMs))
  {
    if x.failed && WithinWindow(x.timestampMs, nowMs, DISTINCT_WINDOW_MS) {
      IpTouched(a, b, x, clockMs, nowMs);
    } else {
      IpUntouched(a, b, x, clockMs, nowMs);
    }
  }

  lemma IpForgotten(a: Option<IpState>, b: Option<IpState>, clockMs: nat, nowMs: nat, ttlMs: nat)
    requires IpAlike(a, b, clockMs) && clockMs <= nowMs && a.Some? && ttlMs >= DISTINCT_WINDOW_MS
    requires Cold(a.value.lastSeenMs, nowMs, ttlMs)
    ensures IpAlike(None, b, nowMs)
  {
    IpLater(a, b, clockMs, nowMs);
    ColdKeepsNothing(a.value.fails, a.value.lastSeenMs / DISTINCT_BUCKET_MS, nowMs / DISTINCT_BUCKET_MS);
    ColdHasNoMembers(a.value.users, a.value.lastSeenMs / DISTINCT_BUCKET_MS, nowMs / DISTINCT_BUCKET_MS);
  }

  function Accounts(state: Option<DeviceState>): D.View {
    if state.Some? then state.value.accounts else NoMembers()
  }

  predicate DeviceOk(state: Option<DeviceState>, clockMs: nat) {
    state.Some? ==>
      state.value.lastSeenMs <= clockMs &&
      MembersAged(state.value.accounts, state.value.lastSeenMs / DISTINCT_BUCKET_MS)
  }

  predicate DeviceAlike(a: Option<DeviceState>, b: Option<DeviceState>, clockMs: nat) {
    DeviceOk(a, clockMs) && DeviceOk(b, clockMs) && MembersAlike(Accounts(a), Accounts(b), clockMs / DISTINCT_BUCKET_MS)
  }

  lemma DeviceLater(a: Option<DeviceState>, b: Option<DeviceState>, clockMs: nat, nowMs: nat)
    requires DeviceAlike(a, b, clockMs) && clockMs <= nowMs
    ensures DeviceAlike(a, b, nowMs) && Refresh(Accounts(a), nowMs) == Refresh(Accounts(b), nowMs)
  {
    ExpireAlike(Accounts(a), Accounts(b), clockMs / DISTINCT_BUCKET_MS, nowMs / DISTINCT_BUCKET_MS);
  }

  lemma DeviceStep(a: Option<DeviceState>, b: Option<DeviceState>, x: Attempt, clockMs: nat, nowMs: nat)
    requires DeviceAlike(a, b, clockMs) && clockMs <= nowMs
    ensures DeviceAlike(DeviceAfter(a, x, nowMs), DeviceAfter(b, x, nowMs), nowMs)
    ensures DeviceCount(DeviceAfter(a, x, nowMs)) == DeviceCount(DeviceAfter(b, x, nowMs))
  {
    DeviceLater(a, b, clockMs, nowMs);
  }

  lemma DeviceForgotten(a: Option<DeviceState>, b: Option<DeviceState>, clockMs: nat, nowMs: nat, ttlMs: nat)
    requires DeviceAlike(a, b, clockMs) && clockMs <= nowMs && a.Some? && ttlMs >= DISTINCT_WINDOW_MS
    requires Cold(a.value.lastSeenMs, nowMs, ttlMs)
    ensures DeviceAlike(None, b, nowMs)
  {
    DeviceLater(a, b, clockMs, nowMs);
    ColdHasNoMembers(a.value.accounts, a.value.lastSeenMs / DISTINCT_BUCKET_MS, nowMs / DISTINCT_BUCKET_MS);
  }

  /* The whole store. */

  ghost predicate UsersAlike(a: map<string, UserState>, b: map<string, UserState>, clockMs: nat) {
    forall k: string :: UserAlike(Get(a, k), Get(b, k), clockMs)
  }

  ghost predicate IpsAlike(a: map<string, IpState>, b: map<string, IpState>, clockMs: nat) {
    forall k: string :: IpAlike(Get(a, k), Get(b, k), clockMs)
  }

  ghost predicate DevicesAlike(a: map<string, DeviceState>, b: map<string, DeviceState>, clockMs: nat) {
    forall k: string :: DeviceAlike(Get(a, k), Get(b, k), clockMs)
  }

  ghost predicate Alike(a: Store, b: Store, clockMs: nat) {
    UsersAlike(a.users, b.users, clockMs) && IpsAlike(a.ips, b.ips, clockMs) &&
    DevicesAlike(a.devices, b.devices, clockMs)
  }

  lemma AlikeLater(a: Store, b: Store, clockMs: nat, nowMs: nat)
    requires Alike(a, b, clockMs) && clockMs <= nowMs
    ensures Alike(a, b, nowMs)
  {
    forall k: string ensures UserAlike(Get(a.users, k), Get(b.users, k), nowMs) {
      UserLater(Get(a.users, k), Get(b.users, k), clockMs, nowMs);
    }
    forall k: string ensures IpAlike(Get(a.ips, k), Get(b.ips, k), nowMs) {
      IpLater(Get(a.ips, k), Get(b.ips, k), clockMs, nowMs);
    }
    forall k: string ensures DeviceAlike(Get(a.devices, k), Get(b.devices, k), nowMs) {
      DeviceLater(Get(a.devices, k), Get(b.devices, k), clockMs, nowMs);
    }
  }

  lemma GetPut<T>(m: map<string, T>, k: string, v: Option<T>, j: string)
    requires v.None? ==> k !in m
    ensures Get(Put(m, k, v), j) == if j == k then v else Get(m, j)
  {}

  lemma LoginAlike(a: Store, b: Store, op: Op, c: Config, clockMs: nat)
    requires Alike(a, b, clockMs) && !Reclaims(op) && clockMs <= op.nowMs
    ensures Alike(Step(a, op, c).0, Step(b, op, c).0, op.nowMs) && Step(a, op, c).1 == Step(b, op, c).1
  {
    AlikeLater(a, b, clockMs, op.nowMs);
    var a', b' := Step(a, op, c).0, Step(b, op, c).0;
    match op
    case UserPart(x, now) =>
      UserStep(Get(a.users, x.user), Get(b.users, x.user), x, clockMs, now);
      forall k: string ensures UserAlike(Get(a'.users, k), Get(b'.users, k), now) {
        GetPut(a.users, x.user, UserAfter(Get(a.users, x.user), x, now), k);
        GetPut(b.users, x.user, UserAfter(Get(b.users, x.user), x, now), k);
      }
    case IpPart(x, now) =>
      IpStep(Get(a.ips, x.ip), Get(b.ips, x.ip), x, clockMs, now);
      forall k: string ensures IpAlike(Get(a'.ips, k), Get(b'.ips, k), now) {
        GetPut(a.ips, x.ip, IpAfter(Get(a.ips, x.ip), x, now), k);
        GetPut(b.ips, x.ip, IpAfter(Get(b.ips, x.ip), x, now), k);
      }
    case DevicePart(x, now) =>
      DeviceStep(Get(a.devices, x.device), Get(b.devices, x.device), x, clockMs, now);
      forall k: string ensures DeviceAlike(Get(a'.devices, k), Get(b'.devices, k), now) {
        GetPut(a.devices, x.device, DeviceAfter(Get(a.devices, x.device), x, now), k);
        GetPut(b.devices, x.device, DeviceAfter(Get(b.devices, x.device), x, now), k);
      }
  }

  lemma ReclaimAlike(a: Store, b: Store, op: Op, c: Config, clockMs: nat)
    requires Alike(a, b, clockMs) && Reclaims(op) && clockMs <= op.nowMs && ValidConfig(c)
    ensures Alike(Step(a, op, c).0, b, op.nowMs)
  {
    var a', now := Step(a, op, c).0, op.nowMs;
    AlikeLater(a, b, clockMs, now);
    match op
    case ReclaimUsers(_, _) =>
      forall k: string ensures UserAlike(Get(a'.users, k), Get(b.users, k), now) {
        if k in a.users && k !in a'.users {
          UserForgotten(Get(a.users, k), Get(b.users, k), clockMs, now, c.userTtlMs);
        }
      }
    case ReclaimIps(_, _) =>
      forall k: string ensures IpAlike(Get(a'.ips, k), Get(b.ips, k), now) {
        if k in a.ips && k !in a'.ips { IpForgotten(Get(a.ips, k), Get(b.ips, k), clockMs, now, c.ipTtlMs); }
      }
    case ReclaimDevices(_, _) =>
      forall k: string ensures DeviceAlike(Get(a'.devices, k), Get(b.devices, k), now) {
        if k in a.devices && k !in a'.devices {
          DeviceForgotten(Get(a.devices, k), Get(b.devices, k), clockMs, now, c.deviceTtlMs);
        }
      }
  }

  lemma {:induction false} AlikeStoresAnswerAlike(a: Store, b: Store, ops: seq<Op>, c: Config, clockMs: nat)
    requires Alike(a, b, clockMs) && ClockFrom(ops, clockMs) && ValidConfig(c)
    ensures Answers(a, ops, c) == LazyAnswers(b, ops, c)
    decreases |ops|
  {
    if ops != [] {
      if Reclaims(ops[0]) {
        ReclaimAlike(a, b, ops[0], c, clockMs);
        AlikeStoresAnswerAlike(Step(a, ops[0], c).0, b, ops[1..], c, ops[0].nowMs);
      } else {
        LoginAlike(a, b, ops[0], c, clockMs);
        AlikeStoresAnswerAlike(Step(a, ops[0], c).0, Step(b, ops[0], c).0, ops[1..], c, ops[0].nowMs);
      }
    }
  }

  function EmptyStore(): Store {
    Store(map[], map[], map[])
  }

  /** Reclaiming is invisible: for every interleaving of logins and reclaim passes under a
      clock that never runs back, every login gets the answers of a store that never
      reclaims. */
  lemma ReclaimingIsInvisible(ops: seq<Op>, c: Config)
    requires ValidConfig(c) && ClockFrom(ops, 0)
    ensures Answers(EmptyStore(), ops, c) == LazyAnswers(EmptyStore(), ops, c)
  {
    AlikeStoresAnswerAlike(EmptyStore(), EmptyStore(), ops, c, 0);
  }

  /* When it is not. */

  function Failure(): Attempt {
    Attempt("u", "i", "d", 0, true)
  }

  // A login that only reads: a success, stamped after the moment it is processed.
  function Reading(nowMs: nat): Attempt {
    Attempt("u", "i", "d", nowMs + 1, false)
  }

  function UserProbe(reclaimMs: nat, readMs: nat): seq<Op> {
    [UserPart(Failure(), 0), ReclaimUsers({"u"}, reclaimMs), UserPart(Reading(readMs), readMs)]
  }

  function IpProbe(reclaimMs: nat, readMs: nat): seq<Op> {
    [IpPart(Failure(), 0), ReclaimIps({"i"}, reclaimMs), IpPart(Reading(readMs), readMs)]
  }

  function DeviceProbe(reclaimMs: nat, readMs: nat): seq<Op> {
    [DevicePart(Failure(), 0), ReclaimDevices({"d"}, reclaimMs), DevicePart(Reading(readMs), readMs)]
  }

  lemma ThreeAnswers(x: Op, y: Op, z: Op, c: Config)
    requires !Reclaims(x) && Reclaims(y) && !Reclaims(z)
    ensures var s1 := Step(EmptyStore(), x, c).0;
      var s2 := Step(s1, y, c).0;
      Step(s2, z, c).1 != Step(s1, z, c).1 ==> !Invisible([x, y, z], c)
    ensures x.nowMs <= y.nowMs <= z.nowMs <==> ClockFrom([x, y, z], x.nowMs)
  {
    var s0 := EmptyStore();
    var s1 := Step(s0, x, c).0;
    var s2 := Step(s1, y, c).0;
    assert [x, y, z][1..] == [y, z] && [y, z][1..] == [z] && [z][1..] == [];
    assert Answers(s2, [z], c) == [Step(s2, z, c).1] + Answers(Step(s2, z, c).0, [], c);
    assert Answers(s1, [y, z], c) == [Silent] + Answers(s2, [z], c);
    assert Answers(s0, [x, y, z], c) == [Step(s0, x, c).1] + Answers(s1, [y, z], c);
    assert LazyAnswers(s1, [z], c) == [Step(s1, z, c).1] + LazyAnswers(Step(s1, z, c).0, [], c);
    assert LazyAnswers(s1, [y, z], c) == [Silent] + LazyAnswers(s1, [z], c);
    assert LazyAnswers(s0, [x, y, z], c) == [Step(s0, x, c).1] + LazyAnswers(s1, [y, z], c);
    if Step(s2, z, c).1 != Step(s1, z, c).1 {
      assert Answers(s0, [x, y, z], c)[2] == Step(s2, z, c).1 && LazyAnswers(s0, [x, y, z], c)[2] == Step(s1, z, c).1;
    }
    assert ClockFrom([z], y.nowMs) <==> y.nowMs <= z.nowMs;
    assert ClockFrom([y, z], x.nowMs) <==> x.nowMs <= y.nowMs && ClockFrom([z], y.nowMs);
  }

  lemma OneEvent(now: nat)
    requires now < BUCKETS
    ensures C.Keep([C.Event(0, 1)], now, BUCKETS) == [C.Event(0, 1)] && C.Add([], 0, 0, BUCKETS, 1) == [C.Event(0, 1)]
    ensures C.Sum([C.Event(0, 1)]) == 1
  {
    assert [C.Event(0, 1)][1..] == [];
  }

  lemma UserProbeShows(c: Config, reclaimMs: nat, readMs: nat)
    requires reclaimMs >= c.userTtlMs && readMs < USER_WINDOW_MS
    ensures !Invisible(UserProbe(reclaimMs, readMs), c)
    ensures reclaimMs <= readMs <==> ClockFrom(UserProbe(reclaimMs, readMs), 0)
  {
    var ops := UserProbe(reclaimMs, readMs);
    OneEvent(0);
    OneEvent(readMs / USER_BUCKET_MS);
    var s1 := Step(EmptyStore(), ops[0], c).0;
    assert s1.users == map["u" := UserState([C.Event(0, 1)], 0)];
    assert Step(s1, ops[2], c).1 == UserAnswer(1);
    var s2 := Step(s1, ops[1], c).0;
    assert s2.users == map[];
    ThreeAnswers(ops[0], ops[1], ops[2], c);
  }

  lemma FirstMember(m: string)
    ensures Refresh(CountMember(NoMembers(), m, 0, 0), 0) == D.View(map[m := 0], true, 0)
  {
    var x := D.Expire(NoMembers(), 0, BUCKETS);
    assert x.seen == map[] && D.Latest(x.seen, m, 0) == map[m := 0];
  }

  lemma IpProbeShows(c: Config, reclaimMs: nat, readMs: nat)
    requires reclaimMs >= c.ipTtlMs && readMs < DISTINCT_WINDOW_MS
    ensures !Invisible(IpProbe(reclaimMs, readMs), c)
    ensures reclaimMs <= readMs <==> ClockFrom(IpProbe(reclaimMs, readMs), 0)
  {
    var ops := IpProbe(reclaimMs, readMs);
    OneEvent(0);
    OneEvent(readMs / DISTINCT_BUCKET_MS);
    FirstMember("u");
    var s1 := Step(EmptyStore(), ops[0], c).0;
    assert s1.ips == map["i" := IpState(D.View(map["u" := 0], true, 0), [C.Event(0, 1)], 0)];
    assert Step(s1, ops[2], c).1.fails == 1;
    var s2 := Step(s1, ops[1], c).0;
    assert s2.ips == map[];
    ThreeAnswers(ops[0], ops[1], ops[2], c);
  }

  lemma DeviceProbeShows(c: Config, reclaimMs: nat, readMs: nat)
    requires reclaimMs >= c.deviceTtlMs && readMs < DISTINCT_WINDOW_MS
    ensures !Invisible(DeviceProbe(reclaimMs, readMs), c)
    ensures reclaimMs <= readMs <==> ClockFrom(DeviceProbe(reclaimMs, readMs), 0)
  {
    var ops := DeviceProbe(reclaimMs, readMs);
    FirstMember("u");
    var s1 := Step(EmptyStore(), ops[0], c).0;
    assert s1.devices == map["d" := DeviceState(D.View(map["u" := 0], true, 0), 0)];
    assert Refresh(s1.devices["d"].accounts, readMs).seen == map["u" := 0];
    assert Step(s1, ops[2], c).1 == DeviceAnswer(1);
    var s2 := Step(s1, ops[1], c).0;
    assert s2.devices == map[];
    ThreeAnswers(ops[0], ops[1], ops[2], c);
  }

  ghost predicate Invisible(ops: seq<Op>, c: Config) {
    Answers(EmptyStore(), ops, c) == LazyAnswers(EmptyStore(), ops, c)
  }

  /** The TTLs that the configuration check demands are exactly those for which reclaiming
      can never be noticed. */
  lemma ValidTtlsAreExact(c: Config)
    ensures ValidConfig(c) <==> forall ops :: ClockFrom(ops, 0) ==> Invisible(ops, c)
  {
    if ValidConfig(c) {
      forall ops | ClockFrom(ops, 0) ensures Invisible(ops, c) { ReclaimingIsInvisible(ops, c); }
    } else if c.userTtlMs < USER_WINDOW_MS {
      UserProbeShows(c, c.userTtlMs, c.userTtlMs);
    } else if c.ipTtlMs < DISTINCT_WINDOW_MS {
      IpProbeShows(c, c.ipTtlMs, c.ipTtlMs);
    } else {
      DeviceProbeShows(c, c.deviceTtlMs, c.deviceTtlMs);
    }
  }

  /** The steady clock is needed: whatever the TTLs, a clock that jumps ahead for one
      reclaim pass and back again lets a login see that a state is gone. */
  lemma ClockJumpShowsReclaiming(c: Config)
    ensures exists ops :: !ClockFrom(ops, 0) && !Invisible(ops, c)
  {
    UserProbeShows(c, c.userTtlMs + 1, 0);
  }
}
