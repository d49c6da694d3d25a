/** The Redis side of the blacklist: the shared keys and any number of connections
    that step through WATCH / GET / EXEC transactions and paged HSCANs, interleaved
    command by command. A label fixes every choice, so a run is a sequence of labels. */
module RedisMachine {
  import opened Wrappers
  import opened Blacklist

  // The largest revision that INCR may start from is one below this.
  const MAX_REDIS_INTEGER: nat := 0x7FFF_FFFF_FFFF_FFFF

  // A pending Stream record; a payload of None is a record that does not decode.
  datatype Entry = Entry(id: nat, payload: Option<Mutation>)

  datatype Redis = Redis(
    ready: bool,
    revision: nat,
    hashes: Table,
    stream: seq<Entry>,
    lastId: nat,
    published: nat,
    requested: nat,
    completed: nat)

  datatype WatchKey = ReadyKey | RevisionKey | PendingKey | HashKey(kind: EntityType) | BarrierKey | PublishedKey

  datatype Op =
    | ApplyBatch(batch: seq<Mutation>)
    | RemoveExpired(expired: Table, expected: nat, now: nat)
    | Rebuild(entries: Table)
    | CompleteBarrier(token: nat)
    | SetPublished(value: nat)

  datatype ReadSet = ReadSet(
    ready: Option<bool>,
    revision: Option<nat>,
    fields: map<Key, Option<nat>>,
    barrier: Option<(nat, nat)>)

  datatype Conn =
    // WATCH was sent; dirty once a watched key changed hands.
    | Txn(op: Op, dirty: bool, got: ReadSet)
    // HSCAN over the hashes still in todo; present holds the fields of the current
    // hash that have been there since its scan began.
    | Scan(revision: nat, done: set<EntityType>, current: Option<EntityType>, present: set<Key>, seen: seq<(Key, nat)>)

  datatype State = State(
    redis: Redis,
    conns: map<nat, Conn>,
    base: nat,              // revision at the start of the run
    history: seq<Table>,    // hash contents at revision base, base + 1, ...
    log: seq<Mutation>,     // mutations in commit order
    commits: seq<Op>)       // committed transactions, in order

  datatype Reply = Acked | Conflict | Unknown

  datatype Label =
    | Watch(c: nat, op: Op)
    | GetReady(c: nat)
    | GetRevision(c: nat)
    | HGet(c: nat, k: Key)
    | HMGet(c: nat)
    | Drop(c: nat)
    | Exec(c: nat, applied: bool, reply: Reply)
    | HIncrBy
    | XDel(ids: set<nat>)
    | ScanStart(c: nat)
    | ScanHash(c: nat, kind: EntityType)
    | ScanPage(c: nat, page: seq<(Key, nat)>)
    | ScanHashDone(c: nat)

  /* Transactions. */

  function KindsOf(batch: seq<Mutation>): set<EntityType> {
    if batch == [ClearAll] then {User, Ip, Device}
    else set m | m in batch && !m.ClearAll? :: m.key.kind
  }

  function KindsIn(t: Table): set<EntityType> {
    set k | k in t :: k.kind
  }

  function HashKeys(kinds: set<EntityType>): set<WatchKey> {
    set kind | kind in kinds :: HashKey(kind)
  }

  function Watched(op: Op): set<WatchKey> {
    match op
    case ApplyBatch(batch) => {ReadyKey, PendingKey, RevisionKey} + HashKeys(KindsOf(batch))
    case RemoveExpired(expired, _, _) => {RevisionKey} + HashKeys(KindsIn(expired))
    case Rebuild(_) => {ReadyKey, RevisionKey} + HashKeys({User, Ip, Device})
    case CompleteBarrier(_) => {BarrierKey}
    case SetPublished(_) => {PublishedKey}
  }

  function Written(op: Op): set<WatchKey> {
    match op
    case ApplyBatch(batch) => {PendingKey, RevisionKey} + HashKeys(KindsOf(batch))
    case RemoveExpired(expired, _, _) => {RevisionKey} + HashKeys(KindsIn(expired))
    case Rebuild(_) => {ReadyKey, RevisionKey} + HashKeys({User, Ip, Device})
    case CompleteBarrier(_) => {BarrierKey}
    case SetPublished(_) => {PublishedKey}
  }

  predicate ValidBatch(batch: seq<Mutation>) {
    batch != [] && (batch == [ClearAll] || forall m :: m in batch ==> !m.ClearAll?)
  }

  // What an operation checks before it sends its first command.
  predicate Admissible(op: Op) {
    match op
    case ApplyBatch(batch) => ValidBatch(batch)
    case RemoveExpired(expired, expected, now) =>
      expired != map[] && expected < MAX_REDIS_INTEGER && forall k :: k in expired ==> Expired(expired[k], now)
    case Rebuild(_) => true
    case CompleteBarrier(token) => 0 < token <= MAX_REDIS_INTEGER
    case SetPublished(value) => value <= MAX_REDIS_INTEGER
  }

  // What an operation has read under WATCH by the time it sends EXEC.
  predicate MayExec(op: Op, got: ReadSet) {
    match op
    case ApplyBatch(_) =>
      got.ready == Some(true) && got.revision.Some? && got.revision.value < MAX_REDIS_INTEGER
    case RemoveExpired(expired, expected, _) =>
      got.revision == Some(expected) &&
      forall k :: k in expired ==> k in got.fields && got.fields[k] == Some(expired[k])
    case Rebuild(_) =>
      got.ready == Some(false) && got.revision.Some? && got.revision.value < MAX_REDIS_INTEGER
    case CompleteBarrier(token) =>
      got.barrier.Some? && got.barrier.value.1 <= token <= got.barrier.value.0
    case SetPublished(_) => true
  }

  predicate BumpsRevision(op: Op) {
    op.ApplyBatch? || op.RemoveExpired? || op.Rebuild?
  }

  function Records(first: nat, batch: seq<Mutation>): seq<Entry> {
    seq(|batch|, i requires 0 <= i < |batch| => Entry(first + i, Some(batch[i])))
  }

  function Commit(r: Redis, op: Op): Redis {
    match op
    case ApplyBatch(batch) =>
      r.(revision := r.revision + 1,
         hashes := Replay(r.hashes, batch),
         stream := r.stream + Records(r.lastId + 1, batch),
         lastId := r.lastId + |batch|)
    case RemoveExpired(expired, _, _) =>
      r.(revision := r.revision + 1, hashes := r.hashes - expired.Keys)
    case Rebuild(entries) =>
      r.(revision := r.revision + 1, hashes := entries, ready := true)
    case CompleteBarrier(token) => r.(completed := token)
    case SetPublished(value) => r.(published := value)
  }

  function FieldAt(t: Table, k: Key): Option<nat> {
    if k in t then Some(t[k]) else None
  }

  // Every other connection learns that the keys in written changed.
  function Touch(conns: map<nat, Conn>, written: set<WatchKey>, hashes: Table): map<nat, Conn> {
    map c | c in conns ::
      match conns[c]
      case Txn(op, dirty, got) => Txn(op, dirty || Watched(op) * written != {}, got)
      case Scan(rev, done, current, present, seen) => Scan(rev, done, current, present * hashes.Keys, seen)
  }

  predicate InTxn(s: State, c: nat) {
    c in s.conns && s.conns[c].Txn?
  }

  predicate InScan(s: State, c: nat) {
    c in s.conns && s.conns[c].Scan?
  }

  /* One command. */

  predicate Can(s: State, l: Label) {
    match l
    case Watch(c, op) => c !in s.conns && Admissible(op)
    case GetReady(c) => InTxn(s, c) && ReadyKey in Watched(s.conns[c].op)
    case GetRevision(c) => InTxn(s, c) && RevisionKey in Watched(s.conns[c].op)
    case HGet(c, k) => InTxn(s, c) && HashKey(k.kind) in Watched(s.conns[c].op)
    case HMGet(c) => InTxn(s, c) && s.conns[c].op.CompleteBarrier?
    case Drop(c) => c in s.conns
    case Exec(c, applied, reply) =>
      InTxn(s, c) && MayExec(s.conns[c].op, s.conns[c].got) &&
      (applied ==> !s.conns[c].dirty) &&
      (reply.Acked? ==> applied) && (reply.Conflict? ==> s.conns[c].dirty)
    case HIncrBy => true
    case XDel(_) => true
    case ScanStart(c) => c !in s.conns
    case ScanHash(c, kind) => InScan(s, c) && s.conns[c].current.None? && kind !in s.conns[c].done
    case ScanPage(c, page) =>
      InScan(s, c) && s.conns[c].current.Some? &&
      forall i :: 0 <= i < |page| ==>
        page[i].0 in s.redis.hashes && s.redis.hashes[page[i].0] == page[i].1 &&
        page[i].0.kind == s.conns[c].current.value
    case ScanHashDone(c) =>
      // A field that was there from the first page on has been returned.
      InScan(s, c) && s.conns[c].current.Some? &&
      forall k :: k in s.conns[c].present ==> exists i :: 0 <= i < |s.conns[c].seen| && s.conns[c].seen[i].0 == k
  }

  function Committed(s: State, c: nat): State
    requires InTxn(s, c)
  {
    var op := s.conns[c].op;
    var r := Commit(s.redis, op);
    s.(redis := r,
       conns := Touch(s.conns - {c}, Written(op), r.hashes),
       history := if BumpsRevision(op) then s.history + [r.hashes] else s.history,
       log := if op.ApplyBatch? then s.log + op.batch else s.log,
       commits := s.commits + [op])
  }

  function Remaining(stream: seq<Entry>, ids: set<nat>): seq<Entry> {
    if stream == [] then []
    else if stream[0].id in ids then Remaining(stream[1..], ids)
    else [stream[0]] + Remaining(stream[1..], ids)
  }

  function FieldsOfKind(t: Table, kind: EntityType): set<Key> {
    set k | k in t && k.kind == kind
  }

  function Do(s: State, l: Label): State
    requires Can(s, l)
  {
    match l
    case Watch(c, op) => s.(conns := s.conns[c := Txn(op, false, ReadSet(None, None, map[], None))])
    case GetReady(c) => Read(s, c, s.conns[c].got.(ready := Some(s.redis.ready)))
    case GetRevision(c) => Read(s, c, s.conns[c].got.(revision := Some(s.redis.revision)))
    case HGet(c, k) =>
      var got := s.conns[c].got;
      Read(s, c, got.(fields := got.fields[k := FieldAt(s.redis.hashes, k)]))
    case HMGet(c) => Read(s, c, s.conns[c].got.(barrier := Some((s.redis.requested, s.redis.completed))))
    case Drop(c) => s.(conns := s.conns - {c})
    case Exec(c, applied, _) => if applied then Committed(s, c) else s.(conns := s.conns - {c})
    case HIncrBy =>
      s.(redis := s.redis.(requested := s.redis.requested + 1), conns := Touch(s.conns, {BarrierKey}, s.redis.hashes))
    case XDel(ids) =>
      s.(redis := s.redis.(stream := Remaining(s.redis.stream, ids)),
         conns := Touch(s.conns, {PendingKey}, s.redis.hashes))
    case ScanStart(c) => s.(conns := s.conns[c := Scan(s.redis.revision, {}, None, {}, [])])
    case ScanHash(c, kind) =>
      s.(conns := s.conns[c := s.conns[c].(current := Some(kind), present := FieldsOfKind(s.redis.hashes, kind))])
    case ScanPage(c, page) => s.(conns := s.conns[c := s.conns[c].(seen := s.conns[c].seen + page)])
    case ScanHashDone(c) =>
      s.(conns := s.conns[c :=
        s.conns[c].(done := s.conns[c].done + {s.conns[c].current.value}, current := None, present := {})])
  }

  function Read(s: State, c: nat, got: ReadSet): State
    requires InTxn(s, c)
  {
    s.(conns := s.conns[c := s.conns[c].(got := got)])
  }

  /* Runs. */

  predicate CanRun(s: State, ls: seq<Label>)
    decreases |ls|
  {
    ls == [] || (Can(s, ls[0]) && CanRun(Do(s, ls[0]), ls[1..]))
  }

  function After(s: State, ls: seq<Label>): State
    requires CanRun(s, ls)
    decreases |ls|
  {
    if ls == [] then s else After(Do(s, ls[0]), ls[1..])
  }

  // Whatever Redis held before, with no connection open yet.
  predicate Initial(s: State) {
    && s.conns == map[] && s.base == s.redis.revision && s.history == [s.redis.hashes]
    && s.log == [] && s.commits == []
    && s.redis.completed <= s.redis.requested
    && StreamOrdered(s.redis)
  }

  /* Invariants. */

  predicate StreamOrdered(r: Redis) {
    (forall i :: 0 <= i < |r.stream| ==> r.stream[i].id <= r.lastId) &&
    (forall i, j :: 0 <= i < j < |r.stream| ==> r.stream[i].id < r.stream[j].id)
  }

  predicate HistoryOk(s: State) {
    s.history != [] && s.redis.revision == s.base + |s.history| - 1 && s.history[|s.history| - 1] == s.redis.hashes
  }

  predicate ReadsCurrent(r: Redis, op: Op, got: ReadSet) {
    (got.ready.Some? ==> ReadyKey in Watched(op) && got.ready.value == r.ready) &&
    (got.revision.Some? ==> RevisionKey in Watched(op) && got.revision.value == r.revision) &&
    (forall k :: k in got.fields ==> HashKey(k.kind) in Watched(op) && got.fields[k] == FieldAt(r.hashes, k)) &&
    (got.barrier.Some? ==> op.CompleteBarrier? && got.barrier.value == (r.requested, r.completed))
  }

  predicate Seen(seen: seq<(Key, nat)>, k: Key) {
    exists i :: 0 <= i < |seen| && seen[i].0 == k
  }

  // While the revision has not moved, the pages hold only current fields, and every
  // field of a finished hash.
  predicate ScanExact(r: Redis, conn: Conn)
    requires conn.Scan?
  {
    (forall i :: 0 <= i < |conn.seen| ==> conn.seen[i].0 in r.hashes && r.hashes[conn.seen[i].0] == conn.seen[i].1) &&
    (forall k :: k in r.hashes && k.kind in conn.done ==> Seen(conn.seen, k)) &&
    (conn.current.Some? ==> conn.present == FieldsOfKind(r.hashes, conn.current.value))
  }

  predicate ConnOk(r: Redis, conn: Conn) {
    match conn
    case Txn(op, dirty, got) => Admissible(op) && (!dirty ==> ReadsCurrent(r, op, got))
    case Scan(rev, _, _, _, _) => rev <= r.revision && (rev == r.revision ==> ScanExact(r, conn))
  }

  predicate ConnsOk(s: State) {
    forall c :: c in s.conns ==> ConnOk(s.redis, s.conns[c])
  }

  // At most one rebuild, only from a cache that was not ready, and no mutation before it.
  predicate BootOrder(commits: seq<Op>, ready: bool) {
    (forall i :: 0 <= i < |commits| && commits[i].ApplyBatch? ==> ready) &&
    (forall i :: 0 <= i < |commits| && commits[i].Rebuild? ==>
      ready && forall j :: 0 <= j < |commits| && j != i ==> !commits[j].Rebuild? && (commits[j].ApplyBatch? ==> i < j))
  }

  predicate Inv(s: State) {
    HistoryOk(s) && s.redis.completed <= s.redis.requested && StreamOrdered(s.redis) && ConnsOk(s) &&
    BootOrder(s.commits, s.redis.ready)
  }

  lemma {:induction false} ReplayTouchesKinds(t: Table, batch: seq<Mutation>, k: Key)
    requires forall m :: m in batch ==> !m.ClearAll? && m.key.kind != k.kind
    ensures FieldAt(Replay(t, batch), k) == FieldAt(t, k)
    decreases |batch|
  {
    if batch != [] {
      assert batch[0] in batch;
      ReplayTouchesKinds(Apply(t, batch[0]), batch[1..], k);
    }
  }

  // An operation changes only what it announces in Written.
  lemma CommitStaysWithin(r: Redis, op: Op)
    requires Admissible(op)
    ensures ReadyKey !in Written(op) ==> Commit(r, op).ready == r.ready
    ensures RevisionKey !in Written(op) ==> Commit(r, op).revision == r.revision && Commit(r, op).hashes == r.hashes
    ensures forall k: Key :: HashKey(k.kind) !in Written(op) ==>
      FieldAt(Commit(r, op).hashes, k) == FieldAt(r.hashes, k)
    ensures BarrierKey !in Written(op) ==>
      Commit(r, op).requested == r.requested && Commit(r, op).completed == r.completed
  {
    forall k: Key | HashKey(k.kind) !in Written(op)
      ensures FieldAt(Commit(r, op).hashes, k) == FieldAt(r.hashes, k)
    {
      assert k.kind.User? || k.kind.Ip? || k.kind.Device?;
      assert HashKey(k.kind) in HashKeys({User, Ip, Device});
      match op
      case ApplyBatch(batch) =>
        assert k.kind in KindsOf(batch) ==> HashKey(k.kind) in HashKeys(KindsOf(batch));
        if batch == [ClearAll] {
        } else {
          forall m | m in batch ensures !m.ClearAll? && m.key.kind != k.kind {}
          ReplayTouchesKinds(r.hashes, batch, k);
        }
      case RemoveExpired(expired, _, _) =>
        assert k in expired ==> k.kind in KindsIn(expired);
      case Rebuild(_) =>
      case CompleteBarrier(_) =>
      case SetPublished(_) =>
    }
  }

  lemma TouchKeepsReads(r: Redis, r': Redis, written: set<WatchKey>, op: Op, got: ReadSet)
    requires ReadsCurrent(r, op, got)
    requires Watched(op) * written == {}
    requires ReadyKey !in written ==> r'.ready == r.ready
    requires RevisionKey !in written ==> r'.revision == r.revision
    requires forall k: Key :: HashKey(k.kind) !in written ==> FieldAt(r'.hashes, k) == FieldAt(r.hashes, k)
    requires BarrierKey !in written ==> r'.requested == r.requested && r'.completed == r.completed
    ensures ReadsCurrent(r', op, got)
  {
    assert forall w :: w in Watched(op) && w in written ==> w in Watched(op) * written;
  }

  // The frame step: a write that bumps the revision whenever it changes a hash keeps
  // every other connection's facts.
  lemma TouchKeepsConns(s: State, r': Redis, conns: map<nat, Conn>, written: set<WatchKey>)
    requires ConnsOk(s)
    requires forall c :: c in conns ==> c in s.conns && s.conns[c] == conns[c]
    requires ReadyKey !in written ==> r'.ready == s.redis.ready
    requires RevisionKey !in written ==> r'.revision == s.redis.revision && r'.hashes == s.redis.hashes
    requires RevisionKey in written ==> r'.revision == s.redis.revision + 1
    requires forall k: Key :: HashKey(k.kind) !in written ==> FieldAt(r'.hashes, k) == FieldAt(s.redis.hashes, k)
    requires BarrierKey !in written ==> r'.requested == s.redis.requested && r'.completed == s.redis.completed
    ensures forall c :: c in conns ==> ConnOk(r', Touch(conns, written, r'.hashes)[c])
  {
    forall c | c in conns ensures ConnOk(r', Touch(conns, written, r'.hashes)[c]) {
      assert ConnOk(s.redis, s.conns[c]);
      match conns[c]
      case Txn(op, dirty, got) =>
        if !dirty && Watched(op) * written == {} { TouchKeepsReads(s.redis, r', written, op, got); }
      case Scan(rev, done, current, present, seen) =>
        if rev == r'.revision && current.Some? {
          assert present * r'.hashes.Keys == present;
        }
    }
  }

  /** Every committed revision change acts on exactly the values that were read under
      WATCH, and moves the revision by one. */
  lemma CommitActsOnWhatWasRead(s: State, c: nat)
    requires Inv(s) && InTxn(s, c) && !s.conns[c].dirty && MayExec(s.conns[c].op, s.conns[c].got)
    ensures var op, got := s.conns[c].op, s.conns[c].got;
      (BumpsRevision(op) ==> got.revision == Some(s.redis.revision) && s.redis.revision < MAX_REDIS_INTEGER &&
                             Committed(s, c).redis.revision == s.redis.revision + 1) &&
      (op.ApplyBatch? ==> s.redis.ready) &&
      (op.Rebuild? ==> !s.redis.ready) &&
      (op.RemoveExpired? ==> op.expected == s.redis.revision &&
                             forall k :: k in op.expired ==>
                               k in s.redis.hashes && s.redis.hashes[k] == op.expired[k]) &&
      (op.CompleteBarrier? ==> s.redis.completed <= op.token <= s.redis.requested)
  {
    assert ConnOk(s.redis, s.conns[c]);
    var op, got := s.conns[c].op, s.conns[c].got;
    if op.RemoveExpired? {
      forall k | k in op.expired ensures k in s.redis.hashes && s.redis.hashes[k] == op.expired[k] {
        assert got.fields[k] == FieldAt(s.redis.hashes, k);
      }
    }
  }

  lemma RecordsOrdered(r: Redis, batch: seq<Mutation>)
    requires StreamOrdered(r)
    ensures StreamOrdered(Commit(r, ApplyBatch(batch)))
  {
    var stream := Commit(r, ApplyBatch(batch)).stream;
    forall i, j | 0 <= i < j < |stream| ensures stream[i].id < stream[j].id {
      if i < |r.stream| { assert stream[i] == r.stream[i]; }
      if j < |r.stream| { assert stream[j] == r.stream[j]; }
    }
  }

  lemma InvCommit(s: State, c: nat)
    requires Inv(s) && InTxn(s, c) && !s.conns[c].dirty && MayExec(s.conns[c].op, s.conns[c].got)
    ensures Inv(Committed(s, c))
  {
    var op := s.conns[c].op;
    var s' := Committed(s, c);
    CommitActsOnWhatWasRead(s, c);
    CommitStaysWithin(s.redis, op);
    assert ConnOk(s.redis, s.conns[c]);
    TouchKeepsConns(s, s'.redis, s.conns - {c}, Written(op));
    if op.ApplyBatch? { RecordsOrdered(s.redis, op.batch); }
    assert forall i :: 0 <= i < |s.commits| ==> s'.commits[i] == s.commits[i];
  }

  lemma {:induction false} RemainingSubsequence(stream: seq<Entry>, ids: set<nat>)
    requires forall i, j :: 0 <= i < j < |stream| ==> stream[i].id < stream[j].id
    ensures forall e :: e in Remaining(stream, ids) <==> e in stream && e.id !in ids
    ensures forall i, j :: 0 <= i < j < |Remaining(stream, ids)| ==>
      Remaining(stream, ids)[i].id < Remaining(stream, ids)[j].id
    decreases |stream|
  {
    if stream != [] {
      RemainingSubsequence(stream[1..], ids);
      var tail := Remaining(stream[1..], ids);
      forall j | 0 <= j < |tail| ensures stream[0].id < tail[j].id {
        assert tail[j] in stream[1..];
      }
    }
  }

  lemma InvXDel(s: State, ids: set<nat>)
    requires Inv(s)
    ensures Inv(Do(s, XDel(ids)))
  {
    var s' := Do(s, XDel(ids));
    TouchKeepsConns(s, s'.redis, s.conns, {PendingKey});
    RemainingSubsequence(s.redis.stream, ids);
    forall i | 0 <= i < |s'.redis.stream| ensures s'.redis.stream[i].id <= s'.redis.lastId {
      assert s'.redis.stream[i] in s.redis.stream;
    }
  }

  lemma InvScan(s: State, l: Label)
    requires Inv(s) && Can(s, l) && (l.ScanStart? || l.ScanHash? || l.ScanPage? || l.ScanHashDone?)
    ensures Inv(Do(s, l))
  {
    var s' := Do(s, l);
    if !l.ScanStart? {
      assert ConnOk(s.redis, s.conns[l.c]);
      var before, after := s.conns[l.c], s'.conns[l.c];
      if before.revision == s.redis.revision {
        assert forall i :: 0 <= i < |before.seen| ==> after.seen[i] == before.seen[i];
        forall k | k in s.redis.hashes && k.kind in after.done ensures Seen(after.seen, k) {
          if k.kind in before.done {
            assert Seen(before.seen, k);
            var i :| 0 <= i < |before.seen| && before.seen[i].0 == k;
            assert after.seen[i].0 == k;
          } else {
            assert k in before.present;
          }
        }
      }
    }
  }

  lemma InvStep(s: State, l: Label)
    requires Inv(s) && Can(s, l)
    ensures Inv(Do(s, l))
  {
    match l
    case Exec(c, applied, _) => if applied { InvCommit(s, c); }
    case HIncrBy => TouchKeepsConns(s, Do(s, l).redis, s.conns, {BarrierKey});
    case XDel(ids) => InvXDel(s, ids);
    case ScanStart(_) => InvScan(s, l);
    case ScanHash(_, _) => InvScan(s, l);
    case ScanPage(_, _) => InvScan(s, l);
    case ScanHashDone(_) => InvScan(s, l);
    case Watch(_, _) =>
    case GetReady(c) => assert ConnOk(s.redis, s.conns[c]);
    case GetRevision(c) => assert ConnOk(s.redis, s.conns[c]);
    case HGet(c, _) => assert ConnOk(s.redis, s.conns[c]);
    case HMGet(c) => assert ConnOk(s.redis, s.conns[c]);
    case Drop(_) =>
  }

  lemma {:induction false} InvRun(s: State, ls: seq<Label>)
    requires Inv(s) && CanRun(s, ls)
    ensures Inv(After(s, ls))
    decreases |ls|
  {
    if ls != [] {
      InvStep(s, ls[0]);
      InvRun(Do(s, ls[0]), ls[1..]);
    }
  }

  lemma InitialInv(s: State)
    requires Initial(s)
    ensures Inv(s)
  {}

  // What no later command takes back.
  predicate Extends(s: State, s': State) {
    s.base == s'.base && s.history <= s'.history && s.log <= s'.log && s.commits <= s'.commits &&
    s.redis.completed <= s'.redis.completed && s.redis.requested <= s'.redis.requested &&
    (s.redis.ready ==> s'.redis.ready)
  }

  lemma StepExtends(s: State, l: Label)
    requires Inv(s) && Can(s, l)
    ensures Extends(s, Do(s, l))
  {
    if l.Exec? && l.applied { CommitActsOnWhatWasRead(s, l.c); }
  }

  lemma {:induction false} RunExtends(s: State, ls: seq<Label>)
    requires Inv(s) && CanRun(s, ls)
    ensures Extends(s, After(s, ls))
    decreases |ls|
  {
    if ls != [] {
      StepExtends(s, ls[0]);
      InvStep(s, ls[0]);
      RunExtends(Do(s, ls[0]), ls[1..]);
    }
  }

  /** A revision determines the contents of the hashes: two states of one run that show
      the same revision hold the same entries, whatever ran in between. */
  lemma RevisionDeterminesHashes(s0: State, ls: seq<Label>, more: seq<Label>)
    requires Initial(s0) && CanRun(s0, ls) && CanRun(After(s0, ls), more)
    requires After(After(s0, ls), more).redis.revision == After(s0, ls).redis.revision
    ensures After(After(s0, ls), more).redis.hashes == After(s0, ls).redis.hashes
  {
    InitialInv(s0);
    InvRun(s0, ls);
    InvRun(After(s0, ls), more);
    RunExtends(After(s0, ls), more);
  }

  /** With any number of starters, at most one rebuild commits, only on a cache that was
      not ready, and every committed mutation comes after it. */
  lemma AtMostOneRebuild(s0: State, ls: seq<Label>)
    requires Initial(s0) && CanRun(s0, ls)
    ensures BootOrder(After(s0, ls).commits, After(s0, ls).redis.ready)
    ensures s0.redis.ready ==> forall op :: op in After(s0, ls).commits ==> !op.Rebuild?
  {
    InitialInv(s0);
    InvRun(s0, ls);
    if s0.redis.ready { NoRebuildOnceReady(s0, ls); }
  }

  lemma {:induction false} NoRebuildOnceReady(s: State, ls: seq<Label>)
    requires Inv(s) && CanRun(s, ls) && s.redis.ready
    requires forall op :: op in s.commits ==> !op.Rebuild?
    ensures forall op :: op in After(s, ls).commits ==> !op.Rebuild?
    decreases |ls|
  {
    if ls != [] {
      var l := ls[0];
      if l.Exec? && l.applied { CommitActsOnWhatWasRead(s, l.c); }
      StepExtends(s, l);
      InvStep(s, l);
      NoRebuildOnceReady(Do(s, l), ls[1..]);
    }
  }

  /* loadStableSnapshot. */

  // The scan has finished all three hashes and the second GET of the revision agrees.
  predicate ScanStable(s: State, c: nat) {
    InScan(s, c) && s.conns[c].done == {User, Ip, Device} && s.conns[c].current.None? &&
    s.conns[c].revision == s.redis.revision
  }

  /** An Ok snapshot is exactly the contents at its revision, despite writers between
      the HSCAN pages: nothing missing, nothing stale, repeated fields agreeing. */
  lemma StableSnapshotIsExact(s: State, c: nat)
    requires Inv(s) && ScanStable(s, c)
    ensures var conn := s.conns[c];
      s.base <= conn.revision < s.base + |s.history| &&
      var t := s.history[conn.revision - s.base];
      t == s.redis.hashes &&
      (forall k :: k in t <==> Seen(conn.seen, k)) &&
      forall i :: 0 <= i < |conn.seen| ==> conn.seen[i].0 in t && t[conn.seen[i].0] == conn.seen[i].1
  {
    var conn := s.conns[c];
    assert ConnOk(s.redis, conn);
    forall k | k in s.redis.hashes ensures Seen(conn.seen, k) {
      assert k.kind.User? || k.kind.Ip? || k.kind.Device?;
      assert k.kind in conn.done;
    }
  }

  /** Expiry cleanup removes only entries that are expired now: a renewed or permanent
      entry is never deleted, however long ago the scan saw it expired. */
  lemma CleanupRemovesOnlyExpired(s: State, c: nat)
    requires Inv(s) && InTxn(s, c) && s.conns[c].op.RemoveExpired?
    requires !s.conns[c].dirty && MayExec(s.conns[c].op, s.conns[c].got)
    ensures var before, after := s.redis.hashes, Committed(s, c).redis.hashes;
      (forall k :: k in before && k !in after ==> Expired(before[k], s.conns[c].op.now)) &&
      (forall k :: k in after ==> k in before && after[k] == before[k])
  {
    CommitActsOnWhatWasRead(s, c);
    assert ConnOk(s.redis, s.conns[c]);
  }
}
