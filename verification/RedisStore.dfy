/** The store operations as a connection sees them: one command after another, each with
    any reply or failure the network can produce, and what state the connection is in when
    an operation returns. */
module RedisStore {
  import opened Wrappers
  import opened Blacklist
  import opened StreamCodec
  import opened RedisTalk
  import R = RedisMachine

  // What the server holds for the connection. Unclear: it answered a state change with
  // something else than OK. Gone: closed, so the server has dropped everything.
  datatype Mode = Idle | Watching | InMulti | Unclear | Gone

  datatype Status =
    | Ok | WatchConflict | NotReady | InvalidRemoteState | DeadlineExceeded | IoError | CommitUnknown
    | TransactionError | BadProtocol

  datatype StoreResult = StoreResult(status: Status, revision: Option<nat>)

  function Failed(status: Status): StoreResult {
    StoreResult(status, None)
  }

  function NextMode(mode: Mode, command: Command, r: Reply): Mode {
    match r.status
    case Late => mode
    case Broken => Gone
    case Garbled => Gone
    case Delivered =>
      match command
      case Watch(_) => if IsOk(r.value) then Watching else Unclear
      case Unwatch => if IsOk(r.value) then Idle else Unclear
      case Multi => if IsOk(r.value) then InMulti else Unclear
      case Discard => if IsOk(r.value) then Idle else Unclear
      case Exec => Idle
      case _ => mode
  }

  // Statuses that promise that nothing was written.
  predicate Unwritten(status: Status) {
    status.WatchConflict? || status.NotReady? || status.InvalidRemoteState? || status.DeadlineExceeded? ||
    status.IoError?
  }

  // How an operation can fail before it has sent EXEC.
  predicate Early(status: Status) {
    Unwritten(status) || status.BadProtocol?
  }

  // What a result says about the number of transactions that took effect.
  predicate Truthful(status: Status, before: nat, after: nat) {
    before <= after <= before + 1 && (status.Ok? ==> after == before + 1) && (Unwritten(status) ==> after == before)
  }

  function CommandStatusOf(r: Reply): Status {
    match r.status
    case Delivered => Ok
    case Late => DeadlineExceeded
    case Broken => IoError
    case Garbled => BadProtocol
  }

  function HasError(values: seq<RedisValue>): bool {
    exists i :: 0 <= i < |values| && values[i].ErrorReply?
  }

  function ExecStatus(r: Reply): Status {
    match r.status
    case Late => DeadlineExceeded
    case Broken => CommitUnknown
    case Garbled => BadProtocol
    case Delivered =>
      match r.value
      case Nil => WatchConflict
      case ErrorReply(_) => TransactionError
      case Array(elements) => if HasError(elements) then TransactionError else Ok
      case _ => BadProtocol
  }

  predicate NonNegative(v: RedisValue) {
    v.Integer? && v.value >= 0
  }

  /* A server that does as it is asked. */

  predicate Says(script: seq<Reply>, i: nat, v: RedisValue) {
    i < |script| && script[i].status.Delivered? && script[i].value == v
  }

  predicate SaysEach(script: seq<Reply>, from: nat, count: nat, v: RedisValue) {
    from + count <= |script| && forall i :: from <= i < from + count ==> Says(script, i, v)
  }

  predicate SaysRevision(script: seq<Reply>, i: nat, maximum: nat) {
    i < |script| && script[i].status.Delivered? && script[i].value.Text? &&
    ParseUnsigned(script[i].value.text, maximum).Some?
  }

  // TYPE answers the expected type or, where a key may be missing, none.
  predicate SaysType(script: seq<Reply>, i: nat, expected: string, allowNone: bool) {
    Says(script, i, StatusReply(expected)) || (allowNone && Says(script, i, StatusReply("none")))
  }

  predicate SaysTypes(script: seq<Reply>, from: nat, count: nat, expected: string, allowNone: bool) {
    from + count <= |script| && forall i :: from <= i < from + count ==> SaysType(script, i, expected, allowNone)
  }

  predicate SaysReady(script: seq<Reply>, from: nat, hashes: nat) {
    SaysType(script, from, "string", true) && Says(script, from + 1, Text("1")) &&
    SaysType(script, from + 2, "stream", true) && SaysType(script, from + 3, "string", false) &&
    SaysTypes(script, from + 4, hashes, "hash", true) &&
    SaysRevision(script, from + 4 + hashes, R.MAX_REDIS_INTEGER - 1)
  }

  predicate WellFormedBatch(batch: seq<Mutation>) {
    batch != [] && (if batch[0].ClearAll? then |batch| == 1 else ClearAll !in batch)
  }

  function Hashes(kinds: set<EntityType>): seq<R.WatchKey> {
    (if User in kinds then [R.HashKey(User)] else []) + (if Ip in kinds then [R.HashKey(Ip)] else []) +
    (if Device in kinds then [R.HashKey(Device)] else [])
  }

  function HashesOf(batch: seq<Mutation>): nat {
    |Hashes(R.KindsOf(batch))|
  }

  // One hash command and one XADD for each mutation, and the INCR; DEL, XADD and INCR to clear.
  function CommandsOf(batch: seq<Mutation>): nat {
    2 * |batch| + 1
  }

  // What EXEC has to answer for each of the commands.
  predicate ReplyFits(values: seq<RedisValue>, batch: seq<Mutation>, revision: nat) {
    |values| == CommandsOf(batch) && values[|values| - 1] == Integer(revision) &&
    forall i :: 0 <= i < |values| - 1 ==> ElementFits(values[i], i, batch != [] && batch[0].ClearAll?)
  }

  predicate ElementFits(v: RedisValue, i: nat, clear: bool) {
    if i % 2 == 1 then v.Text? && v.text != "" else NonNegative(v) && (clear ==> v.value <= 3)
  }

  function SizeOf(group: seq<(Key, nat)>): seq<RedisValue> {
    if group == [] then [] else [Integer(|group|)]
  }

  // Each HDEL has removed its whole group, and the INCR made the next revision.
  function Removed(entries: seq<(Key, nat)>, revision: nat): seq<RedisValue> {
    SizeOf(OfKind(entries, User)) + SizeOf(OfKind(entries, Ip)) + SizeOf(OfKind(entries, Device)) + [Integer(revision)]
  }

  // DEL of the hashes, an HSET for each group, INCR and SET of the ready flag.
  predicate RebuiltFits(values: seq<RedisValue>, commands: nat, revision: nat) {
    |values| == commands && commands >= 3 && IsOk(values[commands - 1]) && values[commands - 2] == Integer(revision) &&
    NonNegative(values[0]) && values[0].value <= 3 && forall i :: 0 <= i < commands - 2 ==> NonNegative(values[i])
  }

  // An entry that cleanup may remove: a canonical id and an expiry that has passed.
  predicate Removable(canon: Canon, entry: (Key, nat), now: nat) {
    MakeDisable(canon, entry.0.kind, entry.0.id) == Some(Disable(entry.0)) &&
    Expired(entry.1, now) && entry.1 <= MAX_EXPIRE_AT_MS
  }

  predicate AllRemovable(canon: Canon, entries: seq<(Key, nat)>, now: nat) {
    (forall i :: 0 <= i < |entries| ==> Removable(canon, entries[i], now)) && Distinct(entries)
  }

  predicate Distinct(entries: seq<(Key, nat)>) {
    forall i, j :: 0 <= i < j < |entries| ==> entries[i].0 != entries[j].0
  }

  predicate RowOk(canon: Canon, row: (Key, nat)) {
    (row.0.kind.Ip? ==> canon(row.0.id) == Some(row.0.id)) &&
    ValidText(row.0.id, MAX_ENTITY_ID_BYTES) && row.1 <= MAX_EXPIRE_AT_MS
  }

  // WATCH, the reads, MULTI, the commands and EXEC.
  function TurnsOf(batch: seq<Mutation>): nat {
    HashesOf(batch) + CommandsOf(batch) + 8
  }

  // Everything is as the batch wants it, up to an EXEC that is answered.
  predicate ReachesExec(script: seq<Reply>, batch: seq<Mutation>) {
    var hashes, commands := HashesOf(batch), CommandsOf(batch);
    Says(script, 0, StatusReply("OK")) && SaysReady(script, 1, hashes) &&
    Says(script, hashes + 6, StatusReply("OK")) &&
    SaysEach(script, hashes + 7, commands, StatusReply("QUEUED")) &&
    TurnsOf(batch) <= |script| && script[TurnsOf(batch) - 1].status.Delivered?
  }

  predicate Cooperates(script: seq<Reply>, batch: seq<Mutation>) {
    ReachesExec(script, batch) && script[TurnsOf(batch) - 1].value.Array? &&
    ReplyFits(script[TurnsOf(batch) - 1].value.elements, batch, RevisionIn(script, HashesOf(batch)) + 1)
  }

  // Another client has written to a watched key.
  predicate Conflicts(script: seq<Reply>, batch: seq<Mutation>) {
    ReachesExec(script, batch) && script[TurnsOf(batch) - 1].value.Nil?
  }

  // What is left to be answered after so many such conversations.
  function Later(script: seq<Reply>, batch: seq<Mutation>, rounds: nat): seq<Reply> {
    if rounds == 0 then
      script
    else
      var rest := Later(script, batch, rounds - 1);
      if TurnsOf(batch) <= |rest| then rest[TurnsOf(batch)..] else []
  }

  // One conversation after another ends in a conflict.
  predicate KeepsConflicting(script: seq<Reply>, batch: seq<Mutation>, rounds: nat) {
    rounds == 0 ||
    (KeepsConflicting(script, batch, rounds - 1) && Conflicts(Later(script, batch, rounds - 1), batch))
  }

  // The conversation that comes next is no conflict: it goes through, or does not even start.
  predicate Ends(script: seq<Reply>, batch: seq<Mutation>) {
    Cooperates(script, batch) || script == [] || !script[0].status.Delivered?
  }

  function EndOf(script: seq<Reply>, batch: seq<Mutation>): StoreResult
    requires Ends(script, batch)
  {
    if Cooperates(script, batch) then StoreResult(Ok, Some(RevisionIn(script, HashesOf(batch)) + 1))
    else Failed(if script == [] then IoError else CommandStatusOf(script[0]))
  }

  predicate EndsAfter(script: seq<Reply>, batch: seq<Mutation>, rounds: nat) {
    KeepsConflicting(script, batch, rounds) && Ends(Later(script, batch, rounds), batch)
  }

  lemma {:induction false} EarlierRounds(script: seq<Reply>, batch: seq<Mutation>, earlier: nat, rounds: nat)
    requires earlier <= rounds && KeepsConflicting(script, batch, rounds)
    ensures KeepsConflicting(script, batch, earlier)
  {
    if earlier < rounds { EarlierRounds(script, batch, earlier, rounds - 1); }
  }

  lemma NextRound(script: seq<Reply>, batch: seq<Mutation>, i: nat)
    requires KeepsConflicting(script, batch, i + 1)
    ensures KeepsConflicting(script, batch, i) && Conflicts(Later(script, batch, i), batch)
    ensures Later(script, batch, i + 1) == Later(script, batch, i)[TurnsOf(batch)..]
  {
  }

  lemma LastRound(script: seq<Reply>, batch: seq<Mutation>, i: nat)
    ensures EndsAfter(script, batch, i) ==> KeepsConflicting(script, batch, i) && Ends(Later(script, batch, i), batch)
  {
  }

  lemma RoundsEnd(script: seq<Reply>, batch: seq<Mutation>, i: nat)
    requires !KeepsConflicting(script, batch, i + 1)
    ensures forall k: nat :: i < k ==> !KeepsConflicting(script, batch, k)
    ensures forall k: nat :: i < k ==> !EndsAfter(script, batch, k)
  {
    forall k: nat | i < k ensures !KeepsConflicting(script, batch, k) {
      if KeepsConflicting(script, batch, k) { EarlierRounds(script, batch, i + 1, k); }
    }
  }

  function RevisionIn(script: seq<Reply>, hashes: nat): nat
    requires SaysReady(script, 1, hashes)
  {
    ParseUnsigned(script[5 + hashes].value.text, R.MAX_REDIS_INTEGER - 1).value
  }

  // The replies to MULTI and the commands, and some reply to EXEC.
  predicate Queues(script: seq<Reply>, commands: nat) {
    Says(script, 0, StatusReply("OK")) && SaysEach(script, 1, commands, StatusReply("QUEUED")) &&
    commands + 1 < |script| && script[commands + 1].status.Delivered?
  }

  predicate WritesWell(script: seq<Reply>, batch: seq<Mutation>, revision: nat) {
    var commands := CommandsOf(batch);
    Queues(script, commands) && script[commands + 1].value.Array? &&
    ReplyFits(script[commands + 1].value.elements, batch, revision + 1)
  }

  lemma TypesShift(script: seq<Reply>, from: nat, count: nat, expected: string, allowNone: bool)
    requires SaysTypes(script, from, count, expected, allowNone)
    ensures forall d: nat :: d <= from ==> SaysTypes(script[d..], from - d, count, expected, allowNone)
  {
    forall d: nat, i | d <= from && from - d <= i < from - d + count
      ensures SaysType(script[d..], i, expected, allowNone)
    {
      assert SaysType(script, i + d, expected, allowNone);
    }
  }

  // The watch is answered and, behind it, the reads.
  lemma Opens(script: seq<Reply>, batch: seq<Mutation>)
    requires Cooperates(script, batch) || Conflicts(script, batch)
    ensures Says(script, 0, StatusReply("OK")) && SaysReady(script, 1, HashesOf(batch))
    ensures SaysReady(script[1..], 0, HashesOf(batch))
    ensures ParseUnsigned(script[1..][HashesOf(batch) + 4].value.text, R.MAX_REDIS_INTEGER - 1) ==
      Some(RevisionIn(script, HashesOf(batch)))
  {
    hide ParseUnsigned;
    TypesShift(script, 5, HashesOf(batch), "hash", true);
  }

  lemma EachShifts(script: seq<Reply>, from: nat, count: nat, v: RedisValue)
    requires SaysEach(script, from, count, v)
    ensures SaysEach(script[from..], 0, count, v)
  {
    forall i | 0 <= i < count ensures Says(script[from..], i, v) {
      assert Says(script, from + i, v);
    }
  }

  lemma RestQueues(script: seq<Reply>, batch: seq<Mutation>)
    requires Cooperates(script, batch) || Conflicts(script, batch)
    ensures HashesOf(batch) + 6 <= TurnsOf(batch) <= |script|
    ensures var rest, commands := script[HashesOf(batch) + 6..], CommandsOf(batch);
      Queues(rest, commands) &&
      (Conflicts(script, batch) ==>
        rest[commands + 1].value.Nil? && rest[commands + 2..] == script[TurnsOf(batch)..]) &&
      (Cooperates(script, batch) ==> WritesWell(rest, batch, RevisionIn(script, HashesOf(batch))))
  {
    var hashes, rest := HashesOf(batch), script[HashesOf(batch) + 6..];
    forall i | 1 <= i < 1 + CommandsOf(batch) ensures Says(rest, i, StatusReply("QUEUED")) {
      assert Says(script, hashes + 6 + i, StatusReply("QUEUED"));
    }
  }

  lemma FitsHasNoError(values: seq<RedisValue>, batch: seq<Mutation>, revision: nat)
    requires ReplyFits(values, batch, revision)
    ensures !HasError(values)
  {
    forall i | 0 <= i < |values| ensures !values[i].ErrorReply? {
      if i < |values| - 1 { assert ElementFits(values[i], i, batch != [] && batch[0].ClearAll?); }
    }
  }

  predicate RunsWell(script: seq<Reply>, commands: nat) {
    Queues(script, commands) && script[commands + 1].value.Array? && !HasError(script[commands + 1].value.elements)
  }

  predicate RunsTo(script: seq<Reply>, commands: nat, values: seq<RedisValue>) {
    RunsWell(script, commands) && script[commands + 1].value.elements == values
  }

  // The watch and the read of two good counts.
  predicate ReadsBarrier(script: seq<Reply>) {
    Says(script, 0, StatusReply("OK")) && SaysBarrier(script[1..])
  }

  function RequestedIn(script: seq<Reply>): nat
    requires ReadsBarrier(script)
  {
    BarrierIn(script[1].value).value.0
  }

  function CompletedIn(script: seq<Reply>): nat
    requires ReadsBarrier(script)
  {
    BarrierIn(script[1].value).value.1
  }

  // HGET by HGET the expiry that was scanned.
  predicate SaysExpiries(script: seq<Reply>, from: nat, entries: seq<(Key, nat)>) {
    from + |entries| <= |script| && forall i :: 0 <= i < |entries| ==> SaysExpiry(script, from + i, entries[i].1)
  }

  predicate SaysExpiry(script: seq<Reply>, i: nat, expiry: nat) {
    i < |script| && script[i].status.Delivered? && script[i].value.Text? &&
    ParseUnsigned(script[i].value.text, MAX_EXPIRE_AT_MS) == Some(expiry)
  }

  // The types, the revision and the expiries are those of the scan.
  predicate ConfirmsScan(script: seq<Reply>, entries: seq<(Key, nat)>, expected: nat) {
    var hashes := |Hashes(KindsFound(entries))|;
    SaysType(script, 0, "string", false) && SaysTypes(script, 1, hashes, "hash", true) &&
    SaysRevision(script, hashes + 1, R.MAX_REDIS_INTEGER - 1) &&
    ParseUnsigned(script[hashes + 1].value.text, R.MAX_REDIS_INTEGER - 1) == Some(expected) &&
    SaysExpiries(script, hashes + 2, ByKind(entries))
  }

  lemma ScanShifts(script: seq<Reply>, entries: seq<(Key, nat)>, expected: nat)
    requires ConfirmsScan(script, entries, expected)
    ensures var hashes := |Hashes(KindsFound(entries))|;
      SaysTypes(script[1..], 0, hashes, "hash", true) && SaysExpiries(script[hashes + 2..], 0, ByKind(entries))
  {
    var hashes := |Hashes(KindsFound(entries))|;
    TypesShift(script, 1, hashes, "hash", true);
    forall i | 0 <= i < |ByKind(entries)| ensures SaysExpiry(script[hashes + 2..], 0 + i, ByKind(entries)[i].1) {
      assert SaysExpiry(script, hashes + 2 + i, ByKind(entries)[i].1);
    }
  }

  function ScanTurns(entries: seq<(Key, nat)>): nat {
    |Hashes(KindsFound(entries))| + |ByKind(entries)| + 2
  }

  predicate CleansWell(script: seq<Reply>, entries: seq<(Key, nat)>, expected: nat) {
    Says(script, 0, StatusReply("OK")) && ConfirmsScan(script[1..], entries, expected) &&
    RunsTo(script[1..][ScanTurns(entries)..], |HDels(entries)| + 1, Removed(entries, expected + 1))
  }

  // Nothing is there yet but, perhaps, a revision.
  predicate AllowsRebuild(script: seq<Reply>) {
    SaysTypes(script, 0, 2, "string", true) && SaysTypes(script, 2, 3, "hash", true) && Says(script, 5, Nil) &&
    (Says(script, 6, Nil) || SaysRevision(script, 6, R.MAX_REDIS_INTEGER - 1))
  }

  function RebuildsFrom(script: seq<Reply>): nat
    requires AllowsRebuild(script)
  {
    if script[6].value.Nil? then 0 else ParseUnsigned(script[6].value.text, R.MAX_REDIS_INTEGER - 1).value
  }

  predicate RebuildsWell(script: seq<Reply>, commands: nat) {
    Says(script, 0, StatusReply("OK")) && AllowsRebuild(script[1..]) && RunsWell(script[8..], commands) &&
    RebuiltFits(script[8..][commands + 1].value.elements, commands, RebuildsFrom(script[1..]) + 1)
  }

  // Two counts, absent or canonical, of which completed does not lead.
  predicate SaysBarrier(script: seq<Reply>) {
    script != [] && script[0].status.Delivered? && BarrierIn(script[0].value).Some? &&
    BarrierIn(script[0].value).value.1 <= BarrierIn(script[0].value).value.0
  }

  predicate Confirmed(got: R.ReadSet, k: Key, scanned: Table) {
    k in scanned && k in got.fields && got.fields[k] == Some(scanned[k])
  }

  lemma WatchedWhenExpired(op: R.Op, k: Key)
    requires op.RemoveExpired? && k in op.expired
    ensures R.HashKey(k.kind) in R.Watched(op)
  {
    assert k.kind in R.KindsIn(op.expired);
  }

  lemma ConfirmedMayExec(entries: seq<(Key, nat)>, op: R.Op, got: R.ReadSet)
    requires Distinct(entries) && op.RemoveExpired? && op.expired == Put(map[], entries)
    requires got.revision == Some(op.expected)
    requires forall f :: f in ByKind(entries) ==> f.0 in got.fields && got.fields[f.0] == Some(f.1)
    ensures R.MayExec(op, got)
  {
    DistinctIsTable(entries);
    ByKindHasAll(entries);
    forall k | k in op.expired ensures k in got.fields && got.fields[k] == Some(op.expired[k]) {
      var f := (k, op.expired[k]);
      assert f in ByKind(entries);
    }
  }

  lemma RemovableIsAdmissible(canon: Canon, entries: seq<(Key, nat)>, expected: nat, now: nat)
    requires entries != [] && expected < R.MAX_REDIS_INTEGER && AllRemovable(canon, entries, now)
    ensures var op := R.RemoveExpired(Put(map[], entries), expected, now);
      R.Admissible(op) && R.Watched(op) == {R.RevisionKey} + R.HashKeys(KindsFound(entries))
  {
    var t := Put(map[], entries);
    DistinctIsTable(entries);
    KindsFoundInTable(entries);
    assert entries[0] == (entries[0].0, entries[0].1) && entries[0] in entries;
    forall k | k in t ensures Expired(t[k], now) {
      assert (k, t[k]) in entries;
      var i :| 0 <= i < |entries| && entries[i] == (k, t[k]);
      assert Removable(canon, entries[i], now);
    }
  }

  lemma RemovableHasExpired(canon: Canon, entries: seq<(Key, nat)>, now: nat)
    requires AllRemovable(canon, entries, now)
    ensures Distinct(entries) && forall f :: f in ByKind(entries) ==> Expired(f.1, now)
  {
    ByKindHasAll(entries);
    forall f | f in entries ensures Expired(f.1, now) {
      var i :| 0 <= i < |entries| && entries[i] == f;
      assert Removable(canon, entries[i], now);
    }
  }

  lemma {:induction false} LastIsIn(fields: seq<(Key, nat)>, k: Key)
    requires LastOf(fields, k).Some?
    ensures (k, LastOf(fields, k).value) in fields
    decreases |fields|
  {
    var last := |fields| - 1;
    if fields[last].0 != k {
      LastIsIn(fields[..last], k);
    } else {
      assert fields[last] == (k, fields[last].1);
    }
  }

  lemma {:induction false} InItsGroup(fields: seq<(Key, nat)>, kind: EntityType)
    ensures forall f :: f in OfKind(fields, kind) <==> f in fields && f.0.kind == kind
    decreases |fields|
  {
    if fields != [] {
      var last := |fields| - 1;
      InItsGroup(fields[..last], kind);
      assert fields == fields[..last] + [fields[last]];
    }
  }

  lemma DistinctIsTable(fields: seq<(Key, nat)>)
    requires Distinct(fields)
    ensures forall k, e :: (k, e) in fields <==> k in Put(map[], fields) && Put(map[], fields)[k] == e
  {
    forall k, e ensures (k, e) in fields <==> k in Put(map[], fields) && Put(map[], fields)[k] == e {
      PutIsLast(map[], fields, k);
      if LastOf(fields, k).Some? { LastIsIn(fields, k); }
      if (k, e) in fields {
        var i :| 0 <= i < |fields| && fields[i] == (k, e);
        LastIsThere(fields, i);
        LastIsIn(fields, k);
      }
    }
  }

  lemma {:induction false} LastIsThere(fields: seq<(Key, nat)>, i: nat)
    requires i < |fields|
    ensures LastOf(fields, fields[i].0).Some?
    decreases |fields|
  {
    var last := |fields| - 1;
    if i < last && fields[last].0 != fields[i].0 { LastIsThere(fields[..last], i); }
  }

  // Group after group.
  function ByKind(entries: seq<(Key, nat)>): seq<(Key, nat)> {
    OfKind(entries, User) + OfKind(entries, Ip) + OfKind(entries, Device)
  }

  lemma ByKindHasAll(entries: seq<(Key, nat)>)
    ensures forall f :: f in ByKind(entries) <==> f in entries
  {
    InItsGroup(entries, User);
    InItsGroup(entries, Ip);
    InItsGroup(entries, Device);
    assert forall f :: f in entries ==> f.0.kind == User || f.0.kind == Ip || f.0.kind == Device;
  }

  function KindsFound(entries: seq<(Key, nat)>): set<EntityType> {
    (if OfKind(entries, User) != [] then {User} else {}) + (if OfKind(entries, Ip) != [] then {Ip} else {}) +
    (if OfKind(entries, Device) != [] then {Device} else {})
  }

  lemma KindsFoundInTable(entries: seq<(Key, nat)>)
    ensures KindsFound(entries) == R.KindsIn(Put(map[], entries))
  {
    hide Put, OfKind;
    PutKeys(entries);
    forall kind: EntityType ensures kind in KindsFound(entries) <==> kind in R.KindsIn(Put(map[], entries)) {
      var group := OfKind(entries, kind);
      assert kind in KindsFound(entries) <==> group != [] by {
        assert kind == User || kind == Ip || kind == Device;
      }
      KeysByKind(entries, kind);
      if group != [] {
        assert group[0].0 in KeysOf(group);
        assert group[0].0 in Put(map[], entries);
      }
      if kind in R.KindsIn(Put(map[], entries)) {
        var k :| k in Put(map[], entries) && k.kind == kind;
        assert k in KeysOf(group);
      }
    }
  }

  class BlacklistRedisStore {
    const canon: Canon
    var mode: Mode
    var script: seq<Reply>   // what the network will answer, command by command
    ghost var commits: nat   // transactions that took effect
    ghost var executed: seq<RedisValue>   // what the last EXEC answered
    ghost var task: R.Op         // the operation in hand,
    ghost var talk: seq<Turn>    // what has been said for it
    ghost var view: View         // and what that has come to
    ghost var start: nat         // commits before it

    ghost predicate Clean()
      reads this
    {
      Valid() && (mode.Idle? || mode.Gone?)
    }

    // The client has sent nothing but what the operation allows.
    ghost predicate Valid()
      reads this
    {
      Spoken(task, NoTxn, talk) && view == ViewAfter(NoTxn, talk) && commits == start + Taken(talk) &&
      (mode.Watching? || mode.InMulti? ==> view.Txn?) && (mode.Idle? || mode.Gone? ==> view.NoTxn?)
    }

    constructor (canon: Canon, script: seq<Reply>)
      ensures Clean() && mode == Idle && this.script == script && commits == 0
    {
      this.canon, mode, this.script, commits, executed := canon, Idle, script, 0, [];
      task, talk, view, start := R.SetPublished(0), [], NoTxn, 0;
    }

    ghost method Begin(op: R.Op)
      requires Clean()
      modifies `task, `talk, `view, `start
      ensures Clean() && task == op && talk == [] && start == commits
    {
      task, talk, view, start := op, [], NoTxn, commits;
    }

    method Send(command: Command) returns (r: Reply)
      requires Valid() && Allowed(task, view, command) && (command.Multi? ==> mode.Watching?)
      modifies `mode, `script, `commits, `executed, `talk, `view
      ensures Valid() && view == NextView(old(view), Said(command, r)) && talk == old(talk) + [Said(command, r)]
      ensures mode == NextMode(old(mode), command, r)
      ensures commits == old(commits) + if TookEffect(command, r) then 1 else 0
      ensures old(mode).Gone? || old(script) == [] ==> r == Reply(Broken, Nil, false) && script == old(script)
      ensures !old(mode).Gone? && old(script) != [] ==> r == old(script)[0] && script == old(script)[1..]
      ensures executed == if command.Exec? && r.status.Delivered? && r.value.Array? then r.value.elements
        else old(executed)
    {
      hide Spoken, ViewAfter, Taken;
      r := Reply(Broken, Nil, false);
      if mode != Gone && script != [] {
        r, script := script[0], script[1..];
      }
      mode := NextMode(mode, command, r);
      if TookEffect(command, r) { commits := commits + 1; }
      if command.Exec? && r.status.Delivered? && r.value.Array? { executed := r.value.elements; }
      SpokenSnoc(task, NoTxn, talk, Said(command, r));
      talk, view := talk + [Said(command, r)], NextView(view, Said(command, r));
    }

    method Invalidate()
      requires Valid()
      modifies `mode, `talk, `view
      ensures Clean() && mode == Gone
    {
      hide Spoken, ViewAfter, Taken;
      mode := Gone;
      SpokenSnoc(task, NoTxn, talk, Closed);
      talk, view := talk + [Closed], NoTxn;
    }

    method LeaveWatch(original: Status) returns (status: Status)
      requires Valid() && Early(original)
      modifies `mode, `script, `commits, `executed, `talk, `view
      ensures Clean() && commits == old(commits) && Early(status)
      ensures !old(mode).Gone? && Says(old(script), 0, StatusReply("OK")) ==>
        status == original && mode == Idle && script == old(script)[1..]
    {
      hide Spoken, ViewAfter, Taken, Carries;
      var r := Send(Unwatch);
      if r.status == Delivered && IsOk(r.value) {
        return original;
      }
      Invalidate();
      return if r.status == Delivered then BadProtocol else CommandStatusOf(r);
    }

    method LeaveTransaction(original: Status) returns (status: Status)
      requires Valid() && Early(original)
      modifies `mode, `script, `commits, `executed, `talk, `view
      ensures Clean() && commits == old(commits) && Early(status)
      ensures status.InvalidRemoteState? ==> original.InvalidRemoteState?
    {
      hide Spoken, ViewAfter, Taken, Carries;
      var r := Send(Discard);
      if r.status == Delivered && IsOk(r.value) {
        return original;
      }
      Invalidate();
      return if r.status == Delivered then BadProtocol else CommandStatusOf(r);
    }

    // WATCH and the handling of every way it can fail.
    method BeginWatch(keys: set<R.WatchKey>) returns (status: Status)
      requires Clean() && R.Admissible(task) && keys == R.Watched(task)
      modifies `mode, `script, `commits, `executed, `talk, `view
      ensures status.Ok? ==> Valid() && mode == Watching && view == Txn(NOTHING_READ, [])
      ensures !status.Ok? ==> Clean() && Early(status)
      ensures commits == old(commits)
      ensures old(mode).Idle? && Says(old(script), 0, StatusReply("OK")) ==> status.Ok? && script == old(script)[1..]
      ensures old(script) == [] ==> status.IoError?
      ensures old(mode).Idle? && old(script) != [] && !old(script)[0].status.Delivered? ==>
        status == CommandStatusOf(old(script)[0])
    {
      hide Spoken, ViewAfter, Taken, Carries;
      var r := Send(Watch(keys));
      if r.status != Delivered {
        return CommandStatusOf(r);
      }
      if !IsOk(r.value) {
        Invalidate();
        return BadProtocol;
      }
      return Ok;
    }

    method EnsureType(key: R.WatchKey, expected: string, allowNone: bool) returns (status: Status)
      requires Valid()
      modifies `mode, `script, `commits, `executed, `talk, `view
      ensures Valid() && (mode == old(mode) || mode == Gone) && commits == old(commits)
      ensures status.Ok? ==> mode == old(mode) && view == old(view)
      ensures !status.Ok? ==> Early(status)
      ensures status.Ok? <==> !old(mode).Gone? && SaysType(old(script), 0, expected, allowNone)
      ensures status.Ok? ==> script == old(script)[1..]
    {
      hide Spoken, ViewAfter, Taken, Carries;
      var r := Send(TypeOf(key));
      if r.status != Delivered {
        return CommandStatusOf(r);
      }
      if !r.value.StatusReply? {
        return BadProtocol;
      }
      if r.value.text == expected || (allowNone && r.value.text == "none") {
        return Ok;
      }
      return InvalidRemoteState;
    }

    method EnsureTypes(keys: seq<R.WatchKey>, expected: string, allowNone: bool) returns (status: Status)
      requires Valid()
      modifies `mode, `script, `commits, `executed, `talk, `view
      ensures Valid() && (mode == old(mode) || mode == Gone) && commits == old(commits)
      ensures status.Ok? ==> mode == old(mode) && view == old(view)
      ensures !status.Ok? ==> Early(status)
      ensures !old(mode).Gone? && SaysTypes(old(script), 0, |keys|, expected, allowNone) ==>
        status.Ok? && script == old(script)[|keys|..]
    {
      hide Spoken, ViewAfter, Taken, Carries;
      status := Ok;
      var i := 0;
      ghost var honest := !mode.Gone? && SaysTypes(script, 0, |keys|, expected, allowNone);
      while i < |keys| && status.Ok?
        invariant i <= |keys| && Valid() && (mode == old(mode) || mode == Gone) && commits == old(commits)
        invariant honest ==> status.Ok? && script == old(script)[i..]
        invariant status.Ok? ==> mode == old(mode) && view == old(view)
        invariant !status.Ok? ==> Early(status)
      {
        assert honest ==> SaysType(old(script), i, expected, allowNone);
        status := EnsureType(keys[i], expected, allowNone);
        i := i + 1;
      }
    }

    // GET of a revision key that has to hold a canonical number.
    method GetRevision(maximum: nat) returns (status: Status, revision: nat)
      requires Valid() && view.Txn? && R.RevisionKey in R.Watched(task) && maximum <= R.MAX_REDIS_INTEGER
      modifies `mode, `script, `commits, `executed, `talk, `view
      ensures Valid() && (mode == old(mode) || mode == Gone) && commits == old(commits)
      ensures status.Ok? ==> mode == old(mode) && revision <= maximum
      ensures status.Ok? ==> view == old(view).(got := old(view).got.(revision := Some(revision)))
      ensures !status.Ok? ==> Early(status)
      ensures !old(mode).Gone? && SaysRevision(old(script), 0, maximum) ==>
        status.Ok? && Some(revision) == ParseUnsigned(old(script)[0].value.text, maximum) && script == old(script)[1..]
    {
      hide Spoken, ViewAfter, Taken, Carries;
      var r := Send(Get(R.RevisionKey));
      if r.status != Delivered {
        return CommandStatusOf(r), 0;
      }
      if !r.value.Text? {
        return InvalidRemoteState, 0;
      }
      var parsed := ParseUnsigned(r.value.text, maximum);
      if parsed.None? {
        return InvalidRemoteState, 0;
      }
      return Ok, parsed.value;
    }

    method ReadWatchedReadyRevision(hashes: seq<R.WatchKey>) returns (status: Status, revision: nat)
      requires Valid() && view.Txn? && task.ApplyBatch?
      modifies `mode, `script, `commits, `executed, `talk, `view
      ensures Valid() && (mode == old(mode) || mode == Gone) && commits == old(commits)
      ensures status.Ok? ==> mode == old(mode) && revision < R.MAX_REDIS_INTEGER
      ensures status.Ok? ==> view == old(view).(got := old(view).got.(ready := Some(true), revision := Some(revision)))
      ensures !status.Ok? ==> Early(status)
      ensures !old(mode).Gone? && SaysReady(old(script), 0, |hashes|) ==>
        status.Ok? && script == old(script)[|hashes| + 5..] &&
        Some(revision) == ParseUnsigned(old(script)[|hashes| + 4].value.text, R.MAX_REDIS_INTEGER - 1)
    {
      hide Spoken, ViewAfter, Taken, Carries, ParseUnsigned, SaysTypes;
      revision := 0;
      status := EnsureType(R.ReadyKey, "string", true);
      if !status.Ok? {
        return;
      }
      var ready := Send(Get(R.ReadyKey));
      if ready.status != Delivered {
        return CommandStatusOf(ready), 0;
      }
      if ready.value.Nil? {
        return NotReady, 0;
      }
      if ready.value != Text("1") {
        return InvalidRemoteState, 0;
      }
      status := EnsureType(R.PendingKey, "stream", true);
      if !status.Ok? {
        return;
      }
      status := EnsureType(R.RevisionKey, "string", false);
      if !status.Ok? {
        return;
      }
      assert script == old(script)[4..];
      ghost var honest := SaysReady(old(script), 0, |hashes|);
      if honest { TypesShift(old(script), 4, |hashes|, "hash", true); }
      status := EnsureTypes(hashes, "hash", true);
      if !status.Ok? {
        return;
      }
      assert honest ==> script == old(script)[|hashes| + 4..];
      status, revision := GetRevision(R.MAX_REDIS_INTEGER - 1);
    }

    // MULTI; on failure the connection has already been left clean.
    method BeginMulti() returns (status: Status)
      requires Valid() && mode == Watching && view.queued == []
      modifies `mode, `script, `commits, `executed, `talk, `view
      ensures status.Ok? ==> Valid() && mode == InMulti && view == old(view)
      ensures !status.Ok? ==> Clean() && Early(status)
      ensures commits == old(commits) && !status.InvalidRemoteState?
      ensures Says(old(script), 0, StatusReply("OK")) ==> status.Ok? && script == old(script)[1..]
    {
      hide Spoken, ViewAfter, Taken, Carries;
      var r := Send(Multi);
      if r.status == Delivered && IsOk(r.value) {
        return Ok;
      }
      var original := if r.status == Delivered then BadProtocol else CommandStatusOf(r);
      status := LeaveTransaction(original);
    }

    // One queued command; on failure the transaction has been discarded.
    method QueueOrDiscard(write: Write) returns (status: Status)
      requires Valid() && mode == InMulti
      modifies `mode, `script, `commits, `executed, `talk, `view
      ensures status.Ok? ==> Valid() && mode == InMulti && view == old(view).(queued := old(view).queued + [write])
      ensures !status.Ok? ==> Clean() && Early(status)
      ensures commits == old(commits) && !status.InvalidRemoteState?
      ensures Says(old(script), 0, StatusReply("QUEUED")) ==> status.Ok? && script == old(script)[1..]
    {
      hide Spoken, ViewAfter, Taken, Carries;
      var r := Send(Queue(write));
      if r.status == Delivered && r.value == StatusReply("QUEUED") {
        return Ok;
      }
      var original := if r.status == Delivered then BadProtocol else CommandStatusOf(r);
      status := LeaveTransaction(original);
    }

    method QueueAll(writes: seq<Write>) returns (status: Status)
      requires Valid() && mode == InMulti && view.queued == []
      modifies `mode, `script, `commits, `executed, `talk, `view
      ensures status.Ok? ==> Valid() && mode == InMulti && view == old(view).(queued := writes)
      ensures !status.Ok? ==> Clean() && Early(status)
      ensures commits == old(commits) && !status.InvalidRemoteState?
      ensures SaysEach(old(script), 0, |writes|, StatusReply("QUEUED")) ==>
        status.Ok? && script == old(script)[|writes|..]
    {
      hide Spoken, ViewAfter, Taken, Carries;
      status := Ok;
      var i := 0;
      ghost var honest := SaysEach(script, 0, |writes|, StatusReply("QUEUED"));
      assert writes[..0] == [];
      while i < |writes| && status.Ok?
        invariant i <= |writes| && commits == old(commits) && !status.InvalidRemoteState?
        invariant honest ==> status.Ok? && script == old(script)[i..]
        invariant status.Ok? ==> Valid() && mode == InMulti && view == old(view).(queued := writes[..i])
        invariant !status.Ok? ==> Clean() && Early(status)
      {
        assert honest ==> Says(old(script), i, StatusReply("QUEUED"));
        assert writes[..i + 1] == writes[..i] + [writes[i]];
        status := QueueOrDiscard(writes[i]);
        i := i + 1;
      }
      assert i == |writes| ==> writes[..i] == writes;
    }

    // EXEC: any reply means that the server has left MULTI; without one the connection goes.
    method CheckedExec() returns (status: Status, values: seq<RedisValue>)
      requires Valid() && mode == InMulti && R.MayExec(task, view.got) && Carries(task, view.queued)
      modifies `mode, `script, `commits, `executed, `talk, `view
      ensures Clean() && Truthful(status, old(commits), commits)
      ensures status.Ok? ==> values == executed
      ensures old(script) != [] && old(script)[0].status.Delivered? && old(script)[0].value.Array? ==>
        !HasError(old(script)[0].value.elements) ==> status.Ok? && values == old(script)[0].value.elements
      ensures Says(old(script), 0, Nil) ==> status.WatchConflict? && mode == Idle && script == old(script)[1..]
      ensures !status.InvalidRemoteState?
    {
      hide Spoken, ViewAfter, Taken, Carries;
      var r := Send(Exec);
      if r.status != Delivered {
        Invalidate();
      }
      status := ExecStatus(r);
      values := if status.Ok? then r.value.elements else [];
    }

    // MULTI, the commands and EXEC.
    method Transact(writes: seq<Write>) returns (status: Status, values: seq<RedisValue>)
      requires Valid() && mode == Watching && view.queued == [] && R.MayExec(task, view.got) && Carries(task, writes)
      modifies `mode, `script, `commits, `executed, `talk, `view
      ensures Clean() && Truthful(status, old(commits), commits)
      ensures status.Ok? ==> values == executed
      ensures RunsWell(old(script), |writes|) ==> status.Ok? && values == old(script)[|writes| + 1].value.elements
      ensures Queues(old(script), |writes|) && old(script)[|writes| + 1].value.Nil? ==>
        status.WatchConflict? && mode == Idle && script == old(script)[|writes| + 2..]
      ensures !status.InvalidRemoteState?
    {
      hide Spoken, ViewAfter, Taken, Carries;
      values := [];
      status := BeginMulti();
      if !status.Ok? {
        return;
      }
      ghost var honest := Queues(old(script), |writes|);
      assert honest ==> SaysEach(script, 0, |writes|, StatusReply("QUEUED")) by {
        if honest { EachShifts(old(script), 1, |writes|, StatusReply("QUEUED")); }
      }
      status := QueueAll(writes);
      if !status.Ok? {
        return;
      }
      assert honest ==> script == old(script)[|writes| + 1..];
      assert honest ==> script[0] == old(script)[|writes| + 1];
      status, values := CheckedExec();
    }

    /** Whatever the network answers, the connection is left idle or closed, a commit is
        reported only when there was one, with the revision its INCR returned, and denied
        only when there was none. Every command is one that the machine's own batch
        allows. A server that does as it is asked gets the batch. */
    method ApplyMutations(batch: seq<Mutation>) returns (r: StoreResult)
      requires Clean()
      modifies this
      ensures Clean() && task == R.ApplyBatch(batch) && start == old(commits)
      ensures Truthful(r.status, old(commits), commits) && (r.status.Ok? <==> r.revision.Some?)
      ensures r.status.Ok? ==> WellFormedBatch(batch) && ReplyFits(executed, batch, r.revision.value)
      ensures old(mode).Idle? && WellFormedBatch(batch) && Ends(old(script), batch) ==> r == EndOf(old(script), batch)
      ensures old(mode).Idle? && WellFormedBatch(batch) && Conflicts(old(script), batch) ==>
        r == Failed(WatchConflict) && mode == Idle && script == old(script)[TurnsOf(batch)..]
    {
      hide Spoken, ViewAfter, Taken, Carries, ReplyFits, Hashes, ParseUnsigned, RevisionIn, TurnsOf, SaysReady;
      hide Cooperates, Conflicts, Queues, WritesWell;
      Begin(R.ApplyBatch(batch));
      if batch == [] || (batch[0].ClearAll? && |batch| != 1) || (!batch[0].ClearAll? && ClearAll in batch) {
        return Failed(BadProtocol);
      }
      assert R.ValidBatch(batch);
      ghost var honest := mode.Idle? && (Cooperates(script, batch) || Conflicts(script, batch));
      ghost var hashes := HashesOf(batch);
      if honest {
        Opens(script, batch);
        RestQueues(script, batch);
      }
      var touched := R.KindsOf(batch);
      var status := BeginWatch({R.ReadyKey, R.PendingKey, R.RevisionKey} + R.HashKeys(touched));
      if !status.Ok? {
        return Failed(status);
      }
      var revision;
      status, revision := ReadWatchedReadyRevision(Hashes(touched));
      if !status.Ok? {
        status := LeaveWatch(status);
        return Failed(status);
      }
      assert honest ==> script == old(script)[hashes + 6..] && revision == RevisionIn(old(script), hashes);
      r := WriteBatch(batch, revision);
    }

    // MULTI, the commands, EXEC, and the check of what it answered.
    method WriteBatch(batch: seq<Mutation>, revision: nat) returns (r: StoreResult)
      requires Valid() && mode == Watching && WellFormedBatch(batch) && task == R.ApplyBatch(batch)
      requires view.queued == [] && view.got.ready == Some(true) && view.got.revision == Some(revision)
      requires revision < R.MAX_REDIS_INTEGER
      modifies `mode, `script, `commits, `executed, `talk, `view
      ensures Clean() && Truthful(r.status, old(commits), commits) && (r.status.Ok? <==> r.revision.Some?)
      ensures r.status.Ok? ==> r.revision.value == revision + 1 && ReplyFits(executed, batch, revision + 1)
      ensures WritesWell(old(script), batch, revision) ==> r.status.Ok?
      ensures Queues(old(script), CommandsOf(batch)) && old(script)[CommandsOf(batch) + 1].value.Nil? ==>
        r == Failed(WatchConflict) && mode == Idle && script == old(script)[CommandsOf(batch) + 2..]
    {
      hide Spoken, ViewAfter, Taken, Carries;
      ghost var honest := WritesWell(old(script), batch, revision);
      if honest { FitsHasNoError(old(script)[CommandsOf(batch) + 1].value.elements, batch, revision + 1); }
      BatchIsCarried(batch);
      var status, values := Transact(BatchWrites(batch) + [Incr]);
      if !status.Ok? {
        return Failed(status);
      }
      var fits := CheckReply(values, batch, revision);
      if !fits {
        return Failed(BadProtocol);
      }
      return StoreResult(Ok, Some(revision + 1));
    }

    method CheckReply(values: seq<RedisValue>, batch: seq<Mutation>, revision: nat) returns (fits: bool)
      ensures fits <==> ReplyFits(values, batch, revision + 1)
    {
      var expected := CommandsOf(batch);
      if |values| != expected {
        return false;
      }
      var clear := batch != [] && batch[0].ClearAll?;
      for i := 0 to expected - 1
        invariant forall j :: 0 <= j < i ==> ElementFits(values[j], j, clear)
      {
        if i % 2 == 1 {
          if !values[i].Text? || values[i].text == "" {
            assert !ElementFits(values[i], i, clear);
            return false;
          }
        } else if !NonNegative(values[i]) || (clear && values[i].value > 3) {
          assert !ElementFits(values[i], i, clear);
          return false;
        }
      }
      return values[expected - 1] == Integer(revision + 1);
    }

    // Every id canonical, every expiry past, and no entity twice.
    method CheckExpired(entries: seq<(Key, nat)>, nowMs: nat) returns (ok: bool)
      ensures ok <==> AllRemovable(canon, entries, nowMs)
    {
      var seen: set<Key> := {};
      for i := 0 to |entries|
        invariant forall k :: k in seen <==> exists j :: 0 <= j < i && entries[j].0 == k
        invariant AllRemovable(canon, entries[..i], nowMs)
      {
        var (k, expiry) := entries[i];
        var normalized := MakeDisable(canon, k.kind, k.id);
        if normalized.None? || normalized.value.key.id != k.id || !Expired(expiry, nowMs) ||
           expiry > MAX_EXPIRE_AT_MS || k in seen {
          assert entries[i] == (k, expiry);
          assert !AllRemovable(canon, entries, nowMs) by {
            if k in seen {
              var j :| 0 <= j < i && entries[j].0 == k;
            }
          }
          return false;
        }
        assert Removable(canon, entries[i], nowMs);
        assert entries[..i + 1] == entries[..i] + [entries[i]];
        seen := seen + {k};
      }
      assert entries[..|entries|] == entries;
      return true;
    }

    // HGET of every scanned entry, each of which must still have its scanned expiry.
    method RecheckExpiries(entries: seq<(Key, nat)>, nowMs: nat, ghost scanned: Table) returns (status: Status)
      requires Valid() && view.Txn? && task.RemoveExpired? && task.expired == scanned
      requires forall f :: f in entries ==> f.0 in scanned && scanned[f.0] == f.1
      modifies `mode, `script, `commits, `executed, `talk, `view
      ensures Valid() && (mode == old(mode) || mode == Gone) && commits == old(commits)
      ensures status.Ok? ==> mode == old(mode) && view.Txn? && view.queued == old(view).queued
      ensures status.Ok? ==> view.got.revision == old(view).got.revision
      ensures status.Ok? ==> forall f :: f in entries ==> f.0 in view.got.fields && view.got.fields[f.0] == Some(f.1)
      ensures !status.Ok? ==> Early(status)
      ensures (forall f :: f in entries ==> Expired(f.1, nowMs)) ==>
        !old(mode).Gone? && SaysExpiries(old(script), 0, entries) ==> status.Ok? && script == old(script)[|entries|..]
    {
      hide Spoken, ViewAfter, Taken, Carries, ParseUnsigned;
      ghost var honest := !old(mode).Gone? && SaysExpiries(old(script), 0, entries);
      for i := 0 to |entries|
        invariant honest ==> script == old(script)[i..]
        invariant Valid() && mode == old(mode) && commits == old(commits) && view.Txn?
        invariant view.queued == old(view).queued && view.got.revision == old(view).got.revision
        invariant forall j :: 0 <= j < i ==> Confirmed(view.got, entries[j].0, scanned)
      {
        assert entries[i] in entries;
        WatchedWhenExpired(task, entries[i].0);
        assert honest ==> SaysExpiry(old(script), 0 + i, entries[i].1);
        var r := Send(HGet(entries[i].0));
        if r.status != Delivered {
          return CommandStatusOf(r);
        }
        if r.value.Nil? {
          return WatchConflict;
        }
        if !r.value.Text? {
          return InvalidRemoteState;
        }
        var expiry := ParseUnsigned(r.value.text, MAX_EXPIRE_AT_MS);
        if expiry.None? {
          return InvalidRemoteState;
        }
        if expiry.value != entries[i].1 || expiry.value == 0 || expiry.value > nowMs {
          return WatchConflict;
        }
      }
      return Ok;
    }

    method RemoveExpiredFields(entries: seq<(Key, nat)>, expectedRevision: nat, nowMs: nat) returns (r: StoreResult)
      requires Clean()
      modifies this
      ensures Clean() && task == R.RemoveExpired(Put(map[], entries), expectedRevision, nowMs) && start == old(commits)
      ensures Truthful(r.status, old(commits), commits)
      ensures r.status.Ok? ==> r.revision == Some(expectedRevision + 1) && AllRemovable(canon, entries, nowMs)
      ensures r.status.Ok? ==> executed == Removed(entries, expectedRevision + 1)
      ensures old(mode).Idle? && entries != [] && expectedRevision < R.MAX_REDIS_INTEGER ==>
        AllRemovable(canon, entries, nowMs) && CleansWell(old(script), entries, expectedRevision) ==> r.status.Ok?
    {
      hide Spoken, ViewAfter, Taken, Carries, Put, HDels, Removed, AllRemovable, ConfirmsScan;
      hide ByKind, Hashes, KindsFound;
      Begin(R.RemoveExpired(Put(map[], entries), expectedRevision, nowMs));
      if entries == [] || expectedRevision >= R.MAX_REDIS_INTEGER {
        return Failed(BadProtocol);
      }
      var clean := CheckExpired(entries, nowMs);
      if !clean {
        return Failed(BadProtocol);
      }
      RemovableIsAdmissible(canon, entries, expectedRevision, nowMs);
      RemovableHasExpired(canon, entries, nowMs);
      var kinds := KindsFound(entries);
      var status := BeginWatch({R.RevisionKey} + R.HashKeys(kinds));
      if !status.Ok? {
        return Failed(status);
      }
      status := ReadForCleanup(entries, expectedRevision, nowMs);
      if !status.Ok? {
        status := LeaveWatch(status);
        return Failed(status);
      }
      RemovalIsCarried(entries, expectedRevision, nowMs);
      var values;
      status, values := Transact(HDels(entries) + [Incr]);
      if !status.Ok? {
        return Failed(status);
      }
      if values != Removed(entries, expectedRevision + 1) {
        return Failed(BadProtocol);
      }
      return StoreResult(Ok, Some(expectedRevision + 1));
    }

    method ReadForCleanup(entries: seq<(Key, nat)>, expectedRevision: nat, nowMs: nat) returns (status: Status)
      requires Valid() && view.Txn? && task == R.RemoveExpired(Put(map[], entries), expectedRevision, nowMs)
      requires Distinct(entries)
      modifies `mode, `script, `commits, `executed, `talk, `view
      ensures Valid() && (mode == old(mode) || mode == Gone) && commits == old(commits)
      ensures status.Ok? ==> mode == old(mode) && view.Txn? && view.queued == old(view).queued
      ensures status.Ok? ==> R.MayExec(task, view.got)
      ensures !status.Ok? ==> Early(status)
      ensures (forall f :: f in ByKind(entries) ==> Expired(f.1, nowMs)) ==>
        !old(mode).Gone? && ConfirmsScan(old(script), entries, expectedRevision) ==>
        status.Ok? && script == old(script)[ScanTurns(entries)..]
    {
      hide Spoken, ViewAfter, Taken, Carries, Put, ByKind, Distinct, Hashes, KindsFound, R.MayExec, ParseUnsigned;
      status := EnsureType(R.RevisionKey, "string", false);
      if !status.Ok? {
        return;
      }
      ghost var honest := ConfirmsScan(old(script), entries, expectedRevision);
      ghost var hashes := |Hashes(KindsFound(entries))|;
      if honest { ScanShifts(old(script), entries, expectedRevision); }
      status := EnsureTypes(Hashes(KindsFound(entries)), "hash", true);
      if !status.Ok? {
        return;
      }
      assert honest ==> script == old(script)[hashes + 1..];
      var revision;
      status, revision := GetRevision(R.MAX_REDIS_INTEGER - 1);
      if !status.Ok? {
        return;
      }
      if revision != expectedRevision {
        return WatchConflict;
      }
      assert honest ==> script == old(script)[hashes + 2..];
      ghost var scanned := Put(map[], entries);
      forall f | f in ByKind(entries) ensures f.0 in scanned && scanned[f.0] == f.1 {
        DistinctIsTable(entries);
        ByKindHasAll(entries);
        assert (f.0, f.1) in entries;
      }
      status := RecheckExpiries(ByKind(entries), nowMs, scanned);
      if status.Ok? { ConfirmedMayExec(entries, task, view.got); }
      assert honest && script == old(script)[hashes + 2..][|ByKind(entries)|..] ==>
        script == old(script)[ScanTurns(entries)..];
    }

    method SetPublishedRevision(revision: nat) returns (status: Status)
      requires Clean()
      modifies this
      ensures Clean() && task == R.SetPublished(revision) && start == old(commits)
      ensures Truthful(status, old(commits), commits) && (status.Ok? ==> executed == [StatusReply("OK")])
      ensures old(mode).Idle? && revision <= R.MAX_REDIS_INTEGER && Says(old(script), 0, StatusReply("OK")) ==>
        SaysType(old(script), 1, "string", true) && RunsTo(old(script)[2..], 1, [StatusReply("OK")]) ==> status.Ok?
    {
      hide Spoken, ViewAfter, Taken, Carries;
      Begin(R.SetPublished(revision));
      if revision > R.MAX_REDIS_INTEGER {
        return BadProtocol;
      }
      status := BeginWatch({R.PublishedKey});
      if !status.Ok? {
        return;
      }
      status := EnsureType(R.PublishedKey, "string", true);
      if !status.Ok? {
        status := LeaveWatch(status);
        return;
      }
      OneWriteIsCarried(revision);
      var values;
      status, values := Transact([SetPublished(revision)]);
      if status.Ok? && (|values| != 1 || !IsOk(values[0])) {
        status := BadProtocol;
      }
    }

    // HMGET of the two counters; absent ones read as zero, and completed may not lead.
    method ReadResetBarrier() returns (status: Status, requested: nat, completed: nat)
      requires Valid() && (view.Txn? ==> task.CompleteBarrier?)
      modifies `mode, `script, `commits, `executed, `talk, `view
      ensures Valid() && (mode == old(mode) || mode == Gone) && commits == old(commits)
      ensures status.Ok? <==> !old(mode).Gone? && SaysBarrier(old(script))
      ensures status.Ok? ==> mode == old(mode) && Some((requested, completed)) == BarrierIn(old(script)[0].value)
      ensures status.Ok? ==> script == old(script)[1..]
      ensures status.Ok? && old(view).Txn? ==>
        view == old(view).(got := old(view).got.(barrier := Some((requested, completed))))
      ensures !status.Ok? ==> Early(status)
    {
      hide Spoken, ViewAfter, Taken, Carries;
      var r := Send(HMGet);
      if r.status != Delivered {
        return CommandStatusOf(r), 0, 0;
      }
      if r.value.ErrorReply? {
        return InvalidRemoteState, 0, 0;
      }
      if !r.value.Array? || |r.value.elements| != 2 {
        return BadProtocol, 0, 0;
      }
      var counts := [0, 0];
      for i := 0 to 2
        invariant |counts| == 2 && forall j :: 0 <= j < i ==> CountIn(r.value.elements[j]) == Some(counts[j])
        invariant forall j :: i <= j < 2 ==> counts[j] == 0
      {
        var v := r.value.elements[i];
        if !v.Nil? {
          if !v.Text? {
            return InvalidRemoteState, 0, 0;
          }
          var parsed := ParseUnsigned(v.text, R.MAX_REDIS_INTEGER);
          if parsed.None? {
            return InvalidRemoteState, 0, 0;
          }
          counts := counts[i := parsed.value];
        }
      }
      if counts[1] > counts[0] {
        return InvalidRemoteState, 0, 0;
      }
      return Ok, counts[0], counts[1];
    }

    method CompleteResetBarrier(token: nat) returns (status: Status)
      requires Clean()
      modifies this
      ensures Clean() && task == R.CompleteBarrier(token) && start == old(commits)
      ensures Truthful(status, old(commits), commits)
      ensures status.Ok? ==> |executed| == 1 && NonNegative(executed[0])
      ensures old(mode).Idle? && 1 <= token <= R.MAX_REDIS_INTEGER && ReadsBarrier(old(script)) ==>
        CompletedIn(old(script)) <= token <= RequestedIn(old(script)) && RunsWell(old(script)[2..], 1) ==>
        |old(script)[4].value.elements| == 1 && NonNegative(old(script)[4].value.elements[0]) ==>
        status.Ok? && commits == old(commits) + 1
      ensures old(mode).Idle? && 1 <= token <= R.MAX_REDIS_INTEGER && ReadsBarrier(old(script)) ==>
        Says(old(script), 2, StatusReply("OK")) ==>
        (status.InvalidRemoteState? <==> token < CompletedIn(old(script)) || token > RequestedIn(old(script)))
    {
      hide Spoken, ViewAfter, Taken, Carries;
      Begin(R.CompleteBarrier(token));
      if token == 0 || token > R.MAX_REDIS_INTEGER {
        return BadProtocol;
      }
      status := BeginWatch({R.BarrierKey});
      if !status.Ok? {
        return;
      }
      var requested, completed;
      status, requested, completed := ReadResetBarrier();
      if !status.Ok? || token > requested || token < completed {
        status := LeaveWatch(if status.Ok? then InvalidRemoteState else status);
        return;
      }
      OneWriteIsCarried(token);
      var values;
      status, values := Transact([SetCompleted(token)]);
      if status.Ok? && (|values| != 1 || !NonNegative(values[0])) {
        status := BadProtocol;
      }
    }

    method CheckRows(rows: seq<(Key, nat)>) returns (ok: bool)
      ensures ok <==> forall i :: 0 <= i < |rows| ==> RowOk(canon, rows[i])
    {
      for i := 0 to |rows|
        invariant forall j :: 0 <= j < i ==> RowOk(canon, rows[j])
      {
        var (k, expiry) := rows[i];
        if k.kind.Ip? && canon(k.id) != Some(k.id) {
          return false;
        }
        if k.id == "" || |k.id| > MAX_ENTITY_ID_BYTES || '\0' in k.id || expiry > MAX_EXPIRE_AT_MS {
          return false;
        }
      }
      return true;
    }

    method RebuildFromMysql(rows: seq<(Key, nat)>) returns (r: StoreResult)
      requires Clean()
      modifies this
      ensures Clean() && task == R.Rebuild(Put(map[], rows)) && start == old(commits)
      ensures Truthful(r.status, old(commits), commits) && (r.status.Ok? <==> r.revision.Some?)
      ensures r.status.Ok? ==> forall i :: 0 <= i < |rows| ==> RowOk(canon, rows[i])
      ensures r.status.Ok? ==> RebuiltFits(executed, |HSets(rows)| + 3, r.revision.value)
      ensures old(mode).Idle? && (forall i :: 0 <= i < |rows| ==> RowOk(canon, rows[i])) ==>
        RebuildsWell(old(script), |HSets(rows)| + 3) ==>
        r == StoreResult(Ok, Some(RebuildsFrom(old(script)[1..]) + 1))
    {
      hide Spoken, ViewAfter, Taken, Carries, Put, HSets, RebuiltFits, RowOk;
      Begin(R.Rebuild(Put(map[], rows)));
      var status := BeginWatch({R.ReadyKey, R.RevisionKey} + R.HashKeys({User, Ip, Device}));
      if !status.Ok? {
        return Failed(status);
      }
      var previous;
      status, previous := ReadForRebuild();
      var wellFormed := CheckRows(rows);
      if status.Ok? && !wellFormed {
        status := BadProtocol;
      }
      if !status.Ok? {
        status := LeaveWatch(status);
        return Failed(status);
      }
      RebuildIsCarried(rows);
      var writes := [DelHashes] + HSets(rows) + [Incr, SetReady];
      var values;
      status, values := Transact(writes);
      if !status.Ok? {
        return Failed(status);
      }
      var fits := CheckRebuilt(values, |writes|, previous + 1);
      if !fits {
        return Failed(BadProtocol);
      }
      return StoreResult(Ok, Some(previous + 1));
    }

    method CheckRebuilt(values: seq<RedisValue>, commands: nat, revision: nat) returns (fits: bool)
      requires commands >= 3
      ensures fits <==> RebuiltFits(values, commands, revision)
    {
      if |values| != commands {
        return false;
      }
      for i := 0 to commands
        invariant forall j :: 0 <= j < i && j < commands - 2 ==> NonNegative(values[j])
        invariant i > 0 ==> NonNegative(values[0]) && values[0].value <= 3
        invariant i == commands ==> IsOk(values[commands - 1])
        invariant i >= commands - 1 ==> values[commands - 2] == Integer(revision)
      {
        if i + 1 == commands {
          if !IsOk(values[i]) {
            return false;
          }
        } else if i + 2 == commands {
          if values[i] != Integer(revision) {
            return false;
          }
        } else if !NonNegative(values[i]) || (i == 0 && values[i].value > 3) {
          return false;
        }
      }
      return true;
    }

    method ReadForRebuild() returns (status: Status, previous: nat)
      requires Valid() && view.Txn? && task.Rebuild?
      modifies `mode, `script, `commits, `executed, `talk, `view
      ensures Valid() && (mode == old(mode) || mode == Gone) && commits == old(commits)
      ensures status.Ok? ==> mode == old(mode) && previous < R.MAX_REDIS_INTEGER
      ensures status.Ok? ==> view == old(view).(got := old(view).got.(ready := Some(false), revision := Some(previous)))
      ensures !status.Ok? ==> Early(status)
      ensures !old(mode).Gone? && AllowsRebuild(old(script)) ==>
        status.Ok? && previous == RebuildsFrom(old(script)) && script == old(script)[7..]
    {
      hide Spoken, ViewAfter, Taken, Carries, SaysTypes;
      previous := 0;
      ghost var honest := !mode.Gone? && AllowsRebuild(script);
      if honest { TypesShift(script, 2, 3, "hash", true); }
      status := EnsureTypes([R.ReadyKey, R.RevisionKey], "string", true);
      if !status.Ok? {
        return;
      }
      status := EnsureTypes([R.HashKey(User), R.HashKey(Ip), R.HashKey(Device)], "hash", true);
      if !status.Ok? {
        return;
      }
      assert honest ==> script == old(script)[5..] && script[0] == old(script)[5] && script[1] == old(script)[6];
      var ready := Send(Get(R.ReadyKey));
      if ready.status != Delivered {
        return CommandStatusOf(ready), 0;
      }
      if ready.value == Text("1") {
        return WatchConflict, 0;
      }
      if !ready.value.Nil? {
        return InvalidRemoteState, 0;
      }
      var revision := Send(Get(R.RevisionKey));
      assert honest ==> revision == old(script)[6] && script == old(script)[7..];
      if revision.status != Delivered {
        return CommandStatusOf(revision), 0;
      }
      if revision.value.Text? {
        var parsed := ParseUnsigned(revision.value.text, R.MAX_REDIS_INTEGER - 1);
        if parsed.None? {
          return InvalidRemoteState, 0;
        }
        previous := parsed.value;
      } else if !revision.value.Nil? {
        return InvalidRemoteState, 0;
      }
      status := Ok;
    }

    /** The administration tool's retry: only a definite conflict is tried again, so one
        command never writes its mutation twice. It gets through when the conflicts stop in
        time, and otherwise says so. */
    method ApplyWithRetry(mutation: Mutation, attempts: nat) returns (r: StoreResult)
      requires Clean()
      modifies this
      ensures Clean() && Truthful(r.status, old(commits), commits) && !r.status.WatchConflict?
      ensures attempts > 0 ==> task == R.ApplyBatch([mutation])
      ensures r.status.Ok? ==> r.revision.Some? && ReplyFits(executed, [mutation], r.revision.value)
      ensures forall k :: 0 <= k < attempts && old(mode).Idle? && EndsAfter(old(script), [mutation], k) ==>
        r == EndOf(Later(old(script), [mutation], k), [mutation])
      ensures old(mode).Idle? && KeepsConflicting(old(script), [mutation], attempts) ==>
        r == Failed(DeadlineExceeded) && commits == old(commits)
    {
      ghost var batch := [mutation];
      assert Later(script, batch, 0) == script && WellFormedBatch(batch);
      hide Spoken, ViewAfter, Taken, Carries, Conflicts, Cooperates, TurnsOf, ReplyFits;
      hide KeepsConflicting, EndsAfter, Ends, EndOf, Later, WellFormedBatch;
      for i := 0 to attempts
        invariant Clean() && commits == old(commits) && (i > 0 ==> task == R.ApplyBatch(batch))
        invariant old(mode).Idle? && KeepsConflicting(old(script), batch, i) ==>
          mode == Idle && script == Later(old(script), batch, i)
        invariant forall k :: 0 <= k < i ==> !(old(mode).Idle? && EndsAfter(old(script), batch, k))
      {
        if KeepsConflicting(old(script), batch, i + 1) { NextRound(old(script), batch, i); }
        LastRound(old(script), batch, i);
        r := ApplyMutations([mutation]);
        if !r.status.WatchConflict? {
          if old(mode).Idle? { RoundsEnd(old(script), batch, i); }
          return;
        }
      }
      return Failed(DeadlineExceeded);
    }
  }

  /** Whatever an operation of the store has said, among any other clients, is a run of the
      machine with the machine's own operation, which commits it as often as the store's
      transactions took effect. */
  lemma OperationIsARun(store: BlacklistRedisStore, s: R.State, c: nat, others: seq<seq<R.Label>>)
    requires store.Valid() && c !in s.conns && |others| == |store.talk|
    requires Possible(s, c, store.task, NoTxn, store.talk, others)
    ensures var ls := Labels(c, store.task, NoTxn, store.talk, others);
      R.CanRun(s, ls) && OwnCommits(ls, c) == store.commits - store.start &&
      (store.commits > store.start ==> store.task in R.After(s, ls).commits)
  {
    ConversationIsARun(s, c, store.task, NoTxn, store.talk, others);
    PossibleIsForeign(s, c, store.task, NoTxn, store.talk, others);
    CommitsAreTaken(c, store.task, NoTxn, store.talk, others);
  }
}
