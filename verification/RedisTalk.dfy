/** One operation's conversation with the server: the commands with their keys and values,
    what the connection has learnt under WATCH and queued under MULTI, and why every such
    conversation, in between those of other clients, is a run of the shared machine. */
module RedisTalk {
  import opened Wrappers
  import opened Blacklist
  import opened StreamCodec
  import R = RedisMachine

  datatype CommandStatus = Delivered | Late | Broken | Garbled

  // applied says whether an EXEC whose reply was lost or garbled took effect.
  datatype Reply = Reply(status: CommandStatus, value: RedisValue, applied: bool)

  datatype Write =
    | DelHashes
    | HSet(fields: seq<(Key, nat)>)
    | HDel(fields: seq<(Key, nat)>)
    | XAdd(mutation: Mutation)
    | Incr
    | SetReady
    | SetPublished(value: nat)
    | SetCompleted(token: nat)

  datatype Command =
    | Watch(keys: set<R.WatchKey>)
    | Unwatch
    | TypeOf(key: R.WatchKey)
    | Get(key: R.WatchKey)
    | HGet(field: Key)
    | HMGet
    | Multi
    | Queue(write: Write)
    | Discard
    | Exec

  // Closed: the client gives the connection up, and the server drops what it held for it.
  datatype Turn = Said(command: Command, reply: Reply) | Closed

  predicate IsOk(v: RedisValue) {
    v == StatusReply("OK")
  }

  // An array is the reply of an executed transaction; nil and errors are refusals.
  predicate TookEffect(command: Command, r: Reply) {
    command.Exec? &&
    match r.status
    case Late => false
    case Delivered => r.value.Array?
    case _ => r.applied
  }

  /* What the commands of a transaction do, one after another. */

  function Put(t: Table, fields: seq<(Key, nat)>): Table {
    if fields == [] then t
    else var last := |fields| - 1; Put(t, fields[..last])[fields[last].0 := fields[last].1]
  }

  function KeysOf(fields: seq<(Key, nat)>): set<Key> {
    set i | 0 <= i < |fields| :: fields[i].0
  }

  function Effect(r: R.Redis, w: Write): R.Redis {
    match w
    case DelHashes => r.(hashes := map[])
    case HSet(fields) => r.(hashes := Put(r.hashes, fields))
    case HDel(fields) => r.(hashes := r.hashes - KeysOf(fields))
    case XAdd(m) => r.(stream := r.stream + [R.Entry(r.lastId + 1, Some(m))], lastId := r.lastId + 1)
    case Incr => r.(revision := r.revision + 1)
    case SetReady => r.(ready := true)
    case SetPublished(v) => r.(published := v)
    case SetCompleted(token) => r.(completed := token)
  }

  function Effects(r: R.Redis, ws: seq<Write>): R.Redis
    decreases |ws|
  {
    if ws == [] then r else Effects(Effect(r, ws[0]), ws[1..])
  }

  lemma {:induction false} EffectsAppend(r: R.Redis, p: seq<Write>, q: seq<Write>)
    ensures Effects(r, p + q) == Effects(Effects(r, p), q)
    decreases |p|
  {
    if p == [] {
      assert p + q == q;
    } else {
      assert (p + q)[0] == p[0] && (p + q)[1..] == p[1..] + q;
      EffectsAppend(Effect(r, p[0]), p[1..], q);
    }
  }

  lemma OneWrite(r: R.Redis, w: Write)
    ensures Effects(r, [w]) == Effect(r, w)
  {
    assert [w][1..] == [];
  }

  lemma TwoWrites(r: R.Redis, a: Write, b: Write)
    ensures Effects(r, [a, b]) == Effect(Effect(r, a), b)
  {
    assert [a, b][1..] == [b];
    OneWrite(Effect(r, a), b);
  }

  function HashWrite(m: Mutation): Write {
    match m
    case Upsert(k, _, e) => HSet([(k, e)])
    case Disable(k) => HDel([(k, 0)])
    case ClearAll => DelHashes
  }

  // A hash command and an XADD for each mutation.
  function BatchWrites(batch: seq<Mutation>): (ws: seq<Write>)
    ensures |ws| == 2 * |batch|
  {
    if batch == [] then [] else [HashWrite(batch[0]), XAdd(batch[0])] + BatchWrites(batch[1..])
  }

  function OfKind(fields: seq<(Key, nat)>, kind: EntityType): seq<(Key, nat)> {
    if fields == [] then []
    else
      var last := |fields| - 1;
      OfKind(fields[..last], kind) + if fields[last].0.kind == kind then [fields[last]] else []
  }

  function HSetOf(group: seq<(Key, nat)>): seq<Write> {
    if group == [] then [] else [HSet(group)]
  }

  function HDelOf(group: seq<(Key, nat)>): seq<Write> {
    if group == [] then [] else [HDel(group)]
  }

  function HSets(entries: seq<(Key, nat)>): seq<Write> {
    HSetOf(OfKind(entries, User)) + HSetOf(OfKind(entries, Ip)) + HSetOf(OfKind(entries, Device))
  }

  function HDels(entries: seq<(Key, nat)>): seq<Write> {
    HDelOf(OfKind(entries, User)) + HDelOf(OfKind(entries, Ip)) + HDelOf(OfKind(entries, Device))
  }

  // The queued commands do to any Redis what the machine commits in one step.
  ghost predicate Carries(op: R.Op, ws: seq<Write>) {
    forall r :: Effects(r, ws) == R.Commit(r, op)
  }

  lemma {:induction false} BatchEffect(r: R.Redis, batch: seq<Mutation>)
    ensures Effects(r, BatchWrites(batch)) ==
      r.(hashes := Replay(r.hashes, batch),
         stream := r.stream + R.Records(r.lastId + 1, batch),
         lastId := r.lastId + |batch|)
    decreases |batch|
  {
    if batch == [] {
      assert r.stream + R.Records(r.lastId + 1, batch) == r.stream;
    } else {
      var m, rest := batch[0], batch[1..];
      var one := Effects(r, [HashWrite(m), XAdd(m)]);
      OneMutation(r, m);
      EffectsAppend(r, [HashWrite(m), XAdd(m)], BatchWrites(rest));
      BatchEffect(one, rest);
      var all, later := R.Records(r.lastId + 1, batch), R.Records(one.lastId + 1, rest);
      assert all == [all[0]] + later;
      assert one.stream + later == r.stream + all;
    }
  }

  lemma OneMutation(r: R.Redis, m: Mutation)
    ensures Effects(r, [HashWrite(m), XAdd(m)]) ==
      r.(hashes := Apply(r.hashes, m),
         stream := r.stream + [R.Entry(r.lastId + 1, Some(m))],
         lastId := r.lastId + 1)
  {
    hide Effects, HashWrite, Apply, Effect;
    TwoWrites(r, HashWrite(m), XAdd(m));
    HashWriteApplies(r, m);
    XAddAppends(Effect(r, HashWrite(m)), m);
  }

  lemma XAddAppends(r: R.Redis, m: Mutation)
    ensures Effect(r, XAdd(m)) == r.(stream := r.stream + [R.Entry(r.lastId + 1, Some(m))], lastId := r.lastId + 1)
  {}

  lemma HashWriteApplies(r: R.Redis, m: Mutation)
    ensures Effect(r, HashWrite(m)) == r.(hashes := Apply(r.hashes, m))
  {
    hide Put;
    if m.Upsert? {
      OnePut(r.hashes, m.key, m.expireAt);
    } else if m.Disable? {
      assert KeysOf([(m.key, 0)]) == {m.key} by {
        assert [(m.key, 0)][0].0 == m.key;
      }
    }
  }

  lemma OnePut(t: Table, k: Key, e: nat)
    ensures Put(t, [(k, e)]) == t[k := e]
  {
    assert [(k, e)][..0] == [];
  }

  /** HSET, HDEL, DEL and XADD for each mutation and one INCR are together the batch. */
  lemma BatchIsCarried(batch: seq<Mutation>)
    ensures Carries(R.ApplyBatch(batch), BatchWrites(batch) + [Incr])
  {
    forall r ensures Effects(r, BatchWrites(batch) + [Incr]) == R.Commit(r, R.ApplyBatch(batch)) {
      BatchEffect(r, batch);
      EffectsAppend(r, BatchWrites(batch), [Incr]);
      assert [Incr][1..] == [];
    }
  }

  // The value of the last pair for k.
  function LastOf(fields: seq<(Key, nat)>, k: Key): Option<nat> {
    if fields == [] then None
    else
      var last := |fields| - 1;
      if fields[last].0 == k then Some(fields[last].1) else LastOf(fields[..last], k)
  }

  lemma {:induction false} PutIsLast(t: Table, fields: seq<(Key, nat)>, k: Key)
    ensures R.FieldAt(Put(t, fields), k) == if LastOf(fields, k).Some? then LastOf(fields, k) else R.FieldAt(t, k)
    decreases |fields|
  {
    if fields != [] { PutIsLast(t, fields[..|fields| - 1], k); }
  }

  lemma {:induction false} LastOfKind(fields: seq<(Key, nat)>, kind: EntityType, k: Key)
    ensures LastOf(OfKind(fields, kind), k) == if k.kind == kind then LastOf(fields, k) else None
    decreases |fields|
  {
    if fields != [] {
      var last := |fields| - 1;
      LastOfKind(fields[..last], kind, k);
      var before := OfKind(fields[..last], kind);
      if fields[last].0.kind == kind {
        assert (before + [fields[last]])[..|before|] == before;
      } else {
        assert OfKind(fields, kind) == before;
      }
    }
  }

  lemma SameTable(a: Table, b: Table)
    requires forall k :: R.FieldAt(a, k) == R.FieldAt(b, k)
    ensures a == b
  {
    forall k ensures (k in a <==> k in b) && (k in a ==> a[k] == b[k]) {
      assert R.FieldAt(a, k) == R.FieldAt(b, k);
    }
  }

  // Hash by hash or all at once.
  lemma PutByKind(entries: seq<(Key, nat)>)
    ensures Put(Put(Put(map[], OfKind(entries, User)), OfKind(entries, Ip)), OfKind(entries, Device)) ==
      Put(map[], entries)
  {
    var u, i, d := OfKind(entries, User), OfKind(entries, Ip), OfKind(entries, Device);
    var t1 := Put(map[], u);
    var t2 := Put(t1, i);
    forall k ensures R.FieldAt(Put(t2, d), k) == R.FieldAt(Put(map[], entries), k) {
      PutIsLast(map[], u, k);
      PutIsLast(t1, i, k);
      PutIsLast(t2, d, k);
      PutIsLast(map[], entries, k);
      LastOfKind(entries, User, k);
      LastOfKind(entries, Ip, k);
      LastOfKind(entries, Device, k);
    }
    SameTable(Put(t2, d), Put(map[], entries));
  }

  lemma HSetEffect(r: R.Redis, group: seq<(Key, nat)>)
    ensures Effects(r, HSetOf(group)) == r.(hashes := Put(r.hashes, group))
  {
    if group != [] { assert [HSet(group)][1..] == []; }
  }

  lemma HDelEffect(r: R.Redis, group: seq<(Key, nat)>)
    ensures Effects(r, HDelOf(group)) == r.(hashes := r.hashes - KeysOf(group))
  {
    if group == [] {
      assert r.hashes - KeysOf(group) == r.hashes;
    } else {
      assert [HDel(group)][1..] == [];
    }
  }

  lemma HSetsEffect(r: R.Redis, entries: seq<(Key, nat)>)
    requires r.hashes == map[]
    ensures Effects(r, HSets(entries)) == r.(hashes := Put(map[], entries))
  {
    hide Put, Effects, HSetOf;
    var u, i, d := OfKind(entries, User), OfKind(entries, Ip), OfKind(entries, Device);
    var r1 := r.(hashes := Put(r.hashes, u));
    var r2 := r1.(hashes := Put(r1.hashes, i));
    HSetEffect(r, u);
    HSetEffect(r1, i);
    HSetEffect(r2, d);
    EffectsAppend(r, HSetOf(u), HSetOf(i));
    EffectsAppend(r, HSetOf(u) + HSetOf(i), HSetOf(d));
    PutByKind(entries);
  }

  /** Clearing and refilling hash by hash is the rebuild from the whole list of rows, where
      a later row for the same entity wins. */
  lemma RebuildIsCarried(entries: seq<(Key, nat)>)
    ensures Carries(R.Rebuild(Put(map[], entries)), [DelHashes] + HSets(entries) + [Incr, SetReady])
  {
    hide Put, Effects, HSets;
    var fill := HSets(entries);
    var ws := [DelHashes] + fill + [Incr, SetReady];
    forall r ensures Effects(r, ws) == R.Commit(r, R.Rebuild(Put(map[], entries))) {
      OneWrite(r, DelHashes);
      EffectsAppend(r, [DelHashes], fill);
      EffectsAppend(r, [DelHashes] + fill, [Incr, SetReady]);
      HSetsEffect(r.(hashes := map[]), entries);
      TwoWrites(Effects(r, [DelHashes] + fill), Incr, SetReady);
    }
  }

  lemma {:induction false} KeysByKind(entries: seq<(Key, nat)>, kind: EntityType)
    ensures forall k :: k in KeysOf(OfKind(entries, kind)) <==> k in KeysOf(entries) && k.kind == kind
    decreases |entries|
  {
    if entries != [] {
      var last := |entries| - 1;
      KeysByKind(entries[..last], kind);
      KeysSnoc(entries);
      KeysSnoc(OfKind(entries, kind));
      var before := OfKind(entries[..last], kind);
      if entries[last].0.kind == kind {
        assert (before + [entries[last]])[..|before|] == before;
      } else {
        assert OfKind(entries, kind) == before;
      }
    }
  }

  lemma KeysSnoc(fields: seq<(Key, nat)>)
    ensures fields != [] ==> KeysOf(fields) == KeysOf(fields[..|fields| - 1]) + {fields[|fields| - 1].0}
  {
    if fields != [] {
      var last := |fields| - 1;
      forall k | k in KeysOf(fields) ensures k in KeysOf(fields[..last]) + {fields[last].0} {
        var i :| 0 <= i < |fields| && fields[i].0 == k;
        if i < last { assert fields[..last][i].0 == k; }
      }
      forall k | k in KeysOf(fields[..last]) ensures k in KeysOf(fields) {
        var i :| 0 <= i < last && fields[..last][i].0 == k;
        assert fields[i].0 == k;
      }
    }
  }

  lemma {:induction false} PutKeys(fields: seq<(Key, nat)>)
    ensures Put(map[], fields).Keys == KeysOf(fields)
    decreases |fields|
  {
    if fields != [] {
      PutKeys(fields[..|fields| - 1]);
      KeysSnoc(fields);
    }
  }

  lemma HDelsEffect(r: R.Redis, entries: seq<(Key, nat)>)
    ensures Effects(r, HDels(entries)) == r.(hashes := r.hashes - KeysOf(entries))
  {
    hide Effects, HDelOf, KeysOf;
    var u, i, d := OfKind(entries, User), OfKind(entries, Ip), OfKind(entries, Device);
    var r1 := r.(hashes := r.hashes - KeysOf(u));
    var r2 := r1.(hashes := r1.hashes - KeysOf(i));
    HDelEffect(r, u);
    HDelEffect(r1, i);
    HDelEffect(r2, d);
    EffectsAppend(r, HDelOf(u), HDelOf(i));
    EffectsAppend(r, HDelOf(u) + HDelOf(i), HDelOf(d));
    KeysByKind(entries, User);
    KeysByKind(entries, Ip);
    KeysByKind(entries, Device);
    assert r2.hashes - KeysOf(d) == r.hashes - KeysOf(entries) by {
      assert forall k: Key :: k.kind == User || k.kind == Ip || k.kind == Device;
    }
  }

  /** One HDEL for each hash that has expired fields is the removal of them all. */
  lemma RemovalIsCarried(entries: seq<(Key, nat)>, expected: nat, now: nat)
    ensures Carries(R.RemoveExpired(Put(map[], entries), expected, now), HDels(entries) + [Incr])
  {
    var op := R.RemoveExpired(Put(map[], entries), expected, now);
    forall r ensures Effects(r, HDels(entries) + [Incr]) == R.Commit(r, op) {
      EffectsAppend(r, HDels(entries), [Incr]);
      HDelsEffect(r, entries);
      PutKeys(entries);
      OneWrite(Effects(r, HDels(entries)), Incr);
    }
  }

  lemma OneWriteIsCarried(value: nat)
    ensures Carries(R.SetPublished(value), [SetPublished(value)])
    ensures Carries(R.CompleteBarrier(value), [SetCompleted(value)])
  {
    forall r ensures Effects(r, [SetPublished(value)]) == R.Commit(r, R.SetPublished(value)) {
      OneWrite(r, SetPublished(value));
    }
    forall r ensures Effects(r, [SetCompleted(value)]) == R.Commit(r, R.CompleteBarrier(value)) {
      OneWrite(r, SetCompleted(value));
    }
  }

  /* What the connection has learnt and queued. */

  datatype View = NoTxn | Txn(got: R.ReadSet, queued: seq<Write>)

  const NOTHING_READ := R.ReadSet(None, None, map[], None)

  // An absent count reads as zero.
  function CountIn(v: RedisValue): Option<nat> {
    if v.Nil? then Some(0) else if v.Text? then ParseUnsigned(v.text, R.MAX_REDIS_INTEGER) else None
  }

  function BarrierIn(v: RedisValue): Option<(nat, nat)> {
    if !v.Array? || |v.elements| != 2 then None
    else
      var requested, completed := CountIn(v.elements[0]), CountIn(v.elements[1]);
      if requested.None? || completed.None? then None else Some((requested.value, completed.value))
  }

  function Learn(got: R.ReadSet, command: Command, v: RedisValue): R.ReadSet {
    match command
    case Get(ReadyKey) =>
      got.(ready := if v == Text("1") then Some(true) else if v.Nil? then Some(false) else None)
    case Get(RevisionKey) => got.(revision := CountIn(v))
    case HGet(k) =>
      if v.Nil? then got.(fields := got.fields[k := None])
      else if v.Text? && ParseUnsigned(v.text, MAX_EXPIRE_AT_MS).Some? then
        got.(fields := got.fields[k := ParseUnsigned(v.text, MAX_EXPIRE_AT_MS)])
      else got.(fields := got.fields - {k})
    case HMGet => got.(barrier := BarrierIn(v))
    case _ => got
  }

  function NextView(view: View, turn: Turn): View {
    match turn
    case Closed => NoTxn
    case Said(command, r) =>
      match r.status
      case Late => view
      case Broken => NoTxn
      case Garbled => NoTxn
      case Delivered =>
        match command
        case Watch(_) => if IsOk(r.value) then Txn(NOTHING_READ, []) else view
        case Unwatch => if IsOk(r.value) then NoTxn else view
        case Discard => if IsOk(r.value) then NoTxn else view
        case Exec => NoTxn
        case Multi => if view.Txn? && IsOk(r.value) then view.(queued := []) else view
        case Queue(w) =>
          if view.Txn? && r.value == StatusReply("QUEUED") then view.(queued := view.queued + [w]) else view
        case _ => if view.Txn? then view.(got := Learn(view.got, command, r.value)) else view
  }

  // What the client may send when it is at this point of the operation.
  ghost predicate Allowed(op: R.Op, view: View, command: Command) {
    match command
    case Watch(keys) => view.NoTxn? && keys == R.Watched(op) && R.Admissible(op)
    case Get(key) => view.Txn? ==> key in R.Watched(op)
    case HGet(k) => view.Txn? ==> R.HashKey(k.kind) in R.Watched(op)
    case HMGet => view.Txn? ==> op.CompleteBarrier?
    case Exec => view.Txn? && R.MayExec(op, view.got) && Carries(op, view.queued)
    case _ => true
  }

  ghost predicate Spoken(op: R.Op, view: View, turns: seq<Turn>)
    decreases |turns|
  {
    turns == [] ||
    ((turns[0].Said? ==> Allowed(op, view, turns[0].command)) && Spoken(op, NextView(view, turns[0]), turns[1..]))
  }

  function ViewAfter(view: View, turns: seq<Turn>): View
    decreases |turns|
  {
    if turns == [] then view else ViewAfter(NextView(view, turns[0]), turns[1..])
  }

  predicate Effective(turn: Turn) {
    turn.Said? && TookEffect(turn.command, turn.reply)
  }

  // How many transactions took effect.
  function Taken(turns: seq<Turn>): nat {
    if turns == [] then 0 else (if Effective(turns[0]) then 1 else 0) + Taken(turns[1..])
  }

  lemma {:induction false} SpokenSnoc(op: R.Op, view: View, turns: seq<Turn>, turn: Turn)
    requires Spoken(op, view, turns) && (turn.Said? ==> Allowed(op, ViewAfter(view, turns), turn.command))
    ensures Spoken(op, view, turns + [turn])
    ensures ViewAfter(view, turns + [turn]) == NextView(ViewAfter(view, turns), turn)
    ensures Taken(turns + [turn]) == Taken(turns) + if Effective(turn) then 1 else 0
    decreases |turns|
  {
    if turns == [] {
      assert (turns + [turn])[1..] == [];
    } else {
      assert (turns + [turn])[1..] == turns[1..] + [turn];
      SpokenSnoc(op, NextView(view, turns[0]), turns[1..], turn);
    }
  }

  /* The conversation as a run of the machine. */

  function LabelsOf(c: nat, op: R.Op, view: View, turn: Turn): seq<R.Label> {
    match turn
    case Closed => if view.Txn? then [R.Drop(c)] else []
    case Said(command, r) =>
      match r.status
      case Late => []
      case Delivered => DeliveredLabels(c, op, view, command, r.value)
      case _ =>
        if view.NoTxn? then []
        else if command.Exec? then [R.Exec(c, r.applied, R.Unknown)]
        else [R.Drop(c)]
  }

  function DeliveredLabels(c: nat, op: R.Op, view: View, command: Command, v: RedisValue): seq<R.Label> {
    if command.Watch? then (if IsOk(v) then [R.Watch(c, op)] else [])
    else if view.NoTxn? then []
    else
      match command
      case Unwatch => if IsOk(v) then [R.Drop(c)] else []
      case Discard => if IsOk(v) then [R.Drop(c)] else []
      case Get(ReadyKey) => [R.GetReady(c)]
      case Get(RevisionKey) => [R.GetRevision(c)]
      case HGet(k) => [R.HGet(c, k)]
      case HMGet => [R.HMGet(c)]
      case Exec => [R.Exec(c, v.Array?, if v.Array? then R.Acked else if v.Nil? then R.Conflict else R.Unknown)]
      case _ => []
  }

  predicate CountFits(v: RedisValue, n: nat) {
    v == Text(Decimal(n)) || (n == 0 && v.Nil?)
  }

  // A server that answers from what it holds.
  predicate Answers(s: R.State, c: nat, turn: Turn) {
    turn.Said? ==>
      (turn.command.Exec? && R.InTxn(s, c) && TookEffect(turn.command, turn.reply) ==> !s.conns[c].dirty) &&
      (turn.reply.status.Delivered? ==> Shows(s, c, turn.command, turn.reply.value))
  }

  predicate Shows(s: R.State, c: nat, command: Command, v: RedisValue) {
    match command
    case Get(ReadyKey) => v == if s.redis.ready then Text("1") else Nil
    case Get(RevisionKey) => CountFits(v, s.redis.revision)
    case HGet(k) => v == if k in s.redis.hashes then Text(Decimal(s.redis.hashes[k])) else Nil
    case HMGet =>
      v.Array? && |v.elements| == 2 &&
      CountFits(v.elements[0], s.redis.requested) && CountFits(v.elements[1], s.redis.completed)
    case Exec => v.Nil? && R.InTxn(s, c) ==> s.conns[c].dirty
    case _ => true
  }

  predicate Below(got: R.ReadSet, all: R.ReadSet) {
    (got.ready.Some? ==> all.ready == got.ready) &&
    (got.revision.Some? ==> all.revision == got.revision) &&
    (forall k :: k in got.fields ==> k in all.fields && all.fields[k] == got.fields[k]) &&
    (got.barrier.Some? ==> all.barrier == got.barrier)
  }

  // The machine holds for the connection what the client believes it holds.
  predicate Mirrors(s: R.State, c: nat, op: R.Op, view: View) {
    match view
    case NoTxn => c !in s.conns
    case Txn(got, _) => R.InTxn(s, c) && s.conns[c].op == op && Below(got, s.conns[c].got)
  }

  predicate Foreign(l: R.Label, c: nat) {
    l.HIncrBy? || l.XDel? || l.c != c
  }

  lemma ForeignStep(s: R.State, l: R.Label, c: nat, op: R.Op, view: View)
    requires Mirrors(s, c, op, view) && R.Can(s, l) && Foreign(l, c)
    ensures Mirrors(R.Do(s, l), c, op, view)
  {}

  lemma {:induction false} ForeignRun(s: R.State, ls: seq<R.Label>, c: nat, op: R.Op, view: View)
    requires Mirrors(s, c, op, view) && R.CanRun(s, ls) && forall l :: l in ls ==> Foreign(l, c)
    ensures Mirrors(R.After(s, ls), c, op, view)
    decreases |ls|
  {
    if ls != [] {
      ForeignStep(s, ls[0], c, op, view);
      ForeignRun(R.Do(s, ls[0]), ls[1..], c, op, view);
    }
  }

  lemma CountIsRead(v: RedisValue, n: nat)
    requires CountFits(v, n) && CountIn(v).Some?
    ensures CountIn(v) == Some(n)
  {
    if v.Text? { DecimalIsPlain(n); }
  }

  lemma ExpiryIsRead(e: nat)
    requires ParseUnsigned(Decimal(e), MAX_EXPIRE_AT_MS).Some?
    ensures ParseUnsigned(Decimal(e), MAX_EXPIRE_AT_MS) == Some(e)
  {
    DecimalIsPlain(e);
  }

  // What the machine notes for a read.
  function Noted(r: R.Redis, all: R.ReadSet, command: Command): R.ReadSet {
    match command
    case Get(ReadyKey) => all.(ready := Some(r.ready))
    case Get(RevisionKey) => all.(revision := Some(r.revision))
    case HGet(k) => all.(fields := all.fields[k := R.FieldAt(r.hashes, k)])
    case HMGet => all.(barrier := Some((r.requested, r.completed)))
    case _ => all
  }

  lemma LearntIsNoted(s: R.State, c: nat, got: R.ReadSet, all: R.ReadSet, command: Command, v: RedisValue)
    requires Below(got, all) && Shows(s, c, command, v)
    ensures Below(Learn(got, command, v), Noted(s.redis, all, command))
  {
    hide CountIn, CountFits, ParseUnsigned, Decimal;
    match command
    case Get(RevisionKey) => if CountIn(v).Some? { CountIsRead(v, s.redis.revision); }
    case HGet(k) => if v.Text? && ParseUnsigned(v.text, MAX_EXPIRE_AT_MS).Some? { ExpiryIsRead(s.redis.hashes[k]); }
    case HMGet =>
      if BarrierIn(v).Some? {
        CountIsRead(v.elements[0], s.redis.requested);
        CountIsRead(v.elements[1], s.redis.completed);
      }
    case _ =>
  }

  lemma ReadStep(s: R.State, c: nat, op: R.Op, view: View, command: Command, v: RedisValue)
    requires Mirrors(s, c, op, view) && view.Txn? && Allowed(op, view, command) && Shows(s, c, command, v)
    requires command.Get? || command.HGet? || command.HMGet?
    ensures R.CanRun(s, DeliveredLabels(c, op, view, command, v))
    ensures Mirrors(R.After(s, DeliveredLabels(c, op, view, command, v)), c, op,
      view.(got := Learn(view.got, command, v)))
  {
    hide Below, Learn, Shows;
    var ls := DeliveredLabels(c, op, view, command, v);
    LearntIsNoted(s, c, view.got, s.conns[c].got, command, v);
    if ls != [] {
      assert ls == [ls[0]];
      OneStep(s, ls[0]);
      assert R.Do(s, ls[0]) == R.Read(s, c, Noted(s.redis, s.conns[c].got, command));
    }
  }

  lemma OneStep(s: R.State, l: R.Label)
    requires R.Can(s, l)
    ensures R.CanRun(s, [l]) && R.After(s, [l]) == R.Do(s, l)
  {
    assert [l][1..] == [];
  }

  lemma BelowMayExec(op: R.Op, got: R.ReadSet, all: R.ReadSet)
    requires R.MayExec(op, got) && Below(got, all)
    ensures R.MayExec(op, all)
  {}

  lemma TurnStep(s: R.State, c: nat, op: R.Op, view: View, turn: Turn)
    requires Mirrors(s, c, op, view) && (turn.Said? ==> Allowed(op, view, turn.command)) && Answers(s, c, turn)
    ensures R.CanRun(s, LabelsOf(c, op, view, turn))
    ensures Mirrors(R.After(s, LabelsOf(c, op, view, turn)), c, op, NextView(view, turn))
  {
    var ls := LabelsOf(c, op, view, turn);
    if turn.Said? && turn.reply.status.Delivered? && view.Txn? &&
       (turn.command.Get? || turn.command.HGet? || turn.command.HMGet?) {
      ReadStep(s, c, op, view, turn.command, turn.reply.value);
    } else if ls != [] {
      assert ls == [ls[0]];
      if ls[0].Exec? { BelowMayExec(op, view.got, s.conns[c].got); }
      OneStep(s, ls[0]);
    }
  }

  // The turns one after another, with what the other clients did before each.
  predicate Possible(s: R.State, c: nat, op: R.Op, view: View, turns: seq<Turn>, others: seq<seq<R.Label>>)
    requires |turns| == |others|
    decreases |turns|
  {
    turns == [] ||
    (R.CanRun(s, others[0]) && (forall l :: l in others[0] ==> Foreign(l, c)) &&
     var s1 := R.After(s, others[0]);
     var ls := LabelsOf(c, op, view, turns[0]);
     Answers(s1, c, turns[0]) &&
     (R.CanRun(s1, ls) ==> Possible(R.After(s1, ls), c, op, NextView(view, turns[0]), turns[1..], others[1..])))
  }

  function Labels(c: nat, op: R.Op, view: View, turns: seq<Turn>, others: seq<seq<R.Label>>): seq<R.Label>
    requires |turns| == |others|
    decreases |turns|
  {
    if turns == [] then []
    else
      others[0] + LabelsOf(c, op, view, turns[0]) + Labels(c, op, NextView(view, turns[0]), turns[1..], others[1..])
  }

  lemma {:induction false} RunAppend(s: R.State, p: seq<R.Label>, q: seq<R.Label>)
    requires R.CanRun(s, p) && R.CanRun(R.After(s, p), q)
    ensures R.CanRun(s, p + q) && R.After(s, p + q) == R.After(R.After(s, p), q)
    decreases |p|
  {
    if p == [] {
      assert p + q == q;
    } else {
      assert (p + q)[0] == p[0] && (p + q)[1..] == p[1..] + q;
      RunAppend(R.Do(s, p[0]), p[1..], q);
    }
  }

  lemma {:induction false} CommitsGrow(s: R.State, ls: seq<R.Label>)
    requires R.CanRun(s, ls)
    ensures s.commits <= R.After(s, ls).commits
    decreases |ls|
  {
    if ls != [] { CommitsGrow(R.Do(s, ls[0]), ls[1..]); }
  }

  /** Whatever the other clients do in between, a conversation that sends only what is
      allowed, with a server that answers from what it holds, is a run of the machine, and
      a transaction that took effect is in its history. */
  lemma {:induction false} ConversationIsARun(s: R.State, c: nat, op: R.Op, view: View, turns: seq<Turn>,
                                              others: seq<seq<R.Label>>)
    requires |turns| == |others| && Mirrors(s, c, op, view)
    requires Spoken(op, view, turns) && Possible(s, c, op, view, turns, others)
    ensures R.CanRun(s, Labels(c, op, view, turns, others))
    ensures Mirrors(R.After(s, Labels(c, op, view, turns, others)), c, op, ViewAfter(view, turns))
    ensures Taken(turns) > 0 ==> op in R.After(s, Labels(c, op, view, turns, others)).commits
    decreases |turns|
  {
    if turns != [] {
      var s1 := R.After(s, others[0]);
      var ls := LabelsOf(c, op, view, turns[0]);
      ForeignRun(s, others[0], c, op, view);
      TurnStep(s1, c, op, view, turns[0]);
      var s2 := R.After(s1, ls);
      var view', rest, more := NextView(view, turns[0]), turns[1..], others[1..];
      ConversationIsARun(s2, c, op, view', rest, more);
      RunAppend(s, others[0], ls);
      RunAppend(s, others[0] + ls, Labels(c, op, view', rest, more));
      CommitsGrow(s2, Labels(c, op, view', rest, more));
      if Effective(turns[0]) {
        EffectiveIsCommitted(s1, c, op, view, turns[0]);
        assert s2.commits[|s1.commits|] == op;
      }
    }
  }

  // The transactions of connection c that the run commits.
  function OwnCommits(ls: seq<R.Label>, c: nat): nat {
    if ls == [] then 0 else (if ls[0].Exec? && ls[0].c == c && ls[0].applied then 1 else 0) + OwnCommits(ls[1..], c)
  }

  lemma {:induction false} OwnCommitsAppend(p: seq<R.Label>, q: seq<R.Label>, c: nat)
    ensures OwnCommits(p + q, c) == OwnCommits(p, c) + OwnCommits(q, c)
    decreases |p|
  {
    if p == [] {
      assert p + q == q;
    } else {
      assert (p + q)[0] == p[0] && (p + q)[1..] == p[1..] + q;
      OwnCommitsAppend(p[1..], q, c);
    }
  }

  lemma {:induction false} NoneOfTheirs(ls: seq<R.Label>, c: nat)
    requires forall l :: l in ls ==> Foreign(l, c)
    ensures OwnCommits(ls, c) == 0
    decreases |ls|
  {
    if ls != [] {
      assert ls[0] in ls;
      NoneOfTheirs(ls[1..], c);
    }
  }

  /** The machine commits for the connection just the transactions that took effect. */
  lemma {:induction false} CommitsAreTaken(c: nat, op: R.Op, view: View, turns: seq<Turn>, others: seq<seq<R.Label>>)
    requires |turns| == |others| && Spoken(op, view, turns)
    requires forall i :: 0 <= i < |others| ==> forall l :: l in others[i] ==> Foreign(l, c)
    ensures OwnCommits(Labels(c, op, view, turns, others), c) == Taken(turns)
    decreases |turns|
  {
    if turns != [] {
      var ls, view' := LabelsOf(c, op, view, turns[0]), NextView(view, turns[0]);
      var rest := Labels(c, op, view', turns[1..], others[1..]);
      CommitsAreTaken(c, op, view', turns[1..], others[1..]);
      NoneOfTheirs(others[0], c);
      OwnCommitsAppend(others[0], ls, c);
      OwnCommitsAppend(others[0] + ls, rest, c);
      OneOwn(c, op, view, turns[0]);
    }
  }

  lemma OneOwn(c: nat, op: R.Op, view: View, turn: Turn)
    requires turn.Said? ==> Allowed(op, view, turn.command)
    ensures OwnCommits(LabelsOf(c, op, view, turn), c) == if Effective(turn) then 1 else 0
  {
    var ls := LabelsOf(c, op, view, turn);
    if ls != [] {
      assert ls[1..] == [];
    }
  }

  lemma {:induction false} PossibleIsForeign(s: R.State, c: nat, op: R.Op, view: View, turns: seq<Turn>,
                                             others: seq<seq<R.Label>>)
    requires |turns| == |others| && Mirrors(s, c, op, view)
    requires Spoken(op, view, turns) && Possible(s, c, op, view, turns, others)
    ensures forall i :: 0 <= i < |others| ==> forall l :: l in others[i] ==> Foreign(l, c)
    decreases |turns|
  {
    if turns != [] {
      var s1 := R.After(s, others[0]);
      ForeignRun(s, others[0], c, op, view);
      TurnStep(s1, c, op, view, turns[0]);
      var s2 := R.After(s1, LabelsOf(c, op, view, turns[0]));
      PossibleIsForeign(s2, c, op, NextView(view, turns[0]), turns[1..], others[1..]);
      forall i | 0 <= i < |others| ensures forall l :: l in others[i] ==> Foreign(l, c) {
        if i > 0 { assert others[i] == others[1..][i - 1]; }
      }
    }
  }

  lemma EffectiveIsCommitted(s: R.State, c: nat, op: R.Op, view: View, turn: Turn)
    requires Mirrors(s, c, op, view) && turn.Said? && Allowed(op, view, turn.command) && Answers(s, c, turn)
    requires Effective(turn) && R.CanRun(s, LabelsOf(c, op, view, turn))
    ensures var s' := R.After(s, LabelsOf(c, op, view, turn));
      s'.commits == s.commits + [op] && s'.redis == Effects(s.redis, view.queued)
  {
    var ls := LabelsOf(c, op, view, turn);
    assert ls == [ls[0]] && ls[1..] == [];
    assert Effects(s.redis, view.queued) == R.Commit(s.redis, op);
  }
}
