/** Blacklist entities, what a mutation means to a Redis hash and to a MySQL
    table, and when the two stores say the same thing. */
module Blacklist {
  import opened Wrappers

  datatype EntityType = User | Ip | Device

  datatype Key = Key(kind: EntityType, id: string)

  datatype Mutation =
    | Upsert(key: Key, reason: string, expireAt: nat)
    | Disable(key: Key)
    | ClearAll

  // The three hashes taken together, or the enabled rows of the three tables:
  // entity -> expiry in milliseconds, 0 meaning that the entry never expires.
  type Table = map<Key, nat>

  datatype Row = Row(reason: string, enabled: bool, expireAt: nat)

  type Rows = map<Key, Row>

  predicate Live(t: Table, k: Key, now: nat) {
    k in t && (t[k] == 0 || t[k] > now)
  }

  predicate Expired(expireAt: nat, now: nat) {
    0 < expireAt <= now
  }

  function LiveAt(t: Table, now: nat): Table {
    map k | k in t && !Expired(t[k], now) :: t[k]
  }

  function ExpiredAt(t: Table, now: nat): Table {
    map k | k in t && Expired(t[k], now) :: t[k]
  }

  // Redis: HSET, HDEL, DEL of the three hashes.
  function Apply(t: Table, m: Mutation): Table {
    match m
    case Upsert(k, _, e) => t[k := e]
    case Disable(k) => t - {k}
    case ClearAll => map[]
  }

  function Replay(t: Table, ms: seq<Mutation>): Table
    decreases |ms|
  {
    if ms == [] then t else Replay(Apply(t, ms[0]), ms[1..])
  }

  // MySQL: INSERT .. ON DUPLICATE KEY UPDATE, and the two UPDATE .. SET enabled = FALSE.
  function ApplyRow(rows: Rows, m: Mutation): Rows {
    match m
    case Upsert(k, reason, e) => rows[k := Row(reason, true, e)]
    case Disable(k) => if k in rows then rows[k := rows[k].(enabled := false)] else rows
    case ClearAll => map k | k in rows :: rows[k].(enabled := false)
  }

  function ReplayRows(rows: Rows, ms: seq<Mutation>): Rows
    decreases |ms|
  {
    if ms == [] then rows else ReplayRows(ApplyRow(rows, ms[0]), ms[1..])
  }

  function Enabled(rows: Rows): Table {
    map k | k in rows && rows[k].enabled :: rows[k].expireAt
  }

  /* What a sequence of mutations does to one row. */

  datatype Effect = Keep | TurnOff | Write(row: Row)

  function EffectOfOne(k: Key, m: Mutation): Effect {
    match m
    case Upsert(k', reason, e) => if k' == k then Write(Row(reason, true, e)) else Keep
    case Disable(k') => if k' == k then TurnOff else Keep
    case ClearAll => TurnOff
  }

  function Then(first: Effect, second: Effect): Effect {
    match second
    case Keep => first
    case Write(_) => second
    case TurnOff => if first.Write? then Write(first.row.(enabled := false)) else TurnOff
  }

  function EffectOf(k: Key, ms: seq<Mutation>): Effect
    decreases |ms|
  {
    if ms == [] then Keep else Then(EffectOfOne(k, ms[0]), EffectOf(k, ms[1..]))
  }

  function Act(e: Effect, row: Option<Row>): Option<Row> {
    match e
    case Keep => row
    case Write(r) => Some(r)
    case TurnOff => if row.Some? then Some(row.value.(enabled := false)) else None
  }

  function RowAt(rows: Rows, k: Key): Option<Row> {
    if k in rows then Some(rows[k]) else None
  }

  lemma ThenActs(first: Effect, second: Effect, row: Option<Row>)
    ensures Act(Then(first, second), row) == Act(second, Act(first, row))
  {}

  lemma {:induction false} ReplayRowsIsEffect(rows: Rows, ms: seq<Mutation>, k: Key)
    ensures RowAt(ReplayRows(rows, ms), k) == Act(EffectOf(k, ms), RowAt(rows, k))
    decreases |ms|
  {
    if ms != [] {
      ReplayRowsIsEffect(ApplyRow(rows, ms[0]), ms[1..], k);
      ThenActs(EffectOfOne(k, ms[0]), EffectOf(k, ms[1..]), RowAt(rows, k));
      assert RowAt(ApplyRow(rows, ms[0]), k) == Act(EffectOfOne(k, ms[0]), RowAt(rows, k));
    }
  }

  lemma SameRows(a: Rows, b: Rows)
    requires forall k :: RowAt(a, k) == RowAt(b, k)
    ensures a == b
  {
    forall k ensures (k in a <==> k in b) && (k in a ==> a[k] == b[k]) {
      assert RowAt(a, k) == RowAt(b, k);
    }
  }

  lemma {:induction false} ReplayRowsAppend(rows: Rows, p: seq<Mutation>, q: seq<Mutation>)
    ensures ReplayRows(rows, p + q) == ReplayRows(ReplayRows(rows, p), q)
    decreases |p|
  {
    if p == [] {
      assert p + q == q;
    } else {
      assert (p + q)[0] == p[0] && (p + q)[1..] == p[1..] + q;
      ReplayRowsAppend(ApplyRow(rows, p[0]), p[1..], q);
    }
  }

  lemma {:induction false} ReplayAppend(t: Table, p: seq<Mutation>, q: seq<Mutation>)
    ensures Replay(t, p + q) == Replay(Replay(t, p), q)
    decreases |p|
  {
    if p == [] {
      assert p + q == q;
    } else {
      assert (p + q)[0] == p[0] && (p + q)[1..] == p[1..] + q;
      ReplayAppend(Apply(t, p[0]), p[1..], q);
    }
  }

  /** A batch committed to MySQL whose XDEL was lost is replayed: doing a prefix of
      the pending records again, in front of all of them, changes no row. */
  lemma ReplayAfterCommittedPrefix(rows: Rows, p: seq<Mutation>, q: seq<Mutation>)
    ensures ReplayRows(ReplayRows(rows, p), p + q) == ReplayRows(rows, p + q)
  {
    var once := ReplayRows(rows, p);
    forall k ensures RowAt(ReplayRows(once, p), k) == RowAt(once, k) {
      ReplayRowsIsEffect(rows, p, k);
      ReplayRowsIsEffect(once, p, k);
    }
    SameRows(ReplayRows(once, p), once);
    ReplayRowsAppend(once, p, q);
    ReplayRowsAppend(rows, p, q);
  }

  lemma EnabledApply(rows: Rows, m: Mutation)
    ensures Enabled(ApplyRow(rows, m)) == Apply(Enabled(rows), m)
  {}

  /** The enabled rows follow the same algebra as the Redis hashes. */
  lemma {:induction false} EnabledReplay(rows: Rows, ms: seq<Mutation>)
    ensures Enabled(ReplayRows(rows, ms)) == Replay(Enabled(rows), ms)
    decreases |ms|
  {
    if ms != [] {
      EnabledApply(rows, ms[0]);
      EnabledReplay(ApplyRow(rows, ms[0]), ms[1..]);
    }
  }

  /* Agreement of the cache with the durable content. */

  // The hashes lack only entries that had expired by the last cleanup clock.
  ghost predicate Agrees(durable: Table, hashes: Table, clock: nat) {
    (forall k :: k in hashes ==> k in durable && durable[k] == hashes[k]) &&
    (forall k :: k in durable && k !in hashes ==> Expired(durable[k], clock))
  }

  lemma AgreeingTablesAnswerAlike(durable: Table, hashes: Table, clock: nat)
    requires Agrees(durable, hashes, clock)
    ensures forall k, t :: t >= clock ==> Live(durable, k, t) == Live(hashes, k, t)
  {}

  lemma AgreesApply(durable: Table, hashes: Table, clock: nat, m: Mutation)
    requires Agrees(durable, hashes, clock)
    ensures Agrees(Apply(durable, m), Apply(hashes, m), clock)
  {}

  lemma {:induction false} AgreesReplay(durable: Table, hashes: Table, clock: nat, ms: seq<Mutation>)
    requires Agrees(durable, hashes, clock)
    ensures Agrees(Replay(durable, ms), Replay(hashes, ms), clock)
    decreases |ms|
  {
    if ms != [] {
      AgreesApply(durable, hashes, clock, ms[0]);
      AgreesReplay(Apply(durable, ms[0]), Apply(hashes, ms[0]), clock, ms[1..]);
    }
  }
}
