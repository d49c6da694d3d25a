/** The whole write-behind system: Redis, MySQL, one service process with its single
    maintenance worker, its business pool and candidate queue, and any number of
    administration clients. Every label is one atomic step; EXEC, COMMIT and XDEL may take
    effect without being acknowledged, and the process may crash between any two steps. */
module BlacklistSystem {
  import opened Wrappers
  import opened Blacklist
  import R = RedisMachine
  import Q = CandidateQueue
  import P = WorkerPool
  import Snapshot

  // The maintenance worker's connection; every other number is a client's.
  const WORKER: nat := 0

  // What the database's clock said for the SELECT of each table.
  datatype Clocks = Clocks(users: nat, ips: nat, devices: nat)

  datatype Mode = Down | Boot | Running | Stopped

  // What the maintenance worker (or the start-up code, before it) has in hand.
  datatype Work =
    | Rest
    | GotBatch(batch: seq<R.Entry>)        // XRANGE reply
    | CleanBatch(batch: seq<R.Entry>)      // undecodable records deleted
    | RowsCommitted(batch: seq<R.Entry>)   // COMMIT acknowledged, XDEL still to come
    | PendingEmpty                         // XRANGE came back empty
    | RowsLoaded(entries: Table, at: Clocks)
    | Scanned(revision: nat, table: Table, now: nat)
    | Cleaned(revision: nat, table: Table, now: nat)
    | BarrierRead(token: nat)
    | BarrierIdle(token: nat)              // first in-flight check passed
    | BarrierQuiet(token: nat)             // second one too
    | BarrierDrained(token: nat)           // and the queue found empty

  datatype Memory = Memory(snapshot: Table, revision: nat, since: nat, dirty: bool)

  datatype Tool = Requested(token: nat) | Acknowledged(token: nat) | Cleared(token: nat, at: nat)

  // since is how much of the log there was when the queue accepted it.
  datatype Candidate = Candidate(task: nat, mutation: Mutation, since: nat)

  datatype State = State(
    r: R.State,
    rows: Rows,
    clock: nat,                    // latest clock an expiry was judged by
    mode: Mode,
    work: Work,
    memory: Option<Memory>,
    capacity: nat,
    queue: Q.View,
    poolCapacity: nat,
    pool: P.View<nat>,
    admitted: set<nat>,            // every task the pool ever accepted
    accepted: set<Candidate>,      // candidates the queue of this process accepted
    discarded: set<Candidate>,     // those given up, and counted, at shutdown
    before: map<nat, set<nat>>,    // reset token -> tasks accepted before its request
    tools: map<nat, Tool>,
    line: seq<Candidate>,          // whose the queued mutations are, one by one
    held: set<Candidate>)          // whose the reserved batch is

  datatype ToolStep = Request(tool: nat) | Poll(tool: nat)

  datatype BusinessStep = Admit(task: nat) | Take | Submit(task: nat, mutation: Mutation) | Finish(task: nat)
    | CancelQueued

  datatype DrainStep =
    | ReadPending(count: nat)
    | DeleteBad(applied: bool, acked: bool)
    | CommitRows(applied: bool, acked: bool)
    | DeleteGood(applied: bool, acked: bool)
    | LoadRows(at: Clocks)

  datatype RefreshStep = ScanOk(table: Table, now: nat) | Publish

  datatype FlushStep = ReserveBatch(count: nat) | ReadBarrier | CheckIdle | CheckIdleAgain | CheckDrained

  datatype LifeStep = Start | Crash | Yield | Halt | DiscardRest

  datatype Label =
    | Client(command: R.Label)
    | Worker(command: R.Label)
    | Tooling(tool: ToolStep)
    | Business(business: BusinessStep)
    | Drain(drain: DrainStep)
    | Refresh(refresh: RefreshStep)
    | Flush(flush: FlushStep)
    | Life(life: LifeStep)

  /* Pending records. */

  function Payloads(stream: seq<R.Entry>): seq<Mutation> {
    if stream == [] then []
    else (if stream[0].payload.Some? then [stream[0].payload.value] else []) + Payloads(stream[1..])
  }

  function Good(stream: seq<R.Entry>): seq<R.Entry> {
    if stream == [] then []
    else (if stream[0].payload.Some? then [stream[0]] else []) + Good(stream[1..])
  }

  function BadIds(stream: seq<R.Entry>): set<nat> {
    set e | e in stream && e.payload.None? :: e.id
  }

  function GoodIds(stream: seq<R.Entry>): set<nat> {
    set e | e in stream && e.payload.Some? :: e.id
  }

  // MySQL after everything still pending has been written behind.
  function Durable(s: State): Rows {
    ReplayRows(s.rows, Payloads(s.r.redis.stream))
  }

  function ClockFor(at: Clocks, kind: EntityType): nat {
    match kind
    case User => at.users
    case Ip => at.ips
    case Device => at.devices
  }

  function LatestOf(at: Clocks): nat {
    Max(at.users, Max(at.ips, at.devices))
  }

  // Each table by its own SELECT.
  function LiveAtEach(t: Table, at: Clocks): Table {
    map k | k in t && !Expired(t[k], ClockFor(at, k.kind)) :: t[k]
  }

  /* Who may send what. */

  predicate ClientMay(s: State, l: R.Label) {
    match l
    case Watch(c, op) =>
      c != WORKER && op.ApplyBatch? &&
      // CLEAR_ALL comes only from the reset sequence, after its token was acknowledged.
      (op.batch == [ClearAll] ==> c in s.tools && s.tools[c].Acknowledged?)
    case GetReady(c) => c != WORKER
    case GetRevision(c) => c != WORKER
    case HGet(c, _) => c != WORKER
    case Drop(c) => c != WORKER
    case Exec(c, _, _) => c != WORKER
    case ScanStart(c) => c != WORKER
    case ScanHash(c, _) => c != WORKER
    case ScanPage(c, _) => c != WORKER
    case ScanHashDone(c) => c != WORKER
    case HMGet(_) => false
    case HIncrBy => false
    case XDel(_) => false
  }

  predicate MayWatch(s: State, op: R.Op) {
    match op
    case ApplyBatch(batch) => s.mode.Running? && (s.work.Rest? || s.work.BarrierIdle?) && batch == s.queue.reserved
    case RemoveExpired(expired, expected, now) =>
      s.work.Scanned? && expired == ExpiredAt(s.work.table, now) && expected == s.work.revision && now == s.work.now
    case Rebuild(entries) => s.mode.Boot? && s.work.RowsLoaded? && entries == s.work.entries
    case CompleteBarrier(token) => s.work == BarrierDrained(token)
    case SetPublished(value) => s.work.Rest? && s.memory.Some? && value == s.memory.value.revision
  }

  predicate WorkerMay(s: State, l: R.Label) {
    (s.mode.Boot? || s.mode.Running?) &&
    match l
    case Watch(c, op) => c == WORKER && MayWatch(s, op)
    case GetReady(c) => c == WORKER
    case GetRevision(c) => c == WORKER
    case HGet(c, _) => c == WORKER
    case HMGet(c) => c == WORKER
    case Drop(c) => c == WORKER
    case Exec(c, _, _) => c == WORKER
    case ScanStart(c) => c == WORKER && s.work.Rest?
    case ScanHash(c, _) => c == WORKER
    case ScanPage(c, _) => c == WORKER
    case ScanHashDone(c) => c == WORKER
    case HIncrBy => false
    case XDel(_) => false
  }

  // The worker is between two store operations.
  predicate Free(s: State) {
    (s.mode.Boot? || s.mode.Running?) && WORKER !in s.r.conns
  }

  predicate CanTool(s: State, l: ToolStep) {
    match l
    case Request(tool) => tool !in s.tools
    case Poll(tool) => tool in s.tools && s.tools[tool].Requested? && s.r.redis.completed >= s.tools[tool].token
  }

  predicate CanBusiness(s: State, l: BusinessStep) {
    s.mode.Running? &&
    match l
    case Admit(task) => task !in s.admitted
    case Submit(task, _) => task in s.pool.running
    case Finish(task) => task in s.pool.running
    case Take => true
    case CancelQueued => true
  }

  predicate CanDrain(s: State, l: DrainStep) {
    Free(s) &&
    match l
    case ReadPending(count) => s.work.Rest? && 0 < count
    case DeleteBad(applied, acked) => s.work.GotBatch? && (acked ==> applied)
    case CommitRows(applied, acked) => s.work.CleanBatch? && (acked ==> applied)
    case DeleteGood(applied, acked) => s.work.RowsCommitted? && (acked ==> applied)
    case LoadRows(_) => s.mode.Boot? && s.work.PendingEmpty?
  }

  ghost predicate CanRefresh(s: State, l: RefreshStep) {
    match l
    case ScanOk(table, _) =>
      (s.mode.Boot? || s.mode.Running?) && R.ScanStable(s.r, WORKER) && Snapshot.Lists(s.r.conns[WORKER].seen, table)
    case Publish =>
      Free(s) && (s.work.Scanned? || s.work.Cleaned?) && forall k :: k in s.work.table ==> k.id != ""
  }

  predicate CanFlush(s: State, l: FlushStep) {
    Free(s) && s.mode.Running? &&
    match l
    case ReserveBatch(_) => (s.work.Rest? || s.work.BarrierIdle?) && Q.AllUpserts(s.queue.queued)
    case ReadBarrier => s.work.Rest? && s.r.redis.requested > s.r.redis.completed
    case CheckIdle => s.work.BarrierRead? && P.Inflight(s.pool) == 0
    case CheckIdleAgain => s.work.BarrierIdle? && P.Inflight(s.pool) == 0
    case CheckDrained => s.work.BarrierQuiet? && Q.Empty(s.queue)
  }

  predicate CanLife(s: State, l: LifeStep) {
    match l
    case Start => s.mode.Down?
    case Crash => !s.mode.Down?
    case Yield => Free(s)
    case Halt => Free(s) && s.mode.Running? && P.Inflight(s.pool) == 0
    case DiscardRest => s.mode.Stopped?
  }

  ghost predicate Can(s: State, l: Label) {
    match l
    case Client(command) => ClientMay(s, command) && R.Can(s.r, command)
    case Worker(command) => WorkerMay(s, command) && R.Can(s.r, command)
    case Tooling(step) => CanTool(s, step)
    case Business(step) => CanBusiness(s, step)
    case Drain(step) => CanDrain(s, step)
    case Refresh(step) => CanRefresh(s, step)
    case Flush(step) => CanFlush(s, step)
    case Life(step) => CanLife(s, step)
  }

  function AfterClient(s: State, l: R.Label): (s': State)
    requires R.Can(s.r, l)
    ensures s'.r == R.Do(s.r, l) && s'.(r := s.r, tools := s.tools) == s
  {
    var s' := s.(r := R.Do(s.r, l));
    if l.Exec? && l.applied && s.r.conns[l.c].op == R.ApplyBatch([ClearAll]) && l.c in s.tools then
      s'.(tools := s.tools[l.c := Cleared(s.tools[l.c].token, |s.r.log|)])
    else s'
  }

  function AfterExec(s: State, op: R.Op, applied: bool, reply: R.Reply): (s': State)
    ensures s'.r == s.r && s'.rows == s.rows && s'.mode == s.mode && s'.tools == s.tools && s'.before == s.before
    ensures s'.pool == s.pool && s'.accepted == s.accepted && s'.discarded == s.discarded && s'.admitted == s.admitted
  {
    match op
    case ApplyBatch(_) => if reply.Acked? then s.(queue := Q.Acknowledge(s.queue), held := {}) else s
    case RemoveExpired(_, _, now) =>
      s.(clock := if applied then Max(s.clock, now) else s.clock,
         work := if reply.Acked? && s.work.Scanned? then Cleaned(s.work.revision + 1, s.work.table, s.work.now)
           else Rest)
    case Rebuild(_) =>
      s.(clock := if applied && s.work.RowsLoaded? then Max(s.clock, LatestOf(s.work.at)) else s.clock,
         work := if reply.Conflict? then s.work else Rest)
    case CompleteBarrier(_) => s.(work := Rest)
    case SetPublished(_) =>
      if reply.Acked? && s.memory.Some? then s.(memory := Some(s.memory.value.(dirty := false))) else s
  }

  function AfterWorker(s: State, l: R.Label): (s': State)
    requires R.Can(s.r, l)
    ensures s'.r == R.Do(s.r, l) && s'.rows == s.rows && s'.mode == s.mode && s'.tools == s.tools &&
      s'.before == s.before
    ensures s'.pool == s.pool && s'.accepted == s.accepted && s'.discarded == s.discarded && s'.admitted == s.admitted
    ensures !(l.Exec? && l.reply.Acked?) ==> s'.queue == s.queue
  {
    var s' := s.(r := R.Do(s.r, l));
    if l.Exec? then AfterExec(s', s.r.conns[l.c].op, l.applied, l.reply)
    else if l.Drop? && s.r.conns[l.c].Txn? &&
      (s.r.conns[l.c].op.RemoveExpired? || s.r.conns[l.c].op.CompleteBarrier?) then
      s'.(work := Rest)
    else s'
  }

  function EmptyQueue(): Q.View {
    Q.View([], [], false, 0, 0, 0)
  }

  function AfterTool(s: State, l: ToolStep): (s': State)
    requires CanTool(s, l)
    ensures s'.r == if l.Request? then R.Do(s.r, R.HIncrBy) else s.r
    ensures s'.rows == s.rows && s'.clock == s.clock && s'.mode == s.mode && s'.work == s.work && s'.memory == s.memory
    ensures s'.queue == s.queue && s'.pool == s.pool && s'.accepted == s.accepted && s'.discarded == s.discarded
  {
    match l
    case Request(tool) =>
      var token := s.r.redis.requested + 1;
      s.(r := R.Do(s.r, R.HIncrBy), before := s.before[token := s.admitted], tools := s.tools[tool := Requested(token)])
    case Poll(tool) => s.(tools := s.tools[tool := Acknowledged(s.tools[tool].token)])
  }

  function AfterBusiness(s: State, l: BusinessStep): (s': State)
    ensures s'.r == s.r && s'.rows == s.rows && s'.clock == s.clock && s'.mode == s.mode && s'.work == s.work
    ensures s'.memory == s.memory && s'.before == s.before && s'.tools == s.tools &&
      s'.queue.reserved == s.queue.reserved
  {
    match l
    case Admit(task) =>
      var (pool, status) := P.Submit(s.pool, s.poolCapacity, Some(task));
      s.(pool := pool, admitted := if status.Accepted? then s.admitted + {task} else s.admitted)
    case Take => s.(pool := P.Take(s.pool))
    case Submit(task, mutation) =>
      var (queue, status) := Q.Submit(s.queue, s.capacity, mutation);
      var candidate := Candidate(task, mutation, |s.r.log|);
      s.(queue := queue,
         accepted := if status.Accepted? then s.accepted + {candidate} else s.accepted,
         line := if status.Accepted? then s.line + [candidate] else s.line)
    case Finish(task) => s.(pool := P.Finish(s.pool, task))
    case CancelQueued => s.(pool := P.CancelQueued(s.pool))
  }

  function Deleted(r: R.State, ids: set<nat>, applied: bool): R.State {
    if applied then R.Do(r, R.XDel(ids)) else r
  }

  function AfterDrain(s: State, l: DrainStep): (s': State)
    requires CanDrain(s, l)
    ensures s'.queue == s.queue
  {
    match l
    case ReadPending(count) =>
      var batch := s.r.redis.stream[..Min(count, |s.r.redis.stream|)];
      s.(work := if batch == [] then PendingEmpty else GotBatch(batch))
    case DeleteBad(applied, acked) =>
      s.(r := Deleted(s.r, BadIds(s.work.batch), applied), work := if acked then CleanBatch(s.work.batch) else Rest)
    case CommitRows(applied, acked) =>
      s.(rows := if applied then ReplayRows(s.rows, Payloads(s.work.batch)) else s.rows,
         work := if acked then RowsCommitted(s.work.batch) else Rest)
    case DeleteGood(applied, acked) =>
      s.(r := Deleted(s.r, GoodIds(s.work.batch), applied), work := Rest)
    case LoadRows(at) => s.(work := RowsLoaded(LiveAtEach(Enabled(s.rows), at), at))
  }

  ghost function AfterRefresh(s: State, l: RefreshStep): (s': State)
    requires CanRefresh(s, l)
    ensures s'.queue == s.queue
  {
    match l
    case ScanOk(table, now) =>
      s.(r := R.Do(s.r, R.Drop(WORKER)), work := Scanned(s.r.conns[WORKER].revision, table, now))
    case Publish =>
      s.(memory := Some(Memory(LiveAt(s.work.table, s.work.now), s.work.revision, s.work.now, true)),
         work := Rest, mode := Running)
  }

  function AfterFlush(s: State, l: FlushStep): (s': State)
    requires CanFlush(s, l)
    ensures s'.r == s.r && s'.rows == s.rows && s'.clock == s.clock && s'.mode == s.mode && s'.memory == s.memory
    ensures s'.pool == s.pool && s'.accepted == s.accepted && s'.before == s.before && s'.tools == s.tools
    ensures s.queue.reserved != [] ==> s'.queue == s.queue
  {
    match l
    case ReserveBatch(count) =>
      var n := if s.queue.reserved != [] then 0 else Min(count, |s.line|);
      s.(queue := Q.Reserve(s.queue, count), line := s.line[n..], held := s.held + (set c | c in s.line[..n]))
    case ReadBarrier => s.(work := BarrierRead(s.r.redis.requested))
    case CheckIdle => s.(work := BarrierIdle(s.work.token))
    case CheckIdleAgain => s.(work := BarrierQuiet(s.work.token))
    case CheckDrained => s.(work := BarrierDrained(s.work.token))
  }

  function AfterLife(s: State, l: LifeStep): State {
    match l
    case Start =>
      s.(mode := Boot, work := Rest, queue := EmptyQueue(), line := [], held := {},
         pool := P.View([], multiset{}, true))
    case Crash =>
      s.(r := s.r.(conns := s.r.conns - {WORKER}), mode := Down, work := Rest, memory := None,
         queue := EmptyQueue(), line := [], held := {}, pool := P.View([], multiset{}, true),
         accepted := {}, discarded := {})
    case Yield => s.(work := Rest)
    case Halt => s.(mode := Stopped, work := Rest, queue := s.queue.(closed := true))
    case DiscardRest =>
      s.(discarded := s.discarded + (set c | c in s.line) + s.held, line := [], held := {}, queue := Q.Discard(s.queue))
  }

  ghost function Do(s: State, l: Label): State
    requires Can(s, l)
  {
    match l
    case Client(command) => AfterClient(s, command)
    case Worker(command) => AfterWorker(s, command)
    case Tooling(step) => AfterTool(s, step)
    case Business(step) => AfterBusiness(s, step)
    case Drain(step) => AfterDrain(s, step)
    case Refresh(step) => AfterRefresh(s, step)
    case Flush(step) => AfterFlush(s, step)
    case Life(step) => AfterLife(s, step)
  }

  ghost predicate CanRun(s: State, ls: seq<Label>)
    decreases |ls|
  {
    ls == [] || (Can(s, ls[0]) && CanRun(Do(s, ls[0]), ls[1..]))
  }

  ghost function After(s: State, ls: seq<Label>): State
    requires CanRun(s, ls)
    decreases |ls|
  {
    if ls == [] then s else After(Do(s, ls[0]), ls[1..])
  }
}
