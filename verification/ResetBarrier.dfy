/** The reset barrier and the candidates: nothing a business task handed in is lost on
    the way to Redis, and a CLEAR_ALL behind an acknowledged token comes after all of it. */
module ResetBarrier {
  import opened Wrappers
  import opened Blacklist
  import opened BlacklistSystem
  import opened SystemConns
  import R = RedisMachine
  import Q = CandidateQueue
  import P = WorkerPool

  // An upsert of its entity that lasts at least as long was logged after it was accepted.
  predicate Logged(c: Candidate, log: seq<Mutation>) {
    c.since <= |log| && Q.Covered(c.mutation, log[c.since..])
  }

  predicate Safe(s: State, c: Candidate) {
    c.mutation.Upsert? && c.since <= |s.r.log| &&
    (c in s.discarded || c in s.line || (c in s.held && Q.Covered(c.mutation, s.queue.reserved)) ||
     Logged(c, s.r.log))
  }

  // The queue and the reserved batch are made of accepted candidates.
  predicate Lined(s: State) {
    |s.line| == |s.queue.queued| && (forall i :: 0 <= i < |s.line| ==> s.line[i].mutation == s.queue.queued[i]) &&
    (s.queue.reserved == [] ==> s.held == {}) &&
    (forall c :: c in s.line ==> c in s.accepted) && s.held <= s.accepted
  }

  /** Every accepted candidate is queued, or part of the reserved batch and covered there by
      an upsert of its entity that lasts at least as long, or covered so in the part of the
      log committed since, or was given up and counted at shutdown; and queued plus reserved
      stays within the capacity. */
  predicate Conserved(s: State) {
    Lined(s) && Q.Sound(s.queue, s.capacity) && (s.discarded != {} ==> s.mode.Stopped?) &&
    (s.mode.Down? ==> s.accepted == {}) &&
    forall c :: c in s.accepted ==> Safe(s, c)
  }

  // No task that was accepted before a request up to this token is still to run.
  predicate Settled(s: State, token: nat) {
    forall t, task :: t in s.before && t <= token && task in s.before[t] ==> !P.Pending(s.pool, task)
  }

  // Everything those tasks handed in has reached the log and is not under way any more.
  predicate Flushed(s: State, token: nat) {
    forall t, c :: t in s.before && t <= token && c in s.accepted && c.task in s.before[t] ==>
      Logged(c, s.r.log) && c !in s.line && c !in s.held
  }

  predicate TokensOk(s: State) {
    forall t :: t in s.before ==> t <= s.r.redis.requested && s.before[t] <= s.admitted
  }

  predicate BarrierWork(s: State) {
    match s.work
    case BarrierRead(token) => token <= s.r.redis.requested
    case BarrierIdle(token) => token <= s.r.redis.requested && Settled(s, token)
    case BarrierQuiet(token) => token <= s.r.redis.requested && Settled(s, token)
    case BarrierDrained(token) => token <= s.r.redis.requested && Settled(s, token) && Flushed(s, token)
    case _ => true
  }

  predicate Barrier(w: Work) {
    w.BarrierRead? || w.BarrierIdle? || w.BarrierQuiet? || w.BarrierDrained?
  }

  predicate ToolOk(s: State, tool: Tool) {
    tool.token in s.before &&
    (tool.Acknowledged? ==> tool.token <= s.r.redis.completed) &&
    (tool.Cleared? ==>
      tool.token <= s.r.redis.completed && tool.at < |s.r.log| && s.r.log[tool.at] == ClearAll &&
      forall c :: c in s.accepted && c.task in s.before[tool.token] ==> Logged(c, s.r.log[..tool.at]))
  }

  predicate BarrierOk(s: State) {
    TokensOk(s) && BarrierWork(s) && Settled(s, s.r.redis.completed) && Flushed(s, s.r.redis.completed) &&
    forall tool :: tool in s.tools ==> ToolOk(s, s.tools[tool])
  }

  predicate Inv(s: State) {
    Sane(s) && Conserved(s) && BarrierOk(s)
  }

  lemma LoggedGrows(c: Candidate, log: seq<Mutation>, log': seq<Mutation>)
    requires Logged(c, log) && log <= log'
    ensures Logged(c, log')
  {
    var i :| 0 <= i < |log[c.since..]| && Q.Covers(log[c.since..][i], c.mutation);
    assert Q.Covers(log'[c.since..][i], c.mutation);
  }

  lemma LoggedByBatch(c: Candidate, log: seq<Mutation>, batch: seq<Mutation>)
    requires c.since <= |log| && Q.Covered(c.mutation, batch)
    ensures Logged(c, log + batch)
  {
    var i :| 0 <= i < |batch| && Q.Covers(batch[i], c.mutation);
    assert Q.Covers((log + batch)[c.since..][|log| - c.since + i], c.mutation);
  }

  // The barrier's facts survive whatever only lets the log and the tokens grow.
  lemma Carried(s: State, s': State)
    requires BarrierOk(s) && R.Extends(s.r, s'.r) && s'.r.redis.completed == s.r.redis.completed
    requires s'.before == s.before && s.admitted <= s'.admitted
    requires forall c :: c in s'.accepted ==> c in s.accepted
    requires forall c :: c in s'.line || c in s'.held ==> c in s.line || c in s.held
    requires forall t, task :: t in s.before && task in s.before[t] && !P.Pending(s.pool, task) ==>
      !P.Pending(s'.pool, task)
    ensures TokensOk(s') && Settled(s', s'.r.redis.completed) && Flushed(s', s'.r.redis.completed)
    ensures forall tool :: ToolOk(s, tool) ==> ToolOk(s', tool)
    ensures s'.work == s.work ==> BarrierWork(s')
  {
    forall c | Logged(c, s.r.log) ensures Logged(c, s'.r.log) { LoggedGrows(c, s.r.log, s'.r.log); }
    forall tool | ToolOk(s, tool) ensures ToolOk(s', tool) {
      if tool.Cleared? { assert s'.r.log[..tool.at] == s.r.log[..tool.at]; }
    }
  }

  /* Business tasks. */

  lemma SubmitConserves(s: State, task: nat, m: Mutation)
    requires Conserved(s) && CanBusiness(s, Submit(task, m))
    ensures Conserved(AfterBusiness(s, Submit(task, m)))
  {
    var s' := AfterBusiness(s, Submit(task, m));
    forall c | c in s'.accepted ensures Safe(s', c) {
      if c in s.accepted { assert Safe(s, c); }
    }
  }

  lemma SubmitKeepsBarrier(s: State, task: nat, m: Mutation)
    requires BarrierOk(s) && R.Inv(s.r) && CanBusiness(s, Submit(task, m))
    ensures BarrierOk(AfterBusiness(s, Submit(task, m)))
  {
    assert P.Pending(s.pool, task);
  }

  lemma PoolKeepsBarrier(s: State, l: BusinessStep)
    requires BarrierOk(s) && R.Inv(s.r) && CanBusiness(s, l) && !l.Submit?
    ensures BarrierOk(AfterBusiness(s, l))
  {
    var s' := AfterBusiness(s, l);
    forall t, task | t in s.before && task in s.before[t] && !P.Pending(s.pool, task)
      ensures !P.Pending(s'.pool, task)
    {}
    Carried(s, s');
    assert s'.tools == s.tools;
  }

  lemma BusinessInv(s: State, l: BusinessStep)
    requires Inv(s) && CanBusiness(s, l)
    ensures Conserved(AfterBusiness(s, l)) && BarrierOk(AfterBusiness(s, l))
  {
    if l.Submit? {
      SubmitConserves(s, l.task, l.mutation);
      SubmitKeepsBarrier(s, l.task, l.mutation);
    } else {
      PoolKeepsBarrier(s, l);
      var s' := AfterBusiness(s, l);
      assert s'.queue == s.queue && s'.accepted == s.accepted && s'.discarded == s.discarded;
      forall c | c in s'.accepted ensures Safe(s', c) { assert Safe(s, c); }
    }
  }

  /* The maintenance worker. */

  lemma ReserveInv(s: State, count: nat)
    requires Conserved(s) && CanFlush(s, ReserveBatch(count))
    ensures Conserved(AfterFlush(s, ReserveBatch(count)))
  {
    Q.ReserveKeeps(s.queue, s.capacity, count);
    var s' := AfterFlush(s, ReserveBatch(count));
    if s.queue.reserved == [] { ReservedFromLine(s, count); }
    forall c | c in s'.accepted ensures Safe(s', c) { assert Safe(s, c); }
  }

  // The front of the line is in the batch, and the rest still waits.
  lemma ReservedFromLine(s: State, count: nat)
    requires Lined(s) && Q.Sound(s.queue, s.capacity) && s.queue.reserved == [] && CanFlush(s, ReserveBatch(count))
    ensures var s' := AfterFlush(s, ReserveBatch(count));
      Lined(s') && (forall c :: c in s'.held ==> Q.Covered(c.mutation, s'.queue.reserved)) &&
      forall c :: c in s.line ==> c in s'.line || c in s'.held
  {
    var s', n := AfterFlush(s, ReserveBatch(count)), Min(count, |s.line|);
    Q.MergeAllCovers([], s.queue.queued[..n]);
    assert s.line == s.line[..n] + s.line[n..];
    forall c | c in s'.held ensures Q.Covered(c.mutation, s'.queue.reserved) {
      var i :| 0 <= i < n && s.line[..n][i] == c;
      assert s.queue.queued[..n][i] == c.mutation;
    }
  }

  // With nothing in flight every earlier task is settled.
  lemma CheckIdleSettles(s: State)
    requires BarrierOk(s) && CanFlush(s, CheckIdle)
    ensures BarrierWork(AfterFlush(s, CheckIdle))
  {
    forall task ensures !P.Pending(s.pool, task) { P.IdleMeansNothingPending(s.pool, task); }
  }

  // With the queue and the reserved batch empty, everything accepted is in the log.
  lemma CheckDrainedFlushes(s: State)
    requires BarrierOk(s) && Conserved(s) && CanFlush(s, CheckDrained)
    ensures BarrierWork(AfterFlush(s, CheckDrained))
  {
    forall c | c in s.accepted ensures Logged(c, s.r.log) { assert Safe(s, c); }
  }

  lemma FlushInv(s: State, l: FlushStep)
    requires Inv(s) && CanFlush(s, l)
    ensures Conserved(AfterFlush(s, l)) && BarrierOk(AfterFlush(s, l))
  {
    var s' := AfterFlush(s, l);
    match l
    case ReserveBatch(count) => ReserveInv(s, count);
    case CheckIdle => CheckIdleSettles(s);
    case CheckDrained => CheckDrainedFlushes(s);
    case CheckIdleAgain =>
    case ReadBarrier =>
    Carried(s, s');
    if !l.ReserveBatch? {
      assert s'.queue == s.queue && s'.discarded == s.discarded;
      forall c | c in s'.accepted ensures Safe(s', c) { assert Safe(s, c); }
    }
  }

  /* Redis commands. */

  // A commit extends the log; an acknowledged batch leaves the queue for it.
  lemma LogConserves(s: State, s': State)
    requires Conserved(s) && R.Extends(s.r, s'.r)
    requires s'.accepted == s.accepted && s'.discarded == s.discarded && s'.mode == s.mode && s'.capacity == s.capacity
    requires s'.line == s.line
    requires (s'.queue == s.queue && s'.held == s.held) ||
      (s'.queue == Q.Acknowledge(s.queue) && s'.held == {} && s'.r.log == s.r.log + s.queue.reserved)
    ensures Conserved(s')
  {
    forall c | c in s'.accepted ensures Safe(s', c) {
      assert Safe(s, c);
      if Logged(c, s.r.log) { LoggedGrows(c, s.r.log, s'.r.log); }
      if s'.queue != s.queue && Q.Covered(c.mutation, s.queue.reserved) {
        LoggedByBatch(c, s.r.log, s.queue.reserved);
      }
    }
  }

  lemma WorkerFrame(s: State, l: R.Label)
    requires Roles(s) && WorkerMay(s, l) && R.Can(s.r, l)
    ensures var s' := AfterWorker(s, l);
      s'.capacity == s.capacity &&
      s'.line == s.line &&
      ((s'.queue == s.queue && s'.held == s.held) ||
       (s'.queue == Q.Acknowledge(s.queue) && s'.held == {} && s'.r.log == s.r.log + s.queue.reserved)) &&
      (s'.work == s.work || s'.work.Rest? || s'.work.Cleaned?)
  {}

  lemma WorkerInv(s: State, l: R.Label)
    requires Inv(s) && WorkerMay(s, l) && R.Can(s.r, l)
    ensures Conserved(AfterWorker(s, l)) && BarrierOk(AfterWorker(s, l))
  {
    var s' := AfterWorker(s, l);
    RedisStep(s.r, l);
    WorkerFrame(s, l);
    LogConserves(s, s');
    if l.Exec? && l.applied && s.r.conns[l.c].op.CompleteBarrier? {
      assert MayWatch(s, s.r.conns[l.c].op);
      R.CommitActsOnWhatWasRead(s.r, l.c);
    } else {
      CompletedKept(s, l);
      Carried(s, s');
    }
  }

  lemma CompletedKept(s: State, l: R.Label)
    requires R.Can(s.r, l) && !(l.Exec? && l.applied && s.r.conns[l.c].op.CompleteBarrier?)
    ensures R.Do(s.r, l).redis.completed == s.r.redis.completed
  {}

  lemma ClientInv(s: State, l: R.Label)
    requires Inv(s) && ClientMay(s, l) && R.Can(s.r, l)
    ensures Conserved(AfterClient(s, l)) && BarrierOk(AfterClient(s, l))
  {
    var s' := AfterClient(s, l);
    RedisStep(s.r, l);
    CompletedKept(s, l);
    LogConserves(s, s');
    Carried(s, s');
    forall tool | tool in s'.tools ensures ToolOk(s', s'.tools[tool]) {
      assert ToolOk(s, s.tools[tool]);
      if s'.tools[tool] != s.tools[tool] {
        assert s'.r.log[..|s.r.log|] == s.r.log && s'.r.log[|s.r.log|] == ClearAll;
      }
    }
  }

  /* Tools, drain, refresh, life cycle. */

  lemma ToolConserves(s: State, l: ToolStep)
    requires Inv(s) && CanTool(s, l)
    ensures Conserved(AfterTool(s, l))
  {
    hide BarrierOk;
    var s' := AfterTool(s, l);
    RedisStep(s.r, R.HIncrBy);
    forall c | c in s'.accepted ensures Safe(s', c) { assert Safe(s, c); }
  }

  lemma ToolKeepsBarrier(s: State, l: ToolStep)
    requires Inv(s) && CanTool(s, l)
    ensures BarrierOk(AfterTool(s, l))
  {
    hide Conserved;
    var s' := AfterTool(s, l);
    RedisStep(s.r, R.HIncrBy);
    forall tool | tool in s'.tools ensures ToolOk(s', s'.tools[tool]) {
      if tool in s.tools { assert ToolOk(s, s.tools[tool]); }
    }
  }

  lemma ToolInv(s: State, l: ToolStep)
    requires Inv(s) && CanTool(s, l)
    ensures Conserved(AfterTool(s, l)) && BarrierOk(AfterTool(s, l))
  {
    hide Inv, Conserved, BarrierOk;
    ToolConserves(s, l);
    ToolKeepsBarrier(s, l);
  }

  lemma OtherInv(s: State, s': State)
    requires Inv(s) && R.Extends(s.r, s'.r) && s'.r.redis.completed == s.r.redis.completed
    requires s'.queue == s.queue && s'.pool == s.pool && s'.accepted == s.accepted && s'.discarded == s.discarded
    requires s'.line == s.line && s'.held == s.held
    requires s'.before == s.before && s'.admitted == s.admitted && s'.tools == s.tools && s'.capacity == s.capacity
    requires (s.mode.Stopped? <==> s'.mode.Stopped?) && (s'.mode.Down? ==> s.mode.Down?)
    requires s'.work == s.work || !Barrier(s'.work)
    ensures Conserved(s') && BarrierOk(s')
  {
    Carried(s, s');
    forall c | c in s'.accepted ensures Safe(s', c) {
      assert Safe(s, c);
      if Logged(c, s.r.log) { LoggedGrows(c, s.r.log, s'.r.log); }
    }
  }

  lemma DrainInv(s: State, l: DrainStep)
    requires Inv(s) && CanDrain(s, l)
    ensures Conserved(AfterDrain(s, l)) && BarrierOk(AfterDrain(s, l))
  {
    DrainRedis(s, l);
    OtherInv(s, AfterDrain(s, l));
  }

  lemma RefreshInv(s: State, l: RefreshStep)
    requires Inv(s) && CanRefresh(s, l)
    ensures Conserved(AfterRefresh(s, l)) && BarrierOk(AfterRefresh(s, l))
  {
    RefreshRedis(s, l);
    OtherInv(s, AfterRefresh(s, l));
  }

  lemma DiscardInv(s: State)
    requires Inv(s) && CanLife(s, DiscardRest)
    ensures Conserved(AfterLife(s, DiscardRest)) && BarrierOk(AfterLife(s, DiscardRest))
  {
    var s' := AfterLife(s, DiscardRest);
    forall c | c in s'.accepted ensures Safe(s', c) { assert Safe(s, c); }
    Carried(s, s');
  }

  lemma LifeInv(s: State, l: LifeStep)
    requires Inv(s) && CanLife(s, l)
    ensures Conserved(AfterLife(s, l)) && BarrierOk(AfterLife(s, l))
  {
    var s' := AfterLife(s, l);
    LifeRedis(s, l);
    match l
    case DiscardRest => DiscardInv(s);
    case Yield => OtherInv(s, s');
    case Halt =>
      Carried(s, s');
      forall c | c in s'.accepted ensures Safe(s', c) { assert Safe(s, c); }
    case Crash => Carried(s, s');
    case Start => Carried(s, s');
  }

  lemma BeforeTheClear(s: State, tool: nat, c: Candidate)
    requires BarrierOk(s) && tool in s.tools && s.tools[tool].Cleared? && c in s.accepted
    requires s.tools[tool].token in s.before && c.task in s.before[s.tools[tool].token]
    ensures var at := s.tools[tool].at;
      c.since <= at < |s.r.log| && s.r.log[at] == ClearAll && Q.Covered(c.mutation, s.r.log[c.since..at]) &&
      c !in s.line && c !in s.held
  {
    assert ToolOk(s, s.tools[tool]);
    assert s.r.log[..s.tools[tool].at][c.since..] == s.r.log[c.since..s.tools[tool].at];
  }

  lemma InvStep(s: State, l: Label)
    requires Inv(s) && Can(s, l)
    ensures Inv(Do(s, l))
  {
    RolesStep(s, l);
    match l
    case Client(command) => ClientInv(s, command);
    case Worker(command) => WorkerInv(s, command);
    case Tooling(step) => ToolInv(s, step);
    case Business(step) => BusinessInv(s, step);
    case Drain(step) => DrainInv(s, step);
    case Refresh(step) => RefreshInv(s, step);
    case Flush(step) => FlushInv(s, step);
    case Life(step) => LifeInv(s, step);
  }
}
