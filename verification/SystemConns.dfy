/** What holds of every connection in the system: Redis' own invariant, and which
    operation each kind of client can have open. */
module SystemConns {
  import opened Blacklist
  import opened BlacklistSystem
  import R = RedisMachine

  // A client transaction is a mutation batch; the worker's fits what it has in hand.
  predicate Roles(s: State) {
    (forall c :: c in s.r.conns && c != WORKER && s.r.conns[c].Txn? ==>
      s.r.conns[c].op.ApplyBatch? &&
      (s.r.conns[c].op.batch == [ClearAll] ==> c in s.tools && s.tools[c].Acknowledged?)) &&
    (WORKER in s.r.conns ==>
      (s.mode.Boot? || s.mode.Running?) &&
      (s.r.conns[WORKER].Txn? ==> MayWatch(s, s.r.conns[WORKER].op)) &&
      (s.r.conns[WORKER].Scan? ==> s.work.Rest?))
  }

  predicate Sane(s: State) {
    R.Inv(s.r) && Roles(s)
  }

  lemma CrashIsDrop(r: R.State)
    requires R.Inv(r)
    ensures R.Inv(r.(conns := r.conns - {WORKER})) && R.Extends(r, r.(conns := r.conns - {WORKER}))
  {
    if WORKER in r.conns {
      R.InvStep(r, R.Drop(WORKER));
    } else {
      assert r.conns - {WORKER} == r.conns;
    }
  }

  lemma DeletedKeeps(r: R.State, ids: set<nat>, applied: bool)
    requires R.Inv(r)
    ensures R.Inv(Deleted(r, ids, applied)) && R.Extends(r, Deleted(r, ids, applied))
  {
    R.InvStep(r, R.XDel(ids));
    R.StepExtends(r, R.XDel(ids));
  }

  lemma RedisStep(r: R.State, l: R.Label)
    requires R.Inv(r) && R.Can(r, l)
    ensures R.Inv(R.Do(r, l)) && R.Extends(r, R.Do(r, l))
  {
    R.InvStep(r, l);
    R.StepExtends(r, l);
  }

  lemma DrainRedis(s: State, l: DrainStep)
    requires R.Inv(s.r) && CanDrain(s, l)
    ensures R.Inv(AfterDrain(s, l).r) && R.Extends(s.r, AfterDrain(s, l).r)
  {
    if l.DeleteBad? { DeletedKeeps(s.r, BadIds(s.work.batch), l.applied); }
    if l.DeleteGood? { DeletedKeeps(s.r, GoodIds(s.work.batch), l.applied); }
  }

  lemma LifeRedis(s: State, l: LifeStep)
    requires R.Inv(s.r) && CanLife(s, l)
    ensures R.Inv(AfterLife(s, l).r) && R.Extends(s.r, AfterLife(s, l).r)
  {
    if l.Crash? { CrashIsDrop(s.r); }
  }

  lemma RefreshRedis(s: State, l: RefreshStep)
    requires R.Inv(s.r) && CanRefresh(s, l)
    ensures R.Inv(AfterRefresh(s, l).r) && R.Extends(s.r, AfterRefresh(s, l).r)
  {
    if l.ScanOk? { RedisStep(s.r, R.Drop(WORKER)); }
  }

  lemma ExecRedis(s: State, l: R.Label)
    requires R.Inv(s.r) && R.Can(s.r, l)
    ensures AfterWorker(s, l).r == R.Do(s.r, l) && AfterClient(s, l).r == R.Do(s.r, l)
    ensures R.Inv(R.Do(s.r, l)) && R.Extends(s.r, R.Do(s.r, l))
  {
    RedisStep(s.r, l);
  }

  // Redis never sees anything but its own commands.
  lemma StepRedis(s: State, l: Label)
    requires R.Inv(s.r) && Can(s, l)
    ensures R.Inv(Do(s, l).r) && R.Extends(s.r, Do(s, l).r)
  {
    match l
    case Client(command) => ExecRedis(s, command);
    case Worker(command) => ExecRedis(s, command);
    case Tooling(step) => RedisStep(s.r, R.HIncrBy);
    case Refresh(step) => RefreshRedis(s, step);
    case Drain(step) => DrainRedis(s, step);
    case Life(step) => LifeRedis(s, step);
    case _ =>
  }

  // A command leaves other connections with the operation they had.
  lemma OtherConnsKept(r: R.State, l: R.Label)
    requires R.Can(r, l)
    ensures forall c :: c in R.Do(r, l).conns && !(l.Watch? && l.c == c) && !(l.ScanStart? && l.c == c) ==>
      c in r.conns && (r.conns[c].Txn? <==> R.Do(r, l).conns[c].Txn?) &&
      (r.conns[c].Txn? ==> R.Do(r, l).conns[c].op == r.conns[c].op)
    ensures (l.Exec? || l.Drop?) ==> l.c !in R.Do(r, l).conns
  {}

  lemma RolesClient(s: State, command: R.Label)
    requires Sane(s) && Can(s, Client(command))
    ensures Roles(Do(s, Client(command)))
  {
    OtherConnsKept(s.r, command);
    var s' := Do(s, Client(command));
    if WORKER in s'.r.conns && s'.r.conns[WORKER].Txn? {
      assert MayWatch(s, s.r.conns[WORKER].op);
    }
  }

  // Once its operation is over the worker has no connection open.
  lemma RolesWorkerExec(s: State, l: R.Label)
    requires Sane(s) && WorkerMay(s, l) && R.Can(s.r, l) && (l.Exec? || l.Drop?)
    ensures Roles(AfterWorker(s, l))
  {
    OtherConnsKept(s.r, l);
    assert WORKER !in AfterWorker(s, l).r.conns;
  }

  lemma RolesWorkerOther(s: State, l: R.Label)
    requires Sane(s) && Can(s, Worker(l)) && !l.Exec? && !l.Drop?
    ensures Roles(Do(s, Worker(l)))
  {
    OtherConnsKept(s.r, l);
  }

  lemma RolesDrain(s: State, l: DrainStep)
    requires Sane(s) && CanDrain(s, l)
    ensures Roles(AfterDrain(s, l))
  {
    if l.DeleteBad? { OtherConnsKept(s.r, R.XDel(BadIds(s.work.batch))); }
    if l.DeleteGood? { OtherConnsKept(s.r, R.XDel(GoodIds(s.work.batch))); }
  }

  lemma RolesTool(s: State, l: ToolStep)
    requires Sane(s) && CanTool(s, l)
    ensures Roles(AfterTool(s, l))
  {
    OtherConnsKept(s.r, R.HIncrBy);
  }

  lemma RolesRefresh(s: State, l: RefreshStep)
    requires Sane(s) && CanRefresh(s, l)
    ensures Roles(AfterRefresh(s, l))
  {
    if l.ScanOk? { OtherConnsKept(s.r, R.Drop(WORKER)); }
  }

  lemma RolesLife(s: State, l: LifeStep)
    requires Sane(s) && CanLife(s, l)
    ensures Roles(AfterLife(s, l))
  {}

  lemma RolesFlush(s: State, l: FlushStep)
    requires Sane(s) && CanFlush(s, l)
    ensures Roles(AfterFlush(s, l))
  {}

  lemma RolesBusiness(s: State, l: BusinessStep)
    requires Sane(s) && CanBusiness(s, l)
    ensures Roles(AfterBusiness(s, l))
  {}

  lemma RolesStep(s: State, l: Label)
    requires Sane(s) && Can(s, l)
    ensures Sane(Do(s, l))
  {
    StepRedis(s, l);
    match l
    case Client(command) => RolesClient(s, command);
    case Worker(command) => if command.Exec? || command.Drop? { RolesWorkerExec(s, command); }
      else { RolesWorkerOther(s, command); }
    case Drain(step) => RolesDrain(s, step);
    case Tooling(step) => RolesTool(s, step);
    case Refresh(step) => RolesRefresh(s, step);
    case Life(step) => RolesLife(s, step);
    case Flush(step) => RolesFlush(s, step);
    case Business(step) => RolesBusiness(s, step);
  }
}
