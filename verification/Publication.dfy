/** The in-memory snapshot: requests always see the Redis hashes exactly as they were at
    the revision the service says it has published. */
module Publication {
  import opened Wrappers
  import opened Blacklist
  import opened BlacklistSystem
  import opened SystemConns
  import R = RedisMachine
  import Snapshot

  predicate HasRevision(s: State, revision: nat) {
    s.r.base <= revision < s.r.base + |s.r.history|
  }

  // The hashes as they were when the revision was current.
  function HashesAt(s: State, revision: nat): Table
    requires HasRevision(s, revision)
  {
    s.r.history[revision - s.r.base]
  }

  // No marker and no published snapshot is ahead of this revision.
  predicate Newest(s: State, revision: nat) {
    s.r.redis.published <= revision && (s.memory.Some? ==> s.memory.value.revision <= revision)
  }

  ghost predicate MemoryAgrees(s: State) {
    s.memory.Some? ==>
      var m := s.memory.value;
      s.r.redis.published <= m.revision && HasRevision(s, m.revision) &&
      forall k, at :: at >= m.since ==> Snapshot.Contains(m.snapshot, k, at) == Live(HashesAt(s, m.revision), k, at)
  }

  predicate WorkAgrees(s: State) {
    match s.work
    case Scanned(revision, table, _) =>
      HasRevision(s, revision) && HashesAt(s, revision) == table && Newest(s, revision)
    case Cleaned(revision, table, now) =>
      HasRevision(s, revision) && HashesAt(s, revision) == LiveAt(table, now) && Newest(s, revision)
    case _ => true
  }

  ghost predicate Inv(s: State) {
    Sane(s) && s.r.redis.published <= s.r.redis.revision && MemoryAgrees(s) && WorkAgrees(s)
  }

  // The facts carried along by a step that publishes nothing.
  lemma Carried(s: State, s': State)
    requires Inv(s) && R.Inv(s'.r) && R.Extends(s.r, s'.r)
    requires s'.r.redis.published == s.r.redis.published
    requires s'.memory == s.memory || s'.memory.None? ||
      (s.memory.Some? && s'.memory == Some(s.memory.value.(dirty := false)))
    ensures s'.r.redis.published <= s'.r.redis.revision && MemoryAgrees(s')
    ensures s'.work == s.work || (!s'.work.Scanned? && !s'.work.Cleaned?) ==> WorkAgrees(s')
  {
    assert forall rev :: HasRevision(s, rev) ==> HasRevision(s', rev) && HashesAt(s', rev) == HashesAt(s, rev);
  }

  lemma ScanOkAgrees(s: State, table: Table, now: nat)
    requires Inv(s) && CanRefresh(s, ScanOk(table, now))
    ensures var s' := AfterRefresh(s, ScanOk(table, now)); MemoryAgrees(s') && WorkAgrees(s')
  {
    R.StableSnapshotIsExact(s.r, WORKER);
    var seen := s.r.conns[WORKER].seen;
    forall k | k in s.r.redis.hashes ensures Snapshot.Listed(seen, k) {
      assert R.Seen(seen, k);
      var i :| 0 <= i < |seen| && seen[i].0 == k;
    }
    Snapshot.ListsUnique(seen, table, s.r.redis.hashes);
  }

  lemma PublishAgrees(s: State)
    requires Inv(s) && CanRefresh(s, Publish)
    ensures var s' := AfterRefresh(s, Publish); MemoryAgrees(s') && WorkAgrees(s')
  {
    Snapshot.PublishedAnswersLikeTable(s.work.table, s.work.now);
  }

  lemma WithoutExpired(t: Table, now: nat)
    ensures t - ExpiredAt(t, now).Keys == LiveAt(t, now)
  {}

  // Published at revision + 1, the snapshot is what the cleanup left in Redis.
  lemma CleanupAgrees(s: State, l: R.Label)
    requires Inv(s) && WorkerMay(s, l) && R.Can(s.r, l) && l.Exec? && l.applied && s.r.conns[l.c].op.RemoveExpired?
    ensures WorkAgrees(AfterWorker(s, l))
  {
    R.CommitActsOnWhatWasRead(s.r, l.c);
    RedisStep(s.r, l);
    assert MayWatch(s, s.r.conns[l.c].op);
    WithoutExpired(s.work.table, s.work.now);
  }

  lemma WorkerFrame(s: State, l: R.Label)
    requires Roles(s) && WorkerMay(s, l) && R.Can(s.r, l)
    requires l.Exec? && l.applied ==> !s.r.conns[l.c].op.SetPublished?
    ensures var s' := AfterWorker(s, l);
      s'.r.redis.published == s.r.redis.published &&
      (s'.memory == s.memory || (s.memory.Some? && s'.memory == Some(s.memory.value.(dirty := false)))) &&
      ((l.Exec? && l.applied && s.r.conns[l.c].op.RemoveExpired?) ||
       s'.work == s.work || (!s'.work.Scanned? && !s'.work.Cleaned?))
  {}

  lemma SetPublishedAgrees(s: State, l: R.Label)
    requires Inv(s) && Can(s, Worker(l)) && l.Exec? && l.applied && s.r.conns[l.c].op.SetPublished?
    ensures Inv(Do(s, Worker(l)))
  {
    RolesStep(s, Worker(l));
    assert MayWatch(s, s.r.conns[l.c].op);
  }

  lemma WorkerAgrees(s: State, l: R.Label)
    requires Inv(s) && Can(s, Worker(l))
    ensures Inv(Do(s, Worker(l)))
  {
    if l.Exec? && l.applied && s.r.conns[l.c].op.SetPublished? {
      SetPublishedAgrees(s, l);
    } else {
      RolesStep(s, Worker(l));
      StepRedis(s, Worker(l));
      WorkerFrame(s, l);
      Carried(s, Do(s, Worker(l)));
      if l.Exec? && l.applied && s.r.conns[l.c].op.RemoveExpired? { CleanupAgrees(s, l); }
    }
  }

  lemma DrainFrame(s: State, l: DrainStep)
    requires CanDrain(s, l)
    ensures var s' := AfterDrain(s, l);
      s'.r.redis.published == s.r.redis.published && s'.memory == s.memory && !s'.work.Scanned? && !s'.work.Cleaned?
  {}

  lemma ClientFrame(s: State, l: R.Label)
    requires Roles(s) && ClientMay(s, l) && R.Can(s.r, l)
    ensures var s' := AfterClient(s, l);
      s'.r.redis.published == s.r.redis.published && s'.memory == s.memory && s'.work == s.work
  {}

  lemma LifeFrame(s: State, l: LifeStep)
    ensures var s' := AfterLife(s, l);
      s'.r.redis == s.r.redis && (s'.memory == s.memory || s'.memory.None?) &&
      (s'.work == s.work || s'.work.Rest?)
  {}

  lemma OtherAgrees(s: State, l: Label)
    requires Inv(s) && Can(s, l) && !l.Worker? && !l.Refresh?
    ensures Inv(Do(s, l))
  {
    hide MemoryAgrees, WorkAgrees, Roles;
    RolesStep(s, l);
    StepRedis(s, l);
    match l {
      case Client(command) => ClientFrame(s, command);
      case Drain(step) => DrainFrame(s, step);
      case Life(step) => LifeFrame(s, step);
      case _ =>
    }
    Carried(s, Do(s, l));
  }

  lemma RefreshAgrees(s: State, step: RefreshStep)
    requires Inv(s) && Can(s, Refresh(step))
    ensures Inv(Do(s, Refresh(step)))
  {
    RolesStep(s, Refresh(step));
    StepRedis(s, Refresh(step));
    match step
    case ScanOk(table, now) => ScanOkAgrees(s, table, now);
    case Publish => PublishAgrees(s);
  }

  lemma InvStep(s: State, l: Label)
    requires Inv(s) && Can(s, l)
    ensures Inv(Do(s, l))
  {
    hide Inv, Can, Do;
    match l
    case Worker(command) => WorkerAgrees(s, command);
    case Refresh(step) => RefreshAgrees(s, step);
    case _ => OtherAgrees(s, l);
  }
}
