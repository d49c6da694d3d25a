/** The write-behind invariant: MySQL with the pending Stream replayed over it always
    says what the Redis hashes say, and no crash point loses or repeats a mutation. */
module WriteBehind {
  import opened Wrappers
  import opened Blacklist
  import opened BlacklistSystem
  import opened PendingStream
  import opened SystemConns
  import R = RedisMachine

  // The batch in hand is still at the front of the Stream; what was committed from it
  // changes nothing when committed again.
  predicate BatchHeld(s: State) {
    match s.work
    case GotBatch(b) => b <= s.r.redis.stream
    case CleanBatch(b) => Good(b) <= s.r.redis.stream
    case RowsCommitted(b) => Good(b) <= s.r.redis.stream && ReplayRows(s.rows, Payloads(b)) == s.rows
    case PendingEmpty => !s.r.redis.ready ==> s.r.redis.stream == []
    case RowsLoaded(entries, at) =>
      entries == LiveAtEach(Enabled(s.rows), at) && (!s.r.redis.ready ==> s.r.redis.stream == [])
    case _ => true
  }

  ghost predicate CacheAgrees(s: State) {
    s.r.redis.ready ==> Agrees(Enabled(Durable(s)), s.r.redis.hashes, s.clock)
  }

  ghost predicate Inv(s: State) {
    Sane(s) && BatchHeld(s) && CacheAgrees(s)
  }

  /* Replaying. */

  lemma DurableGrows(rows: Rows, r: R.Redis, batch: seq<Mutation>)
    ensures ReplayRows(rows, Payloads(R.Commit(r, R.ApplyBatch(batch)).stream)) ==
      ReplayRows(ReplayRows(rows, Payloads(r.stream)), batch)
  {
    PayloadsAppend(r.stream, R.Records(r.lastId + 1, batch));
    PayloadsRecords(r.lastId + 1, batch);
    ReplayRowsAppend(rows, Payloads(r.stream), batch);
  }

  /* Commits. */

  lemma AgreesAfterApply(s: State, c: nat)
    requires Inv(s) && R.InTxn(s.r, c) && s.r.conns[c].op.ApplyBatch? && s.r.redis.ready
    ensures var s' := s.(r := R.Committed(s.r, c)); CacheAgrees(s') && BatchHeld(s')
  {
    var batch := s.r.conns[c].op.batch;
    DurableGrows(s.rows, s.r.redis, batch);
    EnabledReplay(Durable(s), batch);
    AgreesReplay(Enabled(Durable(s)), s.r.redis.hashes, s.clock, batch);
  }

  lemma AgreesAfterCleanup(durable: Table, hashes: Table, clock: nat, expired: Table, now: nat)
    requires Agrees(durable, hashes, clock)
    requires forall k :: k in expired ==> k in hashes && hashes[k] == expired[k] && Expired(expired[k], now)
    ensures Agrees(durable, hashes - expired.Keys, Max(clock, now))
  {}

  // The rebuild establishes agreement, whatever the hashes held before.
  lemma AgreesAfterRebuild(durable: Table, at: Clocks, clock: nat)
    ensures Agrees(durable, LiveAtEach(durable, at), Max(clock, LatestOf(at)))
  {}

  lemma ExecApply(s: State, c: nat)
    requires Inv(s) && R.InTxn(s.r, c) && !s.r.conns[c].dirty && R.MayExec(s.r.conns[c].op, s.r.conns[c].got)
    requires s.r.conns[c].op.ApplyBatch?
    ensures var s' := s.(r := R.Committed(s.r, c)); CacheAgrees(s') && BatchHeld(s')
  {
    R.CommitActsOnWhatWasRead(s.r, c);
    AgreesAfterApply(s, c);
  }

  lemma ExecCleanup(s: State, l: R.Label)
    requires Inv(s) && Can(s, Worker(l)) && l.Exec? && l.applied && s.r.conns[l.c].op.RemoveExpired?
    ensures BatchHeld(Do(s, Worker(l))) && CacheAgrees(Do(s, Worker(l)))
  {
    var op := s.r.conns[l.c].op;
    R.CommitActsOnWhatWasRead(s.r, l.c);
    assert R.ConnOk(s.r.redis, s.r.conns[l.c]);
    if s.r.redis.ready { AgreesAfterCleanup(Enabled(Durable(s)), s.r.redis.hashes, s.clock, op.expired, op.now); }
  }

  lemma ExecRebuild(s: State, l: R.Label)
    requires Inv(s) && Can(s, Worker(l)) && l.Exec? && l.applied && s.r.conns[l.c].op.Rebuild?
    ensures BatchHeld(Do(s, Worker(l))) && CacheAgrees(Do(s, Worker(l)))
  {
    R.CommitActsOnWhatWasRead(s.r, l.c);
    assert MayWatch(s, s.r.conns[WORKER].op);
    AgreesAfterRebuild(Enabled(s.rows), s.work.at, s.clock);
  }

  lemma ExecClient(s: State, l: R.Label)
    requires Inv(s) && Can(s, Client(l)) && l.Exec? && l.applied
    ensures BatchHeld(Do(s, Client(l))) && CacheAgrees(Do(s, Client(l)))
  {
    ExecApply(s, l.c);
    Quiet(s.(r := R.Committed(s.r, l.c)), Do(s, Client(l)));
  }

  lemma ExecCandidates(s: State, l: R.Label)
    requires Inv(s) && Can(s, Worker(l)) && l.Exec? && l.applied && s.r.conns[l.c].op.ApplyBatch?
    ensures BatchHeld(Do(s, Worker(l))) && CacheAgrees(Do(s, Worker(l)))
  {
    ExecApply(s, l.c);
    Quiet(s.(r := R.Committed(s.r, l.c)), Do(s, Worker(l)));
  }

  lemma ExecWorker(s: State, l: R.Label)
    requires Inv(s) && Can(s, Worker(l)) && l.Exec? && l.applied
    ensures BatchHeld(Do(s, Worker(l))) && CacheAgrees(Do(s, Worker(l)))
  {
    match s.r.conns[l.c].op
    case ApplyBatch(_) => ExecCandidates(s, l);
    case RemoveExpired(_, _, _) => ExecCleanup(s, l);
    case Rebuild(_) => ExecRebuild(s, l);
    case _ => FrameMarker(s, l); Quiet(s, Do(s, Worker(l)));
  }

  // Nothing the invariant looks at has moved, or the worker let go of its batch.
  predicate Unmoved(s: State, s': State) {
    s'.r.redis.stream == s.r.redis.stream && s'.r.redis.hashes == s.r.redis.hashes &&
    s'.r.redis.ready == s.r.redis.ready && s'.rows == s.rows && s'.clock == s.clock &&
    (s'.work == s.work || !Holding(s'.work))
  }

  lemma Quiet(s: State, s': State)
    requires BatchHeld(s) && CacheAgrees(s) && Unmoved(s, s')
    ensures BatchHeld(s') && CacheAgrees(s')
  {}

  lemma FrameClient(s: State, l: R.Label)
    requires Can(s, Client(l)) && !(l.Exec? && l.applied)
    ensures Unmoved(s, Do(s, Client(l)))
  {}

  lemma FrameWorker(s: State, l: R.Label)
    requires Can(s, Worker(l)) && !(l.Exec? && l.applied)
    ensures Unmoved(s, Do(s, Worker(l)))
  {}

  lemma FrameMarker(s: State, l: R.Label)
    requires Can(s, Worker(l)) && l.Exec? && l.applied
    requires s.r.conns[l.c].op.CompleteBarrier? || s.r.conns[l.c].op.SetPublished?
    ensures Unmoved(s, Do(s, Worker(l)))
  {}

  lemma FrameRefresh(s: State, l: RefreshStep)
    requires CanRefresh(s, l)
    ensures Unmoved(s, AfterRefresh(s, l))
  {}

  lemma FrameLife(s: State, l: LifeStep)
    requires CanLife(s, l)
    ensures Unmoved(s, AfterLife(s, l))
  {}

  lemma FrameFlush(s: State, l: FlushStep)
    requires CanFlush(s, l)
    ensures Unmoved(s, AfterFlush(s, l))
  {}

  lemma FrameOther(s: State, l: Label)
    requires Can(s, l) && !l.Client? && !l.Worker? && !l.Drain?
    ensures Unmoved(s, Do(s, l))
  {
    match l
    case Refresh(step) => FrameRefresh(s, step);
    case Life(step) => FrameLife(s, step);
    case Flush(step) => FrameFlush(s, step);
    case _ =>
  }

  predicate Holding(w: Work) {
    w.GotBatch? || w.CleanBatch? || w.RowsCommitted? || w.PendingEmpty? || w.RowsLoaded?
  }

  /* The drain: XRANGE, COMMIT, XDEL. */

  lemma ReplayWithoutBad(stream: seq<R.Entry>, b: seq<R.Entry>)
    requires Ordered(stream) && b <= stream
    ensures Good(b) <= R.Remaining(stream, BadIds(b))
    ensures Payloads(R.Remaining(stream, BadIds(b))) == Payloads(stream)
  {
    DeleteBadLeaves(stream, b);
    assert stream == b + stream[|b|..];
    PayloadsAppend(b, stream[|b|..]);
    PayloadsAppend(Good(b), stream[|b|..]);
    GoodPayloads(b);
  }

  lemma ReplayAfterCommit(rows: Rows, stream: seq<R.Entry>, b: seq<R.Entry>)
    requires Good(b) <= stream
    ensures ReplayRows(ReplayRows(rows, Payloads(b)), Payloads(stream)) == ReplayRows(rows, Payloads(stream))
    ensures ReplayRows(ReplayRows(rows, Payloads(b)), Payloads(b)) == ReplayRows(rows, Payloads(b))
  {
    var rest := stream[|Good(b)|..];
    assert stream == Good(b) + rest;
    GoodPayloads(b);
    PayloadsAppend(Good(b), rest);
    ReplayAfterCommittedPrefix(rows, Payloads(b), Payloads(rest));
    ReplayAfterCommittedPrefix(rows, Payloads(b), []);
    assert Payloads(b) + [] == Payloads(b);
  }

  lemma ReplayWithoutGood(rows: Rows, stream: seq<R.Entry>, b: seq<R.Entry>)
    requires Ordered(stream) && Good(b) <= stream && ReplayRows(rows, Payloads(b)) == rows
    ensures ReplayRows(rows, Payloads(R.Remaining(stream, GoodIds(b)))) == ReplayRows(rows, Payloads(stream))
  {
    var rest := stream[|Good(b)|..];
    DeleteGoodLeaves(stream, b);
    assert stream == Good(b) + rest;
    GoodPayloads(b);
    PayloadsAppend(Good(b), rest);
    ReplayRowsAppend(rows, Payloads(b), Payloads(rest));
  }

  lemma DrainStepKeeps(s: State, l: DrainStep)
    requires Inv(s) && CanDrain(s, l)
    ensures Durable(AfterDrain(s, l)) == Durable(s) && BatchHeld(AfterDrain(s, l))
  {
    match l
    case ReadPending(_) =>
    case DeleteBad(_, _) => ReplayWithoutBad(s.r.redis.stream, s.work.batch);
    case CommitRows(_, _) => ReplayAfterCommit(s.rows, s.r.redis.stream, s.work.batch);
    case DeleteGood(_, _) => ReplayWithoutGood(s.rows, s.r.redis.stream, s.work.batch);
    case LoadRows(_) =>
  }

  /** No step of the drain changes what the rows will say once the Stream has been
      replayed, whether or not its COMMIT or XDEL took effect or was acknowledged: a crash
      between any two of them neither loses nor repeats a mutation. */
  lemma DrainKeepsDurable(s: State, l: Label)
    requires Inv(s) && Can(s, l) && (l.Drain? || l.Life?)
    ensures Durable(Do(s, l)) == Durable(s)
  {
    if l.Drain? { DrainStepKeeps(s, l.drain); } else { FrameLife(s, l.life); }
  }

  lemma InvStep(s: State, l: Label)
    requires Inv(s) && Can(s, l)
    ensures Inv(Do(s, l))
  {
    RolesStep(s, l);
    if l.Client? && l.command.Exec? && l.command.applied {
      ExecClient(s, l.command);
    } else if l.Worker? && l.command.Exec? && l.command.applied {
      ExecWorker(s, l.command);
    } else if l.Drain? {
      DrainStepKeeps(s, l.drain);
    } else {
      if l.Client? { FrameClient(s, l.command); } else if l.Worker? { FrameWorker(s, l.command); }
        else { FrameOther(s, l); }
      Quiet(s, Do(s, l));
    }
  }
}
