/** What holds in every reachable state of the write-behind system. */
module BlacklistTheorems {
  import opened Blacklist
  import opened BlacklistSystem
  import R = RedisMachine
  import Q = CandidateQueue
  import P = WorkerPool
  import Snapshot
  import SystemConns
  import WriteBehind
  import Publication
  import ResetBarrier

  // No process and no connection yet; Redis and MySQL hold whatever earlier lives left.
  // A cache that is already ready was agreed with MySQL by one of them.
  ghost predicate Initial(s: State) {
    R.Initial(s.r) && s.mode.Down? && s.work.Rest? && s.memory.None? && s.queue == EmptyQueue() &&
    s.line == [] && s.held == {} && s.pool == P.View([], multiset{}, true) && s.admitted == {} &&
    s.accepted == {} && s.discarded == {} &&
    s.before == map[] && s.tools == map[] &&
    s.r.redis.published <= s.r.redis.revision && WriteBehind.CacheAgrees(s)
  }

  ghost predicate Inv(s: State) {
    WriteBehind.Inv(s) && Publication.Inv(s) && ResetBarrier.Inv(s)
  }

  lemma InitialInv(s: State)
    requires Initial(s)
    ensures Inv(s)
  {
    R.InitialInv(s.r);
  }

  lemma {:induction false} InvRun(s: State, ls: seq<Label>)
    requires Inv(s) && CanRun(s, ls)
    ensures Inv(After(s, ls)) && R.Extends(s.r, After(s, ls).r)
    decreases |ls|
  {
    if ls != [] {
      WriteBehind.InvStep(s, ls[0]);
      Publication.InvStep(s, ls[0]);
      ResetBarrier.InvStep(s, ls[0]);
      SystemConns.StepRedis(s, ls[0]);
      InvRun(Do(s, ls[0]), ls[1..]);
    }
  }

  /** Write-behind: whenever the cache is ready, MySQL with the pending Stream replayed
      over it has the same live entries as the three hashes, at every time from the last
      cleanup clock on. */
  lemma CacheMatchesDatabase(s0: State, ls: seq<Label>)
    requires Initial(s0) && CanRun(s0, ls)
    ensures var s := After(s0, ls);
      s.r.redis.ready ==> forall k, t :: t >= s.clock ==>
        Live(Enabled(Durable(s)), k, t) == Live(s.r.redis.hashes, k, t)
  {
    InitialInv(s0);
    InvRun(s0, ls);
    var s := After(s0, ls);
    if s.r.redis.ready { AgreeingTablesAnswerAlike(Enabled(Durable(s)), s.r.redis.hashes, s.clock); }
  }

  /** Snapshot agreement: a request's lookup answers as the hashes did at the revision
      the service last published, for every entity and every time from publication on;
      and published_revision <= last published revision <= revision. */
  lemma RequestsSeeThePublishedRevision(s0: State, ls: seq<Label>)
    requires Initial(s0) && CanRun(s0, ls) && After(s0, ls).memory.Some?
    ensures var s := After(s0, ls);
      var m := s.memory.value;
      s.r.redis.published <= m.revision <= s.r.redis.revision && Publication.HasRevision(s, m.revision) &&
      forall k, at :: at >= m.since ==>
        Snapshot.Contains(m.snapshot, k, at) == Live(Publication.HashesAt(s, m.revision), k, at)
  {
    InitialInv(s0);
    InvRun(s0, ls);
  }

  /** Candidate conservation in every reachable state. */
  lemma CandidatesAreConserved(s0: State, ls: seq<Label>)
    requires Initial(s0) && CanRun(s0, ls)
    ensures ResetBarrier.Conserved(After(s0, ls))
  {
    InitialInv(s0);
    InvRun(s0, ls);
  }

  /** Reset barrier: when a reset tool's CLEAR_ALL is in the log, everything that was
      accepted from a business task admitted before the tool's request is covered by what was
      logged between its acceptance and that CLEAR_ALL, and is neither queued nor in the
      reserved batch any more: no such candidate lands behind it, however many resets there
      were before. */
  lemma ClearComesAfterEarlierCandidates(s0: State, ls: seq<Label>, tool: nat, c: Candidate)
    requires Initial(s0) && CanRun(s0, ls)
    requires var s := After(s0, ls);
      tool in s.tools && s.tools[tool].Cleared? && c in s.accepted &&
      s.tools[tool].token in s.before && c.task in s.before[s.tools[tool].token]
    ensures var s := After(s0, ls);
      var at := s.tools[tool].at;
      c.since <= at < |s.r.log| && s.r.log[at] == ClearAll && Q.Covered(c.mutation, s.r.log[c.since..at]) &&
      c !in s.line && c !in s.held
  {
    InitialInv(s0);
    InvRun(s0, ls);
    ResetBarrier.BeforeTheClear(After(s0, ls), tool, c);
  }

  /** The barrier's completed count never passes requested and never goes back. */
  lemma BarrierIsMonotone(s0: State, ls: seq<Label>, more: seq<Label>)
    requires Initial(s0) && CanRun(s0, ls) && CanRun(After(s0, ls), more)
    ensures var s, s' := After(s0, ls), After(After(s0, ls), more);
      s.r.redis.completed <= s'.r.redis.completed <= s'.r.redis.requested
  {
    InitialInv(s0);
    InvRun(s0, ls);
    InvRun(After(s0, ls), more);
  }

  predicate Acknowledges(l: Label) {
    l.Worker? && l.command.Exec? && l.command.reply.Acked?
  }

  /** A batch that was not acknowledged is offered again, unchanged, before any newer
      candidate: nothing but its acknowledgement, a shutdown or a crash replaces it. */
  lemma {:induction false} UnacknowledgedBatchIsRetried(s: State, ls: seq<Label>)
    requires CanRun(s, ls) && s.queue.reserved != []
    requires forall i :: 0 <= i < |ls| ==> !Acknowledges(ls[i]) && !ls[i].Life?
    ensures After(s, ls).queue.reserved == s.queue.reserved
    ensures forall n :: Q.AllUpserts(After(s, ls).queue.queued) ==>
      Q.Reserve(After(s, ls).queue, n).reserved == s.queue.reserved
    decreases |ls|
  {
    if ls != [] {
      assert !Acknowledges(ls[0]) && !ls[0].Life?;
      assert Do(s, ls[0]).queue.reserved == s.queue.reserved;
      UnacknowledgedBatchIsRetried(Do(s, ls[0]), ls[1..]);
    }
  }
}
