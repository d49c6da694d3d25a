/** The changes around a handler: what the loop takes out of its mailboxes and gives to the
    pool, new sessions, and the release of connections. */
module LoopBoxes {
  import opened Wrappers
  import opened LoopState
  import opened LoopEnv
  import opened LoopSteps
  import L = ConnectionLoad
  import R = SessionRuns
  import S = Session
  import T = TimerSpec

  // Nothing but the mailboxes, the tasks and the group's books has changed.
  predicate SameTables(s: State, s': State) {
    s'.sessions == s.sessions && s'.eventToFd == s.eventToFd && s'.nextGeneration == s.nextGeneration &&
    s'.used == s.used &&
    s'.strays == s.strays && s'.ended == s.ended && s'.given == s.given && s'.standard == s.standard &&
    s'.env.timers == s.env.timers &&
    s'.env.clock == s.env.clock
  }

  lemma SameHistories(s: State, s': State)
    requires History(s) && SameTables(s, s')
    ensures History(s')
  {
    SameLivesHistory(s, s');
  }

  lemma SameLoose(cfg: Config, s: State, s': State, fd: int)
    requires Loose(cfg, s, fd) && SameTables(s, s') && TasksOk(s'.env.tasks, s.sessions[fd])
    requires forall x :: Pending(s', x) <==> Pending(s, x)
    ensures Loose(cfg, s', fd)
  {}

  lemma SameKnown(s: State, s': State)
    requires Known(s) && SameTables(s, s') && s'.env.tasks.Keys <= s.env.tasks.Keys
    requires forall x :: Pending(s', x) ==> Pending(s, x)
    ensures Known(s')
  {}

  lemma SameTimers(s: State, s': State)
    requires Timers(s) && SameTables(s, s') && forall x :: Travels(s'.env, x) ==> Travels(s.env, x)
    ensures Timers(s')
  {
    forall x | x in s'.env.timers ensures Owned(s', x) || x in s'.strays { assert Owned(s, x) || x in s.strays; }
  }

  lemma FewerTasks(tasks: map<S.Token, nat>, tasks': map<S.Token, nat>, e: Entry)
    requires TasksOk(tasks, e)
    requires forall t :: t in tasks' ==> t in tasks && tasks'[t] == tasks[t]
    ensures TasksOk(tasks', e)
  {}

  // The common shape of the changes below.
  lemma SameInv(cfg: Config, s: State, s': State, fd: int)
    requires SameTables(s, s') && Boxes(s'.env) && Ledger(cfg, s')
    requires forall t :: t in s'.env.tasks ==> t in s.env.tasks && s'.env.tasks[t] == s.env.tasks[t]
    requires forall x :: Pending(s', x) <==> Pending(s, x)
    requires forall x :: Travels(s'.env, x) ==> Travels(s.env, x)
    ensures Inv(cfg, s) ==> Inv(cfg, s')
    ensures InvExcept(cfg, s, fd) ==> InvExcept(cfg, s', fd)
  {
    if Global(cfg, s) {
      SameHistories(s, s');
      SameKnown(s, s');
      SameTimers(s, s');
    }
    forall x | Loose(cfg, s, x) ensures Loose(cfg, s', x) {
      FewerTasks(s.env.tasks, s'.env.tasks, s.sessions[x]);
      SameLoose(cfg, s, s', x);
    }
    assert forall x :: Settled(cfg, s, x) ==> Settled(cfg, s', x);
  }

  lemma InvLedger(cfg: Config, s: State)
    requires Inv(cfg, s)
    ensures Ledger(cfg, s)
  {}

  /* Releasing a connection: first by the loop's counter, then by the group's. */

  function ReleasedLoop(cfg: Config, s: State, c: nat): State {
    s.(env := s.env.(group := Shifted(cfg, s.env.group, L.ReleaseLoop(cfg.loop, {c}))))
  }

  function ReleasedTotal(cfg: Config, s: State, c: nat): State {
    s.(env := s.env.(group := Shifted(cfg, s.env.group, L.ReleaseTotal({c}))), mine := s.mine - {c},
       released := s.released + 1)
  }

  lemma OnlyBooks(cfg: Config, s: State, s': State, fd: int)
    requires Ledger(cfg, s')
    requires s' == s.(env := s.env.(group := s'.env.group, registrations := s'.env.registrations),
      mine := s'.mine, popped := s'.popped, released := s'.released)
    requires forall r :: r in s'.env.registrations ==> r in s.env.registrations
    ensures Inv(cfg, s) ==> Inv(cfg, s')
    ensures InvExcept(cfg, s, fd) ==> InvExcept(cfg, s', fd)
    ensures Frame(s, s', fd)
  {
    forall x ensures Pending(s', x) <==> Pending(s, x) {}
    FrameItself(s, fd);
    if Global(cfg, s) { SameInv(cfg, s, s', fd); }
  }

  // The sessions' side of the books.
  lemma BooksOfSessions(cfg: Config, s: State, s': State, c: nat)
    requires Ledger(cfg, s) && s'.sessions == s.sessions && GroupOk(cfg, s'.env, s'.mine)
    requires c in s.env.group.conns && c in s'.env.group.conns &&
      s'.env.group.conns == s.env.group.conns[c := s'.env.group.conns[c]]
    requires !s.env.group.conns[c].Open? && !s'.env.group.conns[c].Open?
    requires s'.popped == s'.released + |s.sessions| + |s'.mine|
    ensures Ledger(cfg, s')
  {
    hide L.Inv;
    assert L.OpenSet(s'.env.group.conns, cfg.loop) == L.OpenSet(s.env.group.conns, cfg.loop);
  }

  lemma ReleasedLoopOk(cfg: Config, s: State, c: nat, fd: int)
    requires Inv(cfg, s) && c in s.mine && L.At(s.env.group, c, L.Leaving(cfg.loop))
    ensures var s' := ReleasedLoop(cfg, s, c);
      L.At(s'.env.group, c, L.Settling(cfg.loop)) && Frame(s, s', fd) && Inv(cfg, s')
  {
    var s' := ReleasedLoop(cfg, s, c);
    hide L.Inv, Shifted, Inv, Frame;
    InvLedger(cfg, s);
    ShiftOne(cfg, s.env.group, L.ReleaseLoop(cfg.loop, {c}), c, L.Leaving(cfg.loop));
    OneMoved(cfg, s.env, s'.env, s.mine, s'.mine, c, L.Leaving(cfg.loop));
    BooksOfSessions(cfg, s, s', c);
    OnlyBooks(cfg, s, s', fd);
  }

  lemma ReleasedTotalLedger(cfg: Config, s: State, c: nat)
    requires Ledger(cfg, s) && c in s.mine && L.At(s.env.group, c, L.Settling(cfg.loop))
    ensures Ledger(cfg, ReleasedTotal(cfg, s, c)) && L.At(ReleasedTotal(cfg, s, c).env.group, c, L.Gone)
  {
    var s' := ReleasedTotal(cfg, s, c);
    hide L.Inv, Shifted;
    ShiftOne(cfg, s.env.group, L.ReleaseTotal({c}), c, L.Settling(cfg.loop));
    OneMoved(cfg, s.env, s'.env, s.mine, s'.mine, c, L.Settling(cfg.loop));
    assert s.mine == s'.mine + {c};
    BooksOfSessions(cfg, s, s', c);
  }

  lemma ReleasedTotalOk(cfg: Config, s: State, c: nat, fd: int)
    requires Inv(cfg, s) && c in s.mine && L.At(s.env.group, c, L.Settling(cfg.loop))
    ensures var s' := ReleasedTotal(cfg, s, c); Frame(s, s', fd) && Inv(cfg, s')
  {
    hide Inv, Ledger, Frame, Shifted;
    InvLedger(cfg, s);
    ReleasedTotalLedger(cfg, s, c);
    OnlyBooks(cfg, s, ReleasedTotal(cfg, s, c), fd);
  }

  /* The registration mailbox. */

  function PoppedOne(cfg: Config, s: State): State
    requires s.env.registrations != []
  {
    var c := s.env.registrations[0].conn;
    s.(env := s.env.(group := Shifted(cfg, s.env.group, L.Pop(c)), registrations := s.env.registrations[1..]),
       mine := s.mine + {c}, popped := s.popped + 1)
  }

  lemma FirstRegistered(rs: seq<Registration>)
    requires rs != [] && forall i, j :: 0 <= i < j < |rs| ==> rs[i].conn != rs[j].conn
    ensures Registered(rs[1..]) == Registered(rs) - {rs[0].conn}
    ensures forall i, j :: 0 <= i < j < |rs[1..]| ==> rs[1..][i].conn != rs[1..][j].conn
  {
    forall r | r in rs[1..] ensures r.conn != rs[0].conn {}
    forall c | c in Registered(rs) - {rs[0].conn} ensures c in Registered(rs[1..]) {
      var r :| r in rs && r.conn == c;
      assert r in rs[1..];
    }
  }

  lemma PoppedGroup(cfg: Config, s: State)
    requires GroupOk(cfg, s.env, s.mine) && s.env.registrations != []
    ensures var s', c := PoppedOne(cfg, s), s.env.registrations[0].conn;
      GroupOk(cfg, s'.env, s'.mine) && L.At(s.env.group, c, L.Queued(cfg.loop)) && c !in s.mine &&
      s'.env.group.conns == s.env.group.conns[c := L.Adopting(cfg.loop)]
  {
    var s', c, g := PoppedOne(cfg, s), s.env.registrations[0].conn, s.env.group;
    assert s.env.registrations[0] in s.env.registrations;
    assert c in L.QueuedSet(g.conns, cfg.loop);
    hide L.Inv, Shifted;
    ShiftOne(cfg, g, L.Pop(c), c, L.Queued(cfg.loop));
    FirstRegistered(s.env.registrations);
    assert L.QueuedSet(s'.env.group.conns, cfg.loop) == L.QueuedSet(g.conns, cfg.loop) - {c};
    forall d | L.At(s'.env.group, d, L.Adopting(cfg.loop)) ensures d in s'.mine {
      if d != c { assert L.At(g, d, L.Adopting(cfg.loop)); }
    }
  }

  lemma PoppedOk(cfg: Config, s: State, fd: int)
    requires Inv(cfg, s) && s.env.registrations != []
    ensures var s', c := PoppedOne(cfg, s), s.env.registrations[0].conn;
      Inv(cfg, s') && Frame(s, s', fd) && c !in s.mine && L.At(s'.env.group, c, L.Adopting(cfg.loop))
  {
    var s', c := PoppedOne(cfg, s), s.env.registrations[0].conn;
    PoppedGroup(cfg, s);
    BooksOfSessions(cfg, s, s', c);
    OnlyBooks(cfg, s, s', fd);
  }

  // An adoption that does not come about leaves the connection to be released.
  function Refused(cfg: Config, s: State, c: nat): State {
    s.(env := s.env.(group := Shifted(cfg, s.env.group, L.Adopt(c, false))))
  }

  lemma RefusedOk(cfg: Config, s: State, c: nat, fd: int)
    requires Inv(cfg, s) && c in s.mine && L.At(s.env.group, c, L.Adopting(cfg.loop))
    ensures var s' := Refused(cfg, s, c);
      Inv(cfg, s') && Frame(s, s', fd) && L.At(s'.env.group, c, L.Leaving(cfg.loop))
  {
    var s' := Refused(cfg, s, c);
    hide L.Inv, Shifted, Inv, Frame;
    InvLedger(cfg, s);
    ShiftOne(cfg, s.env.group, L.Adopt(c, false), c, L.Adopting(cfg.loop));
    OneMoved(cfg, s.env, s'.env, s.mine, s'.mine, c, L.Adopting(cfg.loop));
    BooksOfSessions(cfg, s, s', c);
    OnlyBooks(cfg, s, s', fd);
  }

  /* The pool. */

  function Submitted(s: State, fd: int): State
    requires fd in s.sessions
  {
    s.(env := s.env.(tasks := s.env.tasks[s.sessions[fd].life.v.token := |s.sessions[fd].life.requests|]))
  }

  lemma SubmittedElsewhere(cfg: Config, s: State, fd: int)
    requires InvExcept(cfg, s, fd)
    ensures forall other :: other in s.sessions && other != fd ==> Settled(cfg, Submitted(s, fd), other)
  {
    var s' := Submitted(s, fd);
    forall x ensures Pending(s', x) <==> Pending(s, x) {}
    forall other | other in s.sessions && other != fd ensures Settled(cfg, s', other) {
      assert Settled(cfg, s, other);
      OtherGeneration(cfg, s, fd, other);
      SettledElsewhere(cfg, s, s', other);
    }
  }

  lemma SubmittedOk(cfg: Config, s: State, fd: int)
    requires InvExcept(cfg, s, fd) && s.sessions[fd].life.v.phase.Processing?
    ensures InvExcept(cfg, Submitted(s, fd), fd) && Handled(s, Submitted(s, fd), fd)
  {
    var s' := Submitted(s, fd);
    HandledItself(s, fd);
    SubmittedElsewhere(cfg, s, fd);
    SubmittedGlobal(cfg, s, fd);
  }

  lemma SubmittedGlobal(cfg: Config, s: State, fd: int)
    requires Global(cfg, s) && Loose(cfg, s, fd) && s.sessions[fd].life.v.phase.Processing?
    ensures Global(cfg, Submitted(s, fd)) && Loose(cfg, Submitted(s, fd), fd)
  {
    var s' := Submitted(s, fd);
    forall x ensures Pending(s', x) <==> Pending(s, x) {}
    SameHistories(s, s');
    SameTimers(s, s');
  }

  // The loop takes a worker's result up, and with it the task.
  function TakenUp(s: State): State
    requires s.env.completions != []
  {
    s.(env := s.env.(completions := s.env.completions[1..], tasks := s.env.tasks - {s.env.completions[0].token}))
  }

  lemma TakenUpOk(cfg: Config, s: State)
    requires Inv(cfg, s) && s.env.completions != []
    ensures Inv(cfg, TakenUp(s)) && s.env.completions[0].token in s.env.tasks
  {
    hide Streams, History, Known, Timers, Settled;
    var s' := TakenUp(s);
    forall x ensures Pending(s', x) <==> Pending(s, x) {}
    forall i | 0 <= i < |s'.env.completions| ensures s'.env.completions[i].token in s'.env.tasks {
      assert s'.env.completions[i] == s.env.completions[i + 1];
    }
    SameInv(cfg, s, s', 0);
  }

  // A result that matches a session is for its request in progress, or that has timed out.
  lemma ResultIsCurrent(cfg: Config, s: State, token: S.Token, fd: int)
    requires Inv(cfg, s) && token in s.env.tasks && fd in s.sessions && s.sessions[fd].life.v.token == token
    ensures s.env.tasks[token] == |s.sessions[fd].life.requests|
    ensures !s.sessions[fd].expired ==>
      s.sessions[fd].life.v.phase.Processing? && |s.sessions[fd].life.responses| + 1 == |s.sessions[fd].life.requests|
  {
    assert Settled(cfg, s, fd);
  }

  /* A new session. */

  function Generation(next: nat): nat {
    if next == MAX_COUNT then 0 else next + 1
  }

  function Newborn(cfg: Config, fd: int, generation: nat, conn: nat): Entry {
    var life := R.Trace(S.Fresh(S.Token(cfg.loop, fd, generation)), [], [], [], []);
    Entry(life, [], [], 0, T.IdleTimeout, 0, false, false, None, conn)
  }

  function Adopted(cfg: Config, s: State, fd: int, conn: nat): State {
    s.(sessions := s.sessions[fd := Newborn(cfg, fd, s.nextGeneration, conn)],
       eventToFd := s.eventToFd[s.nextGeneration := fd],
       used := s.used + {s.nextGeneration},
       nextGeneration := Generation(s.nextGeneration),
       env := s.env.(group := Shifted(cfg, s.env.group, L.Adopt(conn, true))),
       mine := s.mine - {conn})
  }

  ghost predicate MayAdopt(cfg: Config, s: State, fd: int, conn: nat) {
    Inv(cfg, s) && 0 <= fd && fd !in s.sessions && s.nextGeneration != 0 && conn in s.mine &&
    L.At(s.env.group, conn, L.Adopting(cfg.loop))
  }

  /** Generations are never handed out twice: whatever is still addressed to an earlier
      session on the same descriptor names a generation the new one does not have. */
  lemma FreshGeneration(cfg: Config, s: State, fd: int, conn: nat)
    requires MayAdopt(cfg, s, fd, conn)
    ensures s.nextGeneration !in s.used && s.nextGeneration !in s.eventToFd && s.nextGeneration !in s.ended
    ensures forall t :: t in s.env.tasks ==> t.generation != s.nextGeneration
    ensures forall x :: Pending(s, x) || x in s.strays ==> x.generation != s.nextGeneration
    ensures forall g :: g in Adopted(cfg, s, fd, conn).used ==>
      0 < g && (Generation(s.nextGeneration) == 0 || g < Generation(s.nextGeneration))
  {}

  // The lives so far go on, and a new one begins.
  lemma AdoptedLives(cfg: Config, s: State, fd: int, conn: nat)
    requires MayAdopt(cfg, s, fd, conn)
    ensures var s' := Adopted(cfg, s, fd, conn);
      Tables(s') && (forall g :: g in s'.used <==> g in s'.eventToFd || g in s'.ended) &&
      s.nextGeneration !in s.used && s.nextGeneration !in s'.ended &&
      LifeOf(s', s.nextGeneration) == Newborn(cfg, fd, s.nextGeneration, conn).life &&
      forall g :: g in s.used ==> LifeOf(s', g) == LifeOf(s, g)
  {
    hide Timers, Boxes, Ledger, Attributed, AnswerStands;
    var s' := Adopted(cfg, s, fd, conn);
    FreshGeneration(cfg, s, fd, conn);
    forall g | g in s'.eventToFd
      ensures s'.eventToFd[g] in s'.sessions && GenerationOf(s'.sessions[s'.eventToFd[g]]) == g
    {
      if g in s.eventToFd { assert s.eventToFd[g] in s.sessions; }
    }
  }

  lemma AdoptedHistory(cfg: Config, s: State, fd: int, conn: nat)
    requires MayAdopt(cfg, s, fd, conn)
    ensures History(Adopted(cfg, s, fd, conn))
  {
    hide Inv, Attributed, AnswerStands;
    InvHistory(cfg, s);
    var s' := Adopted(cfg, s, fd, conn);
    AdoptedLives(cfg, s, fd, conn);
    NoAnswersYet(s.standard, s.given, Newborn(cfg, fd, s.nextGeneration, conn).life);
    forall t | t in s'.given
      ensures t.token.generation in s'.used && AnswerStands(LifeOf(s', t.token.generation), t.request, s'.given[t])
    {
      assert t.token.generation in s.used;
    }
    forall g | g in s'.used ensures Attributed(s'.standard, s'.given, LifeOf(s', g)) {
      if g in s.used { assert LifeOf(s', g) == LifeOf(s, g); }
    }
  }

  lemma InvHistory(cfg: Config, s: State)
    requires Inv(cfg, s)
    ensures History(s)
  {}

  lemma OneConnMore(sessions: map<int, Entry>, fd: int, e: Entry)
    requires fd !in sessions
    ensures Conns(sessions[fd := e]) == Conns(sessions) + {e.conn} && |sessions[fd := e]| == |sessions| + 1
  {
    var more := sessions[fd := e];
    forall c | c in Conns(sessions) ensures c in Conns(more) {
      var x :| x in sessions && sessions[x].conn == c;
      assert x in more && more[x].conn == c;
    }
    assert fd in more && more[fd].conn == e.conn;
    assert more.Keys == sessions.Keys + {fd};
  }

  lemma StillDistinct(sessions: map<int, Entry>, fd: int, e: Entry)
    requires fd !in sessions && e.conn !in Conns(sessions)
    requires forall a, b :: a in sessions && b in sessions && a != b ==> sessions[a].conn != sessions[b].conn
    ensures var more := sessions[fd := e];
      forall a, b :: a in more && b in more && a != b ==> more[a].conn != more[b].conn
  {
    forall x | x in sessions ensures sessions[x].conn in Conns(sessions) {}
  }

  lemma AdoptedGroup(cfg: Config, s: State, fd: int, conn: nat)
    requires GroupOk(cfg, s.env, s.mine) && conn in s.mine && L.At(s.env.group, conn, L.Adopting(cfg.loop))
    ensures var s' := Adopted(cfg, s, fd, conn);
      GroupOk(cfg, s'.env, s'.mine) && conn !in L.OpenSet(s.env.group.conns, cfg.loop) &&
      L.OpenSet(s'.env.group.conns, cfg.loop) == L.OpenSet(s.env.group.conns, cfg.loop) + {conn}
  {
    var s', g := Adopted(cfg, s, fd, conn), s.env.group;
    L.InvStep(cfg.group, g, L.Adopt(conn, true));
    OneMoved(cfg, s.env, s'.env, s.mine, s'.mine, conn, L.Adopting(cfg.loop));
  }

  lemma AdoptedLedger(cfg: Config, s: State, fd: int, conn: nat)
    requires Ledger(cfg, s) && fd !in s.sessions && conn in s.mine && L.At(s.env.group, conn, L.Adopting(cfg.loop))
    ensures Ledger(cfg, Adopted(cfg, s, fd, conn))
  {
    hide GroupOk, Shifted;
    var s', e := Adopted(cfg, s, fd, conn), Newborn(cfg, fd, s.nextGeneration, conn);
    AdoptedGroup(cfg, s, fd, conn);
    OneConnMore(s.sessions, fd, e);
    StillDistinct(s.sessions, fd, e);
    assert s.mine == s'.mine + {conn};
  }

  lemma AdoptedPending(cfg: Config, s: State, fd: int, conn: nat)
    ensures forall x :: Pending(Adopted(cfg, s, fd, conn), x) <==> Pending(s, x)
  {
    forall x ensures Pending(Adopted(cfg, s, fd, conn), x) <==> Pending(s, x) {}
  }

  lemma AdoptedTimers(cfg: Config, s: State, fd: int, conn: nat)
    requires MayAdopt(cfg, s, fd, conn)
    ensures Timers(Adopted(cfg, s, fd, conn)) && Known(Adopted(cfg, s, fd, conn))
  {
    hide Streams, History, Boxes, Ledger, Settled;
    var s' := Adopted(cfg, s, fd, conn);
    AdoptedPending(cfg, s, fd, conn);
    forall x | x in s'.env.timers ensures Owned(s', x) || x in s'.strays { assert Owned(s, x) || x in s.strays; }
  }

  lemma AdoptedElsewhere(cfg: Config, s: State, fd: int, conn: nat)
    requires MayAdopt(cfg, s, fd, conn)
    ensures forall other :: other in s.sessions ==> Settled(cfg, Adopted(cfg, s, fd, conn), other)
  {
    var s' := Adopted(cfg, s, fd, conn);
    AdoptedPending(cfg, s, fd, conn);
    FreshGeneration(cfg, s, fd, conn);
    forall other | other in s.sessions ensures Settled(cfg, s', other) {
      assert Settled(cfg, s, other);
      SettledElsewhere(cfg, s, s', other);
    }
  }

  lemma NewbornOk(cfg: Config, s: State, fd: int, conn: nat)
    requires MayAdopt(cfg, s, fd, conn)
    ensures var s' := Adopted(cfg, s, fd, conn); Loose(cfg, s', fd) && Streams(cfg, s')
  {
    AdoptedPending(cfg, s, fd, conn);
    FreshGeneration(cfg, s, fd, conn);
  }

  lemma AdoptedOk(cfg: Config, s: State, fd: int, conn: nat)
    requires MayAdopt(cfg, s, fd, conn)
    ensures InvExcept(cfg, Adopted(cfg, s, fd, conn), fd)
  {
    AdoptedHistory(cfg, s, fd, conn);
    AdoptedLedger(cfg, s, fd, conn);
    AdoptedTimers(cfg, s, fd, conn);
    AdoptedElsewhere(cfg, s, fd, conn);
    NewbornOk(cfg, s, fd, conn);
  }

  /** A dispatched connection never meets the loop's own limit. */
  lemma RoomForOne(cfg: Config, s: State, conn: nat)
    requires Ledger(cfg, s) && conn in s.mine && L.At(s.env.group, conn, L.Adopting(cfg.loop))
    ensures |s.sessions| < cfg.group.maxPerLoop
  {
    var g := s.env.group;
    L.SubsetSize(L.OpenSet(g.conns, cfg.loop) + {conn}, L.LoopSet(g.conns, cfg.loop));
    ConnsAreSessions(s.sessions);
    assert |L.OpenSet(g.conns, cfg.loop) + {conn}| == |L.OpenSet(g.conns, cfg.loop)| + 1;
  }

  lemma {:induction false} ConnsAreSessions(sessions: map<int, Entry>)
    requires forall a, b :: a in sessions && b in sessions && a != b ==> sessions[a].conn != sessions[b].conn
    ensures |Conns(sessions)| == |sessions|
    decreases |sessions|
  {
    if sessions.Keys != {} {
      var fd :| fd in sessions.Keys;
      var rest := sessions - {fd};
      assert sessions.Keys == rest.Keys + {fd};
      ConnsAreSessions(rest);
      forall c | c in Conns(sessions) && c != sessions[fd].conn ensures c in Conns(rest) {
        var x :| x in sessions && sessions[x].conn == c;
        assert x in rest && rest[x].conn == c;
      }
      assert Conns(sessions) == Conns(rest) + {sessions[fd].conn};
    } else {
      assert Conns(sessions) == {};
    }
  }

  /* The timeout mailbox. */

  // Not a deadline any more: its session is gone or has moved on.
  predicate Past(s: State, x: T.Event) {
    forall fd :: fd in s.sessions && GenerationOf(s.sessions[fd]) == x.generation ==>
      x.sequence < s.sessions[fd].sequence
  }

  // Past, or a session's deadline whose time has come.
  predicate Due(s: State, x: T.Event) {
    forall fd :: fd in s.sessions && GenerationOf(s.sessions[fd]) == x.generation ==>
      x.sequence < s.sessions[fd].sequence || (x == EventOf(s.sessions[fd]) && s.sessions[fd].at <= s.env.clock)
  }

  lemma PastStays(s: State, s': State, fd: int, x: T.Event)
    requires Frame(s, s', fd)
    ensures Past(s, x) ==> Past(s', x)
    ensures Due(s, x) ==> Due(s', x)
  {
    if Due(s, x) {
      forall other | other in s'.sessions && GenerationOf(s'.sessions[other]) == x.generation
        ensures x.sequence < s'.sessions[other].sequence ||
          (x == EventOf(s'.sessions[other]) && s'.sessions[other].at <= s'.env.clock)
      {
        assert GenerationOf(s.sessions[other]) == x.generation;
      }
    }
    if Past(s, x) {
      forall other | other in s'.sessions && GenerationOf(s'.sessions[other]) == x.generation
        ensures x.sequence < s'.sessions[other].sequence
      {
        assert GenerationOf(s.sessions[other]) == x.generation;
      }
    }
  }

  // What has left the core, and what a session still waits for although its time has come.
  lemma DueWhenTravelling(cfg: Config, s: State, x: T.Event)
    requires Inv(cfg, s) && (Travels(s.env, x) || x in Overdue(s))
    ensures Due(s, x)
  {
    forall fd | fd in s.sessions && GenerationOf(s.sessions[fd]) == x.generation
      ensures x.sequence < s.sessions[fd].sequence || (x == EventOf(s.sessions[fd]) && s.sessions[fd].at <= s.env.clock)
    {
      assert Settled(cfg, s, fd);
      if Travels(s.env, x) {
        assert Pending(s, x);
      } else {
        var other :| other in s.sessions && s.sessions[other].active && s.sessions[other].at <= s.env.clock &&
          EventOf(s.sessions[other]) == x;
        assert Settled(cfg, s, other);
      }
    }
  }

  // Every session whose deadline has passed, as the rescan collects it.
  function Overdue(s: State): set<T.Event> {
    set fd | fd in s.sessions && s.sessions[fd].active && s.sessions[fd].at <= s.env.clock :: EventOf(s.sessions[fd])
  }

  function Quieted(s: State): State {
    s.(env := s.env.(wake := false))
  }

  // The signal of the completions, or of the connections, is taken.
  function Silenced(s: State, done: bool): State {
    s.(env := if done then s.env.(doneWake := false) else s.env.(newWake := false))
  }

  lemma SilencedOk(cfg: Config, s: State, done: bool)
    requires Inv(cfg, s)
    ensures var s' := Silenced(s, done);
      Inv(cfg, s') && Onward(s, s') && (Signalled(s.env) ==> Signalled(s'.env)) &&
      (if done then NewRung(s.env) ==> NewRung(s'.env) else DoneRung(s.env) ==> DoneRung(s'.env))
  {
    var s' := Silenced(s, done);
    forall x ensures Pending(s', x) <==> Pending(s, x) {}
    SameInv(cfg, s, s', 0);
    SameTablesGo(cfg, s, s');
  }

  function TakenFirst(s: State): State
    requires s.env.queue != []
  {
    s.(env := s.env.(queue := s.env.queue[1..]), inHand := s.inHand + {s.env.queue[0]})
  }

  function TakenRescan(s: State): State {
    s.(env := s.env.(rescan := false, missed := {}), inHand := s.inHand + s.env.missed)
  }

  lemma QuietedOk(cfg: Config, s: State)
    requires Inv(cfg, s)
    ensures Inv(cfg, Quieted(s))
  {
    forall x ensures Pending(Quieted(s), x) <==> Pending(s, x) {}
    SameInv(cfg, s, Quieted(s), 0);
  }

  lemma TakenFirstOk(cfg: Config, s: State)
    requires Inv(cfg, s) && s.env.queue != []
    ensures Inv(cfg, TakenFirst(s)) && Due(TakenFirst(s), s.env.queue[0])
  {
    var s' := TakenFirst(s);
    assert s.env.queue[0] in s.env.queue;
    DueWhenTravelling(cfg, s, s.env.queue[0]);
    forall x ensures Pending(s', x) <==> Pending(s, x) {
      assert x in s.env.queue <==> x == s.env.queue[0] || x in s'.env.queue;
    }
    SameInv(cfg, s, s', 0);
  }

  lemma TakenRescanOk(cfg: Config, s: State)
    requires Inv(cfg, s)
    ensures Inv(cfg, TakenRescan(s)) && forall x :: x in s.env.missed ==> Due(TakenRescan(s), x)
  {
    var s' := TakenRescan(s);
    forall x | x in s.env.missed ensures Due(s', x) { DueWhenTravelling(cfg, s, x); }
    forall x ensures Pending(s', x) <==> Pending(s, x) {}
    SameInv(cfg, s, s', 0);
  }

  // The hand is empty again.
  function PutDown(s: State): State {
    s.(inHand := {})
  }

  lemma PutDownOk(cfg: Config, s: State)
    requires Inv(cfg, s) && forall x :: x in s.inHand ==> Past(s, x)
    ensures Inv(cfg, PutDown(s))
  {
    var s' := PutDown(s);
    forall x | Pending(s', x) ensures Pending(s, x) {}
    SameHistories(s, s');
    SameTimers(s, s');
    forall fd | fd in s'.sessions ensures Settled(cfg, s', fd) {
      assert Settled(cfg, s, fd);
      assert EventOf(s.sessions[fd]) !in s.inHand;
    }
  }

  /* Closing the mailboxes. */

  function Shut(s: State): State {
    var e := s.env;
    s.(env := e.(open := false, queue := [], rescan := false, missed := {}, completions := [],
                 failed := e.failed + e.missed + (set x | x in e.queue)))
  }

  lemma ShutOk(cfg: Config, s: State)
    requires Inv(cfg, s)
    ensures Inv(cfg, Shut(s))
  {
    forall x ensures Pending(Shut(s), x) <==> Pending(s, x) {}
    SameInv(cfg, s, Shut(s), 0);
  }

  // The registrations are discarded; each has to be released.
  function Discarded(cfg: Config, s: State): State {
    s.(env := s.env.(group := Shifted(cfg, s.env.group, L.CloseMailbox(cfg.loop)), registrations := []),
       mine := s.mine + Registered(s.env.registrations), popped := s.popped + |s.env.registrations|)
  }

  lemma {:induction false} RegisteredSize(rs: seq<Registration>)
    requires forall i, j :: 0 <= i < j < |rs| ==> rs[i].conn != rs[j].conn
    ensures |Registered(rs)| == |rs|
    decreases |rs|
  {
    if rs != [] {
      FirstRegistered(rs);
      RegisteredSize(rs[1..]);
      assert rs[0] in rs;
      assert Registered(rs) == Registered(rs[1..]) + {rs[0].conn};
    } else {
      assert Registered(rs) == {};
    }
  }

  lemma DiscardedGroup(cfg: Config, s: State)
    requires GroupOk(cfg, s.env, s.mine)
    ensures var s' := Discarded(cfg, s);
      GroupOk(cfg, s'.env, s'.mine) && s.mine !! Registered(s.env.registrations) &&
      L.OpenSet(s'.env.group.conns, cfg.loop) == L.OpenSet(s.env.group.conns, cfg.loop) &&
      (forall c :: c in Registered(s.env.registrations) ==> L.At(s'.env.group, c, L.Leaving(cfg.loop))) &&
      forall c :: c in s.mine ==> c in s.env.group.conns && L.At(s'.env.group, c, s.env.group.conns[c])
  {
    var s', g := Discarded(cfg, s), s.env.group;
    L.InvStep(cfg.group, g, L.CloseMailbox(cfg.loop));
    assert L.QueuedSet(s'.env.group.conns, cfg.loop) == {};
    forall c | c in s.mine ensures c !in L.QueuedSet(g.conns, cfg.loop) {}
  }

  lemma DiscardedOk(cfg: Config, s: State, fd: int)
    requires Inv(cfg, s)
    ensures var s' := Discarded(cfg, s);
      Inv(cfg, s') && Frame(s, s', fd) &&
      (forall c :: c in Registered(s.env.registrations) ==> L.At(s'.env.group, c, L.Leaving(cfg.loop)))
  {
    var s' := Discarded(cfg, s);
    DiscardedGroup(cfg, s);
    RegisteredSize(s.env.registrations);
    OnlyBooks(cfg, s, s', fd);
  }

  // The result is for the request in progress of its session, if that is still there.
  predicate Current(s: State, token: S.Token, request: nat) {
    token.fd in s.sessions && s.sessions[token.fd].life.v.token == token ==>
      NoTask(s, token.fd) && request == |s.sessions[token.fd].life.requests| &&
      (!s.sessions[token.fd].expired ==>
        s.sessions[token.fd].life.v.phase.Processing? && |s.sessions[token.fd].life.responses| + 1 == request)
  }

  lemma TakenUpCurrent(cfg: Config, s: State)
    requires Inv(cfg, s) && s.env.completions != []
    ensures var token := s.env.completions[0].token;
      token in s.env.tasks && Current(TakenUp(s), token, s.env.tasks[token])
  {
    var token := s.env.completions[0].token;
    if token.fd in s.sessions && s.sessions[token.fd].life.v.token == token {
      ResultIsCurrent(cfg, s, token, token.fd);
    }
  }

  // A timeout that is not a session's passed deadline is past, or its time has not come.
  lemma NothingToDo(cfg: Config, s: State, x: T.Event)
    requires Inv(cfg, s)
    requires x.fd !in s.sessions || EventOf(s.sessions[x.fd]) != x || s.env.clock < s.sessions[x.fd].at
    ensures Due(s, x) ==> Past(s, x)
    ensures x.fd in s.sessions && EventOf(s.sessions[x.fd]) == x ==> !Due(s, x)
  {
    if Due(s, x) {
      forall fd | fd in s.sessions && GenerationOf(s.sessions[fd]) == x.generation
        ensures x.sequence < s.sessions[fd].sequence
      {
        assert Settled(cfg, s, fd);
      }
    }
  }

  lemma OneSessionEach(cfg: Config, s: State, a: int, b: int)
    requires Inv(cfg, s) && a in s.sessions && b in s.sessions &&
      GenerationOf(s.sessions[a]) == GenerationOf(s.sessions[b])
    ensures a == b
  {
    assert Settled(cfg, s, a) && Settled(cfg, s, b);
  }

  lemma PastAfter(cfg: Config, s: State, s': State, fd: int, x: T.Event)
    requires Inv(cfg, s) && Inv(cfg, s') && Frame(s, s', fd) && fd in s.sessions && EventOf(s.sessions[fd]) == x
    requires fd in s'.sessions ==> s'.sessions[fd].sequence > s.sessions[fd].sequence
    ensures Past(s', x)
  {
    hide Inv;
    forall other | other in s'.sessions && GenerationOf(s'.sessions[other]) == x.generation
      ensures x.sequence < s'.sessions[other].sequence
    {
      OneSessionEach(cfg, s, other, fd);
    }
  }

  lemma DueIsOverdue(cfg: Config, s: State, x: T.Event)
    requires Inv(cfg, s) && Due(s, x)
    ensures Past(s, x) || x in Overdue(s)
  {
    if !Past(s, x) {
      var fd :| fd in s.sessions && GenerationOf(s.sessions[fd]) == x.generation &&
        x.sequence >= s.sessions[fd].sequence;
      assert Settled(cfg, s, fd);
    }
  }

  lemma TakenUpGoes(cfg: Config, s: State)
    requires Inv(cfg, s) && s.env.completions != []
    ensures Goes(s, TakenUp(s))
  {
    TakenUpOk(cfg, s);
    SameTablesGo(cfg, s, TakenUp(s));
  }

  /* Draining the timeout mailbox, step by step. */

  // What the mailbox had accepted is still in it or past, and what was past stays past.
  ghost predicate Drains(s: State, s': State) {
    Onward(s, s') && s'.mine == s.mine && (s.env.drain && AllWinding(s) ==> AllWinding(s')) &&
    (forall x: T.Event :: x.generation in s.used && Past(s, x) ==> Past(s', x)) &&
    (forall x :: x in s.env.queue ==> x in s'.env.queue || Past(s', x)) &&
    (forall x :: x in s.env.missed ==> x in s'.env.missed || Past(s', x)) &&
    (DoneRung(s.env) ==> DoneRung(s'.env)) && (NewRung(s.env) ==> NewRung(s'.env))
  }

  lemma DrainsTransitive(cfg: Config, a: State, b: State, c: State)
    requires Inv(cfg, a) && Drains(a, b) && Drains(b, c)
    ensures Drains(a, c)
  {
    OnwardTransitive(a, b, c);
    forall x | x in a.env.queue || x in a.env.missed ensures x.generation in a.used && x.generation in b.used {
      assert Pending(a, x);
    }
  }

  lemma HandledDrains(cfg: Config, s: State, s': State, fd: int)
    requires Inv(cfg, s) && Inv(cfg, s') && Handled(s, s', fd)
    ensures Drains(s, s')
  {
    HandledGoes(cfg, s, s', fd);
    forall x ensures Past(s, x) ==> Past(s', x) { PastStays(s, s', fd, x); }
  }

  // With the same sessions the same is past.
  lemma SamePast(s: State, s': State)
    requires s'.sessions == s.sessions
    ensures forall x :: Past(s, x) <==> Past(s', x)
  {
    forall x ensures Past(s, x) <==> Past(s', x) {}
  }

  lemma QuietedDrains(cfg: Config, s: State)
    requires Inv(cfg, s)
    ensures Drains(s, Quieted(s))
  {
    QuietedOk(cfg, s);
    SameTablesGo(cfg, s, Quieted(s));
    SamePast(s, Quieted(s));
  }

  // The first timeout is taken, handled and put down.
  lemma OneHandled(cfg: Config, s: State, t: State)
    requires Inv(cfg, s) && s.env.queue != [] && Inv(cfg, t)
    requires Handled(TakenFirst(s), t, s.env.queue[0].fd) && Past(t, s.env.queue[0])
    ensures Drains(s, PutDown(t))
  {
    hide Inv, Kept, Onward, Handled, Past;
    var t1, t2, x0 := TakenFirst(s), PutDown(t), s.env.queue[0];
    TakenFirstOk(cfg, s);
    SameTablesGo(cfg, s, t1);
    HandledDrains(cfg, t1, t, x0.fd);
    SamePast(s, t1);
    SamePast(t, t2);
    OneHandledOnward(cfg, s, t);
    forall x | x in s.env.queue ensures x in t2.env.queue || Past(t2, x) {
      assert x == x0 || x in t1.env.queue;
    }
  }

  lemma OneHandledOnward(cfg: Config, s: State, t: State)
    requires Inv(cfg, t) && s.env.queue != [] && Onward(s, TakenFirst(s)) && Onward(TakenFirst(s), t)
    ensures Onward(s, PutDown(t))
  {
    OnwardTransitive(s, TakenFirst(s), t);
    SameHistories(t, PutDown(t));
    forall g | g in t.used ensures LifeOf(PutDown(t), g) == LifeOf(t, g) {}
  }

  /* The rescan. */

  // Since the request was taken in state s: its timeouts are in hand and due, and whatever
  // the mailbox has accepted meanwhile has woken the loop.
  ghost predicate Rescans(s: State, t: State) {
    Onward(s, t) && t.mine == s.mine && t.inHand == s.env.missed && (s.env.drain && AllWinding(s) ==> AllWinding(t)) &&
    (forall x: T.Event :: x.generation in s.used && Past(s, x) ==> Past(t, x)) &&
    (forall x :: x in s.env.queue ==> x in t.env.queue) && (forall x :: x in s.env.missed ==> Due(t, x)) &&
    (s.env.wake ==> t.env.wake) && (t.env.missed != {} ==> t.env.wake) &&
    (t.env.queue != [] ==> t.env.wake || s.env.queue != []) &&
    (DoneRung(s.env) ==> DoneRung(t.env)) && (NewRung(s.env) ==> NewRung(t.env))
  }

  lemma FlagOrNone(cfg: Config, s: State)
    requires Inv(cfg, s)
    ensures s.env.missed != {} ==> s.env.rescan
  {}

  lemma RescanBegins(cfg: Config, s: State)
    requires Inv(cfg, s) && s.inHand == {}
    ensures Inv(cfg, TakenRescan(s)) && Rescans(s, TakenRescan(s))
    ensures !s.env.rescan ==> TakenRescan(s).inHand == {}
  {
    hide Inv, Onward, AllWinding, Due, Past;
    FlagOrNone(cfg, s);
    TakenRescanOk(cfg, s);
    SameTablesGo(cfg, s, TakenRescan(s));
    SamePast(s, TakenRescan(s));
  }

  lemma RescanGoesOn(cfg: Config, s: State, t: State, t': State, fd: int)
    requires Rescans(s, t) && Inv(cfg, t) && Inv(cfg, t') && Handled(t, t', fd)
    ensures Rescans(s, t')
  {
    HandledGoes(cfg, t, t', fd);
    OnwardTransitive(s, t, t');
    forall x ensures (Past(t, x) ==> Past(t', x)) && (Due(t, x) ==> Due(t', x)) { PastStays(t, t', fd, x); }
  }

  lemma RescanEnds(cfg: Config, s: State, t: State)
    requires Rescans(s, t) && Inv(cfg, t) && (forall x :: x in t.inHand ==> Past(t, x))
    requires s.env.queue != [] ==> s.env.wake
    ensures Inv(cfg, PutDown(t)) && Drains(s, PutDown(t)) && Signalled(t.env)
    ensures forall x :: x in s.env.missed ==> Past(PutDown(t), x)
  {
    PutDownOk(cfg, t);
    SamePast(t, PutDown(t));
    SameHistories(t, PutDown(t));
    forall g | g in t.used ensures LifeOf(PutDown(t), g) == LifeOf(t, g) {}
  }

  lemma AllOverdue(cfg: Config, s: State, t: State)
    requires Rescans(s, t) && Inv(cfg, t)
    ensures forall x :: x in t.inHand ==> Past(t, x) || x in Overdue(t)
    ensures forall x :: x in Overdue(t) ==> Due(t, x)
  {
    forall x | x in t.inHand ensures Past(t, x) || x in Overdue(t) { DueIsOverdue(cfg, t, x); }
    forall x | x in Overdue(t) ensures Due(t, x) { DueWhenTravelling(cfg, t, x); }
  }

  // What was accepted before is past once the queue has been found empty and the flag taken.
  lemma DrainedIsPast(cfg: Config, s: State, b: State, t: State)
    requires Inv(cfg, s) && Drains(s, b) && Drains(b, t) && b.env.queue == []
    requires forall x :: x in b.env.missed ==> Past(t, x)
    ensures forall x :: x in s.env.queue || x in s.env.missed ==> Past(t, x)
  {
    forall x | x in s.env.queue || x in s.env.missed ensures Past(t, x) {
      assert Pending(s, x);
      assert x.generation in b.used;
    }
  }

  /** With nothing in the loop's hands every session's deadline is in the core or on its way:
      none has left the core and got lost, but for a post that was not accepted. */
  lemma NothingIsLost(cfg: Config, s: State)
    requires Inv(cfg, s) && s.inHand == {}
    ensures forall fd :: fd in s.sessions ==>
      EventOf(s.sessions[fd]) in s.env.timers || Travels(s.env, EventOf(s.sessions[fd]))
  {
    forall fd | fd in s.sessions
      ensures EventOf(s.sessions[fd]) in s.env.timers || Travels(s.env, EventOf(s.sessions[fd]))
    {
      assert Settled(cfg, s, fd);
    }
  }

  /* Around an adoption. */

  lemma AdoptedOnward(cfg: Config, s: State, fd: int, conn: nat)
    requires MayAdopt(cfg, s, fd, conn)
    ensures Onward(s, Adopted(cfg, s, fd, conn))
  {
    AdoptedHistory(cfg, s, fd, conn);
    FreshGeneration(cfg, s, fd, conn);
    var s' := Adopted(cfg, s, fd, conn);
    forall g | g in s.used ensures g in s'.used && R.Grows(LifeOf(s, g), LifeOf(s', g)) {
      assert g in s.eventToFd ==> s.eventToFd[g] in s.sessions;
      assert LifeOf(s', g) == LifeOf(s, g);
    }
  }

  // What an adoption leaves as it was.
  predicate Around(s: State, s': State, fd: int) {
    (forall other :: other in s.sessions && other != fd ==>
      other in s'.sessions && s'.sessions[other] == s.sessions[other]) &&
    (forall other :: other in s'.sessions && other != fd ==> other in s.sessions) &&
    s.used <= s'.used && s'.inHand == s.inHand && s'.popped == s.popped && Kept(s.env, s'.env)
  }

  lemma FrameAround(s: State, s': State, fd: int)
    requires Frame(s, s', fd) && s'.popped == s.popped
    ensures Around(s, s', fd)
  {}

  lemma AdoptedAround(cfg: Config, s: State, s': State, fd: int, conn: nat)
    requires fd !in s.sessions && Frame(Adopted(cfg, s, fd, conn), s', fd) && s'.popped == s.popped
    ensures Around(s, s', fd) && s'.used == s.used + {s.nextGeneration}
  {
    assert Kept(s.env, Adopted(cfg, s, fd, conn).env);
    KeptTransitive(s.env, Adopted(cfg, s, fd, conn).env, s'.env);
  }

  lemma PoppedOnward(cfg: Config, s: State)
    requires Inv(cfg, s) && s.env.registrations != []
    ensures Onward(s, PoppedOne(cfg, s)) && Kept(s.env, PoppedOne(cfg, s).env)
  {
    PoppedOk(cfg, s, 0);
    SameTablesGo(cfg, s, PoppedOne(cfg, s));
  }

  lemma AroundFacts(s: State, s': State, fd: int)
    requires Around(s, s', fd)
    ensures Kept(s.env, s'.env) && s'.inHand == s.inHand && s'.popped == s.popped
  {}

  lemma MayAdoptNow(cfg: Config, s: State, fd: int, conn: nat)
    requires Inv(cfg, s) && 0 <= fd && fd !in s.sessions && s.nextGeneration != 0 && conn in s.mine
    requires L.At(s.env.group, conn, L.Adopting(cfg.loop))
    ensures MayAdopt(cfg, s, fd, conn) && s.nextGeneration !in s.used
  {
    FreshGeneration(cfg, s, fd, conn);
  }

  lemma RoomFor(cfg: Config, s: State, conn: nat)
    requires Inv(cfg, s) && conn in s.mine && L.At(s.env.group, conn, L.Adopting(cfg.loop))
    ensures |s.sessions| < cfg.group.maxPerLoop
  {
    RoomForOne(cfg, s, conn);
  }

  lemma DrainsFacts(s: State, s': State)
    requires Drains(s, s')
    ensures Onward(s, s') && s'.mine == s.mine
    ensures (DoneRung(s.env) ==> DoneRung(s'.env)) && (NewRung(s.env) ==> NewRung(s'.env))
  {}

  lemma ListedIsThere(cfg: Config, s: State, g: nat)
    requires Inv(cfg, s) && g in s.eventToFd
    ensures s.eventToFd[g] in s.sessions
  {}

  lemma OneSessionLess(s: State, s': State, fd: int)
    requires Frame(s, s', fd) && fd in s.sessions && fd !in s'.sessions
    ensures |s'.sessions| < |s.sessions|
  {
    forall k | k in s.sessions.Keys ensures k in s'.sessions.Keys + {fd} { assert k != fd ==> k in s'.sessions; }
    forall k | k in s'.sessions.Keys ensures k in s.sessions.Keys { assert k in s'.sessions; }
    assert s.sessions.Keys == s'.sessions.Keys + {fd};
  }

  lemma NobodyLeft(cfg: Config, s: State)
    requires Inv(cfg, s) && s.sessions == map[] && s.mine == {}
    ensures s.eventToFd == map[] && s.popped == s.released && forall x :: x in s.env.timers ==> x in s.strays
  {
    NobodyListed(s);
  }

  lemma NobodyListed(s: State)
    requires Tables(s)
    ensures s.sessions == map[] ==> s.eventToFd == map[]
  {
    if s.eventToFd.Keys != {} {
      var g :| g in s.eventToFd.Keys;
      assert s.eventToFd[g] in s.sessions.Keys;
    }
  }

  // Releasing one connection leaves the others in hand as they are.
  lemma OthersInHand(cfg: Config, s: State, c: nat, d: nat)
    requires c in s.mine && d in s.mine && d != c && d in s.env.group.conns
    ensures L.At(ReleasedLoop(cfg, s, c).env.group, d, s.env.group.conns[d])
    ensures L.At(ReleasedTotal(cfg, s, c).env.group, d, s.env.group.conns[d])
  {}

  ghost predicate WindingBut(s: State, descriptors: set<int>) {
    forall fd :: fd in s.sessions && fd !in descriptors ==> Winding(s.sessions[fd])
  }

  lemma OneLessToDrain(s: State, s': State, fd: int, descriptors: set<int>)
    requires WindingBut(s, descriptors) && Frame(s, s', fd) && (fd in s'.sessions ==> Winding(s'.sessions[fd]))
    ensures WindingBut(s', descriptors - {fd})
  {}

  lemma NoneToDrain(s: State)
    requires WindingBut(s, {})
    ensures AllWinding(s)
  {}
}
