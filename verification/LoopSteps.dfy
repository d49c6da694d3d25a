/** The changes a handler makes to the loop's tables, one at a time, and that each of them,
    and anything other threads do meanwhile, keeps what holds of the loop. */
module LoopSteps {
  import opened Wrappers
  import opened FrameCodec
  import opened LoopState
  import opened LoopEnv
  import L = ConnectionLoad
  import R = SessionRuns
  import S = Session
  import T = TimerSpec

  /* Meanwhile. */

  function Meanwhile(s: State, e: Env): State {
    s.(env := e)
  }

  lemma StillPending(cfg: Config, s: State, e: Env)
    requires Moves(cfg, s.mine, s.env, e)
    ensures forall x :: Pending(Meanwhile(s, e), x) <==> Pending(s, x)
  {
    forall x ensures Pending(Meanwhile(s, e), x) <==> Pending(s, x) {
      assert Travels(e, x) ==> Travels(s.env, x) || x in s.env.timers;
      assert Travels(s.env, x) ==> Travels(e, x);
    }
  }

  lemma StillLoose(cfg: Config, s: State, e: Env, fd: int)
    requires Loose(cfg, s, fd) && Moves(cfg, s.mine, s.env, e)
    ensures Loose(cfg, Meanwhile(s, e), fd)
  {
    StillPending(cfg, s, e);
    var s', entry := Meanwhile(s, e), s.sessions[fd];
    assert DeadlineOk(s', entry);
  }

  lemma StillGlobal(cfg: Config, s: State, e: Env)
    requires Global(cfg, s) && Moves(cfg, s.mine, s.env, e)
    ensures Global(cfg, Meanwhile(s, e))
  {
    StillPending(cfg, s, e);
    var s' := Meanwhile(s, e);
    assert Known(s');
    StillTimers(cfg, s, e);
    StillHistory(s, e);
  }

  lemma StillTimers(cfg: Config, s: State, e: Env)
    requires Timers(s) && Moves(cfg, s.mine, s.env, e)
    ensures Timers(Meanwhile(s, e))
  {
    var s' := Meanwhile(s, e);
    forall x | x in e.timers ensures (Owned(s', x) || x in s.strays) && !Travels(e, x) {
      assert x in s.env.timers && (Owned(s, x) || x in s.strays);
    }
  }

  lemma StillHistory(s: State, e: Env)
    requires History(s)
    ensures History(Meanwhile(s, e))
  {
    SameLivesHistory(s, Meanwhile(s, e));
  }

  // What the history says follows from the lives and what was given.
  lemma SameLivesHistory(s: State, s': State)
    requires History(s) && Tables(s') && s'.used == s.used && s'.given == s.given && s'.standard == s.standard
    requires s'.eventToFd == s.eventToFd && s'.ended == s.ended
    requires forall g :: g in s.used ==> LifeOf(s', g) == LifeOf(s, g)
    ensures History(s')
  {
    forall t | t in s'.given
      ensures t.token.generation in s'.used && AnswerStands(LifeOf(s', t.token.generation), t.request, s'.given[t])
    {
      assert LifeOf(s', t.token.generation) == LifeOf(s, t.token.generation);
    }
    forall g | g in s'.used ensures Attributed(s'.standard, s'.given, LifeOf(s', g)) {
      assert LifeOf(s', g) == LifeOf(s, g);
    }
  }

  /** Whatever the other threads do, the loop's invariant holds, also in the middle of a
      handler, and nothing they do is more than a frame of any handler allows. */
  lemma OthersKeep(cfg: Config, s: State, e: Env, fd: int)
    requires Moves(cfg, s.mine, s.env, e)
    ensures Inv(cfg, s) ==> Inv(cfg, Meanwhile(s, e))
    ensures InvExcept(cfg, s, fd) ==> InvExcept(cfg, Meanwhile(s, e), fd)
    ensures Handled(s, Meanwhile(s, e), fd)
  {
    var s' := Meanwhile(s, e);
    if Global(cfg, s) { StillGlobal(cfg, s, e); }
    forall x | Loose(cfg, s, x) ensures Loose(cfg, s', x) { StillLoose(cfg, s, e, x); }
    assert forall x :: Settled(cfg, s, x) ==> Settled(cfg, s', x);
    MeanwhileHandled(cfg, s, e, fd);
  }

  lemma MeanwhileHandled(cfg: Config, s: State, e: Env, fd: int)
    requires Moves(cfg, s.mine, s.env, e)
    ensures Handled(s, Meanwhile(s, e), fd)
  {
    HandledItself(s, fd);
  }

  /* Changes of one session's deadline. */

  // The sessions are the same but for the deadline of fd.
  ghost predicate SameLives(s: State, s': State, fd: int) {
    fd in s.sessions && fd in s'.sessions && s'.sessions == s.sessions[fd := s'.sessions[fd]] &&
    s'.sessions[fd].life == s.sessions[fd].life &&
    s'.sessions[fd].received == s.sessions[fd].received && s'.sessions[fd].sent == s.sessions[fd].sent &&
    s'.sessions[fd].conn == s.sessions[fd].conn && s'.eventToFd == s.eventToFd &&
    s'.nextGeneration == s.nextGeneration &&
    s'.used == s.used && s'.ended == s.ended && s'.given == s.given && s'.mine == s.mine && s'.popped == s.popped &&
    s'.standard == s.standard && s'.released == s.released && s'.inHand == s.inHand &&
    s'.env == s.env.(timers := s'.env.timers)
  }

  lemma SameStreams(cfg: Config, s: State, s': State, fd: int)
    requires Streams(cfg, s) && SameLives(s, s', fd)
    ensures Streams(cfg, s')
  {}

  lemma SameHistory(s: State, s': State, fd: int)
    requires History(s) && SameLives(s, s', fd)
    ensures History(s')
  {
    forall g | g in s'.eventToFd
      ensures s'.eventToFd[g] in s'.sessions && GenerationOf(s'.sessions[s'.eventToFd[g]]) == g
    {
      assert s.eventToFd[g] in s.sessions;
    }
    SameLivesHistory(s, s');
  }

  lemma SameConns(s: State, s': State, fd: int)
    requires SameLives(s, s', fd)
    ensures Conns(s'.sessions) == Conns(s.sessions) && |s'.sessions| == |s.sessions|
  {
    forall c | c in Conns(s.sessions) ensures c in Conns(s'.sessions) {
      var x :| x in s.sessions && s.sessions[x].conn == c;
      assert x in s'.sessions && s'.sessions[x].conn == c;
    }
    assert s'.sessions.Keys == s.sessions.Keys;
  }

  lemma SameLedger(cfg: Config, s: State, s': State, fd: int)
    requires Ledger(cfg, s) && SameLives(s, s', fd)
    ensures Ledger(cfg, s')
  {
    SameConns(s, s', fd);
  }

  lemma SameSlowParts(cfg: Config, s: State, s': State, fd: int)
    requires Global(cfg, s) && SameLives(s, s', fd)
    ensures Streams(cfg, s') && History(s') && Boxes(s'.env) && Ledger(cfg, s')
  {
    SameStreams(cfg, s, s', fd);
    SameHistory(s, s', fd);
    SameLedger(cfg, s, s', fd);
  }

  lemma SameFrame(s: State, s': State, fd: int)
    requires SameLives(s, s', fd) && s.sessions[fd].sequence <= s'.sessions[fd].sequence && s.strays <= s'.strays
    requires s'.sessions[fd].sequence == s.sessions[fd].sequence ==>
      s'.sessions[fd].kind == s.sessions[fd].kind && s'.sessions[fd].at == s.sessions[fd].at
    requires s'.sessions[fd].expired == s.sessions[fd].expired && s'.sessions[fd].late == s.sessions[fd].late
    ensures Handled(s, s', fd)
  {
    ContinuesItself(s.sessions[fd], s'.sessions[fd]);
  }

  // Another session sees nothing of it.
  ghost predicate SameTraffic(s: State, s': State, g: nat) {
    (forall x :: Pending(s', x) && x.generation == g ==> Pending(s, x)) &&
    (forall x :: Pending(s, x) && x.generation == g ==> Pending(s', x)) &&
    (forall x :: x in s.env.timers && x.generation == g ==>
      x in s'.env.timers && s'.env.timers[x] == s.env.timers[x]) &&
    (forall x :: x in s'.env.timers && x.generation == g ==> x in s.env.timers) &&
    (forall x :: x in s'.strays && x.generation == g ==> x in s.strays) && s.env.clock <= s'.env.clock
  }

  lemma SettledElsewhere(cfg: Config, s: State, s': State, fd: int)
    requires Settled(cfg, s, fd) && fd in s'.sessions && s'.sessions[fd] == s.sessions[fd]
    requires SameTraffic(s, s', GenerationOf(s.sessions[fd])) && s.used <= s'.used
    requires GenerationOf(s.sessions[fd]) in s'.eventToFd && s'.eventToFd[GenerationOf(s.sessions[fd])] == fd
    requires TasksOk(s'.env.tasks, s.sessions[fd])
    ensures Settled(cfg, s', fd)
  {}

  lemma OtherGeneration(cfg: Config, s: State, fd: int, other: int)
    requires fd in s.sessions && other in s.sessions && other != fd
    requires TokenOk(cfg, s, fd, s.sessions[fd]) && TokenOk(cfg, s, other, s.sessions[other])
    ensures GenerationOf(s.sessions[fd]) != GenerationOf(s.sessions[other])
  {}

  // Timers come and go only for the generation of fd.
  lemma OthersSettled(cfg: Config, s: State, s': State, fd: int)
    requires InvExcept(cfg, s, fd) && SameLives(s, s', fd)
    requires forall x: T.Event :: x.generation != GenerationOf(s.sessions[fd]) ==>
      (x in s'.env.timers <==> x in s.env.timers) && (x in s.env.timers ==> s'.env.timers[x] == s.env.timers[x]) &&
      (x in s'.strays ==> x in s.strays)
    ensures forall other :: other in s'.sessions && other != fd ==> Settled(cfg, s', other)
  {
    forall other | other in s'.sessions && other != fd ensures Settled(cfg, s', other) {
      assert Settled(cfg, s, other);
      OtherGeneration(cfg, s, fd, other);
      var g := GenerationOf(s.sessions[other]);
      forall x: T.Event | x.generation == g ensures Pending(s', x) <==> Pending(s, x) {}
      SettledElsewhere(cfg, s, s', other);
    }
  }

  /* Cancelling. */

  function Cancelled(s: State, fd: int): State
    requires fd in s.sessions
  {
    var e := s.sessions[fd];
    if !e.active then s
    else s.(sessions := s.sessions[fd := e.(active := false)], env := s.env.(timers := s.env.timers - {EventOf(e)}))
  }

  lemma CancelledTimers(cfg: Config, s: State, fd: int)
    requires InvExcept(cfg, s, fd)
    ensures Timers(Cancelled(s, fd))
  {
    hide Streams, History, Boxes, Ledger;
    var s' := Cancelled(s, fd);
    forall x | x in s'.env.timers ensures Owned(s', x) || x in s'.strays {
      assert Owned(s, x) || x in s.strays;
    }
  }

  lemma CancelledLoose(cfg: Config, s: State, fd: int)
    requires InvExcept(cfg, s, fd)
    ensures Known(Cancelled(s, fd)) && Loose(cfg, Cancelled(s, fd), fd)
  {
    hide Streams, History, Boxes, Ledger, Timers;
    var s' := Cancelled(s, fd);
    forall x | Pending(s', x) ensures Pending(s, x) {}
  }

  lemma CancelledOk(cfg: Config, s: State, fd: int)
    requires InvExcept(cfg, s, fd)
    ensures InvExcept(cfg, Cancelled(s, fd), fd) && Handled(s, Cancelled(s, fd), fd)
    ensures !Cancelled(s, fd).sessions[fd].active
  {
    hide Streams, History, Known, Timers, Boxes, Ledger, Handled;
    var s' := Cancelled(s, fd);
    if s.sessions[fd].active {
      SameSlowParts(cfg, s, s', fd);
      SameFrame(s, s', fd);
      CancelledTimers(cfg, s, fd);
      CancelledLoose(cfg, s, fd);
      OthersSettled(cfg, s, s', fd);
    } else {
      HandledItself(s, fd);
    }
  }

  /** With the deadline cancelled no timer of the session is left in the core, but for one
      whose request timed out ahead of it. */
  lemma CancelledIsGone(cfg: Config, s: State, fd: int, x: T.Event)
    requires InvExcept(cfg, s, fd) && x in Cancelled(s, fd).env.timers && x.generation == GenerationOf(s.sessions[fd])
    ensures x in s.strays && s.sessions[fd].late.Some? && x == LateEvent(s.sessions[fd])
  {
    CancelledOk(cfg, s, fd);
    OwnedHere(cfg, Cancelled(s, fd), fd, x);
  }

  // A timer of the session's generation that is some session's deadline is its own.
  lemma OwnedHere(cfg: Config, s: State, fd: int, x: T.Event)
    requires InvExcept(cfg, s, fd) && x in s.env.timers && x.generation == GenerationOf(s.sessions[fd])
    ensures Owned(s, x) ==> x.fd == fd
    ensures x in s.strays || (s.sessions[fd].active && x == EventOf(s.sessions[fd]))
  {
    if Owned(s, x) && x.fd != fd {
      assert Settled(cfg, s, x.fd);
      OtherGeneration(cfg, s, fd, x.fd);
      assert false;
    }
  }

  /* A new deadline, under a new number. */

  // The scheduler refused: only the number has moved on.
  function NextSequence(s: State, fd: int): State
    requires fd in s.sessions
  {
    s.(sessions := s.sessions[fd := s.sessions[fd].(sequence := s.sessions[fd].sequence + 1)])
  }

  lemma NextSequenceTimers(cfg: Config, s: State, fd: int)
    requires InvExcept(cfg, s, fd) && !s.sessions[fd].active
    ensures Timers(NextSequence(s, fd))
  {
    var s' := NextSequence(s, fd);
    forall x | x in s'.env.timers ensures Owned(s', x) || x in s'.strays {
      assert Owned(s, x) || x in s.strays;
    }
  }

  lemma NextSequenceLoose(cfg: Config, s: State, fd: int)
    requires InvExcept(cfg, s, fd) && !s.sessions[fd].active
    ensures Known(NextSequence(s, fd)) && Loose(cfg, NextSequence(s, fd), fd)
  {
    forall x ensures Pending(NextSequence(s, fd), x) <==> Pending(s, x) {}
  }

  lemma NextSequenceOk(cfg: Config, s: State, fd: int)
    requires InvExcept(cfg, s, fd) && !s.sessions[fd].active
    ensures InvExcept(cfg, NextSequence(s, fd), fd) && Handled(s, NextSequence(s, fd), fd)
  {
    hide Streams, History, Known, Timers, Boxes, Ledger, Handled;
    var s' := NextSequence(s, fd);
    SameSlowParts(cfg, s, s', fd);
    SameFrame(s, s', fd);
    NextSequenceTimers(cfg, s, fd);
    NextSequenceLoose(cfg, s, fd);
    OthersSettled(cfg, s, s', fd);
  }

  function Armed(s: State, fd: int, kind: T.EventKind, at: int): State
    requires fd in s.sessions
  {
    var e := s.sessions[fd].(sequence := s.sessions[fd].sequence + 1, kind := kind, at := at, active := true);
    s.(sessions := s.sessions[fd := e], env := s.env.(timers := s.env.timers[EventOf(e) := at]))
  }

  predicate ForConnections(kind: T.EventKind) {
    kind.IdleTimeout? || kind.ReadTimeout? || kind.WriteTimeout? || kind.BusinessTimeout?
  }

  lemma ArmedPending(s: State, fd: int, kind: T.EventKind, at: int)
    requires fd in s.sessions
    ensures forall x ::
      Pending(Armed(s, fd, kind, at), x) <==> Pending(s, x) || x == EventOf(Armed(s, fd, kind, at).sessions[fd])
  {
    var s' := Armed(s, fd, kind, at);
    forall x ensures Pending(s', x) <==> Pending(s, x) || x == EventOf(s'.sessions[fd]) {}
  }

  lemma ArmedTimers(cfg: Config, s: State, fd: int, kind: T.EventKind, at: int)
    requires InvExcept(cfg, s, fd) && !s.sessions[fd].active
    requires kind.BusinessTimeout? ==> !s.sessions[fd].expired
    ensures Timers(Armed(s, fd, kind, at))
  {
    hide Streams, History, Boxes, Ledger, Settled;
    var s' := Armed(s, fd, kind, at);
    var x0 := EventOf(s'.sessions[fd]);
    assert !Pending(s, x0) && x0 !in s.strays;
    forall x | x in s'.env.timers ensures Owned(s', x) || x in s'.strays {
      if x != x0 { assert Owned(s, x) || x in s.strays; }
    }
  }

  lemma ArmedLoose(cfg: Config, s: State, fd: int, kind: T.EventKind, at: int)
    requires InvExcept(cfg, s, fd) && ForConnections(kind)
    ensures Known(Armed(s, fd, kind, at)) && Loose(cfg, Armed(s, fd, kind, at), fd)
  {
    ArmedPending(s, fd, kind, at);
  }

  lemma CallsFor(tasks: map<S.Token, nat>, e: Entry)
    requires TasksOk(tasks, e) && S.Open(e.life.v)
    ensures ForConnections(KindFor(e.life.v)) && (KindFor(e.life.v).BusinessTimeout? ==> !e.expired)
  {}

  lemma ArmedOk(cfg: Config, s: State, fd: int, at: int)
    requires InvExcept(cfg, s, fd) && !s.sessions[fd].active && S.Open(s.sessions[fd].life.v)
    ensures var s' := Armed(s, fd, KindFor(s.sessions[fd].life.v), at); Inv(cfg, s') && Handled(s, s', fd)
  {
    hide Streams, History, Known, Timers, Boxes, Ledger, Handled;
    var kind := KindFor(s.sessions[fd].life.v);
    var s' := Armed(s, fd, kind, at);
    CallsFor(s.env.tasks, s.sessions[fd]);
    SameSlowParts(cfg, s, s', fd);
    SameFrame(s, s', fd);
    ArmedTimers(cfg, s, fd, kind, at);
    ArmedLoose(cfg, s, fd, kind, at);
    OthersSettled(cfg, s, s', fd);
  }

  /* What the session's own operations do to its entry. */

  function Heard(e: Entry, bytes: Bytes): Entry {
    e.(received := e.received + bytes)
  }

  // send never takes more than it is offered.
  function Taken(e: Entry, count: nat): Entry {
    if e.life.v.phase.Writing? && count <= |e.life.v.output| then e.(sent := e.sent + e.life.v.output[..count]) else e
  }

  // An operation of the session, with what it moves on the socket.
  function Stepped(cfg: Config, e: Entry, op: R.Op): Entry {
    var e' := match op
      case Input(bytes) => Heard(e, bytes)
      case Wrote(count) => Taken(e, count)
      case _ => e;
    e'.(life := R.Next(cfg.session, e.life, op))
  }

  lemma SteppedStreams(cfg: Config, e: Entry, op: R.Op)
    requires StreamsOk(cfg, e.life, e.received, e.sent)
    ensures var e' := Stepped(cfg, e, op);
      StreamsOk(cfg, e'.life, e'.received, e'.sent) && Continues(e, e') && (S.Open(e'.life.v) ==> S.Open(e.life.v))
  {
    R.StepOk(cfg.session, e.life, op);
    R.StepGrows(cfg.session, e.life, op);
  }

  // A new state of the session that its streams and its tasks allow.
  predicate Follows(cfg: Config, s: State, fd: int, e: Entry)
    requires fd in s.sessions
  {
    Fits(cfg, s, fd, e) && Attributed(s.standard, s.given, e.life)
  }

  predicate Fits(cfg: Config, s: State, fd: int, e: Entry)
    requires fd in s.sessions
  {
    var was := s.sessions[fd];
    Continues(was, e) && StreamsOk(cfg, e.life, e.received, e.sent) && TasksOk(s.env.tasks, e) &&
    e.sequence == was.sequence && e.kind == was.kind && e.at == was.at && e.active == was.active &&
    e.expired == was.expired && e.late == was.late
  }

  function WithEntry(s: State, fd: int, e: Entry): State {
    s.(sessions := s.sessions[fd := e])
  }

  lemma AnswersStay(life: R.Trace, life': R.Trace, k: nat, frame: Bytes)
    requires R.Grows(life, life') && AnswerStands(life, k, frame)
    ensures AnswerStands(life', k, frame)
  {}

  lemma GrownHistory(s: State, fd: int, e: Entry)
    requires History(s) && fd in s.sessions && R.Grows(s.sessions[fd].life, e.life)
    requires Attributed(s.standard, s.given, e.life)
    ensures History(WithEntry(s, fd, e))
  {
    var s' := WithEntry(s, fd, e);
    forall g | g in s'.eventToFd
      ensures s'.eventToFd[g] in s'.sessions && GenerationOf(s'.sessions[s'.eventToFd[g]]) == g
    {
      assert s.eventToFd[g] in s.sessions;
    }
    forall t | t in s'.given
      ensures t.token.generation in s'.used && AnswerStands(LifeOf(s', t.token.generation), t.request, s'.given[t])
    {
      var g := t.token.generation;
      assert AnswerStands(LifeOf(s, g), t.request, s.given[t]);
      if g !in s.ended && s.eventToFd[g] == fd { AnswersStay(s.sessions[fd].life, e.life, t.request, s.given[t]); }
    }
    forall g | g in s'.used ensures Attributed(s'.standard, s'.given, LifeOf(s', g)) {
      assert Attributed(s.standard, s.given, LifeOf(s, g));
    }
  }

  // The answers of an open session are accounted for.
  lemma AnswersKnown(cfg: Config, s: State, fd: int)
    requires InvExcept(cfg, s, fd)
    ensures Attributed(s.standard, s.given, s.sessions[fd].life)
  {
    assert LifeOf(s, GenerationOf(s.sessions[fd])) == s.sessions[fd].life;
  }

  lemma NoAnswersYet(standard: set<Bytes>, given: map<Task, Bytes>, life: R.Trace)
    requires life.responses == []
    ensures Attributed(standard, given, life)
  {}

  lemma SameAnswers(standard: set<Bytes>, given: map<Task, Bytes>, life: R.Trace, life': R.Trace)
    requires Attributed(standard, given, life) && R.Grows(life, life') && life'.responses == life.responses
    ensures Attributed(standard, given, life')
  {}

  lemma OneMoreAnswer(standard: set<Bytes>, given: map<Task, Bytes>, given': map<Task, Bytes>, life: R.Trace,
                      life': R.Trace, frame: Bytes)
    requires Attributed(standard, given, life) && R.Grows(life, life') && life'.responses == life.responses + [frame]
    requires given.Keys <= given'.Keys
    requires frame in standard || Task(life.v.token, |life.responses| + 1) in given'
    ensures Attributed(standard, given', life')
  {}

  lemma EntryLedger(cfg: Config, s: State, fd: int, e: Entry)
    requires Ledger(cfg, s) && fd in s.sessions && e.conn == s.sessions[fd].conn
    ensures Ledger(cfg, WithEntry(s, fd, e))
  {
    var s' := WithEntry(s, fd, e);
    forall c | c in Conns(s.sessions) ensures c in Conns(s'.sessions) {
      var x :| x in s.sessions && s.sessions[x].conn == c;
      assert x in s'.sessions && s'.sessions[x].conn == c;
    }
    assert Conns(s'.sessions) == Conns(s.sessions);
    assert s'.sessions.Keys == s.sessions.Keys;
  }

  lemma EntryTimers(s: State, fd: int, e: Entry)
    requires Timers(s) && fd in s.sessions && e.active == s.sessions[fd].active
    requires EventOf(e) == EventOf(s.sessions[fd])
    ensures Timers(WithEntry(s, fd, e))
  {
    var s' := WithEntry(s, fd, e);
    forall x | x in s'.env.timers ensures Owned(s', x) || x in s'.strays { assert Owned(s, x) || x in s.strays; }
  }

  lemma EntryLoose(cfg: Config, s: State, fd: int, e: Entry)
    requires Loose(cfg, s, fd) && Known(s) && Fits(cfg, s, fd, e)
    ensures Loose(cfg, WithEntry(s, fd, e), fd) && Known(WithEntry(s, fd, e))
  {
    forall x ensures Pending(WithEntry(s, fd, e), x) <==> Pending(s, x) {}
  }

  lemma EntryElsewhere(cfg: Config, s: State, fd: int, e: Entry)
    requires InvExcept(cfg, s, fd)
    ensures forall other :: other in s.sessions && other != fd ==> Settled(cfg, WithEntry(s, fd, e), other)
  {
    var s' := WithEntry(s, fd, e);
    forall x ensures Pending(s', x) <==> Pending(s, x) {}
    forall other | other in s.sessions && other != fd ensures Settled(cfg, s', other) {
      assert Settled(cfg, s, other);
      SettledElsewhere(cfg, s, s', other);
    }
  }

  lemma EntryFrame(s: State, fd: int, e: Entry)
    requires fd in s.sessions && Continues(s.sessions[fd], e)
    ensures Frame(s, WithEntry(s, fd, e), fd)
  {}

  lemma WithEntryOk(cfg: Config, s: State, fd: int, e: Entry)
    requires InvExcept(cfg, s, fd) && Follows(cfg, s, fd, e)
    ensures InvExcept(cfg, WithEntry(s, fd, e), fd) && Frame(s, WithEntry(s, fd, e), fd)
  {
    hide Streams, History, Known, Timers, Boxes, Ledger, Handled, Attributed;
    EntryFrame(s, fd, e);
    GrownHistory(s, fd, e);
    EntryLedger(cfg, s, fd, e);
    EntryTimers(s, fd, e);
    EntryLoose(cfg, s, fd, e);
    EntryElsewhere(cfg, s, fd, e);
    EntryStreams(cfg, s, fd, e);
  }

  lemma EntryStreams(cfg: Config, s: State, fd: int, e: Entry)
    requires Streams(cfg, s) && StreamsOk(cfg, e.life, e.received, e.sent)
    ensures Streams(cfg, WithEntry(s, fd, e))
  {}

  lemma InputFollows(cfg: Config, s: State, fd: int, bytes: Bytes)
    requires InvExcept(cfg, s, fd) && S.Open(s.sessions[fd].life.v)
    ensures var e, e' := s.sessions[fd], Stepped(cfg, s.sessions[fd], R.Input(bytes));
      Follows(cfg, s, fd, e') && (Winding(e) ==> Winding(e') && e'.life.requests == e.life.requests) &&
      (|e'.life.requests| != |e.life.requests| ==> e'.life.v.phase.Processing? && !e.expired)
  {
    hide Known, Timers, Boxes, Ledger, History, Attributed;
    SteppedStreams(cfg, s.sessions[fd], R.Input(bytes));
    AnswersKnown(cfg, s, fd);
    SameAnswers(s.standard, s.given, s.sessions[fd].life, Stepped(cfg, s.sessions[fd], R.Input(bytes)).life);
  }

  lemma WrittenFollows(cfg: Config, s: State, fd: int, count: nat)
    requires InvExcept(cfg, s, fd) && s.sessions[fd].life.v.phase.Writing?
    ensures var e, e' := s.sessions[fd], Stepped(cfg, s.sessions[fd], R.Wrote(count));
      Follows(cfg, s, fd, e') && (Winding(e) ==> Winding(e') && e'.life.requests == e.life.requests) &&
      (|e'.life.requests| != |e.life.requests| ==> e'.life.v.phase.Processing? && !e.expired)
  {
    hide Known, Timers, Boxes, Ledger, History, Attributed;
    SteppedStreams(cfg, s.sessions[fd], R.Wrote(count));
    AnswersKnown(cfg, s, fd);
    SameAnswers(s.standard, s.given, s.sessions[fd].life, Stepped(cfg, s.sessions[fd], R.Wrote(count)).life);
  }

  // An answer for the request in progress, and during a drain the last one.
  function Answered(cfg: Config, e: Entry, token: S.Token, frame: Bytes, last: bool): Entry {
    var answered := Stepped(cfg, e, R.Respond(token, frame));
    if last then Stepped(cfg, answered, R.CloseAfter(S.LocalShutdown)) else answered
  }

  predicate NoTask(s: State, fd: int)
    requires fd in s.sessions
  {
    s.sessions[fd].life.v.token !in s.env.tasks
  }

  lemma AnswerFollows(cfg: Config, s: State, fd: int, token: S.Token, frame: Bytes, last: bool)
    requires InvExcept(cfg, s, fd) && S.Open(s.sessions[fd].life.v) && NoTask(s, fd) && !s.sessions[fd].expired
    requires S.QueueResponse(cfg.session, s.sessions[fd].life.v, token, frame).1 == S.Ok
    ensures var e, e' := s.sessions[fd], Answered(cfg, s.sessions[fd], token, frame, last);
      Fits(cfg, s, fd, e') && e'.life.v.phase.Writing? && e'.life.responses == e.life.responses + [frame] &&
      e'.life.requests == e.life.requests && (last ==> Winding(e'))
  {
    var e := s.sessions[fd];
    var answered := Stepped(cfg, e, R.Respond(token, frame));
    SteppedStreams(cfg, e, R.Respond(token, frame));
    SteppedStreams(cfg, answered, R.CloseAfter(S.LocalShutdown));
    R.GrowsTransitive(e.life, answered.life, Stepped(cfg, answered, R.CloseAfter(S.LocalShutdown)).life);
  }

  // The answer and, if a worker gave it, the record of it.
  function WithAnswer(s: State, fd: int, e: Entry, task: Option<Task>, frame: Bytes): State {
    if task.Some? then Recorded(WithEntry(s, fd, e), task.value, frame) else WithEntry(s, fd, e)
  }

  lemma AnswerOk(cfg: Config, s: State, fd: int, e: Entry, task: Option<Task>, frame: Bytes)
    requires InvExcept(cfg, s, fd) && Fits(cfg, s, fd, e)
    requires e.life.responses == s.sessions[fd].life.responses + [frame]
    requires if task.Some? then
      task.value == Task(s.sessions[fd].life.v.token, |s.sessions[fd].life.responses| + 1) && task.value !in s.given
      else frame in s.standard
    ensures InvExcept(cfg, WithAnswer(s, fd, e, task, frame), fd) && Frame(s, WithAnswer(s, fd, e, task, frame), fd)
  {
    AnswersKnown(cfg, s, fd);
    if task.None? {
      OneMoreAnswer(s.standard, s.given, s.given, s.sessions[fd].life, e.life, frame);
      WithEntryOk(cfg, s, fd, e);
    } else {
      GivenAnswerOk(cfg, s, fd, e, task.value, frame);
    }
  }

  lemma GivenAnswerOk(cfg: Config, s: State, fd: int, e: Entry, task: Task, frame: Bytes)
    requires InvExcept(cfg, s, fd) && Fits(cfg, s, fd, e) && task !in s.given
    requires e.life.responses == s.sessions[fd].life.responses + [frame]
    requires task == Task(s.sessions[fd].life.v.token, |s.sessions[fd].life.responses| + 1)
    ensures var s' := Recorded(WithEntry(s, fd, e), task, frame); InvExcept(cfg, s', fd) && Frame(s, s', fd)
  {
    hide Streams, History, Known, Timers, Boxes, Ledger, Frame, Attributed, AnswerStands;
    var s1 := WithEntry(s, fd, e);
    var s' := Recorded(s1, task, frame);
    GivenHistory(s, fd, e, task, frame);
    EntryFrame(s, fd, e);
    RecordedFrame(s1, fd, task, frame);
    FrameTransitive(s, s1, s', fd);
    EntryLedger(cfg, s, fd, e);
    RecordedLedger(cfg, s1, task, frame);
    EntryTimers(s, fd, e);
    EntryLoose(cfg, s, fd, e);
    RecordedSettled(cfg, s1, task, frame, fd);
    EntryElsewhere(cfg, s, fd, e);
    EntryStreams(cfg, s, fd, e);
    RecordedRest(cfg, s1, task, frame);
    forall other | other in s'.sessions && other != fd ensures Settled(cfg, s', other) {
      assert Settled(cfg, s1, other);
      RecordedSettled(cfg, s1, task, frame, other);
    }
  }

  lemma RecordedRest(cfg: Config, s: State, task: Task, frame: Bytes)
    requires Streams(cfg, s) && Known(s) && Timers(s)
    ensures var s' := Recorded(s, task, frame); Streams(cfg, s') && Known(s') && Timers(s')
  {
    var s' := Recorded(s, task, frame);
    forall x ensures Pending(s', x) <==> Pending(s, x) {}
    forall x | x in s'.env.timers ensures Owned(s', x) || x in s'.strays { assert Owned(s, x) || x in s.strays; }
  }

  lemma GivenHistory(s: State, fd: int, e: Entry, task: Task, frame: Bytes)
    requires History(s) && fd in s.sessions && R.Grows(s.sessions[fd].life, e.life) && task !in s.given
    requires GenerationOf(s.sessions[fd]) in s.eventToFd && s.eventToFd[GenerationOf(s.sessions[fd])] == fd
    requires e.life.responses == s.sessions[fd].life.responses + [frame]
    requires task == Task(s.sessions[fd].life.v.token, |s.sessions[fd].life.responses| + 1)
    ensures History(Recorded(WithEntry(s, fd, e), task, frame))
  {
    var s', mine := Recorded(WithEntry(s, fd, e), task, frame), GenerationOf(s.sessions[fd]);
    forall g | g in s'.eventToFd
      ensures s'.eventToFd[g] in s'.sessions && GenerationOf(s'.sessions[s'.eventToFd[g]]) == g
    {
      assert s.eventToFd[g] in s.sessions;
    }
    forall g | g in s.used ensures LifeOf(s', g) == if g == mine then e.life else LifeOf(s, g) {}
    forall t | t in s'.given
      ensures t.token.generation in s'.used && AnswerStands(LifeOf(s', t.token.generation), t.request, s'.given[t])
    {
      var g := t.token.generation;
      if t == task {
        assert AnswerStands(e.life, task.request, frame);
      } else {
        assert AnswerStands(LifeOf(s, g), t.request, s.given[t]);
        if g == mine { AnswersStay(s.sessions[fd].life, e.life, t.request, s.given[t]); }
      }
    }
    forall g | g in s'.used ensures Attributed(s'.standard, s'.given, LifeOf(s', g)) {
      assert Attributed(s.standard, s.given, LifeOf(s, g));
      if g == mine {
        OneMoreAnswer(s.standard, s.given, s'.given, s.sessions[fd].life, e.life, frame);
      } else {
        MoreGiven(s.standard, s.given, s'.given, LifeOf(s, g));
      }
    }
  }

  lemma MoreGiven(standard: set<Bytes>, given: map<Task, Bytes>, given': map<Task, Bytes>, life: R.Trace)
    requires Attributed(standard, given, life) && given.Keys <= given'.Keys
    ensures Attributed(standard, given', life)
  {}

  lemma PeerCloseFollows(cfg: Config, s: State, fd: int)
    requires InvExcept(cfg, s, fd) && S.Open(s.sessions[fd].life.v)
    ensures var e, e' := s.sessions[fd], Stepped(cfg, s.sessions[fd], R.PeerClose);
      Follows(cfg, s, fd, e') && (Winding(e) ==> Winding(e') && e'.life.requests == e.life.requests)
  {
    SteppedStreams(cfg, s.sessions[fd], R.PeerClose);
    AnswersKnown(cfg, s, fd);
    SameAnswers(s.standard, s.given, s.sessions[fd].life, Stepped(cfg, s.sessions[fd], R.PeerClose).life);
  }

  lemma LastAnswerFollows(cfg: Config, s: State, fd: int, reason: S.CloseReason)
    requires InvExcept(cfg, s, fd) && S.Open(s.sessions[fd].life.v)
    ensures var e, e' := s.sessions[fd], Stepped(cfg, s.sessions[fd], R.CloseAfter(reason));
      Follows(cfg, s, fd, e') && e'.life.requests == e.life.requests &&
      (Winding(e) ==> Winding(e')) && (e.life.v.phase.Writing? && reason != S.NoReason ==> Winding(e'))
  {
    SteppedStreams(cfg, s.sessions[fd], R.CloseAfter(reason));
    AnswersKnown(cfg, s, fd);
    SameAnswers(s.standard, s.given, s.sessions[fd].life, Stepped(cfg, s.sessions[fd], R.CloseAfter(reason)).life);
  }

  // A worker's result that is taken as the answer is remembered with its request.
  function Recorded(s: State, task: Task, frame: Bytes): State {
    s.(given := s.given[task := frame])
  }

  lemma RecordedFrame(s: State, fd: int, task: Task, frame: Bytes)
    requires task !in s.given
    ensures Frame(s, Recorded(s, task, frame), fd)
  {
    FrameItself(s, fd);
    var s' := Recorded(s, task, frame);
    forall i | i in s.given.Items ensures i in s'.given.Items { assert i.0 in s.given && i.0 != task; }
  }

  lemma RecordedSettled(cfg: Config, s: State, task: Task, frame: Bytes, fd: int)
    requires Loose(cfg, s, fd)
    ensures Loose(cfg, Recorded(s, task, frame), fd)
  {
    forall x ensures Pending(Recorded(s, task, frame), x) <==> Pending(s, x) {}
  }

  lemma RecordedLedger(cfg: Config, s: State, task: Task, frame: Bytes)
    requires Ledger(cfg, s)
    ensures Ledger(cfg, Recorded(s, task, frame))
  {}

  /* A deadline that has passed. */

  // The answer to a timed-out request: queued, and the last one of the session.
  function TimedOut(cfg: Config, e: Entry): Entry {
    var answered := Stepped(cfg, e, R.Respond(e.life.v.token, cfg.timeoutFrame));
    Stepped(cfg, answered, R.CloseAfter(S.BusinessTimeout))
  }

  lemma TimedOutStreams(cfg: Config, e: Entry)
    requires StreamsOk(cfg, e.life, e.received, e.sent) && e.life.v.phase.Processing?
    requires 0 < |cfg.timeoutFrame| <= cfg.session.maxOutput
    ensures var e' := TimedOut(cfg, e);
      StreamsOk(cfg, e'.life, e'.received, e'.sent) && Continues(e, e') && Winding(e') && e'.life.v.phase.Writing? &&
      e'.life.responses == e.life.responses + [cfg.timeoutFrame] && e'.life.requests == e.life.requests &&
      e' == e.(life := e'.life)
  {
    var answered := Stepped(cfg, e, R.Respond(e.life.v.token, cfg.timeoutFrame));
    SteppedStreams(cfg, e, R.Respond(e.life.v.token, cfg.timeoutFrame));
    SteppedStreams(cfg, answered, R.CloseAfter(S.BusinessTimeout));
    R.GrowsTransitive(e.life, answered.life, TimedOut(cfg, e).life);
  }

  // The deadline's timer, if it has not left the core yet. Nobody cancels it any more.
  function Leftover(s: State, e: Entry): set<T.Event> {
    if EventOf(e) in s.env.timers then {EventOf(e)} else {}
  }

  // A business deadline is given up: the entry forgets its timer and has its last answer.
  function GaveUp(cfg: Config, s: State, fd: int): State
    requires fd in s.sessions
  {
    var e := s.sessions[fd];
    var late := if EventOf(e) in s.env.timers then Some(e.sequence) else None;
    s.(sessions := s.sessions[fd := TimedOut(cfg, e).(active := false, expired := true, late := late)],
       strays := s.strays + Leftover(s, e))
  }

  ghost predicate Passed(cfg: Config, s: State, fd: int) {
    InvExcept(cfg, s, fd) && S.Open(s.sessions[fd].life.v) && s.sessions[fd].active &&
    s.sessions[fd].kind == KindFor(s.sessions[fd].life.v) && s.sessions[fd].at <= s.env.clock
  }

  lemma GaveUpLoose(cfg: Config, s: State, fd: int)
    requires Passed(cfg, s, fd) && s.sessions[fd].kind.BusinessTimeout? &&
      0 < |cfg.timeoutFrame| <= cfg.session.maxOutput
    ensures Known(GaveUp(cfg, s, fd)) && Loose(cfg, GaveUp(cfg, s, fd), fd)
  {
    var s' := GaveUp(cfg, s, fd);
    forall x ensures Pending(s', x) <==> Pending(s, x) {}
    TimedOutStreams(cfg, s.sessions[fd]);
    assert !s.sessions[fd].expired;
    forall x | x in s'.strays && x.generation == GenerationOf(s'.sessions[fd])
      ensures s'.sessions[fd].late.Some? && x == LateEvent(s'.sessions[fd])
    {
      assert x !in s.strays;
    }
  }

  lemma GaveUpTimers(cfg: Config, s: State, fd: int)
    requires Passed(cfg, s, fd)
    ensures Timers(GaveUp(cfg, s, fd))
  {
    var s' := GaveUp(cfg, s, fd);
    forall x | x in s'.env.timers ensures Owned(s', x) || x in s'.strays { assert Owned(s, x) || x in s.strays; }
  }

  lemma StraysElsewhere(cfg: Config, s: State, s': State, fd: int)
    requires InvExcept(cfg, s, fd) && fd in s'.sessions
    requires s' == s.(sessions := s.sessions[fd := s'.sessions[fd]], strays := s'.strays)
    requires forall x :: x in s'.strays && x !in s.strays ==> x.generation == GenerationOf(s.sessions[fd])
    ensures forall other :: other in s.sessions && other != fd ==> Settled(cfg, s', other)
  {
    forall x ensures Pending(s', x) <==> Pending(s, x) {}
    forall other | other in s.sessions && other != fd ensures Settled(cfg, s', other) {
      assert Settled(cfg, s, other);
      OtherGeneration(cfg, s, fd, other);
      SettledElsewhere(cfg, s, s', other);
    }
  }

  lemma GaveUpFrame(cfg: Config, s: State, fd: int)
    requires fd in s.sessions && !s.sessions[fd].expired
    requires Continues(s.sessions[fd], TimedOut(cfg, s.sessions[fd])) && Winding(TimedOut(cfg, s.sessions[fd]))
    requires TimedOut(cfg, s.sessions[fd]).life.requests == s.sessions[fd].life.requests
    ensures Handled(s, GaveUp(cfg, s, fd), fd)
  {}

  lemma GaveUpSlowParts(cfg: Config, s: State, fd: int)
    requires Streams(cfg, s) && History(s) && Boxes(s.env) && Ledger(cfg, s) && fd in s.sessions
    requires s.sessions[fd].life.v.phase.Processing? && 0 < |cfg.timeoutFrame| <= cfg.session.maxOutput
    requires TokenOk(cfg, s, fd, s.sessions[fd])
    ensures var s' := GaveUp(cfg, s, fd); Streams(cfg, s') && History(s') && Boxes(s'.env) && Ledger(cfg, s')
  {
    var s' := GaveUp(cfg, s, fd);
    var e' := s'.sessions[fd];
    TimedOutStreams(cfg, s.sessions[fd]);
    assert LifeOf(s, GenerationOf(s.sessions[fd])) == s.sessions[fd].life;
    OneMoreAnswer(s.standard, s.given, s.given, s.sessions[fd].life, e'.life, cfg.timeoutFrame);
    GrownHistory(s, fd, e');
    EntryLedger(cfg, s, fd, e');
    EntryStreams(cfg, s, fd, e');
    StraysAside(cfg, WithEntry(s, fd, e'), s'.strays);
  }

  lemma GaveUpOk(cfg: Config, s: State, fd: int)
    requires Passed(cfg, s, fd) && s.sessions[fd].kind.BusinessTimeout? &&
      0 < |cfg.timeoutFrame| <= cfg.session.maxOutput
    ensures var s' := GaveUp(cfg, s, fd);
      InvExcept(cfg, s', fd) && Handled(s, s', fd) && Winding(s'.sessions[fd]) &&
      s'.sessions[fd].life.v.phase.Writing? &&
      s'.sessions[fd].life.responses == s.sessions[fd].life.responses + [cfg.timeoutFrame] &&
      s'.sessions[fd].life.requests == s.sessions[fd].life.requests
  {
    hide History, Known, Timers, Boxes, Ledger, Handled;
    TimedOutStreams(cfg, s.sessions[fd]);
    GaveUpFrame(cfg, s, fd);
    GaveUpLoose(cfg, s, fd);
    GaveUpTimers(cfg, s, fd);
    StraysElsewhere(cfg, s, GaveUp(cfg, s, fd), fd);
    GaveUpSlowParts(cfg, s, fd);
  }

  lemma StraysAside(cfg: Config, s: State, strays: set<T.Event>)
    requires Streams(cfg, s) && History(s) && Boxes(s.env) && Ledger(cfg, s)
    ensures var s' := s.(strays := strays); Streams(cfg, s') && History(s') && Boxes(s'.env) && Ledger(cfg, s')
  {
    SameLivesHistory(s, s.(strays := strays));
  }

  /* A session goes. */

  // Out of the tables, with its connection in the loop's hand until it is released.
  function Gone(cfg: Config, s: State, fd: int): State
    requires fd in s.sessions
  {
    var e := s.sessions[fd];
    s.(sessions := s.sessions - {fd},
       eventToFd := s.eventToFd - {GenerationOf(e)},
       ended := s.ended[GenerationOf(e) := e.life],
       env := s.env.(group := Shifted(cfg, s.env.group, L.CloseSession(e.conn))),
       mine := s.mine + {e.conn})
  }

  // Without a deadline, and with the rest of the loop in order.
  ghost predicate Unarmed(cfg: Config, s: State, fd: int) {
    Global(cfg, s) && fd in s.sessions && TokenOk(cfg, s, fd, s.sessions[fd]) && !s.sessions[fd].active &&
    forall other :: other in s.sessions && other != fd ==> Settled(cfg, s, other)
  }

  lemma UnarmedNow(cfg: Config, s: State, fd: int)
    requires InvExcept(cfg, s, fd) && !s.sessions[fd].active
    ensures Unarmed(cfg, s, fd)
  {}

  lemma GoneStreams(cfg: Config, s: State, fd: int)
    requires Streams(cfg, s) && fd in s.sessions
    ensures Streams(cfg, Gone(cfg, s, fd))
  {}

  lemma GoneHistory(cfg: Config, s: State, fd: int)
    requires History(s) && Streams(cfg, s) && fd in s.sessions && TokenOk(cfg, s, fd, s.sessions[fd])
    ensures History(Gone(cfg, s, fd)) && GenerationOf(s.sessions[fd]) !in s.ended
  {
    var s' := Gone(cfg, s, fd);
    assert |s.sessions[fd].life.responses| <= |s.sessions[fd].life.requests|;
    forall g | g in s'.eventToFd
      ensures s'.eventToFd[g] in s'.sessions && GenerationOf(s'.sessions[s'.eventToFd[g]]) == g
    {
      assert s.eventToFd[g] in s.sessions && s.eventToFd[g] != fd;
    }
    forall g | g in s.used ensures LifeOf(s', g) == LifeOf(s, g) {}
    forall t | t in s'.given
      ensures t.token.generation in s'.used && AnswerStands(LifeOf(s', t.token.generation), t.request, s'.given[t])
    {
      assert LifeOf(s', t.token.generation) == LifeOf(s, t.token.generation);
    }
    forall g | g in s'.used ensures Attributed(s'.standard, s'.given, LifeOf(s', g)) {
      assert LifeOf(s', g) == LifeOf(s, g);
    }
  }

  lemma GoneKnown(cfg: Config, s: State, fd: int)
    requires Known(s) && Boxes(s.env) && fd in s.sessions
    ensures Known(Gone(cfg, s, fd)) && Boxes(Gone(cfg, s, fd).env)
  {
    GonePending(cfg, s, fd);
  }

  lemma GonePending(cfg: Config, s: State, fd: int)
    requires fd in s.sessions
    ensures forall x :: Pending(Gone(cfg, s, fd), x) <==> Pending(s, x)
  {
    forall x ensures Pending(Gone(cfg, s, fd), x) <==> Pending(s, x) {}
  }

  lemma GoneTimers(cfg: Config, s: State, fd: int)
    requires Timers(s) && fd in s.sessions && !s.sessions[fd].active
    ensures Timers(Gone(cfg, s, fd))
  {
    var s' := Gone(cfg, s, fd);
    forall x | x in s'.env.timers ensures Owned(s', x) || x in s'.strays { assert Owned(s, x) || x in s.strays; }
  }

  lemma GoneElsewhere(cfg: Config, s: State, fd: int)
    requires Unarmed(cfg, s, fd)
    ensures forall other :: other in Gone(cfg, s, fd).sessions ==> Settled(cfg, Gone(cfg, s, fd), other)
  {
    var s' := Gone(cfg, s, fd);
    GonePending(cfg, s, fd);
    forall other | other in s'.sessions ensures Settled(cfg, s', other) {
      assert Settled(cfg, s, other);
      OtherGeneration(cfg, s, fd, other);
      SettledElsewhere(cfg, s, s', other);
    }
  }

  // The group's books, when one of this loop's connections changes its phase.
  lemma OneMoved(cfg: Config, e: Env, e': Env, mine: set<nat>, mine': set<nat>, c: nat, was: L.Phase)
    requires GroupOk(cfg, e, mine) && L.At(e.group, c, was) && !was.Queued? && e'.registrations == e.registrations
    requires L.Inv(cfg.group, e'.group) && c in e'.group.conns &&
      e'.group.conns == e.group.conns[c := e'.group.conns[c]]
    requires !e'.group.conns[c].Queued? && mine' - {c} == mine - {c} &&
      (c in mine' <==> InHand(e'.group.conns[c], cfg.loop))
    ensures GroupOk(cfg, e', mine')
  {
    hide L.Inv;
    assert L.QueuedSet(e'.group.conns, cfg.loop) == L.QueuedSet(e.group.conns, cfg.loop);
    forall d | d in mine' ensures d in e'.group.conns && InHand(e'.group.conns[d], cfg.loop) {
      if d != c { assert d in mine' - {c}; }
    }
    forall d | L.At(e'.group, d, L.Adopting(cfg.loop)) ensures d in mine' {
      if d != c { assert L.At(e.group, d, L.Adopting(cfg.loop)) && d in mine - {c}; }
    }
  }

  lemma OneConnLess(s: State, fd: int)
    requires fd in s.sessions
    requires forall a, b :: a in s.sessions && b in s.sessions && a != b ==> s.sessions[a].conn != s.sessions[b].conn
    ensures Conns(s.sessions - {fd}) == Conns(s.sessions) - {s.sessions[fd].conn}
    ensures |s.sessions - {fd}| == |s.sessions| - 1
  {
    var rest := s.sessions - {fd};
    forall c | c in Conns(s.sessions) - {s.sessions[fd].conn} ensures c in Conns(rest) {
      var x :| x in s.sessions && s.sessions[x].conn == c;
      assert x in rest && rest[x].conn == c;
    }
    assert s.sessions.Keys == rest.Keys + {fd};
  }

  lemma GoneLedger(cfg: Config, s: State, fd: int)
    requires Ledger(cfg, s) && fd in s.sessions
    ensures Ledger(cfg, Gone(cfg, s, fd)) && L.At(Gone(cfg, s, fd).env.group, s.sessions[fd].conn, L.Leaving(cfg.loop))
    ensures s.sessions[fd].conn !in s.mine
  {
    var s', c, g := Gone(cfg, s, fd), s.sessions[fd].conn, s.env.group;
    assert c in Conns(s.sessions);
    assert L.At(g, c, L.Open(cfg.loop));
    L.InvStep(cfg.group, g, L.CloseSession(c));
    OneConnLess(s, fd);
    OneMoved(cfg, s.env, s'.env, s.mine, s'.mine, c, L.Open(cfg.loop));
    assert L.OpenSet(s'.env.group.conns, cfg.loop) == L.OpenSet(g.conns, cfg.loop) - {c};
  }

  lemma GoneFrame(cfg: Config, s: State, fd: int)
    requires fd in s.sessions && GenerationOf(s.sessions[fd]) !in s.ended
    ensures Frame(s, Gone(cfg, s, fd), fd)
  {
    FrameItself(s, fd);
  }

  lemma GoneOk(cfg: Config, s: State, fd: int)
    requires Unarmed(cfg, s, fd)
    ensures Inv(cfg, Gone(cfg, s, fd)) && Frame(s, Gone(cfg, s, fd), fd) && s.sessions[fd].conn !in s.mine
    ensures L.At(Gone(cfg, s, fd).env.group, s.sessions[fd].conn, L.Leaving(cfg.loop))
  {
    hide Streams, History, Known, Timers, Boxes, Ledger, Settled, Frame;
    GoneStreams(cfg, s, fd);
    GoneHistory(cfg, s, fd);
    GoneFrame(cfg, s, fd);
    GoneKnown(cfg, s, fd);
    GoneTimers(cfg, s, fd);
    GoneLedger(cfg, s, fd);
    GoneElsewhere(cfg, s, fd);
  }

  // A passed deadline of another kind closes the connection, and its timer is not cancelled.
  function Abandoned(s: State, fd: int): State
    requires fd in s.sessions
  {
    s.(sessions := s.sessions[fd := s.sessions[fd].(active := false)], strays := s.strays + Leftover(s, s.sessions[fd]))
  }

  lemma AbandonedOk(cfg: Config, s: State, fd: int)
    requires Passed(cfg, s, fd)
    ensures Unarmed(cfg, Abandoned(s, fd), fd) && Handled(s, Abandoned(s, fd), fd)
  {
    hide Streams, History, Known, Timers, Boxes, Ledger, Handled;
    var s' := Abandoned(s, fd);
    SameSlowParts(cfg, s, s', fd);
    SameFrame(s, s', fd);
    StraysElsewhere(cfg, s, s', fd);
    AbandonedTimers(cfg, s, fd);
  }

  lemma AbandonedTimers(cfg: Config, s: State, fd: int)
    requires Passed(cfg, s, fd)
    ensures Timers(Abandoned(s, fd)) && Known(Abandoned(s, fd))
  {
    var s' := Abandoned(s, fd);
    forall x ensures Pending(s', x) <==> Pending(s, x) {}
    forall x | x in s'.env.timers ensures Owned(s', x) || x in s'.strays { assert Owned(s, x) || x in s.strays; }
  }

  /* What a handler needs to know of a session. */

  lemma SettledFacts(cfg: Config, s: State, fd: int)
    requires Inv(cfg, s) && fd in s.sessions
    ensures var e := s.sessions[fd];
      InvExcept(cfg, s, fd) && S.Open(e.life.v) && e.active && e.kind == KindFor(e.life.v) && e.life.v.token.fd == fd &&
      (e.at <= s.env.clock ==> Passed(cfg, s, fd)) &&
      (e.expired ==> e.life.v.phase.Writing? && e.life.v.closeAfterWrite)
  {
    assert Settled(cfg, s, fd);
    InvToExcept(cfg, s, fd);
  }

  // A session that neither processes nor has expired has no task out.
  lemma IdleHasNoTask(cfg: Config, s: State, fd: int)
    requires InvExcept(cfg, s, fd) && S.Open(s.sessions[fd].life.v)
    requires !s.sessions[fd].life.v.phase.Processing? && !s.sessions[fd].expired
    ensures NoTask(s, fd)
  {}

  // A request that has not been answered yet has no answer on record.
  lemma NotYetGiven(cfg: Config, s: State, fd: int, task: Task)
    requires InvExcept(cfg, s, fd) && task.token == s.sessions[fd].life.v.token
    requires task.request > |s.sessions[fd].life.responses|
    ensures task !in s.given
  {
    assert LifeOf(s, task.token.generation) == s.sessions[fd].life;
    assert forall t :: t in s.given && t.token == task.token ==> t.request <= |s.sessions[fd].life.responses|;
  }

  lemma StandardFrames(cfg: Config, s: State, fd: int)
    requires InvExcept(cfg, s, fd)
    ensures s.standard == {cfg.overloadFrame, cfg.timeoutFrame}
  {}

  lemma SameEntry(s: State, fd: int)
    requires fd in s.sessions
    ensures WithEntry(s, fd, s.sessions[fd]) == s
  {
    assert s.sessions[fd := s.sessions[fd]] == s.sessions;
  }

  // A step of the session that keeps it winding down, and whatever came of it since.
  lemma HandledByStep(s: State, e: Entry, s': State, fd: int)
    requires fd in s.sessions && Tidy(s, s', fd) && (fd in s'.sessions ==> Continues(e, s'.sessions[fd]))
    requires Winding(s.sessions[fd]) ==> Winding(e) && e.life.requests == s.sessions[fd].life.requests
    requires fd in s'.sessions && Winding(s.sessions[fd]) ==> s'.sessions[fd].life == e.life
    ensures Handled(s, s', fd)
  {}

  lemma SameTokens(cfg: Config, s: State, fd: int, e: Entry)
    requires fd in s.sessions && Follows(cfg, s, fd, e)
    ensures e.life.v.token == s.sessions[fd].life.v.token && e.expired == s.sessions[fd].expired &&
      Continues(s.sessions[fd], e)
  {}

  lemma GaveUpEntry(cfg: Config, s: State, fd: int)
    requires Passed(cfg, s, fd) && s.sessions[fd].kind.BusinessTimeout? &&
      0 < |cfg.timeoutFrame| <= cfg.session.maxOutput
    ensures var e' := GaveUp(cfg, s, fd).sessions[fd];
      e' == TimedOut(cfg, s.sessions[fd]).(active := false, expired := true, late := e'.late) &&
      e'.sequence == s.sessions[fd].sequence && e'.life.responses == s.sessions[fd].life.responses + [cfg.timeoutFrame]
  {
    TimedOutStreams(cfg, s.sessions[fd]);
  }
}
