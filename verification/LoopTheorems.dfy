/** What holds of an event loop in every state between two of its steps, and so over every
    run of it: the streams of its sessions, the timers in the core, the answers to requests
    and the connections it has to give back. */
module LoopTheorems {
  import opened Wrappers
  import opened FrameCodec
  import opened LoopState
  import opened LoopEnv
  import opened LoopSteps
  import opened LoopBoxes
  import L = ConnectionLoad
  import M = Mailboxes
  import R = SessionRuns
  import S = Session
  import T = TimerSpec

  /** What a connection's peer sent and what it was sent: the requests taken up are the first
      frames of the received bytes, in order, one at a time, and what went out is the
      beginning of the answers to them, in order. */
  lemma EverySessionServesItsStream(cfg: Config, s: State, fd: int)
    requires Inv(cfg, s) && fd in s.sessions
    ensures var e := s.sessions[fd];
      e.life.requests <= Parse(e.received).frames &&
      |e.life.responses| <= |e.life.requests| <= |e.life.responses| + 1 &&
      e.sent <= Flatten(e.life.responses) &&
      (!e.life.v.phase.Writing? ==> e.sent == Flatten(e.life.responses)) &&
      (e.life.v.phase.Reading? ==>
        e.life.requests == Parse(e.received).frames && |e.life.responses| == |e.life.requests|)
  {
    hide History, Known, Timers, Boxes, Ledger;
    assert Settled(cfg, s, fd);
    R.FramesOfTheInput(cfg.session, s.sessions[fd].life);
    assert s.sessions[fd].sent + [] == s.sessions[fd].sent;
  }

  /** A session that waits for the rest of a frame has the read deadline if and only if what it
      holds is not exactly a header: the header alone no longer counts as buffered. */
  lemma ReadDeadlineWhen(cfg: Config, s: State, fd: int)
    requires Inv(cfg, s) && fd in s.sessions && s.sessions[fd].life.v.phase.Reading?
    ensures var e, rest := s.sessions[fd], Parse(s.sessions[fd].received).rest;
      (e.kind.ReadTimeout? <==> rest != [] && |rest| != HEADER_SIZE) &&
      (e.kind.IdleTimeout? <==> rest == [] || |rest| == HEADER_SIZE)
  {
    hide History, Known, Timers, Boxes, Ledger;
    assert Settled(cfg, s, fd);
    R.FramesOfTheInput(cfg.session, s.sessions[fd].life);
  }

  /** Every generation ever handed out has one life, with at most one answer for each request;
      a worker's result that was taken is, for good, the answer to the request it was made
      for; and every other answer is the overload or the timeout frame. */
  lemma EachRequestIsAnsweredOnce(cfg: Config, s: State, g: nat)
    requires Inv(cfg, s) && g in s.used
    ensures g in s.ended <==> g !in s.eventToFd
    ensures g in s.ended || s.eventToFd[g] in s.sessions
    ensures |LifeOf(s, g).responses| <= |LifeOf(s, g).requests|
    ensures forall t :: t in s.given && t.token.generation == g ==> AnswerStands(LifeOf(s, g), t.request, s.given[t])
    ensures var life := LifeOf(s, g);
      forall k :: 0 <= k < |life.responses| ==>
        life.responses[k] == cfg.overloadFrame || life.responses[k] == cfg.timeoutFrame ||
        (Task(life.v.token, k + 1) in s.given && s.given[Task(life.v.token, k + 1)] == life.responses[k])
  {
    hide Known, Timers, Boxes, Ledger;
    GivenIsAnswer(s, g);
    if g in s.eventToFd {
      assert Settled(cfg, s, s.eventToFd[g]);
      assert StreamsOk(cfg, LifeOf(s, g), s.sessions[s.eventToFd[g]].received, s.sessions[s.eventToFd[g]].sent);
    }
  }

  lemma GivenIsAnswer(s: State, g: nat)
    requires History(s) && g in s.used && LifeOf(s, g).v.token.generation == g
    ensures var life := LifeOf(s, g);
      forall k :: 0 <= k < |life.responses| ==>
        life.responses[k] in s.standard ||
        (Task(life.v.token, k + 1) in s.given && s.given[Task(life.v.token, k + 1)] == life.responses[k])
  {
    var life := LifeOf(s, g);
    forall k | 0 <= k < |life.responses| && life.responses[k] !in s.standard
      ensures Task(life.v.token, k + 1) in s.given && s.given[Task(life.v.token, k + 1)] == life.responses[k]
    {
      assert Task(life.v.token, k + 1) in s.given;
    }
  }

  // The timers the core holds for a generation.
  function TimersOf(s: State, g: nat): set<T.Event> {
    set x | x in s.env.timers && x.generation == g
  }

  /** The core holds the timer of a session's deadline until it fires, and besides at most the
      one of its request that timed out ahead of its timer. For a session that is gone it
      holds only timers whose deadline was handled before they had fired. */
  lemma TimersOfASession(cfg: Config, s: State, fd: int)
    requires Inv(cfg, s) && fd in s.sessions
    ensures var e := s.sessions[fd];
      forall x :: x in TimersOf(s, GenerationOf(e)) ==>
        x == EventOf(e) || (e.late.Some? && x == LateEvent(e) && x in s.strays)
  {
    InvToExcept(cfg, s, fd);
    forall x | x in TimersOf(s, GenerationOf(s.sessions[fd]))
      ensures x == EventOf(s.sessions[fd]) ||
        (s.sessions[fd].late.Some? && x == LateEvent(s.sessions[fd]) && x in s.strays)
    {
      OwnedHere(cfg, s, fd, x);
      assert Settled(cfg, s, fd);
    }
  }

  lemma TimersOfTheGone(cfg: Config, s: State, x: T.Event)
    requires Inv(cfg, s) && x in s.env.timers && x.generation in s.ended
    ensures x in s.strays && s.env.timers[x] <= s.env.clock
  {
    assert Owned(s, x) ==> Settled(cfg, s, x.fd);
  }

  predicate LateTimerInCore(s: State, e: Entry) {
    e.late.Some? && LateEvent(e) in s.env.timers
  }

  /** A session whose deadline has not fired has exactly one timer in the core, if and only if
      there is none left of a request that timed out ahead of it. */
  lemma ExactlyOneTimer(cfg: Config, s: State, fd: int)
    requires Inv(cfg, s) && fd in s.sessions && EventOf(s.sessions[fd]) in s.env.timers
    ensures TimersOf(s, GenerationOf(s.sessions[fd])) == {EventOf(s.sessions[fd])} <==>
      !LateTimerInCore(s, s.sessions[fd])
    ensures LateTimerInCore(s, s.sessions[fd]) ==>
      TimersOf(s, GenerationOf(s.sessions[fd])) == {EventOf(s.sessions[fd]), LateEvent(s.sessions[fd])} &&
      EventOf(s.sessions[fd]) != LateEvent(s.sessions[fd])
  {
    hide Inv;
    TimersOfASession(cfg, s, fd);
    LateIsAnother(cfg, s, fd);
    var e := s.sessions[fd];
    assert EventOf(e) in TimersOf(s, GenerationOf(e));
    if LateTimerInCore(s, e) { assert LateEvent(e) in TimersOf(s, GenerationOf(e)); }
  }

  lemma LateIsAnother(cfg: Config, s: State, fd: int)
    requires Inv(cfg, s) && fd in s.sessions
    ensures var e := s.sessions[fd]; e.late.Some? ==> LateEvent(e) != EventOf(e)
  {
    assert Settled(cfg, s, fd);
  }

  /** A worker's result that comes after the deadline leaves a second timer in the core
      exactly if the first one was still there: the handler forgets it and arms the write
      deadline of its last answer. */
  lemma LateResultLeavesATimer(cfg: Config, s: State, fd: int, at: int)
    requires Passed(cfg, s, fd) && s.sessions[fd].kind.BusinessTimeout? &&
      0 < |cfg.timeoutFrame| <= cfg.session.maxOutput
    ensures var s' := Armed(GaveUp(cfg, s, fd), fd, T.WriteTimeout, at);
      Inv(cfg, s') &&
      if EventOf(s.sessions[fd]) in s.env.timers then
        TimersOf(s', GenerationOf(s.sessions[fd])) == {EventOf(s'.sessions[fd]), EventOf(s.sessions[fd])} &&
        EventOf(s'.sessions[fd]) != EventOf(s.sessions[fd])
      else TimersOf(s', GenerationOf(s.sessions[fd])) == {EventOf(s'.sessions[fd])}
  {
    hide Inv, InvExcept, Passed;
    PassedEvent(cfg, s, fd);
    var t := GaveUp(cfg, s, fd);
    var s' := Armed(t, fd, T.WriteTimeout, at);
    GaveUpOk(cfg, s, fd);
    GaveUpEntry(cfg, s, fd);
    ArmedOk(cfg, t, fd, at);
    ExactlyOneTimer(cfg, s', fd);
  }

  lemma PassedEvent(cfg: Config, s: State, fd: int)
    requires Passed(cfg, s, fd)
    ensures fd in s.sessions && s.sessions[fd].active
  {}

  /* A run that leads there. */

  const ONE_BYTE_REQUEST: Bytes := [0, 0, 0, 1, 65]

  // A new session that receives a whole request is processing it.
  lemma FirstRequest(cfg: Config, e: Entry, token: S.Token)
    requires S.ValidConfig(cfg.session) && cfg.session.maxInput >= HEADER_SIZE
    requires e.life == R.Trace(S.Fresh(token), [], [], [], [])
    ensures Stepped(cfg, e, R.Input(ONE_BYTE_REQUEST)).life.v.phase.Processing?
  {
    var f := ONE_BYTE_REQUEST;
    assert [] + f == f;
    assert f[..HEADER_SIZE] == [0, 0, 0, 1];
    FourBytes(f[..HEADER_SIZE]);
    assert FrontOf(f) == Whole(5);
    assert S.FirstOf(cfg.session, f) == S.Request(f[HEADER_SIZE..5], f[5..]);
    assert f[5..] == [];
  }

  // Adopted, armed, with a request that has come in.
  function Asked(cfg: Config, s: State, fd: int, conn: nat): (t: State)
    ensures fd in t.sessions
  {
    Hearing(cfg, s, fd, conn, ONE_BYTE_REQUEST)
  }

  function Hearing(cfg: Config, s: State, fd: int, conn: nat, bytes: Bytes): (t: State)
    ensures fd in t.sessions
  {
    var born := Armed(Adopted(cfg, s, fd, conn), fd, T.IdleTimeout, s.env.clock + cfg.idleMs);
    WithEntry(born, fd, Stepped(cfg, born.sessions[fd], R.Input(bytes)))
  }

  lemma HearingOk(cfg: Config, s: State, fd: int, conn: nat, bytes: Bytes)
    requires MayAdopt(cfg, s, fd, conn)
    ensures var t := Hearing(cfg, s, fd, conn, bytes);
      InvExcept(cfg, t, fd) && t.sessions[fd].active && t.sessions[fd].kind.IdleTimeout?
  {
    hide Inv, InvExcept, MayAdopt, Frame, Handled, Follows;
    MayAdoptIsValid(cfg, s, fd, conn);
    AdoptedOk(cfg, s, fd, conn);
    var a, at := Adopted(cfg, s, fd, conn), s.env.clock + cfg.idleMs;
    ArmedOk(cfg, a, fd, at);
    var b := Armed(a, fd, T.IdleTimeout, at);
    InvToExcept(cfg, b, fd);
    InputFollows(cfg, b, fd, bytes);
    WithEntryOk(cfg, b, fd, Stepped(cfg, b.sessions[fd], R.Input(bytes)));
  }

  // Handed to the pool, under its business deadline.
  function InProgress(cfg: Config, s: State, fd: int): (t: State)
    requires fd in s.sessions
    ensures fd in t.sessions
  {
    Armed(Cancelled(Submitted(s, fd), fd), fd, T.BusinessTimeout, s.env.clock + cfg.businessMs)
  }

  // Time passes, and the worker reports.
  function Overslept(cfg: Config, s: State, token: S.Token): State {
    var later := s.env.(clock := s.env.clock + cfg.businessMs);
    Meanwhile(s, AfterFinish(cfg, later, M.Completion(token, M.Failure, []), true))
  }

  lemma AskedOk(cfg: Config, s: State, fd: int, conn: nat)
    requires MayAdopt(cfg, s, fd, conn) && cfg.session.maxInput >= HEADER_SIZE
    ensures var t := Asked(cfg, s, fd, conn);
      InvExcept(cfg, t, fd) && t.sessions[fd].life.v.phase.Processing? && t.env.clock == s.env.clock &&
      t.sessions[fd].life.v.token == S.Token(cfg.loop, fd, s.nextGeneration) &&
      t.env.completions == s.env.completions &&
      t.env.open == s.env.open && NoTask(t, fd)
  {
    hide Inv, InvExcept, MayAdopt, Frame, Handled, Follows;
    MayAdoptIsValid(cfg, s, fd, conn);
    HearingOk(cfg, s, fd, conn, ONE_BYTE_REQUEST);
    var born := Armed(Adopted(cfg, s, fd, conn), fd, T.IdleTimeout, s.env.clock + cfg.idleMs);
    FirstRequest(cfg, born.sessions[fd], S.Token(cfg.loop, fd, s.nextGeneration));
  }

  const HEADER_ALONE: Bytes := [0, 0, 0, 1]

  lemma HeaderFirst(cfg: Config, e: Entry, token: S.Token)
    requires S.ValidConfig(cfg.session) && cfg.session.maxInput >= HEADER_SIZE
    requires e.life == R.Trace(S.Fresh(token), [], [], [], []) && e.received == []
    ensures var e' := Stepped(cfg, e, R.Input(HEADER_ALONE));
      e'.life.v.phase.Reading? && e'.life.v.held == HEADER_ALONE && S.BufferedInput(e'.life.v) == 0 &&
      e'.received == HEADER_ALONE
  {
    var f := HEADER_ALONE;
    assert [] + f == f;
    FourBytes(f);
    assert f[..HEADER_SIZE] == f && DecodeLength(f) == 1;
    assert S.FirstOf(cfg.session, f) == S.Unfinished;
  }

  /** A session that has received four bytes, the header of a frame of one byte, still has its
      idle deadline. */
  lemma IdleBehindTheHeader(cfg: Config, s: State, fd: int, conn: nat)
    requires MayAdopt(cfg, s, fd, conn) && cfg.session.maxInput >= HEADER_SIZE
    ensures var t := Hearing(cfg, s, fd, conn, HEADER_ALONE);
      Inv(cfg, t) && t.sessions[fd].kind.IdleTimeout? && t.sessions[fd].life.v.phase.Reading? &&
      t.sessions[fd].received == HEADER_ALONE && Parse(HEADER_ALONE).rest == HEADER_ALONE
  {
    hide Inv, InvExcept, MayAdopt, Armed, Adopted;
    MayAdoptIsValid(cfg, s, fd, conn);
    HearingOk(cfg, s, fd, conn, HEADER_ALONE);
    HearingHeader(cfg, s, fd, conn);
    var t := Hearing(cfg, s, fd, conn, HEADER_ALONE);
    SettledAgain(cfg, t, fd);
    ReadDeadlineWhen(cfg, t, fd);
    HeaderParses();
  }

  lemma HearingHeader(cfg: Config, s: State, fd: int, conn: nat)
    requires S.ValidConfig(cfg.session) && cfg.session.maxInput >= HEADER_SIZE
    ensures var e := Hearing(cfg, s, fd, conn, HEADER_ALONE).sessions[fd];
      e.life.v.phase.Reading? && S.BufferedInput(e.life.v) == 0 && e.received == HEADER_ALONE
  {
    var born := Armed(Adopted(cfg, s, fd, conn), fd, T.IdleTimeout, s.env.clock + cfg.idleMs);
    HeaderFirst(cfg, born.sessions[fd], S.Token(cfg.loop, fd, s.nextGeneration));
  }

  lemma HeaderParses()
    ensures Parse(HEADER_ALONE).rest == HEADER_ALONE
  {
    FourBytes(HEADER_ALONE);
    assert HEADER_ALONE[..HEADER_SIZE] == HEADER_ALONE && DecodeLength(HEADER_ALONE) == 1;
    PartialParses(HEADER_ALONE);
  }

  lemma MayAdoptIsValid(cfg: Config, s: State, fd: int, conn: nat)
    requires MayAdopt(cfg, s, fd, conn)
    ensures S.ValidConfig(cfg.session) && S.Token(cfg.loop, fd, s.nextGeneration) !in s.env.tasks && 0 <= fd &&
      s.nextGeneration != 0
  {
    FreshGeneration(cfg, s, fd, conn);
  }

  lemma InProgressOk(cfg: Config, s: State, fd: int)
    requires fd in s.sessions && InvExcept(cfg, s, fd) && s.sessions[fd].life.v.phase.Processing?
    ensures var t := InProgress(cfg, s, fd);
      Inv(cfg, t) && t.sessions[fd].life == s.sessions[fd].life && t.sessions[fd].at == s.env.clock + cfg.businessMs &&
      t.sessions[fd].kind.BusinessTimeout? && EventOf(t.sessions[fd]) in t.env.timers && t.env.clock == s.env.clock &&
      s.sessions[fd].life.v.token in t.env.tasks && t.env.completions == s.env.completions && t.env.open == s.env.open
  {
    hide Inv, InvExcept, Handled;
    SubmittedOk(cfg, s, fd);
    CancelledOk(cfg, Submitted(s, fd), fd);
    ArmedOk(cfg, Cancelled(Submitted(s, fd), fd), fd, s.env.clock + cfg.businessMs);
  }

  lemma OversleptOk(cfg: Config, s: State, token: S.Token)
    requires Inv(cfg, s) && token in s.env.tasks && s.env.completions == [] && s.env.open && 0 < cfg.completionSlots
    requires 0 <= token.fd && token.generation != 0
    ensures var t := Overslept(cfg, s, token);
      Inv(cfg, t) && t.env.completions == [M.Completion(token, M.Failure, [])] &&
      t == Meanwhile(s,
        s.env.(clock := s.env.clock + cfg.businessMs, completions := t.env.completions, doneWake := true))
  {
    hide Inv, InvExcept, Moves, Handled;
    var later, c := s.env.(clock := s.env.clock + cfg.businessMs), M.Completion(token, M.Failure, []);
    OnlyTime(cfg, s.mine, s.env, later);
    OthersKeep(cfg, s, later, 0);
    FinishMoves(cfg, s.mine, later, c, true);
    OthersKeep(cfg, Meanwhile(s, later), AfterFinish(cfg, later, c, true), 0);
    assert M.TotalBytes([]) == 0;
    assert [] + [c] == [c];
  }

  /** From any moment at which a loop takes over a connection: the peer sends a request, the
      worker needs longer than the business deadline, and the loop takes its result up before
      the timer thread has taken the timer. Then the session has two timers in the core. */
  lemma TwoTimersRun(cfg: Config, s: State, fd: int, conn: nat) returns (reported: State, end: State)
    requires MayAdopt(cfg, s, fd, conn) && cfg.session.maxInput >= HEADER_SIZE && 0 < cfg.completionSlots
    requires s.env.open && s.env.completions == [] && 0 < |cfg.timeoutFrame| <= cfg.session.maxOutput
    ensures reported == Overslept(cfg, InProgress(cfg, Asked(cfg, s, fd, conn), fd),
      S.Token(cfg.loop, fd, s.nextGeneration))
    ensures Inv(cfg, reported) && reported.env.completions != [] && fd in reported.sessions &&
      fd in TakenUp(reported).sessions
    ensures end == Armed(GaveUp(cfg, TakenUp(reported), fd), fd, T.WriteTimeout, reported.env.clock + cfg.writeMs)
    ensures Inv(cfg, end) && fd in end.sessions && |TimersOf(end, GenerationOf(end.sessions[fd]))| == 2
  {
    hide Inv, InvExcept, MayAdopt, Passed, Asked, InProgress;
    var token := S.Token(cfg.loop, fd, s.nextGeneration);
    MayAdoptIsValid(cfg, s, fd, conn);
    AskedOk(cfg, s, fd, conn);
    var asked := Asked(cfg, s, fd, conn);
    InProgressOk(cfg, asked, fd);
    var busy := InProgress(cfg, asked, fd);
    OversleptOk(cfg, busy, token);
    reported := Overslept(cfg, busy, token);
    end := LastDeadline(cfg, reported, fd);
  }

  lemma LastDeadline(cfg: Config, reported: State, fd: int) returns (end: State)
    requires Inv(cfg, reported) && reported.env.completions != [] && fd in reported.sessions
    requires reported.sessions[fd].kind.BusinessTimeout? && reported.sessions[fd].at <= reported.env.clock
    requires EventOf(reported.sessions[fd]) in reported.env.timers && 0 < |cfg.timeoutFrame| <= cfg.session.maxOutput
    ensures end == Armed(GaveUp(cfg, TakenUp(reported), fd), fd, T.WriteTimeout, reported.env.clock + cfg.writeMs)
    ensures Inv(cfg, end) && fd in end.sessions && |TimersOf(end, GenerationOf(end.sessions[fd]))| == 2
  {
    hide Inv, InvExcept, Passed, GaveUp, Armed, TimersOf;
    TakenUpOk(cfg, reported);
    var late := TakenUp(reported);
    SettledFacts(cfg, late, fd);
    LateResultLeavesATimer(cfg, late, fd, late.env.clock + cfg.writeMs);
    StillTheSession(cfg, late, fd, late.env.clock + cfg.writeMs);
    end := Armed(GaveUp(cfg, late, fd), fd, T.WriteTimeout, late.env.clock + cfg.writeMs);
  }

  lemma StillTheSession(cfg: Config, s: State, fd: int, at: int)
    requires Passed(cfg, s, fd) && s.sessions[fd].kind.BusinessTimeout? &&
      0 < |cfg.timeoutFrame| <= cfg.session.maxOutput
    ensures fd in GaveUp(cfg, s, fd).sessions
    ensures var s' := Armed(GaveUp(cfg, s, fd), fd, T.WriteTimeout, at);
      fd in s'.sessions && GenerationOf(s'.sessions[fd]) == GenerationOf(s.sessions[fd])
  {
    hide Inv, InvExcept, Passed;
    PassedEvent(cfg, s, fd);
    GaveUpEntry(cfg, s, fd);
  }

  /* The same from the very beginning. */

  function ExampleConfig(): Config {
    Config(0, 4, S.Config(64, 64, 64, 64, 64), 1000, 1000, 1000, 100, [], [0, 0, 0, 1, 69], 4, 64, 64,
      L.Config(1, 4, 4, 4))
  }

  function Beginning(cfg: Config): State {
    var env := Env(map[], {}, [], false, {}, false, {}, map[], [], [], true, L.Fresh(cfg.group), false, 0,
      false, false);
    State(map[], map[], 1, {}, {}, {}, env, map[], map[], {}, 0, 0, {cfg.overloadFrame, cfg.timeoutFrame})
  }

  lemma BeginningOk(cfg: Config)
    requires S.ValidConfig(cfg.session) && cfg.loop < cfg.group.loops
    ensures Inv(cfg, Beginning(cfg))
  {
    L.FreshInv(cfg.group);
    assert Conns(map[]) == {} && Registered([]) == {};
    assert L.OpenSet(map[], cfg.loop) == {} && L.QueuedSet(map[], cfg.loop) == {};
  }

  // The dispatcher sends connection 7 on socket 5, step by step.
  function Dispatched(g: L.State): L.State {
    g.(conns := map[7 := L.Queued(0)], load := [1], total := 1, nextLoop := 0, chosen := None)
  }

  function WithArrival(e: Env): Env {
    e.(group := Dispatched(e.group), registrations := [Registration(5, 7)], newWake := true)
  }

  lemma DispatchSteps(cfg: Config, e: Env)
    requires cfg == ExampleConfig() && e == Beginning(cfg).env
    ensures var e1 := DoOther(cfg, {}, e, Shift(L.Choose(7)));
      var e2 := DoOther(cfg, {}, e1, Shift(L.ReserveLoop));
      var e3 := DoOther(cfg, {}, e2, Shift(L.ReserveTotal));
      DoOther(cfg, {}, e3, Arrive(5)) == WithArrival(e)
  {
    var g := e.group;
    assert g.load == [0] && g.accepting == [true];
    var e1 := DoOther(cfg, {}, e, Shift(L.Choose(7)));
    assert e1.group == g.(nextLoop := 0, chosen := Some((0, 7)));
    var e2 := DoOther(cfg, {}, e1, Shift(L.ReserveLoop));
    assert e2.group == e1.group.(conns := map[7 := L.Reserving(0)], load := [1]);
    var e3 := DoOther(cfg, {}, e2, Shift(L.ReserveTotal));
    assert e3.group == e2.group.(conns := map[7 := L.Reserved(0)], total := 1);
    assert L.QueuedSet(e3.group.conns, 0) == {};
  }

  lemma DispatchMoves(cfg: Config)
    requires cfg == ExampleConfig()
    ensures var e := Beginning(cfg).env;
      Moves(cfg, {}, e, WithArrival(e))
  {
    hide Moves;
    var e := Beginning(cfg).env;
    var e1 := DoOther(cfg, {}, e, Shift(L.Choose(7)));
    var e2 := DoOther(cfg, {}, e1, Shift(L.ReserveLoop));
    var e3 := DoOther(cfg, {}, e2, Shift(L.ReserveTotal));
    var e4 := DoOther(cfg, {}, e3, Arrive(5));
    OtherMoves(cfg, {}, e, Shift(L.Choose(7)));
    OtherMoves(cfg, {}, e1, Shift(L.ReserveLoop));
    OtherMoves(cfg, {}, e2, Shift(L.ReserveTotal));
    OtherMoves(cfg, {}, e3, Arrive(5));
    MovesTransitive(cfg, {}, e, e1, e2);
    MovesTransitive(cfg, {}, e, e2, e3);
    MovesTransitive(cfg, {}, e, e3, e4);
    DispatchSteps(cfg, e);
  }

  // A loop that has done nothing yet pops its first connection.
  lemma FirstConnection() returns (s: State)
    ensures MayAdopt(ExampleConfig(), s, 5, 7) && s.env.open && s.env.completions == []
  {
    hide Inv, InvExcept, Moves, MayAdopt, Handled, Frame;
    var cfg := ExampleConfig();
    var s0 := Beginning(cfg);
    BeginningOk(cfg);
    DispatchMoves(cfg);
    var s1 := Meanwhile(s0, WithArrival(s0.env));
    OthersKeep(cfg, s0, s1.env, 0);
    PoppedOk(cfg, s1, 0);
    s := PoppedOne(cfg, s1);
    MayAdoptNow(cfg, s, 5, 7);
  }

  /** One concrete run, from a loop that has done nothing yet to a session with two timers. */
  lemma TwoTimersExample() returns (end: State)
    ensures Inv(ExampleConfig(), end) && 5 in end.sessions
    ensures |TimersOf(end, GenerationOf(end.sessions[5]))| == 2
  {
    hide Inv, MayAdopt;
    var s := FirstConnection();
    var reported;
    reported, end := TwoTimersRun(ExampleConfig(), s, 5, 7);
  }

  /** And one to a session that waits for a frame it has announced, under the idle deadline. */
  lemma IdleExample() returns (end: State)
    ensures Inv(ExampleConfig(), end) && 5 in end.sessions && end.sessions[5].received == [0, 0, 0, 1]
    ensures end.sessions[5].life.v.phase.Reading? && end.sessions[5].kind.IdleTimeout?
  {
    hide Inv, MayAdopt;
    var s := FirstConnection();
    IdleBehindTheHeader(ExampleConfig(), s, 5, 7);
    end := Hearing(ExampleConfig(), s, 5, 7, HEADER_ALONE);
  }

  // The loop's sessions are the connections that the group counts as open in it.
  lemma SessionsAreCounted(cfg: Config, s: State)
    requires Inv(cfg, s)
    ensures |L.OpenSet(s.env.group.conns, cfg.loop)| == |s.sessions|
    ensures s.mine == {} ==> s.popped == s.released + |s.sessions|
  {
    ConnsAreSessions(s.sessions);
  }
}
