/** The event loop. Each handler is a method of the loop thread: it may change the session
    it was called for and no other, it leaves every session with the deadline its state
    calls for, and it gives every connection it closes back to the group. Before every
    section under a lock of the timer core, a mailbox or the pool the other threads may take
    any number of steps. Kernel, pool and scheduler answers come from a script or are open. */
module EventLoop {
  import opened Wrappers
  import opened FrameCodec
  import opened LoopState
  import opened LoopEnv
  import opened LoopSteps
  import opened LoopBoxes
  import L = ConnectionLoad
  import M = Mailboxes
  import R = SessionRuns
  import S = Session
  import T = TimerSpec

  // One answer of recv or send.
  datatype Io = Received(bytes: Bytes) | Sent(count: nat) | PeerEnd | Interrupted | WouldBlock | Failed

  datatype Status =
    | Ok | InvalidArgument | AlreadyRegistered | ConnectionLimit | GenerationExhausted | SystemCallFailed
      | TimerScheduleFailed

  // What epoll reports of a socket; generation 0 is a mailbox's wake-up.
  datatype Ready = Ready(generation: nat, broken: bool, readable: bool, writable: bool, peerClosed: bool)

  // What a first answer of recv or send, given before, must have led to by now.
  predicate Read(before: Entry, first: Io, now: Entry) {
    first.Received? ==> before.received + first.bytes <= now.received
  }

  predicate Wrote(before: Entry, first: Io, now: Entry) {
    first.Sent? ==> Taken(before, first.count).sent <= now.sent
  }

  predicate AnsweredWith(before: Entry, now: Entry, frame: Bytes) {
    before.life.responses + [frame] <= now.life.responses
  }

  // The request timed out at a moment when the core did or did not hold its timer any more.
  predicate TimedOutAnswered(cfg: Config, before: Entry, now: Entry, moment: Env) {
    before.kind.BusinessTimeout? && AnsweredWith(before, now, cfg.timeoutFrame) && now.expired &&
    now.late == if EventOf(before) in moment.timers then Some(before.sequence) else None
  }

  // No session of the table is the one the token was made for.
  predicate Unmatched(sessions: map<int, Entry>, token: S.Token) {
    token.fd !in sessions || sessions[token.fd].life.v.token != token
  }

  // As long as the other threads do nothing, the mailboxes stay as they are.
  predicate Undisturbed(before: nat, now: nat, e: Env, e': Env) {
    now <= before &&
    (now == before ==> e'.queue == e.queue && e'.completions == e.completions && e'.registrations == e.registrations)
  }

  class Loop {
    const cfg: Config
    var sessions: map<int, Entry>
    var eventToFd: map<nat, int>
    var nextGeneration: nat
    var env: Env
    var mine: set<nat>
    var popped: nat
    var released: nat
    var io: seq<Io>
    var others: seq<seq<Other>>  // what the other threads do, one batch for each occasion
    ghost var st: State

    ghost predicate Matches()
      reads this
    {
      st.sessions == sessions && st.eventToFd == eventToFd && st.nextGeneration == nextGeneration && st.env == env &&
      st.mine == mine && st.popped == popped && st.released == released && cfg.loop < cfg.group.loops
    }

    ghost predicate Valid()
      reads this
    {
      Matches() && Inv(cfg, st)
    }

    // Valid but for the session in hand, which may be without deadline or closing.
    ghost predicate AtWork(fd: int)
      reads this
    {
      Matches() && fd in sessions && InvExcept(cfg, st, fd)
    }

    constructor (cfg: Config, group: L.State, io: seq<Io>, others: seq<seq<Other>>)
      requires S.ValidConfig(cfg.session) && cfg.loop < cfg.group.loops && L.Inv(cfg.group, group)
      requires L.OpenSet(group.conns, cfg.loop) == {} && L.QueuedSet(group.conns, cfg.loop) == {}
      requires forall c :: !L.At(group, c, L.Adopting(cfg.loop))
      ensures Valid() && this.cfg == cfg && sessions == map[] && nextGeneration == 1 && mine == {} && st.inHand == {}
      ensures Awake(env)
    {
      this.cfg, this.io, this.others := cfg, io, others;
      sessions, eventToFd, nextGeneration, mine, popped, released := map[], map[], 1, {}, 0, 0;
      env := Env(map[], {}, [], false, {}, false, {}, map[], [], [], true, group, false, 0, false, false);
      st := State(map[], map[], 1, {}, {}, {},
        Env(map[], {}, [], false, {}, false, {}, map[], [], [], true, group, false, 0, false, false),
        map[], map[], {}, 0, 0,
        {cfg.overloadFrame, cfg.timeoutFrame});
    }

    /* The other threads. */

    method Interfere(fd: int)
      requires Matches()
      modifies this`env, this`others, this`st
      ensures Matches() && st == Meanwhile(old(st), env) && Moves(cfg, mine, old(env), env)
      ensures |others| <= old(|others|) && (env != old(env) ==> |others| < old(|others|))
      ensures Handled(old(st), st, fd) && Kept(old(env), env) && env.tasks.Keys <= old(env).tasks.Keys
      ensures old(env).clock <= env.clock
      ensures forall x :: x in env.timers ==> x in old(env).timers
      ensures forall c :: c in mine && c in old(env).group.conns && InHand(old(env).group.conns[c], cfg.loop) ==>
        L.At(env.group, c, old(env).group.conns[c])
      ensures old(Inv(cfg, st)) ==> Inv(cfg, st)
      ensures old(InvExcept(cfg, st, fd)) ==> InvExcept(cfg, st, fd)
    {
      hide Inv, InvExcept, Rings, Handled, Tidy, Frame, Moves, Unarmed;
      ghost var before := env;
      MovesItself(cfg, mine, env);
      if others != [] {
        var batch := others[0];
        others := others[1..];
        for i := 0 to |batch|
          invariant Moves(cfg, mine, before, env) && |others| < old(|others|) && st == old(st)
        {
          ghost var between := env;
          OtherMoves(cfg, mine, env, batch[i]);
          env := DoOther(cfg, mine, env, batch[i]);
          MovesTransitive(cfg, mine, before, between, env);
        }
      }
      OthersKeep(cfg, st, env, fd);
      MovesFacts(cfg, mine, before, env);
      st := Meanwhile(st, env);
    }

    /* Deadlines. */

    method SetEntry(fd: int, e: Entry)
      requires Matches()
      modifies this`sessions, this`st
      ensures Matches() && st == WithEntry(old(st), fd, e)
    {
      sessions := sessions[fd := e];
      st := WithEntry(st, fd, e);
    }

    method CancelDeadline(fd: int)
      requires AtWork(fd)
      modifies this`sessions, this`env, this`others, this`st
      ensures AtWork(fd) && Handled(old(st), st, fd) && Undisturbed(old(|others|), |others|, old(env), env)
      ensures sessions[fd] == old(sessions[fd]).(active := false) && env.tasks.Keys <= old(env).tasks.Keys
      ensures old(env).clock <= env.clock
      ensures old(sessions[fd].active) ==> EventOf(old(sessions[fd])) !in env.timers
    {
      hide Inv, InvExcept, Rings, Handled, Tidy, Frame, Moves, Unarmed;
      Interfere(fd);
      ghost var between := st;
      CancelledOk(cfg, st, fd);
      st := Cancelled(st, fd);
      if sessions[fd].active {
        env := env.(timers := env.timers - {EventOf(sessions[fd])});
        sessions := sessions[fd := sessions[fd].(active := false)];
      }
      HandledTransitive(old(st), between, st, fd);
    }

    /** Cancels the old deadline and schedules a fresh one under a new number; the scheduler
        may refuse. */
    method ArmDeadline(fd: int) returns (ok: bool)
      requires AtWork(fd) && S.Open(sessions[fd].life.v)
      modifies this`sessions, this`env, this`others, this`st
      ensures Handled(old(st), st, fd) && fd in sessions && sessions[fd].life == old(sessions[fd].life)
      ensures env.tasks.Keys <= old(env).tasks.Keys && Undisturbed(old(|others|), |others|, old(env), env)
      ensures if ok then Valid() && sessions[fd].sequence == old(sessions[fd].sequence) + 1 else AtWork(fd)
      ensures old(sessions[fd].active) ==> EventOf(old(sessions[fd])) !in env.timers
      ensures ok ==> SetWithin(cfg, sessions[fd], old(env).clock, env.clock) && InCore(env, sessions[fd])
    {
      hide Inv, InvExcept, Rings, Handled, Tidy, Frame, Moves, Unarmed, SetWithin, InCore;
      CancelDeadline(fd);
      if sessions[fd].sequence == MAX_COUNT {
        return false;
      }
      ghost var between := st;
      ok := Schedule(fd);
      if ok { SetWithinLonger(cfg, sessions[fd], between.env.clock, env.clock, old(env).clock); }
      HandledTransitive(old(st), between, st, fd);
    }

    method Schedule(fd: int) returns (ok: bool)
      requires AtWork(fd) && S.Open(sessions[fd].life.v) && !sessions[fd].active
      modifies this`sessions, this`env, this`others, this`st
      ensures Handled(old(st), st, fd) && fd in sessions && sessions[fd].life == old(sessions[fd].life)
      ensures env.tasks.Keys <= old(env).tasks.Keys && Undisturbed(old(|others|), |others|, old(env), env)
      ensures if ok then Valid() && sessions[fd].sequence == old(sessions[fd].sequence) + 1 else AtWork(fd)
      ensures forall x :: x in env.timers ==> x in old(env).timers || x.sequence > old(sessions[fd].sequence)
      ensures ok ==> SetWithin(cfg, sessions[fd], old(env).clock, env.clock) && InCore(env, sessions[fd])
    {
      hide Inv, InvExcept, Rings, Handled, Tidy, Frame, Moves, Unarmed, Kept, Armed, NextSequence, KindFor,
        TimeoutFor, SetWithin, InCore;
      Interfere(fd);
      ghost var between := st;
      var now := env.clock;
      var kind := KindFor(sessions[fd].life.v);
      var at := now + TimeoutFor(cfg, kind);
      ok := *;
      if ok {
        ArmedOk(cfg, st, fd, at);
        Arm(fd, kind, at);
        SetNow(cfg, sessions[fd], now, old(env).clock, env.clock);
      } else {
        NextSequenceOk(cfg, st, fd);
        Skip(fd);
      }
      HandledTransitive(old(st), between, st, fd);
    }

    // The number of a deadline that the scheduler refused is used up.
    method Skip(fd: int)
      requires Matches() && fd in sessions
      modifies this`sessions, this`st
      ensures Matches() && st == NextSequence(old(st), fd) && fd in sessions
      ensures sessions[fd].life == old(sessions[fd].life)
    {
      SetEntry(fd, sessions[fd].(sequence := sessions[fd].sequence + 1));
    }

    method Arm(fd: int, kind: T.EventKind, at: int)
      requires Matches() && fd in sessions
      modifies this`sessions, this`env, this`st
      ensures Matches() && st == Armed(old(st), fd, kind, at) && fd in sessions
      ensures sessions[fd].life == old(sessions[fd].life) && sessions[fd].sequence == old(sessions[fd].sequence) + 1
      ensures sessions[fd].at == at && InCore(env, sessions[fd]) && env.clock == old(env).clock
      ensures env.tasks == old(env).tasks && forall n :: Undisturbed(n, n, old(env), env)
      ensures forall x :: x in env.timers ==> x in old(env).timers || x.sequence > old(sessions[fd].sequence)
    {
      var e := sessions[fd].(sequence := sessions[fd].sequence + 1, kind := kind, at := at, active := true);
      sessions := sessions[fd := e];
      env := env.(timers := env.timers[EventOf(e) := at]);
      st := Armed(st, fd, kind, at);
    }

    // Makes the armed deadline the one the session's state calls for.
    method SyncDeadline(fd: int) returns (ok: bool)
      requires AtWork(fd)
      modifies this`sessions, this`env, this`others, this`st
      ensures Handled(old(st), st, fd) && fd in sessions && sessions[fd].life == old(sessions[fd].life)
      ensures env.tasks.Keys <= old(env).tasks.Keys && Undisturbed(old(|others|), |others|, old(env), env)
      ensures AtWork(fd) && (ok && S.Open(sessions[fd].life.v) ==> Valid())
      ensures ok && S.Open(sessions[fd].life.v) && !old(sessions[fd].active) ==>
        sessions[fd].sequence > old(sessions[fd].sequence)
      ensures ok && S.Open(sessions[fd].life.v) ==>
        if sessions[fd].sequence > old(sessions[fd].sequence) then
          SetWithin(cfg, sessions[fd], old(env).clock, env.clock) && InCore(env, sessions[fd])
        else
          old(sessions[fd].active) && sessions[fd] == old(sessions[fd]) &&
          (EventOf(sessions[fd]) in env.timers ==> InCore(env, sessions[fd]))
    {
      hide Inv, InvExcept, Rings, Handled, Tidy, Frame, Moves, Unarmed, SetWithin, InCore;
      HandledItself(st, fd);
      if !S.Open(sessions[fd].life.v) {
        CancelDeadline(fd);
        return true;
      }
      if sessions[fd].active && sessions[fd].kind == KindFor(sessions[fd].life.v) {
        SettledAgain(cfg, st, fd);
        AtWorkIsLoose(cfg, st, fd);
        ArmedTime(cfg, st, fd);
        return true;
      }
      ok := ArmDeadline(fd);
      if ok { InvToExcept(cfg, st, fd); }
    }

    /* Closing. */

    // Gives a connection back: the loop's counter first, then the group's.
    method Release(c: nat, fd: int)
      requires Valid() && c in mine && L.At(env.group, c, L.Leaving(cfg.loop))
      modifies this`env, this`mine, this`released, this`others, this`st
      ensures Valid() && Frame(old(st), st, fd) && mine == old(mine) - {c} && released == old(released) + 1
      ensures Undisturbed(old(|others|), |others|, old(env), env)
      ensures forall x :: x in env.timers ==> x in old(env).timers
      ensures forall d :: d in mine && d in old(env).group.conns && InHand(old(env).group.conns[d], cfg.loop) ==>
        L.At(env.group, d, old(env).group.conns[d])
    {
      hide Inv, InvExcept, Rings, Handled, Tidy, Frame, Moves, Unarmed;
      Interfere(fd);
      ghost var between := st;
      HandledFacts(old(st), st, fd);
      ReleasedLoopOk(cfg, st, c, fd);
      forall d | d in mine && d != c && d in env.group.conns
        ensures L.At(ReleasedLoop(cfg, st, c).env.group, d, env.group.conns[d])
      {
        OthersInHand(cfg, st, c, d);
      }
      st := ReleasedLoop(cfg, st, c);
      env := env.(group := Shifted(cfg, env.group, L.ReleaseLoop(cfg.loop, {c})));
      FrameTransitive(old(st), between, st, fd);
      between := st;
      ReleaseParent(c, fd);
      FrameTransitive(old(st), between, st, fd);
    }

    method ReleaseParent(c: nat, fd: int)
      requires Valid() && c in mine && L.At(env.group, c, L.Settling(cfg.loop))
      modifies this`env, this`mine, this`released, this`others, this`st
      ensures Valid() && Frame(old(st), st, fd) && mine == old(mine) - {c} && released == old(released) + 1
      ensures Undisturbed(old(|others|), |others|, old(env), env)
      ensures forall x :: x in env.timers ==> x in old(env).timers
      ensures forall d :: d in mine && d in old(env).group.conns && InHand(old(env).group.conns[d], cfg.loop) ==>
        L.At(env.group, d, old(env).group.conns[d])
    {
      hide Inv, InvExcept, Rings, Handled, Tidy, Frame, Moves, Unarmed;
      Interfere(fd);
      ghost var between := st;
      HandledFacts(old(st), st, fd);
      ReleasedTotalOk(cfg, st, c, fd);
      forall d | d in mine && d != c && d in env.group.conns
        ensures L.At(ReleasedTotal(cfg, st, c).env.group, d, env.group.conns[d])
      {
        OthersInHand(cfg, st, c, d);
      }
      st := ReleasedTotal(cfg, st, c);
      env := env.(group := Shifted(cfg, env.group, L.ReleaseTotal({c})));
      mine, released := mine - {c}, released + 1;
      FrameTransitive(old(st), between, st, fd);
    }

    // The session leaves the tables; its connection is in hand.
    method Vanish(fd: int)
      requires Matches() && fd in sessions && Unarmed(cfg, st, fd)
      modifies this`sessions, this`eventToFd, this`env, this`mine, this`st
      ensures Valid() && fd !in sessions && Frame(old(st), st, fd) && popped == old(popped) && released == old(released)
      ensures old(sessions[fd].conn) !in old(mine) && mine == old(mine) + {old(sessions[fd].conn)}
      ensures L.At(env.group, old(sessions[fd].conn), L.Leaving(cfg.loop)) && env == old(env).(group := env.group)
    {
      hide Inv, InvExcept, Rings, Handled, Tidy, Frame, Moves, Unarmed;
      GoneOk(cfg, st, fd);
      st := Gone(cfg, st, fd);
      var conn, generation := sessions[fd].conn, sessions[fd].life.v.token.generation;
      eventToFd := eventToFd - {generation};
      sessions := sessions - {fd};
      mine := mine + {conn};
      env := env.(group := Shifted(cfg, env.group, L.CloseSession(conn)));
    }

    /** Takes the session out with its deadline. The connection is given back here, or, when
        nobody is to be notified, left to the caller. */
    method CloseSession(fd: int, notify: bool)
      requires AtWork(fd)
      modifies this`sessions, this`eventToFd, this`env, this`mine, this`released, this`others, this`st
      ensures Valid() && fd !in sessions && Frame(old(st), st, fd) && popped == old(popped) &&
        Undisturbed(old(|others|), |others|, old(env), env)
      ensures notify ==> mine == old(mine) && released == old(released) + 1
      ensures !notify ==> released == old(released) && mine == old(mine) + {old(sessions[fd].conn)}
      ensures !notify ==> L.At(env.group, old(sessions[fd].conn), L.Leaving(cfg.loop))
      ensures old(sessions[fd].active) ==> EventOf(old(sessions[fd])) !in env.timers
    {
      hide Inv, InvExcept, Rings, Handled, Tidy, Frame, Moves, Unarmed;
      var conn := sessions[fd].conn;
      CancelDeadline(fd);
      HandledFacts(old(st), st, fd);
      ghost var between := st;
      UnarmedNow(cfg, st, fd);
      Vanish(fd);
      FrameTransitive(old(st), between, st, fd);
      between := st;
      if notify {
        Release(conn, fd);
        FrameTransitive(old(st), between, st, fd);
      }
    }

    method Close(fd: int)
      requires AtWork(fd)
      modifies this`sessions, this`eventToFd, this`env, this`mine, this`released, this`others, this`st
      ensures Valid() && fd !in sessions && Handled(old(st), st, fd) &&
        Undisturbed(old(|others|), |others|, old(env), env)
    {
      hide Inv, InvExcept, Rings, Handled, Tidy, Frame, Moves, Unarmed;
      CloseSession(fd, true);
      HandledWhenGone(old(st), st, fd);
    }

    /* I/O. */

    // Between two turns of an I/O loop: settled, or closing and not yet closed.
    ghost predicate Mid(fd: int)
      reads this
    {
      Matches() && if fd in sessions && !S.Open(sessions[fd].life.v) then InvExcept(cfg, st, fd) else Inv(cfg, st)
    }

    // epoll_ctl may refuse the new interest, and then the connection goes.
    method ModifyInterest(fd: int)
      requires Valid() && fd in sessions
      modifies this`sessions, this`eventToFd, this`env, this`mine, this`released, this`others, this`st
      ensures Valid() && Handled(old(st), st, fd) && (fd in sessions ==> sessions[fd] == old(sessions[fd]))
      ensures Undisturbed(old(|others|), |others|, old(env), env)
    {
      hide Inv, InvExcept, Rings, Handled, Tidy, Frame, Moves, Unarmed, Passed, Follows;
      HandledItself(st, fd);
      var modified: bool := *;
      if !modified {
        InvToExcept(cfg, st, fd);
        Close(fd);
      }
    }

    // Brings the deadline of the session into line with its state.
    method Settle(fd: int) returns (ok: bool)
      requires AtWork(fd)
      modifies this`sessions, this`eventToFd, this`env, this`mine, this`released, this`others, this`st
      ensures Handled(old(st), st, fd) && Mid(fd) && Undisturbed(old(|others|), |others|, old(env), env)
      ensures ok ==> fd in sessions && sessions[fd].life == old(sessions[fd].life)
      ensures !ok ==> fd !in sessions
      ensures ok && S.Open(sessions[fd].life.v) && !old(sessions[fd].active) ==>
        sessions[fd].sequence > old(sessions[fd].sequence)
    {
      hide Inv, InvExcept, Rings, Handled, Tidy, Frame, Moves, Unarmed, Passed, Follows;
      ok := SyncDeadline(fd);
      if !ok {
        ghost var between := st;
        Close(fd);
        HandledTransitive(old(st), between, st, fd);
      }
    }

    // In step but for what the socket has just moved.
    ghost predicate Behind(fd: int, s: State)
      reads this
    {
      Matches() && fd in sessions && fd in s.sessions && InvExcept(cfg, s, fd) && st == WithEntry(s, fd, sessions[fd])
    }

    // Takes over a new state of the session.
    method Follow(fd: int, e: Entry, ghost s: State) returns (ok: bool)
      requires Behind(fd, s) && Follows(cfg, s, fd, e)
      modifies this`sessions, this`eventToFd, this`env, this`mine, this`released, this`others, this`st
      ensures Tidy(s, st, fd) && Mid(fd) && Undisturbed(old(|others|), |others|, old(env), env)
      ensures ok ==> fd in sessions && sessions[fd].life == e.life
      ensures !ok ==> fd !in sessions
      ensures fd in sessions ==> Continues(e, sessions[fd])
    {
      hide Inv, InvExcept, Rings, Handled, Tidy, Frame, Moves, Unarmed, Passed, Follows;
      WithEntryOk(cfg, s, fd, e);
      SetEntry(fd, e);
      ghost var between := st;
      assert between == WithEntry(s, fd, e);
      ok := Settle(fd);
      HandledFacts(between, st, fd);
      FrameFacts(between, st, fd);
      TidyEntry(s, between, fd);
      TidyTransitive(s, between, st, fd);
    }

    method NextIo() returns (answer: Io)
      modifies this`io
      ensures |io| <= old(|io|) && (old(io) != [] ==> |io| < old(|io|) && answer == old(io)[0])
      ensures old(io) == [] ==> answer == WouldBlock
    {
      answer := WouldBlock;
      if io != [] {
        answer, io := io[0], io[1..];
      }
    }

    // recv: what it delivers is off the socket, whatever becomes of it.
    method Recv(fd: int) returns (answer: Io)
      requires Matches() && fd in sessions
      modifies this`io, this`sessions, this`st
      ensures |io| <= old(|io|) && (old(io) != [] ==> |io| < old(|io|) && answer == old(io)[0])
      ensures old(io) == [] ==> answer == WouldBlock
      ensures Matches() && st ==
        if answer.Received? && answer.bytes != [] then WithEntry(old(st), fd, Heard(old(sessions[fd]), answer.bytes))
          else old(st)
    {
      answer := NextIo();
      if answer.Received? && answer.bytes != [] { SetEntry(fd, Heard(sessions[fd], answer.bytes)); }
    }

    // send: what it takes is on its way to the peer.
    method Send(fd: int) returns (answer: Io)
      requires Matches() && fd in sessions
      modifies this`io, this`sessions, this`st
      ensures |io| <= old(|io|) && (old(io) != [] ==> |io| < old(|io|) && answer == old(io)[0])
      ensures old(io) == [] ==> answer == WouldBlock
      ensures Matches() && st ==
        if answer.Sent? && 0 < answer.count then WithEntry(old(st), fd, Taken(old(sessions[fd]), answer.count))
          else old(st)
    {
      answer := NextIo();
      if answer.Sent? && 0 < answer.count { SetEntry(fd, Taken(sessions[fd], answer.count)); }
    }

    /** Hands a request to the business pool. During a drain the connection goes instead; a
        full pool is answered with the overload frame at once; a session whose deadline cannot
        be scheduled is closed. */
    method DispatchRequest(fd: int) returns (inFlight: bool)
      requires AtWork(fd) && sessions[fd].life.v.phase.Processing? && NoTask(st, fd) && !sessions[fd].expired
      modifies this
      ensures Valid() && Tidy(old(st), st, fd) && |io| <= old(|io|) &&
        Undisturbed(old(|others|), |others|, old(env), env)
      ensures inFlight ==> fd in sessions && sessions[fd].life == old(sessions[fd].life)
      ensures !inFlight && fd in sessions ==> AnsweredWith(old(sessions[fd]), sessions[fd], cfg.overloadFrame)
      ensures old(env.drain) ==> fd !in sessions
      decreases |io|, 1, 0
    {
      hide Inv, InvExcept, Rings, Handled, Tidy, Frame, Moves, Unarmed, Passed, Follows;
      Interfere(fd);
      ghost var between := st;
      HandledFacts(old(st), st, fd);
      inFlight := false;
      var accepted: bool := *;
      if env.drain {
        Close(fd);
        HandledFacts(between, st, fd);
      } else if accepted {
        inFlight := Submit(fd);
        HandledFacts(between, st, fd);
      } else {
        Overloaded(fd);
      }
      TidyTransitive(old(st), between, st, fd);
    }

    // The pool would not take it.
    method Overloaded(fd: int)
      requires AtWork(fd) && sessions[fd].life.v.phase.Processing? && NoTask(st, fd) && !sessions[fd].expired
      modifies this
      ensures Valid() && Tidy(old(st), st, fd) && |io| <= old(|io|) &&
        Undisturbed(old(|others|), |others|, old(env), env)
      ensures fd in sessions ==> AnsweredWith(old(sessions[fd]), sessions[fd], cfg.overloadFrame)
      decreases |io|, 0, 3
    {
      hide Inv, InvExcept, Rings, Handled, Tidy, Frame, Moves, Unarmed, Passed, Follows;
      Interfere(fd);
      ghost var between := st;
      HandledFacts(old(st), st, fd);
      if env.drain || cfg.overloadFrame == [] {
        Close(fd);
        HandledFacts(between, st, fd);
      } else {
        var answered := Answer(fd, sessions[fd].life.v.token, cfg.overloadFrame, false, None);
      }
      TidyTransitive(old(st), between, st, fd);
    }

    method Submit(fd: int) returns (ok: bool)
      requires AtWork(fd) && sessions[fd].life.v.phase.Processing?
      modifies this`sessions, this`eventToFd, this`env, this`mine, this`released, this`others, this`st
      ensures Valid() && Handled(old(st), st, fd) && Undisturbed(old(|others|), |others|, old(env), env)
      ensures ok ==> fd in sessions && sessions[fd].life == old(sessions[fd].life)
      ensures !ok ==> fd !in sessions
    {
      hide Inv, InvExcept, Rings, Handled, Tidy, Frame, Moves, Unarmed, Passed, Follows;
      Interfere(fd);
      ghost var between := st;
      SubmittedOk(cfg, st, fd);
      env := env.(tasks := env.tasks[sessions[fd].life.v.token := |sessions[fd].life.requests|]);
      st := Submitted(st, fd);
      HandledTransitive(old(st), between, st, fd);
      between := st;
      ok := Settle(fd);
      HandledTransitive(old(st), between, st, fd);
    }

    // An answer: queued if the session takes it, with a write deadline and as much of it
    // sent as the socket takes; otherwise the connection goes. A worker's is recorded.
    method Answer(fd: int, token: S.Token, frame: Bytes, last: bool, ghost task: Option<Task>) returns (queued: bool)
      requires AtWork(fd) && S.Open(sessions[fd].life.v) && NoTask(st, fd) && !sessions[fd].expired
      requires task.Some? ==>
        task.value.token == sessions[fd].life.v.token && task.value.request == |sessions[fd].life.responses| + 1
      requires task.None? ==> frame == cfg.overloadFrame
      modifies this
      ensures Valid() && Tidy(old(st), st, fd) && |io| <= old(|io|) &&
        Undisturbed(old(|others|), |others|, old(env), env)
      ensures queued <==> S.QueueResponse(cfg.session, old(sessions[fd].life.v), token, frame).1 == S.Ok
      ensures !queued ==> fd !in sessions
      ensures queued && task.Some? ==> (task.value, frame) in st.given.Items
      ensures fd in sessions ==> AnsweredWith(old(sessions[fd]), sessions[fd], frame)
      ensures fd in sessions && last ==>
        Winding(sessions[fd]) && sessions[fd].life.requests == old(sessions[fd].life.requests)
      decreases |io|, 0, 2
    {
      hide Inv, InvExcept, Rings, Handled, Tidy, Frame, Moves, Unarmed, Passed, Follows;
      queued := S.QueueResponse(cfg.session, sessions[fd].life.v, token, frame).1 == S.Ok;
      if !queued {
        Close(fd);
        HandledFacts(old(st), st, fd);
        return;
      }
      TakeAnswer(fd, token, frame, last, task);
      ghost var between := st;
      Deliver(fd, last);
      TidyTransitive(old(st), between, st, fd);
      TidyFacts(between, st, fd);
      FrameFacts(between, st, fd);
    }

    method TakeAnswer(fd: int, token: S.Token, frame: Bytes, last: bool, ghost task: Option<Task>)
      requires AtWork(fd) && S.Open(sessions[fd].life.v) && NoTask(st, fd) && !sessions[fd].expired
      requires S.QueueResponse(cfg.session, sessions[fd].life.v, token, frame).1 == S.Ok
      requires task.Some? ==>
        task.value.token == sessions[fd].life.v.token && task.value.request == |sessions[fd].life.responses| + 1
      requires task.None? ==> frame == cfg.overloadFrame
      modifies this`sessions, this`st
      ensures AtWork(fd) && Tidy(old(st), st, fd) && sessions[fd].life.v.phase.Writing?
      ensures sessions[fd].life.responses == old(sessions[fd].life.responses) + [frame]
      ensures sessions[fd].life.requests == old(sessions[fd].life.requests) && (last ==> Winding(sessions[fd]))
      ensures task.Some? ==> (task.value, frame) in st.given.Items
    {
      hide Inv, InvExcept, Rings, Handled, Tidy, Frame, Moves, Unarmed, Passed, Follows;
      ghost var before := st;
      var answered := Answered(cfg, sessions[fd], token, frame, last);
      AnswerFollows(cfg, st, fd, token, frame, last);
      if task.Some? { NotYetGiven(cfg, st, fd, task.value); }
      StandardFrames(cfg, st, fd);
      AnswerOk(cfg, st, fd, answered, task, frame);
      sessions := sessions[fd := answered];
      st := WithAnswer(st, fd, answered, task, frame);
      TidyEntry(before, st, fd);
      assert task.Some? ==> (task.value, frame) in st.given.Items;
    }

    // The write deadline, and as much as the socket takes.
    method Deliver(fd: int, last: bool)
      requires AtWork(fd) && sessions[fd].life.v.phase.Writing? && (last ==> Winding(sessions[fd]))
      modifies this
      ensures Valid() && Tidy(old(st), st, fd) && |io| <= old(|io|) &&
        Undisturbed(old(|others|), |others|, old(env), env)
      ensures fd in sessions && last ==>
        Winding(sessions[fd]) && sessions[fd].life.requests == old(sessions[fd].life.requests)
      decreases |io|, 0, 1
    {
      hide Inv, InvExcept, Rings, Handled, Tidy, Frame, Moves, Unarmed, Passed, Follows;
      var ok := Settle(fd);
      HandledFacts(old(st), st, fd);
      if ok {
        ghost var between := st;
        HandleWrite(fd);
        HandledFacts(between, st, fd);
        TidyTransitive(old(st), between, st, fd);
      }
    }

    /** Sends until the answer is out, the socket takes no more or the connection is gone.
        What the socket has taken is never sent again. */
    method HandleWrite(fd: int)
      requires Mid(fd)
      modifies this
      ensures Valid() && Handled(old(st), st, fd) && |io| <= old(|io|) &&
        Undisturbed(old(|others|), |others|, old(env), env)
      ensures fd in sessions && old(fd in sessions && sessions[fd].life.v.phase.Writing? && io != []) ==>
        Wrote(old(sessions)[fd], old(io)[0], sessions[fd])
      decreases |io|, 0, 0, 1
    {
      hide Inv, InvExcept, Rings, Handled, Tidy, Frame, Moves, Unarmed, Passed, Follows;
      var go := true;
      ghost var begun := false;
      HandledItself(st, fd);
      while go && fd in sessions
        invariant Mid(fd) && (!go ==> Valid()) && Handled(old(st), st, fd) && |io| <= old(|io|) &&
          Undisturbed(old(|others|), |others|, old(env), env)
        invariant !begun ==> go && st == old(st) && io == old(io)
        invariant begun && fd in sessions && old(fd in sessions && sessions[fd].life.v.phase.Writing? && io != []) ==>
          Wrote(old(sessions)[fd], old(io)[0], sessions[fd])
        decreases |io|, go
      {
        ghost var before := st;
        go := WriteTurn(fd);
        HandledTransitive(old(st), before, st, fd);
        HandledFacts(before, st, fd);
        FrameFacts(before, st, fd);
        begun := true;
      }
    }

    method WriteTurn(fd: int) returns (go: bool)
      requires Mid(fd) && fd in sessions
      modifies this
      ensures Mid(fd) && (!go ==> Valid()) && Handled(old(st), st, fd) &&
        Undisturbed(old(|others|), |others|, old(env), env)
      ensures |io| <= old(|io|) && (go ==> |io| < old(|io|))
      ensures fd in sessions && old(sessions[fd].life.v.phase.Writing? && io != []) ==>
        Wrote(old(sessions)[fd], old(io)[0], sessions[fd])
      decreases |io|, 0, 0, 0
    {
      hide Inv, InvExcept, Rings, Handled, Tidy, Frame, Moves, Unarmed, Passed, Follows;
      HandledItself(st, fd);
      if sessions[fd].life.v.phase != S.Writing {
        if S.Open(sessions[fd].life.v) { ModifyInterest(fd); } else { Close(fd); }
        return false;
      }
      var answer := Send(fd);
      if answer == Interrupted {
        return true;
      }
      if answer.Sent? && answer.count > 0 {
        InvToExcept(cfg, old(st), fd);
        go := WriteProgress(fd, answer.count, old(st));
      } else {
        EndOfWrite(fd, answer);
        go := false;
      }
    }

    method EndOfWrite(fd: int, answer: Io)
      requires Valid() && fd in sessions
      modifies this`sessions, this`eventToFd, this`env, this`mine, this`released, this`others, this`st
      ensures Valid() && Handled(old(st), st, fd) && (fd in sessions ==> sessions[fd] == old(sessions[fd]))
      ensures Undisturbed(old(|others|), |others|, old(env), env)
    {
      hide Inv, InvExcept, Rings, Handled, Tidy, Frame, Moves, Unarmed, Passed, Follows;
      if answer == WouldBlock {
        ModifyInterest(fd);
      } else {
        InvToExcept(cfg, st, fd);
        Close(fd);
      }
    }

    // What send reported: a finished response may bring the next request to light.
    method WriteProgress(fd: int, count: nat, ghost s: State) returns (go: bool)
      requires Behind(fd, s) && Inv(cfg, s) && s.sessions[fd].life.v.phase.Writing?
      requires sessions[fd] == Taken(s.sessions[fd], count)
      modifies this
      ensures Mid(fd) && Handled(s, st, fd) && |io| <= old(|io|) && Undisturbed(old(|others|), |others|, old(env), env)
      ensures !go ==> Valid()
      ensures fd in sessions ==> Wrote(s.sessions[fd], Sent(count), sessions[fd])
      decreases |io|, 2, 0
    {
      hide Inv, InvExcept, Rings, Handled, Tidy, Frame, Moves, Unarmed, Passed, Follows;
      SettledFacts(cfg, s, fd);
      WrittenFollows(cfg, s, fd, count);
      var (_, r) := S.OnBytesWritten(cfg.session, sessions[fd].life.v, count);
      var e := sessions[fd].(life := R.Next(cfg.session, sessions[fd].life, R.Wrote(count)));
      assert e == Stepped(cfg, s.sessions[fd], R.Wrote(count));
      if r.request.Some? {
        go := Request(fd, e, s);
        if fd in sessions { InvToExcept(cfg, st, fd); }
      } else {
        go := Follow(fd, e, s);
      }
      HandledByStep(s, e, st, fd);
    }

    // A request came to light: the session processes it and has no other task out.
    method Request(fd: int, e: Entry, ghost s: State) returns (go: bool)
      requires Behind(fd, s) && Follows(cfg, s, fd, e) && e.life.v.phase.Processing?
      requires S.Open(s.sessions[fd].life.v) && !Winding(s.sessions[fd]) && !e.expired && !s.sessions[fd].expired
      modifies this
      ensures Valid() && Tidy(s, st, fd) && |io| <= old(|io|) && Undisturbed(old(|others|), |others|, old(env), env)
      ensures go ==> fd in sessions
      ensures fd in sessions ==> Continues(e, sessions[fd])
      decreases |io|, 1, 1
    {
      hide Inv, InvExcept, Rings, Handled, Tidy, Frame, Moves, Unarmed, Passed, Follows;
      IdleHasNoTask(cfg, s, fd);
      WithEntryOk(cfg, s, fd, e);
      SameTokens(cfg, s, fd, e);
      SetEntry(fd, e);
      ghost var between := st;
      assert between == WithEntry(s, fd, e);
      go := DispatchRequest(fd);
      TidyEntry(s, between, fd);
      TidyTransitive(s, between, st, fd);
      TidyFacts(between, st, fd);
      FrameFacts(between, st, fd);
    }

    /** Receives until the socket has no more, reading is paused or the connection is gone.
        Nothing that was received is lost on the way to the session. */
    method HandleRead(fd: int, drainPeerClose: bool)
      requires Mid(fd)
      modifies this
      ensures Valid() && Handled(old(st), st, fd) && |io| <= old(|io|) &&
        Undisturbed(old(|others|), |others|, old(env), env)
      ensures fd in sessions && old(fd in sessions && io != []) ==> Read(old(sessions)[fd], old(io)[0], sessions[fd])
    {
      hide Inv, InvExcept, Rings, Handled, Tidy, Frame, Moves, Unarmed, Passed, Follows;
      var go := true;
      ghost var begun := false;
      HandledItself(st, fd);
      while go && fd in sessions
        invariant Mid(fd) && (!go ==> Valid()) && Handled(old(st), st, fd) && |io| <= old(|io|) &&
          Undisturbed(old(|others|), |others|, old(env), env)
        invariant !begun ==> go && st == old(st) && io == old(io)
        invariant begun && fd in sessions && old(fd in sessions && io != []) ==>
          Read(old(sessions)[fd], old(io)[0], sessions[fd])
        decreases |io|, go
      {
        ghost var before := st;
        go := ReadTurn(fd, drainPeerClose);
        HandledTransitive(old(st), before, st, fd);
        HandledFacts(before, st, fd);
        FrameFacts(before, st, fd);
        begun := true;
      }
    }

    method ReadTurn(fd: int, drainPeerClose: bool) returns (go: bool)
      requires Mid(fd) && fd in sessions
      modifies this
      ensures Mid(fd) && (!go ==> Valid()) && Handled(old(st), st, fd) &&
        Undisturbed(old(|others|), |others|, old(env), env)
      ensures |io| <= old(|io|) && (go ==> |io| < old(|io|))
      ensures fd in sessions && old(io) != [] ==> Read(old(sessions)[fd], old(io)[0], sessions[fd])
    {
      hide Inv, InvExcept, Rings, Handled, Tidy, Frame, Moves, Unarmed, Passed, Follows;
      HandledItself(st, fd);
      if !S.Open(sessions[fd].life.v) {
        Close(fd);
        return false;
      }
      var answer := Recv(fd);
      if answer == Interrupted {
        return true;
      }
      if answer.Received? && answer.bytes != [] {
        InvToExcept(cfg, old(st), fd);
        go := ReadProgress(fd, answer.bytes, old(st));
        ghost var between := st;
        go := MayPause(fd, drainPeerClose, go);
        HandledTransitive(old(st), between, st, fd);
      } else {
        EndOfRead(fd, answer);
        HandledFacts(old(st), st, fd);
        FrameFacts(old(st), st, fd);
        if fd in sessions { InvToExcept(cfg, st, fd); }
        go := false;
      }
    }

    // Reading stops while the session's buffers are above their soft limits.
    method MayPause(fd: int, drainPeerClose: bool, go: bool) returns (on: bool)
      requires Mid(fd) && (!go ==> Valid())
      modifies this`sessions, this`eventToFd, this`env, this`mine, this`released, this`others, this`st
      ensures Mid(fd) && (!on ==> Valid()) && Handled(old(st), st, fd) && (on ==> go) &&
        Undisturbed(old(|others|), |others|, old(env), env)
      ensures fd in sessions ==> fd in old(sessions) && sessions[fd] == old(sessions)[fd]
      ensures on && !drainPeerClose && fd in sessions && S.Open(sessions[fd].life.v) ==>
        S.WantsRead(cfg.session, sessions[fd].life.v)
    {
      hide Inv, InvExcept, Rings, Handled, Tidy, Frame, Moves, Unarmed, Passed, Follows;
      HandledItself(st, fd);
      on := go;
      if go && !drainPeerClose && fd in sessions && S.Open(sessions[fd].life.v) &&
         !S.WantsRead(cfg.session, sessions[fd].life.v) {
        ModifyInterest(fd);
        on := false;
      }
    }

    // Bytes from the peer: buffered, or a request that goes straight to the pool.
    method ReadProgress(fd: int, bytes: Bytes, ghost s: State) returns (go: bool)
      requires Behind(fd, s) && Inv(cfg, s) && sessions[fd] == Heard(s.sessions[fd], bytes)
      modifies this
      ensures Mid(fd) && Handled(s, st, fd) && |io| <= old(|io|) && Undisturbed(old(|others|), |others|, old(env), env)
      ensures !go ==> Valid()
      ensures fd in sessions ==> Read(s.sessions[fd], Received(bytes), sessions[fd])
    {
      hide Inv, InvExcept, Rings, Handled, Tidy, Frame, Moves, Unarmed, Passed, Follows;
      SettledFacts(cfg, s, fd);
      InputFollows(cfg, s, fd, bytes);
      var (_, r) := S.OnInput(cfg.session, sessions[fd].life.v, bytes);
      var e := sessions[fd].(life := R.Next(cfg.session, sessions[fd].life, R.Input(bytes)));
      assert e == Stepped(cfg, s.sessions[fd], R.Input(bytes));
      if r.request.Some? {
        go := Request(fd, e, s);
        if fd in sessions { InvToExcept(cfg, st, fd); }
      } else {
        go := Follow(fd, e, s);
      }
      HandledByStep(s, e, st, fd);
    }

    // The peer stopped sending, nothing more is there, or the socket failed.
    method EndOfRead(fd: int, answer: Io)
      requires Valid() && fd in sessions
      modifies this`sessions, this`eventToFd, this`env, this`mine, this`released, this`others, this`st
      ensures Valid() && Handled(old(st), st, fd) && Undisturbed(old(|others|), |others|, old(env), env)
    {
      hide Inv, InvExcept, Rings, Handled, Tidy, Frame, Moves, Unarmed, Passed, Follows;
      SettledFacts(cfg, st, fd);
      if answer == WouldBlock {
        ModifyInterest(fd);
      } else if answer != PeerEnd {
        Close(fd);
      } else {
        PeerEnded(fd);
      }
    }

    method PeerEnded(fd: int)
      requires AtWork(fd) && S.Open(sessions[fd].life.v)
      modifies this`sessions, this`eventToFd, this`env, this`mine, this`released, this`others, this`st
      ensures Valid() && Handled(old(st), st, fd) && Undisturbed(old(|others|), |others|, old(env), env)
    {
      hide Inv, InvExcept, Rings, Handled, Tidy, Frame, Moves, Unarmed, Passed, Follows;
      PeerCloseFollows(cfg, st, fd);
      SameEntry(st, fd);
      var e := Stepped(cfg, sessions[fd], R.PeerClose);
      var ok := Follow(fd, e, st);
      HandledByStep(old(st), e, st, fd);
      ghost var between := st;
      if ok {
        if S.Open(sessions[fd].life.v) { ModifyInterest(fd); } else { Close(fd); }
        HandledTransitive(old(st), between, st, fd);
      }
    }

    /* Passed deadlines. */

    /** The current deadline of the session has passed: a request that took too long is
        answered with the timeout frame, anything else closes the connection. A timer that
        has not fired yet stays in the core. */
    method Expire(fd: int)
      requires Matches() && fd in sessions && Passed(cfg, st, fd)
      modifies this
      ensures Valid() && Handled(old(st), st, fd) && |io| <= old(|io|) &&
        Undisturbed(old(|others|), |others|, old(env), env)
      ensures fd in sessions ==> sessions[fd].sequence > old(sessions[fd].sequence)
      ensures fd in sessions ==> TimedOutAnswered(cfg, old(sessions[fd]), sessions[fd], old(env))
    {
      hide Inv, InvExcept, Rings, Handled, Tidy, Frame, Moves, Unarmed, Passed, Follows, Onward, Past, Due;
      if sessions[fd].kind == T.BusinessTimeout && 0 < |cfg.timeoutFrame| <= cfg.session.maxOutput {
        GiveUp(fd);
        ghost var between := st;
        var ok := Settle(fd);
        HandledTransitive(old(st), between, st, fd);
        HandledFacts(between, st, fd);
        FrameFacts(between, st, fd);
        if ok {
          between := st;
          HandleWrite(fd);
          HandledTransitive(old(st), between, st, fd);
          HandledFacts(between, st, fd);
          FrameFacts(between, st, fd);
        }
      } else {
        Abandon(fd);
      }
    }

    method GiveUp(fd: int)
      requires Matches() && fd in sessions && Passed(cfg, st, fd)
      requires sessions[fd].kind.BusinessTimeout? && 0 < |cfg.timeoutFrame| <= cfg.session.maxOutput
      modifies this`sessions, this`st
      ensures AtWork(fd) && Handled(old(st), st, fd) && st == GaveUp(cfg, old(st), fd) && !sessions[fd].active
      ensures sessions[fd].life.v.phase.Writing? && sessions[fd].sequence == old(sessions[fd].sequence)
      ensures TimedOutAnswered(cfg, old(sessions[fd]), sessions[fd], env)
    {
      hide Inv, InvExcept, Rings, Handled, Tidy, Frame, Moves, Unarmed, Passed, Follows, Onward, Past, Due;
      GaveUpOk(cfg, st, fd);
      GaveUpEntry(cfg, st, fd);
      st := GaveUp(cfg, st, fd);
      var late := if EventOf(sessions[fd]) in env.timers then Some(sessions[fd].sequence) else None;
      sessions := sessions[fd := TimedOut(cfg, sessions[fd]).(active := false, expired := true, late := late)];
    }

    method Abandon(fd: int)
      requires Matches() && fd in sessions && Passed(cfg, st, fd)
      modifies this`sessions, this`eventToFd, this`env, this`mine, this`released, this`others, this`st
      ensures Valid() && fd !in sessions && Handled(old(st), st, fd) &&
        Undisturbed(old(|others|), |others|, old(env), env)
    {
      hide Inv, InvExcept, Rings, Handled, Tidy, Frame, Moves, Unarmed, Passed, Follows, Onward, Past, Due;
      var conn := sessions[fd].conn;
      AbandonedOk(cfg, st, fd);
      st := Abandoned(st, fd);
      sessions := sessions[fd := sessions[fd].(active := false)];
      HandledFacts(old(st), st, fd);
      ghost var between := st;
      Vanish(fd);
      FrameTransitive(old(st), between, st, fd);
      between := st;
      Release(conn, fd);
      FrameTransitive(old(st), between, st, fd);
      HandledWhenGone(old(st), st, fd);
    }

    /** Acts on a timeout only if it is the session's current deadline and that has passed.
        Afterwards a timeout that was due is nobody's deadline any more. */
    method HandleTimeoutEvent(x: T.Event)
      requires Valid()
      modifies this
      ensures Valid() && Handled(old(st), st, x.fd) && |io| <= old(|io|)
      ensures Undisturbed(old(|others|), |others|, old(env), env)
      ensures old(Due(st, x)) ==> Past(st, x)
      ensures x.fd !in old(sessions) || EventOf(old(sessions)[x.fd]) != x ==> sessions == old(sessions)
      ensures x.fd in sessions && EventOf(old(sessions)[x.fd]) == x && old(Due(st, x)) ==>
        AnsweredWith(old(sessions)[x.fd], sessions[x.fd], cfg.timeoutFrame)
    {
      hide Inv, InvExcept, Rings, Handled, Tidy, Frame, Moves, Unarmed, Passed, Follows, Onward, Past, Due;
      var fd := x.fd;
      Interfere(fd);
      ghost var between := st;
      HandledFacts(old(st), st, fd);
      PastStays(old(st), st, fd, x);
      var now := env.clock;
      if fd !in sessions || EventOf(sessions[fd]) != x || now < sessions[fd].at {
        NothingToDo(cfg, st, x);
        return;
      }
      SettledFacts(cfg, st, fd);
      Expire(fd);
      HandledTransitive(old(st), between, st, fd);
      HandledFacts(between, st, fd);
      PastAfter(cfg, between, st, fd, x);
    }

    /* Results of the workers. */

    // What came of a result, given what the loop saw when it looked at the clock: it became
    // the answer to the request it was made for, or the timeout frame did.
    ghost predicate Applied(e: Entry, moment: Env, c: M.Completion, request: nat)
      reads this
    {
      c.token.fd in sessions ==>
        if moment.clock < e.at then
          c.status == M.Response && AnsweredWith(e, sessions[c.token.fd], c.frame) &&
          (Task(c.token, request), c.frame) in st.given.Items
        else TimedOutAnswered(cfg, e, sessions[c.token.fd], moment)
    }

    /** A worker's result. One that does not match the loop, descriptor and generation of a
        session, or comes after its request has timed out, changes no session. Otherwise it
        is for the request in progress: the result for the k-th request becomes the k-th
        response, or the deadline was over and the timeout frame does, and then the session
        keeps a second timer exactly if the business timer had not left the core. During a
        drain the session takes up no further request. */
    method ApplyCompletion(c: M.Completion, ghost request: nat) returns (ghost moment: Env)
      requires Valid() && Current(st, c.token, request)
      modifies this
      ensures Valid() && Tidy(old(st), st, c.token.fd) && |io| <= old(|io|)
      ensures Undisturbed(old(|others|), |others|, old(env), env)
      ensures Unmatched(old(sessions), c.token) || old(sessions)[c.token.fd].expired ==> sessions == old(sessions)
      ensures !Unmatched(old(sessions), c.token) && !old(sessions)[c.token.fd].expired ==>
        Moves(cfg, old(mine), old(env), moment) && Applied(old(sessions)[c.token.fd], moment, c, request)
      ensures c.token.fd in sessions && old(env.drain) && Winding(old(sessions)[c.token.fd]) ==>
        Winding(sessions[c.token.fd]) && sessions[c.token.fd].life.requests == old(sessions)[c.token.fd].life.requests
    {
      hide Inv, InvExcept, Rings, Handled, Tidy, Frame, Moves, Unarmed, Passed, Follows, Onward, Past, Due;
      var fd := c.token.fd;
      Interfere(fd);
      moment := env;
      HandledFacts(old(st), st, fd);
      if fd !in sessions || sessions[fd].life.v.token != c.token || sessions[fd].expired {
        return;
      }
      ghost var between := st;
      SettledFacts(cfg, st, fd);
      if env.clock >= sessions[fd].at {
        Expire(fd);
        HandledFacts(between, st, fd);
      } else {
        DeliverResult(fd, c, request);
      }
      TidyTransitive(old(st), between, st, fd);
    }

    method DeliverResult(fd: int, c: M.Completion, ghost request: nat)
      requires AtWork(fd) && sessions[fd].life.v.phase.Processing? && NoTask(st, fd) && !sessions[fd].expired
      requires c.token == sessions[fd].life.v.token && request == |sessions[fd].life.responses| + 1
      modifies this
      ensures Valid() && Tidy(old(st), st, fd) && |io| <= old(|io|) &&
        Undisturbed(old(|others|), |others|, old(env), env)
      ensures fd in sessions ==> c.status == M.Response && AnsweredWith(old(sessions[fd]), sessions[fd], c.frame)
      ensures fd in sessions ==> (Task(c.token, request), c.frame) in st.given.Items
      ensures fd in sessions && old(env.drain) ==>
        Winding(sessions[fd]) && sessions[fd].life.requests == old(sessions[fd].life.requests)
    {
      hide Inv, InvExcept, Rings, Handled, Tidy, Frame, Moves, Unarmed, Passed, Follows, Onward, Past, Due;
      CancelDeadline(fd);
      HandledFacts(old(st), st, fd);
      FrameFacts(old(st), st, fd);
      ghost var between := st;
      if c.status != M.Response {
        Close(fd);
        HandledFacts(between, st, fd);
      } else {
        var answered := Answer(fd, c.token, c.frame, env.drain, Some(Task(c.token, request)));
      }
      TidyTransitive(old(st), between, st, fd);
    }

    /* The completion mailbox. */

    method PopCompletion() returns (c: M.Completion, ghost request: nat)
      requires Valid() && env.completions != []
      modifies this`env, this`st
      ensures Valid() && Goes(old(st), st) && Current(st, c.token, request) && c == old(env).completions[0]
      ensures env == old(env).(completions := old(env).completions[1..], tasks := env.tasks)
    {
      hide Inv, InvExcept, Rings, Handled, Tidy, Frame, Moves, Unarmed, Passed, Follows, Onward, Goes, Past, Due,
        AllWinding;
      TakenUpOk(cfg, st);
      TakenUpCurrent(cfg, st);
      c, request := env.completions[0], st.env.tasks[env.completions[0].token];
      TakenUpGoes(cfg, st);
      st := TakenUp(st);
      env := env.(completions := env.completions[1..], tasks := env.tasks - {c.token});
    }

    method NextCompletion() returns (more: bool)
      requires Valid()
      modifies this
      ensures Valid() && Goes(old(st), st) && |io| <= old(|io|) && |others| <= old(|others|)
      ensures |others| == old(|others|) ==> |env.completions| + (if more then 1 else 0) <= old(|env.completions|)
      ensures !more ==> env.completions == []
    {
      hide Inv, InvExcept, Rings, Handled, Tidy, Frame, Moves, Unarmed, Passed, Follows, Onward, Goes, Past, Due,
        AllWinding;
      Interfere(0);
      HandledGoes(cfg, old(st), st, 0);
      if env.completions == [] {
        return false;
      }
      ghost var between := st;
      var c;
      ghost var request;
      c, request := PopCompletion();
      GoesTransitive(old(st), between, st);
      between := st;
      ghost var moment := ApplyCompletion(c, request);
      TidyGoes(cfg, between, st, c.token.fd);
      GoesTransitive(old(st), between, st);
      return true;
    }

    // The signal of the completions or of the connections is read, and is off for now.
    method ReadSignal(done: bool)
      requires Valid()
      modifies this`env, this`others, this`st
      ensures Valid() && Onward(old(st), st) && st.inHand == old(st).inHand && mine == old(mine)
      ensures |others| <= old(|others|) && (old(Signalled(env)) ==> Signalled(env))
      ensures if done then old(NewRung(env)) ==> NewRung(env) else old(DoneRung(env)) ==> DoneRung(env)
    {
      hide Inv, InvExcept, Rings, Handled, Tidy, Frame, Moves, Unarmed, Passed, Follows, Onward, Goes, Past, Due,
        AllWinding;
      Interfere(0);
      HandledGoes(cfg, old(st), st, 0);
      GoesFacts(old(st), st);
      AlertsGo(old(st), st);
      SilencedOk(cfg, st, done);
      OnwardTransitive(old(st), st, Silenced(st, done));
      st := Silenced(st, done);
      env := if done then env.(doneWake := false) else env.(newWake := false);
    }

    // Every completion that is still there afterwards has woken the loop again.
    method DrainCompletions()
      requires Valid()
      modifies this
      ensures Valid() && Onward(old(st), st) && mine == old(mine) && st.inHand == old(st).inHand && |io| <= old(|io|)
      ensures DoneRung(env) && (old(Signalled(env)) ==> Signalled(env)) && (old(NewRung(env)) ==> NewRung(env))
    {
      hide Inv, InvExcept, Rings, Handled, Tidy, Frame, Moves, Unarmed, Passed, Follows, Onward, Goes, Past, Due,
        AllWinding;
      ReadSignal(true);
      ghost var quiet := st;
      var more := true;
      GoesItself(cfg, st);
      while more
        invariant Valid() && Goes(quiet, st) && |io| <= old(|io|) && (!more ==> env.completions == [])
        decreases |others|, |env.completions|, more
      {
        ghost var between := st;
        more := NextCompletion();
        GoesTransitive(quiet, between, st);
      }
      GoesFacts(quiet, st);
      AlertsGo(quiet, st);
      OnwardTransitive(old(st), quiet, st);
    }

    /* The timeout mailbox. */

    method DrainWakeSignal()
      requires Valid()
      modifies this`env, this`others, this`st
      ensures Valid() && Drains(old(st), st) && st.inHand == old(st).inHand && |others| <= old(|others|)
    {
      hide Inv, InvExcept, Rings, Handled, Tidy, Frame, Moves, Unarmed, Passed, Follows, Onward, Goes, Past, Due,
        AllWinding, Drains;
      Interfere(0);
      HandledDrains(cfg, old(st), st, 0);
      HandledFacts(old(st), st, 0);
      FrameFacts(old(st), st, 0);
      ghost var between := st;
      QuietedOk(cfg, st);
      QuietedDrains(cfg, st);
      env := env.(wake := false);
      st := Quieted(st);
      DrainsTransitive(cfg, old(st), between, st);
    }

    // One timeout out of the mailbox, unless it is empty now.
    method NextTimeout() returns (more: bool)
      requires Valid() && st.inHand == {}
      modifies this
      ensures Valid() && st.inHand == {} && Drains(old(st), st) && |io| <= old(|io|) && |others| <= old(|others|)
      ensures |others| == old(|others|) ==> |env.queue| + (if more then 1 else 0) <= old(|env.queue|)
      ensures !more ==> env.queue == []
    {
      hide Inv, InvExcept, Rings, Handled, Tidy, Frame, Moves, Unarmed, Passed, Follows, Onward, Goes, Past, Due,
        AllWinding, Drains;
      Interfere(0);
      HandledDrains(cfg, old(st), st, 0);
      HandledFacts(old(st), st, 0);
      FrameFacts(old(st), st, 0);
      if env.queue == [] {
        return false;
      }
      ghost var between := st;
      TakeAndHandle();
      DrainsTransitive(cfg, old(st), between, st);
      return true;
    }

    method TakeAndHandle()
      requires Valid() && st.inHand == {} && env.queue != []
      modifies this
      ensures Valid() && st.inHand == {} && Drains(old(st), st) && |io| <= old(|io|) && |others| <= old(|others|)
      ensures |others| == old(|others|) ==> |env.queue| < old(|env.queue|)
    {
      hide Inv, InvExcept, Rings, Handled, Tidy, Frame, Moves, Unarmed, Passed, Follows, Onward, Goes, Past, Due,
        AllWinding, Drains;
      TakenFirstOk(cfg, st);
      var x := env.queue[0];
      st := TakenFirst(st);
      env := env.(queue := env.queue[1..]);
      ghost var taken := st;
      HandleTimeoutEvent(x);
      HandledFacts(taken, st, x.fd);
      FrameFacts(taken, st, x.fd);
      OneHandled(cfg, old(st), st);
      PutDownOk(cfg, st);
      st := PutDown(st);
    }

    // Looks at every session's deadline instead of at the timeouts that found no room.
    method Rescan()
      requires Valid() && st.inHand == {} && env.queue == []
      modifies this
      ensures Valid() && st.inHand == {} && Drains(old(st), st) && Signalled(env) && |io| <= old(|io|)
      ensures forall x :: x in old(env).missed ==> Past(st, x)
    {
      hide Inv, InvExcept, Rings, Handled, Tidy, Frame, Moves, Unarmed, Passed, Follows, Onward, Goes, Past, Due,
        AllWinding, Drains, Rescans, Kept, Signalled;
      Interfere(0);
      HandledDrains(cfg, old(st), st, 0);
      HandledFacts(old(st), st, 0);
      FrameFacts(old(st), st, 0);
      NewcomersSignal(old(env), env);
      ghost var asked := st;
      var requested := TakeRescanRequest();
      if requested {
        HandleOverdue(asked);
      }
      RescanEnds(cfg, asked, st);
      st := PutDown(st);
      DrainsTransitive(cfg, old(st), asked, st);
    }

    // What only raised the flag is in the loop's hands now.
    method TakeRescanRequest() returns (requested: bool)
      requires Valid() && st.inHand == {}
      modifies this`env, this`st
      ensures Valid() && Rescans(old(st), st) && (!requested ==> st.inHand == {})
    {
      hide Inv, InvExcept, Rings, Handled, Tidy, Frame, Moves, Unarmed, Passed, Follows, Onward, Goes, Past, Due,
        AllWinding, Drains, Rescans, Kept, Signalled;
      RescanBegins(cfg, st);
      requested := env.rescan;
      st := TakenRescan(st);
      env := env.(rescan := false, missed := {});
    }

    method HandleOverdue(ghost asked: State)
      requires Valid() && Rescans(asked, st)
      modifies this
      ensures Valid() && Rescans(asked, st) && |io| <= old(|io|) && forall x :: x in st.inHand ==> Past(st, x)
    {
      hide Inv, InvExcept, Rings, Handled, Tidy, Frame, Moves, Unarmed, Passed, Follows, Onward, Goes, Past, Due,
        AllWinding, Drains, Rescans;
      Interfere(0);
      RescanGoesOn(cfg, asked, old(st), st, 0);
      AllOverdue(cfg, asked, st);
      var overdue :=
        set fd | fd in sessions && sessions[fd].active && sessions[fd].at <= env.clock :: EventOf(sessions[fd]);
      while overdue != {}
        invariant Valid() && Rescans(asked, st) && |io| <= old(|io|)
        invariant forall x :: x in overdue ==> Due(st, x)
        invariant forall x :: x in st.inHand ==> Past(st, x) || x in overdue
        decreases |overdue|
      {
        var x :| x in overdue;
        ghost var before := st;
        HandleTimeoutEvent(x);
        RescanGoesOn(cfg, asked, before, st, x.fd);
        HandledFacts(before, st, x.fd);
        FrameFacts(before, st, x.fd);
        forall y ensures (Past(before, y) ==> Past(st, y)) && (Due(before, y) ==> Due(st, y)) {
          PastStays(before, st, x.fd, y);
        }
        overdue := overdue - {x};
      }
    }

    /** A full drain of the timeout mailbox, with the timer thread posting all the while:
        every timeout it had accepted when the drain began has been handled, also those that
        only raised the rescan flag because it was full. What came in during the drain is in
        the mailbox or flagged, and the loop has been woken for it; so no session waits for a
        deadline that has left the core without being under way, but for one whose post the
        mailbox refused. */
    method DrainTimeouts()
      requires Valid() && st.inHand == {}
      modifies this
      ensures Valid() && st.inHand == {} && Drains(old(st), st) && Signalled(env) && |io| <= old(|io|)
      ensures forall x :: x in old(env).queue || x in old(env).missed ==> Past(st, x)
      ensures forall fd :: fd in sessions ==> EventOf(sessions[fd]) in env.timers || Travels(env, EventOf(sessions[fd]))
    {
      hide Inv, InvExcept, Rings, Handled, Tidy, Frame, Moves, Unarmed, Passed, Follows, Onward, Goes, Past, Due,
        AllWinding, Drains, Rescans;
      DrainWakeSignal();
      var more := true;
      while more
        invariant Valid() && st.inHand == {} && Drains(old(st), st) && |io| <= old(|io|)
        invariant !more ==> env.queue == []
        decreases |others|, |env.queue|, more
      {
        ghost var before := st;
        more := NextTimeout();
        DrainsTransitive(cfg, old(st), before, st);
      }
      ghost var drained := st;
      Rescan();
      DrainedIsPast(cfg, old(st), drained, st);
      DrainsTransitive(cfg, old(st), drained, st);
      NothingIsLost(cfg, st);
    }

    /* New connections. */

    // The session enters the tables, before epoll and the scheduler have had their say.
    method Register(fd: int, conn: nat)
      requires Matches() && MayAdopt(cfg, st, fd, conn)
      modifies this`sessions, this`eventToFd, this`nextGeneration, this`env, this`mine, this`st
      ensures AtWork(fd) && st == Adopted(cfg, old(st), fd, conn) && Onward(old(st), st)
      ensures sessions[fd] == Newborn(cfg, fd, old(nextGeneration), conn)
    {
      hide Inv, InvExcept, Rings, Handled, Tidy, Frame, Moves, Unarmed, Passed, Follows, Onward, Goes, Past, Due,
        AllWinding, Drains, Rescans, MayAdopt, Around;
      AdoptedOk(cfg, st, fd, conn);
      AdoptedOnward(cfg, st, fd, conn);
      st := Adopted(cfg, st, fd, conn);
      sessions := sessions[fd := Newborn(cfg, fd, nextGeneration, conn)];
      eventToFd := eventToFd[nextGeneration := fd];
      nextGeneration := Generation(nextGeneration);
      env := env.(group := Shifted(cfg, env.group, L.Adopt(conn, true)));
      mine := mine - {conn};
    }

    // Adds the socket to epoll and arms its first deadline.
    method Enlist(fd: int) returns (status: Status)
      requires AtWork(fd) && S.Open(sessions[fd].life.v)
      modifies this`sessions, this`eventToFd, this`env, this`mine, this`released, this`others, this`st
      ensures Valid() && Frame(old(st), st, fd) && popped == old(popped) && released == old(released)
      ensures status == Ok || status == SystemCallFailed || status == TimerScheduleFailed
      ensures if status == Ok then fd in sessions && sessions[fd].life == old(sessions[fd].life) && mine == old(mine)
        else fd !in sessions && mine == old(mine) + {old(sessions[fd].conn)} &&
             L.At(env.group, old(sessions[fd].conn), L.Leaving(cfg.loop))
      ensures Undisturbed(old(|others|), |others|, old(env), env)
    {
      hide Inv, InvExcept, Rings, Handled, Tidy, Frame, Moves, Unarmed, Passed, Follows, Onward, Goes, Past, Due,
        AllWinding, Drains, Rescans, MayAdopt, Around;
      var added: bool := *;
      if !added {
        CloseSession(fd, false);
        return SystemCallFailed;
      }
      var armed := SyncDeadline(fd);
      HandledFacts(old(st), st, fd);
      if !armed {
        ghost var between := st;
        FrameFacts(old(st), st, fd);
        CloseSession(fd, false);
        FrameTransitive(old(st), between, st, fd);
        return TimerScheduleFailed;
      }
      return Ok;
    }

    /** Takes a popped connection over under a generation that was never used before. It
        becomes a session, or is left in hand for the caller to release, whatever the
        reason; no other session is touched. */
    method Adopt(fd: int, conn: nat) returns (status: Status)
      requires Valid() && conn in mine && L.At(env.group, conn, L.Adopting(cfg.loop))
      modifies this`sessions, this`eventToFd, this`nextGeneration, this`env, this`mine, this`released, this`others,
        this`st
      ensures Valid() && Onward(old(st), st) && Around(old(st), st, fd) && released == old(released)
      ensures Undisturbed(old(|others|), |others|, old(env), env)
      ensures status == InvalidArgument <==> fd < 0
      ensures status == AlreadyRegistered <==> 0 <= fd && fd in old(sessions)
      ensures status == ConnectionLimit <==> 0 <= fd && fd !in old(sessions) && |old(sessions)| >= cfg.maxConnections
      ensures status == GenerationExhausted <==>
        0 <= fd && fd !in old(sessions) && |old(sessions)| < cfg.maxConnections && old(nextGeneration) == 0
      ensures cfg.group.maxPerLoop <= cfg.maxConnections ==> status != ConnectionLimit
      ensures status == Ok ==>
        fd in sessions && sessions[fd].life.v == S.Fresh(S.Token(cfg.loop, fd, old(nextGeneration))) &&
        old(nextGeneration) !in old(st).used && old(nextGeneration) in st.used && mine == old(mine) - {conn}
      ensures status != Ok ==> mine == old(mine) && L.At(env.group, conn, L.Leaving(cfg.loop))
      ensures status != Ok && fd !in old(sessions) ==> fd !in sessions
      ensures status != Ok && fd in old(sessions) ==> fd in sessions && sessions[fd] == old(sessions)[fd]
    {
      hide Inv, InvExcept, Rings, Handled, Tidy, Frame, Moves, Unarmed, Passed, Follows, Onward, Goes, Past, Due,
        AllWinding, Drains, Rescans, MayAdopt, Around, Kept, Undisturbed;
      RoomFor(cfg, st, conn);
      status := Examine(fd);
      if status != Ok {
        Refuse(conn, fd);
      } else {
        status := Admit(fd, conn);
      }
    }

    // What speaks against a new session, in this order.
    method Examine(fd: int) returns (status: Status)
      ensures status == InvalidArgument <==> fd < 0
      ensures status == AlreadyRegistered <==> 0 <= fd && fd in sessions
      ensures status == ConnectionLimit <==> 0 <= fd && fd !in sessions && |sessions| >= cfg.maxConnections
      ensures status == GenerationExhausted <==>
        0 <= fd && fd !in sessions && |sessions| < cfg.maxConnections && nextGeneration == 0
      ensures status == Ok <==> 0 <= fd && fd !in sessions && |sessions| < cfg.maxConnections && nextGeneration != 0
    {
      if fd < 0 {
        return InvalidArgument;
      }
      if fd in sessions {
        return AlreadyRegistered;
      }
      if |sessions| >= cfg.maxConnections {
        return ConnectionLimit;
      }
      return if nextGeneration == 0 then GenerationExhausted else Ok;
    }

    method Admit(fd: int, conn: nat) returns (status: Status)
      requires Valid() && conn in mine && L.At(env.group, conn, L.Adopting(cfg.loop))
      requires 0 <= fd && fd !in sessions && nextGeneration != 0
      modifies this`sessions, this`eventToFd, this`nextGeneration, this`env, this`mine, this`released, this`others,
        this`st
      ensures Valid() && Onward(old(st), st) && Around(old(st), st, fd) && released == old(released)
      ensures Undisturbed(old(|others|), |others|, old(env), env)
      ensures status == Ok || status == SystemCallFailed || status == TimerScheduleFailed
      ensures old(nextGeneration) !in old(st).used && old(nextGeneration) in st.used
      ensures status == Ok ==>
        fd in sessions && sessions[fd].life.v == S.Fresh(S.Token(cfg.loop, fd, old(nextGeneration)))
      ensures status == Ok ==> mine == old(mine) - {conn}
      ensures status != Ok ==> fd !in sessions && mine == old(mine) && L.At(env.group, conn, L.Leaving(cfg.loop))
    {
      hide Inv, InvExcept, Rings, Handled, Tidy, Frame, Moves, Unarmed, Passed, Follows, Onward, Goes, Past, Due,
        AllWinding, Drains, Rescans, MayAdopt, Around;
      ghost var before := st;
      MayAdoptNow(cfg, st, fd, conn);
      Register(fd, conn);
      ghost var between := st;
      status := Enlist(fd);
      FrameOnward(cfg, between, st, fd);
      OnwardTransitive(before, between, st);
      AdoptedAround(cfg, before, st, fd, conn);
    }

    method Refuse(conn: nat, ghost fd: int)
      requires Valid() && conn in mine && L.At(env.group, conn, L.Adopting(cfg.loop))
      modifies this`env, this`st
      ensures Valid() && Onward(old(st), st) && Around(old(st), st, fd) && L.At(env.group, conn, L.Leaving(cfg.loop))
      ensures Undisturbed(|others|, |others|, old(env), env)
    {
      hide Inv, InvExcept, Rings, Handled, Tidy, Frame, Moves, Unarmed, Passed, Follows, Onward, Goes, Past, Due,
        AllWinding, Drains, Rescans, MayAdopt, Around;
      RefusedOk(cfg, st, conn, fd);
      FrameOnward(cfg, st, Refused(cfg, st, conn), fd);
      FrameAround(st, Refused(cfg, st, conn), fd);
      st := Refused(cfg, st, conn);
      env := env.(group := Shifted(cfg, env.group, L.Adopt(conn, false)));
    }

    method PopRegistration() returns (r: Registration)
      requires Valid() && env.registrations != []
      modifies this`env, this`mine, this`popped, this`st
      ensures Valid() && Onward(old(st), st) && r == old(env).registrations[0] && st.inHand == old(st).inHand
      ensures r.conn !in old(mine) && mine == old(mine) + {r.conn} && L.At(env.group, r.conn, L.Adopting(cfg.loop))
      ensures env == old(env).(group := env.group, registrations := old(env).registrations[1..])
      ensures Kept(old(env), env)
    {
      hide Inv, InvExcept, Rings, Handled, Tidy, Frame, Moves, Unarmed, Passed, Follows, Onward, Goes, Past, Due,
        AllWinding, Drains, Rescans, MayAdopt, Around;
      PoppedOk(cfg, st, 0);
      PoppedOnward(cfg, st);
      r := env.registrations[0];
      st := PoppedOne(cfg, st);
      env := env.(group := Shifted(cfg, env.group, L.Pop(r.conn)), registrations := env.registrations[1..]);
      mine, popped := mine + {r.conn}, popped + 1;
    }

    method NextConnection() returns (more: bool)
      requires Valid()
      modifies this
      ensures Valid() && Onward(old(st), st) && mine == old(mine) && st.inHand == old(st).inHand && Kept(old(env), env)
      ensures |io| <= old(|io|) && |others| <= old(|others|)
      ensures |others| == old(|others|) ==> |env.registrations| + (if more then 1 else 0) <= old(|env.registrations|)
      ensures !more ==> env.registrations == []
    {
      hide Inv, InvExcept, Rings, Handled, Tidy, Frame, Moves, Unarmed, Passed, Follows, Onward, Goes, Past, Due,
        AllWinding, Drains, Rescans, MayAdopt, Around;
      Interfere(0);
      HandledGoes(cfg, old(st), st, 0);
      GoesFacts(old(st), st);
      if env.registrations == [] {
        return false;
      }
      ghost var between := st;
      AdoptNext();
      OnwardTransitive(old(st), between, st);
      KeptTransitive(old(env), between.env, env);
      return true;
    }

    // Whatever comes of the adoption, the connection is a session or released afterwards.
    method AdoptNext()
      requires Valid() && env.registrations != []
      modifies this
      ensures Valid() && Onward(old(st), st) && mine == old(mine) && st.inHand == old(st).inHand && Kept(old(env), env)
      ensures io == old(io) && |others| <= old(|others|)
      ensures |others| == old(|others|) ==> |env.registrations| < old(|env.registrations|)
    {
      hide Inv, InvExcept, Rings, Handled, Tidy, Frame, Moves, Unarmed, Passed, Follows, Onward, Goes, Past, Due,
        AllWinding, Drains, Rescans, MayAdopt, Around;
      var r := PopRegistration();
      ghost var between := st;
      var status := Adopt(r.fd, r.conn);
      OnwardTransitive(old(st), between, st);
      AroundFacts(between, st, r.fd);
      KeptTransitive(old(env), between.env, env);
      if status != Ok {
        between := st;
        Release(r.conn, r.fd);
        FrameOnward(cfg, between, st, r.fd);
        OnwardTransitive(old(st), between, st);
        FrameFacts(between, st, r.fd);
        KeptTransitive(old(env), between.env, env);
      }
    }

    // Every connection that is still queued afterwards has woken the loop again.
    method DrainConnections()
      requires Valid()
      modifies this
      ensures Valid() && Onward(old(st), st) && mine == old(mine) && st.inHand == old(st).inHand && |io| <= old(|io|)
      ensures NewRung(env) && (old(Signalled(env)) ==> Signalled(env)) && (old(DoneRung(env)) ==> DoneRung(env))
    {
      hide Inv, InvExcept, Rings, Handled, Tidy, Frame, Moves, Unarmed, Passed, Follows, Onward, Goes, Past, Due,
        AllWinding, Drains, Rescans, MayAdopt, Around;
      ReadSignal(false);
      ghost var quiet := st;
      KeptItself(env);
      var more := true;
      while more
        invariant Valid() && Onward(old(st), st) && mine == old(mine) && st.inHand == old(st).inHand
        invariant Kept(quiet.env, env) && |io| <= old(|io|) && (!more ==> env.registrations == [])
        decreases |others|, |env.registrations|, more
      {
        ghost var before := st;
        more := NextConnection();
        OnwardTransitive(old(st), before, st);
        KeptTransitive(quiet.env, before.env, env);
      }
      KeptAlerts(quiet.env, env);
    }

    /* Socket events. */

    /** A socket event carries the generation it was registered with: it reaches the session
        of that generation or none. A broken connection goes, one that does not want to read
        is not read from, and what a reading one receives reaches its session. */
    method HandleSocketEvent(r: Ready)
      requires Valid()
      modifies this
      ensures Valid() && Goes(old(st), st) && |io| <= old(|io|)
      ensures r.generation !in old(eventToFd) ==> st == old(st)
      ensures r.generation in old(eventToFd) ==>
        var fd := old(eventToFd)[r.generation];
        Handled(old(st), st, fd) &&
        (if r.broken then fd !in sessions else Served(old(sessions)[fd], old(io), fd, r, old(st)))
    {
      hide Inv, InvExcept, Rings, Handled, Tidy, Frame, Moves, Unarmed, Passed, Follows, Onward, Goes, Past, Due,
        AllWinding, Drains, Rescans, MayAdopt, Around;
      GoesItself(cfg, st);
      if r.generation !in eventToFd {
        return;
      }
      var fd := eventToFd[r.generation];
      ListedIsThere(cfg, st, r.generation);
      if r.broken {
        InvToExcept(cfg, st, fd);
        Close(fd);
      } else {
        Serve(fd, r);
      }
      HandledGoes(cfg, old(st), st, fd);
    }

    ghost predicate Served(before: Entry, script: seq<Io>, fd: int, r: Ready, was: State)
      reads this
    {
      (!r.peerClosed && !r.writable && !S.WantsRead(cfg.session, before.life.v) ==> st == was && io == script) &&
      (r.readable && S.WantsRead(cfg.session, before.life.v) && script != [] && fd in sessions ==>
        Read(before, script[0], sessions[fd]))
    }

    method Serve(fd: int, r: Ready)
      requires Valid() && fd in sessions
      modifies this
      ensures Valid() && Handled(old(st), st, fd) && |io| <= old(|io|)
      ensures Served(old(sessions[fd]), old(io), fd, r, old(st))
    {
      hide Inv, InvExcept, Rings, Handled, Tidy, Frame, Moves, Unarmed, Passed, Follows, Onward, Goes, Past, Due,
        AllWinding, Drains, Rescans, MayAdopt, Around;
      HandledItself(st, fd);
      SettledFacts(cfg, st, fd);
      if r.peerClosed || (r.readable && S.WantsRead(cfg.session, sessions[fd].life.v)) {
        HandleRead(fd, r.peerClosed);
      }
      if fd in sessions && r.writable {
        ghost var between := st;
        SettledFacts(cfg, st, fd);
        HandleWrite(fd);
        HandledTransitive(old(st), between, st, fd);
        HandledFacts(between, st, fd);
        FrameFacts(between, st, fd);
      }
    }

    /* Shutting down. */

    // A reading session goes at once; one that writes may finish its answer.
    method DrainSession(fd: int)
      requires Valid() && fd in sessions
      modifies this
      ensures Valid() && Goes(old(st), st) && Tidy(old(st), st, fd) && |io| <= old(|io|)
      ensures fd in sessions ==> Winding(sessions[fd])
    {
      hide Inv, InvExcept, Rings, Handled, Tidy, Frame, Moves, Unarmed, Passed, Follows, Onward, Goes, Past, Due,
        AllWinding, Drains, Rescans, MayAdopt, Around;
      SettledFacts(cfg, st, fd);
      HandledItself(st, fd);
      if sessions[fd].life.v.phase == S.Reading {
        Close(fd);
      } else if sessions[fd].life.v.phase == S.Writing {
        MarkLast(fd);
        ghost var between := st;
        HandledTransitive(old(st), old(st), between, fd);
        HandleWrite(fd);
        HandledTransitive(old(st), between, st, fd);
        HandledFacts(between, st, fd);
      }
      HandledFacts(old(st), st, fd);
      HandledGoes(cfg, old(st), st, fd);
    }

    method MarkLast(fd: int)
      requires Valid() && fd in sessions && sessions[fd].life.v.phase.Writing?
      modifies this`sessions, this`st
      ensures Mid(fd) && Handled(old(st), st, fd) && fd in sessions && Winding(sessions[fd])
    {
      hide Inv, InvExcept, Rings, Handled, Tidy, Frame, Moves, Unarmed, Passed, Follows, Onward, Goes, Past, Due,
        AllWinding, Drains, Rescans, MayAdopt, Around;
      SettledFacts(cfg, st, fd);
      LastAnswerFollows(cfg, st, fd, S.LocalShutdown);
      var e := Stepped(cfg, sessions[fd], R.CloseAfter(S.LocalShutdown));
      WithEntryOk(cfg, st, fd, e);
      SetEntry(fd, e);
      TidyEntry(old(st), st, fd);
      SameTokens(cfg, old(st), fd, e);
      ContinuesItself(e, e);
      HandledByStep(old(st), e, st, fd);
      SettledAgain(cfg, st, fd);
    }

    /** Once a drain has been requested, only requests in progress and last answers are left
        afterwards: no session can take up another request. */
    method ApplyGracefulDrain()
      requires Valid()
      modifies this
      ensures Valid() && Onward(old(st), st) && mine == old(mine) && st.inHand == old(st).inHand && |io| <= old(|io|)
      ensures Alerts(old(env), env)
      ensures old(env.drain) ==> AllWinding(st)
    {
      hide Inv, InvExcept, Rings, Handled, Tidy, Frame, Moves, Unarmed, Passed, Follows, Onward, Goes, Past, Due,
        AllWinding, Drains, Rescans, MayAdopt, Around;
      Interfere(0);
      HandledGoes(cfg, old(st), st, 0);
      if !env.drain {
        GoesFacts(old(st), st);
        AlertsGo(old(st), st);
        return;
      }
      var descriptors := sessions.Keys;
      while descriptors != {}
        invariant Valid() && Goes(old(st), st) && |io| <= old(|io|) && WindingBut(st, descriptors)
        decreases |descriptors|
      {
        HasMember(descriptors);
        var fd :| fd in descriptors;
        ghost var before := st;
        if fd in sessions {
          DrainSession(fd);
          GoesTransitive(old(st), before, st);
          TidyFacts(before, st, fd);
          OneLessToDrain(before, st, fd, descriptors);
        }
        descriptors := descriptors - {fd};
      }
      NoneToDrain(st);
      GoesFacts(old(st), st);
      AlertsGo(old(st), st);
    }

    // The mailboxes refuse from now on, and what they held is dropped.
    method CloseMailboxes()
      requires Valid() && mine == {}
      modifies this`env, this`mine, this`popped, this`others, this`st
      ensures Valid() && !env.open && st.inHand == old(st).inHand
      ensures forall c :: c in mine ==> L.At(env.group, c, L.Leaving(cfg.loop))
    {
      hide Inv, InvExcept, Rings, Handled, Tidy, Frame, Moves, Unarmed, Passed, Follows, Onward, Goes, Past, Due,
        AllWinding, Drains, Rescans, MayAdopt, Around;
      Interfere(0);
      HandledFacts(old(st), st, 0);
      FrameFacts(old(st), st, 0);
      ShutOk(cfg, st);
      st := Shut(st);
      env := env.(open := false, queue := [], rescan := false, missed := {}, completions := [],
                  failed := env.failed + env.missed + (set x | x in env.queue));
      DiscardRegistrations();
    }

    method DiscardRegistrations()
      requires Valid() && mine == {}
      modifies this`env, this`mine, this`popped, this`st
      ensures Valid() && env.open == old(env.open) && st.inHand == old(st).inHand
      ensures forall c :: c in mine ==> L.At(env.group, c, L.Leaving(cfg.loop))
    {
      hide Inv, InvExcept, Rings, Handled, Tidy, Frame, Moves, Unarmed, Passed, Follows, Onward, Goes, Past, Due,
        AllWinding, Drains, Rescans, MayAdopt, Around;
      DiscardedOk(cfg, st, 0);
      st := Discarded(cfg, st);
      mine, popped := mine + Registered(env.registrations), popped + |env.registrations|;
      env := env.(group := Shifted(cfg, env.group, L.CloseMailbox(cfg.loop)), registrations := []);
    }

    // One release for each connection that was still waiting.
    method ReleaseDiscarded()
      requires Valid() && !env.open && forall c :: c in mine ==> L.At(env.group, c, L.Leaving(cfg.loop))
      modifies this`env, this`mine, this`released, this`others, this`st
      ensures Valid() && !env.open && mine == {} && st.inHand == old(st).inHand
    {
      hide Inv, InvExcept, Rings, Handled, Tidy, Frame, Moves, Unarmed, Passed, Follows, Onward, Goes, Past, Due,
        AllWinding, Drains, Rescans, MayAdopt, Around;
      while mine != {}
        invariant Valid() && !env.open && st.inHand == old(st).inHand
        invariant forall c :: c in mine ==> L.At(env.group, c, L.Leaving(cfg.loop))
        decreases |mine|
      {
        var c :| c in mine;
        ghost var before := st;
        Release(c, 0);
        FrameFacts(before, st, 0);
      }
    }

    /** Nothing is left: no session, no generation in the table, no connection that is not
        given back, and no timer in the core but those whose deadline had been handled first. */
    method ForceShutdown()
      requires Valid() && mine == {}
      modifies this
      ensures Valid() && sessions == map[] && eventToFd == map[] && mine == {} && popped == released && !env.open
      ensures forall x :: x in env.timers ==> x in st.strays
    {
      hide Inv, InvExcept, Rings, Handled, Tidy, Frame, Moves, Unarmed, Passed, Follows, Onward, Goes, Past, Due,
        AllWinding, Drains, Rescans, MayAdopt, Around;
      CloseMailboxes();
      ReleaseDiscarded();
      while sessions != map[]
        invariant Valid() && mine == {} && !env.open
        decreases |sessions|
      {
        HasMember(sessions.Keys);
        var fd :| fd in sessions.Keys;
        InvToExcept(cfg, st, fd);
        ghost var before := st;
        Close(fd);
        HandledFacts(before, st, fd);
        FrameFacts(before, st, fd);
        OneSessionLess(before, st, fd);
      }
      NobodyLeft(cfg, st);
    }

    /* Turns of the loop. */

    method DrainMailboxes()
      requires Valid() && mine == {} && st.inHand == {}
      modifies this
      ensures Valid() && mine == {} && st.inHand == {} && Onward(old(st), st) && Awake(env) && |io| <= old(|io|)
      ensures old(env.drain) ==> AllWinding(st)
    {
      hide Inv, InvExcept, Rings, Handled, Tidy, Frame, Moves, Unarmed, Passed, Follows, Onward, Goes, Past, Due,
        AllWinding, Drains, Rescans, MayAdopt, Around;
      DrainCompletions();
      ghost var between := st;
      DrainTimeouts();
      DrainsFacts(between, st);
      OnwardTransitive(old(st), between, st);
      between := st;
      DrainConnections();
      OnwardTransitive(old(st), between, st);
      between := st;
      ApplyGracefulDrain();
      OnwardTransitive(old(st), between, st);
      OnwardDrain(old(st), between);
    }

    /** One turn: every ready socket is served and every wake-up drains the mailboxes. Over
        any number of turns a generation stands for the same session, and no connection stays
        in the loop's hands. */
    method PollOnce(events: seq<Ready>)
      requires Valid() && mine == {} && st.inHand == {} && Awake(env)
      modifies this
      ensures Valid() && mine == {} && st.inHand == {} && Awake(env) && Onward(old(st), st)
      ensures old(env.drain && AllWinding(st)) ==> AllWinding(st)
    {
      hide Inv, InvExcept, Rings, Handled, Tidy, Frame, Moves, Unarmed, Passed, Follows, Onward, Goes, Past, Due,
        AllWinding, Drains, Rescans, MayAdopt, Around;
      GoesItself(cfg, st);
      GoesFacts(st, st);
      for i := 0 to |events|
        invariant Valid() && mine == {} && st.inHand == {} && Awake(env) && Onward(old(st), st)
        invariant old(env.drain && AllWinding(st)) ==> AllWinding(st)
      {
        ghost var before := st;
        OnwardDrain(old(st), st);
        if events[i].generation == 0 {
          DrainMailboxes();
        } else {
          HandleSocketEvent(events[i]);
          GoesFacts(before, st);
          AlertsGo(before, st);
          WindingGoes(before, st);
        }
        OnwardTransitive(old(st), before, st);
      }
    }

    /** The life of a loop, from any moment between two turns to its shutdown. */
    method Live(turns: seq<seq<Ready>>)
      requires Valid() && mine == {} && st.inHand == {} && Awake(env)
      modifies this
      ensures Valid() && sessions == map[] && mine == {} && popped == released
      ensures forall x :: x in env.timers ==> x in st.strays
    {
      hide Inv, InvExcept, Rings, Handled, Tidy, Frame, Moves, Unarmed, Passed, Follows, Onward, Goes, Past, Due,
        AllWinding, Drains, Rescans, MayAdopt, Around;
      for i := 0 to |turns|
        invariant Valid() && mine == {} && st.inHand == {} && Awake(env)
      {
        PollOnce(turns[i]);
      }
      ForceShutdown();
    }
  }

  /** A new loop among any other threads, any number of turns, and the shutdown: no session is
      left, and every connection it ever took over was given back once. */
  method WholeLife(cfg: Config, group: L.State, io: seq<Io>, others: seq<seq<Other>>, turns: seq<seq<Ready>>)
    returns (loop: Loop)
    requires S.ValidConfig(cfg.session) && cfg.loop < cfg.group.loops && L.Inv(cfg.group, group)
    requires L.OpenSet(group.conns, cfg.loop) == {} && L.QueuedSet(group.conns, cfg.loop) == {}
    requires forall c :: !L.At(group, c, L.Adopting(cfg.loop))
    ensures fresh(loop) && loop.Valid() && loop.sessions == map[] && loop.mine == {} && loop.popped == loop.released
    ensures forall x :: x in loop.env.timers ==> x in loop.st.strays
  {
    loop := new Loop(cfg, group, io, others);
    loop.Live(turns);
  }

  lemma HasMember(s: set<int>)
    requires s != {}
    ensures exists x :: x in s
  {
    assert (forall x :: x !in s) ==> s == {};
  }
}
