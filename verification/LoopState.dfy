/** The tables of an event loop, everything it shares with other threads, and what ties
    them together: sessions and generations, the byte streams of each session, its one
    armed deadline, the timers and timeouts that are under way, the business tasks still
    out, and the connections the loop has to release. */
module LoopState {
  import opened Wrappers
  import opened FrameCodec
  import L = ConnectionLoad
  import M = Mailboxes
  import R = SessionRuns
  import S = Session
  import T = TimerSpec

  const MAX_COUNT: nat := 0xFFFF_FFFF_FFFF_FFFF

  datatype Config = Config(
    loop: nat,
    maxConnections: nat,
    session: S.Config,
    idleMs: nat,
    readMs: nat,
    writeMs: nat,
    businessMs: nat,
    overloadFrame: Bytes,
    timeoutFrame: Bytes,
    completionSlots: nat,
    completionBytes: nat,
    maxCompletionBytes: nat,
    group: L.Config)

  // A session with its history, the bytes that recv delivered and send took on its socket,
  // and its deadline; expired is business_expired, late the number of a business deadline
  // that was handled before its timer had fired, conn the connection the group counts.
  datatype Entry = Entry(
    life: R.Trace,
    received: Bytes,
    sent: Bytes,
    sequence: nat,
    kind: T.EventKind,
    at: int,
    active: bool,
    expired: bool,
    late: Option<nat>,
    conn: nat)

  datatype Registration = Registration(fd: int, conn: nat)

  // What the loop shares with the timer thread, the workers and the dispatcher.
  datatype Env = Env(
    timers: map<T.Event, int>,  // in the timer core: neither cancelled nor taken
    taken: set<T.Event>,        // taken by the timer thread, about to be posted
    queue: seq<T.Event>,        // timeout mailbox
    rescan: bool,
    missed: set<T.Event>,       // accepted by raising the rescan flag
    wake: bool,                 // the timeout mailbox's eventfd is signalled
    failed: set<T.Event>,       // posts that were not accepted: no wake-up, or mailbox closed
    tasks: map<S.Token, nat>,   // requests at the pool: session and number
    completions: seq<M.Completion>,
    registrations: seq<Registration>,
    open: bool,                 // the mailboxes accept
    group: L.State,
    drain: bool,
    clock: int,
    doneWake: bool,             // the completion mailbox's eventfd
    newWake: bool)              // the registration mailbox's eventfd

  datatype Task = Task(token: S.Token, request: nat)

  datatype State = State(
    sessions: map<int, Entry>,
    eventToFd: map<nat, int>,
    nextGeneration: nat,         // 0 once exhausted
    used: set<nat>,              // generations ever handed out
    inHand: set<T.Event>,        // timeouts taken out of the mailbox, being handled
    strays: set<T.Event>,        // deadlines that were handled before their timer had fired
    env: Env,
    ended: map<nat, R.Trace>,    // what became of the sessions that are gone
    given: map<Task, Bytes>,     // results of workers that were taken as answers
    mine: set<nat>,              // connections popped, and neither a session nor released
    popped: nat,
    released: nat,
    standard: set<Bytes>)        // the loop's own answers: overload and timeout

  /* Deadlines. */

  // The deadline a session's state calls for.
  function KindFor(v: S.View): T.EventKind {
    match v.phase
    case Processing => T.BusinessTimeout
    case Writing => T.WriteTimeout
    case Reading => if S.BufferedInput(v) == 0 then T.IdleTimeout else T.ReadTimeout
    case _ => T.IdleTimeout
  }

  function TimeoutFor(cfg: Config, kind: T.EventKind): nat {
    match kind
    case IdleTimeout => cfg.idleMs
    case ReadTimeout => cfg.readMs
    case WriteTimeout => cfg.writeMs
    case BusinessTimeout => cfg.businessMs
    case _ => 0
  }

  // The deadline was set by a clock read within the given time, as long ahead as the phase and
  // the input that is waiting for the rest of its frame allow.
  predicate SetWithin(cfg: Config, e: Entry, earliest: int, latest: int) {
    match e.life.v.phase
    case Processing => earliest <= e.at - cfg.businessMs <= latest
    case Writing => earliest <= e.at - cfg.writeMs <= latest
    case Reading =>
      if S.BufferedInput(e.life.v) > 0 then earliest <= e.at - cfg.readMs <= latest
      else earliest <= e.at - cfg.idleMs <= latest
    case _ => false
  }

  // The timer core holds the deadline, with its time.
  predicate InCore(env: Env, e: Entry) {
    EventOf(e) in env.timers && env.timers[EventOf(e)] == e.at
  }

  lemma SetNow(cfg: Config, e: Entry, now: int, earliest: int, latest: int)
    requires S.Open(e.life.v) && earliest <= now <= latest && e.at == now + TimeoutFor(cfg, KindFor(e.life.v))
    ensures SetWithin(cfg, e, earliest, latest)
  {}

  lemma SetWithinLonger(cfg: Config, e: Entry, earliest: int, latest: int, before: int)
    requires SetWithin(cfg, e, earliest, latest) && before <= earliest
    ensures SetWithin(cfg, e, before, latest)
  {}

  // As long as the core holds an armed deadline, it holds it with the time that was set.
  lemma ArmedTime(cfg: Config, s: State, fd: int)
    requires fd in s.sessions && s.sessions[fd].active && Loose(cfg, s, fd)
    ensures EventOf(s.sessions[fd]) in s.env.timers ==> InCore(s.env, s.sessions[fd])
  {}

  function GenerationOf(e: Entry): nat {
    e.life.v.token.generation
  }

  // The event that the entry's current deadline will deliver.
  function EventOf(e: Entry): T.Event {
    T.Event(e.kind, e.life.v.token.loop, e.life.v.token.fd, e.life.v.token.generation, e.sequence)
  }

  // The business deadline that was handled before its timer had fired.
  function LateEvent(e: Entry): T.Event
    requires e.late.Some?
  {
    T.Event(T.BusinessTimeout, e.life.v.token.loop, e.life.v.token.fd, e.life.v.token.generation, e.late.value)
  }

  // Taken from the core and on its way to the loop, or lost on it.
  predicate Travels(e: Env, x: T.Event) {
    x in e.taken || x in e.queue || x in e.missed || x in e.failed
  }

  predicate Pending(s: State, x: T.Event) {
    x in s.env.timers || Travels(s.env, x) || x in s.inHand
  }

  /* What holds of one session, also while its handler is at work on it. */

  // The session has been given what its socket delivered, and what it wrote went out.
  predicate StreamsOk(cfg: Config, life: R.Trace, received: Bytes, sent: Bytes) {
    R.TraceOk(cfg.session, life) && (S.Open(life.v) ==> life.accepted == received && life.written == sent)
  }

  // The generation table leads to the session and back.
  predicate TokenOk(cfg: Config, s: State, fd: int, e: Entry) {
    0 <= fd == e.life.v.token.fd && e.life.v.token.loop == cfg.loop && GenerationOf(e) in s.used &&
    GenerationOf(e) in s.eventToFd && s.eventToFd[GenerationOf(e)] == fd
  }

  // An armed deadline is in the core with its time, or has passed and is under way. Nothing
  // under way names a later one, and what has its number is the deadline itself. The one
  // timer that may be left over is that of a request that timed out ahead of it.
  ghost predicate DeadlineOk(s: State, e: Entry) {
    (e.active ==>
      0 < e.sequence && Pending(s, EventOf(e)) &&
      if EventOf(e) in s.env.timers then s.env.timers[EventOf(e)] == e.at else e.at <= s.env.clock) &&
    (forall x :: Pending(s, x) && x.generation == GenerationOf(e) ==>
      x.sequence <= e.sequence && (e.active && x.sequence == e.sequence ==> x == EventOf(e))) &&
    (e.late.Some? ==> e.expired) &&
    (forall x :: x in s.strays && x.generation == GenerationOf(e) ==> e.late.Some? && x == LateEvent(e))
  }

  // A task that is out belongs to the request in progress, or to one that timed out, and
  // then the session only writes its last answer.
  predicate TasksOk(tasks: map<S.Token, nat>, e: Entry) {
    (e.expired && S.Open(e.life.v) ==> e.life.v.phase.Writing? && e.life.v.closeAfterWrite) &&
    (e.life.v.token in tasks ==>
      tasks[e.life.v.token] == |e.life.requests| && (!S.Open(e.life.v) || e.life.v.phase.Processing? || e.expired))
  }

  ghost predicate Loose(cfg: Config, s: State, fd: int) {
    fd in s.sessions && TokenOk(cfg, s, fd, s.sessions[fd]) && DeadlineOk(s, s.sessions[fd]) &&
    TasksOk(s.env.tasks, s.sessions[fd])
  }

  // Between loop steps: open, with the one deadline its state calls for.
  ghost predicate Settled(cfg: Config, s: State, fd: int) {
    Loose(cfg, s, fd) && S.Open(s.sessions[fd].life.v) && s.sessions[fd].active &&
    s.sessions[fd].kind == KindFor(s.sessions[fd].life.v)
  }

  /* What holds of the loop as a whole. */

  predicate Streams(cfg: Config, s: State) {
    S.ValidConfig(cfg.session) && s.standard == {cfg.overloadFrame, cfg.timeoutFrame} &&
    forall fd :: fd in s.sessions ==>
      StreamsOk(cfg, s.sessions[fd].life, s.sessions[fd].received, s.sessions[fd].sent)
  }

  predicate Tables(s: State) {
    (forall g :: g in s.eventToFd ==>
      s.eventToFd[g] in s.sessions && GenerationOf(s.sessions[s.eventToFd[g]]) == g) &&
    (forall g :: g in s.used ==> 0 < g && (s.nextGeneration == 0 || g < s.nextGeneration))
  }

  // Whatever is under way was made for a session of this loop.
  ghost predicate Known(s: State) {
    (forall x :: Pending(s, x) ==> x.generation in s.used && M.ConnectionTimeout(x)) &&
    (forall x :: x in s.strays ==> x.generation in s.used) &&
    (forall t :: t in s.env.tasks ==> t.generation in s.used && t.fd >= 0)
  }

  predicate Owned(s: State, x: T.Event) {
    x.fd in s.sessions && s.sessions[x.fd].active && EventOf(s.sessions[x.fd]) == x
  }

  // Every timer in the core is the armed deadline of a session, or was left there because
  // its deadline was handled first, and then it is due.
  predicate Timers(s: State) {
    (forall x :: x in s.env.timers ==> Owned(s, x) || x in s.strays) &&
    (forall x :: x in s.env.timers && x in s.strays ==> s.env.timers[x] <= s.env.clock) &&
    (forall x :: x in s.env.timers ==> !Travels(s.env, x))
  }

  predicate Boxes(e: Env) {
    (e.missed != {} ==> e.rescan) &&
    (forall i :: 0 <= i < |e.completions| ==> e.completions[i].token in e.tasks) &&
    (forall i, j :: 0 <= i < j < |e.completions| ==> e.completions[i].token != e.completions[j].token)
  }

  function LifeOf(s: State, g: nat): R.Trace
    requires g in s.ended || (g in s.eventToFd && s.eventToFd[g] in s.sessions)
  {
    if g in s.ended then s.ended[g] else s.sessions[s.eventToFd[g]].life
  }

  predicate AnswerStands(life: R.Trace, k: nat, frame: Bytes) {
    1 <= k <= |life.responses| && life.responses[k - 1] == frame
  }

  // Every answer is one of the loop's own or was given by a worker.
  predicate Attributed(standard: set<Bytes>, given: map<Task, Bytes>, life: R.Trace) {
    forall k :: 0 <= k < |life.responses| ==> life.responses[k] in standard || Task(life.v.token, k + 1) in given
  }

  // Every generation has one life, with at most as many answers as requests, and a worker's
  // result that was taken is the answer to the very request it was made for; every other
  // answer is one of the loop's own.
  ghost predicate History(s: State) {
    Tables(s) &&
    (forall g :: g in s.used <==> g in s.eventToFd || g in s.ended) &&
    (forall g :: g in s.ended ==>
      g !in s.eventToFd && s.ended[g].v.token.generation == g &&
      |s.ended[g].responses| <= |s.ended[g].requests|) &&
    (forall t :: t in s.given ==>
      t.token.generation in s.used && AnswerStands(LifeOf(s, t.token.generation), t.request, s.given[t])) &&
    (forall g :: g in s.used ==> Attributed(s.standard, s.given, LifeOf(s, g)))
  }

  /* The connections. */

  predicate InHand(p: L.Phase, loop: nat) {
    p == L.Adopting(loop) || p == L.Leaving(loop) || p == L.Settling(loop)
  }

  ghost predicate GroupOk(cfg: Config, e: Env, mine: set<nat>) {
    L.Inv(cfg.group, e.group) && cfg.loop < cfg.group.loops &&
    L.QueuedSet(e.group.conns, cfg.loop) == Registered(e.registrations) &&
    (forall i, j :: 0 <= i < j < |e.registrations| ==> e.registrations[i].conn != e.registrations[j].conn) &&
    (forall c :: c in mine ==> c in e.group.conns && InHand(e.group.conns[c], cfg.loop)) &&
    (forall c :: L.At(e.group, c, L.Adopting(cfg.loop)) ==> c in mine)
  }

  function Registered(rs: seq<Registration>): set<nat> {
    set r | r in rs :: r.conn
  }

  function Conns(sessions: map<int, Entry>): set<nat> {
    set fd | fd in sessions :: sessions[fd].conn
  }

  // The loop's sessions are the connections the group has open in it, and every connection
  // it ever popped is a session, released, or in hand.
  ghost predicate Ledger(cfg: Config, s: State) {
    GroupOk(cfg, s.env, s.mine) &&
    L.OpenSet(s.env.group.conns, cfg.loop) == Conns(s.sessions) &&
    (forall a, b :: a in s.sessions && b in s.sessions && a != b ==> s.sessions[a].conn != s.sessions[b].conn) &&
    s.popped == s.released + |s.sessions| + |s.mine|
  }

  ghost predicate Global(cfg: Config, s: State) {
    Streams(cfg, s) && History(s) && Known(s) && Timers(s) && Boxes(s.env) && Ledger(cfg, s)
  }

  ghost predicate Inv(cfg: Config, s: State) {
    Global(cfg, s) && forall fd :: fd in s.sessions ==> Settled(cfg, s, fd)
  }

  // While the handler of fd is at work.
  ghost predicate InvExcept(cfg: Config, s: State, fd: int) {
    Global(cfg, s) && Loose(cfg, s, fd) && forall other :: other in s.sessions && other != fd ==> Settled(cfg, s, other)
  }

  lemma InvToExcept(cfg: Config, s: State, fd: int)
    requires Inv(cfg, s) && fd in s.sessions
    ensures InvExcept(cfg, s, fd)
  {
    assert Settled(cfg, s, fd);
  }

  lemma AtWorkIsLoose(cfg: Config, s: State, fd: int)
    requires InvExcept(cfg, s, fd)
    ensures Loose(cfg, s, fd)
  {}

  lemma SettledAgain(cfg: Config, s: State, fd: int)
    requires InvExcept(cfg, s, fd) && S.Open(s.sessions[fd].life.v) && s.sessions[fd].active
    requires s.sessions[fd].kind == KindFor(s.sessions[fd].life.v)
    ensures Inv(cfg, s)
  {}

  /* What a handler leaves as it is. */

  // The same session later on: nothing it has taken in or given out is taken back, and a
  // new deadline has a new number.
  predicate Continues(e: Entry, e': Entry) {
    R.Grows(e.life, e'.life) && e.received <= e'.received && e.sent <= e'.sent && e.sequence <= e'.sequence &&
    (e'.sequence == e.sequence ==> e'.kind == e.kind && e'.at == e.at) && e'.conn == e.conn &&
    (e.expired ==> e'.expired && e'.late == e.late)
  }

  lemma ContinuesItself(e: Entry, e': Entry)
    requires e'.life == e.life && e'.received == e.received && e'.sent == e.sent && e.sequence <= e'.sequence
    requires e'.conn == e.conn && (e'.sequence == e.sequence ==> e'.kind == e.kind && e'.at == e.at)
    requires e.expired ==> e'.expired && e'.late == e.late
    ensures Continues(e, e')
  {}

  // Nothing the mailboxes have accepted is lost, and what they accept wakes the loop.
  predicate Kept(e: Env, e': Env) {
    e.clock <= e'.clock && (e.drain ==> e'.drain) && e'.open == e.open &&
    e.queue <= e'.queue && e.missed <= e'.missed && e.failed <= e'.failed && e.completions <= e'.completions &&
    (e.wake ==> e'.wake) && (e'.queue != e.queue || e'.missed != e.missed ==> e'.wake) && Rings(e, e')
  }

  // A completion or a registration that was not there before has woken the loop.
  predicate Rings(e: Env, e': Env) {
    (e.doneWake ==> e'.doneWake) && (forall c :: c in e'.completions ==> c in e.completions || e'.doneWake) &&
    (e.newWake ==> e'.newWake) && (forall r :: r in e'.registrations ==> r in e.registrations || e'.newWake)
  }

  lemma KeptItself(e: Env)
    ensures Kept(e, e)
  {}

  lemma KeptTransitive(a: Env, b: Env, c: Env)
    requires Kept(a, b) && Kept(b, c)
    ensures Kept(a, c)
  {}

  // Tasks are only added for the session of fd.
  predicate TasksFrame(s: State, s': State, fd: int) {
    forall t :: t in s'.env.tasks ==>
      (t in s.env.tasks && s'.env.tasks[t] == s.env.tasks[t]) || (fd in s.sessions && t == s.sessions[fd].life.v.token)
  }

  ghost predicate Frame(s: State, s': State, fd: int) {
    (forall other :: other in s.sessions && other != fd ==>
      other in s'.sessions && s'.sessions[other] == s.sessions[other]) &&
    (forall other :: other in s'.sessions && other != fd ==> other in s.sessions) &&
    s'.used == s.used && s'.nextGeneration == s.nextGeneration && s'.inHand == s.inHand && s.strays <= s'.strays &&
    s.given.Items <= s'.given.Items &&
    Kept(s.env, s'.env) && TasksFrame(s, s', fd) &&
    (forall g :: g in s.ended ==> g in s'.ended && s'.ended[g] == s.ended[g]) &&
    (fd in s.sessions && fd !in s'.sessions ==>
      GenerationOf(s.sessions[fd]) in s'.ended &&
      R.Grows(s.sessions[fd].life, s'.ended[GenerationOf(s.sessions[fd])])) &&
    (fd in s'.sessions ==> fd in s.sessions && Continues(s.sessions[fd], s'.sessions[fd]))
  }

  lemma FrameItself(s: State, fd: int)
    ensures Frame(s, s, fd)
  {
    if fd in s.sessions { ContinuesItself(s.sessions[fd], s.sessions[fd]); }
  }

  lemma TasksFrameTransitive(a: State, b: State, c: State, fd: int)
    requires TasksFrame(a, b, fd) && TasksFrame(b, c, fd)
    requires fd in b.sessions ==> fd in a.sessions && a.sessions[fd].life.v.token == b.sessions[fd].life.v.token
    ensures TasksFrame(a, c, fd)
  {}

  lemma FrameTransitive(a: State, b: State, c: State, fd: int)
    requires Frame(a, b, fd) && Frame(b, c, fd)
    ensures Frame(a, c, fd)
  {
    if fd in b.sessions {
      if fd in c.sessions {
        R.GrowsTransitive(a.sessions[fd].life, b.sessions[fd].life, c.sessions[fd].life);
      } else {
        R.GrowsTransitive(a.sessions[fd].life, b.sessions[fd].life, c.ended[GenerationOf(b.sessions[fd])]);
      }
    }
    KeptTransitive(a.env, b.env, c.env);
    TasksFrameTransitive(a, b, c, fd);
  }

  // Besides, the loop has no connection in hand that it had not before.
  ghost predicate Tidy(s: State, s': State, fd: int) {
    Frame(s, s', fd) && s'.mine == s.mine && s'.popped == s.popped
  }

  lemma TidyTransitive(a: State, b: State, c: State, fd: int)
    requires Tidy(a, b, fd) && Tidy(b, c, fd)
    ensures Tidy(a, c, fd)
  {
    FrameTransitive(a, b, c, fd);
  }

  // The session takes up no further request: it has one in progress, or writes its last answer.
  predicate Winding(e: Entry) {
    S.Open(e.life.v) ==> e.life.v.phase.Processing? || (e.life.v.phase.Writing? && e.life.v.closeAfterWrite)
  }

  // And a session that is winding down stays so and takes up no request.
  ghost predicate Handled(s: State, s': State, fd: int) {
    Tidy(s, s', fd) &&
    (fd in s'.sessions && Winding(s.sessions[fd]) ==>
      Winding(s'.sessions[fd]) && s'.sessions[fd].life.requests == s.sessions[fd].life.requests)
  }

  lemma HandledItself(s: State, fd: int)
    ensures Handled(s, s, fd)
  {
    FrameItself(s, fd);
  }

  lemma HandledTransitive(a: State, b: State, c: State, fd: int)
    requires Handled(a, b, fd) && Handled(b, c, fd)
    ensures Handled(a, c, fd)
  {
    FrameTransitive(a, b, c, fd);
  }

  lemma HandledFacts(s: State, s': State, fd: int)
    requires Handled(s, s', fd)
    ensures Tidy(s, s', fd) && Frame(s, s', fd) && s'.mine == s.mine && s'.popped == s.popped
    ensures fd in s'.sessions && Winding(s.sessions[fd]) ==>
      Winding(s'.sessions[fd]) && s'.sessions[fd].life.requests == s.sessions[fd].life.requests
  {}

  lemma FrameFacts(s: State, s': State, fd: int)
    requires Frame(s, s', fd)
    ensures fd in s'.sessions ==> fd in s.sessions && Continues(s.sessions[fd], s'.sessions[fd])
    ensures Kept(s.env, s'.env) && s'.used == s.used && s'.inHand == s.inHand && s'.nextGeneration == s.nextGeneration
    ensures s.given.Items <= s'.given.Items && TasksFrame(s, s', fd)
  {}

  lemma TidyEntry(s: State, s': State, fd: int)
    requires Frame(s, s', fd) && s'.mine == s.mine && s'.popped == s.popped
    ensures Tidy(s, s', fd)
  {}

  lemma TidyFacts(s: State, s': State, fd: int)
    requires Tidy(s, s', fd)
    ensures Frame(s, s', fd) && s'.mine == s.mine && s'.popped == s.popped
  {}

  // What a handler did to a session that is gone counts as handled.
  lemma HandledWhenGone(s: State, s': State, fd: int)
    requires Frame(s, s', fd) && s'.mine == s.mine && s'.popped == s.popped && fd !in s'.sessions
    ensures Handled(s, s', fd) && Tidy(s, s', fd)
  {}

  /* Whole turns of the loop. */

  // A generation stands for one life, from its first turn on.
  ghost predicate Lives(s: State, s': State) {
    History(s) && History(s') && forall g :: g in s.used ==> g in s'.used && R.Grows(LifeOf(s, g), LifeOf(s', g))
  }

  ghost predicate Onward(s: State, s': State) {
    Lives(s, s') && s.given.Items <= s'.given.Items && s.env.clock <= s'.env.clock && (s.env.drain ==> s'.env.drain)
  }

  lemma OnwardItself(s: State)
    requires History(s)
    ensures Onward(s, s)
  {}

  lemma OnwardTransitive(a: State, b: State, c: State)
    requires Onward(a, b) && Onward(b, c)
    ensures Onward(a, c)
  {
    forall g | g in a.used ensures g in c.used && R.Grows(LifeOf(a, g), LifeOf(c, g)) {
      R.GrowsTransitive(LifeOf(a, g), LifeOf(b, g), LifeOf(c, g));
    }
  }

  lemma LivesOn(cfg: Config, s: State, s': State, fd: int, at: int)
    requires at in s.sessions && TokenOk(cfg, s, at, s.sessions[at]) && History(s) && Inv(cfg, s') && Frame(s, s', fd)
    ensures var g := GenerationOf(s.sessions[at]);
      g in s'.used && (g in s'.ended || (g in s'.eventToFd && s'.eventToFd[g] in s'.sessions)) &&
      R.Grows(s.sessions[at].life, LifeOf(s', g))
  {
    hide Known, Timers, Boxes, Ledger, Attributed;
    if at in s'.sessions {
      assert Settled(cfg, s', at);
      if at != fd { assert s'.sessions[at] == s.sessions[at]; }
    }
  }

  lemma FrameOnward(cfg: Config, s: State, s': State, fd: int)
    requires (Inv(cfg, s) || InvExcept(cfg, s, fd)) && Inv(cfg, s') && Frame(s, s', fd)
    ensures Onward(s, s')
  {
    forall g | g in s.used ensures g in s'.used && R.Grows(LifeOf(s, g), LifeOf(s', g)) {
      if g in s.eventToFd {
        var at := s.eventToFd[g];
        assert at != fd || Inv(cfg, s) ==> Settled(cfg, s, at);
        LivesOn(cfg, s, s', fd, at);
      }
    }
  }

  // An accepted timeout that nobody has looked at yet has woken the loop.
  predicate Signalled(e: Env) {
    e.queue != [] || e.missed != {} ==> e.wake
  }

  // So has a completion,
  predicate DoneRung(e: Env) {
    e.completions != [] ==> e.doneWake
  }

  // and a connection.
  predicate NewRung(e: Env) {
    e.registrations != [] ==> e.newWake
  }

  // Whatever waits in a mailbox, the loop's next turn looks at it.
  predicate Awake(e: Env) {
    Signalled(e) && DoneRung(e) && NewRung(e)
  }

  // An alarm that is on stays on until its mailbox is drained.
  predicate Alerts(e: Env, e': Env) {
    (Signalled(e) ==> Signalled(e')) && (DoneRung(e) ==> DoneRung(e')) && (NewRung(e) ==> NewRung(e'))
  }

  lemma KeptAlerts(e: Env, e': Env)
    requires Kept(e, e')
    ensures Alerts(e, e')
  {
    if DoneRung(e) && e'.completions != [] { assert e'.completions[0] in e'.completions; }
    if NewRung(e) && e'.registrations != [] { assert e'.registrations[0] in e'.registrations; }
  }

  predicate AllWinding(s: State) {
    forall fd :: fd in s.sessions ==> Winding(s.sessions[fd])
  }

  lemma StillWinding(s: State, s': State, fd: int)
    requires Frame(s, s', fd) && AllWinding(s) && (fd in s'.sessions ==> Winding(s'.sessions[fd]))
    ensures AllWinding(s')
  {}

  // A whole piece of work of the loop thread: nothing stays in its hands, and a drain goes on.
  ghost predicate Goes(s: State, s': State) {
    Onward(s, s') && s'.mine == s.mine && s'.inHand == s.inHand && Alerts(s.env, s'.env) &&
    (s.env.drain && AllWinding(s) ==> AllWinding(s'))
  }

  lemma GoesItself(cfg: Config, s: State)
    requires Inv(cfg, s)
    ensures Goes(s, s)
  {
    OnwardItself(s);
  }

  lemma GoesTransitive(a: State, b: State, c: State)
    requires Goes(a, b) && Goes(b, c)
    ensures Goes(a, c)
  {
    OnwardTransitive(a, b, c);
  }

  lemma TidyGoes(cfg: Config, s: State, s': State, fd: int)
    requires Inv(cfg, s) && Inv(cfg, s') && Tidy(s, s', fd)
    requires fd in s'.sessions && s.env.drain && Winding(s.sessions[fd]) ==> Winding(s'.sessions[fd])
    ensures Goes(s, s')
  {
    FrameOnward(cfg, s, s', fd);
    KeptAlerts(s.env, s'.env);
    if s.env.drain && AllWinding(s) { StillWinding(s, s', fd); }
  }

  lemma HandledGoes(cfg: Config, s: State, s': State, fd: int)
    requires Inv(cfg, s) && Inv(cfg, s') && Handled(s, s', fd)
    ensures Goes(s, s')
  {
    TidyGoes(cfg, s, s', fd);
  }

  // The same tables under a later clock.
  lemma SameTablesGo(cfg: Config, s: State, s': State)
    requires Inv(cfg, s) && Inv(cfg, s') && s'.sessions == s.sessions && s'.eventToFd == s.eventToFd &&
      s'.used == s.used
    requires s'.ended == s.ended && s'.given == s.given && s.env.clock <= s'.env.clock && (s.env.drain ==> s'.env.drain)
    ensures Onward(s, s') && (AllWinding(s) ==> AllWinding(s'))
  {
    forall g | g in s.used ensures g in s'.used && R.Grows(LifeOf(s, g), LifeOf(s', g)) {
      assert LifeOf(s', g) == LifeOf(s, g);
    }
  }

  lemma GoesFacts(s: State, s': State)
    requires Goes(s, s')
    ensures Onward(s, s') && s'.mine == s.mine && s'.inHand == s.inHand
  {}

  lemma AlertsGo(s: State, s': State)
    requires Goes(s, s')
    ensures Alerts(s.env, s'.env)
  {}

  lemma WindingGoes(s: State, s': State)
    requires Goes(s, s')
    ensures s.env.drain && AllWinding(s) ==> AllWinding(s')
  {}

  lemma OnwardDrain(s: State, s': State)
    requires Onward(s, s')
    ensures s.env.drain ==> s'.env.drain
  {}

  lemma NewcomersSignal(e: Env, e': Env)
    requires Kept(e, e') && e.queue == []
    ensures (e'.queue != [] ==> e'.wake) && e.missed <= e'.missed
  {}
}
