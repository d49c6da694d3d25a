/** What the other threads may do between any two steps of the loop thread: the timer thread
    takes due timers and posts them, workers finish tasks, the dispatcher and the other loops
    move connections, time passes. Each is one section under one lock. */
module LoopEnv {
  import opened LoopState
  import L = ConnectionLoad
  import M = Mailboxes
  import S = Session
  import T = TimerSpec

  datatype Other =
    | Tick(now: int)
    | Take(x: T.Event)
    | Post(x: T.Event, woken: bool)
    | Finish(c: M.Completion, woken: bool)
    | Arrive(fd: int)
    | CloseRegistrations
    | Shift(move: L.Label)
    | RequestDrain

  predicate Reported(e: Env, token: S.Token) {
    exists c :: c in e.completions && c.token == token
  }

  // The timer core erases a due timer; the post comes later, under the mailbox's lock.
  function AfterTake(e: Env, x: T.Event): Env {
    if x in e.timers && e.timers[x] <= e.clock then e.(timers := e.timers - {x}, taken := e.taken + {x}) else e
  }

  function AfterPost(cfg: Config, e: Env, x: T.Event, woken: bool): Env {
    if x !in e.taken then e
    else
      var (v, accepted) := M.PostTimeout(M.TimeoutView(e.queue, e.open, e.rescan), cfg.maxConnections, x, woken);
      var full := |e.queue| == cfg.maxConnections;
      e.(taken := e.taken - {x}, queue := v.queue, rescan := v.rescan, wake := e.wake || accepted,
         missed := if accepted && full then e.missed + {x} else e.missed,
         failed := if accepted then e.failed else e.failed + {x})
  }

  // A worker reports once for each task; a report that does not get in is gone.
  function AfterFinish(cfg: Config, e: Env, c: M.Completion, woken: bool): Env {
    if c.token !in e.tasks || Reported(e, c.token) then e
    else if e.open && woken &&
      M.Fits(e.completions, c, cfg.completionSlots, cfg.completionBytes, cfg.maxCompletionBytes) then
      e.(completions := e.completions + [c], doneWake := true)
    else e.(tasks := e.tasks - {c.token})
  }

  function Shifted(cfg: Config, g: L.State, l: L.Label): L.State {
    if L.Shape(cfg.group, g) && L.Can(cfg.group, g, l) then L.Do(cfg.group, g, l) else g
  }

  function AfterArrive(cfg: Config, e: Env, fd: int): Env {
    if L.Shape(cfg.group, e.group) && L.Can(cfg.group, e.group, L.Post(true)) && e.group.chosen.value.0 == cfg.loop then
      e.(group := L.Do(cfg.group, e.group, L.Post(true)),
         registrations := e.registrations + [Registration(fd, e.group.chosen.value.1)],
         newWake := true)
    else e
  }

  function AfterClosing(cfg: Config, e: Env): Env {
    if L.Shape(cfg.group, e.group) && cfg.loop < cfg.group.loops then
      e.(group := L.Do(cfg.group, e.group, L.CloseMailbox(cfg.loop)), registrations := [])
    else e
  }

  predicate Elsewhere(cfg: Config, g: L.State, c: nat) {
    c in g.conns && !g.conns[c].Gone? && g.conns[c].loop != cfg.loop
  }

  // What is not for this loop's thread alone to do.
  predicate MayShift(cfg: Config, g: L.State, mine: set<nat>, l: L.Label) {
    match l
    case Post(posted) => !(posted && g.chosen.Some? && g.chosen.value.0 == cfg.loop)
    case Pop(c) => Elsewhere(cfg, g, c)
    case Adopt(c, _) => Elsewhere(cfg, g, c)
    case CloseSession(c) => Elsewhere(cfg, g, c)
    case CloseMailbox(loop) => loop != cfg.loop
    case ReleaseLoop(_, batch) => batch !! mine
    case ReleaseTotal(batch) => batch !! mine
    case _ => true
  }

  function DoOther(cfg: Config, mine: set<nat>, e: Env, o: Other): Env {
    match o
    case Tick(now) => if now >= e.clock then e.(clock := now) else e
    case Take(x) => AfterTake(e, x)
    case Post(x, woken) => AfterPost(cfg, e, x, woken)
    case Finish(c, woken) => AfterFinish(cfg, e, c, woken)
    case Arrive(fd) => AfterArrive(cfg, e, fd)
    case CloseRegistrations => AfterClosing(cfg, e)
    case Shift(l) => if MayShift(cfg, e.group, mine, l) then e.(group := Shifted(cfg, e.group, l)) else e
    case RequestDrain => e.(drain := true)
  }

  function DoOthers(cfg: Config, mine: set<nat>, e: Env, os: seq<Other>): Env {
    if os == [] then e else DoOther(cfg, mine, DoOthers(cfg, mine, e, os[..|os| - 1]), os[|os| - 1])
  }

  /* What becomes of a due timer. */

  // Whatever is or comes under way is a connection's deadline, as in every state of the loop.
  predicate Deliverable(e: Env) {
    (forall x :: x in e.timers ==> M.ConnectionTimeout(x)) && (forall x :: x in e.taken ==> M.ConnectionTimeout(x))
  }

  lemma KnownIsDeliverable(s: State)
    requires Known(s)
    ensures Deliverable(s.env)
  {
    forall x | x in s.env.timers || x in s.env.taken ensures M.ConnectionTimeout(x) { assert Pending(s, x); }
  }

  // Only a post that was refused fails, and one that was not is queued or flagged.
  predicate Delivers(cfg: Config, e: Env, o: Other, e': Env) {
    e'.open == e.open &&
    (if o.Post? && o.x in e.taken && !(o.woken && e.open) then e'.failed == e.failed + {o.x}
     else e'.failed == e.failed) &&
    (o.Post? && o.x in e.taken && o.woken && e.open ==>
      if |e.queue| == cfg.maxConnections then e'.rescan && o.x in e'.missed else e'.queue == e.queue + [o.x])
  }

  predicate FewerUnderWay(e: Env, e': Env) {
    (forall x :: x in e'.timers ==> x in e.timers) && (forall x :: x in e'.taken ==> x in e.timers || x in e.taken)
  }

  lemma DeliverableStays(e: Env, e': Env)
    requires Deliverable(e) && FewerUnderWay(e, e')
    ensures Deliverable(e')
  {}

  lemma NothingFails(cfg: Config, e: Env, o: Other, e': Env)
    requires Deliverable(e) && FewerUnderWay(e, e') && !o.Post? && e'.open == e.open && e'.failed == e.failed
    ensures Deliverable(e') && Delivers(cfg, e, o, e')
  {}

  lemma NothingMoves(cfg: Config, e: Env, o: Other, e': Env)
    requires Deliverable(e) && e'.timers == e.timers && e'.taken == e.taken && !o.Post?
    requires e'.open == e.open && e'.failed == e.failed
    ensures Deliverable(e') && Delivers(cfg, e, o, e')
  {
    hide M.ConnectionTimeout;
  }

  lemma PostDelivers(cfg: Config, e: Env, x: T.Event, woken: bool)
    requires Deliverable(e)
    ensures Deliverable(AfterPost(cfg, e, x, woken)) && Delivers(cfg, e, Post(x, woken), AfterPost(cfg, e, x, woken))
  {
    DeliverableStays(e, AfterPost(cfg, e, x, woken));
  }

  lemma TakeDelivers(cfg: Config, e: Env, x: T.Event)
    requires Deliverable(e)
    ensures Deliverable(AfterTake(e, x)) && Delivers(cfg, e, Take(x), AfterTake(e, x))
  {
    hide M.ConnectionTimeout, Delivers;
    NothingFails(cfg, e, Take(x), AfterTake(e, x));
  }

  lemma FinishDelivers(cfg: Config, e: Env, c: M.Completion, woken: bool)
    requires Deliverable(e)
    ensures var e' := AfterFinish(cfg, e, c, woken); Deliverable(e') && Delivers(cfg, e, Finish(c, woken), e')
  {
    hide Deliverable, Delivers, M.Fits, Reported;
    NothingMoves(cfg, e, Finish(c, woken), AfterFinish(cfg, e, c, woken));
  }

  lemma ArriveDelivers(cfg: Config, e: Env, fd: int)
    requires Deliverable(e)
    ensures Deliverable(AfterArrive(cfg, e, fd)) && Delivers(cfg, e, Arrive(fd), AfterArrive(cfg, e, fd))
  {
    hide L.Do, L.Shape, Deliverable, Delivers;
    NothingMoves(cfg, e, Arrive(fd), AfterArrive(cfg, e, fd));
  }

  lemma ClosingDelivers(cfg: Config, e: Env)
    requires Deliverable(e)
    ensures Deliverable(AfterClosing(cfg, e)) && Delivers(cfg, e, CloseRegistrations, AfterClosing(cfg, e))
  {
    hide L.Do, L.Shape, Deliverable, Delivers;
    NothingMoves(cfg, e, CloseRegistrations, AfterClosing(cfg, e));
  }

  lemma RestDelivers(cfg: Config, mine: set<nat>, e: Env, o: Other)
    requires Deliverable(e) && (o.Tick? || o.Shift? || o.RequestDrain?)
    ensures Deliverable(DoOther(cfg, mine, e, o)) && Delivers(cfg, e, o, DoOther(cfg, mine, e, o))
  {
    hide MayShift, Shifted, Deliverable, Delivers;
    NothingMoves(cfg, e, o, DoOther(cfg, mine, e, o));
  }

  /** Posting a timer that was taken fails if and only if the mailbox is closed or cannot wake
      the loop; otherwise it is last in the queue or covered by the rescan flag. No other step
      makes a timer fail. */
  lemma OnlyRefusedPostsFail(cfg: Config, mine: set<nat>, e: Env, o: Other)
    requires Deliverable(e)
    ensures Deliverable(DoOther(cfg, mine, e, o)) && Delivers(cfg, e, o, DoOther(cfg, mine, e, o))
  {
    hide AfterPost, AfterTake, AfterFinish, AfterArrive, AfterClosing, Deliverable, Delivers;
    match o
    case Post(x, woken) => PostDelivers(cfg, e, x, woken);
    case Take(x) => TakeDelivers(cfg, e, x);
    case Finish(c, woken) => FinishDelivers(cfg, e, c, woken);
    case Arrive(fd) => ArriveDelivers(cfg, e, fd);
    case CloseRegistrations => ClosingDelivers(cfg, e);
    case _ => RestDelivers(cfg, mine, e, o);
  }

  // While the mailbox is open and the loop can be woken, no due timer is lost.
  lemma {:induction false} PostsArrive(cfg: Config, mine: set<nat>, e: Env, os: seq<Other>)
    requires Deliverable(e) && e.open
    requires forall i :: 0 <= i < |os| && os[i].Post? ==> os[i].woken
    ensures var e' := DoOthers(cfg, mine, e, os);
      Deliverable(e') && e'.open && e'.failed == e.failed
    decreases |os|
  {
    if os != [] {
      var last := |os| - 1;
      PostsArrive(cfg, mine, e, os[..last]);
      OnlyRefusedPostsFail(cfg, mine, DoOthers(cfg, mine, e, os[..last]), os[last]);
    }
  }

  // So it is in every state of the loop.
  lemma DueTimersArrive(cfg: Config, s: State, os: seq<Other>)
    requires Inv(cfg, s) && s.env.open
    requires forall i :: 0 <= i < |os| && os[i].Post? ==> os[i].woken
    ensures DoOthers(cfg, s.mine, s.env, os).failed == s.env.failed
  {
    KnownIsDeliverable(s);
    PostsArrive(cfg, s.mine, s.env, os);
  }

  /* What any number of such steps amounts to. */

  // A timer that leaves the core is due and on its way, and nothing else gets on the way.
  ghost predicate TimersMove(e: Env, e': Env) {
    (forall x :: x in e'.timers ==>
      x in e.timers && e'.timers[x] == e.timers[x] && (Travels(e', x) ==> Travels(e, x))) &&
    (forall x :: x in e.timers && x !in e'.timers ==> e.timers[x] <= e'.clock && Travels(e', x)) &&
    (forall x :: Travels(e, x) ==> Travels(e', x)) &&
    (forall x :: Travels(e', x) ==> Travels(e, x) || x in e.timers)
  }

  predicate TasksMove(e: Env, e': Env) {
    (forall t :: t in e'.tasks ==> t in e.tasks && e'.tasks[t] == e.tasks[t]) && (Boxes(e) ==> Boxes(e'))
  }

  ghost predicate GroupMoves(cfg: Config, mine: set<nat>, e: Env, e': Env) {
    L.OpenSet(e'.group.conns, cfg.loop) == L.OpenSet(e.group.conns, cfg.loop) &&
    (forall c :: c in mine && c in e.group.conns && InHand(e.group.conns[c], cfg.loop) ==>
      L.At(e'.group, c, e.group.conns[c])) &&
    (GroupOk(cfg, e, mine) ==> GroupOk(cfg, e', mine))
  }

  ghost predicate Moves(cfg: Config, mine: set<nat>, e: Env, e': Env) {
    Kept(e, e') && TimersMove(e, e') && TasksMove(e, e') && GroupMoves(cfg, mine, e, e')
  }

  lemma MovesItself(cfg: Config, mine: set<nat>, e: Env)
    ensures Moves(cfg, mine, e, e)
  {}

  lemma MovesTransitive(cfg: Config, mine: set<nat>, a: Env, b: Env, c: Env)
    requires Moves(cfg, mine, a, b) && Moves(cfg, mine, b, c)
    ensures Moves(cfg, mine, a, c)
  {
    KeptTransitive(a, b, c);
    TimersTransitive(a, b, c);
  }

  lemma TimersTransitive(a: Env, b: Env, c: Env)
    requires TimersMove(a, b) && TimersMove(b, c) && a.clock <= b.clock <= c.clock
    ensures TimersMove(a, c)
  {}

  lemma SameGroup(cfg: Config, mine: set<nat>, e: Env, e': Env)
    requires e'.group == e.group && e'.registrations == e.registrations
    ensures GroupMoves(cfg, mine, e, e')
  {}

  lemma SameRings(e: Env, e': Env)
    requires e'.completions == e.completions && e'.registrations == e.registrations
    requires e'.doneWake == e.doneWake && e'.newWake == e.newWake
    ensures Rings(e, e')
  {}

  lemma TakeMoves(cfg: Config, mine: set<nat>, e: Env, x: T.Event)
    ensures Moves(cfg, mine, e, AfterTake(e, x))
  {
    SameGroup(cfg, mine, e, AfterTake(e, x));
  }

  lemma PostMoves(cfg: Config, mine: set<nat>, e: Env, x: T.Event, woken: bool)
    ensures Moves(cfg, mine, e, AfterPost(cfg, e, x, woken))
  {
    hide Rings, AfterPost;
    var e' := AfterPost(cfg, e, x, woken);
    PostCases(cfg, e, x, woken);
    SameRings(e, e');
    SameGroup(cfg, mine, e, e');
    assert TimersMove(e, e') by { PostTravels(cfg, e, x, woken); }
  }

  // Queued, remembered by the rescan flag, or refused.
  lemma PostCases(cfg: Config, e: Env, x: T.Event, woken: bool)
    ensures var e' := AfterPost(cfg, e, x, woken);
      e' == e ||
      (x in e.taken &&
       (e' == e.(taken := e.taken - {x}, queue := e.queue + [x], wake := true) ||
        e' == e.(taken := e.taken - {x}, rescan := true, missed := e.missed + {x}, wake := true) ||
        ((e.rescan ==> e'.rescan) && e' == e.(taken := e.taken - {x}, rescan := e'.rescan, failed := e.failed + {x}))))
  {}

  lemma PostTravels(cfg: Config, e: Env, x: T.Event, woken: bool)
    ensures TimersMove(e, AfterPost(cfg, e, x, woken))
  {
    hide AfterPost;
    PostCases(cfg, e, x, woken);
    var e' := AfterPost(cfg, e, x, woken);
    forall y ensures Travels(e', y) <==> Travels(e, y) {}
  }

  lemma FinishBoxes(cfg: Config, e: Env, c: M.Completion, woken: bool)
    requires Boxes(e)
    ensures Boxes(AfterFinish(cfg, e, c, woken))
  {
    var e' := AfterFinish(cfg, e, c, woken);
    forall i | 0 <= i < |e'.completions| ensures e'.completions[i].token in e'.tasks {
      assert i < |e.completions| ==> e.completions[i] in e.completions;
    }
    forall i, j | 0 <= i < j < |e'.completions| ensures e'.completions[i].token != e'.completions[j].token {
      assert e.completions[i] in e.completions;
    }
  }

  lemma FinishMoves(cfg: Config, mine: set<nat>, e: Env, c: M.Completion, woken: bool)
    ensures Moves(cfg, mine, e, AfterFinish(cfg, e, c, woken))
  {
    SameGroup(cfg, mine, e, AfterFinish(cfg, e, c, woken));
    if Boxes(e) { FinishBoxes(cfg, e, c, woken); }
  }

  /* Connections. */

  lemma OneRegistered(rs: seq<Registration>, r: Registration)
    requires r.conn !in Registered(rs)
    requires forall i, j :: 0 <= i < j < |rs| ==> rs[i].conn != rs[j].conn
    ensures Registered(rs + [r]) == Registered(rs) + {r.conn}
    ensures forall i, j :: 0 <= i < j < |rs + [r]| ==> (rs + [r])[i].conn != (rs + [r])[j].conn
  {
    forall i | 0 <= i < |rs| ensures rs[i].conn != r.conn { assert rs[i] in rs; }
    forall c | c in Registered(rs) ensures c in Registered(rs + [r]) {
      var q :| q in rs && q.conn == c;
      assert q in rs + [r];
    }
    assert r in rs + [r];
  }

  lemma QueuedOneMore(conns: map<nat, L.Phase>, c: nat, loop: nat)
    requires c in conns && conns[c] == L.Reserved(loop)
    ensures L.QueuedSet(conns[c := L.Queued(loop)], loop) == L.QueuedSet(conns, loop) + {c}
    ensures c !in L.QueuedSet(conns, loop)
  {}

  lemma ArrivedGroup(cfg: Config, mine: set<nat>, e: Env, e': Env, fd: int, c: nat)
    requires GroupOk(cfg, e, mine) && L.Inv(cfg.group, e'.group) && L.At(e.group, c, L.Reserved(cfg.loop))
    requires e'.group.conns == e.group.conns[c := L.Queued(cfg.loop)]
    requires e'.registrations == e.registrations + [Registration(fd, c)]
    ensures GroupOk(cfg, e', mine)
  {
    QueuedOneMore(e.group.conns, c, cfg.loop);
    OneRegistered(e.registrations, Registration(fd, c));
    forall d | L.At(e'.group, d, L.Adopting(cfg.loop)) ensures d in mine {
      assert L.At(e.group, d, L.Adopting(cfg.loop));
    }
  }

  lemma ArriveMoves(cfg: Config, mine: set<nat>, e: Env, fd: int)
    ensures GroupMoves(cfg, mine, e, AfterArrive(cfg, e, fd))
  {
    var e' := AfterArrive(cfg, e, fd);
    if e' != e {
      var c := e.group.chosen.value.1;
      assert L.At(e.group, c, L.Reserved(cfg.loop));
      if GroupOk(cfg, e, mine) {
        L.InvStep(cfg.group, e.group, L.Post(true));
        ArrivedGroup(cfg, mine, e, e', fd, c);
      }
    }
  }

  lemma ClosingMoves(cfg: Config, mine: set<nat>, e: Env)
    ensures GroupMoves(cfg, mine, e, AfterClosing(cfg, e))
  {
    var e' := AfterClosing(cfg, e);
    if e' != e && GroupOk(cfg, e, mine) {
      L.InvStep(cfg.group, e.group, L.CloseMailbox(cfg.loop));
      assert L.QueuedSet(e'.group.conns, cfg.loop) == {};
    }
  }

  // The connections of this loop that its own thread decides about stay as they are.
  lemma ShiftKeeps(cfg: Config, g: L.State, mine: set<nat>, l: L.Label, c: nat)
    requires L.Shape(cfg.group, g) && L.Can(cfg.group, g, l) && MayShift(cfg, g, mine, l) && cfg.loop < cfg.group.loops
    ensures var g' := L.Do(cfg.group, g, l);
      (L.At(g', c, L.Open(cfg.loop)) <==> L.At(g, c, L.Open(cfg.loop))) &&
      (L.At(g', c, L.Queued(cfg.loop)) <==> L.At(g, c, L.Queued(cfg.loop))) &&
      (L.At(g', c, L.Adopting(cfg.loop)) <==> L.At(g, c, L.Adopting(cfg.loop)))
  {}

  lemma ShiftKeepsMine(cfg: Config, g: L.State, mine: set<nat>, l: L.Label, c: nat)
    requires L.Shape(cfg.group, g) && L.Can(cfg.group, g, l) && MayShift(cfg, g, mine, l)
    requires c in mine && c in g.conns && (InHand(g.conns[c], cfg.loop))
    ensures L.At(L.Do(cfg.group, g, l), c, g.conns[c])
  {}

  lemma ShiftMoves(cfg: Config, mine: set<nat>, e: Env, l: L.Label)
    requires MayShift(cfg, e.group, mine, l) && cfg.loop < cfg.group.loops
    ensures GroupMoves(cfg, mine, e, e.(group := Shifted(cfg, e.group, l)))
  {
    var g, g', loop := e.group, Shifted(cfg, e.group, l), cfg.loop;
    if L.Shape(cfg.group, g) && L.Can(cfg.group, g, l) {
      forall c ensures (L.At(g', c, L.Open(loop)) <==> L.At(g, c, L.Open(loop))) &&
        (L.At(g', c, L.Queued(loop)) <==> L.At(g, c, L.Queued(loop))) &&
        (L.At(g', c, L.Adopting(loop)) <==> L.At(g, c, L.Adopting(loop)))
      {
        ShiftKeeps(cfg, g, mine, l, c);
      }
      forall c | c in mine && c in g.conns && InHand(g.conns[c], loop) ensures L.At(g', c, g.conns[c]) {
        ShiftKeepsMine(cfg, g, mine, l, c);
      }
      SetsFollow(g, g', loop);
      if L.Inv(cfg.group, g) { L.InvStep(cfg.group, g, l); }
    }
  }

  lemma SetsFollow(g: L.State, g': L.State, loop: nat)
    requires forall c :: L.At(g', c, L.Open(loop)) <==> L.At(g, c, L.Open(loop))
    requires forall c :: L.At(g', c, L.Queued(loop)) <==> L.At(g, c, L.Queued(loop))
    ensures L.OpenSet(g'.conns, loop) == L.OpenSet(g.conns, loop)
    ensures L.QueuedSet(g'.conns, loop) == L.QueuedSet(g.conns, loop)
  {
    forall c ensures c in L.OpenSet(g'.conns, loop) <==> c in L.OpenSet(g.conns, loop) {
      assert L.At(g', c, L.Open(loop)) <==> L.At(g, c, L.Open(loop));
    }
    forall c ensures c in L.QueuedSet(g'.conns, loop) <==> c in L.QueuedSet(g.conns, loop) {
      assert L.At(g', c, L.Queued(loop)) <==> L.At(g, c, L.Queued(loop));
    }
  }

  lemma OnlyGroup(cfg: Config, mine: set<nat>, e: Env, e': Env)
    requires e' == e.(group := e'.group, registrations := e'.registrations, newWake := e'.newWake)
    requires GroupMoves(cfg, mine, e, e') && Rings(e, e')
    ensures Moves(cfg, mine, e, e')
  {}

  lemma OnlyTime(cfg: Config, mine: set<nat>, e: Env, e': Env)
    requires e' == e.(clock := e'.clock, drain := e'.drain) && e.clock <= e'.clock && (e.drain ==> e'.drain)
    ensures Moves(cfg, mine, e, e')
  {
    SameGroup(cfg, mine, e, e');
  }

  lemma OtherMoves(cfg: Config, mine: set<nat>, e: Env, o: Other)
    requires cfg.loop < cfg.group.loops
    ensures Moves(cfg, mine, e, DoOther(cfg, mine, e, o))
  {
    match o
    case Take(x) => TakeMoves(cfg, mine, e, x);
    case Post(x, woken) => PostMoves(cfg, mine, e, x, woken);
    case Finish(c, woken) => FinishMoves(cfg, mine, e, c, woken);
    case Arrive(fd) =>
      ArriveMoves(cfg, mine, e, fd);
      OnlyGroup(cfg, mine, e, AfterArrive(cfg, e, fd));
    case CloseRegistrations =>
      ClosingMoves(cfg, mine, e);
      OnlyGroup(cfg, mine, e, AfterClosing(cfg, e));
    case Shift(l) =>
      if MayShift(cfg, e.group, mine, l) {
        ShiftMoves(cfg, mine, e, l);
        OnlyGroup(cfg, mine, e, DoOther(cfg, mine, e, o));
      } else {
        MovesItself(cfg, mine, e);
      }
    case Tick(_) => OnlyTime(cfg, mine, e, DoOther(cfg, mine, e, o));
    case RequestDrain => OnlyTime(cfg, mine, e, DoOther(cfg, mine, e, o));
  }

  lemma MovesFacts(cfg: Config, mine: set<nat>, e: Env, e': Env)
    requires Moves(cfg, mine, e, e')
    ensures Kept(e, e') && e'.tasks.Keys <= e.tasks.Keys
    ensures forall x :: x in e'.timers ==> x in e.timers
    ensures forall c :: c in mine && c in e.group.conns && InHand(e.group.conns[c], cfg.loop) ==>
      L.At(e'.group, c, e.group.conns[c])
  {}

  /* The loop's own moves on the books. */

  lemma MovedOne(conns: map<nat, L.Phase>, c: nat, p: L.Phase)
    requires c in conns
    ensures L.Moved(conns, {c}, p) == conns[c := p]
  {}

  // Each moves one connection from one phase to the next, and the group's invariant holds.
  lemma ShiftOne(cfg: Config, g: L.State, l: L.Label, c: nat, was: L.Phase)
    requires L.Inv(cfg.group, g) && cfg.loop < cfg.group.loops && L.At(g, c, was)
    requires match l
      case Pop(d) => d == c && was == L.Queued(cfg.loop)
      case Adopt(d, _) => d == c && was == L.Adopting(cfg.loop)
      case CloseSession(d) => d == c && was == L.Open(cfg.loop)
      case ReleaseLoop(loop, batch) => loop == cfg.loop && batch == {c} && was == L.Leaving(cfg.loop)
      case ReleaseTotal(batch) => batch == {c} && was == L.Settling(cfg.loop)
      case _ => false
    ensures var g' := Shifted(cfg, g, l);
      L.Inv(cfg.group, g') && c in g'.conns && g'.conns == g.conns[c := g'.conns[c]] &&
      match l
      case Pop(_) => g'.conns[c] == L.Adopting(cfg.loop)
      case Adopt(_, ok) => g'.conns[c] == if ok then L.Open(cfg.loop) else L.Leaving(cfg.loop)
      case CloseSession(_) => g'.conns[c] == L.Leaving(cfg.loop)
      case ReleaseLoop(_, _) => g'.conns[c] == L.Settling(cfg.loop)
      case ReleaseTotal(_) => g'.conns[c] == L.Gone
      case _ => true
  {
    L.InvStep(cfg.group, g, l);
    MovedOne(g.conns, c, L.Settling(cfg.loop));
    MovedOne(g.conns, c, L.Gone);
  }
}
