/** Connection accounting across event loops: one load counter per loop and one for the
    group, updated by separate atomic operations from the dispatcher, the loops and the
    shutdown path, in any interleaving. */
module ConnectionLoad {
  import opened Wrappers

  datatype Config = Config(loops: nat, maxConnections: nat, maxPerLoop: nat, queueCapacity: nat)

  // Where a connection is, and which of the two counters still carry it.
  datatype Phase =
    | Reserving(loop: nat)  // counted by its loop, not yet by the group
    | Reserved(loop: nat)   // counted by both, about to be posted
    | Queued(loop: nat)     // in the loop's registration mailbox
    | Adopting(loop: nat)   // popped by the loop
    | Open(loop: nat)       // a session
    | Leaving(loop: nat)    // closed, discarded or refused; still counted by both
    | Settling(loop: nat)   // released by its loop, not yet by the group
    | Gone

  datatype State = State(
    conns: map<nat, Phase>,
    load: seq<nat>,
    total: nat,
    accepting: seq<bool>,
    running: bool,
    nextLoop: nat,
    chosen: Option<(nat, nat)>)  // dispatcher holding the group mutex: (loop, connection)

  datatype Label =
    | Choose(c: nat)
    | ReserveLoop
    | ReserveTotal
    | Post(posted: bool)
    | Pop(c: nat)
    | Adopt(c: nat, ok: bool)
    | CloseSession(c: nat)
    | CloseMailbox(loop: nat)
    | ReleaseLoop(loop: nat, batch: set<nat>)
    | ReleaseTotal(batch: set<nat>)
    | StopRunning

  predicate ByLoop(p: Phase, loop: nat) {
    !p.Settling? && !p.Gone? && p.loop == loop
  }

  predicate ByTotal(p: Phase) {
    !p.Reserving? && !p.Gone?
  }

  function LoopSet(conns: map<nat, Phase>, loop: nat): set<nat> {
    set c | c in conns && ByLoop(conns[c], loop)
  }

  function TotalSet(conns: map<nat, Phase>): set<nat> {
    set c | c in conns && ByTotal(conns[c])
  }

  function OpenSet(conns: map<nat, Phase>, loop: nat): set<nat> {
    set c | c in conns && conns[c] == Open(loop)
  }

  function QueuedSet(conns: map<nat, Phase>, loop: nat): set<nat> {
    set c | c in conns && conns[c] == Queued(loop)
  }

  // The saturating subtraction of ConnectionLoadCounter::release.
  function Release(load: nat, count: nat): nat {
    if count >= load then 0 else load - count
  }

  predicate At(s: State, c: nat, p: Phase) {
    c in s.conns && s.conns[c] == p
  }

  predicate AllLeaving(conns: map<nat, Phase>, batch: set<nat>, loop: nat) {
    forall c :: c in batch ==> c in conns && conns[c] == Leaving(loop)
  }

  predicate AllSettling(conns: map<nat, Phase>, batch: set<nat>) {
    forall c :: c in batch ==> c in conns && conns[c].Settling?
  }

  function Moved(conns: map<nat, Phase>, batch: set<nat>, p: Phase): map<nat, Phase> {
    map c | c in conns :: if c in batch then p else conns[c]
  }

  predicate Can(cfg: Config, s: State, l: Label) {
    match l
    case Choose(c) => s.running && s.chosen.None? && c !in s.conns
    case ReserveLoop => s.chosen.Some? && s.chosen.value.1 !in s.conns
    case ReserveTotal => s.chosen.Some? && At(s, s.chosen.value.1, Reserving(s.chosen.value.0))
    case Post(posted) =>
      s.chosen.Some? && At(s, s.chosen.value.1, Reserved(s.chosen.value.0)) &&
      (posted ==> s.chosen.value.0 < |s.accepting| && s.accepting[s.chosen.value.0] &&
                  |QueuedSet(s.conns, s.chosen.value.0)| < cfg.queueCapacity)
    case Pop(c) => c in s.conns && s.conns[c].Queued?
    case Adopt(c, _) => c in s.conns && s.conns[c].Adopting?
    case CloseSession(c) => c in s.conns && s.conns[c].Open?
    case CloseMailbox(loop) => loop < cfg.loops
    case ReleaseLoop(loop, batch) => loop < cfg.loops && AllLeaving(s.conns, batch, loop)
    case ReleaseTotal(batch) => AllSettling(s.conns, batch)
    case StopRunning => true
  }

  function Do(cfg: Config, s: State, l: Label): State
    requires Can(cfg, s, l) && |s.load| == |s.accepting| == cfg.loops && 0 < cfg.loops
    requires s.nextLoop < cfg.loops && (s.chosen.Some? ==> s.chosen.value.0 < cfg.loops)
  {
    match l
    case Choose(c) =>
      if s.total >= cfg.maxConnections then s
      else
        var s' := s.(nextLoop := (s.nextLoop + 1) % cfg.loops);
        if s.load[s.nextLoop] >= cfg.maxPerLoop then s' else s'.(chosen := Some((s.nextLoop, c)))
    case ReserveLoop =>
      var (loop, c) := s.chosen.value;
      s.(conns := s.conns[c := Reserving(loop)], load := s.load[loop := s.load[loop] + 1])
    case ReserveTotal =>
      var (loop, c) := s.chosen.value;
      s.(conns := s.conns[c := Reserved(loop)], total := s.total + 1)
    case Post(posted) =>
      var (loop, c) := s.chosen.value;
      s.(conns := s.conns[c := if posted then Queued(loop) else Leaving(loop)], chosen := None)
    case Pop(c) => s.(conns := s.conns[c := Adopting(s.conns[c].loop)])
    case Adopt(c, ok) => s.(conns := s.conns[c := if ok then Open(s.conns[c].loop) else Leaving(s.conns[c].loop)])
    case CloseSession(c) => s.(conns := s.conns[c := Leaving(s.conns[c].loop)])
    case CloseMailbox(loop) =>
      s.(conns := Moved(s.conns, QueuedSet(s.conns, loop), Leaving(loop)), accepting := s.accepting[loop := false])
    case ReleaseLoop(loop, batch) =>
      s.(conns := Moved(s.conns, batch, Settling(loop)), load := s.load[loop := Release(s.load[loop], |batch|)])
    case ReleaseTotal(batch) =>
      s.(conns := Moved(s.conns, batch, Gone), total := Release(s.total, |batch|))
    case StopRunning => s.(running := false)
  }

  /* The invariant. */

  predicate Shape(cfg: Config, s: State) {
    |s.load| == |s.accepting| == cfg.loops && 0 < cfg.loops && s.nextLoop < cfg.loops &&
    (s.chosen.Some? ==> s.chosen.value.0 < cfg.loops) &&
    (forall c :: c in s.conns && !s.conns[c].Gone? ==> s.conns[c].loop < cfg.loops)
  }

  // Each counter says exactly how many connections it carries.
  predicate Exact(cfg: Config, s: State) {
    Shape(cfg, s) && s.total == |TotalSet(s.conns)| &&
    forall loop :: 0 <= loop < cfg.loops ==> s.load[loop] == |LoopSet(s.conns, loop)|
  }

  // Only the dispatcher that holds the mutex has a reservation in progress.
  predicate OneDispatcher(s: State) {
    forall c :: c in s.conns && (s.conns[c].Reserving? || s.conns[c].Reserved?) ==>
      s.chosen == Some((s.conns[c].loop, c))
  }

  // A dispatcher that passed the checks still has room in both counters.
  predicate Capped(cfg: Config, s: State) {
    Shape(cfg, s) && s.total <= cfg.maxConnections &&
    (forall loop :: 0 <= loop < cfg.loops ==> s.load[loop] <= cfg.maxPerLoop) &&
    (s.chosen.Some? ==>
      var (loop, c) := s.chosen.value;
      (c !in s.conns ==> s.load[loop] < cfg.maxPerLoop && s.total < cfg.maxConnections) &&
      (At(s, c, Reserving(loop)) ==> s.total < cfg.maxConnections) &&
      (c in s.conns ==> At(s, c, Reserving(loop)) || At(s, c, Reserved(loop))))
  }

  predicate Inv(cfg: Config, s: State) {
    Exact(cfg, s) && OneDispatcher(s) && Capped(cfg, s)
  }

  /* How a move changes what a counter carries. */

  // The same connections, each carried by the same counters.
  ghost predicate SameCarried(a: map<nat, Phase>, b: map<nat, Phase>) {
    a.Keys == b.Keys &&
    forall c :: c in a ==> ByTotal(a[c]) == ByTotal(b[c]) && forall loop :: ByLoop(a[c], loop) == ByLoop(b[c], loop)
  }

  lemma SameSets(a: map<nat, Phase>, b: map<nat, Phase>, loop: nat)
    requires SameCarried(a, b)
    ensures LoopSet(a, loop) == LoopSet(b, loop) && TotalSet(a) == TotalSet(b)
  {}

  lemma SameExact(cfg: Config, s: State, s': State)
    requires Exact(cfg, s) && Shape(cfg, s') && SameCarried(s.conns, s'.conns) && s'.load == s.load &&
      s'.total == s.total
    ensures Exact(cfg, s')
  {
    forall loop ensures LoopSet(s.conns, loop) == LoopSet(s'.conns, loop) { SameSets(s.conns, s'.conns, loop); }
    SameSets(s.conns, s'.conns, 0);
  }

  lemma Without(s: set<nat>, batch: set<nat>)
    requires batch <= s
    ensures |s - batch| == |s| - |batch| && |batch| <= |s|
  {
    assert s == (s - batch) + batch;
  }

  lemma OneMore(s: set<nat>, c: nat)
    requires c !in s
    ensures |s + {c}| == |s| + 1
  {}

  lemma NewReservation(conns: map<nat, Phase>, c: nat, mine: nat, loop: nat)
    requires c !in conns
    ensures LoopSet(conns[c := Reserving(mine)], loop) == LoopSet(conns, loop) + (if loop == mine then {c} else {})
    ensures TotalSet(conns[c := Reserving(mine)]) == TotalSet(conns)
  {}

  lemma FullReservation(conns: map<nat, Phase>, c: nat, mine: nat, loop: nat)
    requires c in conns && conns[c] == Reserving(mine)
    ensures LoopSet(conns[c := Reserved(mine)], loop) == LoopSet(conns, loop)
    ensures TotalSet(conns[c := Reserved(mine)]) == TotalSet(conns) + {c} && c !in TotalSet(conns)
  {}

  lemma LoopLets(conns: map<nat, Phase>, batch: set<nat>, mine: nat, loop: nat)
    requires AllLeaving(conns, batch, mine)
    ensures LoopSet(Moved(conns, batch, Settling(mine)), loop) ==
      LoopSet(conns, loop) - (if loop == mine then batch else {})
    ensures TotalSet(Moved(conns, batch, Settling(mine))) == TotalSet(conns) && batch <= LoopSet(conns, mine)
  {}

  lemma GroupLets(conns: map<nat, Phase>, batch: set<nat>, loop: nat)
    requires AllSettling(conns, batch)
    ensures LoopSet(Moved(conns, batch, Gone), loop) == LoopSet(conns, loop)
    ensures TotalSet(Moved(conns, batch, Gone)) == TotalSet(conns) - batch && batch <= TotalSet(conns)
  {}

  lemma ExactReserveLoop(cfg: Config, s: State)
    requires Inv(cfg, s) && Can(cfg, s, ReserveLoop)
    ensures Exact(cfg, Do(cfg, s, ReserveLoop))
  {
    var (mine, c) := s.chosen.value;
    var s' := Do(cfg, s, ReserveLoop);
    forall loop | 0 <= loop < cfg.loops ensures s'.load[loop] == |LoopSet(s'.conns, loop)| {
      NewReservation(s.conns, c, mine, loop);
      OneMore(LoopSet(s.conns, loop), c);
    }
    NewReservation(s.conns, c, mine, 0);
  }

  lemma ExactReserveTotal(cfg: Config, s: State)
    requires Inv(cfg, s) && Can(cfg, s, ReserveTotal)
    ensures Exact(cfg, Do(cfg, s, ReserveTotal))
  {
    var (mine, c) := s.chosen.value;
    var s' := Do(cfg, s, ReserveTotal);
    forall loop | 0 <= loop < cfg.loops ensures s'.load[loop] == |LoopSet(s'.conns, loop)| {
      FullReservation(s.conns, c, mine, loop);
    }
    FullReservation(s.conns, c, mine, 0);
    OneMore(TotalSet(s.conns), c);
  }

  lemma LoopCarries(s: State, mine: nat, batch: set<nat>)
    requires mine < |s.load| && s.load[mine] == |LoopSet(s.conns, mine)| && AllLeaving(s.conns, batch, mine)
    ensures |batch| <= s.load[mine] &&
      |LoopSet(s.conns, mine) - batch| == Release(s.load[mine], |batch|) == s.load[mine] - |batch|
  {
    LoopLets(s.conns, batch, mine, mine);
    Without(LoopSet(s.conns, mine), batch);
  }

  lemma GroupCarries(s: State, batch: set<nat>)
    requires s.total == |TotalSet(s.conns)| && AllSettling(s.conns, batch)
    ensures |batch| <= s.total && |TotalSet(s.conns) - batch| == Release(s.total, |batch|) == s.total - |batch|
  {
    GroupLets(s.conns, batch, 0);
    Without(TotalSet(s.conns), batch);
  }

  /** The saturating subtraction never saturates: every release takes away connections
      that the counter carries, and each of them once. */
  lemma ReleaseNeverSaturates(cfg: Config, s: State, mine: nat, batch: set<nat>)
    requires Inv(cfg, s)
    ensures Can(cfg, s, ReleaseLoop(mine, batch)) ==> Release(s.load[mine], |batch|) == s.load[mine] - |batch|
    ensures Can(cfg, s, ReleaseTotal(batch)) ==> Release(s.total, |batch|) == s.total - |batch|
  {
    if Can(cfg, s, ReleaseLoop(mine, batch)) { LoopCarries(s, mine, batch); }
    if Can(cfg, s, ReleaseTotal(batch)) { GroupCarries(s, batch); }
  }

  lemma ExactReleaseLoop(cfg: Config, s: State, mine: nat, batch: set<nat>)
    requires Inv(cfg, s) && Can(cfg, s, ReleaseLoop(mine, batch))
    ensures Exact(cfg, Do(cfg, s, ReleaseLoop(mine, batch)))
  {
    var s' := Do(cfg, s, ReleaseLoop(mine, batch));
    LoopCarries(s, mine, batch);
    forall loop
      ensures LoopSet(s'.conns, loop) ==
        if loop == mine then LoopSet(s.conns, loop) - batch else LoopSet(s.conns, loop)
    {
      LoopLets(s.conns, batch, mine, loop);
    }
    LoopLets(s.conns, batch, mine, mine);
    forall c | c in s'.conns && !s'.conns[c].Gone? ensures s'.conns[c].loop < cfg.loops {}
  }

  lemma ExactReleaseTotal(cfg: Config, s: State, batch: set<nat>)
    requires Inv(cfg, s) && Can(cfg, s, ReleaseTotal(batch))
    ensures Exact(cfg, Do(cfg, s, ReleaseTotal(batch)))
  {
    var s' := Do(cfg, s, ReleaseTotal(batch));
    forall loop | 0 <= loop < cfg.loops ensures s'.load[loop] == |LoopSet(s'.conns, loop)| {
      GroupLets(s.conns, batch, loop);
    }
    GroupLets(s.conns, batch, 0);
    Without(TotalSet(s.conns), batch);
  }

  // Posting, adopting and closing move a connection between phases both counters carry.
  lemma ExactMove(cfg: Config, s: State, l: Label)
    requires Inv(cfg, s) && Can(cfg, s, l)
    requires l.Post? || l.Pop? || l.Adopt? || l.CloseSession? || l.CloseMailbox? || l.Choose? || l.StopRunning?
    ensures Exact(cfg, Do(cfg, s, l))
  {
    assert Shape(cfg, Do(cfg, s, l));
    assert SameCarried(s.conns, Do(cfg, s, l).conns);
    SameExact(cfg, s, Do(cfg, s, l));
  }

  lemma ExactStep(cfg: Config, s: State, l: Label)
    requires Inv(cfg, s) && Can(cfg, s, l)
    ensures Exact(cfg, Do(cfg, s, l))
  {
    match l
    case ReserveLoop => ExactReserveLoop(cfg, s);
    case ReserveTotal => ExactReserveTotal(cfg, s);
    case ReleaseLoop(loop, batch) => ExactReleaseLoop(cfg, s, loop, batch);
    case ReleaseTotal(batch) => ExactReleaseTotal(cfg, s, batch);
    case _ => ExactMove(cfg, s, l);
  }

  lemma InvStep(cfg: Config, s: State, l: Label)
    requires Inv(cfg, s) && Can(cfg, s, l)
    ensures Inv(cfg, Do(cfg, s, l))
  {
    ExactStep(cfg, s, l);
    OneDispatcherStep(cfg, s, l);
    CappedStep(cfg, s, l);
  }

  lemma OneDispatcherStep(cfg: Config, s: State, l: Label)
    requires Shape(cfg, s) && OneDispatcher(s) && Can(cfg, s, l)
    ensures OneDispatcher(Do(cfg, s, l))
  {}

  lemma CappedStep(cfg: Config, s: State, l: Label)
    requires Inv(cfg, s) && Can(cfg, s, l) && Shape(cfg, Do(cfg, s, l))
    ensures Capped(cfg, Do(cfg, s, l))
  {
    if l.ReleaseLoop? { ReleaseNeverSaturates(cfg, s, l.loop, l.batch); }
    if l.ReleaseTotal? { ReleaseNeverSaturates(cfg, s, 0, l.batch); }
  }

  ghost predicate CanRun(cfg: Config, s: State, ls: seq<Label>)
    requires Inv(cfg, s)
    decreases |ls|
  {
    ls == [] || (Can(cfg, s, ls[0]) && (InvStep(cfg, s, ls[0]); CanRun(cfg, Do(cfg, s, ls[0]), ls[1..])))
  }

  ghost function After(cfg: Config, s: State, ls: seq<Label>): (s': State)
    requires Inv(cfg, s) && CanRun(cfg, s, ls)
    ensures Inv(cfg, s')
    decreases |ls|
  {
    if ls == [] then s
    else
      InvStep(cfg, s, ls[0]);
      After(cfg, Do(cfg, s, ls[0]), ls[1..])
  }

  function Fresh(cfg: Config): State {
    State(map[], seq(cfg.loops, _ => 0), 0, seq(cfg.loops, _ => true), true, 0, None)
  }

  lemma FreshInv(cfg: Config)
    requires 0 < cfg.loops
    ensures Inv(cfg, Fresh(cfg))
  {
    assert forall loop :: LoopSet(map[], loop) == {};
    assert TotalSet(map[]) == {};
  }

  ghost function Start(cfg: Config): (s: State)
    requires 0 < cfg.loops
    ensures Inv(cfg, s)
  {
    FreshInv(cfg);
    Fresh(cfg)
  }

  /** In every reachable state each loop's load is exactly the connections queued for it,
      open in it or in hand-over to or from it, the group's load is exactly those counted
      by the group, neither cap is exceeded, and the two levels differ only by hand-overs
      in progress. */
  lemma LoadsAreExact(cfg: Config, ls: seq<Label>)
    requires 0 < cfg.loops && CanRun(cfg, Start(cfg), ls)
    ensures var s := After(cfg, Start(cfg), ls);
      s.total == |TotalSet(s.conns)| <= cfg.maxConnections &&
      (forall loop :: 0 <= loop < cfg.loops ==> s.load[loop] == |LoopSet(s.conns, loop)| <= cfg.maxPerLoop) &&
      (forall c :: c in s.conns && !s.conns[c].Reserving? && !s.conns[c].Settling? && !s.conns[c].Gone? ==>
        c in TotalSet(s.conns) && c in LoopSet(s.conns, s.conns[c].loop)) &&
      Sum(s.load) + |SettlingSet(s.conns)| == s.total + |ReservingSet(s.conns)|
  {
    assert Inv(cfg, After(cfg, Start(cfg), ls));
    LevelsAgree(cfg, After(cfg, Start(cfg), ls));
  }

  /* The group's counter and the loops' counters. */

  function Sum(load: seq<nat>): nat {
    if load == [] then 0 else Sum(load[..|load| - 1]) + load[|load| - 1]
  }

  function ReservingSet(conns: map<nat, Phase>): set<nat> {
    set c | c in conns && conns[c].Reserving?
  }

  function SettlingSet(conns: map<nat, Phase>): set<nat> {
    set c | c in conns && conns[c].Settling?
  }

  // What the first n loops carry.
  function BelowSet(conns: map<nat, Phase>, n: nat): set<nat> {
    set c | c in conns && !conns[c].Settling? && !conns[c].Gone? && conns[c].loop < n
  }

  lemma {:induction false} SumOfSets(conns: map<nat, Phase>, load: seq<nat>)
    requires forall loop :: 0 <= loop < |load| ==> load[loop] == |LoopSet(conns, loop)|
    ensures Sum(load) == |BelowSet(conns, |load|)|
    decreases |load|
  {
    if load == [] {
      assert BelowSet(conns, 0) == {};
    } else {
      var last := |load| - 1;
      SumOfSets(conns, load[..last]);
      assert BelowSet(conns, |load|) == BelowSet(conns, last) + LoopSet(conns, last);
      assert BelowSet(conns, last) !! LoopSet(conns, last);
    }
  }

  /** The two levels differ by the hand-overs in progress, and by nothing else. */
  lemma LevelsAgree(cfg: Config, s: State)
    requires Inv(cfg, s)
    ensures Sum(s.load) + |SettlingSet(s.conns)| == s.total + |ReservingSet(s.conns)|
  {
    var carried := BelowSet(s.conns, cfg.loops);
    SumOfSets(s.conns, s.load);
    assert carried !! SettlingSet(s.conns) && TotalSet(s.conns) !! ReservingSet(s.conns);
    assert carried + SettlingSet(s.conns) == TotalSet(s.conns) + ReservingSet(s.conns);
  }

  /* Which loop a connection goes to. */

  predicate LeastLoaded(load: seq<nat>, loop: nat) {
    loop < |load| && forall other :: 0 <= other < |load| ==> load[loop] <= load[other]
  }

  // Some loop could take a connection, and the group too.
  predicate SomeRoom(cfg: Config, s: State) {
    s.total < cfg.maxConnections && exists loop :: 0 <= loop < |s.load| && s.load[loop] < cfg.maxPerLoop
  }

  /** The dispatcher takes the loops in turn: a connection is dropped exactly if the group is
      full or the loop whose turn it is is full, whatever room the others have, and otherwise
      goes to that loop, which is a least loaded one exactly if no other has less. */
  lemma TurnsIgnoreTheLoad(cfg: Config, s: State, c: nat)
    requires Inv(cfg, s) && Can(cfg, s, Choose(c))
    ensures var s' := Do(cfg, s, Choose(c));
      (s'.chosen.None? <==> s.total >= cfg.maxConnections || s.load[s.nextLoop] >= cfg.maxPerLoop) &&
      (s'.chosen.Some? ==>
        (LeastLoaded(s.load, s'.chosen.value.0) <==>
         forall other :: 0 <= other < cfg.loops ==> s.load[s.nextLoop] <= s.load[other]))
  {}

  /** A connection goes to a less loaded loop, and is dropped only without room for it, if and
      only if the loop whose turn it is is a least loaded one or there is no room at all. */
  lemma LessLoadedWhen(cfg: Config, s: State, c: nat)
    requires Inv(cfg, s) && Can(cfg, s, Choose(c))
    ensures var s' := Do(cfg, s, Choose(c));
      (if SomeRoom(cfg, s) then s'.chosen.Some? && LeastLoaded(s.load, s'.chosen.value.0) else s'.chosen.None?) <==>
      (LeastLoaded(s.load, s.nextLoop) || !SomeRoom(cfg, s))
  {}

  // The loop that was asked by a dispatcher while the group had room.
  function Asked(cfg: Config, s: State, l: Label): seq<nat>
    requires Can(cfg, s, l) && Shape(cfg, s)
  {
    if !l.Choose? || s.total >= cfg.maxConnections then []
    else
      var s' := Do(cfg, s, l);
      [if s'.chosen.Some? then s'.chosen.value.0 else s.nextLoop]
  }

  // The loops that were asked in a run, one after the other.
  ghost function Turns(cfg: Config, s: State, ls: seq<Label>): seq<nat>
    requires Inv(cfg, s) && CanRun(cfg, s, ls)
    decreases |ls|
  {
    if ls == [] then []
    else
      InvStep(cfg, s, ls[0]);
      Asked(cfg, s, ls[0]) + Turns(cfg, Do(cfg, s, ls[0]), ls[1..])
  }

  function NextTurn(loops: nat, loop: nat): nat {
    if loop + 1 == loops then 0 else loop + 1
  }

  predicate GoesRound(turns: seq<nat>, loops: nat) {
    (forall k :: 0 <= k < |turns| ==> turns[k] < loops) &&
    (forall k :: 0 < k < |turns| ==> turns[k] == NextTurn(loops, turns[k - 1]))
  }

  predicate OnlyTurn(turns: seq<nat>, k: nat, loop: nat) {
    k < |turns| && turns[k] == loop && forall j :: 0 <= j < |turns| && turns[j] == loop ==> j == k
  }

  lemma OneTurn(cfg: Config, s: State, l: Label)
    requires Can(cfg, s, l) && Shape(cfg, s)
    ensures var s', asked := Do(cfg, s, l), Asked(cfg, s, l);
      if asked == [] then s'.nextLoop == s.nextLoop
      else asked == [s.nextLoop] && s'.nextLoop == NextTurn(cfg.loops, s.nextLoop)
  {}

  lemma {:induction false} TurnsGoRound(cfg: Config, s: State, ls: seq<Label>)
    requires Inv(cfg, s) && CanRun(cfg, s, ls)
    ensures GoesRound(Turns(cfg, s, ls), cfg.loops)
    ensures Turns(cfg, s, ls) != [] ==> Turns(cfg, s, ls)[0] == s.nextLoop
    decreases |ls|
  {
    if ls != [] {
      InvStep(cfg, s, ls[0]);
      OneTurn(cfg, s, ls[0]);
      TurnsGoRound(cfg, Do(cfg, s, ls[0]), ls[1..]);
    }
  }

  lemma {:induction false} TurnAhead(turns: seq<nat>, loops: nat, i: nat, ahead: nat)
    requires GoesRound(turns, loops) && i + ahead < |turns| && ahead < loops
    ensures turns[i + ahead] == if turns[i] + ahead < loops then turns[i] + ahead else turns[i] + ahead - loops
  {
    if ahead > 0 { TurnAhead(turns, loops, i, ahead - 1); }
  }

  /** In every run, as many consecutive choices as there are loops ask every loop once. */
  lemma EveryLoopHasItsTurn(cfg: Config, s: State, ls: seq<Label>, i: nat, loop: nat) returns (k: nat)
    requires Inv(cfg, s) && CanRun(cfg, s, ls) && loop < cfg.loops && i + cfg.loops <= |Turns(cfg, s, ls)|
    ensures OnlyTurn(Turns(cfg, s, ls)[i..i + cfg.loops], k, loop)
  {
    TurnsGoRound(cfg, s, ls);
    var turns := Turns(cfg, s, ls);
    var window := turns[i..i + cfg.loops];
    k := if loop >= turns[i] then loop - turns[i] else loop + cfg.loops - turns[i];
    TurnAhead(turns, cfg.loops, i, k);
    forall j | 0 <= j < |window| && window[j] == loop ensures j == k { TurnAhead(turns, cfg.loops, i, j); }
  }

  lemma Follow(cfg: Config, s: State, l: Label, rest: seq<Label>)
    requires Inv(cfg, s) && Can(cfg, s, l) && Inv(cfg, Do(cfg, s, l)) && CanRun(cfg, Do(cfg, s, l), rest)
    ensures CanRun(cfg, s, [l] + rest) && After(cfg, s, [l] + rest) == After(cfg, Do(cfg, s, l), rest)
  {
    assert ([l] + rest)[0] == l && ([l] + rest)[1..] == rest;
  }

  lemma NoSteps(cfg: Config, s: State)
    requires Inv(cfg, s)
    ensures CanRun(cfg, s, []) && After(cfg, s, []) == s
  {}

  lemma {:induction false} RunOn(cfg: Config, s: State, p: seq<Label>, q: seq<Label>)
    requires Inv(cfg, s) && CanRun(cfg, s, p) && CanRun(cfg, After(cfg, s, p), q)
    ensures CanRun(cfg, s, p + q) && After(cfg, s, p + q) == After(cfg, After(cfg, s, p), q)
    decreases |p|
  {
    if p == [] {
      assert p + q == q;
    } else {
      assert (p + q)[0] == p[0] && (p + q)[1..] == p[1..] + q;
      InvStep(cfg, s, p[0]);
      RunOn(cfg, Do(cfg, s, p[0]), p[1..], q);
    }
  }

  function Dispatch(c: nat): seq<Label> {
    [Choose(c)] + ([ReserveLoop] + ([ReserveTotal] + ([Post(true)] + [])))
  }

  function Queuing(cfg: Config, s: State, c: nat): State
    requires Shape(cfg, s)
  {
    s.(conns := s.conns[c := Queued(s.nextLoop)], load := s.load[s.nextLoop := s.load[s.nextLoop] + 1],
       total := s.total + 1, nextLoop := (s.nextLoop + 1) % cfg.loops)
  }

  // With room everywhere a connection ends up in the mailbox of the loop whose turn it is.
  lemma Dispatches(cfg: Config, s: State, c: nat)
    requires Inv(cfg, s) && Can(cfg, s, Choose(c)) && s.total < cfg.maxConnections && s.accepting[s.nextLoop]
    requires s.load[s.nextLoop] < cfg.maxPerLoop && |QueuedSet(s.conns, s.nextLoop)| < cfg.queueCapacity
    ensures CanRun(cfg, s, Dispatch(c)) && After(cfg, s, Dispatch(c)) == Queuing(cfg, s, c)
  {
    hide Inv, CanRun, After;
    InvIsShape(cfg, s);
    var s1 := Do(cfg, s, Choose(c));
    InvStep(cfg, s, Choose(c));
    var s2 := Do(cfg, s1, ReserveLoop);
    InvStep(cfg, s1, ReserveLoop);
    var s3 := Do(cfg, s2, ReserveTotal);
    InvStep(cfg, s2, ReserveTotal);
    assert QueuedSet(s3.conns, s.nextLoop) == QueuedSet(s.conns, s.nextLoop);
    InvStep(cfg, s3, Post(true));
    NoSteps(cfg, Do(cfg, s3, Post(true)));
    Follow(cfg, s3, Post(true), []);
    Follow(cfg, s2, ReserveTotal, [Post(true)] + []);
    Follow(cfg, s1, ReserveLoop, [ReserveTotal] + ([Post(true)] + []));
    Follow(cfg, s, Choose(c), [ReserveLoop] + ([ReserveTotal] + ([Post(true)] + [])));
  }

  lemma InvIsShape(cfg: Config, s: State)
    requires Inv(cfg, s)
    ensures Shape(cfg, s)
  {}

  function Session(c: nat): seq<Label> {
    [Pop(c)] + ([Adopt(c, true)] + ([CloseSession(c)] + []))
  }

  function Farewell(c: nat, loop: nat): seq<Label> {
    [ReleaseLoop(loop, {c})] + ([ReleaseTotal({c})] + [])
  }

  // A queued connection is adopted and closed,
  lemma Serves(cfg: Config, s: State, c: nat, loop: nat)
    requires Inv(cfg, s) && At(s, c, Queued(loop))
    ensures CanRun(cfg, s, Session(c)) && After(cfg, s, Session(c)) == s.(conns := s.conns[c := Leaving(loop)])
  {
    hide Inv, CanRun, After;
    InvIsShape(cfg, s);
    var s1 := Do(cfg, s, Pop(c));
    InvStep(cfg, s, Pop(c));
    var s2 := Do(cfg, s1, Adopt(c, true));
    InvStep(cfg, s1, Adopt(c, true));
    InvStep(cfg, s2, CloseSession(c));
    NoSteps(cfg, Do(cfg, s2, CloseSession(c)));
    Follow(cfg, s2, CloseSession(c), []);
    Follow(cfg, s1, Adopt(c, true), [CloseSession(c)] + []);
    Follow(cfg, s, Pop(c), [Adopt(c, true)] + ([CloseSession(c)] + []));
  }

  // and then released by its loop and by the group.
  lemma Leaves(cfg: Config, s: State, c: nat, loop: nat)
    requires Inv(cfg, s) && At(s, c, Leaving(loop)) && loop < cfg.loops && |s.load| == cfg.loops
    ensures CanRun(cfg, s, Farewell(c, loop))
    ensures After(cfg, s, Farewell(c, loop)) ==
      s.(conns := s.conns[c := Gone], load := s.load[loop := Release(s.load[loop], 1)], total := Release(s.total, 1))
  {
    hide Inv, CanRun, After;
    InvIsShape(cfg, s);
    var s1 := Do(cfg, s, ReleaseLoop(loop, {c}));
    InvStep(cfg, s, ReleaseLoop(loop, {c}));
    assert s1.conns == s.conns[c := Settling(loop)];
    InvStep(cfg, s1, ReleaseTotal({c}));
    assert Do(cfg, s1, ReleaseTotal({c})).conns == s.conns[c := Gone];
    NoSteps(cfg, Do(cfg, s1, ReleaseTotal({c})));
    Follow(cfg, s1, ReleaseTotal({c}), []);
    Follow(cfg, s, ReleaseLoop(loop, {c}), [ReleaseTotal({c})] + []);
  }

  /** Two loops for one connection each. Both fill up, the one of loop 1 leaves, and the next
      connection is dropped on full loop 0, though loop 1 is empty and the group has room. */
  lemma DroppedBesideAnEmptyLoop() returns (ls: seq<Label>)
    ensures var cfg := Config(2, 2, 1, 1);
      CanRun(cfg, Start(cfg), ls) &&
      var s := After(cfg, Start(cfg), ls);
      s.load == [1, 0] && s.nextLoop == 0 && SomeRoom(cfg, s) && Can(cfg, s, Choose(2)) &&
      Do(cfg, s, Choose(2)).chosen.None?
  {
    hide Inv, CanRun, After, Dispatch, Session, Farewell;
    var cfg := Config(2, 2, 1, 1);
    var s0 := Start(cfg);
    InvIsShape(cfg, s0);
    assert QueuedSet(s0.conns, 0) == {};
    Dispatches(cfg, s0, 0);
    var s1 := Queuing(cfg, s0, 0);
    assert QueuedSet(s1.conns, 1) == {};
    Dispatches(cfg, s1, 1);
    var s2 := Queuing(cfg, s1, 1);
    Serves(cfg, s2, 1, 1);
    Leaves(cfg, s2.(conns := s2.conns[1 := Leaving(1)]), 1, 1);
    RunOn(cfg, s2, Session(1), Farewell(1, 1));
    RunOn(cfg, s1, Dispatch(1), Session(1) + Farewell(1, 1));
    RunOn(cfg, s0, Dispatch(0), Dispatch(1) + (Session(1) + Farewell(1, 1)));
    ls := Dispatch(0) + (Dispatch(1) + (Session(1) + Farewell(1, 1)));
    assert After(cfg, s0, ls).load == [1, 0];
    assert After(cfg, s0, ls).load[1] < 1;
  }

  lemma SubsetSize(a: set<nat>, b: set<nat>)
    requires a <= b
    ensures |a| <= |b|
  {
    Without(b, a);
  }

  /** A loop never meets its own connection limit in a dispatched connection: whenever it
      adopts one, it has fewer sessions than the limit. */
  lemma AdoptIsBelowTheLimit(cfg: Config, ls: seq<Label>, c: nat)
    requires 0 < cfg.loops && CanRun(cfg, Start(cfg), ls)
    requires c in After(cfg, Start(cfg), ls).conns && After(cfg, Start(cfg), ls).conns[c].Adopting?
    ensures var s := After(cfg, Start(cfg), ls);
      |OpenSet(s.conns, s.conns[c].loop)| < cfg.maxPerLoop
  {
    var s := After(cfg, Start(cfg), ls);
    var loop := s.conns[c].loop;
    SubsetSize(OpenSet(s.conns, loop) + {c}, LoopSet(s.conns, loop));
    assert |OpenSet(s.conns, loop) + {c}| == |OpenSet(s.conns, loop)| + 1;
  }

  /** A drain that sees the group's load at zero, with no dispatch under way, has seen every
      connection go: nothing is queued, being adopted or open anywhere. */
  lemma ZeroMeansDrained(cfg: Config, ls: seq<Label>)
    requires 0 < cfg.loops && CanRun(cfg, Start(cfg), ls)
    requires After(cfg, Start(cfg), ls).total == 0 && After(cfg, Start(cfg), ls).chosen.None?
    ensures var s := After(cfg, Start(cfg), ls);
      (forall c :: c in s.conns ==> s.conns[c].Gone?) && forall loop :: 0 <= loop < cfg.loops ==> s.load[loop] == 0
  {
    var s := After(cfg, Start(cfg), ls);
    forall c | c in s.conns ensures s.conns[c].Gone? {
      assert ByTotal(s.conns[c]) ==> c in TotalSet(s.conns);
    }
    forall loop | 0 <= loop < cfg.loops ensures s.load[loop] == 0 { assert LoopSet(s.conns, loop) == {}; }
  }

  function Rank(p: Phase): nat {
    match p
    case Reserving(_) => 0
    case Reserved(_) => 1
    case Queued(_) => 2
    case Adopting(_) => 3
    case Open(_) => 4
    case Leaving(_) => 5
    case Settling(_) => 6
    case Gone => 7
  }

  /** Every connection only moves forward, so it is released by its loop once and by the
      group once, whatever closes it. */
  lemma {:induction false} ConnectionsMoveForward(cfg: Config, s: State, ls: seq<Label>, c: nat)
    requires Inv(cfg, s) && CanRun(cfg, s, ls) && c in s.conns
    ensures c in After(cfg, s, ls).conns && Rank(s.conns[c]) <= Rank(After(cfg, s, ls).conns[c])
    ensures !After(cfg, s, ls).conns[c].Gone? ==>
      !s.conns[c].Gone? && After(cfg, s, ls).conns[c].loop == s.conns[c].loop
    decreases |ls|
  {
    if ls != [] {
      InvStep(cfg, s, ls[0]);
      OneStepForward(cfg, s, ls[0], c);
      ConnectionsMoveForward(cfg, Do(cfg, s, ls[0]), ls[1..], c);
    }
  }

  lemma OneStepForward(cfg: Config, s: State, l: Label, c: nat)
    requires Inv(cfg, s) && Can(cfg, s, l) && c in s.conns
    ensures var s' := Do(cfg, s, l);
      c in s'.conns && Rank(s.conns[c]) <= Rank(s'.conns[c]) &&
      (!s'.conns[c].Gone? ==> !s.conns[c].Gone? && s'.conns[c].loop == s.conns[c].loop)
  {}
}
