/** The timer core: a command queue, a deadline heap with lazy deletion and a reservation
    table that make up the plain set of live timers. Every method is one section under the
    core's mutex. */
module TimerCore {
  import opened Wrappers
  import opened TimerSpec

  const ID_LIMIT: nat := 0xFFFF_FFFF_FFFF_FFFF

  datatype Status =
    | Ok | InvalidConfig | ConfigConflict | NotInitialized | Stopped | QueueFull | TimerLimit | SinkExpired
      | IdExhausted | NotFound | GenerationMismatch

  datatype Config = Config(commandCapacity: nat, timerCapacity: nat)

  datatype Reservation = Reservation(generation: nat, cancelled: bool)

  datatype Command = ScheduleNode(node: Node) | Stop

  /* The heap: a priority queue by (deadline, sequence), kept in order. */

  predicate InOrder(h: seq<Node>) {
    forall i, j :: 0 <= i < j < |h| ==> Before(h[i], h[j])
  }

  function Insert(h: seq<Node>, n: Node): (r: seq<Node>)
    ensures |r| == |h| + 1
    ensures forall x :: x in r <==> x == n || x in h
  {
    if h == [] then [n]
    else if Before(n, h[0]) then [n] + h
    else [h[0]] + Insert(h[1..], n)
  }

  lemma {:induction false} InsertKeepsOrder(h: seq<Node>, n: Node)
    requires InOrder(h) && forall x :: x in h ==> x.sequence != n.sequence
    ensures InOrder(Insert(h, n))
    decreases |h|
  {
    if h != [] && !Before(n, h[0]) {
      InsertKeepsOrder(h[1..], n);
      var tail := Insert(h[1..], n);
      forall j | 0 <= j < |tail| ensures Before(h[0], tail[j]) {
        assert tail[j] == n || tail[j] in h[1..];
        assert h[0] in h;
      }
    }
  }

  /* The three structures and what ties them together. */

  // scheduled is the node of every id ever handed out.
  datatype Parts = Parts(
    commands: seq<Command>,
    heap: seq<Node>,
    reservations: map<nat, Reservation>,
    next: nat,
    scheduled: map<nat, Node>)

  // No timer is queued twice.
  predicate Distinct(commands: seq<Command>) {
    forall i, j :: 0 <= i < j < |commands| && commands[i].ScheduleNode? ==> commands[i] != commands[j]
  }

  // A node in the heap or in the queue is the one its id was handed out for.
  predicate Known(scheduled: map<nat, Node>, n: Node) {
    n.id.value in scheduled && scheduled[n.id.value] == n
  }

  // Each reservation has exactly one node, in the queue or in the heap.
  predicate Tied(p: Parts) {
    0 < p.next && Numbered(p.scheduled, p.next) && InOrder(p.heap) && Distinct(p.commands) &&
    (forall n :: n in p.heap ==> Known(p.scheduled, n) && ScheduleNode(n) !in p.commands) &&
    (forall c :: c in p.commands && c.ScheduleNode? ==> Known(p.scheduled, c.node)) &&
    p.reservations.Keys <= p.scheduled.Keys &&
    (forall id :: id in p.reservations ==>
      p.reservations[id].generation == id && (p.scheduled[id] in p.heap || ScheduleNode(p.scheduled[id]) in p.commands))
  }

  predicate NoneCancelled(p: Parts) {
    forall id :: id in p.reservations ==> !p.reservations[id].cancelled
  }

  function Armed(p: Parts): map<nat, Node>
    requires p.reservations.Keys <= p.scheduled.Keys
  {
    map id | id in p.reservations && p.scheduled[id] in p.heap :: p.scheduled[id]
  }

  function Waiting(p: Parts): map<nat, Node>
    requires p.reservations.Keys <= p.scheduled.Keys
  {
    map id | id in p.reservations && p.scheduled[id] !in p.heap :: p.scheduled[id]
  }

  predicate Active(p: Parts, n: Node) {
    n.id.value in p.reservations && p.reservations[n.id.value].generation == n.id.generation &&
    !p.reservations[n.id.value].cancelled
  }

  lemma LiveCount(p: Parts)
    requires Tied(p)
    ensures |Armed(p)| + |Waiting(p)| == |p.reservations|
  {
    assert Armed(p).Keys + Waiting(p).Keys == p.reservations.Keys;
    assert Armed(p).Keys !! Waiting(p).Keys;
  }

  function Enqueued(p: Parts, node: Node): Parts {
    p.(reservations := p.reservations[node.id.value := Reservation(node.id.generation, false)],
       commands := p.commands + [ScheduleNode(node)],
       next := p.next + 1,
       scheduled := p.scheduled[node.id.value := node])
  }

  lemma EnqueueTied(p: Parts, node: Node)
    requires Tied(p) && node.id == TimerId(p.next, p.next) && node.sequence == p.next - 1
    ensures Tied(Enqueued(p, node))
  {
    assert node !in p.heap;
    assert ScheduleNode(node) !in p.commands;
  }

  lemma EnqueueLive(p: Parts, node: Node)
    requires Tied(p) && node.id == TimerId(p.next, p.next) && Tied(Enqueued(p, node))
    ensures Armed(Enqueued(p, node)) == Armed(p) && Waiting(Enqueued(p, node)) == Waiting(p)[p.next := node]
  {
    EnqueueArmed(p, node);
    EnqueueWaiting(p, node);
  }

  lemma EnqueueArmed(p: Parts, node: Node)
    requires Tied(p) && node.id == TimerId(p.next, p.next) && Tied(Enqueued(p, node))
    ensures Armed(Enqueued(p, node)) == Armed(p)
  {
    assert node !in p.heap;
  }

  lemma EnqueueWaiting(p: Parts, node: Node)
    requires Tied(p) && node.id == TimerId(p.next, p.next) && Tied(Enqueued(p, node))
    ensures Waiting(Enqueued(p, node)) == Waiting(p)[p.next := node]
  {
    assert node !in p.heap;
  }

  function Released(p: Parts, id: nat): Parts {
    p.(reservations := p.reservations - {id})
  }

  lemma ReleaseTied(p: Parts, id: nat)
    requires Tied(p)
    ensures Tied(Released(p, id))
    ensures Armed(Released(p, id)) == Armed(p) - {id} && Waiting(Released(p, id)) == Waiting(p) - {id}
  {}

  /* The worker: draining commands, and dropping stale nodes from the top of the heap. */

  function Drained(p: Parts): Parts
    requires p.commands != []
  {
    match p.commands[0]
    case ScheduleNode(node) =>
      p.(commands := p.commands[1..], heap := if Active(p, node) then Insert(p.heap, node) else p.heap)
    case Stop =>
      p.(commands := p.commands[1..], reservations := map id | id in p.reservations ::
        p.reservations[id].(cancelled := true))
  }

  lemma FrontAlone(p: Parts)
    requires Tied(p) && p.commands != [] && p.commands[0].ScheduleNode?
    ensures p.commands[0] !in p.commands[1..] && Known(p.scheduled, p.commands[0].node)
    ensures forall c :: c in p.commands <==> c == p.commands[0] || c in p.commands[1..]
  {
    assert p.commands[0] in p.commands;
  }

  lemma DrainScheduled(p: Parts)
    requires Tied(p) && p.commands != [] && p.commands[0].ScheduleNode? && NoneCancelled(p)
    ensures Tied(Drained(p)) && NoneCancelled(Drained(p))
  {
    var node := p.commands[0].node;
    FrontAlone(p);
    if Active(p, node) {
      forall x | x in p.heap ensures x.sequence != node.sequence { assert x != node; }
      InsertKeepsOrder(p.heap, node);
    }
  }

  lemma DrainStop(p: Parts)
    requires Tied(p) && p.commands == [Stop]
    ensures Tied(Drained(p)) && AllCancelled(Drained(p)) && Drained(p).reservations.Keys == p.reservations.Keys
  {
    assert p.commands[0] == Stop;
  }

  predicate AllCancelled(p: Parts) {
    forall id :: id in p.reservations ==> p.reservations[id].cancelled
  }

  // The top of the heap goes, and with it a reservation of its id.
  function Popped(p: Parts): Parts
    requires p.heap != []
  {
    p.(heap := p.heap[1..], reservations := p.reservations - {p.heap[0].id.value})
  }

  lemma TopAlone(p: Parts)
    requires Tied(p) && p.heap != []
    ensures p.heap[0] !in p.heap[1..] && Known(p.scheduled, p.heap[0])
    ensures forall n :: n in p.heap <==> n == p.heap[0] || n in p.heap[1..]
  {
    assert p.heap[0] in p.heap;
    assert forall j :: 0 < j < |p.heap| ==> Before(p.heap[0], p.heap[j]);
  }

  lemma PopTied(p: Parts)
    requires Tied(p) && p.heap != []
    ensures Tied(Popped(p))
  {
    TopAlone(p);
  }

  lemma PopLive(p: Parts)
    requires Tied(p) && p.heap != [] && Tied(Popped(p))
    ensures Armed(Popped(p)) == Armed(p) - {p.heap[0].id.value} && Waiting(Popped(p)) == Waiting(p)
  {
    TopAlone(p);
  }

  // An active top is the earliest armed timer.
  lemma TopIsFirst(p: Parts)
    requires Tied(p) && p.heap != [] && Active(p, p.heap[0])
    ensures IsFirst(Armed(p), p.heap[0].id.value) && Armed(p)[p.heap[0].id.value] == p.heap[0]
  {
    var top := p.heap[0];
    assert top in p.heap;
    forall other | other in Armed(p) && other != top.id.value ensures Before(top, Armed(p)[other]) {
      var j :| 0 <= j < |p.heap| && p.heap[j] == p.scheduled[other];
      assert Before(p.heap[0], p.heap[j]);
    }
  }

  predicate StopLast(commands: seq<Command>) {
    forall i :: 0 <= i < |commands| - 1 ==> commands[i].ScheduleNode?
  }

  lemma NoStopYet(commands: seq<Command>, node: Node)
    requires Stop !in commands
    ensures Stop !in commands + [ScheduleNode(node)] && StopLast(commands + [ScheduleNode(node)])
  {
    forall i | 0 <= i < |commands| ensures commands[i].ScheduleNode? { assert commands[i] in commands; }
  }

  class Core {
    var config: Option<Config>
    var commands: seq<Command>
    var heap: seq<Node>
    var reservations: map<nat, Reservation>
    var nextId: nat
    var nextGeneration: nat
    var nextSequence: nat
    var accepting: bool
    var stopRequested: bool
    var stopped: bool
    ghost var parts: Parts

    ghost predicate Matches()
      reads this
    {
      parts == Parts(commands, heap, reservations, nextId, parts.scheduled)
    }

    ghost predicate Valid()
      reads this
    {
      Matches() && nextGeneration == nextId && nextId == nextSequence + 1 &&
      Tied(parts) && NoneCancelled(parts) && StopLast(commands) &&
      nextId <= ID_LIMIT &&
      (config.None? ==> commands == [] && heap == [] && reservations == map[] && !stopRequested) &&
      (config.Some? ==> accepting == !stopRequested) &&
      (stopRequested && !stopped <==> Stop in commands) &&
      (stopped ==> stopRequested && heap == [] && commands == [] && reservations == map[])
    }

    ghost function Now(): View
      requires Tied(parts)
      reads this
    {
      View(Armed(parts), Waiting(parts), nextId, stopRequested, stopped)
    }

    constructor ()
      ensures Valid() && config.None? && Now() == Start().v
    {
      config, commands, heap, reservations := None, [], [], map[];
      nextId, nextGeneration, nextSequence := 1, 1, 0;
      accepting, stopRequested, stopped := false, false, false;
      parts := Parts([], [], map[], 1, map[]);
    }

    method Init(requested: Config) returns (status: Status)
      requires Valid()
      modifies this`config, this`accepting
      ensures Valid() && Now() == old(Now())
      ensures status == InvalidConfig <==> requested.commandCapacity == 0 || requested.timerCapacity == 0
      ensures status == Ok <==> config == Some(requested) && status != InvalidConfig
      ensures old(config).None? ==> status == Ok || status == InvalidConfig
      ensures old(config).Some? || status != Ok ==> config == old(config)
    {
      if requested.commandCapacity == 0 || requested.timerCapacity == 0 {
        return InvalidConfig;
      }
      if config.Some? {
        return if config.value == requested then Ok else ConfigConflict;
      }
      config, accepting := Some(requested), true;
      return Ok;
    }

    /** Schedules a timer. A cancelled timer no longer counts against the timer capacity,
        whatever is left of it in the heap or the queue. */
    method ScheduleAt(deadline: int, sinkExpired: bool, event: Event) returns (status: Status, id: TimerId)
      requires Valid()
      modifies this
      ensures Valid() && config == old(config) && heap == old(heap) && stopRequested == old(stopRequested)
      ensures status == Ok <==>
        config.Some? && accepting && !sinkExpired && |old(commands)| < config.value.commandCapacity &&
        |old(Now()).armed| + |old(Now()).waiting| < config.value.timerCapacity && old(nextId) < ID_LIMIT
      ensures status == Ok ==>
        nextId == old(nextId) + 1 &&
        commands == old(commands) + [ScheduleNode(Node(deadline, old(nextId) - 1, id, event))]
      ensures status == Ok ==>
        Now() == Schedule(old(Now()), deadline, event) && id == TimerId(old(nextId), old(nextId)) &&
        config.Some? && !old(stopRequested) && |old(Now()).armed| + |old(Now()).waiting| < config.value.timerCapacity
      ensures status != Ok ==> Now() == old(Now())
      ensures status == TimerLimit ==>
        config.Some? && |old(Now()).armed| + |old(Now()).waiting| >= config.value.timerCapacity
    {
      LiveCount(parts);
      id := TimerId(0, 0);
      if config.None? {
        return NotInitialized, id;
      }
      if !accepting {
        return Stopped, id;
      }
      if sinkExpired {
        return SinkExpired, id;
      }
      if |commands| >= config.value.commandCapacity {
        return QueueFull, id;
      }
      if |reservations| >= config.value.timerCapacity {
        return TimerLimit, id;
      }
      if nextId == ID_LIMIT || nextGeneration == ID_LIMIT || nextSequence == ID_LIMIT {
        return IdExhausted, id;
      }
      id := Enqueue(deadline, event);
      status := Ok;
    }

    // The reservation comes first, so that a cancel can overtake the queued command.
    method Reserve(node: Node)
      requires Matches() && node.id == TimerId(nextId, nextGeneration)
      modifies this`reservations, this`commands, this`nextId, this`nextGeneration, this`nextSequence, this`parts
      ensures Matches() && parts == Enqueued(old(parts), node)
      ensures nextGeneration == old(nextGeneration) + 1 && nextSequence == old(nextSequence) + 1
    {
      reservations := reservations[node.id.value := Reservation(node.id.generation, false)];
      commands := commands + [ScheduleNode(node)];
      nextId, nextGeneration, nextSequence := nextId + 1, nextGeneration + 1, nextSequence + 1;
      parts := Enqueued(parts, node);
    }

    method Enqueue(deadline: int, event: Event) returns (id: TimerId)
      requires Valid() && config.Some? && !stopRequested && nextId < ID_LIMIT
      modifies this`reservations, this`commands, this`nextId, this`nextGeneration, this`nextSequence, this`parts
      ensures nextId == old(nextId) + 1 &&
        commands == old(commands) + [ScheduleNode(Node(deadline, old(nextId) - 1, id, event))]
      ensures Valid() && Now() == Schedule(old(Now()), deadline, event) && id == TimerId(old(nextId), old(nextId))
    {
      id := TimerId(nextId, nextGeneration);
      var node := Node(deadline, nextSequence, id, event);
      EnqueueTied(parts, node);
      EnqueueLive(parts, node);
      NoStopYet(commands, node);
      Reserve(node);
    }

    method CancelTimer(id: TimerId) returns (status: Status)
      requires Valid()
      modifies this`reservations, this`parts
      ensures Valid() && (config.Some? ==> Now() == Cancel(old(Now()), id))
      ensures status == Ok <==> config.Some? && !stopRequested && IsLive(old(Now()), id)
      ensures status != Ok ==> Now() == old(Now())
    {
      ReleaseTied(parts, id.value);
      if config.None? {
        return NotInitialized;
      }
      if !accepting {
        return Stopped;
      }
      if id.value !in reservations {
        return NotFound;
      }
      if reservations[id.value].generation != id.generation {
        return GenerationMismatch;
      }
      reservations := reservations - {id.value};
      parts := Released(parts, id.value);
      return Ok;
    }

    method RequestStop() returns (status: Status)
      requires Valid()
      modifies this`commands, this`accepting, this`stopRequested, this`parts
      ensures Valid() && status == (if config.None? then NotInitialized else Ok)
      ensures Now() == if config.None? then old(Now()) else old(Now()).(stopRequested := true)
    {
      if config.None? {
        return NotInitialized;
      }
      if stopRequested {
        return Ok;
      }
      StopTied(parts);
      commands := commands + [Stop];
      parts := parts.(commands := commands);
      accepting, stopRequested := false, true;
      return Ok;
    }

    // One queued command: a timer that is still reserved enters the heap, a Stop cancels all.
    method DrainOne()
      requires Matches() && commands != []
      modifies this`commands, this`heap, this`reservations, this`stopped, this`parts
      ensures Matches() && parts == Drained(old(parts))
      ensures stopped == (old(stopped) || old(commands)[0] == Stop)
    {
      match commands[0] {
        case ScheduleNode(node) =>
          if node.id.value in reservations && reservations[node.id.value].generation == node.id.generation &&
             !reservations[node.id.value].cancelled {
            heap := Insert(heap, node);
          }
        case Stop =>
          reservations := map id | id in reservations :: reservations[id].(cancelled := true);
          stopped := true;
      }
      commands := commands[1..];
      parts := Drained(parts);
    }

    method DrainCommands()
      requires Valid() && config.Some?
      modifies this`commands, this`heap, this`reservations, this`stopped, this`parts
      ensures Matches() && Draining(parts, stopRequested, stopped) && commands == []
      ensures parts.scheduled == old(parts.scheduled) && reservations.Keys == old(reservations.Keys)
      ensures Filled(old(parts), heap)
    {
      while commands != []
        invariant Matches() && Draining(parts, stopRequested, stopped)
        invariant parts.scheduled == old(parts.scheduled) && reservations.Keys == old(reservations.Keys)
        invariant forall n :: Enters(parts, n) <==> Enters(old(parts), n)
        decreases |commands|
      {
        DrainStep(parts, stopRequested, stopped);
        DrainEnters(parts, stopRequested, stopped);
        DrainOne();
      }
    }

    // Drops the top of the heap, and its reservation if a Stop cancelled it.
    method PopStale()
      requires Matches() && heap != []
      modifies this`heap, this`reservations, this`parts
      ensures Matches() && parts == Stale(old(parts))
    {
      var id := heap[0].id;
      if id.value in reservations && reservations[id.value].generation == id.generation &&
         reservations[id.value].cancelled {
        reservations := reservations - {id.value};
      }
      heap := heap[1..];
      parts := Stale(parts);
    }

    // Lazy deletion: an inactive node stays in the heap exactly behind an active one.
    method CleanupStale()
      requires Matches() && Tied(parts)
      modifies this`heap, this`reservations, this`parts
      ensures Matches() && Settled(old(parts), parts) && Trimmed(old(parts), parts)
      ensures forall n :: n in heap <==> n in old(heap) && BehindActive(old(parts), n)
    {
      while heap != [] && !(heap[0].id.value in reservations &&
                            reservations[heap[0].id.value].generation == heap[0].id.generation &&
                            !reservations[heap[0].id.value].cancelled)
        invariant Matches() && Cleaner(old(parts), parts) && Trimmed(old(parts), parts)
        decreases |heap|
      {
        StaleStep(old(parts), parts);
        TrimStep(old(parts), parts);
        PopStale();
      }
      forall n ensures n in heap <==> n in old(heap) && BehindActive(old(parts), n) {
        StaysBehind(old(parts), parts, n);
      }
    }

    method NextDeadline() returns (next: Option<int>)
      requires Matches() && Tied(parts) && (heap == [] || Active(parts, heap[0]))
      ensures IsNextDeadline(Armed(parts), next)
    {
      if heap == [] {
        return None;
      }
      TopIsFirst(parts);
      return Some(heap[0].deadline);
    }

    /** Drains the command queue and answers when the worker has to wake: the earliest
        deadline of all live timers. Once a stop has been processed nothing is left. */
    method ProcessCommands() returns (status: Status, next: Option<int>)
      requires Valid()
      modifies this`commands, this`heap, this`reservations, this`stopped, this`parts
      ensures Valid() && status == (if config.None? then NotInitialized else Ok)
      ensures config.None? ==> Now() == old(Now())
      ensures config.Some? ==> Now() == Process(old(Now())) && commands == [] && IsNextDeadline(Now().armed, next)
      ensures stopped ==> heap == [] && reservations == map[]
      ensures config.Some? && !stopped ==> FilledAndCut(old(parts), Now().armed, heap)
    {
      if config.None? {
        return NotInitialized, None;
      }
      hide Tied, Armed, Waiting, FilledAndCut, NoneCancelled, IsNextDeadline;
      TiedFacts(parts);
      next := DrainAndSettle();
      TiedFacts(parts);
      status := Ok;
    }

    method DrainAndSettle() returns (next: Option<int>)
      requires Valid() && config.Some?
      modifies this`commands, this`heap, this`reservations, this`stopped, this`parts
      ensures Matches() && Tied(parts) && NoneCancelled(parts) && commands == []
      ensures stopped == stopRequested && IsNextDeadline(Armed(parts), next) && Waiting(parts) == map[]
      ensures stopped ==> heap == [] && reservations == map[] && Armed(parts) == map[]
      ensures !stopped ==> Armed(parts) == old(Armed(parts) + Waiting(parts))
      ensures !stopped ==> FilledAndCut(old(parts), Armed(parts), heap)
    {
      hide Tied, Armed, Waiting, Filled, Cut, FilledAndCut;
      ghost var before := parts;
      TiedFacts(parts);
      DrainCommands();
      TiedFacts(parts);
      DrainedLive(before, parts);
      ghost var full := heap;
      next := Settle();
      TiedFacts(parts);
      if stopped {
        NothingLeft(parts);
      } else {
        FillAndCut(before, full, Armed(parts), heap);
      }
    }

    // After the last command: stale nodes go, and the top of the heap says when to wake.
    method Settle() returns (next: Option<int>)
      requires Matches() && Draining(parts, stopRequested, stopped) && commands == []
      modifies this`heap, this`reservations, this`parts
      ensures Matches() && Tied(parts) && NoneCancelled(parts) && IsNextDeadline(Armed(parts), next)
      ensures stopped ==> heap == [] && reservations == map[]
      ensures !stopped ==> Armed(parts) == old(Armed(parts)) && Waiting(parts) == old(Waiting(parts))
      ensures !stopped ==> Cut(old(heap), Armed(parts), heap)
    {
      hide Tied, Armed, Waiting, Active, Trimmed, BehindActive, BehindLive;
      TiedFacts(parts);
      CleanupStale();
      TiedFacts(parts);
      next := NextDeadline();
      if !stopped {
        forall n ensures BehindActive(old(parts), n) <==> BehindLive(Armed(parts), n) {
          BehindArmed(old(parts), n);
        }
      }
    }

    // One turn of the ready loop: the section that picks the next due timer.
    method TakeReady(now: int) returns (taken: Option<Node>)
      requires Valid()
      modifies this`heap, this`reservations, this`parts
      ensures Valid() && Takes(old(Now()), now, taken) && Now() == AfterTake(old(Now()), taken)
      ensures |heap| <= old(|heap|) && (taken.Some? ==> |heap| < old(|heap|))
    {
      hide Trimmed, BehindActive;
      if stopRequested {
        return None;
      }
      CleanupStale();
      taken := TakeTop(now);
    }

    method TakeTop(now: int) returns (taken: Option<Node>)
      requires Valid() && !stopRequested && (heap == [] || Active(parts, heap[0]))
      modifies this`heap, this`reservations, this`parts
      ensures Valid() && Takes(old(Now()), now, taken) && Now() == AfterTake(old(Now()), taken)
      ensures |heap| <= old(|heap|) && (taken.Some? ==> |heap| < old(|heap|))
    {
      if heap == [] {
        return None;
      }
      TopIsFirst(parts);
      if heap[0].deadline > now {
        return None;
      }
      PopTied(parts);
      PopLive(parts);
      taken := Some(heap[0]);
      PopTop();
    }

    method PopTop()
      requires Matches() && heap != []
      modifies this`heap, this`reservations, this`parts
      ensures Matches() && parts == Popped(old(parts))
    {
      reservations := reservations - {heap[0].id.value};
      heap := heap[1..];
      parts := Popped(parts);
    }

    /** A ready cycle that nobody interrupts: it emits exactly the live timers that are due,
        in (deadline, sequence) order, ends because every turn shrinks the heap, and answers
        with the earliest deadline that is left. */
    method RunReady(now: int) returns (status: Status, emitted: seq<Node>, next: Option<int>)
      requires Valid()
      modifies this`commands, this`heap, this`reservations, this`stopped, this`parts
      ensures Valid() && status == (if config.None? then NotInitialized else Ok)
      ensures config.Some? ==> Emits(Process(old(Now())), now, emitted, Now()) && IsNextDeadline(Now().armed, next)
    {
      emitted := [];
      status, next := ProcessCommands();
      if status == Ok {
        emitted := ReadyLoop(now);
        next := Closing();
      }
    }

    // The last section of the cycle: stale nodes go, and the top says when to wake.
    method Closing() returns (next: Option<int>)
      requires Valid()
      modifies this`heap, this`reservations, this`parts
      ensures Valid() && Now() == old(Now()) && IsNextDeadline(Now().armed, next)
    {
      hide Trimmed, BehindActive;
      CleanupStale();
      next := NextDeadline();
    }

    method ReadyLoop(now: int) returns (emitted: seq<Node>)
      requires Valid()
      modifies this`heap, this`reservations, this`parts
      ensures Valid() && Emits(old(Now()), now, emitted, Now())
    {
      emitted := [];
      ghost var start := Now();
      NothingYet(start, now);
      var taken := TakeReady(now);
      TookOne(start, now, [], start, taken);
      while taken.Some?
        invariant Valid() && Emitting(start, now, emitted, taken, Now())
        decreases |heap|, if taken.Some? then 1 else 0
      {
        emitted := emitted + [taken.value];
        ghost var before := Now();
        taken := TakeReady(now);
        TookOne(start, now, emitted, before, taken);
      }
    }
  }

  function Ids(nodes: seq<Node>): set<nat> {
    set n | n in nodes :: n.id.value
  }

  // emitted are due timers of v, in order, v' is what is left, and nothing left comes earlier.
  ghost predicate EmitsSoFar(v: View, now: int, emitted: seq<Node>, v': View) {
    InOrder(emitted) && v' == v.(armed := v.armed - Ids(emitted)) &&
    (forall n :: n in emitted ==> n.id.value in v.armed && v.armed[n.id.value] == n && n.deadline <= now) &&
    (forall n, id :: n in emitted && id in v'.armed ==> Before(n, v'.armed[id]))
  }

  ghost predicate Emits(v: View, now: int, emitted: seq<Node>, v': View) {
    EmitsSoFar(v, now, emitted, v') && (v.stopRequested || forall id :: id in v'.armed ==> v'.armed[id].deadline > now)
  }

  ghost predicate Emitting(v: View, now: int, emitted: seq<Node>, taken: Option<Node>, v': View) {
    if taken.Some? then EmitsSoFar(v, now, emitted + [taken.value], v') else Emits(v, now, emitted, v')
  }

  lemma NothingYet(v: View, now: int)
    ensures EmitsSoFar(v, now, [], v)
  {
    assert v.armed - Ids([]) == v.armed;
  }

  lemma TookOne(v: View, now: int, emitted: seq<Node>, before: View, taken: Option<Node>)
    requires EmitsSoFar(v, now, emitted, before) && Takes(before, now, taken)
    ensures Emitting(v, now, emitted, taken, AfterTake(before, taken))
  {
    if taken.Some? {
      var more := emitted + [taken.value];
      assert forall n :: n in more <==> n in emitted || n == taken.value;
      assert Ids(more) == Ids(emitted) + {taken.value.id.value};
      assert before.armed - {taken.value.id.value} == v.armed - Ids(more);
      forall i, j | 0 <= i < j < |more| ensures Before(more[i], more[j]) {
        assert more[i] == emitted[i] && more[i] in emitted;
        if j == |emitted| {
          assert more[j] == taken.value == before.armed[taken.value.id.value];
        } else {
          assert more[j] == emitted[j];
        }
      }
    }
  }

  function Stale(p: Parts): Parts
    requires p.heap != []
  {
    var id := p.heap[0].id;
    p.(heap := p.heap[1..],
       reservations :=
         if id.value in p.reservations && p.reservations[id.value].generation == id.generation &&
           p.reservations[id.value].cancelled
         then p.reservations - {id.value} else p.reservations)
  }

  // Only stale nodes have gone since p.
  ghost predicate Cleaner(p: Parts, q: Parts) {
    Tied(q) && q.commands == p.commands && q.next == p.next && q.scheduled == p.scheduled && |q.heap| <= |p.heap| &&
    (NoneCancelled(p) ==> q.reservations == p.reservations && Armed(q) == Armed(p) && Waiting(q) == Waiting(p)) &&
    (AllCancelled(p) ==> AllCancelled(q))
  }

  // What has gone are inactive nodes from the top.
  ghost predicate Trimmed(p: Parts, q: Parts) {
    |q.heap| <= |p.heap| &&
    var gone := |p.heap| - |q.heap|;
    q.heap == p.heap[gone..] && (forall i :: 0 <= i < gone ==> !Active(p, p.heap[i])) &&
    forall n :: n in q.heap ==> Active(q, n) == Active(p, n)
  }

  ghost predicate Settled(p: Parts, q: Parts) {
    Cleaner(p, q) && (q.heap == [] || Active(q, q.heap[0])) &&
    (AllCancelled(p) && p.commands == [] ==> q.heap == [] && q.reservations == map[])
  }

  predicate NotAfter(m: Node, n: Node) {
    m == n || Before(m, n)
  }

  // Nothing before n, or n itself, keeps the cleanup from reaching n, unless it is active.
  predicate BehindActive(p: Parts, n: Node) {
    exists m :: m in p.heap && Active(p, m) && NotAfter(m, n)
  }

  predicate BehindLive(armed: map<nat, Node>, n: Node) {
    exists id :: id in armed && NotAfter(armed[id], n)
  }

  // In the heap once the commands are drained.
  predicate Enters(p: Parts, n: Node) {
    n in p.heap || (ScheduleNode(n) in p.commands && n.id.value in p.reservations)
  }

  // The heap that draining the commands leads to,
  ghost predicate Filled(p: Parts, heap: seq<Node>) {
    forall n :: n in heap <==> Enters(p, n)
  }

  // the one that cleaning up leaves of it,
  ghost predicate Cut(full: seq<Node>, armed: map<nat, Node>, heap: seq<Node>) {
    forall n :: n in heap <==> n in full && BehindLive(armed, n)
  }

  // and both together.
  ghost predicate FilledAndCut(p: Parts, armed: map<nat, Node>, heap: seq<Node>) {
    forall n :: n in heap <==> Enters(p, n) && BehindLive(armed, n)
  }

  lemma FillAndCut(p: Parts, full: seq<Node>, armed: map<nat, Node>, heap: seq<Node>)
    requires Filled(p, full) && Cut(full, armed, heap)
    ensures FilledAndCut(p, armed, heap)
  {}

  lemma DrainEnters(p: Parts, stopRequested: bool, stopped: bool)
    requires Draining(p, stopRequested, stopped) && p.commands != []
    ensures forall n :: Enters(Drained(p), n) <==> Enters(p, n)
  {
    if p.commands[0] == Stop {
      assert p.commands == [Stop];
    } else {
      FrontAlone(p);
    }
  }

  lemma StaysBehind(p: Parts, q: Parts, n: Node)
    requires InOrder(p.heap) && Trimmed(p, q) && (q.heap == [] || Active(q, q.heap[0]))
    ensures n in q.heap <==> n in p.heap && BehindActive(p, n)
  {
    hide Active, Trimmed, BehindActive, InOrder;
    if n in q.heap { StayedBehind(p, q, n); }
    if n in p.heap && BehindActive(p, n) { BehindStays(p, q, n); }
  }

  lemma StayedBehind(p: Parts, q: Parts, n: Node)
    requires InOrder(p.heap) && Trimmed(p, q) && q.heap != [] && Active(q, q.heap[0]) && n in q.heap
    ensures n in p.heap && BehindActive(p, n)
  {
    hide Active;
    var gone := |p.heap| - |q.heap|;
    var top := p.heap[gone];
    assert top == q.heap[0] && top in q.heap && top in p.heap;
    var j :| 0 <= j < |q.heap| && q.heap[j] == n;
    assert p.heap[gone + j] == n;
    assert NotAfter(top, n);
  }

  lemma BehindStays(p: Parts, q: Parts, n: Node)
    requires InOrder(p.heap) && Trimmed(p, q) && n in p.heap && BehindActive(p, n)
    ensures n in q.heap
  {
    hide Active;
    var gone := |p.heap| - |q.heap|;
    var j :| 0 <= j < |p.heap| && p.heap[j] == n;
    var m :| m in p.heap && Active(p, m) && NotAfter(m, n);
    var i :| 0 <= i < |p.heap| && p.heap[i] == m;
    assert gone <= i <= j;
    assert q.heap[j - gone] == n;
  }

  lemma TrimStep(p: Parts, q: Parts)
    requires Trimmed(p, q) && Tied(q) && q.heap != [] && !Active(q, q.heap[0])
    ensures Trimmed(p, Stale(q))
  {
    hide Tied, Active;
    var gone := |p.heap| - |q.heap|;
    assert q.heap[0] == p.heap[gone] && q.heap[0] in q.heap;
    assert q.heap[1..] == p.heap[gone + 1..];
    forall n | n in q.heap[1..] ensures Active(Stale(q), n) == Active(p, n) {
      assert n in q.heap;
      OtherId(q, n);
      ActiveStill(q, n);
    }
  }

  lemma ActiveStill(q: Parts, n: Node)
    requires q.heap != [] && n.id.value != q.heap[0].id.value
    ensures Active(Stale(q), n) == Active(q, n)
  {}

  lemma OtherId(q: Parts, n: Node)
    requires Tied(q) && q.heap != [] && n in q.heap[1..]
    ensures n.id.value != q.heap[0].id.value
  {
    TopAlone(q);
    assert n in q.heap && Known(q.scheduled, n);
  }

  // With nothing cancelled by a stop, the active nodes are the armed timers.
  lemma BehindArmed(p: Parts, n: Node)
    requires Tied(p) && NoneCancelled(p)
    ensures BehindActive(p, n) <==> BehindLive(Armed(p), n)
  {
    if BehindActive(p, n) {
      var m :| m in p.heap && Active(p, m) && NotAfter(m, n);
      assert m.id.value in Armed(p) && Armed(p)[m.id.value] == m;
    }
    if BehindLive(Armed(p), n) {
      var id :| id in Armed(p) && NotAfter(Armed(p)[id], n);
      assert Active(p, Armed(p)[id]);
    }
  }

  lemma StaleStep(p: Parts, q: Parts)
    requires Cleaner(p, q) && q.heap != [] && !Active(q, q.heap[0])
    ensures Cleaner(p, Stale(q))
  {
    StaleIsPopped(q);
    PopTied(q);
    PopLive(q);
  }

  lemma StaleIsPopped(q: Parts)
    requires Tied(q) && q.heap != [] && !Active(q, q.heap[0])
    ensures Stale(q) == Popped(q) && (NoneCancelled(q) ==> q.heap[0].id.value !in q.reservations)
  {
    assert q.heap[0] in q.heap;
    var id := q.heap[0].id.value;
    if id !in q.reservations { assert q.reservations - {id} == q.reservations; }
  }

  // With no command left every reservation has its node in the heap.
  lemma DrainedLive(p: Parts, q: Parts)
    requires Tied(p) && Tied(q) && q.commands == []
    requires q.scheduled == p.scheduled && q.reservations.Keys == p.reservations.Keys
    ensures Armed(q) == Armed(p) + Waiting(p) && Waiting(q) == map[]
  {}

  // Halfway through the commands: a Stop, once reached, was the last of them.
  ghost predicate Draining(p: Parts, stopRequested: bool, stopped: bool) {
    Tied(p) && StopLast(p.commands) && (stopRequested && !stopped <==> Stop in p.commands) &&
    (if stopped then stopRequested && AllCancelled(p) && p.commands == [] else NoneCancelled(p))
  }

  lemma DrainStep(p: Parts, stopRequested: bool, stopped: bool)
    requires Draining(p, stopRequested, stopped) && p.commands != []
    ensures Draining(Drained(p), stopRequested, stopped || p.commands[0] == Stop)
    ensures Drained(p).scheduled == p.scheduled && Drained(p).reservations.Keys == p.reservations.Keys
  {
    if p.commands[0] == Stop {
      assert p.commands == [Stop];
      DrainStop(p);
    } else {
      DrainScheduled(p);
      assert Stop in p.commands <==> Stop in p.commands[1..];
    }
  }

  lemma StopTied(p: Parts)
    requires Tied(p)
    ensures Tied(p.(commands := p.commands + [Stop]))
  {}

  /* Lazy deletion and the size of the heap. */

  // Nodes of timers that are not live any more.
  function Leftovers(p: Parts): set<Node> {
    set n | n in p.heap && n.id.value !in p.reservations
  }

  lemma {:induction false} NodesAreDistinct(h: seq<Node>)
    requires InOrder(h)
    ensures |set n | n in h| == |h|
    decreases |h|
  {
    if h != [] {
      NodesAreDistinct(h[1..]);
      assert h[0] !in h[1..];
      assert (set n | n in h) == (set n | n in h[1..]) + {h[0]};
    } else {
      assert (set n | n in h) == {};
    }
  }

  lemma {:induction false} AsManyNodes(nodes: set<Node>, ids: set<nat>, scheduled: map<nat, Node>)
    requires forall n :: n in nodes ==> n.id.value in ids && n.id.value in scheduled && scheduled[n.id.value] == n
    requires forall id :: id in ids ==> id in scheduled && scheduled[id] in nodes && scheduled[id].id.value == id
    ensures |nodes| == |ids|
    decreases |ids|
  {
    if ids != {} {
      var id :| id in ids;
      AsManyNodes(nodes - {scheduled[id]}, ids - {id}, scheduled);
    } else {
      assert nodes == {};
    }
  }

  lemma LiveNodes(p: Parts, live: set<Node>)
    requires Tied(p) && forall n :: n in live <==> n in p.heap && n.id.value in p.reservations
    ensures |live| == |Armed(p)|
  {
    AsManyNodes(live, Armed(p).Keys, p.scheduled);
  }

  /** The heap is the armed timers and the nodes left of timers that are not live any more,
      and no larger than the ids that were handed out. */
  lemma HeapSize(p: Parts)
    requires Tied(p)
    ensures |p.heap| == |Armed(p)| + |Leftovers(p)| && |p.heap| < p.next
  {
    hide Armed, Tied, Active;
    var all := set n | n in p.heap;
    var live := set n | n in p.heap && n.id.value in p.reservations;
    HeapIsDistinct(p);
    LiveNodes(p, live);
    assert all == live + Leftovers(p) && live !! Leftovers(p);
    WithinTheIds(p, all);
  }

  lemma WithinTheIds(p: Parts, nodes: set<Node>)
    requires Tied(p) && forall n :: n in nodes ==> n in p.heap
    ensures |nodes| < p.next
  {
    var ids := set n | n in nodes :: n.id.value;
    AsManyNodes(nodes, ids, p.scheduled);
    IdsBelow(p.next);
    assert ids <= Handed(p.next);
    Fewer(ids, Handed(p.next));
  }

  // The ids handed out so far.
  function Handed(next: nat): set<nat> {
    if next <= 1 then {} else Handed(next - 1) + {next - 1}
  }

  lemma {:induction false} IdsBelow(next: nat)
    requires 0 < next
    ensures |Handed(next)| == next - 1 && forall id :: id in Handed(next) <==> 1 <= id < next
    decreases next
  {
    if next > 1 { IdsBelow(next - 1); }
  }

  lemma Fewer(a: set<nat>, b: set<nat>)
    requires a <= b
    ensures |a| <= |b|
  {
    assert b == a + (b - a);
  }

  /** Cleaning up from the top leaves the node of a timer that is not live any more in the
      heap if and only if it was there and some live timer comes before it. */
  lemma LeftoverStays(p: Parts, q: Parts, n: Node)
    requires Tied(p) && NoneCancelled(p) && n.id.value !in p.reservations
    requires Trimmed(p, q) && (q.heap == [] || Active(q, q.heap[0]))
    ensures n in q.heap <==> n in p.heap && exists id :: id in Armed(p) && Before(Armed(p)[id], n)
  {
    StaysBehind(p, q, n);
    BehindArmed(p, n);
    if BehindLive(Armed(p), n) {
      var id :| id in Armed(p) && NotAfter(Armed(p)[id], n);
      assert Before(Armed(p)[id], n);
    }
    if id :| id in Armed(p) && Before(Armed(p)[id], n) { assert NotAfter(Armed(p)[id], n); }
  }

  lemma HeapIsDistinct(p: Parts)
    requires Tied(p)
    ensures |set n | n in p.heap| == |p.heap|
  {
    NodesAreDistinct(p.heap);
  }

  // One live timer, first in the heap, and n nodes behind it.
  ghost predicate Staying(v: View, heap: seq<Node>, first: Node, n: nat) {
    v.armed == map[1 := first] && v.waiting == map[] && !v.stopRequested && !v.stopped && v.next == n + 2 &&
    first.deadline == 0 && |heap| == n + 1 && forall x :: x in heap ==> NotAfter(first, x)
  }

  // A node behind the first stays when the commands are drained.
  lemma OneMoreNode(h: seq<Node>, h': seq<Node>, node: Node)
    requires InOrder(h) && InOrder(h') && node !in h && forall x :: x in h' <==> x in h || x == node
    ensures |h'| == |h| + 1
  {
    NodesAreDistinct(h);
    NodesAreDistinct(h');
    assert (set x | x in h') == (set x | x in h) + {node};
  }

  lemma EntersAlone(p: Parts, node: Node)
    requires Tied(p) && p.commands == [ScheduleNode(node)] && node.id.value in p.reservations
    ensures forall n :: Enters(p, n) <==> n in p.heap || n == node
    ensures node !in p.heap
  {
    assert ScheduleNode(node) in p.commands;
  }

  // Another timer is scheduled behind the first and armed,
  method Come(core: Core, config: Config, event: Event, ghost first: Node, ghost i: nat) returns (id: TimerId)
    requires core.Valid() && core.config == Some(config) && core.commands == []
    requires config.commandCapacity >= 1 && config.timerCapacity >= 2 && i + 2 < ID_LIMIT
    requires Staying(core.Now(), core.heap, first, i)
    modifies core
    ensures core.Valid() && core.config == Some(config) && core.commands == [] && id == TimerId(i + 2, i + 2)
    ensures core.Now() == View(map[1 := first, i + 2 := Node(1, i + 1, id, event)], map[], i + 3, false, false)
    ensures |core.heap| == i + 2 && forall x :: x in core.heap ==> NotAfter(first, x)
  {
    hide Tied, Armed, Waiting, Enters, FilledAndCut, InOrder;
    var status;
    status, id := core.ScheduleAt(1, false, event);
    ghost var node := Node(1, i + 1, id, event);
    assert core.commands == [ScheduleNode(node)];
    assert core.Now() == View(map[1 := first], map[i + 2 := node], i + 3, false, false);
    TiedFacts(core.parts);
    ReservedWhenLive(core.parts, i + 2);
    ghost var queued := core.parts;
    var next;
    status, next := core.ProcessCommands();
    TiedFacts(core.parts);
    assert core.Now().armed == map[1 := first, i + 2 := node];
    AllBehind(first, node, queued, core.Now().armed, core.heap);
  }

  // (with the first one live all of them stay)
  lemma AllBehind(first: Node, node: Node, p: Parts, armed: map<nat, Node>, heap: seq<Node>)
    requires Tied(p) && p.commands == [ScheduleNode(node)] && node.id.value in p.reservations
    requires 1 in armed && armed[1] == first && NotAfter(first, node) && InOrder(heap)
    requires forall x :: x in p.heap ==> NotAfter(first, x)
    requires FilledAndCut(p, armed, heap)
    ensures |heap| == |p.heap| + 1 && forall x :: x in heap ==> NotAfter(first, x)
  {
    hide Tied, Enters;
    TiedFacts(p);
    EntersAlone(p, node);
    forall x | x in p.heap || x == node ensures x in heap { assert NotAfter(armed[1], x); }
    OneMoreNode(p.heap, heap, node);
  }

  // and cancelled.
  method ComeAndGo(core: Core, config: Config, event: Event, ghost first: Node, ghost i: nat)
    requires core.Valid() && core.config == Some(config) && core.commands == []
    requires config.commandCapacity >= 1 && config.timerCapacity >= 2 && i + 2 < ID_LIMIT
    requires Staying(core.Now(), core.heap, first, i)
    modifies core
    ensures core.Valid() && core.config == Some(config) && core.commands == []
    ensures Staying(core.Now(), core.heap, first, i + 1)
  {
    hide Tied, Armed, Waiting;
    var id := Come(core, config, event, first, i);
    var status := core.CancelTimer(id);
  }

  lemma NothingLeft(p: Parts)
    requires p.reservations == map[]
    ensures Armed(p) == map[] && Waiting(p) == map[]
  {}

  lemma TiedFacts(p: Parts)
    requires Tied(p)
    ensures InOrder(p.heap) && p.reservations.Keys <= p.scheduled.Keys
  {}

  lemma ReservedWhenLive(p: Parts, id: nat)
    requires Tied(p)
    ensures id in Armed(p) || id in Waiting(p) ==> id in p.reservations
  {}

  /** The timer capacity does not bound the heap: with room for two timers and for one
      command, n timers that were scheduled behind one that stays, armed and cancelled again,
      are all still in the heap, while one timer is live. Only the ids bound n. */
  method HeapOutgrowsTheCapacity(config: Config, event: Event, n: nat) returns (core: Core)
    requires config.commandCapacity >= 1 && config.timerCapacity >= 2 && n + 1 < ID_LIMIT
    ensures fresh(core) && core.Valid() && core.config == Some(config)
    ensures |core.heap| == n + 1 && |core.Now().armed| == 1 && core.Now().waiting == map[]
  {
    hide Tied, Armed, Waiting, Enters, FilledAndCut, InOrder;
    core := new Core();
    var status := core.Init(config);
    var id;
    status, id := core.ScheduleAt(0, false, event);
    ghost var first := Node(0, 0, TimerId(1, 1), event);
    assert core.commands == [ScheduleNode(first)];
    assert core.Now() == View(map[], map[1 := first], 2, false, false);
    TiedFacts(core.parts);
    ReservedWhenLive(core.parts, 1);
    ghost var queued := core.parts;
    var next;
    status, next := core.ProcessCommands();
    TiedFacts(core.parts);
    assert core.Now().armed == map[1 := first];
    AllBehind(first, first, queued, core.Now().armed, core.heap);
    for i := 0 to n
      invariant core.Valid() && core.config == Some(config) && core.commands == [] && fresh(core)
      invariant Staying(core.Now(), core.heap, first, i)
    {
      ComeAndGo(core, config, event, first, i);
    }
  }
}
