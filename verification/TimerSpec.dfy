/** What the timer core promises: a plain set of live timers. Scheduling adds one,
    cancelling removes one at once, a ready cycle takes the due ones in order. */
module TimerSpec {
  import opened Wrappers

  datatype EventKind = IdleTimeout | ReadTimeout | WriteTimeout | BusinessTimeout | CleanupTick
    | BlacklistMaintenanceTick

  // A value to be delivered; for a connection it names the session and the deadline.
  datatype Event = Event(kind: EventKind, loop: nat, fd: int, generation: nat, sequence: nat)

  datatype TimerId = TimerId(value: nat, generation: nat)

  datatype Node = Node(deadline: int, sequence: nat, id: TimerId, event: Event)

  // Timers the worker has seen, and timers that still wait in the command queue.
  datatype View = View(armed: map<nat, Node>, waiting: map<nat, Node>, next: nat, stopRequested: bool, stopped: bool)

  predicate Before(a: Node, b: Node) {
    a.deadline < b.deadline || (a.deadline == b.deadline && a.sequence < b.sequence)
  }

  function NewNode(v: View, deadline: int, event: Event): Node
    requires 0 < v.next
  {
    Node(deadline, v.next - 1, TimerId(v.next, v.next), event)
  }

  function Schedule(v: View, deadline: int, event: Event): View
    requires 0 < v.next
  {
    v.(waiting := v.waiting[v.next := NewNode(v, deadline, event)], next := v.next + 1)
  }

  predicate IsLive(v: View, id: TimerId) {
    (id.value in v.armed && v.armed[id.value].id == id) || (id.value in v.waiting && v.waiting[id.value].id == id)
  }

  function Cancel(v: View, id: TimerId): View {
    if !v.stopRequested && IsLive(v, id) then v.(armed := v.armed - {id.value}, waiting := v.waiting - {id.value})
      else v
  }

  function Process(v: View): View {
    if v.stopRequested then v.(armed := map[], waiting := map[], stopped := true)
    else v.(armed := v.armed + v.waiting, waiting := map[])
  }

  ghost predicate IsFirst(armed: map<nat, Node>, id: nat) {
    id in armed && forall other :: other in armed && other != id ==> Before(armed[id], armed[other])
  }

  // What a ready cycle takes next: the earliest armed timer, if it is due.
  ghost predicate Takes(v: View, now: int, taken: Option<Node>) {
    if taken.Some? then
      !v.stopRequested && taken.value.deadline <= now && IsFirst(v.armed, taken.value.id.value) &&
      v.armed[taken.value.id.value] == taken.value
    else v.stopRequested || forall id :: id in v.armed ==> v.armed[id].deadline > now
  }

  function AfterTake(v: View, taken: Option<Node>): View {
    if taken.Some? then v.(armed := v.armed - {taken.value.id.value}) else v
  }

  // When the worker has to wake up again.
  ghost predicate IsNextDeadline(armed: map<nat, Node>, next: Option<int>) {
    if next.Some? then
      (exists id :: id in armed && armed[id].deadline == next.value) &&
      (forall id :: id in armed ==> next.value <= armed[id].deadline)
    else armed == map[]
  }

  // Ids are handed out in order, and value, generation and sequence go together.
  predicate Numbered(m: map<nat, Node>, next: nat) {
    forall id :: id in m ==> 0 < id < next && m[id].id == TimerId(id, id) && m[id].sequence == id - 1
  }

  predicate WellFormed(v: View) {
    0 < v.next && Numbered(v.armed, v.next) && Numbered(v.waiting, v.next) && v.armed.Keys !! v.waiting.Keys &&
    (v.stopped ==> v.stopRequested && v.armed == map[] && v.waiting == map[])
  }

  /* Runs: any interleaving of submitters, cancellers and the worker. */

  datatype Op =
    | Scheduled(deadline: int, event: Event)
    | Cancelled(id: TimerId)
    | StopRequest
    | Processed
    | Took(now: int, taken: Option<Node>)

  // How timers ended: emitted, cancelled with Ok, or thrown away by the stop.
  datatype Trace = Trace(v: View, emitted: seq<Node>, cancelled: set<nat>, dropped: set<nat>)

  ghost predicate Can(t: Trace, op: Op) {
    match op
    case Scheduled(_, _) => !t.v.stopRequested
    case Took(now, taken) => Takes(t.v, now, taken)
    case _ => true
  }

  ghost function Next(t: Trace, op: Op): Trace
    requires Can(t, op) && WellFormed(t.v)
  {
    match op
    case Scheduled(deadline, event) => t.(v := Schedule(t.v, deadline, event))
    case Cancelled(id) =>
      t.(v := Cancel(t.v, id),
         cancelled := if !t.v.stopRequested && IsLive(t.v, id) then t.cancelled + {id.value} else t.cancelled)
    case StopRequest => t.(v := t.v.(stopRequested := true))
    case Processed =>
      t.(v := Process(t.v),
         dropped := if t.v.stopRequested then t.dropped + t.v.armed.Keys + t.v.waiting.Keys else t.dropped)
    case Took(now, taken) =>
      t.(v := AfterTake(t.v, taken), emitted := if taken.Some? then t.emitted + [taken.value] else t.emitted)
  }

  predicate EmittedId(t: Trace, id: nat) {
    exists i :: 0 <= i < |t.emitted| && t.emitted[i].id.value == id
  }

  // A timer that has ended: its id was handed out and is not live.
  predicate Gone(v: View, id: nat) {
    0 < id < v.next && id !in v.armed && id !in v.waiting
  }

  predicate EmittedOnce(t: Trace) {
    (forall i :: 0 <= i < |t.emitted| ==> Gone(t.v, t.emitted[i].id.value)) &&
    (forall i :: 0 <= i < |t.emitted| ==>
      t.emitted[i].id.value !in t.cancelled && t.emitted[i].id.value !in t.dropped) &&
    (forall i, j :: 0 <= i < j < |t.emitted| ==> t.emitted[i].id.value != t.emitted[j].id.value)
  }

  ghost predicate EndedOnce(t: Trace) {
    (forall id :: id in t.cancelled || id in t.dropped ==> Gone(t.v, id)) && t.cancelled !! t.dropped
  }

  predicate NoneLost(t: Trace) {
    forall id :: 0 < id < t.v.next ==>
      id in t.v.armed || id in t.v.waiting || id in t.cancelled || id in t.dropped || EmittedId(t, id)
  }

  // Every id ever handed out is in exactly one place.
  ghost predicate Accounted(t: Trace) {
    WellFormed(t.v) && EmittedOnce(t) && EndedOnce(t) && NoneLost(t)
  }

  lemma EmittedStays(t: Trace, t': Trace)
    requires t.emitted <= t'.emitted
    ensures forall id :: EmittedId(t, id) ==> EmittedId(t', id)
  {
    forall id | EmittedId(t, id) ensures EmittedId(t', id) {
      var i :| 0 <= i < |t.emitted| && t.emitted[i].id.value == id;
      assert t'.emitted[i].id.value == id;
    }
  }

  lemma TookAccounted(t: Trace, now: int, taken: Node)
    requires Accounted(t) && Can(t, Took(now, Some(taken)))
    ensures Accounted(Next(t, Took(now, Some(taken))))
  {
    var t' := Next(t, Took(now, Some(taken)));
    EmittedStays(t, t');
    assert t'.emitted[|t.emitted|] == taken;
    assert EmittedId(t', taken.id.value);
  }

  lemma CancelledAccounted(t: Trace, id: TimerId)
    requires Accounted(t)
    ensures Accounted(Next(t, Cancelled(id)))
  {
    EmittedStays(t, Next(t, Cancelled(id)));
  }

  lemma ProcessedAccounted(t: Trace)
    requires Accounted(t)
    ensures Accounted(Next(t, Processed))
  {
    EmittedStays(t, Next(t, Processed));
  }

  lemma ScheduledAccounted(t: Trace, deadline: int, event: Event)
    requires Accounted(t) && !t.v.stopRequested
    ensures Accounted(Next(t, Scheduled(deadline, event)))
  {
    EmittedStays(t, Next(t, Scheduled(deadline, event)));
  }

  lemma StepAccounted(t: Trace, op: Op)
    requires Accounted(t) && Can(t, op)
    ensures Accounted(Next(t, op))
  {
    match op
    case Scheduled(deadline, event) => ScheduledAccounted(t, deadline, event);
    case Cancelled(id) => CancelledAccounted(t, id);
    case Processed => ProcessedAccounted(t);
    case Took(now, taken) => if taken.Some? { TookAccounted(t, now, taken.value); }
    case StopRequest => EmittedStays(t, Next(t, op));
  }

  ghost predicate CanRun(t: Trace, ops: seq<Op>)
    requires Accounted(t)
    decreases |ops|
  {
    ops == [] || (Can(t, ops[0]) && (StepAccounted(t, ops[0]); CanRun(Next(t, ops[0]), ops[1..])))
  }

  ghost function Run(t: Trace, ops: seq<Op>): (t': Trace)
    requires Accounted(t) && CanRun(t, ops)
    ensures Accounted(t')
    decreases |ops|
  {
    if ops == [] then t
    else
      StepAccounted(t, ops[0]);
      Run(Next(t, ops[0]), ops[1..])
  }

  function Start(): Trace {
    Trace(View(map[], map[], 1, false, false), [], {}, {})
  }

  /** In every interleaving each timer is emitted at most once, never once a cancel has
      returned Ok, and every id handed out is live, emitted, cancelled or dropped by the
      stop, and only one of these. */
  lemma EachTimerEndsOnce(ops: seq<Op>)
    requires CanRun(Start(), ops)
    ensures var t := Run(Start(), ops);
      (forall i, j :: 0 <= i < j < |t.emitted| ==> t.emitted[i].id.value != t.emitted[j].id.value) &&
      (forall id :: 0 < id < t.v.next ==>
        (EmittedId(t, id) <==> id !in t.cancelled && id !in t.dropped && id !in t.v.armed && id !in t.v.waiting)) &&
      t.cancelled !! t.dropped && (forall id :: id in t.cancelled ==> id !in t.v.armed && id !in t.v.waiting)
  {
    var t := Run(Start(), ops);
    forall id | 0 < id < t.v.next && EmittedId(t, id)
      ensures id !in t.cancelled && id !in t.dropped && id !in t.v.armed && id !in t.v.waiting
    {
      var i :| 0 <= i < |t.emitted| && t.emitted[i].id.value == id;
      assert Gone(t.v, t.emitted[i].id.value);
    }
  }

  predicate SameCycle(ops: seq<Op>, now: int) {
    forall i :: 0 <= i < |ops| ==> !ops[i].Processed? && (ops[i].Took? ==> ops[i].now == now)
  }

  // The timers emitted since t were due, armed at t, and come in order.
  predicate InOrderSince(t: Trace, t': Trace, now: int) {
    t.emitted <= t'.emitted &&
    (forall i :: |t.emitted| <= i < |t'.emitted| ==>
      t'.emitted[i].deadline <= now && t'.emitted[i].id.value in t.v.armed &&
      t'.emitted[i] == t.v.armed[t'.emitted[i].id.value]) &&
    (forall i, j :: |t.emitted| <= i < j < |t'.emitted| ==> Before(t'.emitted[i], t'.emitted[j]))
  }

  lemma InOrderOneMore(t: Trace, now: int, taken: Node, t': Trace)
    requires WellFormed(t.v) && Can(t, Took(now, Some(taken)))
    requires InOrderSince(Next(t, Took(now, Some(taken))), t', now)
    ensures InOrderSince(t, t', now)
  {
    var u := Next(t, Took(now, Some(taken)));
    assert t'.emitted[|t.emitted|] == u.emitted[|t.emitted|] == taken;
    forall j | |u.emitted| <= j < |t'.emitted| ensures Before(taken, t'.emitted[j]) {
      var id := t'.emitted[j].id.value;
      assert id in u.v.armed && id in t.v.armed && id != taken.id.value;
    }
  }

  lemma ArmedShrinks(t: Trace, op: Op)
    requires WellFormed(t.v) && Can(t, op) && !op.Processed?
    ensures forall id :: id in Next(t, op).v.armed ==> id in t.v.armed && Next(t, op).v.armed[id] == t.v.armed[id]
  {}

  /** Within one ready cycle, however submitters and cancellers interfere, timers come out
      in (deadline, sequence) order, each of them due and armed when the cycle began. */
  lemma {:induction false} CycleEmitsInOrder(t: Trace, ops: seq<Op>, now: int)
    requires Accounted(t) && CanRun(t, ops) && SameCycle(ops, now)
    ensures InOrderSince(t, Run(t, ops), now)
    decreases |ops|
  {
    if ops != [] {
      StepAccounted(t, ops[0]);
      CycleEmitsInOrder(Next(t, ops[0]), ops[1..], now);
      ArmedShrinks(t, ops[0]);
      if ops[0].Took? && ops[0].taken.Some? {
        InOrderOneMore(t, now, ops[0].taken.value, Run(t, ops));
      }
    }
  }
}
