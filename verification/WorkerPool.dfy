/** BoundedWorkerPool: a ring of queued tasks and an in-flight counter. Each method is
    one section under the pool's mutex, so any interleaving of submitters and workers is
    a sequence of these calls. */
module WorkerPool {
  import opened Wrappers
  import opened RingBuffer

  datatype SubmitStatus = Accepted | Rejected | Closed

  datatype View<T> = View(queue: seq<T>, running: multiset<T>, accepting: bool)

  // Counted from acceptance until completion or cancellation.
  function Inflight<T>(v: View<T>): nat {
    |v.queue| + |v.running|
  }

  function Submit<T>(v: View<T>, capacity: nat, task: Option<T>): (View<T>, SubmitStatus) {
    if !v.accepting then (v, Closed)
    else if task.None? || |v.queue| >= capacity then (v, Rejected)
    else (v.(queue := v.queue + [task.value]), Accepted)
  }

  function Take<T>(v: View<T>): View<T> {
    if v.queue == [] then v else v.(queue := v.queue[1..], running := v.running + multiset{v.queue[0]})
  }

  function Finish<T>(v: View<T>, task: T): View<T> {
    v.(running := v.running - multiset{task})
  }

  function CancelQueued<T>(v: View<T>): View<T> {
    v.(queue := [])
  }

  predicate Pending<T>(v: View<T>, task: T) {
    task in v.queue || task in v.running
  }

  /** An in-flight count of zero proves that no accepted task is still to run or
      running, also one that no worker has picked up yet. */
  lemma IdleMeansNothingPending<T>(v: View<T>, task: T)
    requires Inflight(v) == 0
    ensures !Pending(v, task)
  {}

  class BoundedWorkerPool<T> {
    const queue: Ring<T>
    var inflight: nat
    var accepting: bool
    ghost var running: multiset<T>

    ghost predicate Valid()
      reads this, queue, queue.slots
    {
      queue.Valid() && inflight == queue.size + |running|
    }

    ghost function Now(): View<T>
      requires Valid()
      reads this, queue, queue.slots
    {
      View(queue.Contents(), running, accepting)
    }

    constructor (queueCapacity: nat)
      requires 0 < queueCapacity
      ensures Valid() && fresh(queue) && fresh(queue.slots)
      ensures queue.slots.Length == queueCapacity && Now() == View([], multiset{}, true)
    {
      queue := new Ring(queueCapacity);
      inflight, accepting, running := 0, true, multiset{};
    }

    method TrySubmit(task: Option<T>) returns (status: SubmitStatus)
      requires Valid()
      modifies this, queue, queue.slots
      ensures Valid() && (Now(), status) == Submit(old(Now()), queue.slots.Length, task)
    {
      if !accepting {
        return Closed;
      }
      if task.None? || queue.size >= queue.slots.Length {
        return Rejected;
      }
      queue.Push(task.value);
      inflight := inflight + 1;
      return Accepted;
    }

    method InflightCount() returns (count: nat)
      requires Valid()
      ensures count == Inflight(Now())
    {
      return inflight;
    }

    method Close()
      requires Valid()
      modifies this`accepting
      ensures Valid() && Now() == old(Now()).(accepting := false)
    {
      accepting := false;
    }

    // A worker's first section: it leaves once the pool is closed and drained.
    method TakeTask() returns (task: Option<T>, leave: bool)
      requires Valid()
      modifies this, queue, queue.slots
      ensures Valid() && Now() == Take(old(Now()))
      ensures leave <==> old(Now().queue == [] && !accepting)
      ensures task == if old(Now()).queue == [] then None else Some(old(Now()).queue[0])
    {
      if queue.size == 0 {
        return None, !accepting;
      }
      var next := queue.Pop();
      running := running + multiset{next};
      return Some(next), false;
    }

    // A worker's second section, reached whether the task returned or threw.
    method FinishTask(ghost task: T)
      requires Valid() && task in running
      modifies this`inflight, this`running
      ensures Valid() && Now() == Finish(old(Now()), task)
    {
      running := running - multiset{task};
      inflight := inflight - 1;
    }

    // What drainUntil does once its deadline has passed; running tasks are left alone.
    method CancelAfterDeadline() returns (cancelled: nat)
      requires Valid()
      modifies this, queue, queue.slots
      ensures Valid() && Now() == CancelQueued(old(Now()))
      ensures cancelled == |old(Now()).queue| && Inflight(Now()) == |old(Now()).running|
    {
      cancelled := queue.Clear();
      inflight := inflight - cancelled;
    }
  }
}
