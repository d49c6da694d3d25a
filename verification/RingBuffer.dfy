/** The fixed ring of optional slots that the worker pool and the mailboxes share:
    head, tail and size move around an array and behave as a first-in first-out queue. */
module RingBuffer {
  import opened Wrappers

  // The slot of the i-th element, also for i == size (the slot of the next one).
  function SlotOf(head: nat, i: nat, n: nat): (k: nat)
    requires head < n && i <= n
    ensures k < n
  {
    if head + i < n then head + i else head + i - n
  }

  lemma WrapOne(i: nat, n: nat)
    requires i < n
    ensures (i + 1) % n == if i + 1 == n then 0 else i + 1
  {
    if i + 1 < n { assert (i + 1) % n == i + 1; }
  }

  class Ring<T> {
    const slots: array<Option<T>>
    var head: nat
    var tail: nat
    var size: nat

    ghost predicate Valid()
      reads this, slots
    {
      head < slots.Length && size <= slots.Length && tail == SlotOf(head, size, slots.Length) &&
      forall i :: 0 <= i < slots.Length ==> (slots[SlotOf(head, i, slots.Length)].Some? <==> i < size)
    }

    ghost function Contents(): (s: seq<T>)
      requires Valid()
      reads this, slots
      ensures |s| == size
      ensures forall i :: 0 <= i < size ==> slots[SlotOf(head, i, slots.Length)] == Some(s[i])
    {
      seq(size, i requires 0 <= i < size && Valid() reads this, slots => slots[SlotOf(head, i, slots.Length)].value)
    }

    constructor (capacity: nat)
      requires 0 < capacity
      ensures Valid() && Contents() == [] && slots.Length == capacity && fresh(slots)
    {
      slots := new Option<T>[capacity](_ => None);
      head, tail, size := 0, 0, 0;
    }

    // Callers test for room first.
    method Push(x: T)
      requires Valid() && size < slots.Length
      modifies this, slots
      ensures Valid() && Contents() == old(Contents()) + [x]
    {
      WrapOne(tail, slots.Length);
      slots[tail] := Some(x);
      tail := (tail + 1) % slots.Length;
      size := size + 1;
    }

    // Takes back the last Push, as a failed wake-up does.
    method Undo()
      requires Valid() && 0 < size
      modifies this, slots
      ensures Valid() && Contents() == old(Contents()[..size - 1])
    {
      var index := if tail == 0 then slots.Length - 1 else tail - 1;
      assert index == SlotOf(head, size - 1, slots.Length);
      slots[index] := None;
      tail := index;
      size := size - 1;
    }

    method Pop() returns (x: T)
      requires Valid() && 0 < size
      modifies this, slots
      ensures Valid() && old(Contents()) == [x] + Contents()
    {
      var n := slots.Length;
      WrapOne(head, n);
      assert SlotOf(head, 0, n) == head;
      x := slots[head].value;
      slots[head] := None;
      head := (head + 1) % n;
      size := size - 1;
      forall i | 0 <= i < n
        ensures SlotOf(head, i, n) == if i + 1 < n then SlotOf(old(head), i + 1, n) else old(head)
      {}
      assert tail == SlotOf(head, size, n);
    }

    // Drops every element, as closing a mailbox does; the count is what was dropped.
    method Clear() returns (discarded: nat)
      requires Valid()
      modifies this, slots
      ensures Valid() && Contents() == [] && discarded == old(size)
    {
      discarded := 0;
      while size != 0
        invariant Valid() && discarded + size == old(size)
        decreases size
      {
        var _ := Pop();
        discarded := discarded + 1;
      }
      tail := head;
    }
  }
}
