// The ring queue as one thread sees it (include/trading/utils/spsc_queue.hpp).
module SpscQueue {
  import opened Division

  function Next(index: nat, storage: nat): nat
    requires storage > 0
  {
    (index + 1) % storage
  }

  // The i-th slot after `head`, around the ring.
  function Around(head: nat, i: nat, storage: nat): nat
    requires storage > 0
  {
    (head + i) % storage
  }

  function Distance(head: nat, tail: nat, storage: nat): nat
    requires head < storage && tail < storage
  {
    if tail >= head then tail - head else storage - head + tail
  }

  lemma AroundOnce(head: nat, i: nat, storage: nat)
    requires head < storage && i <= storage
    ensures Around(head, i, storage) == if head + i < storage then head + i else head + i - storage
  {
    var k := head + i;
    Divide(k, storage);
    if k < storage {
      Unique(k / storage, k % storage, 0, k, storage);
    } else {
      Unique(k / storage, k % storage, 1, k - storage, storage);
    }
  }

  lemma NextOnce(index: nat, storage: nat)
    requires index < storage
    ensures Next(index, storage) == if index + 1 < storage then index + 1 else 0
  {
    AroundOnce(index, 1, storage);
  }

  class SPSCQueue<T(0)> {
    const capacity: nat
    const buffer: array<T>
    var head: nat
    var tail: nat

    ghost predicate Valid()
      reads this
    {
      capacity > 0 && buffer.Length == capacity + 1 && head < buffer.Length && tail < buffer.Length
    }

    // The queued values, oldest first.
    ghost function Contents(): (s: seq<T>)
      requires Valid()
      reads this, buffer
      ensures |s| == Distance(head, tail, buffer.Length) <= capacity
    {
      seq(Distance(head, tail, buffer.Length), i requires i >= 0 reads this, buffer
        => buffer[Around(head, i, buffer.Length)])
    }

    constructor (capacity: nat)
      requires capacity > 0
      ensures Valid() && Contents() == [] && this.capacity == capacity && fresh(buffer)
    {
      this.capacity := capacity;
      buffer := new T[capacity + 1];
      head, tail := 0, 0;
    }

    method Push(item: T) returns (pushed: bool)
      requires Valid()
      modifies this`tail, buffer
      ensures Valid()
      ensures pushed <==> |old(Contents())| < capacity
      ensures Contents() == if pushed then old(Contents()) + [item] else old(Contents())
    {
      var t := tail;
      var nextTail := Next(t, buffer.Length);
      NextOnce(t, buffer.Length);
      if nextTail == head {
        return false;
      }
      ghost var before := Contents();
      forall i: nat | i < |before| ensures Around(head, i, buffer.Length) != t {
        AroundOnce(head, i, buffer.Length);
      }
      AroundOnce(head, |before|, buffer.Length);
      buffer[t] := item;
      tail := nextTail;
      return true;
    }

    method Pop() returns (popped: bool, out: T)
      requires Valid()
      modifies this`head
      ensures Valid()
      ensures popped <==> old(Contents()) != []
      ensures popped ==> out == old(Contents())[0] && Contents() == old(Contents())[1..]
      ensures !popped ==> Contents() == old(Contents())
    {
      var h := head;
      NextOnce(h, buffer.Length);
      if h == tail {
        return false, *;
      }
      AroundOnce(h, 0, buffer.Length);
      forall i: nat | i < |Contents()| - 1
        ensures Around(Next(h, buffer.Length), i, buffer.Length) == Around(h, i + 1, buffer.Length)
      {
        AroundOnce(h, i + 1, buffer.Length);
        AroundOnce(Next(h, buffer.Length), i, buffer.Length);
      }
      out := buffer[h];
      head := Next(h, buffer.Length);
      popped := true;
    }

    method Empty() returns (empty: bool)
      requires Valid()
      ensures empty <==> Contents() == []
    {
      empty := head == tail;
    }

    method Full() returns (full: bool)
      requires Valid()
      ensures full <==> |Contents()| == capacity
    {
      NextOnce(tail, buffer.Length);
      full := Next(tail, buffer.Length) == head;
    }

    method SizeApprox() returns (size: nat)
      requires Valid()
      ensures size == |Contents()|
    {
      var h, t := head, tail;
      if t >= h {
        return t - h;
      }
      return buffer.Length - h + t;
    }
  }
}
