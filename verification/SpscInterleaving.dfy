// The ring queue under two threads, one atomic access at a time, in every interleaving
// (include/trading/utils/spsc_queue.hpp:28-78, 131-140). A load of the other thread's index may
// return any value it ever had that is no older than one already seen.
module SpscInterleaving {
  import opened Division
  import opened SpscQueue

  datatype Producer<T> =
    | Resting
    | TailLoaded(item: T, tail: nat)
    | Writing(item: T, tail: nat)
    | Written(item: T, tail: nat)

  datatype Consumer<T> =
    | Waiting
    | HeadLoaded(head: nat)
    | Reading(head: nat)
    | Read(head: nat, out: T)

  // The shared memory and both threads. The last four fields are history: every value published
  // and taken so far, and how much of the other's progress each thread has seen.
  datatype Ring<T> = Ring(
    buffer: seq<T>,
    head: nat,
    tail: nat,
    producer: Producer<T>,
    consumer: Consumer<T>,
    pushed: seq<T>,
    popped: seq<T>,
    headSeen: nat,
    tailSeen: nat)
  {
    // The k-th value that the index `head` (or `tail`) ever had.
    function IndexAt(k: nat): nat
      requires |buffer| > 0
    {
      k % |buffer|
    }
  }

  datatype Action<T> =
    | StartPush(item: T)
    | LoadHead(k: nat)
    | WriteSlot
    | PublishTail
    | StartPop
    | LoadTail(k: nat)
    | ReadSlot
    | PublishHead

  predicate Enabled<T>(s: Ring<T>, a: Action<T>) {
    match a
    case StartPush(_) => s.producer.Resting?
    case LoadHead(k) => s.producer.TailLoaded? && s.headSeen <= k <= |s.popped|
    case WriteSlot => s.producer.Writing? && s.producer.tail < |s.buffer|
    case PublishTail => s.producer.Written?
    case StartPop => s.consumer.Waiting?
    case LoadTail(k) => s.consumer.HeadLoaded? && s.tailSeen <= k <= |s.pushed|
    case ReadSlot => s.consumer.Reading? && s.consumer.head < |s.buffer|
    case PublishHead => s.consumer.Read?
  }

  function Do<T>(s: Ring<T>, a: Action<T>): Ring<T>
    requires Enabled(s, a) && |s.buffer| > 0
  {
    match a
    case StartPush(item) => s.(producer := TailLoaded(item, s.tail))
    case LoadHead(k) =>
      // A push that finds the queue full returns false.
      s.(headSeen := k,
         producer := if Next(s.producer.tail, |s.buffer|) == s.IndexAt(k) then Resting
                     else Writing(s.producer.item, s.producer.tail))
    case WriteSlot =>
      s.(buffer := s.buffer[s.producer.tail := s.producer.item], producer := Written(s.producer.item, s.producer.tail))
    case PublishTail =>
      s.(tail := Next(s.producer.tail, |s.buffer|), producer := Resting,
         pushed := s.pushed + [s.producer.item])
    case StartPop => s.(consumer := HeadLoaded(s.head))
    case LoadTail(k) =>
      // A pop that finds the queue empty returns false.
      s.(tailSeen := k,
         consumer := if s.consumer.head == s.IndexAt(k) then Waiting else Reading(s.consumer.head))
    case ReadSlot => s.(consumer := Read(s.consumer.head, s.buffer[s.consumer.head]))
    case PublishHead =>
      s.(head := Next(s.consumer.head, |s.buffer|), consumer := Waiting, popped := s.popped + [s.consumer.out])
  }

  ghost predicate Init<T>(s: Ring<T>, capacity: nat) {
    && capacity > 0
    && |s.buffer| == capacity + 1
    && s.head == s.tail == 0
    && s.producer == Resting && s.consumer == Waiting
    && s.pushed == s.popped == []
    && s.headSeen == s.tailSeen == 0
  }

  // ----- The invariant -----

  ghost predicate InvProducer<T>(s: Ring<T>) {
    match s.producer
    case Resting => true
    case TailLoaded(_, t) => t == s.tail
    case Writing(_, t) => t == s.tail && |s.pushed| - s.headSeen < |s.buffer| - 1
    case Written(item, t) =>
      t == s.tail < |s.buffer| && |s.pushed| - s.headSeen < |s.buffer| - 1 && s.buffer[t] == item
  }

  ghost predicate InvConsumer<T>(s: Ring<T>) {
    match s.consumer
    case Waiting => true
    case HeadLoaded(h) => h == s.head
    case Reading(h) => h == s.head && |s.popped| < s.tailSeen
    case Read(h, out) => h == s.head && |s.popped| < s.tailSeen <= |s.pushed| && out == s.pushed[|s.popped|]
  }

  ghost predicate Inv<T>(s: Ring<T>) {
    && |s.buffer| >= 2
    && s.tail == |s.pushed| % |s.buffer|
    && s.head == |s.popped| % |s.buffer|
    && s.popped <= s.pushed
    && s.headSeen <= |s.popped| <= s.tailSeen <= |s.pushed|
    && |s.pushed| - s.headSeen <= |s.buffer| - 1
    && (forall i | |s.popped| <= i < |s.pushed| :: s.buffer[i % |s.buffer|] == s.pushed[i])
    && InvProducer(s)
    && InvConsumer(s)
  }

  // Two counts less than a turn apart share a slot only if they are equal.
  lemma SlotsDiffer(i: nat, j: nat, n: nat)
    requires n > 0 && i <= j < i + n && i % n == j % n
    ensures i == j
  {
    var a, b := i / n, j / n;
    Divide(i, n);
    Divide(j, n);
    if a < b {
      Gap(a, b, n);
    }
    if b < a {
      Gap(b, a, n);
    }
  }

  lemma NextIndex(k: nat, n: nat)
    requires n > 0
    ensures Next(k % n, n) == (k + 1) % n
  {
    var q, r := k / n, k % n;
    Divide(k, n);
    Divide(k + 1, n);
    Divide(r + 1, n);
    if r + 1 < n {
      Unique(q, r + 1, (k + 1) / n, (k + 1) % n, n);
      Unique(0, r + 1, (r + 1) / n, (r + 1) % n, n);
    } else {
      assert n * (q + 1) == n * q + n;
      Unique(q + 1, 0, (k + 1) / n, (k + 1) % n, n);
      Unique(1, 0, (r + 1) / n, (r + 1) % n, n);
    }
  }

  // ----- Every step keeps it -----

  // The producer may go on exactly when, as far as it can see, fewer than the capacity are queued.
  lemma FullTest<T>(s: Ring<T>, k: nat)
    requires Inv(s) && s.headSeen <= k <= |s.popped|
    ensures Next(s.tail, |s.buffer|) == s.IndexAt(k) <==> |s.pushed| - k == |s.buffer| - 1
  {
    var n := |s.buffer|;
    NextIndex(|s.pushed|, n);
    if (|s.pushed| + 1) % n == k % n {
      if |s.pushed| + 1 < k + n {
        SlotsDiffer(k, |s.pushed| + 1, n);
      }
    }
    if |s.pushed| + 1 == k + n {
      NextTurn(k, n);
    }
  }

  lemma NextTurn(k: nat, n: nat)
    requires n > 0
    ensures (k + n) % n == k % n
  {
    Divide(k, n);
    Divide(k + n, n);
    assert n * (k / n + 1) == n * (k / n) + n;
    Unique(k / n + 1, k % n, (k + n) / n, (k + n) % n, n);
  }

  lemma EmptyTest<T>(s: Ring<T>, k: nat)
    requires Inv(s) && s.tailSeen <= k <= |s.pushed|
    ensures s.head == s.IndexAt(k) <==> |s.popped| == k
  {
    if s.head == s.IndexAt(k) {
      SlotsDiffer(|s.popped|, k, |s.buffer|);
    }
  }

  // The slot the producer writes holds no value that is queued, so none the consumer may read.
  lemma WriteSlotIsFree<T>(s: Ring<T>, i: nat)
    requires Inv(s) && (s.producer.Writing? || s.producer.Written?) && |s.popped| <= i < |s.pushed|
    ensures i % |s.buffer| != s.producer.tail
  {
    if i % |s.buffer| == s.tail {
      SlotsDiffer(i, |s.pushed|, |s.buffer|);
    }
  }

  lemma ProducerKeepsInv<T>(s: Ring<T>, a: Action<T>)
    requires Inv(s) && Enabled(s, a)
    requires a.StartPush? || a.LoadHead? || a.WriteSlot? || a.PublishTail?
    ensures Inv(Do(s, a))
  {
    var n := |s.buffer|;
    match a
    case StartPush(_) =>
    case LoadHead(k) =>
      FullTest(s, k);
    case WriteSlot =>
      forall i | |s.popped| <= i < |s.pushed| ensures Do(s, a).buffer[i % n] == s.buffer[i % n] {
        WriteSlotIsFree(s, i);
      }
    case PublishTail =>
      NextIndex(|s.pushed|, n);
  }

  lemma HeadMovesOn<T>(s: Ring<T>)
    requires Inv(s) && Enabled(s, PublishHead)
    ensures Inv(Do(s, PublishHead))
  {
    var s' := Do(s, PublishHead);
    NextIndex(|s.popped|, |s.buffer|);
    assert s'.popped == s.popped + [s.pushed[|s.popped|]];
    assert InvProducer(s');
    hide InvProducer;
  }

  lemma ConsumerKeepsInv<T>(s: Ring<T>, a: Action<T>)
    requires Inv(s) && Enabled(s, a)
    requires a.StartPop? || a.LoadTail? || a.ReadSlot? || a.PublishHead?
    ensures Inv(Do(s, a))
  {
    match a
    case StartPop =>
    case LoadTail(k) =>
      EmptyTest(s, k);
    case ReadSlot =>
    case PublishHead =>
      HeadMovesOn(s);
  }

  // ----- Every run -----

  ghost predicate Possible<T>(s: Ring<T>, actions: seq<Action<T>>)
    decreases |actions|
  {
    actions == [] ||
    (|s.buffer| > 0 && Enabled(s, actions[0]) && Possible(Do(s, actions[0]), actions[1..]))
  }

  ghost function RunAll<T>(s: Ring<T>, actions: seq<Action<T>>): Ring<T>
    requires Possible(s, actions)
    decreases |actions|
  {
    if actions == [] then s else RunAll(Do(s, actions[0]), actions[1..])
  }

  lemma StepKeepsInv<T>(s: Ring<T>, a: Action<T>)
    requires Inv(s) && Enabled(s, a)
    ensures Inv(Do(s, a)) && |Do(s, a).buffer| == |s.buffer|
  {
    hide Inv;
    if a.StartPush? || a.LoadHead? || a.WriteSlot? || a.PublishTail? {
      ProducerKeepsInv(s, a);
    } else {
      ConsumerKeepsInv(s, a);
    }
  }

  lemma {:induction false} RunsKeepInv<T>(s: Ring<T>, actions: seq<Action<T>>)
    requires Inv(s) && Possible(s, actions)
    ensures Inv(RunAll(s, actions)) && |RunAll(s, actions).buffer| == |s.buffer|
    decreases |actions|
  {
    if actions != [] {
      StepKeepsInv(s, actions[0]);
      hide Inv, Do;
      RunsKeepInv(Do(s, actions[0]), actions[1..]);
    }
  }

  // What the memory holds as queued, read off the indices and the slots alone.
  ghost function Queued<T>(s: Ring<T>): seq<T>
    requires s.head < |s.buffer| && s.tail < |s.buffer|
  {
    seq(Distance(s.head, s.tail, |s.buffer|), i requires i >= 0 => s.buffer[Around(s.head, i, |s.buffer|)])
  }

  lemma SmallRemainder(r: nat, n: nat)
    requires r < n
    ensures r % n == r
  {
  }

  lemma {:induction false} AroundIsCount(k: nat, i: nat, n: nat)
    requires n > 0
    ensures Around(k % n, i, n) == (k + i) % n
  {
    if i == 0 {
      SmallRemainder(k % n, n);
    } else {
      AroundIsCount(k, i - 1, n);
      NextIndex(k % n + i - 1, n);
      NextIndex(k + i - 1, n);
    }
  }

  lemma DistanceIsCount<T>(s: Ring<T>)
    requires Inv(s)
    ensures Distance(s.head, s.tail, |s.buffer|) == |s.pushed| - |s.popped|
  {
    var n, d := |s.buffer|, |s.pushed| - |s.popped|;
    AroundIsCount(|s.popped|, d, n);
    AroundOnce(s.head, d, n);
  }

  // In every reachable state: what was taken, followed by what the memory holds between the two indices,
  // is exactly what was published, in order; never more than the capacity is queued; and the slot the
  // producer is about to write is not one that holds a queued value.
  lemma QueueIsLinearizable<T>(start: Ring<T>, capacity: nat, actions: seq<Action<T>>)
    requires Init(start, capacity) && Possible(start, actions)
    ensures var s := RunAll(start, actions);
            && s.head < |s.buffer| && s.tail < |s.buffer|
            && s.popped + Queued(s) == s.pushed
            && |Queued(s)| <= capacity
            && (s.producer.Writing? ==> forall i: nat | i < |Queued(s)| ::
                  Around(s.head, i, |s.buffer|) != s.producer.tail)
            && (s.producer.Writing? && s.consumer.Reading? ==> s.producer.tail != s.consumer.head)
  {
    RunsKeepInv(start, actions);
    var s := RunAll(start, actions);
    var n := |s.buffer|;
    DistanceIsCount(s);
    forall i: nat | i < |Queued(s)|
      ensures Queued(s)[i] == s.pushed[|s.popped| + i]
      ensures s.producer.Writing? ==> Around(s.head, i, n) != s.producer.tail
    {
      AroundIsCount(|s.popped|, i, n);
      if s.producer.Writing? {
        WriteSlotIsFree(s, |s.popped| + i);
      }
    }
    if s.producer.Writing? && s.consumer.Reading? {
      WriteSlotIsFree(s, |s.popped|);
    }
  }

  // With up-to-date loads, a push fails exactly on a full queue and a pop exactly on an empty one.
  lemma FreshLoadsAreExact<T>(s: Ring<T>)
    requires Inv(s)
    ensures s.producer.TailLoaded? ==>
      (Do(s, LoadHead(|s.popped|)).producer.Resting? <==> |Queued(s)| == |s.buffer| - 1)
    ensures s.consumer.HeadLoaded? ==>
      (Do(s, LoadTail(|s.pushed|)).consumer.Waiting? <==> Queued(s) == [])
  {
    DistanceIsCount(s);
    FullTest(s, |s.popped|);
    EmptyTest(s, |s.pushed|);
  }
}
