// The producer and consumer threads of the simulator on top of the ring queue
// (apps/trading_sim.cpp:171-223), in every interleaving of their atomic accesses.
module ThreadedPipeline {
  import opened SpscInterleaving

  // What a run is about: the replayed events, the sentinel that ends them, and what handling
  // one event does to the trading state.
  datatype Job<!C, !E> = Job(events: seq<E>, sentinel: E, isSentinel: E -> bool, handle: (C, E) -> C)
  {
    // Everything the producer pushes.
    function Items(): seq<E> {
      events + [sentinel]
    }
  }

  // The single-threaded run: every event in order.
  function RunSingle<C, E>(job: Job<C, E>, context: C, events: seq<E>): C {
    if events == [] then context
    else job.handle(RunSingle(job, context, events[..|events| - 1]), events[|events| - 1])
  }

  datatype Hand<E> = Empty | Holding(event: E)

  // Both threads: the queue between them, how far the producer is, and what the consumer did.
  datatype Threads<C, E> = Threads(
    ring: Ring<E>,
    next: nat,
    producerDone: bool,
    hand: Hand<E>,
    context: C,
    handled: seq<E>,
    exited: bool)

  datatype Move =
    | BeginPush
    | CheckFull(k: nat)
    | Write
    | Publish
    | SetDone
    | BeginPop
    | CheckEmpty(k: nat)
    | Take
    | Release
    | HandleEvent

  function Access<C, E>(job: Job<C, E>, s: Threads<C, E>, m: Move): Action<E>
    requires !m.SetDone? && !m.HandleEvent?
    requires m.BeginPush? ==> s.next < |job.Items()|
  {
    match m
    case BeginPush => StartPush(job.Items()[s.next])
    case CheckFull(k) => LoadHead(k)
    case Write => WriteSlot
    case Publish => PublishTail
    case BeginPop => StartPop
    case CheckEmpty(k) => LoadTail(k)
    case Take => ReadSlot
    case Release => PublishHead
  }

  predicate IsProducerMove(m: Move) {
    m.BeginPush? || m.CheckFull? || m.Write? || m.Publish? || m.SetDone?
  }

  // The producer pushes until an item goes in, then turns to the next one; the consumer pops while it
  // has no event in hand and has not left its loop.
  predicate May<C, E>(job: Job<C, E>, s: Threads<C, E>, m: Move) {
    match m
    case SetDone => s.next == |job.Items()| && s.ring.producer.Resting? && !s.producerDone
    case HandleEvent => s.hand.Holding? && !s.exited
    case BeginPush => s.next < |job.Items()| && Enabled(s.ring, Access(job, s, m))
    case _ =>
      && Enabled(s.ring, Access(job, s, m))
      && (IsProducerMove(m) || (s.hand.Empty? && !s.exited))
  }

  function Make<C, E>(job: Job<C, E>, s: Threads<C, E>, m: Move): Threads<C, E>
    requires May(job, s, m) && |s.ring.buffer| > 0
  {
    if m.SetDone? then s.(producerDone := true)
    else if m.HandleEvent? then
      if job.isSentinel(s.hand.event) then s.(hand := Empty, exited := true)
      else s.(hand := Empty, context := job.handle(s.context, s.hand.event), handled := s.handled + [s.hand.event])
    else
      var ring := Do(s.ring, Access(job, s, m));
      match m
      case Publish => s.(ring := ring, next := s.next + 1)
      case Release => s.(ring := ring, hand := Holding(s.ring.consumer.out))
      case _ => s.(ring := ring)
  }

  ghost predicate Start<C, E>(s: Threads<C, E>, capacity: nat) {
    && SpscInterleaving.Init(s.ring, capacity)
    && s.next == 0 && !s.producerDone && s.hand.Empty? && s.handled == [] && !s.exited
  }

  // ----- The invariant -----

  // The events before the first one that looks like the sentinel.
  function UntilSentinel<C, E>(job: Job<C, E>, items: seq<E>): seq<E> {
    if items == [] || job.isSentinel(items[0]) then [] else [items[0]] + UntilSentinel(job, items[1..])
  }

  // How many values the consumer has dealt with: all it took, but for the one in hand.
  function Dealt<C, E>(s: Threads<C, E>): int {
    |s.ring.popped| - (if s.hand.Holding? then 1 else 0)
  }

  ghost predicate PushesItems<C, E>(job: Job<C, E>, s: Threads<C, E>) {
    && s.next == |s.ring.pushed| <= |job.Items()|
    && s.ring.pushed == job.Items()[..s.next]
    && (s.producerDone ==> s.next == |job.Items()| && s.ring.producer.Resting?)
    && match s.ring.producer
       case Resting => true
       case TailLoaded(item, _) => s.next < |job.Items()| && item == job.Items()[s.next]
       case Writing(item, _) => s.next < |job.Items()| && item == job.Items()[s.next]
       case Written(item, _) => s.next < |job.Items()| && item == job.Items()[s.next]
  }

  ghost predicate HandlesItems<C, E>(job: Job<C, E>, context0: C, s: Threads<C, E>) {
    && |s.ring.popped| <= |job.Items()|
    && Dealt(s) >= 0
    && (s.hand.Holding? ==> s.hand.event == job.Items()[|s.ring.popped| - 1] && s.ring.consumer.Waiting?)
    && s.context == RunSingle(job, context0, s.handled)
    && (forall i | 0 <= i < |s.handled| ::
          i < |job.Items()| && s.handled[i] == job.Items()[i] && !job.isSentinel(s.handled[i]))
    && (if s.exited then
          && s.hand.Empty? && s.ring.consumer.Waiting? && |s.ring.popped| == |s.handled| + 1
          && |s.handled| < |job.Items()| && job.isSentinel(job.Items()[|s.handled|])
        else |s.handled| == Dealt(s))
  }

  ghost predicate Good<C, E>(job: Job<C, E>, context0: C, s: Threads<C, E>) {
    && job.isSentinel(job.sentinel)
    && SpscInterleaving.Inv(s.ring)
    && PushesItems(job, s)
    && HandlesItems(job, context0, s)
  }

  lemma GoodHasStorage<C, E>(job: Job<C, E>, context0: C, s: Threads<C, E>)
    requires Good(job, context0, s)
    ensures |s.ring.buffer| > 0
  {
  }

  lemma PushesStay<C, E>(job: Job<C, E>, context0: C, s: Threads<C, E>, m: Move)
    requires Good(job, context0, s) && May(job, s, m)
    ensures PushesItems(job, Make(job, s, m))
  {
    if m.Publish? {
      assert job.Items()[..s.next + 1] == job.Items()[..s.next] + [job.Items()[s.next]];
    }
  }

  lemma RunOneMore<C, E>(job: Job<C, E>, context0: C, events: seq<E>, e: E)
    ensures RunSingle(job, context0, events + [e]) == job.handle(RunSingle(job, context0, events), e)
  {
    assert (events + [e])[..|events|] == events;
  }

  lemma EventIsHandled<C, E>(job: Job<C, E>, context0: C, s: Threads<C, E>)
    requires HandlesItems(job, context0, s) && May(job, s, HandleEvent) && |s.ring.buffer| > 0
    requires s.hand.Holding? && !s.exited
    ensures HandlesItems(job, context0, Make(job, s, HandleEvent))
  {
    hide RunSingle, May;
    RunOneMore(job, context0, s.handled, s.hand.event);
  }

  lemma NextIsReleased<C, E>(job: Job<C, E>, s: Threads<C, E>)
    requires SpscInterleaving.Inv(s.ring) && PushesItems(job, s) && May(job, s, Release)
    ensures |s.ring.popped| < |job.Items()| && s.ring.consumer.out == job.Items()[|s.ring.popped|]
    ensures |s.ring.buffer| > 0
  {
  }

  lemma ValueIsReleased<C, E>(job: Job<C, E>, context0: C, s: Threads<C, E>)
    requires HandlesItems(job, context0, s) && May(job, s, Release) && |s.ring.buffer| > 0
    requires |s.ring.popped| < |job.Items()| && s.ring.consumer.out == job.Items()[|s.ring.popped|]
    ensures HandlesItems(job, context0, Make(job, s, Release))
  {
    hide RunSingle;
  }

  lemma OtherMoveKeepsHandled<C, E>(job: Job<C, E>, context0: C, s: Threads<C, E>, m: Move)
    requires HandlesItems(job, context0, s) && May(job, s, m) && |s.ring.buffer| > 0
    requires !m.HandleEvent? && !m.Release?
    ensures HandlesItems(job, context0, Make(job, s, m))
  {
    hide RunSingle;
  }

  lemma HandlesStay<C, E>(job: Job<C, E>, context0: C, s: Threads<C, E>, m: Move)
    requires Good(job, context0, s) && May(job, s, m)
    ensures HandlesItems(job, context0, Make(job, s, m))
  {
    GoodHasStorage(job, context0, s);
    hide SpscInterleaving.Inv, PushesItems, HandlesItems, Make;
    if m.HandleEvent? {
      EventIsHandled(job, context0, s);
    } else if m.Release? {
      NextIsReleased(job, s);
      ValueIsReleased(job, context0, s);
    } else {
      OtherMoveKeepsHandled(job, context0, s, m);
    }
  }

  lemma MoveStaysGood<C, E>(job: Job<C, E>, context0: C, s: Threads<C, E>, m: Move)
    requires Good(job, context0, s) && May(job, s, m)
    ensures Good(job, context0, Make(job, s, m))
  {
    PushesStay(job, context0, s, m);
    HandlesStay(job, context0, s, m);
    if !m.SetDone? && !m.HandleEvent? {
      StepKeepsInv(s.ring, Access(job, s, m));
    }
    hide SpscInterleaving.Inv, Do, PushesItems, HandlesItems;
  }

  // ----- Every run -----

  ghost predicate Allowed<C, E>(job: Job<C, E>, s: Threads<C, E>, moves: seq<Move>)
    decreases |moves|
  {
    moves == [] ||
    (|s.ring.buffer| > 0 && May(job, s, moves[0]) && Allowed(job, Make(job, s, moves[0]), moves[1..]))
  }

  ghost function Play<C, E>(job: Job<C, E>, s: Threads<C, E>, moves: seq<Move>): Threads<C, E>
    requires Allowed(job, s, moves)
    decreases |moves|
  {
    if moves == [] then s else Play(job, Make(job, s, moves[0]), moves[1..])
  }

  lemma {:induction false} PlayStaysGood<C, E>(job: Job<C, E>, context0: C, s: Threads<C, E>, moves: seq<Move>)
    requires Good(job, context0, s) && Allowed(job, s, moves)
    ensures Good(job, context0, Play(job, s, moves))
    decreases |moves|
  {
    hide Good, Make, May;
    if moves != [] {
      MoveStaysGood(job, context0, s, moves[0]);
      PlayStaysGood(job, context0, Make(job, s, moves[0]), moves[1..]);
    }
  }

  lemma StartIsGood<C, E>(job: Job<C, E>, s: Threads<C, E>, capacity: nat)
    requires Start(s, capacity) && job.isSentinel(job.sentinel)
    ensures Good(job, s.context, s)
  {
  }

  lemma {:induction false} UntilSentinelIs<C, E>(job: Job<C, E>, items: seq<E>, n: nat)
    requires n < |items| && job.isSentinel(items[n])
    requires forall i | 0 <= i < n :: !job.isSentinel(items[i])
    ensures UntilSentinel(job, items) == items[..n]
  {
    if n > 0 {
      UntilSentinelIs(job, items[1..], n - 1);
      assert items[..n] == [items[0]] + items[1..][..n - 1];
    }
  }

  // However the two threads interleave: when the consumer has left its loop, what it handled is exactly the
  // events before the first that carries the sentinel's mark, and the state is that of handling them in order.
  lemma ThreadedHandlesUntilSentinel<C, E>(job: Job<C, E>, start: Threads<C, E>, capacity: nat, moves: seq<Move>)
    requires Start(start, capacity) && job.isSentinel(job.sentinel) && Allowed(job, start, moves)
    ensures var s := Play(job, start, moves);
            && s.context == RunSingle(job, start.context, s.handled)
            && (s.exited ==> s.handled == UntilSentinel(job, job.Items()))
            && s.handled <= UntilSentinel(job, job.Items())
  {
    StartIsGood(job, start, capacity);
    PlayStaysGood(job, start.context, start, moves);
    var s := Play(job, start, moves);
    var n := |s.handled|;
    assert s.handled == job.Items()[..n];
    if s.exited {
      UntilSentinelIs(job, job.Items(), n);
    } else {
      HandledIsPrefix(job, job.Items(), n);
    }
  }

  lemma {:induction false} HandledIsPrefix<C, E>(job: Job<C, E>, items: seq<E>, n: nat)
    requires n <= |items| && forall i | 0 <= i < n :: !job.isSentinel(items[i])
    ensures items[..n] <= UntilSentinel(job, items)
  {
    if n > 0 {
      HandledIsPrefix(job, items[1..], n - 1);
      assert items[..n] == [items[0]] + items[1..][..n - 1];
    }
  }

  predicate NoMark<C, E>(job: Job<C, E>) {
    forall i | 0 <= i < |job.events| :: !job.isSentinel(job.events[i])
  }

  lemma {:induction false} UntilSentinelOfItems<C, E>(job: Job<C, E>)
    requires job.isSentinel(job.sentinel)
    ensures UntilSentinel(job, job.Items()) == job.events <==> NoMark(job)
  {
    var items := job.Items();
    if NoMark(job) {
      UntilSentinelIs(job, items, |job.events|);
      assert items[..|job.events|] == job.events;
    } else {
      var k :| 0 <= k < |job.events| && job.isSentinel(job.events[k]);
      assert items[k] == job.events[k];
      UntilSentinelIsUnmarked(job, items);
    }
  }

  lemma {:induction false} UntilSentinelIsUnmarked<C, E>(job: Job<C, E>, items: seq<E>)
    ensures forall e | e in UntilSentinel(job, items) :: !job.isSentinel(e)
  {
    if items != [] && !job.isSentinel(items[0]) {
      UntilSentinelIsUnmarked(job, items[1..]);
    }
  }

  // The threaded run, once over, handled the replayed events exactly as the single-threaded run does
  // if and only if no event carries the sentinel's mark.
  lemma ThreadedEqualsSingle<C, E>(job: Job<C, E>, start: Threads<C, E>, capacity: nat, moves: seq<Move>)
    requires Start(start, capacity) && job.isSentinel(job.sentinel) && Allowed(job, start, moves)
    requires Play(job, start, moves).exited
    ensures var s := Play(job, start, moves);
            && (s.handled == job.events <==> NoMark(job))
            && (NoMark(job) ==> s.context == RunSingle(job, start.context, job.events))
  {
    ThreadedHandlesUntilSentinel(job, start, capacity, moves);
    UntilSentinelOfItems(job);
    hide UntilSentinel, RunSingle, Start, May, Make;
  }

  // ----- Progress -----

  function PushProgress<E>(p: Producer<E>): nat {
    match p
    case Resting => 0
    case TailLoaded(_, _) => 1
    case Writing(_, _) => 2
    case Written(_, _) => 3
  }

  function PopProgress<E>(c: Consumer<E>): nat {
    match c
    case Waiting => 0
    case HeadLoaded(_) => 1
    case Reading(_) => 2
    case Read(_, _) => 3
  }

  // The accesses still to be made before every item is handled, if none of them fails.
  function Work<C, E>(job: Job<C, E>, s: Threads<C, E>): int {
    4 * (|job.Items()| - s.next) - PushProgress(s.ring.producer)
    + 5 * (|job.Items()| - |s.ring.popped|) - PopProgress(s.ring.consumer)
    + (if s.hand.Holding? then 1 else 0)
  }

  // A thread that can get on: the consumer if it has an event or the queue has one, else the producer.
  function Helpful<C, E>(s: Threads<C, E>): Move {
    if s.hand.Holding? then HandleEvent
    else if s.ring.consumer.Reading? then Take
    else if s.ring.consumer.Read? then Release
    else if |s.ring.popped| < |s.ring.pushed| then
      if s.ring.consumer.Waiting? then BeginPop else CheckEmpty(|s.ring.pushed|)
    else match s.ring.producer
      case Resting => BeginPush
      case TailLoaded(_, _) => CheckFull(|s.ring.popped|)
      case Writing(_, _) => Write
      case Written(_, _) => Publish
  }

  // A consumer that has dealt with the sentinel has left its loop.
  lemma SomethingIsLeft<C, E>(job: Job<C, E>, context0: C, s: Threads<C, E>)
    requires Good(job, context0, s) && !s.exited
    ensures Dealt(s) < |job.Items()|
  {
  }

  lemma WorkIsNatural<C, E>(job: Job<C, E>, context0: C, s: Threads<C, E>)
    requires Good(job, context0, s) && !s.exited
    ensures Work(job, s) >= 0
  {
  }

  lemma ConsumerHelps<C, E>(job: Job<C, E>, context0: C, s: Threads<C, E>)
    requires Good(job, context0, s) && !s.exited && !IsProducerMove(Helpful(s))
    ensures May(job, s, Helpful(s))
    ensures Make(job, s, Helpful(s)).exited || Work(job, Make(job, s, Helpful(s))) < Work(job, s)
  {
    if s.ring.consumer.HeadLoaded? {
      EmptyTest(s.ring, |s.ring.pushed|);
    }
    hide HandlesItems, PushesItems;
  }

  lemma ProducerHelps<C, E>(job: Job<C, E>, context0: C, s: Threads<C, E>)
    requires Good(job, context0, s) && !s.exited && IsProducerMove(Helpful(s))
    ensures May(job, s, Helpful(s))
    ensures Work(job, Make(job, s, Helpful(s))) < Work(job, s)
  {
    SomethingIsLeft(job, context0, s);
    assert s.ring.popped == s.ring.pushed;
    if s.ring.producer.TailLoaded? {
      FullTest(s.ring, |s.ring.popped|);
    }
    hide HandlesItems;
  }

  lemma HelpIsPossible<C, E>(job: Job<C, E>, context0: C, s: Threads<C, E>)
    requires Good(job, context0, s) && !s.exited
    ensures May(job, s, Helpful(s))
    ensures Make(job, s, Helpful(s)).exited || Work(job, Make(job, s, Helpful(s))) < Work(job, s)
  {
    if IsProducerMove(Helpful(s)) {
      ProducerHelps(job, context0, s);
    } else {
      ConsumerHelps(job, context0, s);
    }
    hide May, Make, Work, Helpful;
  }

  lemma PlayFirst<C, E>(job: Job<C, E>, s: Threads<C, E>, m: Move, moves: seq<Move>)
    requires |s.ring.buffer| > 0 && May(job, s, m) && Allowed(job, Make(job, s, m), moves)
    ensures Allowed(job, s, [m] + moves) && Play(job, s, [m] + moves) == Play(job, Make(job, s, m), moves)
  {
    hide May, Make;
    assert ([m] + moves)[1..] == moves;
  }

  // As long as the consumer has not left its loop, the threads can still bring it there.
  lemma {:induction false} ExitStaysReachable<C, E>(job: Job<C, E>, context0: C, s: Threads<C, E>)
    requires Good(job, context0, s)
    ensures exists moves :: Allowed(job, s, moves) && Play(job, s, moves).exited
    decreases if s.exited then 0 else Work(job, s) + 1
  {
    hide Good, May, Make, Helpful, Work;
    if s.exited {
      assert Allowed(job, s, []) && Play(job, s, []).exited;
    } else {
      var m := Helpful(s);
      GoodHasStorage(job, context0, s);
      HelpIsPossible(job, context0, s);
      MoveStaysGood(job, context0, s, m);
      var s' := Make(job, s, m);
      WorkIsNatural(job, context0, s);
      if !s'.exited {
        WorkIsNatural(job, context0, s');
      }
      ExitStaysReachable(job, context0, s');
      var moves :| Allowed(job, s', moves) && Play(job, s', moves).exited;
      PlayFirst(job, s, m, moves);
      assert Allowed(job, s, [m] + moves) && Play(job, s, [m] + moves).exited;
    }
  }

  lemma NoDeadlock<C, E>(job: Job<C, E>, start: Threads<C, E>, capacity: nat, moves: seq<Move>)
    requires Start(start, capacity) && job.isSentinel(job.sentinel) && Allowed(job, start, moves)
    ensures var s := Play(job, start, moves);
            exists more :: Allowed(job, s, more) && Play(job, s, more).exited
  {
    StartIsGood(job, start, capacity);
    PlayStaysGood(job, start.context, start, moves);
    ExitStaysReachable(job, start.context, Play(job, start, moves));
  }

  // ----- Joining both threads -----

  ghost predicate Finished<C, E>(s: Threads<C, E>) {
    s.exited && s.producerDone
  }

  // What is left to push when the consumer is out of its loop fits the queue.
  predicate LeftoverFits<C, E>(job: Job<C, E>, capacity: int) {
    |job.events| - |UntilSentinel(job, job.Items())| <= capacity
  }

  lemma MakeKeepsStorage<C, E>(job: Job<C, E>, s: Threads<C, E>, m: Move)
    requires |s.ring.buffer| > 0 && May(job, s, m)
    ensures |Make(job, s, m).ring.buffer| == |s.ring.buffer|
  {
  }

  lemma {:induction false} PlayKeepsStorage<C, E>(job: Job<C, E>, s: Threads<C, E>, moves: seq<Move>)
    requires Allowed(job, s, moves)
    ensures |Play(job, s, moves).ring.buffer| == |s.ring.buffer|
    decreases |moves|
  {
    hide Make, May;
    if moves != [] {
      MakeKeepsStorage(job, s, moves[0]);
      PlayKeepsStorage(job, Make(job, s, moves[0]), moves[1..]);
    }
  }

  lemma {:induction false} PlayJoins<C, E>(job: Job<C, E>, s: Threads<C, E>, a: seq<Move>, b: seq<Move>)
    requires Allowed(job, s, a) && Allowed(job, Play(job, s, a), b)
    ensures Allowed(job, s, a + b) && Play(job, s, a + b) == Play(job, Play(job, s, a), b)
    decreases |a|
  {
    hide Make, May;
    if a == [] {
      assert a + b == b;
    } else {
      assert (a + b)[1..] == a[1..] + b;
      PlayJoins(job, Make(job, s, a[0]), a[1..], b);
    }
  }

  lemma ExitedAtMark<C, E>(job: Job<C, E>, context0: C, s: Threads<C, E>)
    requires Good(job, context0, s) && s.exited
    ensures |UntilSentinel(job, job.Items())| == |s.handled| == |s.ring.popped| - 1
  {
    UntilSentinelIs(job, job.Items(), |s.handled|);
  }

  lemma FinishingNeedsRoom<C, E>(job: Job<C, E>, context0: C, s: Threads<C, E>)
    requires Good(job, context0, s) && Finished(s)
    ensures LeftoverFits(job, |s.ring.buffer| - 1)
  {
    ExitedAtMark(job, context0, s);
  }

  function PushWork<C, E>(job: Job<C, E>, s: Threads<C, E>): int {
    4 * (|job.Items()| - s.next) - PushProgress(s.ring.producer) + (if s.producerDone then 0 else 1)
  }

  // What the producer does next once the consumer is gone.
  function Onward<C, E>(job: Job<C, E>, s: Threads<C, E>): Move {
    match s.ring.producer
    case Resting => if s.next < |job.Items()| then BeginPush else SetDone
    case TailLoaded(_, _) => CheckFull(|s.ring.popped|)
    case Writing(_, _) => Write
    case Written(_, _) => Publish
  }

  lemma OnwardHelps<C, E>(job: Job<C, E>, context0: C, s: Threads<C, E>)
    requires Good(job, context0, s) && s.exited && !s.producerDone && LeftoverFits(job, |s.ring.buffer| - 1)
    ensures May(job, s, Onward(job, s)) && Make(job, s, Onward(job, s)).exited
    ensures 0 <= PushWork(job, Make(job, s, Onward(job, s))) < PushWork(job, s)
  {
    ExitedAtMark(job, context0, s);
    if s.ring.producer.TailLoaded? {
      FullTest(s.ring, |s.ring.popped|);
    }
    hide HandlesItems, UntilSentinel;
  }

  lemma {:induction false} ProducerCanFinish<C, E>(job: Job<C, E>, context0: C, s: Threads<C, E>)
    requires Good(job, context0, s) && s.exited && LeftoverFits(job, |s.ring.buffer| - 1)
    ensures exists moves :: Allowed(job, s, moves) && Finished(Play(job, s, moves))
    decreases if s.producerDone then 0 else PushWork(job, s) + 1
  {
    if s.producerDone {
      assert Allowed(job, s, []) && Finished(Play(job, s, []));
    } else {
      hide Good, May, Make, LeftoverFits, Onward, PushWork;
      var m := Onward(job, s);
      GoodHasStorage(job, context0, s);
      OnwardHelps(job, context0, s);
      MoveStaysGood(job, context0, s, m);
      MakeKeepsStorage(job, s, m);
      var s' := Make(job, s, m);
      PushWorkIsNatural(job, context0, s);
      ProducerCanFinish(job, context0, s');
      var moves :| Allowed(job, s', moves) && Finished(Play(job, s', moves));
      PlayFirst(job, s, m, moves);
      assert Allowed(job, s, [m] + moves) && Finished(Play(job, s, [m] + moves));
    }
  }

  lemma PushWorkIsNatural<C, E>(job: Job<C, E>, context0: C, s: Threads<C, E>)
    requires Good(job, context0, s)
    ensures PushWork(job, s) >= 0
  {
  }

  lemma FinishedFits<C, E>(job: Job<C, E>, context0: C, s: Threads<C, E>, moves: seq<Move>)
    requires Good(job, context0, s) && Allowed(job, s, moves) && Finished(Play(job, s, moves))
    ensures LeftoverFits(job, |s.ring.buffer| - 1)
  {
    hide Good, LeftoverFits, Allowed, Play, Finished;
    PlayStaysGood(job, context0, s, moves);
    PlayKeepsStorage(job, s, moves);
    FinishingNeedsRoom(job, context0, Play(job, s, moves));
  }

  lemma FittingFinishes<C, E>(job: Job<C, E>, context0: C, s: Threads<C, E>)
    requires Good(job, context0, s) && LeftoverFits(job, |s.ring.buffer| - 1)
    ensures exists moves :: Allowed(job, s, moves) && Finished(Play(job, s, moves))
  {
    hide Good, LeftoverFits, Allowed, Play, Finished;
    ExitStaysReachable(job, context0, s);
    var out :| Allowed(job, s, out) && Play(job, s, out).exited;
    PlayStaysGood(job, context0, s, out);
    PlayKeepsStorage(job, s, out);
    ProducerCanFinish(job, context0, Play(job, s, out));
    var on :| Allowed(job, Play(job, s, out), on) && Finished(Play(job, Play(job, s, out), on));
    PlayJoins(job, s, out, on);
  }

  // From a reachable state both threads can still finish if and only if what the queue may be left with
  // fits it.
  lemma BothFinishFrom<C, E>(job: Job<C, E>, context0: C, s: Threads<C, E>)
    requires Good(job, context0, s)
    ensures (exists moves :: Allowed(job, s, moves) && Finished(Play(job, s, moves)))
            <==> LeftoverFits(job, |s.ring.buffer| - 1)
  {
    hide Good, LeftoverFits, Allowed, Play, Finished;
    if moves :| Allowed(job, s, moves) && Finished(Play(job, s, moves)) {
      FinishedFits(job, context0, s, moves);
    }
    if LeftoverFits(job, |s.ring.buffer| - 1) {
      FittingFinishes(job, context0, s);
    }
  }

  // At every point of every interleaving: both threads can still be joined if and only if the events from the
  // first that carries the sentinel's mark number at most the capacity; with no such event, always.
  lemma BothThreadsCanFinish<C, E>(job: Job<C, E>, start: Threads<C, E>, capacity: nat, moves: seq<Move>)
    requires Start(start, capacity) && job.isSentinel(job.sentinel) && Allowed(job, start, moves)
    ensures var s := Play(job, start, moves);
            (exists more :: Allowed(job, s, more) && Finished(Play(job, s, more)))
            <==> |job.events| - |UntilSentinel(job, job.Items())| <= capacity
    ensures NoMark(job) ==> |job.events| == |UntilSentinel(job, job.Items())|
  {
    hide UntilSentinel, May, Make, Good, NoMark;
    var s := Play(job, start, moves);
    StartIsGood(job, start, capacity);
    PlayStaysGood(job, start.context, start, moves);
    PlayKeepsStorage(job, start, moves);
    BothFinishFrom(job, start.context, s);
    UntilSentinelOfItems(job);
  }
}
