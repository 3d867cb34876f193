// The slot pool: a free list threaded through an array of slots (include/trading/utils/object_pool.hpp).
module ObjectPool {

  const NPOS: nat := 0xFFFF_FFFF_FFFF_FFFF

  // ----- The pool on values: who is live, and the free slots in the order they will be handed out -----

  datatype Pool<T> = Pool(live: map<nat, T>, free: seq<nat>)

  // The first n slots, in order.
  function Upward(n: nat): (s: seq<nat>)
    ensures |s| == n
    ensures forall i | 0 <= i < n :: s[i] == i
  {
    if n == 0 then [] else Upward(n - 1) + [n - 1]
  }

  function Fresh<T>(capacity: nat): Pool<T> {
    Pool(map[], Upward(capacity))
  }

  datatype Operation<T> = Allocate(value: T, throws: bool) | Deallocate(slot: nat)

  // The slot an allocation gets, if any.
  function Granted<T>(p: Pool<T>, op: Operation<T>): seq<nat> {
    if op.Allocate? && !op.throws && p.free != [] then [p.free[0]] else []
  }

  function Perform<T>(p: Pool<T>, op: Operation<T>): Pool<T> {
    match op
    case Allocate(value, throws) =>
      if p.free == [] || throws then p else Pool(p.live[p.free[0] := value], p.free[1..])
    case Deallocate(slot) =>
      if slot in p.live then Pool(p.live - {slot}, [slot] + p.free) else p
  }

  // Every slot is live or free, never both, and the free list has no cycle.
  ghost predicate Partition<T>(p: Pool<T>, capacity: nat) {
    && (forall i | 0 <= i < |p.free| :: p.free[i] < capacity && p.free[i] !in p.live)
    && (forall i, j | 0 <= i < j < |p.free| :: p.free[i] != p.free[j])
    && (forall c | c in p.live :: c < capacity)
    && (forall c: nat | c < capacity && c !in p.live :: c in p.free)
  }

  lemma PerformKeepsPartition<T>(p: Pool<T>, op: Operation<T>, capacity: nat)
    requires Partition(p, capacity)
    ensures Partition(Perform(p, op), capacity)
  {
    var p' := Perform(p, op);
    if op.Allocate? && p.free != [] && !op.throws {
      assert p.free == [p.free[0]] + p.free[1..];
    }
  }

  function PerformAll<T>(p: Pool<T>, ops: seq<Operation<T>>): Pool<T>
    decreases |ops|
  {
    if ops == [] then p else PerformAll(Perform(p, ops[0]), ops[1..])
  }

  lemma {:induction false} PoolsStayPartitioned<T>(p: Pool<T>, ops: seq<Operation<T>>, capacity: nat)
    requires Partition(p, capacity)
    ensures Partition(PerformAll(p, ops), capacity)
    decreases |ops|
  {
    if ops != [] {
      PerformKeepsPartition(p, ops[0], capacity);
      hide Partition, Perform;
      PoolsStayPartitioned(Perform(p, ops[0]), ops[1..], capacity);
    }
  }

  lemma {:induction false} Counting(free: seq<nat>, live: set<nat>, capacity: nat)
    requires forall i | 0 <= i < |free| :: free[i] < capacity && free[i] !in live
    requires forall i, j | 0 <= i < j < |free| :: free[i] != free[j]
    requires forall c | c in live :: c < capacity
    requires forall c: nat | c < capacity && c !in live :: c in free
    ensures |live| + |free| == capacity
    decreases |free|
  {
    if free == [] {
      FullSet(live, capacity);
    } else {
      var first, rest := free[0], free[1..];
      assert free == [first] + rest;
      Counting(rest, live + {first}, capacity);
    }
  }

  lemma {:induction false} FullSet(s: set<nat>, n: nat)
    requires forall c: nat :: c in s <==> c < n
    ensures |s| == n
  {
    if n > 0 {
      FullSet(s - {n - 1}, n - 1);
    } else {
      assert s == {};
    }
  }

  lemma FreshIsPartitioned<T>(capacity: nat)
    ensures Partition<T>(Fresh(capacity), capacity)
  {
    var f := Upward(capacity);
    forall c: nat | c < capacity ensures c in f {
      assert f[c] == c;
    }
  }

  lemma FreeThenAllocate<T>(p: Pool<T>, slot: nat, value: T)
    requires slot in p.live
    ensures var q := Perform(p, Deallocate(slot));
            && Granted(q, Allocate(value, false)) == [slot]
            && Perform(q, Allocate(value, false)) == p.(live := p.live[slot := value])
  {
  }

  // After any operations on a fresh pool, of which any may be a bad or a repeated free or a throwing
  // constructor: no granted slot has a live owner; nothing is granted exactly when the constructor throws or
  // all slots are live; and freeing a live slot then allocating gives that slot back.
  lemma PoolServesFairly<T>(ops: seq<Operation<T>>, capacity: nat, value: T, throws: bool)
    ensures var p := PerformAll<T>(Fresh(capacity), ops);
            && Partition(p, capacity)
            && |p.live| + |p.free| == capacity
            && (forall c | c in Granted(p, Allocate(value, throws)) :: c < capacity && c !in p.live)
            && (Granted(p, Allocate(value, throws)) == [] <==> throws || |p.live| == capacity)
  {
    var p := PerformAll<T>(Fresh(capacity), ops);
    FreshIsPartitioned<T>(capacity);
    PoolsStayPartitioned(Fresh(capacity), ops, capacity);
    Counting(p.free, p.live.Keys, capacity);
  }

  // The last slot freed is the first reused, and nothing else changes hands.
  lemma LastFreedIsReusedFirst<T>(ops: seq<Operation<T>>, capacity: nat, slot: nat, value: T)
    requires slot in PerformAll<T>(Fresh(capacity), ops).live
    ensures var p := PerformAll<T>(Fresh(capacity), ops);
            var q := PerformAll<T>(Fresh(capacity), ops + [Deallocate(slot)]);
            && Granted(q, Allocate(value, false)) == [slot]
            && Perform(q, Allocate(value, false)) == p.(live := p.live[slot := value])
  {
    PerformOneMore(Fresh(capacity), ops, Deallocate(slot));
    FreeThenAllocate(PerformAll<T>(Fresh(capacity), ops), slot, value);
  }

  lemma {:induction false} PerformOneMore<T>(p: Pool<T>, ops: seq<Operation<T>>, op: Operation<T>)
    ensures PerformAll(p, ops + [op]) == Perform(PerformAll(p, ops), op)
    decreases |ops|
  {
    if ops == [] {
      assert ([] + [op])[1..] == [];
    } else {
      assert (ops + [op])[1..] == ops[1..] + [op];
      PerformOneMore(Perform(p, ops[0]), ops[1..], op);
    }
  }

  // An allocation that throws or finds no slot, and a free of a slot that is not live, change nothing.
  lemma FailuresChangeNothing<T>(ops: seq<Operation<T>>, capacity: nat, op: Operation<T>)
    requires var p := PerformAll<T>(Fresh(capacity), ops);
             match op
             case Allocate(_, throws) => throws || |p.live| == capacity
             case Deallocate(slot) => slot !in p.live
    ensures PerformAll<T>(Fresh(capacity), ops + [op]) == PerformAll<T>(Fresh(capacity), ops)
  {
    PerformOneMore(Fresh(capacity), ops, op);
    if op.Allocate? {
      PoolServesFairly(ops, capacity, op.value, op.throws);
    }
  }

  // The k-th operation granted the slot, and nothing has freed it since.
  ghost predicate Owns<T>(ops: seq<Operation<T>>, capacity: nat, k: nat, slot: nat) {
    && k < |ops|
    && Granted(PerformAll<T>(Fresh(capacity), ops[..k]), ops[k]) == [slot]
    && forall j | k < j < |ops| :: ops[j] != Deallocate(slot)
  }

  lemma OwnsStill<T>(ops: seq<Operation<T>>, capacity: nat, k: nat, slot: nat, op: Operation<T>)
    requires k < |ops|
    ensures Owns(ops + [op], capacity, k, slot) <==> Owns(ops, capacity, k, slot) && op != Deallocate(slot)
  {
    var more := ops + [op];
    assert more[..k] == ops[..k];
    assert forall j | 0 <= j < |ops| :: more[j] == ops[j];
    assert more[|ops|] == op;
    hide Granted, PerformAll, Fresh;
  }

  lemma OwnsNow<T>(ops: seq<Operation<T>>, capacity: nat, slot: nat, op: Operation<T>)
    ensures Owns(ops + [op], capacity, |ops|, slot) <==> Granted(PerformAll<T>(Fresh(capacity), ops), op) == [slot]
  {
    assert (ops + [op])[..|ops|] == ops;
    hide Granted, PerformAll, Fresh;
  }

  lemma PerformMoves<T>(p: Pool<T>, op: Operation<T>, slot: nat)
    ensures var q := Perform(p, op);
            && (slot in q.live <==> Granted(p, op) == [slot] || (slot in p.live && op != Deallocate(slot)))
            && (Granted(p, op) == [slot] ==> op.Allocate? && q.live[slot] == op.value)
            && (slot in q.live && Granted(p, op) != [slot] ==> slot in p.live && q.live[slot] == p.live[slot])
  {
  }

  // A slot is live exactly while the operation that was granted it owns it, and holds what that operation put there.
  lemma {:induction false} LiveSlotsAreOwned<T>(ops: seq<Operation<T>>, capacity: nat, slot: nat)
    ensures var live := PerformAll<T>(Fresh(capacity), ops).live;
            && (slot in live <==> exists k: nat :: Owns(ops, capacity, k, slot))
            && (forall k: nat | Owns(ops, capacity, k, slot) ::
                  ops[k].Allocate? && slot in live && live[slot] == ops[k].value)
    decreases |ops|
  {
    hide Owns, Perform, Granted, PerformAll;
    if ops == [] {
      NoOwners<T>(capacity, slot);
    } else {
      var front, op := ops[..|ops| - 1], ops[|ops| - 1];
      assert ops == front + [op];
      var p := PerformAll<T>(Fresh(capacity), front);
      LiveSlotsAreOwned(front, capacity, slot);
      PerformOneMore(Fresh(capacity), front, op);
      PerformMoves(p, op, slot);
      OwnsNow(front, capacity, slot, op);
      GrantedIsFree(front, capacity, op, slot);
      forall k: nat ensures k < |front| ==> (Owns(ops, capacity, k, slot) <==>
                              Owns(front, capacity, k, slot) && op != Deallocate(slot))
      {
        if k < |front| {
          OwnsStill(front, capacity, k, slot, op);
        }
      }
      OwnersAreOperations(ops, capacity, slot);
      OwnersAreOperations(front, capacity, slot);
    }
  }

  lemma OwnersAreOperations<T>(ops: seq<Operation<T>>, capacity: nat, slot: nat)
    ensures forall k: nat | Owns(ops, capacity, k, slot) :: k < |ops|
  {
  }

  lemma NoOwners<T>(capacity: nat, slot: nat)
    ensures forall k: nat :: !Owns<T>([], capacity, k, slot)
    ensures PerformAll<T>(Fresh(capacity), []).live == map[]
  {
  }

  lemma GrantedIsFree<T>(ops: seq<Operation<T>>, capacity: nat, op: Operation<T>, slot: nat)
    ensures var p := PerformAll<T>(Fresh(capacity), ops);
            Granted(p, op) == [slot] ==> slot !in p.live && op.Allocate?
  {
    if op.Allocate? {
      PoolServesFairly(ops, capacity, op.value, op.throws);
      assert Granted(PerformAll<T>(Fresh(capacity), ops), op) == [slot] ==>
          slot in Granted(PerformAll<T>(Fresh(capacity), ops), Allocate(op.value, op.throws));
    }
  }

  // ----- The pool in place -----

  datatype Storage<T> = Raw | Built(value: T)

  datatype Slot<T> = Slot(storage: Storage<T>, nextFree: nat, occupied: bool)

  // The i-th free slot, or the end of the list.
  function Link(free: seq<nat>, i: nat): nat {
    if i < |free| then free[i] else NPOS
  }

  // The links from `head` spell out the free list, and end at NPOS.
  ghost predicate Spells<T>(slots: seq<Slot<T>>, head: nat, free: seq<nat>) {
    && head == Link(free, 0)
    && forall i | 0 <= i < |free| ::
         free[i] < |slots| && !slots[free[i]].occupied && slots[free[i]].nextFree == Link(free, i + 1)
  }

  ghost predicate AllBuilt<T>(slots: seq<Slot<T>>) {
    forall i | 0 <= i < |slots| && slots[i].occupied :: slots[i].storage.Built?
  }

  ghost function LiveIn<T>(slots: seq<Slot<T>>): map<nat, T>
    requires AllBuilt(slots)
  {
    map i: nat | i < |slots| && slots[i].occupied :: slots[i].storage.value
  }

  lemma TakeFirst<T>(slots: seq<Slot<T>>, free: seq<nat>, value: T)
    requires free != [] && AllBuilt(slots) && Spells(slots, free[0], free)
    requires forall i, j | 0 <= i < j < |free| :: free[i] != free[j]
    ensures var i := free[0];
            var slots' := slots[i := slots[i].(storage := Built(value), occupied := true)];
            && AllBuilt(slots')
            && LiveIn(slots') == LiveIn(slots)[i := value]
            && Spells(slots', slots[i].nextFree, free[1..])
  {
  }

  lemma GiveBack<T>(slots: seq<Slot<T>>, head: nat, free: seq<nat>, i: nat)
    requires i < |slots| && slots[i].occupied && AllBuilt(slots) && Spells(slots, head, free)
    ensures var slots' := slots[i := Slot(Raw, head, false)];
            && AllBuilt(slots')
            && LiveIn(slots') == LiveIn(slots) - {i}
            && Spells(slots', i, [i] + free)
  {
  }

  lemma NoneOccupied<T>(slots: seq<Slot<T>>)
    requires forall i | 0 <= i < |slots| :: !slots[i].occupied
    ensures AllBuilt(slots) && LiveIn(slots) == map[]
  {
  }

  class ObjectPool<T> {
    const capacity: nat
    const base: nat
    const stride: nat
    const slots: array<Slot<T>>
    var freeHead: nat
    var used: nat
    ghost var free: seq<nat>

    ghost predicate Valid()
      reads this, slots
    {
      && 0 < capacity < NPOS
      && base > 0 && stride > 0
      && slots.Length == capacity
      && AllBuilt(slots[..])
      && Spells(slots[..], freeHead, free)
      && Partition(View(), capacity)
      && used == |View().live|
    }

    ghost function View(): Pool<T>
      requires AllBuilt(slots[..])
      reads this, slots
    {
      Pool(LiveIn(slots[..]), free)
    }

    function Address(i: nat): nat {
      base + i * stride
    }

    constructor (capacity: nat, base: nat, stride: nat)
      requires 0 < capacity < NPOS && base > 0 && stride > 0
      ensures Valid() && View() == Fresh(capacity) && used == 0
      ensures this.capacity == capacity && this.base == base && this.stride == stride
    {
      this.capacity, this.base, this.stride := capacity, base, stride;
      slots := new Slot<T>[capacity](_ => Slot(Raw, NPOS, false));
      freeHead, used := NPOS, 0;
      free := [];
      new;
      ResetFreeList();
      FreshIsPartitioned<T>(capacity);
      NoneOccupied(slots[..]);
      hide Partition, Spells, AllBuilt, LiveIn;
    }

    method ResetFreeList()
      requires 0 < capacity < NPOS && slots.Length == capacity
      requires forall i | 0 <= i < capacity :: slots[i] == Slot(Raw, NPOS, false)
      modifies this`freeHead, this`free, slots
      ensures free == Upward(capacity) && Spells(slots[..], freeHead, free)
      ensures forall i | 0 <= i < capacity :: !slots[i].occupied && slots[i].storage == Raw
    {
      for i := 0 to capacity
        invariant forall j | 0 <= j < capacity :: !slots[j].occupied && slots[j].storage == Raw
        invariant forall j | 0 <= j < i :: slots[j].nextFree == j + 1
      {
        slots[i] := slots[i].(nextFree := i + 1);
      }
      slots[capacity - 1] := slots[capacity - 1].(nextFree := NPOS);
      freeHead := 0;
      free := Upward(capacity);
    }

    lemma AddressesDiffer(i: nat, j: nat)
      requires stride > 0
      ensures Address(i) == Address(j) <==> i == j
    {
    }

    // The slot at an address; NPOS for null and for addresses that are none of the pool's.
    method IndexOf(address: nat) returns (index: nat)
      requires Valid()
      ensures if index == NPOS then forall i: nat | i < capacity :: Address(i) != address
              else index < capacity && Address(index) == address
    {
      hide Partition, Spells, LiveIn, AllBuilt;
      if address == 0 {
        return NPOS;
      }
      for i := 0 to capacity
        invariant forall j: nat | j < i :: Address(j) != address
      {
        if Address(i) == address {
          return i;
        }
      }
      return NPOS;
    }

    // Construction in the slot at the head of the free list.
    method Occupy(value: T) returns (index: nat)
      requires Valid() && free != []
      modifies this`freeHead, this`used, this`free, slots
      ensures Valid()
      ensures View() == Perform(old(View()), Operation.Allocate(value, false))
      ensures index == old(free[0]) < capacity
    {
      index := freeHead;
      TakeFirst(slots[..], free, value);
      PerformKeepsPartition(View(), Operation.Allocate(value, false), capacity);
      assert index == free[0] && index < capacity && index !in View().live;
      hide Partition, Spells, AllBuilt, LiveIn;
      ghost var after := slots[..][index := slots[index].(storage := Built(value), occupied := true)];
      freeHead := slots[index].nextFree;
      slots[index] := slots[index].(storage := Built(value), occupied := true);
      used := used + 1;
      free := free[1..];
      assert slots[..] == after;
    }

    // Null (0) when the pool is exhausted; `threw` when the constructor throws, which changes nothing.
    method Allocate(value: T, throws: bool) returns (address: nat, threw: bool)
      requires Valid()
      modifies this`freeHead, this`used, this`free, slots
      ensures Valid()
      ensures View() == Perform(old(View()), Operation.Allocate(value, throws))
      ensures threw <==> throws && old(View()).free != []
      ensures var granted := Granted(old(View()), Operation.Allocate(value, throws));
              address == if granted == [] then 0 else Address(granted[0])
    {
      if freeHead == NPOS {
        return 0, false;
      }
      if throws {
        return 0, true;
      }
      var index := Occupy(value);
      return Address(index), false;
    }

    method Deallocate(address: nat)
      requires Valid()
      modifies this`freeHead, this`used, this`free, slots
      ensures Valid()
      ensures forall i: nat | i < capacity && Address(i) == address ::
        View() == Perform(old(View()), Operation.Deallocate(i))
      ensures (forall i: nat | i < capacity :: Address(i) != address) ==> View() == old(View())
    {
      var index := IndexOf(address);
      ghost var p := View();
      forall i: nat | i < capacity && Address(i) == address ensures index == i {
        AddressesDiffer(i, index);
      }
      if index == NPOS || !slots[index].occupied {
        return;
      }
      GiveBack(slots[..], freeHead, free, index);
      PerformKeepsPartition(p, Operation.Deallocate(index), capacity);
      assert index in p.live;
      hide Partition, Spells, AllBuilt, LiveIn;
      ghost var after := slots[..][index := Slot(Raw, freeHead, false)];
      slots[index] := slots[index].(storage := Raw, occupied := false);
      slots[index] := slots[index].(nextFree := freeHead);
      freeHead := index;
      used := used - 1;
      free := [index] + free;
      assert slots[..] == after;
    }
  }
}
