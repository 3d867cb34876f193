// The order records and their manager, updated in place
// (src/oms/order_state_machine.cpp, src/oms/order_manager.cpp).
module OrderManagement {
  import opened Types
  import opened Division
  import opened OrderLifecycle
  import opened OrderTransitions

  // ----- The manager's state, on values -----

  datatype Oms = Oms(orders: map<nat, OrderData>, nextId: nat)

  const EMPTY_OMS := Oms(map[], 1)

  function Create(oms: Oms, symbol: Symbol, side: Side, price: int, quantity: int, now: nat): Oms {
    var id := oms.nextId;
    Oms(oms.orders[id := NewOrderData(id, symbol, side, price, quantity, now)], id + 1)
  }

  function Happen(oms: Oms, id: nat, event: OrderEvent, quantity: int, price: int): Oms {
    if id in oms.orders then oms.(orders := oms.orders[id := Apply(oms.orders[id], event, quantity, price).order])
    else oms
  }

  predicate Accepts(oms: Oms, id: nat, event: OrderEvent, quantity: int, price: int) {
    id in oms.orders && Apply(oms.orders[id], event, quantity, price).transition.accepted
  }

  function Acknowledge(oms: Oms, id: nat, exchangeId: nat): Oms {
    if Accepts(oms, id, NewAck, 0, 0)
    then oms.(orders := oms.orders[id := Apply(oms.orders[id], NewAck, 0, 0).order.(exchangeOrderId := exchangeId)])
    else oms
  }

  // ----- One order record -----

  class Order {
    const clientOrderId: nat
    var exchangeOrderId: nat
    const symbol: Symbol
    const side: Side
    const orderType: OrderType
    const timeInForce: TimeInForce
    const price: int
    const quantity: int
    var filledQuantity: int
    var remainingQuantity: int
    var averageFillPrice: int
    var status: OrderStatus
    const createdTimestamp: nat

    function Data(): OrderData
      reads this
    {
      OrderData(clientOrderId, exchangeOrderId, symbol, side, orderType, timeInForce, price, quantity,
                filledQuantity, remainingQuantity, averageFillPrice, status, createdTimestamp)
    }

    constructor (clientId: nat, symbol: Symbol, side: Side, price: int, quantity: int, now: nat)
      ensures Data() == NewOrderData(clientId, symbol, side, price, quantity, now)
      ensures clientOrderId == clientId
      ensures this.symbol == symbol && this.side == side && this.price == price && createdTimestamp == now
      ensures orderType == Limit && timeInForce == Day && status == Created
      ensures this.quantity == remainingQuantity == quantity
      ensures filledQuantity == averageFillPrice == exchangeOrderId == 0
    {
      clientOrderId := clientId;
      exchangeOrderId := 0;
      this.symbol, this.side, this.price, this.quantity := symbol, side, price, quantity;
      orderType, timeInForce := Limit, Day;
      filledQuantity, remainingQuantity := 0, quantity;
      averageFillPrice := 0;
      status := Created;
      createdTimestamp := now;
    }
  }

  class OrderStateMachine {
    static method FillOrder(order: Order, quantity: int, price: int)
      modifies order
      ensures order.Data() == ApplyFill(old(order.Data()), quantity, price)
    {
      if quantity <= 0 || price <= 0 || order.remainingQuantity <= 0 {
        return;
      }
      var applied := Min(quantity, order.remainingQuantity);
      var previousNotional := order.averageFillPrice * order.filledQuantity;
      var fillNotional := price * applied;
      order.filledQuantity := order.filledQuantity + applied;
      order.remainingQuantity := order.remainingQuantity - applied;
      if order.filledQuantity > 0 {
        order.averageFillPrice := Truncate(previousNotional + fillNotional, order.filledQuantity);
      }
    }

    static method ApplyEvent(order: Order, event: OrderEvent, quantity: int, price: int)
      returns (transition: OrderTransition)
      modifies order
      ensures Applied(order.Data(), transition) == Apply(old(order.Data()), event, quantity, price)
      ensures transition.accepted ==>
                Edge(old(order.status), event, old(order.filledQuantity), old(order.remainingQuantity) - quantity,
                     order.status)
      ensures !transition.accepted ==> order.Data() == old(order.Data())
    {
      EventsFollowEdges(order.Data(), event, quantity, price);
      hide Edge;
      var previous := order.status;
      var rejected := OrderTransition(false, previous, previous);
      var next := previous;
      match event {
        case Submit =>
          if previous != Created { return rejected; }
          next := PendingNew;
        case NewAck =>
          if previous != PendingNew { return rejected; }
          next := Acked;
        case NewReject =>
          if previous != PendingNew { return rejected; }
          next := Rejected;
        case PartialFill =>
          if !IsWorking(previous) { return rejected; }
          if quantity <= 0 || price <= 0 || order.remainingQuantity <= 0 { return rejected; }
          FillOrder(order, quantity, price);
          next := if order.remainingQuantity == 0 then Filled else PartiallyFilled;
          if previous == PendingCancel && next == PartiallyFilled {
            next := PendingCancel;
          }
        case Fill =>
          if !IsWorking(previous) { return rejected; }
          if quantity <= 0 || price <= 0 || order.remainingQuantity <= 0 { return rejected; }
          FillOrder(order, quantity, price);
          next := Filled;
          order.remainingQuantity := 0;
        case CancelRequest =>
          if previous != Acked && previous != PartiallyFilled { return rejected; }
          next := PendingCancel;
        case CancelAck =>
          if previous != PendingCancel { return rejected; }
          next := Canceled;
        case CancelReject =>
          if previous != PendingCancel { return rejected; }
          next := if order.filledQuantity > 0 then PartiallyFilled else Acked;
      }
      order.status := next;
      transition := OrderTransition(true, previous, next);
    }
  }

  // ----- The manager -----

  ghost function ActiveIds(orders: map<nat, OrderData>, among: set<nat>): set<nat> {
    set c | c in among && c in orders && IsActive(orders[c].status)
  }

  lemma OneMoreActive(orders: map<nat, OrderData>, done: set<nat>, c: nat)
    requires c in orders && c !in done
    ensures |ActiveIds(orders, done + {c})|
         == |ActiveIds(orders, done)| + (if IsActive(orders[c].status) then 1 else 0)
  {
    var before, after := ActiveIds(orders, done), ActiveIds(orders, done + {c});
    if IsActive(orders[c].status) {
      assert after == before + {c};
    } else {
      assert after == before;
    }
  }

  lemma NoneActive(orders: map<nat, OrderData>)
    ensures ActiveIds(orders, {}) == {}
  {
  }

  class OrderManager {
    var nextClientOrderId: nat
    var orders: map<nat, Order>

    // The records are separate objects, numbered below the next id.
    ghost predicate Valid()
      reads this
    {
      && nextClientOrderId > 0
      && (forall c | c in orders :: 0 < c < nextClientOrderId)
      && (forall c, d | c in orders && d in orders && c != d :: orders[c] != orders[d])
    }

    ghost function View(): Oms
      reads this, orders.Values
    {
      Oms(map c | c in orders :: orders[c].Data(), nextClientOrderId)
    }

    lemma SameIds()
      ensures View().orders.Keys == orders.Keys && View().nextId == nextClientOrderId
    {
    }

    lemma SameData(id: nat)
      requires id in orders
      ensures id in View().orders && View().orders[id] == orders[id].Data()
    {
    }

    constructor ()
      ensures Valid() && View() == EMPTY_OMS && fresh(orders.Values)
    {
      nextClientOrderId := 1;
      orders := map[];
    }

    method CreateOrder(symbol: Symbol, side: Side, price: int, quantity: int, now: nat) returns (order: Order)
      requires Valid()
      modifies this
      ensures Valid() && fresh(order) && order.clientOrderId == old(nextClientOrderId)
      ensures order.symbol == symbol && order.side == side && order.price == price && order.createdTimestamp == now
      ensures order.orderType == Limit && order.timeInForce == Day && order.status == Created
      ensures order.quantity == order.remainingQuantity == quantity
      ensures order.filledQuantity == order.averageFillPrice == order.exchangeOrderId == 0
      ensures View() == Create(old(View()), symbol, side, price, quantity, now)
      ensures orders == old(orders)[old(nextClientOrderId) := order]
    {
      hide NewOrderData, Order.Data;
      var id := nextClientOrderId;
      nextClientOrderId := id + 1;
      order := new Order(id, symbol, side, price, quantity, now);
      orders := orders[id := order];
    }

    method Find(id: nat) returns (order: Order?)
      ensures if id in orders then order == orders[id] else order == null
    {
      order := if id in orders then orders[id] else null;
    }

    method ApplyEvent(id: nat, event: OrderEvent, quantity: int, price: int) returns (accepted: bool)
      requires Valid()
      modifies orders.Values
      ensures Valid()
      ensures View() == Happen(old(View()), id, event, quantity, price)
      ensures accepted == Accepts(old(View()), id, event, quantity, price)
    {
      var order := Find(id);
      if order == null {
        return false;
      }
      var transition := OrderStateMachine.ApplyEvent(order, event, quantity, price);
      accepted := transition.accepted;
    }

    method Submit(id: nat) returns (accepted: bool)
      requires Valid()
      modifies orders.Values
      ensures Valid()
      ensures View() == Happen(old(View()), id, OrderEvent.Submit, 0, 0)
      ensures accepted == Accepts(old(View()), id, OrderEvent.Submit, 0, 0)
    {
      accepted := ApplyEvent(id, OrderEvent.Submit, 0, 0);
    }

    method OnNewAck(id: nat, exchangeId: nat) returns (accepted: bool)
      requires Valid()
      modifies orders.Values
      ensures Valid()
      ensures View() == Acknowledge(old(View()), id, exchangeId)
      ensures accepted == Accepts(old(View()), id, NewAck, 0, 0)
    {
      hide Apply;
      var order := Find(id);
      if order == null {
        return false;
      }
      RefusedEventKeeps(order.Data(), NewAck, 0, 0);
      var transition := OrderStateMachine.ApplyEvent(order, NewAck, 0, 0);
      accepted := transition.accepted;
      if accepted {
        order.exchangeOrderId := exchangeId;
      }
    }

    method RequestCancel(id: nat) returns (accepted: bool)
      requires Valid()
      modifies orders.Values
      ensures Valid()
      ensures View() == Happen(old(View()), id, CancelRequest, 0, 0)
      ensures accepted == Accepts(old(View()), id, CancelRequest, 0, 0)
    {
      accepted := ApplyEvent(id, CancelRequest, 0, 0);
    }

    method RemainingQuantity(id: nat) returns (quantity: int)
      ensures quantity == if id in orders then orders[id].remainingQuantity else 0
    {
      var order := Find(id);
      quantity := if order == null then 0 else order.remainingQuantity;
    }

    // Counts the records one by one, in whatever order they come.
    method ActiveOrderCount() returns (count: nat)
      requires Valid()
      ensures count == |ActiveIds(View().orders, View().orders.Keys)|
    {
      hide ActiveIds, OrderManager.Valid, OrderManager.View;
      count := 0;
      var pending := orders.Keys;
      ghost var done: set<nat>, all := {}, View().orders;
      SameIds();
      NoneActive(all);
      while pending != {}
        invariant done !! pending && done + pending == all.Keys
        invariant count == |ActiveIds(all, done)|
        decreases pending
      {
        var c :| c in pending;
        SameData(c);
        OneMoreActive(all, done, c);
        if IsActive(orders[c].status) {
          count := count + 1;
        }
        pending := pending - {c};
        done := done + {c};
      }
      assert done == all.Keys;
    }
  }

  // ----- What every sequence of manager calls keeps -----

  ghost predicate AllSound(oms: Oms) {
    && oms.nextId > 0
    && forall c | c in oms.orders ::
         && 0 < c < oms.nextId
         && oms.orders[c].clientOrderId == c
         && (oms.orders[c].quantity > 0 ==> Sound(oms.orders[c]))
  }

  // `b` still has every order of `a`, at the same or a later point of its life.
  ghost predicate Grown(a: Oms, b: Oms) {
    && a.nextId <= b.nextId
    && forall c | c in a.orders :: c in b.orders && (a.orders[c].quantity > 0 ==> Later(a.orders[c], b.orders[c]))
  }

  // Every way the rest of the system calls the manager.
  datatype Call =
    | CreateCall(symbol: Symbol, side: Side, price: int, quantity: int, now: nat)
    | EventCall(id: nat, event: OrderEvent, fillQuantity: int, fillPrice: int)
    | AckCall(id: nat, exchangeId: nat)

  function Do(oms: Oms, call: Call): Oms {
    match call
    case CreateCall(symbol, side, price, quantity, now) => Create(oms, symbol, side, price, quantity, now)
    case EventCall(id, event, quantity, price) => Happen(oms, id, event, quantity, price)
    case AckCall(id, exchangeId) => Acknowledge(oms, id, exchangeId)
  }

  function DoAll(oms: Oms, calls: seq<Call>): Oms
    decreases |calls|
  {
    if calls == [] then oms else DoAll(Do(oms, calls[0]), calls[1..])
  }

  lemma ApplyKeepsIdentity(o: OrderData, event: OrderEvent, quantity: int, price: int)
    ensures var o' := Apply(o, event, quantity, price).order;
            o'.clientOrderId == o.clientOrderId && o'.quantity == o.quantity
  {
  }

  lemma LaterIsReflexive(o: OrderData)
    ensures Later(o, o)
  {
  }

  lemma AcceptedAckIsEarly(o: OrderData, exchangeId: nat)
    requires Sound(o) && Apply(o, NewAck, 0, 0).transition.accepted
    ensures var o' := Apply(o, NewAck, 0, 0).order.(exchangeOrderId := exchangeId); Sound(o') && Later(o, o')
  {
  }

  lemma ChangeKeepsSound(oms: Oms, id: nat, o': OrderData)
    requires AllSound(oms) && id in oms.orders
    requires o'.clientOrderId == id && o'.quantity == oms.orders[id].quantity
    requires o'.quantity > 0 ==> Sound(o') && Later(oms.orders[id], o')
    ensures var after := oms.(orders := oms.orders[id := o']); AllSound(after) && Grown(oms, after)
  {
    hide Sound, Later;
    forall c | c in oms.orders ensures Later(oms.orders[c], oms.orders[c]) {
      LaterIsReflexive(oms.orders[c]);
    }
  }

  lemma NothingKeepsSound(oms: Oms)
    requires AllSound(oms)
    ensures Grown(oms, oms)
  {
    hide Sound, Later;
    forall c | c in oms.orders ensures Later(oms.orders[c], oms.orders[c]) {
      LaterIsReflexive(oms.orders[c]);
    }
  }

  lemma CreateKeepsSound(oms: Oms, symbol: Symbol, side: Side, price: int, quantity: int, now: nat)
    requires AllSound(oms)
    ensures var after := Create(oms, symbol, side, price, quantity, now); AllSound(after) && Grown(oms, after)
  {
    assert oms.nextId !in oms.orders;
    NothingKeepsSound(oms);
  }

  lemma DoKeepsSound(oms: Oms, call: Call)
    requires AllSound(oms)
    ensures AllSound(Do(oms, call)) && Grown(oms, Do(oms, call))
  {
    hide Apply, AllSound, Grown, Create;
    NothingKeepsSound(oms);
    match call
    case CreateCall(symbol, side, price, quantity, now) =>
      CreateKeepsSound(oms, symbol, side, price, quantity, now);
    case EventCall(id, event, quantity, price) =>
      if id in oms.orders {
        OrderIsKnown(oms, id);
        ApplyKeepsIdentity(oms.orders[id], event, quantity, price);
        if oms.orders[id].quantity > 0 {
          ApplyKeepsSound(oms.orders[id], event, quantity, price);
        }
        ChangeKeepsSound(oms, id, Apply(oms.orders[id], event, quantity, price).order);
      }
    case AckCall(id, exchangeId) =>
      if Accepts(oms, id, NewAck, 0, 0) {
        OrderIsKnown(oms, id);
        ApplyKeepsIdentity(oms.orders[id], NewAck, 0, 0);
        if oms.orders[id].quantity > 0 {
          AcceptedAckIsEarly(oms.orders[id], exchangeId);
        }
        ChangeKeepsSound(oms, id, Apply(oms.orders[id], NewAck, 0, 0).order.(exchangeOrderId := exchangeId));
      }
  }

  lemma OrderIsKnown(oms: Oms, id: nat)
    requires AllSound(oms) && id in oms.orders
    ensures oms.orders[id].clientOrderId == id
    ensures oms.orders[id].quantity > 0 ==> Sound(oms.orders[id])
  {
  }

  lemma LaterIsTransitive(a: OrderData, b: OrderData, c: OrderData)
    requires Later(a, b) && Later(b, c)
    ensures Later(a, c)
  {
  }

  // Over every sequence of manager calls: ids are never reused, every order with a positive quantity
  // stays sound, its fills only grow, and it never changes again once it has ended.
  lemma {:induction false} ManagersStaySound(oms: Oms, calls: seq<Call>)
    requires AllSound(oms)
    ensures AllSound(DoAll(oms, calls)) && Grown(oms, DoAll(oms, calls))
    decreases |calls|
  {
    if calls == [] {
    } else {
      var next := Do(oms, calls[0]);
      DoKeepsSound(oms, calls[0]);
      ManagersStaySound(next, calls[1..]);
      var end := DoAll(next, calls[1..]);
      hide Do, Later;
      forall c | c in oms.orders && oms.orders[c].quantity > 0 ensures Later(oms.orders[c], end.orders[c]) {
        LaterKeepsQuantity(oms.orders[c], next.orders[c]);
        LaterIsTransitive(oms.orders[c], next.orders[c], end.orders[c]);
      }
    }
  }

  lemma LaterKeepsQuantity(a: OrderData, b: OrderData)
    requires Later(a, b)
    ensures b.quantity == a.quantity
  {
  }
}
