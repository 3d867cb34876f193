// The life of one order (src/oms/order_state_machine.cpp).
module OrderLifecycle {
  import opened Types
  import opened Division

  datatype OrderData = OrderData(
    clientOrderId: nat,
    exchangeOrderId: nat,
    symbol: Symbol,
    side: Side,
    orderType: OrderType,
    timeInForce: TimeInForce,
    price: int,
    quantity: int,
    filledQuantity: int,
    remainingQuantity: int,
    averageFillPrice: int,
    status: OrderStatus,
    createdTimestamp: nat)

  datatype OrderEvent = Submit | NewAck | NewReject | PartialFill | Fill | CancelRequest | CancelAck | CancelReject

  datatype OrderTransition = OrderTransition(accepted: bool, previousStatus: OrderStatus, newStatus: OrderStatus)

  datatype Applied = Applied(order: OrderData, transition: OrderTransition)

  function NewOrderData(clientId: nat, symbol: Symbol, side: Side, price: int, quantity: int, now: nat): OrderData {
    OrderData(clientId, 0, symbol, side, Limit, Day, price, quantity, 0, quantity, 0, Created, now)
  }

  predicate IsTerminal(status: OrderStatus) {
    status == Filled || status == Canceled || status == Rejected
  }

  predicate IsActive(status: OrderStatus) {
    status == PendingNew || status == Acked || status == PartiallyFilled || status == PendingCancel
  }

  // Statuses in which fills are taken.
  predicate IsWorking(status: OrderStatus) {
    status == Acked || status == PartiallyFilled || status == PendingCancel
  }

  predicate CanFill(o: OrderData, quantity: int, price: int) {
    IsWorking(o.status) && quantity > 0 && price > 0 && o.remainingQuantity > 0
  }

  function ApplyFill(o: OrderData, quantity: int, price: int): OrderData {
    if quantity <= 0 || price <= 0 || o.remainingQuantity <= 0 then o
    else
      var applied := Min(quantity, o.remainingQuantity);
      var filled := o.filledQuantity + applied;
      var notional := o.averageFillPrice * o.filledQuantity + price * applied;
      o.(filledQuantity := filled,
         remainingQuantity := o.remainingQuantity - applied,
         averageFillPrice := if filled > 0 then Truncate(notional, filled) else o.averageFillPrice)
  }

  function Accept(o: OrderData, next: OrderStatus, previous: OrderStatus): Applied {
    Applied(o.(status := next), OrderTransition(true, previous, next))
  }

  function Refuse(o: OrderData): Applied {
    Applied(o, OrderTransition(false, o.status, o.status))
  }

  function Apply(o: OrderData, event: OrderEvent, quantity: int, price: int): Applied {
    match event
    case Submit => if o.status == Created then Accept(o, PendingNew, o.status) else Refuse(o)
    case NewAck => if o.status == PendingNew then Accept(o, Acked, o.status) else Refuse(o)
    case NewReject => if o.status == PendingNew then Accept(o, Rejected, o.status) else Refuse(o)
    case PartialFill =>
      if !CanFill(o, quantity, price) then Refuse(o)
      else
        var o' := ApplyFill(o, quantity, price);
        var next := if o'.remainingQuantity == 0 then Filled
                    else if o.status == PendingCancel then PendingCancel
                    else PartiallyFilled;
        Accept(o', next, o.status)
    case Fill =>
      if !CanFill(o, quantity, price) then Refuse(o)
      else Accept(ApplyFill(o, quantity, price).(remainingQuantity := 0), Filled, o.status)
    case CancelRequest =>
      if o.status == Acked || o.status == PartiallyFilled then Accept(o, PendingCancel, o.status) else Refuse(o)
    case CancelAck => if o.status == PendingCancel then Accept(o, Canceled, o.status) else Refuse(o)
    case CancelReject =>
      if o.status == PendingCancel
      then Accept(o, if o.filledQuantity > 0 then PartiallyFilled else Acked, o.status)
      else Refuse(o)
  }

  // ----- What every sequence of events keeps -----

  predicate Sound(o: OrderData) {
    && o.quantity > 0
    && o.filledQuantity >= 0
    && o.remainingQuantity >= 0
    && o.averageFillPrice >= 0
    && o.filledQuantity + o.remainingQuantity <= o.quantity
    && (o.status != Filled ==> o.filledQuantity + o.remainingQuantity == o.quantity)
    && (o.remainingQuantity == 0 <==> o.status == Filled)
    && (o.status in {Created, PendingNew, Acked, Rejected} ==> o.filledQuantity == 0)
    && (o.status in {PartiallyFilled, Filled} ==> o.filledQuantity > 0)
  }

  // `b` is a later state of the order `a`.
  predicate Later(a: OrderData, b: OrderData) {
    && b.clientOrderId == a.clientOrderId
    && b.symbol == a.symbol && b.side == a.side && b.price == a.price && b.quantity == a.quantity
    && b.orderType == a.orderType && b.timeInForce == a.timeInForce
    && a.filledQuantity <= b.filledQuantity
    && b.remainingQuantity <= a.remainingQuantity
    && (IsTerminal(a.status) ==> b == a)
  }

  datatype Input = Input(event: OrderEvent, quantity: int, price: int)

  function Run(o: OrderData, inputs: seq<Input>): OrderData {
    if inputs == [] then o
    else Apply(Run(o, inputs[..|inputs| - 1]), inputs[|inputs| - 1].event,
               inputs[|inputs| - 1].quantity, inputs[|inputs| - 1].price).order
  }

  lemma FillKeepsSound(o: OrderData, quantity: int, price: int)
    requires Sound(o) && CanFill(o, quantity, price)
    ensures var o' := ApplyFill(o, quantity, price);
            && o'.filledQuantity > o.filledQuantity >= 0
            && o'.filledQuantity + o'.remainingQuantity == o.quantity
            && 0 <= o'.remainingQuantity < o.remainingQuantity
            && o'.averageFillPrice >= 0
  {
    var applied := Min(quantity, o.remainingQuantity);
    ProductOrder(0, o.averageFillPrice, o.filledQuantity);
    ProductOrder(0, price, applied);
    LostIsSmall(o.averageFillPrice * o.filledQuantity + price * applied, o.filledQuantity + applied);
  }

  lemma RefusedEventKeeps(o: OrderData, event: OrderEvent, quantity: int, price: int)
    ensures var step := Apply(o, event, quantity, price); !step.transition.accepted ==> step.order == o
  {
  }

  lemma ApplyKeepsSound(o: OrderData, event: OrderEvent, quantity: int, price: int)
    requires Sound(o)
    ensures var step := Apply(o, event, quantity, price);
            && Sound(step.order)
            && Later(o, step.order)
            && (!step.transition.accepted ==> step.order == o)
            && step.transition.previousStatus == o.status
            && step.transition.newStatus == step.order.status
  {
    if CanFill(o, quantity, price) {
      FillKeepsSound(o, quantity, price);
    }
    hide ApplyFill;
  }

  // A new order stays sound over every sequence of events, and every prefix of the sequence leaves a state
  // that the rest only advances: fills never shrink, and nothing touches an order that has ended.
  lemma {:induction false} OrdersStaySound(o: OrderData, inputs: seq<Input>, k: nat)
    requires Sound(o) && k <= |inputs|
    ensures Sound(Run(o, inputs))
    ensures Later(Run(o, inputs[..k]), Run(o, inputs))
    decreases |inputs|
  {
    hide Apply, Sound;
    if k == |inputs| {
      assert inputs[..k] == inputs;
      if k > 0 {
        OrdersStaySound(o, inputs[..k - 1], k - 1);
        var last := inputs[k - 1];
        ApplyKeepsSound(Run(o, inputs[..k - 1]), last.event, last.quantity, last.price);
      }
    } else {
      var n := |inputs| - 1;
      assert inputs[..n][..k] == inputs[..k];
      OrdersStaySound(o, inputs[..n], k);
      ApplyKeepsSound(Run(o, inputs[..n]), inputs[n].event, inputs[n].quantity, inputs[n].price);
    }
  }

  // ----- The average fill price -----

  // What a run of events filled: the exact notional, and how much its averages may have rounded away.
  datatype Ledger = Ledger(notional: int, slack: int, lowest: int, highest: int)

  function Record(l: Ledger, o: OrderData, input: Input): Ledger {
    var o' := Apply(o, input.event, input.quantity, input.price).order;
    var applied := o'.filledQuantity - o.filledQuantity;
    if applied == 0 then l
    else Ledger(l.notional + input.price * applied,
                l.slack + (if o.filledQuantity == 0 then 0 else o'.filledQuantity - 1),
                if o.filledQuantity == 0 then input.price else Min(l.lowest, input.price),
                if o.filledQuantity == 0 then input.price else Max(l.highest, input.price))
  }

  function LedgerOf(o: OrderData, inputs: seq<Input>): Ledger {
    if inputs == [] then Ledger(0, 0, 0, 0)
    else Record(LedgerOf(o, inputs[..|inputs| - 1]), Run(o, inputs[..|inputs| - 1]), inputs[|inputs| - 1])
  }

  ghost predicate Priced(o: OrderData, l: Ledger) {
    && 0 <= l.notional - o.averageFillPrice * o.filledQuantity <= l.slack
    && (o.filledQuantity > 0 ==> l.lowest <= o.averageFillPrice <= l.highest)
    && (o.filledQuantity == 0 ==> l.slack == 0)
    && l.lowest >= 0
  }

  lemma FillKeepsPriced(o: OrderData, l: Ledger, quantity: int, price: int)
    requires Sound(o) && Priced(o, l) && CanFill(o, quantity, price)
    ensures var o' := ApplyFill(o, quantity, price);
            var applied := o'.filledQuantity - o.filledQuantity;
            && applied > 0
            && Priced(o', Ledger(l.notional + price * applied,
                                 l.slack + (if o.filledQuantity == 0 then 0 else o'.filledQuantity - 1),
                                 if o.filledQuantity == 0 then price else Min(l.lowest, price),
                                 if o.filledQuantity == 0 then price else Max(l.highest, price)))
  {
    var applied, filled := Min(quantity, o.remainingQuantity), o.filledQuantity;
    var total := o.averageFillPrice * filled + price * applied;
    if filled == 0 {
      assert total == price * applied;
      TruncateExact(price, applied);
    } else {
      var lo, hi := Min(l.lowest, price), Max(l.highest, price);
      WeightedMean(o.averageFillPrice, filled, price, applied, lo, hi);
      LostIsSmall(total, filled + applied);
    }
  }

  lemma EventKeepsPriced(o: OrderData, l: Ledger, input: Input)
    requires Sound(o) && Priced(o, l)
    ensures Priced(Apply(o, input.event, input.quantity, input.price).order, Record(l, o, input))
  {
    if CanFill(o, input.quantity, input.price) {
      FillKeepsPriced(o, l, input.quantity, input.price);
    }
    hide ApplyFill;
  }

  // The average fill price never exceeds the exact mean, stays between the lowest and highest price
  // filled at, and all its truncations together lose at most (filled - 1) for each fill after the first.
  lemma {:induction false} AverageIsNearlyExact(o: OrderData, inputs: seq<Input>)
    requires Sound(o) && o.filledQuantity == 0
    ensures Sound(Run(o, inputs))
    ensures Priced(Run(o, inputs), LedgerOf(o, inputs))
    decreases |inputs|
  {
    if inputs == [] {
    } else {
      var before, last := inputs[..|inputs| - 1], inputs[|inputs| - 1];
      AverageIsNearlyExact(o, before);
      ApplyKeepsSound(Run(o, before), last.event, last.quantity, last.price);
      EventKeepsPriced(Run(o, before), LedgerOf(o, before), last);
      hide Sound, Priced, Apply, Record;
    }
  }
}
