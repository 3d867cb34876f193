// The status table of an order, and what it makes of whole sequences of events
// (src/oms/order_state_machine.cpp:8-119).
module OrderTransitions {
  import opened Types
  import opened Division
  import opened OrderLifecycle

  // ----- One event -----

  // Which events are taken in which status.
  lemma AcceptedExactly(o: OrderData, event: OrderEvent, quantity: int, price: int)
    ensures Apply(o, event, quantity, price).transition.accepted <==>
            || (event == Submit && o.status == Created)
            || ((event == NewAck || event == NewReject) && o.status == PendingNew)
            || ((event == OrderEvent.PartialFill || event == OrderEvent.Fill)
                && o.status in {Acked, PartiallyFilled, PendingCancel}
                && quantity > 0 && price > 0 && o.remainingQuantity > 0)
            || (event == CancelRequest && o.status in {Acked, PartiallyFilled})
            || ((event == OrderEvent.CancelAck || event == OrderEvent.CancelReject) && o.status == PendingCancel)
  {
  }

  // The edges of the status graph, each with what must hold of the order: `filled` before the event, and `left` after.
  predicate Edge(from: OrderStatus, event: OrderEvent, filled: int, left: int, to: OrderStatus) {
    || (from, event, to) in {(Created, Submit, PendingNew), (PendingNew, NewAck, Acked),
                             (PendingNew, NewReject, Rejected), (Acked, CancelRequest, PendingCancel),
                             (PartiallyFilled, CancelRequest, PendingCancel),
                             (PendingCancel, OrderEvent.CancelAck, Canceled), (Acked, OrderEvent.Fill, Filled),
                             (PartiallyFilled, OrderEvent.Fill, Filled), (PendingCancel, OrderEvent.Fill, Filled)}
    || (left > 0 && (from, event, to) in {(Acked, OrderEvent.PartialFill, PartiallyFilled),
                                          (PartiallyFilled, OrderEvent.PartialFill, PartiallyFilled),
                                          (PendingCancel, OrderEvent.PartialFill, PendingCancel)})
    || (left <= 0 && (from, event, to) in {(Acked, OrderEvent.PartialFill, Filled),
                                           (PartiallyFilled, OrderEvent.PartialFill, Filled),
                                           (PendingCancel, OrderEvent.PartialFill, Filled)})
    || (filled > 0 && (from, event, to) == (PendingCancel, OrderEvent.CancelReject, PartiallyFilled))
    || (filled <= 0 && (from, event, to) == (PendingCancel, OrderEvent.CancelReject, Acked))
  }

  // The graph leaves no choice.
  lemma EdgesAreUnique(from: OrderStatus, event: OrderEvent, filled: int, left: int, to: OrderStatus, to': OrderStatus)
    requires Edge(from, event, filled, left, to) && Edge(from, event, filled, left, to')
    ensures to == to'
  {
  }

  predicate Fills(event: OrderEvent) {
    event == OrderEvent.PartialFill || event == OrderEvent.Fill
  }

  // An accepted event goes along the one edge there is, and a refused one changes nothing.
  lemma EventsFollowEdges(o: OrderData, event: OrderEvent, quantity: int, price: int)
    ensures var step := Apply(o, event, quantity, price);
            if step.transition.accepted then
              && Edge(o.status, event, o.filledQuantity, o.remainingQuantity - quantity, step.order.status)
              && step.transition == OrderTransition(true, o.status, step.order.status)
            else step.order == o && step.transition == OrderTransition(false, o.status, o.status)
  {
  }

  // Only fills change anything but the status. They take what they bring, up to what is left; a last fill ends the
  // order even when it brings less. The average stays within one unit of price of the exact mean.
  lemma FillsTakeWhatTheyBring(o: OrderData, event: OrderEvent, quantity: int, price: int)
    requires Sound(o) && Apply(o, event, quantity, price).transition.accepted
    ensures var o' := Apply(o, event, quantity, price).order;
            var taken := if quantity < o.remainingQuantity then quantity else o.remainingQuantity;
            var cost := o.averageFillPrice * o.filledQuantity + price * taken;
            && o' == o.(status := o'.status, filledQuantity := o'.filledQuantity,
                        remainingQuantity := o'.remainingQuantity, averageFillPrice := o'.averageFillPrice)
            && (!Fills(event) ==> o' == o.(status := o'.status))
            && (Fills(event) ==>
                  && o'.filledQuantity == o.filledQuantity + taken
                  && o'.remainingQuantity == (if event == OrderEvent.Fill then 0 else o.remainingQuantity - taken)
                  && 0 <= cost - o'.averageFillPrice * o'.filledQuantity < o'.filledQuantity)
  {
    if Fills(event) {
      var taken := Min(quantity, o.remainingQuantity);
      ProductOrder(0, o.averageFillPrice, o.filledQuantity);
      ProductOrder(0, price, taken);
      LostIsSmall(o.averageFillPrice * o.filledQuantity + price * taken, o.filledQuantity + taken);
    }
  }

  // An order has ended exactly when no event whatever is taken any more.
  lemma EndedMeansNothingIsTaken(o: OrderData)
    requires Sound(o)
    ensures IsTerminal(o.status) <==>
              forall event, quantity, price :: !Apply(o, event, quantity, price).transition.accepted
    ensures IsActive(o.status) <==> o.status != Created && !IsTerminal(o.status)
  {
    forall event: OrderEvent, quantity: int, price: int
      ensures IsTerminal(o.status) ==> !Apply(o, event, quantity, price).transition.accepted
    {
      AcceptedExactly(o, event, quantity, price);
    }
    AcceptedExactly(o, Submit, 0, 0);
    AcceptedExactly(o, NewAck, 0, 0);
    AcceptedExactly(o, CancelRequest, 0, 0);
    AcceptedExactly(o, OrderEvent.CancelAck, 0, 0);
    hide Apply, Sound;
  }

  // ----- Sequences of events -----

  predicate Settles(event: OrderEvent) {
    event == OrderEvent.Fill || event == OrderEvent.CancelAck || event == OrderEvent.CancelReject
  }

  lemma PendingCancelStep(o: OrderData, event: OrderEvent, quantity: int, price: int)
    requires Sound(o) && !Settles(event)
    requires o.status == if o.remainingQuantity > 0 then PendingCancel else Filled
    ensures var o' := Apply(o, event, quantity, price).order;
            && o'.status == (if o'.remainingQuantity > 0 then PendingCancel else Filled)
            && o'.filledQuantity >= o.filledQuantity
  {
    ApplyKeepsSound(o, event, quantity, price);
    EventsFollowEdges(o, event, quantity, price);
    hide Apply;
  }

  // An order whose cancel is pending waits for its answer through every sequence of partial fills, whatever other
  // events come between them, as long as something is left of it.
  lemma {:induction false} PendingCancelWaits(o: OrderData, inputs: seq<Input>)
    requires Sound(o) && o.status == PendingCancel
    requires forall i | 0 <= i < |inputs| :: !Settles(inputs[i].event)
    ensures var o' := Run(o, inputs);
            && Sound(o')
            && o'.status == (if o'.remainingQuantity > 0 then PendingCancel else Filled)
            && o'.filledQuantity >= o.filledQuantity
    decreases |inputs|
  {
    if inputs != [] {
      var before, last := inputs[..|inputs| - 1], inputs[|inputs| - 1];
      PendingCancelWaits(o, before);
      PendingCancelStep(Run(o, before), last.event, last.quantity, last.price);
      ApplyKeepsSound(Run(o, before), last.event, last.quantity, last.price);
      hide Apply, Sound;
    }
  }

  // So after a cancel request that was taken, and any partial fills that leave something, the answer is taken: an
  // acknowledgement ends the order, and a rejection gives it back, partly filled if anything was filled by then.
  lemma CancelIsSettled(o: OrderData, inputs: seq<Input>)
    requires Sound(o) && Apply(o, CancelRequest, 0, 0).transition.accepted
    requires forall i | 0 <= i < |inputs| :: !Settles(inputs[i].event)
    requires Run(Apply(o, CancelRequest, 0, 0).order, inputs).remainingQuantity > 0
    ensures var waiting := Run(Apply(o, CancelRequest, 0, 0).order, inputs);
            var canceled := Apply(waiting, OrderEvent.CancelAck, 0, 0);
            var kept := Apply(waiting, OrderEvent.CancelReject, 0, 0);
            && waiting.status == PendingCancel
            && canceled.transition.accepted && canceled.order == waiting.(status := Canceled)
            && kept.transition.accepted
            && kept.order == waiting.(status := if waiting.filledQuantity > 0 then PartiallyFilled else Acked)
  {
    hide Run, Sound, Apply;
    var asked := Apply(o, CancelRequest, 0, 0).order;
    ApplyKeepsSound(o, CancelRequest, 0, 0);
    EventsFollowEdges(o, CancelRequest, 0, 0);
    PendingCancelWaits(asked, inputs);
    AnswersToCancel(Run(asked, inputs));
  }

  lemma AnswersToCancel(o: OrderData)
    requires o.status == PendingCancel
    ensures Apply(o, OrderEvent.CancelAck, 0, 0).transition.accepted
    ensures Apply(o, OrderEvent.CancelAck, 0, 0).order == o.(status := Canceled)
    ensures Apply(o, OrderEvent.CancelReject, 0, 0).transition.accepted
    ensures Apply(o, OrderEvent.CancelReject, 0, 0).order
         == o.(status := if o.filledQuantity > 0 then PartiallyFilled else Acked)
  {
  }

  predicate Came(inputs: seq<Input>, event: OrderEvent) {
    exists i :: 0 <= i < |inputs| && inputs[i].event == event
  }

  lemma CameMore(inputs: seq<Input>, event: OrderEvent)
    requires inputs != []
    ensures Came(inputs, event) <==> Came(inputs[..|inputs| - 1], event) || inputs[|inputs| - 1].event == event
  {
    var before := inputs[..|inputs| - 1];
    assert forall i | 0 <= i < |before| :: before[i] == inputs[i];
  }

  // No order gets anywhere without what leads there.
  predicate Earned(status: OrderStatus, inputs: seq<Input>) {
    && (status != Created ==> Came(inputs, Submit))
    && (status in {Acked, PartiallyFilled, Filled, PendingCancel, Canceled} ==> Came(inputs, NewAck))
    && (status == Rejected ==> Came(inputs, NewReject))
    && (status in {PartiallyFilled, Filled} ==> Came(inputs, OrderEvent.PartialFill) || Came(inputs, OrderEvent.Fill))
    && (status in {PendingCancel, Canceled} ==> Came(inputs, CancelRequest))
    && (status == Canceled ==> Came(inputs, OrderEvent.CancelAck))
  }

  lemma EarnedMore(status: OrderStatus, inputs: seq<Input>)
    requires inputs != [] && Earned(status, inputs[..|inputs| - 1])
    ensures Earned(status, inputs)
  {
    CameMore(inputs, Submit);
    CameMore(inputs, NewAck);
    CameMore(inputs, NewReject);
    CameMore(inputs, OrderEvent.PartialFill);
    CameMore(inputs, OrderEvent.Fill);
    CameMore(inputs, CancelRequest);
    CameMore(inputs, OrderEvent.CancelAck);
    hide Came;
  }

  lemma EdgeEarns(from: OrderStatus, event: OrderEvent, filled: int, left: int, to: OrderStatus, inputs: seq<Input>)
    requires Earned(from, inputs) && Came(inputs, event) && Edge(from, event, filled, left, to)
    requires filled > 0 ==> Came(inputs, OrderEvent.PartialFill) || Came(inputs, OrderEvent.Fill)
    ensures Earned(to, inputs)
  {
    hide Came;
  }

  lemma {:induction false} StatusesAreEarned(o: OrderData, inputs: seq<Input>)
    requires Sound(o) && o.status == Created
    ensures var o' := Run(o, inputs);
            && Sound(o') && Earned(o'.status, inputs)
            && (o'.filledQuantity > 0 ==> Came(inputs, OrderEvent.PartialFill) || Came(inputs, OrderEvent.Fill))
    decreases |inputs|
  {
    if inputs != [] {
      hide Sound, Apply, Earned, Came, Edge;
      var before, last := inputs[..|inputs| - 1], inputs[|inputs| - 1];
      var o1 := Run(o, before);
      StatusesAreEarned(o, before);
      ApplyKeepsSound(o1, last.event, last.quantity, last.price);
      EventsFollowEdges(o1, last.event, last.quantity, last.price);
      EarnedMore(o1.status, inputs);
      CameMore(inputs, last.event);
      CameMore(inputs, OrderEvent.PartialFill);
      CameMore(inputs, OrderEvent.Fill);
      if Apply(o1, last.event, last.quantity, last.price).transition.accepted {
        EdgeEarns(o1.status, last.event, o1.filledQuantity, o1.remainingQuantity - last.quantity,
                  Run(o, inputs).status, inputs);
        FillsTakeWhatTheyBring(o1, last.event, last.quantity, last.price);
      }
    } else {
      CreatedIsUnfilled(o);
    }
  }

  lemma CreatedIsUnfilled(o: OrderData)
    requires Sound(o) && o.status == Created
    ensures o.filledQuantity == 0
  {
  }
}
