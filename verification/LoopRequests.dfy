// Which actions of the closed loop reach the exchange, with what request, and what it answers
// (src/gateway/order_gateway.cpp:5-59, apps/trading_sim.cpp:133-156).
module LoopRequests {
  import opened Types
  import opened Matching
  import opened ReportStream
  import opened OrderLifecycle
  import opened OrderTransitions
  import opened ReportHandler
  import opened Executions
  import opened Gateway
  import opened ClosedLoop
  import opened Mirror
  import opened MirroredRuns
  import opened MirrorLimits

  // A request about an order of the manager, under the next sequence number.
  predicate Requests(req: GatewayRequest, w: World, t: RequestType, o: OrderData, quantity: int, now: nat) {
    && req.gatewaySequence == w.sequence && req.requestType == t && req.sendTimestamp == now
    && req.clientOrderId == o.clientOrderId && req.exchangeOrderId == o.exchangeOrderId
    && req.symbol == o.symbol && req.side == o.side && req.price == o.price && req.quantity == quantity
    && req.orderType == o.orderType && req.timeInForce == o.timeInForce
  }

  // A placement goes out exactly when it names a symbol and its price and quantity are positive; it is then taken up by
  // the exchange for its whole quantity. One that stays behind leaves the exchange as it was, and its order pending.
  lemma PlacementsGoOut(w: World, a: Action)
    requires Mirrored(w) && a.Place?
    ensures var goes := a.symbol != "" && a.price > 0 && a.quantity > 0;
            var id, w', log := w.handler.oms.nextId, Step(w, a), LogOf(w, a);
            var o := NewOrderData(id, a.symbol, a.side, a.price, a.quantity, a.now);
            && (Sent(w, a).Sending? <==> goes)
            && w'.sequence == w.sequence + (if goes then 1 else 0)
            && (goes ==>
                  && Requests(Sent(w, a).request, w, NewOrder, o, a.quantity, a.now)
                  && o.orderType == Limit && o.exchangeOrderId == 0
                  && |log| >= 1
                  && For(log[0], id, w.venue.nextId, a.symbol, a.side)
                  && Answers(log[0], ExecType.Ack, Acked, NoReason, a.quantity, a.now))
            && (!goes ==>
                  && w'.venue == w.venue && log == []
                  && id in w'.handler.oms.orders && w'.handler.oms.orders[id] == o.(status := PendingNew))
  {
    PlacementIsPrepared(w, a);
    if Sent(w, a).Sending? {
      NewIsExpected(w, a);
      TradesAtRestingPrices(w.venue, Sent(w, a).request);
      SentStep(w, a);
    }
    hide Mirrored, Process, Answers, HandleAll;
  }

  lemma PlacementIsPrepared(w: World, a: Action)
    requires Mirrored(w) && a.Place?
    ensures var id, oms := w.handler.oms.nextId, Prepared(w.handler.oms, a);
            && id > 0 && id in oms.orders
            && oms.orders[id]
               == NewOrderData(id, a.symbol, a.side, a.price, a.quantity, a.now).(status := PendingNew)
  {
    CreateKeepsMirror(w.handler.oms, TableOf(w.venue), a.symbol, a.side, a.price, a.quantity, a.now);
    hide Mirrors, TableOf, Inv;
  }

  // A cancel goes out exactly for an order that is working; the exchange then has it, and answers with its remainder.
  lemma CancelsGoOut(w: World, a: Action)
    requires Mirrored(w) && a.SendCancelFor?
    ensures var orders, log := w.handler.oms.orders, LogOf(w, a);
            var goes := a.id in orders && orders[a.id].status in {Acked, PartiallyFilled, PendingCancel};
            && (Sent(w, a).Sending? <==> goes)
            && (goes ==>
                  var o := orders[a.id];
                  && Requests(Sent(w, a).request, w, CancelOrder, o, o.remainingQuantity, a.now)
                  && |log| == 1
                  && For(log[0], a.id, o.exchangeOrderId, o.symbol, o.side)
                  && Answers(log[0], ExecType.CancelAck, Canceled, NoReason, o.remainingQuantity, a.now)
                  && a.id !in TableOf(Step(w, a).venue).live)
            && (!goes ==> Step(w, a) == w && log == [])
  {
    hide Mirrored, Process, Answers, HandleAll, TableOf, Step, LogOf, For, Taken, Inv;
    WorkingIsCancelable(w, a.id);
    if Sent(w, a).Nothing? {
      UnsentChangesNothing(w, a);
    } else {
      CancelHits(w, a);
      SentStep(w, a);
      MirroredIsInv(w);
      CancelIsAnswered(w.venue, Sent(w, a).request);
      WorkingRests(w, a.id);
      CancelEndsOrder(w, a);
    }
  }

  // Asking for a cancel tells the exchange nothing; the order then waits for its cancel exactly if it was acknowledged
  // or partly filled, and nothing else changes.
  lemma AskingIsRecorded(w: World, a: Action)
    requires a.AskCancel?
    ensures var orders, w' := w.handler.oms.orders, Step(w, a);
            && LogOf(w, a) == [] && w'.venue == w.venue && w'.sequence == w.sequence
            && w'.handler.positions == w.handler.positions && w'.handler.seen == w.handler.seen
            && w'.handler.oms.nextId == w.handler.oms.nextId
            && w'.handler.oms.orders
               == (if a.id in orders && orders[a.id].status in {Acked, PartiallyFilled}
                   then orders[a.id := orders[a.id].(status := PendingCancel)] else orders)
  {
    if a.id in w.handler.oms.orders {
      EventsFollowEdges(w.handler.oms.orders[a.id], CancelRequest, 0, 0);
    }
  }

  lemma UnsentChangesNothing(w: World, a: Action)
    requires a.SendCancelFor? && Sent(w, a).Nothing?
    ensures Step(w, a) == w && LogOf(w, a) == []
  {
  }

  lemma WorkingIsCancelable(w: World, id: nat)
    requires Mirrored(w)
    ensures id in w.handler.oms.orders && IsWorking(w.handler.oms.orders[id].status)
            ==> ValidCancel(w.handler.oms.orders[id])
  {
    if id in w.handler.oms.orders && IsWorking(w.handler.oms.orders[id].status) {
      assert Image(w.handler.oms.orders[id], TableOf(w.venue).live[id]);
    }
    hide Inv, TableOf;
  }

  lemma WorkingRests(w: World, id: nat)
    requires Mirrored(w) && id in w.handler.oms.orders && IsWorking(w.handler.oms.orders[id].status)
    ensures exists r | r in w.venue.bids || r in w.venue.asks ::
              var o := w.handler.oms.orders[id];
              && r.clientOrderId == id && r.exchangeOrderId == o.exchangeOrderId
              && r.symbol == o.symbol && r.side == o.side && r.remaining == o.remainingQuantity
  {
    MirroredMeansAgreement(w);
    LiveIsResting(w.venue, id);
    hide Mirrored, TableOf, Inv;
  }

  lemma CancelEndsOrder(w: World, a: Action)
    requires Mirrored(w) && a.SendCancelFor? && Sent(w, a).Sending?
    ensures a.id !in TableOf(Step(w, a).venue).live
  {
    hide Inv, TableOf, Process, Mirrors, Numbered, Sent, LogOf, Step, After, Legal, AfterRun, LegalRun, FillsAfterFirst;
    CancelHits(w, a);
    SentStep(w, a);
    AnswersAreProper(w.venue, Sent(w, a).request);
    LoneReportRuns(TableOf(w.venue), LogOf(w, a));
    CanceledIsGone(TableOf(w.venue), LogOf(w, a)[0]);
  }
}
