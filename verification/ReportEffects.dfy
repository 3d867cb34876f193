// What one report does to orders and positions, and what a stream of reports leaves in the positions
// (src/execution/execution_report_handler.cpp:11-59).
module ReportEffects {
  import opened Types
  import opened OrderLifecycle
  import opened OrderTransitions
  import opened Positions
  import opened ReportKeys
  import opened ReportHandler

  // The order's own status lets it take the report.
  predicate Ready(o: OrderData, r: ExecutionReport) {
    match r.execType
    case Ack => o.status == PendingNew
    case Reject => o.status == PendingNew
    case PartialFill =>
      o.status in {Acked, PartiallyFilled, PendingCancel} && r.lastQuantity > 0 && r.lastPrice > 0
      && o.remainingQuantity > 0
    case Fill =>
      o.status in {Acked, PartiallyFilled, PendingCancel} && r.lastQuantity > 0 && r.lastPrice > 0
      && o.remainingQuantity > 0
    case CancelAck => o.status == PendingCancel
    case CancelReject => o.status == PendingCancel
  }

  // Which answer a report gets.
  lemma AnswersExactly(h: HandlerState, r: ExecutionReport)
    ensures var (c, answer) := (r.clientOrderId, Handle(h, r).1);
            && (answer == InvalidReport <==> c == 0)
            && (answer == UnknownReport <==> c != 0 && c !in h.oms.orders)
            && (answer == DuplicateReport <==> c != 0 && c in h.oms.orders && ReportKey(r) in h.seen)
            && (answer == InvalidTransition <==>
                  c != 0 && c in h.oms.orders && ReportKey(r) !in h.seen && !Ready(h.oms.orders[c], r))
            && (answer == Accepted <==>
                  c != 0 && c in h.oms.orders && ReportKey(r) !in h.seen && Ready(h.oms.orders[c], r))
  {
    hide ReportKey;
  }

  // What the report makes of its order.
  predicate Becomes(o: OrderData, r: ExecutionReport, o': OrderData) {
    var taken := if r.lastQuantity < o.remainingQuantity then r.lastQuantity else o.remainingQuantity;
    match r.execType
    case Ack => o' == o.(status := Acked, exchangeOrderId := r.exchangeOrderId)
    case Reject => o' == o.(status := Rejected)
    case PartialFill =>
      && o' == o.(status := o'.status, filledQuantity := o.filledQuantity + taken,
                  remainingQuantity := o.remainingQuantity - taken, averageFillPrice := o'.averageFillPrice)
      && o'.status == (if o'.remainingQuantity == 0 then Filled
                       else if o.status == PendingCancel then PendingCancel else PartiallyFilled)
    case Fill =>
      o' == o.(status := Filled, filledQuantity := o.filledQuantity + taken, remainingQuantity := 0,
               averageFillPrice := o'.averageFillPrice)
    case CancelAck => o' == o.(status := Canceled)
    case CancelReject => o' == o.(status := if o.filledQuantity > 0 then PartiallyFilled else Acked)
  }

  // An accepted report changes its own order, as its type says, and no other; it moves the positions by a fill of
  // its own quantity and price, whatever the order took of it, and by nothing if it is no fill; and it is remembered.
  lemma AcceptedReportsAct(h: HandlerState, r: ExecutionReport)
    requires Handle(h, r).1 == Accepted
    ensures var h' := Handle(h, r).0;
            && h'.oms.orders.Keys == h.oms.orders.Keys && h'.oms.nextId == h.oms.nextId
            && r.clientOrderId in h.oms.orders
            && (forall c | c in h.oms.orders && c != r.clientOrderId :: h'.oms.orders[c] == h.oms.orders[c])
            && Becomes(h.oms.orders[r.clientOrderId], r, h'.oms.orders[r.clientOrderId])
            && h'.positions == (if r.execType in {ExecType.PartialFill, ExecType.Fill}
                                then Moved(h.positions, r.symbol, r.side, r.lastPrice, r.lastQuantity) else h.positions)
            && h'.seen == h.seen + {ReportKey(r)}
  {
    hide ReportKey, Moved;
  }

  // The average price of the order takes in the fill at the report's own price, within one unit of the exact mean.
  lemma AcceptedFillsAverage(h: HandlerState, r: ExecutionReport)
    requires Handle(h, r).1 == Accepted && r.execType in {ExecType.PartialFill, ExecType.Fill}
    requires Sound(h.oms.orders[r.clientOrderId])
    ensures var o, o' := h.oms.orders[r.clientOrderId], Handle(h, r).0.oms.orders[r.clientOrderId];
            var taken := o'.filledQuantity - o.filledQuantity;
            && taken > 0
            && 0 <= o.averageFillPrice * o.filledQuantity + r.lastPrice * taken
                      - o'.averageFillPrice * o'.filledQuantity < o'.filledQuantity
  {
    hide ReportKey, Moved;
    FillsTakeWhatTheyBring(h.oms.orders[r.clientOrderId], EventOf(r.execType), r.lastQuantity, r.lastPrice);
    hide Apply, Sound;
  }
}
