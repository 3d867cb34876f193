// Execution reports drive the orders and the positions (src/execution/execution_report_handler.cpp).
module ReportHandler {
  import opened Types
  import opened OrderLifecycle
  import opened OrderManagement
  import opened Positions
  import opened ReportKeys

  datatype HandlerState = HandlerState(oms: Oms, positions: PositionMap, seen: set<bv64>)

  datatype Handled = Accepted | InvalidReport | UnknownReport | DuplicateReport | InvalidTransition

  function EventOf(t: ExecType): OrderEvent {
    match t
    case Ack => OrderEvent.NewAck
    case Reject => OrderEvent.NewReject
    case PartialFill => OrderEvent.PartialFill
    case Fill => OrderEvent.Fill
    case CancelAck => OrderEvent.CancelAck
    case CancelReject => OrderEvent.CancelReject
  }

  // Only fills carry a quantity and a price to the order.
  function FillQuantity(r: ExecutionReport): int {
    if r.IsFill() then r.lastQuantity else 0
  }

  function FillPrice(r: ExecutionReport): int {
    if r.IsFill() then r.lastPrice else 0
  }

  predicate Takes(oms: Oms, r: ExecutionReport) {
    Accepts(oms, r.clientOrderId, EventOf(r.execType), FillQuantity(r), FillPrice(r))
  }

  function OrdersAfter(oms: Oms, r: ExecutionReport): Oms {
    if r.execType == ExecType.Ack then Acknowledge(oms, r.clientOrderId, r.exchangeOrderId)
    else Happen(oms, r.clientOrderId, EventOf(r.execType), FillQuantity(r), FillPrice(r))
  }

  function PositionsAfter(positions: PositionMap, r: ExecutionReport): PositionMap {
    if r.IsFill() then ApplyReport(positions, r) else positions
  }

  // Handling a report whose key is `key`.
  function HandleKeyed(h: HandlerState, r: ExecutionReport, key: bv64): (HandlerState, Handled) {
    if r.clientOrderId == 0 then (h, InvalidReport)
    else if r.clientOrderId !in h.oms.orders then (h, UnknownReport)
    else if key in h.seen then (h, DuplicateReport)
    else if !Takes(h.oms, r) then (h, InvalidTransition)
    else (HandlerState(OrdersAfter(h.oms, r), PositionsAfter(h.positions, r), h.seen + {key}), Accepted)
  }

  function Handle(h: HandlerState, r: ExecutionReport): (HandlerState, Handled) {
    HandleKeyed(h, r, ReportKey(r))
  }

  lemma HandleUnfolds(h: HandlerState, r: ExecutionReport)
    ensures Handle(h, r) == HandleKeyed(h, r, ReportKey(r))
    ensures !Takes(h.oms, r) ==> OrdersAfter(h.oms, r) == h.oms
  {
  }

  function HandleAll(h: HandlerState, reports: seq<ExecutionReport>): HandlerState
    decreases |reports|
  {
    if reports == [] then h else HandleAll(Handle(h, reports[0]).0, reports[1..])
  }

  lemma {:induction false} HandlingComposes(h: HandlerState, a: seq<ExecutionReport>, b: seq<ExecutionReport>)
    ensures HandleAll(h, a + b) == HandleAll(HandleAll(h, a), b)
    decreases |a|
  {
    hide Handle;
    if a == [] {
      assert a + b == b;
    } else {
      assert (a + b)[1..] == a[1..] + b;
      HandlingComposes(Handle(h, a[0]).0, a[1..], b);
    }
  }

  // ----- At-least-once delivery -----

  lemma OneGrows(h: HandlerState, r: ExecutionReport)
    ensures var h' := Handle(h, r).0; h.seen <= h'.seen && h.oms.orders.Keys <= h'.oms.orders.Keys
  {
    hide ReportKey, Apply, PositionsAfter;
  }

  // What was seen stays seen, and known orders stay known.
  lemma {:induction false} SeenGrows(h: HandlerState, reports: seq<ExecutionReport>)
    ensures h.seen <= HandleAll(h, reports).seen
    ensures h.oms.orders.Keys <= HandleAll(h, reports).oms.orders.Keys
    decreases |reports|
  {
    hide Handle;
    if reports != [] {
      OneGrows(h, reports[0]);
      SeenGrows(Handle(h, reports[0]).0, reports[1..]);
    }
  }

  lemma SeenIsIgnored(h: HandlerState, r: ExecutionReport)
    requires r.clientOrderId != 0 && r.clientOrderId in h.oms.orders && ReportKey(r) in h.seen
    ensures Handle(h, r) == (h, DuplicateReport)
  {
  }

  // However much later a copy of an accepted report comes in, orders, positions and the record of seen
  // reports end up the same as without it.
  lemma DuplicatesAreHarmless(h: HandlerState, before: seq<ExecutionReport>, r: ExecutionReport,
                              between: seq<ExecutionReport>, after: seq<ExecutionReport>)
    requires Handle(HandleAll(h, before), r).1 == Accepted
    ensures HandleAll(h, before + [r] + between + [r] + after) == HandleAll(h, before + [r] + between + after)
    ensures Handle(HandleAll(h, before + [r] + between), r).1 == DuplicateReport
  {
    hide ReportKey;
    var first := before + [r];
    var h1 := HandleAll(h, first);
    HandlingComposes(h, before, [r]);
    assert [r][1..] == [];
    assert h1 == Handle(HandleAll(h, before), r).0;
    HandlingComposes(h, first, between);
    SeenGrows(h1, between);
    var h2 := HandleAll(h, first + between);
    SeenIsIgnored(h2, r);
    HandlingComposes(h, first + between, [r]);
    HandlingComposes(h, first + between + [r], after);
    HandlingComposes(h, first + between, after);
    assert HandleAll(h2, [r]) == h2;
  }

  // A refused report changes nothing at all.
  lemma RefusalsChangeNothing(h: HandlerState, r: ExecutionReport)
    requires Handle(h, r).1 != Accepted
    ensures Handle(h, r).0 == h
  {
  }

  // The reports of a stream that the handler accepts.
  function AcceptedOf(h: HandlerState, reports: seq<ExecutionReport>): seq<ExecutionReport>
    decreases |reports|
  {
    if reports == [] then []
    else
      var (h', result) := Handle(h, reports[0]);
      if result == Accepted then [reports[0]] + AcceptedOf(h', reports[1..]) else AcceptedOf(h', reports[1..])
  }

  lemma OneReport(h: HandlerState, r: ExecutionReport, rest: seq<ExecutionReport>)
    ensures HandleAll(h, [r] + rest) == HandleAll(Handle(h, r).0, rest)
    ensures AcceptedOf(h, [r] + rest)
         == if Handle(h, r).1 == Accepted then [r] + AcceptedOf(Handle(h, r).0, rest)
            else AcceptedOf(Handle(h, r).0, rest)
  {
    hide Handle;
    assert ([r] + rest)[1..] == rest;
  }

  // A stream does what its accepted reports do by themselves, and by themselves they are all accepted.
  lemma {:induction false} AcceptedReportsSuffice(h: HandlerState, reports: seq<ExecutionReport>)
    ensures HandleAll(h, AcceptedOf(h, reports)) == HandleAll(h, reports)
    ensures AcceptedOf(h, AcceptedOf(h, reports)) == AcceptedOf(h, reports)
    decreases |reports|
  {
    hide Handle;
    if reports != [] {
      hide HandleAll, AcceptedOf;
      var r, later := reports[0], reports[1..];
      assert reports == [r] + later;
      var h' := Handle(h, r).0;
      OneReport(h, r, later);
      AcceptedReportsSuffice(h', later);
      if Handle(h, r).1 == Accepted {
        OneReport(h, r, AcceptedOf(h', later));
      } else {
        RefusalsChangeNothing(h, r);
      }
    }
  }

  // Keys can cost a genuine report: once the cancel acknowledgement of order 1024 was taken, the
  // acknowledgement of order 2048 for as much as was canceled is refused as a duplicate.
  lemma AcknowledgementLost(h: HandlerState, canceled: ExecutionReport, acked: ExecutionReport)
    requires canceled.execType == ExecType.CancelAck && canceled.clientOrderId == canceled.exchangeOrderId == 1024
    requires acked.execType == ExecType.Ack && acked.clientOrderId == acked.exchangeOrderId == 2048
    requires canceled.lastQuantity == canceled.cumulativeQuantity == 0
    requires acked.lastQuantity == acked.cumulativeQuantity == 0
    requires canceled.leavesQuantity == acked.leavesQuantity
    requires ReportKey(canceled) in h.seen && 2048 in h.oms.orders
    ensures Handle(h, acked) == (h, DuplicateReport)
  {
    hide ReportKey;
    AckCollides(canceled, acked);
    SeenIsIgnored(h, acked);
  }

  class ExecutionReportHandler {
    const orders: OrderManager
    const positions: PositionManager
    var seenReports: set<bv64>

    ghost predicate Valid()
      reads this, orders
    {
      orders.Valid()
    }

    ghost function View(): HandlerState
      reads this, orders, orders.orders.Values, positions
    {
      HandlerState(orders.View(), positions.positions, seenReports)
    }

    constructor (orders: OrderManager, positions: PositionManager)
      requires orders.Valid()
      ensures this.orders == orders && this.positions == positions
      ensures Valid() && View() == HandlerState(orders.View(), positions.positions, {})
    {
      this.orders := orders;
      this.positions := positions;
      seenReports := {};
    }

    // The switch over report types.
    method Update(report: ExecutionReport) returns (updated: bool)
      requires Valid()
      modifies positions, orders.orders.Values
      ensures Valid()
      ensures updated == Takes(old(orders.View()), report)
      ensures orders.View() == OrdersAfter(old(orders.View()), report)
      ensures positions.positions
           == if updated then PositionsAfter(old(positions.positions), report) else old(positions.positions)
    {
      hide Apply, Accepts, Happen, Acknowledge, ApplyReport, OrderManager.View;
      var id := report.clientOrderId;
      match report.execType {
        case Ack =>
          updated := orders.OnNewAck(id, report.exchangeOrderId);
        case Reject =>
          updated := orders.ApplyEvent(id, OrderEvent.NewReject, 0, 0);
        case PartialFill =>
          updated := orders.ApplyEvent(id, OrderEvent.PartialFill, report.lastQuantity, report.lastPrice);
          if updated {
            positions.ApplyFillReport(report);
          }
        case Fill =>
          updated := orders.ApplyEvent(id, OrderEvent.Fill, report.lastQuantity, report.lastPrice);
          if updated {
            positions.ApplyFillReport(report);
          }
        case CancelAck =>
          updated := orders.ApplyEvent(id, OrderEvent.CancelAck, 0, 0);
        case CancelReject =>
          updated := orders.ApplyEvent(id, OrderEvent.CancelReject, 0, 0);
      }
    }

    method OnReport(report: ExecutionReport) returns (result: Handled)
      requires Valid()
      modifies this, positions, orders.orders.Values
      ensures Valid()
      ensures (View(), result) == Handle(old(View()), report)
    {
      hide Handle, Takes, OrdersAfter, PositionsAfter, ReportKey, OrderManager.View, OrderManager.Valid;
      orders.SameIds();
      HandleUnfolds(View(), report);
      if report.clientOrderId == 0 {
        return InvalidReport;
      }
      var order := orders.Find(report.clientOrderId);
      if order == null {
        return UnknownReport;
      }
      if ReportKey(report) in seenReports {
        return DuplicateReport;
      }
      var updated := Update(report);
      if !updated {
        return InvalidTransition;
      }
      seenReports := seenReports + {ReportKey(report)};
      return Accepted;
    }
  }
}
