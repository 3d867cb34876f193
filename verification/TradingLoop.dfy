// The order path of the simulator with its components updated in place
// (apps/trading_sim.cpp:133-156). Each method is one step of module ClosedLoop.
module TradingLoop {
  import opened Types
  import opened Matching
  import opened ReportBatch
  import opened Exchange
  import opened OrderLifecycle
  import opened OrderManagement
  import opened Positions
  import opened ReportHandler
  import opened Gateway
  import opened ClosedLoop
  import opened ReportProcessing

  // What is left of a step once the manager is prepared and the gateway has answered.
  function AfterSending(w: World, oms: Oms, sent: Sending): World {
    var h := w.handler.(oms := oms);
    if sent.Nothing? then w.(handler := h)
    else
      var done := Process(w.venue, sent.request);
      World(HandleAll(h, Kept(done.log)), done.venue, w.sequence + 1)
  }

  lemma PlaceUnfolds(w: World, symbol: Symbol, side: Side, price: int, quantity: int, now: nat)
    ensures var oms := Create(w.handler.oms, symbol, side, price, quantity, now);
            var id := w.handler.oms.nextId;
            var oms' := Happen(oms, id, Submit, 0, 0);
            && Accepts(oms, id, Submit, 0, 0)
            && id in oms'.orders
            && Step(w, Place(symbol, side, price, quantity, now))
               == AfterSending(w, oms', SendNew(oms'.orders[id], w.sequence, now))
  {
  }

  class PipelineContext {
    const orders: OrderManager
    const gateway: OrderGateway
    const exchange: ExchangeSimulator
    const positions: PositionManager
    const reportHandler: ExecutionReportHandler

    ghost predicate Valid()
      reads this, orders, exchange
    {
      && reportHandler.orders == orders
      && reportHandler.positions == positions
      && orders.Valid()
      && exchange.Valid()
    }

    ghost function View(): World
      reads this, reportHandler, reportHandler.orders, reportHandler.orders.orders.Values, reportHandler.positions
      reads exchange, gateway
    {
      World(reportHandler.View(), exchange.View(), gateway.nextSequence)
    }

    lemma SamePositions()
      requires Valid()
      ensures View().handler.positions == positions.positions
    {
    }

    constructor ()
      ensures Valid() && View() == START
    {
      var manager := new OrderManager();
      var ledger := new PositionManager();
      orders, positions := manager, ledger;
      reportHandler := new ExecutionReportHandler(manager, ledger);
      gateway := new OrderGateway();
      exchange := new ExchangeSimulator();
    }

    // The exchange answers a request, and the answer is handled before anything else happens.
    method Exchange(request: GatewayRequest)
      requires Valid()
      modifies exchange, reportHandler, positions, orders.orders.Values
      ensures Valid()
      ensures exchange.View() == Process(old(exchange.View()), request).venue
      ensures reportHandler.View()
           == HandleAll(old(reportHandler.View()), Kept(Process(old(exchange.View()), request).log))
    {
      hide ExchangeSimulator.Valid, ExchangeSimulator.View, ExecutionReportHandler.View, HandleAll, Process, Kept;
      var batch := exchange.Process(request);
      ProcessExecutionReports(batch, reportHandler);
    }

    method PlaceOrder(symbol: Symbol, side: Side, price: int, quantity: int, now: nat)
      requires Valid()
      modifies orders, gateway, exchange, reportHandler, positions, orders.orders.Values
      ensures Valid()
      ensures View() == Step(old(View()), Place(symbol, side, price, quantity, now))
      ensures fresh(orders.orders.Values - old(orders.orders.Values))
    {
      hide ExchangeSimulator.Valid, ExchangeSimulator.View, HandleAll, Process, Kept, OrderManager.Valid, Step,
           Create, Happen, Accepts, SendNew, OrderManager.View, Order.Data;
      orders.SameIds();
      PlaceUnfolds(View(), symbol, side, price, quantity, now);
      var order := orders.CreateOrder(symbol, side, price, quantity, now);
      var submitted := orders.Submit(order.clientOrderId);
      if !submitted {
        return;
      }
      orders.SameData(order.clientOrderId);
      var sent := gateway.SendNewOrder(order, now);
      if sent.Nothing? {
        return;
      }
      Exchange(sent.request);
    }

    method RequestCancel(id: nat)
      requires Valid()
      modifies orders.orders.Values
      ensures Valid()
      ensures View() == Step(old(View()), AskCancel(id))
    {
      hide ExchangeSimulator.Valid, ExchangeSimulator.View, Process, OrderManager.Valid, Happen;
      var _ := orders.RequestCancel(id);
    }

    method SendCancel(id: nat, now: nat)
      requires Valid()
      modifies gateway, exchange, reportHandler, positions, orders.orders.Values
      ensures Valid()
      ensures View() == Step(old(View()), SendCancelFor(id, now))
    {
      hide ExchangeSimulator.Valid, ExchangeSimulator.View, HandleAll, Process, Kept, OrderManager.Valid,
           OrderManager.View, Order.Data, Gateway.SendCancel;
      orders.SameIds();
      var order := orders.Find(id);
      if order == null {
        return;
      }
      orders.SameData(id);
      var sent := gateway.SendCancelOrder(order, now);
      if sent.Nothing? {
        return;
      }
      Exchange(sent.request);
    }
  }
}
