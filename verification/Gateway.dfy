// The gateway copies order fields into requests (src/gateway/order_gateway.cpp).
module Gateway {
  import opened Types
  import opened OrderLifecycle
  import opened OrderManagement

  datatype Sending = Nothing | Sending(request: GatewayRequest)

  predicate ValidSend(o: OrderData) {
    o.clientOrderId != 0 && o.symbol != "" && o.price > 0 && o.quantity > 0
  }

  predicate ValidCancel(o: OrderData) {
    && o.clientOrderId != 0 && o.symbol != ""
    && (o.status == Acked || o.status == PartiallyFilled || o.status == PendingCancel)
    && o.remainingQuantity > 0
  }

  function SendNew(o: OrderData, sequence: nat, now: nat): Sending {
    if !ValidSend(o) then Nothing
    else Sending(GatewayRequest(sequence, NewOrder, o.clientOrderId, o.exchangeOrderId, o.symbol, o.side,
                                o.orderType, o.timeInForce, o.price, o.quantity, now))
  }

  function SendCancel(o: OrderData, sequence: nat, now: nat): Sending {
    if !ValidCancel(o) then Nothing
    else Sending(GatewayRequest(sequence, CancelOrder, o.clientOrderId, o.exchangeOrderId, o.symbol, o.side,
                                o.orderType, o.timeInForce, o.price, o.remainingQuantity, now))
  }

  class OrderGateway {
    var nextSequence: nat

    constructor ()
      ensures nextSequence == 1
    {
      nextSequence := 1;
    }

    method SendNewOrder(order: Order, now: nat) returns (sent: Sending)
      modifies this
      ensures sent == SendNew(order.Data(), old(nextSequence), now)
      ensures nextSequence == old(nextSequence) + (if sent.Sending? then 1 else 0)
    {
      if !ValidSend(order.Data()) {
        return Nothing;
      }
      var sequence := nextSequence;
      nextSequence := nextSequence + 1;
      sent := Sending(GatewayRequest(sequence, NewOrder, order.clientOrderId, order.exchangeOrderId,
                                     order.symbol, order.side, order.orderType, order.timeInForce,
                                     order.price, order.quantity, now));
    }

    method SendCancelOrder(order: Order, now: nat) returns (sent: Sending)
      modifies this
      ensures sent == SendCancel(order.Data(), old(nextSequence), now)
      ensures nextSequence == old(nextSequence) + (if sent.Sending? then 1 else 0)
    {
      if !ValidCancel(order.Data()) {
        return Nothing;
      }
      var sequence := nextSequence;
      nextSequence := nextSequence + 1;
      sent := Sending(GatewayRequest(sequence, CancelOrder, order.clientOrderId, order.exchangeOrderId,
                                     order.symbol, order.side, order.orderType, order.timeInForce,
                                     order.price, order.remainingQuantity, now));
    }
  }
}
