// The messages and records that the components exchange
// (include/trading/core/Types.hpp, include/trading/core/Events.hpp).
// Quantities, prices and identifiers are unbounded integers.
module Types {
  type Symbol = string

  datatype Side = Buy | Sell

  datatype OrderType = Limit | Market

  datatype TimeInForce = Day | IOC | FOK

  datatype OrderStatus =
    | Created
    | PendingNew
    | Acked
    | PartiallyFilled
    | Filled
    | PendingCancel
    | Canceled
    | Rejected

  datatype RejectReason =
    | NoReason
    | InvalidPrice
    | InvalidQuantity
    | RiskLimitExceeded
    | UnknownOrder
    | ExchangeReject

  datatype ExecType = Ack | Reject | PartialFill | Fill | CancelAck | CancelReject

  datatype RequestType = NewOrder | CancelOrder

  datatype GatewayRequest = GatewayRequest(
    gatewaySequence: nat,
    requestType: RequestType,
    clientOrderId: nat,
    exchangeOrderId: nat,
    symbol: Symbol,
    side: Side,
    orderType: OrderType,
    timeInForce: TimeInForce,
    price: int,
    quantity: int,
    sendTimestamp: nat)

  datatype ExecutionReport = ExecutionReport(
    clientOrderId: nat,
    exchangeOrderId: nat,
    execType: ExecType,
    orderStatus: OrderStatus,
    rejectReason: RejectReason,
    symbol: Symbol,
    side: Side,
    lastPrice: int,
    lastQuantity: int,
    cumulativeQuantity: int,
    leavesQuantity: int,
    exchangeTimestamp: nat,
    receiveTimestamp: nat)
  {
    predicate IsFill() {
      execType == ExecType.PartialFill || execType == ExecType.Fill
    }
  }

  function Opposite(side: Side): Side {
    if side == Buy then Sell else Buy
  }

  // A quantity with the sign its side gives it: bought is positive.
  function Signed(side: Side, quantity: int): int {
    if side == Buy then quantity else -quantity
  }

  // Whether price `a` goes before price `b` on a side of a book: bids descend and asks ascend.
  predicate Better(side: Side, a: int, b: int) {
    if side == Buy then a > b else a < b
  }

  function Min(a: int, b: int): int {
    if a <= b then a else b
  }

  function Max(a: int, b: int): int {
    if a >= b then a else b
  }

  function Abs(a: int): nat {
    if a < 0 then -a else a
  }
}
