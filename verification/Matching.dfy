// What the exchange does with one request, on values: each side of the book is
// one queue in price-time priority (src/exchange/exchange_simulator.cpp).
module Matching {
  import opened Types

  datatype Resting = Resting(
    clientOrderId: nat,
    exchangeOrderId: nat,
    symbol: Symbol,
    side: Side,
    price: int,
    filled: int,
    remaining: int,
    arrival: nat)

  datatype Venue = Venue(bids: seq<Resting>, asks: seq<Resting>, nextId: nat)
  {
    function On(side: Side): seq<Resting> {
      if side == Buy then bids else asks
    }

    function With(side: Side, queue: seq<Resting>): Venue {
      if side == Buy then this.(bids := queue) else this.(asks := queue)
    }
  }

  const EMPTY_VENUE := Venue([], [], 1)

  datatype Outcome = Outcome(venue: Venue, log: seq<ExecutionReport>)

  // ----- Reports -----

  function AckReport(req: GatewayRequest, exchangeId: nat): ExecutionReport {
    ExecutionReport(req.clientOrderId, exchangeId, ExecType.Ack, Acked, NoReason, req.symbol, req.side,
                    0, 0, 0, req.quantity, req.sendTimestamp, req.sendTimestamp)
  }

  function RejectReport(req: GatewayRequest): ExecutionReport {
    ExecutionReport(req.clientOrderId, 0, ExecType.Reject, Rejected, ExchangeReject, req.symbol, req.side,
                    0, 0, 0, 0, req.sendTimestamp, req.sendTimestamp)
  }

  function CancelAckReport(order: Resting, now: nat): ExecutionReport {
    ExecutionReport(order.clientOrderId, order.exchangeOrderId, ExecType.CancelAck, Canceled, NoReason,
                    order.symbol, order.side, 0, 0, 0, order.remaining, now, now)
  }

  function CancelRejectReport(req: GatewayRequest): ExecutionReport {
    ExecutionReport(req.clientOrderId, req.exchangeOrderId, ExecType.CancelReject, Rejected, UnknownOrder,
                    req.symbol, req.side, 0, 0, 0, 0, req.sendTimestamp, req.sendTimestamp)
  }

  function FillReport(clientId: nat, exchangeId: nat, symbol: Symbol, side: Side, price: int,
                      last: int, cumulative: int, leaves: int, now: nat): ExecutionReport
  {
    ExecutionReport(clientId, exchangeId,
                    if leaves == 0 then ExecType.Fill else ExecType.PartialFill,
                    if leaves == 0 then Filled else PartiallyFilled,
                    NoReason, symbol, side, price, last, cumulative, leaves, now, now)
  }

  // The report for a resting order that `order` has become after trading `last`.
  function RestingFill(order: Resting, last: int, now: nat): ExecutionReport {
    FillReport(order.clientOrderId, order.exchangeOrderId, order.symbol, order.side, order.price,
               last, order.filled, order.remaining, now)
  }

  function IncomingFill(req: GatewayRequest, exchangeId: nat, price: int,
                        last: int, cumulative: int, leaves: int): ExecutionReport
  {
    FillReport(req.clientOrderId, exchangeId, req.symbol, req.side, price,
               last, cumulative, leaves, req.sendTimestamp)
  }

  // The two reports of one trade: `order` is the resting order after it, and the incoming
  // order has traded `cumulative` and still wants `leaves`.
  function TradePair(order: Resting, last: int, req: GatewayRequest, exchangeId: nat, cumulative: int, leaves: int)
    : (pair: seq<ExecutionReport>)
    ensures |pair| == 2
  {
    [RestingFill(order, last, req.sendTimestamp),
     IncomingFill(req, exchangeId, order.price, last, cumulative, leaves)]
  }

  // ----- Requests -----

  function Trade(order: Resting, quantity: int): Resting {
    order.(filled := order.filled + quantity, remaining := order.remaining - quantity)
  }

  // Whether an incoming order with this side and limit may trade at `price`.
  predicate Crosses(side: Side, limit: int, price: int) {
    if side == Buy then price <= limit else price >= limit
  }

  datatype Swept = Swept(queue: seq<Resting>, left: int, cumulative: int, log: seq<ExecutionReport>)

  // The crossing loop: `queue` is the opposite side, best order first.
  function Sweep(queue: seq<Resting>, req: GatewayRequest, exchangeId: nat, left: int, cumulative: int): Swept {
    if left <= 0 || queue == [] || !Crosses(req.side, req.price, queue[0].price) then
      Swept(queue, left, cumulative, [])
    else
      var last := Min(left, queue[0].remaining);
      var order := Trade(queue[0], last);
      var reports := TradePair(order, last, req, exchangeId, cumulative + last, left - last);
      if order.remaining == 0 then
        var rest := Sweep(queue[1..], req, exchangeId, left - last, cumulative + last);
        rest.(log := reports + rest.log)
      else
        Swept([order] + queue[1..], left - last, cumulative + last, reports)
  }

  // How many orders keep priority over a new order at `price`: all those at a price at least as good.
  function Rank(side: Side, queue: seq<Resting>, price: int): (i: nat)
    ensures i <= |queue|
  {
    if queue == [] || Better(side, price, queue[0].price) then 0
    else 1 + Rank(side, queue[1..], price)
  }

  function Enqueue(side: Side, queue: seq<Resting>, order: Resting): seq<Resting> {
    var i := Rank(side, queue, order.price);
    queue[..i] + [order] + queue[i..]
  }

  function Clients(queue: seq<Resting>): set<nat> {
    set r | r in queue :: r.clientOrderId
  }

  predicate ValidNew(m: Venue, req: GatewayRequest) {
    && req.requestType == NewOrder
    && req.clientOrderId != 0
    && req.symbol != ""
    && req.orderType == Limit
    && req.price > 0
    && req.quantity > 0
    && req.clientOrderId !in Clients(m.bids) + Clients(m.asks)
  }

  function RestingOrder(req: GatewayRequest, exchangeId: nat, remaining: int): Resting {
    Resting(req.clientOrderId, exchangeId, req.symbol, req.side, req.price,
            req.quantity - remaining, remaining, req.sendTimestamp)
  }

  function ProcessNew(m: Venue, req: GatewayRequest): Outcome {
    if !ValidNew(m, req) then
      Outcome(m, [RejectReport(req)])
    else
      var id := m.nextId;
      var swept := Sweep(m.On(Opposite(req.side)), req, id, req.quantity, 0);
      var m' := m.(nextId := id + 1).With(Opposite(req.side), swept.queue);
      Outcome(if swept.left > 0
              then m'.With(req.side, Enqueue(req.side, m'.On(req.side), RestingOrder(req, id, swept.left)))
              else m',
              [AckReport(req, id)] + swept.log)
  }

  // The position of a client's order in a queue, or the length of the queue.
  function IndexOf(queue: seq<Resting>, clientId: nat): (i: nat)
    ensures i <= |queue|
    ensures i < |queue| ==> queue[i].clientOrderId == clientId
    ensures i == |queue| <==> clientId !in Clients(queue)
  {
    if queue == [] then 0
    else if queue[0].clientOrderId == clientId then
      assert queue[0] in queue;
      0
    else
      var j := IndexOf(queue[1..], clientId);
      assert queue == [queue[0]] + queue[1..];
      1 + j
  }

  function Without(queue: seq<Resting>, i: nat): seq<Resting>
    requires i < |queue|
  {
    queue[..i] + queue[i + 1..]
  }

  function Remove(m: Venue, clientId: nat): Venue {
    var b, a := IndexOf(m.bids, clientId), IndexOf(m.asks, clientId);
    if b < |m.bids| then m.(bids := Without(m.bids, b))
    else if a < |m.asks| then m.(asks := Without(m.asks, a))
    else m
  }

  function ProcessCancel(m: Venue, req: GatewayRequest): Outcome {
    var b, a := IndexOf(m.bids, req.clientOrderId), IndexOf(m.asks, req.clientOrderId);
    Outcome(Remove(m, req.clientOrderId),
            if b < |m.bids| then [CancelAckReport(m.bids[b], req.sendTimestamp)]
            else if a < |m.asks| then [CancelAckReport(m.asks[a], req.sendTimestamp)]
            else [CancelRejectReport(req)])
  }

  function Process(m: Venue, req: GatewayRequest): Outcome {
    if req.requestType == CancelOrder then ProcessCancel(m, req) else ProcessNew(m, req)
  }

  // ----- The invariant -----

  predicate Ahead(side: Side, a: Resting, b: Resting) {
    Better(side, a.price, b.price) || (a.price == b.price && a.exchangeOrderId < b.exchangeOrderId)
  }

  predicate LiveOn(side: Side, r: Resting, nextId: nat) {
    && r.side == side
    && r.clientOrderId != 0
    && r.symbol != ""
    && r.price > 0
    && r.filled >= 0
    && r.remaining > 0
    && 0 < r.exchangeOrderId < nextId
  }

  // One side: live orders of that side, in strict price-time order.
  ghost predicate GoodQueue(side: Side, queue: seq<Resting>, nextId: nat) {
    && (forall i | 0 <= i < |queue| :: LiveOn(side, queue[i], nextId))
    && (forall i, j | 0 <= i < j < |queue| :: Ahead(side, queue[i], queue[j]))
  }

  ghost predicate Distinct(queue: seq<Resting>) {
    forall i, j | 0 <= i < j < |queue| ::
      queue[i].clientOrderId != queue[j].clientOrderId && queue[i].exchangeOrderId != queue[j].exchangeOrderId
  }

  ghost predicate Apart(a: seq<Resting>, b: seq<Resting>) {
    forall i, j | 0 <= i < |a| && 0 <= j < |b| ::
      a[i].clientOrderId != b[j].clientOrderId && a[i].exchangeOrderId != b[j].exchangeOrderId
  }

  // Every bid is below every ask.
  ghost predicate Uncrossed(m: Venue) {
    forall i, j | 0 <= i < |m.bids| && 0 <= j < |m.asks| :: m.bids[i].price < m.asks[j].price
  }

  ghost predicate Inv(m: Venue) {
    && m.nextId > 0
    && GoodQueue(Buy, m.bids, m.nextId)
    && GoodQueue(Sell, m.asks, m.nextId)
    && Distinct(m.bids)
    && Distinct(m.asks)
    && Apart(m.bids, m.asks)
    && Uncrossed(m)
  }

  // ----- The invariant is kept -----

  // `a` is what is left of `b` after some trading.
  predicate Remnant(a: Resting, b: Resting) {
    && a.(filled := b.filled, remaining := b.remaining) == b
    && a.filled + a.remaining == b.filled + b.remaining
    && b.filled <= a.filled
    && 0 < a.remaining
  }

  // `rest` is the tail of `queue`, with some orders partly traded.
  ghost predicate RemnantQueue(rest: seq<Resting>, queue: seq<Resting>) {
    && |rest| <= |queue|
    && forall i | 0 <= i < |rest| :: Remnant(rest[i], queue[|queue| - |rest| + i])
  }

  ghost predicate AllLive(queue: seq<Resting>) {
    forall i | 0 <= i < |queue| :: queue[i].remaining > 0
  }

  // What the loop leaves of a queue, said of its result.
  ghost predicate LeavesRemnants(s: Swept, queue: seq<Resting>, req: GatewayRequest, left: int, cum: int) {
    && RemnantQueue(s.queue, queue)
    && 0 <= s.left <= left
    && s.left + s.cumulative == left + cum
    && (s.left > 0 && s.queue != [] ==> !Crosses(req.side, req.price, s.queue[0].price))
  }

  lemma HitLeavesRemnants(s: Swept, queue: seq<Resting>, req: GatewayRequest, left: int, cum: int)
    requires queue != [] && left >= queue[0].remaining > 0
    requires LeavesRemnants(s, queue[1..], req, left - queue[0].remaining, cum + queue[0].remaining)
    ensures forall log :: LeavesRemnants(s.(log := log), queue, req, left, cum)
  {
  }

  lemma {:induction false} SweepLeavesRemnants(queue: seq<Resting>, req: GatewayRequest, id: nat, left: int, cum: int)
    requires AllLive(queue) && left >= 0
    ensures LeavesRemnants(Sweep(queue, req, id, left, cum), queue, req, left, cum)
  {
    if left <= 0 || queue == [] || !Crosses(req.side, req.price, queue[0].price) {
    } else if left >= queue[0].remaining {
      SweepLeavesRemnants(queue[1..], req, id, left - queue[0].remaining, cum + queue[0].remaining);
      hide LeavesRemnants;
      HitLeavesRemnants(Sweep(queue[1..], req, id, left - queue[0].remaining, cum + queue[0].remaining),
                        queue, req, left, cum);
    }
  }

  lemma RemnantsStayGood(side: Side, rest: seq<Resting>, queue: seq<Resting>, other: seq<Resting>, nextId: nat)
    requires RemnantQueue(rest, queue) && GoodQueue(side, queue, nextId) && Distinct(queue)
    ensures GoodQueue(side, rest, nextId) && Distinct(rest)
    ensures Apart(queue, other) ==> Apart(rest, other)
    ensures Clients(rest) <= Clients(queue)
  {
  }

  lemma {:induction false} RankSplits(side: Side, queue: seq<Resting>, price: int, nextId: nat)
    requires GoodQueue(side, queue, nextId)
    ensures var i := Rank(side, queue, price);
            && (forall j | 0 <= j < i :: !Better(side, price, queue[j].price))
            && (forall j | i <= j < |queue| :: Better(side, price, queue[j].price))
  {
    if queue != [] {
      if Better(side, price, queue[0].price) {
        forall j | 0 <= j < |queue| ensures Better(side, price, queue[j].price) {
          assert j == 0 || Ahead(side, queue[0], queue[j]);
        }
      } else {
        assert GoodQueue(side, queue[1..], nextId);
        RankSplits(side, queue[1..], price, nextId);
      }
    }
  }

  // `q` is `queue` with `order` put in at `k`.
  ghost predicate Inserted(q: seq<Resting>, queue: seq<Resting>, k: nat, order: Resting) {
    && k <= |queue|
    && |q| == |queue| + 1
    && q[k] == order
    && forall i | 0 <= i < |q| && i != k :: q[i] == queue[if i < k then i else i - 1]
  }

  lemma InsertedIsGood(side: Side, q: seq<Resting>, queue: seq<Resting>, k: nat, order: Resting, id: nat)
    requires Inserted(q, queue, k, order) && GoodQueue(side, queue, id)
    requires LiveOn(side, order, id + 1) && order.exchangeOrderId == id
    requires forall j | 0 <= j < k :: !Better(side, order.price, queue[j].price)
    requires forall j | k <= j < |queue| :: Better(side, order.price, queue[j].price)
    ensures GoodQueue(side, q, id + 1)
  {
  }

  lemma InsertedIsApart(q: seq<Resting>, queue: seq<Resting>, k: nat, order: Resting, other: seq<Resting>, id: nat)
    requires Inserted(q, queue, k, order) && Distinct(queue) && Apart(queue, other)
    requires order.exchangeOrderId == id && order.clientOrderId !in Clients(queue) + Clients(other)
    requires forall i | 0 <= i < |queue| :: queue[i].exchangeOrderId < id
    requires forall i | 0 <= i < |other| :: other[i].exchangeOrderId < id
    ensures Distinct(q) && Apart(q, other)
  {
  }

  lemma InsertedClients(q: seq<Resting>, queue: seq<Resting>, k: nat, order: Resting)
    requires Inserted(q, queue, k, order) && Distinct(q)
    ensures Clients(q) == Clients(queue) + {order.clientOrderId}
    ensures order.clientOrderId !in Clients(queue)
  {
    forall j | 0 <= j < |queue|
      ensures queue[j].clientOrderId in Clients(q) && queue[j].clientOrderId != order.clientOrderId
    {
      var i := if j < k then j else j + 1;
      assert q[i] == queue[j] && q[i] in q;
    }
    forall c | c in Clients(q) ensures c in Clients(queue) + {order.clientOrderId} {
      var i :| 0 <= i < |q| && q[i].clientOrderId == c;
      if i != k {
        assert q[i] == queue[if i < k then i else i - 1] && q[i] in queue;
      }
    }
    assert q[k] in q;
  }

  lemma EnqueueStaysGood(side: Side, queue: seq<Resting>, order: Resting, other: seq<Resting>, id: nat)
    requires GoodQueue(side, queue, id) && Distinct(queue) && Apart(queue, other)
    requires LiveOn(side, order, id + 1) && order.exchangeOrderId == id
    requires order.clientOrderId !in Clients(queue) + Clients(other)
    requires GoodQueue(Opposite(side), other, id)
    ensures var q := Enqueue(side, queue, order);
            && GoodQueue(side, q, id + 1) && Distinct(q) && Apart(q, other)
            && Inserted(q, queue, Rank(side, queue, order.price), order)
  {
    RankSplits(side, queue, order.price, id);
    var k, q := Rank(side, queue, order.price), Enqueue(side, queue, order);
    assert Inserted(q, queue, k, order);
    InsertedIsGood(side, q, queue, k, order, id);
    InsertedIsApart(q, queue, k, order, other, id);
  }

  lemma WithoutStaysGood(side: Side, queue: seq<Resting>, k: nat, other: seq<Resting>, nextId: nat)
    requires k < |queue| && GoodQueue(side, queue, nextId) && Distinct(queue) && Apart(queue, other)
    ensures var q := Without(queue, k);
            GoodQueue(side, q, nextId) && Distinct(q) && Apart(q, other)
  {
  }

  // The book as an incoming order sees it: its own side, and the side it sweeps.
  ghost predicate SidesGood(side: Side, own: seq<Resting>, opposite: seq<Resting>, nextId: nat) {
    && GoodQueue(side, own, nextId)
    && GoodQueue(Opposite(side), opposite, nextId)
    && Distinct(own) && Distinct(opposite)
    && Apart(own, opposite)
    && forall i, j | 0 <= i < |own| && 0 <= j < |opposite| :: !Crosses(side, own[i].price, opposite[j].price)
  }

  lemma InvBySides(side: Side, m: Venue)
    requires m.nextId > 0
    ensures Inv(m) <==> SidesGood(side, m.On(side), m.On(Opposite(side)), m.nextId)
  {
  }

  // The remainder of an incoming order is enqueued only when no remnant crosses it any more.
  lemma SweptSidesGood(side: Side, own: seq<Resting>, opposite: seq<Resting>, req: GatewayRequest, id: nat)
    requires SidesGood(side, own, opposite, id) && req.side == side && req.quantity > 0
    ensures var s := Sweep(opposite, req, id, req.quantity, 0);
            && SidesGood(side, own, s.queue, id)
            && Clients(s.queue) <= Clients(opposite)
            && 0 <= s.left <= req.quantity
            && s.left + s.cumulative == req.quantity
            && (s.left > 0 ==> forall j | 0 <= j < |s.queue| :: !Crosses(side, req.price, s.queue[j].price))
  {
    var s := Sweep(opposite, req, id, req.quantity, 0);
    SweepLeavesRemnants(opposite, req, id, req.quantity, 0);
    RemnantsStayGood(Opposite(side), s.queue, opposite, own, id);
    forall j | 0 <= j < |s.queue|
      ensures s.queue[j].price == opposite[|opposite| - |s.queue| + j].price
      ensures s.left > 0 ==> !Crosses(side, req.price, s.queue[j].price)
    {
      assert Remnant(s.queue[j], opposite[|opposite| - |s.queue| + j]);
      assert j == 0 || Ahead(Opposite(side), s.queue[0], s.queue[j]);
    }
  }

  lemma EnqueuedSidesGood(side: Side, own: seq<Resting>, opposite: seq<Resting>, order: Resting, id: nat)
    requires SidesGood(side, own, opposite, id)
    requires LiveOn(side, order, id + 1) && order.exchangeOrderId == id
    requires order.clientOrderId !in Clients(own) + Clients(opposite)
    requires forall j | 0 <= j < |opposite| :: !Crosses(side, order.price, opposite[j].price)
    ensures SidesGood(side, Enqueue(side, own, order), opposite, id + 1)
  {
    EnqueueStaysGood(side, own, order, opposite, id);
    var k, q := Rank(side, own, order.price), Enqueue(side, own, order);
    forall i, j | 0 <= i < |q| && 0 <= j < |opposite| ensures !Crosses(side, q[i].price, opposite[j].price) {
      if i != k {
        assert q[i] == own[if i < k then i else i - 1];
      }
    }
  }

  lemma NewOrderUnfolds(m: Venue, req: GatewayRequest)
    requires ValidNew(m, req)
    ensures var s, done := Sweep(m.On(Opposite(req.side)), req, m.nextId, req.quantity, 0), ProcessNew(m, req);
            && done.log == [AckReport(req, m.nextId)] + s.log
            && done.venue.nextId == m.nextId + 1
            && done.venue.On(Opposite(req.side)) == s.queue
            && done.venue.On(req.side)
               == (if s.left > 0 then Enqueue(req.side, m.On(req.side), RestingOrder(req, m.nextId, s.left))
                   else m.On(req.side))
  {
    hide Sweep, Enqueue;
  }

  lemma ValidIsProcessed(m: Venue, req: GatewayRequest)
    requires ValidNew(m, req)
    ensures Process(m, req) == ProcessNew(m, req)
  {
  }

  lemma ValidIsNewOn(m: Venue, req: GatewayRequest)
    requires ValidNew(m, req)
    ensures req.clientOrderId !in Clients(m.On(req.side)) + Clients(m.On(Opposite(req.side)))
    ensures req.clientOrderId != 0 && req.symbol != "" && req.price > 0 && req.quantity > 0
  {
    hide Clients;
  }

  lemma SidesAge(side: Side, own: seq<Resting>, opposite: seq<Resting>, id: nat)
    requires SidesGood(side, own, opposite, id)
    ensures SidesGood(side, own, opposite, id + 1)
  {
    hide Distinct, Apart;
  }

  lemma ProcessNewKeepsInv(m: Venue, req: GatewayRequest)
    requires Inv(m)
    ensures Inv(ProcessNew(m, req).venue)
  {
    assert m.nextId > 0;
    hide GoodQueue, Distinct, Apart, Sweep, Enqueue, Clients, Inv;
    if ValidNew(m, req) {
      hide ProcessNew;
      var side, id := req.side, m.nextId;
      var own, opposite := m.On(side), m.On(Opposite(side));
      InvBySides(side, m);
      ValidIsNewOn(m, req);
      SweptSidesGood(side, own, opposite, req, id);
      var s := Sweep(opposite, req, id, req.quantity, 0);
      NewOrderUnfolds(m, req);
      if s.left > 0 {
        EnqueuedSidesGood(side, own, s.queue, RestingOrder(req, id, s.left), id);
      } else {
        SidesAge(side, own, s.queue, id);
      }
      InvBySides(side, ProcessNew(m, req).venue);
    }
  }

  lemma RemoveKeepsInv(m: Venue, clientId: nat)
    requires Inv(m)
    ensures Inv(Remove(m, clientId))
  {
    var b, a := IndexOf(m.bids, clientId), IndexOf(m.asks, clientId);
    if b < |m.bids| {
      WithoutStaysGood(Buy, m.bids, b, m.asks, m.nextId);
      assert Remove(m, clientId).nextId == m.nextId;
    } else if a < |m.asks| {
      WithoutStaysGood(Sell, m.asks, a, m.bids, m.nextId);
    }
  }

  // Every request keeps the book invariant.
  lemma ProcessKeepsInv(m: Venue, req: GatewayRequest)
    requires Inv(m)
    ensures Inv(Process(m, req).venue)
  {
    hide Inv, Remove, ProcessNew;
    if req.requestType == CancelOrder {
      RemoveKeepsInv(m, req.clientOrderId);
    } else {
      ProcessNewKeepsInv(m, req);
    }
  }

  // ----- The shape of a log -----

  // Only the first report of a log can be anything but a fill.
  ghost predicate FillsAfterFirst(log: seq<ExecutionReport>) {
    forall i | 1 <= i < |log| :: log[i].IsFill()
  }

  ghost predicate AllFills(log: seq<ExecutionReport>) {
    forall i | 0 <= i < |log| :: log[i].IsFill()
  }

  lemma {:induction false} SweepLogsFills(queue: seq<Resting>, req: GatewayRequest, id: nat, left: int, cum: int)
    ensures AllFills(Sweep(queue, req, id, left, cum).log)
  {
    if left <= 0 || queue == [] || !Crosses(req.side, req.price, queue[0].price) {
    } else {
      var last := Min(left, queue[0].remaining);
      if Trade(queue[0], last).remaining == 0 {
        SweepLogsFills(queue[1..], req, id, left - last, cum + last);
      }
    }
  }

  lemma LogShape(m: Venue, req: GatewayRequest)
    ensures var log := Process(m, req).log;
            && log != []
            && !log[0].IsFill()
            && FillsAfterFirst(log)
            && (log[0].execType == ExecType.Ack ==> req.requestType == NewOrder && log[0] == AckReport(req, m.nextId))
  {
    if req.requestType == NewOrder && ValidNew(m, req) {
      SweepLogsFills(m.On(Opposite(req.side)), req, m.nextId, req.quantity, 0);
    }
  }
}
