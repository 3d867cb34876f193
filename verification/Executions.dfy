// What the exchange answers, report by report and field by field, at what price each trade happens, and what it
// leaves resting (src/exchange/exchange_simulator.cpp:58-178, 252-348).
module Executions {
  import opened Types
  import opened Matching
  import opened PriceTimePriority
  import opened OrderStreams

  // Whose report it is.
  predicate For(r: ExecutionReport, client: nat, exchange: nat, symbol: Symbol, side: Side) {
    r.clientOrderId == client && r.exchangeOrderId == exchange && r.symbol == symbol && r.side == side
  }

  // A fill of `last` at `price`, up to `cumulative` in all, with `leaves` to go.
  predicate Tells(r: ExecutionReport, price: int, last: int, cumulative: int, leaves: int, now: nat) {
    && r.lastPrice == price && r.lastQuantity == last && r.cumulativeQuantity == cumulative
    && r.leavesQuantity == leaves
    && r.execType == (if leaves == 0 then ExecType.Fill else ExecType.PartialFill)
    && r.orderStatus == (if leaves == 0 then Filled else PartiallyFilled)
    && r.rejectReason == NoReason && r.exchangeTimestamp == r.receiveTimestamp == now
  }

  // An answer that trades nothing.
  predicate Answers(r: ExecutionReport, t: ExecType, status: OrderStatus, reason: RejectReason, leaves: int, now: nat) {
    && r.execType == t && r.orderStatus == status && r.rejectReason == reason && r.leavesQuantity == leaves
    && r.lastPrice == r.lastQuantity == r.cumulativeQuantity == 0
    && r.exchangeTimestamp == r.receiveTimestamp == now
  }

  // A price the incoming order accepts.
  predicate Affords(req: GatewayRequest, price: int) {
    (req.side == Buy && price <= req.price) || (req.side == Sell && req.price <= price)
  }

  lemma PairSays(queue: seq<Resting>, req: GatewayRequest, id: nat, i: nat)
    requires i < |queue|
    ensures var r, pair := queue[i], TradeReports(queue, req, id, req.quantity, 0, i);
            var share := Share(queue, req.side, req.price, req.quantity, i);
            var taken := Depth(queue[..i]) + share;
            && |pair| == 2
            && For(pair[0], r.clientOrderId, r.exchangeOrderId, r.symbol, r.side)
            && Tells(pair[0], r.price, share, r.filled + share, r.remaining - share, req.sendTimestamp)
            && For(pair[1], req.clientOrderId, id, req.symbol, req.side)
            && Tells(pair[1], r.price, share, taken, req.quantity - taken, req.sendTimestamp)
  {
    hide Share, Depth;
  }

  lemma ShareIsAfforded(queue: seq<Resting>, req: GatewayRequest, i: nat)
    requires Sorted(queue, req.side) && i < Hits(queue, req.side, req.price, req.quantity)
    ensures 0 < Share(queue, req.side, req.price, req.quantity, i) <= queue[i].remaining
    ensures Affords(req, queue[i].price)
  {
    HitsAreThePositiveShares(queue, req.side, req.price, req.quantity);
    hide Hits, Sorted, Depth;
  }

  ghost predicate HitReported(m: Venue, req: GatewayRequest, log: seq<ExecutionReport>, i: nat)
    requires i < |m.On(Opposite(req.side))|
  {
    var queue := m.On(Opposite(req.side));
    var r, share := queue[i], Share(queue, req.side, req.price, req.quantity, i);
    var taken := Depth(queue[..i]) + share;
    && 2 + 2 * i < |log|
    && 0 < share <= r.remaining
    && Affords(req, r.price)
    && For(log[1 + 2 * i], r.clientOrderId, r.exchangeOrderId, r.symbol, r.side)
    && Tells(log[1 + 2 * i], r.price, share, r.filled + share, r.remaining - share, req.sendTimestamp)
    && For(log[2 + 2 * i], req.clientOrderId, m.nextId, req.symbol, req.side)
    && Tells(log[2 + 2 * i], r.price, share, taken, req.quantity - taken, req.sendTimestamp)
  }

  lemma HitIsReported(m: Venue, req: GatewayRequest, log: seq<ExecutionReport>, i: nat)
    requires Sorted(m.On(Opposite(req.side)), req.side)
    requires i < Hits(m.On(Opposite(req.side)), req.side, req.price, req.quantity) && 2 + 2 * i < |log|
    requires log[1 + 2 * i..3 + 2 * i]
          == TradeReports(m.On(Opposite(req.side)), req, m.nextId, req.quantity, 0, i)
    ensures HitReported(m, req, log, i)
  {
    hide TradeReports, Tells, Affords, Sorted, Hits, Share, Depth;
    var queue := m.On(Opposite(req.side));
    PairSays(queue, req, m.nextId, i);
    ShareIsAfforded(queue, req, i);
    var pair := log[1 + 2 * i..3 + 2 * i];
    assert pair[0] == log[1 + 2 * i] && pair[1] == log[2 + 2 * i];
  }

  lemma AckSays(req: GatewayRequest, id: nat)
    ensures For(AckReport(req, id), req.clientOrderId, id, req.symbol, req.side)
    ensures Answers(AckReport(req, id), ExecType.Ack, Acked, NoReason, req.quantity, req.sendTimestamp)
  {
  }

  lemma OneHit(m: Venue, req: GatewayRequest, log: seq<ExecutionReport>, h: nat)
    requires var queue := m.On(Opposite(req.side));
             && Sorted(queue, req.side) && h == Hits(queue, req.side, req.price, req.quantity)
             && |log| == 1 + 2 * h
             && forall i | 0 <= i < h ::
                  log[1 + 2 * i..3 + 2 * i] == TradeReports(queue, req, m.nextId, req.quantity, 0, i)
    ensures forall i | 0 <= i < h :: HitReported(m, req, log, i)
  {
    hide Hits, Sorted, TradeReports, HitReported;
    forall i | 0 <= i < h ensures HitReported(m, req, log, i) {
      HitIsReported(m, req, log, i);
    }
  }

  // The answer to a valid new order: an acknowledgement for its whole quantity, and then two reports for each
  // order hit, both at the price of the resting one.
  lemma TradesAtRestingPrices(m: Venue, req: GatewayRequest)
    requires Inv(m) && ValidNew(m, req)
    ensures var log := Process(m, req).log;
            var h := Hits(m.On(Opposite(req.side)), req.side, req.price, req.quantity);
            && |log| == 1 + 2 * h
            && For(log[0], req.clientOrderId, m.nextId, req.symbol, req.side)
            && Answers(log[0], ExecType.Ack, Acked, NoReason, req.quantity, req.sendTimestamp)
            && (forall i | 0 <= i < h :: HitReported(m, req, log, i))
  {
    hide Inv, Process, ProcessNew, Hits, Sorted, TradeReports, HitReported, CrossingDepth, Leftover, Enqueue, Answers,
         ValidNew, AckReport;
    ValidIsProcessed(m, req);
    NewOrderIsGreedy(m, req);
    OppositeIsSorted(m, req.side);
    AckSays(req, m.nextId);
    OneHit(m, req, Process(m, req).log, Hits(m.On(Opposite(req.side)), req.side, req.price, req.quantity));
  }

  // ----- What is accepted and what is refused -----

  // A new order is taken up exactly under these conditions; otherwise it is rejected and nothing changes.
  lemma NewOrderIsAnswered(m: Venue, req: GatewayRequest)
    requires req.requestType == NewOrder
    ensures var taken := && req.clientOrderId != 0 && req.symbol != "" && req.orderType == Limit
                         && req.price > 0 && req.quantity > 0
                         && forall r | r in m.bids || r in m.asks :: r.clientOrderId != req.clientOrderId;
            var done := Process(m, req);
            && |done.log| >= 1
            && (taken <==> done.log[0].execType == ExecType.Ack)
            && (taken <==> done.venue.nextId == m.nextId + 1)
            && (!taken ==>
                  && done.venue == m && |done.log| == 1
                  && For(done.log[0], req.clientOrderId, 0, req.symbol, req.side)
                  && Answers(done.log[0], ExecType.Reject, Rejected, ExchangeReject, 0, req.sendTimestamp))
  {
    assert req.clientOrderId in Clients(m.bids) <==> exists r | r in m.bids :: r.clientOrderId == req.clientOrderId;
    assert req.clientOrderId in Clients(m.asks) <==> exists r | r in m.asks :: r.clientOrderId == req.clientOrderId;
    if ValidNew(m, req) {
      NewOrderUnfolds(m, req);
    }
    hide Sweep, Enqueue, Clients;
  }

  lemma WithoutHolds(queue: seq<Resting>, k: nat)
    requires Distinct(queue) && k < |queue|
    ensures forall r :: r in Without(queue, k) <==> r in queue && r.clientOrderId != queue[k].clientOrderId
  {
    var rest := Without(queue, k);
    forall r | r in queue && r.clientOrderId != queue[k].clientOrderId ensures r in rest {
      var i :| 0 <= i < |queue| && queue[i] == r;
      assert rest[if i < k then i else i - 1] == r;
    }
    forall r | r in rest ensures r in queue && r.clientOrderId != queue[k].clientOrderId {
      var i :| 0 <= i < |rest| && rest[i] == r;
      assert queue[if i < k then i else i + 1] == r;
    }
  }

  // The cancel takes the client's order, wherever it rests, and no other.
  ghost predicate Taken(queue: seq<Resting>, after: seq<Resting>, client: nat) {
    forall r :: r in after <==> r in queue && r.clientOrderId != client
  }

  lemma RemovedIsTaken(queue: seq<Resting>, client: nat)
    requires Distinct(queue)
    ensures var k := IndexOf(queue, client);
            if k < |queue| then Taken(queue, Without(queue, k), client) else Taken(queue, queue, client)
  {
    hide Without, Distinct;
    var k := IndexOf(queue, client);
    if k < |queue| {
      WithoutHolds(queue, k);
    } else {
      assert forall r | r in queue :: r.clientOrderId in Clients(queue);
    }
  }

  // One report answers a cancel: of the client's order with its whole remainder, which is then gone, or a
  // rejection with everything as it was.
  lemma CancelIsAnswered(m: Venue, req: GatewayRequest)
    requires Inv(m) && req.requestType == CancelOrder
    ensures var done := Process(m, req);
            && |done.log| == 1
            && done.venue.nextId == m.nextId
            && Taken(m.bids, done.venue.bids, req.clientOrderId)
            && Taken(m.asks, done.venue.asks, req.clientOrderId)
            && (forall r | (r in m.bids || r in m.asks) && r.clientOrderId == req.clientOrderId ::
                  && For(done.log[0], r.clientOrderId, r.exchangeOrderId, r.symbol, r.side)
                  && Answers(done.log[0], ExecType.CancelAck, Canceled, NoReason, r.remaining, req.sendTimestamp))
            && ((forall r | r in m.bids || r in m.asks :: r.clientOrderId != req.clientOrderId) ==>
                  && done.venue == m
                  && For(done.log[0], req.clientOrderId, req.exchangeOrderId, req.symbol, req.side)
                  && Answers(done.log[0], ExecType.CancelReject, Rejected, UnknownOrder, 0, req.sendTimestamp))
  {
    RemovedIsTaken(m.bids, req.clientOrderId);
    RemovedIsTaken(m.asks, req.clientOrderId);
    hide Without, Taken;
    OnlyOneIsTheClients(m, req.clientOrderId);
    hide Inv;
  }

  lemma OnlyOneIsTheClients(m: Venue, client: nat)
    requires Inv(m)
    ensures var b, a := IndexOf(m.bids, client), IndexOf(m.asks, client);
            && (b < |m.bids| ==> a == |m.asks|)
            && (forall r | r in m.bids && r.clientOrderId == client :: b < |m.bids| && r == m.bids[b])
            && (forall r | r in m.asks && r.clientOrderId == client :: a < |m.asks| && r == m.asks[a])
  {
  }

  // ----- What is left -----

  // What rests of an accepted order with `left` to go.
  predicate Rests(r: Resting, req: GatewayRequest, id: nat, left: int) {
    && r.clientOrderId == req.clientOrderId && r.exchangeOrderId == id
    && r.symbol == req.symbol && r.side == req.side && r.price == req.price
    && r.filled + r.remaining == req.quantity && r.remaining == left && r.arrival == req.sendTimestamp
  }

  lemma EnqueueAdds(side: Side, queue: seq<Resting>, order: Resting)
    ensures forall r :: r in Enqueue(side, queue, order) <==> r in queue || r == order
  {
    var k := Rank(side, queue, order.price);
    assert queue == queue[..k] + queue[k..];
  }

  // The order's own side gains what is left of it after everything that crosses, and nothing else.
  lemma RemainderRests(m: Venue, req: GatewayRequest)
    requires Inv(m) && ValidNew(m, req)
    ensures var own, own' := m.On(req.side), Process(m, req).venue.On(req.side);
            var crossing := CrossingDepth(m.On(Opposite(req.side)), req.side, req.price);
            if req.quantity <= crossing then own' == own
            else forall r :: r in own' <==> r in own || Rests(r, req, m.nextId, req.quantity - crossing)
  {
    hide Inv, Process, ProcessNew, Hits, TradeReports, Leftover, CrossingDepth, Enqueue, ValidNew, AckReport;
    ValidIsProcessed(m, req);
    NewOrderIsGreedy(m, req);
    var left := req.quantity - CrossingDepth(m.On(Opposite(req.side)), req.side, req.price);
    EnqueueAdds(req.side, m.On(req.side), RestingOrder(req, m.nextId, left));
  }

  // ----- Money -----

  // The money that changes hands on one side of a log.
  function Money(log: seq<ExecutionReport>, side: Side): int {
    if log == [] then 0
    else (if log[0].IsFill() && log[0].side == side then log[0].lastPrice * log[0].lastQuantity else 0)
         + Money(log[1..], side)
  }

  lemma {:induction false} MoneyAdds(a: seq<ExecutionReport>, b: seq<ExecutionReport>, side: Side)
    ensures Money(a + b, side) == Money(a, side) + Money(b, side)
  {
    if a == [] {
      assert a + b == b;
    } else {
      assert (a + b)[1..] == a[1..] + b;
      MoneyAdds(a[1..], b, side);
    }
  }

  lemma MoneyOfPair(pair: seq<ExecutionReport>)
    requires |pair| == 2 && pair[0].IsFill() && pair[1].IsFill() && pair[0].side == Opposite(pair[1].side)
    requires pair[0].lastPrice == pair[1].lastPrice && pair[0].lastQuantity == pair[1].lastQuantity
    ensures Money(pair, Buy) == Money(pair, Sell)
  {
    assert pair[1..][1..] == [];
    assert forall side ::
        Money(pair[1..], side) == if pair[1].side == side then pair[1].lastPrice * pair[1].lastQuantity else 0;
  }

  lemma {:induction false} PairsAreEven(log: seq<ExecutionReport>, h: nat)
    requires |log| == 1 + 2 * h && !log[0].IsFill()
    requires forall i | 0 <= i < h :: Money(log[1 + 2 * i..3 + 2 * i], Buy) == Money(log[1 + 2 * i..3 + 2 * i], Sell)
    ensures Money(log, Buy) == Money(log, Sell)
  {
    if h == 0 {
      assert log[1..] == [];
    } else {
      var front := log[..2 * h - 1];
      var last := log[1 + 2 * (h - 1)..3 + 2 * (h - 1)];
      assert log == front + last;
      assert forall i | 0 <= i < h - 1 :: front[1 + 2 * i..3 + 2 * i] == log[1 + 2 * i..3 + 2 * i];
      PairsAreEven(front, h - 1);
      MoneyAdds(front, last, Buy);
      MoneyAdds(front, last, Sell);
    }
  }

  lemma HitIsEven(m: Venue, req: GatewayRequest, log: seq<ExecutionReport>, i: nat)
    requires i < |m.On(Opposite(req.side))| && HitReported(m, req, log, i)
    requires m.On(Opposite(req.side))[i].side == Opposite(req.side)
    ensures Money(log[1 + 2 * i..3 + 2 * i], Buy) == Money(log[1 + 2 * i..3 + 2 * i], Sell)
  {
    MoneyOfPair(log[1 + 2 * i..3 + 2 * i]);
    hide Money, Share, Depth;
  }

  lemma OppositeSides(m: Venue, side: Side)
    requires Inv(m)
    ensures forall i | 0 <= i < |m.On(side)| :: m.On(side)[i].side == side
  {
  }

  lemma LoneAnswerIsFree(log: seq<ExecutionReport>)
    requires |log| == 1 && !log[0].IsFill()
    ensures Money(log, Buy) == Money(log, Sell) == 0
  {
  }

  // In the answer to any request, buyers pay what sellers receive.
  lemma LogsAreEvenInMoney(m: Venue, req: GatewayRequest)
    requires Inv(m)
    ensures var log := Process(m, req).log; Money(log, Buy) == Money(log, Sell)
  {
    hide Inv, Process, Money, HitReported, Hits;
    var log := Process(m, req).log;
    if req.requestType == NewOrder && ValidNew(m, req) {
      var queue := m.On(Opposite(req.side));
      var h := Hits(queue, req.side, req.price, req.quantity);
      TradesAtRestingPrices(m, req);
      OppositeSides(m, Opposite(req.side));
      forall i | 0 <= i < h
        ensures Money(log[1 + 2 * i..3 + 2 * i], Buy) == Money(log[1 + 2 * i..3 + 2 * i], Sell)
      {
        HitIsEven(m, req, log, i);
      }
      PairsAreEven(log, h);
    } else if req.requestType == NewOrder {
      RefusedIsAlone(m, req);
      LoneAnswerIsFree(log);
    } else {
      CancelIsAlone(m, req);
      LoneAnswerIsFree(log);
    }
  }

  lemma RefusedIsAlone(m: Venue, req: GatewayRequest)
    requires req.requestType == NewOrder && !ValidNew(m, req)
    ensures |Process(m, req).log| == 1 && !Process(m, req).log[0].IsFill()
  {
  }

  lemma CancelIsAlone(m: Venue, req: GatewayRequest)
    requires req.requestType == CancelOrder
    ensures |Process(m, req).log| == 1 && !Process(m, req).log[0].IsFill()
  {
  }

  // ----- Whole runs -----

  // `r` is what is left of the order that `req` placed.
  predicate Placed(r: Resting, req: GatewayRequest) {
    && req.requestType == NewOrder
    && r.clientOrderId == req.clientOrderId && r.symbol == req.symbol && r.side == req.side && r.price == req.price
    && r.filled + r.remaining == req.quantity && r.arrival == req.sendTimestamp
  }

  // The fill `r` is one the order that `req` placed agreed to.
  predicate Honors(r: ExecutionReport, req: GatewayRequest) {
    && req.requestType == NewOrder
    && r.clientOrderId == req.clientOrderId && r.symbol == req.symbol && r.side == req.side
    && Affords(req, r.lastPrice)
    && 0 < r.lastQuantity <= r.cumulativeQuantity
    && r.cumulativeQuantity + r.leavesQuantity == req.quantity
    && (r.execType == ExecType.Fill <==> r.leavesQuantity == 0)
  }

  ghost predicate AllPlaced(queue: seq<Resting>, requests: seq<GatewayRequest>) {
    forall r | r in queue :: exists k :: 0 <= k < |requests| && Placed(r, requests[k])
  }

  ghost predicate AllHonored(log: seq<ExecutionReport>, requests: seq<GatewayRequest>) {
    forall i | 0 <= i < |log| && log[i].IsFill() :: exists k :: 0 <= k < |requests| && Honors(log[i], requests[k])
  }

  lemma PlacedMore(queue: seq<Resting>, requests: seq<GatewayRequest>, req: GatewayRequest)
    requires AllPlaced(queue, requests)
    ensures AllPlaced(queue, requests + [req])
  {
    forall r | r in queue ensures exists k :: 0 <= k < |requests + [req]| && Placed(r, (requests + [req])[k]) {
      var k :| 0 <= k < |requests| && Placed(r, requests[k]);
      assert (requests + [req])[k] == requests[k];
    }
  }

  lemma LeftoverIsPlaced(queue: seq<Resting>, side: Side, limit: int, quantity: int, requests: seq<GatewayRequest>)
    requires AllPlaced(queue, requests)
    ensures AllPlaced(Leftover(queue, side, limit, quantity), requests)
  {
    var after, h := Leftover(queue, side, limit, quantity), Hits(queue, side, limit, quantity);
    forall r | r in after ensures exists k :: 0 <= k < |requests| && Placed(r, requests[k]) {
      if r in queue[h..] {
        assert r in queue;
      } else {
        var before := queue[h - 1];
        assert before in queue;
        var k :| 0 <= k < |requests| && Placed(before, requests[k]);
        assert Placed(r, requests[k]);
      }
    }
  }

  lemma RestIsPlaced(own: seq<Resting>, own': seq<Resting>, requests: seq<GatewayRequest>, req: GatewayRequest,
                     id: nat, left: int)
    requires AllPlaced(own, requests) && req.requestType == NewOrder
    requires own' == own || forall r :: r in own' <==> r in own || Rests(r, req, id, left)
    ensures AllPlaced(own', requests + [req])
  {
    var more := requests + [req];
    PlacedMore(own, requests, req);
    forall r | r in own' ensures exists k :: 0 <= k < |more| && Placed(r, more[k]) {
      if r !in own {
        assert Placed(r, more[|requests|]);
      }
    }
  }

  ghost predicate VenuePlaced(m: Venue, requests: seq<GatewayRequest>) {
    AllPlaced(m.bids, requests) && AllPlaced(m.asks, requests)
  }

  lemma NewOrderStaysPlaced(m: Venue, req: GatewayRequest, requests: seq<GatewayRequest>)
    requires Inv(m) && ValidNew(m, req) && VenuePlaced(m, requests)
    ensures VenuePlaced(Process(m, req).venue, requests + [req])
  {
    hide Inv, Process, ProcessNew, Hits, TradeReports, Leftover, CrossingDepth, Enqueue, AckReport, AllPlaced,
         RestingOrder, Rests;
    ValidIsProcessed(m, req);
    NewOrderIsGreedy(m, req);
    RemainderRests(m, req);
    var queue, done := m.On(Opposite(req.side)), Process(m, req).venue;
    LeftoverIsPlaced(queue, req.side, req.price, req.quantity, requests);
    PlacedMore(done.On(Opposite(req.side)), requests, req);
    RestIsPlaced(m.On(req.side), done.On(req.side), requests, req, m.nextId,
                 req.quantity - CrossingDepth(queue, req.side, req.price));
  }

  lemma TakenStaysPlaced(queue: seq<Resting>, after: seq<Resting>, client: nat, requests: seq<GatewayRequest>)
    requires AllPlaced(queue, requests) && Taken(queue, after, client)
    ensures AllPlaced(after, requests)
  {
  }

  lemma RequestStaysPlaced(m: Venue, req: GatewayRequest, requests: seq<GatewayRequest>)
    requires Inv(m) && VenuePlaced(m, requests)
    ensures VenuePlaced(Process(m, req).venue, requests + [req])
  {
    hide Inv, Process, AllPlaced, Taken, Answers, ValidNew;
    if req.requestType == NewOrder && ValidNew(m, req) {
      NewOrderStaysPlaced(m, req, requests);
    } else {
      if req.requestType == NewOrder {
        RefusedKeeps(m, req);
      } else {
        CancelIsAnswered(m, req);
        TakenStaysPlaced(m.bids, Process(m, req).venue.bids, req.clientOrderId, requests);
        TakenStaysPlaced(m.asks, Process(m, req).venue.asks, req.clientOrderId, requests);
      }
      PlacedMore(Process(m, req).venue.bids, requests, req);
      PlacedMore(Process(m, req).venue.asks, requests, req);
    }
  }

  lemma RefusedKeeps(m: Venue, req: GatewayRequest)
    requires req.requestType == NewOrder && !ValidNew(m, req)
    ensures Process(m, req).venue == m
  {
  }

  // Both reports of a hit are of fills their orders agreed to.
  lemma HitIsHonored(m: Venue, req: GatewayRequest, requests: seq<GatewayRequest>, log: seq<ExecutionReport>, i: nat)
    requires Inv(m) && VenuePlaced(m, requests) && i < |m.On(Opposite(req.side))| && HitReported(m, req, log, i)
    requires req.requestType == NewOrder
    ensures Honors(log[2 + 2 * i], req)
    ensures exists k :: 0 <= k < |requests| && Honors(log[1 + 2 * i], requests[k])
  {
    var queue := m.On(Opposite(req.side));
    OppositeSides(m, Opposite(req.side));
    OppositeIsSorted(m, req.side);
    DepthIsPositive(queue[..i]);
    FilledIsCounted(m, Opposite(req.side));
    hide Inv, Share, Depth, Sorted;
    assert queue[i] in queue;
    var k :| 0 <= k < |requests| && Placed(queue[i], requests[k]);
    assert Honors(log[1 + 2 * i], requests[k]);
  }

  lemma FilledIsCounted(m: Venue, side: Side)
    requires Inv(m)
    ensures forall i | 0 <= i < |m.On(side)| :: m.On(side)[i].filled >= 0
  {
  }

  lemma NewOrderIsHonored(m: Venue, req: GatewayRequest, requests: seq<GatewayRequest>)
    requires Inv(m) && VenuePlaced(m, requests) && ValidNew(m, req)
    ensures AllHonored(Process(m, req).log, requests + [req])
  {
    hide Inv, Process, Hits, HitReported, VenuePlaced, Honors, For;
    var log, more := Process(m, req).log, requests + [req];
    TradesAtRestingPrices(m, req);
    forall p | 0 <= p < |log| && log[p].IsFill() ensures exists k :: 0 <= k < |more| && Honors(log[p], more[k]) {
      var i := (p - 1) / 2;
      assert p == if p % 2 == 0 then 2 + 2 * i else 1 + 2 * i;
      HitIsHonored(m, req, requests, log, i);
      if p % 2 == 0 {
        assert Honors(log[p], more[|requests|]);
      } else {
        var k :| 0 <= k < |requests| && Honors(log[p], requests[k]);
        assert more[k] == requests[k];
      }
    }
  }

  lemma RequestIsHonored(m: Venue, req: GatewayRequest, requests: seq<GatewayRequest>)
    requires Inv(m) && VenuePlaced(m, requests)
    ensures AllHonored(Process(m, req).log, requests + [req])
  {
    hide Inv, Process, VenuePlaced, Honors;
    if req.requestType == NewOrder && ValidNew(m, req) {
      NewOrderIsHonored(m, req, requests);
    } else if req.requestType == NewOrder {
      RefusedIsAlone(m, req);
    } else {
      CancelIsAlone(m, req);
    }
  }

  lemma HonoredMore(log: seq<ExecutionReport>, a: seq<GatewayRequest>, b: seq<GatewayRequest>)
    requires AllHonored(log, a)
    ensures AllHonored(log, a + b)
  {
    hide Honors;
    forall i | 0 <= i < |log| && log[i].IsFill() ensures exists k :: 0 <= k < |a + b| && Honors(log[i], (a + b)[k]) {
      var k :| 0 <= k < |a| && Honors(log[i], a[k]);
      assert (a + b)[k] == a[k];
    }
  }

  lemma HonoredJoin(a: seq<ExecutionReport>, b: seq<ExecutionReport>, requests: seq<GatewayRequest>)
    requires AllHonored(a, requests) && AllHonored(b, requests)
    ensures AllHonored(a + b, requests)
  {
    hide Honors;
    forall i | 0 <= i < |a + b| && (a + b)[i].IsFill()
      ensures exists k :: 0 <= k < |requests| && Honors((a + b)[i], requests[k])
    {
      assert (a + b)[i] == if i < |a| then a[i] else b[i - |a|];
    }
  }

  // Over every run of the exchange: every fill is of an order some request placed, on its symbol and side, at a
  // price no worse than its limit and for no more than its quantity; what rests is what its request placed, at its
  // own price; and buyers pay what sellers receive.
  lemma {:induction false} RunsHonorLimits(m: Venue, past: seq<GatewayRequest>, requests: seq<GatewayRequest>)
    requires Inv(m) && VenuePlaced(m, past)
    ensures var done := RunRequests(m, requests);
            && VenuePlaced(done.venue, past + requests)
            && AllHonored(done.log, past + requests)
            && Money(done.log, Buy) == Money(done.log, Sell)
    decreases |requests|
  {
    hide Inv, Process, VenuePlaced, AllHonored, Money;
    if requests == [] {
      assert past + [] == past;
      EmptyRun(past);
    } else {
      var req, later := requests[0], requests[1..];
      var first := Process(m, req);
      ProcessKeepsInv(m, req);
      RequestStaysPlaced(m, req, past);
      RequestIsHonored(m, req, past);
      LogsAreEvenInMoney(m, req);
      RunsHonorLimits(first.venue, past + [req], later);
      var rest := RunRequests(first.venue, later);
      assert past + [req] + later == past + requests;
      HonoredMore(first.log, past + [req], later);
      HonoredJoin(first.log, rest.log, past + requests);
      MoneyAdds(first.log, rest.log, Buy);
      MoneyAdds(first.log, rest.log, Sell);
    }
  }

  lemma EmptyRun(requests: seq<GatewayRequest>)
    ensures AllHonored([], requests) && Money([], Buy) == Money([], Sell)
  {
  }
}
