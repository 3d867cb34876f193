// Three runs that lose a genuine fill because another report has its key.
module LostFills {
  import opened Types
  import opened Matching
  import opened ReportStream
  import opened ReportBatch
  import opened OrderLifecycle
  import opened OrderManagement
  import opened ReportKeys
  import opened ReportHandler
  import opened ClosedLoop
  import opened Mirror
  import opened MirroredRuns
  import opened OneSidedRuns
  import opened StreamKeys
  import opened KeyLimits
  import opened Words

  // ----- A lone bid, filled by sales -----

  function Bid(total: int): Action {
    Place("A", Buy, 1, total, 0)
  }

  function Sale(quantity: int): Action {
    Place("A", Sell, 1, quantity, 0)
  }

  // The bid of `total` rests alone, `filled` of it traded.
  ghost predicate Selling(w: World, total: int, filled: int) {
    && w.venue.asks == []
    && |w.venue.bids| == 1
    && 2 <= w.handler.oms.nextId
    && 1 in w.handler.oms.orders
    && var r := w.venue.bids[0];
       && r.clientOrderId == r.exchangeOrderId == 1 && r.symbol == "A" && r.side == Buy && r.price == 1
       && r.filled == filled && r.remaining == total - filled
  }

  function FilledOne(w: World): int
    requires 1 in w.handler.oms.orders
  {
    w.handler.oms.orders[1].filledQuantity
  }

  // The report of the bid's fill of `k` after `filled`.
  predicate Filling(r: ExecutionReport, total: int, filled: int, k: int) {
    && r.execType == ExecType.PartialFill && r.clientOrderId == r.exchangeOrderId == 1
    && r.lastQuantity == k && r.cumulativeQuantity == filled + k && r.leavesQuantity == total - filled - k
  }

  // A report about another order does not touch order 1.
  lemma OtherReportKeeps(h: HandlerState, r: ExecutionReport)
    requires 1 in h.oms.orders && r.clientOrderId != 1
    ensures var h' := Handle(h, r).0;
            && 1 in h'.oms.orders && h'.oms.orders[1] == h.oms.orders[1]
            && h.seen <= h'.seen
  {
    hide ReportKey, Apply, PositionsAfter;
  }

  // A fill adds at most its quantity, and only the first of its key adds anything.
  lemma FillAddsOnce(h: HandlerState, r: ExecutionReport)
    requires 1 in h.oms.orders && r.clientOrderId == 1 && r.execType == ExecType.PartialFill && r.lastQuantity > 0
    ensures var h' := Handle(h, r).0;
            && 1 in h'.oms.orders
            && h.seen <= h'.seen
            && h'.oms.orders[1].filledQuantity <= h.oms.orders[1].filledQuantity + r.lastQuantity
            && (ReportKey(r) in h.seen ==> h'.oms.orders[1].filledQuantity == h.oms.orders[1].filledQuantity)
            && (h'.oms.orders[1].filledQuantity != h.oms.orders[1].filledQuantity ==> ReportKey(r) in h'.seen)
  {
    hide ReportKey, PositionsAfter;
  }

  lemma ThreeHandled(h: HandlerState, log: seq<ExecutionReport>)
    requires |log| == 3
    ensures HandleAll(h, Kept(log)) == Handle(Handle(Handle(h, log[0]).0, log[1]).0, log[2]).0
  {
    hide Handle, HandleAll;
    assert Kept(log) == log;
    var h1 := Handle(h, log[0]).0;
    FirstHandled(h, log);
    FirstHandled(h1, log[1..]);
    FirstHandled(Handle(h1, log[1]).0, log[2..]);
    assert log[1..][1..] == log[2..] && log[2..][1..] == [];
    NoneHandled(Handle(Handle(h1, log[1]).0, log[2]).0);
  }

  lemma FirstHandled(h: HandlerState, log: seq<ExecutionReport>)
    requires log != []
    ensures HandleAll(h, log) == HandleAll(Handle(h, log[0]).0, log[1..])
  {
  }

  lemma NoneHandled(h: HandlerState)
    ensures HandleAll(h, []) == h
  {
  }

  // What a sale may do to the manager's record of the bid.
  ghost predicate Advances(w: World, w': World, total: int, filled: int, k: int) {
    && 1 in w.handler.oms.orders && 1 in w'.handler.oms.orders
    && w.handler.seen <= w'.handler.seen
    && FilledOne(w') <= FilledOne(w) + k
    && exists r :: Filling(r, total, filled, k)
         && (ReportKey(r) in w.handler.seen ==> FilledOne(w') == FilledOne(w))
         && (FilledOne(w') != FilledOne(w) ==> ReportKey(r) in w'.handler.seen)
  }

  lemma SaleIsHandled(h: HandlerState, log: seq<ExecutionReport>, total: int, filled: int, k: int)
    requires 1 in h.oms.orders && |log| == 3 && k > 0
    requires log[0].clientOrderId != 1 && log[2].clientOrderId != 1 && Filling(log[1], total, filled, k)
    ensures var h' := HandleAll(h, Kept(log));
            && 1 in h'.oms.orders && h.seen <= h'.seen
            && h'.oms.orders[1].filledQuantity <= h.oms.orders[1].filledQuantity + k
            && (ReportKey(log[1]) in h.seen ==> h'.oms.orders[1].filledQuantity == h.oms.orders[1].filledQuantity)
            && (h'.oms.orders[1].filledQuantity != h.oms.orders[1].filledQuantity ==> ReportKey(log[1]) in h'.seen)
  {
    hide Handle, ReportKey, HandleAll, Kept;
    ThreeHandled(h, log);
    var h1 := Handle(h, log[0]).0;
    var h2 := Handle(h1, log[1]).0;
    OtherReportKeeps(h, log[0]);
    FillAddsOnce(h1, log[1]);
    OtherReportKeeps(h2, log[2]);
  }

  lemma SellingIsFresh(w: World, total: int, filled: int)
    requires Selling(w, total, filled)
    ensures FreshNext(w)
  {
  }

  lemma PreparedSale(w: World, total: int, filled: int, k: int)
    requires Selling(w, total, filled)
    ensures var h := PreparedHandler(w, Sale(k));
            && 1 in h.oms.orders && h.oms.orders[1] == w.handler.oms.orders[1] && h.seen == w.handler.seen
            && CancelsAsAsked(w, Sale(k))
  {
  }

  lemma SaleAdvances(w: World, total: int, filled: int, k: int)
    requires Selling(w, total, filled) && 0 < k < total - filled
    ensures Fits(w, Sale(k)) && CancelsAsAsked(w, Sale(k))
    ensures Selling(Step(w, Sale(k)), total, filled + k) && Advances(w, Step(w, Sale(k)), total, filled, k)
  {
    hide Process, Step, Sent, LogOf, HandleAll, Kept, ReportKey, Prepared, FreshNext;
    SellingIsFresh(w, total, filled);
    PlaceCarriesOrder(w, Sale(k));
    var req := Sent(w, Sale(k)).request;
    SaleIsValid(w, total, filled, req);
    SaleIsAnswered(w.venue, req, k);
    SentStep(w, Sale(k));
    PreparedSale(w, total, filled, k);
    ManagerIdsAdvance(w, Sale(k));
    SaleIsHandled(PreparedHandler(w, Sale(k)), LogOf(w, Sale(k)), total, filled, k);
    assert Filling(LogOf(w, Sale(k))[1], total, filled, k);
  }

  lemma SaleIsValid(w: World, total: int, filled: int, req: GatewayRequest)
    requires Selling(w, total, filled) && req.requestType == NewOrder && req.orderType == Limit
    requires req.clientOrderId == w.handler.oms.nextId && req.symbol == "A" && req.price == 1 && req.quantity > 0
    ensures ValidNew(w.venue, req)
  {
  }

  lemma BidStartsSelling(total: int)
    requires total > 0
    ensures Fits(START, Bid(total)) && CancelsAsAsked(START, Bid(total))
    ensures var w := Step(START, Bid(total)); Selling(w, total, 0) && FilledOne(w) == 0
  {
    hide Step, LogOf, Sent, Fits, Mirrored, FreshNext;
    StartIsMirrored();
    MirroredIsFresh(START);
    LonePlaceRests(START, Bid(total));
    ManagerIdsAdvance(START, Bid(total));
    PlaceCarriesOrder(START, Bid(total));
    BidIsRecorded(total);
  }

  lemma BidIsRecorded(total: int)
    requires total > 0
    ensures var w := Step(START, Bid(total));
            1 in w.handler.oms.orders && w.handler.oms.orders[1].filledQuantity == 0
  {
    hide Step, LogOf, Sent, Handle, HandleAll, Mirrored, FreshNext, Process, Prepared;
    StartIsMirrored();
    MirroredIsFresh(START);
    LonePlaceRests(START, Bid(total));
    SentStep(START, Bid(total));
    PreparedIsUnfilled(total);
    LoneReportHandled(PreparedHandler(START, Bid(total)), LogOf(START, Bid(total)));
    AckFillsNothing(PreparedHandler(START, Bid(total)), LogOf(START, Bid(total))[0]);
  }

  lemma PreparedIsUnfilled(total: int)
    requires total > 0
    ensures var h := PreparedHandler(START, Bid(total));
            1 in h.oms.orders && h.oms.orders[1].filledQuantity == 0
  {
  }

  lemma AckFillsNothing(h: HandlerState, r: ExecutionReport)
    requires 1 in h.oms.orders && r.execType == ExecType.Ack && r.clientOrderId == 1
    ensures var h' := Handle(h, r).0;
            1 in h'.oms.orders && h'.oms.orders[1].filledQuantity == h.oms.orders[1].filledQuantity
  {
    hide ReportKey;
  }

  lemma LoneIsLive(m: Venue)
    requires m.asks == [] && |m.bids| == 1
    ensures var r := m.bids[0]; r.clientOrderId in TableOf(m).live && TableOf(m).live[r.clientOrderId] == LiveOf(r)
  {
    assert m.bids[1..] == [];
  }

  lemma RecordMustMatch(w: World)
    requires 1 in w.handler.oms.orders && 1 in TableOf(w.venue).live
    requires FilledOne(w) != TableOf(w.venue).live[1].filled
    ensures !Mirrored(w)
  {
    hide TableOf, Inv;
  }

  lemma SellingIsNoImage(w: World, total: int, filled: int)
    requires Selling(w, total, filled) && FilledOne(w) < filled
    ensures !Mirrored(w)
  {
    hide Image, Inv;
    LoneIsLive(w.venue);
    RecordMustMatch(w);
  }

  // ----- A bid of 65541, filled 1, 1 and 65537 -----

  // The record falls behind for good: the third fill has the key of the second.
  lemma ThirdFillIsLost(w: World, w1: World, w2: World, w3: World)
    requires Advances(w, w1, 65541, 0, 1) && Advances(w1, w2, 65541, 1, 1) && Advances(w2, w3, 65541, 2, 65537)
    requires FilledOne(w) == 0
    ensures FilledOne(w3) <= 65538
  {
    hide ReportKey;
    var r :| Filling(r, 65541, 1, 1)
      && (ReportKey(r) in w1.handler.seen ==> FilledOne(w2) == FilledOne(w1))
      && (FilledOne(w2) != FilledOne(w1) ==> ReportKey(r) in w2.handler.seen);
    var s :| Filling(s, 65541, 2, 65537)
      && (ReportKey(s) in w2.handler.seen ==> FilledOne(w3) == FilledOne(w2))
      && (FilledOne(w3) != FilledOne(w2) ==> ReportKey(s) in w3.handler.seen);
    PartialCollides(r, s);
  }

  function LargeRun(): seq<Action> {
    [Bid(65541)] + ([Sale(1)] + ([Sale(1)] + [Sale(65537)]))
  }

  // Four orders, one of them of 65541, and the manager never learns of a fill of 65537.
  lemma LargeRunBreaks()
    ensures Disciplined(START, LargeRun()) && !Mirrored(Steps(START, LargeRun()))
  {
    hide Step, Selling, Advances, Fits, CancelsAsAsked, Mirrored, FilledOne;
    var w := Step(START, Bid(65541));
    var w1 := Step(w, Sale(1));
    var w2 := Step(w1, Sale(1));
    var w3 := Step(w2, Sale(65537));
    BidStartsSelling(65541);
    SaleAdvances(w, 65541, 0, 1);
    SaleAdvances(w1, 65541, 1, 1);
    SaleAdvances(w2, 65541, 2, 65537);
    ThirdFillIsLost(w, w1, w2, w3);
    SellingIsNoImage(w3, 65541, 65539);
    StepsFirst(START, Bid(65541), [Sale(1)] + ([Sale(1)] + [Sale(65537)]));
    StepsFirst(w, Sale(1), [Sale(1)] + [Sale(65537)]);
    StepsFirst(w1, Sale(1), [Sale(65537)]);
    OneStep(w2, Sale(65537));
  }

  // ----- A bid of 196608, filled 131071 and 65535 -----

  lemma SecondFillIsLost(w: World, w1: World, w2: World)
    requires Advances(w, w1, 196608, 0, 131071) && Advances(w1, w2, 196608, 131071, 65535)
    requires FilledOne(w) == 0
    ensures FilledOne(w2) <= 131071
  {
    hide ReportKey;
    var r :| Filling(r, 196608, 0, 131071)
      && (ReportKey(r) in w.handler.seen ==> FilledOne(w1) == FilledOne(w))
      && (FilledOne(w1) != FilledOne(w) ==> ReportKey(r) in w1.handler.seen);
    var s :| Filling(s, 196608, 131071, 65535)
      && (ReportKey(s) in w1.handler.seen ==> FilledOne(w2) == FilledOne(w1))
      && (FilledOne(w2) != FilledOne(w1) ==> ReportKey(s) in w2.handler.seen);
    FirstTwoCollide(r, s);
  }

  function HugeRun(): seq<Action> {
    [Bid(196608)] + ([Sale(131071)] + [Sale(65535)])
  }

  // Three orders, one of them of 196608, and the manager never learns of a fill of 65535.
  lemma HugeRunBreaks()
    ensures Disciplined(START, HugeRun()) && !Mirrored(Steps(START, HugeRun()))
  {
    hide Step, Selling, Advances, Fits, CancelsAsAsked, Mirrored, FilledOne;
    var w := Step(START, Bid(196608));
    var w1 := Step(w, Sale(131071));
    var w2 := Step(w1, Sale(65535));
    BidStartsSelling(196608);
    SaleAdvances(w, 196608, 0, 131071);
    SaleAdvances(w1, 196608, 131071, 65535);
    SecondFillIsLost(w, w1, w2);
    SellingIsNoImage(w2, 196608, 196606);
    StepsFirst(START, Bid(196608), [Sale(131071)] + [Sale(65535)]);
    StepsFirst(w, Sale(131071), [Sale(65535)]);
    OneStep(w1, Sale(65535));
  }

  // ----- Order 257, of 65537, filled 1 and 65536 -----

  const SELL_ONE := Place("A", Sell, 1, 1, 0)
  const SELL_MANY := Place("A", Sell, 1, 65536, 0)
  const ASIDE := Place("A", Sell, 2, 1, 0)
  const BUY_ALL := Place("A", Buy, 1, 65537, 0)

  // Two orders that together make up the incoming one are first in line.
  predicate FrontReady(asks: seq<Resting>) {
    && |asks| >= 2
    && asks[0].clientOrderId == 1 && asks[0].price == 1 && asks[0].remaining == 1
    && asks[1].clientOrderId == 2 && asks[1].price == 1 && asks[1].remaining == 65536
  }

  lemma AsideQueuesBehind(asks: seq<Resting>, order: Resting)
    requires FrontReady(asks) && order.price == 2
    ensures FrontReady(Enqueue(Sell, asks, order))
  {
    assert Rank(Sell, asks, 2) == 1 + Rank(Sell, asks[1..], 2) == 2 + Rank(Sell, asks[1..][1..], 2);
  }

  lemma FrontForms(a: Resting, b: Resting)
    requires a.clientOrderId == 1 && a.price == 1 && a.remaining == 1
    requires b.clientOrderId == 2 && b.price == 1 && b.remaining == 65536
    ensures Enqueue(Sell, [], a) == [a] && FrontReady(Enqueue(Sell, [a], b))
  {
    assert [a][1..] == [];
    assert Rank(Sell, [a], 1) == 1 + Rank(Sell, [], 1) == 1;
  }

  // Nothing but acknowledgements with ids in step was ever taken.
  ghost predicate OnlyAcks(w: World) {
    forall key | key in w.handler.seen :: IsAckKey(key, w.handler.oms.nextId)
  }

  ghost predicate IsAckKey(key: bv64, next: nat) {
    exists id: nat, quantity: int :: id < next && key == AckKey(id, quantity)
  }

  ghost function AckKey(id: nat, quantity: int): bv64 {
    ReportKey(ReportOf(id, ExecType.Ack, 0, 0, quantity))
  }

  lemma AckHasKey(r: ExecutionReport, a: Action)
    requires a.Place? && Acknowledges(r, r.clientOrderId, r.clientOrderId, a)
    ensures ReportKey(r) == AckKey(r.clientOrderId, a.quantity)
  {
    hide Word, Mix;
  }

  ghost predicate Lining(w: World) {
    && OnTrack(Few, w) && OnlyAcks(w)
    && w.venue.bids == [] && w.handler.oms.nextId == w.venue.nextId
  }

  lemma AckStays(w: World, w': World, r: ExecutionReport, a: Action)
    requires OnlyAcks(w) && a.Place? && Acknowledges(r, w.handler.oms.nextId, w.handler.oms.nextId, a)
    requires w'.handler.seen == w.handler.seen + {ReportKey(r)}
    requires w'.handler.oms.nextId == w.handler.oms.nextId + 1
    ensures OnlyAcks(w')
  {
    hide ReportKey, AckKey;
    AckHasKey(r, a);
    forall key | key in w'.handler.seen
      ensures IsAckKey(key, w'.handler.oms.nextId)
    {
      if key in w.handler.seen {
        var id: nat, quantity: int :| id < w.handler.oms.nextId && key == AckKey(id, quantity);
      } else {
        assert key == AckKey(w.handler.oms.nextId, a.quantity);
      }
    }
  }

  lemma SaleLinesUp(w: World, a: Action)
    requires Lining(w) && a.Place? && Sendable(a) && a.side == Sell && a.quantity <= 65540
    requires w.handler.oms.nextId <= 256
    ensures var w' := Step(w, a);
            && Fits(w, a) && CancelsAsAsked(w, a)
            && Lining(w') && w'.handler.oms.nextId == w.handler.oms.nextId + 1
            && w.handler.seen <= w'.handler.seen
            && AckKey(w.handler.oms.nextId, a.quantity) in w'.handler.seen
            && exists order: Resting ::
                 && order.clientOrderId == w.handler.oms.nextId
                 && order.price == a.price && order.remaining == a.quantity
                 && w'.venue.asks == Enqueue(Sell, w.venue.asks, order)
  {
    hide OnTrack, OnlyAcks, Step, LogOf, Sent, Enqueue, ReportKey, AckKey, Fits, Mirrored;
    TrackIsMirrored(Few, w);
    MirroredIsFresh(w);
    LonePlaceRests(w, a);
    PlaceCarriesOrder(w, a);
    LonePlaceStaysOnTrack(Few, w, a);
    AckStays(w, Step(w, a), LogOf(w, a)[0], a);
    AckHasKey(LogOf(w, a)[0], a);
  }

  lemma {:induction false} AsidesLineUp(w: World, n: nat)
    requires Lining(w) && FrontReady(w.venue.asks) && w.handler.oms.nextId + n <= 257
    ensures Disciplined(w, Repeated(ASIDE, n))
    ensures var w' := Steps(w, Repeated(ASIDE, n));
            && Lining(w') && FrontReady(w'.venue.asks) && w'.handler.oms.nextId == w.handler.oms.nextId + n
            && w.handler.seen <= w'.handler.seen
    decreases n
  {
    hide Lining, Step, Fits, CancelsAsAsked, FrontReady, Enqueue, AckKey;
    if n > 0 {
      assert Repeated(ASIDE, n)[0] == ASIDE && Repeated(ASIDE, n)[1..] == Repeated(ASIDE, n - 1);
      SaleLinesUp(w, ASIDE);
      var order: Resting :| order.price == 2 && Step(w, ASIDE).venue.asks == Enqueue(Sell, w.venue.asks, order);
      AsideQueuesBehind(w.venue.asks, order);
      AsidesLineUp(Step(w, ASIDE), n - 1);
    }
  }

  // What the exchange answers to the order that takes both: the last report is the order's last fill.
  predicate BothTaken(log: seq<ExecutionReport>, client: nat, exchange: nat) {
    && |log| == 5
    && log[0].execType == ExecType.Ack && log[0].clientOrderId == client && log[0].exchangeOrderId == exchange
    && log[1].clientOrderId == 1
    && log[2].execType == ExecType.PartialFill && log[2].clientOrderId == client && log[2].lastQuantity == 1
    && log[3].clientOrderId == 2
    && log[4].execType == ExecType.Fill && log[4].clientOrderId == client && log[4].exchangeOrderId == exchange
    && log[4].lastQuantity == 65536 && log[4].cumulativeQuantity == 65537 && log[4].leavesQuantity == 0
  }

  lemma FullHit(queue: seq<Resting>, req: GatewayRequest, id: nat, left: int, cum: int)
    requires queue != [] && Crosses(req.side, req.price, queue[0].price) && 0 < queue[0].remaining <= left
    ensures var last := queue[0].remaining;
            Sweep(queue, req, id, left, cum).log
            == TradePair(Trade(queue[0], last), last, req, id, cum + last, left - last)
               + Sweep(queue[1..], req, id, left - last, cum + last).log
  {
  }

  lemma NothingLeft(queue: seq<Resting>, req: GatewayRequest, id: nat, cum: int)
    ensures Sweep(queue, req, id, 0, cum).log == []
  {
  }

  lemma BuyTakesBoth(m: Venue, req: GatewayRequest)
    requires ValidNew(m, req) && req.side == Buy && req.quantity == 65537 && req.price == 1
    requires FrontReady(m.asks)
    ensures BothTaken(Process(m, req).log, req.clientOrderId, m.nextId)
  {
    var queue, id := m.asks, m.nextId;
    FullHit(queue, req, id, 65537, 0);
    FullHit(queue[1..], req, id, 65536, 1);
    NothingLeft(queue[1..][1..], req, id, 65537);
    hide Sweep;
    var first := TradePair(Trade(queue[0], 1), 1, req, id, 1, 65536);
    var second := TradePair(Trade(queue[1], 65536), 65536, req, id, 65537, 0);
    assert Process(m, req).log == [AckReport(req, id)] + (first + (second + []));
  }

  // The order is working with `left` to go.
  predicate Going(h: HandlerState, c: nat, left: int) {
    c in h.oms.orders && IsWorking(h.oms.orders[c].status) && h.oms.orders[c].remainingQuantity >= left
  }

  lemma OtherKeepsGoing(h: HandlerState, r: ExecutionReport, c: nat, left: int)
    requires Going(h, c, left) && r.clientOrderId != c
    ensures Going(Handle(h, r).0, c, left) && h.seen <= Handle(h, r).0.seen
  {
    hide ReportKey, Apply, PositionsAfter;
  }

  lemma PartialKeepsGoing(h: HandlerState, r: ExecutionReport, c: nat, left: int)
    requires Going(h, c, left) && r.clientOrderId == c
    requires r.execType == ExecType.PartialFill && 0 < r.lastQuantity < left
    ensures Going(Handle(h, r).0, c, left - r.lastQuantity) && h.seen <= Handle(h, r).0.seen
  {
    hide ReportKey, PositionsAfter;
  }

  lemma AckGetsGoing(h: HandlerState, r: ExecutionReport, c: nat)
    requires c != 0 && c in h.oms.orders && h.oms.orders[c].status == PendingNew
    requires r.clientOrderId == c && r.execType == ExecType.Ack && ReportKey(r) !in h.seen
    ensures Going(Handle(h, r).0, c, h.oms.orders[c].remainingQuantity) && h.seen <= Handle(h, r).0.seen
  {
    hide ReportKey;
  }

  lemma FiveHandled(h: HandlerState, log: seq<ExecutionReport>)
    requires |log| == 5
    ensures HandleAll(h, Kept(log))
         == Handle(Handle(Handle(Handle(Handle(h, log[0]).0, log[1]).0, log[2]).0, log[3]).0, log[4]).0
  {
    hide Handle, HandleAll;
    assert Kept(log) == log;
    var h1 := Handle(h, log[0]).0;
    var h2 := Handle(h1, log[1]).0;
    FirstHandled(h, log);
    FirstHandled(h1, log[1..]);
    FirstHandled(h2, log[2..]);
    FirstHandled(Handle(h2, log[2]).0, log[3..]);
    FirstHandled(Handle(Handle(h2, log[2]).0, log[3]).0, log[4..]);
    assert log[1..][1..] == log[2..] && log[2..][1..] == log[3..] && log[3..][1..] == log[4..] && log[4..][1..] == [];
    NoneHandled(Handle(Handle(Handle(h2, log[2]).0, log[3]).0, log[4]).0);
  }

  // All but the last report is taken, or not: either way the manager never sees the order filled.
  lemma LastFillIsRefused(h: HandlerState, log: seq<ExecutionReport>, c: nat, e: nat)
    requires c > 2 && c in h.oms.orders && h.oms.orders[c].status == PendingNew
    requires h.oms.orders[c].remainingQuantity == 65537
    requires BothTaken(log, c, e) && ReportKey(log[0]) !in h.seen && ReportKey(log[4]) in h.seen
    ensures Going(HandleAll(h, Kept(log)), c, 1)
  {
    hide Handle, ReportKey, Going, HandleAll, Kept;
    FiveHandled(h, log);
    var h1 := Handle(h, log[0]).0;
    var h2 := Handle(h1, log[1]).0;
    var h3 := Handle(h2, log[2]).0;
    var h4 := Handle(h3, log[3]).0;
    AckGetsGoing(h, log[0], c);
    OtherKeepsGoing(h1, log[1], c, 65537);
    PartialKeepsGoing(h2, log[2], c, 65537);
    OtherKeepsGoing(h3, log[3], c, 65536);
    GoingIsKnown(h4, c, 65536);
    SeenIsIgnored(h4, log[4]);
    GoingLess(h4, c, 65536, 1);
  }

  lemma GoingIsKnown(h: HandlerState, c: nat, left: int)
    requires Going(h, c, left)
    ensures c in h.oms.orders
  {
  }

  lemma GoingLess(h: HandlerState, c: nat, left: int, less: int)
    requires Going(h, c, left) && less <= left
    ensures Going(h, c, less)
  {
  }

  // Filled at the exchange, working at the manager.
  lemma GoneIsNoImage(w: World, c: nat)
    requires Going(w.handler, c, 1) && c !in TableOf(w.venue).live
    ensures !Mirrored(w)
  {
    hide TableOf, Inv;
  }

  lemma {:induction false} LastReportCounts(t: Table, log: seq<ExecutionReport>)
    requires log != [] && log[|log| - 1].execType == ExecType.Fill
    ensures log[|log| - 1].clientOrderId !in AfterRun(t, log).live
    decreases |log|
  {
    hide After;
    if |log| == 1 {
      FillEnds(t, log[0]);
      assert log[1..] == [];
    } else {
      LastReportCounts(After(t, log[0]), log[1..]);
    }
  }

  lemma FillEnds(t: Table, r: ExecutionReport)
    requires r.execType == ExecType.Fill
    ensures r.clientOrderId !in After(t, r).live
  {
  }

  lemma BuyIsPrepared(w: World)
    requires Mirrored(w)
    ensures var c, h := w.handler.oms.nextId, PreparedHandler(w, BUY_ALL);
            && c in h.oms.orders && h.oms.orders[c].status == PendingNew
            && h.oms.orders[c].remainingQuantity == 65537 && h.seen == w.handler.seen
  {
    CreateKeepsMirror(w.handler.oms, TableOf(w.venue), "A", Buy, 1, 65537, 0);
    hide TableOf, Inv, Mirrors, Numbered, Create, Happen;
  }

  lemma BuyIsValid(w: World)
    requires Mirrored(w)
    ensures Sent(w, BUY_ALL).Sending? && ValidNew(w.venue, Sent(w, BUY_ALL).request)
    ensures var req := Sent(w, BUY_ALL).request;
            && req.side == Buy && req.quantity == 65537 && req.price == 1
            && req.clientOrderId == w.handler.oms.nextId
  {
    hide Mirrored, Sent;
    MirroredIsFresh(w);
    PlaceCarriesOrder(w, BUY_ALL);
  }

  // No acknowledgement of an earlier order has the key of this one's.
  lemma AckIsNew(seen: set<bv64>, r: ExecutionReport)
    requires forall key | key in seen :: IsAckKey(key, 257)
    requires r.execType == ExecType.Ack && r.clientOrderId == r.exchangeOrderId == 257
    ensures ReportKey(r) !in seen
  {
    hide ReportKey;
    if ReportKey(r) in seen {
      var id: nat, quantity: int :| id < 257 && ReportKey(r) == AckKey(id, quantity);
      KeySeparatesOfType(r, ReportOf(id, ExecType.Ack, 0, 0, quantity));
    }
  }

  lemma BuyBreaksMirror(w: World)
    requires Lining(w) && FrontReady(w.venue.asks) && w.handler.oms.nextId == 257 && AckKey(1, 1) in w.handler.seen
    ensures Fits(w, BUY_ALL) && !Mirrored(Step(w, BUY_ALL))
  {
    hide OnTrack, Step, LogOf, Sent, ReportKey, FrontReady, HandleAll, Kept, Process, Inv, TableOf, AfterRun, Going,
         Mirrored, Prepared;
    TrackIsMirrored(Few, w);
    BuyIsPrepared(w);
    BuyIsValid(w);
    var req := Sent(w, BUY_ALL).request;
    BuyTakesBoth(w.venue, req);
    SentStep(w, BUY_ALL);
    var log := LogOf(w, BUY_ALL);
    AckIsNew(w.handler.seen, log[0]);
    LastFillCollides(ReportOf(1, ExecType.Ack, 0, 0, 1), log[4]);
    LastFillIsRefused(PreparedHandler(w, BUY_ALL), log, 257, 257);
    MirroredIsInv(w);
    ProcessIsLegal(w.venue, req);
    LastReportCounts(TableOf(w.venue), log);
    GoneIsNoImage(Step(w, BUY_ALL), 257);
  }

  function TopRun(): seq<Action> {
    [SELL_ONE] + ([SELL_MANY] + (Repeated(ASIDE, 254) + [BUY_ALL]))
  }

  lemma TwoSalesLineUp()
    ensures var w := Step(START, SELL_ONE);
            && Fits(START, SELL_ONE) && CancelsAsAsked(START, SELL_ONE)
            && Fits(w, SELL_MANY) && CancelsAsAsked(w, SELL_MANY)
    ensures var w2 := Step(Step(START, SELL_ONE), SELL_MANY);
            && Lining(w2) && FrontReady(w2.venue.asks) && w2.handler.oms.nextId == 3 && AckKey(1, 1) in w2.handler.seen
  {
    hide OnTrack, Step, Fits, CancelsAsAsked, Enqueue, AckKey, FrontReady;
    StartIsOnTrack(Few);
    SaleLinesUp(START, SELL_ONE);
    var w := Step(START, SELL_ONE);
    SaleLinesUp(w, SELL_MANY);
    var a: Resting :| a.clientOrderId == 1 && a.price == 1 && a.remaining == 1
      && w.venue.asks == Enqueue(Sell, START.venue.asks, a);
    var b: Resting :| b.clientOrderId == 2 && b.price == 1 && b.remaining == 65536
      && Step(w, SELL_MANY).venue.asks == Enqueue(Sell, w.venue.asks, b);
    FrontForms(a, b);
  }

  // 257 orders, two of them of 65536 and 65537, and the manager never sees the last one filled.
  lemma TopRunBreaks()
    ensures Disciplined(START, TopRun()) && !Mirrored(Steps(START, TopRun()))
  {
    hide Lining, Step, Fits, CancelsAsAsked, Mirrored, AckKey, FrontReady, Repeated;
    var w := Step(START, SELL_ONE);
    var w2 := Step(w, SELL_MANY);
    TwoSalesLineUp();
    AsidesLineUp(w2, 254);
    var w3 := Steps(w2, Repeated(ASIDE, 254));
    BuyBreaksMirror(w3);
    StepsFirst(START, SELL_ONE, [SELL_MANY] + (Repeated(ASIDE, 254) + [BUY_ALL]));
    StepsFirst(w, SELL_MANY, Repeated(ASIDE, 254) + [BUY_ALL]);
    StepsJoin(w2, Repeated(ASIDE, 254), [BUY_ALL]);
    OneStep(w3, BUY_ALL);
    BuyIsAsAsked(w3);
  }

  lemma BuyIsAsAsked(w: World)
    ensures CancelsAsAsked(w, BUY_ALL)
  {
  }
}
