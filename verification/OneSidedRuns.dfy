// Runs of the closed loop that quote one side only: nothing ever trades.
module OneSidedRuns {
  import opened Types
  import opened Matching
  import opened ReportBatch
  import opened OrderLifecycle
  import opened OrderManagement
  import opened ReportHandler
  import opened ReportKeys
  import opened ReportStream
  import opened Words
  import opened ClosedLoop
  import opened Mirror
  import opened MirroredRuns

  lemma {:induction false} StepsExtend(w: World, actions: seq<Action>, a: Action)
    ensures Steps(w, actions + [a]) == Step(Steps(w, actions), a)
    decreases |actions|
  {
    hide Step;
    if actions == [] {
      assert [a][1..] == [];
      assert actions + [a] == [a];
    } else {
      assert (actions + [a])[1..] == actions[1..] + [a];
      StepsExtend(Step(w, actions[0]), actions[1..], a);
    }
  }

  lemma PlaceIsSent(w: World, a: Action)
    requires a.Place? && Sent(w, a).Sending?
    ensures Sent(w, a).request.side == a.side
    ensures Sent(w, a).request.requestType == NewOrder
  {
  }

  lemma AloneIsLoneReport(m: Venue, req: GatewayRequest)
    requires m.On(Opposite(req.side)) == [] && req.requestType == NewOrder
    ensures var done := Process(m, req);
            && |done.log| == 1 && !done.log[0].IsFill()
            && done.venue.On(Opposite(req.side)) == []
  {
  }

  lemma LoneReportMovesNothing(h: HandlerState, log: seq<ExecutionReport>)
    requires |log| == 1 && !log[0].IsFill()
    ensures HandleAll(h, Kept(log)).positions == h.positions
  {
    hide ReportKey, Takes, OrdersAfter;
    assert Kept(log) == log;
    assert log[1..] == [];
  }

  lemma AloneNeverTrades(w: World, a: Action)
    requires a.Place? && w.venue.On(Opposite(a.side)) == []
    ensures var w' := Step(w, a);
            && |LogOf(w, a)| <= 1
            && w'.venue.On(Opposite(a.side)) == []
            && w'.handler.positions == w.handler.positions
  {
    hide HandleAll, Prepared, Sent, Process;
    var sent := Sent(w, a);
    if sent.Sending? {
      PlaceIsSent(w, a);
      AloneIsLoneReport(w.venue, sent.request);
      LoneReportMovesNothing(w.handler.(oms := Prepared(w.handler.oms, a)), Process(w.venue, sent.request).log);
    }
  }

  lemma {:induction false} OneSidedRun(w: World, actions: seq<Action>, side: Side)
    requires w.venue.On(Opposite(side)) == []
    requires forall i | 0 <= i < |actions| :: actions[i].Place? && actions[i].side == side
    ensures Disciplined(w, actions)
    ensures Steps(w, actions).handler.positions == w.handler.positions
    decreases |actions|
  {
    hide Step, LogOf;
    if actions != [] {
      AloneNeverTrades(w, actions[0]);
      OneSidedRun(Step(w, actions[0]), actions[1..], side);
    }
  }

  // ----- What one placement leaves, alone on its side -----

  // The next client id is new to the venue.
  predicate FreshNext(w: World) {
    w.handler.oms.nextId > 0 && w.handler.oms.nextId !in Clients(w.venue.bids) + Clients(w.venue.asks)
  }

  lemma SaneIsFresh(w: World)
    requires Sane(w)
    ensures FreshNext(w) && 0 < w.venue.nextId
  {
    ApartMaps(w.venue);
    hide Balanced;
  }

  predicate Sendable(a: Action) {
    a.Place? ==> a.symbol != "" && a.price > 0 && a.quantity > 0
  }

  predicate Acknowledges(r: ExecutionReport, client: nat, exchange: nat, a: Action)
    requires a.Place?
  {
    && r.execType == ExecType.Ack
    && r.clientOrderId == client && r.exchangeOrderId == exchange
    && r.symbol == a.symbol && r.side == a.side
    && r.lastQuantity == r.cumulativeQuantity == 0 && r.leavesQuantity == a.quantity
  }

  // The request a sendable placement becomes.
  lemma PlaceCarriesOrder(w: World, a: Action)
    requires a.Place? && Sendable(a) && w.handler.oms.nextId > 0
    ensures Sent(w, a).Sending?
    ensures var req := Sent(w, a).request;
            && req.requestType == NewOrder && req.orderType == Limit
            && req.clientOrderId == w.handler.oms.nextId
            && req.symbol == a.symbol && req.side == a.side && req.price == a.price && req.quantity == a.quantity
  {
  }

  lemma LoneOrderRests(m: Venue, req: GatewayRequest)
    requires ValidNew(m, req) && m.On(Opposite(req.side)) == []
    ensures Process(m, req).log == [AckReport(req, m.nextId)]
    ensures Process(m, req).venue
         == m.(nextId := m.nextId + 1).With(req.side,
              Enqueue(req.side, m.On(req.side), RestingOrder(req, m.nextId, req.quantity)))
  {
    hide Enqueue;
  }

  // Alone on its side, a sendable order is acknowledged, with nothing else said, and rests whole.
  lemma LonePlaceRests(w: World, a: Action)
    requires a.Place? && Sendable(a) && FreshNext(w) && w.venue.On(Opposite(a.side)) == []
    ensures Sent(w, a).Sending? && |LogOf(w, a)| == 1 && Fits(w, a)
    ensures Acknowledges(LogOf(w, a)[0], w.handler.oms.nextId, w.venue.nextId, a)
    ensures ValidNew(w.venue, Sent(w, a).request)
    ensures Step(w, a).venue
         == w.venue.(nextId := w.venue.nextId + 1).With(a.side,
              Enqueue(a.side, w.venue.On(a.side), RestingOrder(Sent(w, a).request, w.venue.nextId, a.quantity)))
  {
    hide Sent, Process, Enqueue, HandleAll, Prepared;
    PlaceCarriesOrder(w, a);
    LoneOrderRests(w.venue, Sent(w, a).request);
  }

  lemma AcknowledgedIsLive(t: Table, log: seq<ExecutionReport>, client: nat, exchange: nat, a: Action)
    requires a.Place? && |log| == 1 && Acknowledges(log[0], client, exchange, a)
    ensures AfterRun(t, log).live == t.live[client := Live(exchange, a.symbol, a.side, a.quantity, 0)]
  {
    assert log[1..] == [];
  }

  lemma LonePlaceIsLive(w: World, a: Action)
    requires a.Place? && Sendable(a) && FreshNext(w) && w.venue.On(Opposite(a.side)) == [] && Inv(w.venue)
    ensures TableOf(Step(w, a).venue).live
         == TableOf(w.venue).live[w.handler.oms.nextId := Live(w.venue.nextId, a.symbol, a.side, a.quantity, 0)]
  {
    hide Step, Sent, LogOf, TableOf, Process, AfterRun, Acknowledges, Inv, Enqueue;
    LonePlaceRests(w, a);
    SentStep(w, a);
    ProcessIsLegal(w.venue, Sent(w, a).request);
    AcknowledgedIsLive(TableOf(w.venue), LogOf(w, a), w.handler.oms.nextId, w.venue.nextId, a);
  }

  // ----- One side, one quantity -----

  ghost predicate Lone(w: World, side: Side) {
    Sane(w) && w.venue.On(Opposite(side)) == [] && w.handler.oms.nextId == w.venue.nextId
  }

  predicate Alike(a: Action, side: Side, quantity: int) {
    a.Place? && a.side == side && a.quantity == quantity && Sendable(a)
  }

  lemma {:induction false} HandlingKeepsNextId(h: HandlerState, log: seq<ExecutionReport>)
    ensures HandleAll(h, log).oms.nextId == h.oms.nextId
    decreases |log|
  {
    if log != [] {
      HandlingKeepsNextId(Handle(h, log[0]).0, log[1..]);
      hide ReportKey, Takes, PositionsAfter;
    }
  }

  lemma ManagerIdsAdvance(w: World, a: Action)
    ensures Step(w, a).handler.oms.nextId == w.handler.oms.nextId + (if a.Place? then 1 else 0)
  {
    if Sent(w, a).Sending? {
      HandlingKeepsNextId(PreparedHandler(w, a), Kept(Process(w.venue, Sent(w, a).request).log));
    }
    hide Process, HandleAll, Sent, Happen;
  }

  lemma LoneStays(w: World, a: Action, side: Side, quantity: int)
    requires Alike(a, side, quantity) && Lone(w, side)
    ensures Lone(Step(w, a), side) && Step(w, a).venue.nextId == w.venue.nextId + 1
    ensures |LogOf(w, a)| == 1 && Fits(w, a) && CancelsAsAsked(w, a)
    ensures Acknowledges(LogOf(w, a)[0], w.venue.nextId, w.venue.nextId, a)
  {
    hide Step, Sane, LogOf, Sent, Enqueue, Fits, FreshNext, Acknowledges;
    SaneIsFresh(w);
    LonePlaceRests(w, a);
    StepKeepsSane(w, a);
    ManagerIdsAdvance(w, a);
  }

  predicate AckOf(r: ExecutionReport, id: nat, quantity: int) {
    && r.execType == ExecType.Ack
    && r.clientOrderId == r.exchangeOrderId == id
    && r.lastQuantity == r.cumulativeQuantity == 0 && r.leavesQuantity == quantity
  }

  // All that is ever said to one side is one acknowledgement after the other.
  lemma {:induction false} LoneHistory(w: World, actions: seq<Action>, side: Side, quantity: int)
    requires Lone(w, side) && forall i | 0 <= i < |actions| :: Alike(actions[i], side, quantity)
    ensures Disciplined(w, actions)
    ensures var h := History(w, actions);
            |h| == |actions| && forall i | 0 <= i < |h| :: AckOf(h[i], w.venue.nextId + i, quantity)
    decreases |actions|
  {
    hide Step, Lone, LogOf, Fits, CancelsAsAsked;
    if actions != [] {
      var a, rest := actions[0], actions[1..];
      assert Alike(a, side, quantity);
      LoneStays(w, a, side, quantity);
      assert forall i | 0 <= i < |rest| :: rest[i] == actions[i + 1];
      LoneHistory(Step(w, a), rest, side, quantity);
    }
  }

  lemma AcksHaveNewKeys(log: seq<ExecutionReport>, first: nat, quantity: int)
    requires forall i | 0 <= i < |log| :: AckOf(log[i], first + i, quantity)
    requires first + |log| <= WORD
    ensures NewKeys({}, log)
  {
    hide ReportKey;
    forall i, j | 0 <= i < j < |log| ensures ReportKey(log[i]) != ReportKey(log[j]) {
      if ReportKey(log[i]) == ReportKey(log[j]) {
        KeySeparatesAcks(log[i], log[j]);
      }
    }
  }

  lemma StartIsLone(side: Side)
    ensures Lone(START, side) && START.venue.nextId == 1
  {
    StartIsSane();
    hide Sane;
  }

  // As long as ids fit 64 bits, orders of one quantity on one side never lose a report, however many they are.
  lemma OneSidedRunsMirror(actions: seq<Action>, side: Side, quantity: int)
    requires forall i | 0 <= i < |actions| :: Alike(actions[i], side, quantity)
    requires |actions| < WORD
    ensures Disciplined(START, actions) && NewKeys({}, History(START, actions))
    ensures Mirrored(Steps(START, actions)) && NothingRefused(START, actions)
  {
    hide Lone, Disciplined, NewKeys, Mirrored, NothingRefused, AckOf, Bought, Sold, Net, Alike, History, Steps;
    StartIsLone(side);
    LoneHistory(START, actions, side, quantity);
    AcksHaveNewKeys(History(START, actions), 1, quantity);
    StartIsMirrored();
    RunsKeepMirror(START, actions);
  }

  // ----- All of it working -----

  // The exchange holds every order the manager made.
  ghost predicate Working(w: World) {
    forall c | c in w.handler.oms.orders :: c in TableOf(w.venue).live
  }

  lemma {:induction false} HandlingKeepsIds(h: HandlerState, log: seq<ExecutionReport>)
    ensures HandleAll(h, log).oms.orders.Keys == h.oms.orders.Keys
    decreases |log|
  {
    if log != [] {
      HandledKeepsIds(h, log[0]);
      hide Handle;
      HandlingKeepsIds(Handle(h, log[0]).0, log[1..]);
    }
  }

  lemma HandledKeepsIds(h: HandlerState, r: ExecutionReport)
    ensures Handle(h, r).0.oms.orders.Keys == h.oms.orders.Keys
  {
    hide ReportKey, PositionsAfter, Apply;
  }

  lemma PlaceAddsOneId(w: World, a: Action)
    requires a.Place? && Sent(w, a).Sending?
    ensures Step(w, a).handler.oms.orders.Keys == w.handler.oms.orders.Keys + {w.handler.oms.nextId}
  {
    hide Sent, Process, HandleAll, Kept, Apply;
    SentStep(w, a);
    HandlingKeepsIds(PreparedHandler(w, a), Kept(Process(w.venue, Sent(w, a).request).log));
  }

  lemma WorkingStays(w: World, a: Action, side: Side, quantity: int)
    requires Alike(a, side, quantity) && Lone(w, side) && Working(w)
    ensures Working(Step(w, a))
  {
    hide Step, TableOf, Inv, Sane, Sent, Enqueue, FreshNext, LogOf, Fits;
    SaneIsFresh(w);
    SaneIsOrdered(w);
    LonePlaceRests(w, a);
    LonePlaceIsLive(w, a);
    PlaceAddsOneId(w, a);
  }

  lemma SaneIsOrdered(w: World)
    requires Sane(w)
    ensures Inv(w.venue)
  {
  }

  lemma {:induction false} LoneKeepsWorking(w: World, actions: seq<Action>, side: Side, quantity: int)
    requires Lone(w, side) && Working(w) && forall i | 0 <= i < |actions| :: Alike(actions[i], side, quantity)
    ensures Working(Steps(w, actions))
    decreases |actions|
  {
    hide Step, Lone, Working, LogOf, Fits, CancelsAsAsked;
    if actions != [] {
      var a, rest := actions[0], actions[1..];
      assert Alike(a, side, quantity);
      LoneStays(w, a, side, quantity);
      WorkingStays(w, a, side, quantity);
      assert forall i | 0 <= i < |rest| :: rest[i] == actions[i + 1];
      LoneKeepsWorking(Step(w, a), rest, side, quantity);
    }
  }

  lemma LoneRunsWork(actions: seq<Action>, side: Side, quantity: int)
    requires forall i | 0 <= i < |actions| :: Alike(actions[i], side, quantity)
    ensures Working(Steps(START, actions))
  {
    hide Lone;
    StartIsLone(side);
    LoneKeepsWorking(START, actions, side, quantity);
  }

  lemma AllWorking(w: World)
    requires Mirrored(w) && Working(w)
    ensures forall c | c in w.handler.oms.orders :: IsWorking(w.handler.oms.orders[c].status)
  {
    hide TableOf, Inv;
  }

  // ----- Orders without a symbol -----

  // The gateway sends nothing for them, so nothing can go wrong.
  lemma {:induction false} NamelessRunMirrors(w: World, actions: seq<Action>)
    requires Mirrored(w) && forall i | 0 <= i < |actions| :: actions[i].Place? && actions[i].symbol == ""
    ensures Mirrored(Steps(w, actions))
    decreases |actions|
  {
    hide Step, Mirrored, Sent, LogOf, Bought, Sold, Net;
    if actions != [] {
      NamelessIsUnsent(w, actions[0]);
      UnsentStepKeepsMirror(w, actions[0]);
      NamelessRunMirrors(Step(w, actions[0]), actions[1..]);
    }
  }

  lemma NamelessIsUnsent(w: World, a: Action)
    requires a.Place? && a.symbol == ""
    ensures Sent(w, a).Nothing?
  {
  }
}
