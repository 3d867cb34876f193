// Whole runs of the closed loop that keep the mirror, and exactly what breaks it.
module MirroredRuns {
  import opened Types
  import opened Matching
  import opened ReportStream
  import opened ReportBatch
  import opened OrderLifecycle
  import opened OrderManagement
  import opened ReportKeys
  import opened ReportHandler
  import opened ClosedLoop
  import opened Mirror

  ghost predicate Mirrored(w: World) {
    Inv(w.venue) && Numbered(w.handler.oms) && Mirrors(w.handler.oms, TableOf(w.venue))
  }

  // A cancel is sent only for an order whose cancel was asked for, or one the gateway refuses anyway.
  predicate CancelsAsAsked(w: World, a: Action) {
    a.SendCancelFor? && a.id in w.handler.oms.orders ==>
      var status := w.handler.oms.orders[a.id].status; status != Acked && status != PartiallyFilled
  }

  predicate Fits(w: World, a: Action) {
    |LogOf(w, a)| <= MAX_REPORTS
  }

  function PreparedHandler(w: World, a: Action): HandlerState {
    w.handler.(oms := Prepared(w.handler.oms, a))
  }

  lemma MirroredIsInv(w: World)
    requires Mirrored(w)
    ensures Inv(w.venue)
  {
  }

  lemma StartIsMirrored()
    ensures Mirrored(START)
  {
  }

  // ----- One step -----

  lemma AskKeepsMirror(oms: Oms, t: Table, id: nat)
    requires Numbered(oms) && Mirrors(oms, t)
    ensures Numbered(Happen(oms, id, CancelRequest, 0, 0)) && Mirrors(Happen(oms, id, CancelRequest, 0, 0), t)
  {
    if id in oms.orders {
      var o := oms.orders[id];
      if IsWorking(o.status) {
        ApplyKeepsSound(o, CancelRequest, 0, 0);
        assert Image(Apply(o, CancelRequest, 0, 0).order, t.live[id]);
      }
      hide Image;
    }
  }

  lemma CreateKeepsMirror(oms: Oms, t: Table, symbol: Symbol, side: Side, price: int, quantity: int, now: nat)
    requires Numbered(oms) && Mirrors(oms, t)
    ensures var oms' := Happen(Create(oms, symbol, side, price, quantity, now), oms.nextId, Submit, 0, 0);
            && Numbered(oms') && Mirrors(oms', t)
            && oms.nextId !in t.live
            && oms.nextId in oms'.orders
            && oms'.orders[oms.nextId]
               == NewOrderData(oms.nextId, symbol, side, price, quantity, now).(status := PendingNew)
  {
  }

  lemma PreparedKeepsMirror(w: World, a: Action)
    requires Mirrored(w)
    ensures Numbered(Prepared(w.handler.oms, a)) && Mirrors(Prepared(w.handler.oms, a), TableOf(w.venue))
  {
    hide Numbered, Mirrors, Create, Happen;
    match a
    case Place(symbol, side, price, quantity, now) =>
      CreateKeepsMirror(w.handler.oms, TableOf(w.venue), symbol, side, price, quantity, now);
    case AskCancel(id) =>
      AskKeepsMirror(w.handler.oms, TableOf(w.venue), id);
    case SendCancelFor(_, _) =>
  }

  lemma LiveIsResting(m: Venue, c: nat)
    requires Inv(m)
    ensures c in TableOf(m).live <==> c in Clients(m.bids) + Clients(m.asks)
  {
    ApartMaps(m);
  }

  // A request that the discipline lets through is answered by what the manager expects.
  lemma NewIsExpected(w: World, a: Action)
    requires Mirrored(w) && a.Place? && Sent(w, a).Sending?
    ensures Sent(w, a).request.requestType == NewOrder
    ensures ValidNew(w.venue, Sent(w, a).request)
    ensures Expected(Prepared(w.handler.oms, a), LogOf(w, a)[0])
  {
    CreateKeepsMirror(w.handler.oms, TableOf(w.venue), a.symbol, a.side, a.price, a.quantity, a.now);
    LiveIsResting(w.venue, w.handler.oms.nextId);
    LogShape(w.venue, Sent(w, a).request);
    hide Sweep, Inv, TableOf, Mirrors, Numbered;
  }

  lemma CancelHits(w: World, a: Action)
    requires Mirrored(w) && a.SendCancelFor? && Sent(w, a).Sending?
    ensures a.id in w.handler.oms.orders && IsWorking(w.handler.oms.orders[a.id].status)
    ensures a.id in TableOf(w.venue).live
    ensures Sent(w, a).request.requestType == CancelOrder && Sent(w, a).request.clientOrderId == a.id
    ensures |LogOf(w, a)| == 1 && LogOf(w, a)[0].execType == ExecType.CancelAck && LogOf(w, a)[0].clientOrderId == a.id
  {
    LiveIsResting(w.venue, a.id);
    hide Inv, TableOf;
  }

  lemma SentIsExpected(w: World, a: Action)
    requires Mirrored(w) && CancelsAsAsked(w, a) && Sent(w, a).Sending?
    ensures Expected(Prepared(w.handler.oms, a), LogOf(w, a)[0])
  {
    if a.Place? {
      NewIsExpected(w, a);
    } else {
      CancelHits(w, a);
    }
    hide Mirrored, LogOf;
  }

  // Everything a disciplined step promises.
  ghost predicate StepMirrors(w: World, a: Action) {
    var w' := Step(w, a);
    && Mirrored(w')
    && AllAccepted(PreparedHandler(w, a), LogOf(w, a))
    && w'.handler.seen == w.handler.seen + Keys(LogOf(w, a))
    && Bought(w'.handler) - Sold(w'.handler) == Bought(w.handler) - Sold(w.handler)
    && Net(w'.handler) == Net(w.handler)
  }

  lemma SentStep(w: World, a: Action)
    requires Sent(w, a).Sending?
    ensures var done := Process(w.venue, Sent(w, a).request);
            && LogOf(w, a) == done.log
            && Step(w, a) == World(HandleAll(PreparedHandler(w, a), Kept(done.log)), done.venue, w.sequence + 1)
  {
  }

  lemma AnswersAreProper(m: Venue, req: GatewayRequest)
    requires Inv(m)
    ensures var done := Process(m, req);
            && Inv(done.venue)
            && LegalRun(TableOf(m), done.log) && AfterRun(TableOf(m), done.log) == TableOf(done.venue)
            && Traded(done.log, Buy) == Traded(done.log, Sell)
            && done.log != [] && FillsAfterFirst(done.log)
  {
    hide Process, Inv;
    LogShape(m, req);
    ProcessKeepsInv(m, req);
    ProcessIsLegal(m, req);
    LogsAreEven(m, req);
  }

  lemma UnsentStepKeepsMirror(w: World, a: Action)
    requires Mirrored(w) && Sent(w, a).Nothing?
    ensures StepMirrors(w, a)
  {
    PreparedKeepsMirror(w, a);
    hide Inv, TableOf, Sent, Prepared, Mirrors, Numbered;
  }

  lemma SentStepKeepsMirror(w: World, a: Action)
    requires Mirrored(w) && CancelsAsAsked(w, a) && Fits(w, a) && NewKeys(w.handler.seen, LogOf(w, a))
    requires Sent(w, a).Sending?
    ensures StepMirrors(w, a)
  {
    hide Inv, TableOf, Process, Sent, Prepared, Mirrors, Numbered, Expected, LogOf, Step, NewKeys,
         FillsAfterFirst, LegalRun, AfterRun, AllAccepted, HandleAll, Kept, Traded, Keys;
    PreparedKeepsMirror(w, a);
    SentIsExpected(w, a);
    SentStep(w, a);
    AnswersAreProper(w.venue, Sent(w, a).request);
    DeliveryKeepsMirror(PreparedHandler(w, a), TableOf(w.venue), LogOf(w, a));
  }

  lemma StepKeepsMirror(w: World, a: Action)
    requires Mirrored(w) && CancelsAsAsked(w, a) && Fits(w, a) && NewKeys(w.handler.seen, LogOf(w, a))
    ensures StepMirrors(w, a)
  {
    hide Mirrored, CancelsAsAsked, Fits, StepMirrors, Sent, LogOf;
    if Sent(w, a).Sending? {
      SentStepKeepsMirror(w, a);
    } else {
      UnsentStepKeepsMirror(w, a);
    }
  }

  // ----- Every run -----

  function History(w: World, actions: seq<Action>): seq<ExecutionReport>
    decreases |actions|
  {
    if actions == [] then [] else LogOf(w, actions[0]) + History(Step(w, actions[0]), actions[1..])
  }

  predicate Disciplined(w: World, actions: seq<Action>)
    decreases |actions|
  {
    actions != [] ==>
      && CancelsAsAsked(w, actions[0])
      && Fits(w, actions[0])
      && Disciplined(Step(w, actions[0]), actions[1..])
  }

  // Every report of the run is accepted when it comes.
  predicate NothingRefused(w: World, actions: seq<Action>)
    decreases |actions|
  {
    actions != [] ==>
      && AllAccepted(PreparedHandler(w, actions[0]), LogOf(w, actions[0]))
      && NothingRefused(Step(w, actions[0]), actions[1..])
  }

  lemma NewKeysSplit(seen: set<bv64>, a: seq<ExecutionReport>, b: seq<ExecutionReport>)
    requires NewKeys(seen, a + b)
    ensures NewKeys(seen, a) && NewKeys(seen + Keys(a), b)
  {
    hide ReportKey;
    var log := a + b;
    forall i | 0 <= i < |a| ensures a[i] == log[i] {
    }
    forall i | 0 <= i < |b| ensures ReportKey(b[i]) !in seen + Keys(a) {
      assert b[i] == log[|a| + i];
      forall j | 0 <= j < |a| ensures ReportKey(a[j]) != ReportKey(b[i]) {
        assert a[j] == log[j];
      }
    }
    forall i, j | 0 <= i < j < |b| ensures ReportKey(b[i]) != ReportKey(b[j]) {
      assert b[i] == log[|a| + i] && b[j] == log[|a| + j];
    }
  }

  lemma {:induction false} RunsKeepMirror(w: World, actions: seq<Action>)
    requires Mirrored(w) && Disciplined(w, actions) && NewKeys(w.handler.seen, History(w, actions))
    ensures var w' := Steps(w, actions);
            && Mirrored(w')
            && NothingRefused(w, actions)
            && Bought(w'.handler) - Sold(w'.handler) == Bought(w.handler) - Sold(w.handler)
            && Net(w'.handler) == Net(w.handler)
    decreases |actions|
  {
    hide Mirrored, CancelsAsAsked, Fits, NewKeys, LogOf, Step, Bought, Sold, Net;
    if actions != [] {
      var a, rest := actions[0], actions[1..];
      NewKeysSplit(w.handler.seen, LogOf(w, a), History(Step(w, a), rest));
      StepKeepsMirror(w, a);
      RunsKeepMirror(Step(w, a), rest);
    }
  }

  // What the mirror says of one resting order and its record.
  ghost predicate Agree(r: Resting, o: OrderData) {
    && IsWorking(o.status)
    && o.exchangeOrderId == r.exchangeOrderId
    && o.symbol == r.symbol && o.side == r.side
    && o.filledQuantity == r.filled && o.remainingQuantity == r.remaining
  }

  lemma MirroredMeansAgreement(w: World)
    requires Mirrored(w)
    ensures forall r | r in w.venue.bids + w.venue.asks ::
              r.clientOrderId in w.handler.oms.orders && Agree(r, w.handler.oms.orders[r.clientOrderId])
    ensures forall c | c in w.handler.oms.orders ::
              IsWorking(w.handler.oms.orders[c].status) <==> c in Clients(w.venue.bids) + Clients(w.venue.asks)
  {
    ApartMaps(w.venue);
    forall r | r in w.venue.bids + w.venue.asks
      ensures r.clientOrderId in w.handler.oms.orders && Agree(r, w.handler.oms.orders[r.clientOrderId])
    {
      if r in w.venue.bids {
        var i :| 0 <= i < |w.venue.bids| && w.venue.bids[i] == r;
        LiveMapHolds(w.venue.bids, i);
      } else {
        var i :| 0 <= i < |w.venue.asks| && w.venue.asks[i] == r;
        LiveMapHolds(w.venue.asks, i);
      }
      hide Mirrored, LiveMap;
    }
  }

  // The closed loop: from the start, over every disciplined run whose reports have distinct keys, an order is
  // working exactly when it rests at the exchange, with the same fills and remainder; every report
  // is accepted; and the positions of all symbols add up to nothing.
  lemma ClosedLoopMirrors(actions: seq<Action>)
    requires Disciplined(START, actions) && NewKeys({}, History(START, actions))
    ensures var w := Steps(START, actions);
            && NothingRefused(START, actions)
            && (forall r | r in w.venue.bids + w.venue.asks ::
                  r.clientOrderId in w.handler.oms.orders && Agree(r, w.handler.oms.orders[r.clientOrderId]))
            && (forall c | c in w.handler.oms.orders ::
                  IsWorking(w.handler.oms.orders[c].status) <==> c in Clients(w.venue.bids) + Clients(w.venue.asks))
            && Bought(w.handler) == Sold(w.handler)
            && Net(w.handler) == 0
  {
    StartIsMirrored();
    RunsKeepMirror(START, actions);
    hide Disciplined, NewKeys, Agree, Mirrored;
    MirroredMeansAgreement(Steps(START, actions));
  }
}
