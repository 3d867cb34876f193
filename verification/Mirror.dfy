// When the order manager is an exact image of the exchange.
module Mirror {
  import opened Types
  import opened Sums
  import opened Matching
  import opened ReportStream
  import opened OrderLifecycle
  import opened OrderManagement
  import opened Positions
  import opened ReportKeys
  import opened ReportHandler
  import opened ClosedLoop

  // The manager's record of an order agrees with the venue's.
  ghost predicate Image(o: OrderData, l: Live) {
    && IsWorking(o.status)
    && o.exchangeOrderId == l.exchangeId
    && o.symbol == l.symbol != ""
    && o.side == l.side
    && o.quantity == l.quantity
    && o.filledQuantity == l.filled
    && o.remainingQuantity == l.quantity - l.filled
    && Sound(o)
  }

  // The working orders are exactly those live at the venue, and agree with them.
  ghost predicate Mirrors(oms: Oms, t: Table) {
    && (forall c | c in t.live :: c in oms.orders && Image(oms.orders[c], t.live[c]))
    && (forall c | c in oms.orders && IsWorking(oms.orders[c].status) :: c in t.live)
  }

  // An acknowledgement is for an order that was just submitted, and a cancel
  // is confirmed only where one was asked for.
  predicate Expected(oms: Oms, r: ExecutionReport) {
    && (r.execType == ExecType.Ack ==> Known(oms, r) && oms.orders[r.clientOrderId].status == PendingNew)
    && (r.execType == ExecType.CancelAck ==>
          r.clientOrderId in oms.orders && oms.orders[r.clientOrderId].status == PendingCancel)
    && r.execType != ExecType.Reject
    && r.execType != ExecType.CancelReject
  }

  lemma ExpectedIsTaken(oms: Oms, t: Table, r: ExecutionReport)
    requires Mirrors(oms, t) && Legal(t, r) && Expected(oms, r)
    ensures Takes(oms, r)
    ensures var c := r.clientOrderId;
            var o' := OrdersAfter(oms, r).orders[c];
            && OrdersAfter(oms, r) == oms.(orders := oms.orders[c := o'])
            && (if c in After(t, r).live then Image(o', After(t, r).live[c]) else !IsWorking(o'.status))
  {
    var c := r.clientOrderId;
    var o := oms.orders[c];
    ApplyKeepsSound(o, EventOf(r.execType), FillQuantity(r), FillPrice(r));
    if r.IsFill() {
      FillAppliesExactly(o, r.lastQuantity, r.lastPrice);
      assert ApplyFill(o, r.lastQuantity, r.lastPrice).remainingQuantity == o.remainingQuantity - r.lastQuantity;
      hide ApplyFill, Sound;
    }
  }

  lemma ExpectedKeepsMirror(oms: Oms, t: Table, r: ExecutionReport)
    requires Mirrors(oms, t) && Legal(t, r) && Expected(oms, r)
    ensures Mirrors(OrdersAfter(oms, r), After(t, r))
  {
    ExpectedIsTaken(oms, t, r);
    hide OrdersAfter, Expected, Legal, Image;
  }

  // ----- A delivered log -----

  function Keys(log: seq<ExecutionReport>): set<bv64> {
    set r | r in log :: ReportKey(r)
  }

  // No two reports of the log share a key, nor does any with a report seen before.
  ghost predicate NewKeys(seen: set<bv64>, log: seq<ExecutionReport>) {
    && (forall i | 0 <= i < |log| :: ReportKey(log[i]) !in seen)
    && (forall i, j | 0 <= i < j < |log| :: ReportKey(log[i]) != ReportKey(log[j]))
  }

  predicate AllAccepted(h: HandlerState, log: seq<ExecutionReport>)
    decreases |log|
  {
    log == [] || (Handle(h, log[0]).1 == Accepted && AllAccepted(Handle(h, log[0]).0, log[1..]))
  }

  function Traded(log: seq<ExecutionReport>, side: Side): int {
    if log == [] then 0
    else (if log[0].IsFill() && log[0].side == side then log[0].lastQuantity else 0) + Traded(log[1..], side)
  }

  ghost function Bought(h: HandlerState): int {
    Sum(h.positions, BOUGHT)
  }

  ghost function Sold(h: HandlerState): int {
    Sum(h.positions, SOLD)
  }

  ghost function Net(h: HandlerState): int {
    Sum(h.positions, QUANTITY)
  }

  ghost predicate Numbered(oms: Oms) {
    oms.nextId > 0 && forall c | c in oms.orders :: 0 < c < oms.nextId && oms.orders[c].clientOrderId == c
  }

  lemma TakenIsHandled(h: HandlerState, r: ExecutionReport)
    requires r.clientOrderId != 0 && Takes(h.oms, r) && ReportKey(r) !in h.seen
    ensures Handle(h, r) == (HandlerState(OrdersAfter(h.oms, r), PositionsAfter(h.positions, r),
                                          h.seen + {ReportKey(r)}), Accepted)
  {
    hide ReportKey, OrdersAfter, PositionsAfter;
  }

  lemma ReportMovesTotals(h: HandlerState, t: Table, r: ExecutionReport)
    requires Legal(t, r) && Mirrors(h.oms, t)
    ensures var h' := h.(positions := PositionsAfter(h.positions, r));
            && Bought(h') == Bought(h) + Traded([r], Buy)
            && Sold(h') == Sold(h) + Traded([r], Sell)
            && Net(h') == Net(h) + Traded([r], Buy) - Traded([r], Sell)
  {
    assert [r][1..] == [];
    if r.IsFill() {
      FillMovesTotals(h.positions, r.symbol, r.side, r.lastPrice, r.lastQuantity);
    }
  }

  lemma ExpectedIsKnown(oms: Oms, t: Table, r: ExecutionReport)
    requires Mirrors(oms, t) && Legal(t, r) && Expected(oms, r) && Numbered(oms)
    ensures r.clientOrderId != 0 && r.clientOrderId in oms.orders
  {
  }

  lemma ExpectedIsHandled(h: HandlerState, t: Table, r: ExecutionReport)
    requires Mirrors(h.oms, t) && Legal(t, r) && Expected(h.oms, r) && Numbered(h.oms)
    requires ReportKey(r) !in h.seen
    ensures Handle(h, r) == (HandlerState(OrdersAfter(h.oms, r), PositionsAfter(h.positions, r),
                                          h.seen + {ReportKey(r)}), Accepted)
    ensures Mirrors(OrdersAfter(h.oms, r), After(t, r)) && Numbered(OrdersAfter(h.oms, r))
    ensures OrdersAfter(h.oms, r).nextId == h.oms.nextId
    ensures var h' := Handle(h, r).0;
            && Bought(h') == Bought(h) + Traded([r], Buy)
            && Sold(h') == Sold(h) + Traded([r], Sell)
            && Net(h') == Net(h) + Traded([r], Buy) - Traded([r], Sell)
  {
    hide Handle, ReportKey, OrdersAfter, PositionsAfter, Takes, Mirrors, Legal, After, Expected, Numbered, Traded;
    ExpectedIsTaken(h.oms, t, r);
    ExpectedKeepsMirror(h.oms, t, r);
    ExpectedIsKnown(h.oms, t, r);
    TakenIsHandled(h, r);
    TakenKeepsNumbers(h.oms, r);
    ReportMovesTotals(h, t, r);
  }

  lemma TakenKeepsNumbers(oms: Oms, r: ExecutionReport)
    requires Numbered(oms) && r.clientOrderId in oms.orders
    ensures Numbered(OrdersAfter(oms, r))
  {
  }

  // A log that is delivered whole, with keys the handler has not seen, is accepted whole.
  lemma {:induction false} DeliveryKeepsMirror(h: HandlerState, t: Table, log: seq<ExecutionReport>)
    requires Mirrors(h.oms, t) && Numbered(h.oms) && LegalRun(t, log) && FillsAfterFirst(log)
    requires log != [] ==> Expected(h.oms, log[0])
    requires NewKeys(h.seen, log)
    ensures var h' := HandleAll(h, log);
            && Mirrors(h'.oms, AfterRun(t, log)) && Numbered(h'.oms)
            && h'.oms.nextId == h.oms.nextId
            && h'.seen == h.seen + Keys(log)
            && AllAccepted(h, log)
            && Bought(h') == Bought(h) + Traded(log, Buy)
            && Sold(h') == Sold(h) + Traded(log, Sell)
            && Net(h') == Net(h) + Traded(log, Buy) - Traded(log, Sell)
    decreases |log|
  {
    hide Mirrors, Legal, After, Handle, Bought, Sold, Net, Expected, ReportKey, Numbered, OrdersAfter, PositionsAfter;
    if log != [] {
      var r, rest := log[0], log[1..];
      ExpectedIsHandled(h, t, r);
      var h1 := Handle(h, r).0;
      NewKeysOfTail(h.seen, log);
      if rest != [] {
        FillIsExpected(h1.oms, rest[0]);
      }
      DeliveryKeepsMirror(h1, After(t, r), rest);
      TradedOne(log, Buy);
      TradedOne(log, Sell);
    }
  }

  lemma FillIsExpected(oms: Oms, r: ExecutionReport)
    requires r.IsFill()
    ensures Expected(oms, r)
  {
  }

  lemma TradedOne(log: seq<ExecutionReport>, side: Side)
    requires log != []
    ensures Traded(log, side) == Traded([log[0]], side) + Traded(log[1..], side)
  {
  }

  lemma NewKeysOfTail(seen: set<bv64>, log: seq<ExecutionReport>)
    requires log != [] && NewKeys(seen, log)
    ensures NewKeys(seen + {ReportKey(log[0])}, log[1..])
    ensures ReportKey(log[0]) !in seen
    ensures seen + Keys(log) == seen + {ReportKey(log[0])} + Keys(log[1..])
  {
    hide ReportKey;
    assert log == [log[0]] + log[1..];
    assert forall i | 0 <= i < |log[1..]| :: log[1..][i] == log[i + 1];
  }

  lemma PairIsEven(pair: seq<ExecutionReport>, last: int)
    requires |pair| == 2 && pair[0].IsFill() && pair[1].IsFill() && pair[0].side != pair[1].side
    requires pair[0].lastQuantity == pair[1].lastQuantity == last
    ensures Traded(pair, Buy) == Traded(pair, Sell) == last
  {
    assert pair == [pair[0]] + [pair[1]];
    TradedSum([pair[0]], [pair[1]]);
    assert [pair[0]][1..] == [] && [pair[1]][1..] == [];
  }

  // Each trade is bought once and sold once.
  lemma {:induction false} SweepsAreEven(queue: seq<Resting>, req: GatewayRequest, id: nat, left: int, cum: int)
    requires forall i | 0 <= i < |queue| :: queue[i].side == Opposite(req.side)
    ensures var log := Sweep(queue, req, id, left, cum).log; Traded(log, Buy) == Traded(log, Sell)
  {
    if left <= 0 || queue == [] || !Crosses(req.side, req.price, queue[0].price) {
    } else {
      var last := Min(left, queue[0].remaining);
      var order := Matching.Trade(queue[0], last);
      var pair := TradePair(order, last, req, id, cum + last, left - last);
      PairIsEven(pair, last);
      if order.remaining == 0 {
        SweepsAreEven(queue[1..], req, id, left - last, cum + last);
        TradedSum(pair, Sweep(queue[1..], req, id, left - last, cum + last).log);
      }
    }
  }

  lemma {:induction false} TradedSum(a: seq<ExecutionReport>, b: seq<ExecutionReport>)
    ensures forall side :: Traded(a + b, side) == Traded(a, side) + Traded(b, side)
  {
    if a == [] {
      assert a + b == b;
    } else {
      assert (a + b)[1..] == a[1..] + b;
      TradedSum(a[1..], b);
    }
  }

  lemma LogsAreEven(m: Venue, req: GatewayRequest)
    requires Inv(m)
    ensures var log := Process(m, req).log; Traded(log, Buy) == Traded(log, Sell)
  {
    if req.requestType == NewOrder && ValidNew(m, req) {
      var opposite := m.On(Opposite(req.side));
      assert forall i | 0 <= i < |opposite| :: LiveOn(Opposite(req.side), opposite[i], m.nextId);
      SweepsAreEven(opposite, req, m.nextId, req.quantity, 0);
      var swept := Sweep(opposite, req, m.nextId, req.quantity, 0).log;
      TradedSum([AckReport(req, m.nextId)], swept);
      hide Sweep;
    }
  }
}
