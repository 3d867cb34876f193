// Orders, gateway, exchange, report handler and positions as one synchronous loop
// (apps/trading_sim.cpp:133-156), on values.
module ClosedLoop {
  import opened Types
  import opened Sums
  import opened Matching
  import opened ReportStream
  import opened ReportBatch
  import opened OrderLifecycle
  import opened OrderManagement
  import opened Positions
  import opened ReportKeys
  import opened ReportHandler
  import opened Gateway

  datatype World = World(handler: HandlerState, venue: Venue, sequence: nat)

  const START := World(HandlerState(EMPTY_OMS, map[], {}), EMPTY_VENUE, 1)

  // What the environment may do: place an order (created, submitted and sent at once), ask for
  // a cancel, or send one; in any order, with or without the other.
  datatype Action =
    | Place(symbol: Symbol, side: Side, price: int, quantity: int, now: nat)
    | AskCancel(id: nat)
    | SendCancelFor(id: nat, now: nat)

  // The manager before anything is sent.
  function Prepared(oms: Oms, a: Action): Oms {
    match a
    case Place(symbol, side, price, quantity, now) =>
      Happen(Create(oms, symbol, side, price, quantity, now), oms.nextId, Submit, 0, 0)
    case AskCancel(id) => Happen(oms, id, CancelRequest, 0, 0)
    case SendCancelFor(_, _) => oms
  }

  function Sent(w: World, a: Action): Sending {
    var oms := Prepared(w.handler.oms, a);
    match a
    case Place(_, _, _, _, now) =>
      if w.handler.oms.nextId in oms.orders then SendNew(oms.orders[w.handler.oms.nextId], w.sequence, now) else Nothing
    case AskCancel(_) => Nothing
    case SendCancelFor(id, now) => if id in oms.orders then SendCancel(oms.orders[id], w.sequence, now) else Nothing
  }

  // Everything the exchange says in answer, including what does not fit the batch.
  function LogOf(w: World, a: Action): seq<ExecutionReport> {
    var sent := Sent(w, a);
    if sent.Nothing? then [] else Process(w.venue, sent.request).log
  }

  function Step(w: World, a: Action): World {
    var sent := Sent(w, a);
    var h := w.handler.(oms := Prepared(w.handler.oms, a));
    if sent.Nothing? then w.(handler := h)
    else
      var done := Process(w.venue, sent.request);
      World(HandleAll(h, Kept(done.log)), done.venue, w.sequence + 1)
  }

  function Steps(w: World, actions: seq<Action>): World
    decreases |actions|
  {
    if actions == [] then w else Steps(Step(w, actions[0]), actions[1..])
  }

  // ----- Positions and fills -----

  ghost function SignedFilled(symbol: Symbol): OrderData -> int {
    (o: OrderData) => if o.symbol == symbol then Signed(o.side, o.filledQuantity) else 0
  }

  // Each symbol's position is the signed sum of what its orders filled.
  ghost predicate Balanced(h: HandlerState) {
    forall symbol :: StateOf(h.positions, symbol).quantity == Sum(h.oms.orders, SignedFilled(symbol))
  }

  // The manager knows every order that is live at the venue, and has not filled more of it
  // than the venue has; but it may lag behind.
  ghost predicate Lags(o: OrderData, l: Live) {
    && o.symbol == l.symbol != ""
    && o.side == l.side
    && o.quantity == l.quantity
    && Sound(o)
    && (o.status != Filled ==> o.filledQuantity <= l.filled)
  }

  ghost predicate Behind(oms: Oms, t: Table) {
    && oms.nextId > 0
    && (forall c | c in oms.orders :: 0 < c < oms.nextId && oms.orders[c].clientOrderId == c)
    && (forall c | c in t.live :: c in oms.orders && Lags(oms.orders[c], t.live[c]))
  }

  lemma FillAppliesExactly(o: OrderData, quantity: int, price: int)
    requires Sound(o) && CanFill(o, quantity, price) && quantity <= o.remainingQuantity
    ensures ApplyFill(o, quantity, price).filledQuantity == o.filledQuantity + quantity
  {
  }

  // An acknowledgement is for an order the manager has, and has filled nothing of.
  predicate Known(oms: Oms, r: ExecutionReport) {
    r.execType == ExecType.Ack ==>
      && r.clientOrderId in oms.orders
      && var o := oms.orders[r.clientOrderId];
         o.symbol == r.symbol && o.side == r.side && o.quantity == r.leavesQuantity && o.filledQuantity == 0 && Sound(o)
  }

  // A report that never arrives leaves the manager behind, not ahead.
  lemma DropKeepsBehind(oms: Oms, t: Table, r: ExecutionReport)
    requires Behind(oms, t) && Legal(t, r) && Known(oms, r)
    ensures Behind(oms, After(t, r))
  {
  }

  // The order a report is about, before and after it is taken.
  lemma TakenFill(oms: Oms, t: Table, r: ExecutionReport)
    requires Behind(oms, t) && Legal(t, r) && Known(oms, r) && Takes(oms, r)
    ensures var c := r.clientOrderId;
            var o, o' := oms.orders[c], OrdersAfter(oms, r).orders[c];
            && OrdersAfter(oms, r) == oms.(orders := oms.orders[c := o'])
            && o'.clientOrderId == c
            && o'.symbol == o.symbol && o'.side == o.side && o'.quantity == o.quantity
            && o'.filledQuantity == o.filledQuantity + FillQuantity(r)
            && (c in After(t, r).live ==> Lags(o', After(t, r).live[c]))
            && (r.IsFill() ==> o.symbol == r.symbol && o.side == r.side)
  {
    var c := r.clientOrderId;
    var o := oms.orders[c];
    if c in t.live || r.execType == ExecType.Ack {
      ApplyKeepsSound(o, EventOf(r.execType), FillQuantity(r), FillPrice(r));
      if r.IsFill() {
        FillAppliesExactly(o, r.lastQuantity, r.lastPrice);
        hide ApplyFill, Sound;
      }
    }
  }

  lemma TakenKeepsBehind(oms: Oms, t: Table, r: ExecutionReport)
    requires Behind(oms, t) && Legal(t, r) && Known(oms, r) && Takes(oms, r)
    ensures Behind(OrdersAfter(oms, r), After(t, r))
  {
    TakenFill(oms, t, r);
    DropKeepsBehind(oms, t, r);
    hide Lags, OrdersAfter, Takes, Known, Legal;
    forall c | c in After(t, r).live && c != r.clientOrderId
      ensures Lags(OrdersAfter(oms, r).orders[c], After(t, r).live[c])
    {
      assert Lags(oms.orders[c], After(t, r).live[c]);
    }
  }

  // A fill moves the position by what it fills of its order.
  lemma TakenKeepsBalance(h: HandlerState, t: Table, r: ExecutionReport)
    requires Balanced(h) && Behind(h.oms, t) && Legal(t, r) && Known(h.oms, r) && Takes(h.oms, r)
    ensures Balanced(h.(oms := OrdersAfter(h.oms, r), positions := PositionsAfter(h.positions, r)))
  {
    var c := r.clientOrderId;
    var o, o' := h.oms.orders[c], OrdersAfter(h.oms, r).orders[c];
    var positions' := PositionsAfter(h.positions, r);
    TakenFill(h.oms, t, r);
    forall symbol
      ensures StateOf(positions', symbol).quantity == Sum(OrdersAfter(h.oms, r).orders, SignedFilled(symbol))
    {
      SumPut(h.oms.orders, SignedFilled(symbol), c, o');
      if r.IsFill() {
        FillMoves(StateOf(h.positions, r.symbol), r.side, r.lastPrice, r.lastQuantity);
      }
    }
  }

  lemma HandlingKeepsBooks(h: HandlerState, t: Table, r: ExecutionReport)
    requires Balanced(h) && Behind(h.oms, t) && Legal(t, r) && Known(h.oms, r)
    ensures Balanced(Handle(h, r).0) && Behind(Handle(h, r).0.oms, After(t, r))
    ensures Handle(h, r).0.oms.nextId == h.oms.nextId
  {
    hide Balanced, Behind, Legal, Known, ReportKey;
    DropKeepsBehind(h.oms, t, r);
    if Takes(h.oms, r) {
      TakenKeepsBehind(h.oms, t, r);
      TakenKeepsBalance(h, t, r);
      BalanceIgnoresSeen(h.(oms := OrdersAfter(h.oms, r), positions := PositionsAfter(h.positions, r)),
                         h.seen + {ReportKey(r)});
    }
  }

  lemma BalanceIgnoresSeen(h: HandlerState, seen: set<bv64>)
    requires Balanced(h)
    ensures Balanced(h.(seen := seen))
  {
  }

  // ----- One batch -----

  // However much of a log is delivered, and whichever of it the handler refuses, the books balance
  // and the manager is at most behind the venue.
  lemma {:induction false} DeliveryKeepsBooks(h: HandlerState, t: Table, log: seq<ExecutionReport>, n: nat)
    requires n <= |log| && LegalRun(t, log) && FillsAfterFirst(log)
    requires log != [] ==> Known(h.oms, log[0])
    requires Balanced(h) && Behind(h.oms, t)
    ensures var h' := HandleAll(h, log[..n]);
            Balanced(h') && Behind(h'.oms, AfterRun(t, log)) && h'.oms.nextId == h.oms.nextId
    decreases |log|
  {
    hide Balanced, Behind, Legal, After, Handle;
    if log != [] {
      assert log[1..] != [] ==> log[1].IsFill();
      var t' := After(t, log[0]);
      if n == 0 {
        DropKeepsBehind(h.oms, t, log[0]);
        DeliveryKeepsBooks(h, t', log[1..], 0);
        assert log[..0] == log[1..][..0];
      } else {
        HandlingKeepsBooks(h, t, log[0]);
        DeliveryKeepsBooks(Handle(h, log[0]).0, t', log[1..], n - 1);
        assert log[..n][1..] == log[1..][..n - 1];
      }
    }
  }

  // ----- Every run -----

  ghost predicate Sane(w: World) {
    Inv(w.venue) && Balanced(w.handler) && Behind(w.handler.oms, TableOf(w.venue))
  }

  lemma StartIsSane()
    ensures Sane(START)
  {
  }

  lemma EventKeepsBooks(h: HandlerState, t: Table, id: nat, event: OrderEvent)
    requires Balanced(h) && Behind(h.oms, t) && (event == Submit || event == CancelRequest)
    ensures var h' := h.(oms := Happen(h.oms, id, event, 0, 0)); Balanced(h') && Behind(h'.oms, t)
  {
    if id in h.oms.orders {
      var o := h.oms.orders[id];
      var o' := Apply(o, event, 0, 0).order;
      forall symbol ensures SignedFilled(symbol)(o') == SignedFilled(symbol)(o) {
      }
      forall symbol
        ensures Sum(h.oms.orders[id := o'], SignedFilled(symbol)) == Sum(h.oms.orders, SignedFilled(symbol))
      {
        SumPut(h.oms.orders, SignedFilled(symbol), id, o');
      }
    }
  }

  lemma CreateKeepsBooks(h: HandlerState, t: Table, symbol: Symbol, side: Side, price: int, quantity: int, now: nat)
    requires Balanced(h) && Behind(h.oms, t)
    ensures var h' := h.(oms := Create(h.oms, symbol, side, price, quantity, now)); Balanced(h') && Behind(h'.oms, t)
  {
    var id, o := h.oms.nextId, NewOrderData(h.oms.nextId, symbol, side, price, quantity, now);
    assert id !in h.oms.orders;
    forall s ensures Sum(h.oms.orders[id := o], SignedFilled(s)) == Sum(h.oms.orders, SignedFilled(s)) {
      SumPut(h.oms.orders, SignedFilled(s), id, o);
    }
  }

  lemma PreparedKeepsBooks(w: World, a: Action)
    requires Sane(w)
    ensures var h := w.handler.(oms := Prepared(w.handler.oms, a));
            Balanced(h) && Behind(h.oms, TableOf(w.venue))
  {
    hide Balanced, Behind, Create, Happen;
    match a
    case Place(symbol, side, price, quantity, now) =>
      CreateKeepsBooks(w.handler, TableOf(w.venue), symbol, side, price, quantity, now);
      EventKeepsBooks(w.handler.(oms := Create(w.handler.oms, symbol, side, price, quantity, now)), TableOf(w.venue),
                      w.handler.oms.nextId, Submit);
    case AskCancel(id) =>
      EventKeepsBooks(w.handler, TableOf(w.venue), id, CancelRequest);
    case SendCancelFor(_, _) =>
  }

  lemma SentIsKnown(w: World, a: Action)
    requires Sent(w, a).Sending?
    ensures var req := Sent(w, a).request;
            && (req.requestType == NewOrder ==> Known(Prepared(w.handler.oms, a), AckReport(req, w.venue.nextId)))
            && (req.requestType == NewOrder <==> a.Place?)
  {
  }

  lemma StepKeepsSane(w: World, a: Action)
    requires Sane(w)
    ensures Sane(Step(w, a))
  {
    PreparedKeepsBooks(w, a);
    var sent := Sent(w, a);
    if sent.Sending? {
      var h := w.handler.(oms := Prepared(w.handler.oms, a));
      var log := Process(w.venue, sent.request).log;
      SentIsKnown(w, a);
      LogShape(w.venue, sent.request);
      ProcessKeepsInv(w.venue, sent.request);
      ProcessIsLegal(w.venue, sent.request);
      hide Balanced, Behind, Inv, TableOf, Process, Sent, Prepared;
      var n := if |log| <= MAX_REPORTS then |log| else MAX_REPORTS;
      assert Kept(log) == log[..n];
      if log[0].execType != ExecType.Ack {
        assert Known(h.oms, log[0]);
      }
      DeliveryKeepsBooks(h, TableOf(w.venue), log, n);
    }
  }

  // Positions equal fills on every run of the loop: with overflowing batches, with reports lost to
  // colliding keys, and with cancels sent that the manager never asked for.
  lemma {:induction false} PositionsEqualFills(w: World, actions: seq<Action>)
    requires Sane(w)
    ensures Sane(Steps(w, actions))
    ensures Balanced(Steps(w, actions).handler)
    decreases |actions|
  {
    hide Step, Balanced, Behind;
    if actions != [] {
      StepKeepsSane(w, actions[0]);
      PositionsEqualFills(Step(w, actions[0]), actions[1..]);
    }
  }
}
