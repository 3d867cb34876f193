// The protocol the exchange speaks: which report may follow which. It is an automaton
// over the orders that are live at the venue, and knows nothing of books or matching.
module ReportStream {
  import opened Types
  import opened Matching

  datatype Live = Live(exchangeId: nat, symbol: Symbol, side: Side, quantity: int, filled: int)

  datatype Table = Table(live: map<nat, Live>, nextId: nat)

  const EMPTY_TABLE := Table(map[], 1)

  predicate About(o: Live, r: ExecutionReport) {
    r.exchangeOrderId == o.exchangeId && r.symbol == o.symbol && r.side == o.side
  }

  predicate LegalFill(o: Live, r: ExecutionReport) {
    && About(o, r)
    && r.lastPrice > 0
    && r.lastQuantity > 0
    && r.cumulativeQuantity == o.filled + r.lastQuantity
    && r.cumulativeQuantity + r.leavesQuantity == o.quantity
    && r.leavesQuantity >= 0
    && (r.execType == ExecType.Fill <==> r.leavesQuantity == 0)
  }

  predicate Legal(t: Table, r: ExecutionReport) {
    var c := r.clientOrderId;
    match r.execType
    case Ack => c != 0 && c !in t.live && r.symbol != "" && r.exchangeOrderId == t.nextId && r.leavesQuantity > 0
    case Reject => r.exchangeOrderId == 0
    case PartialFill => c in t.live && LegalFill(t.live[c], r)
    case Fill => c in t.live && LegalFill(t.live[c], r)
    case CancelAck =>
      c in t.live && About(t.live[c], r) && r.leavesQuantity == t.live[c].quantity - t.live[c].filled
    case CancelReject => c !in t.live
  }

  function After(t: Table, r: ExecutionReport): Table {
    var c := r.clientOrderId;
    match r.execType
    case Ack => Table(t.live[c := Live(r.exchangeOrderId, r.symbol, r.side, r.leavesQuantity, 0)], t.nextId + 1)
    case PartialFill => if c in t.live then t.(live := t.live[c := t.live[c].(filled := r.cumulativeQuantity)]) else t
    case Fill => t.(live := t.live - {c})
    case CancelAck => t.(live := t.live - {c})
    case _ => t
  }

  predicate LegalRun(t: Table, log: seq<ExecutionReport>)
    decreases |log|
  {
    log == [] || (Legal(t, log[0]) && LegalRun(After(t, log[0]), log[1..]))
  }

  function AfterRun(t: Table, log: seq<ExecutionReport>): Table
    decreases |log|
  {
    if log == [] then t else AfterRun(After(t, log[0]), log[1..])
  }

  lemma {:induction false} RunsCompose(t: Table, a: seq<ExecutionReport>, b: seq<ExecutionReport>)
    ensures LegalRun(t, a + b) <==> LegalRun(t, a) && LegalRun(AfterRun(t, a), b)
    ensures AfterRun(t, a + b) == AfterRun(AfterRun(t, a), b)
    decreases |a|
  {
    if a == [] {
      assert a + b == b;
    } else {
      assert (a + b)[1..] == a[1..] + b;
      RunsCompose(After(t, a[0]), a[1..], b);
    }
  }

  lemma RunOfTwo(t: Table, log: seq<ExecutionReport>)
    requires |log| == 2
    ensures LegalRun(t, log) <==> Legal(t, log[0]) && Legal(After(t, log[0]), log[1])
    ensures AfterRun(t, log) == After(After(t, log[0]), log[1])
  {
    assert log[1..][1..] == [];
    assert LegalRun(After(t, log[0]), log[1..]) <==> Legal(After(t, log[0]), log[1]);
    assert AfterRun(After(t, log[0]), log[1..]) == After(After(t, log[0]), log[1]);
  }

  // ----- The exchange speaks the protocol -----

  function LiveOf(r: Resting): Live {
    Live(r.exchangeOrderId, r.symbol, r.side, r.filled + r.remaining, r.filled)
  }

  function LiveMap(queue: seq<Resting>): map<nat, Live> {
    if queue == [] then map[]
    else LiveMap(queue[1..])[queue[0].clientOrderId := LiveOf(queue[0])]
  }

  lemma {:induction false} LiveMapKeys(queue: seq<Resting>)
    ensures LiveMap(queue).Keys == Clients(queue)
  {
    if queue != [] {
      assert queue == [queue[0]] + queue[1..];
      LiveMapKeys(queue[1..]);
    }
  }

  function TableOf(m: Venue): Table {
    Table(LiveMap(m.bids) + LiveMap(m.asks), m.nextId)
  }

  lemma {:induction false} LiveMapHolds(queue: seq<Resting>, i: nat)
    requires Distinct(queue) && i < |queue|
    ensures queue[i].clientOrderId in LiveMap(queue)
    ensures LiveMap(queue)[queue[i].clientOrderId] == LiveOf(queue[i])
  {
    if i > 0 {
      LiveMapHolds(queue[1..], i - 1);
    }
  }

  lemma DistinctTail(queue: seq<Resting>)
    requires Distinct(queue) && queue != []
    ensures Distinct(queue[1..])
    ensures queue[0].clientOrderId !in Clients(queue[1..])
  {
  }

  lemma {:induction false} LiveMapIs(queue: seq<Resting>, m: map<nat, Live>)
    requires Distinct(queue) && m.Keys == Clients(queue)
    requires forall i | 0 <= i < |queue| :: queue[i].clientOrderId in m && m[queue[i].clientOrderId] == LiveOf(queue[i])
    ensures m == LiveMap(queue)
  {
    LiveMapKeys(queue);
    forall c | c in m ensures m[c] == LiveMap(queue)[c] {
      var i :| 0 <= i < |queue| && queue[i].clientOrderId == c;
      LiveMapHolds(queue, i);
    }
  }

  lemma LiveMapInserted(q: seq<Resting>, queue: seq<Resting>, k: nat, order: Resting)
    requires Inserted(q, queue, k, order) && Distinct(q) && Distinct(queue)
    ensures LiveMap(q) == LiveMap(queue)[order.clientOrderId := LiveOf(order)]
    ensures LiveMap(queue) == LiveMap(q) - {order.clientOrderId}
  {
    LiveMapKeys(queue);
    var m := LiveMap(queue)[order.clientOrderId := LiveOf(order)];
    forall i | 0 <= i < |q| ensures q[i].clientOrderId in m && m[q[i].clientOrderId] == LiveOf(q[i]) {
      if i != k {
        LiveMapHolds(queue, if i < k then i else i - 1);
      }
    }
    InsertedClients(q, queue, k, order);
    LiveMapIs(q, m);
  }

  // What one trade does to the table: the resting order, then the incoming one.
  lemma TradePairIsLegal(t: Table, before: Resting, last: int, req: GatewayRequest, id: nat, cum: int, left: int)
    requires var r, c := before.clientOrderId, req.clientOrderId;
             && r != c && r in t.live && c in t.live
             && t.live[r] == LiveOf(before)
             && t.live[c] == Live(id, req.symbol, req.side, cum + left, cum)
    requires 0 < last <= left && last <= before.remaining && before.price > 0
    ensures var order := Trade(before, last);
            var pair := TradePair(order, last, req, id, cum + last, left - last);
            var live1 := if order.remaining == 0 then t.live - {order.clientOrderId}
                         else t.live[order.clientOrderId := LiveOf(order)];
            && LegalRun(t, pair)
            && AfterRun(t, pair) == t.(live := Settle(live1, req, id, left, cum, last))
  {
    var order := Trade(before, last);
    var pair := TradePair(order, last, req, id, cum + last, left - last);
    RunOfTwo(t, pair);
  }

  function Incoming(base: map<nat, Live>, req: GatewayRequest, id: nat, left: int, cum: int): map<nat, Live> {
    if left == 0 then base else base[req.clientOrderId := Live(id, req.symbol, req.side, cum + left, cum)]
  }

  ghost predicate Priced(queue: seq<Resting>) {
    forall i | 0 <= i < |queue| :: queue[i].price > 0
  }

  function Settle(live: map<nat, Live>, req: GatewayRequest, id: nat, left: int, cum: int, last: int): map<nat, Live> {
    if left == last then live - {req.clientOrderId}
    else live[req.clientOrderId := Live(id, req.symbol, req.side, cum + left, cum + last)]
  }

  lemma TableAfterPair(base: map<nat, Live>, tail: map<nat, Live>, req: GatewayRequest, id: nat,
                       left: int, cum: int, last: int, r: nat, before: Live, after: Live)
    requires req.clientOrderId !in base && req.clientOrderId !in tail && req.clientOrderId != r
    requires r !in base && r !in tail
    requires 0 < last <= left
    ensures var live := Incoming(base, req, id, left, cum) + tail[r := before];
            var base' := Incoming(base, req, id, left - last, cum + last);
            && Settle(live - {r}, req, id, left, cum, last) == base' + tail
            && Settle(live[r := after], req, id, left, cum, last) == base' + tail[r := after]
  {
  }

  ghost predicate Sweepable(base: map<nat, Live>, queue: seq<Resting>, req: GatewayRequest) {
    && AllLive(queue) && Priced(queue) && Distinct(queue)
    && req.clientOrderId !in base
    && req.clientOrderId !in LiveMap(queue)
    && forall c | c in base :: c !in LiveMap(queue)
  }

  function Sweeping(base: map<nat, Live>, n: nat, queue: seq<Resting>, req: GatewayRequest,
                    id: nat, left: int, cum: int)
    : Table
  {
    Table(Incoming(base, req, id, left, cum) + LiveMap(queue), n)
  }

  lemma SweepableTail(base: map<nat, Live>, queue: seq<Resting>, req: GatewayRequest)
    requires queue != [] && Sweepable(base, queue, req)
    ensures Sweepable(base, queue[1..], req)
    ensures queue[0].clientOrderId !in LiveMap(queue[1..])
  {
    DistinctTail(queue);
    LiveMapKeys(queue[1..]);
  }

  lemma FirstPairIsLegal(
      base: map<nat, Live>, n: nat, queue: seq<Resting>, req: GatewayRequest, id: nat, left: int, cum: int)
    requires queue != [] && left > 0 && Sweepable(base, queue, req)
    ensures var t := Sweeping(base, n, queue, req, id, left, cum);
            var last := Min(left, queue[0].remaining);
            var order := Trade(queue[0], last);
            var queue' := if order.remaining == 0 then queue[1..] else [order] + queue[1..];
            var pair := TradePair(order, last, req, id, cum + last, left - last);
            && LegalRun(t, pair)
            && AfterRun(t, pair) == Sweeping(base, n, queue', req, id, left - last, cum + last)
  {
    SweepableTail(base, queue, req);
    assert queue[0].remaining > 0 && queue[0].price > 0 && queue[0].clientOrderId in LiveMap(queue);
    hide Sweepable;
    var t := Sweeping(base, n, queue, req, id, left, cum);
    var last := Min(left, queue[0].remaining);
    var order, before, tail := Trade(queue[0], last), LiveOf(queue[0]), LiveMap(queue[1..]);
    assert LiveMap(queue) == tail[order.clientOrderId := before];
    assert t.live[req.clientOrderId] == Live(id, req.symbol, req.side, cum + left, cum);
    TradePairIsLegal(t, queue[0], last, req, id, cum, left);
    TableAfterPair(base, tail, req, id, left, cum, last, order.clientOrderId, before, LiveOf(order));
    LiveMapOfFront(order, queue[1..]);
  }

  lemma LiveMapOfFront(order: Resting, tail: seq<Resting>)
    ensures LiveMap([order] + tail) == LiveMap(tail)[order.clientOrderId := LiveOf(order)]
  {
  }

  // Every sweep is a legal stretch of the stream: the table loses exactly what the queue loses.
  lemma {:induction false} SweepIsLegal(
      base: map<nat, Live>, n: nat, queue: seq<Resting>, req: GatewayRequest, id: nat, left: int, cum: int)
    requires left >= 0 && Sweepable(base, queue, req)
    ensures var s := Sweep(queue, req, id, left, cum);
            var t := Sweeping(base, n, queue, req, id, left, cum);
            && LegalRun(t, s.log)
            && AfterRun(t, s.log) == Sweeping(base, n, s.queue, req, id, s.left, s.cumulative)
    decreases |queue|
  {
    hide Sweepable, Sweeping, Legal, After;
    if left <= 0 || queue == [] || !Crosses(req.side, req.price, queue[0].price) {
    } else {
      var last := Min(left, queue[0].remaining);
      var order := Trade(queue[0], last);
      FirstPairIsLegal(base, n, queue, req, id, left, cum);
      SweepableTail(base, queue, req);
      if order.remaining == 0 {
        SweepIsLegal(base, n, queue[1..], req, id, left - last, cum + last);
        RunsCompose(Sweeping(base, n, queue, req, id, left, cum),
                    TradePair(order, last, req, id, cum + last, left - last),
                    Sweep(queue[1..], req, id, left - last, cum + last).log);
      }
    }
  }

  // ----- Whole requests -----

  lemma ApartMaps(m: Venue)
    requires Inv(m)
    ensures LiveMap(m.bids).Keys !! LiveMap(m.asks).Keys
    ensures TableOf(m).live.Keys == Clients(m.bids) + Clients(m.asks)
  {
    LiveMapKeys(m.bids);
    LiveMapKeys(m.asks);
  }

  lemma TableBySides(side: Side, m: Venue)
    requires Inv(m)
    ensures TableOf(m).live == LiveMap(m.On(side)) + LiveMap(m.On(Opposite(side)))
    ensures forall c | c in LiveMap(m.On(side)) :: c !in LiveMap(m.On(Opposite(side)))
  {
    ApartMaps(m);
  }

  lemma SweepableSide(m: Venue, req: GatewayRequest)
    requires Inv(m) && ValidNew(m, req)
    ensures Sweepable(LiveMap(m.On(req.side)), m.On(Opposite(req.side)), req)
  {
    ApartMaps(m);
    TableBySides(req.side, m);
    hide LiveMap;
  }

  lemma AckOpensTheSweep(m: Venue, req: GatewayRequest)
    requires Inv(m) && ValidNew(m, req)
    ensures var base := LiveMap(m.On(req.side));
            && Legal(TableOf(m), AckReport(req, m.nextId))
            && After(TableOf(m), AckReport(req, m.nextId))
               == Sweeping(base, m.nextId + 1, m.On(Opposite(req.side)), req, m.nextId, req.quantity, 0)
  {
    hide GoodQueue, Distinct, Apart, LiveMap;
    ApartMaps(m);
    TableBySides(req.side, m);
  }

  lemma RestClosesTheSweep(m: Venue, req: GatewayRequest)
    requires Inv(m) && ValidNew(m, req)
    ensures var s := Sweep(m.On(Opposite(req.side)), req, m.nextId, req.quantity, 0);
            && s.left >= 0
            && Sweeping(LiveMap(m.On(req.side)), m.nextId + 1, s.queue, req, m.nextId, s.left, s.cumulative)
               == TableOf(ProcessNew(m, req).venue)
  {
    hide GoodQueue, Apart, Sweep, Enqueue, LiveMap;
    var side, id := req.side, m.nextId;
    var own, opposite := m.On(side), m.On(Opposite(side));
    var m' := ProcessNew(m, req).venue;
    InvBySides(side, m);
    ProcessNewKeepsInv(m, req);
    TableBySides(side, m');
    SweptSidesGood(side, own, opposite, req, id);
    var s := Sweep(opposite, req, id, req.quantity, 0);
    if s.left > 0 {
      var order := RestingOrder(req, id, s.left);
      EnqueueStaysGood(side, own, order, s.queue, id);
      LiveMapInserted(Enqueue(side, own, order), own, Rank(side, own, order.price), order);
    }
  }

  lemma ProcessNewIsLegal(m: Venue, req: GatewayRequest)
    requires Inv(m)
    ensures var done := ProcessNew(m, req);
            LegalRun(TableOf(m), done.log) && AfterRun(TableOf(m), done.log) == TableOf(done.venue)
  {
    hide Inv, TableOf, Sweeping, Sweepable, Sweep;
    if ValidNew(m, req) {
      var base, opposite := LiveMap(m.On(req.side)), m.On(Opposite(req.side));
      var ack, t := AckReport(req, m.nextId), TableOf(m);
      var s := Sweep(opposite, req, m.nextId, req.quantity, 0);
      AckOpensTheSweep(m, req);
      SweepableSide(m, req);
      SweepIsLegal(base, m.nextId + 1, opposite, req, m.nextId, req.quantity, 0);
      RestClosesTheSweep(m, req);
      assert ([ack] + s.log)[1..] == s.log;
    } else {
      assert [RejectReport(req)][1..] == [];
    }
  }

  lemma WithoutIsInverse(queue: seq<Resting>, k: nat)
    requires Distinct(queue) && k < |queue|
    ensures Inserted(queue, Without(queue, k), k, queue[k])
    ensures Distinct(Without(queue, k))
  {
  }

  lemma LiveMapWithout(queue: seq<Resting>, k: nat)
    requires Distinct(queue) && k < |queue|
    ensures queue[k].clientOrderId in LiveMap(queue)
    ensures LiveMap(queue)[queue[k].clientOrderId] == LiveOf(queue[k])
    ensures LiveMap(Without(queue, k)) == LiveMap(queue) - {queue[k].clientOrderId}
  {
    hide Inserted, Without;
    LiveMapHolds(queue, k);
    WithoutIsInverse(queue, k);
    LiveMapInserted(queue, Without(queue, k), k, queue[k]);
  }

  lemma UnionWithout<K, V>(a: map<K, V>, b: map<K, V>, k: K)
    requires k !in b
    ensures (a - {k}) + b == a + b - {k}
    ensures b + (a - {k}) == b + a - {k}
  {
  }

  lemma CancelAckIsLegal(t: Table, order: Resting, now: nat)
    requires order.clientOrderId in t.live && t.live[order.clientOrderId] == LiveOf(order)
    ensures Legal(t, CancelAckReport(order, now))
    ensures After(t, CancelAckReport(order, now)) == t.(live := t.live - {order.clientOrderId})
  {
  }

  lemma CancelIsLegal(m: Venue, req: GatewayRequest)
    requires Inv(m)
    ensures var done := ProcessCancel(m, req);
            && |done.log| == 1
            && Legal(TableOf(m), done.log[0])
            && After(TableOf(m), done.log[0]) == TableOf(done.venue)
  {
    ApartMaps(m);
    var c, bids, asks := req.clientOrderId, LiveMap(m.bids), LiveMap(m.asks);
    var b, a := IndexOf(m.bids, c), IndexOf(m.asks, c);
    LiveMapKeys(m.bids);
    LiveMapKeys(m.asks);
    assert Distinct(m.bids) && Distinct(m.asks);
    hide Inv, LiveMap, LiveOf, Distinct, Without, Clients;
    if b < |m.bids| {
      LiveMapWithout(m.bids, b);
      UnionWithout(bids, asks, c);
      CancelAckIsLegal(TableOf(m), m.bids[b], req.sendTimestamp);
    } else if a < |m.asks| {
      LiveMapWithout(m.asks, a);
      UnionWithout(asks, bids, c);
      CancelAckIsLegal(TableOf(m), m.asks[a], req.sendTimestamp);
    }
  }

  // Whatever it is asked, the exchange's log is a legal continuation of its stream, and the
  // orders the stream leaves open are exactly those that rest in the book.
  lemma ProcessIsLegal(m: Venue, req: GatewayRequest)
    requires Inv(m)
    ensures var done := Process(m, req);
            LegalRun(TableOf(m), done.log) && AfterRun(TableOf(m), done.log) == TableOf(done.venue)
  {
    hide Inv, TableOf, ProcessNew, ProcessCancel;
    if req.requestType == CancelOrder {
      CancelIsLegal(m, req);
      var log := ProcessCancel(m, req).log;
      assert log[1..] == [];
    } else {
      ProcessNewIsLegal(m, req);
    }
  }
}
