// The crossing loop against a closed form of price-time priority: what an order in
// the opposite queue trades depends only on the quantity queued ahead of it.
module PriceTimePriority {
  import opened Types
  import opened Matching

  function Depth(queue: seq<Resting>): int {
    if queue == [] then 0 else queue[0].remaining + Depth(queue[1..])
  }

  // What the i-th order gives to an incoming order of `quantity`.
  function Share(queue: seq<Resting>, side: Side, limit: int, quantity: int, i: nat): int
    requires i < |queue|
  {
    if Crosses(side, limit, queue[i].price)
    then Max(0, Min(queue[i].remaining, quantity - Depth(queue[..i])))
    else 0
  }

  // How many orders an incoming order of `quantity` hits.
  function Hits(queue: seq<Resting>, side: Side, limit: int, quantity: int): (h: nat)
    ensures h <= |queue|
  {
    if quantity <= 0 || queue == [] || !Crosses(side, limit, queue[0].price) then 0
    else 1 + Hits(queue[1..], side, limit, quantity - queue[0].remaining)
  }

  // How many orders the limit reaches at all.
  function Reach(queue: seq<Resting>, side: Side, limit: int): (n: nat)
    ensures n <= |queue|
  {
    if queue == [] || !Crosses(side, limit, queue[0].price) then 0
    else 1 + Reach(queue[1..], side, limit)
  }

  // A queue in which a price the limit does not reach is followed only by such prices.
  ghost predicate Sorted(queue: seq<Resting>, side: Side) {
    && AllLive(queue)
    && forall i, j | 0 <= i < j < |queue| :: !Better(Opposite(side), queue[j].price, queue[i].price)
  }

  lemma GoodQueueIsSorted(queue: seq<Resting>, side: Side, nextId: nat)
    requires GoodQueue(Opposite(side), queue, nextId)
    ensures Sorted(queue, side)
  {
  }

  lemma {:induction false} DepthIsPositive(queue: seq<Resting>)
    requires AllLive(queue)
    ensures Depth(queue) >= 0 && (queue != [] ==> Depth(queue) >= queue[0].remaining)
  {
    if queue != [] {
      DepthIsPositive(queue[1..]);
    }
  }

  lemma ShareOfTail(queue: seq<Resting>, side: Side, limit: int, quantity: int, i: nat)
    requires 1 <= i < |queue|
    ensures Share(queue, side, limit, quantity, i)
         == Share(queue[1..], side, limit, quantity - queue[0].remaining, i - 1)
  {
    assert queue[..i][1..] == queue[1..][..i - 1];
  }

  // The orders hit are exactly those that get a positive share, and they come first;
  // all but the last of them are used up.
  lemma {:induction false} HitsAreThePositiveShares(queue: seq<Resting>, side: Side, limit: int, quantity: int)
    requires Sorted(queue, side)
    ensures var h := Hits(queue, side, limit, quantity);
            && (forall i | 0 <= i < |queue| :: 0 < Share(queue, side, limit, quantity, i) <==> i < h)
            && (forall i | 0 <= i < h - 1 :: Share(queue, side, limit, quantity, i) == queue[i].remaining)
  {
    var h := Hits(queue, side, limit, quantity);
    if h == 0 {
      forall i | 0 <= i < |queue| ensures Share(queue, side, limit, quantity, i) <= 0 {
        DepthIsPositive(queue[..i]);
        assert i == 0 || !Better(Opposite(side), queue[i].price, queue[0].price);
      }
    } else {
      var left := quantity - queue[0].remaining;
      assert Sorted(queue[1..], side);
      HitsAreThePositiveShares(queue[1..], side, limit, left);
      assert queue[..0] == [];
      forall i | 1 <= i < |queue|
        ensures 0 < Share(queue, side, limit, quantity, i) <==> i < h
        ensures i < h - 1 ==> Share(queue, side, limit, quantity, i) == queue[i].remaining
      {
        ShareOfTail(queue, side, limit, quantity, i);
        assert 0 < Share(queue[1..], side, limit, left, i - 1) <==> i - 1 < h - 1;
      }
      if h > 1 {
        assert Hits(queue[1..], side, limit, left) > 0;
      }
    }
  }

  // The two reports of the i-th hit.
  function TradeReports(queue: seq<Resting>, req: GatewayRequest, id: nat, left: int, cum: int, i: nat)
    : seq<ExecutionReport>
    requires i < |queue|
  {
    var share := Share(queue, req.side, req.price, left, i);
    var done := Depth(queue[..i]) + share;
    TradePair(Trade(queue[i], share), share, req, id, cum + done, left - done)
  }

  function Leftover(queue: seq<Resting>, side: Side, limit: int, quantity: int): seq<Resting> {
    var h := Hits(queue, side, limit, quantity);
    if h > 0 && Share(queue, side, limit, quantity, h - 1) < queue[h - 1].remaining
    then [Trade(queue[h - 1], Share(queue, side, limit, quantity, h - 1))] + queue[h..]
    else queue[h..]
  }

  lemma TradeReportsOfTail(queue: seq<Resting>, req: GatewayRequest, id: nat, left: int, cum: int, i: nat)
    requires 1 <= i < |queue|
    ensures TradeReports(queue, req, id, left, cum, i)
         == TradeReports(queue[1..], req, id, left - queue[0].remaining, cum + queue[0].remaining, i - 1)
  {
    ShareOfTail(queue, req.side, req.price, left, i);
    assert queue[..i][1..] == queue[1..][..i - 1];
  }

  lemma FirstTrade(queue: seq<Resting>, req: GatewayRequest, id: nat, left: int, cum: int)
    requires AllLive(queue) && Hits(queue, req.side, req.price, left) > 0
    ensures var last := Min(left, queue[0].remaining);
            && Share(queue, req.side, req.price, left, 0) == last
            && Sweep(queue, req, id, left, cum) ==
               var reports := TradeReports(queue, req, id, left, cum, 0);
               if last == queue[0].remaining
               then (var rest := Sweep(queue[1..], req, id, left - last, cum + last); rest.(log := reports + rest.log))
               else Swept([Trade(queue[0], last)] + queue[1..], 0, cum + last, reports)
  {
  }

  lemma LogByTrades(queue: seq<Resting>, req: GatewayRequest, id: nat, left: int, cum: int, h: nat,
                    first: seq<ExecutionReport>, rest: seq<ExecutionReport>)
    requires 0 < h <= |queue| && |rest| == 2 * (h - 1)
    requires first == TradeReports(queue, req, id, left, cum, 0)
    requires forall i | 0 <= i < h - 1 ::
      rest[2 * i..2 * i + 2]
        == TradeReports(queue[1..], req, id, left - queue[0].remaining, cum + queue[0].remaining, i)
    ensures forall i | 0 <= i < h :: (first + rest)[2 * i..2 * i + 2] == TradeReports(queue, req, id, left, cum, i)
  {
    forall i | 1 <= i < h ensures (first + rest)[2 * i..2 * i + 2] == TradeReports(queue, req, id, left, cum, i) {
      TradeReportsOfTail(queue, req, id, left, cum, i);
      assert (first + rest)[2 * i..2 * i + 2] == rest[2 * (i - 1)..2 * (i - 1) + 2];
    }
  }

  // The crossing loop is price-time greedy matching: each hit trades its share, in queue order...
  lemma {:induction false} SweepLogIsGreedy(queue: seq<Resting>, req: GatewayRequest, id: nat, left: int, cum: int)
    requires AllLive(queue) && left >= 0
    ensures var log := Sweep(queue, req, id, left, cum).log;
            var h := Hits(queue, req.side, req.price, left);
            && |log| == 2 * h
            && (forall i | 0 <= i < h :: log[2 * i..2 * i + 2] == TradeReports(queue, req, id, left, cum, i))
  {
    var h := Hits(queue, req.side, req.price, left);
    if h > 0 {
      FirstTrade(queue, req, id, left, cum);
      var first, last := TradeReports(queue, req, id, left, cum, 0), Min(left, queue[0].remaining);
      if last == queue[0].remaining {
        var rest := Sweep(queue[1..], req, id, left - last, cum + last).log;
        SweepLogIsGreedy(queue[1..], req, id, left - last, cum + last);
        LogByTrades(queue, req, id, left, cum, h, first, rest);
      } else {
        assert h == 1;
      }
    }
  }

  // ... and what it leaves is what no share was taken from.
  lemma {:induction false} SweepQueueIsGreedy(queue: seq<Resting>, req: GatewayRequest, id: nat, left: int, cum: int)
    requires AllLive(queue) && left >= 0
    ensures Sweep(queue, req, id, left, cum).queue == Leftover(queue, req.side, req.price, left)
  {
    var h := Hits(queue, req.side, req.price, left);
    if h > 0 {
      FirstTrade(queue, req, id, left, cum);
      var last := Min(left, queue[0].remaining);
      if last == queue[0].remaining {
        SweepQueueIsGreedy(queue[1..], req, id, left - last, cum + last);
        if h > 1 {
          ShareOfTail(queue, req.side, req.price, left, h - 1);
        }
      }
    }
  }

  // The quantity traded is the lesser of the incoming quantity and everything the limit reaches.
  lemma {:induction false} SweepTradesTheMinimum(queue: seq<Resting>, req: GatewayRequest, id: nat, left: int, cum: int)
    requires AllLive(queue) && left >= 0
    ensures Sweep(queue, req, id, left, cum).cumulative
         == cum + Min(left, Depth(queue[..Reach(queue, req.side, req.price)]))
  {
    var n := Reach(queue, req.side, req.price);
    if n > 0 {
      DepthIsPositive(queue[1..n]);
      assert queue[..n][1..] == queue[1..n] == queue[1..][..n - 1];
      var last := Min(left, queue[0].remaining);
      if left > 0 && last == queue[0].remaining {
        SweepTradesTheMinimum(queue[1..], req, id, left - last, cum + last);
      }
    }
  }

  // Everything the limit reaches, wherever it stands.
  function CrossingDepth(queue: seq<Resting>, side: Side, limit: int): int {
    if queue == [] then 0
    else
      (if Crosses(side, limit, queue[0].price) then queue[0].remaining else 0) + CrossingDepth(queue[1..], side, limit)
  }

  lemma TailIsSorted(queue: seq<Resting>, side: Side)
    requires Sorted(queue, side) && queue != []
    ensures Sorted(queue[1..], side)
  {
  }

  lemma {:induction false} NothingCrosses(queue: seq<Resting>, side: Side, limit: int)
    requires forall i | 0 <= i < |queue| :: !Crosses(side, limit, queue[i].price)
    ensures CrossingDepth(queue, side, limit) == 0
  {
    if queue != [] {
      NothingCrosses(queue[1..], side, limit);
    }
  }

  // In a sorted queue the leading run of crossing orders is all of them.
  lemma {:induction false} ReachIsWhatCrosses(queue: seq<Resting>, side: Side, limit: int)
    requires Sorted(queue, side)
    ensures var n := Reach(queue, side, limit);
            && (forall i | 0 <= i < |queue| :: Crosses(side, limit, queue[i].price) <==> i < n)
            && Depth(queue[..n]) == CrossingDepth(queue, side, limit)
  {
    var n := Reach(queue, side, limit);
    if n > 0 {
      TailIsSorted(queue, side);
      ReachIsWhatCrosses(queue[1..], side, limit);
      assert queue[..n][1..] == queue[1..][..n - 1];
      assert forall i | 1 <= i < |queue| :: queue[i] == queue[1..][i - 1];
    } else {
      if queue != [] {
        assert forall i | 0 <= i < |queue| :: !Crosses(side, limit, queue[i].price);
      }
      NothingCrosses(queue, side, limit);
    }
  }

  lemma {:induction false} SweepConserves(queue: seq<Resting>, req: GatewayRequest, id: nat, left: int, cum: int)
    ensures var s := Sweep(queue, req, id, left, cum); s.left + s.cumulative == left + cum
  {
    if left <= 0 || queue == [] || !Crosses(req.side, req.price, queue[0].price) {
    } else {
      var last := Min(left, queue[0].remaining);
      SweepConserves(queue[1..], req, id, left - last, cum + last);
    }
  }

  lemma PairsBehindOne(log: seq<ExecutionReport>, first: ExecutionReport, n: nat)
    requires |log| == 2 * n
    ensures |[first] + log| == 1 + 2 * n
    ensures forall i | 0 <= i < n :: ([first] + log)[1 + 2 * i..3 + 2 * i] == log[2 * i..2 * i + 2]
  {
  }

  lemma OppositeIsSorted(m: Venue, side: Side)
    requires Inv(m)
    ensures Sorted(m.On(Opposite(side)), side)
  {
    InvBySides(side, m);
    GoodQueueIsSorted(m.On(Opposite(side)), side, m.nextId);
    hide Distinct, Apart;
  }

  lemma SweepSettles(queue: seq<Resting>, req: GatewayRequest, id: nat)
    requires Sorted(queue, req.side) && req.quantity > 0
    ensures var s := Sweep(queue, req, id, req.quantity, 0);
            s.left == req.quantity - Min(req.quantity, CrossingDepth(queue, req.side, req.price)) >= 0
  {
    hide Sweep, CrossingDepth, Depth, Reach;
    SweepTradesTheMinimum(queue, req, id, req.quantity, 0);
    SweepConserves(queue, req, id, req.quantity, 0);
    ReachIsWhatCrosses(queue, req.side, req.price);
  }

  // A new order, at any venue in order: its log is the acknowledgement and then the greedy trades, its fills add
  // up to the lesser of its quantity and all that crosses its limit, the other side keeps what no share was
  // taken from, and the remainder queues behind every order at a price as good.
  lemma NewOrderIsGreedy(m: Venue, req: GatewayRequest)
    requires Inv(m) && ValidNew(m, req)
    ensures var queue, done := m.On(Opposite(req.side)), ProcessNew(m, req);
            var h := Hits(queue, req.side, req.price, req.quantity);
            var left := req.quantity - Min(req.quantity, CrossingDepth(queue, req.side, req.price));
            && |done.log| == 1 + 2 * h
            && done.log[0] == AckReport(req, m.nextId)
            && (forall i | 0 <= i < h ::
                  done.log[1 + 2 * i..3 + 2 * i] == TradeReports(queue, req, m.nextId, req.quantity, 0, i))
            && done.venue.On(Opposite(req.side)) == Leftover(queue, req.side, req.price, req.quantity)
            && done.venue.On(req.side)
               == (if left == 0 then m.On(req.side)
                   else Enqueue(req.side, m.On(req.side), RestingOrder(req, m.nextId, left)))
  {
    hide Sweep, Hits, Inv, TradeReports, Leftover, CrossingDepth, Enqueue, ProcessNew, RestingOrder, AckReport;
    var queue, id := m.On(Opposite(req.side)), m.nextId;
    OppositeIsSorted(m, req.side);
    NewOrderUnfolds(m, req);
    SweepLogIsGreedy(queue, req, id, req.quantity, 0);
    SweepQueueIsGreedy(queue, req, id, req.quantity, 0);
    SweepSettles(queue, req, id);
    PairsBehindOne(Sweep(queue, req, id, req.quantity, 0).log, AckReport(req, id),
                   Hits(queue, req.side, req.price, req.quantity));
  }

  // ----- The two loops are mirror images -----

  function MirrorOrder(r: Resting): Resting {
    r.(side := Opposite(r.side), price := -r.price)
  }

  function MirrorQueue(queue: seq<Resting>): (q: seq<Resting>)
    ensures |q| == |queue|
  {
    seq(|queue|, i requires 0 <= i < |queue| => MirrorOrder(queue[i]))
  }

  function MirrorRequest(req: GatewayRequest): GatewayRequest {
    req.(side := Opposite(req.side), price := -req.price)
  }

  function MirrorLog(log: seq<ExecutionReport>): (l: seq<ExecutionReport>)
    ensures |l| == |log|
  {
    seq(|log|, i requires 0 <= i < |log| => log[i].(side := Opposite(log[i].side), lastPrice := -log[i].lastPrice))
  }

  function MirrorSwept(s: Swept): Swept {
    Swept(MirrorQueue(s.queue), s.left, s.cumulative, MirrorLog(s.log))
  }

  lemma MirrorPieces(order: Resting, last: int, req: GatewayRequest, id: nat, cum: int, leaves: int,
                     rest: seq<ExecutionReport>)
    ensures TradePair(MirrorOrder(order), last, MirrorRequest(req), id, cum, leaves) + MirrorLog(rest)
         == MirrorLog(TradePair(order, last, req, id, cum, leaves) + rest)
  {
  }

  lemma MirrorFront(queue: seq<Resting>, order: Resting)
    requires queue != []
    ensures MirrorQueue(queue)[0] == MirrorOrder(queue[0]) && MirrorQueue(queue)[1..] == MirrorQueue(queue[1..])
    ensures [MirrorOrder(order)] + MirrorQueue(queue[1..]) == MirrorQueue([order] + queue[1..])
  {
  }

  lemma MirrorIsEmpty(queue: seq<Resting>)
    ensures |MirrorQueue(queue)| == |queue| && MirrorLog([]) == []
    ensures queue != [] ==> MirrorQueue(queue)[0] == MirrorOrder(queue[0])
  {
  }

  // One hit of the loop, for an order used up and for one that stays.
  lemma HitUsesUp(queue: seq<Resting>, req: GatewayRequest, id: nat, left: int, cum: int)
    requires left > 0 && queue != [] && Crosses(req.side, req.price, queue[0].price)
    requires Min(left, queue[0].remaining) == queue[0].remaining
    ensures var last := queue[0].remaining;
            var rest := Sweep(queue[1..], req, id, left - last, cum + last);
            Sweep(queue, req, id, left, cum)
            == rest.(log := TradePair(Trade(queue[0], last), last, req, id, cum + last, left - last) + rest.log)
  {
  }

  lemma HitStays(queue: seq<Resting>, req: GatewayRequest, id: nat, left: int, cum: int)
    requires left > 0 && queue != [] && Crosses(req.side, req.price, queue[0].price)
    requires Min(left, queue[0].remaining) != queue[0].remaining
    ensures Sweep(queue, req, id, left, cum)
         == Swept([Trade(queue[0], left)] + queue[1..], 0, cum + left,
                  TradePair(Trade(queue[0], left), left, req, id, cum + left, 0))
  {
  }

  predicate Stops(queue: seq<Resting>, req: GatewayRequest, left: int) {
    left <= 0 || queue == [] || !Crosses(req.side, req.price, queue[0].price)
  }

  lemma StopIs(queue: seq<Resting>, req: GatewayRequest, id: nat, left: int, cum: int)
    requires Stops(queue, req, left)
    ensures Sweep(queue, req, id, left, cum) == Swept(queue, left, cum, [])
  {
  }

  lemma StopsAlike(queue: seq<Resting>, req: GatewayRequest, left: int)
    ensures Stops(MirrorQueue(queue), MirrorRequest(req), left) <==> Stops(queue, req, left)
  {
    MirrorIsEmpty(queue);
    hide MirrorQueue;
  }

  lemma SymmetricUse(queue: seq<Resting>, req: GatewayRequest, id: nat, left: int, cum: int)
    requires !Stops(queue, req, left) && Min(left, queue[0].remaining) == queue[0].remaining
    requires var last := queue[0].remaining;
             Sweep(MirrorQueue(queue[1..]), MirrorRequest(req), id, left - last, cum + last)
             == MirrorSwept(Sweep(queue[1..], req, id, left - last, cum + last))
    ensures Sweep(MirrorQueue(queue), MirrorRequest(req), id, left, cum)
         == MirrorSwept(Sweep(queue, req, id, left, cum))
  {
    hide MirrorQueue, MirrorLog, Sweep, TradePair, Trade;
    MirrorIsEmpty(queue);
    var last := queue[0].remaining;
    MirrorFront(queue, Trade(queue[0], last));
    MirrorTrade(queue[0], last);
    HitUsesUp(queue, req, id, left, cum);
    HitUsesUp(MirrorQueue(queue), MirrorRequest(req), id, left, cum);
    MirrorPieces(Trade(queue[0], last), last, req, id, cum + last, left - last,
                 Sweep(queue[1..], req, id, left - last, cum + last).log);
  }

  lemma SymmetricStay(queue: seq<Resting>, req: GatewayRequest, id: nat, left: int, cum: int)
    requires !Stops(queue, req, left) && Min(left, queue[0].remaining) != queue[0].remaining
    ensures Sweep(MirrorQueue(queue), MirrorRequest(req), id, left, cum)
         == MirrorSwept(Sweep(queue, req, id, left, cum))
  {
    hide MirrorQueue, MirrorLog, Sweep, TradePair, Trade;
    MirrorIsEmpty(queue);
    MirrorFront(queue, Trade(queue[0], left));
    MirrorTrade(queue[0], left);
    HitStays(queue, req, id, left, cum);
    HitStays(MirrorQueue(queue), MirrorRequest(req), id, left, cum);
    MirrorOne(Trade(queue[0], left), left, req, id, cum + left);
  }

  lemma MirrorTrade(order: Resting, last: int)
    ensures Trade(MirrorOrder(order), last) == MirrorOrder(Trade(order, last))
  {
  }

  // Buying at some prices and selling at their negatives are the same computation.
  lemma {:induction false} SweepIsSymmetric(queue: seq<Resting>, req: GatewayRequest, id: nat, left: int, cum: int)
    ensures Sweep(MirrorQueue(queue), MirrorRequest(req), id, left, cum)
         == MirrorSwept(Sweep(queue, req, id, left, cum))
  {
    hide MirrorQueue, MirrorRequest, MirrorLog, Sweep, Crosses;
    MirrorIsEmpty(queue);
    StopsAlike(queue, req, left);
    if Stops(queue, req, left) {
      StopIs(queue, req, id, left, cum);
      StopIs(MirrorQueue(queue), MirrorRequest(req), id, left, cum);
    } else if Min(left, queue[0].remaining) == queue[0].remaining {
      SweepIsSymmetric(queue[1..], req, id, left - queue[0].remaining, cum + queue[0].remaining);
      SymmetricUse(queue, req, id, left, cum);
    } else {
      SymmetricStay(queue, req, id, left, cum);
    }
  }

  lemma MirrorOne(order: Resting, last: int, req: GatewayRequest, id: nat, cum: int)
    ensures TradePair(MirrorOrder(order), last, MirrorRequest(req), id, cum, 0)
         == MirrorLog(TradePair(order, last, req, id, cum, 0))
  {
    MirrorPieces(order, last, req, id, cum, 0, []);
    assert MirrorLog([]) == [];
    assert TradePair(order, last, req, id, cum, 0) + [] == TradePair(order, last, req, id, cum, 0);
    hide TradePair;
  }
}
