// How often an order can have been filled after so many placements: while the exchange has accepted n orders, none
// of them more than n - 1 times.
module FillCounts {
  import opened Types
  import opened Matching
  import opened PriceTimePriority
  import opened ReportStream
  import opened ReportKeys
  import opened ReportHandler
  import opened ClosedLoop
  import opened Mirror
  import opened MirroredRuns
  import opened MirrorLimits
  import opened OneSidedRuns
  import opened StreamKeys

  // ----- Orders accepted and resting -----

  lemma SentPlaceIsAcked(w: World, a: Action)
    requires Mirrored(w) && a.Place? && Sent(w, a).Sending?
    ensures var req := Sent(w, a).request;
            && ValidNew(w.venue, req)
            && req.clientOrderId == w.handler.oms.nextId
            && req.quantity == a.quantity > 0
            && LogOf(w, a)[0] == AckReport(req, w.venue.nextId)
            && Step(w, a).venue.nextId == w.venue.nextId + 1
  {
    CreateKeepsMirror(w.handler.oms, TableOf(w.venue), a.symbol, a.side, a.price, a.quantity, a.now);
    LiveIsResting(w.venue, w.handler.oms.nextId);
    hide Sweep, Inv, TableOf, Mirrors, Numbered;
  }

  lemma VenueIdsAdvance(w: World, a: Action)
    requires Mirrored(w)
    ensures Step(w, a).venue.nextId == w.venue.nextId + (if a.Place? && Sent(w, a).Sending? then 1 else 0)
  {
    if a.Place? && Sent(w, a).Sending? {
      SentPlaceIsAcked(w, a);
    }
  }

  // No more orders rest than were accepted.
  ghost predicate Counted(m: Venue) {
    1 <= m.nextId && |m.bids| + |m.asks| <= m.nextId - 1
  }

  lemma CountedIsPositive(m: Venue)
    requires Counted(m)
    ensures m.nextId >= 1
  {
  }

  lemma InvIsLive(m: Venue, side: Side)
    requires Inv(m)
    ensures AllLive(m.On(Opposite(side)))
  {
    OppositeIsSorted(m, side);
    hide Inv;
  }

  lemma CountStays(m: Venue, req: GatewayRequest)
    requires Inv(m) && Counted(m)
    ensures Counted(Process(m, req).venue)
  {
    if req.requestType == NewOrder && ValidNew(m, req) {
      InvIsLive(m, req.side);
      NewOrderUnfolds(m, req);
      SweepLeavesRemnants(m.On(Opposite(req.side)), req, m.nextId, req.quantity, 0);
      hide Sweep, ProcessNew, Inv;
    }
  }

  lemma StepCounts(w: World, a: Action)
    requires Mirrored(w) && Counted(w.venue)
    ensures Counted(Step(w, a).venue)
  {
    hide Process, Sent, Counted, Prepared, HandleAll, Inv;
    MirroredIsInv(w);
    if Sent(w, a).Sending? {
      CountStays(w.venue, Sent(w, a).request);
    }
  }

  lemma FewHits(w: World, a: Action)
    requires Mirrored(w) && Counted(w.venue)
    ensures HitsOf(w, a) <= w.venue.nextId - 1
    ensures !a.Place? ==> HitsOf(w, a) == 0
  {
    hide Mirrored, Sent, Inv;
  }

  // ----- Whose fills a step reports -----

  // Behind an answer, fills in turn of older orders, each of its own, and of order `c`.
  ghost predicate Paired(log: seq<ExecutionReport>, c: nat) {
    && (log != [] ==> !log[0].IsFill() && log[0].clientOrderId <= c)
    && (forall p | 0 < p < |log| && p % 2 == 0 :: log[p].clientOrderId == c)
    && (forall p | 0 < p < |log| && p % 2 == 1 :: log[p].clientOrderId < c)
    && (forall p, p' | 0 < p < p' < |log| && p % 2 == 1 && p' % 2 == 1 ::
          log[p].clientOrderId != log[p'].clientOrderId)
  }

  lemma TradeIsOfBoth(queue: seq<Resting>, req: GatewayRequest, id: nat, i: nat)
    requires i < |queue|
    ensures var pair := TradeReports(queue, req, id, req.quantity, 0, i);
            |pair| == 2 && pair[0].clientOrderId == queue[i].clientOrderId && pair[1].clientOrderId == req.clientOrderId
  {
    hide Share, Depth;
  }

  lemma RestingIsOld(w: World, side: Side)
    requires Mirrored(w)
    ensures forall i | 0 <= i < |w.venue.On(side)| :: w.venue.On(side)[i].clientOrderId < w.handler.oms.nextId
    ensures Distinct(w.venue.On(side))
  {
    var queue := w.venue.On(side);
    forall i | 0 <= i < |queue| ensures queue[i].clientOrderId < w.handler.oms.nextId {
      LiveIsResting(w.venue, queue[i].clientOrderId);
      assert queue[i].clientOrderId in Clients(queue);
      hide Inv, TableOf, Image;
    }
  }

  lemma PairOfHit(log: seq<ExecutionReport>, queue: seq<Resting>, req: GatewayRequest, id: nat, i: nat)
    requires i < |queue| && 2 + 2 * i < |log|
    requires log[1 + 2 * i..3 + 2 * i] == TradeReports(queue, req, id, req.quantity, 0, i)
    ensures log[1 + 2 * i].clientOrderId == queue[i].clientOrderId
    ensures log[2 + 2 * i].clientOrderId == req.clientOrderId
  {
    TradeIsOfBoth(queue, req, id, i);
    hide TradeReports;
    var pair := log[1 + 2 * i..3 + 2 * i];
    assert pair[0] == log[1 + 2 * i] && pair[1] == log[2 + 2 * i];
  }

  // The report at position `p` is of the incoming order `c` or of the resting order it hit.
  predicate InTurn(log: seq<ExecutionReport>, queue: seq<Resting>, c: nat, p: nat)
    requires 0 < p < |log| <= 1 + 2 * |queue|
  {
    log[p].clientOrderId == if p % 2 == 0 then c else queue[(p - 1) / 2].clientOrderId
  }

  lemma TurnsPair(log: seq<ExecutionReport>, queue: seq<Resting>, c: nat)
    requires 0 < |log| <= 1 + 2 * |queue| && !log[0].IsFill() && log[0].clientOrderId == c
    requires forall p | 0 < p < |log| :: InTurn(log, queue, c, p)
    requires Distinct(queue) && forall i | 0 <= i < |queue| :: queue[i].clientOrderId < c
    ensures Paired(log, c)
  {
    forall p | 0 < p < |log| ensures if p % 2 == 0 then log[p].clientOrderId == c else log[p].clientOrderId < c {
      assert InTurn(log, queue, c, p);
    }
    forall p, p' | 0 < p < p' < |log| && p % 2 == 1 && p' % 2 == 1
      ensures log[p].clientOrderId != log[p'].clientOrderId
    {
      assert InTurn(log, queue, c, p) && InTurn(log, queue, c, p');
      assert (p - 1) / 2 < (p' - 1) / 2;
    }
  }

  lemma PairedByHits(log: seq<ExecutionReport>, queue: seq<Resting>, req: GatewayRequest, id: nat, h: nat)
    requires h <= |queue| && |log| == 1 + 2 * h
    requires !log[0].IsFill() && log[0].clientOrderId == req.clientOrderId
    requires forall i | 0 <= i < h :: log[1 + 2 * i..3 + 2 * i] == TradeReports(queue, req, id, req.quantity, 0, i)
    requires Distinct(queue) && forall i | 0 <= i < |queue| :: queue[i].clientOrderId < req.clientOrderId
    ensures Paired(log, req.clientOrderId)
  {
    hide TradeReports, Distinct, Paired;
    forall p | 0 < p < |log| ensures InTurn(log, queue, req.clientOrderId, p) {
      var i := (p - 1) / 2;
      assert p == if p % 2 == 0 then 2 + 2 * i else 1 + 2 * i;
      PairOfHit(log, queue, req, id, i);
    }
    TurnsPair(log, queue, req.clientOrderId);
  }

  lemma PlaceLogPairs(w: World, a: Action)
    requires Mirrored(w) && a.Place? && Sent(w, a).Sending?
    ensures Paired(LogOf(w, a), w.handler.oms.nextId)
  {
    hide Inv, TableOf, Process, Sent, Mirrored, LogOf, ProcessNew, Hits, TradeReports, Leftover, CrossingDepth, Enqueue,
         Distinct, Paired, Step;
    SentStep(w, a);
    SentPlaceIsAcked(w, a);
    MirroredIsInv(w);
    var m, req := w.venue, Sent(w, a).request;
    ValidIsProcessed(m, req);
    NewOrderIsGreedy(m, req);
    RestingIsOld(w, Opposite(req.side));
    var queue := m.On(Opposite(req.side));
    PairedByHits(LogOf(w, a), queue, req, m.nextId, Hits(queue, req.side, req.price, req.quantity));
  }

  lemma OtherLogPairs(w: World, a: Action)
    requires Mirrored(w) && !a.Place?
    ensures |LogOf(w, a)| <= 1 && Paired(LogOf(w, a), w.handler.oms.nextId - 1)
  {
    hide Inv, TableOf, Process, LogOf, Sent;
    UnsentIsSilent(w, a);
    if Sent(w, a).Sending? {
      SentIsPlaceOrCancel(w, a);
      CancelHits(w, a);
    }
  }

  // ----- Fills so far -----

  ghost predicate NoFills(log: seq<ExecutionReport>) {
    forall i | 0 <= i < |log| :: !log[i].IsFill()
  }

  ghost predicate NoSecondFill(log: seq<ExecutionReport>) {
    forall i, j | 0 <= i < j < |log| && log[i].IsFill() && log[j].IsFill() ::
      log[i].clientOrderId != log[j].clientOrderId
  }

  ghost predicate NoThirdFill(log: seq<ExecutionReport>) {
    forall i, j, k | 0 <= i < j < k < |log| && log[i].IsFill() && log[j].IsFill() && log[k].IsFill() ::
      !(log[i].clientOrderId == log[j].clientOrderId == log[k].clientOrderId)
  }

  ghost predicate FillsUpTo(n: int, log: seq<ExecutionReport>) {
    && (n <= 0 ==> NoFills(log))
    && (n <= 1 ==> NoSecondFill(log))
    && (n <= 2 ==> NoThirdFill(log))
  }

  ghost predicate AllOlder(log: seq<ExecutionReport>, c: nat) {
    forall i | 0 <= i < |log| :: log[i].clientOrderId < c
  }

  lemma OldAt(past: seq<ExecutionReport>, log: seq<ExecutionReport>, c: nat, i: nat)
    requires i < |past + log| && AllOlder(past, c) && Paired(log, c) && (past + log)[i].IsFill()
    ensures var r := (past + log)[i];
            if i < |past| then r == past[i] && r.clientOrderId < c
            else r == log[i - |past|] && 0 < i - |past| && ((i - |past|) % 2 == 0 <==> r.clientOrderId == c)
  {
  }

  // One placement more, and no order has gained more than one fill but the new one, which had none.
  lemma FillsJoin(n: nat, c: nat, past: seq<ExecutionReport>, log: seq<ExecutionReport>)
    requires n <= 2 && FillsUpTo(n - 1, past) && AllOlder(past, c) && Paired(log, c) && |log| <= 1 + 2 * n
    ensures FillsUpTo(n, past + log)
  {
    var all, k0 := past + log, |past|;
    if n == 0 {
    } else if n == 1 {
      forall i, j | 0 <= i < j < |all| && all[i].IsFill() && all[j].IsFill()
        ensures all[i].clientOrderId != all[j].clientOrderId
      {
        OldAt(past, log, c, i);
        OldAt(past, log, c, j);
      }
    } else {
      forall i, j, k | 0 <= i < j < k < |all| && all[i].IsFill() && all[j].IsFill() && all[k].IsFill()
        ensures !(all[i].clientOrderId == all[j].clientOrderId == all[k].clientOrderId)
      {
        OldAt(past, log, c, i);
        OldAt(past, log, c, j);
        OldAt(past, log, c, k);
      }
    }
  }

  lemma NoneJoins(n: int, past: seq<ExecutionReport>, log: seq<ExecutionReport>)
    requires FillsUpTo(n, past) && NoFills(log)
    ensures FillsUpTo(n, past + log)
  {
    var all := past + log;
    assert forall i | 0 <= i < |all| && all[i].IsFill() :: i < |past| && all[i] == past[i];
  }

  lemma OlderJoin(past: seq<ExecutionReport>, log: seq<ExecutionReport>, c: nat, c': nat)
    requires AllOlder(past, c) && AllOlder(log, c') && c <= c'
    ensures AllOlder(past + log, c')
  {
  }

  lemma PairedIsOlder(log: seq<ExecutionReport>, c: nat)
    requires Paired(log, c)
    ensures AllOlder(log, c + 1)
    ensures |log| <= 1 ==> NoFills(log)
  {
    forall i | 0 <= i < |log| ensures log[i].clientOrderId < c + 1 {
      if i > 0 {
        assert i % 2 == 0 || i % 2 == 1;
      }
    }
  }

  // What is known of the fills in the history of a run.
  ghost predicate FillsCounted(w: World, past: seq<ExecutionReport>) {
    && Counted(w.venue)
    && AllOlder(past, w.handler.oms.nextId)
    && FillsUpTo(w.venue.nextId - 2, past)
  }

  lemma StartCountsFills()
    ensures FillsCounted(START, [])
  {
  }

  lemma StepCountsFills(w: World, a: Action, past: seq<ExecutionReport>)
    requires Mirrored(w) && FillsCounted(w, past) && (a.Place? ==> w.venue.nextId <= 3)
    ensures FillsCounted(Step(w, a), past + LogOf(w, a))
  {
    hide LogOf, HitsOf, Mirrored, Sent, Counted, Step, Paired, AllOlder, FillsUpTo, NoFills;
    var log, c := LogOf(w, a), w.handler.oms.nextId;
    LogLength(w, a);
    FewHits(w, a);
    CountedIsPositive(w.venue);
    StepCounts(w, a);
    ManagerIdsAdvance(w, a);
    VenueIdsAdvance(w, a);
    MirroredIsNumbered(w);
    if a.Place? && Sent(w, a).Sending? {
      PlaceLogPairs(w, a);
      PairedIsOlder(log, c);
      OlderJoin(past, log, c, c + 1);
      FillsJoin(w.venue.nextId - 1, c, past, log);
    } else if a.Place? {
      EmptyIsOlder(c);
      OlderJoin(past, log, c, c + 1);
      NoneJoins(w.venue.nextId - 2, past, log);
    } else {
      OtherLogPairs(w, a);
      PairedIsOlder(log, c - 1);
      OlderJoin(past, log, c, c);
      NoneJoins(w.venue.nextId - 2, past, log);
    }
  }

  lemma EmptyIsOlder(c: nat)
    ensures AllOlder([], c + 1) && NoFills([])
  {
  }

  lemma MirroredIsNumbered(w: World)
    requires Mirrored(w)
    ensures w.handler.oms.nextId > 0
  {
  }

  // ----- What the first two fills of an order say -----

  predicate Unfilled(t: Table, c: nat) {
    c in t.live ==> t.live[c].filled == 0
  }

  lemma UnfilledStays(t: Table, r: ExecutionReport, c: nat)
    requires Unfilled(t, c) && Legal(t, r) && !(r.IsFill() && r.clientOrderId == c)
    ensures Unfilled(After(t, r), c)
  {
  }

  // The order of `r`, while it lives, is filled as far as `r` says.
  predicate FilledTo(t: Table, r: ExecutionReport) {
    && r.exchangeOrderId < t.nextId
    && (r.clientOrderId in t.live && t.live[r.clientOrderId].exchangeId == r.exchangeOrderId ==>
          t.live[r.clientOrderId].filled == r.cumulativeQuantity)
  }

  lemma FilledStays(t: Table, r: ExecutionReport, s: ExecutionReport)
    requires FilledTo(t, r) && Legal(t, s) && !(s.IsFill() && s.clientOrderId == r.clientOrderId)
    ensures FilledTo(After(t, s), r)
  {
  }

  lemma FirstFillIsWhole(t: Table, r: ExecutionReport)
    requires Issued(t) && Unfilled(t, r.clientOrderId) && Legal(t, r) && r.execType == ExecType.PartialFill
    ensures r.cumulativeQuantity == r.lastQuantity && FilledTo(After(t, r), r)
  {
  }

  lemma NextFillAdds(t: Table, r: ExecutionReport, s: ExecutionReport)
    requires FilledTo(t, r) && Legal(t, s) && SameOrder(r, s) && s.execType == ExecType.PartialFill
    ensures s.cumulativeQuantity == r.cumulativeQuantity + s.lastQuantity
  {
  }

  lemma {:induction false} SecondFillAdds(t: Table, r: ExecutionReport, log: seq<ExecutionReport>, j: nat)
    requires FilledTo(t, r) && LegalRun(t, log) && j < |log|
    requires SameOrder(r, log[j]) && log[j].execType == ExecType.PartialFill
    requires forall k | 0 <= k < j && log[k].IsFill() :: log[k].clientOrderId != r.clientOrderId
    ensures log[j].cumulativeQuantity == r.cumulativeQuantity + log[j].lastQuantity
    decreases |log|
  {
    hide FilledTo, Legal, After;
    if j == 0 {
      NextFillAdds(t, r, log[0]);
    } else {
      FilledStays(t, r, log[0]);
      SecondFillAdds(After(t, log[0]), r, log[1..], j - 1);
    }
  }

  lemma {:induction false} FirstTwoFills(t: Table, log: seq<ExecutionReport>, i: nat, j: nat)
    requires Issued(t) && LegalRun(t, log) && i < j < |log| && Unfilled(t, log[i].clientOrderId)
    requires SameOrder(log[i], log[j]) && log[i].execType == log[j].execType == ExecType.PartialFill
    requires forall k | 0 <= k < j && k != i && log[k].IsFill() :: log[k].clientOrderId != log[i].clientOrderId
    ensures log[i].cumulativeQuantity == log[i].lastQuantity
    ensures log[j].cumulativeQuantity == log[i].cumulativeQuantity + log[j].lastQuantity
    decreases |log|
  {
    hide Issued, Unfilled, FilledTo, Legal, After;
    if i == 0 {
      FirstFillIsWhole(t, log[0]);
      SecondFillAdds(After(t, log[0]), log[0], log[1..], j - 1);
    } else {
      IssuedStays(t, log[0]);
      UnfilledStays(t, log[0], log[i].clientOrderId);
      FirstTwoFills(After(t, log[0]), log[1..], i - 1, j - 1);
    }
  }

  lemma PartialIsFill(r: ExecutionReport)
    requires r.execType == ExecType.PartialFill
    ensures r.IsFill()
  {
  }

  lemma ThirdDiffers(log: seq<ExecutionReport>, i: nat, j: nat, k: nat)
    requires NoThirdFill(log) && i < j < k < |log| && log[i].IsFill() && log[j].IsFill() && log[k].IsFill()
    ensures !(log[i].clientOrderId == log[j].clientOrderId == log[k].clientOrderId)
  {
  }

  // Where no order is filled three times, any two fills of one are its first two.
  lemma TwoFillsAreTheFirst(log: seq<ExecutionReport>, i: nat, j: nat)
    requires LegalRun(EMPTY_TABLE, log) && NoThirdFill(log) && i < j < |log|
    requires SameOrder(log[i], log[j]) && log[i].execType == log[j].execType == ExecType.PartialFill
    ensures log[i].cumulativeQuantity == log[i].lastQuantity
    ensures log[j].cumulativeQuantity == log[i].cumulativeQuantity + log[j].lastQuantity
  {
    hide LegalRun;
    PartialIsFill(log[i]);
    PartialIsFill(log[j]);
    forall k | 0 <= k < j && k != i && log[k].IsFill() ensures log[k].clientOrderId != log[i].clientOrderId {
      if k < i {
        ThirdDiffers(log, k, i, j);
      } else {
        ThirdDiffers(log, i, k, j);
      }
    }
    FirstTwoFills(EMPTY_TABLE, log, i, j);
  }
}
