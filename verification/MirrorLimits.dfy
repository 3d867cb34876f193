// What breaks the mirror: exactly an overflowing batch, or a cancel that was never asked for.
module MirrorLimits {
  import opened Types
  import opened Matching
  import opened PriceTimePriority
  import opened ReportStream
  import opened ReportBatch
  import opened OrderLifecycle
  import opened OrderManagement
  import opened ReportHandler
  import opened ClosedLoop
  import opened Mirror
  import opened MirroredRuns

  ghost predicate Mentions(log: seq<ExecutionReport>, c: nat) {
    exists i | 0 <= i < |log| :: log[i].clientOrderId == c
  }

  // Fills only ever take a live order further, and a fill of its own takes it strictly further.
  lemma {:induction false} FillsAdvance(t: Table, log: seq<ExecutionReport>, c: nat)
    requires LegalRun(t, log) && AllFills(log)
    ensures var t' := AfterRun(t, log);
            && (c in t'.live || Mentions(log, c) ==> c in t.live)
            && (c in t'.live ==> t.live[c].filled <= t'.live[c].filled)
            && (c in t'.live && Mentions(log, c) ==> t.live[c].filled < t'.live[c].filled)
    decreases |log|
  {
    if log != [] {
      var r, rest := log[0], log[1..];
      FillsAdvance(After(t, r), rest, c);
      assert r.IsFill();
      assert forall i | 1 <= i < |log| :: log[i] == rest[i - 1];
      assert Mentions(log, c) ==> r.clientOrderId == c || Mentions(rest, c);
    }
  }

  // The last report of a sweep is the incoming order's own.
  lemma {:induction false} SweepsEndWithIncoming(queue: seq<Resting>, req: GatewayRequest, id: nat, left: int, cum: int)
    ensures var log := Sweep(queue, req, id, left, cum).log;
            log != [] ==> log[|log| - 1].clientOrderId == req.clientOrderId
  {
    if left <= 0 || queue == [] || !Crosses(req.side, req.price, queue[0].price) {
    } else {
      var last := Min(left, queue[0].remaining);
      if Trade(queue[0], last).remaining == 0 {
        SweepsEndWithIncoming(queue[1..], req, id, left - last, cum + last);
      }
    }
  }

  // An image of the table after the reports delivered is no image of the table after the rest.
  lemma LostFillsBreakMirror(oms: Oms, t: Table, rest: seq<ExecutionReport>, c: nat)
    requires Mirrors(oms, t) && LegalRun(t, rest) && AllFills(rest) && Mentions(rest, c)
    ensures !Mirrors(oms, AfterRun(t, rest))
  {
    FillsAdvance(t, rest, c);
    assert Image(oms.orders[c], t.live[c]);
  }

  lemma LongLogEndsWithIncoming(m: Venue, req: GatewayRequest)
    requires |Process(m, req).log| > MAX_REPORTS
    ensures AllFills(Process(m, req).log[MAX_REPORTS..])
    ensures Mentions(Process(m, req).log[MAX_REPORTS..], req.clientOrderId)
  {
    LogShape(m, req);
    var log := Process(m, req).log;
    var rest := log[MAX_REPORTS..];
    SweepsEndWithIncoming(m.On(Opposite(req.side)), req, m.nextId, req.quantity, 0);
    hide Sweep;
    assert rest[|rest| - 1] == log[|log| - 1];
    assert forall i | 0 <= i < |rest| :: rest[i] == log[MAX_REPORTS + i];
  }

  lemma OverflowBreaksMirror(w: World, a: Action)
    requires Mirrored(w) && CancelsAsAsked(w, a) && NewKeys(w.handler.seen, LogOf(w, a)) && !Fits(w, a)
    ensures !Mirrors(Step(w, a).handler.oms, TableOf(Step(w, a).venue))
  {
    hide Inv, TableOf, Process, Sent, Prepared, Mirrors, Numbered, Expected, LogOf, Step, NewKeys,
         LegalRun, AfterRun, HandleAll, AllFills, Mentions, Keys;
    var sent, t, log := Sent(w, a), TableOf(w.venue), LogOf(w, a);
    UnsentIsSilent(w, a);
    PreparedKeepsMirror(w, a);
    SentIsExpected(w, a);
    SentStep(w, a);
    AnswersAreProper(w.venue, sent.request);
    LongLogEndsWithIncoming(w.venue, sent.request);
    var kept, rest := log[..MAX_REPORTS], log[MAX_REPORTS..];
    assert log == kept + rest;
    RunsCompose(t, kept, rest);
    NewKeysSplit(w.handler.seen, kept, rest);
    assert kept[0] == log[0] && FillsAfterFirst(kept);
    DeliveryKeepsMirror(PreparedHandler(w, a), t, kept);
    LostFillsBreakMirror(HandleAll(PreparedHandler(w, a), kept).oms, AfterRun(t, kept), rest,
                         sent.request.clientOrderId);
  }

  lemma UnsentIsSilent(w: World, a: Action)
    ensures Sent(w, a).Nothing? ==> LogOf(w, a) == []
  {
  }

  lemma UnaskedIsSent(w: World, a: Action)
    requires Mirrored(w) && !CancelsAsAsked(w, a)
    ensures Sent(w, a).Sending? && a.SendCancelFor? && a.id in w.handler.oms.orders
    ensures IsWorking(w.handler.oms.orders[a.id].status) && w.handler.oms.orders[a.id].status != PendingCancel
  {
  }

  lemma UnaskedIsRefused(h: HandlerState, r: ExecutionReport)
    requires r.execType == ExecType.CancelAck && r.clientOrderId in h.oms.orders
    requires h.oms.orders[r.clientOrderId].status != PendingCancel
    ensures HandleAll(h, [r]) == h
  {
  }

  lemma LoneReportRuns(t: Table, log: seq<ExecutionReport>)
    requires |log| == 1
    ensures AfterRun(t, log) == After(t, log[0]) && Kept(log) == log == [log[0]]
  {
    assert log[1..] == [];
    hide After;
  }

  lemma CanceledIsGone(t: Table, r: ExecutionReport)
    requires r.execType == ExecType.CancelAck
    ensures r.clientOrderId !in After(t, r).live
  {
  }

  lemma WorkingIsMissed(oms: Oms, t: Table, c: nat)
    requires c in oms.orders && IsWorking(oms.orders[c].status) && c !in t.live
    ensures !Mirrors(oms, t)
  {
  }

  lemma CancelPreparesNothing(w: World, a: Action)
    requires a.SendCancelFor?
    ensures PreparedHandler(w, a) == w.handler
  {
  }

  lemma UnaskedCancelBreaksMirror(w: World, a: Action)
    requires Mirrored(w) && !CancelsAsAsked(w, a)
    ensures !Mirrors(Step(w, a).handler.oms, TableOf(Step(w, a).venue))
  {
    hide Inv, TableOf, Process, Sent, LogOf, Step, HandleAll, Image, Mirrors, Kept, After, AfterRun, Numbered;
    UnaskedIsSent(w, a);
    CancelHits(w, a);
    CancelPreparesNothing(w, a);
    var log, t := LogOf(w, a), TableOf(w.venue);
    SentStep(w, a);
    AnswersAreProper(w.venue, Sent(w, a).request);
    LoneReportRuns(t, log);
    UnaskedIsRefused(w.handler, log[0]);
    CanceledIsGone(t, log[0]);
    WorkingIsMissed(w.handler.oms, After(t, log[0]), a.id);
  }

  // A batch holds all its reports exactly when at most seven resting orders are hit.
  lemma SevenHitsFit(m: Venue, req: GatewayRequest)
    requires Inv(m)
    ensures var hits := if req.requestType == NewOrder && ValidNew(m, req)
                        then Hits(m.On(Opposite(req.side)), req.side, req.price, req.quantity) else 0;
            && |Process(m, req).log| == 1 + 2 * hits
            && (|Process(m, req).log| <= MAX_REPORTS <==> hits <= 7)
  {
    if req.requestType == NewOrder && ValidNew(m, req) {
      var queue := m.On(Opposite(req.side));
      assert AllLive(queue) by {
        InvBySides(req.side, m);
      }
      SweepLogIsGreedy(queue, req, m.nextId, req.quantity, 0);
      hide Sweep, Hits;
    }
  }

  // How many resting orders a step will hit.
  function HitsOf(w: World, a: Action): nat {
    if a.Place? && Sent(w, a).Sending?
    then Hits(w.venue.On(Opposite(a.side)), a.side, a.price, a.quantity)
    else 0
  }

  lemma PlaceCarriesTerms(w: World, a: Action)
    requires a.Place? && Sent(w, a).Sending?
    ensures var req := Sent(w, a).request;
            req.requestType == NewOrder && req.side == a.side && req.price == a.price && req.quantity == a.quantity
  {
  }

  // Two reports for each hit, behind the answer to the request.
  lemma LogLength(w: World, a: Action)
    requires Mirrored(w)
    ensures |LogOf(w, a)| == if Sent(w, a).Sending? then 1 + 2 * HitsOf(w, a) else 0
  {
    hide Inv, TableOf, Process, Sent, Hits, Mirrors, Numbered, Step, Expected, LogOf;
    UnsentIsSilent(w, a);
    if Sent(w, a).Sending? {
      SentStep(w, a);
      if a.Place? {
        PlaceCarriesTerms(w, a);
        NewIsExpected(w, a);
        SevenHitsFit(w.venue, Sent(w, a).request);
      } else {
        SentIsPlaceOrCancel(w, a);
        CancelHits(w, a);
      }
    }
  }

  lemma FitsMeansSevenHits(w: World, a: Action)
    requires Mirrored(w)
    ensures Fits(w, a) <==> HitsOf(w, a) <= 7
  {
    LogLength(w, a);
    hide LogOf, Mirrored;
  }

  lemma SentIsPlaceOrCancel(w: World, a: Action)
    requires Sent(w, a).Sending?
    ensures a.Place? || a.SendCancelFor?
  {
  }

  // With distinct keys, a step keeps the mirror if and only if it hits at most seven resting orders and sends no
  // cancel behind the manager's back.
  lemma StepKeepsMirrorExactly(w: World, a: Action)
    requires Mirrored(w) && NewKeys(w.handler.seen, LogOf(w, a))
    ensures Mirrors(Step(w, a).handler.oms, TableOf(Step(w, a).venue)) <==> CancelsAsAsked(w, a) && HitsOf(w, a) <= 7
  {
    hide LogOf, Step, Mirrors, TableOf, Fits, CancelsAsAsked, NewKeys, HitsOf, Mirrored;
    FitsMeansSevenHits(w, a);
    if !CancelsAsAsked(w, a) {
      UnaskedCancelBreaksMirror(w, a);
    } else if !Fits(w, a) {
      OverflowBreaksMirror(w, a);
    } else {
      StepKeepsMirror(w, a);
      StepMirrorsMeans(w, a);
    }
  }

  lemma StepMirrorsMeans(w: World, a: Action)
    requires StepMirrors(w, a)
    ensures Mirrors(Step(w, a).handler.oms, TableOf(Step(w, a).venue))
  {
  }
}
