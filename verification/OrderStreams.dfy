// The reports one order gets over a whole run of the exchange.
module OrderStreams {
  import opened Types
  import opened Matching
  import opened ReportStream

  // ----- Whole runs -----

  function RunRequests(m: Venue, requests: seq<GatewayRequest>): Outcome
    decreases |requests|
  {
    if requests == [] then Outcome(m, [])
    else
      var first := Process(m, requests[0]);
      var rest := RunRequests(first.venue, requests[1..]);
      rest.(log := first.log + rest.log)
  }

  // From the empty exchange, every sequence of requests keeps the book invariant
  // and is answered by one legal stream.
  lemma {:induction false} RunsAreLegal(m: Venue, requests: seq<GatewayRequest>)
    requires Inv(m)
    ensures var done := RunRequests(m, requests);
            && Inv(done.venue)
            && LegalRun(TableOf(m), done.log)
            && AfterRun(TableOf(m), done.log) == TableOf(done.venue)
    decreases |requests|
  {
    hide Inv, TableOf, Process;
    if requests != [] {
      var first := Process(m, requests[0]);
      ProcessKeepsInv(m, requests[0]);
      ProcessIsLegal(m, requests[0]);
      RunsAreLegal(first.venue, requests[1..]);
      RunsCompose(TableOf(m), first.log, RunRequests(first.venue, requests[1..]).log);
    }
  }

  // ----- One order -----

  predicate Concerns(r: ExecutionReport, id: nat) {
    r.exchangeOrderId == id && r.execType != ExecType.CancelReject
  }

  function OfOrder(log: seq<ExecutionReport>, id: nat): seq<ExecutionReport> {
    if log == [] then []
    else (if Concerns(log[0], id) then [log[0]] else []) + OfOrder(log[1..], id)
  }

  function FilledBy(s: seq<ExecutionReport>): int {
    if s == [] then 0
    else
      var r := s[|s| - 1];
      FilledBy(s[..|s| - 1]) + (if r.IsFill() then r.lastQuantity else 0)
  }

  predicate Terminal(r: ExecutionReport) {
    r.execType == ExecType.Fill || r.execType == ExecType.CancelAck
  }

  // `r` may come next after the reports `s` of its order: nothing follows a terminal report, a fill
  // raises the cumulative quantity by what it trades, and a cancel confirms the exact remainder.
  predicate Continues(s: seq<ExecutionReport>, r: ExecutionReport) {
    && s != []
    && r.clientOrderId == s[0].clientOrderId && r.symbol == s[0].symbol && r.side == s[0].side
    && !Terminal(s[|s| - 1])
    && (if r.IsFill()
        then && r.lastPrice > 0
             && r.lastQuantity > 0
             && r.cumulativeQuantity == FilledBy(s) + r.lastQuantity
             && r.cumulativeQuantity + r.leavesQuantity == s[0].leavesQuantity
             && r.leavesQuantity >= 0
             && (r.execType == ExecType.Fill <==> r.leavesQuantity == 0)
        else r.execType == ExecType.CancelAck && r.leavesQuantity == s[0].leavesQuantity - FilledBy(s))
  }

  // An order's reports: one acknowledgement, then fills, then at most one terminal report.
  predicate OrderStream(s: seq<ExecutionReport>) {
    s != [] ==>
      && s[0].execType == ExecType.Ack
      && s[0].leavesQuantity > 0
      && forall i | 1 <= i < |s| :: Continues(s[..i], s[i])
  }

  ghost predicate Open(s: seq<ExecutionReport>) {
    s != [] && !Terminal(s[|s| - 1])
  }

  // The stream so far, and what the table knows about its order.
  ghost predicate Tracks(s: seq<ExecutionReport>, t: Table, id: nat) {
    && OrderStream(s)
    && (s == [] <==> t.nextId <= id)
    && (forall c | c in t.live :: t.live[c].exchangeId < t.nextId)
    && (forall c | c in t.live && t.live[c].exchangeId == id :: Open(s) && c == s[0].clientOrderId)
    && (Open(s) ==>
          && s[0].clientOrderId in t.live
          && t.live[s[0].clientOrderId] == Live(id, s[0].symbol, s[0].side, s[0].leavesQuantity, FilledBy(s)))
  }

  lemma StreamGrows(s: seq<ExecutionReport>, r: ExecutionReport)
    requires OrderStream(s)
    requires if s == [] then r.execType == ExecType.Ack && r.leavesQuantity > 0 else Continues(s, r)
    ensures OrderStream(s + [r])
    ensures FilledBy(s + [r]) == FilledBy(s) + (if r.IsFill() then r.lastQuantity else 0)
  {
    var s' := s + [r];
    assert s'[..|s|] == s;
    forall i | 1 <= i < |s'| ensures Continues(s'[..i], s'[i]) {
      if i < |s| {
        assert s'[..i] == s[..i];
      }
    }
  }

  lemma LegalMeansContinues(s: seq<ExecutionReport>, t: Table, r: ExecutionReport, id: nat)
    requires id > 0 && Tracks(s, t, id) && Legal(t, r) && Concerns(r, id)
    ensures if s == [] then r.execType == ExecType.Ack && r.leavesQuantity > 0 else Continues(s, r)
  {
  }

  lemma OtherReport(s: seq<ExecutionReport>, t: Table, r: ExecutionReport, id: nat)
    requires id > 0 && Tracks(s, t, id) && Legal(t, r) && !Concerns(r, id)
    ensures Tracks(s, After(t, r), id)
  {
  }

  lemma OwnReport(s: seq<ExecutionReport>, t: Table, r: ExecutionReport, id: nat)
    requires id > 0 && t.nextId > 0 && Tracks(s, t, id) && Legal(t, r) && Concerns(r, id)
    ensures Tracks(s + [r], After(t, r), id)
  {
    LegalMeansContinues(s, t, r, id);
    StreamGrows(s, r);
    var s', c := s + [r], r.clientOrderId;
    assert s'[0].clientOrderId == c;
    assert FilledBy([]) == 0;
    hide OrderStream, FilledBy;
    assert Open(s') <==> !Terminal(r);
  }

  lemma OneReport(s: seq<ExecutionReport>, t: Table, r: ExecutionReport, id: nat)
    requires id > 0 && t.nextId > 0 && Tracks(s, t, id) && Legal(t, r)
    ensures Tracks(if Concerns(r, id) then s + [r] else s, After(t, r), id)
    ensures After(t, r).nextId > 0
  {
    hide Tracks, Legal;
    if Concerns(r, id) {
      OwnReport(s, t, r, id);
    } else {
      OtherReport(s, t, r, id);
    }
  }

  lemma {:induction false} StreamsAreTracked(s: seq<ExecutionReport>, t: Table, log: seq<ExecutionReport>, id: nat)
    requires id > 0 && t.nextId > 0 && Tracks(s, t, id) && LegalRun(t, log)
    ensures Tracks(s + OfOrder(log, id), AfterRun(t, log), id)
    decreases |log|
  {
    hide Tracks, Legal, After, Concerns;
    if log == [] {
      assert s + [] == s;
    } else {
      var s' := if Concerns(log[0], id) then s + [log[0]] else s;
      OneReport(s, t, log[0], id);
      StreamsAreTracked(s', After(t, log[0]), log[1..], id);
      assert s + OfOrder(log, id) == s' + OfOrder(log[1..], id);
    }
  }

  // Over any run from the empty exchange, each exchange order id gets a proper order stream;
  // the id is open at the end exactly when its order rests in the book, with what the stream left it.
  lemma EveryOrderGetsAStream(requests: seq<GatewayRequest>, id: nat)
    requires id > 0
    ensures var done := RunRequests(EMPTY_VENUE, requests);
            var s := OfOrder(done.log, id);
            && OrderStream(s)
            && (s == [] <==> done.venue.nextId <= id)
            && (Open(s) ==>
                  && s[0].clientOrderId in TableOf(done.venue).live
                  && TableOf(done.venue).live[s[0].clientOrderId]
                     == Live(id, s[0].symbol, s[0].side, s[0].leavesQuantity, FilledBy(s)))
            && (forall c | c in TableOf(done.venue).live && TableOf(done.venue).live[c].exchangeId == id :: Open(s))
  {
    RunsAreLegal(EMPTY_VENUE, requests);
    var done := RunRequests(EMPTY_VENUE, requests);
    assert TableOf(EMPTY_VENUE) == EMPTY_TABLE;
    StreamsAreTracked([], EMPTY_TABLE, done.log, id);
    assert [] + OfOrder(done.log, id) == OfOrder(done.log, id);
  }
}
