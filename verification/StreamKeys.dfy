// The keys along the report stream of one order, over every run of the exchange, and the exact quantity up to
// which they differ.
module StreamKeys {
  import opened Types
  import opened Matching
  import opened ReportStream
  import opened OrderStreams
  import opened ReportKeys

  // ----- What may come after a report -----

  // A report like `r` cannot legally come again.
  predicate Passed(t: Table, r: ExecutionReport) {
    && r.exchangeOrderId < t.nextId
    && (forall c | c in t.live && t.live[c].exchangeId == r.exchangeOrderId ::
          && (r.execType == ExecType.Ack || r.execType == ExecType.PartialFill)
          && (r.execType == ExecType.PartialFill ==>
                && r.cumulativeQuantity <= t.live[c].filled
                && r.cumulativeQuantity + r.leavesQuantity == t.live[c].quantity))
  }

  predicate Plain(r: ExecutionReport) {
    r.execType != ExecType.Reject && r.execType != ExecType.CancelReject
  }

  ghost predicate Issued(t: Table) {
    && (forall c | c in t.live :: t.live[c].exchangeId < t.nextId)
    && (forall c, d | c in t.live && d in t.live && c != d :: t.live[c].exchangeId != t.live[d].exchangeId)
  }

  lemma IssuedStays(t: Table, r: ExecutionReport)
    requires Issued(t) && Legal(t, r)
    ensures Issued(After(t, r))
  {
  }

  lemma ReportPasses(t: Table, r: ExecutionReport)
    requires Issued(t) && Legal(t, r) && Plain(r)
    ensures Passed(After(t, r), r)
  {
  }

  lemma PassedStays(t: Table, r: ExecutionReport, s: ExecutionReport)
    requires Passed(t, r) && Legal(t, s)
    ensures Passed(After(t, s), r)
    ensures SameOrder(r, s) && Plain(s) ==> Follows(s, r)
  {
  }

  lemma {:induction false} LaterFollows(t: Table, r: ExecutionReport, log: seq<ExecutionReport>, j: nat)
    requires Passed(t, r) && LegalRun(t, log) && j < |log| && Plain(log[j]) && SameOrder(r, log[j])
    ensures Follows(log[j], r)
    decreases |log|
  {
    hide Passed, Legal, After, Follows;
    PassedStays(t, r, log[0]);
    if j > 0 {
      LaterFollows(After(t, log[0]), r, log[1..], j - 1);
    }
  }

  // In a legal stream, a later report of an order only tells of what is left of it.
  lemma {:induction false} ReportsFollow(t: Table, log: seq<ExecutionReport>, i: nat, j: nat)
    requires Issued(t) && LegalRun(t, log) && i < j < |log|
    requires Plain(log[i]) && Plain(log[j]) && SameOrder(log[i], log[j])
    ensures Follows(log[j], log[i])
    decreases |log|
  {
    hide Issued, Passed, Legal, After, Follows;
    IssuedStays(t, log[0]);
    if i > 0 {
      ReportsFollow(After(t, log[0]), log[1..], i - 1, j - 1);
    } else {
      ReportPasses(t, log[0]);
      LaterFollows(After(t, log[0]), log[0], log[1..], j - 1);
    }
  }

  // ----- Every report is genuine -----

  ghost predicate GenuineTable(limit: nat, t: Table) {
    forall c | c in t.live :: 0 <= t.live[c].filled < t.live[c].quantity <= limit
  }

  lemma GenuineOne(limit: nat, t: Table, r: ExecutionReport)
    requires GenuineTable(limit, t) && Legal(t, r) && Plain(r)
    requires r.execType == ExecType.Ack ==> r.leavesQuantity <= limit
    requires !r.IsFill() ==> r.lastQuantity == r.cumulativeQuantity == 0
    ensures Genuine(r, limit) && GenuineTable(limit, After(t, r))
  {
  }

  lemma GenuineIsPlain(r: ExecutionReport, limit: nat)
    requires Genuine(r, limit)
    ensures Plain(r)
    ensures limit <= 65540 ==> Genuine(r, 65540)
  {
  }

  lemma FirstCarriesNoFill(m: Venue, req: GatewayRequest)
    ensures var log := Process(m, req).log;
            log != [] && log[0].lastQuantity == log[0].cumulativeQuantity == 0
  {
  }

  ghost predicate AllGenuine(limit: nat, log: seq<ExecutionReport>) {
    forall i | 0 <= i < |log| && Plain(log[i]) :: Genuine(log[i], limit)
  }

  lemma {:induction false} LegalIsGenuine(limit: nat, t: Table, log: seq<ExecutionReport>)
    requires GenuineTable(limit, t) && LegalRun(t, log)
    requires forall i | 0 <= i < |log| && !log[i].IsFill() :: log[i].lastQuantity == log[i].cumulativeQuantity == 0
    requires forall i | 0 <= i < |log| && log[i].execType == ExecType.Ack :: log[i].leavesQuantity <= limit
    ensures AllGenuine(limit, log) && GenuineTable(limit, AfterRun(t, log))
    decreases |log|
  {
    hide GenuineTable, Legal, After, Genuine;
    if log != [] {
      assert log[0].IsFill() || log[0].lastQuantity == log[0].cumulativeQuantity == 0;
      if Plain(log[0]) {
        GenuineOne(limit, t, log[0]);
      } else {
        OddReportKeeps(t, log[0]);
      }
      assert forall i | 0 <= i < |log[1..]| :: log[1..][i] == log[i + 1];
      LegalIsGenuine(limit, After(t, log[0]), log[1..]);
      assert forall i | 1 <= i < |log| :: log[i] == log[1..][i - 1];
    }
  }

  lemma OddReportKeeps(t: Table, r: ExecutionReport)
    requires !Plain(r)
    ensures After(t, r) == t
  {
  }

  predicate UpTo(requests: seq<GatewayRequest>, q: int) {
    forall i | 0 <= i < |requests| :: requests[i].quantity <= q
  }

  lemma LogIsGenuine(limit: nat, m: Venue, req: GatewayRequest)
    requires Inv(m) && GenuineTable(limit, TableOf(m)) && req.quantity <= limit
    ensures var done := Process(m, req);
            && AllGenuine(limit, done.log) && GenuineTable(limit, TableOf(done.venue))
  {
    hide Process, TableOf, Inv, GenuineTable, AllGenuine;
    ProcessIsLegal(m, req);
    FirstCarriesNoFill(m, req);
    LogShape(m, req);
    LegalIsGenuine(limit, TableOf(m), Process(m, req).log);
  }

  lemma {:induction false} RunIsGenuine(limit: nat, m: Venue, requests: seq<GatewayRequest>)
    requires Inv(m) && GenuineTable(limit, TableOf(m)) && UpTo(requests, limit)
    ensures AllGenuine(limit, RunRequests(m, requests).log)
    decreases |requests|
  {
    hide Process, TableOf, Inv, GenuineTable, Genuine;
    if requests != [] {
      LogIsGenuine(limit, m, requests[0]);
      ProcessKeepsInv(m, requests[0]);
      RunIsGenuine(limit, Process(m, requests[0]).venue, requests[1..]);
    }
  }

  // ----- Up to 65540 -----

  // Two reports of one order share a key.
  ghost predicate Clash(log: seq<ExecutionReport>) {
    exists i, j | 0 <= i < j < |log| ::
      && Plain(log[i]) && Plain(log[j]) && SameOrder(log[i], log[j])
      && ReportKey(log[i]) == ReportKey(log[j])
  }

  lemma SmallRunsDoNotClash(requests: seq<GatewayRequest>)
    requires UpTo(requests, 65540)
    ensures !Clash(RunRequests(EMPTY_VENUE, requests).log)
  {
    var log := RunRequests(EMPTY_VENUE, requests).log;
    assert TableOf(EMPTY_VENUE) == EMPTY_TABLE;
    RunsAreLegal(EMPTY_VENUE, requests);
    RunIsGenuine(65540, EMPTY_VENUE, requests);
    hide RunRequests, LegalRun, ReportKey, Genuine, Follows, Plain;
    forall i, j | 0 <= i < j < |log| && Plain(log[i]) && Plain(log[j]) && SameOrder(log[i], log[j])
      ensures ReportKey(log[i]) != ReportKey(log[j])
    {
      ReportsFollow(EMPTY_TABLE, log, i, j);
      KeySeparatesStream(log[i], log[j]);
    }
  }

  // ----- And no further -----

  // A sale that the resting order outlives: three reports, and the order stands with less.
  lemma SaleIsAnswered(m: Venue, req: GatewayRequest, k: int)
    requires ValidNew(m, req) && req.side == Sell && req.quantity == k > 0
    requires m.asks == [] && |m.bids| == 1
    requires var r := m.bids[0]; r.price >= req.price && k < r.remaining
    ensures var r, done := m.bids[0], Process(m, req);
            && |done.log| == 3
            && done.log[0].clientOrderId == done.log[2].clientOrderId == req.clientOrderId
            && done.log[1] == RestingFill(Trade(r, k), k, req.sendTimestamp)
            && done.venue == Venue([Trade(r, k)], [], m.nextId + 1)
  {
    var queue := m.bids;
    assert Sweep(queue, req, m.nextId, k, 0).left == 0;
    assert queue[1..] == [];
  }

  function Order(id: nat, side: Side, quantity: int): GatewayRequest {
    GatewayRequest(id, NewOrder, id, 0, "A", side, Limit, Day, 1, quantity, 0)
  }

  lemma ClashBehind(a: seq<ExecutionReport>, b: seq<ExecutionReport>)
    requires Clash(b)
    ensures Clash(a + b)
  {
    hide ReportKey, Plain;
    var i, j :| 0 <= i < j < |b|
      && Plain(b[i]) && Plain(b[j]) && SameOrder(b[i], b[j]) && ReportKey(b[i]) == ReportKey(b[j]);
    assert (a + b)[|a| + i] == b[i] && (a + b)[|a| + j] == b[j];
  }

  lemma ClashAcross(a: seq<ExecutionReport>, b: seq<ExecutionReport>, i: nat, j: nat)
    requires i < |a| && j < |b| && Plain(a[i]) && Plain(b[j])
    requires SameOrder(a[i], b[j]) && ReportKey(a[i]) == ReportKey(b[j])
    ensures Clash(a + b)
  {
    hide ReportKey, Plain;
    assert (a + b)[i] == a[i] && (a + b)[|a| + j] == b[j];
  }

  predicate Standing(m: Venue, filled: int) {
    && m.asks == [] && |m.bids| == 1
    && var r := m.bids[0];
       && r.clientOrderId == r.exchangeOrderId == 1 && r.price == 1
       && r.filled == filled && r.remaining == 65541 - filled
  }

  predicate Partial(r: ExecutionReport, last: int, cumulative: int) {
    && r.execType == ExecType.PartialFill && r.clientOrderId == r.exchangeOrderId == 1
    && r.lastQuantity == last && r.cumulativeQuantity == cumulative && r.leavesQuantity == 65541 - cumulative
  }

  lemma SaleLeavesStanding(m: Venue, id: nat, filled: int, k: int)
    requires Standing(m, filled) && id > 1 && 0 < k < 65541 - filled
    ensures var done := Process(m, Order(id, Sell, k));
            |done.log| == 3 && Partial(done.log[1], k, filled + k) && Standing(done.venue, filled + k)
  {
    hide Process;
    OrderIsValid(m, id, k, filled);
    SaleIsAnswered(m, Order(id, Sell, k), k);
  }

  lemma OrderIsValid(m: Venue, id: nat, k: int, filled: int)
    requires Standing(m, filled) && id > 1 && k > 0
    ensures ValidNew(m, Order(id, Sell, k))
  {
  }

  lemma BidStands()
    ensures Standing(Process(EMPTY_VENUE, Order(1, Buy, 65541)).venue, 0)
  {
    var m, req := EMPTY_VENUE, Order(1, Buy, 65541);
    assert ValidNew(m, req);
    assert Sweep([], req, 1, 65541, 0) == Swept([], 65541, 0, []);
    assert Rank(Buy, [], 1) == 0;
  }

  lemma RunFirst(m: Venue, req: GatewayRequest, rest: seq<GatewayRequest>)
    ensures RunRequests(m, [req] + rest).log
         == Process(m, req).log + RunRequests(Process(m, req).venue, rest).log
  {
    hide Process;
    assert ([req] + rest)[1..] == rest;
  }

  lemma RunOne(m: Venue, req: GatewayRequest)
    ensures RunRequests(m, [req]).log == Process(m, req).log
  {
    hide Process;
    RunFirst(m, req, []);
    assert [req] + [] == [req];
    RunNone(Process(m, req).venue);
  }

  lemma RunNone(m: Venue)
    ensures RunRequests(m, []).log == []
  {
  }

  // An order of 65541 that is filled 1, 1 and 65537.
  function Clashing(): seq<GatewayRequest> {
    [Order(1, Buy, 65541)] + ([Order(2, Sell, 1)] + ([Order(3, Sell, 1)] + [Order(4, Sell, 65537)]))
  }

  lemma LargeRunClashes()
    ensures Clash(RunRequests(EMPTY_VENUE, Clashing()).log)
  {
    hide Process, RunRequests, ReportKey, Standing, Clash;
    var bid, one, two, three := Order(1, Buy, 65541), Order(2, Sell, 1), Order(3, Sell, 1), Order(4, Sell, 65537);
    var m0 := Process(EMPTY_VENUE, bid).venue;
    var m1 := Process(m0, one).venue;
    var m2 := Process(m1, two).venue;
    BidStands();
    SaleLeavesStanding(m0, 2, 0, 1);
    SaleLeavesStanding(m1, 3, 1, 1);
    SaleLeavesStanding(m2, 4, 2, 65537);
    var second, third := Process(m1, two).log, Process(m2, three).log;
    PartialCollides(second[1], third[1]);
    ClashAcross(second, third, 1, 1);
    RunOne(m2, three);
    RunFirst(m1, two, [three]);
    RunFirst(m0, one, [two] + [three]);
    RunFirst(EMPTY_VENUE, bid, [one] + ([two] + [three]));
    ClashBehind(Process(m0, one).log, second + third);
    ClashBehind(Process(EMPTY_VENUE, bid).log, Process(m0, one).log + (second + third));
  }

  // In all runs of the exchange with orders of at most `q`, the reports of each order have distinct keys.
  ghost predicate StreamsSeparateUpTo(q: int) {
    forall requests | UpTo(requests, q) :: !Clash(RunRequests(EMPTY_VENUE, requests).log)
  }

  lemma StreamsSeparateExactlyUpTo65540(q: int)
    ensures StreamsSeparateUpTo(q) <==> q <= 65540
  {
    hide RunRequests, Clash;
    if q <= 65540 {
      forall requests | UpTo(requests, q) ensures !Clash(RunRequests(EMPTY_VENUE, requests).log) {
        SmallRunsDoNotClash(requests);
      }
    } else {
      LargeRunClashes();
      assert UpTo(Clashing(), q);
    }
  }
}
