// Runs of at most two placements, some of which the gateway may refuse: no keys collide, whatever the quantities,
// because no order is filled twice.
module EarlyRuns {
  import opened Types
  import opened Matching
  import opened ReportStream
  import opened ReportKeys
  import opened ReportHandler
  import opened ClosedLoop
  import opened Mirror
  import opened MirroredRuns
  import opened OneSidedRuns
  import opened StreamKeys
  import opened FillCounts
  import opened ShortRuns

  predicate EarlyIds(client: nat, exchange: nat) {
    1 <= client <= 2 && 1 <= exchange <= 2
  }

  predicate EarlyReport(r: ExecutionReport) {
    Plain(r) && EarlyIds(r.clientOrderId, r.exchangeOrderId)
  }

  ghost predicate AllEarly(log: seq<ExecutionReport>) {
    forall i | 0 <= i < |log| :: EarlyReport(log[i])
  }

  ghost predicate EarlyTable(t: Table) {
    forall c | c in t.live :: EarlyIds(c, t.live[c].exchangeId)
  }

  lemma EarlyIsNew(log: seq<ExecutionReport>)
    requires LegalRun(EMPTY_TABLE, log) && AllEarly(log) && NoSecondFill(log)
    ensures NewKeys({}, log)
  {
    hide ReportKey, LegalRun, Follows, Plain;
    forall i, j | 0 <= i < j < |log| ensures ReportKey(log[i]) != ReportKey(log[j]) {
      if ReportKey(log[i]) == ReportKey(log[j]) {
        TwoNumbersSeparate(log[i], log[j]);
        ReportsFollow(EMPTY_TABLE, log, i, j);
        SameKeyMeansPartials(log[i], log[j]);
        PartialIsFill(log[i]);
        PartialIsFill(log[j]);
      }
    }
  }

  // ----- One step's log -----

  lemma EarlyOne(t: Table, r: ExecutionReport)
    requires EarlyTable(t) && Legal(t, r) && Plain(r)
    requires r.execType == ExecType.Ack ==> EarlyIds(r.clientOrderId, r.exchangeOrderId)
    ensures EarlyReport(r) && EarlyTable(After(t, r))
  {
  }

  lemma {:induction false} EarlyFills(t: Table, log: seq<ExecutionReport>)
    requires EarlyTable(t) && LegalRun(t, log) && AllFills(log)
    ensures AllEarly(log) && EarlyTable(AfterRun(t, log))
    decreases |log|
  {
    hide EarlyTable, Legal, After, EarlyReport;
    if log != [] {
      assert log[0].IsFill();
      EarlyOne(t, log[0]);
      assert forall i | 0 <= i < |log[1..]| :: log[1..][i] == log[i + 1];
      EarlyFills(After(t, log[0]), log[1..]);
      assert forall i | 1 <= i < |log| :: log[i] == log[1..][i - 1];
    }
  }

  ghost predicate Early(w: World, past: seq<ExecutionReport>) {
    && Mirrored(w)
    && LegalRun(EMPTY_TABLE, past) && AfterRun(EMPTY_TABLE, past) == TableOf(w.venue)
    && w.handler.seen == Keys(past)
    && w.venue.nextId <= w.handler.oms.nextId
    && EarlyTable(TableOf(w.venue)) && AllEarly(past)
    && FillsCounted(w, past)
  }

  lemma StartIsEarly()
    ensures Early(START, [])
  {
    StartIsMirrored();
    StartCountsFills();
    assert TableOf(EMPTY_VENUE) == EMPTY_TABLE;
    assert Keys([]) == {};
  }

  lemma FirstReportIsEarly(w: World, a: Action)
    requires Mirrored(w) && EarlyTable(TableOf(w.venue)) && CancelsAsAsked(w, a) && Sent(w, a).Sending?
    requires a.Place? ==> 1 <= w.venue.nextId <= w.handler.oms.nextId <= 2
    ensures var log := LogOf(w, a);
            && log != [] && FillsAfterFirst(log) && EarlyReport(log[0])
            && EarlyTable(After(TableOf(w.venue), log[0]))
    ensures LegalRun(TableOf(w.venue), LogOf(w, a))
    ensures AfterRun(TableOf(w.venue), LogOf(w, a)) == TableOf(Step(w, a).venue)
  {
    hide Inv, TableOf, Sent, LogOf, Step, EarlyTable, Process, CancelsAsAsked, Legal, After, Mirrors, Numbered;
    var log, t := LogOf(w, a), TableOf(w.venue);
    SentStep(w, a);
    AnswersAreProper(w.venue, Sent(w, a).request);
    SentIsExpected(w, a);
    if a.Place? {
      SentPlaceIsAcked(w, a);
    } else {
      SentIsCancel(w, a);
      CancelHits(w, a);
    }
    EarlyOne(t, log[0]);
  }

  lemma LogIsEarly(w: World, a: Action)
    requires Mirrored(w) && EarlyTable(TableOf(w.venue)) && CancelsAsAsked(w, a)
    requires a.Place? ==> 1 <= w.venue.nextId <= w.handler.oms.nextId <= 2
    ensures AllEarly(LogOf(w, a)) && EarlyTable(TableOf(Step(w, a).venue))
    ensures LegalRun(TableOf(w.venue), LogOf(w, a))
    ensures AfterRun(TableOf(w.venue), LogOf(w, a)) == TableOf(Step(w, a).venue)
  {
    hide EarlyTable, TableOf, Mirrored, Sent, Legal, After, EarlyReport, CancelsAsAsked, Prepared, Process, HandleAll;
    if Sent(w, a).Sending? {
      hide LogOf, Step;
      FirstReportIsEarly(w, a);
      var log, t := LogOf(w, a), TableOf(w.venue);
      assert forall i | 0 <= i < |log[1..]| :: log[1..][i] == log[i + 1];
      EarlyFills(After(t, log[0]), log[1..]);
    }
  }

  // ----- Steps and runs -----

  lemma NoSecondYet(w: World, past: seq<ExecutionReport>)
    requires FillsCounted(w, past) && w.venue.nextId <= 3
    ensures NoSecondFill(past)
  {
  }

  lemma CountedIsIssued(w: World, past: seq<ExecutionReport>)
    requires FillsCounted(w, past)
    ensures w.venue.nextId >= 1
  {
  }

  lemma EarlyHasNewKeys(w: World, a: Action, past: seq<ExecutionReport>)
    requires Early(w, past) && CancelsAsAsked(w, a) && w.handler.oms.nextId + (if a.Place? then 1 else 0) <= 3
    ensures NewKeys(w.handler.seen, LogOf(w, a))
    ensures LegalRun(EMPTY_TABLE, past + LogOf(w, a)) && AllEarly(past + LogOf(w, a))
    ensures AfterRun(EMPTY_TABLE, past + LogOf(w, a)) == TableOf(Step(w, a).venue)
    ensures EarlyTable(TableOf(Step(w, a).venue)) && FillsCounted(Step(w, a), past + LogOf(w, a))
    ensures Step(w, a).venue.nextId <= Step(w, a).handler.oms.nextId
  {
    hide LogOf, Mirrored, EarlyTable, TableOf, Step, FillsCounted, NoSecondFill, CancelsAsAsked, LegalRun, AfterRun,
         NewKeys, Keys, EarlyReport, Sent;
    var log := LogOf(w, a);
    CountedIsIssued(w, past);
    LogIsEarly(w, a);
    RunsCompose(EMPTY_TABLE, past, log);
    StepCountsFills(w, a, past);
    ManagerIdsAdvance(w, a);
    VenueIdsAdvance(w, a);
    NoSecondYet(Step(w, a), past + log);
    EarlyIsNew(past + log);
    NewKeysSplit({}, past, log);
    assert {} + Keys(past) == Keys(past);
  }

  lemma EarlyStays(w: World, a: Action, past: seq<ExecutionReport>)
    requires Early(w, past) && CancelsAsAsked(w, a) && Fits(w, a)
    requires w.handler.oms.nextId + (if a.Place? then 1 else 0) <= 3
    ensures Early(Step(w, a), past + LogOf(w, a))
    ensures NewKeys(w.handler.seen, LogOf(w, a))
  {
    hide LogOf, Mirrored, EarlyTable, TableOf, Step, FillsCounted, CancelsAsAsked, LegalRun, AfterRun,
         NewKeys, Keys, AllEarly, Fits, Sent;
    EarlyHasNewKeys(w, a, past);
    StepKeepsMirror(w, a);
    SeenAfter(w, a);
    StepIsMirrored(w, a);
    KeysJoin(past, LogOf(w, a));
  }

  lemma StepIsMirrored(w: World, a: Action)
    requires StepMirrors(w, a)
    ensures Mirrored(Step(w, a))
  {
  }

  // However large the orders, two placements leave the manager in agreement with the exchange.
  lemma {:induction false} EarlyRunsMirror(w: World, actions: seq<Action>, past: seq<ExecutionReport>)
    requires Early(w, past) && Disciplined(w, actions) && w.handler.oms.nextId + Places(actions) <= 3
    ensures Mirrored(Steps(w, actions))
    decreases |actions|
  {
    hide CancelsAsAsked, Fits, LogOf, Step, Mirrored, TableOf, Keys;
    if actions != [] {
      EarlyStays(w, actions[0], past);
      ManagerIdsAdvance(w, actions[0]);
      EarlyRunsMirror(Step(w, actions[0]), actions[1..], past + LogOf(w, actions[0]));
    }
  }
}
