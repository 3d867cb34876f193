// Runs so short that their report keys cannot collide: for them the closed loop needs no hypothesis about keys.
module ShortRuns {
  import opened Types
  import opened Matching
  import opened ReportStream
  import opened ReportBatch
  import opened OrderLifecycle
  import opened ReportKeys
  import opened ReportHandler
  import opened ClosedLoop
  import opened Mirror
  import opened MirroredRuns
  import opened OneSidedRuns
  import opened StreamKeys
  import opened FillCounts

  // ----- No keys collide -----

  predicate Tame(g: Regime, r: ExecutionReport) {
    Genuine(r, Largest(g)) && Numbers(g, r.clientOrderId, r.exchangeOrderId)
  }

  ghost predicate AllTame(g: Regime, log: seq<ExecutionReport>) {
    forall i | 0 <= i < |log| :: Tame(g, log[i])
  }

  // In a legal stream of tame reports, no two reports share a key.
  lemma TameStreamsHaveNewKeys(g: Regime, log: seq<ExecutionReport>)
    requires LegalRun(EMPTY_TABLE, log) && AllTame(g, log) && (g.Three? ==> NoThirdFill(log))
    ensures NewKeys({}, log)
  {
    hide ReportKey, LegalRun, Genuine, Follows, Numbers, Plain, NoThirdFill;
    forall i, j | 0 <= i < j < |log| ensures ReportKey(log[i]) != ReportKey(log[j]) {
      if ReportKey(log[i]) == ReportKey(log[j]) {
        KeySeparatesOrders(g, log[i], log[j]);
        GenuineIsPlain(log[i], Largest(g));
        GenuineIsPlain(log[j], Largest(g));
        ReportsFollow(EMPTY_TABLE, log, i, j);
        if g.Three? {
          SameKeyMeansPartials(log[i], log[j]);
          TwoFillsAreTheFirst(log, i, j);
          KeySeparatesFirstTwo(log[i], log[j]);
        } else {
          KeySeparatesStream(log[i], log[j]);
        }
      }
    }
  }

  ghost predicate TameTable(g: Regime, t: Table) {
    GenuineTable(Largest(g), t) && forall c | c in t.live :: Numbers(g, c, t.live[c].exchangeId)
  }

  lemma TameOne(g: Regime, t: Table, r: ExecutionReport)
    requires TameTable(g, t) && Legal(t, r) && Plain(r)
    requires r.execType == ExecType.Ack ==> Tame(g, r)
    requires !r.IsFill() ==> r.lastQuantity == r.cumulativeQuantity == 0
    ensures Tame(g, r) && TameTable(g, After(t, r))
  {
    GenuineOne(Largest(g), t, r);
    hide GenuineTable, Genuine;
  }

  lemma {:induction false} TameFills(g: Regime, t: Table, log: seq<ExecutionReport>)
    requires TameTable(g, t) && LegalRun(t, log)
    requires forall i | 0 <= i < |log| :: log[i].IsFill()
    ensures AllTame(g, log) && TameTable(g, AfterRun(t, log))
    decreases |log|
  {
    hide TameTable, Legal, After, Tame;
    if log != [] {
      assert log[0].IsFill();
      TameOne(g, t, log[0]);
      TameFills(g, After(t, log[0]), log[1..]);
      assert forall i | 1 <= i < |log| :: log[i] == log[1..][i - 1];
    }
  }

  // ----- Short runs -----

  // The gateway lets the order through, and its quantity is bounded by the regime.
  predicate Modest(g: Regime, a: Action) {
    Sendable(a) && (a.Place? ==> a.quantity <= Largest(g))
  }

  predicate AllModest(g: Regime, actions: seq<Action>) {
    forall i | 0 <= i < |actions| :: Modest(g, actions[i])
  }

  function MostPlaces(g: Regime): nat {
    match g
    case Three => 3
    case Few => 256
    case Many => 2047
  }

  function Places(actions: seq<Action>): nat {
    if actions == [] then 0 else (if actions[0].Place? then 1 else 0) + Places(actions[1..])
  }

  ghost predicate InStep(g: Regime, w: World) {
    && 0 < w.venue.nextId == w.handler.oms.nextId
    && TameTable(g, TableOf(w.venue))
  }

  lemma SentIsCancel(w: World, a: Action)
    requires Sent(w, a).Sending? && !a.Place?
    ensures a.SendCancelFor?
  {
  }

  lemma FirstReportIsTame(g: Regime, w: World, a: Action)
    requires Mirrored(w) && InStep(g, w) && Modest(g, a) && CancelsAsAsked(w, a) && Sent(w, a).Sending?
    requires a.Place? ==> w.handler.oms.nextId <= MostPlaces(g)
    ensures var log := LogOf(w, a);
            log != [] && Tame(g, log[0]) && TameTable(g, After(TableOf(w.venue), log[0]))
  {
    hide Inv, TableOf, Sent, LogOf, Step, TameTable, Process, CancelsAsAsked, Legal, Mirrors, Numbered, FillsAfterFirst;
    var log, t := LogOf(w, a), TableOf(w.venue);
    SentStep(w, a);
    AnswersAreProper(w.venue, Sent(w, a).request);
    assert Legal(t, log[0]);
    if a.Place? {
      SentPlaceIsAcked(w, a);
    } else {
      SentIsCancel(w, a);
      CancelHits(w, a);
    }
    assert log[0].lastQuantity == log[0].cumulativeQuantity == 0 by {
      FirstCarriesNoFill(w.venue, Sent(w, a).request);
    }
    TameOne(g, t, log[0]);
  }

  // What is carried along a short run: the history so far is tame and legal, and made the present table.
  ghost predicate TamePast(g: Regime, w: World, past: seq<ExecutionReport>) {
    && LegalRun(EMPTY_TABLE, past)
    && AfterRun(EMPTY_TABLE, past) == TableOf(w.venue)
    && AllTame(g, past)
    && w.handler.seen == Keys(past)
    && (g.Three? ==> FillsCounted(w, past) && w.venue.nextId <= 4)
  }

  lemma SentLogIsTame(g: Regime, w: World, a: Action)
    requires Mirrored(w) && InStep(g, w) && Modest(g, a) && CancelsAsAsked(w, a) && Sent(w, a).Sending?
    requires a.Place? ==> w.handler.oms.nextId <= MostPlaces(g)
    ensures AllTame(g, LogOf(w, a)) && TameTable(g, TableOf(Step(w, a).venue))
    ensures LegalRun(TableOf(w.venue), LogOf(w, a))
    ensures AfterRun(TableOf(w.venue), LogOf(w, a)) == TableOf(Step(w, a).venue)
  {
    hide TableOf, Sent, LogOf, Step, TameTable, Tame, Legal, After, Modest, CancelsAsAsked, Inv, Mirrors, Process;
    FirstReportIsTame(g, w, a);
    SentStep(w, a);
    AnswersAreProper(w.venue, Sent(w, a).request);
    var log, t := LogOf(w, a), TableOf(w.venue);
    assert forall i | 1 <= i < |log| :: log[i] == log[1..][i - 1];
    TameFills(g, After(t, log[0]), log[1..]);
  }

  lemma LogIsTame(g: Regime, w: World, a: Action)
    requires Mirrored(w) && InStep(g, w) && Modest(g, a) && CancelsAsAsked(w, a)
    requires a.Place? ==> w.handler.oms.nextId <= MostPlaces(g)
    ensures AllTame(g, LogOf(w, a)) && TameTable(g, TableOf(Step(w, a).venue))
    ensures LegalRun(TableOf(w.venue), LogOf(w, a))
    ensures AfterRun(TableOf(w.venue), LogOf(w, a)) == TableOf(Step(w, a).venue)
  {
    hide Mirrored, Sent, TameTable, Tame, TableOf, Prepared, Process, HandleAll, Kept;
    if Sent(w, a).Sending? {
      SentLogIsTame(g, w, a);
    }
  }

  lemma NewKeysJoin(seen: set<bv64>, a: seq<ExecutionReport>, b: seq<ExecutionReport>)
    requires NewKeys(seen, a) && NewKeys(seen + Keys(a), b)
    ensures NewKeys(seen, a + b)
  {
    hide ReportKey;
  }

  lemma KeysJoin(a: seq<ExecutionReport>, b: seq<ExecutionReport>)
    ensures Keys(a + b) == Keys(a) + Keys(b)
  {
  }

  lemma IdsStayInStep(g: Regime, w: World, a: Action)
    requires Mirrored(w) && Modest(g, a) && 0 < w.venue.nextId == w.handler.oms.nextId
    ensures 0 < Step(w, a).venue.nextId == Step(w, a).handler.oms.nextId
  {
    hide Mirrored, Sent, Step, LogOf, Sendable;
    ManagerIdsAdvance(w, a);
    VenueIdsAdvance(w, a);
    if a.Place? {
      PlaceCarriesOrder(w, a);
    }
  }

  lemma TameJoin(g: Regime, a: seq<ExecutionReport>, b: seq<ExecutionReport>)
    requires AllTame(g, a) && AllTame(g, b)
    ensures AllTame(g, a + b)
  {
  }

  lemma NoThirdYet(w: World, past: seq<ExecutionReport>)
    requires FillsCounted(w, past) && w.venue.nextId <= 4
    ensures NoThirdFill(past)
  {
  }

  // After at most three placements no order has been filled three times.
  lemma FillsStayFew(g: Regime, w: World, a: Action, past: seq<ExecutionReport>)
    requires Mirrored(w) && InStep(g, w) && Modest(g, a) && TamePast(g, w, past) && g.Three?
    requires a.Place? ==> w.handler.oms.nextId <= MostPlaces(g)
    ensures FillsCounted(Step(w, a), past + LogOf(w, a)) && Step(w, a).venue.nextId <= 4
    ensures NoThirdFill(past + LogOf(w, a))
  {
    hide Mirrored, Step, LogOf, FillsCounted, Modest, TableOf, TameTable, NoThirdFill, Sent, LegalRun, AfterRun;
    StepCountsFills(w, a, past);
    VenueIdsAdvance(w, a);
    NoThirdYet(Step(w, a), past + LogOf(w, a));
  }

  lemma LogHasNewKeys(g: Regime, w: World, a: Action, past: seq<ExecutionReport>)
    requires Mirrored(w) && InStep(g, w) && Modest(g, a) && CancelsAsAsked(w, a) && TamePast(g, w, past)
    requires a.Place? ==> w.handler.oms.nextId <= MostPlaces(g)
    ensures NewKeys(w.handler.seen, LogOf(w, a))
    ensures Fits(w, a) ==>
      TamePast(g, Step(w, a), past + LogOf(w, a)) && InStep(g, Step(w, a)) && Mirrored(Step(w, a))
  {
    var log := LogOf(w, a);
    hide Mirrored, TableOf, LogOf, Step, TameTable, AllTame, LegalRun, AfterRun, Keys, NewKeys, CancelsAsAsked, Modest,
         FillsCounted, NoThirdFill;
    LogIsTame(g, w, a);
    RunsCompose(EMPTY_TABLE, past, log);
    TameJoin(g, past, log);
    if g.Three? {
      FillsStayFew(g, w, a, past);
    }
    TameStreamsHaveNewKeys(g, past + log);
    NewKeysSplit({}, past, log);
    assert {} + Keys(past) == Keys(past);
    if Fits(w, a) {
      StepKeepsMirror(w, a);
      IdsStayInStep(g, w, a);
      KeysJoin(past, log);
    }
  }

  lemma {:induction false} ShortRunsHaveNewKeys(g: Regime, w: World, actions: seq<Action>, past: seq<ExecutionReport>)
    requires Mirrored(w) && InStep(g, w) && TamePast(g, w, past) && Disciplined(w, actions) && AllModest(g, actions)
    requires w.handler.oms.nextId + Places(actions) <= MostPlaces(g) + 1
    ensures NewKeys(w.handler.seen, History(w, actions))
    decreases |actions|
  {
    hide Mirrored, InStep, TamePast, CancelsAsAsked, Fits, Modest, LogOf, Step, NewKeys, Keys;
    if actions == [] {
      assert NewKeys(w.handler.seen, []) by {
        NoKeys(w.handler.seen);
      }
    } else {
      var a, rest := actions[0], actions[1..];
      var log := LogOf(w, a);
      assert forall i | 0 <= i < |rest| :: rest[i] == actions[i + 1];
      LogHasNewKeys(g, w, a, past);
      ManagerIdsAdvance(w, a);
      StepKeepsMirror(w, a);
      SeenAfter(w, a);
      ShortRunsHaveNewKeys(g, Step(w, a), rest, past + log);
      NewKeysJoin(w.handler.seen, log, History(Step(w, a), rest));
    }
  }

  lemma NoKeys(seen: set<bv64>)
    ensures NewKeys(seen, [])
  {
  }

  lemma SeenAfter(w: World, a: Action)
    requires StepMirrors(w, a)
    ensures Step(w, a).handler.seen == w.handler.seen + Keys(LogOf(w, a))
  {
  }

  lemma StartIsTame(g: Regime)
    ensures Mirrored(START) && InStep(g, START) && TamePast(g, START, [])
  {
    StartIsMirrored();
    StartCountsFills();
    assert TableOf(EMPTY_VENUE) == EMPTY_TABLE;
    assert Keys([]) == {};
  }

  lemma ShortRunsAreNew(g: Regime, actions: seq<Action>)
    requires Disciplined(START, actions) && AllModest(g, actions) && Places(actions) <= MostPlaces(g)
    ensures NewKeys({}, History(START, actions))
  {
    hide Disciplined, Mirrored, TamePast, InStep, AllModest, NewKeys, MostPlaces;
    StartIsTame(g);
    ShortRunsHaveNewKeys(g, START, actions, []);
  }

  // For up to three sendable orders of at most 196607, 256 of at most 65540, or 2047 of at most 65536, the closed loop
  // mirrors the exchange, with no hypothesis about keys.
  lemma ShortRunsMirror(g: Regime, actions: seq<Action>)
    requires Disciplined(START, actions) && AllModest(g, actions) && Places(actions) <= MostPlaces(g)
    ensures var w := Steps(START, actions);
            && NothingRefused(START, actions)
            && (forall r | r in w.venue.bids + w.venue.asks ::
                  r.clientOrderId in w.handler.oms.orders && Agree(r, w.handler.oms.orders[r.clientOrderId]))
            && (forall c | c in w.handler.oms.orders ::
                  IsWorking(w.handler.oms.orders[c].status) <==> c in Clients(w.venue.bids) + Clients(w.venue.asks))
            && Bought(w.handler) == Sold(w.handler)
            && Net(w.handler) == 0
  {
    hide Disciplined, Agree, Mirrored, AllModest, NewKeys;
    ShortRunsAreNew(g, actions);
    ClosedLoopMirrors(actions);
  }
}
