// What a stream of reports leaves in the positions, and what that means for the profits of the closed loop.
module LoopAccounts {
  import opened Types
  import opened Matching
  import opened ReportStream
  import opened ReportBatch
  import opened Positions
  import opened ReportHandler
  import opened ReportEffects
  import opened Profits
  import opened Executions
  import opened ClosedLoop
  import opened Mirror
  import opened MirroredRuns

  // ----- Streams of reports -----

  // The fills of a stream, as trades.
  function FillsOf(reports: seq<ExecutionReport>): seq<Positions.Trade> {
    if reports == [] then []
    else
      var r := reports[0];
      (if r.execType in {ExecType.PartialFill, ExecType.Fill}
       then [Positions.Trade(r.symbol, r.side, r.lastPrice, r.lastQuantity)] else [])
      + FillsOf(reports[1..])
  }

  lemma {:induction false} FirstTradeFirst(positions: PositionMap, t: Positions.Trade, rest: seq<Positions.Trade>)
    ensures ApplyTrades(positions, [t] + rest)
         == ApplyTrades(Moved(positions, t.symbol, t.side, t.price, t.quantity), rest)
    decreases |rest|
  {
    hide Moved;
    if rest == [] {
      assert [t] + rest == [t] && [t][..0] == [];
      assert ApplyTrades(positions, []) == positions;
    } else {
      var front, last := rest[..|rest| - 1], rest[|rest| - 1];
      assert ([t] + rest)[..|rest|] == [t] + front;
      FirstTradeFirst(positions, t, front);
    }
  }

  lemma OnePosts(h: HandlerState, r: ExecutionReport)
    ensures Handle(h, r).0.positions
         == if Handle(h, r).1 == Accepted && r.IsFill()
            then Moved(h.positions, r.symbol, r.side, r.lastPrice, r.lastQuantity) else h.positions
  {
    hide Handle, Moved, Becomes;
    if Handle(h, r).1 == Accepted {
      AcceptedReportsAct(h, r);
    } else {
      RefusalsChangeNothing(h, r);
    }
  }

  lemma OneFill(r: ExecutionReport, rest: seq<ExecutionReport>)
    ensures FillsOf([r] + rest)
         == (if r.IsFill() then [Positions.Trade(r.symbol, r.side, r.lastPrice, r.lastQuantity)] else [])
            + FillsOf(rest)
  {
    assert ([r] + rest)[1..] == rest;
  }

  // Positions hold the accepted fills of a stream, each by its own price and quantity, and nothing else.
  lemma {:induction false} PositionsAreAcceptedFills(h: HandlerState, reports: seq<ExecutionReport>)
    ensures HandleAll(h, reports).positions == ApplyTrades(h.positions, FillsOf(AcceptedOf(h, reports)))
    decreases |reports|
  {
    if reports == [] {
      NothingPosts(h.positions);
    } else {
      hide Handle, Moved, HandleAll, AcceptedOf, FillsOf, ApplyTrades;
      var r, rest := reports[0], reports[1..];
      assert reports == [r] + rest;
      var h' := Handle(h, r).0;
      OneReport(h, r, rest);
      PositionsAreAcceptedFills(h', rest);
      OnePosts(h, r);
      if Handle(h, r).1 == Accepted {
        OneFill(r, AcceptedOf(h', rest));
        if r.IsFill() {
          FirstTradeFirst(h.positions, Positions.Trade(r.symbol, r.side, r.lastPrice, r.lastQuantity),
                          FillsOf(AcceptedOf(h', rest)));
        } else {
          assert [] + FillsOf(AcceptedOf(h', rest)) == FillsOf(AcceptedOf(h', rest));
        }
      }
    }
  }

  lemma {:induction false} AllAcceptedIsWhole(h: HandlerState, log: seq<ExecutionReport>)
    requires AllAccepted(h, log)
    ensures AcceptedOf(h, log) == log
    decreases |log|
  {
    hide Handle;
    if log != [] {
      AllAcceptedIsWhole(Handle(h, log[0]).0, log[1..]);
    }
  }

  // ----- Runs of the closed loop -----

  lemma {:induction false} TradesJoin(positions: PositionMap, a: seq<Positions.Trade>, b: seq<Positions.Trade>)
    ensures ApplyTrades(positions, a + b) == ApplyTrades(ApplyTrades(positions, a), b)
    decreases |b|
  {
    hide Moved;
    if b == [] {
      assert a + b == a;
    } else {
      assert (a + b)[..|a + b| - 1] == a + b[..|b| - 1];
      TradesJoin(positions, a, b[..|b| - 1]);
    }
  }

  lemma {:induction false} FillsJoin(a: seq<ExecutionReport>, b: seq<ExecutionReport>)
    ensures FillsOf(a + b) == FillsOf(a) + FillsOf(b)
  {
    if a == [] {
      assert a + b == b;
    } else {
      assert (a + b)[1..] == a[1..] + b;
      FillsJoin(a[1..], b);
    }
  }

  lemma FittingIsKept(log: seq<ExecutionReport>)
    requires |log| <= MAX_REPORTS
    ensures Kept(log) == log
  {
  }

  lemma StepPosts(w: World, a: Action)
    requires Fits(w, a) && AllAccepted(PreparedHandler(w, a), LogOf(w, a))
    ensures Step(w, a).handler.positions == ApplyTrades(w.handler.positions, FillsOf(LogOf(w, a)))
  {
    hide Process, Handle, Kept, Prepared, Sent, ApplyTrades, FillsOf, AcceptedOf, AllAccepted;
    if Sent(w, a).Sending? {
      SentStep(w, a);
      var log, h := LogOf(w, a), PreparedHandler(w, a);
      FittingIsKept(log);
      PositionsAreAcceptedFills(h, log);
      AllAcceptedIsWhole(h, log);
    } else {
      NothingPosts(w.handler.positions);
    }
  }

  lemma NothingPosts(positions: PositionMap)
    ensures ApplyTrades(positions, FillsOf([])) == positions
  {
  }

  lemma {:induction false} RunsPost(w: World, actions: seq<Action>)
    requires Disciplined(w, actions) && NothingRefused(w, actions)
    ensures Steps(w, actions).handler.positions == ApplyTrades(w.handler.positions, FillsOf(History(w, actions)))
    decreases |actions|
  {
    hide Step, LogOf, Fits, CancelsAsAsked, AllAccepted, ApplyTrades, FillsOf;
    if actions == [] {
      NothingPosts(w.handler.positions);
    } else {
      var a, rest := actions[0], actions[1..];
      StepPosts(w, a);
      RunsPost(Step(w, a), rest);
      var first, later := LogOf(w, a), History(Step(w, a), rest);
      FillsJoin(first, later);
      TradesJoin(w.handler.positions, FillsOf(first), FillsOf(later));
    }
  }

  // ----- A loop that trades one symbol -----

  // Every fill counts as a trade of the symbol.
  ghost predicate FillsAre(log: seq<ExecutionReport>, symbol: Symbol) {
    forall i | 0 <= i < |log| && log[i].IsFill() ::
      log[i].symbol == symbol && log[i].lastPrice > 0 && log[i].lastQuantity > 0
  }

  ghost predicate LiveAre(t: Table, symbol: Symbol) {
    forall c | c in t.live :: t.live[c].symbol == symbol
  }

  ghost predicate AcksAre(log: seq<ExecutionReport>, symbol: Symbol) {
    forall i | 0 <= i < |log| && log[i].execType == ExecType.Ack :: log[i].symbol == symbol
  }

  lemma OneIs(t: Table, r: ExecutionReport, symbol: Symbol)
    requires LiveAre(t, symbol) && Legal(t, r) && (r.execType == ExecType.Ack ==> r.symbol == symbol)
    ensures LiveAre(After(t, r), symbol)
    ensures r.IsFill() ==> r.symbol == symbol && r.lastPrice > 0 && r.lastQuantity > 0
  {
  }

  lemma {:induction false} LegalFillsAre(t: Table, log: seq<ExecutionReport>, symbol: Symbol)
    requires LiveAre(t, symbol) && LegalRun(t, log) && AcksAre(log, symbol)
    ensures FillsAre(log, symbol) && LiveAre(AfterRun(t, log), symbol)
    decreases |log|
  {
    hide LiveAre, Legal, After;
    if log != [] {
      OneIs(t, log[0], symbol);
      assert forall i | 0 <= i < |log[1..]| :: log[1..][i] == log[i + 1];
      LegalFillsAre(After(t, log[0]), log[1..], symbol);
      assert forall i | 1 <= i < |log| :: log[i] == log[1..][i - 1];
    }
  }

  lemma FillsAreJoin(a: seq<ExecutionReport>, b: seq<ExecutionReport>, symbol: Symbol)
    requires FillsAre(a, symbol) && FillsAre(b, symbol)
    ensures FillsAre(a + b, symbol)
  {
  }

  lemma LastFill(r: ExecutionReport, symbol: Symbol)
    requires r.IsFill() ==> r.symbol == symbol && r.lastPrice > 0 && r.lastQuantity > 0
    requires symbol != ""
    ensures Money([r], Sell) - Money([r], Buy)
         == if r.IsFill() then -Signed(r.side, r.lastPrice * r.lastQuantity) else 0
    ensures Mirror.Traded([r], Buy) - Mirror.Traded([r], Sell)
         == if r.IsFill() then Signed(r.side, r.lastQuantity) else 0
    ensures FillsOf([r]) == if r.IsFill() then [Positions.Trade(r.symbol, r.side, r.lastPrice, r.lastQuantity)] else []
  {
    assert [r][1..] == [];
  }

  lemma LastTrade(front: seq<Positions.Trade>, t: Positions.Trade, symbol: Symbol)
    requires Moves(t, symbol)
    ensures Cash(front + [t], symbol) == Cash(front, symbol) - Signed(t.side, t.price * t.quantity)
    ensures Held(front + [t], symbol) == Held(front, symbol) + Signed(t.side, t.quantity)
  {
    assert (front + [t])[..|front|] == front;
  }

  lemma LastReport(front: seq<ExecutionReport>, r: ExecutionReport)
    ensures FillsOf(front + [r]) == FillsOf(front) + FillsOf([r])
    ensures Money(front + [r], Buy) == Money(front, Buy) + Money([r], Buy)
    ensures Money(front + [r], Sell) == Money(front, Sell) + Money([r], Sell)
    ensures forall side :: Mirror.Traded(front + [r], side) == Mirror.Traded(front, side) + Mirror.Traded([r], side)
  {
    hide FillsOf, Money, Mirror.Traded;
    FillsJoin(front, [r]);
    MoneyAdds(front, [r], Buy);
    MoneyAdds(front, [r], Sell);
    TradedSum(front, [r]);
  }

  // The cash and the holding that a log makes are its money and its quantities, sales against purchases.
  lemma {:induction false} CashIsMoney(log: seq<ExecutionReport>, symbol: Symbol)
    requires FillsAre(log, symbol) && symbol != ""
    ensures Cash(FillsOf(log), symbol) == Money(log, Sell) - Money(log, Buy)
    ensures Held(FillsOf(log), symbol) == Mirror.Traded(log, Buy) - Mirror.Traded(log, Sell)
    decreases |log|
  {
    if log != [] {
      hide Money, Mirror.Traded, FillsOf, Cash, Held;
      var front, last := log[..|log| - 1], log[|log| - 1];
      assert log == front + [last];
      CashIsMoney(front, symbol);
      LastFill(last, symbol);
      LastReport(front, last);
      if last.IsFill() {
        LastTrade(FillsOf(front), Positions.Trade(last.symbol, last.side, last.lastPrice, last.lastQuantity), symbol);
      } else {
        assert FillsOf(front) + [] == FillsOf(front);
      }
    }
  }

  predicate Places(a: Action, symbol: Symbol) {
    a.Place? ==> a.symbol == symbol
  }

  lemma StepIsEven(w: World, a: Action, symbol: Symbol)
    requires Mirrored(w) && LiveAre(TableOf(w.venue), symbol) && Places(a, symbol)
    ensures var log := LogOf(w, a);
            && FillsAre(log, symbol)
            && Money(log, Buy) == Money(log, Sell) && Mirror.Traded(log, Buy) == Mirror.Traded(log, Sell)
    ensures LiveAre(TableOf(Step(w, a).venue), symbol)
  {
    hide Inv, TableOf, Process, LiveAre, Sent, FillsAre, LogOf, Step, Money, Mirror.Traded, Mirrors, Numbered,
         FillsAfterFirst;
    UnsentKeepsVenue(w, a);
    if Sent(w, a).Sending? {
      SentStep(w, a);
      var req := Sent(w, a).request;
      AnswersAreProper(w.venue, req);
      LogsAreEvenInMoney(w.venue, req);
      SentAcksAre(w, a, symbol);
      LegalFillsAre(TableOf(w.venue), LogOf(w, a), symbol);
    } else {
      NoFillsAre(symbol);
    }
  }

  lemma NoFillsAre(symbol: Symbol)
    ensures FillsAre([], symbol)
    ensures Money([], Buy) == Money([], Sell) && Mirror.Traded([], Buy) == Mirror.Traded([], Sell)
  {
  }

  lemma UnsentKeepsVenue(w: World, a: Action)
    ensures Sent(w, a).Nothing? ==> LogOf(w, a) == [] && Step(w, a).venue == w.venue
  {
  }

  lemma SentAcksAre(w: World, a: Action, symbol: Symbol)
    requires Places(a, symbol) && Sent(w, a).Sending?
    ensures AcksAre(LogOf(w, a), symbol)
  {
    var req := Sent(w, a).request;
    SentIsPlaced(w, a);
    LogShape(w.venue, req);
    hide Process, Sent;
  }

  lemma SentIsPlaced(w: World, a: Action)
    requires Sent(w, a).Sending?
    ensures Sent(w, a).request.requestType == NewOrder ==> a.Place? && Sent(w, a).request.symbol == a.symbol
  {
  }

  lemma {:induction false} RunsAreEven(w: World, actions: seq<Action>, symbol: Symbol)
    requires Mirrored(w) && Disciplined(w, actions) && NewKeys(w.handler.seen, History(w, actions))
    requires LiveAre(TableOf(w.venue), symbol) && forall i | 0 <= i < |actions| :: Places(actions[i], symbol)
    ensures var log := History(w, actions);
            && FillsAre(log, symbol)
            && Money(log, Buy) == Money(log, Sell) && Mirror.Traded(log, Buy) == Mirror.Traded(log, Sell)
    decreases |actions|
  {
    hide Mirrored, CancelsAsAsked, Fits, NewKeys, LogOf, Step, LiveAre, TableOf, FillsAre, Money, Mirror.Traded, Places;
    if actions == [] {
      NoFillsAre(symbol);
    } else {
      var a, rest := actions[0], actions[1..];
      NewKeysSplit(w.handler.seen, LogOf(w, a), History(Step(w, a), rest));
      StepKeepsMirror(w, a);
      StepIsEven(w, a, symbol);
      assert forall i | 0 <= i < |rest| :: rest[i] == actions[i + 1];
      RunsAreEven(Step(w, a), rest, symbol);
      var first, later := LogOf(w, a), History(Step(w, a), rest);
      FillsAreJoin(first, later, symbol);
      MoneyAdds(first, later, Buy);
      MoneyAdds(first, later, Sell);
      TradedSum(first, later);
    }
  }

  lemma StartIsEmpty(symbol: Symbol)
    ensures LiveAre(TableOf(START.venue), symbol)
  {
  }

  // The loop trades with itself. On a disciplined run with distinct keys whose orders are all of one symbol, what is
  // bought is sold, so the position is closed, no cash is made, and the realized profit is what the truncated averages
  // lost and nothing else.
  lemma ProfitIsRounding(actions: seq<Action>, symbol: Symbol)
    requires Disciplined(START, actions) && NewKeys({}, History(START, actions)) && symbol != ""
    requires forall i | 0 <= i < |actions| :: Places(actions[i], symbol)
    ensures var s := StateOf(Steps(START, actions).handler.positions, symbol);
            var trades := FillsOf(History(START, actions));
            var (error, bound) := Roundings(trades, symbol);
            && Steps(START, actions).handler.positions == ApplyTrades(map[], trades)
            && Cash(trades, symbol) == 0
            && s.quantity == 0 && s.averagePrice == 0
            && s.realizedPnl == error && -bound <= s.realizedPnl <= bound
  {
    hide Disciplined, Mirrored, NewKeys, Steps, History, FillsAre, Money, Mirror.Traded, Cash, Held, Entries, Gains,
         Roundings, FillsOf, LiveAre, NothingRefused, Places, ApplyTrades;
    var log := History(START, actions);
    StartIsMirrored();
    StartIsEmpty(symbol);
    RunsKeepMirror(START, actions);
    RunsPost(START, actions);
    RunsAreEven(START, actions, symbol);
    CashIsMoney(log, symbol);
    ProfitReconciles(FillsOf(log), symbol);
    HistoriesAreAccounted(FillsOf(log), symbol);
  }
}
