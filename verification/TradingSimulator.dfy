// The whole simulator: what one market-data event does to the trading state, and what holds after
// a replay, single-threaded or threaded (apps/trading_sim.cpp:96-223).
module TradingSimulator {
  import opened Types
  import opened Matching
  import opened OrderLifecycle
  import opened Positions
  import opened ClosedLoop
  import opened MirroredRuns
  import opened Words
  import opened OneSidedRuns
  import opened MarketBook
  import opened RiskEngine
  import ThreadedPipeline

  datatype StrategyConfig = StrategyConfig(
    symbol: Symbol,
    orderQuantity: int,
    maxSpread: int,
    generateBuy: bool,
    generateSell: bool)

  datatype Settings = Settings(strategy: StrategyConfig, risk: RiskConfig)

  datatype Quote = Quote(side: Side, price: int)

  // The state the events work on: market-data orders, the rate window, and the order loop.
  datatype Context = Context(book: Orders, window: Window, world: World)

  const INITIAL := Context(map[], NO_WINDOW, START)

  // The strategy joins the best bid, the best ask, or both, when the spread is not too wide.
  function Quotes(c: StrategyConfig, bid: int, ask: int): seq<Quote> {
    if bid == 0 || ask == 0 || ask - bid > c.maxSpread || c.orderQuantity <= 0 then []
    else
      (if c.generateBuy then [Quote(Buy, bid)] else [])
      + (if c.generateSell then [Quote(Sell, ask)] else [])
  }

  ghost function AttemptOf(s: Settings, c: Context, q: Quote, now: nat): Attempt {
    var bid, ask := BestPrice(Buy, c.book), BestPrice(Sell, c.book);
    Attempt(s.strategy.symbol, q.side, q.price, s.strategy.orderQuantity,
            StateOf(c.world.handler.positions, s.strategy.symbol).quantity,
            MarketState(bid, ask, if bid != 0 then bid else q.price), now)
  }

  function PlaceOf(s: Settings, q: Quote, now: nat): Action {
    Place(s.strategy.symbol, q.side, q.price, s.strategy.orderQuantity, now)
  }

  ghost function OnQuote(s: Settings, c: Context, q: Quote, now: nat): Context {
    var (window, reason) := Checked(s.risk, c.window, AttemptOf(s, c, q, now));
    if reason != Allowed then c.(window := window)
    else c.(window := window, world := Step(c.world, PlaceOf(s, q, now)))
  }

  ghost function OnQuotes(s: Settings, c: Context, quotes: seq<Quote>, now: nat): Context {
    if quotes == [] then c
    else OnQuote(s, OnQuotes(s, c, quotes[..|quotes| - 1], now), quotes[|quotes| - 1], now)
  }

  ghost function OnEvent(s: Settings, c: Context, e: MarketDataEvent): Context {
    if !Applies(c.book, e) then c
    else
      var c' := c.(book := MarketBook.After(c.book, e));
      OnQuotes(s, c', Quotes(s.strategy, BestPrice(Buy, c'.book), BestPrice(Sell, c'.book)), e.receiveTimestamp)
  }

  // ----- A replay is a run of the closed loop -----

  ghost predicate Quoted(s: Settings, a: Action) {
    && a.Place?
    && a.symbol == s.strategy.symbol
    && a.quantity == s.strategy.orderQuantity > 0
    && a.price > 0
    && (a.side == Buy ==> s.strategy.generateBuy)
    && (a.side == Sell ==> s.strategy.generateSell)
  }

  ghost predicate AllQuoted(s: Settings, actions: seq<Action>) {
    forall i | 0 <= i < |actions| :: Quoted(s, actions[i])
  }

  // The world is what at most `n` placements of the strategy make of the start.
  ghost predicate Driven(s: Settings, w: World, n: nat) {
    exists actions :: AllQuoted(s, actions) && |actions| <= n && w == Steps(START, actions)
  }

  predicate May(c: StrategyConfig, q: Quote) {
    && (q.side == Buy ==> c.generateBuy)
    && (q.side == Sell ==> c.generateSell)
  }

  lemma QuoteIsDriven(s: Settings, c: Context, q: Quote, now: nat, n: nat)
    requires Driven(s, c.world, n) && May(s.strategy, q)
    ensures Driven(s, OnQuote(s, c, q, now).world, n + 1)
    ensures OnQuote(s, c, q, now).book == c.book
  {
    hide Step, Steps;
    var actions :| AllQuoted(s, actions) && |actions| <= n && c.world == Steps(START, actions);
    var more := actions + [PlaceOf(s, q, now)];
    StepsExtend(START, actions, PlaceOf(s, q, now));
    var (_, reason) := Checked(s.risk, c.window, AttemptOf(s, c, q, now));
    if reason == Allowed {
      assert AllQuoted(s, more);
    }
  }

  lemma {:induction false} QuotesAreDriven(s: Settings, c: Context, quotes: seq<Quote>, now: nat, n: nat)
    requires Driven(s, c.world, n) && forall i | 0 <= i < |quotes| :: May(s.strategy, quotes[i])
    ensures Driven(s, OnQuotes(s, c, quotes, now).world, n + |quotes|)
    ensures OnQuotes(s, c, quotes, now).book == c.book
  {
    hide Driven, OnQuote, May;
    if quotes != [] {
      var front := quotes[..|quotes| - 1];
      QuotesAreDriven(s, c, front, now, n);
      QuoteIsDriven(s, OnQuotes(s, c, front, now), quotes[|quotes| - 1], now, n + |front|);
    }
  }

  lemma DrivenMore(s: Settings, w: World, m: nat, n: nat)
    requires Driven(s, w, m) && m <= n
    ensures Driven(s, w, n)
  {
  }

  // At most one order a side for each of `n` events.
  function Quota(c: StrategyConfig, n: nat): nat {
    (if c.generateBuy then n else 0) + (if c.generateSell then n else 0)
  }

  lemma QuotesMay(c: StrategyConfig, bid: int, ask: int)
    ensures |Quotes(c, bid, ask)| <= Quota(c, 1)
    ensures forall i | 0 <= i < |Quotes(c, bid, ask)| :: May(c, Quotes(c, bid, ask)[i])
  {
  }

  lemma EventIsDriven(s: Settings, c: Context, e: MarketDataEvent, n: nat)
    requires Driven(s, c.world, n)
    ensures Driven(s, OnEvent(s, c, e).world, n + Quota(s.strategy, 1))
  {
    DrivenMore(s, c.world, n, n + Quota(s.strategy, 1));
    hide Driven, OnQuotes, BestPrice, MarketBook.After, Quotes, May, Applies;
    if Applies(c.book, e) {
      var c' := c.(book := MarketBook.After(c.book, e));
      var bid, ask := BestPrice(Buy, c'.book), BestPrice(Sell, c'.book);
      var quotes := Quotes(s.strategy, bid, ask);
      QuotesMay(s.strategy, bid, ask);
      QuotesAreDriven(s, c', quotes, e.receiveTimestamp, n);
      DrivenMore(s, OnEvent(s, c, e).world, n + |quotes|, n + Quota(s.strategy, 1));
    }
  }

  // ----- The replay -----

  ghost function JobOf(s: Settings, events: seq<MarketDataEvent>, sentinel: MarketDataEvent)
    : ThreadedPipeline.Job<Context, MarketDataEvent>
  {
    ThreadedPipeline.Job(events, sentinel, IsSentinel, (c, e) => OnEvent(s, c, e))
  }

  const SENTINEL_SEQUENCE: nat := 0xFFFF_FFFF_FFFF_FFFF

  const IsSentinel: MarketDataEvent -> bool := (e: MarketDataEvent) => e.sequenceNumber == SENTINEL_SEQUENCE

  // The single-threaded run.
  ghost function Replayed(s: Settings, c: Context, events: seq<MarketDataEvent>): Context {
    if events == [] then c
    else OnEvent(s, Replayed(s, c, events[..|events| - 1]), events[|events| - 1])
  }

  lemma {:induction false} ReplayIsDriven(s: Settings, events: seq<MarketDataEvent>)
    ensures Driven(s, Replayed(s, INITIAL, events).world, Quota(s.strategy, |events|))
  {
    hide OnEvent;
    if events == [] {
      assert AllQuoted(s, []) && Steps(START, []) == START;
    } else {
      hide Driven;
      var front := events[..|events| - 1];
      ReplayIsDriven(s, front);
      EventIsDriven(s, Replayed(s, INITIAL, front), events[|events| - 1], Quota(s.strategy, |front|));
    }
  }

  // After any replay, of any length and under any settings, each position is the signed sum of what its
  // orders filled, and the venue's books are in order.
  lemma ReplayKeepsBooks(s: Settings, events: seq<MarketDataEvent>)
    ensures Balanced(Replayed(s, INITIAL, events).world.handler)
    ensures Inv(Replayed(s, INITIAL, events).world.venue)
  {
    hide Steps, Balanced, Inv, Replayed;
    ReplayIsDriven(s, events);
    var actions :| AllQuoted(s, actions) && |actions| <= Quota(s.strategy, |events|)
                   && Replayed(s, INITIAL, events).world == Steps(START, actions);
    StartIsSane();
    PositionsEqualFills(START, actions);
    SaneIsOrderly(Steps(START, actions));
  }

  lemma SaneIsOrderly(w: World)
    requires Sane(w)
    ensures Inv(w.venue)
  {
  }

  // ----- A strategy that quotes one side -----

  predicate OneSided(c: StrategyConfig) {
    !c.generateBuy || !c.generateSell
  }

  function QuotedSide(c: StrategyConfig): Side {
    if c.generateBuy then Buy else Sell
  }

  // A one-sided strategy, as the simulator ships with, never has a fill: the exchange sees only its orders.
  lemma OneSidedNeverFills(s: Settings, events: seq<MarketDataEvent>)
    requires OneSided(s.strategy)
    ensures Replayed(s, INITIAL, events).world.handler.positions == map[]
  {
    hide Steps, Replayed;
    ReplayIsDriven(s, events);
    var actions :| AllQuoted(s, actions) && |actions| <= Quota(s.strategy, |events|)
                   && Replayed(s, INITIAL, events).world == Steps(START, actions);
    OneSidedRun(START, actions, QuotedSide(s.strategy));
  }

  // Every replay of a one-sided strategy leaves manager and exchange in agreement, as long as ids fit 64 bits:
  // what one holds resting the other has working, and unless the gateway refuses the symbol, that is all orders.
  lemma OneSidedMirrors(s: Settings, events: seq<MarketDataEvent>)
    requires OneSided(s.strategy) && |events| < WORD
    ensures var w := Replayed(s, INITIAL, events).world;
            && (forall r | r in w.venue.bids + w.venue.asks ::
                  r.clientOrderId in w.handler.oms.orders && Agree(r, w.handler.oms.orders[r.clientOrderId]))
            && (forall c | c in w.handler.oms.orders ::
                  IsWorking(w.handler.oms.orders[c].status) <==> c in Clients(w.venue.bids) + Clients(w.venue.asks))
            && (s.strategy.symbol != "" ==>
                  forall c | c in w.handler.oms.orders :: IsWorking(w.handler.oms.orders[c].status))
  {
    hide Steps, Replayed, Agree, Mirrored, Working;
    ReplayIsDriven(s, events);
    var actions :| AllQuoted(s, actions) && |actions| <= Quota(s.strategy, |events|)
                   && Replayed(s, INITIAL, events).world == Steps(START, actions);
    if s.strategy.symbol == "" {
      StartIsMirrored();
      NamelessRunMirrors(START, actions);
    } else {
      OneSidedRunsMirror(actions, QuotedSide(s.strategy), s.strategy.orderQuantity);
      LoneRunsWork(actions, QuotedSide(s.strategy), s.strategy.orderQuantity);
      AllWorking(Steps(START, actions));
    }
    MirroredMeansAgreement(Steps(START, actions));
  }

  // ----- Two threads -----

  lemma {:induction false} ReplayedIsRun(s: Settings, events: seq<MarketDataEvent>, sentinel: MarketDataEvent,
                                         c: Context, part: seq<MarketDataEvent>)
    ensures ThreadedPipeline.RunSingle(JobOf(s, events, sentinel), c, part) == Replayed(s, c, part)
  {
    hide OnEvent;
    if part != [] {
      ReplayedIsRun(s, events, sentinel, c, part[..|part| - 1]);
    }
  }

  // The part of a replay that the threaded run gets to see.
  function Unmarked(events: seq<MarketDataEvent>): seq<MarketDataEvent> {
    if events == [] || events[0].sequenceNumber == SENTINEL_SEQUENCE then []
    else [events[0]] + Unmarked(events[1..])
  }

  lemma {:induction false} UnmarkedIsAll(events: seq<MarketDataEvent>)
    ensures Unmarked(events) == events <==>
              forall i | 0 <= i < |events| :: events[i].sequenceNumber != SENTINEL_SEQUENCE
  {
    if events != [] && events[0].sequenceNumber != SENTINEL_SEQUENCE {
      UnmarkedIsAll(events[1..]);
      assert events == [events[0]] + events[1..];
      assert forall i | 0 <= i < |events[1..]| :: events[1..][i] == events[i + 1];
      assert forall i | 1 <= i < |events| :: events[i] == events[1..][i - 1];
    }
  }

  lemma {:induction false} UnmarkedIsUntilSentinel(job: ThreadedPipeline.Job<Context, MarketDataEvent>,
                                                   events: seq<MarketDataEvent>, sentinel: MarketDataEvent)
    requires job.isSentinel == IsSentinel && sentinel.sequenceNumber == SENTINEL_SEQUENCE
    ensures ThreadedPipeline.UntilSentinel(job, events + [sentinel]) == Unmarked(events)
  {
    if events != [] && events[0].sequenceNumber != SENTINEL_SEQUENCE {
      assert (events + [sentinel])[1..] == events[1..] + [sentinel];
      UnmarkedIsUntilSentinel(job, events[1..], sentinel);
    }
  }

  // However the threads interleave, the trading state is that of the single-threaded run of the events handled so
  // far, a prefix of those before the first that carries the sentinel's sequence number, and in the end all of
  // them; and its books balance.
  lemma ThreadedSimulatorIsExact(s: Settings, events: seq<MarketDataEvent>, sentinel: MarketDataEvent,
                                 start: ThreadedPipeline.Threads<Context, MarketDataEvent>,
                                 moves: seq<ThreadedPipeline.Move>)
    requires sentinel.sequenceNumber == SENTINEL_SEQUENCE
    requires ThreadedPipeline.Start(start, 1024)
    requires ThreadedPipeline.Allowed(JobOf(s, events, sentinel), start, moves)
    ensures var now := ThreadedPipeline.Play(JobOf(s, events, sentinel), start, moves);
            && now.handled <= Unmarked(events)
            && now.context == Replayed(s, start.context, now.handled)
            && (now.exited ==> now.context == Replayed(s, start.context, Unmarked(events)))
            && (start.context == INITIAL ==> Balanced(now.context.world.handler))
  {
    hide Balanced, Replayed, ThreadedPipeline.Allowed, ThreadedPipeline.Play, ThreadedPipeline.Start,
         ThreadedPipeline.RunSingle;
    var job := JobOf(s, events, sentinel);
    var now := ThreadedPipeline.Play(job, start, moves);
    ThreadedPipeline.ThreadedHandlesUntilSentinel(job, start, 1024, moves);
    UnmarkedIsUntilSentinel(job, events, sentinel);
    ReplayedIsRun(s, events, sentinel, start.context, now.handled);
    ReplayKeepsBooks(s, now.handled);
  }
}
