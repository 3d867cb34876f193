// At what price the strategy quotes, and which quotes of a replay become orders
// (src/strategy/strategy_simulator.cpp:10-48, apps/trading_sim.cpp:96-158).
module QuotePlacements {
  import opened Types
  import opened Positions
  import opened ClosedLoop
  import opened MarketBook
  import opened RiskEngine
  import opened OneSidedRuns
  import opened TradingSimulator

  // ----- One update of the book -----

  // Some live order of the side stands at the price, and none stands at a better one.
  ghost predicate Touches(orders: Orders, side: Side, price: int) {
    && (exists id :: id in orders && orders[id].side == side && orders[id].price == price)
    && (forall id | id in orders && orders[id].side == side ::
          if side == Buy then orders[id].price <= price else price <= orders[id].price)
  }

  predicate Stands(orders: Orders, side: Side) {
    exists id :: id in orders && orders[id].side == side
  }

  lemma {:induction false} BestAmong(orders: Orders, ids: set<nat>, side: Side) returns (best: nat)
    requires ids <= orders.Keys && exists id :: id in ids && orders[id].side == side
    ensures best in ids && orders[best].side == side
    ensures forall id | id in ids && orders[id].side == side :: !Better(side, orders[id].price, orders[best].price)
    decreases ids
  {
    best :| best in ids && orders[best].side == side;
    var rest := ids - {best};
    if exists id :: id in rest && orders[id].side == side {
      var other := BestAmong(orders, rest, side);
      if Better(side, orders[other].price, orders[best].price) {
        best := other;
      }
    }
  }

  // The best price is the one touched, and zero exactly when the side is empty.
  lemma BestIsTouched(orders: Orders, side: Side)
    requires LiveOrders(orders)
    ensures Stands(orders, side) <==> BestPrice(side, orders) != 0
    ensures Stands(orders, side) ==> Touches(orders, side, BestPrice(side, orders)) && BestPrice(side, orders) > 0
  {
    if Stands(orders, side) {
      var best := BestAmong(orders, orders.Keys, side);
      assert IsBest(side, orders, best);
    }
  }

  lemma TouchIsUnique(orders: Orders, side: Side, price: int, price': int)
    requires Touches(orders, side, price) && Touches(orders, side, price')
    ensures price == price'
  {
  }

  predicate Generates(c: StrategyConfig, side: Side) {
    if side == Buy then c.generateBuy else c.generateSell
  }

  // The strategy has reason to quote: both sides stand, not too far apart, and there is something to quote.
  ghost predicate Quotable(c: StrategyConfig, orders: Orders) {
    && c.orderQuantity > 0
    && exists bid, ask :: Touches(orders, Buy, bid) && Touches(orders, Sell, ask) && ask - bid <= c.maxSpread
  }

  // What the strategy may answer an update with: for each configured side, if there is reason to quote at all, one
  // quote at the best price of that side's live orders, the buy before the sale.
  ghost predicate JoinsTheTouch(c: StrategyConfig, orders: Orders, quotes: seq<Quote>) {
    && (forall i | 0 <= i < |quotes| :: Touches(orders, quotes[i].side, quotes[i].price))
    && (forall i, j | 0 <= i < j < |quotes| :: quotes[i].side == Buy && quotes[j].side == Sell)
    && (forall side ::
          (exists i :: 0 <= i < |quotes| && quotes[i].side == side) <==> Generates(c, side) && Quotable(c, orders))
  }

  lemma QuotesJoinTheTouch(c: StrategyConfig, orders: Orders)
    requires LiveOrders(orders)
    ensures JoinsTheTouch(c, orders, Quotes(c, BestPrice(Buy, orders), BestPrice(Sell, orders)))
  {
    BestIsTouched(orders, Buy);
    BestIsTouched(orders, Sell);
    var bid, ask := BestPrice(Buy, orders), BestPrice(Sell, orders);
    QuotableExactly(c, orders, bid, ask);
    var quotes := Quotes(c, bid, ask);
    hide Touches, Quotable, BestPrice, LiveOrders;
    forall side
      ensures (exists i :: 0 <= i < |quotes| && quotes[i].side == side) <==> Generates(c, side) && Quotable(c, orders)
    {
      if Generates(c, side) && Quotable(c, orders) {
        assert quotes[if side == Buy || !c.generateBuy then 0 else 1].side == side;
      }
    }
  }

  ghost predicate Sensible(c: StrategyConfig, orders: Orders, q: Quote) {
    Generates(c, q.side) && Quotable(c, orders) && Touches(orders, q.side, q.price)
  }

  lemma QuotableExactly(c: StrategyConfig, orders: Orders, bid: int, ask: int)
    requires Stands(orders, Buy) <==> bid != 0
    requires Stands(orders, Sell) <==> ask != 0
    requires Stands(orders, Buy) ==> Touches(orders, Buy, bid)
    requires Stands(orders, Sell) ==> Touches(orders, Sell, ask)
    ensures Quotable(c, orders) <==> c.orderQuantity > 0 && bid != 0 && ask != 0 && ask - bid <= c.maxSpread
  {
    if Quotable(c, orders) {
      var b, a :| Touches(orders, Buy, b) && Touches(orders, Sell, a) && a - b <= c.maxSpread;
      TouchIsUnique(orders, Buy, b, bid);
      TouchIsUnique(orders, Sell, a, ask);
    }
  }

  // ----- Replays -----

  // The live orders after some events.
  function BookAfter(events: seq<MarketDataEvent>): Orders {
    if events == [] then map[]
    else MarketBook.After(BookAfter(events[..|events| - 1]), events[|events| - 1])
  }

  lemma {:induction false} BookStaysLive(events: seq<MarketDataEvent>)
    ensures LiveOrders(BookAfter(events))
  {
    if events != [] {
      BookStaysLive(events[..|events| - 1]);
    }
  }

  // The attempt that stands for a placement when the touch is `bid` and `ask` and the position is as given.
  function AsAttempt(a: Action, position: int, bid: int, ask: int): Attempt
    requires a.Place?
  {
    Attempt(a.symbol, a.side, a.price, a.quantity, position, MarketState(bid, ask, bid), a.now)
  }

  // The placement passed all pre-trade tests but that of the rate.
  predicate WithinLimits(c: RiskConfig, a: Attempt) {
    forall i | 0 <= i < |TESTS| - 1 :: Passes(c, NO_WINDOW, a, TESTS[i])
  }

  // The strategy's answer to the k-th event: it takes the best price of its side of the book as that event leaves it,
  // and with the position it finds it is within all limits.
  ghost predicate Prompted(s: Settings, events: seq<MarketDataEvent>, k: nat, w: World, a: Action)
    requires k < |events|
  {
    var book := BookAfter(events[..k + 1]);
    && Applies(BookAfter(events[..k]), events[k])
    && a.Place? && a.symbol == s.strategy.symbol && a.quantity == s.strategy.orderQuantity
    && a.now == events[k].receiveTimestamp
    && Generates(s.strategy, a.side) && Quotable(s.strategy, book)
    && Touches(book, a.side, a.price)
    && exists bid, ask :: Touches(book, Buy, bid) && Touches(book, Sell, ask)
         && WithinLimits(s.risk, AsAttempt(a, StateOf(w.handler.positions, a.symbol).quantity, bid, ask))
  }

  // Which event prompted which placement: in order, and for one event at most a buy and then a sale.
  ghost predicate Traces(s: Settings, events: seq<MarketDataEvent>, actions: seq<Action>, at: seq<nat>) {
    && |at| == |actions|
    && (forall i | 0 <= i < |at| ::
          at[i] < |events| && Prompted(s, events, at[i], Steps(START, actions[..i]), actions[i]))
    && (forall i, j | 0 <= i < j < |at| ::
          at[i] <= at[j] && (at[i] == at[j] ==> actions[i].side == Buy && actions[j].side == Sell))
  }

  lemma PromptedStill(s: Settings, events: seq<MarketDataEvent>, e: MarketDataEvent, k: nat, w: World, a: Action)
    requires k < |events| && Prompted(s, events, k, w, a)
    ensures Prompted(s, events + [e], k, w, a)
  {
    assert (events + [e])[..k] == events[..k] && (events + [e])[..k + 1] == events[..k + 1];
    hide BookAfter, Quotable, Touches, WithinLimits, Applies;
  }

  lemma TracesStill(s: Settings, events: seq<MarketDataEvent>, e: MarketDataEvent, actions: seq<Action>, at: seq<nat>)
    requires Traces(s, events, actions, at)
    ensures Traces(s, events + [e], actions, at)
  {
    hide Prompted, Steps;
    forall i | 0 <= i < |at|
      ensures at[i] < |events + [e]| && Prompted(s, events + [e], at[i], Steps(START, actions[..i]), actions[i])
    {
      PromptedStill(s, events, e, at[i], Steps(START, actions[..i]), actions[i]);
    }
  }

  lemma OneMoreTraced(s: Settings, events: seq<MarketDataEvent>, actions: seq<Action>, at: seq<nat>, a: Action)
    requires Traces(s, events, actions, at) && events != []
    requires Prompted(s, events, |events| - 1, Steps(START, actions), a)
    requires forall i | 0 <= i < |at| && at[i] == |events| - 1 :: actions[i].side == Buy && a.side == Sell
    ensures Traces(s, events, actions + [a], at + [|events| - 1])
  {
    hide Prompted, Steps;
    var more, at' := actions + [a], at + [|events| - 1];
    assert more[..|actions|] == actions;
    forall i | 0 <= i < |at'|
      ensures at'[i] < |events| && Prompted(s, events, at'[i], Steps(START, more[..i]), more[i])
    {
      if i < |at| {
        assert more[..i] == actions[..i];
      }
    }
  }

  lemma AllowedIsWithinLimits(c: RiskConfig, w: Window, a: Attempt)
    requires Checked(c, w, a).1 == Allowed
    ensures WithinLimits(c, a)
  {
    FirstFailureDecides(c, w, a);
    hide Checked;
    forall i | 0 <= i < |TESTS| - 1 ensures Passes(c, NO_WINDOW, a, TESTS[i]) {
      assert Passes(c, w, a, TESTS[i]);
    }
  }

  // What the check of a quote lets through.
  lemma AllowedIsPrompted(s: Settings, events: seq<MarketDataEvent>, c: Context, q: Quote)
    requires events != [] && c.book == BookAfter(events)
    requires Applies(BookAfter(events[..|events| - 1]), events[|events| - 1])
    requires Sensible(s.strategy, c.book, q)
    requires var now := events[|events| - 1].receiveTimestamp;
             Checked(s.risk, c.window, AttemptOf(s, c, q, now)).1 == Allowed
    ensures var now := events[|events| - 1].receiveTimestamp;
            Prompted(s, events, |events| - 1, c.world, PlaceOf(s, q, now))
  {
    hide BookAfter, Applies, Checked, WithinLimits;
    var now := events[|events| - 1].receiveTimestamp;
    assert events[..|events| - 1 + 1] == events;
    BothSidesStand(s, events);
    AllowedIsWithinLimits(s.risk, c.window, AttemptOf(s, c, q, now));
    hide Touches, BestPrice, Quotable;
    assert AttemptOf(s, c, q, now)
        == AsAttempt(PlaceOf(s, q, now), StateOf(c.world.handler.positions, s.strategy.symbol).quantity,
                     BestPrice(Buy, c.book), BestPrice(Sell, c.book));
  }

  lemma BothSidesStand(s: Settings, events: seq<MarketDataEvent>)
    requires Quotable(s.strategy, BookAfter(events))
    ensures var book := BookAfter(events);
            && Touches(book, Buy, BestPrice(Buy, book)) && BestPrice(Buy, book) > 0
            && Touches(book, Sell, BestPrice(Sell, book)) && BestPrice(Sell, book) > 0
  {
    var book := BookAfter(events);
    BookStaysLive(events);
    hide BookAfter, LiveOrders, BestPrice;
    BestIsTouched(book, Buy);
    BestIsTouched(book, Sell);
  }

  // One quote: placed exactly when the check lets it through.
  lemma QuoteIsTraced(s: Settings, events: seq<MarketDataEvent>, c: Context, q: Quote,
                      actions: seq<Action>, at: seq<nat>)
    returns (actions': seq<Action>, at': seq<nat>)
    requires events != [] && c.book == BookAfter(events)
    requires Applies(BookAfter(events[..|events| - 1]), events[|events| - 1])
    requires Sensible(s.strategy, c.book, q)
    requires Traces(s, events, actions, at) && c.world == Steps(START, actions)
    requires forall i | 0 <= i < |at| && at[i] == |events| - 1 :: actions[i].side == Buy && q.side == Sell
    ensures var c' := OnQuote(s, c, q, events[|events| - 1].receiveTimestamp);
            && c'.book == c.book && Traces(s, events, actions', at') && c'.world == Steps(START, actions')
    ensures forall i | 0 <= i < |at'| && at'[i] == |events| - 1 ::
              actions'[i].side == q.side || (i < |at| && at[i] == |events| - 1 && actions'[i] == actions[i])
  {
    hide BookAfter, Applies, Checked, Quotable, Touches, Steps, Step, Prompted, Traces;
    var now := events[|events| - 1].receiveTimestamp;
    actions', at' := actions, at;
    if Checked(s.risk, c.window, AttemptOf(s, c, q, now)).1 == Allowed {
      var a := PlaceOf(s, q, now);
      AllowedIsPrompted(s, events, c, q);
      OneMoreTraced(s, events, actions, at, a);
      StepsExtend(START, actions, a);
      actions', at' := actions + [a], at + [|events| - 1];
    }
    SameLength(s, events, actions, at);
  }

  lemma SameLength(s: Settings, events: seq<MarketDataEvent>, actions: seq<Action>, at: seq<nat>)
    requires Traces(s, events, actions, at)
    ensures |at| == |actions|
  {
  }

  // A quote becomes an order exactly when it passes all tests, against the best prices and the position of the moment.
  lemma QuoteIsPlacedExactly(s: Settings, c: Context, q: Quote, now: nat)
    requires LiveOrders(c.book) && Quotable(s.strategy, c.book) && Touches(c.book, q.side, q.price)
    ensures exists bid, ask :: Touches(c.book, Buy, bid) && Touches(c.book, Sell, ask) &&
              var a := PlaceOf(s, q, now);
              var position := StateOf(c.world.handler.positions, a.symbol).quantity;
              var passes := forall i | 0 <= i < |TESTS| ::
                              Passes(s.risk, c.window, AsAttempt(a, position, bid, ask), TESTS[i]);
              OnQuote(s, c, q, now).world == if passes then Step(c.world, a) else c.world
  {
    var bid, ask := BestPrice(Buy, c.book), BestPrice(Sell, c.book);
    BestIsTouched(c.book, Buy);
    BestIsTouched(c.book, Sell);
    hide BestPrice, LiveOrders, Touches, Checked, Step, Passes;
    FirstFailureDecides(s.risk, c.window, AttemptOf(s, c, q, now));
    assert AttemptOf(s, c, q, now)
        == AsAttempt(PlaceOf(s, q, now), StateOf(c.world.handler.positions, s.strategy.symbol).quantity, bid, ask);
  }

  lemma NoneQuoted(s: Settings, c: Context, now: nat)
    ensures OnQuotes(s, c, [], now) == c
  {
  }

  lemma QuoteByQuote(s: Settings, c: Context, quotes: seq<Quote>, now: nat)
    requires 1 <= |quotes| <= 2
    ensures OnQuotes(s, c, quotes, now)
         == if |quotes| == 1 then OnQuote(s, c, quotes[0], now)
            else OnQuote(s, OnQuote(s, c, quotes[0], now), quotes[1], now)
  {
    hide OnQuote;
    assert OnQuotes(s, c, [], now) == c;
    assert quotes[..1][..0] == [];
    assert OnQuotes(s, c, quotes[..1], now) == OnQuote(s, c, quotes[0], now);
    assert |quotes| == 1 ==> quotes[..1] == quotes;
  }

  lemma QuotesAreTraced(s: Settings, events: seq<MarketDataEvent>, c: Context, quotes: seq<Quote>,
                        actions: seq<Action>, at: seq<nat>)
    returns (actions': seq<Action>, at': seq<nat>)
    requires events != [] && c.book == BookAfter(events)
    requires Applies(BookAfter(events[..|events| - 1]), events[|events| - 1])
    requires JoinsTheTouch(s.strategy, c.book, quotes)
    requires Traces(s, events, actions, at) && c.world == Steps(START, actions)
    requires forall i | 0 <= i < |at| :: at[i] < |events| - 1
    ensures var c' := OnQuotes(s, c, quotes, events[|events| - 1].receiveTimestamp);
            && c'.book == c.book && Traces(s, events, actions', at') && c'.world == Steps(START, actions')
  {
    hide BookAfter, Applies, Quotable, Touches, Steps, Prompted, Traces, OnQuote, OnQuotes, Generates;
    SameLength(s, events, actions, at);
    var now := events[|events| - 1].receiveTimestamp;
    actions', at' := actions, at;
    if quotes == [] {
      NoneQuoted(s, c, now);
    } else {
      AtMostTwo(s.strategy, c.book, quotes);
      QuoteByQuote(s, c, quotes, now);
      actions', at' := QuoteIsTraced(s, events, c, quotes[0], actions, at);
      if |quotes| == 2 {
        SameLength(s, events, actions', at');
        actions', at' := QuoteIsTraced(s, events, OnQuote(s, c, quotes[0], now), quotes[1], actions', at');
      }
    }
  }

  lemma QuoteIsSensible(c: StrategyConfig, orders: Orders, quotes: seq<Quote>, i: nat)
    requires JoinsTheTouch(c, orders, quotes) && i < |quotes|
    ensures Sensible(c, orders, quotes[i])
  {
    hide Touches, Quotable, Generates;
    var side := quotes[i].side;
    assert Generates(c, side) && Quotable(c, orders);
  }

  lemma AtMostTwo(c: StrategyConfig, orders: Orders, quotes: seq<Quote>)
    requires JoinsTheTouch(c, orders, quotes)
    ensures |quotes| <= 2
    ensures |quotes| >= 1 ==> Sensible(c, orders, quotes[0])
    ensures |quotes| == 2 ==> quotes[0].side == Buy && quotes[1].side == Sell && Sensible(c, orders, quotes[1])
  {
    hide Sensible, JoinsTheTouch;
    if |quotes| >= 1 {
      QuoteIsSensible(c, orders, quotes, 0);
    }
    if |quotes| >= 2 {
      QuoteIsSensible(c, orders, quotes, 1);
      InOrder(c, orders, quotes, 0, 1);
    }
    if |quotes| >= 3 {
      InOrder(c, orders, quotes, 1, 2);
    }
  }

  lemma InOrder(c: StrategyConfig, orders: Orders, quotes: seq<Quote>, i: nat, j: nat)
    requires JoinsTheTouch(c, orders, quotes) && i < j < |quotes|
    ensures quotes[i].side == Buy && quotes[j].side == Sell
  {
  }

  lemma TracesAreEarlier(s: Settings, events: seq<MarketDataEvent>, actions: seq<Action>, at: seq<nat>)
    requires Traces(s, events, actions, at)
    ensures forall i | 0 <= i < |at| :: at[i] < |events|
  {
  }

  lemma EventIsTraced(s: Settings, events: seq<MarketDataEvent>, c: Context, actions: seq<Action>, at: seq<nat>)
    returns (actions': seq<Action>, at': seq<nat>)
    requires events != []
    requires var before := events[..|events| - 1];
             && c.book == BookAfter(before) && Traces(s, before, actions, at) && c.world == Steps(START, actions)
    ensures var c' := OnEvent(s, c, events[|events| - 1]);
            && c'.book == BookAfter(events) && Traces(s, events, actions', at') && c'.world == Steps(START, actions')
  {
    hide Steps, Traces, OnQuotes, Quotes, LiveOrders, BestPrice, JoinsTheTouch, Applies, MarketBook.After;
    var before, e := events[..|events| - 1], events[|events| - 1];
    assert events == before + [e];
    TracesStill(s, before, e, actions, at);
    TracesAreEarlier(s, before, actions, at);
    actions', at' := actions, at;
    assert BookAfter(events) == MarketBook.After(BookAfter(before), e);
    if Applies(c.book, e) {
      var book := BookAfter(events);
      BookStaysLive(events);
      hide BookAfter;
      QuotesJoinTheTouch(s.strategy, book);
      var quotes := Quotes(s.strategy, BestPrice(Buy, book), BestPrice(Sell, book));
      actions', at' := QuotesAreTraced(s, events, c.(book := book), quotes, actions, at);
    } else {
      RefusedEventKeeps(c.book, e);
    }
  }

  lemma RefusedEventKeeps(orders: Orders, e: MarketDataEvent)
    requires !Applies(orders, e)
    ensures MarketBook.After(orders, e) == orders
  {
  }

  // Every replay is a run of placements, each prompted by an event: at the best price of its side of the live orders
  // that event leaves, within all limits at the position the placements before it made, in the order of the events,
  // and for each at most one buy and then one sale.
  lemma {:induction false} ReplaysAreTraced(s: Settings, events: seq<MarketDataEvent>)
    returns (actions: seq<Action>, at: seq<nat>)
    ensures Traces(s, events, actions, at)
    ensures Replayed(s, INITIAL, events).world == Steps(START, actions)
    ensures Replayed(s, INITIAL, events).book == BookAfter(events)
    decreases |events|
  {
    hide OnEvent, BookAfter, Prompted;
    if events == [] {
      actions, at := [], [];
      NothingYet();
    } else {
      var before := events[..|events| - 1];
      hide Traces;
      actions, at := ReplaysAreTraced(s, before);
      actions, at := EventIsTraced(s, events, Replayed(s, INITIAL, before), actions, at);
    }
  }

  lemma NothingYet()
    ensures BookAfter([]) == map[]
  {
  }
}
