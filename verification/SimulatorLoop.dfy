// The simulator's event loop over components updated in place (apps/trading_sim.cpp:96-176,
// src/strategy/strategy_simulator.cpp:10-48). What it computes is module TradingSimulator.
module SimulatorLoop {
  import opened Types
  import opened MarketBook
  import opened RiskEngine
  import opened TradingLoop
  import opened ClosedLoop
  import opened TradingSimulator
  import opened QuotePlacements

  class StrategySimulator {
    const config: StrategyConfig
    var nextClientOrderId: nat

    constructor (config: StrategyConfig)
      ensures this.config == config
    {
      this.config := config;
      nextClientOrderId := 1;
    }

    method OnBookUpdate(book: OrderBook) returns (quotes: seq<Quote>)
      requires book.Valid()
      modifies this
      ensures quotes == Quotes(config, BestPrice(Buy, book.orders), BestPrice(Sell, book.orders))
      ensures JoinsTheTouch(config, book.orders, quotes)
    {
      QuotesJoinTheTouch(config, book.orders);
      hide JoinsTheTouch;
      quotes := [];
      var hasBid := book.HasBid();
      var hasAsk := book.HasAsk();
      if !hasBid || !hasAsk {
        return;
      }
      var spread := book.Spread();
      if spread > config.maxSpread || config.orderQuantity <= 0 {
        return;
      }
      if config.generateBuy {
        var bid := book.BestBid();
        quotes := quotes + [Quote(Buy, bid)];
        nextClientOrderId := nextClientOrderId + 1;
      }
      if config.generateSell {
        var ask := book.BestAsk();
        quotes := quotes + [Quote(Sell, ask)];
        nextClientOrderId := nextClientOrderId + 1;
      }
    }
  }

  class Simulator {
    const book: OrderBook
    const strategy: StrategySimulator
    const risk: PreTradeRiskEngine
    const pipeline: PipelineContext

    ghost predicate Valid()
      reads this, book, pipeline, pipeline.orders, pipeline.exchange
    {
      book.Valid() && pipeline.Valid()
    }

    function Settings(): Settings {
      TradingSimulator.Settings(strategy.config, risk.config)
    }

    ghost function View(): Context
      reads this, book, risk, pipeline, pipeline.reportHandler, pipeline.reportHandler.orders,
            pipeline.reportHandler.orders.orders.Values, pipeline.reportHandler.positions,
            pipeline.exchange, pipeline.gateway
    {
      Context(book.orders, risk.View(), pipeline.View())
    }

    constructor (settings: Settings)
      ensures Valid() && View() == INITIAL && Settings() == settings
    {
      book := new OrderBook();
      strategy := new StrategySimulator(settings.strategy);
      risk := new PreTradeRiskEngine(settings.risk);
      pipeline := new PipelineContext();
    }

    // One order of the strategy: checked, and if it passes, created, sent, answered and handled.
    method ProcessQuote(quote: Quote, now: nat)
      requires Valid()
      modifies risk, pipeline.orders, pipeline.gateway, pipeline.exchange, pipeline.reportHandler,
               pipeline.positions, pipeline.orders.orders.Values
      ensures Valid()
      ensures View() == OnQuote(Settings(), old(View()), quote, now)
      ensures fresh(pipeline.orders.orders.Values - old(pipeline.orders.orders.Values))
    {
      hide PipelineContext.View, PipelineContext.Valid, Step, Checked, BestPrice, OrderBook.Valid;
      pipeline.SamePositions();
      var bid := book.BestBid();
      var ask := book.BestAsk();
      var hasBid := book.HasBid();
      var market := MarketState(bid, ask, if hasBid then bid else quote.price);
      var position := pipeline.positions.CurrentPosition(strategy.config.symbol);
      var reason := risk.Validate(Attempt(strategy.config.symbol, quote.side, quote.price,
                                          strategy.config.orderQuantity, position, market, now));
      if reason != Allowed {
        return;
      }
      pipeline.PlaceOrder(strategy.config.symbol, quote.side, quote.price, strategy.config.orderQuantity, now);
    }

    method ProcessMarketDataEvent(e: MarketDataEvent)
      requires Valid()
      modifies book, strategy, risk, pipeline.orders, pipeline.gateway, pipeline.exchange, pipeline.reportHandler,
               pipeline.positions, pipeline.orders.orders.Values
      ensures Valid()
      ensures View() == OnEvent(Settings(), old(View()), e)
      ensures fresh(pipeline.orders.orders.Values - old(pipeline.orders.orders.Values))
    {
      hide OnQuote, PipelineContext.View, BestPrice, OrderBook.Valid, PipelineContext.Valid, JoinsTheTouch, Quotes;
      var applied := book.Apply(e);
      if !applied {
        return;
      }
      var quotes := strategy.OnBookUpdate(book);
      ghost var updated := View();
      for i := 0 to |quotes|
        invariant Valid()
        invariant View() == OnQuotes(Settings(), updated, quotes[..i], e.receiveTimestamp)
        invariant fresh(pipeline.orders.orders.Values - old(pipeline.orders.orders.Values))
      {
        ProcessQuote(quotes[i], e.receiveTimestamp);
        assert quotes[..i + 1][..i] == quotes[..i];
      }
      assert quotes[..|quotes|] == quotes;
    }

    method RunSingleThreaded(events: seq<MarketDataEvent>)
      requires Valid()
      modifies book, strategy, risk, pipeline.orders, pipeline.gateway, pipeline.exchange, pipeline.reportHandler,
               pipeline.positions, pipeline.orders.orders.Values
      ensures Valid()
      ensures View() == Replayed(Settings(), old(View()), events)
    {
      hide Simulator.View, OnEvent, Simulator.Valid;
      for i := 0 to |events|
        invariant Valid()
        invariant View() == Replayed(Settings(), old(View()), events[..i])
        invariant fresh(pipeline.orders.orders.Values - old(pipeline.orders.orders.Values))
      {
        ProcessMarketDataEvent(events[i]);
        assert events[..i + 1][..i] == events[..i];
      }
      assert events[..|events|] == events;
    }
  }
}
