// Positions, their average price and their realized profit (src/position/position_manager.cpp).
module Positions {
  import opened Types
  import opened Division
  import opened Sums

  datatype PositionState = PositionState(
    quantity: int,
    averagePrice: int,
    realizedPnl: int,
    totalBought: int,
    totalSold: int)

  const FLAT := PositionState(0, 0, 0, 0, 0)

  type PositionMap = map<Symbol, PositionState>

  // The fill opens a position, or adds to one on the same side.
  predicate Extends(quantity: int, signed: int) {
    quantity == 0 || (quantity > 0 && signed > 0) || (quantity < 0 && signed < 0)
  }

  function Count(s: PositionState, side: Side, quantity: int): PositionState {
    if side == Buy then s.(totalBought := s.totalBought + quantity) else s.(totalSold := s.totalSold + quantity)
  }

  function Extended(s: PositionState, signed: int, price: int, quantity: int): PositionState
    requires quantity > 0
  {
    var held := Abs(s.quantity);
    s.(averagePrice := Truncate(s.averagePrice * held + price * quantity, held + quantity),
       quantity := s.quantity + signed)
  }

  function Reduced(s: PositionState, side: Side, signed: int, price: int, quantity: int): PositionState {
    var closing := Min(Abs(s.quantity), quantity);
    var profit := if s.quantity > 0 && side == Sell then (price - s.averagePrice) * closing
                  else if s.quantity < 0 && side == Buy then (s.averagePrice - price) * closing
                  else 0;
    var after := s.quantity + signed;
    s.(realizedPnl := s.realizedPnl + profit,
       quantity := after,
       averagePrice := if after == 0 then 0
                       else if (after > 0 && signed > 0) || (after < 0 && signed < 0) then price
                       else if Abs(signed) > closing then price
                       else s.averagePrice)
  }

  function Traded(s: PositionState, side: Side, price: int, quantity: int): PositionState
    requires quantity > 0
  {
    var signed := Signed(side, quantity);
    if Extends(s.quantity, signed) then Extended(Count(s, side, quantity), signed, price, quantity)
    else Reduced(Count(s, side, quantity), side, signed, price, quantity)
  }

  predicate Counts(symbol: Symbol, price: int, quantity: int) {
    symbol != "" && price > 0 && quantity > 0
  }

  function StateOf(positions: PositionMap, symbol: Symbol): PositionState {
    if symbol in positions then positions[symbol] else FLAT
  }

  function Moved(positions: PositionMap, symbol: Symbol, side: Side, price: int, quantity: int): PositionMap {
    if Counts(symbol, price, quantity)
    then positions[symbol := Traded(StateOf(positions, symbol), side, price, quantity)]
    else positions
  }

  function ApplyReport(positions: PositionMap, r: ExecutionReport): PositionMap {
    Moved(positions, r.symbol, r.side, r.lastPrice, r.lastQuantity)
  }

  // ----- Profit against cash -----

  datatype Trade = Trade(symbol: Symbol, side: Side, price: int, quantity: int)

  function ApplyTrades(positions: PositionMap, trades: seq<Trade>): PositionMap {
    if trades == [] then positions
    else
      var t := trades[|trades| - 1];
      Moved(ApplyTrades(positions, trades[..|trades| - 1]), t.symbol, t.side, t.price, t.quantity)
  }

  predicate Moves(t: Trade, symbol: Symbol) {
    t.symbol == symbol && Counts(t.symbol, t.price, t.quantity)
  }

  // Money received for sales less money paid for purchases.
  function Cash(trades: seq<Trade>, symbol: Symbol): int {
    if trades == [] then 0
    else
      var t := trades[|trades| - 1];
      Cash(trades[..|trades| - 1], symbol) - (if Moves(t, symbol) then Signed(t.side, t.price * t.quantity) else 0)
  }

  // What the truncated average of an extending fill loses, and the most it can lose.
  function Rounding(s: PositionState, t: Trade): int
    requires t.quantity > 0
  {
    if Extends(s.quantity, Signed(t.side, t.quantity)) then
      var held := Abs(s.quantity);
      Signed(t.side, Lost(s.averagePrice * held + t.price * t.quantity, held + t.quantity))
    else 0
  }

  function RoundingBound(s: PositionState, t: Trade): int {
    if s.quantity != 0 && Extends(s.quantity, Signed(t.side, t.quantity))
    then Abs(s.quantity + Signed(t.side, t.quantity)) - 1
    else 0
  }

  function Roundings(trades: seq<Trade>, symbol: Symbol): (int, int) {
    if trades == [] then (0, 0)
    else
      var before, t := trades[..|trades| - 1], trades[|trades| - 1];
      var (error, bound) := Roundings(before, symbol);
      if Moves(t, symbol) then
        var s := StateOf(ApplyTrades(map[], before), symbol);
        (error + Rounding(s, t), bound + RoundingBound(s, t))
      else (error, bound)
  }

  // The branch for a fill that exceeds what it closes without turning the position is never taken.
  lemma NoExcessWithoutFlip(s: PositionState, side: Side, quantity: int)
    requires quantity > 0 && !Extends(s.quantity, Signed(side, quantity))
    ensures var signed, closing := Signed(side, quantity), Min(Abs(s.quantity), quantity);
            var after := s.quantity + signed;
            after != 0 && !((after > 0 && signed > 0) || (after < 0 && signed < 0)) ==> Abs(signed) <= closing
  {
  }

  lemma ExtensionBalances(s: PositionState, t: Trade)
    requires t.quantity > 0 && t.price > 0 && s.averagePrice >= 0
    requires Extends(s.quantity, Signed(t.side, t.quantity))
    ensures Balances(s, t) && Abs(Rounding(s, t)) <= RoundingBound(s, t)
  {
    var held, n := Abs(s.quantity), Abs(s.quantity) + t.quantity;
    var value, paid := s.averagePrice * held, t.price * t.quantity;
    ProductOrder(0, s.averagePrice, held);
    ProductOrder(0, t.price, t.quantity);
    LostIsSmall(value + paid, n);
    if s.quantity == 0 {
      TruncateExact(t.price, t.quantity);
      assert value == 0;
    }
    var average := Truncate(value + paid, n);
    Opposites(s.quantity, s.averagePrice);
    Opposites(n, average);
    Opposites(-n, average);
    assert Traded(s, t.side, t.price, t.quantity).quantity == if t.side == Buy then n else -n;
  }

  lemma Opposites(a: int, b: int)
    ensures -a * b == -(a * b) && a * b == b * a
  {
  }

  lemma Difference(a: int, b: int, n: int)
    ensures (a - b) * n == a * n - b * n
  {
  }

  lemma ReductionBalances(s: PositionState, t: Trade)
    requires t.quantity > 0 && t.price > 0 && s.averagePrice >= 0
    requires !Extends(s.quantity, Signed(t.side, t.quantity))
    ensures Balances(s, t) && Rounding(s, t) == 0
  {
    var closing := Min(Abs(s.quantity), t.quantity);
    var average, price, signed := s.averagePrice, t.price, Signed(t.side, t.quantity);
    Difference(price, average, closing);
    Difference(average, price, closing);
    Difference(s.quantity, -signed, average);
    Difference(s.quantity, -signed, price);
    Opposites(s.quantity, average);
    Opposites(s.quantity, price);
    Opposites(t.quantity, average);
    Opposites(t.quantity, price);
  }

  // One fill moves cash, position value and profit together, up to what its average loses.
  ghost predicate Balances(s: PositionState, t: Trade)
    requires t.quantity > 0
  {
    var s' := Traded(s, t.side, t.price, t.quantity);
    && s'.averagePrice >= 0
    && s'.quantity * s'.averagePrice - s'.realizedPnl - Signed(t.side, t.price * t.quantity) + Rounding(s, t)
       == s.quantity * s.averagePrice - s.realizedPnl
  }

  // Profit, position value and cash agree up to the rounding of extending fills, exactly; and that
  // rounding is at most one unit of price short of the position for each fill that adds to an open one.
  lemma {:induction false} ProfitReconciles(trades: seq<Trade>, symbol: Symbol)
    ensures var s := StateOf(ApplyTrades(map[], trades), symbol);
            var (error, bound) := Roundings(trades, symbol);
            && s.averagePrice >= 0
            && Cash(trades, symbol) + s.quantity * s.averagePrice + error == s.realizedPnl
            && Abs(Cash(trades, symbol) + s.quantity * s.averagePrice - s.realizedPnl) <= bound
    decreases |trades|
  {
    if trades != [] {
      var before, t := trades[..|trades| - 1], trades[|trades| - 1];
      ProfitReconciles(before, symbol);
      if Moves(t, symbol) {
        var s := StateOf(ApplyTrades(map[], before), symbol);
        if Extends(s.quantity, Signed(t.side, t.quantity)) {
          ExtensionBalances(s, t);
        } else {
          ReductionBalances(s, t);
        }
        hide Traded, Rounding, RoundingBound;
      }
    }
  }

  // The bound is reached from every open position: one more unit, at the average price plus the units held, loses
  // one short of the new position.
  lemma BoundIsReached(s: PositionState, symbol: Symbol)
    requires s.quantity != 0 && s.averagePrice >= 0
    ensures var side := if s.quantity > 0 then Buy else Sell;
            var t := Trade(symbol, side, s.averagePrice + Abs(s.quantity), 1);
            && t.price > 0
            && Abs(Rounding(s, t)) == RoundingBound(s, t) == Abs(s.quantity + Signed(side, 1)) - 1 == Abs(s.quantity)
  {
    var held := Abs(s.quantity);
    var n := held + 1;
    var total := s.averagePrice * held + (s.averagePrice + held) * 1;
    assert total == s.averagePrice * n + held;
    ProductOrder(0, s.averagePrice, n);
    QuotientIs(total, s.averagePrice, held, n);
  }

  lemma QuotientIs(total: int, q: int, r: int, n: int)
    requires n > 0 && q >= 0 && 0 <= r < n && total == q * n + r && total >= 0
    ensures Lost(total, n) == r
  {
    Divide(total, n);
    Unique(q, r, total / n, total % n, n);
  }

  // ----- Totals over all symbols -----

  const QUANTITY: PositionState -> int := (s: PositionState) => s.quantity
  const BOUGHT: PositionState -> int := (s: PositionState) => s.totalBought
  const SOLD: PositionState -> int := (s: PositionState) => s.totalSold

  lemma FillMoves(s: PositionState, side: Side, price: int, quantity: int)
    requires quantity > 0
    ensures var s' := Traded(s, side, price, quantity);
            && s'.quantity == s.quantity + Signed(side, quantity)
            && s'.totalBought == s.totalBought + (if side == Buy then quantity else 0)
            && s'.totalSold == s.totalSold + (if side == Sell then quantity else 0)
  {
  }

  // A fill moves the totals by its own quantity, whatever the other symbols hold.
  lemma FillMovesTotals(positions: PositionMap, symbol: Symbol, side: Side, price: int, quantity: int)
    requires Counts(symbol, price, quantity)
    ensures var after := Moved(positions, symbol, side, price, quantity);
            && Sum(after, QUANTITY) == Sum(positions, QUANTITY) + Signed(side, quantity)
            && Sum(after, BOUGHT) == Sum(positions, BOUGHT) + (if side == Buy then quantity else 0)
            && Sum(after, SOLD) == Sum(positions, SOLD) + (if side == Sell then quantity else 0)
  {
    var s := StateOf(positions, symbol);
    var s' := Traded(s, side, price, quantity);
    FillMoves(s, side, price, quantity);
    SumPut(positions, QUANTITY, symbol, s');
    SumPut(positions, BOUGHT, symbol, s');
    SumPut(positions, SOLD, symbol, s');
  }

  // The position is what was bought less what was sold, for every symbol of every history.
  lemma {:induction false} NetIsBoughtLessSold(trades: seq<Trade>, symbol: Symbol)
    ensures var s := StateOf(ApplyTrades(map[], trades), symbol);
            s.quantity == s.totalBought - s.totalSold
    decreases |trades|
  {
    if trades != [] {
      var t := trades[|trades| - 1];
      NetIsBoughtLessSold(trades[..|trades| - 1], symbol);
      if Moves(t, symbol) {
        FillMoves(StateOf(ApplyTrades(map[], trades[..|trades| - 1]), symbol), t.side, t.price, t.quantity);
      }
    }
  }

  class PositionManager {
    var positions: PositionMap

    constructor ()
      ensures positions == map[]
    {
      positions := map[];
    }

    method ApplyFillReport(report: ExecutionReport)
      modifies this
      ensures positions == ApplyReport(old(positions), report)
    {
      Move(report.symbol, report.side, report.lastPrice, report.lastQuantity);
    }

    method ApplyTrade(trade: Trade)
      modifies this
      ensures positions == Moved(old(positions), trade.symbol, trade.side, trade.price, trade.quantity)
    {
      Move(trade.symbol, trade.side, trade.price, trade.quantity);
    }

    method Move(symbol: Symbol, side: Side, price: int, quantity: int)
      modifies this
      ensures positions == Moved(old(positions), symbol, side, price, quantity)
      ensures var s, s' := StateOf(old(positions), symbol), StateOf(positions, symbol);
              Counts(symbol, price, quantity) ==>
                && (side == Sell && quantity <= s.quantity ==>
                      && s'.realizedPnl == s.realizedPnl + (price - s.averagePrice) * quantity
                      && s'.averagePrice == if quantity < s.quantity then s.averagePrice else 0)
                && (side == Buy && quantity <= -s.quantity ==>
                      && s'.realizedPnl == s.realizedPnl + (s.averagePrice - price) * quantity
                      && s'.averagePrice == if quantity < -s.quantity then s.averagePrice else 0)
    {
      if symbol == "" || price <= 0 || quantity <= 0 {
        return;
      }
      var state := if symbol in positions then positions[symbol] else FLAT;
      var signed := if side == Buy then quantity else -quantity;
      if side == Buy {
        state := state.(totalBought := state.totalBought + quantity);
      } else {
        state := state.(totalSold := state.totalSold + quantity);
      }
      if state.quantity == 0 || (state.quantity > 0 && signed > 0) || (state.quantity < 0 && signed < 0) {
        var currentAbs := Abs(state.quantity);
        var newAbs := currentAbs + quantity;
        state := state.(averagePrice := Truncate(state.averagePrice * currentAbs + price * quantity, newAbs));
        state := state.(quantity := state.quantity + signed);
        positions := positions[symbol := state];
        return;
      }
      var closing := Min(Abs(state.quantity), quantity);
      if state.quantity > 0 && side == Sell {
        state := state.(realizedPnl := state.realizedPnl + (price - state.averagePrice) * closing);
      } else if state.quantity < 0 && side == Buy {
        state := state.(realizedPnl := state.realizedPnl + (state.averagePrice - price) * closing);
      }
      state := state.(quantity := state.quantity + signed);
      if state.quantity == 0 {
        state := state.(averagePrice := 0);
      } else if (state.quantity > 0 && signed > 0) || (state.quantity < 0 && signed < 0) {
        state := state.(averagePrice := price);
      } else if Abs(signed) > closing {
        state := state.(averagePrice := price);
      }
      positions := positions[symbol := state];
    }

    method CurrentPosition(symbol: Symbol) returns (quantity: int)
      ensures quantity == StateOf(positions, symbol).quantity
    {
      quantity := if symbol in positions then positions[symbol].quantity else 0;
    }

    // The three totals add up the map in whatever order it yields its entries.
    method Position() returns (total: int)
      ensures total == Sum(positions, QUANTITY)
    {
      total := 0;
      var pending := positions.Keys;
      while pending != {}
        invariant pending <= positions.Keys
        invariant total + SumOver(positions, pending, QUANTITY) == Sum(positions, QUANTITY)
        decreases pending
      {
        var symbol :| symbol in pending;
        SumPick(positions, pending, QUANTITY, symbol);
        total := total + positions[symbol].quantity;
        pending := pending - {symbol};
      }
    }

    method TotalBought() returns (total: int)
      ensures total == Sum(positions, BOUGHT)
    {
      total := 0;
      var pending := positions.Keys;
      while pending != {}
        invariant pending <= positions.Keys
        invariant total + SumOver(positions, pending, BOUGHT) == Sum(positions, BOUGHT)
        decreases pending
      {
        var symbol :| symbol in pending;
        SumPick(positions, pending, BOUGHT, symbol);
        total := total + positions[symbol].totalBought;
        pending := pending - {symbol};
      }
    }

    method TotalSold() returns (total: int)
      ensures total == Sum(positions, SOLD)
    {
      total := 0;
      var pending := positions.Keys;
      while pending != {}
        invariant pending <= positions.Keys
        invariant total + SumOver(positions, pending, SOLD) == Sum(positions, SOLD)
        decreases pending
      {
        var symbol :| symbol in pending;
        SumPick(positions, pending, SOLD, symbol);
        total := total + positions[symbol].totalSold;
        pending := pending - {symbol};
      }
    }
  }
}
