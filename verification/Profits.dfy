// What a fill does to a position, its average price and its realized profit, case by case, and what that makes of
// whole histories (src/position/position_manager.cpp:75-119).
module Profits {
  import opened Types
  import opened Division
  import opened Positions

  // 1 for a long position, -1 for a short one.
  function Sign(quantity: int): int {
    if quantity > 0 then 1 else if quantity < 0 then -1 else 0
  }

  // ----- One fill -----

  // Everything but average and profit moves alike in every case, and a fill that does not count moves nothing.
  lemma FillCounts(positions: PositionMap, symbol: Symbol, side: Side, price: int, quantity: int)
    ensures var after := Moved(positions, symbol, side, price, quantity);
            var s, s' := StateOf(positions, symbol), StateOf(after, symbol);
            && (forall other :: other != symbol ==> StateOf(after, other) == StateOf(positions, other))
            && (symbol == "" || price <= 0 || quantity <= 0 ==> after == positions)
            && (symbol != "" && price > 0 && quantity > 0 ==>
                  && s'.quantity == (if side == Buy then s.quantity + quantity else s.quantity - quantity)
                  && s'.totalBought == (if side == Buy then s.totalBought + quantity else s.totalBought)
                  && s'.totalSold == (if side == Sell then s.totalSold + quantity else s.totalSold))
  {
  }

  // A fill against the position, up to its size, realizes its distance from the average for just the units it
  // closes, and leaves the average alone unless nothing is left.
  lemma ReducingRealizes(positions: PositionMap, symbol: Symbol, side: Side, price: int, quantity: int)
    requires Counts(symbol, price, quantity)
    requires var held := StateOf(positions, symbol).quantity;
             if side == Sell then quantity <= held else quantity <= -held
    ensures var s, s' := StateOf(positions, symbol),
                         StateOf(Moved(positions, symbol, side, price, quantity), symbol);
            && s'.realizedPnl == s.realizedPnl + Sign(s.quantity) * ((price - s.averagePrice) * quantity)
            && s'.averagePrice == (if quantity == Abs(s.quantity) then 0 else s.averagePrice)
  {
    var s := StateOf(positions, symbol);
    Negation(price, s.averagePrice, quantity);
  }

  lemma Negation(a: int, b: int, n: int)
    ensures (b - a) * n == -((a - b) * n)
  {
  }

  // A fill beyond the size of the position realizes the units held and no more, and the rest opens at its price.
  lemma FlippingRealizes(positions: PositionMap, symbol: Symbol, side: Side, price: int, quantity: int)
    requires Counts(symbol, price, quantity)
    requires var held := StateOf(positions, symbol).quantity;
             if side == Sell then 0 < held < quantity else 0 < -held < quantity
    ensures var s, s' := StateOf(positions, symbol),
                         StateOf(Moved(positions, symbol, side, price, quantity), symbol);
            && s'.realizedPnl == s.realizedPnl + (price - s.averagePrice) * s.quantity
            && s'.averagePrice == price
            && Sign(s'.quantity) == -Sign(s.quantity)
  {
    var s := StateOf(positions, symbol);
    Negation(price, s.averagePrice, -s.quantity);
    Opposites(s.quantity, s.averagePrice);
    Opposites(s.quantity, price);
    Opposites(-s.quantity, price - s.averagePrice);
  }

  // A fill that opens or extends a position realizes nothing; the average is the fill's price for a new position,
  // and otherwise the mean of what it cost, short of it by less than one unit of price.
  lemma ExtendingAverages(positions: PositionMap, symbol: Symbol, side: Side, price: int, quantity: int)
    requires Counts(symbol, price, quantity)
    requires var s := StateOf(positions, symbol);
             s.averagePrice >= 0 && (if side == Buy then s.quantity >= 0 else s.quantity <= 0)
    ensures var s, s' := StateOf(positions, symbol),
                         StateOf(Moved(positions, symbol, side, price, quantity), symbol);
            var cost, size := Abs(s.quantity) * s.averagePrice + quantity * price, Abs(s.quantity) + quantity;
            && s'.realizedPnl == s.realizedPnl
            && 0 <= cost - size * s'.averagePrice < size
            && (s.quantity == 0 ==> s'.averagePrice == price)
            && (s.quantity != 0 ==> Min(s.averagePrice, price) <= s'.averagePrice <= Max(s.averagePrice, price))
  {
    var s := StateOf(positions, symbol);
    var held := Abs(s.quantity);
    var lo, hi := Min(s.averagePrice, price), Max(s.averagePrice, price);
    Opposites(held, s.averagePrice);
    Opposites(quantity, price);
    ProductOrder(0, s.averagePrice, held);
    ProductOrder(0, price, quantity);
    var cost := s.averagePrice * held + price * quantity;
    LostIsSmall(cost, held + quantity);
    Opposites(held + quantity, Truncate(cost, held + quantity));
    if held == 0 {
      TruncateExact(price, quantity);
    } else {
      WeightedMean(s.averagePrice, held, price, quantity, lo, hi);
    }
  }

  // ----- Histories -----

  // What a symbol's fills add up to.
  function Held(trades: seq<Trade>, symbol: Symbol): int {
    if trades == [] then 0
    else
      var t := trades[|trades| - 1];
      Held(trades[..|trades| - 1], symbol) + (if Moves(t, symbol) then Signed(t.side, t.quantity) else 0)
  }

  // The units of an opposite holding that a fill closes.
  function Closes(held: int, t: Trade): nat
    requires t.quantity > 0
  {
    if t.side == Sell then Min(t.quantity, Max(held, 0)) else Min(t.quantity, Max(-held, 0))
  }

  datatype Range = Range(lo: int, hi: int)

  // The lowest and highest price of the fills that opened the present holding or added to it.
  function Entries(trades: seq<Trade>, symbol: Symbol): Range {
    if trades == [] then Range(0, 0)
    else
      var before, t := trades[..|trades| - 1], trades[|trades| - 1];
      var held, r := Held(before, symbol), Entries(before, symbol);
      if !Moves(t, symbol) then r
      else if Closes(held, t) == t.quantity then r
      else if held == 0 || Closes(held, t) > 0 then Range(t.price, t.price)
      else Range(Min(r.lo, t.price), Max(r.hi, t.price))
  }

  // The least and the most that closing `units` of such a holding at `price` can bring.
  function Gain(held: int, r: Range, units: nat, price: int): Range {
    if held > 0 then Range((price - r.hi) * units, (price - r.lo) * units)
    else Range((r.lo - price) * units, (r.hi - price) * units)
  }

  // The same for all closing fills of a history.
  function Gains(trades: seq<Trade>, symbol: Symbol): Range {
    if trades == [] then Range(0, 0)
    else
      var before, t := trades[..|trades| - 1], trades[|trades| - 1];
      var g := Gains(before, symbol);
      if !Moves(t, symbol) then g
      else
        var held := Held(before, symbol);
        var more := Gain(held, Entries(before, symbol), Closes(held, t), t.price);
        Range(g.lo + more.lo, g.hi + more.hi)
  }

  // A holding and its average, against the fills that built it and those that closed others.
  ghost predicate Accounted(s: PositionState, held: int, entries: Range, gains: Range) {
    && s.quantity == held
    && s.averagePrice >= 0
    && (held != 0 ==> entries.lo <= s.averagePrice <= entries.hi)
    && (held == 0 ==> s.averagePrice == 0)
    && gains.lo <= s.realizedPnl <= gains.hi
  }

  lemma GainIsWithin(held: int, r: Range, units: nat, price: int, average: int)
    requires r.lo <= average <= r.hi && held != 0
    ensures var g := Gain(held, r, units, price); g.lo <= Sign(held) * ((price - average) * units) <= g.hi
  {
    ProductOrder(price - r.hi, price - average, units);
    ProductOrder(price - average, price - r.lo, units);
    ProductOrder(r.lo - price, average - price, units);
    ProductOrder(average - price, r.hi - price, units);
    Negation(price, average, units);
  }

  lemma ExtensionIsAccounted(positions: PositionMap, t: Trade, entries: Range, gains: Range)
    requires Counts(t.symbol, t.price, t.quantity)
    requires var s := StateOf(positions, t.symbol);
             && Accounted(s, s.quantity, entries, gains)
             && (if t.side == Buy then s.quantity >= 0 else s.quantity <= 0)
    ensures var s, s' := StateOf(positions, t.symbol),
                         StateOf(Moved(positions, t.symbol, t.side, t.price, t.quantity), t.symbol);
            var entries' := if s.quantity == 0 then Range(t.price, t.price)
                            else Range(Min(entries.lo, t.price), Max(entries.hi, t.price));
            Accounted(s', s.quantity + Signed(t.side, t.quantity), entries', gains)
  {
    FillCounts(positions, t.symbol, t.side, t.price, t.quantity);
    ExtendingAverages(positions, t.symbol, t.side, t.price, t.quantity);
    var s' := StateOf(Moved(positions, t.symbol, t.side, t.price, t.quantity), t.symbol);
    hide Moved;
    assert s'.averagePrice >= 0;
  }

  lemma ClosingIsAccounted(positions: PositionMap, t: Trade, entries: Range, gains: Range)
    requires Counts(t.symbol, t.price, t.quantity)
    requires var s := StateOf(positions, t.symbol);
             && Accounted(s, s.quantity, entries, gains)
             && (if t.side == Sell then s.quantity > 0 else s.quantity < 0)
    ensures var s, s' := StateOf(positions, t.symbol),
                         StateOf(Moved(positions, t.symbol, t.side, t.price, t.quantity), t.symbol);
            var units := Closes(s.quantity, t);
            var g := Gain(s.quantity, entries, units, t.price);
            Accounted(s', s.quantity + Signed(t.side, t.quantity),
                      if units == t.quantity then entries else Range(t.price, t.price),
                      Range(gains.lo + g.lo, gains.hi + g.hi))
  {
    var s := StateOf(positions, t.symbol);
    var units := Closes(s.quantity, t);
    FillCounts(positions, t.symbol, t.side, t.price, t.quantity);
    GainIsWithin(s.quantity, entries, units, t.price, s.averagePrice);
    if units == t.quantity {
      ReducingRealizes(positions, t.symbol, t.side, t.price, t.quantity);
    } else {
      FlippingRealizes(positions, t.symbol, t.side, t.price, t.quantity);
      Opposites(s.quantity, t.price - s.averagePrice);
      Opposites(units, t.price - s.averagePrice);
    }
    hide Moved, Gain;
  }

  // Over every history: the position is what its fills add up to; while it is open its average price lies between
  // the lowest and highest price of the fills that opened it or added to it, and when it is closed it is zero; and the
  // realized profit is within what the closing fills can have brought against such an average.
  lemma {:induction false} HistoriesAreAccounted(trades: seq<Trade>, symbol: Symbol)
    ensures Accounted(StateOf(ApplyTrades(map[], trades), symbol), Held(trades, symbol), Entries(trades, symbol),
                      Gains(trades, symbol))
    decreases |trades|
  {
    if trades != [] {
      var before, t := trades[..|trades| - 1], trades[|trades| - 1];
      var positions := ApplyTrades(map[], before);
      HistoriesAreAccounted(before, symbol);
      var s, entries, gains := StateOf(positions, symbol), Entries(before, symbol), Gains(before, symbol);
      hide Accounted, Gain;
      if Moves(t, symbol) {
        AccountedIsHeld(s, Held(before, symbol), entries, gains);
        if (t.side == Buy && s.quantity < 0) || (t.side == Sell && s.quantity > 0) {
          ClosingIsAccounted(positions, t, entries, gains);
        } else {
          ExtensionIsAccounted(positions, t, entries, gains);
          NothingGained(s.quantity, entries, t.price);
        }
      } else {
        FillCounts(positions, t.symbol, t.side, t.price, t.quantity);
      }
    }
  }

  lemma AccountedIsHeld(s: PositionState, held: int, entries: Range, gains: Range)
    requires Accounted(s, held, entries, gains)
    ensures s.quantity == held
  {
  }

  lemma NothingGained(held: int, r: Range, price: int)
    ensures Gain(held, r, 0, price) == Range(0, 0)
  {
  }
}
