// The pre-trade checks and their order-rate window (src/risk/pre_trade_risk_engine.cpp).
module RiskEngine {
  import opened Types
  import opened Words

  datatype RiskReason =
    | Allowed
    | DisallowedSymbol
    | BadQuantity
    | BadPrice
    | QuantityLimitExceeded
    | NotionalLimitExceeded
    | PositionLimitExceeded
    | PriceBandExceeded
    | OrderRateExceeded

  datatype RiskConfig = RiskConfig(
    allowedSymbols: seq<Symbol>,
    maxOrderQuantity: int,
    maxNotional: int,
    maxAbsPosition: int,
    priceBandTicks: int,
    maxOrdersPerWindow: nat,
    orderRateWindowNs: nat)

  datatype MarketState = MarketState(bestBid: int, bestAsk: int, referencePrice: int)

  // An order as the checks see it, when it comes in.
  datatype Attempt = Attempt(
    symbol: Symbol,
    side: Side,
    price: int,
    quantity: int,
    position: int,
    market: MarketState,
    now: nat)

  datatype Window = Window(start: nat, count: nat)

  const NO_WINDOW := Window(0, 0)

  // Unsigned subtraction, as timestamps are subtracted.
  function Elapsed(now: nat, start: nat): nat {
    (now - start) % WORD
  }

  predicate SymbolAllowed(c: RiskConfig, symbol: Symbol) {
    c.allowedSymbols == [] || symbol in c.allowedSymbols
  }

  predicate InsideBand(c: RiskConfig, a: Attempt) {
    if c.priceBandTicks <= 0 then true
    else if a.market.bestBid > 0 && a.market.bestAsk > 0 then
      a.market.bestBid - c.priceBandTicks <= a.price <= a.market.bestAsk + c.priceBandTicks
    else if a.market.referencePrice > 0 then
      a.market.referencePrice - c.priceBandTicks <= a.price <= a.market.referencePrice + c.priceBandTicks
    else true
  }

  // The checks before the rate check, in order.
  function PreCheck(c: RiskConfig, a: Attempt): RiskReason {
    if !SymbolAllowed(c, a.symbol) then DisallowedSymbol
    else if a.quantity <= 0 then BadQuantity
    else if a.price <= 0 then BadPrice
    else if c.maxOrderQuantity > 0 && a.quantity > c.maxOrderQuantity then QuantityLimitExceeded
    else if c.maxNotional > 0 && a.price * a.quantity > c.maxNotional then NotionalLimitExceeded
    else if c.maxAbsPosition > 0 && Abs(a.position + Signed(a.side, a.quantity)) > c.maxAbsPosition then
      PositionLimitExceeded
    else if !InsideBand(c, a) then PriceBandExceeded
    else Allowed
  }

  predicate Unlimited(c: RiskConfig) {
    c.maxOrdersPerWindow == 0 || c.orderRateWindowNs == 0
  }

  // The window in force at `now`.
  function Current(c: RiskConfig, w: Window, now: nat): Window {
    if w.start == 0 || Elapsed(now, w.start) >= c.orderRateWindowNs then Window(now, 0) else w
  }

  function Checked(c: RiskConfig, w: Window, a: Attempt): (Window, RiskReason) {
    var reason := PreCheck(c, a);
    if reason != Allowed then (w, reason)
    else if Unlimited(c) then (w, Allowed)
    else
      var current := Current(c, w, a.now);
      if current.count < c.maxOrdersPerWindow then
        var again := Current(c, current, a.now);
        (again.(count := again.count + 1), Allowed)
      else (current, OrderRateExceeded)
  }

  // ----- Runs -----

  function WindowAfter(c: RiskConfig, attempts: seq<Attempt>): Window {
    if attempts == [] then NO_WINDOW
    else Checked(c, WindowAfter(c, attempts[..|attempts| - 1]), attempts[|attempts| - 1]).0
  }

  predicate LastAccepted(c: RiskConfig, attempts: seq<Attempt>)
    requires attempts != []
  {
    Checked(c, WindowAfter(c, attempts[..|attempts| - 1]), attempts[|attempts| - 1]).1 == Allowed
  }

  // How many attempts were accepted in [from, from + length).
  function AcceptedIn(c: RiskConfig, attempts: seq<Attempt>, from: nat, length: nat): nat {
    if attempts == [] then 0
    else
      AcceptedIn(c, attempts[..|attempts| - 1], from, length)
      + (if LastAccepted(c, attempts) && from <= attempts[|attempts| - 1].now < from + length then 1 else 0)
  }

  // Timestamps are positive and never go back.
  ghost predicate Clocked(attempts: seq<Attempt>) {
    && (forall i | 0 <= i < |attempts| :: 0 < attempts[i].now < WORD)
    && (forall i, j | 0 <= i < j < |attempts| :: attempts[i].now <= attempts[j].now)
  }

  ghost predicate WindowOk(c: RiskConfig, w: Window, now: nat) {
    && w.start <= now
    && w.count <= c.maxOrdersPerWindow
    && (w.start == 0 <==> w.count == 0)
  }

  // What is known of the accepted attempts in the interval, by where the window in force began.
  ghost predicate Bounded(c: RiskConfig, w: Window, now: nat, accepted: nat, from: nat) {
    var limit, end := c.maxOrdersPerWindow, from + c.orderRateWindowNs;
    && (w.start == 0 || now < from ==> accepted == 0)
    && (0 < w.start < from ==> accepted <= w.count - 1)
    && (from <= w.start < end ==> accepted <= limit - 1 + w.count)
    && accepted <= 2 * limit - 1
  }

  lemma ElapsedIsDifference(now: nat, start: nat)
    requires start <= now < WORD
    ensures Elapsed(now, start) == now - start
  {
  }

  lemma CheckKeepsBound(c: RiskConfig, w: Window, before: nat, a: Attempt, accepted: nat, from: nat)
    requires !Unlimited(c) && WindowOk(c, w, before) && Bounded(c, w, before, accepted, from)
    requires 0 < a.now < WORD && before <= a.now
    ensures var (w', reason) := Checked(c, w, a);
            var counted := reason == Allowed && from <= a.now < from + c.orderRateWindowNs;
            var accepted' := accepted + (if counted then 1 else 0);
            && WindowOk(c, w', a.now) && Bounded(c, w', a.now, accepted', from)
            && (reason != Allowed ==> w' == w)
            && (w'.start != w.start && w.start != 0 ==> w'.start >= w.start + c.orderRateWindowNs)
  {
    ElapsedIsDifference(a.now, w.start);
    ElapsedIsDifference(a.now, a.now);
    hide PreCheck;
  }

  // Over every run with positive timestamps that never go back, no interval of the window's length holds
  // more accepted orders than twice the limit less one; the window never holds more than the limit.
  lemma {:induction false} RateIsBounded(c: RiskConfig, attempts: seq<Attempt>, from: nat)
    requires !Unlimited(c) && Clocked(attempts)
    ensures var now := if attempts == [] then 0 else attempts[|attempts| - 1].now;
            && WindowOk(c, WindowAfter(c, attempts), now)
            && Bounded(c, WindowAfter(c, attempts), now, AcceptedIn(c, attempts, from, c.orderRateWindowNs), from)
    ensures AcceptedIn(c, attempts, from, c.orderRateWindowNs) <= 2 * c.maxOrdersPerWindow - 1
    decreases |attempts|
  {
    if attempts != [] {
      var before, a := attempts[..|attempts| - 1], attempts[|attempts| - 1];
      RateIsBounded(c, before, from);
      var now := if before == [] then 0 else before[|before| - 1].now;
      assert now <= a.now;
      CheckKeepsBound(c, WindowAfter(c, before), now, a, AcceptedIn(c, before, from, c.orderRateWindowNs), from);
      hide Checked, WindowOk, Clocked;
    }
  }

  // A refused order costs no allowance, and windows begin at least a window's length apart.
  lemma WindowsAreApart(c: RiskConfig, attempts: seq<Attempt>)
    requires !Unlimited(c) && Clocked(attempts) && attempts != []
    ensures var w, w' := WindowAfter(c, attempts[..|attempts| - 1]), WindowAfter(c, attempts);
            && (!LastAccepted(c, attempts) ==> w' == w)
            && (w'.start != w.start && w.start != 0 ==> w'.start >= w.start + c.orderRateWindowNs)
            && w'.count <= c.maxOrdersPerWindow
  {
    var before, a := attempts[..|attempts| - 1], attempts[|attempts| - 1];
    RateIsBounded(c, before, 0);
    RateIsBounded(c, attempts, 0);
    var now := if before == [] then 0 else before[|before| - 1].now;
    CheckKeepsBound(c, WindowAfter(c, before), now, a, AcceptedIn(c, before, 0, c.orderRateWindowNs), 0);
  }

  // ----- The bound is reached -----

  function Copies(a: Attempt, n: nat): seq<Attempt> {
    if n == 0 then [] else Copies(a, n - 1) + [a]
  }

  lemma OneMore(c: RiskConfig, attempts: seq<Attempt>, a: Attempt, from: nat)
    ensures WindowAfter(c, attempts + [a]) == Checked(c, WindowAfter(c, attempts), a).0
    ensures AcceptedIn(c, attempts + [a], from, c.orderRateWindowNs)
         == AcceptedIn(c, attempts, from, c.orderRateWindowNs)
            + (if Checked(c, WindowAfter(c, attempts), a).1 == Allowed && from <= a.now < from + c.orderRateWindowNs
               then 1 else 0)
  {
    assert (attempts + [a])[..|attempts|] == attempts;
  }

  lemma RoomIsUsed(c: RiskConfig, w: Window, a: Attempt)
    requires !Unlimited(c) && PreCheck(c, a) == Allowed
    requires 0 < w.start <= a.now < w.start + c.orderRateWindowNs && a.now < WORD && w.count < c.maxOrdersPerWindow
    ensures Checked(c, w, a) == (w.(count := w.count + 1), Allowed)
  {
    ElapsedIsDifference(a.now, w.start);
    hide PreCheck;
  }

  lemma WindowOpens(c: RiskConfig, w: Window, a: Attempt)
    requires !Unlimited(c) && PreCheck(c, a) == Allowed
    requires Opens(c, w, a.now) && 0 < a.now < WORD
    ensures Checked(c, w, a) == (Window(a.now, 1), Allowed)
  {
    ElapsedIsDifference(a.now, a.now);
    hide PreCheck;
  }

  // A window is over when it never began, or when the difference of the timestamps, as unsigned words, says so.
  predicate Opens(c: RiskConfig, w: Window, now: nat) {
    w.start == 0 || Elapsed(now, w.start) >= c.orderRateWindowNs
  }

  lemma LaterOpens(c: RiskConfig, w: Window, now: nat)
    requires w.start + c.orderRateWindowNs <= now < WORD
    ensures Opens(c, w, now)
  {
    ElapsedIsDifference(now, w.start);
  }

  lemma CopiesGrow(attempts: seq<Attempt>, a: Attempt, n: nat)
    ensures attempts + Copies(a, 0) == attempts
    ensures n > 0 ==> attempts + Copies(a, n) == attempts + Copies(a, n - 1) + [a]
  {
  }

  // A burst that the window has room for is accepted whole.
  lemma {:induction false} BurstIsAccepted(c: RiskConfig, attempts: seq<Attempt>, a: Attempt, n: nat, from: nat)
    requires !Unlimited(c) && PreCheck(c, a) == Allowed
    requires var w := WindowAfter(c, attempts);
             && 0 < w.start <= a.now < w.start + c.orderRateWindowNs && a.now < WORD
             && w.count + n <= c.maxOrdersPerWindow
    requires from <= a.now < from + c.orderRateWindowNs
    ensures var w := WindowAfter(c, attempts);
            && WindowAfter(c, attempts + Copies(a, n)) == w.(count := w.count + n)
            && AcceptedIn(c, attempts + Copies(a, n), from, c.orderRateWindowNs)
               == AcceptedIn(c, attempts, from, c.orderRateWindowNs) + n
  {
    hide PreCheck, WindowAfter, AcceptedIn, Checked, Copies;
    CopiesGrow(attempts, a, n);
    if n > 0 {
      BurstIsAccepted(c, attempts, a, n - 1, from);
      OneMore(c, attempts + Copies(a, n - 1), a, from);
      RoomIsUsed(c, WindowAfter(c, attempts + Copies(a, n - 1)), a);
    }
  }

  // One order, the rest of the limit just before its window ends, and a full limit right after.
  function Squeeze(c: RiskConfig, a: Attempt): seq<Attempt>
    requires c.maxOrdersPerWindow > 0
  {
    var next := a.(now := c.orderRateWindowNs + 1);
    FirstHalf(c, a) + [next] + Copies(next, c.maxOrdersPerWindow - 1)
  }

  lemma NothingYet(c: RiskConfig, from: nat)
    ensures WindowAfter(c, []) == NO_WINDOW && AcceptedIn(c, [], from, c.orderRateWindowNs) == 0
  {
  }

  lemma OpeningIsAccepted(c: RiskConfig, attempts: seq<Attempt>, a: Attempt, from: nat)
    requires !Unlimited(c) && PreCheck(c, a) == Allowed && 0 < a.now < WORD
    requires Opens(c, WindowAfter(c, attempts), a.now)
    ensures WindowAfter(c, attempts + [a]) == Window(a.now, 1)
    ensures AcceptedIn(c, attempts + [a], from, c.orderRateWindowNs)
         == AcceptedIn(c, attempts, from, c.orderRateWindowNs)
            + (if from <= a.now < from + c.orderRateWindowNs then 1 else 0)
  {
    hide PreCheck, WindowAfter, AcceptedIn, Checked, Opens;
    OneMore(c, attempts, a, from);
    WindowOpens(c, WindowAfter(c, attempts), a);
  }

  // A whole limit goes through when a window opens.
  lemma LimitIsAccepted(c: RiskConfig, attempts: seq<Attempt>, a: Attempt, from: nat)
    requires !Unlimited(c) && PreCheck(c, a) == Allowed && 0 < a.now < WORD
    requires Opens(c, WindowAfter(c, attempts), a.now) && from <= a.now < from + c.orderRateWindowNs
    ensures var run := attempts + [a] + Copies(a, c.maxOrdersPerWindow - 1);
            && WindowAfter(c, run) == Window(a.now, c.maxOrdersPerWindow)
            && AcceptedIn(c, run, from, c.orderRateWindowNs)
               == AcceptedIn(c, attempts, from, c.orderRateWindowNs) + c.maxOrdersPerWindow
  {
    hide PreCheck, WindowAfter, AcceptedIn, Checked, Copies, Opens;
    OpeningIsAccepted(c, attempts, a, from);
    BurstIsAccepted(c, attempts + [a], a, c.maxOrdersPerWindow - 1, from);
  }

  lemma TimeIsNotChecked(c: RiskConfig, a: Attempt, now: nat)
    ensures PreCheck(c, a.(now := now)) == PreCheck(c, a)
  {
  }

  function FirstHalf(c: RiskConfig, a: Attempt): seq<Attempt>
    requires c.maxOrdersPerWindow > 0
  {
    [] + [a.(now := 1)] + Copies(a.(now := c.orderRateWindowNs), c.maxOrdersPerWindow - 1)
  }

  lemma FirstWindowFills(c: RiskConfig, a: Attempt)
    requires !Unlimited(c) && 2 <= c.orderRateWindowNs < WORD - 1 && PreCheck(c, a) == Allowed
    ensures WindowAfter(c, FirstHalf(c, a)) == Window(1, c.maxOrdersPerWindow)
    ensures AcceptedIn(c, FirstHalf(c, a), c.orderRateWindowNs, c.orderRateWindowNs) == c.maxOrdersPerWindow - 1
  {
    hide PreCheck, WindowAfter, AcceptedIn, Checked, Copies, FirstHalf, Opens;
    var w := c.orderRateWindowNs;
    FirstHalfIs(c, a);
    NothingYet(c, w);
    NoWindowOpens(c, 1);
    TimeIsNotChecked(c, a, 1);
    TimeIsNotChecked(c, a, w);
    OpeningIsAccepted(c, [], a.(now := 1), w);
    BurstIsAccepted(c, [] + [a.(now := 1)], a.(now := w), c.maxOrdersPerWindow - 1, w);
  }

  lemma FirstHalfIs(c: RiskConfig, a: Attempt)
    requires c.maxOrdersPerWindow > 0
    ensures FirstHalf(c, a)
         == [] + [a.(now := 1)] + Copies(a.(now := c.orderRateWindowNs), c.maxOrdersPerWindow - 1)
  {
    hide Copies;
  }

  lemma SqueezeIs(c: RiskConfig, a: Attempt)
    requires c.maxOrdersPerWindow > 0
    ensures var next := a.(now := c.orderRateWindowNs + 1);
            Squeeze(c, a) == FirstHalf(c, a) + [next] + Copies(next, c.maxOrdersPerWindow - 1)
  {
    hide FirstHalf, Copies;
  }

  lemma SqueezeReachesBound(c: RiskConfig, a: Attempt)
    requires !Unlimited(c) && 2 <= c.orderRateWindowNs < WORD - 1 && PreCheck(c, a) == Allowed
    ensures AcceptedIn(c, Squeeze(c, a), c.orderRateWindowNs, c.orderRateWindowNs) == 2 * c.maxOrdersPerWindow - 1
  {
    hide PreCheck, WindowAfter, AcceptedIn, Checked, Copies, FirstHalf, Opens, Squeeze;
    var w := c.orderRateWindowNs;
    SqueezeIs(c, a);
    FirstWindowFills(c, a);
    TimeIsNotChecked(c, a, w + 1);
    LaterOpens(c, WindowAfter(c, FirstHalf(c, a)), w + 1);
    LimitIsAccepted(c, FirstHalf(c, a), a.(now := w + 1), w);
  }

  lemma {:induction false} CopiesAreAlike(a: Attempt, n: nat)
    ensures |Copies(a, n)| == n && forall i | 0 <= i < n :: Copies(a, n)[i] == a
  {
    if n > 0 {
      CopiesAreAlike(a, n - 1);
    }
  }

  lemma SqueezeIsClocked(c: RiskConfig, a: Attempt)
    requires !Unlimited(c) && 2 <= c.orderRateWindowNs < WORD - 1
    ensures Clocked(Squeeze(c, a))
  {
    var m := c.maxOrdersPerWindow;
    CopiesAreAlike(a.(now := c.orderRateWindowNs), m - 1);
    CopiesAreAlike(a.(now := c.orderRateWindowNs + 1), m - 1);
    hide Copies;
  }

  // With a window of one, or one that no clock outlasts, an interval never holds more than the limit.
  ghost predicate Capped(c: RiskConfig, w: Window, now: nat, accepted: nat, from: nat) {
    && (now < from || w.start == 0 || (w.start < from && c.orderRateWindowNs == 1) ==> accepted == 0)
    && (w.start <= from || c.orderRateWindowNs >= WORD - 1 ==> accepted <= w.count)
    && accepted <= c.maxOrdersPerWindow
  }

  lemma CheckKeepsCap(c: RiskConfig, w: Window, before: nat, a: Attempt, accepted: nat, from: nat)
    requires !Unlimited(c) && (c.orderRateWindowNs == 1 || c.orderRateWindowNs >= WORD - 1)
    requires WindowOk(c, w, before) && Capped(c, w, before, accepted, from)
    requires 0 < a.now < WORD && before <= a.now
    ensures var (w', reason) := Checked(c, w, a);
            var counted := reason == Allowed && from <= a.now < from + c.orderRateWindowNs;
            Capped(c, w', a.now, accepted + (if counted then 1 else 0), from)
  {
    ElapsedIsDifference(a.now, w.start);
    ElapsedIsDifference(a.now, a.now);
    hide PreCheck;
  }

  lemma {:induction false} OddWindowsAreCapped(c: RiskConfig, attempts: seq<Attempt>, from: nat)
    requires !Unlimited(c) && (c.orderRateWindowNs == 1 || c.orderRateWindowNs >= WORD - 1) && Clocked(attempts)
    ensures var now := if attempts == [] then 0 else attempts[|attempts| - 1].now;
            Capped(c, WindowAfter(c, attempts), now, AcceptedIn(c, attempts, from, c.orderRateWindowNs), from)
    decreases |attempts|
  {
    if attempts != [] {
      var before, a := attempts[..|attempts| - 1], attempts[|attempts| - 1];
      OddWindowsAreCapped(c, before, from);
      RateIsBounded(c, before, from);
      var now := if before == [] then 0 else before[|before| - 1].now;
      assert now <= a.now;
      CheckKeepsCap(c, WindowAfter(c, before), now, a, AcceptedIn(c, before, from, c.orderRateWindowNs), from);
      hide Checked, WindowOk, Clocked, Capped, Bounded;
    }
  }

  lemma OneAttemptIsAccepted(c: RiskConfig, a: Attempt)
    requires !Unlimited(c) && PreCheck(c, a) == Allowed && c.maxOrdersPerWindow == 1
    ensures var run := [] + [a.(now := 1)]; Clocked(run) && AcceptedIn(c, run, 1, c.orderRateWindowNs) == 1
  {
    hide PreCheck, AcceptedIn, WindowAfter, Checked;
    NothingYet(c, 1);
    TimeIsNotChecked(c, a, 1);
    OpeningIsAccepted(c, [], a.(now := 1), 1);
  }

  ghost predicate ReachesBound(c: RiskConfig, attempts: seq<Attempt>, from: nat) {
    Clocked(attempts) && AcceptedIn(c, attempts, from, c.orderRateWindowNs) == 2 * c.maxOrdersPerWindow - 1
  }

  // Some run attains the bound exactly when the limit is one, or the window is longer than one and short enough
  // for a clock to outlast it.
  lemma BoundIsReachedExactly(c: RiskConfig, a: Attempt)
    requires !Unlimited(c) && PreCheck(c, a) == Allowed
    ensures (exists attempts: seq<Attempt>, from: nat :: ReachesBound(c, attempts, from))
            <==> c.maxOrdersPerWindow == 1 || 2 <= c.orderRateWindowNs < WORD - 1
  {
    hide PreCheck, AcceptedIn, Squeeze, Clocked;
    if c.maxOrdersPerWindow == 1 {
      OneAttemptIsAccepted(c, a);
      assert ReachesBound(c, [] + [a.(now := 1)], 1);
    } else if 2 <= c.orderRateWindowNs < WORD - 1 {
      SqueezeReachesBound(c, a);
      SqueezeIsClocked(c, a);
      assert ReachesBound(c, Squeeze(c, a), c.orderRateWindowNs);
    } else {
      forall attempts: seq<Attempt>, from: nat ensures !ReachesBound(c, attempts, from) {
        if Clocked(attempts) {
          OddWindowsAreCapped(c, attempts, from);
        }
      }
    }
  }

  // ----- Without a good clock -----

  // At timestamp 0 every order that passes the other checks is accepted.
  lemma {:induction false} ZeroTimeIsUnlimited(c: RiskConfig, attempts: seq<Attempt>, length: nat)
    requires forall i | 0 <= i < |attempts| :: attempts[i].now == 0 && PreCheck(c, attempts[i]) == Allowed
    requires length > 0
    ensures WindowAfter(c, attempts).start == 0
    ensures AcceptedIn(c, attempts, 0, length) == |attempts|
    decreases |attempts|
  {
    if attempts != [] {
      ZeroTimeIsUnlimited(c, attempts[..|attempts| - 1], length);
      hide PreCheck;
    }
  }

  // The first attempt comes at `t0`, and timestamps never go back.
  ghost predicate StartsAt(attempts: seq<Attempt>, t0: nat) {
    && attempts != [] && attempts[0].now == t0
    && (forall i | 0 <= i < |attempts| :: attempts[i].now < WORD)
    && (forall i, j | 0 <= i < j < |attempts| :: attempts[i].now <= attempts[j].now)
  }

  ghost predicate BoundHoldsFrom(c: RiskConfig, t0: nat) {
    forall attempts: seq<Attempt>, from: nat | StartsAt(attempts, t0) ::
      AcceptedIn(c, attempts, from, c.orderRateWindowNs) <= 2 * c.maxOrdersPerWindow - 1
  }

  // Over runs that never go back, the bound holds exactly when the clock does not start at zero.
  lemma BoundNeedsPositiveStart(c: RiskConfig, a: Attempt, t0: nat)
    requires !Unlimited(c) && PreCheck(c, a) == Allowed
    ensures BoundHoldsFrom(c, t0) <==> t0 > 0
  {
    if t0 > 0 {
      forall attempts: seq<Attempt>, from: nat | StartsAt(attempts, t0)
        ensures AcceptedIn(c, attempts, from, c.orderRateWindowNs) <= 2 * c.maxOrdersPerWindow - 1
      {
        assert attempts[0].now == t0;
        RateIsBounded(c, attempts, from);
      }
      hide PreCheck, AcceptedIn, WindowAfter;
    } else {
      hide PreCheck, AcceptedIn, WindowAfter, Copies;
      var run := Copies(a.(now := 0), 2 * c.maxOrdersPerWindow);
      TimeIsNotChecked(c, a, 0);
      CopiesAreAlike(a.(now := 0), 2 * c.maxOrdersPerWindow);
      ZeroTimeIsUnlimited(c, run, c.orderRateWindowNs);
      assert StartsAt(run, t0);
    }
  }

  // When the clock steps back, a new window opens exactly if the wrapped difference is a window or more.
  lemma BackwardsResetsExactly(c: RiskConfig, w: Window, a: Attempt)
    requires !Unlimited(c) && PreCheck(c, a) == Allowed && 0 < a.now < w.start < WORD
    ensures Checked(c, w, a) == (Window(a.now, 1), Allowed) <==> c.orderRateWindowNs <= WORD - (w.start - a.now)
  {
    assert (a.now - w.start) % WORD == WORD + a.now - w.start;
    ElapsedIsDifference(a.now, a.now);
    hide PreCheck;
  }

  // `steps` full limits, each one nanosecond before the last.
  function Downhill(c: RiskConfig, a: Attempt, top: nat, steps: nat): seq<Attempt>
    requires steps <= top && c.maxOrdersPerWindow > 0
  {
    if steps == 0 then []
    else
      var now := a.(now := top - steps + 1);
      Downhill(c, a, top, steps - 1) + [now] + Copies(now, c.maxOrdersPerWindow - 1)
  }

  lemma StepBackOpens(c: RiskConfig, w: Window, now: nat)
    requires c.orderRateWindowNs < WORD && w.start == now + 1 < WORD
    ensures Opens(c, w, now)
  {
    assert (now - w.start) % WORD == WORD - 1;
  }

  lemma {:induction false} DownhillIsAccepted(c: RiskConfig, a: Attempt, top: nat, steps: nat)
    requires !Unlimited(c) && PreCheck(c, a) == Allowed && c.orderRateWindowNs < WORD
    requires steps <= top <= c.orderRateWindowNs
    ensures var run := Downhill(c, a, top, steps);
            && AcceptedIn(c, run, 1, c.orderRateWindowNs) == steps * c.maxOrdersPerWindow
            && WindowAfter(c, run) == if steps == 0 then NO_WINDOW else Window(top - steps + 1, c.maxOrdersPerWindow)
    decreases steps
  {
    hide PreCheck, WindowAfter, AcceptedIn, Checked, Copies, Opens;
    if steps == 0 {
      NothingYet(c, 1);
    } else {
      var before, now := Downhill(c, a, top, steps - 1), a.(now := top - steps + 1);
      DownhillIsAccepted(c, a, top, steps - 1);
      TimeIsNotChecked(c, a, top - steps + 1);
      if steps == 1 {
        NoWindowOpens(c, now.now);
      } else {
        StepBackOpens(c, WindowAfter(c, before), now.now);
      }
      LimitIsAccepted(c, before, now, 1);
      OneMoreTime(steps, c.maxOrdersPerWindow);
    }
  }

  lemma OneMoreTime(n: nat, m: nat)
    requires n > 0
    ensures n * m == (n - 1) * m + m
  {
  }

  lemma NoWindowOpens(c: RiskConfig, now: nat)
    ensures Opens(c, NO_WINDOW, now)
  {
  }

  // A clock that goes back a nanosecond at a time lets as many full limits into one window's length as that has
  // nanoseconds; two are already more than the bound.
  lemma BackwardsBreaksBound(c: RiskConfig, a: Attempt)
    requires !Unlimited(c) && PreCheck(c, a) == Allowed && c.orderRateWindowNs < WORD
    ensures var w := c.orderRateWindowNs;
            && AcceptedIn(c, Downhill(c, a, w, w), 1, w) == w * c.maxOrdersPerWindow
            && (w >= 2 ==> AcceptedIn(c, Downhill(c, a, w, w), 1, w) > 2 * c.maxOrdersPerWindow - 1)
  {
    hide PreCheck, AcceptedIn, Downhill;
    var w, m := c.orderRateWindowNs, c.maxOrdersPerWindow;
    DownhillIsAccepted(c, a, w, w);
    if w >= 2 {
      Products(2, w, m);
    }
  }

  lemma Products(a: nat, b: nat, m: nat)
    requires a <= b
    ensures a * m <= b * m
  {
  }

  // ----- The tests, each by itself -----

  predicate Listed(c: RiskConfig, symbol: Symbol) {
    |c.allowedSymbols| > 0 ==> exists i :: 0 <= i < |c.allowedSymbols| && c.allowedSymbols[i] == symbol
  }

  // The position the order would lead to is within the limit on both sides of zero.
  predicate WithinPosition(c: RiskConfig, a: Attempt) {
    var limit := c.maxAbsPosition;
    limit > 0 ==>
      if a.side == Buy then -limit <= a.position + a.quantity <= limit
      else -limit <= a.position - a.quantity <= limit
  }

  // The price is no further than the band below the best bid or above the best ask; with one of them missing, than
  // the band around the reference price, if there is one.
  predicate WithinBand(c: RiskConfig, a: Attempt) {
    var band, m := c.priceBandTicks, a.market;
    && (band > 0 && m.bestBid > 0 && m.bestAsk > 0 ==> m.bestBid - a.price <= band && a.price - m.bestAsk <= band)
    && (band > 0 && (m.bestBid <= 0 || m.bestAsk <= 0) && m.referencePrice > 0 ==>
          -band <= a.price - m.referencePrice <= band)
  }

  // The window in force has room, or none is in force any more.
  predicate HasRoom(c: RiskConfig, w: Window, now: nat) {
    || c.maxOrdersPerWindow == 0 || c.orderRateWindowNs == 0
    || w.start == 0 || Elapsed(now, w.start) >= c.orderRateWindowNs
    || w.count < c.maxOrdersPerWindow
  }

  // The test an attempt fails when it is refused for this reason.
  predicate Passes(c: RiskConfig, w: Window, a: Attempt, reason: RiskReason) {
    match reason
    case DisallowedSymbol => Listed(c, a.symbol)
    case BadQuantity => a.quantity > 0
    case BadPrice => a.price > 0
    case QuantityLimitExceeded => c.maxOrderQuantity > 0 ==> a.quantity <= c.maxOrderQuantity
    case NotionalLimitExceeded => c.maxNotional > 0 ==> a.price * a.quantity <= c.maxNotional
    case PositionLimitExceeded => WithinPosition(c, a)
    case PriceBandExceeded => WithinBand(c, a)
    case OrderRateExceeded => HasRoom(c, w, a.now)
    case Allowed => true
  }

  // The order in which the tests come.
  const TESTS: seq<RiskReason> := [DisallowedSymbol, BadQuantity, BadPrice, QuantityLimitExceeded,
                                   NotionalLimitExceeded, PositionLimitExceeded, PriceBandExceeded, OrderRateExceeded]

  lemma ListedIsAllowed(c: RiskConfig, symbol: Symbol)
    ensures SymbolAllowed(c, symbol) <==> Listed(c, symbol)
  {
  }

  // The checks before the rate check, each against its test.
  lemma ChecksAreTests(c: RiskConfig, w: Window, a: Attempt, reason: RiskReason)
    requires reason == PreCheck(c, a)
    ensures reason == Allowed <==> forall i | 0 <= i < |TESTS| - 1 :: Passes(c, w, a, TESTS[i])
    ensures reason != Allowed ==> FirstFailure(c, w, a, reason)
  {
    ListedIsAllowed(c, a.symbol);
    hide SymbolAllowed, Listed;
    assert TESTS[0] == DisallowedSymbol && TESTS[1] == BadQuantity && TESTS[2] == BadPrice;
    assert TESTS[3] == QuantityLimitExceeded && TESTS[4] == NotionalLimitExceeded;
    assert TESTS[5] == PositionLimitExceeded && TESTS[6] == PriceBandExceeded;
  }

  // The attempt fails this test and passes all that come before it.
  ghost predicate FirstFailure(c: RiskConfig, w: Window, a: Attempt, reason: RiskReason) {
    exists i | 0 <= i < |TESTS| ::
      TESTS[i] == reason && !Passes(c, w, a, reason) && forall j | 0 <= j < i :: Passes(c, w, a, TESTS[j])
  }

  // An attempt is allowed exactly when it passes all tests, and otherwise refused for the first it fails.
  lemma FirstFailureDecides(c: RiskConfig, w: Window, a: Attempt)
    ensures var reason := Checked(c, w, a).1;
            && (reason == Allowed <==> forall i | 0 <= i < |TESTS| :: Passes(c, w, a, TESTS[i]))
            && (reason != Allowed ==> FirstFailure(c, w, a, reason))
  {
    hide PreCheck;
    var reason := PreCheck(c, a);
    ChecksAreTests(c, w, a, reason);
    assert TESTS[7] == OrderRateExceeded;
  }

  class PreTradeRiskEngine {
    const config: RiskConfig
    var windowStartNs: nat
    var ordersInWindow: nat

    function View(): Window
      reads this
    {
      Window(windowStartNs, ordersInWindow)
    }

    constructor (config: RiskConfig)
      ensures this.config == config && View() == NO_WINDOW
    {
      this.config := config;
      windowStartNs, ordersInWindow := 0, 0;
    }

    method IsSymbolAllowed(symbol: Symbol) returns (allowed: bool)
      ensures allowed == SymbolAllowed(config, symbol)
    {
      if config.allowedSymbols == [] {
        return true;
      }
      for i := 0 to |config.allowedSymbols|
        invariant symbol !in config.allowedSymbols[..i]
      {
        if config.allowedSymbols[i] == symbol {
          return true;
        }
      }
      return false;
    }

    method OrderRateAvailable(now: nat) returns (available: bool)
      modifies this
      ensures View() == if Unlimited(config) then old(View()) else Current(config, old(View()), now)
      ensures available <==> Unlimited(config) || View().count < config.maxOrdersPerWindow
    {
      if config.maxOrdersPerWindow == 0 || config.orderRateWindowNs == 0 {
        return true;
      }
      if windowStartNs == 0 || Elapsed(now, windowStartNs) >= config.orderRateWindowNs {
        windowStartNs := now;
        ordersInWindow := 0;
      }
      return ordersInWindow < config.maxOrdersPerWindow;
    }

    method RecordOrderAttempt(now: nat)
      modifies this
      ensures View() == if Unlimited(config) then old(View())
                        else (var w := Current(config, old(View()), now); w.(count := w.count + 1))
    {
      if config.maxOrdersPerWindow == 0 || config.orderRateWindowNs == 0 {
        return;
      }
      if windowStartNs == 0 || Elapsed(now, windowStartNs) >= config.orderRateWindowNs {
        windowStartNs := now;
        ordersInWindow := 0;
      }
      ordersInWindow := ordersInWindow + 1;
    }

    method Validate(a: Attempt) returns (reason: RiskReason)
      modifies this
      ensures (View(), reason) == Checked(config, old(View()), a)
      ensures reason == Allowed <==> forall i | 0 <= i < |TESTS| :: Passes(config, old(View()), a, TESTS[i])
      ensures reason != Allowed ==> FirstFailure(config, old(View()), a, reason)
    {
      FirstFailureDecides(config, View(), a);
      hide Passes, FirstFailure;
      var allowed := IsSymbolAllowed(a.symbol);
      if !allowed {
        return DisallowedSymbol;
      }
      if a.quantity <= 0 {
        return BadQuantity;
      }
      if a.price <= 0 {
        return BadPrice;
      }
      if config.maxOrderQuantity > 0 && a.quantity > config.maxOrderQuantity {
        return QuantityLimitExceeded;
      }
      var notional := a.price * a.quantity;
      if config.maxNotional > 0 && notional > config.maxNotional {
        return NotionalLimitExceeded;
      }
      var signed := if a.side == Buy then a.quantity else -a.quantity;
      var projected := a.position + signed;
      var absProjected := if projected < 0 then -projected else projected;
      if config.maxAbsPosition > 0 && absProjected > config.maxAbsPosition {
        return PositionLimitExceeded;
      }
      if !InsideBand(config, a) {
        return PriceBandExceeded;
      }
      var available := OrderRateAvailable(a.now);
      if !available {
        return OrderRateExceeded;
      }
      RecordOrderAttempt(a.now);
      return Allowed;
    }
  }
}
