// Exactly how many placements, and of what quantity, leave manager and exchange in agreement.
module AgreementLimits {
  import opened ReportKeys
  import opened ClosedLoop
  import opened Mirror
  import opened MirroredRuns
  import opened OneSidedRuns
  import opened ShortRuns
  import opened EarlyRuns
  import opened KeyLimits
  import opened LostFills

  predicate AllUpTo(actions: seq<Action>, q: int) {
    forall i | 0 <= i < |actions| :: actions[i].Place? ==> actions[i].quantity <= q
  }

  predicate AllSendable(actions: seq<Action>) {
    forall i | 0 <= i < |actions| :: Sendable(actions[i])
  }

  // Every disciplined run of at most `n` placements, of at most `q` each, leaves a mirrored world.
  ghost predicate MirrorsUpTo(n: nat, q: int) {
    forall actions | Disciplined(START, actions) && AllUpTo(actions, q) && Places(actions) <= n ::
      Mirrored(Steps(START, actions))
  }

  // The same for runs in which the gateway refuses no placement.
  ghost predicate SendableMirrorUpTo(n: nat, q: int) {
    forall actions |
      Disciplined(START, actions) && AllSendable(actions) && AllUpTo(actions, q) && Places(actions) <= n ::
      Mirrored(Steps(START, actions))
  }

  lemma ShortRunIsMirrored(g: Regime, actions: seq<Action>)
    requires Disciplined(START, actions) && AllModest(g, actions) && Places(actions) <= MostPlaces(g)
    ensures Mirrored(Steps(START, actions))
  {
    hide Disciplined, AllModest, Mirrored, Steps, NewKeys, MostPlaces;
    StartIsMirrored();
    ShortRunsAreNew(g, actions);
    RunsKeepMirror(START, actions);
  }

  lemma PlacesOne(a: Action)
    requires a.Place?
    ensures Places([a]) == 1
  {
    assert [a][1..] == [];
  }

  lemma StrayRunFits(q: int)
    requires q >= 1
    ensures AllUpTo([BID, REFUSED, BID], q) && Places([BID, REFUSED, BID]) == 3
  {
    hide Places;
    PlacesOne(BID);
    PlacesOne(REFUSED);
    PlacesJoin([REFUSED], [BID]);
    PlacesJoin([BID], [REFUSED] + [BID]);
    assert [BID, REFUSED, BID] == [BID] + ([REFUSED] + [BID]);
  }

  // With placements the gateway may refuse, agreement holds for two placements and for no more.
  lemma MirrorsExactlyUpTo2(n: nat, q: int)
    requires q >= 1
    ensures MirrorsUpTo(n, q) <==> n <= 2
  {
    hide Disciplined, Mirrored, Steps, Places, Early;
    if n <= 2 {
      forall actions | Disciplined(START, actions) && AllUpTo(actions, q) && Places(actions) <= n
        ensures Mirrored(Steps(START, actions))
      {
        StartIsEarly();
        EarlyRunsMirror(START, actions, []);
      }
    } else {
      StrayRunFits(q);
      StrayRunBreaks();
    }
  }

  lemma {:induction false} RepeatedFits(a: Action, n: nat, q: int)
    requires a.Place? && Sendable(a) && a.quantity <= q
    ensures AllSendable(Repeated(a, n)) && AllUpTo(Repeated(a, n), q)
  {
    RepeatedPlaces(a, n);
    hide Repeated;
  }

  lemma FitsJoin(a: seq<Action>, b: seq<Action>, q: int)
    requires AllSendable(a) && AllUpTo(a, q) && AllSendable(b) && AllUpTo(b, q)
    ensures AllSendable(a + b) && AllUpTo(a + b, q)
  {
  }

  lemma FitsOne(a: Action, q: int)
    requires Sendable(a) && (a.Place? ==> a.quantity <= q)
    ensures AllSendable([a]) && AllUpTo([a], q)
  {
  }

  lemma MiddleFits(q: int)
    requires q >= 1
    ensures AllSendable([BID, ASK_CANCEL, CANCEL]) && AllUpTo([BID, ASK_CANCEL, CANCEL], q)
  {
  }

  lemma UnluckyFits(q: int)
    requires q >= 1
    ensures AllSendable(Unlucky()) && AllUpTo(Unlucky(), q)
  {
    var bids := Repeated(BID, 1023);
    hide AllSendable, AllUpTo, Repeated;
    RepeatedFits(BID, 1023, q);
    MiddleFits(q);
    FitsOne(BID, q);
    FitsJoin(bids, [BID, ASK_CANCEL, CANCEL], q);
    FitsJoin(bids + [BID, ASK_CANCEL, CANCEL], bids, q);
    FitsJoin(bids + [BID, ASK_CANCEL, CANCEL] + bids, [BID], q);
  }

  lemma TopRunFits(q: int)
    requires q >= 65537
    ensures AllSendable(TopRun()) && AllUpTo(TopRun(), q) && Places(TopRun()) == 257
  {
    var asides := Repeated(ASIDE, 254);
    hide AllSendable, AllUpTo, Repeated, Places;
    RepeatedFits(ASIDE, 254, q);
    RepeatedPlaces(ASIDE, 254);
    FitsOne(SELL_ONE, q);
    FitsOne(SELL_MANY, q);
    FitsOne(BUY_ALL, q);
    PlacesOne(SELL_ONE);
    PlacesOne(SELL_MANY);
    PlacesOne(BUY_ALL);
    FitsJoin(asides, [BUY_ALL], q);
    PlacesJoin(asides, [BUY_ALL]);
    FitsJoin([SELL_MANY], asides + [BUY_ALL], q);
    PlacesJoin([SELL_MANY], asides + [BUY_ALL]);
    FitsJoin([SELL_ONE], [SELL_MANY] + (asides + [BUY_ALL]), q);
    PlacesJoin([SELL_ONE], [SELL_MANY] + (asides + [BUY_ALL]));
  }

  lemma LargeRunFits(q: int)
    requires q >= 65541
    ensures AllSendable(LargeRun()) && AllUpTo(LargeRun(), q) && Places(LargeRun()) == 4
  {
    hide Places;
    PlacesOne(Bid(65541));
    PlacesOne(Sale(1));
    PlacesOne(Sale(65537));
    PlacesJoin([Sale(1)], [Sale(65537)]);
    PlacesJoin([Sale(1)], [Sale(1)] + [Sale(65537)]);
    PlacesJoin([Bid(65541)], [Sale(1)] + ([Sale(1)] + [Sale(65537)]));
  }

  lemma HugeRunFits(q: int)
    requires q >= 196608
    ensures AllSendable(HugeRun()) && AllUpTo(HugeRun(), q) && Places(HugeRun()) == 3
  {
    hide Places;
    PlacesOne(Bid(196608));
    PlacesOne(Sale(131071));
    PlacesOne(Sale(65535));
    PlacesJoin([Sale(131071)], [Sale(65535)]);
    PlacesJoin([Bid(196608)], [Sale(131071)] + [Sale(65535)]);
  }

  predicate InRegime(g: Regime, n: nat, q: int) {
    n <= MostPlaces(g) && q <= Largest(g)
  }

  lemma RegimeIsMirrored(g: Regime, n: nat, q: int)
    requires InRegime(g, n, q)
    ensures SendableMirrorUpTo(n, q)
  {
    hide Disciplined, Mirrored, Steps, Places;
    forall actions |
      Disciplined(START, actions) && AllSendable(actions) && AllUpTo(actions, q) && Places(actions) <= n
      ensures Mirrored(Steps(START, actions))
    {
      assert AllModest(g, actions);
      ShortRunIsMirrored(g, actions);
    }
  }

  // With placements the gateway lets through, agreement holds for two of any quantity, for three of at most 196607
  // each, for 256 of at most 65540 each, for 2047 of at most 65536 each, and for nothing beyond these.
  lemma SendableMirrorExactly(n: nat, q: int)
    requires q >= 1
    ensures SendableMirrorUpTo(n, q) <==>
            n <= 2 || (n <= 3 && q <= 196607) || (n <= 256 && q <= 65540) || (n <= 2047 && q <= 65536)
  {
    hide Disciplined, Mirrored, Steps, Places, Unlucky, TopRun, LargeRun, HugeRun;
    if n <= 2 {
      MirrorsExactlyUpTo2(n, q);
    } else if InRegime(Three, n, q) {
      RegimeIsMirrored(Three, n, q);
    } else if InRegime(Few, n, q) {
      RegimeIsMirrored(Few, n, q);
    } else if InRegime(Many, n, q) {
      RegimeIsMirrored(Many, n, q);
    } else if n >= 2048 {
      UnluckyFits(q);
      UnluckyRunBreaks();
    } else if n >= 257 {
      TopRunFits(q);
      TopRunBreaks();
    } else if n >= 4 {
      LargeRunFits(q);
      LargeRunBreaks();
    } else {
      HugeRunFits(q);
      HugeRunBreaks();
    }
  }
}
