// How long a run may be, and how large its orders, before a key collision can break the mirror:
// the exact limits of the closed loop's agreement, and a losing run beyond each.
module KeyLimits {
  import opened Types
  import opened Matching
  import opened ReportStream
  import opened ReportBatch
  import opened OrderLifecycle
  import opened OrderManagement
  import opened ReportKeys
  import opened ReportHandler
  import opened ClosedLoop
  import opened Mirror
  import opened MirroredRuns
  import opened OneSidedRuns
  import opened ShortRuns
  import opened StreamKeys

  function Repeated(a: Action, n: nat): seq<Action> {
    if n == 0 then [] else [a] + Repeated(a, n - 1)
  }

  // ----- Runs in pieces -----

  lemma StepsFirst(w: World, a: Action, rest: seq<Action>)
    ensures Steps(w, [a] + rest) == Steps(Step(w, a), rest)
    ensures Disciplined(w, [a] + rest) <==> CancelsAsAsked(w, a) && Fits(w, a) && Disciplined(Step(w, a), rest)
  {
  }

  lemma OneStep(w: World, a: Action)
    ensures Steps(w, [a]) == Step(w, a)
    ensures Disciplined(w, [a]) <==> CancelsAsAsked(w, a) && Fits(w, a)
  {
    StepsFirst(w, a, []);
    assert [a] + [] == [a];
    hide Step, Fits, CancelsAsAsked;
  }

  lemma {:induction false} StepsJoin(w: World, a: seq<Action>, b: seq<Action>)
    ensures Steps(w, a + b) == Steps(Steps(w, a), b)
    ensures Disciplined(w, a + b) <==> Disciplined(w, a) && Disciplined(Steps(w, a), b)
    decreases |a|
  {
    hide Step, CancelsAsAsked, Fits;
    if a == [] {
      assert a + b == b;
    } else {
      assert (a + b)[1..] == a[1..] + b;
      StepsJoin(Step(w, a[0]), a[1..], b);
    }
  }

  lemma {:induction false} PlacesJoin(a: seq<Action>, b: seq<Action>)
    ensures Places(a + b) == Places(a) + Places(b)
  {
    if a == [] {
      assert a + b == b;
    } else {
      assert (a + b)[1..] == a[1..] + b;
      PlacesJoin(a[1..], b);
    }
  }

  lemma {:induction false} RepeatedPlaces(a: Action, n: nat)
    requires a.Place?
    ensures Places(Repeated(a, n)) == n && |Repeated(a, n)| == n
    ensures forall i | 0 <= i < n :: Repeated(a, n)[i] == a
  {
    if n > 0 {
      RepeatedPlaces(a, n - 1);
      assert Repeated(a, n)[1..] == Repeated(a, n - 1);
    }
  }

  // ----- On track -----

  ghost predicate OnTrack(g: Regime, w: World) {
    Mirrored(w) && InStep(g, w) && exists past :: TamePast(g, w, past)
  }

  lemma StartIsOnTrack(g: Regime)
    ensures OnTrack(g, START)
  {
    StartIsTame(g);
    hide Mirrored, InStep, TamePast;
  }

  lemma StaysOnTrack(g: Regime, w: World, a: Action)
    requires OnTrack(g, w) && Modest(g, a) && CancelsAsAsked(w, a) && Fits(w, a)
    requires a.Place? ==> w.handler.oms.nextId <= MostPlaces(g)
    ensures OnTrack(g, Step(w, a))
    ensures Step(w, a).handler.seen == w.handler.seen + Keys(LogOf(w, a))
  {
    hide Mirrored, InStep, TamePast, Modest, CancelsAsAsked, Fits, Step, LogOf, Keys, NewKeys;
    var past :| TamePast(g, w, past);
    LogHasNewKeys(g, w, a, past);
    StepKeepsMirror(w, a);
    SeenAfter(w, a);
  }

  lemma MirroredIsFresh(w: World)
    requires Mirrored(w)
    ensures FreshNext(w)
  {
    LiveIsResting(w.venue, w.handler.oms.nextId);
    hide Inv, TableOf;
  }

  // The first report of a step is among the keys seen after it.
  lemma LonePlaceStaysOnTrack(g: Regime, w: World, a: Action)
    requires OnTrack(g, w) && a.Place? && Sendable(a) && a.quantity <= Largest(g)
    requires w.handler.oms.nextId <= MostPlaces(g) && w.venue.On(Opposite(a.side)) == []
    ensures Fits(w, a) && CancelsAsAsked(w, a) && |LogOf(w, a)| == 1
    ensures var w' := Step(w, a);
            && OnTrack(g, w')
            && w'.venue.On(Opposite(a.side)) == []
            && w'.handler.seen == w.handler.seen + {ReportKey(LogOf(w, a)[0])}
            && w'.handler.oms.nextId == w.handler.oms.nextId + 1 && w'.venue.nextId == w.venue.nextId + 1
  {
    hide Mirrored, InStep, TamePast, Step, LogOf, Keys, FreshNext, Sent, Fits, Enqueue, ReportKey;
    MirroredIsFresh(w);
    LonePlaceRests(w, a);
    ManagerIdsAdvance(w, a);
    StaysOnTrack(g, w, a);
    KeysOfOne(LogOf(w, a));
  }

  lemma KeysOfOne(log: seq<ExecutionReport>)
    requires |log| == 1
    ensures Keys(log) == {ReportKey(log[0])}
  {
    hide ReportKey;
  }

  lemma {:induction false} LonePlacesStayOnTrack(g: Regime, w: World, a: Action, n: nat)
    requires OnTrack(g, w) && a.Place? && Sendable(a) && a.quantity <= Largest(g)
    requires w.handler.oms.nextId + n <= MostPlaces(g) + 1 && w.venue.On(Opposite(a.side)) == []
    ensures Disciplined(w, Repeated(a, n))
    ensures var w' := Steps(w, Repeated(a, n));
            && OnTrack(g, w')
            && w'.venue.On(Opposite(a.side)) == []
            && w.handler.seen <= w'.handler.seen
            && w'.handler.oms.nextId == w.handler.oms.nextId + n && w'.venue.nextId == w.venue.nextId + n
    decreases n
  {
    hide OnTrack, Step, Fits, CancelsAsAsked, LogOf, ReportKey;
    if n > 0 {
      assert Repeated(a, n)[0] == a && Repeated(a, n)[1..] == Repeated(a, n - 1);
      LonePlaceStaysOnTrack(g, w, a);
      LonePlacesStayOnTrack(g, Step(w, a), a, n - 1);
    }
  }

  // ----- A lost acknowledgement -----

  lemma PreparedOrderWaits(w: World, a: Action)
    requires Mirrored(w) && a.Place?
    ensures var c, h := w.handler.oms.nextId, PreparedHandler(w, a);
            c in h.oms.orders && h.oms.orders[c].status == PendingNew && h.seen == w.handler.seen
  {
    CreateKeepsMirror(w.handler.oms, TableOf(w.venue), a.symbol, a.side, a.price, a.quantity, a.now);
    hide TableOf, Inv, Mirrors, Numbered, Create, Happen;
  }

  lemma LoneReportHandled(h: HandlerState, log: seq<ExecutionReport>)
    requires |log| == 1
    ensures HandleAll(h, Kept(log)) == Handle(h, log[0]).0
  {
    assert Kept(log) == log && log[1..] == [];
    hide Handle;
  }

  lemma NotWorkingIsNoImage(w: World, c: nat)
    requires c in TableOf(w.venue).live && c in w.handler.oms.orders
    requires !IsWorking(w.handler.oms.orders[c].status)
    ensures !Mirrored(w)
  {
  }

  // The exchange takes the order, but the manager is left waiting for an acknowledgement that the
  // handler took for a copy.
  lemma LostAcknowledgement(w: World, a: Action)
    requires Mirrored(w) && a.Place? && Sendable(a) && w.venue.On(Opposite(a.side)) == []
    requires LogOf(w, a) != [] && ReportKey(LogOf(w, a)[0]) in w.handler.seen
    ensures Fits(w, a) && CancelsAsAsked(w, a) && !Mirrored(Step(w, a))
  {
    hide LogOf, TableOf, Process, ReportKey, Handle, Prepared, Sent, HandleAll, Kept, Step, Image, Mirrors, Inv,
         Enqueue, Fits, Numbered;
    MirroredIsFresh(w);
    LonePlaceRests(w, a);
    LonePlaceIsLive(w, a);
    PreparedOrderWaits(w, a);
    SentStep(w, a);
    var h, log := PreparedHandler(w, a), LogOf(w, a);
    SeenIsIgnored(h, log[0]);
    LoneReportHandled(h, log);
    NotWorkingIsNoImage(Step(w, a), w.handler.oms.nextId);
  }

  // ----- Two orders, and one the gateway refuses between them -----

  const BID := Place("A", Buy, 1, 1, 0)
  const REFUSED := Place("", Buy, 1, 1, 0)

  lemma RefusedIsUnsent(w: World)
    ensures var w' := Step(w, REFUSED);
            && LogOf(w, REFUSED) == [] && Fits(w, REFUSED) && CancelsAsAsked(w, REFUSED)
            && w'.venue == w.venue && w'.handler.seen == w.handler.seen
            && w'.handler.oms.nextId == w.handler.oms.nextId + 1
  {
  }

  lemma FirstBidIsSeen()
    ensures var w := Step(START, BID);
            && Fits(START, BID) && CancelsAsAsked(START, BID) && |LogOf(START, BID)| == 1
            && Mirrored(w) && w.venue.asks == [] && w.venue.nextId == w.handler.oms.nextId == 2
            && ReportKey(LogOf(START, BID)[0]) in w.handler.seen
  {
    hide OnTrack, Step, LogOf, Fits, CancelsAsAsked, ReportKey, Mirrored;
    StartIsOnTrack(Few);
    LonePlaceStaysOnTrack(Few, START, BID);
    TrackIsMirrored(Few, Step(START, BID));
  }

  lemma RefusalKeepsMirror(w: World)
    requires Mirrored(w)
    ensures Mirrored(Step(w, REFUSED))
  {
    hide Step, StepMirrors, Mirrored, Sent;
    NamelessIsUnsent(w, REFUSED);
    UnsentStepKeepsMirror(w, REFUSED);
    MirrorsMeansMirrored(w, REFUSED);
  }

  lemma MirrorsMeansMirrored(w: World, a: Action)
    requires StepMirrors(w, a)
    ensures Mirrored(Step(w, a))
  {
  }

  // The gateway refuses the second of three orders; the ids of client and exchange are out of step from then
  // on, and the acknowledgement of the third passes for that of the first.
  lemma StrayRunBreaks()
    ensures Disciplined(START, [BID, REFUSED, BID])
    ensures !Mirrored(Steps(START, [BID, REFUSED, BID]))
  {
    hide OnTrack, Step, LogOf, Fits, CancelsAsAsked, ReportKey, Mirrored;
    var w1 := Step(START, BID);
    var w2 := Step(w1, REFUSED);
    FirstBidIsSeen();
    RefusedIsUnsent(w1);
    RefusalKeepsMirror(w1);
    StartIsMirrored();
    BidIsAcknowledged(START);
    BidIsAcknowledged(w2);
    StrayAckCollides(LogOf(START, BID)[0], LogOf(w2, BID)[0]);
    LostAcknowledgement(w2, BID);
    StepsFirst(START, BID, [REFUSED, BID]);
    StepsFirst(w1, REFUSED, [BID]);
    OneStep(w2, BID);
    assert [BID, REFUSED, BID] == [BID] + [REFUSED, BID] && [REFUSED, BID] == [REFUSED] + [BID];
  }

  lemma TrackIsMirrored(g: Regime, w: World)
    requires OnTrack(g, w)
    ensures Mirrored(w)
  {
  }

  lemma BidIsAcknowledged(w: World)
    requires Mirrored(w) && w.venue.asks == []
    ensures LogOf(w, BID) != [] && Acknowledges(LogOf(w, BID)[0], w.handler.oms.nextId, w.venue.nextId, BID)
  {
    hide Mirrored, LogOf, Acknowledges, Sent, Step, Enqueue, FreshNext;
    MirroredIsFresh(w);
    LonePlaceRests(w, BID);
  }

  // ----- Order 2048, behind the cancel of order 1024 -----

  const ASK_CANCEL := AskCancel(1024)
  const CANCEL := SendCancelFor(1024, 0)

  lemma AskingLeavesVenue(w: World)
    ensures var w' := Step(w, ASK_CANCEL);
            && w'.venue == w.venue && w'.handler.oms.nextId == w.handler.oms.nextId
            && LogOf(w, ASK_CANCEL) == [] && Fits(w, ASK_CANCEL)
            && CancelsAsAsked(w, ASK_CANCEL) && CancelsAsAsked(w', CANCEL)
  {
  }

  lemma CancelKeepsAsks(w: World)
    requires w.venue.asks == []
    ensures Step(w, CANCEL).venue.asks == [] && Fits(w, CANCEL)
    ensures Step(w, CANCEL).venue.nextId == w.venue.nextId
  {
    hide HandleAll, Kept;
  }

  // What the handler has taken for good, once order 1024 was canceled.
  ghost predicate Canceled1024(w: World) {
    exists r :: Canceled(r, 1024) && ReportKey(r) in w.handler.seen
  }

  predicate Canceled(r: ExecutionReport, id: nat) {
    && r.execType == ExecType.CancelAck && r.clientOrderId == r.exchangeOrderId == id
    && r.lastQuantity == r.cumulativeQuantity == 0 && r.leavesQuantity == 1
  }

  predicate Resting1024(w: World) {
    && w.venue.asks == []
    && 1024 in TableOf(w.venue).live
    && TableOf(w.venue).live[1024] == Live(1024, "A", Buy, 1, 0)
  }

  lemma RestingIsSent(w: World)
    requires Mirrored(w) && Resting1024(w)
    ensures Sent(w, CANCEL).Sending?
  {
    assert Image(w.handler.oms.orders[1024], TableOf(w.venue).live[1024]);
    hide TableOf, Inv;
  }

  lemma CancelIsLogged(w: World)
    requires Mirrored(w) && CancelsAsAsked(w, CANCEL) && Resting1024(w)
    ensures Sent(w, CANCEL).Sending? && |LogOf(w, CANCEL)| == 1 && Canceled(LogOf(w, CANCEL)[0], 1024)
  {
    hide Inv, TableOf, Process, Sent, Step, HandleAll, Mirrors, Numbered, CancelsAsAsked, LogOf;
    RestingIsSent(w);
    CancelHits(w, CANCEL);
    SentStep(w, CANCEL);
    AnswersAreProper(w.venue, Sent(w, CANCEL).request);
    FirstCarriesNoFill(w.venue, Sent(w, CANCEL).request);
  }

  lemma CancelIsRemembered(w: World)
    requires OnTrack(Many, w) && CancelsAsAsked(w, CANCEL) && Resting1024(w)
    ensures var w' := Step(w, CANCEL);
            && Fits(w, CANCEL) && OnTrack(Many, w') && w'.venue.asks == []
            && w'.handler.oms.nextId == w.handler.oms.nextId && w'.venue.nextId == w.venue.nextId
            && Canceled1024(w')
  {
    hide OnTrack, Step, Sent, LogOf, CancelsAsAsked, Fits, ReportKey, Resting1024, Mirrored;
    TrackIsMirrored(Many, w);
    CancelIsLogged(w);
    RestingIsAlone(w);
    CancelKeepsAsks(w);
    ManagerIdsAdvance(w, CANCEL);
    assert Modest(Many, CANCEL);
    StaysOnTrack(Many, w, CANCEL);
    KeysOfOne(LogOf(w, CANCEL));
    assert Canceled(LogOf(w, CANCEL)[0], 1024) && ReportKey(LogOf(w, CANCEL)[0]) in Step(w, CANCEL).handler.seen;
  }

  lemma RestingIsAlone(w: World)
    requires Resting1024(w)
    ensures w.venue.asks == []
  {
  }

  lemma BidMakesResting(w: World)
    requires Mirrored(w) && w.venue.asks == [] && w.handler.oms.nextId == w.venue.nextId == 1024
    requires Step(w, BID).venue.asks == []
    ensures Resting1024(Step(w, BID))
  {
    hide Step, TableOf, Inv, FreshNext, Mirrors, Numbered;
    MirroredIsFresh(w);
    LonePlaceIsLive(w, BID);
  }

  lemma CanceledOnTrack(w: World)
    requires OnTrack(Many, w) && w.venue.asks == [] && w.handler.oms.nextId == w.venue.nextId == 1024
    ensures Disciplined(w, [BID, ASK_CANCEL, CANCEL])
    ensures var w' := Steps(w, [BID, ASK_CANCEL, CANCEL]);
            && OnTrack(Many, w') && w'.venue.asks == []
            && w'.handler.oms.nextId == w'.venue.nextId == 1025
            && Canceled1024(w')
  {
    hide OnTrack, Step, LogOf, Fits, CancelsAsAsked, ReportKey, Canceled1024, Resting1024, Mirrored, Modest;
    var w1 := Step(w, BID);
    var w2 := Step(w1, ASK_CANCEL);
    TrackIsMirrored(Many, w);
    LonePlaceStaysOnTrack(Many, w, BID);
    BidMakesResting(w);
    AskingLeavesVenue(w1);
    SameVenueRests(w1, w2);
    AskingIsModest();
    StaysOnTrack(Many, w1, ASK_CANCEL);
    CancelIsRemembered(w2);
    StepsFirst(w, BID, [ASK_CANCEL, CANCEL]);
    StepsFirst(w1, ASK_CANCEL, [CANCEL]);
    OneStep(w2, CANCEL);
    assert [BID, ASK_CANCEL, CANCEL] == [BID] + [ASK_CANCEL, CANCEL];
    assert [ASK_CANCEL, CANCEL] == [ASK_CANCEL] + [CANCEL];
  }

  lemma AskingIsModest()
    ensures Modest(Many, ASK_CANCEL)
  {
  }

  lemma SameVenueRests(w: World, w': World)
    requires w'.venue == w.venue && Resting1024(w)
    ensures Resting1024(w')
  {
  }

  // 1024 orders, the last of them canceled, and 1024 more.
  function Unlucky(): seq<Action> {
    Repeated(BID, 1023) + [BID, ASK_CANCEL, CANCEL] + Repeated(BID, 1023) + [BID]
  }

  lemma CanceledStays(w: World, w': World)
    requires Canceled1024(w) && w.handler.seen <= w'.handler.seen
    ensures Canceled1024(w')
  {
    hide ReportKey;
  }

  lemma BidBehindCancel(w: World)
    requires Mirrored(w) && w.venue.asks == [] && w.handler.oms.nextId == w.venue.nextId == 2048 && Canceled1024(w)
    ensures Fits(w, BID) && !Mirrored(Step(w, BID))
  {
    hide LogOf, ReportKey, Mirrored, Step, Fits, CancelsAsAsked;
    BidIsAcknowledged(w);
    var canceled :| Canceled(canceled, 1024) && ReportKey(canceled) in w.handler.seen;
    AckCollides(canceled, LogOf(w, BID)[0]);
    LostAcknowledgement(w, BID);
  }

  lemma BidsStayOnTrack(w: World)
    requires OnTrack(Many, w) && w.venue.asks == [] && w.handler.oms.nextId == w.venue.nextId <= 1025
    ensures var w' := Steps(w, Repeated(BID, 1023));
            && Disciplined(w, Repeated(BID, 1023))
            && OnTrack(Many, w') && w'.venue.asks == []
            && w'.handler.oms.nextId == w'.venue.nextId == w.venue.nextId + 1023
            && w.handler.seen <= w'.handler.seen
  {
    hide OnTrack, Step, Steps, Repeated, Disciplined;
    LonePlacesStayOnTrack(Many, w, BID, 1023);
  }

  lemma UnluckyEnds(w1: World, w2: World, w3: World)
    requires w1 == Steps(START, Repeated(BID, 1023))
    requires w2 == Steps(w1, [BID, ASK_CANCEL, CANCEL])
    requires w3 == Steps(w2, Repeated(BID, 1023))
    ensures Disciplined(START, Repeated(BID, 1023)) && Disciplined(w1, [BID, ASK_CANCEL, CANCEL])
    ensures Disciplined(w2, Repeated(BID, 1023)) && Fits(w3, BID) && !Mirrored(Step(w3, BID))
  {
    hide OnTrack, Step, Steps, Repeated, Fits, Disciplined, Mirrored, Canceled1024;
    StartIsOnTrack(Many);
    BidsStayOnTrack(START);
    CanceledOnTrack(w1);
    BidsStayOnTrack(w2);
    CanceledStays(w2, w3);
    TrackIsMirrored(Many, w3);
    BidBehindCancel(w3);
  }

  lemma FourParts(w: World, a: seq<Action>, b: seq<Action>, c: seq<Action>, d: seq<Action>)
    ensures Steps(w, a + b + c + d) == Steps(Steps(Steps(Steps(w, a), b), c), d)
    ensures Disciplined(w, a + b + c + d) <==>
              && Disciplined(w, a) && Disciplined(Steps(w, a), b)
              && Disciplined(Steps(Steps(w, a), b), c)
              && Disciplined(Steps(Steps(Steps(w, a), b), c), d)
  {
    hide Steps, Disciplined;
    StepsJoin(w, a, b);
    StepsJoin(w, a + b, c);
    StepsJoin(w, a + b + c, d);
  }

  // On this run the exchange ends up with an order that the manager never hears of.
  lemma UnluckyRunBreaks()
    ensures Disciplined(START, Unlucky()) && Places(Unlucky()) == 2048
    ensures !Mirrored(Steps(START, Unlucky()))
  {
    var bids, middle := Repeated(BID, 1023), [BID, ASK_CANCEL, CANCEL];
    var w1 := Steps(START, bids);
    var w2 := Steps(w1, middle);
    var w3 := Steps(w2, bids);
    hide Step, Steps, Repeated, Fits, Disciplined, Mirrored, Places, CancelsAsAsked;
    UnluckyEnds(w1, w2, w3);
    PlaceIsAsAsked(w3);
    OneStep(w3, BID);
    FourParts(START, bids, middle, bids, [BID]);
    UnluckyPlaces();
  }

  lemma PlaceIsAsAsked(w: World)
    ensures CancelsAsAsked(w, BID)
  {
  }

  lemma MiddlePlaces()
    ensures Places([BID, ASK_CANCEL, CANCEL]) == 1 && Places([BID]) == 1
  {
    assert [BID, ASK_CANCEL, CANCEL][1..] == [ASK_CANCEL, CANCEL];
    assert [ASK_CANCEL, CANCEL][1..] == [CANCEL];
    assert Places([CANCEL]) == 0;
  }

  lemma UnluckyPlaces()
    ensures Places(Unlucky()) == 2048
  {
    var middle := [BID, ASK_CANCEL, CANCEL];
    hide Repeated, Places;
    MiddlePlaces();
    RepeatedPlaces(BID, 1023);
    PlacesJoin(Repeated(BID, 1023), middle);
    PlacesJoin(Repeated(BID, 1023) + middle, Repeated(BID, 1023));
    PlacesJoin(Repeated(BID, 1023) + middle + Repeated(BID, 1023), [BID]);
  }
}
