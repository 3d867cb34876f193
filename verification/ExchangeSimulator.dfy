// The exchange as it keeps its state: two nested books and a redundant index.
// Every method is proved against module Matching.
module Exchange {
  import opened Types
  import opened SortedLevels
  import opened Matching
  import opened BookLevels
  import opened ReportBatch

  // ----- One turn of the crossing loop -----

  function Prefixed(log: seq<ExecutionReport>, s: Swept): Swept {
    s.(log := log + s.log)
  }

  function QueueAfter(queue: seq<Resting>, last: int): seq<Resting>
    requires queue != []
  {
    var order := Trade(queue[0], last);
    if order.remaining == 0 then queue[1..] else [order] + queue[1..]
  }

  lemma TurnOfSweep(start: Swept, log: seq<ExecutionReport>, queue: seq<Resting>,
                    req: GatewayRequest, id: nat, left: int, cum: int)
    requires left > 0 && queue != [] && Crosses(req.side, req.price, queue[0].price)
    requires queue[0].remaining > 0
    requires start == Prefixed(log, Sweep(queue, req, id, left, cum))
    ensures var last := Min(left, queue[0].remaining);
            var pair := TradePair(Trade(queue[0], last), last, req, id, cum + last, left - last);
            start == Prefixed(log + pair, Sweep(QueueAfter(queue, last), req, id, left - last, cum + last))
  {
  }

  lemma TurnKeepsSides(side: Side, own: seq<Resting>, queue: seq<Resting>, last: int, id: nat)
    requires SidesGood(side, own, queue, id) && queue != [] && 0 < last <= queue[0].remaining
    ensures SidesGood(side, own, QueueAfter(queue, last), id)
  {
    var queue' := QueueAfter(queue, last);
    assert RemnantQueue(queue', queue);
    RemnantsStayGood(Opposite(side), queue', queue, own, id);
    forall j | 0 <= j < |queue'| ensures queue'[j].price == queue[|queue| - |queue'| + j].price {
    }
  }

  lemma ClientsOfTail(queue: seq<Resting>)
    requires queue != []
    ensures Clients(queue) == {queue[0].clientOrderId} + Clients(queue[1..])
    ensures Distinct(queue) ==> queue[0].clientOrderId !in Clients(queue[1..])
  {
  }

  // Trading part of the best order leaves its index entry right; using it up means dropping the entry.
  lemma TurnKeepsIndex(index: map<nat, RestingIndex>, own: seq<Resting>, queue: seq<Resting>, last: int)
    requires Indexed(index, own, queue) && queue != [] && Distinct(queue) && Apart(own, queue)
    ensures Indexed(index, own, [Trade(queue[0], last)] + queue[1..])
    ensures Indexed(index - {queue[0].clientOrderId}, own, queue[1..])
  {
    var order := Trade(queue[0], last);
    ClientsOfTail(queue);
    ClientsOfTail([order] + queue[1..]);
    assert ([order] + queue[1..])[1..] == queue[1..];
    assert queue[0] in queue;
    forall r | r in own ensures r.clientOrderId != queue[0].clientOrderId {
    }
    forall r | r in queue[1..] ensures r in queue && r.clientOrderId in Clients(queue[1..]) {
    }
  }

  // What the crossing loop still has to do is what is left of `start`.
  ghost predicate OnCourse(start: Swept, log: seq<ExecutionReport>, queue: seq<Resting>,
                           req: GatewayRequest, id: nat, left: int, cum: int) {
    left >= 0 && start == Prefixed(log, Sweep(queue, req, id, left, cum))
  }

  lemma CourseStarts(log0: seq<ExecutionReport>, start: Swept)
    ensures log0 + [] == log0 && Prefixed([], start) == start
  {
  }

  lemma Regroup(a: seq<ExecutionReport>, b: seq<ExecutionReport>, c: seq<ExecutionReport>)
    ensures a + b + c == a + (b + c)
  {
  }

  lemma CourseEnds(start: Swept, log: seq<ExecutionReport>, queue: seq<Resting>,
                   req: GatewayRequest, id: nat, left: int, cum: int)
    requires OnCourse(start, log, queue, req, id, left, cum)
    requires left == 0 || queue == [] || !Crosses(req.side, req.price, queue[0].price)
    ensures start == Swept(queue, left, cum, log)
  {
  }

  // Everything one turn of the loop on the side opposite to `side` keeps.
  ghost predicate LoopOk(side: Side, own: seq<Resting>, book: Book, index: map<nat, RestingIndex>, id: nat) {
    && BookOk(Opposite(side), book)
    && SidesGood(side, own, Flatten(book), id)
    && Indexed(index, own, Flatten(book))
  }

  function BookAfter(book: Book, last: int): Book
    requires book != [] && book[0].value != []
  {
    var order := Trade(book[0].value[0], last);
    if order.remaining == 0 then WithoutBest(book) else WithBest(book, order)
  }

  function IndexAfter(index: map<nat, RestingIndex>, best: Resting, last: int): map<nat, RestingIndex> {
    if Trade(best, last).remaining == 0 then index - {best.clientOrderId} else index
  }

  lemma LoopBest(side: Side, own: seq<Resting>, book: Book, index: map<nat, RestingIndex>, id: nat)
    requires LoopOk(side, own, book, index, id)
    ensures Flatten(book) == [] <==> book == []
    ensures book != [] ==>
      && book[0].value != []
      && book[0].value[0] == Flatten(book)[0]
      && book[0].value[0].price == book[0].price
      && book[0].value[0].remaining > 0
  {
  }

  lemma LoopTurn(side: Side, own: seq<Resting>, book: Book, index: map<nat, RestingIndex>, id: nat, last: int)
    requires LoopOk(side, own, book, index, id)
    requires book != [] && book[0].value != [] && 0 < last <= book[0].value[0].remaining
    ensures var best := book[0].value[0];
            && LoopOk(side, own, BookAfter(book, last), IndexAfter(index, best, last), id)
            && Flatten(BookAfter(book, last)) == QueueAfter(Flatten(book), last)
  {
    var best := book[0].value[0];
    LoopBest(side, own, book, index, id);
    BestIsReplaced(Opposite(side), book, Trade(best, last));
    BestIsErased(Opposite(side), book);
    TurnKeepsSides(side, own, Flatten(book), last, id);
    hide Flatten, Indexed, GoodQueue, BookOk;
    TurnKeepsIndex(index, own, Flatten(book), last);
  }

  // ----- Before and after the loop -----

  ghost predicate BooksOk(bids: Book, asks: Book, index: map<nat, RestingIndex>) {
    BookOk(Buy, bids) && BookOk(Sell, asks) && Indexed(index, Flatten(bids), Flatten(asks))
  }

  lemma LoopOpens(side: Side, own: Book, opposite: Book, index: map<nat, RestingIndex>, m: Venue)
    requires m == if side == Buy then Venue(Flatten(own), Flatten(opposite), m.nextId)
                  else Venue(Flatten(opposite), Flatten(own), m.nextId)
    requires Inv(m) && BookOk(Opposite(side), opposite) && Indexed(index, m.bids, m.asks)
    ensures LoopOk(side, Flatten(own), opposite, index, m.nextId)
  {
  }

  // The index with an entry for an order that was just enqueued.
  lemma IndexedEnqueue(side: Side, index: map<nat, RestingIndex>, own: seq<Resting>, opposite: seq<Resting>,
                       order: Resting, id: nat)
    requires Indexed(index, own, opposite) && SidesGood(side, own, opposite, id)
    requires LiveOn(side, order, id + 1) && order.exchangeOrderId == id
    requires order.clientOrderId !in Clients(own) + Clients(opposite)
    ensures Indexed(index[order.clientOrderId := Entry(order)], Enqueue(side, own, order), opposite)
  {
    EnqueueStaysGood(side, own, order, opposite, id);
    var k, q := Rank(side, own, order.price), Enqueue(side, own, order);
    InsertedClients(q, own, k, order);
    forall r | r in q && r != order ensures r in own {
      var i :| 0 <= i < |q| && q[i] == r;
      assert i != k && q[i] == own[if i < k then i else i - 1];
    }
    assert forall r | r in own :: r.clientOrderId in Clients(own);
    assert forall r | r in opposite :: r.clientOrderId in Clients(opposite);
  }

  // What a method leaves behind when it is done with a new order from `m`.
  lemma LoopCloses(m: Venue, req: GatewayRequest, own: Book, opposite: Book, index: map<nat, RestingIndex>,
                   swept: Swept)
    requires Inv(m) && ValidNew(m, req) && Flatten(own) == m.On(req.side) && BookOk(req.side, own)
    requires swept == Sweep(m.On(Opposite(req.side)), req, m.nextId, req.quantity, 0)
    requires swept.queue == Flatten(opposite)
    requires LoopOk(req.side, Flatten(own), opposite, index, m.nextId)
    ensures var order := RestingOrder(req, m.nextId, swept.left);
            var own' := if swept.left > 0 then Append(req.side, own, order) else own;
            var index' := if swept.left > 0 then index[order.clientOrderId := Entry(order)] else index;
            var m' := ProcessNew(m, req).venue;
            && Flatten(own') == m'.On(req.side)
            && Flatten(opposite) == m'.On(Opposite(req.side))
            && m'.nextId == m.nextId + 1
            && BookOk(req.side, own') && BookOk(Opposite(req.side), opposite)
            && Inv(m')
            && Indexed(index', Flatten(own'), Flatten(opposite))
  {
    var side, id := req.side, m.nextId;
    var order := RestingOrder(req, id, swept.left);
    ProcessNewKeepsInv(m, req);
    InvBySides(side, m);
    SweptSidesGood(side, m.On(side), m.On(Opposite(side)), req, id);
    hide BookOk, GoodQueue, Distinct, Apart, Sweep, Flatten, Indexed, Append, Enqueue, Inv;
    if swept.left > 0 {
      AppendStaysOk(side, own, order);
      AppendEnqueues(side, own, order);
      IndexedEnqueue(side, index, Flatten(own), Flatten(opposite), order, id);
    }
  }

  lemma LogOfNew(m: Venue, req: GatewayRequest)
    requires ValidNew(m, req)
    ensures ProcessNew(m, req).log
         == [] + [AckReport(req, m.nextId)] + Sweep(m.On(Opposite(req.side)), req, m.nextId, req.quantity, 0).log
  {
  }

  lemma IndexedSwap(index: map<nat, RestingIndex>, a: seq<Resting>, b: seq<Resting>)
    ensures Indexed(index, a, b) <==> Indexed(index, b, a)
  {
  }

  // The same for the books as they stand on either side, with the whole log.
  lemma OrderSettles(m: Venue, req: GatewayRequest, bids: Book, asks: Book, index: map<nat, RestingIndex>,
                     swept: Swept)
    requires Inv(m) && ValidNew(m, req)
    requires swept == Sweep(m.On(Opposite(req.side)), req, m.nextId, req.quantity, 0)
    requires req.side == Buy ==>
      && Flatten(bids) == m.bids && BookOk(Buy, bids) && swept.queue == Flatten(asks)
      && LoopOk(Buy, m.bids, asks, index, m.nextId)
    requires req.side == Sell ==>
      && Flatten(asks) == m.asks && BookOk(Sell, asks) && swept.queue == Flatten(bids)
      && LoopOk(Sell, m.asks, bids, index, m.nextId)
    ensures var order := RestingOrder(req, m.nextId, swept.left);
            var bids' := if swept.left > 0 && req.side == Buy then Append(Buy, bids, order) else bids;
            var asks' := if swept.left > 0 && req.side == Sell then Append(Sell, asks, order) else asks;
            var index' := if swept.left > 0 then index[req.clientOrderId := Entry(order)] else index;
            && ProcessNew(m, req).venue == Venue(Flatten(bids'), Flatten(asks'), m.nextId + 1)
            && ProcessNew(m, req).log == [] + [AckReport(req, m.nextId)] + swept.log
            && Inv(ProcessNew(m, req).venue)
            && BooksOk(bids', asks', index')
  {
    LogOfNew(m, req);
    hide BookOk, Indexed, Inv, Sweep, LoopOk, Flatten, ValidNew, ProcessNew, Append, AckReport, Entry;
    if req.side == Buy {
      LoopCloses(m, req, bids, asks, index, swept);
    } else {
      LoopCloses(m, req, asks, bids, index, swept);
      var order := RestingOrder(req, m.nextId, swept.left);
      IndexedSwap(index, Flatten(bids), Flatten(asks));
      IndexedSwap(index[req.clientOrderId := Entry(order)], Flatten(bids), Flatten(Append(Sell, asks, order)));
    }
  }

  // ----- Through the index -----

  // The index leads to the node of a client's order: the level at its price exists, the node is in it,
  // and it is the order that the queue holds for that client.
  lemma IndexLeads(side: Side, book: Book, index: map<nat, RestingIndex>, other: seq<Resting>, clientId: nat)
    requires BookOk(side, book) && Distinct(Flatten(book)) && clientId in Clients(Flatten(book))
    requires Indexed(index, Flatten(book), other)
    ensures var queue := Flatten(book);
            var k := IndexOf(queue, clientId);
            && clientId in index && index[clientId] == Entry(queue[k])
            && var entry := index[clientId];
               var i := Seek(side, book, entry.price);
               && Has(side, book, entry.price)
               && var j := NodeAt(book[i].value, entry.node);
                  && j < |book[i].value|
                  && k == |Flatten(book[..i])| + j
                  && book[i].value[j] == queue[k]
                  && Flatten(EraseNode(book, i, j)) == Without(queue, k)
                  && BookOk(side, EraseNode(book, i, j))
  {
    hide BookOk, Flatten, EraseNode, Without;
    var queue := Flatten(book);
    var k := IndexOf(queue, clientId);
    assert queue[k] in queue;
    OrderHasLevel(side, book, queue[k]);
    var i := Seek(side, book, queue[k].price);
    var j := NodeAt(book[i].value, queue[k].exchangeOrderId);
    EraseNodeIsWithout(book, i, j);
    EraseNodeStaysOk(side, book, i, j);
  }

  lemma IndexedWithout(index: map<nat, RestingIndex>, queue: seq<Resting>, k: nat, other: seq<Resting>)
    requires Indexed(index, queue, other) && Distinct(queue) && Apart(queue, other) && k < |queue|
    ensures Indexed(index - {queue[k].clientOrderId}, Without(queue, k), other)
  {
  }

  // What erasing a client's order through the index does to the book of its side.
  function EraseEntry(side: Side, book: Book, entry: RestingIndex): Book {
    if Has(side, book, entry.price) then
      var i := Seek(side, book, entry.price);
      var j := NodeAt(book[i].value, entry.node);
      if j < |book[i].value| then EraseNode(book, i, j) else book
    else book
  }

  lemma RemoveOnSide(m: Venue, c: nat)
    ensures c in Clients(m.bids) ==> Remove(m, c) == m.(bids := Without(m.bids, IndexOf(m.bids, c)))
    ensures c !in Clients(m.bids) && c in Clients(m.asks) ==>
      Remove(m, c) == m.(asks := Without(m.asks, IndexOf(m.asks, c)))
    ensures c !in Clients(m.bids) + Clients(m.asks) ==> Remove(m, c) == m
  {
  }

  lemma EraseOnSide(side: Side, book: Book, index: map<nat, RestingIndex>, other: seq<Resting>, clientId: nat)
    requires BookOk(side, book) && Indexed(index, Flatten(book), other)
    requires Distinct(Flatten(book)) && Apart(Flatten(book), other)
    requires clientId in Clients(Flatten(book))
    requires forall i | 0 <= i < |Flatten(book)| :: Flatten(book)[i].side == side
    ensures var k, entry := IndexOf(Flatten(book), clientId), index[clientId];
            && entry.side == side
            && BookOk(side, EraseEntry(side, book, entry))
            && Flatten(EraseEntry(side, book, entry)) == Without(Flatten(book), k)
            && Indexed(index - {clientId}, Without(Flatten(book), k), other)
  {
    var queue := Flatten(book);
    var k := IndexOf(queue, clientId);
    assert queue[k] in queue;
    IndexLeads(side, book, index, other, clientId);
    IndexedWithout(index, queue, k, other);
  }

  lemma RemoveUnindexed(bids: Book, asks: Book, index: map<nat, RestingIndex>, m: Venue, c: nat)
    requires m == Venue(Flatten(bids), Flatten(asks), m.nextId) && BooksOk(bids, asks, index)
    ensures c !in index ==> Remove(m, c) == m
  {
  }

  lemma SidesAreApart(m: Venue)
    requires Inv(m)
    ensures Distinct(m.bids) && Distinct(m.asks) && Apart(m.bids, m.asks) && Apart(m.asks, m.bids)
    ensures forall i | 0 <= i < |m.bids| :: m.bids[i].side == Buy
    ensures forall i | 0 <= i < |m.asks| :: m.asks[i].side == Sell
  {
  }

  lemma IndexedIsOnSide(index: map<nat, RestingIndex>, a: seq<Resting>, b: seq<Resting>, c: nat)
    requires Indexed(index, a, b) && c in index
    ensures c in Clients(a) || c in Clients(b)
  {
  }

  lemma EraseKeepsValid(bids: Book, asks: Book, index: map<nat, RestingIndex>, m: Venue, c: nat)
    requires m == Venue(Flatten(bids), Flatten(asks), m.nextId) && Inv(m)
    requires BooksOk(bids, asks, index) && c in index
    ensures var entry := index[c];
            var bids' := if entry.side == Buy then EraseEntry(Buy, bids, entry) else bids;
            var asks' := if entry.side == Sell then EraseEntry(Sell, asks, entry) else asks;
            && Remove(m, c) == Venue(Flatten(bids'), Flatten(asks'), m.nextId)
            && Inv(Remove(m, c))
            && BooksOk(bids', asks', index - {c})
  {
    hide Inv, BookOk, Indexed, Flatten, EraseEntry, Without, Distinct, Apart, Clients, Remove, IndexOf;
    RemoveKeepsInv(m, c);
    RemoveOnSide(m, c);
    SidesAreApart(m);
    IndexedIsOnSide(index, m.bids, m.asks, c);
    if c in Clients(m.bids) {
      EraseOnSide(Buy, bids, index, m.asks, c);
    } else {
      IndexedSwap(index, m.bids, m.asks);
      EraseOnSide(Sell, asks, index, m.bids, c);
      IndexedSwap(index - {c}, m.bids, Without(m.asks, IndexOf(m.asks, c)));
    }
  }

  class ExchangeSimulator {
    var bids: Book
    var asks: Book
    var restingIndex: map<nat, RestingIndex>
    var nextExchangeOrderId: nat

    ghost function View(): Venue
      reads this
    {
      Venue(Flatten(bids), Flatten(asks), nextExchangeOrderId)
    }

    ghost predicate Valid()
      reads this
    {
      BooksOk(bids, asks, restingIndex) && Inv(View())
    }

    constructor ()
      ensures Valid() && View() == EMPTY_VENUE
    {
      bids, asks := [], [];
      restingIndex := map[];
      nextExchangeOrderId := 1;
    }

    method HasRestingOrder(clientId: nat) returns (found: bool)
      requires Valid()
      ensures found <==> clientId in Clients(View().bids) + Clients(View().asks)
    {
      found := clientId in restingIndex;
    }

    method ValidNewOrder(req: GatewayRequest) returns (valid: bool)
      requires Valid()
      ensures valid == ValidNew(View(), req)
    {
      valid := req.requestType == NewOrder && req.clientOrderId != 0
        && req.symbol != "" && req.orderType == Limit
        && req.price > 0 && req.quantity > 0
        && req.clientOrderId !in restingIndex;
    }

    // The two add_fill_report calls of one trade.
    static method AddTrade(batch: ExecutionReportBatch, resting: Resting, fill: int, req: GatewayRequest, id: nat,
                           cumulative: int, left: int, ghost log: seq<ExecutionReport>)
      requires batch.Valid() && batch.Contents() == Kept(log)
      modifies batch, batch.reports
      ensures batch.Valid()
      ensures batch.Contents() == Kept(log + TradePair(resting, fill, req, id, cumulative, left))
    {
      var forResting := FillReport(resting.clientOrderId, resting.exchangeOrderId, resting.symbol, resting.side,
                                   resting.price, fill, resting.filled, resting.remaining, req.sendTimestamp);
      var forIncoming := FillReport(req.clientOrderId, id, req.symbol, req.side,
                                    resting.price, fill, cumulative, left, req.sendTimestamp);
      batch.Add(forResting, log);
      batch.Add(forIncoming, log + [forResting]);
      assert log + [forResting] + [forIncoming] == log + TradePair(resting, fill, req, id, cumulative, left);
    }

    // One turn of that loop: the best ask trades as much as it can.
    method FillBestAsk(req: GatewayRequest, id: nat, batch: ExecutionReportBatch, left0: int, cumulative0: int,
                   ghost log: seq<ExecutionReport>, ghost own: seq<Resting>)
      returns (left: int, cumulative: int, ghost pair: seq<ExecutionReport>)
      requires left0 > 0 && asks != []
      requires LoopOk(Buy, own, asks, restingIndex, id)
      requires batch.Valid() && batch.Contents() == Kept(log)
      modifies this`asks, this`restingIndex, batch, batch.reports
      ensures batch.Valid() && batch.Contents() == Kept(log + pair)
      ensures LoopOk(Buy, own, asks, restingIndex, id)
      ensures var best := old(asks[0].value[0]);
              var last := Min(left0, best.remaining);
              && last > 0
              && left == left0 - last
              && cumulative == cumulative0 + last
              && pair == TradePair(Trade(best, last), last, req, id, cumulative, left)
              && Flatten(asks) == QueueAfter(old(Flatten(asks)), last)
    {
      LoopBest(Buy, own, asks, restingIndex, id);
      var level := asks[0].value;
      var fill := Min(left0, level[0].remaining);
      left := left0 - fill;
      cumulative := cumulative0 + fill;
      var resting := Trade(level[0], fill);
      LoopTurn(Buy, own, asks, restingIndex, id, fill);
      hide LoopOk, Flatten, Kept, QueueAfter, TradePair;
      asks := [Level(asks[0].price, [resting] + level[1..])] + asks[1..];
      AddTrade(batch, resting, fill, req, id, cumulative, left, log);
      pair := TradePair(resting, fill, req, id, cumulative, left);
      if resting.remaining == 0 {
        restingIndex := restingIndex - {resting.clientOrderId};
        level := level[1..];
        asks := if level == [] then asks[1..] else [Level(asks[0].price, level)] + asks[1..];
        assert asks == WithoutBest(old(asks));
      } else {
        assert asks == WithBest(old(asks), resting);
      }
    }

    // The loop of a buy order, over the asks.
    method SweepAsks(req: GatewayRequest, id: nat, batch: ExecutionReportBatch, ghost log0: seq<ExecutionReport>)
      returns (left: int, ghost log: seq<ExecutionReport>)
      requires req.side == Buy && req.quantity > 0
      requires LoopOk(Buy, Flatten(bids), asks, restingIndex, id)
      requires batch.Valid() && batch.Contents() == Kept(log0)
      modifies this`asks, this`restingIndex, batch, batch.reports
      ensures batch.Valid() && batch.Contents() == Kept(log0 + log)
      ensures LoopOk(Buy, Flatten(bids), asks, restingIndex, id)
      ensures var s := Sweep(old(Flatten(asks)), req, id, req.quantity, 0);
              s.queue == Flatten(asks) && s.left == left && s.log == log
    {
      left := req.quantity;
      log := [];
      var cumulative := 0;
      ghost var own := Flatten(bids);
      ghost var start := Sweep(Flatten(asks), req, id, req.quantity, 0);
      CourseStarts(log0, start);
      hide LoopOk, Flatten, Sweep, Kept, Trade, QueueAfter, TradePair, Prefixed;
      while left > 0 && asks != [] && asks[0].price <= req.price
        invariant LoopOk(Buy, own, asks, restingIndex, id)
        invariant OnCourse(start, log, Flatten(asks), req, id, left, cumulative)
        invariant batch.Valid() && batch.Contents() == Kept(log0 + log)
        decreases left
      {
        LoopBest(Buy, own, asks, restingIndex, id);
        TurnOfSweep(start, log, Flatten(asks), req, id, left, cumulative);
        ghost var pair;
        left, cumulative, pair := FillBestAsk(req, id, batch, left, cumulative, log0 + log, own);
        Regroup(log0, log, pair);
        log := log + pair;
      }
      LoopBest(Buy, own, asks, restingIndex, id);
      CourseEnds(start, log, Flatten(asks), req, id, left, cumulative);
    }

    // One turn of that loop: the best bid trades as much as it can.
    method FillBestBid(req: GatewayRequest, id: nat, batch: ExecutionReportBatch, left0: int, cumulative0: int,
                   ghost log: seq<ExecutionReport>, ghost own: seq<Resting>)
      returns (left: int, cumulative: int, ghost pair: seq<ExecutionReport>)
      requires left0 > 0 && bids != []
      requires LoopOk(Sell, own, bids, restingIndex, id)
      requires batch.Valid() && batch.Contents() == Kept(log)
      modifies this`bids, this`restingIndex, batch, batch.reports
      ensures batch.Valid() && batch.Contents() == Kept(log + pair)
      ensures LoopOk(Sell, own, bids, restingIndex, id)
      ensures var best := old(bids[0].value[0]);
              var last := Min(left0, best.remaining);
              && last > 0
              && left == left0 - last
              && cumulative == cumulative0 + last
              && pair == TradePair(Trade(best, last), last, req, id, cumulative, left)
              && Flatten(bids) == QueueAfter(old(Flatten(bids)), last)
    {
      LoopBest(Sell, own, bids, restingIndex, id);
      var level := bids[0].value;
      var fill := Min(left0, level[0].remaining);
      left := left0 - fill;
      cumulative := cumulative0 + fill;
      var resting := Trade(level[0], fill);
      LoopTurn(Sell, own, bids, restingIndex, id, fill);
      hide LoopOk, Flatten, Kept, QueueAfter, TradePair;
      bids := [Level(bids[0].price, [resting] + level[1..])] + bids[1..];
      AddTrade(batch, resting, fill, req, id, cumulative, left, log);
      pair := TradePair(resting, fill, req, id, cumulative, left);
      if resting.remaining == 0 {
        restingIndex := restingIndex - {resting.clientOrderId};
        level := level[1..];
        bids := if level == [] then bids[1..] else [Level(bids[0].price, level)] + bids[1..];
        assert bids == WithoutBest(old(bids));
      } else {
        assert bids == WithBest(old(bids), resting);
      }
    }

    // The loop of a sell order, over the bids.
    method SweepBids(req: GatewayRequest, id: nat, batch: ExecutionReportBatch, ghost log0: seq<ExecutionReport>)
      returns (left: int, ghost log: seq<ExecutionReport>)
      requires req.side == Sell && req.quantity > 0
      requires LoopOk(Sell, Flatten(asks), bids, restingIndex, id)
      requires batch.Valid() && batch.Contents() == Kept(log0)
      modifies this`bids, this`restingIndex, batch, batch.reports
      ensures batch.Valid() && batch.Contents() == Kept(log0 + log)
      ensures LoopOk(Sell, Flatten(asks), bids, restingIndex, id)
      ensures var s := Sweep(old(Flatten(bids)), req, id, req.quantity, 0);
              s.queue == Flatten(bids) && s.left == left && s.log == log
    {
      left := req.quantity;
      log := [];
      var cumulative := 0;
      ghost var own := Flatten(asks);
      ghost var start := Sweep(Flatten(bids), req, id, req.quantity, 0);
      CourseStarts(log0, start);
      hide LoopOk, Flatten, Sweep, Kept, Trade, QueueAfter, TradePair, Prefixed;
      while left > 0 && bids != [] && bids[0].price >= req.price
        invariant LoopOk(Sell, own, bids, restingIndex, id)
        invariant OnCourse(start, log, Flatten(bids), req, id, left, cumulative)
        invariant batch.Valid() && batch.Contents() == Kept(log0 + log)
        decreases left
      {
        LoopBest(Sell, own, bids, restingIndex, id);
        TurnOfSweep(start, log, Flatten(bids), req, id, left, cumulative);
        ghost var pair;
        left, cumulative, pair := FillBestBid(req, id, batch, left, cumulative, log0 + log, own);
        Regroup(log0, log, pair);
        log := log + pair;
      }
      LoopBest(Sell, own, bids, restingIndex, id);
      CourseEnds(start, log, Flatten(bids), req, id, left, cumulative);
    }

    method RestOrder(req: GatewayRequest, id: nat, remaining: int)
      modifies this`bids, this`asks, this`restingIndex
      ensures var order := RestingOrder(req, id, remaining);
              && bids == (if req.side == Buy then Append(Buy, old(bids), order) else old(bids))
              && asks == (if req.side == Sell then Append(Sell, old(asks), order) else old(asks))
              && restingIndex == old(restingIndex)[req.clientOrderId := Entry(order)]
    {
      var order := Resting(req.clientOrderId, id, req.symbol, req.side, req.price,
                           req.quantity - remaining, remaining, req.sendTimestamp);
      if req.side == Buy {
        var level := LevelAt(Buy, bids, req.price);
        bids := Put(Buy, bids, req.price, level + [order]);
      } else {
        var level := LevelAt(Sell, asks, req.price);
        asks := Put(Sell, asks, req.price, level + [order]);
      }
      restingIndex := restingIndex[req.clientOrderId := RestingIndex(req.side, req.price, id)];
    }

    // The part of process_new_order after validation.
    method AcceptNewOrder(req: GatewayRequest, batch: ExecutionReportBatch)
      requires Valid() && ValidNew(View(), req)
      requires batch.Valid() && batch.Contents() == Kept([])
      modifies this, batch, batch.reports
      ensures Valid()
      ensures View() == ProcessNew(old(View()), req).venue
      ensures batch.Valid() && batch.Contents() == Kept(ProcessNew(old(View()), req).log)
    {
      assert req.quantity > 0;
      hide BookOk, Indexed, Inv, Sweep, LoopOk, Flatten, Kept, ValidNew, ProcessNew, Append, AckReport, Entry;
      ghost var m := View();
      var id := nextExchangeOrderId;
      ghost var ack := [] + [AckReport(req, id)];
      nextExchangeOrderId := id + 1;
      batch.Add(AckReport(req, id), []);
      var left;
      ghost var log;
      if req.side == Buy {
        LoopOpens(Buy, bids, asks, restingIndex, m);
        left, log := SweepAsks(req, id, batch, ack);
      } else {
        LoopOpens(Sell, asks, bids, restingIndex, m);
        left, log := SweepBids(req, id, batch, ack);
      }
      hide BooksOk;
      OrderSettles(m, req, bids, asks, restingIndex, Sweep(m.On(Opposite(req.side)), req, id, req.quantity, 0));
      if left > 0 {
        RestOrder(req, id, left);
      }
    }

    method ProcessNewOrder(req: GatewayRequest) returns (batch: ExecutionReportBatch)
      requires Valid()
      modifies this
      ensures Valid()
      ensures View() == ProcessNew(old(View()), req).venue
      ensures fresh(batch) && fresh(batch.reports) && batch.Valid()
      ensures batch.Contents() == Kept(ProcessNew(old(View()), req).log)
    {
      batch := new ExecutionReportBatch();
      var valid := ValidNewOrder(req);
      hide Inv, BookOk, Indexed, Flatten, Sweep;
      if !valid {
        batch.Add(RejectReport(req), []);
      } else {
        AcceptNewOrder(req, batch);
      }
    }

    // The order that the index of a client leads to.
    ghost function RestingOf(clientId: nat): Resting
      requires Valid() && clientId in restingIndex
      reads this
    {
      var b, a := IndexOf(View().bids, clientId), IndexOf(View().asks, clientId);
      if b < |View().bids| then View().bids[b] else View().asks[a]
    }

    method Dereference(clientId: nat) returns (order: Resting)
      requires Valid() && clientId in restingIndex
      ensures order == RestingOf(clientId)
    {
      var index := restingIndex[clientId];
      var levels := if index.side == Buy then bids else asks;
      ghost var m, c := View(), clientId;
      assert Distinct(m.bids) && Distinct(m.asks);
      if c in Clients(m.bids) {
        IndexLeads(Buy, bids, restingIndex, Flatten(asks), c);
        assert m.bids[IndexOf(m.bids, c)] in m.bids;
      } else {
        IndexedSwap(restingIndex, Flatten(bids), Flatten(asks));
        IndexLeads(Sell, asks, restingIndex, Flatten(bids), c);
        assert m.asks[IndexOf(m.asks, c)] in m.asks;
      }
      var level := levels[Seek(index.side, levels, index.price)].value;
      order := level[NodeAt(level, index.node)];
    }

    method RestingQuantity(clientId: nat) returns (quantity: int)
      requires Valid()
      ensures quantity == if clientId in Clients(View().bids) + Clients(View().asks)
                          then RestingOf(clientId).remaining else 0
    {
      if clientId !in restingIndex {
        return 0;
      }
      var order := Dereference(clientId);
      quantity := order.remaining;
    }

    method EraseRestingOrder(clientId: nat)
      requires Valid()
      modifies this
      ensures Valid()
      ensures View() == Remove(old(View()), clientId)
    {
      hide Flatten, Remove, EraseEntry, Inv, BooksOk;
      ghost var m := View();
      RemoveUnindexed(bids, asks, restingIndex, m, clientId);
      if clientId !in restingIndex {
        return;
      }
      EraseKeepsValid(bids, asks, restingIndex, m, clientId);
      var index := restingIndex[clientId];
      if index.side == Buy {
        bids := EraseEntry(Buy, bids, index);
      } else {
        asks := EraseEntry(Sell, asks, index);
      }
      restingIndex := restingIndex - {clientId};
    }

    method ProcessCancelOrder(req: GatewayRequest) returns (batch: ExecutionReportBatch)
      requires Valid()
      modifies this
      ensures Valid()
      ensures View() == ProcessCancel(old(View()), req).venue
      ensures fresh(batch) && fresh(batch.reports) && batch.Valid()
      ensures batch.Contents() == Kept(ProcessCancel(old(View()), req).log)
    {
      batch := new ExecutionReportBatch();
      ghost var m := View();
      assert restingIndex.Keys == Clients(m.bids) + Clients(m.asks);
      RemoveOnSide(m, req.clientOrderId);
      hide Valid, Flatten, Kept, Clients, CancelAckReport, CancelRejectReport, Remove;
      if req.clientOrderId !in restingIndex {
        batch.Add(CancelRejectReport(req), []);
        return;
      }
      var order := Dereference(req.clientOrderId);
      batch.Add(CancelAckReport(order, req.sendTimestamp), []);
      EraseRestingOrder(req.clientOrderId);
    }

    method Process(req: GatewayRequest) returns (batch: ExecutionReportBatch)
      requires Valid()
      modifies this
      ensures Valid()
      ensures View() == Matching.Process(old(View()), req).venue
      ensures fresh(batch) && fresh(batch.reports) && batch.Valid()
      ensures batch.Contents() == Kept(Matching.Process(old(View()), req).log)
    {
      hide Inv, BookOk, Indexed, Flatten;
      if req.requestType == CancelOrder {
        batch := ProcessCancelOrder(req);
      } else {
        batch := ProcessNewOrder(req);
      }
    }
  }
}
