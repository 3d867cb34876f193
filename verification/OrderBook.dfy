// The market-data order book: live orders, and price levels kept beside them (src/md/order_book.cpp).
module MarketBook {
  import opened Types
  import opened Sums
  import opened SortedLevels

  datatype EventType = Add | Modify | Cancel | Trade

  datatype MarketDataEvent = MarketDataEvent(
    sequenceNumber: nat,
    orderId: nat,
    symbol: Symbol,
    exchangeTimestamp: nat,
    receiveTimestamp: nat,
    eventType: EventType,
    side: Side,
    price: int,
    quantity: int)

  datatype BookOrder = BookOrder(id: nat, side: Side, price: int, quantity: int)

  type Orders = map<nat, BookOrder>

  // ----- What an event does to the live orders -----

  predicate Applies(orders: Orders, e: MarketDataEvent) {
    match e.eventType
    case Add => e.orderId != 0 && e.price > 0 && e.quantity > 0 && e.orderId !in orders
    case Modify => e.price > 0 && e.quantity > 0 && e.orderId in orders
    case Cancel => e.orderId in orders
    case Trade => e.quantity > 0 && e.orderId in orders
  }

  function OrderOf(e: MarketDataEvent): BookOrder {
    BookOrder(e.orderId, e.side, e.price, e.quantity)
  }

  function After(orders: Orders, e: MarketDataEvent): Orders {
    if !Applies(orders, e) then orders
    else match e.eventType
      case Add => orders[e.orderId := OrderOf(e)]
      case Modify => orders[e.orderId := OrderOf(e)]
      case Cancel => orders - {e.orderId}
      case Trade =>
        var o := orders[e.orderId];
        if o.quantity <= e.quantity then orders - {e.orderId}
        else orders[e.orderId := o.(quantity := o.quantity - e.quantity)]
  }

  predicate LiveOrders(orders: Orders) {
    forall id | id in orders :: id != 0 && orders[id].id == id && orders[id].price > 0 && orders[id].quantity > 0
  }

  // ----- What the levels mean -----

  ghost function AtLevel(side: Side, price: int): BookOrder -> int {
    (o: BookOrder) => if o.side == side && o.price == price then o.quantity else 0
  }

  // The quantity of all live orders at a side and price.
  ghost function Depth(orders: Orders, side: Side, price: int): int {
    Sum(orders, AtLevel(side, price))
  }

  function ValueAt(side: Side, levels: seq<Level<int>>, price: int): int {
    if Has(side, levels, price) then levels[Seek(side, levels, price)].value else 0
  }

  // A level stands exactly where some order does, and holds the sum of the orders there.
  ghost predicate Agrees(side: Side, levels: seq<Level<int>>, orders: Orders) {
    && Ordered(side, levels)
    && (forall i | 0 <= i < |levels| :: levels[i].value > 0)
    && (forall price :: ValueAt(side, levels, price) == Depth(orders, side, price))
  }

  // ----- Moving one level -----

  function AddTo(side: Side, levels: seq<Level<int>>, price: int, quantity: int): seq<Level<int>> {
    Put(side, levels, price, ValueAt(side, levels, price) + quantity)
  }

  function RemoveFrom(side: Side, levels: seq<Level<int>>, price: int, quantity: int): seq<Level<int>> {
    if !Has(side, levels, price) then levels
    else
      var i := Seek(side, levels, price);
      var left := levels[i].value - quantity;
      if left <= 0 then Erase(levels, i) else levels[i := Level(price, left)]
  }

  lemma ValueIs(side: Side, levels: seq<Level<int>>, k: nat)
    requires Ordered(side, levels) && k < |levels|
    ensures Has(side, levels, levels[k].price) && ValueAt(side, levels, levels[k].price) == levels[k].value
  {
    SeekFinds(side, levels, k);
  }

  lemma NoValue(side: Side, levels: seq<Level<int>>, price: int)
    requires forall i | 0 <= i < |levels| :: levels[i].price != price
    ensures !Has(side, levels, price) && ValueAt(side, levels, price) == 0
  {
  }

  // The only entries of `changed` and `levels` that may differ are those at `price`.
  ghost predicate SameElsewhere(levels: seq<Level<int>>, changed: seq<Level<int>>, price: int) {
    && (forall l | l in levels && l.price != price :: l in changed)
    && (forall l | l in changed && l.price != price :: l in levels)
  }

  lemma ElsewhereUnchanged(side: Side, levels: seq<Level<int>>, changed: seq<Level<int>>, price: int, other: int)
    requires Ordered(side, levels) && Ordered(side, changed) && SameElsewhere(levels, changed, price) && other != price
    ensures ValueAt(side, changed, other) == ValueAt(side, levels, other)
  {
    if i :| 0 <= i < |levels| && levels[i].price == other {
      assert levels[i] in changed;
      var j :| 0 <= j < |changed| && changed[j] == levels[i];
      ValueIs(side, levels, i);
      ValueIs(side, changed, j);
    } else {
      assert forall j | 0 <= j < |changed| :: changed[j] in changed;
      NoValue(side, levels, other);
      NoValue(side, changed, other);
    }
  }

  lemma PutChangesOne(side: Side, levels: seq<Level<int>>, price: int, value: int)
    requires Ordered(side, levels)
    ensures var changed := Put(side, levels, price, value);
            && Ordered(side, changed)
            && ValueAt(side, changed, price) == value
            && forall other :: other != price ==> ValueAt(side, changed, other) == ValueAt(side, levels, other)
  {
    var changed, k := Put(side, levels, price, value), Seek(side, levels, price);
    PutStaysOrdered(side, levels, price, value);
    SeekSplits(side, levels, price);
    assert changed[k] == Level(price, value);
    ValueIs(side, changed, k);
    PutElsewhere(side, levels, price, value);
    forall other | other != price ensures ValueAt(side, changed, other) == ValueAt(side, levels, other) {
      ElsewhereUnchanged(side, levels, changed, price, other);
    }
  }

  lemma PutElsewhere(side: Side, levels: seq<Level<int>>, price: int, value: int)
    requires Ordered(side, levels)
    ensures SameElsewhere(levels, Put(side, levels, price, value), price)
  {
  }

  lemma EraseChangesOne(side: Side, levels: seq<Level<int>>, k: nat)
    requires Ordered(side, levels) && k < |levels|
    ensures var changed, price := Erase(levels, k), levels[k].price;
            && Ordered(side, changed)
            && ValueAt(side, changed, price) == 0
            && forall other :: other != price ==> ValueAt(side, changed, other) == ValueAt(side, levels, other)
  {
    var changed, price := Erase(levels, k), levels[k].price;
    EraseStaysOrdered(side, levels, k);
    forall i | 0 <= i < |changed| ensures changed[i].price != price && changed[i] in levels {
      assert changed[i] == levels[if i < k then i else i + 1];
    }
    forall i | 0 <= i < |levels| && i != k ensures levels[i] in changed {
      assert changed[if i < k then i else i - 1] == levels[i];
    }
    NoValue(side, changed, price);
    assert SameElsewhere(levels, changed, price);
    forall other | other != price ensures ValueAt(side, changed, other) == ValueAt(side, levels, other) {
      ElsewhereUnchanged(side, levels, changed, price, other);
    }
  }

  // ----- Keeping the levels in agreement -----

  lemma {:induction false} DepthIsNonNegative(orders: Orders, keys: set<nat>, side: Side, price: int)
    requires LiveOrders(orders) && keys <= orders.Keys
    ensures SumOver(orders, keys, AtLevel(side, price)) >= 0
    ensures forall id | id in keys ::
      AtLevel(side, price)(orders[id]) <= SumOver(orders, keys, AtLevel(side, price))
    ensures SumOver(orders, keys, AtLevel(side, price)) > 0 ==>
      exists id :: id in keys && orders[id].side == side && orders[id].price == price
    decreases keys
  {
    if keys != {} {
      var first :| first in keys;
      SumPick(orders, keys, AtLevel(side, price), first);
      DepthIsNonNegative(orders, keys - {first}, side, price);
    }
  }

  lemma OrderIsInDepth(orders: Orders, id: nat)
    requires LiveOrders(orders) && id in orders
    ensures 0 < orders[id].quantity <= Depth(orders, orders[id].side, orders[id].price)
  {
    DepthIsNonNegative(orders, orders.Keys, orders[id].side, orders[id].price);
    assert AtLevel(orders[id].side, orders[id].price)(orders[id]) == orders[id].quantity;
  }

  // Setting or removing one order moves only the depths of its old and its new place.
  lemma DepthPut(orders: Orders, id: nat, o: BookOrder, side: Side, price: int)
    ensures Depth(orders[id := o], side, price) == Depth(orders, side, price) + AtLevel(side, price)(o)
              - (if id in orders then AtLevel(side, price)(orders[id]) else 0)
  {
    SumPut(orders, AtLevel(side, price), id, o);
  }

  lemma DepthRemove(orders: Orders, id: nat, side: Side, price: int)
    requires id in orders
    ensures Depth(orders - {id}, side, price) == Depth(orders, side, price) - AtLevel(side, price)(orders[id])
  {
    DepthPut(orders - {id}, id, orders[id], side, price);
    assert (orders - {id})[id := orders[id]] == orders;
  }

  // `levels` with `change` more at one price, and nothing where nothing is left.
  ghost predicate Shifted(side: Side, levels: seq<Level<int>>, after: seq<Level<int>>, price: int, change: int) {
    && Ordered(side, after)
    && (forall i | 0 <= i < |after| :: after[i].value > 0)
    && ValueAt(side, after, price) == ValueAt(side, levels, price) + change
    && (forall other :: other != price ==> ValueAt(side, after, other) == ValueAt(side, levels, other))
  }

  ghost predicate Standing(side: Side, levels: seq<Level<int>>) {
    Ordered(side, levels) && forall i | 0 <= i < |levels| :: levels[i].value > 0
  }

  lemma ValuesStand(side: Side, levels: seq<Level<int>>, price: int)
    requires Standing(side, levels)
    ensures ValueAt(side, levels, price) >= 0
    ensures Has(side, levels, price) <==> ValueAt(side, levels, price) > 0
  {
  }

  lemma AddShifts(side: Side, levels: seq<Level<int>>, price: int, quantity: int)
    requires Standing(side, levels) && quantity > 0
    ensures Shifted(side, levels, AddTo(side, levels, price, quantity), price, quantity)
  {
    ValuesStand(side, levels, price);
    PutChangesOne(side, levels, price, ValueAt(side, levels, price) + quantity);
    var after := AddTo(side, levels, price, quantity);
    var k := Seek(side, levels, price);
    forall i | 0 <= i < |after| ensures after[i].value > 0 {
      if i != k {
        assert after[i] == levels[if i < k || Has(side, levels, price) then i else i - 1];
      }
    }
  }

  lemma EraseShifts(side: Side, levels: seq<Level<int>>, k: nat)
    requires Standing(side, levels) && k < |levels|
    ensures Shifted(side, levels, Erase(levels, k), levels[k].price, -levels[k].value)
  {
    EraseChangesOne(side, levels, k);
    ValueIs(side, levels, k);
    var after := Erase(levels, k);
    forall i | 0 <= i < |after| ensures after[i].value > 0 {
      assert after[i] == levels[if i < k then i else i + 1];
    }
  }

  lemma RemoveShifts(side: Side, levels: seq<Level<int>>, price: int, quantity: int)
    requires Standing(side, levels) && 0 < quantity <= ValueAt(side, levels, price)
    ensures Shifted(side, levels, RemoveFrom(side, levels, price, quantity), price, -quantity)
  {
    var k := Seek(side, levels, price);
    var left := levels[k].value - quantity;
    if left <= 0 {
      EraseShifts(side, levels, k);
    } else {
      PutChangesOne(side, levels, price, left);
    }
  }

  lemma ShiftAgrees(side: Side, levels: seq<Level<int>>, after: seq<Level<int>>, price: int, change: int,
                    orders: Orders, orders': Orders)
    requires Agrees(side, levels, orders) && Shifted(side, levels, after, price, change)
    requires Depth(orders', side, price) == Depth(orders, side, price) + change
    requires forall other :: other != price ==> Depth(orders', side, other) == Depth(orders, side, other)
    ensures Agrees(side, after, orders')
  {
  }

  ghost predicate BothAgree(bids: seq<Level<int>>, asks: seq<Level<int>>, orders: Orders) {
    Agrees(Buy, bids, orders) && Agrees(Sell, asks, orders)
  }

  function AddSide(side: Side, on: Side, levels: seq<Level<int>>, price: int, quantity: int): seq<Level<int>> {
    if side == on then AddTo(side, levels, price, quantity) else levels
  }

  function RemoveSide(side: Side, on: Side, levels: seq<Level<int>>, price: int, quantity: int): seq<Level<int>> {
    if side == on then RemoveFrom(side, levels, price, quantity) else levels
  }

  lemma OtherSideAgrees(side: Side, levels: seq<Level<int>>, orders: Orders, orders': Orders)
    requires Agrees(side, levels, orders)
    requires forall price :: Depth(orders', side, price) == Depth(orders, side, price)
    ensures Agrees(side, levels, orders')
  {
  }

  lemma AddAgrees(side: Side, levels: seq<Level<int>>, orders: Orders, id: nat, o: BookOrder)
    requires Agrees(side, levels, orders) && id !in orders && o.quantity > 0
    ensures Agrees(side, AddSide(side, o.side, levels, o.price, o.quantity), orders[id := o])
  {
    var orders' := orders[id := o];
    forall price
      ensures Depth(orders', side, price)
           == Depth(orders, side, price) + (if side == o.side && price == o.price then o.quantity else 0)
    {
      DepthPut(orders, id, o, side, price);
    }
    hide Depth;
    if side == o.side {
      AddShifts(side, levels, o.price, o.quantity);
      ShiftAgrees(side, levels, AddTo(side, levels, o.price, o.quantity), o.price, o.quantity, orders, orders');
    } else {
      OtherSideAgrees(side, levels, orders, orders');
    }
  }

  lemma RemoveAgrees(side: Side, levels: seq<Level<int>>, orders: Orders, id: nat)
    requires Agrees(side, levels, orders) && LiveOrders(orders) && id in orders
    ensures var o := orders[id];
            Agrees(side, RemoveSide(side, o.side, levels, o.price, o.quantity), orders - {id})
  {
    var o, orders' := orders[id], orders - {id};
    forall price
      ensures Depth(orders', side, price)
           == Depth(orders, side, price) - (if side == o.side && price == o.price then o.quantity else 0)
    {
      DepthRemove(orders, id, side, price);
    }
    OrderIsInDepth(orders, id);
    hide Depth;
    if side == o.side {
      RemoveShifts(side, levels, o.price, o.quantity);
      ShiftAgrees(side, levels, RemoveFrom(side, levels, o.price, o.quantity), o.price, -o.quantity, orders, orders');
    } else {
      OtherSideAgrees(side, levels, orders, orders');
    }
  }

  lemma ReduceAgrees(side: Side, levels: seq<Level<int>>, orders: Orders, id: nat, traded: int)
    requires Agrees(side, levels, orders) && LiveOrders(orders) && id in orders
    requires 0 < traded < orders[id].quantity
    ensures var o := orders[id];
            Agrees(side, RemoveSide(side, o.side, levels, o.price, traded),
                   orders[id := o.(quantity := o.quantity - traded)])
  {
    var o := orders[id];
    var o' := o.(quantity := o.quantity - traded);
    var orders' := orders[id := o'];
    forall price
      ensures Depth(orders', side, price)
           == Depth(orders, side, price) - (if side == o.side && price == o.price then traded else 0)
    {
      DepthPut(orders, id, o', side, price);
    }
    OrderIsInDepth(orders, id);
    hide Depth;
    if side == o.side {
      RemoveShifts(side, levels, o.price, traded);
      ShiftAgrees(side, levels, RemoveFrom(side, levels, o.price, traded), o.price, -traded, orders, orders');
    } else {
      OtherSideAgrees(side, levels, orders, orders');
    }
  }

  // ----- What the levels determine -----

  // The levels are a function of the live orders: no two different books agree with the same orders.
  lemma {:induction false} LevelsAreDetermined(side: Side, a: seq<Level<int>>, b: seq<Level<int>>)
    requires Standing(side, a) && Standing(side, b)
    requires forall price :: ValueAt(side, a, price) == ValueAt(side, b, price)
    ensures a == b
  {
    if a == [] {
      if b != [] {
        ValueIs(side, b, 0);
        NoValue(side, a, b[0].price);
      }
    } else if b == [] {
      ValueIs(side, a, 0);
      NoValue(side, b, a[0].price);
    } else {
      FirstLevelsMatch(side, a, b);
      forall price ensures ValueAt(side, a[1..], price) == ValueAt(side, b[1..], price) {
        ValueOfTail(side, a, price);
        ValueOfTail(side, b, price);
      }
      LevelsAreDetermined(side, a[1..], b[1..]);
      assert a == [a[0]] + a[1..] && b == [b[0]] + b[1..];
    }
  }

  lemma LevelExists(side: Side, levels: seq<Level<int>>, price: int)
    requires Standing(side, levels) && ValueAt(side, levels, price) != 0
    ensures levels != [] && (levels[0].price == price || Better(side, levels[0].price, price))
  {
  }

  lemma FirstLevelsMatch(side: Side, a: seq<Level<int>>, b: seq<Level<int>>)
    requires Standing(side, a) && Standing(side, b) && a != [] && b != []
    requires forall price :: ValueAt(side, a, price) == ValueAt(side, b, price)
    ensures a[0] == b[0]
  {
    ValueIs(side, a, 0);
    ValueIs(side, b, 0);
    LevelExists(side, b, a[0].price);
    LevelExists(side, a, b[0].price);
  }

  lemma ValueOfTail(side: Side, levels: seq<Level<int>>, price: int)
    requires Standing(side, levels) && levels != []
    ensures Standing(side, levels[1..])
    ensures ValueAt(side, levels[1..], price) == if price == levels[0].price then 0 else ValueAt(side, levels, price)
  {
  }

  // Two books that agree with the same orders are the same book.
  lemma BooksAreDetermined(bids: seq<Level<int>>, asks: seq<Level<int>>,
                           bids': seq<Level<int>>, asks': seq<Level<int>>, orders: Orders)
    requires BothAgree(bids, asks, orders) && BothAgree(bids', asks', orders)
    ensures bids == bids' && asks == asks'
  {
    LevelsAreDetermined(Buy, bids, bids');
    LevelsAreDetermined(Sell, asks, asks');
  }

  // A valid modify is a cancel followed by an add under the same id; so, the levels being determined by the
  // orders, it leaves the same book.
  lemma ModifyIsCancelThenAdd(orders: Orders, e: MarketDataEvent)
    requires LiveOrders(orders) && e.eventType == Modify && Applies(orders, e)
    ensures var canceled := After(orders, e.(eventType := Cancel));
            && Applies(orders, e.(eventType := Cancel))
            && Applies(canceled, e.(eventType := Add))
            && After(canceled, e.(eventType := Add)) == After(orders, e)
  {
  }

  // So whatever books agree with the orders after a modify, and after a cancel and an add, they are the same book.
  lemma ModifyLeavesTheSameBook(orders: Orders, e: MarketDataEvent,
                                bids: seq<Level<int>>, asks: seq<Level<int>>,
                                bids': seq<Level<int>>, asks': seq<Level<int>>)
    requires LiveOrders(orders) && e.eventType == Modify && Applies(orders, e)
    requires BothAgree(bids, asks, After(orders, e))
    requires BothAgree(bids', asks', After(After(orders, e.(eventType := Cancel)), e.(eventType := Add)))
    ensures bids == bids' && asks == asks'
  {
    hide BothAgree, After, Applies;
    ModifyIsCancelThenAdd(orders, e);
    BooksAreDetermined(bids, asks, bids', asks', After(orders, e));
  }

  // The first level is at the best price of any live order.
  lemma FirstLevelIsBest(side: Side, levels: seq<Level<int>>, orders: Orders)
    requires Agrees(side, levels, orders) && LiveOrders(orders)
    ensures forall id | id in orders && orders[id].side == side ::
      levels != [] && !Better(side, orders[id].price, levels[0].price)
    ensures levels != [] ==> levels[0].price > 0
    ensures levels != [] ==>
      exists id :: id in orders && orders[id].side == side && orders[id].price == levels[0].price
  {
    forall id | id in orders && orders[id].side == side
      ensures levels != [] && !Better(side, orders[id].price, levels[0].price)
    {
      OrderIsInDepth(orders, id);
      LevelExists(side, levels, orders[id].price);
    }
    if levels != [] {
      ValueIs(side, levels, 0);
      DepthIsNonNegative(orders, orders.Keys, side, levels[0].price);
    }
    hide Depth;
  }

  // A modify takes the order off its old level and puts it on its new one.
  lemma ModifyAgrees(bids: seq<Level<int>>, asks: seq<Level<int>>, orders: Orders, e: MarketDataEvent)
    requires BothAgree(bids, asks, orders) && LiveOrders(orders)
    requires e.eventType == Modify && e.price > 0 && e.quantity > 0 && e.orderId in orders
    ensures var o := orders[e.orderId];
            && After(orders, e) == orders[e.orderId := OrderOf(e)]
            && LiveOrders(orders[e.orderId := OrderOf(e)])
            && BothAgree(
                 AddSide(Buy, e.side, RemoveSide(Buy, o.side, bids, o.price, o.quantity), e.price, e.quantity),
                 AddSide(Sell, e.side, RemoveSide(Sell, o.side, asks, o.price, o.quantity), e.price, e.quantity),
                 orders[e.orderId := OrderOf(e)])
  {
    hide Agrees, RemoveSide, AddSide;
    var o, others := orders[e.orderId], orders - {e.orderId};
    RemoveAgrees(Buy, bids, orders, e.orderId);
    RemoveAgrees(Sell, asks, orders, e.orderId);
    ReplaceIsRemoveAndAdd(orders, e.orderId, OrderOf(e));
    AddAgrees(Buy, RemoveSide(Buy, o.side, bids, o.price, o.quantity), others, e.orderId, OrderOf(e));
    AddAgrees(Sell, RemoveSide(Sell, o.side, asks, o.price, o.quantity), others, e.orderId, OrderOf(e));
  }

  // A trade takes what it trades off the order and off its level, and the order with it when nothing is left.
  lemma TradeAgrees(bids: seq<Level<int>>, asks: seq<Level<int>>, orders: Orders, e: MarketDataEvent)
    requires BothAgree(bids, asks, orders) && LiveOrders(orders)
    requires e.eventType == Trade && e.quantity > 0 && e.orderId in orders
    ensures var o := orders[e.orderId];
            var traded := Min(o.quantity, e.quantity);
            var left := o.(quantity := o.quantity - traded);
            var orders' := if left.quantity == 0 then orders[e.orderId := left] - {e.orderId}
                           else orders[e.orderId := left];
            && After(orders, e) == orders'
            && LiveOrders(orders')
            && BothAgree(RemoveSide(Buy, o.side, bids, o.price, traded),
                         RemoveSide(Sell, o.side, asks, o.price, traded), orders')
  {
    var o := orders[e.orderId];
    var traded := Min(o.quantity, e.quantity);
    if traded < o.quantity {
      ReduceAgrees(Buy, bids, orders, e.orderId, traded);
      ReduceAgrees(Sell, asks, orders, e.orderId, traded);
    } else {
      RemoveAgrees(Buy, bids, orders, e.orderId);
      RemoveAgrees(Sell, asks, orders, e.orderId);
      RemoveReplaced(orders, e.orderId, o.(quantity := 0));
    }
    hide Agrees, RemoveFrom;
  }

  predicate IsBest(side: Side, orders: Orders, id: nat) {
    && id in orders && orders[id].side == side
    && (forall other | other in orders && orders[other].side == side ::
          !Better(side, orders[other].price, orders[id].price))
  }

  // The best price of any live order on a side, or zero.
  ghost function BestPrice(side: Side, orders: Orders): int {
    if exists id :: IsBest(side, orders, id) then
      var id :| IsBest(side, orders, id);
      orders[id].price
    else 0
  }

  lemma FirstLevelHasBestPrice(side: Side, levels: seq<Level<int>>, orders: Orders)
    requires Agrees(side, levels, orders) && LiveOrders(orders)
    ensures BestPrice(side, orders) == if levels == [] then 0 else levels[0].price
    ensures levels == [] <==> BestPrice(side, orders) == 0
  {
    FirstLevelIsBest(side, levels, orders);
    hide Agrees;
    if levels != [] {
      var id :| id in orders && orders[id].side == side && orders[id].price == levels[0].price;
      assert IsBest(side, orders, id);
    }
  }

  function Top(levels: seq<Level<int>>, depth: nat): seq<Level<int>> {
    if |levels| <= depth then levels else levels[..depth]
  }

  // The top levels are in strict price order, each holds the sum of the live orders at its price, and every
  // live order is at one of them or at a worse price than all of them.
  lemma TopLevelsAreBest(side: Side, levels: seq<Level<int>>, orders: Orders, depth: nat)
    requires Agrees(side, levels, orders) && LiveOrders(orders)
    ensures var top := Top(levels, depth);
            && Ordered(side, top)
            && (forall i | 0 <= i < |top| :: top[i].value == Depth(orders, side, top[i].price))
            && (forall id | id in orders && orders[id].side == side ::
                  || (exists i :: 0 <= i < |top| && top[i].price == orders[id].price)
                  || (|top| == depth && forall i | 0 <= i < |top| :: Better(side, top[i].price, orders[id].price)))
  {
    var top := Top(levels, depth);
    forall i | 0 <= i < |top| ensures top[i].value == Depth(orders, side, top[i].price) {
      ValueIs(side, levels, i);
    }
    forall id | id in orders && orders[id].side == side
      ensures || (exists i :: 0 <= i < |top| && top[i].price == orders[id].price)
              || (|top| == depth && forall i | 0 <= i < |top| :: Better(side, top[i].price, orders[id].price))
    {
      OrderIsInDepth(orders, id);
      assert Has(side, levels, orders[id].price) by {
        ValuesStand(side, levels, orders[id].price);
      }
      var k := Seek(side, levels, orders[id].price);
      if k < |top| {
        assert top[k].price == orders[id].price;
      } else {
        assert forall i | 0 <= i < |top| :: Better(side, levels[i].price, levels[k].price);
      }
    }
  }

  class OrderBook {
    var orders: Orders
    var bids: seq<Level<int>>
    var asks: seq<Level<int>>

    ghost predicate Valid()
      reads this
    {
      LiveOrders(orders) && BothAgree(bids, asks, orders)
    }

    constructor ()
      ensures Valid() && orders == map[]
    {
      orders, bids, asks := map[], [], [];
    }

    method AddQuantity(side: Side, price: int, quantity: int)
      modifies this`bids, this`asks
      ensures bids == if side == Buy then AddTo(Buy, old(bids), price, quantity) else old(bids)
      ensures asks == if side == Sell then AddTo(Sell, old(asks), price, quantity) else old(asks)
    {
      if side == Buy {
        bids := Put(Buy, bids, price, ValueAt(Buy, bids, price) + quantity);
        return;
      }
      asks := Put(Sell, asks, price, ValueAt(Sell, asks, price) + quantity);
    }

    method RemoveQuantity(side: Side, price: int, quantity: int)
      modifies this`bids, this`asks
      ensures bids == if side == Buy then RemoveFrom(Buy, old(bids), price, quantity) else old(bids)
      ensures asks == if side == Sell then RemoveFrom(Sell, old(asks), price, quantity) else old(asks)
    {
      if side == Buy {
        if !Has(Buy, bids, price) {
          return;
        }
        var i := Seek(Buy, bids, price);
        bids := bids[i := Level(price, bids[i].value - quantity)];
        if bids[i].value <= 0 {
          bids := Erase(bids, i);
        }
        return;
      }
      if !Has(Sell, asks, price) {
        return;
      }
      var i := Seek(Sell, asks, price);
      asks := asks[i := Level(price, asks[i].value - quantity)];
      if asks[i].value <= 0 {
        asks := Erase(asks, i);
      }
    }

    method HasBid() returns (has: bool)
      requires Valid()
      ensures has <==> BestPrice(Buy, orders) != 0
      ensures has <==> exists id :: id in orders && orders[id].side == Buy
    {
      FirstLevelIsBest(Buy, bids, orders);
      FirstLevelHasBestPrice(Buy, bids, orders);
      has := bids != [];
    }

    method HasAsk() returns (has: bool)
      requires Valid()
      ensures has <==> BestPrice(Sell, orders) != 0
      ensures has <==> exists id :: id in orders && orders[id].side == Sell
    {
      FirstLevelIsBest(Sell, asks, orders);
      FirstLevelHasBestPrice(Sell, asks, orders);
      has := asks != [];
    }

    method BestBid() returns (price: int)
      requires Valid()
      ensures price == BestPrice(Buy, orders)
      ensures forall id | id in orders && orders[id].side == Buy :: orders[id].price <= price
      ensures price != 0 ==> exists id :: id in orders && orders[id].side == Buy && orders[id].price == price
    {
      FirstLevelIsBest(Buy, bids, orders);
      FirstLevelHasBestPrice(Buy, bids, orders);
      price := if bids == [] then 0 else bids[0].price;
    }

    method BestAsk() returns (price: int)
      requires Valid()
      ensures price == BestPrice(Sell, orders)
      ensures price == 0 <==> forall id | id in orders :: orders[id].side != Sell
      ensures price != 0 ==> forall id | id in orders && orders[id].side == Sell :: price <= orders[id].price
      ensures price != 0 ==> exists id :: id in orders && orders[id].side == Sell && orders[id].price == price
    {
      FirstLevelIsBest(Sell, asks, orders);
      FirstLevelHasBestPrice(Sell, asks, orders);
      price := if asks == [] then 0 else asks[0].price;
    }

    method Spread() returns (spread: int)
      requires Valid()
      ensures var bid, ask := BestPrice(Buy, orders), BestPrice(Sell, orders);
              spread == if bid == 0 || ask == 0 then 0 else ask - bid
    {
      FirstLevelHasBestPrice(Buy, bids, orders);
      FirstLevelHasBestPrice(Sell, asks, orders);
      if bids == [] || asks == [] {
        return 0;
      }
      spread := asks[0].price - bids[0].price;
    }

    method QuantityAt(side: Side, price: int) returns (quantity: int)
      requires Valid()
      ensures quantity == Depth(orders, side, price)
    {
      quantity := if side == Buy then ValueAt(Buy, bids, price) else ValueAt(Sell, asks, price);
    }

    method TopLevels(side: Side, depth: nat) returns (levels: seq<Level<int>>)
      requires Valid()
      ensures levels == Top(if side == Buy then bids else asks, depth)
    {
      levels := [];
      var source := if side == Buy then bids else asks;
      for i := 0 to |source|
        invariant levels == source[..i] && i <= depth
      {
        if |levels| == depth {
          break;
        }
        levels := levels + [source[i]];
      }
    }

    method AddOrder(e: MarketDataEvent) returns (applied: bool)
      requires Valid() && e.eventType == Add
      modifies this
      ensures Valid()
      ensures orders == After(old(orders), e) && applied == Applies(old(orders), e)
    {
      if e.orderId == 0 || e.price <= 0 || e.quantity <= 0 {
        return false;
      }
      if e.orderId in orders {
        return false;
      }
      AddAgrees(Buy, bids, orders, e.orderId, OrderOf(e));
      AddAgrees(Sell, asks, orders, e.orderId, OrderOf(e));
      hide Agrees, AddTo;
      orders := orders[e.orderId := BookOrder(e.orderId, e.side, e.price, e.quantity)];
      AddQuantity(e.side, e.price, e.quantity);
      return true;
    }

    method CancelOrder(e: MarketDataEvent) returns (applied: bool)
      requires Valid() && e.eventType == Cancel
      modifies this
      ensures Valid()
      ensures orders == After(old(orders), e) && applied == Applies(old(orders), e)
    {
      if e.orderId !in orders {
        return false;
      }
      RemoveAgrees(Buy, bids, orders, e.orderId);
      RemoveAgrees(Sell, asks, orders, e.orderId);
      hide Agrees, RemoveFrom;
      var order := orders[e.orderId];
      RemoveQuantity(order.side, order.price, order.quantity);
      orders := orders - {e.orderId};
      return true;
    }

    method ModifyOrder(e: MarketDataEvent) returns (applied: bool)
      requires Valid() && e.eventType == Modify
      modifies this
      ensures Valid()
      ensures orders == After(old(orders), e) && applied == Applies(old(orders), e)
    {
      hide BothAgree, RemoveFrom, AddTo;
      if e.price <= 0 || e.quantity <= 0 {
        return false;
      }
      if e.orderId !in orders {
        return false;
      }
      var order := orders[e.orderId];
      ModifyAgrees(bids, asks, orders, e);
      RemoveQuantity(order.side, order.price, order.quantity);
      order := order.(side := e.side, price := e.price, quantity := e.quantity);
      orders := orders[e.orderId := order];
      AddQuantity(order.side, order.price, order.quantity);
      return true;
    }

    method TradeOrder(e: MarketDataEvent) returns (applied: bool)
      requires Valid() && e.eventType == Trade
      modifies this
      ensures Valid()
      ensures orders == After(old(orders), e) && applied == Applies(old(orders), e)
    {
      hide BothAgree, RemoveFrom;
      if e.quantity <= 0 {
        return false;
      }
      if e.orderId !in orders {
        return false;
      }
      var order := orders[e.orderId];
      var traded := Min(order.quantity, e.quantity);
      TradeAgrees(bids, asks, orders, e);
      RemoveQuantity(order.side, order.price, traded);
      order := order.(quantity := order.quantity - traded);
      orders := orders[e.orderId := order];
      if order.quantity == 0 {
        orders := orders - {e.orderId};
      }
      return true;
    }

    method Apply(e: MarketDataEvent) returns (applied: bool)
      requires Valid()
      modifies this
      ensures Valid()
      ensures orders == After(old(orders), e) && applied == Applies(old(orders), e)
    {
      match e.eventType {
        case Add => applied := AddOrder(e);
        case Modify => applied := ModifyOrder(e);
        case Cancel => applied := CancelOrder(e);
        case Trade => applied := TradeOrder(e);
      }
    }
  }

  lemma ReplaceIsRemoveAndAdd(orders: Orders, id: nat, o: BookOrder)
    ensures orders[id := o] == (orders - {id})[id := o]
  {
  }

  lemma RemoveReplaced(orders: Orders, id: nat, o: BookOrder)
    ensures orders[id := o] - {id} == orders - {id}
  {
  }
}
