// What one market-data event does to the quantity at every price, and how much quantity a stream of events leaves
// (src/md/order_book.cpp:98-201).
module BookEvents {
  import opened Types
  import opened MarketBook

  // ----- One event -----

  // Which events apply.
  lemma AppliesExactly(orders: Orders, e: MarketDataEvent)
    ensures Applies(orders, e) <==>
            && (e.eventType == Add ==> e.orderId != 0 && e.orderId !in orders)
            && (e.eventType != Add ==> e.orderId in orders)
            && (e.eventType in {Add, Modify} ==> e.price > 0)
            && (e.eventType != EventType.Cancel ==> e.quantity > 0)
  {
  }

  predicate Has(orders: Orders, id: nat, side: Side, price: int) {
    id in orders && orders[id].side == side && orders[id].price == price
  }

  // What an event takes from the quantity at a price, and what it brings.
  function TakenAt(orders: Orders, e: MarketDataEvent, side: Side, price: int): int {
    if !Has(orders, e.orderId, side, price) then 0
    else
      var held := orders[e.orderId].quantity;
      match e.eventType
      case Add => 0
      case Trade => if e.quantity < held then e.quantity else held
      case _ => held
  }

  function BroughtTo(e: MarketDataEvent, side: Side, price: int): int {
    if (e.eventType == Add || e.eventType == Modify) && e.side == side && e.price == price then e.quantity else 0
  }

  // An event that applies moves the quantity at every side and price by what it takes from there and brings there,
  // leaves all other orders as they were, and one that does not apply changes nothing.
  lemma EventMovesDepth(orders: Orders, e: MarketDataEvent)
    requires LiveOrders(orders)
    ensures var after := MarketBook.After(orders, e);
            && LiveOrders(after)
            && (forall id | id != e.orderId ::
                  (id in after <==> id in orders) && (id in orders ==> after[id] == orders[id]))
            && (!Applies(orders, e) ==> after == orders)
            && (Applies(orders, e) ==> forall side, price ::
                  Depth(after, side, price)
                  == Depth(orders, side, price) - TakenAt(orders, e, side, price) + BroughtTo(e, side, price))
  {
    hide Depth;
    var after, id := MarketBook.After(orders, e), e.orderId;
    forall side, price | Applies(orders, e)
      ensures Depth(after, side, price)
           == Depth(orders, side, price) - TakenAt(orders, e, side, price) + BroughtTo(e, side, price)
    {
      if id in after {
        DepthPut(orders, id, after[id], side, price);
        assert after == orders[id := after[id]];
      } else {
        DepthRemove(orders, id, side, price);
        assert after == orders - {id};
      }
    }
  }
}
