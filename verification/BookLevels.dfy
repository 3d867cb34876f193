// The nested book of the exchange: price levels of first-in-first-out order lists,
// and what its operations mean for the one queue they spell out.
module BookLevels {
  import opened Types
  import opened SortedLevels
  import opened Matching

  type Book = seq<Level<seq<Resting>>>

  // An entry of the index. A list iterator is named by the exchange order id of the node it points to.
  datatype RestingIndex = RestingIndex(side: Side, price: int, node: nat)

  function Flatten(book: Book): seq<Resting> {
    if book == [] then [] else book[0].value + Flatten(book[1..])
  }

  ghost predicate LevelOk(level: Level<seq<Resting>>) {
    level.value != [] && forall r | r in level.value :: r.price == level.price
  }

  // Levels in price order, none empty, each order at the price of its level.
  ghost predicate BookOk(side: Side, book: Book) {
    Ordered(side, book) && forall i | 0 <= i < |book| :: LevelOk(book[i])
  }

  function Entry(r: Resting): RestingIndex {
    RestingIndex(r.side, r.price, r.exchangeOrderId)
  }

  // The index has one entry for each resting order, and it points at that order.
  ghost predicate Indexed(index: map<nat, RestingIndex>, bids: seq<Resting>, asks: seq<Resting>) {
    && index.Keys == Clients(bids) + Clients(asks)
    && (forall r | r in bids :: index[r.clientOrderId] == Entry(r))
    && (forall r | r in asks :: index[r.clientOrderId] == Entry(r))
  }

  lemma {:induction false} FlattenSplits(book: Book, i: nat)
    requires i <= |book|
    ensures Flatten(book) == Flatten(book[..i]) + Flatten(book[i..])
  {
    if i == 0 {
      assert book[0..] == book;
    } else {
      assert book[..i][1..] == book[1..][..i - 1];
      assert book[1..][i - 1..] == book[i..];
      FlattenSplits(book[1..], i - 1);
    }
  }

  lemma FlattenAround(book: Book, i: nat)
    requires i < |book|
    ensures Flatten(book) == Flatten(book[..i]) + book[i].value + Flatten(book[i + 1..])
  {
    FlattenSplits(book, i);
    assert book[i..][1..] == book[i + 1..];
  }

  lemma BookOkTail(side: Side, book: Book)
    requires BookOk(side, book) && book != []
    ensures BookOk(side, book[1..])
  {
  }

  // ----- The best order -----

  lemma BestIsFirst(side: Side, book: Book)
    requires BookOk(side, book)
    ensures Flatten(book) == [] <==> book == []
    ensures book != [] ==> Flatten(book)[0] == book[0].value[0] && book[0].value[0].price == book[0].price
  {
  }

  // The book after its best order became `order`, and the book without it.
  function WithBest(book: Book, order: Resting): Book
    requires book != [] && book[0].value != []
  {
    [Level(book[0].price, [order] + book[0].value[1..])] + book[1..]
  }

  function WithoutBest(book: Book): Book
    requires book != [] && book[0].value != []
  {
    if |book[0].value| == 1 then book[1..]
    else [Level(book[0].price, book[0].value[1..])] + book[1..]
  }

  lemma BestIsReplaced(side: Side, book: Book, order: Resting)
    requires BookOk(side, book) && book != [] && order.price == book[0].price
    ensures LevelOk(book[0])
    ensures BookOk(side, WithBest(book, order))
    ensures Flatten(WithBest(book, order)) == [order] + Flatten(book)[1..]
  {
  }

  lemma FlattenWithoutBest(book: Book)
    requires book != [] && book[0].value != []
    ensures Flatten(WithoutBest(book)) == Flatten(book)[1..]
  {
  }

  lemma BestIsErased(side: Side, book: Book)
    requires BookOk(side, book) && book != []
    ensures LevelOk(book[0])
    ensures BookOk(side, WithoutBest(book))
    ensures Flatten(WithoutBest(book)) == Flatten(book)[1..]
  {
    assert LevelOk(book[0]);
    FlattenWithoutBest(book);
    hide Flatten;
  }

  // ----- A new order -----

  lemma {:induction false} RankSkips(side: Side, a: seq<Resting>, b: seq<Resting>, price: int)
    requires forall i | 0 <= i < |a| :: !Better(side, price, a[i].price)
    ensures Rank(side, a + b, price) == |a| + Rank(side, b, price)
  {
    if a == [] {
      assert a + b == b;
    } else {
      assert (a + b)[1..] == a[1..] + b;
      RankSkips(side, a[1..], b, price);
    }
  }

  // The list at a price, or an empty one.
  function LevelAt(side: Side, book: Book, price: int): seq<Resting> {
    var i := Seek(side, book, price);
    if Has(side, book, price) then book[i].value else []
  }

  function Append(side: Side, book: Book, order: Resting): Book {
    Put(side, book, order.price, LevelAt(side, book, order.price) + [order])
  }

  lemma AppendStaysOk(side: Side, book: Book, order: Resting)
    requires BookOk(side, book)
    ensures BookOk(side, Append(side, book, order))
  {
    PutStaysOrdered(side, book, order.price, LevelAt(side, book, order.price) + [order]);
    var i, book' := Seek(side, book, order.price), Append(side, book, order);
    forall j | 0 <= j < |book'| ensures LevelOk(book'[j]) {
      if j != i {
        assert book'[j] in book;
      } else if Has(side, book, order.price) {
        assert LevelOk(book[i]);
      }
    }
  }

  lemma AppendAtNewBest(side: Side, book: Book, order: Resting)
    requires book != [] ==> Better(side, order.price, book[0].price)
    ensures Append(side, book, order) == [Level(order.price, [order])] + book
    ensures Flatten(Append(side, book, order)) == [order] + Flatten(book)
  {
    assert ([Level(order.price, [order])] + book)[1..] == book;
    assert LevelAt(side, book, order.price) + [order] == [order];
    assert book[..0] + [Level(order.price, [order])] + book[0..] == [Level(order.price, [order])] + book;
  }

  lemma AppendAtBest(side: Side, book: Book, order: Resting)
    requires book != [] && book[0].price == order.price
    ensures Flatten(Append(side, book, order)) == book[0].value + ([order] + Flatten(book[1..]))
  {
  }

  lemma AppendBehind(side: Side, book: Book, order: Resting)
    requires book != [] && Better(side, book[0].price, order.price)
    ensures Flatten(Append(side, book, order)) == book[0].value + Flatten(Append(side, book[1..], order))
  {
    assert Append(side, book, order) == [book[0]] + Append(side, book[1..], order);
    assert ([book[0]] + Append(side, book[1..], order))[1..] == Append(side, book[1..], order);
  }

  lemma EnqueueSkips(side: Side, a: seq<Resting>, b: seq<Resting>, order: Resting)
    requires forall i | 0 <= i < |a| :: !Better(side, order.price, a[i].price)
    ensures Enqueue(side, a + b, order) == a + Enqueue(side, b, order)
  {
    RankSkips(side, a, b, order.price);
    hide Rank;
    var k := Rank(side, b, order.price);
    assert (a + b)[..|a| + k] == a + b[..k];
    assert (a + b)[|a| + k..] == b[k..];
  }

  // push_back at a level is what price-time priority asks for.
  lemma {:induction false} AppendEnqueues(side: Side, book: Book, order: Resting)
    requires BookOk(side, book)
    ensures Flatten(Append(side, book, order)) == Enqueue(side, Flatten(book), order)
  {
    BestIsFirst(side, book);
    hide Append;
    if book == [] || Better(side, order.price, book[0].price) {
      AppendAtNewBest(side, book, order);
    } else {
      assert LevelOk(book[0]);
      BookOkTail(side, book);
      EnqueueSkips(side, book[0].value, Flatten(book[1..]), order);
      if book[0].price == order.price {
        BestIsFirst(side, book[1..]);
        assert book[1..] != [] ==> Better(side, order.price, book[1].price);
        AppendAtBest(side, book, order);
      } else {
        AppendBehind(side, book, order);
        AppendEnqueues(side, book[1..], order);
      }
    }
  }

  // ----- Erasing through the index -----

  // The place of a node in its list.
  function NodeAt(list: seq<Resting>, node: nat): (i: nat)
    ensures i <= |list|
    ensures i < |list| ==> list[i].exchangeOrderId == node
    ensures (exists r :: r in list && r.exchangeOrderId == node) ==> i < |list|
  {
    if list == [] || list[0].exchangeOrderId == node then 0 else 1 + NodeAt(list[1..], node)
  }

  // The book without the j-th order of its i-th level; an empty level goes too.
  function EraseNode(book: Book, i: nat, j: nat): Book
    requires i < |book| && j < |book[i].value|
  {
    var list := Without(book[i].value, j);
    if list == [] then Erase(book, i) else book[i := Level(book[i].price, list)]
  }

  lemma EraseNodeStaysOk(side: Side, book: Book, i: nat, j: nat)
    requires BookOk(side, book) && i < |book| && j < |book[i].value|
    ensures BookOk(side, EraseNode(book, i, j))
  {
  }

  lemma WithoutInside(before: seq<Resting>, list: seq<Resting>, after: seq<Resting>, j: nat)
    requires j < |list|
    ensures (before + list + after)[|before| + j] == list[j]
    ensures Without(before + list + after, |before| + j) == before + Without(list, j) + after
  {
  }

  lemma FlattenErased(book: Book, i: nat, j: nat)
    requires i < |book| && j < |book[i].value|
    ensures Flatten(EraseNode(book, i, j))
         == Flatten(book[..i]) + Without(book[i].value, j) + Flatten(book[i + 1..])
  {
    var book', list := EraseNode(book, i, j), Without(book[i].value, j);
    hide Flatten;
    if list == [] {
      FlattenSplits(book', i);
      assert book'[..i] == book[..i] && book'[i..] == book[i + 1..];
    } else {
      FlattenAround(book', i);
      assert book'[..i] == book[..i] && book'[i + 1..] == book[i + 1..];
    }
  }

  lemma EraseNodeIsWithout(book: Book, i: nat, j: nat)
    requires i < |book| && j < |book[i].value|
    ensures |Flatten(book[..i])| + j < |Flatten(book)|
    ensures Flatten(book)[|Flatten(book[..i])| + j] == book[i].value[j]
    ensures Flatten(EraseNode(book, i, j)) == Without(Flatten(book), |Flatten(book[..i])| + j)
  {
    hide Flatten, EraseNode, Without;
    FlattenAround(book, i);
    FlattenErased(book, i, j);
    WithoutInside(Flatten(book[..i]), book[i].value, Flatten(book[i + 1..]), j);
  }

  // Every order of the queue is in the level of its price.
  lemma {:induction false} OrderHasLevel(side: Side, book: Book, r: Resting)
    requires BookOk(side, book) && r in Flatten(book)
    ensures Has(side, book, r.price)
    ensures r in book[Seek(side, book, r.price)].value
  {
    assert LevelOk(book[0]);
    if r !in book[0].value {
      BookOkTail(side, book);
      OrderHasLevel(side, book[1..], r);
      var k := Seek(side, book[1..], r.price);
      assert book[1..][k] == book[k + 1];
      SeekFinds(side, book, k + 1);
    } else {
      SeekFinds(side, book, 0);
    }
  }
}
