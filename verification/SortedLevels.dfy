// A map from prices kept in priority order, as the two sides of a book are:
// begin() is the first level, and operator[] makes a level where none exists.
module SortedLevels {
  import opened Types

  datatype Level<V> = Level(price: int, value: V)

  ghost predicate Ordered<V>(side: Side, levels: seq<Level<V>>) {
    forall i, j | 0 <= i < j < |levels| :: Better(side, levels[i].price, levels[j].price)
  }

  // The number of levels with a better price: where `price` is, or where it would go.
  function Seek<V>(side: Side, levels: seq<Level<V>>, price: int): (i: nat)
    ensures i <= |levels|
  {
    if levels == [] || !Better(side, levels[0].price, price) then 0
    else 1 + Seek(side, levels[1..], price)
  }

  predicate Has<V>(side: Side, levels: seq<Level<V>>, price: int) {
    var i := Seek(side, levels, price);
    i < |levels| && levels[i].price == price
  }

  function Put<V>(side: Side, levels: seq<Level<V>>, price: int, value: V): seq<Level<V>> {
    var i := Seek(side, levels, price);
    if Has(side, levels, price) then levels[i := Level(price, value)]
    else levels[..i] + [Level(price, value)] + levels[i..]
  }

  function Erase<V>(levels: seq<Level<V>>, i: nat): seq<Level<V>>
    requires i < |levels|
  {
    levels[..i] + levels[i + 1..]
  }

  lemma {:induction false} SeekSplits<V>(side: Side, levels: seq<Level<V>>, price: int)
    requires Ordered(side, levels)
    ensures var i := Seek(side, levels, price);
            && (forall j | 0 <= j < i :: Better(side, levels[j].price, price))
            && (forall j | i <= j < |levels| :: levels[j].price != price ==> Better(side, price, levels[j].price))
            && (forall j | i < j < |levels| :: Better(side, price, levels[j].price))
  {
    if levels != [] && Better(side, levels[0].price, price) {
      SeekSplits(side, levels[1..], price);
      var i := Seek(side, levels, price);
      forall j | 1 <= j < |levels| ensures levels[j] == levels[1..][j - 1] {
      }
    }
  }

  lemma SeekFinds<V>(side: Side, levels: seq<Level<V>>, k: nat)
    requires Ordered(side, levels) && k < |levels|
    ensures Seek(side, levels, levels[k].price) == k
  {
    SeekSplits(side, levels, levels[k].price);
  }

  lemma PutStaysOrdered<V>(side: Side, levels: seq<Level<V>>, price: int, value: V)
    requires Ordered(side, levels)
    ensures Ordered(side, Put(side, levels, price, value))
  {
    SeekSplits(side, levels, price);
  }

  lemma EraseStaysOrdered<V>(side: Side, levels: seq<Level<V>>, k: nat)
    requires Ordered(side, levels) && k < |levels|
    ensures Ordered(side, Erase(levels, k))
  {
  }
}
