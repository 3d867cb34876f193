// Sums over the entries of a map, in no particular order.
module Sums {
  ghost function SumOver<K, V>(m: map<K, V>, keys: set<K>, f: V -> int): int
    requires keys <= m.Keys
  {
    if keys == {} then 0
    else
      var k :| k in keys;
      f(m[k]) + SumOver(m, keys - {k}, f)
  }

  ghost function Sum<K, V>(m: map<K, V>, f: V -> int): int {
    SumOver(m, m.Keys, f)
  }

  // Any key may be taken first.
  lemma {:induction false} SumPick<K, V>(m: map<K, V>, keys: set<K>, f: V -> int, k: K)
    requires keys <= m.Keys && k in keys
    ensures SumOver(m, keys, f) == f(m[k]) + SumOver(m, keys - {k}, f)
    decreases keys
  {
    var first :| first in keys && SumOver(m, keys, f) == f(m[first]) + SumOver(m, keys - {first}, f);
    if first != k {
      SumPick(m, keys - {first}, f, k);
      SumPick(m, keys - {k}, f, first);
      assert keys - {first} - {k} == keys - {k} - {first};
    }
  }

  lemma {:induction false} SumAgrees<K, V>(m: map<K, V>, n: map<K, V>, keys: set<K>, f: V -> int)
    requires keys <= m.Keys && keys <= n.Keys
    requires forall k | k in keys :: f(m[k]) == f(n[k])
    ensures SumOver(m, keys, f) == SumOver(n, keys, f)
    decreases keys
  {
    if keys != {} {
      var k :| k in keys;
      SumPick(m, keys, f, k);
      SumPick(n, keys, f, k);
      SumAgrees(m, n, keys - {k}, f);
    }
  }

  // Setting one entry changes the sum by what that entry changed.
  lemma SumPut<K, V>(m: map<K, V>, f: V -> int, k: K, v: V)
    ensures Sum(m[k := v], f) == Sum(m, f) + f(v) - (if k in m then f(m[k]) else 0)
  {
    var n, others := m[k := v], m.Keys - {k};
    SumPick(n, n.Keys, f, k);
    assert n.Keys - {k} == others;
    SumAgrees(m, n, others, f);
    if k in m {
      SumPick(m, m.Keys, f, k);
    } else {
      assert others == m.Keys;
    }
  }
}
