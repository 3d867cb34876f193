// Integer division as the source language has it, and what truncation can lose.
module Division {
  // Toward zero, unlike the division of this language.
  function Truncate(a: int, b: int): int
    requires b > 0
  {
    if a >= 0 then a / b else -((-a) / b)
  }

  // What is lost when a nonnegative total is divided and multiplied back.
  function Lost(a: int, b: int): int
    requires b > 0
  {
    a - Truncate(a, b) * b
  }

  lemma LostIsSmall(a: int, b: int)
    requires a >= 0 && b > 0
    ensures 0 <= Lost(a, b) <= b - 1
    ensures Truncate(a, b) >= 0
  {
    assert a == b * (a / b) + a % b;
    Commute(b, a / b);
  }

  lemma Commute(a: int, b: int)
    ensures a * b == b * a
  {
  }

  lemma OneMore(a: int, n: int)
    ensures (a + 1) * n == a * n + n
  {
  }

  lemma ProductOrder(a: int, b: int, n: int)
    requires a <= b && n >= 0
    ensures a * n <= b * n
  {
  }

  lemma TruncateExact(a: int, b: int)
    requires a >= 0 && b > 0
    ensures Truncate(a * b, b) == a
  {
    ProductOrder(0, a, b);
    LostIsSmall(a * b, b);
    var q := Truncate(a * b, b);
    OneMore(q, b);
    OneMore(a, b);
    if q < a {
      ProductOrder(q + 1, a, b);
    }
    if q > a {
      ProductOrder(a + 1, q, b);
    }
  }

  // A total that lies between lo * n and hi * n has a truncated mean between lo and hi.
  lemma MeanBetween(total: int, n: int, lo: int, hi: int)
    requires total >= 0 && n > 0 && lo * n <= total <= hi * n
    ensures lo <= Truncate(total, n) <= hi
  {
    LostIsSmall(total, n);
    var q := Truncate(total, n);
    OneMore(q, n);
    OneMore(hi, n);
    if q < lo {
      ProductOrder(q + 1, lo, n);
    }
    if q > hi {
      ProductOrder(hi + 1, q, n);
    }
  }

  lemma Distribute(a: int, m: int, n: int)
    ensures a * (m + n) == a * m + a * n
  {
  }

  // A mean of m units at `a` and n units at `b` lies between any bounds on both.
  lemma WeightedMean(a: int, m: int, b: int, n: int, lo: int, hi: int)
    requires m >= 0 && n > 0 && 0 <= lo <= b <= hi
    requires m > 0 ==> lo <= a <= hi
    ensures a * m + b * n >= 0
    ensures lo <= Truncate(a * m + b * n, m + n) <= hi
  {
    if m > 0 {
      ProductOrder(lo, a, m);
      ProductOrder(a, hi, m);
    }
    ProductOrder(lo, b, n);
    ProductOrder(b, hi, n);
    Distribute(lo, m, n);
    Distribute(hi, m, n);
    ProductOrder(0, lo, m + n);
    MeanBetween(a * m + b * n, m + n, lo, hi);
  }

  // ----- Quotients and remainders -----

  lemma {:induction false} Gap(a: nat, b: nat, n: nat)
    requires a < b
    ensures n * a + n <= n * b
    decreases b
  {
    var c := b - 1;
    assert n * (c + 1) == n * c + n;
    if a < c {
      Gap(a, c, n);
    }
  }

  // Quotient and remainder are unique.
  lemma Unique(a: nat, r: nat, b: nat, m: nat, n: nat)
    requires r < n && m < n && n * a + r == n * b + m
    ensures a == b && r == m
  {
    if a < b {
      Gap(a, b, n);
    }
    if b < a {
      Gap(b, a, n);
    }
  }

  lemma Divide(k: nat, n: nat)
    requires n > 0
    ensures k == n * (k / n) + k % n
  {
  }
}
