// Numbers as 64-bit words, digit by digit.
module Words {
  const WORD: nat := 0x1_0000_0000_0000_0000

  function Join(high: bv64, odd: bool): bv64 {
    (high << 1) | (if odd then 1 else 0)
  }

  // The low n bits of a number.
  function Bits(x: nat, n: nat): bv64 {
    if n == 0 then 0 else Join(Bits(x / 2, n - 1), x % 2 == 1)
  }

  // The lowest 16 bits.
  function Digit(x: nat): bv64 {
    Bits(x % 0x1_0000, 16)
  }

  function Joined(digit: bv64, top: bv64): bv64 {
    digit | (top << 16)
  }

  function Digits(a: bv64, b: bv64, c: bv64, d: bv64): bv64 {
    Joined(a, Joined(b, Joined(c, d)))
  }

  // The conversion to an unsigned 64-bit word; a negative number is sign-extended.
  function Word(x: int): bv64 {
    var u := x % WORD;
    Digits(Digit(u), Digit(u / 0x1_0000), Digit(u / 0x1_0000_0000), Digit(u / 0x1_0000_0000_0000))
  }

  // ----- Small numbers -----

  function Power(k: nat): nat {
    if k == 0 then 1 else 2 * Power(k - 1)
  }

  // The same powers as words.
  function Limit(k: nat): bv64 {
    if k == 0 then 1 else Join(Limit(k - 1), false)
  }

  predicate Below(a: bv64, limit: bv64) {
    a < limit
  }

  lemma JoinBelow(a: bv64, odd: bool, limit: bv64)
    requires Below(a, limit) && Below(limit, 0x1_0000)
    ensures Below(Join(a, odd), Join(limit, false))
  {
  }

  lemma JoinSeparates(a: bv64, odd: bool, b: bv64, odd': bool)
    requires Below(a, 0x1_0000) && Below(b, 0x1_0000) && Join(a, odd) == Join(b, odd')
    ensures a == b && odd == odd'
  {
  }

  lemma JoinZero(a: bv64)
    requires Below(a, 1)
    ensures Below(Join(a, false), 1)
  {
  }

  lemma BelowIsTransitive(a: bv64, b: bv64, c: bv64)
    requires Below(a, b) && Below(b, c)
    ensures Below(a, c)
  {
  }

  lemma Limits(k: nat)
    requires k < 16
    ensures Below(Limit(k), 0x1_0000)
  {
    assert Limit(0) == 1 && Limit(1) == 2 && Limit(2) == 4 && Limit(3) == 8 && Limit(4) == 0x10;
    assert Limit(5) == 0x20 && Limit(6) == 0x40 && Limit(7) == 0x80 && Limit(8) == 0x100 && Limit(9) == 0x200;
    assert Limit(10) == 0x400 && Limit(11) == 0x800 && Limit(12) == 0x1000 && Limit(13) == 0x2000;
    assert Limit(14) == 0x4000 && Limit(15) == 0x8000;
  }

  lemma {:induction false} SmallBits(x: nat, k: nat, n: nat)
    requires k <= 16 && k <= n && x < Power(k)
    ensures Below(Bits(x, n), Limit(k))
    decreases n
  {
    if n == 0 {
    } else if k == 0 {
      SmallBits(x, 0, n - 1);
      JoinZero(Bits(x, n - 1));
      hide Join, Below;
    } else {
      Limits(k - 1);
      SmallBits(x / 2, k - 1, n - 1);
      JoinBelow(Bits(x / 2, n - 1), x % 2 == 1, Limit(k - 1));
      hide Join, Below;
    }
  }

  lemma {:induction false} BitsInjective(x: nat, y: nat, k: nat, n: nat)
    requires k <= 16 && k <= n && x < Power(k) && y < Power(k) && Bits(x, n) == Bits(y, n)
    ensures x == y
    decreases n
  {
    hide Join, Below, Limit;
    if k > 0 {
      Limits(k - 1);
      SmallBits(x / 2, k - 1, n - 1);
      SmallBits(y / 2, k - 1, n - 1);
      BelowIsTransitive(Bits(x / 2, n - 1), Limit(k - 1), 0x1_0000);
      BelowIsTransitive(Bits(y / 2, n - 1), Limit(k - 1), 0x1_0000);
      JoinSeparates(Bits(x / 2, n - 1), x % 2 == 1, Bits(y / 2, n - 1), y % 2 == 1);
      BitsInjective(x / 2, y / 2, k - 1, n - 1);
    }
  }

  lemma Powers()
    ensures Power(0) == 1 && Power(3) == 8 && Power(8) == 0x100 && Power(11) == 2048 && Power(16) == 0x1_0000
  {
    assert Power(4) == 0x10 && Power(8) == 0x100 && Power(12) == 0x1000;
  }

  lemma TopLimits()
    ensures Limit(3) == 8 && Limit(8) == 0x100 && Limit(11) == 0x800 && Limit(16) == 0x1_0000
  {
    assert Limit(4) == 0x10 && Limit(8) == 0x100 && Limit(12) == 0x1000;
  }

  // ----- Digits -----

  lemma DigitIsSmall(x: nat)
    ensures Digit(x) < 0x1_0000
  {
    Powers();
    TopLimits();
    SmallBits(x % 0x1_0000, 16, 16);
    hide Bits, Limit, Power;
  }

  lemma DigitIsInjective(x: nat, y: nat)
    requires x < 0x1_0000 && y < 0x1_0000 && Digit(x) == Digit(y)
    ensures x == y
  {
    hide Bits, Limit, Power;
    Powers();
    BitsInjective(x, y, 16, 16);
  }

  lemma DigitOfSmall(x: nat)
    ensures x == 0 ==> Digit(x) == 0
    ensures x < 8 ==> Digit(x) < 8
    ensures x < 0x100 ==> Digit(x) < 0x100
    ensures x < 2048 ==> Digit(x) < 0x800
  {
    Powers();
    TopLimits();
    hide Power, Limit, Bits, Join;
    if x < 2048 {
      SmallBits(x, 11, 16);
    }
    if x < 0x100 {
      SmallBits(x, 8, 16);
    }
    if x < 8 {
      SmallBits(x, 3, 16);
    }
    if x == 0 {
      SmallBits(x, 0, 16);
      assert Limit(0) == 1 by {
        LimitZero();
      }
    }
  }

  lemma LimitZero()
    ensures Limit(0) == 1
  {
  }

  lemma WordIsDigits(x: nat)
    requires x < WORD
    ensures Word(x) == Digits(Digit(x), Digit(x / 0x1_0000), Digit(x / 0x1_0000_0000), Digit(x / 0x1_0000_0000_0000))
  {
    hide Digit, Digits;
  }

  lemma SmallParts(x: nat)
    requires x < 0x3_0000
    ensures x / 0x1_0000 == (if x < 0x1_0000 then 0 else if x < 0x2_0000 then 1 else 2)
    ensures x / 0x1_0000_0000 == 0 && x / 0x1_0000_0000_0000 == 0
  {
  }

  // What the digit of a number below three times 2^16 leaves out.
  function Top(x: nat): bv64 {
    if x < 0x1_0000 then 0 else if x < 0x2_0000 then 1 else 2
  }

  // Such a number as a word: its digit, and at most two bits above it.
  lemma WordHasTop(x: nat)
    requires x < 0x3_0000
    ensures Word(x) == Joined(Digit(x % 0x1_0000), Top(x))
    ensures Digit(x % 0x1_0000) < 0x1_0000 && Top(x) <= 2 && (x < 0x2_0000 ==> Top(x) <= 1)
  {
    hide Digit, Digits, Word, Joined;
    WordIsDigits(x);
    SmallParts(x);
    DigitIsSmall(x);
    DigitOfRemainder(x);
    DigitOfSmall(0);
    SmallDigitValues();
    DigitsOfTwo(Digit(x), Digit(x / 0x1_0000));
  }

  lemma DigitOfRemainder(x: nat)
    ensures Digit(x % 0x1_0000) == Digit(x)
  {
    assert x % 0x1_0000 % 0x1_0000 == x % 0x1_0000;
  }

  lemma OneIsOne()
    ensures Digit(1) == 1
  {
    Powers();
    SmallBits(0, 0, 15);
    LimitZero();
    hide Limit, Power;
    assert Bits(1, 16) == Join(Bits(0, 15), true);
  }

  lemma JoinedToNothing(a: bv64)
    ensures Joined(a, 0) == a
  {
  }

  lemma DigitsOfTwo(a: bv64, b: bv64)
    ensures Digits(a, b, 0, 0) == Joined(a, b)
  {
    JoinedToNothing(0);
    JoinedToNothing(b);
    hide Joined;
  }

  lemma DigitsSeparate(a: bv64, b: bv64, c: bv64, d: bv64, a': bv64, b': bv64, c': bv64, d': bv64)
    requires a < 0x1_0000 && b < 0x1_0000 && c < 0x1_0000 && d < 0x1_0000
    requires a' < 0x1_0000 && b' < 0x1_0000 && c' < 0x1_0000 && d' < 0x1_0000
    requires Digits(a, b, c, d) == Digits(a', b', c', d')
    ensures a == a' && b == b' && c == c' && d == d'
  {
  }

  lemma SameDigit(x: nat, y: nat)
    requires Digit(x) == Digit(y)
    ensures x % 0x1_0000 == y % 0x1_0000
  {
    hide Digit;
    DigitOfRemainder(x);
    DigitOfRemainder(y);
    DigitIsInjective(x % 0x1_0000, y % 0x1_0000);
  }

  lemma SmallWord(x: nat)
    requires x < 0x1_0000
    ensures Word(x) == Digit(x) < 0x1_0000
    ensures Word(x) == 0 <==> x == 0
    ensures x < 8 ==> Word(x) < 8
    ensures x < 0x100 ==> Word(x) < 0x100
    ensures x < 2048 ==> Word(x) < 0x800
  {
    hide Digit, Word, Joined;
    WordHasTop(x);
    JoinedToNothing(Digit(x));
    DigitOfSmall(x);
    DigitOfSmall(0);
    if Word(x) == 0 {
      DigitIsInjective(x, 0);
    }
  }

  predicate FlipsLast(x: bv64, y: bv64) {
    x ^ 1 == y
  }

  lemma JoinFlips(a: bv64, odd: bool, b: bv64, odd': bool)
    requires Below(a, 0x1_0000) && Below(b, 0x1_0000) && FlipsLast(Join(a, odd), Join(b, odd'))
    ensures a == b && odd != odd'
  {
  }

  // Words that differ in the last bit only are those of an even number and the next.
  lemma LastBitFlips(x: nat, y: nat)
    requires x < 0x1_0000 && y < 0x1_0000 && FlipsLast(Digit(x), Digit(y))
    ensures y == if x % 2 == 0 then x + 1 else x - 1
  {
    hide Bits, Below, FlipsLast;
    HalfIsSmall(x);
    HalfIsSmall(y);
    assert Digit(x) == Join(Bits(x / 2, 15), x % 2 == 1) by {
      DigitJoins(x);
    }
    assert Digit(y) == Join(Bits(y / 2, 15), y % 2 == 1) by {
      DigitJoins(y);
    }
    hide Digit, Join;
    JoinFlips(Bits(x / 2, 15), x % 2 == 1, Bits(y / 2, 15), y % 2 == 1);
    HalvesSeparate(x, y);
  }

  predicate FlipsSecond(x: bv64, y: bv64) {
    x ^ 2 == y
  }

  lemma JoinFlipsSecond(a: bv64, odd: bool, b: bv64, odd': bool)
    requires Below(a, 0x1_0000) && Below(b, 0x1_0000) && FlipsSecond(Join(a, odd), Join(b, odd'))
    ensures FlipsLast(a, b) && odd == odd'
  {
  }

  // Words that differ in the last bit but one are two apart.
  lemma SecondBitFlips(x: nat, y: nat)
    requires x < 0x1_0000 && y < 0x1_0000 && FlipsSecond(Digit(x), Digit(y))
    ensures y == if x % 4 < 2 then x + 2 else x - 2
  {
    hide Bits, Below, FlipsLast, FlipsSecond, Power;
    HalfIsSmall(x);
    HalfIsSmall(y);
    DigitJoins(x);
    DigitJoins(y);
    HalfPower(x);
    HalfPower(y);
    BitsWiden(x / 2, 15);
    BitsWiden(y / 2, 15);
    DigitIsBits(x / 2);
    DigitIsBits(y / 2);
    hide Digit, Join;
    JoinFlipsSecond(Bits(x / 2, 15), x % 2 == 1, Bits(y / 2, 15), y % 2 == 1);
    LastBitFlips(x / 2, y / 2);
  }

  lemma DigitIsBits(x: nat)
    requires x < 0x1_0000
    ensures Digit(x) == Bits(x, 16)
  {
    hide Bits;
  }

  lemma DigitJoins(x: nat)
    requires x < 0x1_0000
    ensures Digit(x) == Join(Bits(x / 2, 15), x % 2 == 1)
  {
    hide Bits;
    BitsJoin(x, 16);
  }

  lemma BitsJoin(x: nat, n: nat)
    requires n > 0
    ensures Bits(x, n) == Join(Bits(x / 2, n - 1), x % 2 == 1)
  {
  }

  lemma HalfIsSmall(x: nat)
    requires x < 0x1_0000
    ensures Below(Bits(x / 2, 15), 0x1_0000)
  {
    hide Bits, Below, Limit;
    HalfPower(x);
    Limits(15);
    SmallBits(x / 2, 15, 15);
    BelowIsTransitive(Bits(x / 2, 15), Limit(15), 0x1_0000);
  }

  lemma HalfPower(x: nat)
    requires x < 0x1_0000
    ensures x / 2 < Power(15)
  {
    Powers();
    assert Power(16) == 2 * Power(15);
  }

  lemma HalvesSeparate(x: nat, y: nat)
    requires x < 0x1_0000 && y < 0x1_0000 && Bits(x / 2, 15) == Bits(y / 2, 15)
    ensures x / 2 == y / 2
  {
    HalfPower(x);
    HalfPower(y);
    BitsInjective(x / 2, y / 2, 15, 15);
  }

  // ----- Words of given numbers -----

  lemma {:induction false} BitsWiden(x: nat, n: nat)
    requires n <= 15 && x < Power(n)
    ensures Bits(x, n + 1) == Bits(x, n)
  {
    hide Join;
    if n == 0 {
      BitsZero();
    } else {
      BitsWiden(x / 2, n - 1);
    }
  }

  lemma BitsZero()
    ensures Bits(0, 1) == 0 && Bits(0, 0) == 0
  {
  }

  // Digits are built by doubling.
  lemma DigitDoubles(x: nat, odd: bool)
    requires x < 0x8000
    ensures Digit(2 * x + (if odd then 1 else 0)) == Join(Digit(x), odd)
  {
    hide Bits, Join, Power;
    var y := 2 * x + (if odd then 1 else 0);
    DigitJoins(y);
    HalfPower(y);
    assert y / 2 == x && (y % 2 == 1) == odd;
    BitsWiden(x, 15);
  }

  predicate Is(x: nat, w: bv64) {
    x < 0x1_0000 && Digit(x) == w
  }

  lemma NextDigit(x: nat, w: bv64, odd: bool)
    requires x < 0x8000 && Is(x, w)
    ensures Is(2 * x + (if odd then 1 else 0), Join(w, odd))
  {
    hide Join, Digit;
    DigitDoubles(x, odd);
  }

  lemma SmallDigitValues()
    ensures Is(0, 0) && Is(1, 1) && Is(2, 2) && Is(3, 3) && Is(4, 4) && Is(5, 5)
  {
    DigitOfSmall(0);
    OneIsOne();
    hide Digit, Bits;
    NextDigit(1, 1, false);
    NextDigit(1, 1, true);
    NextDigit(2, 2, false);
    NextDigit(2, 2, true);
  }

  lemma FourParts(x: nat)
    requires x < WORD
    ensures x == x % 0x1_0000 + 0x1_0000 * (x / 0x1_0000 % 0x1_0000)
                 + 0x1_0000_0000 * (x / 0x1_0000_0000 % 0x1_0000)
                 + 0x1_0000_0000_0000 * (x / 0x1_0000_0000_0000 % 0x1_0000)
  {
    assert x / 0x1_0000 / 0x1_0000 == x / 0x1_0000_0000;
    assert x / 0x1_0000_0000 / 0x1_0000 == x / 0x1_0000_0000_0000;
    assert x / 0x1_0000_0000_0000 < 0x1_0000;
  }

  lemma SmallDigits(x: nat)
    ensures Digit(x) < 0x1_0000 && Digit(x / 0x1_0000) < 0x1_0000
    ensures Digit(x / 0x1_0000_0000) < 0x1_0000 && Digit(x / 0x1_0000_0000_0000) < 0x1_0000
  {
    hide Digit;
    DigitIsSmall(x);
    DigitIsSmall(x / 0x1_0000);
    DigitIsSmall(x / 0x1_0000_0000);
    DigitIsSmall(x / 0x1_0000_0000_0000);
  }

  // No two numbers of 64 bits are the same word.
  lemma WordIsInjective(x: nat, y: nat)
    requires x < WORD && y < WORD && Word(x) == Word(y)
    ensures x == y
  {
    hide Digit, Digits, Word;
    WordIsDigits(x);
    WordIsDigits(y);
    SmallDigits(x);
    SmallDigits(y);
    DigitsSeparate(Digit(x), Digit(x / 0x1_0000), Digit(x / 0x1_0000_0000), Digit(x / 0x1_0000_0000_0000),
                   Digit(y), Digit(y / 0x1_0000), Digit(y / 0x1_0000_0000), Digit(y / 0x1_0000_0000_0000));
    SameDigit(x, y);
    SameDigit(x / 0x1_0000, y / 0x1_0000);
    SameDigit(x / 0x1_0000_0000, y / 0x1_0000_0000);
    SameDigit(x / 0x1_0000_0000_0000, y / 0x1_0000_0000_0000);
    FourParts(x);
    FourParts(y);
  }
}
