// The 64-bit key by which the report handler recognises a report it has seen
// (src/execution/execution_report_handler.cpp:71-80), and what it can tell apart.
module ReportKeys {
  import opened Types
  import opened Words

  const GOLDEN: bv64 := 0x9e37_79b9_7f4a_7c15

  function TypeCode(t: ExecType): int {
    match t
    case Ack => 0
    case Reject => 1
    case PartialFill => 2
    case Fill => 3
    case CancelAck => 4
    case CancelReject => 5
  }

  function Mix(client: bv64, exchange: bv64, code: bv64, last: bv64, cumulative: bv64, leaves: bv64): bv64 {
    client ^ ((exchange + GOLDEN) << 1) ^ (code << 8) ^ (last << 16) ^ (cumulative << 32) ^ (leaves << 48)
  }

  function ReportKey(r: ExecutionReport): bv64 {
    Mix(Word(r.clientOrderId), Word(r.exchangeOrderId), Word(TypeCode(r.execType)),
        Word(r.lastQuantity), Word(r.cumulativeQuantity), Word(r.leavesQuantity))
  }

  // ----- The mixing, on words -----

  // The four fields above the identifiers occupy disjoint bits while they fit 16.
  lemma MixSeparates(c: bv64, e: bv64, t: bv64, l: bv64, q: bv64, v: bv64, t': bv64, l': bv64, q': bv64, v': bv64)
    requires t < 0x100 && l < 0x1_0000 && q < 0x1_0000 && v < 0x1_0000
    requires t' < 0x100 && l' < 0x1_0000 && q' < 0x1_0000 && v' < 0x1_0000
    requires Mix(c, e, t, l, q, v) == Mix(c, e, t', l', q', v')
    ensures t == t' && l == l' && q == q' && v == v'
  {
  }

  lemma TypesSeparate(c: bv64, e: bv64, t: bv64, l: bv64, q: bv64, v: bv64, t': bv64, l': bv64, q': bv64, v': bv64)
    requires t < 8 && t' < 8 && Mix(c, e, t, l, q, v) == Mix(c, e, t', l', q', v')
    ensures t == t'
  {
  }

  predicate Balance(x: bv64, a: bv64, y: bv64, b: bv64) {
    x ^ a == y ^ b
  }

  // With one or two bits more, each field spills them into the next.
  lemma FieldsSpill(c: bv64, e: bv64, t: bv64, l: bv64, i: bv64, q: bv64, j: bv64, v: bv64, k: bv64,
                    l': bv64, i': bv64, q': bv64, j': bv64, v': bv64, k': bv64)
    requires l < 0x1_0000 && q < 0x1_0000 && v < 0x1_0000 && l' < 0x1_0000 && q' < 0x1_0000 && v' < 0x1_0000
    requires i <= 2 && j <= 2 && k <= 2 && i' <= 2 && j' <= 2 && k' <= 2
    requires Mix(c, e, t, Joined(l, i), Joined(q, j), Joined(v, k))
          == Mix(c, e, t, Joined(l', i'), Joined(q', j'), Joined(v', k'))
    ensures l == l' && Balance(q, i, q', i') && Balance(v, j, v', j')
  {
  }

  lemma TwoSeparate(c: bv64, e: bv64, t: bv64, l: bv64, q: bv64, v: bv64,
                    c': bv64, e': bv64, t': bv64, l': bv64, q': bv64, v': bv64)
    requires (c == 1 || c == 2) && (e == 1 || e == 2) && (c' == 1 || c' == 2) && (e' == 1 || e' == 2)
    requires t < 8 && t' < 8 && Mix(c, e, t, l, q, v) == Mix(c', e', t', l', q', v')
    ensures c == c' && e == e'
  {
  }

  // Identifiers up to 256 never cancel against a type.
  lemma FewSeparate(n: bv64, t: bv64, l: bv64, q: bv64, v: bv64, m: bv64, t': bv64, l': bv64, q': bv64, v': bv64)
    requires 0 < n <= 0x100 && 0 < m <= 0x100 && t < 8 && t' < 8
    requires Mix(n, n, t, l, q, v) == Mix(m, m, t', l', q', v')
    ensures n == m
  {
  }

  // The fields of genuine reports of at most 65536.
  predicate GenuineFields(t: bv64, l: bv64, q: bv64, v: bv64) {
    && l <= 0x1_0000 && q <= 0x1_0000 && v <= 0x1_0000
    && match t
       case 0 => l == 0 && q == 0
       case 2 => l != 0 && l != 0x1_0000 && q != 0 && q != 0x1_0000 && v != 0 && v != 0x1_0000
       case 3 => l != 0 && q != 0 && v == 0 && (l == 0x1_0000 ==> q == 0x1_0000)
       case 4 => l == 0 && q == 0
       case _ => false
  }

  // Identifiers of eleven bits never cancel against such fields.
  lemma ManySeparate(n: bv64, t: bv64, l: bv64, q: bv64, v: bv64, m: bv64, t': bv64, l': bv64, q': bv64, v': bv64)
    requires n < 0x800 && m < 0x800
    requires GenuineFields(t, l, q, v) && GenuineFields(t', l', q', v')
    requires Mix(n, n, t, l, q, v) == Mix(m, m, t', l', q', v')
    ensures n == m
  {
  }

  function Spread(n: bv64): bv64 {
    n ^ ((n + GOLDEN) << 1)
  }

  predicate AgreeIn(n: bv64, m: bv64, mask: bv64) {
    (n ^ m) & mask == 0
  }

  // Each bit of an identifier shows in its own place once the lower ones are known.
  lemma SpreadSeparates(n: bv64, m: bv64)
    requires Spread(n) == Spread(m)
    ensures n == m
  {
    assert AgreeIn(n, m, 0xffff);
    assert AgreeIn(n, m, 0xffff_ffff);
    assert AgreeIn(n, m, 0xffff_ffff_ffff);
    assert AgreeIn(n, m, 0xffff_ffff_ffff_ffff);
  }

  lemma MixOfAck(n: bv64, v: bv64)
    ensures Mix(n, n, 0, 0, 0, v) == Spread(n) ^ (v << 48)
  {
  }

  lemma CancelOut(a: bv64, b: bv64, x: bv64)
    requires a ^ x == b ^ x
    ensures a == b
  {
  }

  // Acknowledgements of different orders that leave as much never collide, whatever the identifiers.
  lemma AcksSeparate(n: bv64, m: bv64, v: bv64)
    requires Mix(n, n, 0, 0, 0, v) == Mix(m, m, 0, 0, 0, v)
    ensures n == m
  {
    hide Mix, Spread;
    MixOfAck(n, v);
    MixOfAck(m, v);
    CancelOut(Spread(n), Spread(m), v << 48);
    SpreadSeparates(n, m);
  }

  lemma TypeSeparates(n: bv64, t: bv64, l: bv64, q: bv64, v: bv64, m: bv64, l': bv64, q': bv64, v': bv64)
    requires n < 0x800 && m < 0x800 && Mix(n, n, t, l, q, v) == Mix(m, m, t, l', q', v')
    ensures n == m
  {
  }

  // ----- Reports the exchange sends -----

  // A report the exchange sends an order of at most `limit` that it accepted.
  predicate Genuine(r: ExecutionReport, limit: nat) {
    match r.execType
    case Ack => r.lastQuantity == r.cumulativeQuantity == 0 && 1 <= r.leavesQuantity <= limit
    case CancelAck => r.lastQuantity == r.cumulativeQuantity == 0 && 1 <= r.leavesQuantity <= limit
    case PartialFill =>
      && 1 <= r.lastQuantity <= r.cumulativeQuantity
      && 1 <= r.leavesQuantity <= limit - r.cumulativeQuantity
    case Fill => 1 <= r.lastQuantity <= r.cumulativeQuantity <= limit && r.leavesQuantity == 0
    case _ => false
  }

  predicate SameOrder(r: ExecutionReport, s: ExecutionReport) {
    r.clientOrderId == s.clientOrderId && r.exchangeOrderId == s.exchangeOrderId
  }

  predicate SameContent(r: ExecutionReport, s: ExecutionReport) {
    && r.execType == s.execType
    && r.lastQuantity == s.lastQuantity
    && r.cumulativeQuantity == s.cumulativeQuantity
    && r.leavesQuantity == s.leavesQuantity
  }

  predicate Within(r: ExecutionReport, n: nat) {
    0 <= r.lastQuantity <= n && 0 <= r.cumulativeQuantity <= n && 0 <= r.leavesQuantity <= n
  }

  lemma CodeWords()
    ensures Word(0) == 0 && Word(2) == 2 && Word(3) == 3 && Word(4) == 4
  {
    hide Word;
    SmallDigitValues();
    SmallWord(0);
    SmallWord(2);
    SmallWord(3);
    SmallWord(4);
    hide Digit;
  }

  lemma CodeIsSmall(t: ExecType)
    ensures Word(TypeCode(t)) < 8
  {
    hide Word;
    SmallWord(TypeCode(t));
  }

  lemma CodesDiffer(t: ExecType, t': ExecType)
    requires Word(TypeCode(t)) == Word(TypeCode(t'))
    ensures t == t'
  {
    hide Word;
    WordIsInjective(TypeCode(t), TypeCode(t'));
  }

  // Among any reports of one order with quantities below 65536, equal keys mean equal content.
  lemma KeySeparatesReports(r: ExecutionReport, s: ExecutionReport)
    requires SameOrder(r, s) && Within(r, 65535) && Within(s, 65535) && ReportKey(r) == ReportKey(s)
    ensures SameContent(r, s)
  {
    hide Word, Mix;
    SmallWord(r.lastQuantity);
    SmallWord(s.lastQuantity);
    SmallWord(r.cumulativeQuantity);
    SmallWord(s.cumulativeQuantity);
    SmallWord(r.leavesQuantity);
    SmallWord(s.leavesQuantity);
    CodeIsSmall(r.execType);
    CodeIsSmall(s.execType);
    MixSeparates(Word(r.clientOrderId), Word(r.exchangeOrderId),
                 Word(TypeCode(r.execType)), Word(r.lastQuantity), Word(r.cumulativeQuantity), Word(r.leavesQuantity),
                 Word(TypeCode(s.execType)), Word(s.lastQuantity), Word(s.cumulativeQuantity), Word(s.leavesQuantity));
    CodesDiffer(r.execType, s.execType);
    WordIsInjective(r.lastQuantity, s.lastQuantity);
    WordIsInjective(r.cumulativeQuantity, s.cumulativeQuantity);
    WordIsInjective(r.leavesQuantity, s.leavesQuantity);
  }

  // ----- Along one order's stream -----

  // `s` may come after `r` in the stream of their order.
  predicate Follows(s: ExecutionReport, r: ExecutionReport) {
    && SameOrder(r, s)
    && s.execType != ExecType.Ack
    && (r.execType == ExecType.Ack || r.execType == ExecType.PartialFill)
    && (r.execType == s.execType == ExecType.PartialFill ==>
          && r.cumulativeQuantity + s.lastQuantity <= s.cumulativeQuantity
          && r.cumulativeQuantity + r.leavesQuantity == s.cumulativeQuantity + s.leavesQuantity)
  }

  function Rest(x: nat): nat {
    x % 0x1_0000
  }

  lemma EqualSpills(x: bv64, a: bv64, y: bv64)
    requires Balance(x, a, y, a)
    ensures x == y
  {
  }

  lemma EqualDigits(x: bv64, a: bv64, b: bv64)
    requires Balance(x, a, x, b)
    ensures a == b
  {
  }

  lemma OneSpills(x: bv64, y: bv64)
    requires Balance(x, 0, y, 1) || Balance(x, 1, y, 0)
    ensures FlipsLast(x, y)
  {
  }

  lemma TwoSpills(x: bv64, y: bv64)
    requires Balance(x, 0, y, 2) || Balance(x, 2, y, 0)
    ensures FlipsSecond(x, y)
  {
  }

  // What the digits `x` and `y` are to each other when the fields `a` and `b` spill into them.
  predicate Spills(x: nat, a: nat, y: nat, b: nat) {
    if a / 0x1_0000 == b / 0x1_0000 then Rest(x) == Rest(y)
    else if a / 0x1_0000 + b / 0x1_0000 == 1 then Rest(y) == if Rest(x) % 2 == 0 then Rest(x) + 1 else Rest(x) - 1
    else Rest(y) == if Rest(x) % 4 < 2 then Rest(x) + 2 else Rest(x) - 2
  }

  lemma TopIsQuotient(a: nat)
    requires a < 0x3_0000
    ensures 0 <= a / 0x1_0000 <= 2
    ensures Top(a) == (if a / 0x1_0000 == 0 then 0 else if a / 0x1_0000 == 1 then 1 else 2)
  {
  }

  lemma DigitsSpill(x: nat, a: nat, y: nat, b: nat)
    requires a + b < 0x3_0000 && Balance(Digit(Rest(x)), Top(a), Digit(Rest(y)), Top(b))
    ensures Spills(x, a, y, b)
  {
    hide Digit, FlipsLast, FlipsSecond, Top, Balance;
    TopIsQuotient(a);
    TopIsQuotient(b);
    if a / 0x1_0000 == b / 0x1_0000 {
      EqualSpills(Digit(Rest(x)), Top(a), Digit(Rest(y)));
      DigitIsInjective(Rest(x), Rest(y));
    } else if a / 0x1_0000 + b / 0x1_0000 == 1 {
      OneSpills(Digit(Rest(x)), Digit(Rest(y)));
      LastBitFlips(Rest(x), Rest(y));
    } else {
      TwoSpills(Digit(Rest(x)), Digit(Rest(y)));
      SecondBitFlips(Rest(x), Rest(y));
    }
  }

  // Two partial fills of an order of at most 65540 cannot satisfy all three equations.
  lemma PartialsDiffer(l: nat, q: nat, v: nat, l': nat, q': nat, v': nat)
    requires 1 <= l <= q && 1 <= l' && q + l' <= q' && 1 <= v && 1 <= v' && q + v == q' + v' <= 65540
    ensures !(Rest(l) == Rest(l') && Spills(q, l, q', l') && Spills(v, q, v', q'))
  {
  }

  // A key of a report whose fields are below three times 2^16, field by field.
  function Spilled(c: bv64, e: bv64, t: bv64, l: nat, q: nat, v: nat): bv64 {
    Mix(c, e, t, Joined(Digit(Rest(l)), Top(l)), Joined(Digit(Rest(q)), Top(q)), Joined(Digit(Rest(v)), Top(v)))
  }

  lemma KeyIsSpilled(r: ExecutionReport)
    requires Within(r, 0x2_ffff)
    ensures ReportKey(r) == Spilled(Word(r.clientOrderId), Word(r.exchangeOrderId), Word(TypeCode(r.execType)),
                                    r.lastQuantity, r.cumulativeQuantity, r.leavesQuantity)
  {
    hide Word, Mix, Digit, Top, Joined;
    WordHasTop(r.lastQuantity);
    WordHasTop(r.cumulativeQuantity);
    WordHasTop(r.leavesQuantity);
  }

  lemma SmallDigit(x: nat)
    ensures Digit(Rest(x)) < 0x1_0000 && Top(x) <= 2
  {
    hide Digit;
    DigitIsSmall(Rest(x));
  }

  // What equal keys of one order say of the digits of its fields and of what they spill.
  predicate Digitwise(l: nat, q: nat, v: nat, l': nat, q': nat, v': nat) {
    && Rest(l) == Rest(l')
    && Balance(Digit(Rest(q)), Top(l), Digit(Rest(q')), Top(l'))
    && Balance(Digit(Rest(v)), Top(q), Digit(Rest(v')), Top(q'))
  }

  lemma SpilledSeparates(c: bv64, e: bv64, t: bv64, l: nat, q: nat, v: nat, l': nat, q': nat, v': nat)
    requires Spilled(c, e, t, l, q, v) == Spilled(c, e, t, l', q', v')
    ensures Digitwise(l, q, v, l', q', v')
  {
    hide Mix, Digit, Top, Joined, Rest, Balance;
    SmallDigit(l);
    SmallDigit(q);
    SmallDigit(v);
    SmallDigit(l');
    SmallDigit(q');
    SmallDigit(v');
    FieldsSpill(c, e, t, Digit(Rest(l)), Top(l), Digit(Rest(q)), Top(q), Digit(Rest(v)), Top(v),
                Digit(Rest(l')), Top(l'), Digit(Rest(q')), Top(q'), Digit(Rest(v')), Top(v'));
    RestIsInjective(l, l');
  }

  lemma RestIsInjective(x: nat, y: nat)
    requires Digit(Rest(x)) == Digit(Rest(y))
    ensures Rest(x) == Rest(y)
  {
    hide Digit;
    DigitIsInjective(Rest(x), Rest(y));
  }

  // Equal keys of one order, as equations between the digits of the fields.
  lemma KeysSpill(r: ExecutionReport, s: ExecutionReport)
    requires SameOrder(r, s) && r.execType == s.execType && ReportKey(r) == ReportKey(s)
    requires Within(r, 0x2_ffff) && Within(s, 0x2_ffff)
    ensures Digitwise(r.lastQuantity, r.cumulativeQuantity, r.leavesQuantity,
                      s.lastQuantity, s.cumulativeQuantity, s.leavesQuantity)
  {
    hide ReportKey, Spilled, Digitwise, Word;
    KeyIsSpilled(r);
    KeyIsSpilled(s);
    SpilledSeparates(Word(r.clientOrderId), Word(r.exchangeOrderId), Word(TypeCode(r.execType)),
                     r.lastQuantity, r.cumulativeQuantity, r.leavesQuantity,
                     s.lastQuantity, s.cumulativeQuantity, s.leavesQuantity);
  }

  // Of all reports of one order, only two partial fills can share a key.
  lemma SameKeyMeansPartials(r: ExecutionReport, s: ExecutionReport)
    requires Follows(s, r) && ReportKey(r) == ReportKey(s)
    ensures r.execType == s.execType == ExecType.PartialFill
  {
    hide Word, Mix;
    CodeIsSmall(r.execType);
    CodeIsSmall(s.execType);
    TypesSeparate(Word(r.clientOrderId), Word(r.exchangeOrderId),
                  Word(TypeCode(r.execType)), Word(r.lastQuantity), Word(r.cumulativeQuantity), Word(r.leavesQuantity),
                  Word(TypeCode(s.execType)), Word(s.lastQuantity), Word(s.cumulativeQuantity), Word(s.leavesQuantity));
    CodesDiffer(r.execType, s.execType);
  }

  // Along the stream of an order of at most 65540, no two reports share a key.
  lemma KeySeparatesStream(r: ExecutionReport, s: ExecutionReport)
    requires Genuine(r, 65540) && Genuine(s, 65540) && Follows(s, r)
    ensures ReportKey(r) != ReportKey(s)
  {
    if ReportKey(r) == ReportKey(s) {
      hide ReportKey, Spills, Rest, Digit, Top, Balance;
      SameKeyMeansPartials(r, s);
      KeysSpill(r, s);
      DigitsSpill(r.cumulativeQuantity, r.lastQuantity, s.cumulativeQuantity, s.lastQuantity);
      DigitsSpill(r.leavesQuantity, r.cumulativeQuantity, s.leavesQuantity, s.cumulativeQuantity);
      PartialsDiffer(r.lastQuantity, r.cumulativeQuantity, r.leavesQuantity,
                     s.lastQuantity, s.cumulativeQuantity, s.leavesQuantity);
    }
  }

  // ----- The first two fills of an order -----

  lemma SpillCases(a: nat, b: nat)
    requires 0 < a && 0 < b && a + b <= 0x2_fffe && Rest(a) == Rest(b) && Spills(a, a, a + b, b)
    ensures a == b == 0x1_0000 || (a == 0xffff && b == 0x1_ffff) || (a == 0x1_ffff && b == 0xffff)
  {
  }

  lemma LastDigitsDiffer(a: bv64)
    requires Balance(Digit(0), a, Digit(1), 2)
    ensures a == 3
  {
    SmallDigitValues();
    hide Digit;
  }

  // The first fill of `a` and the second of `b`, of an order of at most 196607.
  lemma FirstTwoDiffer(a: nat, b: nat, v: nat)
    requires 0 < a && 0 < b < v && a + v <= 0x2_ffff
    ensures !Digitwise(a, a, v, b, a + b, v - b)
  {
    hide Digit, Balance, Spills;
    if Digitwise(a, a, v, b, a + b, v - b) {
      DigitsSpill(a, a, a + b, b);
      SpillCases(a, b);
      TopIsQuotient(a);
      TopIsQuotient(a + b);
      if a == b {
        assert Rest(v - b) == Rest(v);
        EqualDigits(Digit(Rest(v)), Top(a), Top(a + b));
      } else {
        assert v - b == 1 && Rest(v) == 0 && Rest(v - b) == 1;
        LastDigitsDiffer(Top(a));
      }
    }
  }

  lemma FirstTwoFit(r: ExecutionReport, s: ExecutionReport)
    requires Genuine(r, 196607) && Genuine(s, 196607)
    requires r.execType == s.execType == ExecType.PartialFill
    ensures Within(r, 0x2_ffff) && Within(s, 0x2_ffff)
  {
  }

  // Until an order of at most 196607 is filled a third time, no two of its reports share a key.
  lemma KeySeparatesFirstTwo(r: ExecutionReport, s: ExecutionReport)
    requires Genuine(r, 196607) && Genuine(s, 196607) && Follows(s, r)
    requires r.execType == s.execType == ExecType.PartialFill ==>
               && r.cumulativeQuantity == r.lastQuantity
               && s.cumulativeQuantity == r.cumulativeQuantity + s.lastQuantity
    ensures ReportKey(r) != ReportKey(s)
  {
    if ReportKey(r) == ReportKey(s) {
      SameKeyMeansPartials(r, s);
      FirstTwoFit(r, s);
      hide ReportKey, Digitwise, Genuine;
      KeysSpill(r, s);
      FirstTwoDiffer(r.lastQuantity, s.lastQuantity, r.leavesQuantity);
    }
  }

  // ----- Across orders -----

  // How the ids and quantities of a run's orders are bounded, ids of client and exchange being in step.
  datatype Regime = Three | Few | Many

  function Largest(g: Regime): nat {
    match g
    case Three => 196607
    case Few => 65540
    case Many => 65536
  }

  predicate Numbers(g: Regime, client: nat, exchange: nat) {
    match g
    case Three => 1 <= client == exchange <= 3
    case Few => 1 <= client == exchange <= 256
    case Many => 1 <= client == exchange <= 2047
  }

  lemma SmallNumberWords(x: nat)
    requires 1 <= x <= 2
    ensures Word(x) == 1 || Word(x) == 2
  {
    hide Word, Digit;
    SmallDigitValues();
    SmallWord(x);
  }

  lemma FewNumberWord(x: nat)
    requires 1 <= x <= 256
    ensures 0 < Word(x) <= 0x100
  {
    hide Word, Digit;
    SmallWord(x);
    if x == 256 {
      Digit256();
    }
  }

  lemma Digit256()
    ensures Is(128, 0x80) && Is(256, 0x100) && Is(257, 0x101) && Is(1024, 0x400) && Is(2048, 0x800)
  {
    SmallDigitValues();
    hide Digit;
    NextDigit(4, 4, false);
    NextDigit(8, 8, false);
    NextDigit(16, 0x10, false);
    NextDigit(32, 0x20, false);
    NextDigit(64, 0x40, false);
    NextDigit(128, 0x80, false);
    NextDigit(128, 0x80, true);
    NextDigit(256, 0x100, false);
    NextDigit(512, 0x200, false);
    NextDigit(1024, 0x400, false);
  }

  lemma Word65536()
    ensures Word(65536) == 0x1_0000 && Word(65537) == 0x1_0001 && Word(65539) == 0x1_0003
  {
    hide Word, Digit;
    SmallDigitValues();
    WordHasTop(65536);
    WordHasTop(65537);
    WordHasTop(65539);
  }

  lemma LargeWord(x: nat)
    requires x <= 65536
    ensures Word(x) <= 0x1_0000
    ensures Word(x) == 0x1_0000 <==> x == 65536
    ensures Word(x) == 0 <==> x == 0
  {
    hide Word;
    Word65536();
    if x < 65536 {
      SmallWord(x);
    }
  }

  lemma GenuineWords(r: ExecutionReport)
    requires Genuine(r, 65536)
    ensures GenuineFields(Word(TypeCode(r.execType)), Word(r.lastQuantity), Word(r.cumulativeQuantity),
                          Word(r.leavesQuantity))
  {
    hide Word;
    CodeWords();
    LargeWord(r.lastQuantity);
    LargeWord(r.cumulativeQuantity);
    LargeWord(r.leavesQuantity);
  }

  lemma ManyNumbersSeparate(r: ExecutionReport, s: ExecutionReport)
    requires Numbers(Many, r.clientOrderId, r.exchangeOrderId) && Numbers(Many, s.clientOrderId, s.exchangeOrderId)
    requires Genuine(r, 65536) && Genuine(s, 65536) && ReportKey(r) == ReportKey(s)
    ensures Word(r.clientOrderId) == Word(s.clientOrderId)
  {
    hide Word, Mix, GenuineFields, Genuine;
    SmallWord(r.clientOrderId);
    SmallWord(s.clientOrderId);
    GenuineWords(r);
    GenuineWords(s);
    ManySeparate(Word(r.clientOrderId),
                 Word(TypeCode(r.execType)), Word(r.lastQuantity), Word(r.cumulativeQuantity), Word(r.leavesQuantity),
                 Word(s.clientOrderId),
                 Word(TypeCode(s.execType)), Word(s.lastQuantity), Word(s.cumulativeQuantity), Word(s.leavesQuantity));
  }

  lemma FewNumbersSeparate(r: ExecutionReport, s: ExecutionReport)
    requires Numbers(Few, r.clientOrderId, r.exchangeOrderId) && Numbers(Few, s.clientOrderId, s.exchangeOrderId)
    requires ReportKey(r) == ReportKey(s)
    ensures Word(r.clientOrderId) == Word(s.clientOrderId)
  {
    hide Word, Mix;
    FewNumberWord(r.clientOrderId);
    FewNumberWord(s.clientOrderId);
    CodeIsSmall(r.execType);
    CodeIsSmall(s.execType);
    FewSeparate(Word(r.clientOrderId),
                Word(TypeCode(r.execType)), Word(r.lastQuantity), Word(r.cumulativeQuantity), Word(r.leavesQuantity),
                Word(s.clientOrderId),
                Word(TypeCode(s.execType)), Word(s.lastQuantity), Word(s.cumulativeQuantity), Word(s.leavesQuantity));
  }

  // With ids of at most two, in step or not, reports with equal keys are of the same order.
  lemma TwoNumbersSeparate(r: ExecutionReport, s: ExecutionReport)
    requires 1 <= r.clientOrderId <= 2 && 1 <= r.exchangeOrderId <= 2
    requires 1 <= s.clientOrderId <= 2 && 1 <= s.exchangeOrderId <= 2
    requires ReportKey(r) == ReportKey(s)
    ensures SameOrder(r, s)
  {
    hide Word, Mix;
    SmallNumberWords(r.clientOrderId);
    SmallNumberWords(s.clientOrderId);
    SmallNumberWords(r.exchangeOrderId);
    SmallNumberWords(s.exchangeOrderId);
    CodeIsSmall(r.execType);
    CodeIsSmall(s.execType);
    TwoSeparate(Word(r.clientOrderId), Word(r.exchangeOrderId),
                Word(TypeCode(r.execType)), Word(r.lastQuantity), Word(r.cumulativeQuantity), Word(r.leavesQuantity),
                Word(s.clientOrderId), Word(s.exchangeOrderId),
                Word(TypeCode(s.execType)), Word(s.lastQuantity), Word(s.cumulativeQuantity), Word(s.leavesQuantity));
    WordIsInjective(r.clientOrderId, s.clientOrderId);
    WordIsInjective(r.exchangeOrderId, s.exchangeOrderId);
  }

  // Under each regime, reports with equal keys are of the same order.
  lemma KeySeparatesOrders(g: Regime, r: ExecutionReport, s: ExecutionReport)
    requires Numbers(g, r.clientOrderId, r.exchangeOrderId) && Numbers(g, s.clientOrderId, s.exchangeOrderId)
    requires Genuine(r, Largest(g)) && Genuine(s, Largest(g)) && ReportKey(r) == ReportKey(s)
    ensures SameOrder(r, s)
  {
    hide Word, ReportKey;
    match g {
      case Three => FewNumbersSeparate(r, s);
      case Few => FewNumbersSeparate(r, s);
      case Many => ManyNumbersSeparate(r, s);
    }
    hide Genuine;
    WordIsInjective(r.clientOrderId, s.clientOrderId);
    WordIsInjective(r.exchangeOrderId, s.exchangeOrderId);
  }

  // ----- Reports that collide -----

  lemma MixOfCancel(v: bv64)
    ensures Mix(0x800, 0x800, 0, 0, 0, v) == Mix(0x400, 0x400, 4, 0, 0, v)
  {
  }

  // The acknowledgement of order 2048 hides behind the cancel acknowledgement of order 1024 for as much.
  lemma AckCollides(r: ExecutionReport, s: ExecutionReport)
    requires r.execType == ExecType.CancelAck && r.clientOrderId == r.exchangeOrderId == 1024
    requires s.execType == ExecType.Ack && s.clientOrderId == s.exchangeOrderId == 2048
    requires r.lastQuantity == r.cumulativeQuantity == s.lastQuantity == s.cumulativeQuantity == 0
    requires r.leavesQuantity == s.leavesQuantity
    ensures ReportKey(r) == ReportKey(s)
  {
    hide Word, Mix, Digit;
    CodeWords();
    Digit256();
    SmallWord(1024);
    SmallWord(2048);
    MixOfCancel(Word(r.leavesQuantity));
  }

  lemma MixOfLastFill(v: bv64)
    requires v == 1
    ensures Mix(0x101, 0x101, 3, 0x1_0000, 0x1_0001, 0) == Mix(1, 1, 0, 0, 0, v)
  {
  }

  // The last fill of order 257, of 65536 out of 65537, hides behind the acknowledgement of order 1 for one.
  lemma LastFillCollides(r: ExecutionReport, s: ExecutionReport)
    requires r.execType == ExecType.Ack && r.clientOrderId == r.exchangeOrderId == 1
    requires r.lastQuantity == r.cumulativeQuantity == 0 && r.leavesQuantity == 1
    requires s.execType == ExecType.Fill && s.clientOrderId == s.exchangeOrderId == 257
    requires s.lastQuantity == 65536 && s.cumulativeQuantity == 65537 && s.leavesQuantity == 0
    ensures ReportKey(r) == ReportKey(s)
  {
    hide Word, Mix, Digit;
    CodeWords();
    Digit256();
    SmallDigitValues();
    SmallWord(257);
    SmallWord(1);
    Word65536();
    MixOfLastFill(1);
  }

  lemma MixOfFirstTwo(c: bv64, e: bv64)
    ensures Mix(c, e, 2, 0x1_ffff, 0x1_ffff, 0x1_0001) == Mix(c, e, 2, 0xffff, 0x2_fffe, 2)
  {
  }

  lemma DigitFFFF()
    ensures Is(0xffff, 0xffff) && Is(0xfffe, 0xfffe)
  {
    SmallDigitValues();
    hide Digit;
    NextDigit(3, 3, true);
    NextDigit(7, 7, true);
    NextDigit(0xf, 0xf, true);
    NextDigit(0x1f, 0x1f, true);
    NextDigit(0x3f, 0x3f, true);
    NextDigit(0x7f, 0x7f, true);
    NextDigit(0xff, 0xff, true);
    NextDigit(0x1ff, 0x1ff, true);
    NextDigit(0x3ff, 0x3ff, true);
    NextDigit(0x7ff, 0x7ff, true);
    NextDigit(0xfff, 0xfff, true);
    NextDigit(0x1fff, 0x1fff, true);
    NextDigit(0x3fff, 0x3fff, true);
    NextDigit(0x7fff, 0x7fff, true);
    NextDigit(0x7fff, 0x7fff, false);
  }

  lemma FirstTwoWords()
    ensures Word(131071) == 0x1_ffff && Word(65535) == 0xffff && Word(196606) == 0x2_fffe
  {
    hide Word, Digit;
    DigitFFFF();
    WordHasTop(131071);
    WordHasTop(65535);
    WordHasTop(196606);
  }

  // Of an order of 196608 filled 131071 and 65535, the second fill hides behind the first.
  lemma FirstTwoCollide(r: ExecutionReport, s: ExecutionReport)
    requires SameOrder(r, s) && r.execType == s.execType == ExecType.PartialFill
    requires r.lastQuantity == r.cumulativeQuantity == 131071 && r.leavesQuantity == 65537
    requires s.lastQuantity == 65535 && s.cumulativeQuantity == 196606 && s.leavesQuantity == 2
    ensures ReportKey(r) == ReportKey(s)
  {
    hide Word, Mix, Digit;
    CodeWords();
    SmallDigitValues();
    SmallWord(2);
    Word65536();
    FirstTwoWords();
    MixOfFirstTwo(Word(r.clientOrderId), Word(r.exchangeOrderId));
  }

  lemma MixOfPartials(c: bv64, e: bv64)
    ensures Mix(c, e, 2, 1, 2, 0x1_0003) == Mix(c, e, 2, 0x1_0001, 0x1_0003, 2)
  {
  }

  // Of an order of 65541 filled 1, 1 and 65537, the third fill hides behind the second.
  lemma PartialCollides(r: ExecutionReport, s: ExecutionReport)
    requires SameOrder(r, s) && r.execType == s.execType == ExecType.PartialFill
    requires r.lastQuantity == 1 && r.cumulativeQuantity == 2 && r.leavesQuantity == 65539
    requires s.lastQuantity == 65537 && s.cumulativeQuantity == 65539 && s.leavesQuantity == 2
    ensures ReportKey(r) == ReportKey(s)
  {
    hide Word, Mix, Digit;
    CodeWords();
    SmallDigitValues();
    SmallWord(1);
    SmallWord(2);
    Word65536();
    MixOfPartials(Word(r.clientOrderId), Word(r.exchangeOrderId));
  }

  lemma MixOfTwoAcks(v: bv64)
    ensures Mix(1, 1, 0, 0, 0, v) == Mix(3, 2, 0, 0, 0, v)
  {
  }

  // With ids out of step, the acknowledgement of client order 3 as exchange order 2 hides behind that of order 1.
  lemma StrayAckCollides(r: ExecutionReport, s: ExecutionReport)
    requires r.execType == s.execType == ExecType.Ack
    requires r.clientOrderId == r.exchangeOrderId == 1 && s.clientOrderId == 3 && s.exchangeOrderId == 2
    requires r.lastQuantity == r.cumulativeQuantity == s.lastQuantity == s.cumulativeQuantity == 0
    requires r.leavesQuantity == s.leavesQuantity
    ensures ReportKey(r) == ReportKey(s)
  {
    hide Word, Mix, Digit;
    CodeWords();
    SmallDigitValues();
    SmallWord(1);
    SmallWord(2);
    SmallWord(3);
    MixOfTwoAcks(Word(r.leavesQuantity));
  }

  // Acknowledgements with ids in step that leave as much have different keys, for all ids of 64 bits.
  lemma KeySeparatesAcks(r: ExecutionReport, s: ExecutionReport)
    requires r.execType == s.execType == ExecType.Ack && r.leavesQuantity == s.leavesQuantity
    requires r.lastQuantity == r.cumulativeQuantity == s.lastQuantity == s.cumulativeQuantity == 0
    requires r.clientOrderId == r.exchangeOrderId < WORD && s.clientOrderId == s.exchangeOrderId < WORD
    requires ReportKey(r) == ReportKey(s)
    ensures r.clientOrderId == s.clientOrderId
  {
    hide Word, Mix;
    CodeWords();
    AcksSeparate(Word(r.clientOrderId), Word(s.clientOrderId), Word(r.leavesQuantity));
    WordIsInjective(r.clientOrderId, s.clientOrderId);
  }

  // Any reports of one type with ids in step below 2048 are of the same order if they share a key.
  lemma KeySeparatesOfType(r: ExecutionReport, s: ExecutionReport)
    requires r.execType == s.execType && r.clientOrderId == r.exchangeOrderId < 2048
    requires s.clientOrderId == s.exchangeOrderId < 2048 && ReportKey(r) == ReportKey(s)
    ensures r.clientOrderId == s.clientOrderId
  {
    hide Word, Mix;
    SmallWord(r.clientOrderId);
    SmallWord(s.clientOrderId);
    TypeSeparates(Word(r.clientOrderId), Word(TypeCode(r.execType)),
                  Word(r.lastQuantity), Word(r.cumulativeQuantity), Word(r.leavesQuantity),
                  Word(s.clientOrderId), Word(s.lastQuantity), Word(s.cumulativeQuantity), Word(s.leavesQuantity));
    WordIsInjective(r.clientOrderId, s.clientOrderId);
  }

  // ----- The exact limit for different orders -----

  ghost predicate OrdersSeparateUpTo(n: nat, q: nat) {
    forall r, s |
      && Genuine(r, q) && Genuine(s, q)
      && 1 <= r.clientOrderId == r.exchangeOrderId <= n && 1 <= s.clientOrderId == s.exchangeOrderId <= n
      && ReportKey(r) == ReportKey(s)
      :: r.clientOrderId == s.clientOrderId
  }

  function ReportOf(id: nat, t: ExecType, last: int, cumulative: int, leaves: int): (r: ExecutionReport)
    ensures r.clientOrderId == r.exchangeOrderId == id && r.execType == t
    ensures r.lastQuantity == last && r.cumulativeQuantity == cumulative && r.leavesQuantity == leaves
  {
    ExecutionReport(id, id, t, Acked, NoReason, "A", Buy, 0, last, cumulative, leaves, 0, 0)
  }

  // Keys tell orders apart, with ids in step, exactly up to order 256, or up to order 2047 if no order is of
  // more than 65536.
  lemma OrdersSeparateExactly(n: nat, q: nat)
    requires q > 0
    ensures OrdersSeparateUpTo(n, q) <==> n <= 256 || (n <= 2047 && q <= 65536)
  {
    hide ReportKey;
    if n <= 256 {
      forall r, s |
        && Genuine(r, q) && Genuine(s, q)
        && 1 <= r.clientOrderId == r.exchangeOrderId <= n && 1 <= s.clientOrderId == s.exchangeOrderId <= n
        && ReportKey(r) == ReportKey(s)
        ensures r.clientOrderId == s.clientOrderId
      {
        FewNumbersSeparate(r, s);
        WordIsInjective(r.clientOrderId, s.clientOrderId);
      }
    } else if n <= 2047 && q <= 65536 {
      forall r, s |
        && Genuine(r, q) && Genuine(s, q)
        && 1 <= r.clientOrderId == r.exchangeOrderId <= n && 1 <= s.clientOrderId == s.exchangeOrderId <= n
        && ReportKey(r) == ReportKey(s)
        ensures r.clientOrderId == s.clientOrderId
      {
        KeySeparatesOrders(Many, r, s);
      }
    } else if n <= 2047 {
      LastFillCollides(ReportOf(1, ExecType.Ack, 0, 0, 1), ReportOf(257, ExecType.Fill, 65536, 65537, 0));
    } else {
      AckCollides(ReportOf(1024, ExecType.CancelAck, 0, 0, 1), ReportOf(2048, ExecType.Ack, 0, 0, 1));
    }
  }
}
