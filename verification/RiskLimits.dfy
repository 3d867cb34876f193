// What the pre-trade checks make of whole runs of attempts (src/risk/pre_trade_risk_engine.cpp:22-69).
module RiskLimits {
  import opened Types
  import opened RiskEngine

  predicate AcceptedAt(c: RiskConfig, attempts: seq<Attempt>, i: nat)
    requires i < |attempts|
  {
    Checked(c, WindowAfter(c, attempts[..i]), attempts[i]).1 == Allowed
  }

  predicate Between(x: int, a: int, b: int) {
    a <= x <= b || b <= x <= a
  }

  // Each order is done with before the next comes: it filled in part, in whole or not at all, and not if it was
  // refused.
  ghost predicate Settled(c: RiskConfig, attempts: seq<Attempt>) {
    forall i | 0 <= i < |attempts| - 1 ::
      var a, next := attempts[i], attempts[i + 1].position;
      if AcceptedAt(c, attempts, i) then Between(next, a.position, a.position + Signed(a.side, a.quantity))
      else next == a.position
  }

  predicate Inside(position: int, limit: int) {
    -limit <= position <= limit
  }

  lemma AcceptedStaysInside(c: RiskConfig, w: Window, a: Attempt)
    requires c.maxAbsPosition > 0 && Checked(c, w, a).1 == Allowed
    ensures Inside(a.position + Signed(a.side, a.quantity), c.maxAbsPosition)
  {
    FirstFailureDecides(c, w, a);
    hide Checked;
    assert Passes(c, w, a, TESTS[5]);
  }

  // The position check sees no open orders; but in a run in which each order is done with before the next, however
  // much of it was filled, a position that starts within the limit never leaves it.
  lemma {:induction false} SettledPositionsStayInside(c: RiskConfig, attempts: seq<Attempt>, i: nat)
    requires c.maxAbsPosition > 0 && i < |attempts| && Settled(c, attempts)
    requires Inside(attempts[0].position, c.maxAbsPosition)
    ensures Inside(attempts[i].position, c.maxAbsPosition)
    ensures AcceptedAt(c, attempts, i) ==>
              Inside(attempts[i].position + Signed(attempts[i].side, attempts[i].quantity), c.maxAbsPosition)
  {
    hide Checked, WindowAfter;
    if i > 0 {
      SettledPositionsStayInside(c, attempts, i - 1);
      var a, next := attempts[i - 1], attempts[i - 1 + 1].position;
      assert if AcceptedAt(c, attempts, i - 1) then Between(next, a.position, a.position + Signed(a.side, a.quantity))
             else next == a.position;
    }
    if AcceptedAt(c, attempts, i) {
      AcceptedStaysInside(c, WindowAfter(c, attempts[..i]), attempts[i]);
    }
  }
}
