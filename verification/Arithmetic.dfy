/** Products as a function, so that proofs about squares and spans can take one step at a time. */
module Arithmetic {
  function Times(a: real, b: real): real { a * b }

  lemma TimesLess(a: real, b: real, f: real)
    requires f > 0.0 && a > b
    ensures Times(a, f) > Times(b, f)
  {
  }

  lemma TimesMore(a: real, b: real, f: real)
    requires f >= 0.0 && a >= b
    ensures Times(a, f) >= Times(b, f)
  {
  }

  lemma SquareIsPositive(x: real)
    requires x > 0.0
    ensures Times(x, x) > 0.0
  {
    TimesLess(x, 0.0, x);
    assert Times(0.0, x) == 0.0;
  }

  lemma SquareOfProduct(s: real, t: real)
    ensures Times(Times(s, t), Times(s, t)) == Times(Times(s, s), Times(t, t))
  {
  }

  /** Dividing by the square of a positive span keeps the order. */
  lemma SquareUnscaled(a: real, s: real, t: real, w: real)
    requires t > 0.0 && Times(a, Times(t, t)) == w && w <= Times(Times(s, t), Times(s, t))
    ensures a <= Times(s, s)
  {
    hide Times;
    if a > Times(s, s) {
      SquareIsPositive(t);
      TimesLess(a, Times(s, s), Times(t, t));
      SquareOfProduct(s, t);
    }
  }

  lemma Unscaled(a: real, b: real, t: real)
    requires t > 0.0 && Times(a, t) <= Times(b, t)
    ensures a <= b
  {
    hide Times;
    if a > b { TimesLess(a, b, t); }
  }
}
