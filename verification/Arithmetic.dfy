/** Products and quotients of reals keep order; counting the rows of a list. */
module Arithmetic {

  lemma Times(a: real, b: real, d: real)
    requires a <= b && d >= 0.0
    ensures a * d <= b * d
    ensures a < b && d > 0.0 ==> a * d < b * d
  {
  }

  /** A fraction of a quantity is between nothing and all of it. */
  lemma Fraction(p: real, d: real)
    requires d >= 0.0 && 0.0 <= p <= 1.0
    ensures 0.0 <= p * d <= d && 0.0 <= d * p <= d
  {
    Times(0.0, p, d);
    Times(p, 1.0, d);
  }

  lemma Divided(x: real, y: real, d: real)
    requires x <= y && d > 0.0
    ensures x / d <= y / d
  {
  }

  lemma QuotientsApart(a: real, b: real, n: real)
    requires n > 0.0
    ensures a / n - b / n == (a - b) / n
  {
  }

  /** When a share is less than the whole, and more than nothing. */
  lemma WholeShare(e: real, d: real)
    requires d > 0.0
    ensures e / d * d == e && (e / d < 1.0 <==> e < d) && (e / d > 0.0 <==> e > 0.0)
  {
  }

  lemma ShareEnds(d: real)
    requires d > 0.0
    ensures d / d == 1.0 && 0.0 / d == 0.0
  {
  }

  /** Counting one row more. */
  lemma OneMoreRow(before: set<nat>, after: set<nat>, last: nat, taken: bool)
    requires forall k :: k in before ==> k < last
    requires forall k :: k in after <==> k in before || (taken && k == last)
    ensures |after| == |before| + if taken then 1 else 0
  {
    assert after == if taken then before + {last} else before;
  }
}
