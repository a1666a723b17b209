/** The binned calibration error (ml/training.py), over exact reals. */
module Calibration {
  import opened Arithmetic

  /** One test row: its label and the probability predicted for it. */
  datatype Point = Point(outcome: real, probability: real)

  predicate Scored(points: seq<Point>) {
    forall k :: 0 <= k < |points| ==>
      (points[k].outcome == 0.0 || points[k].outcome == 1.0) && 0.0 <= points[k].probability <= 1.0
  }

  /** The mask of bin `index` of `bins`: half open, but the last one closed. */
  predicate InBin(p: real, index: nat, bins: nat)
    requires index < bins
  {
    index as real / bins as real <= p
    && if index == bins - 1 then p <= (index + 1) as real / bins as real else p < (index + 1) as real / bins as real
  }

  /** The bin a probability falls in. */
  function BinOf(p: real, bins: nat): (i: nat)
    requires bins > 0 && 0.0 <= p <= 1.0
    ensures i < bins
  {
    Times(0.0, p, bins as real);
    Capped((p * bins as real).Floor, bins)
  }

  function Capped(f: nat, bins: nat): (i: nat)
    requires bins > 0
    ensures i < bins
  {
    if f >= bins then bins - 1 else f
  }

  /** Multiplying by something positive keeps and reflects order. */
  lemma Ordered(a: real, b: real, d: real)
    requires d > 0.0
    ensures a <= b <==> a * d <= b * d
    ensures a < b <==> a * d < b * d
  {
  }

  /** Every probability falls in exactly one bin. */
  lemma OneBin(p: real, bins: nat, index: nat)
    requires bins > 0 && 0.0 <= p <= 1.0 && index < bins
    ensures InBin(p, index, bins) <==> index == BinOf(p, bins)
  {
  }

  // ---------------------------------------------------------------- sums over ranges of bins

  function Diff(x: Point): real {
    x.outcome - x.probability
  }

  function Abs(x: real): (r: real)
    ensures r >= 0.0 && r >= x && r >= -x && (r == x || r == -x)
  {
    if x >= 0.0 then x else -x
  }

  predicate Between(x: Point, bins: nat, low: nat, high: nat) {
    bins > 0 && 0.0 <= x.probability <= 1.0 && low <= BinOf(x.probability, bins) < high
  }

  /** The signed differences of the points whose bin lies in [low, high). */
  function Signed(points: seq<Point>, bins: nat, low: nat, high: nat): real {
    if points == [] then 0.0
    else
      var x := points[|points| - 1];
      Signed(points[..|points| - 1], bins, low, high) + if Between(x, bins, low, high) then Diff(x) else 0.0
  }

  /** Their absolute differences. */
  function Unsigned(points: seq<Point>, bins: nat, low: nat, high: nat): real {
    if points == [] then 0.0
    else
      var x := points[|points| - 1];
      Unsigned(points[..|points| - 1], bins, low, high) + if Between(x, bins, low, high) then Abs(Diff(x)) else 0.0
  }

  lemma {:induction false} Split(points: seq<Point>, bins: nat, low: nat, mid: nat, high: nat)
    requires low <= mid <= high
    ensures Signed(points, bins, low, high) == Signed(points, bins, low, mid) + Signed(points, bins, mid, high)
    ensures Unsigned(points, bins, low, high) == Unsigned(points, bins, low, mid) + Unsigned(points, bins, mid, high)
  {
    if points != [] {
      Split(points[..|points| - 1], bins, low, mid, high);
    }
  }

  lemma {:induction false} SignedAtMost(points: seq<Point>, bins: nat, low: nat, high: nat)
    ensures Abs(Signed(points, bins, low, high)) <= Unsigned(points, bins, low, high)
  {
    if points != [] {
      SignedAtMost(points[..|points| - 1], bins, low, high);
    }
  }

  lemma {:induction false} NoBins(points: seq<Point>, bins: nat, low: nat)
    ensures Signed(points, bins, low, low) == 0.0 && Unsigned(points, bins, low, low) == 0.0
  {
    if points != [] {
      NoBins(points[..|points| - 1], bins, low);
    }
  }

  /** The sum over bins low..high of each bin's absolute signed difference. */
  function BinGaps(points: seq<Point>, bins: nat, low: nat, high: nat): real
    requires low <= high
    decreases high - low
  {
    if low == high then 0.0
    else BinGaps(points, bins, low, high - 1) + Abs(Signed(points, bins, high - 1, high))
  }

  /** A range of bins: its gaps sum to at least the range's own gap, and at most its absolute differences. */
  lemma {:induction false} GapsBetween(points: seq<Point>, bins: nat, low: nat, high: nat)
    requires low <= high
    ensures Abs(Signed(points, bins, low, high)) <= BinGaps(points, bins, low, high) <= Unsigned(points, bins, low, high)
    decreases high - low
  {
    if low == high {
      NoBins(points, bins, low);
    } else {
      GapsBetween(points, bins, low, high - 1);
      Split(points, bins, low, high - 1, high);
      SignedAtMost(points, bins, high - 1, high);
    }
  }

  // ---------------------------------------------------------------- the error

  /** `_expected_calibration_error`: the bins' gaps over the number of points. */
  function CalibrationError(points: seq<Point>, bins: nat): real {
    if points == [] then 0.0 else BinGaps(points, bins, 0, bins) / |points| as real
  }

  function SumDiff(points: seq<Point>): real {
    if points == [] then 0.0 else SumDiff(points[..|points| - 1]) + Diff(points[|points| - 1])
  }

  function SumAbs(points: seq<Point>): real {
    if points == [] then 0.0 else SumAbs(points[..|points| - 1]) + Abs(Diff(points[|points| - 1]))
  }

  lemma {:induction false} AllBins(points: seq<Point>, bins: nat)
    requires bins > 0 && Scored(points)
    ensures Signed(points, bins, 0, bins) == SumDiff(points) && Unsigned(points, bins, 0, bins) == SumAbs(points)
    ensures SumAbs(points) <= |points| as real
  {
    if points != [] {
      AllBins(points[..|points| - 1], bins);
      assert Between(points[|points| - 1], bins, 0, bins);
    }
  }

  /** The sandwich: the calibration error is at least the gap between the mean label and the mean
      probability, at most the mean absolute error, and never above one. */
  lemma ErrorSandwich(points: seq<Point>, bins: nat)
    requires bins > 0 && Scored(points) && points != []
    ensures var n := |points| as real;
            Abs(SumDiff(points)) / n <= CalibrationError(points, bins) <= SumAbs(points) / n <= 1.0
  {
    AllBins(points, bins);
    GapsBetween(points, bins, 0, bins);
    Quotients(Abs(SumDiff(points)), BinGaps(points, bins, 0, bins), SumAbs(points), |points| as real);
  }

  lemma Quotients(a: real, b: real, c: real, n: real)
    requires a <= b <= c <= n && n > 0.0
    ensures a / n <= b / n <= c / n <= 1.0
  {
  }

  // ---------------------------------------------------------------- finer bins

  lemma {:induction false} ToReal(a: nat, k: nat)
    ensures (a * k) as real == a as real * k as real
  {
  }

  lemma {:induction false} Multiples(a: nat, b: nat, k: nat)
    requires a < b
    ensures a * k + k <= b * k
  {
    assert b * k == (b - 1) * k + k;
    if a < b - 1 {
      Multiples(a, b - 1, k);
    }
  }

  lemma Positive(a: real, d: real)
    requires a > 0.0 && d > 0.0
    ensures a * d > 0.0
  {
  }

  lemma Stretched(f: real, x: real, d: real, low: real, y: real)
    requires f <= x < f + 1.0 && d > 0.0 && low == f * d && y == x * d
    ensures low <= y < low + d
  {
    Times(f, x, d);
    var rest := f + 1.0 - x;
    Positive(rest, d);
    assert rest * d == low + d - y;
  }

  lemma FloorOfMultiple(x: real, k: nat)
    requires k > 0 && x >= 0.0
    ensures x.Floor * k <= (x * k as real).Floor < x.Floor * k + k
  {
    var f: nat, d := x.Floor, k as real;
    var low: nat, y := f * k, x * d;
    ToReal(f, k);
    Stretched(f as real, x, d, low as real, y);
    FloorAt(y, low, k);
  }

  lemma FloorAt(y: real, low: nat, k: nat)
    requires low as real <= y < low as real + k as real
    ensures low <= y.Floor < low + k
  {
  }

  /** Each bin is cut into k: where x falls among the coarse bins and k times x among the fine ones. */
  lemma FineShare(x: real, y: real, bins: nat, k: nat)
    requires bins > 0 && k > 0 && bins * k > 0 && 0.0 <= x <= bins as real && 0.0 <= y && y == x * k as real
    ensures var i, j := Capped(x.Floor, bins), Capped(y.Floor, bins * k);
            i * k <= j < i * k + k
  {
    FloorOfMultiple(x, k);
    if x.Floor >= bins {
      assert x.Floor == bins;
      assert bins * k == (bins - 1) * k + k;
    } else {
      Multiples(x.Floor, bins, k);
    }
  }

  lemma FineProduct(p: real, bins: nat, k: nat) returns (x: real, y: real)
    requires 0.0 <= p <= 1.0
    ensures x == p * bins as real && y == p * (bins * k) as real
    ensures 0.0 <= x <= bins as real && 0.0 <= y && y == x * k as real
  {
    x, y := p * bins as real, p * (bins * k) as real;
    ToReal(bins, k);
    Scaled(p, bins as real, k as real, (bins * k) as real, x, y);
  }

  lemma Scaled(p: real, b: real, d: real, bd: real, x: real, y: real)
    requires 0.0 <= p <= 1.0 && b >= 0.0 && d >= 0.0 && bd == b * d && x == p * b && y == p * bd
    ensures 0.0 <= x <= b && 0.0 <= y && y == x * d
  {
    Fraction(p, b);
    Times(0.0, x, d);
    Associative(p, b, d);
  }

  /** A point's fine bin lies in its coarse bin's share. */
  lemma FineBin(p: real, bins: nat, k: nat)
    requires bins > 0 && k > 0 && bins * k > 0 && 0.0 <= p <= 1.0
    ensures var i := BinOf(p, bins); i * k <= BinOf(p, bins * k) < i * k + k
  {
    var x, y := FineProduct(p, bins, k);
    FineShare(x, y, bins, k);
  }

  lemma Associative(a: real, b: real, c: real)
    ensures a * (b * c) == (a * b) * c
  {
  }

  lemma SharesApart(i: nat, j: nat, fine: nat, k: nat)
    requires i * k <= fine < i * k + k
    ensures j * k <= fine < j * k + k <==> i == j
  {
    if i < j { Multiples(i, j, k); }
    if j < i { Multiples(j, i, k); }
  }

  lemma FineBetween(x: Point, bins: nat, k: nat, index: nat)
    requires bins > 0 && k > 0 && bins * k > 0 && 0.0 <= x.probability <= 1.0
    ensures Between(x, bins * k, index * k, index * k + k) == Between(x, bins, index, index + 1)
  {
    FineBin(x.probability, bins, k);
    SharesApart(BinOf(x.probability, bins), index, BinOf(x.probability, bins * k), k);
  }

  lemma {:induction false} FineRange(points: seq<Point>, bins: nat, k: nat, index: nat)
    requires bins > 0 && k > 0 && bins * k > 0 && Scored(points)
    ensures Signed(points, bins * k, index * k, index * k + k) == Signed(points, bins, index, index + 1)
  {
    if points != [] {
      var x := points[|points| - 1];
      FineRange(points[..|points| - 1], bins, k, index);
      FineBetween(x, bins, k, index);
    }
  }

  lemma {:induction false} GapsJoin(points: seq<Point>, bins: nat, low: nat, mid: nat, high: nat)
    requires low <= mid <= high
    ensures BinGaps(points, bins, low, high) == BinGaps(points, bins, low, mid) + BinGaps(points, bins, mid, high)
    decreases high - mid
  {
    if mid < high {
      GapsJoin(points, bins, low, mid, high - 1);
    }
  }

  lemma {:induction false} FinerGaps(points: seq<Point>, bins: nat, k: nat, n: nat)
    requires bins > 0 && k > 0 && bins * k > 0 && Scored(points)
    ensures BinGaps(points, bins, 0, n) <= BinGaps(points, bins * k, 0, n * k)
  {
    if n > 0 {
      var low: nat := (n - 1) * k;
      assert n * k == low + k;
      FinerGaps(points, bins, k, n - 1);
      FineRange(points, bins, k, n - 1);
      GapsBetween(points, bins * k, low, low + k);
      GapsJoin(points, bins * k, 0, low, low + k);
    }
  }

  /** Cutting every bin into k equal parts never lowers the error. */
  lemma FinerNeverLower(points: seq<Point>, bins: nat, k: nat)
    requires bins > 0 && k > 0 && Scored(points)
    ensures CalibrationError(points, bins) <= CalibrationError(points, bins * k)
  {
    if points != [] {
      Multiples(0, bins, k);
      FinerGaps(points, bins, k, bins);
      Divided(BinGaps(points, bins, 0, bins), BinGaps(points, bins * k, 0, bins * k), |points| as real);
    }
  }

  // ---------------------------------------------------------------- the loop

  datatype Mask = Mask(count: nat, outcomes: real, probabilities: real)

  /** How many points a bin holds, and the sums its means are taken from. */
  method Masked(points: seq<Point>, index: nat, bins: nat) returns (m: Mask)
    requires index < bins && Scored(points)
    ensures m.count <= |points|
    ensures m.outcomes - m.probabilities == Signed(points, bins, index, index + 1)
    ensures m.count == 0 ==> Signed(points, bins, index, index + 1) == 0.0
  {
    m := Mask(0, 0.0, 0.0);
    for k := 0 to |points|
      invariant m.count <= k
      invariant m.outcomes - m.probabilities == Signed(points[..k], bins, index, index + 1)
      invariant m.count == 0 ==> Signed(points[..k], bins, index, index + 1) == 0.0
    {
      var x := points[k];
      OneBin(x.probability, bins, index);
      assert points[..k + 1][..k] == points[..k];
      if InBin(x.probability, index, bins) {
        m := Mask(m.count + 1, m.outcomes + x.outcome, m.probabilities + x.probability);
      }
    }
    assert points[..|points|] == points;
  }

  /** `_expected_calibration_error`, bin by bin: the share of points in the bin times the gap between
      its mean label and its mean probability. */
  method ExpectedCalibrationError(points: seq<Point>, bins: nat) returns (error: real)
    requires Scored(points)
    ensures error == CalibrationError(points, bins)
  {
    error := 0.0;
    var total := |points|;
    if total == 0 {
      return 0.0;
    }
    NothingShared(total as real);
    for index := 0 to bins
      invariant error == BinGaps(points, bins, 0, index) / total as real
    {
      var m := Masked(points, index, bins);
      GapAdded(m, total, BinGaps(points, bins, 0, index), Abs(Signed(points, bins, index, index + 1)));
      if m.count > 0 {
        error := error + MaskTerm(m, total);
      }
    }
  }

  /** A bin's share of the points times the distance between its two means. */
  function MaskTerm(m: Mask, total: nat): real
    requires m.count > 0 && total > 0
  {
    var n := m.count as real;
    n / total as real * Abs(m.outcomes / n - m.probabilities / n)
  }

  /** One turn of the loop adds the bin's gap, over the number of points, to the error. */
  lemma GapAdded(m: Mask, total: nat, before: real, gap: real)
    requires total > 0 && gap == Abs(m.outcomes - m.probabilities) && (m.count == 0 ==> gap == 0.0)
    ensures before / total as real + (if m.count > 0 then MaskTerm(m, total) else 0.0) == (before + gap) / total as real
  {
    SumOfQuotients(before, gap, total as real);
    if m.count > 0 {
      MeansApart(m.outcomes, m.probabilities, m.count as real);
      ShareTimesMean(m.count as real, total as real, gap);
    }
  }

  /** The distance between two means over the same count. */
  lemma MeansApart(a: real, b: real, n: real)
    requires n > 0.0
    ensures Abs(a / n - b / n) == Abs(a - b) / n
  {
    QuotientsApart(a, b, n);
    if a >= b {
      Divided(b, a, n);
    } else {
      Divided(a, b, n);
      QuotientsApart(b, a, n);
    }
  }

  lemma ShareTimesMean(n: real, total: real, gap: real)
    requires n > 0.0 && total > 0.0
    ensures n / total * (gap / n) == gap / total
  {
  }

  lemma SumOfQuotients(a: real, b: real, t: real)
    requires t > 0.0
    ensures (a + b) / t == a / t + b / t
  {
  }

  lemma NothingShared(t: real)
    requires t > 0.0
    ensures 0.0 / t == 0.0
  {
  }
}
