/** The comparison of action policies on potential outcomes (ml/training.py). */
module Evaluation {
  import opened Arithmetic
  import opened Simulator

  const TRANSIENT_SOURCES: set<string> := {"bank", "gateway"}
  const TRANSIENT_REASONS: set<string> := {"bank_error", "payment_failed", "payment_timed_out"}

  /** The first column holding the row's maximum. */
  function ArgMax(row: seq<real>): (k: nat)
    requires row != []
    ensures k < |row|
    ensures forall j :: 0 <= j < |row| ==> row[j] <= row[k]
    ensures forall j :: 0 <= j < k ==> row[j] < row[k]
  {
    if |row| == 1 then 0
    else
      var last := |row| - 1;
      var k := ArgMax(row[..last]);
      assert forall j :: 0 <= j < last ==> row[..last][j] == row[j];
      if row[last] > row[k] then last else k
  }

  // ---------------------------------------------------------------- policies

  /** Which column a policy picks in each row. */
  type Choices = seq<nat>

  predicate Valid(choices: Choices, rows: nat) {
    |choices| == rows && forall i :: 0 <= i < rows ==> choices[i] < |COLUMNS|
  }

  function OracleChoice(c: Drawn, format: Format): (k: nat)
    ensures k < |COLUMNS|
  {
    ArgMax(ProbabilityRow(Hidden(c, format)))
  }

  /** The rule baseline's pick: column 1 is RECOVERY_LINK, column 0 NO_INTERVENTION. */
  function RuleChoice(c: Drawn): (k: nat)
    ensures k < |COLUMNS|
  {
    if c.profile.source in TRANSIENT_SOURCES || c.profile.reason in TRANSIENT_REASONS then 1 else 0
  }

  function Oracle(cases: seq<Drawn>, format: Format): (r: Choices)
    ensures Valid(r, |cases|)
  {
    seq(|cases|, i requires 0 <= i < |cases| => OracleChoice(cases[i], format))
  }

  function Rule(cases: seq<Drawn>): (r: Choices)
    ensures Valid(r, |cases|)
  {
    seq(|cases|, i requires 0 <= i < |cases| => RuleChoice(cases[i]))
  }

  function Always(cases: seq<Drawn>, k: nat): (r: Choices)
    requires k < |COLUMNS|
    ensures Valid(r, |cases|)
  {
    seq(|cases|, _ => k)
  }

  /** The model's pick from its own predictions. */
  function Predicted(predictions: seq<seq<real>>): (r: Choices)
    requires forall i :: 0 <= i < |predictions| ==> |predictions[i]| == |COLUMNS|
    ensures Valid(r, |predictions|)
  {
    seq(|predictions|, i requires 0 <= i < |predictions| => ArgMax(predictions[i]))
  }

  /** Rows in which the picked column recovers. */
  function Hits(cases: seq<Drawn>, choices: Choices): (n: nat)
    requires Valid(choices, |cases|)
    ensures n <= |cases|
  {
    if cases == [] then 0
    else
      var last := |cases| - 1;
      Hits(cases[..last], choices[..last]) + if WouldRecover(cases[last], COLUMNS[choices[last]]) then 1 else 0
  }

  /** A reported recovery rate. */
  function Rate(cases: seq<Drawn>, choices: Choices): real
    requires cases != [] && Valid(choices, |cases|)
  {
    Hits(cases, choices) as real / |cases| as real
  }

  datatype Comparison = Comparison(ai: real, rule: real, lift: real, oracle: real, outperformed: bool)

  /** `_compare_with_rule_baseline`, its rates. */
  function Compare(cases: seq<Drawn>, format: Format, predictions: seq<seq<real>>): Comparison
    requires cases != [] && |predictions| == |cases|
    requires forall i :: 0 <= i < |predictions| ==> |predictions[i]| == |COLUMNS|
  {
    var ai := Rate(cases, Predicted(predictions));
    var rule := Rate(cases, Rule(cases));
    Comparison(ai, rule, ai - rule, Rate(cases, Oracle(cases, format)), ai > rule)
  }

  // ---------------------------------------------------------------- what the figures are

  /** The rows in which the picked intervention recovers: the draw is below its chance. */
  ghost function HitRows(cases: seq<Drawn>, choices: Choices): set<nat>
    requires Valid(choices, |cases|)
  {
    set i: nat | i < |cases| && cases[i].draw < Chance(cases[i], COLUMNS[choices[i]])
  }

  lemma {:induction false} HitsCounted(cases: seq<Drawn>, choices: Choices)
    requires Valid(choices, |cases|)
    ensures Hits(cases, choices) == |HitRows(cases, choices)|
  {
    if cases != [] {
      HitsCounted(cases[..|cases| - 1], choices[..|cases| - 1]);
      OneMoreHit(cases, choices);
    }
  }

  lemma OneMoreHit(cases: seq<Drawn>, choices: Choices)
    requires cases != [] && Valid(choices, |cases|)
    ensures var last := |cases| - 1;
            && Valid(choices[..last], last)
            && |HitRows(cases, choices)| == |HitRows(cases[..last], choices[..last])|
                 + if WouldRecover(cases[last], COLUMNS[choices[last]]) then 1 else 0
  {
    var last := |cases| - 1;
    OneMoreRow(HitRows(cases[..last], choices[..last]), HitRows(cases, choices), last,
               WouldRecover(cases[last], COLUMNS[choices[last]]));
  }

  /** The failures the rule answers with a link. */
  predicate PassingProfile(p: Profile) {
    || p.source == "bank" || p.source == "gateway"
    || p.reason == "bank_error" || p.reason == "payment_failed" || p.reason == "payment_timed_out"
  }

  /** The first of the row's greatest values. */
  predicate FirstGreatest(row: seq<real>, k: nat) {
    && k < |row| && (forall j :: 0 <= j < |row| ==> row[j] <= row[k])
    && forall j :: 0 <= j < k ==> row[j] < row[k]
  }

  /** Which interventions the policies pick: the rule a link for a passing failure and nothing else; the
      model the first column it predicts to be best. */
  lemma PolicyPicks(cases: seq<Drawn>, predictions: seq<seq<real>>, i: nat)
    requires i < |cases| == |predictions|
    requires forall j :: 0 <= j < |predictions| ==> |predictions[j]| == |COLUMNS|
    ensures COLUMNS[Rule(cases)[i]] == if PassingProfile(cases[i].profile) then RecoveryLink else NoIntervention
    ensures FirstGreatest(predictions[i], Predicted(predictions)[i])
  {
  }

  /** The comparison: each policy's share of hits, the lift as model less rule, and whether the model is
      strictly ahead. */
  lemma CompareTable(cases: seq<Drawn>, format: Format, predictions: seq<seq<real>>)
    requires cases != [] && |predictions| == |cases|
    requires forall i :: 0 <= i < |predictions| ==> |predictions[i]| == |COLUMNS|
    ensures var r, n := Compare(cases, format, predictions), |cases| as real;
            && r.ai == |HitRows(cases, Predicted(predictions))| as real / n
            && r.rule == |HitRows(cases, Rule(cases))| as real / n
            && r.oracle == |HitRows(cases, Oracle(cases, format))| as real / n
            && r.lift == r.ai - r.rule && (r.outperformed <==> r.rule < r.ai)
  {
    HitsCounted(cases, Predicted(predictions));
    HitsCounted(cases, Rule(cases));
    HitsCounted(cases, Oracle(cases, format));
  }

  // ---------------------------------------------------------------- dominance

  /** In every row where one policy recovers, the other does too. */
  predicate Dominates(cases: seq<Drawn>, better: Choices, worse: Choices)
    requires Valid(better, |cases|) && Valid(worse, |cases|)
  {
    forall i :: 0 <= i < |cases| && WouldRecover(cases[i], COLUMNS[worse[i]]) ==> WouldRecover(cases[i], COLUMNS[better[i]])
  }

  lemma {:induction false} MoreHits(cases: seq<Drawn>, better: Choices, worse: Choices)
    requires Valid(better, |cases|) && Valid(worse, |cases|) && Dominates(cases, better, worse)
    ensures Hits(cases, worse) <= Hits(cases, better)
  {
    if cases != [] {
      var last := |cases| - 1;
      assert Valid(better[..last], last) && Valid(worse[..last], last);
      forall i | 0 <= i < last && WouldRecover(cases[..last][i], COLUMNS[worse[..last][i]])
        ensures WouldRecover(cases[..last][i], COLUMNS[better[..last][i]]) {
        assert WouldRecover(cases[i], COLUMNS[worse[i]]);
      }
      MoreHits(cases[..last], better[..last], worse[..last]);
    }
  }

  lemma Quotients(a: nat, b: nat, n: nat)
    requires a <= b <= n && n > 0
    ensures 0.0 <= a as real / n as real <= b as real / n as real <= 1.0
  {
    var d := n as real;
    Divided(0.0, a as real, d);
    Divided(a as real, b as real, d);
    Divided(b as real, d, d);
    assert 0.0 / d == 0.0 && d / d == 1.0;
  }

  lemma HigherRate(cases: seq<Drawn>, better: Choices, worse: Choices)
    requires cases != [] && Valid(better, |cases|) && Valid(worse, |cases|) && Dominates(cases, better, worse)
    ensures 0.0 <= Rate(cases, worse) <= Rate(cases, better) <= 1.0
  {
    MoreHits(cases, better, worse);
    Quotients(Hits(cases, worse), Hits(cases, better), |cases|);
  }

  // ---------------------------------------------------------------- what the oracle sees

  /** Writing probabilities keeps their order, though it may make them equal. */
  ghost predicate Monotone(format: Format) {
    forall p: real, q: real :: p <= q ==> format(p) <= format(q)
  }

  /** Probabilities written and read back without loss. */
  ghost predicate Exact(format: Format) {
    forall p :: format(p) == p
  }

  function Greater(p: real, q: real): real {
    if p >= q then p else q
  }

  /** The best chance any intervention has. */
  function BestChance(c: Drawn): (p: real)
    ensures forall a :: Chance(c, a) <= p
    ensures exists a :: Chance(c, a) == p
  {
    Greater(Greater(Chance(c, NoIntervention), Chance(c, RecoveryLink)), Greater(Chance(c, UpdatePrompt), Chance(c, Delay)))
  }

  /** The column before every other that reads like the best chance once written. */
  function FirstTied(c: Drawn, format: Format): Intervention {
    var best := format(BestChance(c));
    if format(Chance(c, NoIntervention)) == best then NoIntervention
    else if format(Chance(c, RecoveryLink)) == best then RecoveryLink
    else if format(Chance(c, UpdatePrompt)) == best then UpdatePrompt
    else Delay
  }

  /** The draw falls short of the best chance, but not of the chance of the first column that reads like it. */
  predicate Missed(c: Drawn, format: Format) {
    Chance(c, FirstTied(c, format)) <= c.draw < BestChance(c)
  }

  function ColumnOf(a: Intervention): (k: nat)
    ensures k < |COLUMNS| && COLUMNS[k] == a
  {
    match a
    case NoIntervention => 0
    case RecoveryLink => 1
    case UpdatePrompt => 2
    case Delay => 3
  }

  lemma ColumnReads(c: Drawn, format: Format, a: Intervention)
    ensures ProbabilityRow(Hidden(c, format))[ColumnOf(a)] == format(Chance(c, a))
  {
    ColumnsAligned(c, format, ColumnOf(a));
  }

  /** The oracle picks the first column that reads like the best chance. */
  lemma OraclePicksFirstTied(c: Drawn, format: Format)
    requires Monotone(format)
    ensures COLUMNS[OracleChoice(c, format)] == FirstTied(c, format)
  {
    var row, k := ProbabilityRow(Hidden(c, format)), OracleChoice(c, format);
    forall a: Intervention ensures row[ColumnOf(a)] == format(Chance(c, a)) <= format(BestChance(c)) {
      ColumnReads(c, format, a);
    }
    var best :| Chance(c, best) == BestChance(c);
    assert row[ColumnOf(best)] <= row[k];
    assert row[ColumnOf(COLUMNS[k])] == format(BestChance(c));
    assert row[ColumnOf(FirstTied(c, format))] == format(BestChance(c));
  }

  /** A column with a better chance than the picked one reads exactly like it. */
  lemma OnlyTiesAreOverlooked(c: Drawn, format: Format, a: Intervention)
    requires Monotone(format) && Chance(c, a) > Chance(c, COLUMNS[OracleChoice(c, format)])
    ensures format(Chance(c, a)) == format(Chance(c, COLUMNS[OracleChoice(c, format)]))
  {
    ColumnReads(c, format, a);
    ColumnReads(c, format, COLUMNS[OracleChoice(c, format)]);
  }

  /** Some intervention recovers a row the oracle does not exactly when the draw lies between the chance of
      the first column tied with the best and the best chance. */
  lemma OracleMisses(c: Drawn, format: Format)
    requires Monotone(format)
    ensures (exists a :: WouldRecover(c, a) && !WouldRecover(c, COLUMNS[OracleChoice(c, format)])) <==> Missed(c, format)
  {
    OraclePicksFirstTied(c, format);
    var best :| Chance(c, best) == BestChance(c);
    if Missed(c, format) {
      assert WouldRecover(c, best);
    }
  }

  lemma ExactMissesNothing(c: Drawn, format: Format)
    requires Exact(format)
    ensures Monotone(format) && !Missed(c, format)
  {
  }

  // ---------------------------------------------------------------- rates

  function MissedRows(cases: seq<Drawn>, format: Format): (n: nat)
    ensures n <= |cases|
  {
    if cases == [] then 0
    else MissedRows(cases[..|cases| - 1], format) + if Missed(cases[|cases| - 1], format) then 1 else 0
  }

  lemma {:induction false} NoneMissed(cases: seq<Drawn>, format: Format)
    ensures MissedRows(cases, format) == 0 <==> forall c :: c in cases ==> !Missed(c, format)
  {
    if cases != [] {
      var last := |cases| - 1;
      NoneMissed(cases[..last], format);
      assert cases == cases[..last] + [cases[last]];
    }
  }

  lemma OneRow(c: Drawn, format: Format, k: nat)
    requires Monotone(format) && k < |COLUMNS|
    ensures WouldRecover(c, COLUMNS[k]) ==> WouldRecover(c, COLUMNS[OracleChoice(c, format)]) || Missed(c, format)
  {
    OracleMisses(c, format);
  }

  /** No policy recovers more rows than the oracle does and misses. */
  lemma {:induction false} HitsBounded(cases: seq<Drawn>, format: Format, choices: Choices)
    requires Monotone(format) && Valid(choices, |cases|)
    ensures Hits(cases, choices) <= Hits(cases, Oracle(cases, format)) + MissedRows(cases, format)
  {
    if cases != [] {
      var last := |cases| - 1;
      HitsBounded(cases[..last], format, choices[..last]);
      OracleShorter(cases, format);
      OneRow(cases[last], format, choices[last]);
    }
  }

  /** No rounding at all, which makes the oracle the best pick in every row. */
  function Identity(p: real): real {
    p
  }

  lemma {:induction false} BestHits(cases: seq<Drawn>, format: Format)
    requires Monotone(format)
    ensures Hits(cases, Oracle(cases, Identity)) == Hits(cases, Oracle(cases, format)) + MissedRows(cases, format)
  {
    if cases != [] {
      var last := |cases| - 1;
      BestHits(cases[..last], format);
      OracleShorter(cases, format);
      OracleShorter(cases, Identity);
      BestPick(cases[last], format);
    }
  }

  lemma OracleShorter(cases: seq<Drawn>, format: Format)
    requires cases != []
    ensures Oracle(cases, format)[..|cases| - 1] == Oracle(cases[..|cases| - 1], format)
    ensures Oracle(cases, format)[|cases| - 1] == OracleChoice(cases[|cases| - 1], format)
  {
  }

  /** The best pick recovers what the oracle recovers and what it misses, and those exclude each other. */
  lemma BestPick(c: Drawn, format: Format)
    requires Monotone(format)
    ensures WouldRecover(c, COLUMNS[OracleChoice(c, Identity)]) <==>
              WouldRecover(c, COLUMNS[OracleChoice(c, format)]) || Missed(c, format)
    ensures !(WouldRecover(c, COLUMNS[OracleChoice(c, format)]) && Missed(c, format))
  {
    OraclePicksFirstTied(c, format);
    OraclePicksFirstTied(c, Identity);
    assert Chance(c, FirstTied(c, Identity)) == BestChance(c);
  }

  function MissedShare(cases: seq<Drawn>, format: Format): (r: real)
    requires cases != []
  {
    MissedRows(cases, format) as real / |cases| as real
  }

  lemma SumOfShares(a: nat, b: nat, n: nat)
    requires n > 0
    ensures (a + b) as real / n as real == a as real / n as real + b as real / n as real
  {
  }

  /** A policy's rate exceeds the oracle's by at most the share of missed rows, and the best pick in every
      row attains it. */
  lemma OracleGap(cases: seq<Drawn>, format: Format, choices: Choices)
    requires cases != [] && Monotone(format) && Valid(choices, |cases|)
    ensures Rate(cases, choices) <= Rate(cases, Oracle(cases, format)) + MissedShare(cases, format)
    ensures Rate(cases, Oracle(cases, Identity)) == Rate(cases, Oracle(cases, format)) + MissedShare(cases, format)
  {
    var n := |cases|;
    var hits, missed := Hits(cases, Oracle(cases, format)), MissedRows(cases, format);
    HitsBounded(cases, format, choices);
    BestHits(cases, format);
    Divided(Hits(cases, choices) as real, (hits + missed) as real, n as real);
    SumOfShares(hits, missed, n);
  }

  lemma ShareZero(missed: nat, n: nat)
    requires n > 0
    ensures missed as real / n as real >= 0.0
    ensures missed as real / n as real == 0.0 <==> missed == 0
  {
    var share := missed as real / n as real;
    assert share * n as real == missed as real;
  }

  /** The reported oracle rate is an upper bound for every policy if and only if no row is missed. */
  lemma OracleIsBest(cases: seq<Drawn>, format: Format)
    requires cases != [] && Monotone(format)
    ensures (forall choices: Choices ::
               Valid(choices, |cases|) ==> Rate(cases, choices) <= Rate(cases, Oracle(cases, format)))
            <==> forall c :: c in cases ==> !Missed(c, format)
  {
    NoneMissed(cases, format);
    ShareZero(MissedRows(cases, format), |cases|);
    OracleGap(cases, format, Oracle(cases, Identity));
    if MissedRows(cases, format) == 0 {
      forall choices: Choices | Valid(choices, |cases|)
        ensures Rate(cases, choices) <= Rate(cases, Oracle(cases, format)) {
        OracleGap(cases, format, choices);
      }
    } else {
      assert Valid(Oracle(cases, Identity), |cases|);
      assert Rate(cases, Oracle(cases, Identity)) > Rate(cases, Oracle(cases, format));
    }
  }

  /** On exact probabilities, and whenever no row is missed, the oracle dominates every policy row by row,
      so no reported rate beats its. */
  lemma OracleDominates(cases: seq<Drawn>, format: Format, choices: Choices)
    requires cases != [] && Valid(choices, |cases|)
    requires Exact(format) || (Monotone(format) && forall c :: c in cases ==> !Missed(c, format))
    ensures Dominates(cases, Oracle(cases, format), choices)
    ensures Rate(cases, choices) <= Rate(cases, Oracle(cases, format))
  {
    forall i | 0 <= i < |cases| && WouldRecover(cases[i], COLUMNS[choices[i]])
      ensures WouldRecover(cases[i], COLUMNS[Oracle(cases, format)[i]]) {
      if Exact(format) {
        ExactMissesNothing(cases[i], format);
      }
      OneRow(cases[i], format, choices[i]);
    }
    HigherRate(cases, Oracle(cases, format), choices);
  }

  lemma LinkNeverHurts(c: Drawn)
    requires c.profile in FAILURE_PROFILES && WouldRecover(c, NoIntervention)
    ensures WouldRecover(c, RecoveryLink)
  {
  }

  lemma RuleBetween(cases: seq<Drawn>)
    requires cases != [] && forall i :: 0 <= i < |cases| ==> cases[i].profile in FAILURE_PROFILES
    ensures 0.0 <= Rate(cases, Always(cases, 0)) <= Rate(cases, Rule(cases)) <= Rate(cases, Always(cases, 1)) <= 1.0
  {
    forall i | 0 <= i < |cases| && WouldRecover(cases[i], NoIntervention) ensures WouldRecover(cases[i], RecoveryLink) {
      LinkNeverHurts(cases[i]);
    }
    HigherRate(cases, Rule(cases), Always(cases, 0));
    HigherRate(cases, Always(cases, 1), Rule(cases));
  }

  /** The ladder of policies: doing nothing <= the rule <= always sending a link <= the oracle, and the
      model's rate and its lift over the rule stay under the oracle's; the oracle's rungs give way by at
      most the share of missed rows, which is nothing on exact probabilities. */
  lemma PolicyLadder(cases: seq<Drawn>, format: Format, predictions: seq<seq<real>>)
    requires cases != [] && Monotone(format) && forall i :: 0 <= i < |cases| ==> cases[i].profile in FAILURE_PROFILES
    requires |predictions| == |cases| && forall i :: 0 <= i < |predictions| ==> |predictions[i]| == |COLUMNS|
    ensures var r := Compare(cases, format, predictions);
            var gap := MissedShare(cases, format);
            && 0.0 <= Rate(cases, Always(cases, 0)) <= r.rule <= Rate(cases, Always(cases, 1)) <= r.oracle + gap
            && r.oracle <= 1.0 && 0.0 <= r.ai <= r.oracle + gap
            && -1.0 <= r.lift <= r.oracle + gap - r.rule
            && (Exact(format) ==> gap == 0.0)
  {
    RuleBetween(cases);
    OracleGap(cases, format, Always(cases, 1));
    OracleGap(cases, format, Predicted(predictions));
    HigherRate(cases, Predicted(predictions), Predicted(predictions));
    HigherRate(cases, Oracle(cases, format), Oracle(cases, format));
    if Exact(format) {
      forall c | c in cases ensures !Missed(c, format) { ExactMissesNothing(c, format); }
      NoneMissed(cases, format);
      ShareZero(0, |cases|);
    }
  }

  // ---------------------------------------------------------------- six digits

  /** The nearest integer, ties to even. */
  function HalfEven(x: real): (r: int)
    ensures -0.5 <= r as real - x <= 0.5
  {
    var rest := x - x.Floor as real;
    if rest < 0.5 || (rest == 0.5 && x.Floor % 2 == 0) then x.Floor else x.Floor + 1
  }

  lemma HalfEvenMonotone(x: real, y: real)
    requires x <= y
    ensures HalfEven(x) <= HalfEven(y)
  {
  }

  /** `:.6f`, read back. */
  function SixDigits(p: real): real {
    HalfEven(p * 1000000.0) as real / 1000000.0
  }

  /** What is read back is within half a millionth of what was written. */
  ghost predicate Faithful(format: Format) {
    forall p :: -0.0000005 <= format(p) - p <= 0.0000005
  }

  lemma SixDigitsOrdered()
    ensures Monotone(SixDigits) && Faithful(SixDigits)
  {
    forall p: real, q: real | p <= q ensures SixDigits(p) <= SixDigits(q) {
      HalfEvenMonotone(p * 1000000.0, q * 1000000.0);
    }
  }

  /** A missed row's draw lies in a gap of at most a millionth. */
  lemma MissedGap(c: Drawn, format: Format)
    requires Monotone(format) && Faithful(format)
    ensures BestChance(c) - Chance(c, FirstTied(c, format)) <= 0.000001
  {
    var best :| Chance(c, best) == BestChance(c);
    OraclePicksFirstTied(c, format);
  }

  /** The reported oracle, on six-digit probabilities: it misses a row exactly when the draw lies between
      the chance of the first column tied at six digits and the best chance, at most a millionth apart. */
  lemma SixDigitOracle(c: Drawn)
    ensures (exists a :: WouldRecover(c, a) && !WouldRecover(c, COLUMNS[OracleChoice(c, SixDigits)])) <==>
              Missed(c, SixDigits)
    ensures BestChance(c) - Chance(c, FirstTied(c, SixDigits)) <= 0.000001
  {
    SixDigitsOrdered();
    OracleMisses(c, SixDigits);
    MissedGap(c, SixDigits);
  }

  /** Such rows can be drawn: the oracle the report uses is not always best. */
  lemma SixDigitsCanTie() returns (c: Drawn)
    ensures Drawable(c)
    ensures WouldRecover(c, Delay) && !WouldRecover(c, COLUMNS[OracleChoice(c, SixDigits)])
  {
    c := Drawn(FAILURE_PROFILES[2], 0.0797, 5, 9, 1, 13, 3, 0.0100001);
    assert HistoryRate(c) == 5.0 / 14.0;
    var p := Chance(c, Delay);
    assert 0.0100002 < p < 0.0100003;
    assert HalfEven(p * 1000000.0) == 10000;
    assert SixDigits(p) == SixDigits(0.01);
    assert Chance(c, NoIntervention) == Chance(c, RecoveryLink) == Chance(c, UpdatePrompt) == 0.01;
    SixDigitsOrdered();
    OraclePicksFirstTied(c, SixDigits);
  }
}
