/** The revenue-at-risk snapshot (analytics/revenue_at_risk.py) as functions of the active cases. */
module RevenueSpec {
  import opened Outcomes
  import opened Lifecycle
  import opened Ordering
  import opened Records
  import opened SweepSpec
  import opened BaselineSpec

  /** How the texts of generated ids compare. */
  type Key = nat -> int

  ghost predicate Injective(key: Key) {
    forall a: nat, b: nat :: key(a) == key(b) ==> a == b
  }

  // ---------------------------------------------------------------- arithmetic

  /** The nearest integer, ties away from zero: ROUND_HALF_UP. */
  function HalfUp(x: real): (r: int)
    ensures -0.5 <= r as real - x <= 0.5
    ensures r as real - x == 0.5 ==> x >= 0.0
    ensures r as real - x == -0.5 ==> x < 0.0
  {
    if x >= 0.0 then (x + 0.5).Floor else -((0.5 - x).Floor)
  }

  /** `_probability`: what the decision's scores say, if that is a probability. */
  function Probability(d: Option<Decision>): (p: Option<real>)
    ensures p.Some? ==> 0.0 <= p.value <= 1.0
  {
    if d.Some? && d.value.score.Score? && 0.0 <= d.value.score.number <= 1.0 then Some(d.value.score.number) else None
  }

  /** `_expected_amount`. */
  function Expected(amount: int, p: Option<real>): Option<int> {
    if p.Some? then Some(HalfUp(amount as real * p.value)) else None
  }

  /** The part of the recovery window that has passed. */
  function Elapsed(start: int, end: int, now: int): (f: real)
  {
    if end - start <= 0 then 0.0
    else
      var left := (end - now) as real / (end - start) as real;
      var capped := if left < 1.0 then left else 1.0;
      1.0 - if capped > 0.0 then capped else 0.0
  }

  /** A value raised by the urgency factor. */
  function Raised(basis: int, elapsed: real): real {
    basis as real * (1.0 + elapsed)
  }

  function Basis(amount: int, expected: Option<int>): int {
    if expected.Some? then expected.value else amount
  }

  /** `_priority_score`. */
  function PriorityScore(c: RecoveryCase, expected: Option<int>, now: int): int {
    HalfUp(Raised(Basis(c.amount, expected), Elapsed(c.windowStart, c.windowEnd, now)))
  }

  // ---------------------------------------------------------------- latest decisions

  /** Decision a was made after decision b; equal times are told apart by id. */
  predicate Newer(decisions: seq<Decision>, key: Key, a: nat, b: nat)
    requires a < |decisions| && b < |decisions|
  {
    decisions[a].createdAt > decisions[b].createdAt
    || (decisions[a].createdAt == decisions[b].createdAt && key(a) > key(b))
  }

  /** The newest of the first n decisions on the case. */
  function Latest(decisions: seq<Decision>, key: Key, n: nat, c: CaseId): (r: Option<nat>)
    requires n <= |decisions|
    ensures r.Some? ==> r.value < n && decisions[r.value].caseId == c
  {
    if n == 0 then None
    else
      var r := Latest(decisions, key, n - 1, c);
      if decisions[n - 1].caseId == c && (r.None? || Newer(decisions, key, n - 1, r.value)) then Some(n - 1) else r
  }

  function LatestOf(decisions: seq<Decision>, key: Key, c: CaseId): Option<Decision> {
    var r := Latest(decisions, key, |decisions|, c);
    if r.Some? then Some(decisions[r.value]) else None
  }

  /** The decisions on these cases. */
  function About(decisions: seq<Decision>, ids: seq<CaseId>, n: nat): (rows: seq<nat>)
    requires n <= |decisions|
    ensures forall k :: 0 <= k < |rows| ==> rows[k] < n
  {
    if n == 0 then []
    else About(decisions, ids, n - 1) + if decisions[n - 1].caseId in ids then [n - 1] else []
  }

  function NewerThan(decisions: seq<Decision>, key: Key): (nat, nat) -> bool {
    (a: nat, b: nat) => a < |decisions| && b < |decisions| && Newer(decisions, key, a, b)
  }

  /** The rows the query for these cases returns: newest first. */
  function NewestFirst(decisions: seq<Decision>, key: Key, ids: seq<CaseId>): seq<nat> {
    SortBy(NewerThan(decisions, key), About(decisions, ids, |decisions|))
  }

  // ---------------------------------------------------------------- opportunities

  datatype Opportunity = Opportunity(
    caseId: CaseId, source: SourceType, sourceId: string, status: Status, amount: int, currency: string,
    probability: Option<real>, expected: Option<int>, score: int, windowEnd: int)

  function OpportunityOf(c: CaseId, row: RecoveryCase, d: Option<Decision>, now: int): Opportunity {
    var p := Probability(d);
    var expected := Expected(row.amount, p);
    Opportunity(c, row.source, row.sourceId, row.status, row.amount, row.currency, p, expected,
                PriorityScore(row, expected, now), row.windowEnd)
  }

  /** The opportunities of the active cases, in list order. */
  function Opportunities(core: Core, key: Key, ids: seq<CaseId>, now: int): (rows: seq<Opportunity>)
    requires forall k :: 0 <= k < |ids| ==> ids[k] < |core.store.cases|
    ensures |rows| == |ids|
    ensures forall k :: 0 <= k < |ids| ==>
              rows[k] == OpportunityOf(ids[k], core.store.cases[ids[k]], LatestOf(core.trials.decisions, key, ids[k]), now)
  {
    seq(|ids|, k requires 0 <= k < |ids| =>
      OpportunityOf(ids[k], core.store.cases[ids[k]], LatestOf(core.trials.decisions, key, ids[k]), now))
  }

  // ---------------------------------------------------------------- per-currency sums

  datatype Totals = Totals(atRisk: int, expected: int, active: nat, estimated: nat)

  const NOTHING := Totals(0, 0, 0, 0)

  function Plus(t: Totals, u: Totals): Totals {
    Totals(t.atRisk + u.atRisk, t.expected + u.expected, t.active + u.active, t.estimated + u.estimated)
  }

  /** What one case adds to its currency. */
  function Share(o: Opportunity, currency: string): Totals {
    if o.currency != currency then NOTHING
    else if o.expected.Some? then Totals(o.amount, o.expected.value, 1, 1)
    else Totals(o.amount, 0, 1, 0)
  }

  function TotalOf(rows: seq<Opportunity>, currency: string): Totals {
    if rows == [] then NOTHING
    else Plus(TotalOf(rows[..|rows| - 1], currency), Share(rows[|rows| - 1], currency))
  }

  /** The currencies met, in the order they were first met. */
  function Currencies(rows: seq<Opportunity>): seq<string> {
    if rows == [] then []
    else
      var last := |rows| - 1;
      var names := Currencies(rows[..last]);
      if rows[last].currency in names then names else names + [rows[last].currency]
  }

  predicate Precedes(a: string, b: string) {
    b != "" && (a == "" || a[0] < b[0] || (a[0] == b[0] && Precedes(a[1..], b[1..])))
  }

  datatype CurrencySummary = CurrencySummary(currency: string, totals: Totals)

  function Summaries(rows: seq<Opportunity>): (r: seq<CurrencySummary>)
    ensures |r| == |Currencies(rows)|
  {
    var names := SortBy(Precedes, Currencies(rows));
    seq(|names|, k requires 0 <= k < |names| => CurrencySummary(names[k], TotalOf(rows, names[k])))
  }

  // ---------------------------------------------------------------- ranking

  /** The sort key (priority score, amount, id), highest first. */
  predicate Outranks(key: Key, a: Opportunity, b: Opportunity) {
    a.score > b.score
    || (a.score == b.score && (a.amount > b.amount || (a.amount == b.amount && key(a.caseId) > key(b.caseId))))
  }

  function Ranking(key: Key): (Opportunity, Opportunity) -> bool {
    (a: Opportunity, b: Opportunity) => Outranks(key, a, b)
  }

  function Ordered(key: Key, rows: seq<Opportunity>): (r: seq<Opportunity>)
    ensures multiset(r) == multiset(rows) && |r| == |rows|
  {
    SortBy(Ranking(key), rows)
  }

  function Top(key: Key, rows: seq<Opportunity>, limit: nat): seq<Opportunity> {
    if |rows| <= limit then Ordered(key, rows) else Ordered(key, rows)[..limit]
  }

  datatype RevenueSnapshot = RevenueSnapshot(at: int, currencies: seq<CurrencySummary>, top: seq<Opportunity>)

  /** The active cases a snapshot is about. */
  function ActiveIds(core: Core, now: int, merchant: Option<MerchantId>): (ids: seq<CaseId>)
    ensures Distinct(ids) && forall k :: 0 <= k < |ids| ==> ids[k] < |core.store.cases|
  {
    var ids := ListActive(core.store.cases, |core.store.cases|, now, merchant);
    assert forall k :: 0 <= k < |ids| ==> ids[k] in ids;
    ids
  }

  /** `build_snapshot`, from the active cases it listed. */
  function SnapshotFrom(
    core: Core, decisionKey: Key, caseKey: Key, ids: seq<CaseId>, limit: nat, now: int): RevenueSnapshot
    requires forall k :: 0 <= k < |ids| ==> ids[k] < |core.store.cases|
  {
    var rows := Opportunities(core, decisionKey, ids, now);
    RevenueSnapshot(now, Summaries(rows), Top(caseKey, rows, limit))
  }
}
