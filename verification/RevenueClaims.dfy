/** Sums, bounds and ranking: what every revenue-at-risk snapshot guarantees. */
module RevenueClaims {
  import opened Arithmetic
  import opened Outcomes
  import opened Ordering
  import opened Records
  import opened BaselineSpec
  import opened RevenueSpec

  // ---------------------------------------------------------------- arithmetic

  lemma HalfUpBetween(low: int, x: real, y: real, high: int)
    requires low as real <= x <= y <= high as real
    ensures low <= HalfUp(x) <= HalfUp(y) <= high
  {
  }

  lemma ElapsedGrows(start: int, end: int, early: int, late: int)
    requires early <= late
    ensures 0.0 <= Elapsed(start, end, early) <= Elapsed(start, end, late) <= 1.0
  {
  }

  /** The score lies between the value at stake and twice it, and only grows while the window runs. */
  lemma ScoreBounds(c: RecoveryCase, expected: Option<int>, early: int, late: int)
    requires early <= late && Basis(c.amount, expected) >= 0
    ensures Basis(c.amount, expected) <= PriorityScore(c, expected, early)
    ensures PriorityScore(c, expected, early) <= PriorityScore(c, expected, late) <= 2 * Basis(c.amount, expected)
  {
    ElapsedGrows(c.windowStart, c.windowEnd, early, late);
    var basis := Basis(c.amount, expected);
    var e, f := Elapsed(c.windowStart, c.windowEnd, early), Elapsed(c.windowStart, c.windowEnd, late);
    RaisedBetween(basis, e, f);
    HalfUpBetween(basis, Raised(basis, e), Raised(basis, f), 2 * basis);
  }

  lemma RaisedBetween(basis: nat, e: real, f: real)
    requires 0.0 <= e <= f <= 1.0
    ensures basis as real <= Raised(basis, e) <= Raised(basis, f) <= (2 * basis) as real
  {
  }

  /** The expected amount is within half a unit of amount times probability, and between nothing and all. */
  lemma ExpectedNear(amount: nat, p: real)
    requires 0.0 <= p <= 1.0
    ensures var e := HalfUp(amount as real * p);
            0 <= e <= amount && -0.5 <= e as real - amount as real * p <= 0.5
  {
    Fraction(p, amount as real);
    HalfUpBetween(0, amount as real * p, amount as real * p, amount);
  }

  // ---------------------------------------------------------------- one opportunity

  /** How much of the window has passed: nothing before it starts, all of it once it is over. */
  function Passed(start: int, end: int, now: int): (p: nat)
    requires start < end
  {
    if now <= start then 0 else if now >= end then end - start else now - start
  }

  lemma ElapsedShare(start: int, end: int, now: int)
    requires start < end
    ensures Elapsed(start, end, now) == Passed(start, end, now) as real / (end - start) as real
  {
    WholeShare((end - now) as real, (end - start) as real);
    ShareEnds((end - start) as real);
    QuotientsApart((end - start) as real, (end - now) as real, (end - start) as real);
  }

  /** The score is the nearest integer to the basis raised by the share of the window that has passed. */
  predicate ScoreNear(score: int, basis: int, passed: nat, length: nat)
    requires length > 0
  {
    -0.5 <= score as real - basis as real * (1.0 + passed as real / length as real) <= 0.5
  }

  /** A probability is taken from a decision whose score is a number from 0 to 1, and from nothing else. */
  predicate Usable(d: Option<Decision>) {
    d.Some? && d.value.score.Score? && 0.0 <= d.value.score.number && d.value.score.number <= 1.0
  }

  /** What a snapshot says of one case: its row, its probability if its decision has a usable one, then the
      nearest integer to amount times probability, and the urgency score of that or else of the amount. */
  lemma OpportunityTold(c: CaseId, row: RecoveryCase, d: Option<Decision>, now: int)
    ensures var o := OpportunityOf(c, row, d, now);
            && o.caseId == c && o.source == row.source && o.sourceId == row.sourceId && o.status == row.status
            && o.amount == row.amount && o.currency == row.currency && o.windowEnd == row.windowEnd
            && (if Usable(d) then
                  && o.probability == Some(d.value.score.number) && o.expected.Some?
                  && -0.5 <= o.expected.value as real - row.amount as real * d.value.score.number <= 0.5
                else o.probability.None? && o.expected.None?)
            && (row.windowStart >= row.windowEnd ==> o.score == if o.expected.Some? then o.expected.value else row.amount)
            && (row.windowStart < row.windowEnd ==>
                  ScoreNear(o.score, if o.expected.Some? then o.expected.value else row.amount,
                            Passed(row.windowStart, row.windowEnd, now), row.windowEnd - row.windowStart))
  {
    EstimateTold(row.amount, d);
    ScoreTold(row, Expected(row.amount, Probability(d)), now);
  }

  lemma EstimateTold(amount: int, d: Option<Decision>)
    ensures var p, e := Probability(d), Expected(amount, Probability(d));
            if Usable(d) then
              && p == Some(d.value.score.number) && e.Some?
              && -0.5 <= e.value as real - amount as real * d.value.score.number <= 0.5
            else p.None? && e.None?
  {
  }

  lemma ScoreTold(row: RecoveryCase, expected: Option<int>, now: int)
    ensures row.windowStart >= row.windowEnd ==>
              PriorityScore(row, expected, now) == if expected.Some? then expected.value else row.amount
    ensures row.windowStart < row.windowEnd ==>
              ScoreNear(PriorityScore(row, expected, now), if expected.Some? then expected.value else row.amount,
                        Passed(row.windowStart, row.windowEnd, now), row.windowEnd - row.windowStart)
  {
    if row.windowStart < row.windowEnd {
      ElapsedShare(row.windowStart, row.windowEnd, now);
      RaisedNear(if expected.Some? then expected.value else row.amount, Elapsed(row.windowStart, row.windowEnd, now),
                 Passed(row.windowStart, row.windowEnd, now), row.windowEnd - row.windowStart);
    }
  }

  lemma RaisedNear(basis: int, elapsed: real, passed: nat, length: nat)
    requires length > 0 && elapsed == passed as real / length as real
    ensures ScoreNear(HalfUp(Raised(basis, elapsed)), basis, passed, length)
  {
  }

  // ---------------------------------------------------------------- latest decisions

  /** The i-th row is the first on its case. */
  ghost predicate FirstAt(decisions: seq<Decision>, rows: seq<nat>, i: nat, c: CaseId) {
    && i < |rows| && rows[i] < |decisions| && decisions[rows[i]].caseId == c
    && forall j :: 0 <= j < i ==> rows[j] < |decisions| && decisions[rows[j]].caseId != c
  }

  /** What the loop has collected from the first n rows. */
  ghost predicate Collected(decisions: seq<Decision>, rows: seq<nat>, n: nat, latest: map<CaseId, nat>) {
    && n <= |rows| && (forall i :: 0 <= i < |rows| ==> rows[i] < |decisions|)
    && (forall c :: c in latest ==> exists i: nat :: i < n && FirstAt(decisions, rows, i, c) && latest[c] == rows[i])
    && (forall i :: 0 <= i < n ==> decisions[rows[i]].caseId in latest)
  }

  lemma {:induction false} AboutMeans(decisions: seq<Decision>, ids: seq<CaseId>, n: nat)
    requires n <= |decisions|
    ensures Distinct(About(decisions, ids, n))
    ensures forall i: nat :: i in About(decisions, ids, n) <==> i < n && decisions[i].caseId in ids
  {
    if n > 0 {
      AboutMeans(decisions, ids, n - 1);
    }
  }

  lemma RowsNewestFirst(decisions: seq<Decision>, key: Key, ids: seq<CaseId>)
    requires Injective(key)
    ensures Ascending(NewerThan(decisions, key), NewestFirst(decisions, key, ids))
  {
    AboutMeans(decisions, ids, |decisions|);
    SortByAscending(NewerThan(decisions, key), About(decisions, ids, |decisions|));
  }

  lemma RowsAbout(decisions: seq<Decision>, key: Key, ids: seq<CaseId>, i: nat)
    ensures i in NewestFirst(decisions, key, ids) <==> i < |decisions| && decisions[i].caseId in ids
  {
    AboutMeans(decisions, ids, |decisions|);
    SameMembers(NewestFirst(decisions, key, ids), About(decisions, ids, |decisions|), i);
  }

  /** `Latest` is the newest decision on the case, and finds one if there is one. */
  lemma {:induction false} LatestIsNewest(decisions: seq<Decision>, key: Key, n: nat, c: CaseId, j: nat)
    requires Injective(key) && j < n <= |decisions| && decisions[j].caseId == c
    ensures var r := Latest(decisions, key, n, c);
            && r.Some? && decisions[r.value].caseId == c
            && (j != r.value ==>
                  || decisions[j].createdAt < decisions[r.value].createdAt
                  || (decisions[j].createdAt == decisions[r.value].createdAt && key(j) < key(r.value)))
  {
    if j < n - 1 {
      LatestIsNewest(decisions, key, n - 1, c, j);
    } else if Latest(decisions, key, n - 1, c).Some? {
      assert key(j) != key(Latest(decisions, key, n - 1, c).value);
    }
  }

  /** The first row kept for a case is its latest decision: the maximum by creation time, then id. */
  lemma FirstIsLatest(decisions: seq<Decision>, key: Key, ids: seq<CaseId>, latest: map<CaseId, nat>, c: CaseId)
    requires Injective(key) && c in ids
    requires var rows := NewestFirst(decisions, key, ids); Collected(decisions, rows, |rows|, latest)
    ensures Latest(decisions, key, |decisions|, c) == if c in latest then Some(latest[c]) else None
  {
    var rows := NewestFirst(decisions, key, ids);
    var r := Latest(decisions, key, |decisions|, c);
    if r.Some? {
      RowsAbout(decisions, key, ids, r.value);
      var j: nat :| j < |rows| && rows[j] == r.value;
      assert c in latest;
      var i: nat :| i < |rows| && FirstAt(decisions, rows, i, c) && latest[c] == rows[i];
      NoLaterRow(decisions, key, ids, i, j, c);
    } else if c in latest {
      LatestIsNewest(decisions, key, |decisions|, c, latest[c]);
    }
  }

  lemma NoLaterRow(decisions: seq<Decision>, key: Key, ids: seq<CaseId>, i: nat, j: nat, c: CaseId)
    requires Injective(key) && FirstAt(decisions, NewestFirst(decisions, key, ids), i, c)
    requires var rows := NewestFirst(decisions, key, ids);
             j < |rows| && Latest(decisions, key, |decisions|, c) == Some(rows[j])
    ensures NewestFirst(decisions, key, ids)[i] == NewestFirst(decisions, key, ids)[j]
  {
    LatestIsNewest(decisions, key, |decisions|, c, NewestFirst(decisions, key, ids)[i]);
    if i < j {
      RowsDescend(decisions, key, ids, i, j);
      assert false;
    }
  }

  lemma RowsDescend(decisions: seq<Decision>, key: Key, ids: seq<CaseId>, i: nat, j: nat)
    requires Injective(key) && i < j < |NewestFirst(decisions, key, ids)|
    ensures NewerThan(decisions, key)(NewestFirst(decisions, key, ids)[i], NewestFirst(decisions, key, ids)[j])
  {
    RowsNewestFirst(decisions, key, ids);
  }

  // ---------------------------------------------------------------- sums

  /** A row whose estimate follows from its amount and probability. */
  predicate Estimated(o: Opportunity) {
    o.amount >= 0 && o.expected == Expected(o.amount, o.probability)
    && (o.probability.Some? ==> 0.0 <= o.probability.value <= 1.0)
  }

  /** What one case adds to the unrounded expectation of a currency. */
  function ExactShare(o: Opportunity, currency: string): real {
    if o.currency == currency && o.probability.Some? then o.amount as real * o.probability.value else 0.0
  }

  function ExactExpected(rows: seq<Opportunity>, currency: string): real {
    if rows == [] then 0.0
    else ExactExpected(rows[..|rows| - 1], currency) + ExactShare(rows[|rows| - 1], currency)
  }

  /** Figures in proportion: nothing negative, nothing expected beyond what is at risk, no more
      estimates than cases, and rounding off by at most half a unit an estimate. */
  predicate Proportionate(t: Totals, exact: real) {
    && 0 <= t.expected <= t.atRisk && t.estimated <= t.active
    && -(t.estimated as real) <= 2.0 * (t.expected as real - exact) <= t.estimated as real
  }

  lemma ShareProportionate(o: Opportunity, currency: string)
    requires Estimated(o)
    ensures Proportionate(Share(o, currency), ExactShare(o, currency))
  {
    if o.currency == currency && o.probability.Some? {
      ExpectedNear(o.amount, o.probability.value);
      RoundedShare(o.amount, o.expected.value, ExactShare(o, currency));
    }
  }

  lemma RoundedShare(amount: nat, rounded: int, exact: real)
    requires 0 <= rounded <= amount && -0.5 <= rounded as real - exact <= 0.5
    ensures Proportionate(Totals(amount, rounded, 1, 1), exact)
  {
  }

  /** Every currency's totals are in proportion to the exact sums over its active cases. */
  lemma {:induction false} TotalBounds(rows: seq<Opportunity>, currency: string)
    requires forall k :: 0 <= k < |rows| ==> Estimated(rows[k])
    ensures Proportionate(TotalOf(rows, currency), ExactExpected(rows, currency))
  {
    if rows != [] {
      TotalBounds(rows[..|rows| - 1], currency);
      ShareProportionate(rows[|rows| - 1], currency);
    }
  }

  function ActiveIn(rows: seq<Opportunity>, names: seq<string>): nat {
    if names == [] then 0
    else ActiveIn(rows, names[..|names| - 1]) + TotalOf(rows, names[|names| - 1]).active
  }

  lemma {:induction false} OneMore(rows: seq<Opportunity>, o: Opportunity, names: seq<string>)
    requires Distinct(names)
    ensures ActiveIn(rows + [o], names) == ActiveIn(rows, names) + if o.currency in names then 1 else 0
  {
    if names != [] {
      var last := |names| - 1;
      LastName(names, o.currency);
      OneMore(rows, o, names[..last]);
      OneMoreTotal(rows, o, names[last]);
    }
  }

  lemma LastName(names: seq<string>, name: string)
    requires names != [] && Distinct(names)
    ensures var last := |names| - 1;
            && Distinct(names[..last]) && names[last] !in names[..last]
            && (name in names <==> name in names[..last] || name == names[last])
  {
    assert names == names[..|names| - 1] + [names[|names| - 1]];
  }

  lemma OneMoreTotal(rows: seq<Opportunity>, o: Opportunity, currency: string)
    ensures TotalOf(rows + [o], currency) == Plus(TotalOf(rows, currency), Share(o, currency))
  {
    assert (rows + [o])[..|rows|] == rows;
  }

  lemma {:induction false} EveryCaseCounted(rows: seq<Opportunity>, names: seq<string>)
    requires Distinct(names) && forall k :: 0 <= k < |rows| ==> rows[k].currency in names
    ensures ActiveIn(rows, names) == |rows|
  {
    if rows == [] {
      NoRows(names);
    } else {
      var last := |rows| - 1;
      assert rows == rows[..last] + [rows[last]];
      EveryCaseCounted(rows[..last], names);
      OneMore(rows[..last], rows[last], names);
    }
  }

  lemma {:induction false} NoRows(names: seq<string>)
    ensures ActiveIn([], names) == 0
  {
    if names != [] {
      NoRows(names[..|names| - 1]);
    }
  }

  function SummedActive(summaries: seq<CurrencySummary>): nat {
    if summaries == [] then 0
    else SummedActive(summaries[..|summaries| - 1]) + summaries[|summaries| - 1].totals.active
  }

  lemma {:induction false} SummedNames(rows: seq<Opportunity>, summaries: seq<CurrencySummary>, names: seq<string>)
    requires |summaries| == |names|
    requires forall k :: 0 <= k < |names| ==> summaries[k] == CurrencySummary(names[k], TotalOf(rows, names[k]))
    ensures SummedActive(summaries) == ActiveIn(rows, names)
  {
    if names != [] {
      SummedNames(rows, summaries[..|names| - 1], names[..|names| - 1]);
    }
  }

  lemma {:induction false} CurrenciesMet(rows: seq<Opportunity>)
    ensures Distinct(Currencies(rows))
    ensures forall name :: name in Currencies(rows) <==> exists k :: 0 <= k < |rows| && rows[k].currency == name
  {
    if rows != [] {
      var last := |rows| - 1;
      CurrenciesMet(rows[..last]);
      assert rows == rows[..last] + [rows[last]];
      forall name ensures name in Currencies(rows) <==> exists k :: 0 <= k < |rows| && rows[k].currency == name {
        if k :| 0 <= k < |rows| && rows[k].currency == name {
          assert k < last ==> rows[..last][k].currency == name;
        }
      }
    }
  }

  /** The summaries' active counts add up to the number of active cases. */
  lemma ActiveCountsAddUp(rows: seq<Opportunity>)
    ensures SummedActive(Summaries(rows)) == |rows|
  {
    var names := SortBy(Precedes, Currencies(rows));
    CurrenciesMet(rows);
    DistinctPermutation(Currencies(rows), names);
    forall k | 0 <= k < |rows| ensures rows[k].currency in names {
      SameMembers(Currencies(rows), names, rows[k].currency);
    }
    EveryCaseCounted(rows, names);
    SummedNames(rows, Summaries(rows), names);
  }

  /** A currency met nowhere has no totals. */
  lemma {:induction false} NothingYet(rows: seq<Opportunity>, name: string)
    requires forall o :: o in rows ==> o.currency != name
    ensures TotalOf(rows, name) == NOTHING
  {
    if rows != [] {
      var last := rows[|rows| - 1];
      assert last in rows;
      NothingYet(rows[..|rows| - 1], name);
      assert Share(last, name) == NOTHING;
    }
  }

  lemma UnmetRows(rows: seq<Opportunity>, name: string)
    requires name !in Currencies(rows)
    ensures forall o :: o in rows ==> o.currency != name
  {
  }

  // ---------------------------------------------------------------- orders

  lemma {:induction false} PrecedesTransitive(a: string, b: string, c: string)
    requires Precedes(a, b) && Precedes(b, c)
    ensures Precedes(a, c)
  {
    if a != "" && a[0] == b[0] == c[0] {
      PrecedesTransitive(a[1..], b[1..], c[1..]);
    }
  }

  lemma {:induction false} PrecedesIrreflexive(a: string)
    ensures !Precedes(a, a)
  {
    if a != "" { PrecedesIrreflexive(a[1..]); }
  }

  lemma {:induction false} PrecedesTotal(a: string, b: string)
    requires a != b
    ensures Precedes(a, b) || Precedes(b, a)
  {
    if a != "" && b != "" && a[0] == b[0] {
      assert a == [a[0]] + a[1..] && b == [b[0]] + b[1..];
      PrecedesTotal(a[1..], b[1..]);
    }
  }

  /** Alphabetical order: the first difference decides, and a prefix comes before what it starts. */
  ghost predicate FirstDifference(a: string, b: string, k: nat) {
    k <= |a| && k < |b| && a[..k] == b[..k] && (k == |a| || a[k] < b[k])
  }

  lemma SameStart(a: string, b: string, k: nat)
    requires FirstDifference(a, b, k)
    ensures k > 0 ==> a != "" && a[0] == b[0]
  {
    assert k > 0 ==> a[..k][0] == b[..k][0];
  }

  lemma {:induction false} PrecedesMeans(a: string, b: string)
    ensures Precedes(a, b) <==> exists k: nat :: FirstDifference(a, b, k)
  {
    if a != "" && b != "" && a[0] == b[0] {
      PrecedesMeans(a[1..], b[1..]);
      if k: nat :| FirstDifference(a[1..], b[1..], k) {
        assert a[..k + 1] == [a[0]] + a[1..][..k] && b[..k + 1] == [b[0]] + b[1..][..k];
        assert FirstDifference(a, b, k + 1);
      }
      if k: nat :| FirstDifference(a, b, k) {
        assert k > 0;
        assert a[1..][..k - 1] == a[..k][1..] && b[1..][..k - 1] == b[..k][1..];
        assert FirstDifference(a[1..], b[1..], k - 1);
      }
    } else {
      if Precedes(a, b) {
        assert FirstDifference(a, b, 0);
      }
      if k: nat :| FirstDifference(a, b, k) {
        SameStart(a, b, k);
      }
    }
  }

  lemma PrecedesOrders(names: seq<string>)
    ensures StrictOrder(Precedes) && Comparable(Precedes, names)
  {
    forall a: string ensures !Precedes(a, a) { PrecedesIrreflexive(a); }
    forall a: string, b: string, c: string | Precedes(a, b) && Precedes(b, c) ensures Precedes(a, c) {
      PrecedesTransitive(a, b, c);
    }
    forall a, b | a in names && b in names && a != b ensures Precedes(a, b) || Precedes(b, a) {
      PrecedesTotal(a, b);
    }
  }

  /** Different rows are different cases. */
  ghost predicate OnePerCase(rows: seq<Opportunity>) {
    forall i, j :: 0 <= i < j < |rows| ==> rows[i].caseId != rows[j].caseId
  }

  lemma RankingOrders(key: Key, rows: seq<Opportunity>)
    requires Injective(key) && OnePerCase(rows)
    ensures StrictOrder(Ranking(key)) && Comparable(Ranking(key), rows) && Distinct(rows)
  {
  }

  /** The ranking is canonical: whatever descending arrangement of the opportunities one takes, the top
      list is its first `limit` rows, and every row it omits ranks below every row it shows. */
  lemma TopIsCanonical(key: Key, rows: seq<Opportunity>, limit: nat, arranged: seq<Opportunity>)
    requires Injective(key) && OnePerCase(rows)
    requires multiset(arranged) == multiset(rows) && Ascending(Ranking(key), arranged)
    ensures var top := Top(key, rows, limit);
            && |top| == (if |rows| <= limit then |rows| else limit) && |arranged| == |rows|
            && top == arranged[..|top|]
            && forall i, j :: 0 <= i < |top| <= j < |arranged| ==> Outranks(key, top[i], arranged[j])
  {
    RankingOrders(key, rows);
    SortByAscending(Ranking(key), rows);
    AscendingUnique(Ranking(key), Ordered(key, rows), arranged);
    assert |arranged| == |multiset(arranged)| == |rows|;
    var top := Top(key, rows, limit);
    forall i, j | 0 <= i < |top| <= j < |arranged| ensures Outranks(key, top[i], arranged[j]) {
      assert Ranking(key)(arranged[i], arranged[j]);
    }
  }

  /** The top list by raw figures: a later row, or one left out, has a lower score, or the same score and a
      lower amount, or both the same and a lower id. */
  lemma TopDescends(key: Key, rows: seq<Opportunity>, limit: nat, i: nat, j: nat)
    requires Injective(key) && OnePerCase(rows) && i < j < |rows| && i < limit
    ensures var top, all := Top(key, rows, limit), Ordered(key, rows);
            && |all| == |rows| && i < |top| && top[i] == all[i] && (j < |top| ==> top[j] == all[j])
            && (|| all[j].score < all[i].score
                || (all[j].score == all[i].score
                    && (|| all[j].amount < all[i].amount
                        || (all[j].amount == all[i].amount && key(all[j].caseId) < key(all[i].caseId)))))
  {
    RankingOrders(key, rows);
    SortByAscending(Ranking(key), rows);
    assert Ranking(key)(Ordered(key, rows)[i], Ordered(key, rows)[j]);
  }

  // ---------------------------------------------------------------- list order does not matter

  lemma {:induction false} TotalJoined(xs: seq<Opportunity>, ys: seq<Opportunity>, currency: string)
    ensures TotalOf(xs + ys, currency) == Plus(TotalOf(xs, currency), TotalOf(ys, currency))
  {
    if ys == [] {
      assert xs + ys == xs;
    } else {
      var last := |ys| - 1;
      assert xs + ys == (xs + ys[..last]) + [ys[last]];
      OneMoreTotal(xs + ys[..last], ys[last], currency);
      TotalJoined(xs, ys[..last], currency);
      PlusJoins(TotalOf(xs, currency), TotalOf(ys[..last], currency), Share(ys[last], currency));
    }
  }

  lemma PlusJoins(t: Totals, u: Totals, v: Totals)
    ensures Plus(Plus(t, u), v) == Plus(t, Plus(u, v))
  {
  }

  /** One row counts for its own currency only: with its amount, its estimate if it has one, as one case. */
  lemma TotalsOfOne(o: Opportunity, currency: string)
    ensures TotalOf([o], currency) ==
              if o.currency != currency then Totals(0, 0, 0, 0)
              else Totals(o.amount, if o.expected.Some? then o.expected.value else 0, 1, if o.expected.Some? then 1 else 0)
  {
    TotalOne(o, currency);
  }

  /** The totals of two lists together are added figure by figure. */
  lemma TotalsAdd(xs: seq<Opportunity>, ys: seq<Opportunity>, currency: string)
    ensures var x, y, both := TotalOf(xs, currency), TotalOf(ys, currency), TotalOf(xs + ys, currency);
            both == Totals(x.atRisk + y.atRisk, x.expected + y.expected, x.active + y.active, x.estimated + y.estimated)
  {
    TotalJoined(xs, ys, currency);
  }

  lemma {:induction false} TotalPermuted(xs: seq<Opportunity>, ys: seq<Opportunity>, currency: string)
    requires multiset(xs) == multiset(ys)
    ensures TotalOf(xs, currency) == TotalOf(ys, currency)
  {
    if xs == [] {
      assert |ys| == |multiset(ys)| == |multiset(xs)|;
    } else {
      var j := Matched(xs, ys);
      var last, left, right := |xs| - 1, ys[..j], ys[j + 1..];
      TotalPermuted(xs[..last], left + right, currency);
      TotalAround(left, ys[j], right, currency);
    }
  }

  lemma TotalOne(o: Opportunity, currency: string)
    ensures TotalOf([o], currency) == Share(o, currency)
  {
    assert TotalOf([o][..0], currency) == NOTHING;
  }

  lemma PlusSwaps(t: Totals, u: Totals, v: Totals)
    ensures Plus(t, Plus(u, v)) == Plus(Plus(t, v), u)
  {
  }

  lemma TotalAround(left: seq<Opportunity>, o: Opportunity, right: seq<Opportunity>, currency: string)
    ensures TotalOf(left + ([o] + right), currency) == Plus(TotalOf(left + right, currency), Share(o, currency))
  {
    TotalJoined(left, right, currency);
    TotalJoined(left, [o] + right, currency);
    TotalJoined([o], right, currency);
    TotalOne(o, currency);
    PlusSwaps(TotalOf(left, currency), Share(o, currency), TotalOf(right, currency));
  }

  lemma SameDistinct(xs: seq<string>, ys: seq<string>)
    requires Distinct(xs) && Distinct(ys) && forall x :: x in xs <==> x in ys
    ensures multiset(xs) == multiset(ys)
  {
    DistinctCounts(xs);
    DistinctCounts(ys);
    forall x ensures multiset(xs)[x] == multiset(ys)[x] {
      assert x in xs <==> x in multiset(xs);
      assert x in ys <==> x in multiset(ys);
    }
  }

  lemma CurrenciesPermuted(xs: seq<Opportunity>, ys: seq<Opportunity>)
    requires multiset(xs) == multiset(ys)
    ensures multiset(Currencies(xs)) == multiset(Currencies(ys))
  {
    CurrenciesMet(xs);
    CurrenciesMet(ys);
    forall name ensures name in Currencies(xs) <==> name in Currencies(ys) {
      if name in Currencies(xs) {
        var k :| 0 <= k < |xs| && xs[k].currency == name;
        SameMembers(xs, ys, xs[k]);
      }
      if name in Currencies(ys) {
        var k :| 0 <= k < |ys| && ys[k].currency == name;
        SameMembers(xs, ys, ys[k]);
      }
    }
    SameDistinct(Currencies(xs), Currencies(ys));
  }

  /** The summaries do not depend on the order the active cases were listed in. */
  lemma SummariesPermuted(xs: seq<Opportunity>, ys: seq<Opportunity>)
    requires multiset(xs) == multiset(ys)
    ensures Summaries(xs) == Summaries(ys)
  {
    CurrenciesPermuted(xs, ys);
    PrecedesOrders(Currencies(xs));
    CurrenciesMet(xs);
    SortByCanonical(Precedes, Currencies(xs), Currencies(ys));
    var names := SortBy(Precedes, Currencies(xs));
    forall k | 0 <= k < |names| ensures TotalOf(xs, names[k]) == TotalOf(ys, names[k]) {
      TotalPermuted(xs, ys, names[k]);
    }
    assert Summaries(xs) == Summaries(ys);
  }

  lemma OpportunitiesPermuted(core: Core, key: Key, xs: seq<CaseId>, ys: seq<CaseId>, now: int)
    requires multiset(xs) == multiset(ys)
    requires forall k :: 0 <= k < |xs| ==> xs[k] < |core.store.cases|
    requires forall k :: 0 <= k < |ys| ==> ys[k] < |core.store.cases|
    ensures multiset(Opportunities(core, key, xs, now)) == multiset(Opportunities(core, key, ys, now))
  {
    ImagesPermuted(xs, ys, Opportunities(core, key, xs, now), Opportunities(core, key, ys, now));
  }

  /** The whole snapshot is the same whatever order the active cases are listed in. */
  lemma SnapshotIgnoresListOrder(
    core: Core, decisionKey: Key, caseKey: Key, xs: seq<CaseId>, ys: seq<CaseId>, limit: nat, now: int)
    requires Injective(caseKey) && Distinct(xs) && multiset(xs) == multiset(ys)
    requires forall k :: 0 <= k < |xs| ==> xs[k] < |core.store.cases|
    requires forall k :: 0 <= k < |ys| ==> ys[k] < |core.store.cases|
    ensures SnapshotFrom(core, decisionKey, caseKey, xs, limit, now) ==
              SnapshotFrom(core, decisionKey, caseKey, ys, limit, now)
  {
    var p, q := Opportunities(core, decisionKey, xs, now), Opportunities(core, decisionKey, ys, now);
    OpportunitiesPermuted(core, decisionKey, xs, ys, now);
    SummariesPermuted(p, q);
    RankingOrders(caseKey, p);
    SortByCanonical(Ranking(caseKey), p, q);
    assert |xs| == |multiset(xs)| == |multiset(ys)| == |ys|;
  }

  // ---------------------------------------------------------------- whole snapshots

  /** The summaries of a snapshot: one per currency in strict alphabetical order, each in proportion,
      with active counts that add up to the active cases. */
  lemma SnapshotFigures(core: Core, key: Key, caseKey: Key, ids: seq<CaseId>, limit: nat, now: int)
    requires AmountsOk(core.store) && forall k :: 0 <= k < |ids| ==> ids[k] < |core.store.cases|
    ensures var rows := Opportunities(core, key, ids, now);
            var summaries := SnapshotFrom(core, key, caseKey, ids, limit, now).currencies;
            && SnapshotFrom(core, key, caseKey, ids, limit, now).at == now
            && SnapshotFrom(core, key, caseKey, ids, limit, now).top == Top(caseKey, rows, limit)
            && SummedActive(summaries) == |ids|
            && (forall k :: 0 <= k < |summaries| ==>
                  && summaries[k].totals == TotalOf(rows, summaries[k].currency)
                  && Proportionate(summaries[k].totals, ExactExpected(rows, summaries[k].currency)))
            && (forall j, k :: 0 <= j < k < |summaries| ==> Precedes(summaries[j].currency, summaries[k].currency))
  {
    var rows := Opportunities(core, key, ids, now);
    ActiveCountsAddUp(rows);
    SummariesInOrder(rows);
    OpportunitiesEstimated(core, key, ids, now);
    SummariesProportionate(rows);
  }

  lemma SummariesInOrder(rows: seq<Opportunity>)
    ensures forall j, k :: 0 <= j < k < |Summaries(rows)| ==>
              Precedes(Summaries(rows)[j].currency, Summaries(rows)[k].currency)
  {
    PrecedesOrders(Currencies(rows));
    CurrenciesMet(rows);
    SortByAscending(Precedes, Currencies(rows));
  }

  lemma OpportunitiesEstimated(core: Core, key: Key, ids: seq<CaseId>, now: int)
    requires AmountsOk(core.store) && forall k :: 0 <= k < |ids| ==> ids[k] < |core.store.cases|
    ensures forall k :: 0 <= k < |ids| ==> Estimated(Opportunities(core, key, ids, now)[k])
  {
  }

  lemma SummariesProportionate(rows: seq<Opportunity>)
    requires forall k :: 0 <= k < |rows| ==> Estimated(rows[k])
    ensures forall k :: 0 <= k < |Summaries(rows)| ==>
              var x := Summaries(rows)[k];
              x.totals == TotalOf(rows, x.currency) && Proportionate(x.totals, ExactExpected(rows, x.currency))
  {
    forall x | x in Summaries(rows)
      ensures x.totals == TotalOf(rows, x.currency) && Proportionate(x.totals, ExactExpected(rows, x.currency))
    {
      TotalBounds(rows, x.currency);
    }
  }

  /** Active cases make distinct opportunities, so the ranking of a real snapshot is canonical. */
  lemma DistinctCases(core: Core, key: Key, ids: seq<CaseId>, now: int)
    requires Distinct(ids) && forall k :: 0 <= k < |ids| ==> ids[k] < |core.store.cases|
    ensures OnePerCase(Opportunities(core, key, ids, now))
  {
  }
}
