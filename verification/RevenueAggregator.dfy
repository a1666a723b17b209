/** The revenue-at-risk aggregator (analytics/revenue_at_risk.py) at work: loops over the decisions and the
    active cases, proved against RevenueSpec. */
module RevenueAggregator {
  import opened Outcomes
  import opened Ordering
  import opened Records
  import opened Database
  import opened BaselineSpec
  import opened RevenueSpec
  import opened RevenueClaims

  /** The dictionary of totals, with its keys in the order they were added. */
  datatype Ledger = Ledger(order: seq<string>, totals: map<string, Totals>)

  /** The keys of the dictionary are those in the list. */
  ghost predicate Keyed(order: seq<string>, totals: map<string, Totals>) {
    forall name :: name in totals <==> name in order
  }

  /** Each total is its currency's sum over the rows. */
  ghost predicate Summed(totals: map<string, Totals>, rows: seq<Opportunity>) {
    forall name :: name in totals ==> totals[name] == TotalOf(rows, name)
  }

  /** The ledger holds each currency's sums over the rows. */
  ghost predicate Balanced(ledger: Ledger, rows: seq<Opportunity>) {
    ledger.order == Currencies(rows) && Keyed(ledger.order, ledger.totals) && Summed(ledger.totals, rows)
  }

  lemma KeyAdded(order: seq<string>, totals: map<string, Totals>, name: string, t: Totals)
    requires Keyed(order, totals)
    ensures Keyed(if name in totals then order else order + [name], totals[name := t])
  {
  }

  lemma ShareAdded(totals: map<string, Totals>, rows: seq<Opportunity>, o: Opportunity)
    requires Summed(totals, rows)
    ensures Summed(totals[o.currency := Plus(TotalOf(rows, o.currency), Share(o, o.currency))], rows + [o])
  {
    var after := totals[o.currency := Plus(TotalOf(rows, o.currency), Share(o, o.currency))];
    forall name | name in after ensures after[name] == TotalOf(rows + [o], name) {
      ShareAddedTo(totals, rows, o, name);
    }
  }

  lemma ShareAddedTo(totals: map<string, Totals>, rows: seq<Opportunity>, o: Opportunity, name: string)
    requires Summed(totals, rows)
    ensures var after := totals[o.currency := Plus(TotalOf(rows, o.currency), Share(o, o.currency))];
            name in after ==> after[name] == TotalOf(rows + [o], name)
  {
    OneMoreTotal(rows, o, name);
    PlusNothing(TotalOf(rows, name));
    SharePut(totals, o, name, TotalOf(rows, o.currency), TotalOf(rows, name));
  }

  lemma SharePut(totals: map<string, Totals>, o: Opportunity, name: string, own: Totals, other: Totals)
    requires name in totals ==> totals[name] == other
    requires name == o.currency ==> other == own
    requires Plus(other, NOTHING) == other
    ensures var after := totals[o.currency := Plus(own, Share(o, o.currency))];
            name in after ==> after[name] == Plus(other, Share(o, name))
  {
  }

  lemma PutAgain(totals: map<string, Totals>, name: string, t: Totals, u: Totals)
    ensures totals[name := t][name := u] == totals[name := u]
  {
  }

  lemma PlusNothing(t: Totals)
    ensures Plus(t, NOTHING) == t
  {
  }

  lemma CurrencyAdded(rows: seq<Opportunity>, o: Opportunity)
    ensures var met := Currencies(rows);
            Currencies(rows + [o]) == if o.currency in met then met else met + [o.currency]
  {
    assert (rows + [o])[..|rows|] == rows;
  }

  /** One turn: the new row's share is added to its currency, which is appended if it is new. */
  lemma StaysBalanced(ledger: Ledger, rows: seq<Opportunity>, o: Opportunity, r: Ledger)
    requires Balanced(ledger, rows)
    requires r.order == if o.currency in ledger.totals then ledger.order else ledger.order + [o.currency]
    requires r.totals == ledger.totals[o.currency := Plus(TotalOf(rows, o.currency), Share(o, o.currency))]
    ensures Balanced(r, rows + [o])
  {
    CurrencyAdded(rows, o);
    KeyAdded(ledger.order, ledger.totals, o.currency, Plus(TotalOf(rows, o.currency), Share(o, o.currency)));
    ShareAdded(ledger.totals, rows, o);
  }

  lemma SortedKeys(ledger: Ledger, names: seq<string>)
    requires Keyed(ledger.order, ledger.totals) && multiset(names) == multiset(ledger.order)
    ensures forall k :: 0 <= k < |names| ==> names[k] in ledger.totals
  {
    forall k | 0 <= k < |names| ensures names[k] in ledger.totals {
      SameMembers(names, ledger.order, names[k]);
    }
  }

  /** One summary a name, with its totals. */
  predicate Listed(totals: map<string, Totals>, names: seq<string>, summaries: seq<CurrencySummary>) {
    && |summaries| == |names|
    && forall k :: 0 <= k < |names| ==>
         names[k] in totals && summaries[k] == CurrencySummary(names[k], totals[names[k]])
  }

  lemma ListedStep(totals: map<string, Totals>, names: seq<string>, k: nat, summaries: seq<CurrencySummary>)
    requires k < |names| && names[k] in totals && Listed(totals, names[..k], summaries)
    ensures Listed(totals, names[..k + 1], summaries + [CurrencySummary(names[k], totals[names[k]])])
  {
  }

  lemma SummariesFrom(ledger: Ledger, rows: seq<Opportunity>, names: seq<string>, summaries: seq<CurrencySummary>)
    requires Balanced(ledger, rows) && names == SortBy(Precedes, ledger.order)
    requires Listed(ledger.totals, names, summaries)
    ensures summaries == Summaries(rows)
  {
  }

  class RevenueAtRiskAggregator {
    const session: Session
    const decisionKey: Key
    const caseKey: Key

    constructor (session: Session, decisionKey: Key, caseKey: Key)
      ensures this.session == session && this.decisionKey == decisionKey && this.caseKey == caseKey
    {
      this.session := session;
      this.decisionKey := decisionKey;
      this.caseKey := caseKey;
    }

    function Tables(): Core
      reads session
    {
      Core(session.working.store, session.working.trials)
    }

    /** `_latest_decisions`: the first row met for each case, rows coming newest first. */
    method LatestDecisions(decisions: seq<Decision>, ids: seq<CaseId>) returns (latest: map<CaseId, nat>)
      requires Injective(decisionKey)
      ensures forall c :: c in latest ==> latest[c] < |decisions|
      ensures forall c :: c in ids ==>
                Latest(decisions, decisionKey, |decisions|, c) == if c in latest then Some(latest[c]) else None
    {
      latest := map[];
      var rows := NewestFirst(decisions, decisionKey, ids);
      forall k | 0 <= k < |rows| ensures rows[k] < |decisions| {
        RowsAbout(decisions, decisionKey, ids, rows[k]);
      }
      for k := 0 to |rows|
        invariant Collected(decisions, rows, k, latest)
      {
        var c := decisions[rows[k]].caseId;
        if c !in latest {
          latest := latest[c := rows[k]];
          assert FirstAt(decisions, rows, k, c);
        }
      }
      forall c | c in ids
        ensures Latest(decisions, decisionKey, |decisions|, c) == if c in latest then Some(latest[c]) else None
      {
        FirstIsLatest(decisions, decisionKey, ids, latest, c);
      }
    }

    /** One case added to the totals of its currency. */
    method AddTotals(ledger: Ledger, o: Opportunity, ghost rows: seq<Opportunity>) returns (r: Ledger)
      requires Balanced(ledger, rows)
      ensures Balanced(r, rows + [o])
    {
      var order, totals := ledger.order, ledger.totals;
      if o.currency !in totals {
        order := order + [o.currency];
        totals := totals[o.currency := NOTHING];
        UnmetRows(rows, o.currency);
        NothingYet(rows, o.currency);
      }
      var t := totals[o.currency];
      ghost var before := t;
      assert before == TotalOf(rows, o.currency);
      t := t.(atRisk := t.atRisk + o.amount);
      t := t.(active := t.active + 1);
      if o.expected.Some? {
        t := t.(expected := t.expected + o.expected.value);
        t := t.(estimated := t.estimated + 1);
      }
      r := Ledger(order, totals[o.currency := t]);
      assert t == Plus(before, Share(o, o.currency));
      PutAgain(ledger.totals, o.currency, NOTHING, t);
      StaysBalanced(ledger, rows, o, r);
    }

    /** The summaries, currencies in alphabetical order. */
    method Summarize(ledger: Ledger, ghost rows: seq<Opportunity>) returns (summaries: seq<CurrencySummary>)
      requires Balanced(ledger, rows)
      ensures summaries == Summaries(rows)
    {
      var names := SortBy(Precedes, ledger.order);
      SortedKeys(ledger, names);
      summaries := [];
      for k := 0 to |names|
        invariant Listed(ledger.totals, names[..k], summaries)
      {
        ListedStep(ledger.totals, names, k, summaries);
        summaries := summaries + [CurrencySummary(names[k], ledger.totals[names[k]])];
      }
      assert names[..|names|] == names;
      SummariesFrom(ledger, rows, names, summaries);
    }

    /** The loop over the active cases. */
    method Tally(core: Core, ids: seq<CaseId>, latest: map<CaseId, nat>, now: int)
      returns (ledger: Ledger, rows: seq<Opportunity>)
      requires forall k :: 0 <= k < |ids| ==> ids[k] < |core.store.cases|
      requires forall c :: c in latest ==> latest[c] < |core.trials.decisions|
      requires forall c :: c in ids ==>
                 Latest(core.trials.decisions, decisionKey, |core.trials.decisions|, c)
                 == if c in latest then Some(latest[c]) else None
      ensures rows == Opportunities(core, decisionKey, ids, now) && Balanced(ledger, rows)
    {
      ledger := Ledger([], map[]);
      rows := [];
      for k := 0 to |ids|
        invariant rows == Opportunities(core, decisionKey, ids[..k], now)
        invariant Balanced(ledger, rows)
      {
        var c := ids[k];
        var decision := if c in latest then Some(core.trials.decisions[latest[c]]) else None;
        assert c in ids && decision == LatestOf(core.trials.decisions, decisionKey, c);
        var o := OpportunityOf(c, core.store.cases[c], decision, now);
        ledger := AddTotals(ledger, o, rows);
        rows := rows + [o];
        assert ids[..k + 1] == ids[..k] + [c];
      }
      assert ids[..|ids|] == ids;
    }

    /** `build_snapshot`. */
    method BuildSnapshot(merchant: Option<MerchantId>, limit: nat, now: int) returns (r: RevenueSnapshot)
      requires Injective(decisionKey)
      ensures r == SnapshotFrom(Tables(), decisionKey, caseKey, ActiveIds(Tables(), now, merchant), limit, now)
    {
      var core := Tables();
      var ids := ActiveIds(core, now, merchant);
      var latest := LatestDecisions(core.trials.decisions, ids);
      var ledger, rows := Tally(core, ids, latest, now);
      var summaries := Summarize(ledger, rows);
      r := RevenueSnapshot(now, summaries, Top(caseKey, rows, limit));
    }
  }
}
