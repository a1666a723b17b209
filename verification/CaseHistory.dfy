/** The whole history of one case in a run of the system: all statuses it takes, in order, form one path of
    accepted transitions, so the policy gate and the length bound of the lifecycle hold of system runs. */
module CaseHistory {
  import opened Outcomes
  import opened Lifecycle
  import opened Records
  import opened DeliverySpec
  import opened SweepSpec
  import opened BaselineSpec
  import opened BaselineClaims
  import opened RecoverySystem

  // ---------------------------------------------------------------- one step

  /** What one request may do to a status: nothing, one transition, or the baseline's walk to DECISION_READY. */
  predicate Hops(from: Status, to: Status) {
    from == to || TransitionTo(from, to).Ok? || (to == DecisionReady && (from == AtRisk || from == EligibilityCheck))
  }

  /** The statuses passed on the way, the last one included. */
  function Hop(from: Status, to: Status): seq<Status> {
    if from == to then []
    else if to == DecisionReady && from == AtRisk then [EligibilityCheck, Assessing, DecisionReady]
    else if to == DecisionReady && from == EligibilityCheck then [Assessing, DecisionReady]
    else [to]
  }

  /** The status of a case that may not be there yet. */
  function StatusIn(s: Store, i: CaseId): Status {
    if i < |s.cases| then s.cases[i].status else AtRisk
  }

  lemma KeepsHops(s: Store, t: Store, i: CaseId)
    requires Keeps(s, t) && i < |t.cases|
    ensures Hops(StatusIn(s, i), StatusIn(t, i))
  {
    if i < |s.cases| {
      assert CaseEvolves(s.cases[i], t.cases[i]);
    }
  }

  lemma WebhookHops(core: Core, d: Delivery, i: CaseId)
    requires Consistent(core.store) && Attempt(core.store, d).Ok? && i < |Attempt(core.store, d).value.store.cases|
    ensures Hops(StatusIn(core.store, i), StatusIn(Attempt(core.store, d).value.store, i))
  {
    AttemptKeeps(core.store, d);
    KeepsHops(core.store, Attempt(core.store, d).value.store, i);
  }

  lemma ScanHops(s: Store, step: Step, i: CaseId)
    requires Consistent(s) && step.ScanOrders? && i < |SweepAndScan(s, step).cases|
    ensures Hops(StatusIn(s, i), StatusIn(SweepAndScan(s, step), i))
  {
    SweepAndScanKeeps(s, step);
    if SweepAndScan(s, step) != s {
      KeepsHops(s, SweepAndScan(s, step), i);
    }
  }

  lemma SweepHops(s: Store, now: int, merchant: Option<MerchantId>, i: CaseId)
    requires Consistent(s) && i < |Sweep(s, now, merchant).cases|
    ensures Hops(StatusIn(s, i), StatusIn(Sweep(s, now, merchant), i))
  {
    SweepKeeps(s, now, merchant);
    KeepsHops(s, Sweep(s, now, merchant), i);
  }

  lemma BatchHops(core: Core, req: BatchRequest, digest: Digest, i: CaseId)
    requires TrialsOk(core) && RunBatch(core, req, digest).Ok?
    requires i < |RunBatch(core, req, digest).value.core.store.cases|
    ensures Hops(StatusIn(core.store, i), StatusIn(RunBatch(core, req, digest).value.core.store, i))
  {
    BatchPartitions(core, req, digest);
    RankedEligible(core, req, digest);
    var ranked := Ranked(core, req, digest);
    if i in ranked {
      var k :| 0 <= k < |ranked| && ranked[k] == i;
      assert Eligible(core.store.cases[ranked[k]]);
    }
  }

  lemma OutcomeHops(core: Core, action: ActionId, outcome: string, payment: Option<string>, now: int, i: CaseId)
    requires RecordOutcome(core, action, outcome, payment, now).Ok?
    requires i < |RecordOutcome(core, action, outcome, payment, now).value.core.store.cases|
    ensures Hops(StatusIn(core.store, i),
                 StatusIn(RecordOutcome(core, action, outcome, payment, now).value.core.store, i))
  {
    OutcomeClaims(core, action, outcome, payment, now);
  }

  lemma ServeHops(core: Core, step: Step, i: CaseId)
    requires Consistent(core.store) && TrialsOk(core) && i < |Serve(core, step).store.cases|
    ensures Hops(StatusIn(core.store, i), StatusIn(Serve(core, step).store, i))
  {
    if Serve(core, step) != core {
      match step
      case Webhook(d) => WebhookHops(core, d, i);
      case ScanOrders(_, _, _, _, _, _) => ScanHops(core.store, step, i);
      case ExpireCases(now, merchant) => SweepHops(core.store, now, merchant, i);
      case PatchCase(c, target) =>
      case SubmitCase(draft) =>
      case StartBatch(req, digest) => BatchHops(core, req, digest, i);
      case ReportOutcome(action, outcome, payment, now) => OutcomeHops(core, action, outcome, payment, now, i);
    }
  }

  lemma NextHops(db: Db, step: Step, i: CaseId)
    requires Inv(db) && i < |Next(db, step).store.cases|
    ensures Hops(StatusIn(db.store, i), StatusIn(Next(db, step).store, i))
  {
    NextServes(db, step);
    if CoreOf(Next(db, step)) != CoreOf(db) {
      ServeHops(CoreOf(db), step, i);
    }
  }

  // ---------------------------------------------------------------- observed statuses and the path behind them

  /** Statuses seen one after the other, with nothing but hops between them. */
  predicate Hopping(seen: seq<Status>) {
    seen != [] && forall n :: 0 < n < |seen| ==> Hops(seen[n - 1], seen[n])
  }

  /** Every status taken, those passed within a hop included. */
  function History(seen: seq<Status>): seq<Status>
    requires seen != []
  {
    if |seen| == 1 then seen
    else
      var n := |seen| - 1;
      History(seen[..n]) + Hop(seen[n - 1], seen[n])
  }

  /** How often the status changes, and how often it changes to EXECUTING. */
  function Changes(seen: seq<Status>): nat {
    if |seen| <= 1 then 0
    else
      var n := |seen| - 1;
      Changes(seen[..n]) + if seen[n - 1] != seen[n] then 1 else 0
  }

  function Executions(seen: seq<Status>): nat {
    if |seen| <= 1 then 0
    else
      var n := |seen| - 1;
      Executions(seen[..n]) + if seen[n - 1] != Executing && seen[n] == Executing then 1 else 0
  }

  lemma HopAccepted(path: seq<Status>, from: Status, to: Status)
    requires path != [] && path[|path| - 1] == from && Hops(from, to)
    requires forall k :: 0 < k < |path| ==> Accepted(path, k)
    ensures var longer := path + Hop(from, to);
            longer[|longer| - 1] == to && forall k :: 0 < k < |longer| ==> Accepted(longer, k)
  {
    var longer := path + Hop(from, to);
    forall k | 0 < k < |longer| ensures Accepted(longer, k) {
      if k < |path| {
        assert Accepted(path, k);
      }
    }
  }

  /** The history is one path of accepted transitions from the first status seen to the last. */
  lemma {:induction false} HistoryIsPath(seen: seq<Status>)
    requires Hopping(seen)
    ensures var h := History(seen);
            && h != [] && h[0] == seen[0] && h[|h| - 1] == seen[|seen| - 1]
            && forall k :: 0 < k < |h| ==> Accepted(h, k)
  {
    if |seen| > 1 {
      var n := |seen| - 1;
      HistoryIsPath(seen[..n]);
      HopAccepted(History(seen[..n]), seen[n - 1], seen[n]);
    }
  }

  /** An earlier history is the beginning of every later one. */
  lemma {:induction false} HistoryGrows(seen: seq<Status>, m: nat)
    requires 0 < m <= |seen|
    ensures History(seen[..m]) <= History(seen)
  {
    if m < |seen| {
      var n := |seen| - 1;
      HistoryGrows(seen[..n], m);
      assert seen[..n][..m] == seen[..m];
    } else {
      assert seen[..m] == seen;
    }
  }

  lemma HistoryPrefix(seen: seq<Status>, m: nat)
    requires Hopping(seen) && 0 < m <= |seen|
    ensures var earlier := History(seen[..m]);
            earlier <= History(seen) && earlier != [] && earlier[|earlier| - 1] == seen[m - 1]
  {
    HistoryGrows(seen, m);
    HistoryIsPath(seen[..m]);
  }

  lemma {:induction false} VisitsJoined(a: seq<Status>, b: seq<Status>, status: Status)
    ensures Visits(a + b, status) == Visits(a, status) + Visits(b, status)
  {
    if b == [] {
      assert a + b == a;
    } else {
      assert (a + b)[..|a + b| - 1] == a + b[..|b| - 1];
      VisitsJoined(a, b[..|b| - 1], status);
    }
  }

  lemma VisitsOne(a: Status, status: Status)
    ensures Visits([a], status) == if a == status then 1 else 0
  {
    assert [a][..0] == [];
  }

  lemma HopVisits(from: Status, to: Status)
    ensures Visits(Hop(from, to), Executing) == if from != Executing && to == Executing then 1 else 0
    ensures |Hop(from, to)| >= if from != to then 1 else 0
  {
    VisitsOne(to, Executing);
    VisitsOne(EligibilityCheck, Executing);
    VisitsOne(Assessing, Executing);
    VisitsJoined([Assessing], [DecisionReady], Executing);
    VisitsJoined([EligibilityCheck], [Assessing] + [DecisionReady], Executing);
    assert [Assessing] + [DecisionReady] == [Assessing, DecisionReady];
    assert [EligibilityCheck] + ([Assessing] + [DecisionReady]) == [EligibilityCheck, Assessing, DecisionReady];
  }

  lemma {:induction false} HistoryCounts(seen: seq<Status>)
    requires seen != []
    ensures |History(seen)| >= Changes(seen) + 1
    ensures Visits(History(seen), Executing) == Executions(seen) + if seen[0] == Executing then 1 else 0
  {
    if |seen| == 1 {
      assert seen == [seen[0]];
      VisitsOne(seen[0], Executing);
    } else {
      var n := |seen| - 1;
      HistoryCounts(seen[..n]);
      HopVisits(seen[n - 1], seen[n]);
      VisitsJoined(History(seen[..n]), Hop(seen[n - 1], seen[n]), Executing);
    }
  }

  /** The gate at one point of a history. */
  predicate GateAt(h: seq<Status>, k: nat)
    requires k < |h|
  {
    && 0 <= Visits(h[..k + 1], PolicyCheck) - Visits(h[..k + 1], Executing) <= 1
    && (h[k] == Escalated ==> k >= 1 && h[k - 1] == PolicyCheck)
    && (Terminal(h[k]) ==> k == |h| - 1)
  }

  lemma GateOverHistory(seen: seq<Status>)
    requires Hopping(seen) && seen[0] == AtRisk
    ensures IsRun(History(seen))
    ensures forall k :: 0 <= k < |History(seen)| ==> GateAt(History(seen), k)
    ensures Changes(seen) <= |History(seen)| - 1 <= 6 * Executions(seen) + 6
  {
    var h := History(seen);
    HistoryIsPath(seen);
    HistoryCounts(seen);
    RunShape(h);
    forall k | 0 <= k < |h| ensures GateAt(h, k) {
      PolicyGate(h, k);
    }
  }

  // ---------------------------------------------------------------- whole runs

  /** The case's status before the run and after each of its steps; a case that is not there yet counts as
      AT_RISK, where it will be opened. */
  ghost function Seen(db: Db, steps: seq<Step>, i: CaseId): (seen: seq<Status>)
    ensures |seen| == |steps| + 1
  {
    seq(|steps| + 1, n requires 0 <= n <= |steps| => StatusIn(Run(db, steps[..n]).store, i))
  }

  lemma SeenHops(db: Db, steps: seq<Step>, i: CaseId, n: nat)
    requires Inv(db) && n < |steps|
    ensures Hops(StatusIn(Run(db, steps[..n]).store, i), StatusIn(Run(db, steps[..n + 1]).store, i))
  {
    assert steps[..n + 1][..n] == steps[..n];
    RunKeeps(db, steps[..n], 0);
    RunKeeps(db, steps[..n + 1], n);
    if i < |Run(db, steps[..n + 1]).store.cases| {
      NextHops(Run(db, steps[..n]), steps[n], i);
    }
  }

  lemma SeenIsHopping(db: Db, steps: seq<Step>, i: CaseId)
    requires Inv(db)
    ensures Hopping(Seen(db, steps, i))
  {
    var seen := Seen(db, steps, i);
    forall n | 0 < n < |seen| ensures Hops(seen[n - 1], seen[n]) {
      SeenHops(db, steps, i, n - 1);
    }
  }

  /** The policy gate over system runs.  A case that starts AT_RISK, or is opened during the run, lives one
      run of the state machine through all its observed statuses, whatever requests drive it: executions
      trail policy checks by at most one at every point, it is escalated only out of a policy check, and
      when it was put into execution k times its status changed at most 6k + 6 times. */
  lemma GateOverRuns(db: Db, steps: seq<Step>, i: CaseId)
    requires Inv(db) && StatusIn(db.store, i) == AtRisk
    ensures var seen := Seen(db, steps, i);
            var h := History(seen);
            && IsRun(h) && h[|h| - 1] == StatusIn(Run(db, steps).store, i)
            && (forall k :: 0 <= k < |h| ==> GateAt(h, k))
            && Changes(seen) <= |h| - 1 <= 6 * Executions(seen) + 6
  {
    assert steps[..0] == [] && steps[..|steps|] == steps;
    SeenIsHopping(db, steps, i);
    HistoryIsPath(Seen(db, steps, i));
    GateOverHistory(Seen(db, steps, i));
  }

  /** The history behind an earlier moment of the run is the beginning of the history behind a later one, so
      the observed statuses lie on it in order. */
  lemma HistoryOverRuns(db: Db, steps: seq<Step>, i: CaseId, n: nat)
    requires Inv(db) && n <= |steps|
    ensures var earlier := History(Seen(db, steps, i)[..n + 1]);
            && earlier <= History(Seen(db, steps, i))
            && earlier != [] && earlier[|earlier| - 1] == StatusIn(Run(db, steps[..n]).store, i)
  {
    SeenIsHopping(db, steps, i);
    HistoryPrefix(Seen(db, steps, i), n + 1);
  }
}
