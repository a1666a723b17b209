/** What a rule-baseline batch and its outcomes come to, in terms of the rows alone (baseline/rules.py,
    baseline/service.py): which cases a batch takes and in what order, what it prescribes, when an outcome
    is accepted and what is recorded. */
module RuleClaims {
  import opened Outcomes
  import opened Lifecycle
  import opened Ordering
  import opened Records
  import opened BaselineSpec
  import opened BaselineClaims

  // ---------------------------------------------------------------- who is taken

  /** A live case of the merchant that nobody has assigned or decided on yet. */
  predicate Takeable(c: RecoveryCase, req: BatchRequest) {
    && c.merchant == req.merchant && req.now < c.windowEnd && c.experiment.None?
    && (c.status == AtRisk || c.status == EligibilityCheck || c.status == Assessing)
  }

  lemma EligibleMeans(core: Core, req: BatchRequest, i: CaseId)
    ensures i in EligibleCases(core.store, req.now, req.merchant) <==>
              i < |core.store.cases| && Takeable(core.store.cases[i], req)
  {
  }

  ghost predicate SomeTakeable(s: Store, req: BatchRequest) {
    exists i: CaseId :: i < |s.cases| && Takeable(s.cases[i], req)
  }

  lemma SomeEligible(core: Core, req: BatchRequest)
    ensures EligibleCases(core.store, req.now, req.merchant) != [] <==> SomeTakeable(core.store, req)
  {
    var eligible := EligibleCases(core.store, req.now, req.merchant);
    if eligible != [] {
      EligibleMeans(core, req, eligible[0]);
    }
    forall i: CaseId | i < |core.store.cases| && Takeable(core.store.cases[i], req) ensures eligible != [] {
      EligibleMeans(core, req, i);
    }
  }

  lemma RefusalMeans(core: Core, req: BatchRequest)
    requires EligibleCases(core.store, req.now, req.merchant) != [] <==> SomeTakeable(core.store, req)
    ensures var s, e := core.store, BatchRefusal(core, req);
            && (e == None <==>
                  && req.merchant in s.merchants && s.merchants[req.merchant].active
                  && (exists i :: 0 <= i < |req.name| && !Space(req.name[i])) && req.percentage <= 100
                  && SomeTakeable(s, req))
            && (e == Some(NotFoundError) <==> req.merchant !in s.merchants)
            && (e == Some(IntegrityError) ==> req.percentage > 100)
  {
  }

  /** A batch runs exactly if its merchant is there and active, it has a name, the share is a percentage and
      there is a case to take. */
  lemma BatchAccepted(core: Core, req: BatchRequest, digest: Digest)
    ensures var s, r := core.store, RunBatch(core, req, digest);
            && (r.Ok? <==>
                  && req.merchant in s.merchants && s.merchants[req.merchant].active
                  && (exists i :: 0 <= i < |req.name| && !Space(req.name[i])) && req.percentage <= 100
                  && SomeTakeable(s, req))
            && (r == Err(NotFoundError) <==> req.merchant !in s.merchants)
            && (r == Err(IntegrityError) ==> req.percentage > 100)
  {
    SomeEligible(core, req);
    RefusalMeans(core, req);
  }

  /** A batch takes every case it can, once, in the order of their digests under the new experiment. */
  lemma BatchRanks(core: Core, req: BatchRequest, digest: Digest)
    ensures var ranked := Ranked(core, req, digest);
            && Distinct(ranked)
            && (forall i: CaseId :: i in ranked <==> i < |core.store.cases| && Takeable(core.store.cases[i], req))
            && forall j, k :: 0 <= j < k < |ranked| ==>
                 digest(|core.trials.experiments|, ranked[j]) <= digest(|core.trials.experiments|, ranked[k])
  {
    var ranked, e := Ranked(core, req, digest), |core.trials.experiments|;
    RankedEligible(core, req, digest);
    forall i: CaseId ensures i in ranked <==> i < |core.store.cases| && Takeable(core.store.cases[i], req) {
      EligibleMeans(core, req, i);
    }
    var before := (a: CaseId, b: CaseId) => digest(e, a) < digest(e, b);
    SortBySorted(before, EligibleCases(core.store, req.now, req.merchant));
    forall j, k | 0 <= j < k < |ranked| ensures digest(e, ranked[j]) <= digest(e, ranked[k]) {
      assert !before(ranked[k], ranked[j]);
    }
  }

  // ---------------------------------------------------------------- what is prescribed

  /** The failures that pass by themselves. */
  predicate PassingFailure(core: PaymentCore) {
    || core.errorSource == Some("bank") || core.errorSource == Some("gateway")
    || core.errorReason == Some("bank_error") || core.errorReason == Some("payment_failed")
    || core.errorReason == Some("payment_timed_out")
  }

  /** What the rules prescribe: a link for an unpaid order, waiting for an existing link, and for a payment
      a link if the merchant's own row tells of a passing failure, else to stop. */
  function Prescription(s: Store, c: RecoveryCase): ActionType {
    match c.source
    case OrderSource => RecoveryLink
    case LinkSource => Delay
    case PaymentSource =>
      if c.sourceId in s.payments && s.payments[c.sourceId].merchant == c.merchant
         && PassingFailure(s.payments[c.sourceId].core)
      then RecoveryLink else Stop
  }

  lemma Prescribes(s: Store, t: Store, c: RecoveryCase, d: RecoveryCase)
    requires t.payments == s.payments && SameSource(c, d)
    ensures SelectAction(t, d) == Prescription(s, c)
  {
  }

  /** The two rows written for a treated case agree with each other and with the rules. */
  predicate Prescribed(s: Store, c: CaseId, action: Action, decision: Decision, now: int) {
    && c < |s.cases|
    && action == Action(c, Prescription(s, s.cases[c]), "rule-baseline-v1")
    && decision == Decision(c, "rule-baseline-v1", Prescription(s, s.cases[c]), NoScore, now)
  }

  /** The rows written for the treated cases among the first n. */
  predicate RowsWritten(s: Store, t: Trials, u: Trials, ranked: seq<CaseId>, n: nat, controls: nat, now: int)
    requires n <= |ranked|
  {
    && t.actions <= u.actions && t.decisions <= u.decisions
    && |u.actions| == |t.actions| + (if n <= controls then 0 else n - controls)
    && |u.decisions| == |t.decisions| + (if n <= controls then 0 else n - controls)
    && forall k :: controls <= k < n ==>
         Prescribed(s, ranked[k], u.actions[|t.actions| + k - controls],
                    u.decisions[|t.decisions| + k - controls], now)
  }

  /** What selecting an action looks at stays. */
  predicate SourcesStay(s: Store, t: Store) {
    && t.payments == s.payments && |t.cases| == |s.cases|
    && forall i :: 0 <= i < |s.cases| ==> SameSource(s.cases[i], t.cases[i])
  }

  lemma AssignWrites(core: Core, c: CaseId, experiment: ExperimentId, group: Group, percentage: int, now: int)
    requires c < |core.store.cases|
    ensures var r := Assign(core, c, experiment, group, percentage, now);
            && SourcesStay(core.store, r.store)
            && r.trials.actions == core.trials.actions +
                 (if group == Treatment then [Action(c, Prescription(core.store, core.store.cases[c]), "rule-baseline-v1")]
                  else [])
            && r.trials.decisions == core.trials.decisions +
                 (if group == Treatment then
                    [Decision(c, "rule-baseline-v1", Prescription(core.store, core.store.cases[c]), NoScore, now)]
                  else [])
  {
    AssignRow(core, c, experiment, group, percentage, now);
    var joined := core.store.(cases := core.store.cases[c :=
      core.store.cases[c].(experiment := Some(experiment), group := Some(group))]);
    Prescribes(core.store, joined, core.store.cases[c], joined.cases[c]);
  }

  lemma SamePrescription(s: Store, t: Store, c: CaseId)
    requires SourcesStay(s, t) && c < |s.cases|
    ensures Prescription(t, t.cases[c]) == Prescription(s, s.cases[c])
  {
  }

  lemma RowsStep(s: Store, t: Trials, u: Trials, v: Trials, ranked: seq<CaseId>, n: nat, controls: nat, now: int)
    requires 0 < n <= |ranked| && RowsWritten(s, t, u, ranked, n - 1, controls, now)
    requires ranked[n - 1] < |s.cases|
    requires var c, kind := ranked[n - 1], Prescription(s, s.cases[ranked[n - 1]]);
             && v.actions == u.actions + (if n > controls then [Action(c, kind, "rule-baseline-v1")] else [])
             && v.decisions ==
                  u.decisions + (if n > controls then [Decision(c, "rule-baseline-v1", kind, NoScore, now)] else [])
    ensures RowsWritten(s, t, v, ranked, n, controls, now)
  {
  }

  lemma SourcesTransitive(s: Store, t: Store, u: Store)
    requires SourcesStay(s, t) && SourcesStay(t, u)
    ensures SourcesStay(s, u)
  {
  }

  /** One more turn after n - 1. */
  lemma AssignTurnWrites(
    s: Store, t: Trials, mid: Core, ranked: seq<CaseId>, n: nat, controls: nat, experiment: ExperimentId,
    percentage: int, now: int)
    requires 0 < n <= |ranked| && ranked[n - 1] < |s.cases| && SourcesStay(s, mid.store)
    requires RowsWritten(s, t, mid.trials, ranked, n - 1, controls, now)
    ensures var r := Assign(mid, ranked[n - 1], experiment, GroupAt(n - 1, controls), percentage, now);
            RowsWritten(s, t, r.trials, ranked, n, controls, now) && SourcesStay(s, r.store)
  {
    var r := Assign(mid, ranked[n - 1], experiment, GroupAt(n - 1, controls), percentage, now);
    AssignWrites(mid, ranked[n - 1], experiment, GroupAt(n - 1, controls), percentage, now);
    SamePrescription(s, mid.store, ranked[n - 1]);
    SourcesTransitive(s, mid.store, r.store);
    RowsStep(s, t, mid.trials, r.trials, ranked, n, controls, now);
  }

  lemma {:induction false} AssignToWrites(
    core: Core, ranked: seq<CaseId>, n: nat, controls: nat, experiment: ExperimentId, percentage: int, now: int)
    requires n <= |ranked| && forall k :: 0 <= k < |ranked| ==> ranked[k] < |core.store.cases|
    ensures var r := AssignTo(core, ranked, n, controls, experiment, percentage, now);
            RowsWritten(core.store, core.trials, r.trials, ranked, n, controls, now) && SourcesStay(core.store, r.store)
  {
    if n > 0 {
      var mid := AssignTo(core, ranked, n - 1, controls, experiment, percentage, now);
      AssignToWrites(core, ranked, n - 1, controls, experiment, percentage, now);
      AssignTurnWrites(core.store, core.trials, mid, ranked, n, controls, experiment, percentage, now);
    } else {
      NothingWritten(core, ranked, controls, now);
    }
  }

  lemma NothingWritten(core: Core, ranked: seq<CaseId>, controls: nat, now: int)
    ensures RowsWritten(core.store, core.trials, core.trials, ranked, 0, controls, now)
    ensures SourcesStay(core.store, core.store)
  {
  }

  /** Only the actions and decisions of the earlier tables matter. */
  lemma RowsSame(s: Store, t: Trials, t': Trials, u: Trials, ranked: seq<CaseId>, controls: nat, now: int)
    requires RowsWritten(s, t, u, ranked, |ranked|, controls, now)
    requires t'.actions == t.actions && t'.decisions == t.decisions
    ensures RowsWritten(s, t', u, ranked, |ranked|, controls, now)
  {
  }

  /** Every treated case of a batch gets exactly one action and one decision, of the same kind, the one the
      rules prescribe for the rows as they were; the others get none. */
  lemma BatchPrescribes(core: Core, req: BatchRequest, digest: Digest)
    requires RunBatch(core, req, digest).Ok?
    ensures var b, ranked := RunBatch(core, req, digest).value, Ranked(core, req, digest);
            && 0 <= b.result.controls <= |ranked| && Distinct(ranked)
            && b.result.actions == b.result.treatments == |ranked| - b.result.controls
            && RowsWritten(core.store, core.trials, b.core.trials, ranked, |ranked|, b.result.controls, req.now)
  {
    var ranked, b := Ranked(core, req, digest), RunBatch(core, req, digest).value;
    RankedEligible(core, req, digest);
    ControlShare(|ranked|, req.percentage);
    BatchWrites(core, req, digest);
    RowsSame(core.store, Started(core, req).trials, core.trials, b.core.trials, ranked, b.result.controls, req.now);
  }

  lemma BatchWrites(core: Core, req: BatchRequest, digest: Digest)
    requires RunBatch(core, req, digest).Ok? && 0 <= RunBatch(core, req, digest).value.result.controls
    ensures var b, ranked := RunBatch(core, req, digest).value, Ranked(core, req, digest);
            RowsWritten(core.store, Started(core, req).trials, b.core.trials, ranked, |ranked|, b.result.controls, req.now)
  {
    var ranked := Ranked(core, req, digest);
    AssignToWrites(Started(core, req), ranked, |ranked|, ControlCount(|ranked|, req.percentage),
                   |core.trials.experiments|, req.percentage, req.now);
  }

  // ---------------------------------------------------------------- what is logged

  /** Where the log of the k-th ranked case starts: one entry an earlier case, and another if it was treated. */
  function LogAt(k: nat, controls: nat): nat {
    if k <= controls then k else k + (k - controls)
  }

  /** The entries of the k-th ranked case. */
  predicate CaseLogged(
    s: Store, log: seq<Audit>, ranked: seq<CaseId>, k: nat, controls: nat, experiment: ExperimentId, percentage: int)
    requires k < |ranked|
  {
    var at := LogAt(k, controls);
    && ranked[k] < |s.cases| && at < |log|
    && log[at] == GroupAssigned(ranked[k], experiment, GroupAt(k, controls), percentage)
    && (k >= controls ==>
          at + 1 < |log| && log[at + 1] == DecisionRecorded(ranked[k], Prescription(s, s.cases[ranked[k]])))
  }

  /** The log entries of the first n turns: each case's group, and what was prescribed if it was treated. */
  predicate LogWritten(
    s: Store, log: seq<Audit>, ranked: seq<CaseId>, n: nat, controls: nat, experiment: ExperimentId, percentage: int)
    requires n <= |ranked|
  {
    && |log| == LogAt(n, controls)
    && forall k: nat :: k < n ==> CaseLogged(s, log, ranked, k, controls, experiment, percentage)
  }

  lemma LogStep(
    s: Store, log: seq<Audit>, ranked: seq<CaseId>, n: nat, controls: nat, experiment: ExperimentId, percentage: int)
    requires 0 < n <= |ranked| && ranked[n - 1] < |s.cases|
    requires LogWritten(s, log, ranked, n - 1, controls, experiment, percentage)
    ensures LogWritten(
      s, log + [GroupAssigned(ranked[n - 1], experiment, GroupAt(n - 1, controls), percentage)]
           + (if n > controls then [DecisionRecorded(ranked[n - 1], Prescription(s, s.cases[ranked[n - 1]]))] else []),
      ranked, n, controls, experiment, percentage)
  {
    var longer := log + [GroupAssigned(ranked[n - 1], experiment, GroupAt(n - 1, controls), percentage)]
      + if n > controls then [DecisionRecorded(ranked[n - 1], Prescription(s, s.cases[ranked[n - 1]]))] else [];
    forall k: nat | k < n ensures CaseLogged(s, longer, ranked, k, controls, experiment, percentage) {
      if k < n - 1 {
        assert CaseLogged(s, log, ranked, k, controls, experiment, percentage);
        assert LogAt(k, controls) + (if k >= controls then 1 else 0) < |log|;
      }
    }
  }

  lemma AssignLogs(core: Core, c: CaseId, experiment: ExperimentId, group: Group, percentage: int, now: int)
    requires c < |core.store.cases|
    ensures Assign(core, c, experiment, group, percentage, now).store.audits ==
              core.store.audits + [GroupAssigned(c, experiment, group, percentage)]
              + (if group == Treatment then [DecisionRecorded(c, Prescription(core.store, core.store.cases[c]))] else [])
  {
    var joined := core.store.(cases := core.store.cases[c :=
      core.store.cases[c].(experiment := Some(experiment), group := Some(group))]);
    Prescribes(core.store, joined, core.store.cases[c], joined.cases[c]);
  }

  lemma AssignTurnLogs(
    s: Store, audits: seq<Audit>, mid: Core, earlier: seq<Audit>, ranked: seq<CaseId>, n: nat, controls: nat,
    experiment: ExperimentId, percentage: int, now: int) returns (log: seq<Audit>)
    requires 0 < n <= |ranked| && ranked[n - 1] < |s.cases| && SourcesStay(s, mid.store)
    requires mid.store.audits == audits + earlier && LogWritten(s, earlier, ranked, n - 1, controls, experiment, percentage)
    ensures Assign(mid, ranked[n - 1], experiment, GroupAt(n - 1, controls), percentage, now).store.audits == audits + log
    ensures LogWritten(s, log, ranked, n, controls, experiment, percentage)
  {
    var group := [GroupAssigned(ranked[n - 1], experiment, GroupAt(n - 1, controls), percentage)];
    var decision :=
      if n > controls then [DecisionRecorded(ranked[n - 1], Prescription(s, s.cases[ranked[n - 1]]))] else [];
    log := earlier + group + decision;
    AssignLogs(mid, ranked[n - 1], experiment, GroupAt(n - 1, controls), percentage, now);
    SamePrescription(s, mid.store, ranked[n - 1]);
    LogStep(s, earlier, ranked, n, controls, experiment, percentage);
    assert audits + earlier + group + decision == audits + log;
  }

  lemma {:induction false} AssignToLogs(
    core: Core, ranked: seq<CaseId>, n: nat, controls: nat, experiment: ExperimentId, percentage: int, now: int)
    returns (log: seq<Audit>)
    requires n <= |ranked| && forall k :: 0 <= k < |ranked| ==> ranked[k] < |core.store.cases|
    ensures AssignTo(core, ranked, n, controls, experiment, percentage, now).store.audits == core.store.audits + log
    ensures LogWritten(core.store, log, ranked, n, controls, experiment, percentage)
  {
    if n > 0 {
      var earlier := AssignToLogs(core, ranked, n - 1, controls, experiment, percentage, now);
      AssignToSources(core, ranked, n - 1, controls, experiment, percentage, now);
      log := AssignTurnLogs(
        core.store, core.store.audits, AssignTo(core, ranked, n - 1, controls, experiment, percentage, now), earlier,
        ranked, n, controls, experiment, percentage, now);
    } else {
      log := [];
      NothingLogged(core.store, core.store.audits, ranked, controls, experiment, percentage);
    }
  }

  lemma NothingLogged(
    s: Store, audits: seq<Audit>, ranked: seq<CaseId>, controls: nat, experiment: ExperimentId, percentage: int)
    ensures LogWritten(s, [], ranked, 0, controls, experiment, percentage) && audits + [] == audits
  {
  }

  lemma AssignToSources(
    core: Core, ranked: seq<CaseId>, n: nat, controls: nat, experiment: ExperimentId, percentage: int, now: int)
    requires n <= |ranked| && forall k :: 0 <= k < |ranked| ==> ranked[k] < |core.store.cases|
    ensures SourcesStay(core.store, AssignTo(core, ranked, n, controls, experiment, percentage, now).store)
  {
    AssignToWrites(core, ranked, n, controls, experiment, percentage, now);
  }

  /** The log of a batch: in rank order, each case's group under the new experiment, and after it, for a
      treated case, the action prescribed. */
  lemma BatchLogs(core: Core, req: BatchRequest, digest: Digest) returns (log: seq<Audit>)
    requires RunBatch(core, req, digest).Ok?
    ensures var b, ranked := RunBatch(core, req, digest).value, Ranked(core, req, digest);
            && b.result.experiment == |core.trials.experiments| && b.result.controls >= 0
            && b.core.store.audits == core.store.audits + log
            && LogWritten(core.store, log, ranked, |ranked|, b.result.controls, b.result.experiment, req.percentage)
  {
    var ranked := Ranked(core, req, digest);
    ControlShare(|ranked|, req.percentage);
    log := AssignToLogs(Started(core, req), ranked, |ranked|, ControlCount(|ranked|, req.percentage),
                        |core.trials.experiments|, req.percentage, req.now);
  }

  // ---------------------------------------------------------------- outcomes

  /** The action's case was treated by the rule baseline. */
  predicate BaselineAction(core: Core, action: ActionId)
    requires action < |core.trials.actions| && core.trials.actions[action].caseId < |core.store.cases|
  {
    var c := core.trials.actions[action].caseId;
    && core.trials.actions[action].baseline == "rule-baseline-v1"
    && exists k :: 0 <= k < |core.trials.assignments|
         && core.trials.assignments[k].caseId == c && core.trials.assignments[k].group == Treatment
         && core.store.cases[c].experiment == Some(core.trials.assignments[k].experiment)
  }

  /** A recovery is credible if the case was not closed otherwise and the payment is the merchant's own and
      captured; anything else that is reported must be NOT_RECOVERED and name no payment. */
  predicate Credible(s: Store, c: RecoveryCase, outcome: string, payment: Option<string>) {
    if outcome == "RECOVERED" then
      && c.status != Stopped && c.status != Expired && c.status != Escalated
      && payment.Some? && payment.value in s.payments
      && s.payments[payment.value].merchant == c.merchant && s.payments[payment.value].core.status == PaymentCaptured
    else outcome == "NOT_RECOVERED" && payment.None?
  }

  /** No action has two outcomes: the unique constraint of the table. */
  predicate OneOutcomeEach(t: Trials) {
    forall j, k :: 0 <= j < k < |t.outcomes| ==> t.outcomes[j].actionId != t.outcomes[k].actionId
  }

  /** An outcome is accepted exactly if it repeats the recorded one, or there is none and it is a credible
      one of an action of the rule baseline. */
  lemma OutcomeAccepted(core: Core, action: ActionId, outcome: string, payment: Option<string>, now: int)
    requires OneOutcomeEach(core.trials)
    ensures var t, r := core.trials, RecordOutcome(core, action, outcome, payment, now);
            && (action >= |t.actions| ==> r == Err(NotFoundError))
            && (action < |t.actions| ==>
                  && (forall k :: 0 <= k < |t.outcomes| && t.outcomes[k].actionId == action ==>
                        r == if t.outcomes[k].outcome == outcome then Ok(Recorded(core, t.outcomes[k])) else Err(ConflictError))
                  && ((forall k :: 0 <= k < |t.outcomes| ==> t.outcomes[k].actionId != action) ==>
                        var c := t.actions[action].caseId;
                        if c >= |core.store.cases| then r == Err(NotFoundError)
                        else if BaselineAction(core, action) && Credible(core.store, core.store.cases[c], outcome, payment)
                        then r.Ok?
                        else r == Err(ConflictError)))
  {
  }

  /** What an accepted new outcome records: the captured amount and the moment of a recovery, nothing of
      anything else, one audit that says the same, and RECOVERED on the case if it is recovered. */
  lemma OutcomeRecordedAs(core: Core, action: ActionId, outcome: string, payment: Option<string>, now: int)
    requires RecordOutcome(core, action, outcome, payment, now).Ok?
    requires forall k :: 0 <= k < |core.trials.outcomes| ==> core.trials.outcomes[k].actionId != action
    ensures action < |core.trials.actions| && core.trials.actions[action].caseId < |core.store.cases|
    ensures var s, r := core.store, RecordOutcome(core, action, outcome, payment, now).value;
            var c := core.trials.actions[action].caseId;
            var recovers := outcome == "RECOVERED";
            && (recovers ==> payment.Some? && payment.value in s.payments)
            && var amount: int := if recovers then s.payments[payment.value].core.amount else 0;
               && r.outcome == ActionOutcome(action, outcome, amount, payment, if recovers then Some(now) else None)
               && r.core.trials == core.trials.(outcomes := core.trials.outcomes + [r.outcome])
               && r.core.store == s.(
                    cases := if recovers then s.cases[c := s.cases[c].(status := Recovered)] else s.cases,
                    audits := s.audits + [OutcomeRecorded(c, action, outcome, amount, payment)])
  {
  }
}
