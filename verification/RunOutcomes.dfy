/** Recoveries and experiments over runs: why a case is RECOVERED, and what reports can still change. */
module RunOutcomes {
  import opened Outcomes
  import opened Lifecycle
  import opened Records
  import opened ReconcileSpec
  import opened DeliverySpec
  import opened MirrorClaims
  import opened SweepSpec
  import opened BaselineSpec
  import opened BaselineClaims
  import opened ReportSpec
  import opened CaseSpec
  import opened RecoverySystem

  // ---------------------------------------------------------------- evidence

  predicate RecoveredIn(s: Store, i: CaseId) {
    i < |s.cases| && s.cases[i].status == Recovered
  }

  /** What entitles a step to turn this case RECOVERED: the provider's answers to a delivery that handles
      this case, the merchant's captured payment an outcome of this case names, or an explicit PATCH, which
      needs no evidence. */
  predicate Justified(core: Core, step: Step, i: CaseId) {
    match step
    case Webhook(d) =>
      && Attempt(core.store, d).Ok? && Attempt(core.store, d).value.caseId == Some(i)
      && ReadProvider(d.gateway, d.env).Ok? && ProviderEvidence(d)
    case ReportOutcome(action, outcome, payment, _) =>
      && outcome == RECOVERED_OUTCOME && i < |core.store.cases|
      && action < |core.trials.actions| && core.trials.actions[action].caseId == i
      && CapturedPayment(core.store, core.store.cases[i].merchant, payment).Some?
    case PatchCase(c, target) => c == i && target == Recovered
    case _ => false
  }

  lemma {:induction false} ScanRecoversNone(s: Store, cursor: seq<string>, n: nat, now: int, window: nat, i: CaseId)
    requires n <= |cursor| && forall id :: id in cursor ==> id in s.orders
    requires ScanTo(s, cursor, n, now, window).Ok?
    requires RecoveredIn(ScanTo(s, cursor, n, now, window).value.store, i)
    ensures RecoveredIn(s, i)
  {
    if n > 0 {
      var before := ScanTo(s, cursor, n - 1, now, window).value;
      assert RecoveredIn(before.store, i);
      ScanRecoversNone(s, cursor, n - 1, now, window, i);
    }
  }

  lemma SweepRecoversNone(s: Store, now: int, merchant: Option<MerchantId>, i: CaseId)
    requires RecoveredIn(Sweep(s, now, merchant), i)
    ensures RecoveredIn(s, i)
  {
    SweepCases(s, now, merchant);
  }

  lemma BatchRecoversNone(core: Core, req: BatchRequest, digest: Digest, i: CaseId)
    requires TrialsOk(core) && RunBatch(core, req, digest).Ok?
    requires RecoveredIn(RunBatch(core, req, digest).value.core.store, i)
    ensures RecoveredIn(core.store, i)
  {
    BatchPartitions(core, req, digest);
    var ranked := Ranked(core, req, digest);
    if i in ranked {
      var k :| 0 <= k < |ranked| && ranked[k] == i;
      assert core.store.cases[ranked[k]].status == Recovered;
    }
  }

  lemma ServedEvidence(core: Core, step: Step, i: CaseId)
    requires TrialsOk(core) && RecoveredIn(Serve(core, step).store, i) && !RecoveredIn(core.store, i)
    ensures Justified(core, step, i)
  {
    match step
    case Webhook(d) => DeliveredEvidence(core.store, d, i);
    case ScanOrders(_, _, _, _, _, _) =>
      var t := Sweep(core.store, step.sweptAt, step.merchant);
      if !RecoveredIn(t, i) {
        ScanRecoversNone(t, step.cursor, |step.cursor|, step.now, step.window, i);
      }
      SweepRecoversNone(core.store, step.sweptAt, step.merchant, i);
    case ExpireCases(now, merchant) => SweepRecoversNone(core.store, now, merchant, i);
    case StartBatch(req, digest) => BatchRecoversNone(core, req, digest, i);
    case ReportOutcome(action, outcome, payment, now) => OutcomeClaims(core, action, outcome, payment, now);
    case _ =>
  }

  /** This step turned the case RECOVERED, by a delivery only if that succeeded, and was entitled to. */
  ghost predicate TurnedBy(db: Db, step: Step, i: CaseId) {
    && !RecoveredIn(db.store, i) && RecoveredIn(Next(db, step).store, i)
    && (step.Webhook? ==> Succeeds(db, step.d))
    && Justified(CoreOf(db), step, i)
  }

  lemma StepTurns(db: Db, step: Step, i: CaseId)
    requires Inv(db) && !RecoveredIn(db.store, i) && RecoveredIn(Next(db, step).store, i)
    ensures TurnedBy(db, step, i)
  {
    NextServes(db, step);
    ServedEvidence(CoreOf(db), step, i);
  }

  /** The n-th step of a run did. */
  ghost predicate TurnedAt(db: Db, steps: seq<Step>, n: nat, i: CaseId)
    requires n < |steps|
  {
    TurnedBy(Run(db, steps[..n]), steps[n], i)
  }

  lemma TurnedEarlier(db: Db, steps: seq<Step>, n: nat, i: CaseId)
    requires n < |steps| - 1 && TurnedAt(db, steps[..|steps| - 1], n, i)
    ensures TurnedAt(db, steps, n, i)
  {
    assert steps[..|steps| - 1][..n] == steps[..n];
  }

  lemma LastTurns(db: Db, steps: seq<Step>, i: CaseId)
    requires Inv(db) && steps != [] && RecoveredIn(Run(db, steps).store, i)
    requires !RecoveredIn(Run(db, steps[..|steps| - 1]).store, i)
    ensures TurnedAt(db, steps, |steps| - 1, i)
  {
    RunInv(db, steps[..|steps| - 1]);
    StepTurns(Run(db, steps[..|steps| - 1]), steps[|steps| - 1], i);
  }

  /** Recovery needs evidence, over runs: behind every case that became RECOVERED there is a step that
      made it so and was entitled to. */
  lemma {:induction false} RecoveredBecause(db: Db, steps: seq<Step>, i: CaseId)
    requires Inv(db) && RecoveredIn(Run(db, steps).store, i) && !RecoveredIn(db.store, i)
    ensures exists n: nat :: n < |steps| && TurnedAt(db, steps, n, i)
  {
    var last := |steps| - 1;
    if RecoveredIn(Run(db, steps[..last]).store, i) {
      RecoveredBecause(db, steps[..last], i);
      var n: nat :| n < last && TurnedAt(db, steps[..last], n, i);
      TurnedEarlier(db, steps, n, i);
    } else {
      LastTurns(db, steps, i);
    }
  }

  /** A PATCH recovers a live case on nobody's word: the evidence rule is not one of the lifecycle. */
  lemma PatchNeedsNoEvidence(s: Store, c: CaseId)
    requires c < |s.cases| && !Terminal(s.cases[c].status)
    ensures Patch(s, c, Recovered).Ok? && RecoveredIn(Patch(s, c, Recovered).value, c)
    ensures Patch(s, c, Recovered).value.audits == s.audits
  {
  }

  // ---------------------------------------------------------------- experiments over time

  /** Rows of the experiment tables are only added, and new assignments belong to new experiments. */
  predicate TrialsGrow(t: Trials, u: Trials) {
    && t.experiments <= u.experiments && t.assignments <= u.assignments
    && t.actions <= u.actions && t.outcomes <= u.outcomes
    && (forall k :: |t.assignments| <= k < |u.assignments| ==> u.assignments[k].experiment >= |t.experiments|)
  }

  lemma {:induction false} AssignToGrows(
    core: Core, ranked: seq<CaseId>, n: nat, controls: int, experiment: ExperimentId, percentage: int, now: int)
    requires n <= |ranked| && forall k :: 0 <= k < |ranked| ==> ranked[k] < |core.store.cases|
    ensures var t, u := core.trials, AssignTo(core, ranked, n, controls, experiment, percentage, now).trials;
            && u.experiments == t.experiments && u.outcomes == t.outcomes
            && t.assignments <= u.assignments && t.actions <= u.actions
            && (forall k :: |t.assignments| <= k < |u.assignments| ==> u.assignments[k].experiment == experiment)
  {
    if n > 0 {
      AssignToGrows(core, ranked, n - 1, controls, experiment, percentage, now);
    }
  }

  lemma ServeGrows(core: Core, step: Step)
    ensures TrialsGrow(core.trials, Serve(core, step).trials)
  {
    match step
    case StartBatch(req, digest) =>
      if RunBatch(core, req, digest).Ok? {
        var ranked := Ranked(core, req, digest);
        AssignToGrows(Started(core, req), ranked, |ranked|, ControlCount(|ranked|, req.percentage),
                      |core.trials.experiments|, req.percentage, req.now);
      }
    case ReportOutcome(action, outcome, payment, now) =>
      if RecordOutcome(core, action, outcome, payment, now).Ok? {
        OutcomeClaims(core, action, outcome, payment, now);
      }
    case _ =>
  }

  lemma {:induction false} TrialsOverTime(db: Db, steps: seq<Step>)
    ensures TrialsGrow(db.trials, Run(db, steps).trials)
  {
    if steps != [] {
      var last := |steps| - 1;
      TrialsOverTime(db, steps[..last]);
      NextServes(Run(db, steps[..last]), steps[last]);
      ServeGrows(CoreOf(Run(db, steps[..last])), steps[last]);
    }
  }

  lemma ReportGrows(core: Core, after: Core, experiment: ExperimentId, group: Group)
    requires TrialsGrow(core.trials, after.trials) && CasesEvolve(core.store, after.store)
    requires experiment < |core.trials.experiments|
    ensures ReportOf(after, experiment, group).members == ReportOf(core, experiment, group).members
    ensures ReportOf(after, experiment, group).recovered >= ReportOf(core, experiment, group).recovered
  {
    var t, u := core.trials, after.trials;
    var more := u.assignments[|t.assignments|..];
    assert u.assignments == t.assignments + more;
    CountsOverTime(core.store, after.store, t.assignments, more, experiment, group);
  }

  /** The intent-to-treat report over time: an experiment's denominators are fixed by its batch, and no
      later run of requests lowers the number recovered in either group. */
  lemma ReportOverTime(db: Db, steps: seq<Step>, experiment: ExperimentId, group: Group)
    requires Inv(db) && experiment < |db.trials.experiments|
    ensures var before := ReportOf(CoreOf(db), experiment, group);
            var after := ReportOf(CoreOf(Run(db, steps)), experiment, group);
            after.members == before.members && after.recovered >= before.recovered
  {
    TrialsOverTime(db, steps);
    RunEvolves(db, steps, 0);
    assert steps[..0] == [];
    ReportGrows(CoreOf(db), CoreOf(Run(db, steps)), experiment, group);
  }

  /** Recorded outcomes stay, and a recovered outcome's case stays RECOVERED. */
  lemma OutcomesForever(db: Db, steps: seq<Step>, k: nat)
    requires Inv(db) && k < |db.trials.outcomes|
    ensures var o, after := db.trials.outcomes[k], Run(db, steps);
            && k < |after.trials.outcomes| && after.trials.outcomes[k] == o
            && (forall j :: 0 <= j < |after.trials.outcomes| && j != k ==> after.trials.outcomes[j].actionId != o.actionId)
            && o.actionId < |after.trials.actions|
            && (if o.outcome == RECOVERED_OUTCOME then RecoveredIn(after.store, after.trials.actions[o.actionId].caseId)
                else o.recovered == 0 && o.payment.None?)
  {
    TrialsOverTime(db, steps);
    RunKeeps(db, steps, 0);
    var after := Run(db, steps);
    assert OutcomeOk(CoreOf(after), after.trials.outcomes[k]);
  }
}
