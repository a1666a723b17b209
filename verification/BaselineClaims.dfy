/** What batches and outcomes guarantee, and what every request keeps of the experiment tables. */
module BaselineClaims {
  import opened Outcomes
  import opened Lifecycle
  import opened Ordering
  import opened Records
  import opened EngineInvariants
  import opened BaselineSpec

  // ---------------------------------------------------------------- the control share

  lemma ProductMonotone(a: nat, b: nat, c: nat)
    requires b <= c
    ensures a * b <= a * c
  {
  }

  /** The control share: within the batch, the nearest number to the exact share with halves rounded up,
      exact at the ends, and leaving both groups a case whenever there are two and the share is proper,
      which alone may move it off the nearest number. */
  lemma ControlShare(total: nat, percentage: nat)
    requires percentage <= 100
    ensures var count := ControlCount(total, percentage);
            && 0 <= count <= total
            && -100 < 100 * count - total * percentage < 100
            && (|| -50 < 100 * count - total * percentage <= 50
                || (total >= 2 && 0 < percentage < 100
                    && (|| (count == 1 && 100 * count - total * percentage > 50)
                        || (count == total - 1 && 100 * count - total * percentage <= -50))))
            && (percentage == 0 ==> count == 0)
            && (percentage == 100 ==> count == total)
            && (total >= 2 && 0 < percentage < 100 ==> 0 < count < total)
  {
  }

  /** A larger share never takes fewer cases. */
  lemma ControlShareMonotone(total: nat, smaller: nat, larger: nat)
    requires smaller <= larger <= 100
    ensures ControlCount(total, smaller) <= ControlCount(total, larger)
  {
    ProductMonotone(total, smaller, larger);
    ControlShare(total, smaller);
    ControlShare(total, larger);
  }

  // ---------------------------------------------------------------- the experiment tables

  function TreatmentCases(assignments: seq<Assignment>): seq<CaseId> {
    if assignments == [] then []
    else
      var last := |assignments| - 1;
      TreatmentCases(assignments[..last])
      + if assignments[last].group == Treatment then [assignments[last].caseId] else []
  }

  function ActionCases(actions: seq<Action>): (r: seq<CaseId>)
    ensures |r| == |actions| && forall k :: 0 <= k < |r| ==> r[k] == actions[k].caseId
  {
    seq(|actions|, k requires 0 <= k < |actions| => actions[k].caseId)
  }

  function DecisionCases(decisions: seq<Decision>): (r: seq<CaseId>)
    ensures |r| == |decisions| && forall k :: 0 <= k < |r| ==> r[k] == decisions[k].caseId
  {
    seq(|decisions|, k requires 0 <= k < |decisions| => decisions[k].caseId)
  }

  /** The case carries the experiment and group it was assigned. */
  predicate AssignmentOk(core: Core, a: Assignment) {
    && a.experiment < |core.trials.experiments| && a.caseId < |core.store.cases|
    && core.store.cases[a.caseId].experiment == Some(a.experiment)
    && core.store.cases[a.caseId].group == Some(a.group)
  }

  /** A recovered outcome's case is RECOVERED; any other outcome recovered nothing and names no payment. */
  predicate OutcomeOk(core: Core, o: ActionOutcome) {
    && o.actionId < |core.trials.actions|
    && core.trials.actions[o.actionId].caseId < |core.store.cases|
    && (|| (o.outcome == RECOVERED_OUTCOME
            && core.store.cases[core.trials.actions[o.actionId].caseId].status == Recovered)
        || (o.outcome == NOT_RECOVERED_OUTCOME && o.recovered == 0 && o.payment.None?))
  }

  predicate AssignmentsOk(core: Core) {
    && (forall i :: 0 <= i < |core.store.cases| && core.store.cases[i].experiment.Some? ==>
          core.store.cases[i].experiment.value < |core.trials.experiments|)
    && (forall k :: 0 <= k < |core.trials.assignments| ==> AssignmentOk(core, core.trials.assignments[k]))
    && (forall j, k :: 0 <= j < k < |core.trials.assignments| ==>
          core.trials.assignments[j].caseId != core.trials.assignments[k].caseId)
  }

  predicate ActionsOk(t: Trials) {
    && ActionCases(t.actions) == TreatmentCases(t.assignments)
    && DecisionCases(t.decisions) == TreatmentCases(t.assignments)
    && (forall k :: 0 <= k < |t.actions| ==> t.actions[k].baseline == VERSION)
  }

  predicate OutcomesOk(core: Core) {
    && (forall k :: 0 <= k < |core.trials.outcomes| ==> OutcomeOk(core, core.trials.outcomes[k]))
    && (forall j, k :: 0 <= j < k < |core.trials.outcomes| ==>
          core.trials.outcomes[j].actionId != core.trials.outcomes[k].actionId)
  }

  /** The invariant of the experiment tables: no case is assigned twice, each assignment agrees with
      its case, the treated cases are exactly the cases with an action and a decision, one each, and
      no action has two outcomes. */
  predicate TrialsOk(core: Core) {
    AssignmentsOk(core) && ActionsOk(core.trials) && OutcomesOk(core)
  }

  /** The invariant contains every constraint of the experiment tables. */
  lemma TrialsOkRefs(core: Core)
    requires TrialsOk(core) && ExperimentsOk(core.store, core.trials)
    ensures TrialsRefsOk(core.store, core.trials)
  {
    var t := core.trials;
    forall c | c in TreatmentCases(t.assignments) ensures c < |core.store.cases| {
      TreatedIff(t.assignments, c);
      var k :| 0 <= k < |t.assignments| && t.assignments[k].caseId == c;
      assert AssignmentOk(core, t.assignments[k]);
    }
    forall k | 0 <= k < |t.actions| ensures t.actions[k].caseId < |core.store.cases| {
      assert ActionCases(t.actions)[k] in TreatmentCases(t.assignments);
    }
    forall k | 0 <= k < |t.decisions| ensures t.decisions[k].caseId < |core.store.cases| {
      assert DecisionCases(t.decisions)[k] in TreatmentCases(t.assignments);
    }
    forall k | 0 <= k < |t.assignments|
      ensures t.assignments[k].experiment < |t.experiments| && t.assignments[k].caseId < |core.store.cases| {
      assert AssignmentOk(core, t.assignments[k]);
    }
    forall k | 0 <= k < |t.outcomes| ensures t.outcomes[k].actionId < |t.actions| {
      assert OutcomeOk(core, t.outcomes[k]);
    }
  }

  lemma {:induction false} TreatedIff(assignments: seq<Assignment>, c: CaseId)
    ensures c in TreatmentCases(assignments) <==>
              exists k :: 0 <= k < |assignments| && assignments[k].caseId == c && assignments[k].group == Treatment
  {
    if assignments != [] {
      var last := |assignments| - 1;
      TreatedIff(assignments[..last], c);
      if c in TreatmentCases(assignments[..last]) {
        var k :| 0 <= k < last && assignments[..last][k].caseId == c && assignments[..last][k].group == Treatment;
        assert assignments[k].caseId == c;
      }
    }
  }

  lemma {:induction false} TreatedOnce(assignments: seq<Assignment>)
    requires forall j, k :: 0 <= j < k < |assignments| ==> assignments[j].caseId != assignments[k].caseId
    ensures Distinct(TreatmentCases(assignments))
  {
    if assignments != [] {
      var last := |assignments| - 1;
      TreatedOnce(assignments[..last]);
      TreatedIff(assignments[..last], assignments[last].caseId);
    }
  }

  /** A case has a baseline action, and a decision, if and only if it was assigned to treatment, and
      then exactly one of each. */
  lemma OneActionPerTreatedCase(core: Core, c: CaseId)
    requires TrialsOk(core)
    ensures var t := core.trials;
            var treated := exists k ::
              0 <= k < |t.assignments| && t.assignments[k].caseId == c && t.assignments[k].group == Treatment;
            && (treated <==> exists k :: 0 <= k < |t.actions| && t.actions[k].caseId == c)
            && (treated <==> exists k :: 0 <= k < |t.decisions| && t.decisions[k].caseId == c)
    ensures forall j, k :: 0 <= j < k < |core.trials.actions| ==>
              core.trials.actions[j].caseId != core.trials.actions[k].caseId
    ensures forall j, k :: 0 <= j < k < |core.trials.decisions| ==>
              core.trials.decisions[j].caseId != core.trials.decisions[k].caseId
  {
    var t := core.trials;
    TreatedIff(t.assignments, c);
    TreatedOnce(t.assignments);
    var a, d := ActionCases(t.actions), DecisionCases(t.decisions);
    forall j, k | 0 <= j < k < |t.actions| ensures t.actions[j].caseId != t.actions[k].caseId { assert a[j] != a[k]; }
    forall j, k | 0 <= j < k < |t.decisions| ensures t.decisions[j].caseId != t.decisions[k].caseId { assert d[j] != d[k]; }
    if exists k :: 0 <= k < |t.actions| && t.actions[k].caseId == c {
      var k :| 0 <= k < |t.actions| && t.actions[k].caseId == c;
      assert a[k] in a;
    }
    if exists k :: 0 <= k < |t.decisions| && t.decisions[k].caseId == c {
      var k :| 0 <= k < |t.decisions| && t.decisions[k].caseId == c;
      assert d[k] in d;
    }
    if c in TreatmentCases(t.assignments) {
      assert c in a && c in d;
      var k :| 0 <= k < |a| && a[k] == c;
      assert t.actions[k].caseId == c;
      var l :| 0 <= l < |d| && d[l] == c;
      assert t.decisions[l].caseId == c;
    }
  }

  /** Steps that assign nothing leave the experiment tables in order. */
  lemma TrialsSurvive(core: Core, t: Store)
    requires TrialsOk(core) && CasesEvolve(core.store, t)
    requires forall i :: 0 <= i < |t.cases| && t.cases[i].experiment.Some? ==>
               t.cases[i].experiment.value < |core.trials.experiments|
    ensures TrialsOk(core.(store := t))
  {
  }

  // ---------------------------------------------------------------- one assignment

  /** The row a batch leaves behind. */
  function AssignedRow(row: RecoveryCase, experiment: ExperimentId, group: Group): RecoveryCase {
    row.(experiment := Some(experiment), group := Some(group),
         status := if group == Treatment then Advanced(row.status) else row.status)
  }

  lemma AssignRow(core: Core, c: CaseId, experiment: ExperimentId, group: Group, percentage: int, now: int)
    requires c < |core.store.cases|
    ensures var r := Assign(core, c, experiment, group, percentage, now);
            && r.store.cases == core.store.cases[c := AssignedRow(core.store.cases[c], experiment, group)]
            && r.store == core.store.(cases := r.store.cases, audits := r.store.audits)
            && r.trials.experiments == core.trials.experiments && r.trials.outcomes == core.trials.outcomes
            && r.trials.assignments == core.trials.assignments + [Assignment(experiment, c, group)]
            && |r.trials.actions| == |core.trials.actions| + (if group == Treatment then 1 else 0)
  {
  }

  /** A live row rewritten and an audit that tells of no status. */
  lemma AuditedRow(s: Store, c: CaseId, row: RecoveryCase, entry: Audit)
    requires c < |s.cases| && CaseEvolves(s.cases[c], row) && !Terminal(s.cases[c].status)
    requires entry.caseId == c && !entry.StatusChanged?
    ensures Sound(s, s.(cases := s.cases[c := row], audits := s.audits + [entry]))
  {
    var t := s.(cases := s.cases[c := row]);
    LiveRowWritten(s, c, row);
    Audited(t, entry);
    SoundTransitive(s, t, t.(audits := t.audits + [entry]));
  }

  lemma ControlSound(core: Core, c: CaseId, experiment: ExperimentId, percentage: int, now: int)
    requires c < |core.store.cases| && Eligible(core.store.cases[c])
    ensures Sound(core.store, Assign(core, c, experiment, Control, percentage, now).store)
  {
    AuditedRow(core.store, c, AssignedRow(core.store.cases[c], experiment, Control),
               GroupAssigned(c, experiment, Control, percentage));
  }

  lemma TreatmentSound(core: Core, c: CaseId, experiment: ExperimentId, percentage: int, now: int)
    requires c < |core.store.cases| && Eligible(core.store.cases[c])
    ensures Sound(core.store, Assign(core, c, experiment, Treatment, percentage, now).store)
  {
    var s := core.store;
    var row, e1 := AssignedRow(s.cases[c], experiment, Treatment), GroupAssigned(c, experiment, Treatment, percentage);
    var u := s.(cases := s.cases[c := row], audits := s.audits + [e1]);
    var e2 := DecisionRecorded(c, SelectAction(s, s.cases[c]));
    AuditedRow(s, c, row, e1);
    Audited(u, e2);
    SoundTransitive(s, u, u.(audits := u.audits + [e2]));
    assert Assign(core, c, experiment, Treatment, percentage, now).store == u.(audits := u.audits + [e2]);
  }

  lemma AssignSound(core: Core, c: CaseId, experiment: ExperimentId, group: Group, percentage: int, now: int)
    requires c < |core.store.cases| && Eligible(core.store.cases[c])
    ensures Sound(core.store, Assign(core, c, experiment, group, percentage, now).store)
  {
    if group == Treatment {
      TreatmentSound(core, c, experiment, percentage, now);
    } else {
      ControlSound(core, c, experiment, percentage, now);
    }
  }

  lemma AssignAmounts(core: Core, c: CaseId, experiment: ExperimentId, group: Group, percentage: int, now: int)
    requires c < |core.store.cases| && AmountsOk(core.store)
    ensures AmountsOk(Assign(core, c, experiment, group, percentage, now).store)
  {
  }

  lemma AssignTrials(core: Core, c: CaseId, experiment: ExperimentId, group: Group, percentage: int, now: int)
    requires TrialsOk(core) && c < |core.store.cases| && Eligible(core.store.cases[c])
    requires experiment < |core.trials.experiments|
    ensures TrialsOk(Assign(core, c, experiment, group, percentage, now))
  {
    var r := Assign(core, c, experiment, group, percentage, now);
    AssignRow(core, c, experiment, group, percentage, now);
    forall k | 0 <= k < |core.trials.assignments|
      ensures core.trials.assignments[k].caseId != c && AssignmentOk(r, core.trials.assignments[k])
    {
      assert AssignmentOk(core, core.trials.assignments[k]);
    }
    assert r.trials.assignments[..|core.trials.assignments|] == core.trials.assignments;
    assert ActionCases(r.trials.actions) == TreatmentCases(r.trials.assignments) == DecisionCases(r.trials.decisions);
    forall k | 0 <= k < |core.trials.outcomes| ensures OutcomeOk(r, core.trials.outcomes[k]) {
      assert OutcomeOk(core, core.trials.outcomes[k]);
    }
  }

  // ---------------------------------------------------------------- whole batches

  /** Where the batch loop stands after n turns. */
  predicate BatchShape(before: Core, after: Core, ranked: seq<CaseId>, n: nat, controls: int, experiment: ExperimentId)
    requires n <= |ranked|
  {
    && |after.store.cases| == |before.store.cases|
    && (forall i :: 0 <= i < |before.store.cases| && i !in ranked[..n] ==> after.store.cases[i] == before.store.cases[i])
    && (forall k :: 0 <= k < n ==> ranked[k] < |before.store.cases|)
    && (forall k :: 0 <= k < n ==>
          after.store.cases[ranked[k]] == AssignedRow(before.store.cases[ranked[k]], experiment, GroupAt(k, controls)))
    && |after.trials.assignments| == |before.trials.assignments| + n
    && after.trials.assignments[..|before.trials.assignments|] == before.trials.assignments
    && (forall k :: 0 <= k < n ==>
          after.trials.assignments[|before.trials.assignments| + k] == Assignment(experiment, ranked[k], GroupAt(k, controls)))
    && after.trials.experiments == before.trials.experiments && after.trials.outcomes == before.trials.outcomes
  }

  /** Where the loop stands: the shape, and the invariants of both halves of the database. */
  predicate BatchStands(
    before: Core, after: Core, ranked: seq<CaseId>, n: nat, controls: int, experiment: ExperimentId)
    requires n <= |ranked|
  {
    && BatchShape(before, after, ranked, n, controls, experiment)
    && TrialsOk(after) && Sound(before.store, after.store)
    && (AmountsOk(before.store) ==> AmountsOk(after.store))
  }

  lemma {:induction false} AssignToStands(
    core: Core, after: Core, ranked: seq<CaseId>, n: nat, controls: int, experiment: ExperimentId, percentage: int, now: int)
    requires n <= |ranked| && Distinct(ranked)
    requires forall k :: 0 <= k < |ranked| ==> ranked[k] < |core.store.cases| && Eligible(core.store.cases[ranked[k]])
    requires TrialsOk(core) && experiment < |core.trials.experiments|
    requires after == AssignTo(core, ranked, n, controls, experiment, percentage, now)
    ensures BatchStands(core, after, ranked, n, controls, experiment)
    decreases n
  {
    if n > 0 {
      var mid := AssignTo(core, ranked, n - 1, controls, experiment, percentage, now);
      AssignToStands(core, mid, ranked, n - 1, controls, experiment, percentage, now);
      ShapeTurn(core, mid, after, ranked, n, controls, experiment, percentage, now);
    } else {
      ShapeStart(core, ranked, controls, experiment);
    }
  }

  lemma ShapeStart(core: Core, ranked: seq<CaseId>, controls: int, experiment: ExperimentId)
    requires TrialsOk(core)
    ensures BatchStands(core, core, ranked, 0, controls, experiment)
  {
  }

  lemma ShapeTurn(
    core: Core, mid: Core, after: Core, ranked: seq<CaseId>, n: nat, controls: int, experiment: ExperimentId,
    percentage: int, now: int)
    requires 0 < n <= |ranked| && Distinct(ranked)
    requires ranked[n - 1] < |core.store.cases| && Eligible(core.store.cases[ranked[n - 1]])
    requires experiment < |core.trials.experiments| && BatchStands(core, mid, ranked, n - 1, controls, experiment)
    requires ranked[n - 1] < |mid.store.cases|
    requires after == Assign(mid, ranked[n - 1], experiment, GroupAt(n - 1, controls), percentage, now)
    ensures BatchStands(core, after, ranked, n, controls, experiment)
  {
    assert ranked[n - 1] !in ranked[..n - 1];
    AssignTurn(mid, ranked[n - 1], experiment, GroupAt(n - 1, controls), percentage, now);
    SoundTransitive(core.store, mid.store, after.store);
    ShapeStep(core, mid, after, ranked, n, controls, experiment);
  }

  lemma AssignTurn(core: Core, c: CaseId, experiment: ExperimentId, group: Group, percentage: int, now: int)
    requires TrialsOk(core) && c < |core.store.cases| && Eligible(core.store.cases[c])
    requires experiment < |core.trials.experiments|
    ensures var r := Assign(core, c, experiment, group, percentage, now);
            && TrialsOk(r) && Sound(core.store, r.store) && (AmountsOk(core.store) ==> AmountsOk(r.store))
            && r.store.cases == core.store.cases[c := AssignedRow(core.store.cases[c], experiment, group)]
            && r.trials.experiments == core.trials.experiments && r.trials.outcomes == core.trials.outcomes
            && r.trials.assignments == core.trials.assignments + [Assignment(experiment, c, group)]
  {
    AssignRow(core, c, experiment, group, percentage, now);
    AssignSound(core, c, experiment, group, percentage, now);
    if AmountsOk(core.store) {
      AssignAmounts(core, c, experiment, group, percentage, now);
    }
    AssignTrials(core, c, experiment, group, percentage, now);
  }

  lemma ShapeStep(
    core: Core, mid: Core, after: Core, ranked: seq<CaseId>, n: nat, controls: int, experiment: ExperimentId)
    requires 0 < n <= |ranked| && Distinct(ranked) && BatchShape(core, mid, ranked, n - 1, controls, experiment)
    requires var c := ranked[n - 1];
             && c < |core.store.cases|
             && after.store.cases == mid.store.cases[c := AssignedRow(mid.store.cases[c], experiment, GroupAt(n - 1, controls))]
             && after.trials.experiments == mid.trials.experiments && after.trials.outcomes == mid.trials.outcomes
             && after.trials.assignments == mid.trials.assignments + [Assignment(experiment, c, GroupAt(n - 1, controls))]
    ensures BatchShape(core, after, ranked, n, controls, experiment)
  {
  }

  lemma RankedEligible(core: Core, req: BatchRequest, digest: Digest)
    ensures Distinct(Ranked(core, req, digest))
    ensures forall k :: 0 <= k < |Ranked(core, req, digest)| ==> Eligible(core.store.cases[Ranked(core, req, digest)[k]])
    ensures forall i :: i in Ranked(core, req, digest) <==> i in EligibleCases(core.store, req.now, req.merchant)
  {
    var eligible := EligibleCases(core.store, req.now, req.merchant);
    var r := Ranked(core, req, digest);
    DistinctPermutation(eligible, r);
    forall i ensures i in r <==> i in eligible { SameMembers(r, eligible, i); }
    forall k | 0 <= k < |r| ensures Eligible(core.store.cases[r[k]]) { assert r[k] in eligible; }
  }

  /** The batch's core once its experiment row is in. */
  function Started(core: Core, req: BatchRequest): Core {
    core.(trials := core.trials.(experiments := core.trials.experiments + [Experiment(req.merchant, req.percentage)]))
  }

  /** A batch keeps the invariants of both halves of the database. */
  lemma BatchKeeps(core: Core, req: BatchRequest, digest: Digest)
    requires TrialsOk(core) && RunBatch(core, req, digest).Ok?
    ensures var ranked := Ranked(core, req, digest);
            BatchStands(Started(core, req), RunBatch(core, req, digest).value.core, ranked, |ranked|,
                        ControlCount(|ranked|, req.percentage), |core.trials.experiments|)
  {
    var ranked := Ranked(core, req, digest);
    RankedEligible(core, req, digest);
    StartedTrials(core, Experiment(req.merchant, req.percentage));
    AssignToStands(Started(core, req), RunBatch(core, req, digest).value.core, ranked, |ranked|,
                   ControlCount(|ranked|, req.percentage), |core.trials.experiments|, req.percentage, req.now);
  }

  /** What the shape says of the cases once every turn is done. */
  lemma ShapePartitions(before: Core, after: Core, ranked: seq<CaseId>, controls: int, experiment: ExperimentId)
    requires BatchShape(before, after, ranked, |ranked|, controls, experiment)
    requires forall k :: 0 <= k < |ranked| ==> Eligible(before.store.cases[ranked[k]])
    ensures |after.store.cases| == |before.store.cases|
    ensures forall i :: 0 <= i < |before.store.cases| && i !in ranked ==> after.store.cases[i] == before.store.cases[i]
    ensures forall k :: 0 <= k < |ranked| ==>
              var row := before.store.cases[ranked[k]];
              after.store.cases[ranked[k]] ==
                if k < controls then row.(experiment := Some(experiment), group := Some(Control))
                else row.(experiment := Some(experiment), group := Some(Treatment), status := DecisionReady)
  {
    assert ranked[..|ranked|] == ranked;
  }

  /** A batch partitions exactly its eligible cases: the first ones in digest order, as many as the
      control share says, become CONTROL with their status untouched; the others become TREATMENT and
      DECISION_READY; no other case changes. */
  lemma BatchPartitions(core: Core, req: BatchRequest, digest: Digest)
    requires TrialsOk(core) && RunBatch(core, req, digest).Ok?
    ensures var b := RunBatch(core, req, digest).value;
            var ranked := Ranked(core, req, digest);
            var controls := ControlCount(|ranked|, req.percentage);
            && multiset(ranked) == multiset(EligibleCases(core.store, req.now, req.merchant))
            && |b.core.store.cases| == |core.store.cases|
            && (forall i :: 0 <= i < |core.store.cases| && i !in ranked ==>
                  b.core.store.cases[i] == core.store.cases[i])
            && (forall k :: 0 <= k < |ranked| ==>
                  var before := core.store.cases[ranked[k]];
                  b.core.store.cases[ranked[k]] ==
                    if k < controls then before.(experiment := Some(b.result.experiment), group := Some(Control))
                    else before.(experiment := Some(b.result.experiment), group := Some(Treatment), status := DecisionReady))
            && 0 <= b.result.controls <= |ranked| && b.result.controls + b.result.treatments == |ranked|
  {
    var ranked := Ranked(core, req, digest);
    RankedEligible(core, req, digest);
    BatchKeeps(core, req, digest);
    ControlShare(|ranked|, req.percentage);
    ShapePartitions(Started(core, req), RunBatch(core, req, digest).value.core, ranked,
                    ControlCount(|ranked|, req.percentage), |core.trials.experiments|);
  }

  lemma StartedTrials(core: Core, e: Experiment)
    requires TrialsOk(core)
    ensures TrialsOk(core.(trials := core.trials.(experiments := core.trials.experiments + [e])))
  {
  }

  /** With a digest that tells the eligible cases apart, who is in which group depends only on which
      cases are eligible, not on the order they were listed in. */
  lemma GroupsIgnoreListOrder(digest: Digest, experiment: ExperimentId, xs: seq<CaseId>, ys: seq<CaseId>)
    requires Distinct(xs) && multiset(xs) == multiset(ys)
    requires forall a, b :: a in xs && b in xs && a != b ==> digest(experiment, a) != digest(experiment, b)
    ensures Rank(digest, experiment, xs) == Rank(digest, experiment, ys)
  {
    var before := (a, b) => digest(experiment, a) < digest(experiment, b);
    SortByCanonical(before, xs, ys);
  }

  // ---------------------------------------------------------------- outcomes

  /** What recording an outcome did. */
  predicate OutcomeEffect(core: Core, r: Recorded, action: ActionId, outcome: string, payment: Option<string>)
    requires action < |core.trials.actions|
  {
    var c := core.trials.actions[action].caseId;
    if FindOutcome(core.trials.outcomes, action).Some? then r.core == core
    else
      && c < |core.store.cases|
      && r.core.trials == core.trials.(outcomes := core.trials.outcomes + [r.outcome])
      && r.core.store == core.store.(cases := r.core.store.cases, audits := r.core.store.audits)
      && (if outcome == RECOVERED_OUTCOME then
            var captured := CapturedPayment(core.store, core.store.cases[c].merchant, payment);
            && captured.Some? && r.outcome.recovered == captured.value.core.amount
            && (Terminal(core.store.cases[c].status) ==> core.store.cases[c].status == Recovered)
            && r.core.store.cases == core.store.cases[c := core.store.cases[c].(status := Recovered)]
          else
            && r.core.store.cases == core.store.cases
            && outcome == NOT_RECOVERED_OUTCOME && r.outcome.recovered == 0 && r.outcome.payment.None?)
  }

  /** Recording an outcome: a recovery needs a captured payment of the case's merchant, whose amount it
      records, and makes the case RECOVERED; any other outcome changes no case, recovers nothing and
      names no payment; a repetition changes nothing at all. */
  lemma OutcomeClaims(core: Core, action: ActionId, outcome: string, payment: Option<string>, now: int)
    requires RecordOutcome(core, action, outcome, payment, now).Ok?
    ensures var r := RecordOutcome(core, action, outcome, payment, now).value;
            && action < |core.trials.actions|
            && r.outcome in r.core.trials.outcomes && r.outcome.actionId == action && r.outcome.outcome == outcome
            && OutcomeEffect(core, r, action, outcome, payment)
  {
  }

  lemma OutcomeKeepsTrials(core: Core, action: ActionId, outcome: string, payment: Option<string>, now: int)
    requires TrialsOk(core) && RecordOutcome(core, action, outcome, payment, now).Ok?
    ensures TrialsOk(RecordOutcome(core, action, outcome, payment, now).value.core)
  {
    var r := RecordOutcome(core, action, outcome, payment, now).value;
    OutcomeClaims(core, action, outcome, payment, now);
    if FindOutcome(core.trials.outcomes, action).None? {
      var c := core.trials.actions[action].caseId;
      OutcomeEvolves(core, c, r.core.store);
      TrialsSurvive(core, r.core.store);
      OutcomeAppended(core.(store := r.core.store), r.outcome);
    }
  }

  lemma OutcomeAppended(core: Core, o: ActionOutcome)
    requires TrialsOk(core) && FindOutcome(core.trials.outcomes, o.actionId).None? && OutcomeOk(core, o)
    ensures TrialsOk(core.(trials := core.trials.(outcomes := core.trials.outcomes + [o])))
  {
  }

  lemma OutcomeEvolves(core: Core, c: CaseId, t: Store)
    requires c < |core.store.cases| && |t.cases| == |core.store.cases|
    requires AssignmentsOk(core)
    requires t.cases == core.store.cases
             || ((!Terminal(core.store.cases[c].status) || core.store.cases[c].status == Recovered)
                 && t.cases == core.store.cases[c := core.store.cases[c].(status := Recovered)])
    ensures CasesEvolve(core.store, t)
    ensures forall i :: 0 <= i < |t.cases| && t.cases[i].experiment.Some? ==>
              t.cases[i].experiment.value < |core.trials.experiments|
  {
  }

  lemma OutcomeSound(core: Core, action: ActionId, outcome: string, payment: Option<string>, now: int)
    requires RecordOutcome(core, action, outcome, payment, now).Ok?
    ensures Sound(core.store, RecordOutcome(core, action, outcome, payment, now).value.core.store)
    ensures AmountsOk(core.store) ==> AmountsOk(RecordOutcome(core, action, outcome, payment, now).value.core.store)
  {
    var r := RecordOutcome(core, action, outcome, payment, now).value;
    if FindOutcome(core.trials.outcomes, action).None? {
      var s := core.store;
      var c := core.trials.actions[action].caseId;
      var row := s.cases[c].(status := Recovered);
      var entry := r.core.store.audits[|s.audits|];
      if outcome == RECOVERED_OUTCOME {
        var t := s.(cases := s.cases[c := row]);
        if Terminal(s.cases[c].status) { assert t == s; } else { LiveRowWritten(s, c, row); }
        Audited(t, entry);
        SoundTransitive(s, t, t.(audits := t.audits + [entry]));
      } else {
        Audited(s, entry);
      }
    }
  }
}
