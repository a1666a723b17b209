/** The intent-to-treat report (baseline/service.py): group counts, rates in millionths, action distribution. */
module ReportSpec {
  import opened Arithmetic
  import opened Outcomes
  import opened Lifecycle
  import opened Records
  import opened BaselineSpec
  import opened BaselineClaims

  predicate InGroup(a: Assignment, experiment: ExperimentId, group: Group) {
    a.experiment == experiment && a.group == group
  }

  predicate IsRecovered(s: Store, c: CaseId) {
    c < |s.cases| && s.cases[c].status == Recovered
  }

  /** Cases assigned to the group. */
  function CountAssigned(assignments: seq<Assignment>, experiment: ExperimentId, group: Group): nat {
    if assignments == [] then 0
    else
      var last := |assignments| - 1;
      CountAssigned(assignments[..last], experiment, group)
      + if InGroup(assignments[last], experiment, group) then 1 else 0
  }

  /** Those of them that are RECOVERED now. */
  function CountRecovered(s: Store, assignments: seq<Assignment>, experiment: ExperimentId, group: Group): nat {
    if assignments == [] then 0
    else
      var last := |assignments| - 1;
      CountRecovered(s, assignments[..last], experiment, group)
      + if InGroup(assignments[last], experiment, group) && IsRecovered(s, assignments[last].caseId) then 1 else 0
  }

  /** a / b rounded to the nearest integer, ties to even: the decimal module's default. */
  function HalfEven(a: nat, b: nat): nat
    requires b > 0
  {
    var q, r := a / b, a % b;
    if 2 * r < b || (2 * r == b && q % 2 == 0) then q else q + 1
  }

  const MILLION: nat := 1_000_000

  /** A recovery rate, in millionths. */
  function Rate(recovered: nat, members: nat): nat {
    if members == 0 then 0 else HalfEven(recovered * MILLION, members)
  }

  datatype GroupReport = GroupReport(members: nat, recovered: nat, rate: nat)

  function ReportOf(core: Core, experiment: ExperimentId, group: Group): GroupReport {
    var n := CountAssigned(core.trials.assignments, experiment, group);
    var r := CountRecovered(core.store, core.trials.assignments, experiment, group);
    GroupReport(n, r, Rate(r, n))
  }

  /** The cases of the treatment group. */
  function TreatedIn(assignments: seq<Assignment>, experiment: ExperimentId): set<CaseId> {
    set a | a in assignments && InGroup(a, experiment, Treatment) :: a.caseId
  }

  function CountKind(actions: seq<Action>, ids: set<CaseId>, kind: ActionType): nat {
    if actions == [] then 0
    else
      var last := |actions| - 1;
      CountKind(actions[..last], ids, kind) + if actions[last].caseId in ids && actions[last].kind == kind then 1 else 0
  }

  function CountIn(cases: seq<CaseId>, ids: set<CaseId>): nat {
    if cases == [] then 0
    else CountIn(cases[..|cases| - 1], ids) + if cases[|cases| - 1] in ids then 1 else 0
  }

  const KINDS: seq<ActionType> := [RecoveryLink, UpdatePrompt, Delay, Stop, Escalate]

  function Entry(distribution: map<ActionType, nat>, kind: ActionType): nat {
    if kind in distribution then distribution[kind] else 0
  }

  function Total(distribution: map<ActionType, nat>): nat {
    Entry(distribution, RecoveryLink) + Entry(distribution, UpdatePrompt) + Entry(distribution, Delay)
    + Entry(distribution, Stop) + Entry(distribution, Escalate)
  }

  function Distribution(t: Trials, experiment: ExperimentId): map<ActionType, nat> {
    var ids := TreatedIn(t.assignments, experiment);
    map k | k in KINDS && CountKind(t.actions, ids, k) > 0 :: CountKind(t.actions, ids, k)
  }

  /** Outcomes recorded for the group's actions. */
  function CountOutcomes(t: Trials, outcomes: seq<ActionOutcome>, ids: set<CaseId>): nat {
    if outcomes == [] then 0
    else
      var last := |outcomes| - 1;
      var action := outcomes[last].actionId;
      CountOutcomes(t, outcomes[..last], ids)
      + if action < |t.actions| && t.actions[action].caseId in ids then 1 else 0
  }

  datatype BaselineReport = BaselineReport(
    control: GroupReport, treatment: GroupReport, lift: int, outcomes: nat, distribution: map<ActionType, nat>)

  /** `report`. */
  function Report(core: Core, experiment: ExperimentId): Result<BaselineReport, Error> {
    if experiment >= |core.trials.experiments| then Err(NotFoundError)
    else
      var control, treatment := ReportOf(core, experiment, Control), ReportOf(core, experiment, Treatment);
      var ids := TreatedIn(core.trials.assignments, experiment);
      Ok(BaselineReport(control, treatment, treatment.rate - control.rate,
                        CountOutcomes(core.trials, core.trials.outcomes, ids),
                        Distribution(core.trials, experiment)))
  }

  // ---------------------------------------------------------------- rates

  predicate Within(a: int, b: int, slack: int) {
    -slack <= a - b <= slack
  }

  lemma HalfEvenNear(a: nat, b: nat)
    requires b > 0
    ensures Within(2 * (HalfEven(a, b) * b), 2 * a, b)
  {
  }

  lemma {:induction false} RecoveredAtMostAssigned(
    s: Store, assignments: seq<Assignment>, experiment: ExperimentId, group: Group)
    ensures CountRecovered(s, assignments, experiment, group) <= CountAssigned(assignments, experiment, group)
  {
    if assignments != [] {
      RecoveredAtMostAssigned(s, assignments[..|assignments| - 1], experiment, group);
    }
  }

  lemma RateAtMost(rate: nat, members: nat)
    requires members > 0 && 2 * (rate * members) <= 2 * (members * MILLION) + members
    ensures rate <= MILLION
  {
  }

  lemma RateBounds(recovered: nat, members: nat)
    requires recovered <= members
    ensures 0 <= Rate(recovered, members) <= MILLION
    ensures members > 0 ==>
              Within(2 * (Rate(recovered, members) * members), 2 * (recovered * MILLION), members)
  {
    if members > 0 {
      HalfEvenNear(recovered * MILLION, members);
      ProductMonotone(MILLION, recovered, members);
      RateAtMost(Rate(recovered, members), members);
    }
  }

  /** Rates lie in [0, 1], within half a millionth of the exact ratio; the lift lies in [-1, 1]. */
  lemma ReportRates(core: Core, experiment: ExperimentId, group: Group)
    ensures var g := ReportOf(core, experiment, group);
            && g.recovered <= g.members && g.rate <= MILLION
            && (g.members > 0 ==> Within(2 * (g.rate * g.members), 2 * (g.recovered * MILLION), g.members))
    ensures -(MILLION as int) <=
              ReportOf(core, experiment, Treatment).rate - ReportOf(core, experiment, Control).rate <= MILLION
  {
    forall g: Group ensures ReportOf(core, experiment, g).recovered <= ReportOf(core, experiment, g).members
                    ensures ReportOf(core, experiment, g).rate <= MILLION {
      RecoveredAtMostAssigned(core.store, core.trials.assignments, experiment, g);
      RateBounds(ReportOf(core, experiment, g).recovered, ReportOf(core, experiment, g).members);
    }
    RateBounds(ReportOf(core, experiment, group).recovered, ReportOf(core, experiment, group).members);
  }

  // ---------------------------------------------------------------- distribution

  lemma {:induction false} KindsAddUp(actions: seq<Action>, ids: set<CaseId>)
    ensures CountKind(actions, ids, RecoveryLink) + CountKind(actions, ids, UpdatePrompt)
            + CountKind(actions, ids, Delay) + CountKind(actions, ids, Stop) + CountKind(actions, ids, Escalate)
            == CountIn(ActionCases(actions), ids)
  {
    if actions != [] {
      var last := |actions| - 1;
      KindsAddUp(actions[..last], ids);
      assert ActionCases(actions)[..last] == ActionCases(actions[..last]);
    }
  }

  lemma {:induction false} TreatedCount(assignments: seq<Assignment>, experiment: ExperimentId, ids: set<CaseId>)
    requires forall k :: 0 <= k < |assignments| && assignments[k].group == Treatment ==>
               (assignments[k].caseId in ids <==> assignments[k].experiment == experiment)
    ensures CountIn(TreatmentCases(assignments), ids) == CountAssigned(assignments, experiment, Treatment)
  {
    if assignments != [] {
      var last := |assignments| - 1;
      TreatedCount(assignments[..last], experiment, ids);
      var shorter := TreatmentCases(assignments[..last]);
      if assignments[last].group == Treatment {
        assert TreatmentCases(assignments)[..|shorter|] == shorter;
      } else {
        assert TreatmentCases(assignments) == shorter;
      }
    }
  }

  /** The reported actions add up to the treatment group. */
  lemma DistributionAddsUp(core: Core, experiment: ExperimentId)
    requires TrialsOk(core)
    ensures Total(Distribution(core.trials, experiment)) == ReportOf(core, experiment, Treatment).members
  {
    var t := core.trials;
    var ids := TreatedIn(t.assignments, experiment);
    KindsAddUp(t.actions, ids);
    forall k | 0 <= k < |t.assignments| && t.assignments[k].group == Treatment
      ensures t.assignments[k].caseId in ids <==> t.assignments[k].experiment == experiment
    {
      if t.assignments[k].caseId in ids {
        var a :| a in t.assignments && InGroup(a, experiment, Treatment) && a.caseId == t.assignments[k].caseId;
        var j :| 0 <= j < |t.assignments| && t.assignments[j] == a;
        assert AssignmentOk(core, a) && AssignmentOk(core, t.assignments[k]);
      }
    }
    TreatedCount(t.assignments, experiment, ids);
  }

  // ---------------------------------------------------------------- the record

  /** The rows assigned to the group, and those of them whose case is RECOVERED. */
  function Members(assignments: seq<Assignment>, experiment: ExperimentId, group: Group): set<nat> {
    set k: nat | k < |assignments| && assignments[k].experiment == experiment && assignments[k].group == group
  }

  function RecoveredMembers(s: Store, assignments: seq<Assignment>, experiment: ExperimentId, group: Group): set<nat> {
    set k: nat | k < |assignments| && assignments[k].experiment == experiment && assignments[k].group == group
                 && assignments[k].caseId < |s.cases| && s.cases[assignments[k].caseId].status == Recovered
  }

  /** The case was assigned to treatment. */
  predicate TreatedCase(t: Trials, experiment: ExperimentId, c: CaseId) {
    Assignment(experiment, c, Treatment) in t.assignments
  }

  /** The actions of this kind for cases among `ids`. */
  function ActionsOfKind(actions: seq<Action>, ids: set<CaseId>, kind: ActionType): set<nat> {
    set k: nat | k < |actions| && actions[k].kind == kind && actions[k].caseId in ids
  }

  /** The outcomes of actions for cases among `ids`. */
  function OutcomesFor(t: Trials, outcomes: seq<ActionOutcome>, ids: set<CaseId>): set<nat> {
    set k: nat | k < |outcomes| && outcomes[k].actionId < |t.actions| && t.actions[outcomes[k].actionId].caseId in ids
  }

  lemma {:induction false} CountsMembers(s: Store, assignments: seq<Assignment>, experiment: ExperimentId, group: Group)
    ensures CountAssigned(assignments, experiment, group) == |Members(assignments, experiment, group)|
    ensures CountRecovered(s, assignments, experiment, group) == |RecoveredMembers(s, assignments, experiment, group)|
  {
    if assignments != [] {
      var last := |assignments| - 1;
      CountsMembers(s, assignments[..last], experiment, group);
      OneMoreRow(Members(assignments[..last], experiment, group), Members(assignments, experiment, group), last,
                 InGroup(assignments[last], experiment, group));
      OneMoreRow(RecoveredMembers(s, assignments[..last], experiment, group),
                 RecoveredMembers(s, assignments, experiment, group), last,
                 InGroup(assignments[last], experiment, group) && IsRecovered(s, assignments[last].caseId));
    }
  }

  lemma {:induction false} CountsActions(actions: seq<Action>, ids: set<CaseId>, kind: ActionType)
    ensures CountKind(actions, ids, kind) == |ActionsOfKind(actions, ids, kind)|
  {
    if actions != [] {
      var last := |actions| - 1;
      CountsActions(actions[..last], ids, kind);
      OneMoreRow(ActionsOfKind(actions[..last], ids, kind), ActionsOfKind(actions, ids, kind), last,
                 actions[last].caseId in ids && actions[last].kind == kind);
    }
  }

  lemma {:induction false} CountsOutcomes(t: Trials, outcomes: seq<ActionOutcome>, ids: set<CaseId>)
    ensures CountOutcomes(t, outcomes, ids) == |OutcomesFor(t, outcomes, ids)|
  {
    if outcomes != [] {
      var last := |outcomes| - 1;
      CountsOutcomes(t, outcomes[..last], ids);
      OneMoreRow(OutcomesFor(t, outcomes[..last], ids), OutcomesFor(t, outcomes, ids), last,
                 outcomes[last].actionId < |t.actions| && t.actions[outcomes[last].actionId].caseId in ids);
    }
  }

  /** The nearest integer to a / b, the even one of two that are equally near. */
  predicate NearestEven(q: nat, a: nat, b: nat) {
    && 2 * a <= 2 * (q * b) + b && 2 * (q * b) <= 2 * a + b
    && (2 * a == 2 * (q * b) + b || 2 * (q * b) == 2 * a + b ==> q % 2 == 0)
  }

  /** The rate is the ratio in millionths. */
  predicate NearestMillionths(rate: nat, recovered: nat, members: nat) {
    if members == 0 then rate == 0 else NearestEven(rate, recovered * 1_000_000, members)
  }

  lemma RateNearest(recovered: nat, members: nat)
    ensures NearestMillionths(Rate(recovered, members), recovered, members)
  {
    if members > 0 {
      TiesToEven(recovered * MILLION, members);
    }
  }

  lemma TiesToEven(a: nat, b: nat)
    requires b > 0
    ensures NearestEven(HalfEven(a, b), a, b)
  {
    HalfEvenNear(a, b);
    var q, r := a / b, a % b;
    assert a == q * b + r;
    assert (q + 1) * b == q * b + b;
  }

  /** One group's figures. */
  predicate GroupFigures(core: Core, experiment: ExperimentId, group: Group, g: GroupReport) {
    && g.members == |Members(core.trials.assignments, experiment, group)|
    && g.recovered == |RecoveredMembers(core.store, core.trials.assignments, experiment, group)|
    && NearestMillionths(g.rate, g.recovered, g.members)
  }

  lemma GroupReported(core: Core, experiment: ExperimentId, group: Group)
    ensures GroupFigures(core, experiment, group, ReportOf(core, experiment, group))
  {
    CountsMembers(core.store, core.trials.assignments, experiment, group);
    RateNearest(ReportOf(core, experiment, group).recovered, ReportOf(core, experiment, group).members);
  }

  /** The whole report: each group's own figures, the lift as treatment less control, the outcomes of the
      treatment group's actions, and how many of these actions there are of each kind that occurs. */
  lemma ReportTable(core: Core, experiment: ExperimentId)
    ensures Report(core, experiment).Ok? <==> experiment < |core.trials.experiments|
    ensures Report(core, experiment).Ok? ==>
              var r, t := Report(core, experiment).value, core.trials;
              && GroupFigures(core, experiment, Control, r.control)
              && GroupFigures(core, experiment, Treatment, r.treatment)
              && r.lift == r.treatment.rate - r.control.rate
              && exists ids: set<CaseId> ::
                   && (forall c :: c in ids <==> TreatedCase(t, experiment, c))
                   && r.outcomes == |OutcomesFor(t, t.outcomes, ids)|
                   && forall kind ::
                        if kind in r.distribution then
                          r.distribution[kind] == |ActionsOfKind(t.actions, ids, kind)| && r.distribution[kind] > 0
                        else |ActionsOfKind(t.actions, ids, kind)| == 0
  {
    GroupReported(core, experiment, Control);
    GroupReported(core, experiment, Treatment);
    var t := core.trials;
    var ids := TreatedIn(t.assignments, experiment);
    TreatedMeans(t, experiment);
    CountsOutcomes(t, t.outcomes, ids);
    forall kind ensures CountKind(t.actions, ids, kind) == |ActionsOfKind(t.actions, ids, kind)| {
      CountsActions(t.actions, ids, kind);
    }
  }

  lemma TreatedMeans(t: Trials, experiment: ExperimentId)
    ensures forall c :: c in TreatedIn(t.assignments, experiment) <==> TreatedCase(t, experiment, c)
  {
    forall c ensures c in TreatedIn(t.assignments, experiment) <==> TreatedCase(t, experiment, c) {
      if TreatedCase(t, experiment, c) {
        assert InGroup(Assignment(experiment, c, Treatment), experiment, Treatment);
      }
    }
  }

  // ---------------------------------------------------------------- over time

  lemma {:induction false} CountsOverTime(
    s: Store, t: Store, assignments: seq<Assignment>, more: seq<Assignment>, experiment: ExperimentId, group: Group)
    requires CasesEvolve(s, t)
    requires forall k :: 0 <= k < |more| ==> more[k].experiment != experiment
    ensures CountAssigned(assignments + more, experiment, group) == CountAssigned(assignments, experiment, group)
    ensures CountRecovered(t, assignments + more, experiment, group) >= CountRecovered(s, assignments, experiment, group)
  {
    var all := assignments + more;
    var last := |all| - 1;
    if more != [] {
      assert all[..last] == assignments + more[..|more| - 1];
      CountsOverTime(s, t, assignments, more[..|more| - 1], experiment, group);
    } else if assignments != [] {
      assert all == assignments;
      assert all[..last] == assignments[..last] + [];
      CountsOverTime(s, t, assignments[..last], [], experiment, group);
      var c := assignments[last].caseId;
      assert c < |s.cases| ==> CaseEvolves(s.cases[c], t.cases[c]);
    }
  }
}
