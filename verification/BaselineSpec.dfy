/** The rule baseline (baseline/rules.py, baseline/service.py) as functions of the case and experiment tables. */
module BaselineSpec {
  import opened Outcomes
  import opened Lifecycle
  import opened Ordering
  import opened Records
  import opened SweepSpec

  const VERSION := "rule-baseline-v1"
  const RECOVERED_OUTCOME := "RECOVERED"
  const NOT_RECOVERED_OUTCOME := "NOT_RECOVERED"

  const TRANSIENT_SOURCES: set<string> := {"bank", "gateway"}
  const TRANSIENT_REASONS: set<string> := {"bank_error", "payment_failed", "payment_timed_out"}

  /** The store together with the experiment tables. */
  datatype Core = Core(store: Store, trials: Trials)

  // ---------------------------------------------------------------- rules

  predicate Transient(core: PaymentCore) {
    || (core.errorSource.Some? && core.errorSource.value in TRANSIENT_SOURCES)
    || (core.errorReason.Some? && core.errorReason.value in TRANSIENT_REASONS)
  }

  /** `RecoveryRuleBaseline.select`. */
  function SelectAction(s: Store, c: RecoveryCase): ActionType {
    match c.source
    case OrderSource => RecoveryLink
    case LinkSource => Delay
    case PaymentSource =>
      if c.sourceId in s.payments && s.payments[c.sourceId].merchant == c.merchant
         && Transient(s.payments[c.sourceId].core) then RecoveryLink
      else Stop
  }

  // ---------------------------------------------------------------- batches

  predicate Eligible(c: RecoveryCase) {
    c.experiment.None? && (c.status == AtRisk || c.status == EligibilityCheck || c.status == Assessing)
  }

  /** The active cases a batch may take, in the order listed. */
  function Keep(cases: seq<RecoveryCase>, ids: seq<CaseId>): (r: seq<CaseId>)
    requires forall k :: 0 <= k < |ids| ==> ids[k] < |cases|
    ensures Kept(cases, ids, r)
  {
    if ids == [] then []
    else
      var last := |ids| - 1;
      var earlier := Keep(cases, ids[..last]);
      OneMoreKept(cases, ids, earlier);
      earlier + if Eligible(cases[ids[last]]) then [ids[last]] else []
  }

  /** Exactly the eligible ones of the listed cases, once each if they were listed once. */
  ghost predicate Kept(cases: seq<RecoveryCase>, ids: seq<CaseId>, r: seq<CaseId>) {
    && (forall k :: 0 <= k < |r| ==> r[k] < |cases| && Eligible(cases[r[k]]))
    && (forall i :: i in r <==> i in ids && i < |cases| && Eligible(cases[i]))
    && (Distinct(ids) ==> Distinct(r))
  }

  lemma OneMoreKept(cases: seq<RecoveryCase>, ids: seq<CaseId>, earlier: seq<CaseId>)
    requires ids != [] && ids[|ids| - 1] < |cases| && Kept(cases, ids[..|ids| - 1], earlier)
    ensures Kept(cases, ids, earlier + if Eligible(cases[ids[|ids| - 1]]) then [ids[|ids| - 1]] else [])
  {
    var init, last := ids[..|ids| - 1], ids[|ids| - 1];
    assert ids == init + [last];
    if Distinct(ids) {
      assert last !in init && last !in earlier;
    }
  }

  function EligibleCases(s: Store, now: int, merchant: MerchantId): (r: seq<CaseId>)
    ensures forall k :: 0 <= k < |r| ==> r[k] < |s.cases| && Eligible(s.cases[r[k]])
    ensures Distinct(r)
  {
    var active := ListActive(s.cases, |s.cases|, now, Some(merchant));
    assert forall k :: 0 <= k < |active| ==> active[k] in active;
    Keep(s.cases, active)
  }

  /** `_control_count`. */
  function ControlCount(total: nat, percentage: nat): int {
    var count := (total * percentage + 50) / 100;
    if total >= 2 && 0 < percentage < 100 then
      var floor := if count > 1 then count else 1;
      if floor < total - 1 then floor else total - 1
    else count
  }

  /** How a case's digest ranks it inside an experiment. */
  type Digest = (ExperimentId, CaseId) -> int

  function Rank(digest: Digest, experiment: ExperimentId, eligible: seq<CaseId>): (r: seq<CaseId>)
    ensures multiset(r) == multiset(eligible) && |r| == |eligible|
  {
    SortBy((a, b) => digest(experiment, a) < digest(experiment, b), eligible)
  }

  function Advanced(status: Status): Status {
    if status == AtRisk || status == EligibilityCheck || status == Assessing then DecisionReady else status
  }

  /** `_create_rule_decision`. */
  function Decide(core: Core, c: CaseId, now: int): (r: Core)
    requires c < |core.store.cases|
    ensures |r.store.cases| == |core.store.cases|
  {
    var s, t := core.store, core.trials;
    var kind := SelectAction(s, s.cases[c]);
    Core(s.(cases := s.cases[c := s.cases[c].(status := Advanced(s.cases[c].status))],
            audits := s.audits + [DecisionRecorded(c, kind)]),
         t.(decisions := t.decisions + [Decision(c, VERSION, kind, NoScore, now)],
            actions := t.actions + [Action(c, kind, VERSION)]))
  }

  /** One turn of the batch loop. */
  function Assign(core: Core, c: CaseId, experiment: ExperimentId, group: Group, percentage: int, now: int): (r: Core)
    requires c < |core.store.cases|
    ensures |r.store.cases| == |core.store.cases|
  {
    var s, t := core.store, core.trials;
    var joined :=
      Core(s.(cases := s.cases[c := s.cases[c].(experiment := Some(experiment), group := Some(group))],
              audits := s.audits + [GroupAssigned(c, experiment, group, percentage)]),
           t.(assignments := t.assignments + [Assignment(experiment, c, group)]));
    if group == Treatment then Decide(joined, c, now) else joined
  }

  function GroupAt(index: int, controls: int): Group {
    if index < controls then Control else Treatment
  }

  /** The first n turns. */
  function AssignTo(
    core: Core, ranked: seq<CaseId>, n: nat, controls: int, experiment: ExperimentId, percentage: int, now: int): (r: Core)
    requires n <= |ranked| && forall k :: 0 <= k < |ranked| ==> ranked[k] < |core.store.cases|
    ensures |r.store.cases| == |core.store.cases|
  {
    if n == 0 then core
    else
      Assign(AssignTo(core, ranked, n - 1, controls, experiment, percentage, now),
             ranked[n - 1], experiment, GroupAt(n - 1, controls), percentage, now)
  }

  datatype BatchRequest = BatchRequest(merchant: MerchantId, name: string, percentage: nat, now: int)
  datatype BatchResult = BatchResult(experiment: ExperimentId, controls: int, treatments: int, actions: int)
  datatype Batched = Batched(core: Core, result: BatchResult)

  /** What stops a batch before it starts. */
  function BatchRefusal(core: Core, req: BatchRequest): Option<Error> {
    if req.merchant !in core.store.merchants then Some(NotFoundError)
    else if !core.store.merchants[req.merchant].active then Some(ConflictError)
    else if Blank(req.name) then Some(ConflictError)
    else if EligibleCases(core.store, req.now, req.merchant) == [] then Some(ConflictError)
    else if req.percentage > 100 then Some(IntegrityError)
    else None
  }

  lemma RankBounds(digest: Digest, experiment: ExperimentId, eligible: seq<CaseId>, bound: nat)
    requires forall k :: 0 <= k < |eligible| ==> eligible[k] < bound
    ensures forall k :: 0 <= k < |eligible| ==> Rank(digest, experiment, eligible)[k] < bound
  {
    var r := Rank(digest, experiment, eligible);
    forall k | 0 <= k < |eligible| ensures r[k] < bound {
      SameMembers(r, eligible, r[k]);
    }
  }

  /** The ranked cases of the batch: the new experiment's id is the next one. */
  function Ranked(core: Core, req: BatchRequest, digest: Digest): (r: seq<CaseId>)
    ensures forall k :: 0 <= k < |r| ==> r[k] < |core.store.cases|
  {
    var eligible := EligibleCases(core.store, req.now, req.merchant);
    RankBounds(digest, |core.trials.experiments|, eligible, |core.store.cases|);
    Rank(digest, |core.trials.experiments|, eligible)
  }

  /** `run_batch`. */
  function RunBatch(core: Core, req: BatchRequest, digest: Digest): (r: Result<Batched, Error>) {
    match BatchRefusal(core, req)
    case Some(e) => Err(e)
    case None =>
      var experiment := |core.trials.experiments|;
      var ranked := Ranked(core, req, digest);
      var controls := ControlCount(|ranked|, req.percentage);
      var started := core.(trials := core.trials.(experiments :=
        core.trials.experiments + [Experiment(req.merchant, req.percentage)]));
      Ok(Batched(AssignTo(started, ranked, |ranked|, controls, experiment, req.percentage, req.now),
                 BatchResult(experiment, controls, |ranked| - controls, |ranked| - controls)))
  }

  // ---------------------------------------------------------------- outcomes

  function FindOutcome(outcomes: seq<ActionOutcome>, action: ActionId): (r: Option<ActionOutcome>)
    ensures r.Some? ==> r.value in outcomes && r.value.actionId == action
    ensures r.None? ==> forall k :: 0 <= k < |outcomes| ==> outcomes[k].actionId != action
  {
    if outcomes == [] then None
    else
      var last := |outcomes| - 1;
      var earlier := FindOutcome(outcomes[..last], action);
      if earlier.Some? then earlier
      else if outcomes[last].actionId == action then Some(outcomes[last])
      else None
  }

  predicate InTreatment(t: Trials, experiment: Option<ExperimentId>, c: CaseId) {
    experiment.Some? && Assignment(experiment.value, c, Treatment) in t.assignments
  }

  /** The merchant's captured payment an outcome names. */
  function CapturedPayment(s: Store, merchant: MerchantId, payment: Option<string>): Option<Payment> {
    if payment.Some? && payment.value in s.payments && s.payments[payment.value].merchant == merchant
       && s.payments[payment.value].core.status == PaymentCaptured
    then Some(s.payments[payment.value]) else None
  }

  datatype Recorded = Recorded(core: Core, outcome: ActionOutcome)

  /** The row, the new case status, and the recovered amount a valid outcome leads to. */
  function Observe(core: Core, action: ActionId, outcome: string, payment: Option<string>, now: int)
    : Result<Recorded, Error>
    requires action < |core.trials.actions| && core.trials.actions[action].caseId < |core.store.cases|
  {
    var s, t := core.store, core.trials;
    var c := t.actions[action].caseId;
    var row := s.cases[c];
    if outcome == RECOVERED_OUTCOME then
      if Terminal(row.status) && row.status != Recovered then Err(ConflictError)
      else
        match CapturedPayment(s, row.merchant, payment)
        case None => Err(ConflictError)
        case Some(p) =>
          var o := ActionOutcome(action, outcome, p.core.amount, payment, Some(now));
          Ok(Recorded(Core(s.(cases := s.cases[c := row.(status := Recovered)],
                              audits := s.audits + [OutcomeRecorded(c, action, outcome, p.core.amount, payment)]),
                           t.(outcomes := t.outcomes + [o])), o))
    else if outcome != NOT_RECOVERED_OUTCOME then Err(ConflictError)
    else if payment.Some? then Err(ConflictError)
    else
      var o := ActionOutcome(action, outcome, 0, payment, None);
      Ok(Recorded(Core(s.(audits := s.audits + [OutcomeRecorded(c, action, outcome, 0, payment)]),
                       t.(outcomes := t.outcomes + [o])), o))
  }

  /** `record_outcome`. */
  function RecordOutcome(core: Core, action: ActionId, outcome: string, payment: Option<string>, now: int)
    : Result<Recorded, Error>
  {
    var t := core.trials;
    if action >= |t.actions| then Err(NotFoundError)
    else
      match FindOutcome(t.outcomes, action)
      case Some(existing) => if existing.outcome != outcome then Err(ConflictError) else Ok(Recorded(core, existing))
      case None =>
        var c := t.actions[action].caseId;
        if c >= |core.store.cases| then Err(NotFoundError)
        else if !InTreatment(t, core.store.cases[c].experiment, c) || t.actions[action].baseline != VERSION then
          Err(ConflictError)
        else Observe(core, action, outcome, payment, now)
  }
}
