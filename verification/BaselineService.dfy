/** The rule-baseline service (baseline/service.py) at work on a session, proved against BaselineSpec and ReportSpec. */
module BaselineService {
  import opened Outcomes
  import opened Lifecycle
  import opened Records
  import opened Database
  import opened BaselineSpec
  import opened ReportSpec

  class RuleBaselineService {
    const session: Session

    constructor (session: Session)
      ensures this.session == session
    {
      this.session := session;
    }

    function Tables(): Core
      reads session
    {
      Core(session.working.store, session.working.trials)
    }

    method Write(c: Core)
      modifies session`working
      ensures session.working == old(session.working).(store := c.store, trials := c.trials)
    {
      session.working := session.working.(store := c.store, trials := c.trials);
    }

    method SetCase(c: CaseId, row: RecoveryCase)
      requires c < |Tables().store.cases|
      modifies session`working
      ensures session.working ==
                old(session.working).(store := old(Tables()).store.(cases := old(Tables()).store.cases[c := row]))
    {
      session.working := session.working.(store := session.working.store.(cases := session.working.store.cases[c := row]));
    }

    method AddAudit(entry: Audit)
      modifies session`working
      ensures session.working ==
                old(session.working).(store := old(Tables()).store.(audits := old(Tables()).store.audits + [entry]))
    {
      session.working := session.working.(store := session.working.store.(audits := session.working.store.audits + [entry]));
    }

    /** One accepted transition out of `from`, if that is where the case is. */
    method Step(c: CaseId, from: Status, to: Status)
      requires c < |Tables().store.cases| && TransitionTo(from, to).Ok?
      modifies session`working
      ensures var row := old(Tables()).store.cases[c];
              session.working == old(session.working).(store := old(Tables()).store.(cases :=
                old(Tables()).store.cases[c := if row.status == from then row.(status := to) else row]))
    {
      var row := Tables().store.cases[c];
      if row.status == from {
        var next := TransitionTo(row.status, to);
        row := row.(status := next.value);
      }
      SetCase(c, row);
    }

    method CreateRuleDecision(c: CaseId, now: int)
      requires c < |Tables().store.cases|
      modifies session`working
      ensures Tables() == Decide(old(Tables()), c, now) && session.working.events == old(session.working).events
    {
      var kind := SelectAction(Tables().store, Tables().store.cases[c]);
      Step(c, AtRisk, EligibilityCheck);
      Step(c, EligibilityCheck, Assessing);
      Step(c, Assessing, DecisionReady);
      var t := session.working.trials;
      t := t.(decisions := t.decisions + [Decision(c, VERSION, kind, NoScore, now)]);
      t := t.(actions := t.actions + [Action(c, kind, VERSION)]);
      session.working := session.working.(trials := t);
      AddAudit(DecisionRecorded(c, kind));
    }

    /** `run_batch`. */
    method RunBatch(req: BatchRequest, digest: Digest) returns (r: Result<BatchResult, Error>)
      modifies session`working
      ensures session.working.events == old(session.working).events
      ensures match BaselineSpec.RunBatch(old(Tables()), req, digest)
              case Ok(b) => r == Ok(b.result) && Tables() == b.core
              case Err(e) => r == Err(e) && session.working == old(session.working)
    {
      var refusal := BatchRefusal(Tables(), req);
      if refusal.Some? {
        return Err(refusal.value);
      }
      var ranked := Ranked(Tables(), req, digest);
      var t := session.working.trials;
      var experiment := |t.experiments|;
      t := t.(experiments := t.experiments + [Experiment(req.merchant, req.percentage)]);
      session.working := session.working.(trials := t);
      ghost var started := Tables();
      assert started == old(Tables()).(trials := t);
      var controls := ControlCount(|ranked|, req.percentage);
      BatchCount(|ranked|, req.percentage);
      var created := AssignAll(ranked, controls, experiment, req.percentage, req.now);
      r := Ok(BatchResult(experiment, controls, |ranked| - controls, created));
    }

    /** The batch loop: the first cases are the control group, the others are treated. */
    method AssignAll(ranked: seq<CaseId>, controls: nat, experiment: ExperimentId, percentage: int, now: int)
      returns (created: nat)
      requires forall k :: 0 <= k < |ranked| ==> ranked[k] < |Tables().store.cases|
      requires controls <= |ranked|
      modifies session`working
      ensures Tables() == AssignTo(old(Tables()), ranked, |ranked|, controls, experiment, percentage, now)
      ensures session.working.events == old(session.working).events
      ensures created == |ranked| - controls
    {
      created := 0;
      ghost var start := Tables();
      for index := 0 to |ranked|
        invariant |start.store.cases| == |Tables().store.cases|
        invariant Tables() == AssignTo(start, ranked, index, controls, experiment, percentage, now)
        invariant session.working.events == old(session.working).events
        invariant created == if index <= controls then 0 else index - controls
      {
        var group := if index < controls then Control else Treatment;
        AssignCase(ranked[index], experiment, group, percentage, now);
        if group == Treatment {
          created := created + 1;
        }
      }
    }

    /** One turn of the batch loop. */
    method AssignCase(c: CaseId, experiment: ExperimentId, group: Group, percentage: int, now: int)
      requires c < |Tables().store.cases|
      modifies session`working
      ensures Tables() == Assign(old(Tables()), c, experiment, group, percentage, now)
      ensures session.working.events == old(session.working).events
    {
      var t := session.working.trials;
      session.working := session.working.(trials := t.(assignments := t.assignments + [Assignment(experiment, c, group)]));
      SetCase(c, Tables().store.cases[c].(experiment := Some(experiment), group := Some(group)));
      AddAudit(GroupAssigned(c, experiment, group, percentage));
      if group == Treatment {
        CreateRuleDecision(c, now);
      }
    }

    /** `record_outcome`: a refusal changes nothing. */
    method RecordOutcome(action: ActionId, outcome: string, payment: Option<string>, now: int)
      returns (r: Result<ActionOutcome, Error>)
      modifies session`working
      ensures session.working.events == old(session.working).events
      ensures match BaselineSpec.RecordOutcome(old(Tables()), action, outcome, payment, now)
              case Ok(done) => r == Ok(done.outcome) && Tables() == done.core
              case Err(e) => r == Err(e) && session.working == old(session.working)
    {
      var s, t := session.working.store, session.working.trials;
      if action >= |t.actions| {
        return Err(NotFoundError);
      }
      var existing := FindOutcome(t.outcomes, action);
      if existing.Some? {
        if existing.value.outcome != outcome {
          return Err(ConflictError);
        }
        return Ok(existing.value);
      }
      var c := t.actions[action].caseId;
      if c >= |s.cases| {
        return Err(NotFoundError);
      }
      if !InTreatment(t, s.cases[c].experiment, c) || t.actions[action].baseline != VERSION {
        return Err(ConflictError);
      }
      var amount, at := 0, None;
      if outcome == RECOVERED_OUTCOME {
        var row := s.cases[c];
        if Terminal(row.status) && row.status != Recovered {
          return Err(ConflictError);
        }
        var captured := CapturedPayment(s, row.merchant, payment);
        if captured.None? {
          return Err(ConflictError);
        }
        amount, at := captured.value.core.amount, Some(now);
        if row.status != Recovered {
          var next := TransitionTo(row.status, Recovered);
          SetCase(c, row.(status := next.value));
        } else {
          SetCase(c, row.(status := Recovered));
        }
      } else if outcome != NOT_RECOVERED_OUTCOME {
        return Err(ConflictError);
      } else if payment.Some? {
        return Err(ConflictError);
      }
      var recorded := ActionOutcome(action, outcome, amount, payment, at);
      session.working := session.working.(trials := t.(outcomes := t.outcomes + [recorded]));
      AddAudit(OutcomeRecorded(c, action, outcome, amount, payment));
      r := Ok(recorded);
    }

    /** The distribution, filled kind by kind. */
    method CountKinds(actions: seq<Action>, ids: set<CaseId>) returns (distribution: map<ActionType, nat>)
      ensures forall a :: a in distribution <==> a in KINDS && CountKind(actions, ids, a) > 0
      ensures forall a :: a in distribution ==> distribution[a] == CountKind(actions, ids, a)
    {
      distribution := map[];
      for k := 0 to |KINDS|
        invariant forall a :: a in distribution <==> a in KINDS[..k] && CountKind(actions, ids, a) > 0
        invariant forall a :: a in distribution ==> distribution[a] == CountKind(actions, ids, a)
      {
        var count := CountKind(actions, ids, KINDS[k]);
        if count > 0 {
          distribution := distribution[KINDS[k] := count];
        }
        assert KINDS[..k + 1] == KINDS[..k] + [KINDS[k]];
      }
      assert KINDS[..|KINDS|] == KINDS;
    }

    /** `report`. */
    method Report(experiment: ExperimentId) returns (r: Result<BaselineReport, Error>)
      ensures r == ReportSpec.Report(Tables(), experiment)
    {
      var core := Tables();
      if experiment >= |core.trials.experiments| {
        return Err(NotFoundError);
      }
      var control := ReportOf(core, experiment, Control);
      var treatment := ReportOf(core, experiment, Treatment);
      var ids := TreatedIn(core.trials.assignments, experiment);
      var distribution := CountKinds(core.trials.actions, ids);
      assert distribution == Distribution(core.trials, experiment);
      var recorded := CountOutcomes(core.trials, core.trials.outcomes, ids);
      r := Ok(BaselineReport(control, treatment, treatment.rate - control.rate, recorded, distribution));
    }
  }

  /** The loop creates one action per treatment case. */
  lemma BatchCount(total: nat, percentage: nat)
    requires percentage <= 100
    ensures 0 <= ControlCount(total, percentage) <= total
  {
  }
}
