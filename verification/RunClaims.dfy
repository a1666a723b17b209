/** Exactly-once application of webhook events, and what else holds over every run of the system. */
module RunClaims {
  import opened Outcomes
  import opened Lifecycle
  import opened Ordering
  import opened Records
  import opened ReconcileSpec
  import opened DeliverySpec
  import opened MirrorClaims
  import opened BaselineSpec
  import opened BaselineClaims
  import opened RecoverySystem

  // ---------------------------------------------------------------- cases over time

  /** A case between any two moments of a run: its status has moved along accepted transitions, and
      once it is terminal nothing about it changes any more. */
  lemma CasesOverTime(db: Db, steps: seq<Step>, n: nat, i: CaseId)
    requires Inv(db) && n <= |steps| && i < |Run(db, steps[..n]).store.cases|
    ensures i < |Run(db, steps).store.cases|
    ensures var before, after := Run(db, steps[..n]).store.cases[i], Run(db, steps).store.cases[i];
            && (exists path :: IsWalk(path, before.status, after.status))
            && (Terminal(before.status) ==> after == before)
            && (before.experiment.Some? ==> after.experiment == before.experiment && after.group == before.group)
            && SameSource(before, after)
  {
    RunKeeps(db, steps, n);
    var before, after := Run(db, steps[..n]).store.cases[i], Run(db, steps).store.cases[i];
    assert CaseEvolves(before, after);
    LeadsIffWalk(before.status, after.status);
  }

  /** No case ever has two status audits, and the one it has tells the status it has now. */
  lemma StatusAuditsOverTime(db: Db, steps: seq<Step>, j: nat, k: nat)
    requires Inv(db)
    requires j < |Run(db, steps).store.audits| && k < |Run(db, steps).store.audits|
    requires Run(db, steps).store.audits[j].StatusChanged? && Run(db, steps).store.audits[k].StatusChanged?
    ensures var s := Run(db, steps).store;
            && s.audits[j].caseId < |s.cases|
            && s.cases[s.audits[j].caseId].status == s.audits[j].target
            && Terminal(s.audits[j].target)
            && (s.audits[j].caseId == s.audits[k].caseId ==> j == k)
  {
    RunKeeps(db, steps, 0);
  }

  // ---------------------------------------------------------------- exactly once

  /** The step is not a delivery that fails, crashes or repeats a settled event. */
  ghost predicate Counts(db: Db, step: Step) {
    step.Webhook? ==> Succeeds(db, step.d)
  }

  /** The steps of a run without the deliveries that came to nothing. */
  ghost function Effective(db: Db, steps: seq<Step>): seq<Step> {
    if steps == [] then []
    else
      var last := |steps| - 1;
      Effective(db, steps[..last]) + if Counts(Run(db, steps[..last]), steps[last]) then [steps[last]] else []
  }

  ghost function ServeAll(core: Core, steps: seq<Step>): Core {
    if steps == [] then core else Serve(ServeAll(core, steps[..|steps| - 1]), steps[|steps| - 1])
  }

  /** The event ids the steps apply, in order. */
  ghost function AppliedIds(steps: seq<Step>): seq<string> {
    if steps == [] then []
    else
      var last := steps[|steps| - 1];
      AppliedIds(steps[..|steps| - 1]) + if last.Webhook? then [last.d.eventId] else []
  }

  predicate IsProcessed(db: Db, id: string) {
    id in db.events && db.events[id].status == EventProcessed
  }

  /** The id a step applies, if it applies one. */
  ghost function AppliedBy(db: Db, step: Step): seq<string> {
    if step.Webhook? && Succeeds(db, step.d) then [step.d.eventId] else []
  }

  lemma NextProcessed(db: Db, step: Step, id: string)
    ensures IsProcessed(Next(db, step), id) <==> IsProcessed(db, id) || id in AppliedBy(db, step)
    ensures id in AppliedBy(db, step) ==> !IsProcessed(db, id)
  {
  }

  lemma AppliedIdsStep(db: Db, steps: seq<Step>)
    requires steps != []
    ensures var last := |steps| - 1;
            AppliedIds(Effective(db, steps)) ==
              AppliedIds(Effective(db, steps[..last])) + AppliedBy(Run(db, steps[..last]), steps[last])
  {
    var last := |steps| - 1;
    var shorter, step := Effective(db, steps[..last]), steps[last];
    assert (shorter + [step])[..|shorter|] == shorter;
    assert shorter + [] == shorter;
  }

  /** PROCESSED and IGNORED events, and events whose worker died after `mark_processing`, keep their
      row over every later run: nothing is processed again. */
  lemma {:induction false} SettledForever(db: Db, steps: seq<Step>, id: string)
    requires id in db.events && Settled(db.events[id].status)
    ensures id in Run(db, steps).events && Run(db, steps).events[id] == db.events[id]
  {
    if steps != [] {
      var last := |steps| - 1;
      SettledForever(db, steps[..last], id);
      var before := Run(db, steps[..last]);
      if steps[last].Webhook? {
        SettledRowsStay(before, steps[last].d, id);
      } else {
        NextServes(before, steps[last]);
      }
    }
  }

  lemma AppliedIdsGrow(ids: seq<string>, more: seq<string>, id: string)
    requires Distinct(ids) && |more| <= 1
    requires forall e :: e in more ==> e !in ids
    ensures Distinct(ids + more) && (id in ids + more <==> id in ids || id in more)
  {
    forall i, j | 0 <= i < j < |ids + more| ensures (ids + more)[i] != (ids + more)[j] {
      if j == |ids| { assert more[0] !in ids; }
    }
  }

  /** Which events a run applies: each at most once, and exactly the ones it turned PROCESSED. */
  lemma {:induction false} AppliedOnce(db: Db, steps: seq<Step>, id: string)
    ensures Distinct(AppliedIds(Effective(db, steps)))
    ensures id in AppliedIds(Effective(db, steps)) <==> IsProcessed(Run(db, steps), id) && !IsProcessed(db, id)
  {
    if steps != [] {
      var last := |steps| - 1;
      var before, step := Run(db, steps[..last]), steps[last];
      var ids, more := AppliedIds(Effective(db, steps[..last])), AppliedBy(before, step);
      AppliedIdsStep(db, steps);
      forall e | e in more ensures e !in ids {
        AppliedOnce(db, steps[..last], e);
        NextProcessed(before, step, e);
      }
      AppliedOnce(db, steps[..last], id);
      NextProcessed(before, step, id);
      if IsProcessed(db, id) {
        SettledForever(db, steps[..last], id);
      }
      AppliedIdsGrow(ids, more, id);
    }
  }

  /** Exactly-once application: whatever duplicates, gateway failures and crashes a run contains, its
      mirror, case, audit and experiment tables are the ones reached by taking, in order, one
      application of reconcile-and-handle for each event that became PROCESSED, and the other
      requests; the deliveries left out changed event rows only. */
  lemma {:induction false} ExactlyOnce(db: Db, steps: seq<Step>)
    ensures CoreOf(Run(db, steps)) == ServeAll(CoreOf(db), Effective(db, steps))
  {
    if steps != [] {
      var last := |steps| - 1;
      var before, step := Run(db, steps[..last]), steps[last];
      var shorter := Effective(db, steps[..last]);
      ExactlyOnce(db, steps[..last]);
      NextServes(before, step);
      if Counts(before, step) {
        assert (shorter + [step])[..|shorter|] == shorter;
      } else {
        assert shorter + [] == shorter;
      }
    }
  }

  /** Retries.  At any moment of any run a delivery can still turn an event PROCESSED exactly when its row is
      unsettled and the attempt succeeds; if the attempt fails, the row ends FAILED, which is unsettled, so
      the next delivery tries again. */
  lemma RetrySucceeds(db: Db, steps: seq<Step>, d: Delivery)
    requires d.crash == NoCrash && Supported(d.env.event)
    ensures var before, after := Run(db, steps), Next(Run(db, steps), Webhook(d));
            var unsettled := d.eventId in before.events ==> !Settled(before.events[d.eventId].status);
            && (IsProcessed(after, d.eventId) && !IsProcessed(before, d.eventId) <==>
                  unsettled && Attempt(before.store, d).Ok?)
            && (unsettled && Attempt(before.store, d).Err? ==>
                  d.eventId in after.events && after.events[d.eventId].status == EventFailed)
  {
    RetryStep(Run(db, steps), d);
  }

  lemma RetryStep(db: Db, d: Delivery)
    requires d.crash == NoCrash && Supported(d.env.event)
    ensures var after := Deliver(db, d);
            var unsettled := d.eventId in db.events ==> !Settled(db.events[d.eventId].status);
            && (IsProcessed(after, d.eventId) && !IsProcessed(db, d.eventId) <==> unsettled && Attempt(db.store, d).Ok?)
            && (unsettled && Attempt(db.store, d).Err? ==>
                  d.eventId in after.events && after.events[d.eventId].status == EventFailed)
  {
    AllOrNothing(db, d);
  }

  // ---------------------------------------------------------------- the mirror

  datatype Resource = PaymentRow(id: string) | OrderRow(id: string) | LinkRow(id: string)

  predicate Reads(r: Readings, res: Resource) {
    match res
    case PaymentRow(id) => r.payment.Some? && r.payment.value.id == id
    case OrderRow(id) => r.order.Some? && r.order.value.id == id
    case LinkRow(id) => r.link.Some? && r.link.value.id == id
  }

  predicate Stored(s: Store, res: Resource) {
    match res
    case PaymentRow(id) => id in s.payments
    case OrderRow(id) => id in s.orders
    case LinkRow(id) => id in s.links
  }

  /** The row's synced fields are what the event read, given the rows before it. */
  predicate Shows(s: Store, t: Store, r: Readings, res: Resource)
    requires Stored(t, res) && Reads(r, res)
  {
    match res
    case PaymentRow(id) =>
      (t.payments[id].core, t.payments[id].extra) == MirroredPayment(r.payment.value, id in s.payments)
    case OrderRow(id) => t.orders[id].core == r.order.value.core
    case LinkRow(id) => (t.links[id].core, t.links[id].extra) == MirroredLink(r.link.value, id in s.links)
  }

  predicate SameRow(s: Store, t: Store, res: Resource)
    requires Stored(t, res)
  {
    && Stored(s, res)
    && match res
       case PaymentRow(id) => t.payments[id] == s.payments[id]
       case OrderRow(id) => t.orders[id] == s.orders[id]
       case LinkRow(id) => t.links[id] == s.links[id].(caseId := t.links[id].caseId)
  }

  /** Step n of the run is a successful delivery that read the resource. */
  ghost predicate ReadAt(db: Db, steps: seq<Step>, n: nat, res: Resource)
    requires n < |steps|
  {
    && steps[n].Webhook? && Succeeds(Run(db, steps[..n]), steps[n].d)
    && ReadProvider(steps[n].d.gateway, steps[n].d.env).Ok? && Reads(ReadingsOf(steps[n].d), res)
  }

  ghost function LastWhere(holds: nat -> bool, n: nat): (r: Option<nat>)
    ensures r.Some? ==> r.value < n && holds(r.value)
    ensures forall k: nat :: k < n && (r.Some? ==> r.value < k) ==> !holds(k)
  {
    if n == 0 then None
    else if holds(n - 1) then Some(n - 1)
    else LastWhere(holds, n - 1)
  }

  /** The last such step among the first n. */
  ghost function LastRead(db: Db, steps: seq<Step>, n: nat, res: Resource): (r: Option<nat>)
    requires n <= |steps|
  {
    LastWhere((k: nat) => k < |steps| && ReadAt(db, steps, k, res), n)
  }

  /** Everything but deliveries leaves the mirror alone. */
  lemma OtherStepsMirror(core: Core, step: Step)
    requires !step.Webhook?
    ensures var t := Serve(core, step).store;
            t.payments == core.store.payments && t.orders == core.store.orders && t.links == core.store.links
  {
    match step
    case StartBatch(req, digest) =>
      if RunBatch(core, req, digest).Ok? {
        StartMirror(core, req, digest);
      }
    case ReportOutcome(action, outcome, payment, now) =>
      if RecordOutcome(core, action, outcome, payment, now).Ok? {
        OutcomeMirror(core, action, outcome, payment, now);
      }
    case _ =>
  }

  lemma StartMirror(core: Core, req: BatchRequest, digest: Digest)
    requires RunBatch(core, req, digest).Ok?
    ensures var t := RunBatch(core, req, digest).value.core.store;
            t.payments == core.store.payments && t.orders == core.store.orders && t.links == core.store.links
  {
    var ranked := Ranked(core, req, digest);
    BatchMirror(Started(core, req), ranked, |ranked|, ControlCount(|ranked|, req.percentage),
                |core.trials.experiments|, req.percentage, req.now);
  }

  lemma OutcomeMirror(core: Core, action: ActionId, outcome: string, payment: Option<string>, now: int)
    requires RecordOutcome(core, action, outcome, payment, now).Ok?
    ensures var t := RecordOutcome(core, action, outcome, payment, now).value.core.store;
            t.payments == core.store.payments && t.orders == core.store.orders && t.links == core.store.links
  {
  }

  lemma {:induction false} BatchMirror(
    core: Core, ranked: seq<CaseId>, n: nat, controls: int, experiment: ExperimentId, percentage: int, now: int)
    requires n <= |ranked| && forall k :: 0 <= k < |ranked| ==> ranked[k] < |core.store.cases|
    ensures var t := AssignTo(core, ranked, n, controls, experiment, percentage, now).store;
            t.payments == core.store.payments && t.orders == core.store.orders && t.links == core.store.links
  {
    if n > 0 {
      BatchMirror(core, ranked, n - 1, controls, experiment, percentage, now);
      AssignRow(AssignTo(core, ranked, n - 1, controls, experiment, percentage, now),
                ranked[n - 1], experiment, GroupAt(n - 1, controls), percentage, now);
    }
  }

  lemma NextMirror(db: Db, step: Step, res: Resource)
    requires Stored(Next(db, step).store, res)
    ensures if step.Webhook? && Succeeds(db, step.d) && Reads(ReadingsOf(step.d), res) then
              ReadProvider(step.d.gateway, step.d.env).Ok? && Shows(db.store, Next(db, step).store, ReadingsOf(step.d), res)
            else SameRow(db.store, Next(db, step).store, res)
  {
    NextServes(db, step);
    if step.Webhook? {
      if Succeeds(db, step.d) {
        AttemptMirrors(db.store, step.d);
      }
    } else {
      OtherStepsMirror(CoreOf(db), step);
    }
  }

  lemma SameRowTwice(s: Store, t: Store, u: Store, res: Resource)
    requires Stored(u, res) && SameRow(t, u, res)
    ensures SameRow(s, t, res) ==> SameRow(s, u, res)
    ensures forall r: Readings :: Reads(r, res) && Shows(s, t, r, res) ==> Shows(s, u, r, res)
  {
  }

  /** Mirror correctness over runs: every stored payment, order and link holds the provider's answer at
      the last successful delivery that read it, whatever that event's type, order of arrival or
      creation time; a row never read is as it was at the start. */
  lemma {:induction false} MirrorLatest(db: Db, steps: seq<Step>, n: nat, res: Resource)
    requires n <= |steps| && Stored(Run(db, steps[..n]).store, res)
    ensures match LastRead(db, steps, n, res)
            case Some(k) => Shows(Run(db, steps[..k]).store, Run(db, steps[..n]).store, ReadingsOf(steps[k].d), res)
            case None => SameRow(db.store, Run(db, steps[..n]).store, res)
  {
    if n > 0 {
      assert steps[..n][..n - 1] == steps[..n - 1];
      var before, after := Run(db, steps[..n - 1]), Run(db, steps[..n]);
      assert after == Next(before, steps[n - 1]);
      NextMirror(before, steps[n - 1], res);
      if !ReadAt(db, steps, n - 1, res) {
        MirrorLatest(db, steps, n - 1, res);
        match LastRead(db, steps, n - 1, res)
        case Some(k) => SameRowTwice(Run(db, steps[..k]).store, before.store, after.store, res);
        case None => SameRowTwice(db.store, before.store, after.store, res);
      }
    }
  }

  /** The provider reports the payment captured, or the order paid, or the link paid. */
  predicate Final(r: Readings, res: Resource)
    requires Reads(r, res)
  {
    match res
    case PaymentRow(_) => r.payment.value.core.status == PaymentCaptured
    case OrderRow(_) => r.order.value.core.status == OrderPaid
    case LinkRow(_) => r.link.value.core.status == LinkPaid
  }

  predicate StoredFinal(s: Store, res: Resource) {
    && Stored(s, res)
    && match res
       case PaymentRow(id) => s.payments[id].core.status == PaymentCaptured
       case OrderRow(id) => s.orders[id].core.status == OrderPaid
       case LinkRow(id) => s.links[id].core.status == LinkPaid
  }

  /** The provider never takes a capture or a payment back: not after an answer, nor after the start. */
  ghost predicate StaysFinal(db: Db, steps: seq<Step>, res: Resource) {
    && (forall j: nat, k: nat | j < k < |steps| && ReadAt(db, steps, j, res) && ReadAt(db, steps, k, res) ::
          Final(ReadingsOf(steps[j].d), res) ==> Final(ReadingsOf(steps[k].d), res))
    && (StoredFinal(db.store, res) ==>
          forall k: nat :: k < |steps| && ReadAt(db, steps, k, res) ==> Final(ReadingsOf(steps[k].d), res))
  }

  lemma FinalityShown(s: Store, t: Store, r: Readings, res: Resource)
    requires Stored(t, res)
    ensures SameRow(s, t, res) ==> (StoredFinal(t, res) <==> StoredFinal(s, res))
    ensures Reads(r, res) && Shows(s, t, r, res) ==> (StoredFinal(t, res) <==> Final(r, res))
  {
  }

  /** A stored row is final exactly when the last answer was, or the first row if there was none. */
  lemma MirrorFinal(db: Db, steps: seq<Step>, n: nat, res: Resource)
    requires n <= |steps| && Stored(Run(db, steps[..n]).store, res)
    ensures StoredFinal(Run(db, steps[..n]).store, res) <==>
              match LastRead(db, steps, n, res)
              case Some(k) => Final(ReadingsOf(steps[k].d), res)
              case None => StoredFinal(db.store, res)
  {
    MirrorLatest(db, steps, n, res);
    match LastRead(db, steps, n, res)
    case Some(k) => FinalityShown(Run(db, steps[..k]).store, Run(db, steps[..n]).store, ReadingsOf(steps[k].d), res);
    case None => FinalityShown(db.store, Run(db, steps[..n]).store, Readings(None, None, None), res);
  }

  lemma LastReadGrows(db: Db, steps: seq<Step>, n: nat, m: nat, res: Resource)
    requires n <= m <= |steps|
    ensures LastRead(db, steps, n, res).Some? ==>
              LastRead(db, steps, m, res).Some? && LastRead(db, steps, n, res).value <= LastRead(db, steps, m, res).value
  {
  }

  lemma StoredStays(db: Db, steps: seq<Step>, n: nat, m: nat, res: Resource)
    requires Inv(db) && n <= m <= |steps| && Stored(Run(db, steps[..n]).store, res)
    ensures Stored(Run(db, steps[..m]).store, res)
  {
    assert steps[..m][..n] == steps[..n];
    RunKeeps(db, steps[..m], n);
  }

  /** Once final, the answers stay final. */
  lemma AnswersStayFinal(db: Db, steps: seq<Step>, n: nat, m: nat, res: Resource)
    requires n <= m <= |steps| && StaysFinal(db, steps, res)
    requires match LastRead(db, steps, n, res)
             case Some(k) => ReadAt(db, steps, k, res) && Final(ReadingsOf(steps[k].d), res)
             case None => StoredFinal(db.store, res)
    ensures match LastRead(db, steps, m, res)
            case Some(k) => ReadAt(db, steps, k, res) && Final(ReadingsOf(steps[k].d), res)
            case None => StoredFinal(db.store, res)
  {
    LastReadGrows(db, steps, n, m, res);
  }

  /** So a mirror row that shows a final status keeps showing it under out-of-order delivery. */
  lemma MirrorNeverRegresses(db: Db, steps: seq<Step>, n: nat, m: nat, res: Resource)
    requires Inv(db) && n <= m <= |steps| && StaysFinal(db, steps, res)
    requires StoredFinal(Run(db, steps[..n]).store, res)
    ensures StoredFinal(Run(db, steps[..m]).store, res)
  {
    StoredStays(db, steps, n, m, res);
    MirrorFinal(db, steps, n, res);
    AnswersStayFinal(db, steps, n, m, res);
    MirrorFinal(db, steps, m, res);
  }
}
