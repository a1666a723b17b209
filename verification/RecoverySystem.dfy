/** The combined system: every way a request can change the committed database, one atomic step each
    (webhook deliveries keep their own commits), and what all runs of such steps guarantee. */
module RecoverySystem {
  import opened Outcomes
  import opened Lifecycle
  import opened Records
  import opened DeliverySpec
  import opened SweepSpec
  import opened BaselineSpec
  import opened BaselineClaims
  import opened CaseSpec

  /** One request.  A scan names the ids its query returned. */
  datatype Step =
    | Webhook(d: Delivery)
    | ScanOrders(cursor: seq<string>, sweptAt: int, now: int, age: nat, merchant: Option<MerchantId>, window: nat)
    | ExpireCases(now: int, merchant: Option<MerchantId>)
    | PatchCase(c: CaseId, target: Status)
    | SubmitCase(draft: RecoveryCase)
    | StartBatch(req: BatchRequest, digest: Digest)
    | ReportOutcome(action: ActionId, outcome: string, payment: Option<string>, now: int)

  function CoreOf(db: Db): Core {
    Core(db.store, db.trials)
  }

  /** Sweep, then scan; a scan that meets an invalid order commits nothing. */
  ghost function SweepAndScan(s: Store, step: Step): Store
    requires step.ScanOrders?
  {
    var t := Sweep(s, step.sweptAt, step.merchant);
    if IsCursor(t, step.cursor, step.now - step.age, step.merchant) && Scan(t, step.cursor, step.now, step.window).Ok?
    then Scan(t, step.cursor, step.now, step.window).value.store
    else s
  }

  /** What a step does to the tables once it is let through. */
  ghost function Serve(core: Core, step: Step): Core {
    match step
    case Webhook(d) => if Attempt(core.store, d).Ok? then core.(store := Attempt(core.store, d).value.store) else core
    case ScanOrders(_, _, _, _, _, _) => core.(store := SweepAndScan(core.store, step))
    case ExpireCases(now, merchant) => core.(store := Sweep(core.store, now, merchant))
    case PatchCase(c, target) =>
      if Patch(core.store, c, target).Ok? then core.(store := Patch(core.store, c, target).value) else core
    case SubmitCase(draft) => if CreateCase(core, draft).Ok? then core.(store := CreateCase(core, draft).value) else core
    case StartBatch(req, digest) => if RunBatch(core, req, digest).Ok? then RunBatch(core, req, digest).value.core else core
    case ReportOutcome(action, outcome, payment, now) =>
      if RecordOutcome(core, action, outcome, payment, now).Ok?
      then RecordOutcome(core, action, outcome, payment, now).value.core else core
  }

  /** The committed database after one step. */
  ghost function Next(db: Db, step: Step): Db {
    if step.Webhook? then Deliver(db, step.d)
    else db.(store := Serve(CoreOf(db), step).store, trials := Serve(CoreOf(db), step).trials)
  }

  ghost function Run(db: Db, steps: seq<Step>): Db {
    if steps == [] then db else Next(Run(db, steps[..|steps| - 1]), steps[|steps| - 1])
  }

  // ---------------------------------------------------------------- the invariant

  /** Every constraint of the database, the audit trail, and the experiment tables. */
  predicate Inv(db: Db) {
    && Consistent(db.store) && AuditTrail(db.store)
    && TrialsOk(CoreOf(db)) && ExperimentsOk(db.store, db.trials) && EventsOk(db)
  }

  /** So in every such database a commit that changes nothing would succeed. */
  lemma InvDurable(db: Db)
    requires Inv(db)
    ensures Durable(db)
  {
    TrialsOkRefs(CoreOf(db));
  }

  /** Such databases exist: merchants with accounts of their own, any customers, and nothing else yet. */
  lemma FreshDatabase(merchants: map<MerchantId, Merchant>, customers: map<CustomerId, Consent>)
    requires forall m, n | m in merchants && n in merchants && merchants[m].account.Some? ::
               merchants[m].account == merchants[n].account ==> m == n
    ensures Inv(Db(Store(merchants, customers, map[], map[], map[], [], []), Trials([], [], [], [], []), map[]))
  {
  }

  /** What one step keeps. */
  predicate Advances(core: Core, after: Core) {
    Sound(core.store, after.store) && Consistent(after.store) && TrialsOk(after)
  }

  lemma WebhookAdvances(core: Core, d: Delivery)
    requires Consistent(core.store) && TrialsOk(core) && Attempt(core.store, d).Ok?
    ensures Advances(core, core.(store := Attempt(core.store, d).value.store))
  {
    AttemptKeeps(core.store, d);
    UntriedTrials(core, Attempt(core.store, d).value.store);
  }

  /** Steps of the engine leave the experiment tables in order. */
  lemma UntriedTrials(core: Core, t: Store)
    requires TrialsOk(core) && Keeps(core.store, t)
    ensures TrialsOk(core.(store := t))
  {
  }

  lemma SweepKeeps(s: Store, now: int, merchant: Option<MerchantId>)
    requires Consistent(s)
    ensures Keeps(s, Sweep(s, now, merchant)) && Consistent(Sweep(s, now, merchant))
  {
    SweepKept(s, now, merchant);
  }

  lemma SweepAdvances(core: Core, now: int, merchant: Option<MerchantId>)
    requires Consistent(core.store) && TrialsOk(core)
    ensures Advances(core, core.(store := Sweep(core.store, now, merchant)))
  {
    SweepKeeps(core.store, now, merchant);
    UntriedTrials(core, Sweep(core.store, now, merchant));
  }

  lemma CursorScanKeeps(t: Store, step: Step)
    requires Consistent(t) && step.ScanOrders?
    requires IsCursor(t, step.cursor, step.now - step.age, step.merchant)
    requires Scan(t, step.cursor, step.now, step.window).Ok?
    ensures var u := Scan(t, step.cursor, step.now, step.window).value.store;
            Keeps(t, u) && Consistent(u)
  {
    ScanKeeps(t, step.cursor, |step.cursor|, step.now, step.window);
  }

  lemma SweepAndScanKeeps(s: Store, step: Step)
    requires Consistent(s) && step.ScanOrders?
    ensures SweepAndScan(s, step) == s || (Keeps(s, SweepAndScan(s, step)) && Consistent(SweepAndScan(s, step)))
  {
    var t := Sweep(s, step.sweptAt, step.merchant);
    if IsCursor(t, step.cursor, step.now - step.age, step.merchant) && Scan(t, step.cursor, step.now, step.window).Ok? {
      SweepKeeps(s, step.sweptAt, step.merchant);
      CursorScanKeeps(t, step);
      var u := Scan(t, step.cursor, step.now, step.window).value.store;
      KeepsTransitive(s, t, u);
    }
  }

  lemma ScanAdvances(core: Core, step: Step)
    requires Consistent(core.store) && TrialsOk(core) && step.ScanOrders?
    requires SweepAndScan(core.store, step) != core.store
    ensures Advances(core, core.(store := SweepAndScan(core.store, step)))
  {
    SweepAndScanKeeps(core.store, step);
    UntriedTrials(core, SweepAndScan(core.store, step));
  }

  lemma BatchAdvances(core: Core, req: BatchRequest, digest: Digest)
    requires Consistent(core.store) && TrialsOk(core) && RunBatch(core, req, digest).Ok?
    ensures Advances(core, RunBatch(core, req, digest).value.core)
  {
    BatchKeeps(core, req, digest);
  }

  lemma OutcomeAdvances(core: Core, action: ActionId, outcome: string, payment: Option<string>, now: int)
    requires Consistent(core.store) && TrialsOk(core) && RecordOutcome(core, action, outcome, payment, now).Ok?
    ensures Advances(core, RecordOutcome(core, action, outcome, payment, now).value.core)
  {
    OutcomeSound(core, action, outcome, payment, now);
    OutcomeKeepsTrials(core, action, outcome, payment, now);
  }

  lemma ServeAdvances(core: Core, step: Step)
    requires Consistent(core.store) && TrialsOk(core)
    ensures Advances(core, Serve(core, step))
  {
    if Serve(core, step) == core {
    } else {
      match step
      case Webhook(d) => WebhookAdvances(core, d);
      case ScanOrders(_, _, _, _, _, _) => ScanAdvances(core, step);
      case ExpireCases(now, merchant) => SweepAdvances(core, now, merchant);
      case PatchCase(c, target) => PatchKeeps(core, c, target);
      case SubmitCase(draft) => CreateKeeps(core, draft);
      case StartBatch(req, digest) => BatchAdvances(core, req, digest);
      case ReportOutcome(action, outcome, payment, now) => OutcomeAdvances(core, action, outcome, payment, now);
    }
  }

  /** A scan that does something sweeps first, and then goes through exactly the orders that are left
      unpaid and at least as old as it was asked to look at. */
  lemma ScanServed(core: Core, step: Step)
    requires step.ScanOrders? && Serve(core, step) != core
    ensures var t := Sweep(core.store, step.sweptAt, step.merchant);
            && Serve(core, step).trials == core.trials
            && (forall id :: id in step.cursor <==>
                  && id in t.orders && LeftUnpaid(t.orders[id], t.orders[id].createdAt, step.merchant)
                  && t.orders[id].createdAt + step.age <= step.now)
            && Scan(t, step.cursor, step.now, step.window).Ok?
            && Serve(core, step).store == Scan(t, step.cursor, step.now, step.window).value.store
  {
  }

  /** What a step serves reaches the database, unless it is a delivery that does not succeed. */
  lemma NextServes(db: Db, step: Step)
    ensures CoreOf(Next(db, step)) ==
              if step.Webhook? && !Succeeds(db, step.d) then CoreOf(db) else Serve(CoreOf(db), step)
    ensures !step.Webhook? ==> Next(db, step).events == db.events
  {
    if step.Webhook? {
      AllOrNothing(db, step.d);
    }
  }

  lemma BatchExperiments(core: Core, req: BatchRequest, digest: Digest)
    requires TrialsOk(core) && RunBatch(core, req, digest).Ok?
    ensures req.merchant in core.store.merchants && req.percentage <= 100
    ensures RunBatch(core, req, digest).value.core.trials.experiments ==
              core.trials.experiments + [Experiment(req.merchant, req.percentage)]
  {
    BatchKeeps(core, req, digest);
  }

  /** Experiments are only added, by a batch that checked their merchant and percentage. */
  lemma ServeExperiments(core: Core, step: Step)
    requires TrialsOk(core) && ExperimentsOk(core.store, core.trials)
    requires Serve(core, step).store.merchants == core.store.merchants
    ensures ExperimentsOk(Serve(core, step).store, Serve(core, step).trials)
  {
    match step
    case StartBatch(req, digest) =>
      if RunBatch(core, req, digest).Ok? {
        BatchExperiments(core, req, digest);
      }
    case ReportOutcome(action, outcome, payment, now) =>
      if RecordOutcome(core, action, outcome, payment, now).Ok? {
        OutcomeClaims(core, action, outcome, payment, now);
      }
    case _ =>
  }

  /** An event names a case that is there. */
  lemma NextEvents(db: Db, step: Step)
    requires Inv(db) && |db.store.cases| <= |Next(db, step).store.cases|
    ensures EventsOk(Next(db, step))
  {
    if step.Webhook? {
      InvDurable(db);
      DeliveredEvents(db, step.d);
    } else {
      NextServes(db, step);
    }
  }

  lemma NextKeeps(db: Db, step: Step)
    requires Inv(db)
    ensures Inv(Next(db, step)) && Evolves(db.store, Next(db, step).store)
  {
    NextServes(db, step);
    if CoreOf(Next(db, step)) == CoreOf(db) {
    } else {
      ServeAdvances(CoreOf(db), step);
      ServeExperiments(CoreOf(db), step);
    }
    NextEvents(db, step);
  }

  lemma EvolvesReflexive(s: Store)
    ensures Evolves(s, s)
  {
  }

  lemma {:induction false} RunInv(db: Db, steps: seq<Step>)
    requires Inv(db)
    ensures Inv(Run(db, steps))
  {
    if steps != [] {
      RunInv(db, steps[..|steps| - 1]);
      NextKeeps(Run(db, steps[..|steps| - 1]), steps[|steps| - 1]);
    }
  }

  lemma {:induction false} RunEvolves(db: Db, steps: seq<Step>, n: nat)
    requires Inv(db) && n <= |steps|
    ensures Evolves(Run(db, steps[..n]).store, Run(db, steps).store)
  {
    if n == |steps| {
      assert steps[..n] == steps;
      EvolvesReflexive(Run(db, steps).store);
    } else {
      var shorter := steps[..|steps| - 1];
      assert shorter[..n] == steps[..n];
      RunEvolves(db, shorter, n);
      RunInv(db, shorter);
      NextKeeps(Run(db, shorter), steps[|steps| - 1]);
      EvolvesTransitive(Run(db, steps[..n]).store, Run(db, shorter).store, Run(db, steps).store);
    }
  }

  /** The invariant holds in every reachable database, and between any two moments of a run cases only
      evolve: identities stay, statuses move only where accepted transitions lead, terminal cases and
      experiment fields are frozen, audits are never rewritten. */
  lemma RunKeeps(db: Db, steps: seq<Step>, n: nat)
    requires Inv(db) && n <= |steps|
    ensures Inv(Run(db, steps)) && Evolves(Run(db, steps[..n]).store, Run(db, steps).store)
  {
    RunInv(db, steps);
    RunEvolves(db, steps, n);
  }
}
