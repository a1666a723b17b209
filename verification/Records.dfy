/** The rows of the database (db/models.py), the constraints a commit checks, and how rows may change.

    A table keyed by a provider id is a map; cases, audits and the experiment tables are lists whose
    index stands for the generated id, so a new row's id is fresh and no row is ever deleted. */
module Records {
  import opened Outcomes
  import opened Lifecycle

  type MerchantId = nat
  type CustomerId = nat
  type CaseId = nat
  type ExperimentId = nat
  type ActionId = nat

  datatype Error =
    | OwnershipError | EngineError | ValidationError | RoutingError | GatewayError
    | IntegrityError | TransitionRejected | NotFoundError | ConflictError

  // ---------------------------------------------------------------- provider mirror

  datatype PaymentStatus = PaymentCreated | PaymentAuthorized | PaymentCaptured | PaymentRefunded | PaymentFailed
  datatype OrderStatus = OrderCreated | OrderAttempted | OrderPaid
  datatype LinkStatus = LinkCreated | LinkPartiallyPaid | LinkExpired | LinkCancelled | LinkPaid

  datatype Merchant = Merchant(active: bool, account: Option<string>)
  datatype Consent = Unknown | OptedIn | OptedOut

  /** The payment fields a reconciliation snapshot carries. */
  datatype PaymentCore = PaymentCore(
    orderId: Option<string>, amount: nat, currency: string, status: PaymentStatus, instrument: Option<string>,
    errorCode: Option<string>, errorReason: Option<string>, errorSource: Option<string>, errorStep: Option<string>)

  /** The payment fields a sync copies but a snapshot leaves out. */
  datatype PaymentExtra = PaymentExtra(
    errorDescription: Option<string>, bank: Option<string>, vpa: Option<string>, invoiceId: Option<string>)

  const NO_PAYMENT_EXTRA := PaymentExtra(None, None, None, None)

  datatype OrderCore = OrderCore(
    amount: nat, amountPaid: nat, amountDue: nat, currency: string, status: OrderStatus, attempts: nat)

  datatype LinkCore = LinkCore(amount: nat, amountPaid: nat, currency: string, status: LinkStatus)
  datatype LinkExtra = LinkExtra(shortUrl: Option<string>, expireBy: Option<nat>)

  const NO_LINK_EXTRA := LinkExtra(None, None)

  datatype Payment = Payment(merchant: MerchantId, core: PaymentCore, extra: PaymentExtra)
  datatype Order = Order(merchant: MerchantId, customer: Option<CustomerId>, createdAt: int, core: OrderCore)
  datatype PaymentLink = PaymentLink(
    merchant: MerchantId, orderId: Option<string>, caseId: Option<CaseId>, core: LinkCore, extra: LinkExtra)

  // ---------------------------------------------------------------- cases and audits

  datatype SourceType = PaymentSource | OrderSource | LinkSource
  datatype Group = Control | Treatment

  datatype RecoveryCase = RecoveryCase(
    merchant: MerchantId, customer: Option<CustomerId>, source: SourceType, sourceId: string,
    amount: int, currency: string, status: Status, windowStart: int, windowEnd: int,
    experiment: Option<ExperimentId>, group: Option<Group>)

  datatype Actor = System | Razorpay | Policy
  datatype Trigger = PaymentFailedTrigger | UnpaidLinkTrigger | UnpaidOrderScan
  datatype Reason =
    | PaymentWasCaptured | OrderAlreadyPaid | LinkPaidReconciled | LinkWasCancelled | RecoveryLinkExpired
    | WindowExpired | MerchantInactive | CustomerOptedOut

  datatype ActionType = RecoveryLink | UpdatePrompt | Delay | Stop | Escalate

  datatype Audit =
    | CaseCreated(caseId: CaseId, trigger: Trigger, reference: string, amount: int, windowEnd: int)
    | StatusChanged(caseId: CaseId, previous: Status, target: Status, reason: Reason, actor: Actor,
                    referenceId: Option<string>)
    | GroupAssigned(caseId: CaseId, experiment: ExperimentId, group: Group, percentage: int)
    | DecisionRecorded(caseId: CaseId, action: ActionType)
    | OutcomeRecorded(caseId: CaseId, actionId: ActionId, outcome: string, recovered: int, payment: Option<string>)

  datatype Store = Store(
    merchants: map<MerchantId, Merchant>,
    customers: map<CustomerId, Consent>,
    payments: map<string, Payment>,
    orders: map<string, Order>,
    links: map<string, PaymentLink>,
    cases: seq<RecoveryCase>,
    audits: seq<Audit>)

  // ---------------------------------------------------------------- experiment tables

  datatype Experiment = Experiment(merchant: MerchantId, percentage: int)
  datatype Assignment = Assignment(experiment: ExperimentId, caseId: CaseId, group: Group)

  /** `action_scores["recovery_probability"]`: absent, not a finite number, or a number. */
  datatype Score = NoScore | NotANumber | Score(number: real)
  datatype Decision = Decision(caseId: CaseId, model: string, action: ActionType, score: Score, createdAt: int)
  datatype Action = Action(caseId: CaseId, kind: ActionType, baseline: string)
  datatype ActionOutcome = ActionOutcome(
    actionId: ActionId, outcome: string, recovered: int, payment: Option<string>, at: Option<int>)

  datatype Trials = Trials(
    experiments: seq<Experiment>,
    assignments: seq<Assignment>,
    decisions: seq<Decision>,
    actions: seq<Action>,
    outcomes: seq<ActionOutcome>)

  // ---------------------------------------------------------------- webhook events

  datatype PaymentView = PaymentView(id: string, core: PaymentCore)
  datatype OrderView = OrderView(id: string, core: OrderCore)
  datatype LinkView = LinkView(id: string, core: LinkCore)
  datatype Snapshot = Snapshot(payment: Option<PaymentView>, order: Option<OrderView>, link: Option<LinkView>)

  datatype EventStatus = EventReceived | EventProcessing | EventProcessed | EventIgnored | EventFailed
  datatype EventRow = EventRow(
    kind: string, account: Option<string>, createdAt: nat, status: EventStatus, attempts: nat,
    lastError: Option<Error>, caseId: Option<CaseId>, resourceId: Option<string>, snapshot: Option<Snapshot>)

  datatype Db = Db(store: Store, trials: Trials, events: map<string, EventRow>)

  // ---------------------------------------------------------------- validation and constraints

  predicate Space(c: char) {
    c == ' ' || c == '\t' || c == '\n' || c == '\r'
  }

  predicate Blank(text: string) {
    forall i :: 0 <= i < |text| ==> Space(text[i])
  }

  predicate ValidCurrency(currency: string) {
    |currency| == 3 && forall i :: 0 <= i < |currency| ==> 'A' <= currency[i] <= 'Z'
  }

  /** `ensure_valid_case_values`. */
  predicate ValidCase(c: RecoveryCase) {
    !Blank(c.sourceId) && c.amount > 0 && ValidCurrency(c.currency) && c.windowStart < c.windowEnd
  }

  predicate SameSource(c: RecoveryCase, d: RecoveryCase) {
    c.merchant == d.merchant && c.source == d.source && c.sourceId == d.sourceId
  }

  predicate KnownCustomer(s: Store, customer: Option<CustomerId>) {
    customer.Some? ==> customer.value in s.customers
  }

  predicate CaseRefsOk(s: Store, c: RecoveryCase) {
    c.merchant in s.merchants && KnownCustomer(s, c.customer) && c.windowStart < c.windowEnd
  }

  predicate MirrorOk(s: Store) {
    && (forall p :: p in s.payments ==> s.payments[p].merchant in s.merchants)
    && (forall o :: o in s.orders ==> s.orders[o].merchant in s.merchants && KnownCustomer(s, s.orders[o].customer))
    && (forall l :: l in s.links ==>
          && s.links[l].merchant in s.merchants
          && (s.links[l].orderId.Some? ==> s.links[l].orderId.value in s.orders)
          && (s.links[l].caseId.Some? ==> s.links[l].caseId.value < |s.cases|))
    && (forall m, n | m in s.merchants && n in s.merchants && s.merchants[m].account.Some? ::
          s.merchants[m].account == s.merchants[n].account ==> m == n)
  }

  predicate CasesOk(s: Store) {
    && (forall i :: 0 <= i < |s.cases| ==> CaseRefsOk(s, s.cases[i]))
    && (forall i, j :: 0 <= i < j < |s.cases| ==> !SameSource(s.cases[i], s.cases[j]))
  }

  predicate AuditsOk(s: Store) {
    forall i :: 0 <= i < |s.audits| ==> s.audits[i].caseId < |s.cases|
  }

  /** Foreign keys, uniqueness and window order. */
  predicate Referential(s: Store) {
    MirrorOk(s) && CasesOk(s) && AuditsOk(s)
  }

  /** `ck_recovery_cases_amount_at_risk_positive`. */
  predicate AmountsOk(s: Store) {
    forall i :: 0 <= i < |s.cases| ==> s.cases[i].amount > 0
  }

  /** What the database checks of the mirror, case and audit tables when a transaction commits. */
  predicate Consistent(s: Store) {
    Referential(s) && AmountsOk(s)
  }

  /** `ck_experiments_control_percentage_range`, and the experiment's merchant. */
  predicate ExperimentsOk(s: Store, t: Trials) {
    forall k :: 0 <= k < |t.experiments| ==>
      t.experiments[k].merchant in s.merchants && 0 <= t.experiments[k].percentage <= 100
  }

  /** What it checks of the experiment tables: foreign keys, one assignment per experiment and case, one
      outcome per action, and the percentage's range. */
  predicate TrialsRefsOk(s: Store, t: Trials) {
    && ExperimentsOk(s, t)
    && (forall i :: 0 <= i < |s.cases| && s.cases[i].experiment.Some? ==> s.cases[i].experiment.value < |t.experiments|)
    && (forall k :: 0 <= k < |t.assignments| ==>
          t.assignments[k].experiment < |t.experiments| && t.assignments[k].caseId < |s.cases|)
    && (forall j, k :: 0 <= j < k < |t.assignments| && t.assignments[j].caseId == t.assignments[k].caseId ==>
          t.assignments[j].experiment != t.assignments[k].experiment)
    && (forall k :: 0 <= k < |t.decisions| ==> t.decisions[k].caseId < |s.cases|)
    && (forall k :: 0 <= k < |t.actions| ==> t.actions[k].caseId < |s.cases|)
    && (forall k :: 0 <= k < |t.outcomes| ==> t.outcomes[k].actionId < |t.actions|)
    && (forall j, k :: 0 <= j < k < |t.outcomes| ==> t.outcomes[j].actionId != t.outcomes[k].actionId)
  }

  /** The reference of webhook events to cases. */
  predicate EventsOk(db: Db) {
    forall id :: id in db.events && db.events[id].caseId.Some? ==> db.events[id].caseId.value < |db.store.cases|
  }

  /** Everything a commit checks. */
  predicate Durable(db: Db) {
    Consistent(db.store) && TrialsRefsOk(db.store, db.trials) && EventsOk(db)
  }

  // ---------------------------------------------------------------- lookups

  predicate HasSource(c: RecoveryCase, source: SourceType, id: string) {
    c.source == source && c.sourceId == id
  }

  /** The oldest case with this source, whoever owns it. */
  function FindCase(cases: seq<RecoveryCase>, source: SourceType, id: string): (r: Option<CaseId>)
    ensures r.Some? ==> r.value < |cases| && HasSource(cases[r.value], source, id)
    ensures r.Some? ==> forall i :: 0 <= i < r.value ==> !HasSource(cases[i], source, id)
    ensures r.None? ==> forall i :: 0 <= i < |cases| ==> !HasSource(cases[i], source, id)
  {
    if cases == [] then None
    else
      var n := |cases| - 1;
      var earlier := FindCase(cases[..n], source, id);
      if earlier.Some? then earlier
      else if HasSource(cases[n], source, id) then Some(n)
      else None
  }

  /** The case of this merchant with this source. */
  function FindOwned(cases: seq<RecoveryCase>, merchant: MerchantId, source: SourceType, id: string)
    : (r: Option<CaseId>)
    ensures r.Some? ==> r.value < |cases| && HasSource(cases[r.value], source, id) && cases[r.value].merchant == merchant
    ensures r.Some? ==> forall i :: 0 <= i < r.value ==> !(HasSource(cases[i], source, id) && cases[i].merchant == merchant)
    ensures r.None? ==> forall i :: 0 <= i < |cases| ==> !(HasSource(cases[i], source, id) && cases[i].merchant == merchant)
  {
    if cases == [] then None
    else
      var n := |cases| - 1;
      var earlier := FindOwned(cases[..n], merchant, source, id);
      if earlier.Some? then earlier
      else if HasSource(cases[n], source, id) && cases[n].merchant == merchant then Some(n)
      else None
  }

  // ---------------------------------------------------------------- how rows may change

  /** A case keeps its identity, its status moves only where accepted transitions lead, once terminal
      it never changes again, and an experiment assignment is never rewritten. */
  predicate CaseEvolves(c: RecoveryCase, d: RecoveryCase) {
    && d == c.(amount := d.amount, status := d.status, experiment := d.experiment, group := d.group)
    && Leads(c.status, d.status)
    && (Terminal(c.status) ==> d == c)
    && (c.experiment.Some? ==> d.experiment == c.experiment && d.group == c.group)
  }

  predicate MirrorEvolves(s: Store, t: Store) {
    && t.merchants == s.merchants
    && t.customers == s.customers
    && (forall p :: p in s.payments ==> p in t.payments && t.payments[p].merchant == s.payments[p].merchant)
    && (forall o :: o in s.orders ==>
          o in t.orders && t.orders[o] == s.orders[o].(core := t.orders[o].core))
    && (forall l :: l in s.links ==>
          l in t.links && t.links[l] ==
            s.links[l].(core := t.links[l].core, extra := t.links[l].extra, caseId := t.links[l].caseId))
  }

  predicate CasesEvolve(s: Store, t: Store) {
    && |s.cases| <= |t.cases|
    && (forall i :: 0 <= i < |s.cases| ==> CaseEvolves(s.cases[i], t.cases[i]))
  }

  predicate Evolves(s: Store, t: Store) {
    MirrorEvolves(s, t) && CasesEvolve(s, t) && s.audits <= t.audits
  }

  lemma EvolvesTransitive(s: Store, t: Store, u: Store)
    requires Evolves(s, t) && Evolves(t, u)
    ensures Evolves(s, u)
  {
  }

  // ---------------------------------------------------------------- audit trail

  /** At most one status audit per case, and it tells the case's present, terminal status. */
  predicate AuditTrail(s: Store) {
    && AuditsOk(s)
    && (forall i :: 0 <= i < |s.audits| && s.audits[i].StatusChanged? ==>
          s.cases[s.audits[i].caseId].status == s.audits[i].target && Terminal(s.audits[i].target))
    && (forall i, j :: 0 <= i < j < |s.audits| && s.audits[i].StatusChanged? && s.audits[j].StatusChanged? ==>
          s.audits[i].caseId != s.audits[j].caseId)
  }

  /** What every accepted request keeps: rows evolve, the audit trail stays true, and references,
      unique keys and windows stay in order. */
  predicate Sound(s: Store, t: Store) {
    && Evolves(s, t)
    && (AuditTrail(s) ==> AuditTrail(t))
    && (Referential(s) ==> Referential(t))
  }

  lemma SoundTransitive(s: Store, t: Store, u: Store)
    requires Sound(s, t) && Sound(t, u)
    ensures Sound(s, u)
  {
  }

  /** No case is assigned to an experiment, and new cases are in none. */
  predicate Untried(s: Store, t: Store) {
    && |s.cases| <= |t.cases|
    && (forall i :: 0 <= i < |s.cases| ==>
          t.cases[i].experiment == s.cases[i].experiment && t.cases[i].group == s.cases[i].group)
    && (forall i :: |s.cases| <= i < |t.cases| ==> t.cases[i].experiment.None?)
  }

  /** Cases are opened AT_RISK and from there only closed. */
  predicate OnlyCloses(s: Store, t: Store) {
    && (forall i :: 0 <= i < |s.cases| && i < |t.cases| ==>
          t.cases[i].status == s.cases[i].status || Closes(t.cases[i].status))
    && (forall i :: |s.cases| <= i < |t.cases| ==> t.cases[i].status == AtRisk || Closes(t.cases[i].status))
  }

  /** What the engine, in particular, keeps. */
  predicate Keeps(s: Store, t: Store) {
    Sound(s, t) && Untried(s, t) && OnlyCloses(s, t)
  }

  lemma KeepsTransitive(s: Store, t: Store, u: Store)
    requires Keeps(s, t) && Keeps(t, u)
    ensures Keeps(s, u)
  {
  }

  /** The engine's changes cannot break a constraint of the experiment tables. */
  lemma TrialsRefsKept(s: Store, t: Store, trials: Trials)
    requires TrialsRefsOk(s, trials) && Keeps(s, t)
    ensures TrialsRefsOk(t, trials)
  {
  }
}
