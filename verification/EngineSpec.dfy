/** What the recovery engine (recovery/engine.py) computes, as functions of the store. */
module EngineSpec {
  import opened Outcomes
  import opened Lifecycle
  import opened Records

  // ---------------------------------------------------------------- events

  /** An id inside the webhook payload: missing or falsy, a non-empty text, or something else. */
  datatype RefId = Absent | Text(id: string) | NotText

  datatype Envelope = Envelope(
    event: string, account: Option<string>, createdAt: nat, payment: RefId, order: RefId, link: RefId)

  datatype Recon = Recon(resourceId: string, caseId: Option<CaseId>, snapshot: Snapshot)

  predicate HasAccount(env: Envelope) {
    env.account.Some? && env.account.value != ""
  }

  predicate IsPaymentEvent(event: string) {
    "payment." <= event
  }

  predicate IsLinkEvent(event: string) {
    "payment_link." <= event
  }

  // ---------------------------------------------------------------- transitions

  datatype Handled = Handled(store: Store, case_: Option<CaseId>)

  /** `_transition`: terminal cases stay as they are, without an audit. */
  function Transition(
    s: Store, c: CaseId, target: Closing, reason: Reason, actor: Actor, reference: Option<string>): (t: Store)
    requires c < |s.cases|
    ensures |t.cases| == |s.cases| && Terminal(t.cases[c].status)
    ensures t == s.(cases := t.cases, audits := t.audits)
    ensures Terminal(s.cases[c].status) ==> t == s
  {
    var row := s.cases[c];
    if Terminal(row.status) then s
    else
      var entry := StatusChanged(c, row.status, target, reason, actor, reference);
      s.(cases := s.cases[c := row.(status := target)], audits := s.audits + [entry])
  }

  predicate IsOptedOut(s: Store, customer: Option<CustomerId>) {
    customer.Some? && customer.value in s.customers && s.customers[customer.value] == OptedOut
  }

  /** Why a case of this merchant and customer must not go on, if it must not. */
  function StopReason(s: Store, merchant: MerchantId, customer: Option<CustomerId>): Option<Reason>
    requires merchant in s.merchants
  {
    if !s.merchants[merchant].active then Some(MerchantInactive)
    else if IsOptedOut(s, customer) then Some(CustomerOptedOut)
    else None
  }

  /** `_apply_initial_stop_conditions`. */
  function ApplyStops(s: Store, c: CaseId, merchant: MerchantId, customer: Option<CustomerId>, reference: string)
    : (t: Store)
    requires c < |s.cases| && merchant in s.merchants
    ensures |t.cases| == |s.cases|
    ensures t == s.(cases := t.cases, audits := t.audits)
    ensures Terminal(s.cases[c].status) ==> t == s
    ensures StopReason(s, merchant, customer).Some? ==> Terminal(t.cases[c].status)
  {
    match StopReason(s, merchant, customer)
    case Some(reason) => Transition(s, c, Stopped, reason, System, Some(reference))
    case None => s
  }

  /** The closing check of `handle_webhook`. */
  function ExpireIfDue(h: Handled, reference: string, now: int): (t: Handled)
    requires h.case_.Some? ==> h.case_.value < |h.store.cases|
    ensures t.case_ == h.case_
    ensures |t.store.cases| == |h.store.cases|
  {
    if h.case_.Some? && now >= h.store.cases[h.case_.value].windowEnd then
      h.(store := Transition(h.store, h.case_.value, Expired, WindowExpired, System, Some(reference)))
    else h
  }

  // ---------------------------------------------------------------- creating cases

  datatype Placed = Placed(store: Store, case_: CaseId)

  /** `_get_or_create_case`; the draft is the row it would insert. */
  function GetOrCreate(s: Store, draft: RecoveryCase, trigger: Trigger, reference: string): (r: Result<Placed, Error>)
    requires !Terminal(draft.status)
    ensures r.Ok? ==> r.value.case_ < |r.value.store.cases|
    ensures r.Ok? ==> SameSource(r.value.store.cases[r.value.case_], draft)
    ensures r.Ok? ==> r.value.store == s.(cases := r.value.store.cases, audits := r.value.store.audits)
    ensures r.Ok? && r.value.case_ < |s.cases| ==> r.value.store == s
    ensures r.Ok? && r.value.case_ >= |s.cases| ==>
              r.value.case_ == |s.cases| && r.value.store.cases == s.cases + [draft]
  {
    match FindOwned(s.cases, draft.merchant, draft.source, draft.sourceId)
    case Some(existing) => Ok(Placed(s, existing))
    case None =>
      if !ValidCase(draft) then Err(ValidationError)
      else
        Ok(Placed(
             s.(cases := s.cases + [draft],
                audits := s.audits + [CaseCreated(|s.cases|, trigger, reference, draft.amount, draft.windowEnd)]),
             |s.cases|))
  }

  function NewCase(
    merchant: MerchantId, customer: Option<CustomerId>, source: SourceType, id: string,
    amount: int, currency: string, start: int, window: nat): RecoveryCase
  {
    RecoveryCase(merchant, customer, source, id, amount, currency, AtRisk, start, start + window, None, None)
  }

  /** A live case takes the amount last observed. */
  function SetAmount(s: Store, c: CaseId, amount: int): (t: Store)
    requires c < |s.cases|
    ensures |t.cases| == |s.cases|
    ensures t == s.(cases := t.cases)
    ensures Terminal(s.cases[c].status) ==> t == s
  {
    if Terminal(s.cases[c].status) then s
    else s.(cases := s.cases[c := s.cases[c].(amount := amount)])
  }

  // ---------------------------------------------------------------- ownership

  /** The merchant mapped to the webhook's account. */
  function AccountOwner(s: Store, env: Envelope): (r: set<MerchantId>)
  {
    if HasAccount(env) then set m | m in s.merchants && s.merchants[m].account == env.account else {}
  }

  function Owning(s: Store, m: MerchantId): set<MerchantId> {
    if m in s.merchants then {m} else {}
  }

  function PaymentOwner(s: Store, snap: Snapshot): set<MerchantId> {
    if snap.payment.Some? && snap.payment.value.id in s.payments
    then Owning(s, s.payments[snap.payment.value.id].merchant) else {}
  }

  function OrderOwner(s: Store, snap: Snapshot): set<MerchantId> {
    if snap.order.Some? && snap.order.value.id in s.orders
    then Owning(s, s.orders[snap.order.value.id].merchant) else {}
  }

  function LinkOwner(s: Store, snap: Snapshot): set<MerchantId> {
    if snap.link.Some? && snap.link.value.id in s.links
    then Owning(s, s.links[snap.link.value.id].merchant) else {}
  }

  /** The account's merchant and the merchants that own a local row the snapshot names. */
  function Owners(s: Store, env: Envelope, snap: Snapshot): (r: set<MerchantId>)
    ensures r <= s.merchants.Keys
  {
    AccountOwner(s, env) + PaymentOwner(s, snap) + OrderOwner(s, snap) + LinkOwner(s, snap)
  }

  predicate Mapped(s: Store, m: MerchantId) {
    m in s.merchants && s.merchants[m].account.Some?
  }

  /** `_resolve_merchant`. */
  function ResolveMerchant(s: Store, env: Envelope, snap: Snapshot): (r: Result<Option<MerchantId>, Error>)
    ensures r.Ok? && r.value.Some? ==> r.value.value in s.merchants
    ensures r.Ok? && r.value.Some? ==> Owners(s, env, snap) == {r.value.value}
    ensures r.Ok? && r.value.None? ==> Owners(s, env, snap) == {}
    ensures r.Err? ==> r.error == OwnershipError
  {
    var owners := Owners(s, env, snap);
    if HasAccount(env) && AccountOwner(s, env) == {} && exists m :: m in owners && Mapped(s, m) then
      Err(OwnershipError)
    else if |owners| > 1 then Err(OwnershipError)
    else if owners == {} then Ok(None)
    else
      var m := Only(owners);
      Ok(Some(m))
  }

  function Only(owners: set<MerchantId>): (m: MerchantId)
    requires |owners| == 1
    ensures owners == {m}
  {
    OnlyOne(owners);
    var m :| m in owners && owners == {m};
    m
  }

  lemma OnlyOne(owners: set<MerchantId>)
    requires |owners| == 1
    ensures exists m :: m in owners && owners == {m}
  {
    var m :| m in owners;
    assert |owners - {m}| == 0;
    assert owners == {m};
  }

  // ---------------------------------------------------------------- local resources

  /** Ids of the snapshot's resources that have a local row. */
  datatype Resources = Resources(payment: Option<string>, order: Option<string>, link: Option<string>)

  predicate Located(s: Store, res: Resources) {
    && (res.payment.Some? ==> res.payment.value in s.payments)
    && (res.order.Some? ==> res.order.value in s.orders)
    && (res.link.Some? ==> res.link.value in s.links)
  }

  function EnsureOrder(s: Store, merchant: Option<MerchantId>, snap: Snapshot, now: int): (t: Store)
    ensures t == s.(orders := t.orders)
  {
    if snap.order.Some? && snap.order.value.id !in s.orders && merchant.Some? then
      s.(orders := s.orders[snap.order.value.id := Order(merchant.value, None, now, snap.order.value.core)])
    else s
  }

  function EnsurePayment(s: Store, merchant: Option<MerchantId>, snap: Snapshot): (t: Store)
    ensures t == s.(payments := t.payments)
  {
    if snap.payment.Some? && snap.payment.value.id !in s.payments && merchant.Some? then
      s.(payments := s.payments[snap.payment.value.id :=
           Payment(merchant.value, snap.payment.value.core, NO_PAYMENT_EXTRA)])
    else s
  }

  function EnsureLink(s: Store, merchant: Option<MerchantId>, snap: Snapshot): (t: Store)
    ensures t == s.(links := t.links)
  {
    if snap.link.Some? && snap.link.value.id !in s.links && merchant.Some? then
      s.(links := s.links[snap.link.value.id :=
           PaymentLink(merchant.value, LocalResources(s, snap).order, None, snap.link.value.core, NO_LINK_EXTRA)])
    else s
  }

  /** `_ensure_resources`: missing rows are inserted from the snapshot when the owner is known. */
  function EnsureResources(s: Store, merchant: Option<MerchantId>, snap: Snapshot, now: int): (t: Store)
    ensures t == s.(payments := t.payments, orders := t.orders, links := t.links)
  {
    var t1 := EnsureOrder(s, merchant, snap, now);
    var t2 := EnsurePayment(t1, merchant, snap);
    var t3 := EnsureLink(t2, merchant, snap);
    t3
  }

  function LocalResources(s: Store, snap: Snapshot): (res: Resources)
    ensures Located(s, res)
  {
    Resources(
      if snap.payment.Some? && snap.payment.value.id in s.payments then Some(snap.payment.value.id) else None,
      if snap.order.Some? && snap.order.value.id in s.orders then Some(snap.order.value.id) else None,
      if snap.link.Some? && snap.link.value.id in s.links then Some(snap.link.value.id) else None)
  }

  /** `_find_correlated_case`: the reconciler's case, else the first of link, payment and order. */
  function FindCorrelated(s: Store, hint: Option<CaseId>, res: Resources): (r: Option<CaseId>)
    ensures r.Some? ==> r.value < |s.cases|
  {
    if hint.Some? && hint.value < |s.cases| then hint
    else
      var byLink := if res.link.Some? then FindCase(s.cases, LinkSource, res.link.value) else None;
      if byLink.Some? then byLink
      else
        var byPayment := if res.payment.Some? then FindCase(s.cases, PaymentSource, res.payment.value) else None;
        if byPayment.Some? then byPayment
        else if res.order.Some? then FindCase(s.cases, OrderSource, res.order.value)
        else None
  }

  // ---------------------------------------------------------------- reactions

  predicate CaseIn(s: Store, c: Option<CaseId>) {
    c.Some? ==> c.value < |s.cases|
  }

  /** Close the correlated case, if there is one. */
  function Close(s: Store, corr: Option<CaseId>, target: Closing, reason: Reason, eventId: string): (h: Handled)
    requires CaseIn(s, corr)
    ensures h.case_ == corr
    ensures h.store == s.(cases := h.store.cases, audits := h.store.audits) && |h.store.cases| == |s.cases|
    ensures corr.None? ==> h.store == s
    ensures corr.Some? ==> Terminal(h.store.cases[corr.value].status)
    ensures corr.Some? && Terminal(s.cases[corr.value].status) ==> h.store == s
  {
    match corr
    case Some(c) => Handled(Transition(s, c, target, reason, Razorpay, Some(eventId)), corr)
    case None => Handled(s, corr)
  }

  function OrderCustomer(s: Store, res: Resources): Option<CustomerId>
    requires Located(s, res)
  {
    if res.order.Some? then s.orders[res.order.value].customer else None
  }

  /** The failed payment's amount, capped by what its order still owes. */
  function PaymentAtRisk(s: Store, res: Resources): int
    requires Located(s, res) && res.payment.Some?
  {
    var amount := s.payments[res.payment.value].core.amount;
    if res.order.Some? && 0 < s.orders[res.order.value].core.amountDue < amount
    then s.orders[res.order.value].core.amountDue else amount
  }

  predicate IsFailure(env: Envelope) {
    env.event == "payment.failed"
  }

  /** The failed payment's case: the correlated one, or its own, with the amount now at risk. */
  function OpenPaymentCase(
    s: Store, res: Resources, corr: Option<CaseId>, merchant: MerchantId, start: int,
    eventId: string, window: nat): (r: Result<Handled, Error>)
    requires Located(s, res) && CaseIn(s, corr) && merchant in s.merchants && res.payment.Some?
    ensures r.Ok? ==> CaseIn(r.value.store, r.value.case_)
  {
    var amount := PaymentAtRisk(s, res);
    var draft := NewCase(merchant, OrderCustomer(s, res), PaymentSource, res.payment.value,
                         amount, s.payments[res.payment.value].core.currency, start, window);
    var placed :- if corr.Some? then Ok(Placed(s, corr.value))
                  else GetOrCreate(s, draft, PaymentFailedTrigger, eventId);
    var h := Refresh(placed, amount, merchant, eventId);
    Ok(h)
  }

  /** `_handle_payment`. */
  function HandlePayment(
    s: Store, env: Envelope, res: Resources, corr: Option<CaseId>, merchant: Option<MerchantId>,
    eventId: string, window: nat): (r: Result<Handled, Error>)
    requires Located(s, res) && CaseIn(s, corr)
    requires merchant.Some? ==> merchant.value in s.merchants
    ensures r.Ok? ==> CaseIn(r.value.store, r.value.case_)
  {
    if res.payment.None? then Ok(Handled(s, corr))
    else
      var payment := s.payments[res.payment.value].core;
      if payment.status == PaymentCaptured then Ok(Close(s, corr, Recovered, PaymentWasCaptured, eventId))
      else if !IsFailure(env) || payment.status != PaymentFailed then Ok(Handled(s, corr))
      else if res.order.Some? && (s.orders[res.order.value].core.status == OrderPaid
                                  || s.orders[res.order.value].core.amountDue <= 0) then
        Ok(Close(s, corr, Recovered, OrderAlreadyPaid, eventId))
      else if merchant.None? then Err(OwnershipError)
      else OpenPaymentCase(s, res, corr, merchant.value, env.createdAt, eventId, window)
  }

  /** Record the amount now at risk, then stop the case if it must not go on. */
  function Refresh(placed: Placed, amount: int, merchant: MerchantId, eventId: string): (h: Handled)
    requires placed.case_ < |placed.store.cases| && merchant in placed.store.merchants
    ensures h.case_ == Some(placed.case_)
    ensures h.store == placed.store.(cases := h.store.cases, audits := h.store.audits)
    ensures |h.store.cases| == |placed.store.cases|
    ensures Terminal(placed.store.cases[placed.case_].status) ==> h.store == placed.store
  {
    var t := SetAmount(placed.store, placed.case_, amount);
    var u := ApplyStops(t, placed.case_, merchant, t.cases[placed.case_].customer, eventId);
    Handled(u, Some(placed.case_))
  }

  /** What a Payment Link still has to collect. */
  function LinkRemaining(core: LinkCore): nat {
    if core.amount > core.amountPaid then core.amount - core.amountPaid else 0
  }

  function Attach(s: Store, link: string, c: CaseId): (t: Store)
    requires link in s.links && c < |s.cases|
    ensures t == s.(links := t.links)
  {
    s.(links := s.links[link := s.links[link].(caseId := Some(c))])
  }

  /** `_handle_payment_link`. */
  function HandleLink(
    s: Store, res: Resources, corr: Option<CaseId>, merchant: Option<MerchantId>,
    eventId: string, now: int, window: nat): (r: Result<Handled, Error>)
    requires Located(s, res) && CaseIn(s, corr)
    requires merchant.Some? ==> merchant.value in s.merchants
    ensures r.Ok? ==> CaseIn(r.value.store, r.value.case_)
  {
    if res.link.None? then Ok(Handled(s, corr))
    else
      var link := s.links[res.link.value].core;
      if link.status == LinkPaid then
        if !(res.payment.Some? && s.payments[res.payment.value].core.status == PaymentCaptured)
           || !(res.order.Some? && s.orders[res.order.value].core.status == OrderPaid) then Err(EngineError)
        else Ok(Close(s, corr, Recovered, LinkPaidReconciled, eventId))
      else if link.status == LinkCancelled then Ok(Close(s, corr, Stopped, LinkWasCancelled, eventId))
      else if link.status == LinkExpired && corr.Some? then
        Ok(Close(s, corr, Expired, RecoveryLinkExpired, eventId))
      else if LinkRemaining(link) == 0 then Ok(Handled(s, corr))
      else if link.status != LinkPartiallyPaid && link.status != LinkExpired then Ok(Handled(s, corr))
      else if merchant.None? then Err(OwnershipError)
      else OpenLinkCase(s, res, merchant.value, eventId, now, window)
  }

  /** The unpaid link's own case, attached to the link, with the amount still to collect. */
  function OpenLinkCase(
    s: Store, res: Resources, merchant: MerchantId, eventId: string, now: int, window: nat): (r: Result<Handled, Error>)
    requires Located(s, res) && merchant in s.merchants && res.link.Some?
    ensures r.Ok? ==> CaseIn(r.value.store, r.value.case_)
  {
    var link := s.links[res.link.value].core;
    var draft := NewCase(merchant, OrderCustomer(s, res), LinkSource, res.link.value,
                         LinkRemaining(link), link.currency, now, window);
    var placed :- GetOrCreate(s, draft, UnpaidLinkTrigger, eventId);
    var h := RefreshLink(placed, res.link.value, LinkRemaining(link), merchant, eventId);
    Ok(h)
  }

  function RefreshLink(placed: Placed, link: string, amount: int, merchant: MerchantId, eventId: string): (h: Handled)
    requires placed.case_ < |placed.store.cases| && merchant in placed.store.merchants && link in placed.store.links
    ensures h.case_ == Some(placed.case_)
    ensures h.store == placed.store.(cases := h.store.cases, audits := h.store.audits, links := h.store.links)
    ensures h.store.links == placed.store.links[link := placed.store.links[link].(caseId := Some(placed.case_))]
    ensures |h.store.cases| == |placed.store.cases|
    ensures Terminal(placed.store.cases[placed.case_].status) ==> h.store.cases == placed.store.cases
  {
    var t := SetAmount(placed.store, placed.case_, amount);
    var u := Attach(t, link, placed.case_);
    var v := ApplyStops(u, placed.case_, merchant, u.cases[placed.case_].customer, eventId);
    Handled(v, Some(placed.case_))
  }

  // ---------------------------------------------------------------- handle_webhook

  /** The dispatch of `handle_webhook` on the event's family. */
  function React(
    s: Store, env: Envelope, res: Resources, corr: Option<CaseId>, merchant: Option<MerchantId>,
    eventId: string, now: int, window: nat): (r: Result<Handled, Error>)
    requires Located(s, res) && CaseIn(s, corr)
    requires merchant.Some? ==> merchant.value in s.merchants
    ensures r.Ok? ==> CaseIn(r.value.store, r.value.case_)
  {
    if IsPaymentEvent(env.event) then HandlePayment(s, env, res, corr, merchant, eventId, window)
    else if IsLinkEvent(env.event) then HandleLink(s, res, corr, merchant, eventId, now, window)
    else Ok(Handled(s, corr))
  }

  /** What `handle_webhook` establishes before it reacts: the owner, the local rows and the case. */
  datatype Prepared = Prepared(store: Store, merchant: Option<MerchantId>, res: Resources, corr: Option<CaseId>)

  predicate Ready(p: Prepared) {
    && Located(p.store, p.res) && CaseIn(p.store, p.corr)
    && (p.merchant.Some? ==> p.merchant.value in p.store.merchants)
  }

  function Prepare(s: Store, env: Envelope, recon: Recon, now: int): (r: Result<Prepared, Error>)
    ensures r.Ok? ==> Ready(r.value)
    ensures r.Ok? ==> r.value.store.cases == s.cases && r.value.store.audits == s.audits
  {
    var merchant :- ResolveMerchant(s, env, recon.snapshot);
    var t := EnsureResources(s, merchant, recon.snapshot, now);
    var res := LocalResources(t, recon.snapshot);
    Ok(Prepared(t, merchant, res, FindCorrelated(t, recon.caseId, res)))
  }

  function Settle(p: Prepared, env: Envelope, eventId: string, now: int, window: nat): (r: Result<Handled, Error>)
    requires Ready(p)
    ensures r.Ok? ==> CaseIn(r.value.store, r.value.case_)
  {
    var h :- React(p.store, env, p.res, p.corr, p.merchant, eventId, now, window);
    var final := ExpireIfDue(h, eventId, now);
    Ok(final)
  }

  /** `handle_webhook`. */
  function Handle(s: Store, env: Envelope, recon: Recon, eventId: string, now: int, window: nat)
    : (r: Result<Handled, Error>)
    ensures r.Ok? ==> CaseIn(r.value.store, r.value.case_)
  {
    var p :- Prepare(s, env, recon, now);
    var h :- Settle(p, env, eventId, now, window);
    Ok(h)
  }

  // ---------------------------------------------------------------- the branches, named

  /** The payment branch that opens or refreshes a case. */
  predicate OpensPayment(p: Prepared, env: Envelope)
    requires Ready(p)
  {
    && p.res.payment.Some? && p.merchant.Some? && IsFailure(env)
    && p.store.payments[p.res.payment.value].core.status == PaymentFailed
    && !(p.res.order.Some? && (p.store.orders[p.res.order.value].core.status == OrderPaid
                               || p.store.orders[p.res.order.value].core.amountDue <= 0))
  }

  /** The link branch that opens or refreshes a case. */
  predicate OpensLink(p: Prepared)
    requires Ready(p)
  {
    && p.res.link.Some? && p.merchant.Some?
    && var core := p.store.links[p.res.link.value].core;
       && LinkRemaining(core) > 0
       && (core.status == LinkPartiallyPaid || (core.status == LinkExpired && p.corr.None?))
  }

  /** A payment event that opens no case closes the correlated one or leaves it. */
  lemma ClosingPayment(p: Prepared, env: Envelope, eventId: string, window: nat)
    requires Ready(p) && !OpensPayment(p, env)
    requires HandlePayment(p.store, env, p.res, p.corr, p.merchant, eventId, window).Ok?
    ensures var h := HandlePayment(p.store, env, p.res, p.corr, p.merchant, eventId, window).value;
            || h == Handled(p.store, p.corr)
            || h == Close(p.store, p.corr, Recovered, PaymentWasCaptured, eventId)
            || h == Close(p.store, p.corr, Recovered, OrderAlreadyPaid, eventId)
  {
  }

  /** Likewise for a link event. */
  lemma ClosingLink(p: Prepared, eventId: string, now: int, window: nat)
    requires Ready(p) && !OpensLink(p)
    requires HandleLink(p.store, p.res, p.corr, p.merchant, eventId, now, window).Ok?
    ensures var h := HandleLink(p.store, p.res, p.corr, p.merchant, eventId, now, window).value;
            || h == Handled(p.store, p.corr)
            || h == Close(p.store, p.corr, Recovered, LinkPaidReconciled, eventId)
            || h == Close(p.store, p.corr, Stopped, LinkWasCancelled, eventId)
            || h == Close(p.store, p.corr, Expired, RecoveryLinkExpired, eventId)
  {
  }
}
