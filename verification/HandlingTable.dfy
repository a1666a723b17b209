/** What `handle_webhook` decides, as one table: which case it touches, what becomes of its status and
    amount, and what the audit log says about it.  Nothing else changes in the case table. */
module HandlingTable {
  import opened Outcomes
  import opened Lifecycle
  import opened Records
  import opened EngineSpec
  import opened Convergence

  /** Why a case is closed, by whom, and to what. */
  datatype Ruling = Ruling(target: Closing, reason: Reason, actor: Actor)

  const WINDOW_OVER := Ruling(Expired, WindowExpired, System)

  /** What closes a case of this status, if anything does: terminal cases stay, a ruling comes before the
      window's end, and a live case whose window is over expires. */
  function Fate(before: Status, ruling: Option<Ruling>, due: bool): Option<Ruling> {
    if Terminal(before) then None
    else if ruling.Some? then ruling
    else if due then Some(WINDOW_OVER)
    else None
  }

  /** Of all rows only this case's changes, and of it only status and, while it is live, amount; a change
      of status leaves exactly one audit, which tells it. */
  predicate Decided(
    s: Store, t: Store, c: CaseId, amount: int, ruling: Option<Ruling>, due: bool, eventId: string)
    requires c < |s.cases|
  {
    var before := s.cases[c];
    var row := before.(amount := if Terminal(before.status) then before.amount else amount);
    match Fate(before.status, ruling, due)
    case None => t.cases == s.cases[c := row] && t.audits == s.audits
    case Some(r) =>
      && t.cases == s.cases[c := row.(status := r.target)]
      && t.audits == s.audits + [StatusChanged(c, before.status, r.target, r.reason, r.actor, Some(eventId))]
  }

  /** Who must not be chased: anybody of an inactive merchant, and customers who opted out. */
  predicate RuledOut(s: Store, merchant: MerchantId, customer: Option<CustomerId>)
    requires merchant in s.merchants
  {
    || !s.merchants[merchant].active
    || (customer.Some? && customer.value in s.customers && s.customers[customer.value] == OptedOut)
  }

  /** What rules a case out; the merchant is looked at first. */
  function StopRuling(s: Store, merchant: MerchantId, customer: Option<CustomerId>): Option<Ruling>
    requires merchant in s.merchants
  {
    if !RuledOut(s, merchant, customer) then None
    else Some(Ruling(Stopped, if s.merchants[merchant].active then CustomerOptedOut else MerchantInactive, System))
  }

  // ---------------------------------------------------------------- what is known before deciding

  /** The c-th case has this source. */
  predicate Sourced(cases: seq<RecoveryCase>, source: SourceType, id: Option<string>, c: CaseId) {
    id.Some? && c < |cases| && cases[c].source == source && cases[c].sourceId == id.value
  }

  ghost predicate NoneSourced(cases: seq<RecoveryCase>, source: SourceType, id: Option<string>) {
    forall c: CaseId :: !Sourced(cases, source, id, c)
  }

  /** The oldest case whose source is the link, else the payment, else the order; none if there is none. */
  ghost predicate FirstSourced(
    cases: seq<RecoveryCase>, link: Option<string>, payment: Option<string>, order: Option<string>, r: Option<CaseId>) {
    if r.None? then
      NoneSourced(cases, LinkSource, link) && NoneSourced(cases, PaymentSource, payment)
      && NoneSourced(cases, OrderSource, order)
    else
      && (|| Sourced(cases, LinkSource, link, r.value)
          || (NoneSourced(cases, LinkSource, link)
              && (|| Sourced(cases, PaymentSource, payment, r.value)
                  || (NoneSourced(cases, PaymentSource, payment) && Sourced(cases, OrderSource, order, r.value)))))
      && forall i :: 0 <= i < r.value ==>
           cases[i].source != cases[r.value].source || cases[i].sourceId != cases[r.value].sourceId
  }

  /** The case an event is about: the reconciler's, if it is there, else the first by source. */
  lemma CorrelationTable(s: Store, hint: Option<CaseId>, res: Resources)
    ensures if hint.Some? && hint.value < |s.cases| then FindCorrelated(s, hint, res) == hint
            else FirstSourced(s.cases, res.link, res.payment, res.order, FindCorrelated(s, hint, res))
  {
  }

  /** A row the event names: one that was there stays, a missing one is inserted for the owner, if any. */
  predicate Ensured<T(==)>(
    before: map<string, T>, after: map<string, T>, id: Option<string>, row: Option<T>, found: Option<string>) {
    if id.None? then after == before && found.None?
    else if id.value in before then after == before && found == id
    else if row.Some? then after == before[id.value := row.value] && found == id
    else after == before && found.None?
  }

  /** What preparing does to the mirror: rows the snapshot names and the database lacks are inserted with
      the snapshot's fields and nothing else, the link's with its order. */
  lemma PreparedTable(s: Store, env: Envelope, recon: Recon, now: int)
    requires Prepare(s, env, recon, now).Ok?
    ensures var p := Prepare(s, env, recon, now).value;
            var snap := recon.snapshot;
            var inserts := p.merchant.Some?;
            && p.corr == FindCorrelated(p.store, recon.caseId, p.res)
            && p.store == s.(payments := p.store.payments, orders := p.store.orders, links := p.store.links)
            && (if snap.order.None? then Ensured(s.orders, p.store.orders, None, None, p.res.order)
                else Ensured(s.orders, p.store.orders, Some(snap.order.value.id),
                             if inserts then Some(Order(p.merchant.value, None, now, snap.order.value.core)) else None,
                             p.res.order))
            && (if snap.payment.None? then Ensured(s.payments, p.store.payments, None, None, p.res.payment)
                else Ensured(s.payments, p.store.payments, Some(snap.payment.value.id),
                             if inserts then Some(Payment(p.merchant.value, snap.payment.value.core, NO_PAYMENT_EXTRA))
                             else None,
                             p.res.payment))
            && (if snap.link.None? then Ensured(s.links, p.store.links, None, None, p.res.link)
                else Ensured(s.links, p.store.links, Some(snap.link.value.id),
                             if inserts then
                               Some(PaymentLink(p.merchant.value, p.res.order, None, snap.link.value.core, NO_LINK_EXTRA))
                             else None,
                             p.res.link))
  {
  }

  // ---------------------------------------------------------------- the four reactions

  lemma RefreshDecides(placed: Placed, amount: int, merchant: MerchantId, eventId: string, now: int)
    requires placed.case_ < |placed.store.cases| && merchant in placed.store.merchants
    ensures var s, c := placed.store, placed.case_;
            Decided(s, ExpireIfDue(Refresh(placed, amount, merchant, eventId), eventId, now).store, c, amount,
                    StopRuling(s, merchant, s.cases[c].customer), now >= s.cases[c].windowEnd, eventId)
  {
  }

  lemma RefreshLinkDecides(placed: Placed, link: string, amount: int, merchant: MerchantId, eventId: string, now: int)
    requires placed.case_ < |placed.store.cases| && merchant in placed.store.merchants && link in placed.store.links
    ensures var s, c := placed.store, placed.case_;
            var t := ExpireIfDue(RefreshLink(placed, link, amount, merchant, eventId), eventId, now).store;
            && Decided(s, t, c, amount, StopRuling(s, merchant, s.cases[c].customer), now >= s.cases[c].windowEnd, eventId)
            && t.links == s.links[link := s.links[link].(caseId := Some(c))]
  {
  }

  lemma CloseDecides(s: Store, c: CaseId, target: Closing, reason: Reason, eventId: string, now: int)
    requires c < |s.cases|
    ensures Decided(s, ExpireIfDue(Close(s, Some(c), target, reason, eventId), eventId, now).store, c, s.cases[c].amount,
                    Some(Ruling(target, reason, Razorpay)), now >= s.cases[c].windowEnd, eventId)
  {
  }

  lemma LeaveDecides(s: Store, c: CaseId, eventId: string, now: int)
    requires c < |s.cases|
    ensures Decided(s, ExpireIfDue(Handled(s, Some(c)), eventId, now).store, c, s.cases[c].amount, None,
                    now >= s.cases[c].windowEnd, eventId)
  {
  }

  // ---------------------------------------------------------------- events that open a case

  /** The row is the merchant's case for this source: the one it had, or the draft with its creation audit. */
  predicate Founded(s: Store, placed: Placed, draft: RecoveryCase, trigger: Trigger, eventId: string) {
    if FindOwned(s.cases, draft.merchant, draft.source, draft.sourceId).Some? then
      placed == Placed(s, FindOwned(s.cases, draft.merchant, draft.source, draft.sourceId).value)
    else
      && placed.case_ == |s.cases| && placed.store.cases == s.cases + [draft]
      && placed.store.audits == s.audits + [CaseCreated(|s.cases|, trigger, eventId, draft.amount, draft.windowEnd)]
      && ValidCase(draft)
  }

  /** What a failed payment still puts at risk: its amount, or what its order still owes if that is less. */
  lemma AtRiskBounds(s: Store, res: Resources)
    requires Located(s, res) && res.payment.Some?
    ensures var amount := s.payments[res.payment.value].core.amount;
            && 0 <= PaymentAtRisk(s, res) <= amount
            && (res.order.Some? && s.orders[res.order.value].core.amountDue > 0 ==>
                  PaymentAtRisk(s, res) <= s.orders[res.order.value].core.amountDue)
            && (PaymentAtRisk(s, res) == amount
                || (res.order.Some? && PaymentAtRisk(s, res) == s.orders[res.order.value].core.amountDue > 0))
  {
  }

  /** The two families of events are told apart by what comes after "payment". */
  lemma Families(event: string)
    ensures "payment." <= event ==> !("payment_link." <= event)
    ensures "payment." <= "payment.failed"
  {
    assert "payment." <= event ==> event[7] == '.';
  }

  /** A failed payment, reported as such, whose order, if it has one, still owes money. */
  predicate FailedUnpaid(p: Prepared, env: Envelope)
    requires Ready(p)
  {
    && env.event == "payment.failed" && p.merchant.Some? && p.res.payment.Some?
    && p.store.payments[p.res.payment.value].core.status == PaymentFailed
    && (p.res.order.Some? ==>
          && p.store.orders[p.res.order.value].core.status != OrderPaid
          && p.store.orders[p.res.order.value].core.amountDue > 0)
  }

  /** The row a failed payment without a case gets. */
  function FailedRow(p: Prepared, env: Envelope, window: nat): RecoveryCase
    requires Ready(p) && FailedUnpaid(p, env)
  {
    RecoveryCase(
      p.merchant.value, if p.res.order.Some? then p.store.orders[p.res.order.value].customer else None,
      PaymentSource, p.res.payment.value, PaymentAtRisk(p.store, p.res),
      p.store.payments[p.res.payment.value].core.currency, AtRisk,
      env.createdAt, env.createdAt + window, None, None)
  }

  lemma FailedOpens(p: Prepared, env: Envelope, window: nat)
    requires Ready(p) && FailedUnpaid(p, env)
    ensures IsPaymentEvent(env.event) && OpensPayment(p, env)
    ensures PaymentDraft(p.store, p.res, p.merchant.value, env.createdAt, window) == FailedRow(p, env, window)
  {
    Families(env.event);
  }

  /** A failed payment whose order still owes money: the correlated case, or else the payment's own case,
      takes the amount at risk and is stopped, expired or left going. */
  lemma FailedPaymentTable(p: Prepared, env: Envelope, eventId: string, now: int, window: nat)
    requires Ready(p) && FailedUnpaid(p, env) && Settle(p, env, eventId, now, window).Ok?
    ensures PaymentPlaced(p.store, p.res, p.corr, p.merchant.value, env.createdAt, eventId, window).Ok?
    ensures var placed := PaymentPlaced(p.store, p.res, p.corr, p.merchant.value, env.createdAt, eventId, window).value;
            var h := Settle(p, env, eventId, now, window).value;
            && (if p.corr.Some? then placed == Placed(p.store, p.corr.value)
                else Founded(p.store, placed, FailedRow(p, env, window), PaymentFailedTrigger, eventId))
            && h.case_ == Some(placed.case_) && placed.store.merchants == p.store.merchants
            && placed.store.customers == p.store.customers
            && Decided(placed.store, h.store, placed.case_, PaymentAtRisk(p.store, p.res),
                       StopRuling(placed.store, p.merchant.value, placed.store.cases[placed.case_].customer),
                       now >= placed.store.cases[placed.case_].windowEnd, eventId)
  {
    FailedOpens(p, env, window);
    OpenPaymentParts(p.store, p.res, p.corr, p.merchant.value, env.createdAt, eventId, window);
    var placed := PaymentPlaced(p.store, p.res, p.corr, p.merchant.value, env.createdAt, eventId, window).value;
    RefreshDecides(placed, PaymentAtRisk(p.store, p.res), p.merchant.value, eventId, now);
  }

  /** A link with money left to collect that is partly paid, or expired without a case. */
  predicate UnpaidLink(p: Prepared, env: Envelope)
    requires Ready(p)
  {
    && "payment_link." <= env.event && p.merchant.Some? && p.res.link.Some?
    && var core := p.store.links[p.res.link.value].core;
       && core.amountPaid < core.amount
       && (core.status == LinkPartiallyPaid || (core.status == LinkExpired && p.corr.None?))
  }

  /** What the link still has to collect. */
  function ToCollect(p: Prepared, env: Envelope): nat
    requires Ready(p) && UnpaidLink(p, env)
  {
    p.store.links[p.res.link.value].core.amount - p.store.links[p.res.link.value].core.amountPaid
  }

  /** The row an unpaid link without a case gets. */
  function UnpaidRow(p: Prepared, env: Envelope, now: int, window: nat): RecoveryCase
    requires Ready(p) && UnpaidLink(p, env)
  {
    RecoveryCase(
      p.merchant.value, if p.res.order.Some? then p.store.orders[p.res.order.value].customer else None,
      LinkSource, p.res.link.value, ToCollect(p, env), p.store.links[p.res.link.value].core.currency, AtRisk,
      now, now + window, None, None)
  }

  lemma UnpaidOpens(p: Prepared, env: Envelope, now: int, window: nat)
    requires Ready(p) && UnpaidLink(p, env)
    ensures !IsPaymentEvent(env.event) && IsLinkEvent(env.event) && OpensLink(p)
    ensures LinkAmount(p.store, p.res) == ToCollect(p, env)
    ensures LinkDraft(p.store, p.res, p.merchant.value, now, window) == UnpaidRow(p, env, now, window)
  {
    Families(env.event);
  }

  /** A link that is partly paid, or expired without a case: the link's own case takes what is still to be
      collected, is attached to the link, and is stopped, expired or left going. */
  lemma UnpaidLinkTable(p: Prepared, env: Envelope, eventId: string, now: int, window: nat)
    requires Ready(p) && UnpaidLink(p, env) && Settle(p, env, eventId, now, window).Ok?
    ensures LinkPlaced(p.store, p.res, p.merchant.value, eventId, now, window).Ok?
    ensures var placed := LinkPlaced(p.store, p.res, p.merchant.value, eventId, now, window).value;
            var h := Settle(p, env, eventId, now, window).value;
            && Founded(p.store, placed, UnpaidRow(p, env, now, window), UnpaidLinkTrigger, eventId)
            && h.case_ == Some(placed.case_) && placed.store.merchants == p.store.merchants
            && placed.store.customers == p.store.customers
            && h.store.links ==
                 p.store.links[p.res.link.value := p.store.links[p.res.link.value].(caseId := h.case_)]
            && Decided(placed.store, h.store, placed.case_, ToCollect(p, env),
                       StopRuling(placed.store, p.merchant.value, placed.store.cases[placed.case_].customer),
                       now >= placed.store.cases[placed.case_].windowEnd, eventId)
  {
    UnpaidOpens(p, env, now, window);
    OpenLinkParts(p.store, p.res, p.merchant.value, eventId, now, window);
    var placed := LinkPlaced(p.store, p.res, p.merchant.value, eventId, now, window).value;
    RefreshLinkDecides(placed, p.res.link.value, ToCollect(p, env), p.merchant.value, eventId, now);
  }

  // ---------------------------------------------------------------- stop conditions

  predicate Opens(p: Prepared, env: Envelope)
    requires Ready(p)
  {
    FailedUnpaid(p, env) || UnpaidLink(p, env)
  }

  /** What became of a live case: STOPPED exactly if it is ruled out, with one audit that says whose doing
      it is; else EXPIRED exactly if its window is over; else as it was. */
  predicate StoppedRight(s: Store, t: Store, c: CaseId, merchant: MerchantId, before: Status, now: int, reference: string)
    requires merchant in s.merchants && c < |t.cases|
  {
    var row := t.cases[c];
    && (row.status == Stopped <==> RuledOut(s, merchant, row.customer))
    && (row.status == Stopped ==>
          t.audits != [] && t.audits[|t.audits| - 1] ==
            StatusChanged(c, before, Stopped, if s.merchants[merchant].active then CustomerOptedOut else MerchantInactive,
                          System, Some(reference)))
    && (row.status != Stopped ==> row.status == if now >= row.windowEnd then Expired else before)
  }

  lemma DecidedStops(s: Store, t: Store, c: CaseId, amount: int, merchant: MerchantId, now: int, eventId: string)
    requires c < |s.cases| && merchant in s.merchants && !Terminal(s.cases[c].status)
    requires Decided(s, t, c, amount, StopRuling(s, merchant, s.cases[c].customer), now >= s.cases[c].windowEnd, eventId)
    ensures c < |t.cases| && StoppedRight(s, t, c, merchant, s.cases[c].status, now, eventId)
  {
  }

  /** The stop conditions: after an event that opens or refreshes a case, the case it handled is STOPPED
      exactly if it is ruled out; a terminal case stays as it was. */
  lemma StopConditions(p: Prepared, env: Envelope, eventId: string, now: int, window: nat)
    requires Ready(p) && Opens(p, env) && Settle(p, env, eventId, now, window).Ok?
    ensures var h := Settle(p, env, eventId, now, window).value;
            && h.case_.Some? && h.case_.value < |h.store.cases|
            && var c := h.case_.value;
               var before := if c < |p.store.cases| then p.store.cases[c].status else AtRisk;
               if Terminal(before) then h.store.cases[c].status == before
               else StoppedRight(p.store, h.store, c, p.merchant.value, before, now, eventId)
  {
    var h := Settle(p, env, eventId, now, window).value;
    if FailedUnpaid(p, env) {
      FailedPaymentTable(p, env, eventId, now, window);
      var placed := PaymentPlaced(p.store, p.res, p.corr, p.merchant.value, env.createdAt, eventId, window).value;
      PlacedStops(p.store, placed, h.store, PaymentAtRisk(p.store, p.res), p.merchant.value, now, eventId);
    } else {
      UnpaidLinkTable(p, env, eventId, now, window);
      var placed := LinkPlaced(p.store, p.res, p.merchant.value, eventId, now, window).value;
      PlacedStops(p.store, placed, h.store, ToCollect(p, env), p.merchant.value, now, eventId);
    }
  }

  lemma PlacedStops(
    s: Store, placed: Placed, t: Store, amount: int, merchant: MerchantId, now: int, eventId: string)
    requires merchant in s.merchants && placed.store.merchants == s.merchants && placed.store.customers == s.customers
    requires placed.case_ < |placed.store.cases|
    requires Decided(placed.store, t, placed.case_, amount,
                     StopRuling(placed.store, merchant, placed.store.cases[placed.case_].customer),
                     now >= placed.store.cases[placed.case_].windowEnd, eventId)
    requires placed.store == s || (placed.case_ == |s.cases| && placed.store.cases[placed.case_].status == AtRisk)
    ensures var c := placed.case_;
            var before := if c < |s.cases| then s.cases[c].status else AtRisk;
            && c < |t.cases|
            && if Terminal(before) then t.cases[c].status == before
               else StoppedRight(s, t, c, merchant, before, now, eventId)
  {
    if !Terminal(placed.store.cases[placed.case_].status) {
      DecidedStops(placed.store, t, placed.case_, amount, merchant, now, eventId);
    }
  }

  // ---------------------------------------------------------------- all other events

  /** What the mirror says about the correlated case. */
  function Verdict(p: Prepared, env: Envelope): Option<Ruling>
    requires Ready(p)
  {
    if "payment." <= env.event then
      if p.res.payment.None? then None
      else
        var status := p.store.payments[p.res.payment.value].core.status;
        if status == PaymentCaptured then Some(Ruling(Recovered, PaymentWasCaptured, Razorpay))
        else if env.event == "payment.failed" && status == PaymentFailed && OrderSettled(p) then
          Some(Ruling(Recovered, OrderAlreadyPaid, Razorpay))
        else None
    else if "payment_link." <= env.event && p.res.link.Some? then
      match p.store.links[p.res.link.value].core.status
      case LinkPaid => Some(Ruling(Recovered, LinkPaidReconciled, Razorpay))
      case LinkCancelled => Some(Ruling(Stopped, LinkWasCancelled, Razorpay))
      case LinkExpired => Some(Ruling(Expired, RecoveryLinkExpired, Razorpay))
      case _ => None
    else None
  }

  /** The order is paid or owes nothing. */
  predicate OrderSettled(p: Prepared)
    requires Ready(p)
  {
    && p.res.order.Some?
    && (p.store.orders[p.res.order.value].core.status == OrderPaid
        || p.store.orders[p.res.order.value].core.amountDue == 0)
  }

  lemma Reacted(p: Prepared, env: Envelope, eventId: string, now: int, window: nat)
    requires Ready(p) && !Opens(p, env) && p.corr.Some?
    requires React(p.store, env, p.res, p.corr, p.merchant, eventId, now, window).Ok?
    ensures React(p.store, env, p.res, p.corr, p.merchant, eventId, now, window).value ==
              match Verdict(p, env)
              case None => Handled(p.store, p.corr)
              case Some(r) => Close(p.store, p.corr, r.target, r.reason, eventId)
    ensures Verdict(p, env).Some? ==> Verdict(p, env).value.actor == Razorpay
  {
    Families(env.event);
  }

  /** Every event that opens nothing: without a correlated case nothing changes at all; with one, it alone
      is decided on, by the mirror's verdict and its window. */
  lemma ClosingTable(p: Prepared, env: Envelope, eventId: string, now: int, window: nat)
    requires Ready(p) && !Opens(p, env) && Settle(p, env, eventId, now, window).Ok?
    ensures var h := Settle(p, env, eventId, now, window).value;
            && h.case_ == p.corr && h.store.links == p.store.links
            && (if p.corr.None? then h.store == p.store
                else Decided(p.store, h.store, p.corr.value, p.store.cases[p.corr.value].amount,
                             Verdict(p, env), now >= p.store.cases[p.corr.value].windowEnd, eventId))
  {
    if p.corr.Some? {
      Reacted(p, env, eventId, now, window);
      match Verdict(p, env)
      case None => LeaveDecides(p.store, p.corr.value, eventId, now);
      case Some(r) => CloseDecides(p.store, p.corr.value, r.target, r.reason, eventId, now);
    }
  }

  // ---------------------------------------------------------------- the one case an event touches

  /** Of the cases there were, and those there are now, only this one was written to. */
  predicate OnlyWritten(s: Store, t: Store, c: Option<CaseId>) {
    && |s.cases| <= |t.cases|
    && forall i :: 0 <= i < |t.cases| && c != Some(i) ==> i < |s.cases| && t.cases[i] == s.cases[i]
  }

  lemma FoundedAlone(s: Store, placed: Placed, draft: RecoveryCase, trigger: Trigger, eventId: string)
    requires Founded(s, placed, draft, trigger, eventId)
    ensures OnlyWritten(s, placed.store, Some(placed.case_))
  {
  }

  lemma WrittenTwice(s: Store, t: Store, u: Store, c: Option<CaseId>)
    requires OnlyWritten(s, t, c) && OnlyWritten(t, u, c)
    ensures OnlyWritten(s, u, c)
  {
  }

  lemma DecidedWrites(
    s: Store, t: Store, c: CaseId, amount: int, ruling: Option<Ruling>, due: bool, eventId: string)
    requires c < |s.cases| && Decided(s, t, c, amount, ruling, due, eventId)
    ensures OnlyWritten(s, t, Some(c))
  {
  }

  lemma PaymentWrites(p: Prepared, env: Envelope, eventId: string, now: int, window: nat)
    requires Ready(p) && FailedUnpaid(p, env) && Settle(p, env, eventId, now, window).Ok?
    ensures var h := Settle(p, env, eventId, now, window).value; OnlyWritten(p.store, h.store, h.case_)
  {
    FailedPaymentTable(p, env, eventId, now, window);
    var h := Settle(p, env, eventId, now, window).value;
    var placed := PaymentPlaced(p.store, p.res, p.corr, p.merchant.value, env.createdAt, eventId, window).value;
    if p.corr.None? {
      FoundedAlone(p.store, placed, FailedRow(p, env, window), PaymentFailedTrigger, eventId);
    }
    DecidedWrites(placed.store, h.store, placed.case_, PaymentAtRisk(p.store, p.res),
                  StopRuling(placed.store, p.merchant.value, placed.store.cases[placed.case_].customer),
                  now >= placed.store.cases[placed.case_].windowEnd, eventId);
    WrittenTwice(p.store, placed.store, h.store, h.case_);
  }

  lemma LinkWrites(p: Prepared, env: Envelope, eventId: string, now: int, window: nat)
    requires Ready(p) && UnpaidLink(p, env) && Settle(p, env, eventId, now, window).Ok?
    ensures var h := Settle(p, env, eventId, now, window).value; OnlyWritten(p.store, h.store, h.case_)
  {
    UnpaidLinkTable(p, env, eventId, now, window);
    var h := Settle(p, env, eventId, now, window).value;
    var placed := LinkPlaced(p.store, p.res, p.merchant.value, eventId, now, window).value;
    FoundedAlone(p.store, placed, UnpaidRow(p, env, now, window), UnpaidLinkTrigger, eventId);
    DecidedWrites(placed.store, h.store, placed.case_, ToCollect(p, env),
                  StopRuling(placed.store, p.merchant.value, placed.store.cases[placed.case_].customer),
                  now >= placed.store.cases[placed.case_].windowEnd, eventId);
    WrittenTwice(p.store, placed.store, h.store, h.case_);
  }

  /** An event writes to at most one case, the one it reports as handled: no other is changed or created. */
  lemma OnlyHandledWritten(p: Prepared, env: Envelope, eventId: string, now: int, window: nat)
    requires Ready(p) && Settle(p, env, eventId, now, window).Ok?
    ensures var h := Settle(p, env, eventId, now, window).value; OnlyWritten(p.store, h.store, h.case_)
  {
    if FailedUnpaid(p, env) {
      PaymentWrites(p, env, eventId, now, window);
    } else if UnpaidLink(p, env) {
      LinkWrites(p, env, eventId, now, window);
    } else {
      ClosingTable(p, env, eventId, now, window);
      if p.corr.Some? {
        DecidedWrites(p.store, Settle(p, env, eventId, now, window).value.store, p.corr.value,
                      p.store.cases[p.corr.value].amount, Verdict(p, env),
                      now >= p.store.cases[p.corr.value].windowEnd, eventId);
      }
    }
  }
}
