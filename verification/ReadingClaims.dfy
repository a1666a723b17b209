/** What a delivery reads from the provider, and what the reconciler makes of it (webhooks/reconciliation.py):
    which calls it makes, when it fails, which rows it writes and which case it finds. */
module ReadingClaims {
  import opened Outcomes
  import opened Records
  import opened EngineSpec
  import opened ReconcileSpec
  import opened HandlingTable

  predicate PaymentNews(event: string) {
    event == "payment.failed" || event == "payment.authorized" || event == "payment.captured"
  }

  predicate LinkNews(event: string) {
    event == "payment_link.paid" || event == "payment_link.partially_paid"
    || event == "payment_link.cancelled" || event == "payment_link.expired"
  }

  // ---------------------------------------------------------------- calls

  /** The text a payload holds as an id. */
  function PayloadText(ref: RefId): Option<string> {
    if ref.Text? then Some(ref.id) else None
  }

  /** An id that is absent or empty is not asked for; any other has to be answered. */
  predicate Answered<T>(answers: map<string, T>, id: Option<string>) {
    id.Some? && id.value != "" ==> id.value in answers
  }

  function Answer<T>(answers: map<string, T>, id: Option<string>): Option<T>
    requires Answered(answers, id)
  {
    if id.Some? && id.value != "" then Some(answers[id.value]) else None
  }

  /** The order a link event is about: the payload's, else the payment's; an id that is not a text hides
      the payment's. */
  function WantedOrder(env: Envelope, payment: Option<PaymentDetails>): Option<string> {
    match env.order
    case NotText => None
    case Text(id) => if id == "" && payment.Some? then payment.value.core.orderId else Some(id)
    case Absent => if payment.Some? then payment.value.core.orderId else None
  }

  // ---------------------------------------------------------------- results

  /** The rows that were read take the answers, and nothing else changes. */
  predicate Learned(
    s: Store, t: Store, payment: Option<PaymentDetails>, order: Option<OrderDetails>, link: Option<LinkDetails>) {
    && t == s.(payments := t.payments, orders := t.orders, links := t.links)
    && t.payments.Keys == s.payments.Keys && t.orders.Keys == s.orders.Keys && t.links.Keys == s.links.Keys
    && (forall p :: p in s.payments ==>
          t.payments[p] == if payment.Some? && payment.value.id == p
          then Payment(s.payments[p].merchant, payment.value.core, payment.value.extra) else s.payments[p])
    && (forall o :: o in s.orders ==>
          t.orders[o] == if order.Some? && order.value.id == o
          then Order(s.orders[o].merchant, s.orders[o].customer, s.orders[o].createdAt, order.value.core) else s.orders[o])
    && (forall l :: l in s.links ==>
          t.links[l] == if link.Some? && link.value.id == l
          then PaymentLink(s.links[l].merchant, s.links[l].orderId, s.links[l].caseId, link.value.core,
                           LinkExtra(link.value.extra.shortUrl,
                                     if link.value.extra.expireBy == Some(0) then None else link.value.extra.expireBy))
          else s.links[l])
  }

  function IdOf(payment: Option<PaymentDetails>): Option<string> {
    if payment.Some? then Some(payment.value.id) else None
  }

  function OrderIdOf(order: Option<OrderDetails>): Option<string> {
    if order.Some? then Some(order.value.id) else None
  }

  /** What the engine is handed: the answers, and the case they are about. */
  ghost predicate Reported(
    s: Store, recon: Recon, payment: Option<PaymentDetails>, order: Option<OrderDetails>, link: Option<LinkDetails>) {
    && (recon.snapshot.payment ==
          if payment.Some? then Some(PaymentView(payment.value.id, payment.value.core)) else None)
    && (recon.snapshot.order == if order.Some? then Some(OrderView(order.value.id, order.value.core)) else None)
    && (recon.snapshot.link == if link.Some? then Some(LinkView(link.value.id, link.value.core)) else None)
    && if link.Some? && link.value.id in s.links && s.links[link.value.id].caseId.Some?
          && s.links[link.value.id].caseId.value < |s.cases|
       then recon.caseId == s.links[link.value.id].caseId
       else FirstSourced(s.cases, if link.Some? then Some(link.value.id) else None, IdOf(payment), OrderIdOf(order),
                         recon.caseId)
  }

  lemma SyncLearns(s: Store, r: Readings)
    ensures Learned(s, Sync(s, r), r.payment, r.order, r.link)
  {
    var t1 := SyncAnyLink(s, r.link);
    var t2 := SyncAnyPayment(t1, r.payment);
    assert SyncAnyOrder(t2, r.order).links == t1.links;
  }

  lemma CaseReported(s: Store, r: Readings, resourceId: string)
    ensures Reported(s, Recon(resourceId, CaseOf(s, r), SnapshotOf(r)), r.payment, r.order, r.link)
  {
  }

  lemma ReconcileReads(s: Store, gw: Gateway, env: Envelope)
    requires ReadProvider(gw, env).Ok?
    ensures var r, done := ReadProvider(gw, env).value, Reconcile(s, gw, env);
            && done.Ok? && done.value.recon.resourceId == ResourceOf(r)
            && Learned(s, done.value.store, r.payment, r.order, r.link)
            && Reported(done.value.store, done.value.recon, r.payment, r.order, r.link)
  {
    var r := ReadProvider(gw, env).value;
    SyncLearns(s, r);
    CaseReported(Sync(s, r), r, ResourceOf(r));
  }

  // ---------------------------------------------------------------- the events

  lemma PaymentCalls(gw: Gateway, env: Envelope)
    requires PaymentNews(env.event)
    ensures var id := PayloadText(env.payment);
            ReadProvider(gw, env) ==
              if id.None? || id.value == "" then Err(RoutingError)
              else if id.value !in gw.payments || !Answered(gw.orders, gw.payments[id.value].core.orderId) then
                Err(GatewayError)
              else
                Ok(Readings(Some(gw.payments[id.value]), Answer(gw.orders, gw.payments[id.value].core.orderId), None))
  {
  }

  /** A payment event reads the payload's payment and that payment's order; it fails exactly if the payload
      has no payment id or a call fails. */
  lemma PaymentEventReads(s: Store, gw: Gateway, env: Envelope)
    requires PaymentNews(env.event)
    ensures var id, r := PayloadText(env.payment), Reconcile(s, gw, env);
            if id.None? || id.value == "" then r == Err(RoutingError)
            else if id.value !in gw.payments || !Answered(gw.orders, gw.payments[id.value].core.orderId) then
              r == Err(GatewayError)
            else
              var payment := gw.payments[id.value];
              var order := Answer(gw.orders, payment.core.orderId);
              && r.Ok? && r.value.recon.resourceId == payment.id
              && Learned(s, r.value.store, Some(payment), order, None)
              && Reported(r.value.store, r.value.recon, Some(payment), order, None)
  {
    PaymentCalls(gw, env);
    if ReadProvider(gw, env).Ok? {
      ReconcileReads(s, gw, env);
    }
  }

  lemma LinkCalls(gw: Gateway, env: Envelope)
    requires LinkNews(env.event)
    ensures var id := PayloadText(env.link);
            ReadProvider(gw, env) ==
              if id.None? || id.value == "" then Err(RoutingError)
              else if id.value !in gw.links || !Answered(gw.payments, PayloadText(env.payment)) then Err(GatewayError)
              else
                var payment := Answer(gw.payments, PayloadText(env.payment));
                if !Answered(gw.orders, WantedOrder(env, payment)) then Err(GatewayError)
                else Ok(Readings(payment, Answer(gw.orders, WantedOrder(env, payment)), Some(gw.links[id.value])))
  {
  }

  /** A link event reads the payload's link, the payload's payment if it names one, and the order of the
      payload or of the payment; it fails exactly if the payload has no link id or a call fails. */
  lemma LinkEventReads(s: Store, gw: Gateway, env: Envelope)
    requires LinkNews(env.event)
    ensures var id, r := PayloadText(env.link), Reconcile(s, gw, env);
            if id.None? || id.value == "" then r == Err(RoutingError)
            else if id.value !in gw.links || !Answered(gw.payments, PayloadText(env.payment)) then r == Err(GatewayError)
            else
              var payment := Answer(gw.payments, PayloadText(env.payment));
              if !Answered(gw.orders, WantedOrder(env, payment)) then r == Err(GatewayError)
              else
                var link, order := gw.links[id.value], Answer(gw.orders, WantedOrder(env, payment));
                && r.Ok? && r.value.recon.resourceId == link.id
                && Learned(s, r.value.store, payment, order, Some(link))
                && Reported(r.value.store, r.value.recon, payment, order, Some(link))
  {
    LinkCalls(gw, env);
    if ReadProvider(gw, env).Ok? {
      ReconcileReads(s, gw, env);
    }
  }

  /** Every other event is refused. */
  lemma OtherEventsRefused(s: Store, gw: Gateway, env: Envelope)
    requires !PaymentNews(env.event) && !LinkNews(env.event)
    ensures Reconcile(s, gw, env) == Err(RoutingError)
  {
  }
}
