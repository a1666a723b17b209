/** What the webhook reconciler (webhooks/reconciliation.py) computes, as functions of the store. */
module ReconcileSpec {
  import opened Outcomes
  import opened Records
  import opened EngineSpec

  const PAYMENT_EVENTS: set<string> := {"payment.failed", "payment.authorized", "payment.captured"}

  const LINK_EVENTS: set<string> := {
    "payment_link.paid", "payment_link.partially_paid", "payment_link.cancelled", "payment_link.expired"
  }

  predicate Supported(event: string) {
    event in PAYMENT_EVENTS || event in LINK_EVENTS
  }

  // ---------------------------------------------------------------- the provider

  datatype PaymentDetails = PaymentDetails(id: string, core: PaymentCore, extra: PaymentExtra)
  datatype OrderDetails = OrderDetails(id: string, core: OrderCore)
  datatype LinkDetails = LinkDetails(id: string, core: LinkCore, extra: LinkExtra)

  /** The provider during one delivery: what each call would answer.  A missing id makes its call
      fail, and a closed gateway fails to open.  The answer's own id need not be the one asked for. */
  datatype Gateway = Gateway(
    opens: bool,
    payments: map<string, PaymentDetails>,
    orders: map<string, OrderDetails>,
    links: map<string, LinkDetails>)

  function Fetch<T>(answers: map<string, T>, id: string): Result<T, Error> {
    if id in answers then Ok(answers[id]) else Err(GatewayError)
  }

  // ---------------------------------------------------------------- payload ids

  function TextId(ref: RefId): (r: Option<string>)
    ensures r.Some? ==> r.value != ""
  {
    if ref.Text? && ref.id != "" then Some(ref.id) else None
  }

  function RequiredId(ref: RefId): Result<string, Error> {
    match TextId(ref)
    case Some(id) => Ok(id)
    case None => Err(RoutingError)
  }

  function NonEmpty(id: Option<string>): Option<string> {
    if id.Some? && id.value != "" then id else None
  }

  /** The order a link event asks for: the payload's, else the payment's; an id that is
      neither text nor falsy hides the payment's. */
  function OrderOf(ref: RefId, payment: Option<PaymentDetails>): Option<string> {
    if ref.NotText? then None
    else if TextId(ref).Some? then TextId(ref)
    else if payment.Some? then NonEmpty(payment.value.core.orderId)
    else None
  }

  // ---------------------------------------------------------------- syncing local rows

  function SyncPayment(s: Store, d: PaymentDetails): (t: Store)
    ensures t == s.(payments := t.payments)
    ensures t.payments.Keys == s.payments.Keys
  {
    if d.id in s.payments then
      s.(payments := s.payments[d.id := s.payments[d.id].(core := d.core, extra := d.extra)])
    else s
  }

  function SyncOrder(s: Store, d: OrderDetails): (t: Store)
    ensures t == s.(orders := t.orders)
    ensures t.orders.Keys == s.orders.Keys
  {
    if d.id in s.orders then s.(orders := s.orders[d.id := s.orders[d.id].(core := d.core)]) else s
  }

  /** A zero expiry reads as no expiry. */
  function LinkExtraOf(d: LinkDetails): LinkExtra {
    d.extra.(expireBy := if d.extra.expireBy == Some(0) then None else d.extra.expireBy)
  }

  function SyncLink(s: Store, d: LinkDetails): (t: Store)
    ensures t == s.(links := t.links)
    ensures t.links.Keys == s.links.Keys
  {
    if d.id in s.links then
      s.(links := s.links[d.id := s.links[d.id].(core := d.core, extra := LinkExtraOf(d))])
    else s
  }

  function SyncAnyPayment(s: Store, d: Option<PaymentDetails>): (t: Store)
    ensures t == s.(payments := t.payments)
    ensures t.payments.Keys == s.payments.Keys
  {
    if d.Some? then SyncPayment(s, d.value) else s
  }

  function SyncAnyOrder(s: Store, d: Option<OrderDetails>): (t: Store)
    ensures t == s.(orders := t.orders)
    ensures t.orders.Keys == s.orders.Keys
  {
    if d.Some? then SyncOrder(s, d.value) else s
  }

  function SyncAnyLink(s: Store, d: Option<LinkDetails>): (t: Store)
    ensures t == s.(links := t.links)
    ensures t.links.Keys == s.links.Keys
  {
    if d.Some? then SyncLink(s, d.value) else s
  }

  // ---------------------------------------------------------------- what was read

  /** The provider's answers a reconciliation read. */
  datatype Readings = Readings(payment: Option<PaymentDetails>, order: Option<OrderDetails>, link: Option<LinkDetails>)

  function SnapshotOf(r: Readings): Snapshot {
    Snapshot(
      if r.payment.Some? then Some(PaymentView(r.payment.value.id, r.payment.value.core)) else None,
      if r.order.Some? then Some(OrderView(r.order.value.id, r.order.value.core)) else None,
      if r.link.Some? then Some(LinkView(r.link.value.id, r.link.value.core)) else None)
  }

  function FetchAny<T>(answers: map<string, T>, id: Option<string>): Result<Option<T>, Error> {
    match id
    case None => Ok(None)
    case Some(i) =>
      var d :- Fetch(answers, i);
      Ok(Some(d))
  }

  /** The calls a delivery makes, in the reconciler's order; any of them may fail. */
  function ReadProvider(gw: Gateway, env: Envelope): Result<Readings, Error> {
    if env.event in PAYMENT_EVENTS then
      var id :- RequiredId(env.payment);
      var payment :- Fetch(gw.payments, id);
      var order :- FetchAny(gw.orders, NonEmpty(payment.core.orderId));
      Ok(Readings(Some(payment), order, None))
    else if env.event in LINK_EVENTS then
      var id :- RequiredId(env.link);
      var link :- Fetch(gw.links, id);
      var payment :- FetchAny(gw.payments, TextId(env.payment));
      var order :- FetchAny(gw.orders, OrderOf(env.order, payment));
      Ok(Readings(payment, order, Some(link)))
    else Err(RoutingError)
  }

  /** Every local row that was read takes the answer. */
  function Sync(s: Store, r: Readings): (t: Store)
    ensures t == s.(payments := t.payments, orders := t.orders, links := t.links)
    ensures t.payments.Keys == s.payments.Keys && t.orders.Keys == s.orders.Keys && t.links.Keys == s.links.Keys
  {
    var t1 := SyncAnyLink(s, r.link);
    var t2 := SyncAnyPayment(t1, r.payment);
    var t3 := SyncAnyOrder(t2, r.order);
    t3
  }

  function OrElse<T>(a: Option<T>, b: Option<T>): Option<T> {
    if a.Some? then a else b
  }

  /** The case the event belongs to: the link's own case, else the oldest case whose source is the
      link, the payment or the order, in that order. */
  function CaseOf(s: Store, r: Readings): (c: Option<CaseId>)
    ensures CaseIn(s, c)
  {
    var attached :=
      if r.link.Some? && r.link.value.id in s.links && CaseIn(s, s.links[r.link.value.id].caseId)
      then s.links[r.link.value.id].caseId else None;
    var byLink := if r.link.Some? then FindCase(s.cases, LinkSource, r.link.value.id) else None;
    var byPayment := if r.payment.Some? then FindCase(s.cases, PaymentSource, r.payment.value.id) else None;
    var byOrder := if r.order.Some? then FindCase(s.cases, OrderSource, r.order.value.id) else None;
    OrElse(attached, OrElse(byLink, OrElse(byPayment, byOrder)))
  }

  function ResourceOf(r: Readings): string
    requires r.link.Some? || r.payment.Some?
  {
    if r.link.Some? then r.link.value.id else r.payment.value.id
  }

  datatype Reconciled = Reconciled(store: Store, recon: Recon)

  /** `reconcile`. */
  function Reconcile(s: Store, gw: Gateway, env: Envelope): (r: Result<Reconciled, Error>)
    ensures r.Ok? ==> CaseIn(r.value.store, r.value.recon.caseId)
  {
    var readings :- ReadProvider(gw, env);
    var t := Sync(s, readings);
    Ok(Reconciled(t, Recon(ResourceOf(readings), CaseOf(t, readings), SnapshotOf(readings))))
  }
}
