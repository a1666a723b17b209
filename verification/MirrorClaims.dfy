/** What one successful webhook event does to the local mirror of the provider. */
module MirrorClaims {
  import opened Outcomes
  import opened Records
  import opened EngineSpec
  import opened ReconcileSpec
  import opened Convergence
  import opened EngineClaims
  import opened HandlingTable
  import opened DeliverySpec

  /** What the event read from the provider. */
  function ReadingsOf(d: Delivery): Readings
    requires ReadProvider(d.gateway, d.env).Ok?
  {
    ReadProvider(d.gateway, d.env).value
  }

  /** A payment row after an event that read it: the answer, except that a row the event itself
      inserted lacks the fields a snapshot does not carry. */
  function MirroredPayment(d: PaymentDetails, known: bool): (PaymentCore, PaymentExtra) {
    (d.core, if known then d.extra else NO_PAYMENT_EXTRA)
  }

  function MirroredLink(d: LinkDetails, known: bool): (LinkCore, LinkExtra) {
    (d.core, if known then LinkExtraOf(d) else NO_LINK_EXTRA)
  }

  /** The payment rows after an event, given those before it and what it read. */
  predicate PaymentsMirror(before: map<string, Payment>, after: map<string, Payment>, read: Option<PaymentDetails>) {
    forall p :: p in after ==>
      if read.Some? && read.value.id == p then
        (after[p].core, after[p].extra) == MirroredPayment(read.value, p in before)
      else p in before && after[p] == before[p]
  }

  predicate OrdersMirror(before: map<string, Order>, after: map<string, Order>, read: Option<OrderDetails>) {
    forall o :: o in after ==>
      if read.Some? && read.value.id == o then after[o].core == read.value.core
      else o in before && after[o] == before[o]
  }

  predicate LinksMirror(before: map<string, PaymentLink>, after: map<string, PaymentLink>, read: Option<LinkDetails>) {
    forall l :: l in after ==>
      if read.Some? && read.value.id == l then (after[l].core, after[l].extra) == MirroredLink(read.value, l in before)
      else l in before && after[l] == before[l].(caseId := after[l].caseId)
  }

  /** All mirror rows. */
  predicate MirrorsReadings(s: Store, t: Store, r: Readings) {
    && PaymentsMirror(s.payments, t.payments, r.payment)
    && OrdersMirror(s.orders, t.orders, r.order)
    && LinksMirror(s.links, t.links, r.link)
  }

  lemma SyncMirrors(s: Store, r: Readings)
    ensures MirrorsReadings(s, Sync(s, r), r)
  {
    var t1 := SyncAnyLink(s, r.link);
    var t2 := SyncAnyPayment(t1, r.payment);
    var t3 := SyncAnyOrder(t2, r.order);
    assert t3.links == t1.links && t3.payments == t2.payments && t2.orders == s.orders;
  }

  lemma EnsureOrderMirrors(s: Store, t: Store, r: Readings, owner: Option<MerchantId>, now: int)
    requires OrdersMirror(s.orders, t.orders, r.order) && t.orders.Keys == s.orders.Keys
    ensures OrdersMirror(s.orders, EnsureOrder(t, owner, SnapshotOf(r), now).orders, r.order)
  {
  }

  lemma EnsurePaymentMirrors(s: Store, t: Store, r: Readings, owner: Option<MerchantId>)
    requires PaymentsMirror(s.payments, t.payments, r.payment) && t.payments.Keys == s.payments.Keys
    ensures PaymentsMirror(s.payments, EnsurePayment(t, owner, SnapshotOf(r)).payments, r.payment)
  {
  }

  lemma EnsureLinkMirrors(s: Store, t: Store, r: Readings, owner: Option<MerchantId>)
    requires LinksMirror(s.links, t.links, r.link) && t.links.Keys == s.links.Keys
    ensures LinksMirror(s.links, EnsureLink(t, owner, SnapshotOf(r)).links, r.link)
  {
  }

  lemma EnsureMirrors(s: Store, t: Store, r: Readings, owner: Option<MerchantId>, now: int)
    requires MirrorsReadings(s, t, r)
    requires t.payments.Keys == s.payments.Keys && t.orders.Keys == s.orders.Keys && t.links.Keys == s.links.Keys
    ensures MirrorsReadings(s, EnsureResources(t, owner, SnapshotOf(r), now), r)
  {
    var t1 := EnsureOrder(t, owner, SnapshotOf(r), now);
    var t2 := EnsurePayment(t1, owner, SnapshotOf(r));
    EnsureOrderMirrors(s, t, r, owner, now);
    EnsurePaymentMirrors(s, t1, r, owner);
    EnsureLinkMirrors(s, t2, r, owner);
  }

  lemma SameMirrorMirrors(s: Store, t: Store, u: Store, r: Readings)
    requires MirrorsReadings(s, t, r) && SameMirror(t, u)
    ensures MirrorsReadings(s, u, r)
  {
  }

  /** A successful event leaves every row it read with the provider's answer, whatever its event type
      says, and every other row as it was. */
  lemma AttemptMirrors(s: Store, d: Delivery)
    requires Attempt(s, d).Ok?
    ensures ReadProvider(d.gateway, d.env).Ok?
    ensures MirrorsReadings(s, Attempt(s, d).value.store, ReadingsOf(d))
  {
    var r := ReadingsOf(d);
    var reconciled := Reconcile(s, d.gateway, d.env).value;
    SyncMirrors(s, r);
    var p := Prepare(reconciled.store, d.env, reconciled.recon, d.now).value;
    EnsureMirrors(s, reconciled.store, r, p.merchant, d.now);
    SettledRows(p, d.env, d.eventId, d.now, d.window);
    SameMirrorMirrors(s, p.store, Attempt(s, d).value.store, r);
  }

  /** What was read justifies a recovery on this event. */
  predicate ReadEvidence(r: Readings, event: string) {
    var captured := r.payment.Some? && r.payment.value.core.status == PaymentCaptured;
    var paid := r.order.Some? && r.order.value.core.status == OrderPaid;
    var nothingDue := r.order.Some? && r.order.value.core.amountDue == 0;
    if IsPaymentEvent(event) then captured || paid || nothingDue else captured && paid
  }

  /** What the provider answered in this delivery justifies a recovery. */
  predicate ProviderEvidence(d: Delivery)
    requires ReadProvider(d.gateway, d.env).Ok?
  {
    ReadEvidence(ReadingsOf(d), d.env.event)
  }

  /** Local evidence about what was just read is the provider's evidence. */
  lemma LocalEvidenceRead(s: Store, t: Store, r: Readings, event: string)
    requires MirrorsReadings(s, t, r) && Evidence(t, SnapshotOf(r), event)
    ensures ReadEvidence(r, event)
  {
  }

  /** A delivery writes to at most one case, the one its event row will name. */
  lemma DeliveredCase(s: Store, d: Delivery)
    requires Attempt(s, d).Ok?
    ensures OnlyWritten(s, Attempt(s, d).value.store, Attempt(s, d).value.caseId)
  {
    var reconciled := Reconcile(s, d.gateway, d.env).value;
    var p := Prepare(reconciled.store, d.env, reconciled.recon, d.now).value;
    OnlyHandledWritten(p, d.env, d.eventId, d.now, d.window);
  }

  /** Recovery needs evidence, for a whole delivery: a case the event turns to RECOVERED is justified
      by what the provider answered in this very delivery. */
  lemma DeliveredEvidence(s: Store, d: Delivery, i: CaseId)
    requires Attempt(s, d).Ok?
    requires i < |Attempt(s, d).value.store.cases| && Attempt(s, d).value.store.cases[i].status == Lifecycle.Recovered
    requires i < |s.cases| ==> s.cases[i].status != Lifecycle.Recovered
    ensures ReadProvider(d.gateway, d.env).Ok? && ProviderEvidence(d)
    ensures Attempt(s, d).value.caseId == Some(i)
  {
    AttemptMirrors(s, d);
    DeliveredCase(s, d);
    var reconciled := Reconcile(s, d.gateway, d.env).value;
    RecoveredNeedsEvidence(reconciled.store, d.env, reconciled.recon, d.eventId, d.now, d.window, i);
    LocalEvidenceRead(s, Attempt(s, d).value.store, ReadingsOf(d), d.env.event);
  }

  /** The answer's extra fields reach the mirror unless the event inserted the row: then they are lost
      exactly when the answer had any. */
  lemma ExtraFieldsKept(s: Store, d: Delivery)
    requires Attempt(s, d).Ok? && ReadProvider(d.gateway, d.env).Ok? && ReadingsOf(d).payment.Some?
    requires ReadingsOf(d).payment.value.id in Attempt(s, d).value.store.payments
    ensures var answer := ReadingsOf(d).payment.value;
            Attempt(s, d).value.store.payments[answer.id].extra == answer.extra <==>
              answer.id in s.payments || answer.extra == NO_PAYMENT_EXTRA
  {
    AttemptMirrors(s, d);
  }

  /** Likewise for a link's short address and expiry. */
  lemma LinkFieldsKept(s: Store, d: Delivery)
    requires Attempt(s, d).Ok? && ReadProvider(d.gateway, d.env).Ok? && ReadingsOf(d).link.Some?
    requires ReadingsOf(d).link.value.id in Attempt(s, d).value.store.links
    ensures var answer := ReadingsOf(d).link.value;
            Attempt(s, d).value.store.links[answer.id].extra == LinkExtraOf(answer) <==>
              answer.id in s.links || LinkExtraOf(answer) == NO_LINK_EXTRA
  {
    AttemptMirrors(s, d);
  }
}
