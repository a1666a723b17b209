/** What the engine's functions keep: one lemma per function of EngineSpec and ReconcileSpec. */
module EngineInvariants {
  import opened Outcomes
  import opened Lifecycle
  import opened Records
  import opened EngineSpec
  import opened ReconcileSpec

  // ---------------------------------------------------------------- writing rows

  /** Rewriting a case row whose identity and closure are respected. */
  lemma RowWritten(s: Store, c: CaseId, row: RecoveryCase)
    requires c < |s.cases| && CaseEvolves(s.cases[c], row)
    ensures Evolves(s, s.(cases := s.cases[c := row]))
    ensures Referential(s) ==> Referential(s.(cases := s.cases[c := row]))
  {
    var t := s.(cases := s.cases[c := row]);
    if Referential(s) {
      forall i | 0 <= i < |t.cases| ensures CaseRefsOk(t, t.cases[i]) {
        assert CaseRefsOk(s, s.cases[i]);
      }
      forall i, j | 0 <= i < j < |t.cases| ensures !SameSource(t.cases[i], t.cases[j]) {
        assert !SameSource(s.cases[i], s.cases[j]);
      }
    }
  }

  lemma Audited(s: Store, entry: Audit)
    requires entry.caseId < |s.cases|
    ensures Evolves(s, s.(audits := s.audits + [entry]))
    ensures Referential(s) ==> Referential(s.(audits := s.audits + [entry]))
    ensures AuditTrail(s) && !entry.StatusChanged? ==> AuditTrail(s.(audits := s.audits + [entry]))
  {
  }

  /** A live case's amount or experiment fields may change without touching the trail. */
  lemma LiveRowWritten(s: Store, c: CaseId, row: RecoveryCase)
    requires c < |s.cases| && CaseEvolves(s.cases[c], row) && !Terminal(s.cases[c].status)
    ensures Sound(s, s.(cases := s.cases[c := row]))
  {
    RowWritten(s, c, row);
    if AuditTrail(s) {
      forall i | 0 <= i < |s.audits| && s.audits[i].StatusChanged? ensures s.audits[i].caseId != c {
        assert s.cases[s.audits[i].caseId].status == s.audits[i].target;
      }
    }
  }

  lemma AppendedCases(s: Store, row: RecoveryCase)
    requires Referential(s) && CaseRefsOk(s, row)
    requires FindOwned(s.cases, row.merchant, row.source, row.sourceId).None?
    ensures Referential(s.(cases := s.cases + [row]))
  {
    var t := s.(cases := s.cases + [row]);
    forall i | 0 <= i < |t.cases| ensures CaseRefsOk(t, t.cases[i]) {
      assert i < |s.cases| ==> CaseRefsOk(s, s.cases[i]);
    }
    forall i, j | 0 <= i < j < |t.cases| ensures !SameSource(t.cases[i], t.cases[j]) {
      if j == |s.cases| {
        assert !(HasSource(s.cases[i], row.source, row.sourceId) && s.cases[i].merchant == row.merchant);
      } else {
        assert !SameSource(s.cases[i], s.cases[j]);
      }
    }
  }

  lemma AppendedRow(s: Store, row: RecoveryCase)
    requires FindOwned(s.cases, row.merchant, row.source, row.sourceId).None?
    requires CaseRefsOk(s, row) && row.experiment.None? && row.status == AtRisk
    ensures Keeps(s, s.(cases := s.cases + [row]))
  {
    var t := s.(cases := s.cases + [row]);
    forall i | 0 <= i < |s.cases| ensures CaseEvolves(s.cases[i], t.cases[i]) {}
    if Referential(s) {
      AppendedCases(s, row);
    }
  }

  lemma AuditedKeeps(s: Store, entry: Audit)
    requires entry.caseId < |s.cases| && !entry.StatusChanged?
    ensures Keeps(s, s.(audits := s.audits + [entry]))
  {
    Audited(s, entry);
  }

  lemma Appended(s: Store, row: RecoveryCase, entry: Audit)
    requires entry.CaseCreated? && entry.caseId == |s.cases|
    requires FindOwned(s.cases, row.merchant, row.source, row.sourceId).None?
    requires CaseRefsOk(s, row) && row.experiment.None? && row.status == AtRisk
    ensures Keeps(s, s.(cases := s.cases + [row], audits := s.audits + [entry]))
  {
    var t := s.(cases := s.cases + [row]);
    AppendedRow(s, row);
    AuditedKeeps(t, entry);
    KeepsTransitive(s, t, t.(audits := t.audits + [entry]));
  }

  // ---------------------------------------------------------------- the engine

  /** A live case closed, before the audit is written. */
  lemma ClosedRow(s: Store, c: CaseId, target: Closing)
    requires c < |s.cases| && !Terminal(s.cases[c].status)
    ensures var t := s.(cases := s.cases[c := s.cases[c].(status := target)]);
            Evolves(s, t) && (Referential(s) ==> Referential(t)) && Untried(s, t) && OnlyCloses(s, t)
  {
    RowWritten(s, c, s.cases[c].(status := target));
  }

  /** A live case has no status audit, so its closing adds the first. */
  lemma ClosedTrail(s: Store, c: CaseId, target: Closing, entry: Audit)
    requires c < |s.cases| && !Terminal(s.cases[c].status) && AuditTrail(s)
    requires entry.StatusChanged? && entry.caseId == c && entry.target == target
    ensures AuditTrail(s.(cases := s.cases[c := s.cases[c].(status := target)], audits := s.audits + [entry]))
  {
    forall i | 0 <= i < |s.audits| && s.audits[i].StatusChanged? ensures s.audits[i].caseId != c {
      assert s.cases[s.audits[i].caseId].status == s.audits[i].target;
    }
  }

  lemma TransitionKeeps(
    s: Store, c: CaseId, target: Closing, reason: Reason, actor: Actor, reference: Option<string>)
    requires c < |s.cases|
    ensures Keeps(s, Transition(s, c, target, reason, actor, reference))
  {
    if !Terminal(s.cases[c].status) {
      var t := s.(cases := s.cases[c := s.cases[c].(status := target)]);
      var entry := StatusChanged(c, s.cases[c].status, target, reason, actor, reference);
      ClosedRow(s, c, target);
      Audited(t, entry);
      EvolvesTransitive(s, t, t.(audits := s.audits + [entry]));
      if AuditTrail(s) {
        ClosedTrail(s, c, target, entry);
      }
    } else {
      KeepsReflexive(s);
    }
  }

  lemma KeepsReflexive(s: Store)
    ensures Keeps(s, s)
  {
  }

  lemma StopsKeep(s: Store, c: CaseId, merchant: MerchantId, customer: Option<CustomerId>, reference: string)
    requires c < |s.cases| && merchant in s.merchants
    ensures Keeps(s, ApplyStops(s, c, merchant, customer, reference))
  {
    var reason := StopReason(s, merchant, customer);
    if reason.Some? {
      TransitionKeeps(s, c, Stopped, reason.value, System, Some(reference));
    }
  }

  lemma ExpireKeeps(h: Handled, reference: string, now: int)
    requires CaseIn(h.store, h.case_)
    ensures Keeps(h.store, ExpireIfDue(h, reference, now).store)
  {
    if h.case_.Some? {
      TransitionKeeps(h.store, h.case_.value, Expired, WindowExpired, System, Some(reference));
    }
  }

  lemma CloseKeeps(s: Store, corr: Option<CaseId>, target: Closing, reason: Reason, eventId: string)
    requires CaseIn(s, corr)
    ensures Keeps(s, Close(s, corr, target, reason, eventId).store)
  {
    if corr.Some? {
      TransitionKeeps(s, corr.value, target, reason, Razorpay, Some(eventId));
    }
  }

  lemma GetOrCreateKeeps(s: Store, draft: RecoveryCase, trigger: Trigger, reference: string)
    requires draft.status == AtRisk && GetOrCreate(s, draft, trigger, reference).Ok?
    requires draft.merchant in s.merchants && KnownCustomer(s, draft.customer) && draft.experiment.None?
    ensures Keeps(s, GetOrCreate(s, draft, trigger, reference).value.store)
  {
    var placed := GetOrCreate(s, draft, trigger, reference).value;
    if placed.case_ == |s.cases| {
      Appended(s, draft, CaseCreated(|s.cases|, trigger, reference, draft.amount, draft.windowEnd));
    }
  }

  lemma SetAmountKeeps(s: Store, c: CaseId, amount: int)
    requires c < |s.cases|
    ensures Keeps(s, SetAmount(s, c, amount))
  {
    if !Terminal(s.cases[c].status) {
      LiveRowWritten(s, c, s.cases[c].(amount := amount));
    }
  }

  lemma AttachKeeps(s: Store, link: string, c: CaseId)
    requires link in s.links && c < |s.cases|
    ensures Keeps(s, Attach(s, link, c))
  {
    MirrorWritten(s, Attach(s, link, c));
  }

  lemma RefreshKeeps(placed: Placed, amount: int, merchant: MerchantId, eventId: string)
    requires placed.case_ < |placed.store.cases| && merchant in placed.store.merchants
    ensures Keeps(placed.store, Refresh(placed, amount, merchant, eventId).store)
  {
    var t := SetAmount(placed.store, placed.case_, amount);
    SetAmountKeeps(placed.store, placed.case_, amount);
    StopsKeep(t, placed.case_, merchant, t.cases[placed.case_].customer, eventId);
    KeepsTransitive(placed.store, t, Refresh(placed, amount, merchant, eventId).store);
  }

  lemma RefreshLinkKeeps(placed: Placed, link: string, amount: int, merchant: MerchantId, eventId: string)
    requires placed.case_ < |placed.store.cases| && merchant in placed.store.merchants && link in placed.store.links
    ensures Keeps(placed.store, RefreshLink(placed, link, amount, merchant, eventId).store)
  {
    var t := SetAmount(placed.store, placed.case_, amount);
    var u := Attach(t, link, placed.case_);
    SetAmountKeeps(placed.store, placed.case_, amount);
    AttachKeeps(t, link, placed.case_);
    StopsKeep(u, placed.case_, merchant, u.cases[placed.case_].customer, eventId);
    KeepsTransitive(placed.store, t, u);
    KeepsTransitive(placed.store, u, RefreshLink(placed, link, amount, merchant, eventId).store);
  }

  /** The order's customer is known to the database. */
  predicate CustomersKnown(s: Store, res: Resources)
    requires Located(s, res)
  {
    KnownCustomer(s, OrderCustomer(s, res))
  }

  lemma OpenPaymentKeeps(
    s: Store, res: Resources, corr: Option<CaseId>, merchant: MerchantId, start: int, eventId: string, window: nat)
    requires Located(s, res) && CaseIn(s, corr) && merchant in s.merchants && res.payment.Some? && CustomersKnown(s, res)
    requires OpenPaymentCase(s, res, corr, merchant, start, eventId, window).Ok?
    ensures Keeps(s, OpenPaymentCase(s, res, corr, merchant, start, eventId, window).value.store)
  {
    var amount := PaymentAtRisk(s, res);
    var draft := NewCase(merchant, OrderCustomer(s, res), PaymentSource, res.payment.value,
                         amount, s.payments[res.payment.value].core.currency, start, window);
    var placed := if corr.Some? then Placed(s, corr.value)
                  else GetOrCreate(s, draft, PaymentFailedTrigger, eventId).value;
    if corr.None? { GetOrCreateKeeps(s, draft, PaymentFailedTrigger, eventId); }
    RefreshKeeps(placed, amount, merchant, eventId);
    KeepsTransitive(s, placed.store, Refresh(placed, amount, merchant, eventId).store);
  }

  lemma OpenLinkKeeps(s: Store, res: Resources, merchant: MerchantId, eventId: string, now: int, window: nat)
    requires Located(s, res) && merchant in s.merchants && res.link.Some? && CustomersKnown(s, res)
    requires OpenLinkCase(s, res, merchant, eventId, now, window).Ok?
    ensures Keeps(s, OpenLinkCase(s, res, merchant, eventId, now, window).value.store)
  {
    var link := s.links[res.link.value].core;
    var draft := NewCase(merchant, OrderCustomer(s, res), LinkSource, res.link.value,
                         LinkRemaining(link), link.currency, now, window);
    GetOrCreateKeeps(s, draft, UnpaidLinkTrigger, eventId);
    var placed := GetOrCreate(s, draft, UnpaidLinkTrigger, eventId).value;
    RefreshLinkKeeps(placed, res.link.value, LinkRemaining(link), merchant, eventId);
    KeepsTransitive(s, placed.store, RefreshLink(placed, res.link.value, LinkRemaining(link), merchant, eventId).store);
  }

  lemma HandlePaymentKeeps(p: Prepared, env: Envelope, eventId: string, window: nat)
    requires Ready(p) && CustomersKnown(p.store, p.res)
    requires HandlePayment(p.store, env, p.res, p.corr, p.merchant, eventId, window).Ok?
    ensures Keeps(p.store, HandlePayment(p.store, env, p.res, p.corr, p.merchant, eventId, window).value.store)
  {
    if OpensPayment(p, env) {
      OpenPaymentKeeps(p.store, p.res, p.corr, p.merchant.value, env.createdAt, eventId, window);
    } else {
      ClosingPayment(p, env, eventId, window);
      CloseKeeps(p.store, p.corr, Recovered, PaymentWasCaptured, eventId);
      CloseKeeps(p.store, p.corr, Recovered, OrderAlreadyPaid, eventId);
    }
  }

  lemma ClosingLinkKeeps(p: Prepared, eventId: string, now: int, window: nat)
    requires Ready(p) && !OpensLink(p)
    requires HandleLink(p.store, p.res, p.corr, p.merchant, eventId, now, window).Ok?
    ensures Keeps(p.store, HandleLink(p.store, p.res, p.corr, p.merchant, eventId, now, window).value.store)
  {
    ClosingLink(p, eventId, now, window);
    KeepsReflexive(p.store);
    CloseKeeps(p.store, p.corr, Recovered, LinkPaidReconciled, eventId);
    CloseKeeps(p.store, p.corr, Stopped, LinkWasCancelled, eventId);
    CloseKeeps(p.store, p.corr, Expired, RecoveryLinkExpired, eventId);
  }

  lemma HandleLinkKeeps(p: Prepared, eventId: string, now: int, window: nat)
    requires Ready(p) && CustomersKnown(p.store, p.res)
    requires HandleLink(p.store, p.res, p.corr, p.merchant, eventId, now, window).Ok?
    ensures Keeps(p.store, HandleLink(p.store, p.res, p.corr, p.merchant, eventId, now, window).value.store)
  {
    if OpensLink(p) {
      OpenLinkKeeps(p.store, p.res, p.merchant.value, eventId, now, window);
    } else {
      ClosingLinkKeeps(p, eventId, now, window);
    }
  }

  lemma ReactKeeps(p: Prepared, env: Envelope, eventId: string, now: int, window: nat)
    requires Ready(p) && CustomersKnown(p.store, p.res)
    requires React(p.store, env, p.res, p.corr, p.merchant, eventId, now, window).Ok?
    ensures Keeps(p.store, React(p.store, env, p.res, p.corr, p.merchant, eventId, now, window).value.store)
  {
    if IsPaymentEvent(env.event) {
      HandlePaymentKeeps(p, env, eventId, window);
    } else if IsLinkEvent(env.event) {
      HandleLinkKeeps(p, eventId, now, window);
    }
  }

  lemma SettleKeeps(p: Prepared, env: Envelope, eventId: string, now: int, window: nat)
    requires Ready(p) && CustomersKnown(p.store, p.res) && Settle(p, env, eventId, now, window).Ok?
    ensures Keeps(p.store, Settle(p, env, eventId, now, window).value.store)
  {
    ReactKeeps(p, env, eventId, now, window);
    var h := React(p.store, env, p.res, p.corr, p.merchant, eventId, now, window).value;
    ExpireKeeps(h, eventId, now);
    KeepsTransitive(p.store, h.store, ExpireIfDue(h, eventId, now).store);
  }

  /** A change of mirror rows alone. */
  lemma MirrorWritten(s: Store, t: Store)
    requires t == s.(payments := t.payments, orders := t.orders, links := t.links)
    requires MirrorEvolves(s, t) && (MirrorOk(s) ==> MirrorOk(t))
    ensures Keeps(s, t)
  {
  }

  lemma EnsureOrderKeeps(s: Store, merchant: Option<MerchantId>, snap: Snapshot, now: int)
    requires merchant.Some? ==> merchant.value in s.merchants
    ensures Keeps(s, EnsureOrder(s, merchant, snap, now))
  {
    MirrorWritten(s, EnsureOrder(s, merchant, snap, now));
  }

  lemma EnsurePaymentKeeps(s: Store, merchant: Option<MerchantId>, snap: Snapshot)
    requires merchant.Some? ==> merchant.value in s.merchants
    ensures Keeps(s, EnsurePayment(s, merchant, snap))
  {
    MirrorWritten(s, EnsurePayment(s, merchant, snap));
  }

  lemma EnsureLinkKeeps(s: Store, merchant: Option<MerchantId>, snap: Snapshot)
    requires merchant.Some? ==> merchant.value in s.merchants
    ensures Keeps(s, EnsureLink(s, merchant, snap))
  {
    MirrorWritten(s, EnsureLink(s, merchant, snap));
  }

  lemma PrepareKeeps(s: Store, env: Envelope, recon: Recon, now: int)
    requires Prepare(s, env, recon, now).Ok?
    ensures Keeps(s, Prepare(s, env, recon, now).value.store)
  {
    var p := Prepare(s, env, recon, now).value;
    var snap := recon.snapshot;
    var t1 := EnsureOrder(s, p.merchant, snap, now);
    var t2 := EnsurePayment(t1, p.merchant, snap);
    EnsureOrderKeeps(s, p.merchant, snap, now);
    EnsurePaymentKeeps(t1, p.merchant, snap);
    EnsureLinkKeeps(t2, p.merchant, snap);
    KeepsTransitive(s, t1, t2);
    KeepsTransitive(s, t2, p.store);
  }

  /** Whatever `handle_webhook` accepts keeps the invariants of a referentially sound store. */
  lemma HandleKeeps(s: Store, env: Envelope, recon: Recon, eventId: string, now: int, window: nat)
    requires Referential(s) && Handle(s, env, recon, eventId, now, window).Ok?
    ensures Keeps(s, Handle(s, env, recon, eventId, now, window).value.store)
  {
    PrepareKeeps(s, env, recon, now);
    var p := Prepare(s, env, recon, now).value;
    assert CustomersKnown(p.store, p.res) by {
      assert MirrorOk(p.store);
    }
    SettleKeeps(p, env, eventId, now, window);
    KeepsTransitive(s, p.store, Settle(p, env, eventId, now, window).value.store);
  }

  // ---------------------------------------------------------------- the reconciler

  lemma SyncPaymentKeeps(s: Store, d: Option<PaymentDetails>)
    ensures Keeps(s, SyncAnyPayment(s, d))
  {
    MirrorWritten(s, SyncAnyPayment(s, d));
  }

  lemma SyncOrderKeeps(s: Store, d: Option<OrderDetails>)
    ensures Keeps(s, SyncAnyOrder(s, d))
  {
    MirrorWritten(s, SyncAnyOrder(s, d));
  }

  lemma SyncLinkKeeps(s: Store, d: Option<LinkDetails>)
    ensures Keeps(s, SyncAnyLink(s, d))
  {
    MirrorWritten(s, SyncAnyLink(s, d));
  }

  lemma ReconcileKeeps(s: Store, gw: Gateway, env: Envelope)
    requires Reconcile(s, gw, env).Ok?
    ensures Keeps(s, Reconcile(s, gw, env).value.store)
  {
    var r := ReadProvider(gw, env).value;
    var t1 := SyncAnyLink(s, r.link);
    var t2 := SyncAnyPayment(t1, r.payment);
    SyncLinkKeeps(s, r.link);
    SyncPaymentKeeps(t1, r.payment);
    SyncOrderKeeps(t2, r.order);
    KeepsTransitive(s, t1, t2);
    KeepsTransitive(s, t2, SyncAnyOrder(t2, r.order));
  }
}
