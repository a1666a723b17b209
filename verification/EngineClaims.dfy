/** Ownership, evidence, errors and amounts: what every application of `handle_webhook` guarantees. */
module EngineClaims {
  import opened Outcomes
  import opened Lifecycle
  import opened Records
  import opened EngineSpec
  import opened EngineInvariants
  import opened Convergence

  // ---------------------------------------------------------------- ownership

  /** The webhook names an account no merchant is mapped to. */
  predicate UnmappedAccount(s: Store, env: Envelope) {
    env.account.Some? && env.account.value != ""
    && forall m :: m in s.merchants ==> s.merchants[m].account != env.account
  }

  /** Ownership is refused exactly when two merchants own what the event names, or when the event comes from
      an account nobody is mapped to and names a row of a merchant that has an account of its own. */
  lemma OwnershipRefused(s: Store, env: Envelope, snap: Snapshot)
    ensures var owners := Owners(s, env, snap);
            ResolveMerchant(s, env, snap) == Err(OwnershipError) <==>
              || (exists m, n :: m in owners && n in owners && m != n)
              || (UnmappedAccount(s, env) && exists m :: m in owners && s.merchants[m].account.Some?)
  {
    var owners := Owners(s, env, snap);
    MoreThanOne(owners);
    if UnmappedAccount(s, env) {
      assert AccountOwner(s, env) == {};
    }
    if HasAccount(env) && AccountOwner(s, env) == {} {
      forall m | m in s.merchants ensures s.merchants[m].account != env.account {
        assert m !in AccountOwner(s, env);
      }
    }
    if m :| m in owners && s.merchants[m].account.Some? {
      assert Mapped(s, m);
    }
  }

  lemma MoreThanOne(owners: set<MerchantId>)
    ensures |owners| > 1 <==> exists m, n :: m in owners && n in owners && m != n
  {
    if |owners| > 1 {
      var m :| m in owners;
      assert |owners - {m}| > 0;
      var n :| n in owners - {m};
    }
    if m, n :| m in owners && n in owners && m != n {
      assert {m, n} <= owners;
      var rest := owners - {m, n};
      assert owners == rest + {m, n};
    }
  }

  /** Every local row the snapshot names belongs to this merchant. */
  predicate OwnedBy(s: Store, snap: Snapshot, m: MerchantId) {
    && (snap.payment.Some? && snap.payment.value.id in s.payments ==> s.payments[snap.payment.value.id].merchant == m)
    && (snap.order.Some? && snap.order.value.id in s.orders ==> s.orders[snap.order.value.id].merchant == m)
    && (snap.link.Some? && snap.link.value.id in s.links ==> s.links[snap.link.value.id].merchant == m)
  }

  predicate NamesNoRow(s: Store, snap: Snapshot) {
    LocalResources(s, snap) == Resources(None, None, None)
  }

  lemma PreparedOwner(s: Store, env: Envelope, recon: Recon, now: int)
    requires MirrorOk(s) && Prepare(s, env, recon, now).Ok?
    ensures var p := Prepare(s, env, recon, now).value;
            && (p.merchant.None? ==> NamesNoRow(p.store, recon.snapshot) && AccountOwner(s, env) == {})
            && (p.merchant.Some? ==> OwnedBy(p.store, recon.snapshot, p.merchant.value)
                                     && AccountOwner(s, env) <= {p.merchant.value})
  {
  }

  /** Cases are only added, and the new ones belong to this merchant. */
  predicate AddedFor(s: Store, t: Store, merchant: Option<MerchantId>) {
    && |s.cases| <= |t.cases|
    && forall i :: |s.cases| <= i < |t.cases| ==> Some(t.cases[i].merchant) == merchant
  }

  lemma NewPaymentCases(p: Prepared, env: Envelope, eventId: string, window: nat)
    requires Ready(p) && HandlePayment(p.store, env, p.res, p.corr, p.merchant, eventId, window).Ok?
    ensures AddedFor(p.store, HandlePayment(p.store, env, p.res, p.corr, p.merchant, eventId, window).value.store, p.merchant)
  {
    if OpensPayment(p, env) {
      OpenPaymentParts(p.store, p.res, p.corr, p.merchant.value, env.createdAt, eventId, window);
    } else {
      ClosingPayment(p, env, eventId, window);
    }
  }

  lemma NewLinkCases(p: Prepared, eventId: string, now: int, window: nat)
    requires Ready(p) && HandleLink(p.store, p.res, p.corr, p.merchant, eventId, now, window).Ok?
    ensures AddedFor(p.store, HandleLink(p.store, p.res, p.corr, p.merchant, eventId, now, window).value.store, p.merchant)
  {
    if OpensLink(p) {
      OpenLinkParts(p.store, p.res, p.merchant.value, eventId, now, window);
    } else {
      ClosingLink(p, eventId, now, window);
    }
  }

  lemma ExpiryAddsNone(h: Handled, s: Store, merchant: Option<MerchantId>, eventId: string, now: int)
    requires CaseIn(h.store, h.case_) && AddedFor(s, h.store, merchant)
    ensures AddedFor(s, ExpireIfDue(h, eventId, now).store, merchant)
  {
  }

  /** New cases belong to the merchant the resources were resolved to. */
  lemma NewCasesOwned(p: Prepared, env: Envelope, eventId: string, now: int, window: nat)
    requires Ready(p) && Settle(p, env, eventId, now, window).Ok?
    ensures AddedFor(p.store, Settle(p, env, eventId, now, window).value.store, p.merchant)
  {
    if IsPaymentEvent(env.event) {
      NewPaymentCases(p, env, eventId, window);
    } else if IsLinkEvent(env.event) {
      NewLinkCases(p, eventId, now, window);
    }
    var h := React(p.store, env, p.res, p.corr, p.merchant, eventId, now, window).value;
    ExpiryAddsNone(h, p.store, p.merchant, eventId, now);
  }

  lemma PaymentRowsStay(p: Prepared, env: Envelope, eventId: string, window: nat)
    requires Ready(p) && HandlePayment(p.store, env, p.res, p.corr, p.merchant, eventId, window).Ok?
    ensures SameMirror(p.store, HandlePayment(p.store, env, p.res, p.corr, p.merchant, eventId, window).value.store)
  {
    if OpensPayment(p, env) {
      OpenPaymentParts(p.store, p.res, p.corr, p.merchant.value, env.createdAt, eventId, window);
    } else {
      ClosingPayment(p, env, eventId, window);
    }
  }

  lemma LinkRowsStay(p: Prepared, eventId: string, now: int, window: nat)
    requires Ready(p) && HandleLink(p.store, p.res, p.corr, p.merchant, eventId, now, window).Ok?
    ensures SameMirror(p.store, HandleLink(p.store, p.res, p.corr, p.merchant, eventId, now, window).value.store)
  {
    if OpensLink(p) {
      OpenLinkParts(p.store, p.res, p.merchant.value, eventId, now, window);
    } else {
      ClosingLink(p, eventId, now, window);
    }
  }

  lemma SettledRows(p: Prepared, env: Envelope, eventId: string, now: int, window: nat)
    requires Ready(p) && Settle(p, env, eventId, now, window).Ok?
    ensures SameMirror(p.store, Settle(p, env, eventId, now, window).value.store)
  {
    if IsPaymentEvent(env.event) {
      PaymentRowsStay(p, env, eventId, window);
    } else if IsLinkEvent(env.event) {
      LinkRowsStay(p, eventId, now, window);
    }
  }

  /** Ownership agreement: when `handle_webhook` returns, either no local row is named at all, or all
      of them, and every case it created, belong to one merchant, the account's if it has one. */
  lemma OwnershipAgrees(s: Store, env: Envelope, recon: Recon, eventId: string, now: int, window: nat)
    requires MirrorOk(s) && Handle(s, env, recon, eventId, now, window).Ok? && CaseIn(s, recon.caseId)
    ensures var h := Handle(s, env, recon, eventId, now, window).value;
            || (NamesNoRow(h.store, recon.snapshot) && |h.store.cases| == |s.cases| && AccountOwner(s, env) == {})
            || (exists m ::
                  && m in s.merchants && OwnedBy(h.store, recon.snapshot, m) && AccountOwner(s, env) <= {m}
                  && forall i :: |s.cases| <= i < |h.store.cases| ==> h.store.cases[i].merchant == m)
  {
    var p := Prepare(s, env, recon, now).value;
    var h := Settle(p, env, eventId, now, window).value;
    PreparedOwner(s, env, recon, now);
    NewCasesOwned(p, env, eventId, now, window);
    SettledRows(p, env, eventId, now, window);
    if p.merchant.Some? {
      assert OwnedBy(h.store, recon.snapshot, p.merchant.value);
    } else {
      assert LocalResources(h.store, recon.snapshot) == LocalResources(p.store, recon.snapshot);
    }
  }

  // ---------------------------------------------------------------- errors

  /** A paid link without both a captured payment and a paid order. */
  predicate PaidWithoutEvidence(p: Prepared)
    requires Ready(p)
  {
    && p.res.link.Some? && p.store.links[p.res.link.value].core.status == LinkPaid
    && !(&& p.res.payment.Some? && p.store.payments[p.res.payment.value].core.status == PaymentCaptured
         && p.res.order.Some? && p.store.orders[p.res.order.value].core.status == OrderPaid)
  }

  /** The row a failed payment would insert is not a valid case. */
  predicate InvalidPaymentCase(p: Prepared, env: Envelope, window: nat)
    requires Ready(p)
  {
    && OpensPayment(p, env) && p.corr.None?
    && FindOwned(p.store.cases, p.merchant.value, PaymentSource, p.res.payment.value).None?
    && !ValidCase(PaymentDraft(p.store, p.res, p.merchant.value, env.createdAt, window))
  }

  /** The row an unpaid link would insert is not a valid case. */
  predicate InvalidLinkCase(p: Prepared, now: int, window: nat)
    requires Ready(p)
  {
    && OpensLink(p)
    && FindOwned(p.store.cases, p.merchant.value, LinkSource, p.res.link.value).None?
    && !ValidCase(LinkDraft(p.store, p.res, p.merchant.value, now, window))
  }

  /** With foreign keys in force the two "without merchant ownership" errors cannot be raised once
      the owner is resolved: what is left to fail is a paid link without evidence and a new case
      that is not valid, and each of them does fail. */
  lemma SettleFails(s: Store, env: Envelope, recon: Recon, eventId: string, now: int, window: nat)
    requires MirrorOk(s) && Prepare(s, env, recon, now).Ok?
    ensures var p := Prepare(s, env, recon, now).value;
            var isLink := !IsPaymentEvent(env.event) && IsLinkEvent(env.event);
            var r := Settle(p, env, eventId, now, window);
            && (r == Err(EngineError) <==> isLink && PaidWithoutEvidence(p))
            && (r == Err(ValidationError) <==>
                  || (IsPaymentEvent(env.event) && InvalidPaymentCase(p, env, window))
                  || (isLink && InvalidLinkCase(p, now, window)))
            && (r.Err? ==> r.error == EngineError || r.error == ValidationError)
  {
    var p := Prepare(s, env, recon, now).value;
    PreparedOwner(s, env, recon, now);
    if IsPaymentEvent(env.event) {
      if OpensPayment(p, env) {
        PaymentFailsParts(p, env, eventId, window);
      }
    } else if IsLinkEvent(env.event) {
      if OpensLink(p) {
        LinkFailsParts(p, eventId, now, window);
      }
    }
  }

  lemma PaymentFailsParts(p: Prepared, env: Envelope, eventId: string, window: nat)
    requires Ready(p) && OpensPayment(p, env)
    ensures var r := HandlePayment(p.store, env, p.res, p.corr, p.merchant, eventId, window);
            && (r.Err? <==> InvalidPaymentCase(p, env, window))
            && (r.Err? ==> r.error == ValidationError)
  {
  }

  lemma LinkFailsParts(p: Prepared, eventId: string, now: int, window: nat)
    requires Ready(p) && OpensLink(p)
    ensures var r := HandleLink(p.store, p.res, p.corr, p.merchant, eventId, now, window);
            && (r.Err? <==> InvalidLinkCase(p, now, window))
            && (r.Err? ==> r.error == ValidationError)
  {
  }

  // ---------------------------------------------------------------- evidence

  predicate CapturedLocally(s: Store, snap: Snapshot) {
    && snap.payment.Some? && snap.payment.value.id in s.payments
    && s.payments[snap.payment.value.id].core.status == PaymentCaptured
  }

  predicate OrderPaidLocally(s: Store, snap: Snapshot) {
    && snap.order.Some? && snap.order.value.id in s.orders
    && s.orders[snap.order.value.id].core.status == OrderPaid
  }

  predicate NothingDueLocally(s: Store, snap: Snapshot) {
    && snap.order.Some? && snap.order.value.id in s.orders
    && s.orders[snap.order.value.id].core.amountDue == 0
  }

  /** What justifies a recovery: a payment event needs a captured payment or an order that is paid or
      owes nothing, a link event both a captured payment and a paid order. */
  predicate Evidence(s: Store, snap: Snapshot, event: string) {
    if IsPaymentEvent(event) then
      CapturedLocally(s, snap) || OrderPaidLocally(s, snap) || NothingDueLocally(s, snap)
    else CapturedLocally(s, snap) && OrderPaidLocally(s, snap)
  }

  /** No case is RECOVERED that was not before. */
  predicate NoneRecovered(s: Store, t: Store) {
    forall i :: 0 <= i < |t.cases| && t.cases[i].status == Recovered ==>
      i < |s.cases| && s.cases[i].status == Recovered
  }

  lemma RefreshRecoversNone(placed: Placed, amount: int, merchant: MerchantId, eventId: string)
    requires placed.case_ < |placed.store.cases| && merchant in placed.store.merchants
    ensures NoneRecovered(placed.store, Refresh(placed, amount, merchant, eventId).store)
  {
  }

  lemma RefreshLinkRecoversNone(placed: Placed, link: string, amount: int, merchant: MerchantId, eventId: string)
    requires placed.case_ < |placed.store.cases| && merchant in placed.store.merchants && link in placed.store.links
    ensures NoneRecovered(placed.store, RefreshLink(placed, link, amount, merchant, eventId).store)
  {
  }

  /** A reaction recovers a case only on evidence. */
  lemma ReactRecovers(p: Prepared, env: Envelope, snap: Snapshot, eventId: string, now: int, window: nat)
    requires Ready(p) && p.res == LocalResources(p.store, snap)
    requires React(p.store, env, p.res, p.corr, p.merchant, eventId, now, window).Ok?
    ensures Evidence(p.store, snap, env.event)
            || NoneRecovered(p.store, React(p.store, env, p.res, p.corr, p.merchant, eventId, now, window).value.store)
  {
    if IsPaymentEvent(env.event) {
      if OpensPayment(p, env) {
        OpenedPaymentRecoversNone(p, env, eventId, window);
      }
    } else if IsLinkEvent(env.event) {
      if OpensLink(p) {
        OpenedLinkRecoversNone(p, eventId, now, window);
      }
    }
  }

  lemma OpenedPaymentRecoversNone(p: Prepared, env: Envelope, eventId: string, window: nat)
    requires Ready(p) && OpensPayment(p, env)
    requires HandlePayment(p.store, env, p.res, p.corr, p.merchant, eventId, window).Ok?
    ensures NoneRecovered(p.store, HandlePayment(p.store, env, p.res, p.corr, p.merchant, eventId, window).value.store)
  {
    OpenPaymentParts(p.store, p.res, p.corr, p.merchant.value, env.createdAt, eventId, window);
    var placed := PaymentPlaced(p.store, p.res, p.corr, p.merchant.value, env.createdAt, eventId, window).value;
    RefreshRecoversNone(placed, PaymentAtRisk(p.store, p.res), p.merchant.value, eventId);
  }

  lemma OpenedLinkRecoversNone(p: Prepared, eventId: string, now: int, window: nat)
    requires Ready(p) && OpensLink(p)
    requires HandleLink(p.store, p.res, p.corr, p.merchant, eventId, now, window).Ok?
    ensures NoneRecovered(p.store, HandleLink(p.store, p.res, p.corr, p.merchant, eventId, now, window).value.store)
  {
    OpenLinkParts(p.store, p.res, p.merchant.value, eventId, now, window);
    var placed := LinkPlaced(p.store, p.res, p.merchant.value, eventId, now, window).value;
    RefreshLinkRecoversNone(placed, p.res.link.value, LinkAmount(p.store, p.res), p.merchant.value, eventId);
  }

  lemma EvidenceStays(s: Store, t: Store, snap: Snapshot, event: string)
    requires SameMirror(s, t)
    ensures Evidence(s, snap, event) <==> Evidence(t, snap, event)
  {
  }

  lemma ExpiryRecoversNone(h: Handled, eventId: string, now: int)
    requires CaseIn(h.store, h.case_)
    ensures NoneRecovered(h.store, ExpireIfDue(h, eventId, now).store)
  {
  }

  lemma SettleRecovers(p: Prepared, env: Envelope, snap: Snapshot, eventId: string, now: int, window: nat)
    requires Ready(p) && p.res == LocalResources(p.store, snap) && Settle(p, env, eventId, now, window).Ok?
    ensures Evidence(Settle(p, env, eventId, now, window).value.store, snap, env.event)
            || NoneRecovered(p.store, Settle(p, env, eventId, now, window).value.store)
  {
    var h := React(p.store, env, p.res, p.corr, p.merchant, eventId, now, window).value;
    var f := Settle(p, env, eventId, now, window).value;
    ReactRecovers(p, env, snap, eventId, now, window);
    ExpiryRecoversNone(h, eventId, now);
    SettledRows(p, env, eventId, now, window);
    EvidenceStays(p.store, f.store, snap, env.event);
  }

  /** Recovery needs evidence: a case `handle_webhook` turns to RECOVERED is justified by the mirror
      it leaves behind. */
  lemma RecoveredNeedsEvidence(
    s: Store, env: Envelope, recon: Recon, eventId: string, now: int, window: nat, i: CaseId)
    requires Handle(s, env, recon, eventId, now, window).Ok?
    requires i < |Handle(s, env, recon, eventId, now, window).value.store.cases|
    requires Handle(s, env, recon, eventId, now, window).value.store.cases[i].status == Recovered
    requires i < |s.cases| ==> s.cases[i].status != Recovered
    ensures Evidence(Handle(s, env, recon, eventId, now, window).value.store, recon.snapshot, env.event)
  {
    var p := Prepare(s, env, recon, now).value;
    SettleRecovers(p, env, recon.snapshot, eventId, now, window);
  }

  // ---------------------------------------------------------------- amounts

  /** A failed payment of amount zero about a live case that is already known. */
  predicate ZeroAmount(p: Prepared, env: Envelope)
    requires Ready(p)
  {
    && IsPaymentEvent(env.event) && OpensPayment(p, env) && PaymentAtRisk(p.store, p.res) == 0
    && p.corr.Some? && !Terminal(p.store.cases[p.corr.value].status)
  }

  lemma RefreshAmounts(placed: Placed, amount: int, merchant: MerchantId, eventId: string)
    requires placed.case_ < |placed.store.cases| && merchant in placed.store.merchants && AmountsOk(placed.store)
    ensures AmountsOk(Refresh(placed, amount, merchant, eventId).store) <==>
              amount > 0 || Terminal(placed.store.cases[placed.case_].status)
  {
  }

  lemma RefreshLinkAmounts(placed: Placed, link: string, amount: int, merchant: MerchantId, eventId: string)
    requires placed.case_ < |placed.store.cases| && merchant in placed.store.merchants && link in placed.store.links
    requires AmountsOk(placed.store) && amount > 0
    ensures AmountsOk(RefreshLink(placed, link, amount, merchant, eventId).store)
  {
  }

  lemma ExpireAmounts(h: Handled, reference: string, now: int)
    requires CaseIn(h.store, h.case_)
    ensures AmountsOk(ExpireIfDue(h, reference, now).store) <==> AmountsOk(h.store)
  {
    var f := ExpireIfDue(h, reference, now);
    assert forall i :: 0 <= i < |f.store.cases| ==> f.store.cases[i].amount == h.store.cases[i].amount;
  }

  lemma ReactAmounts(p: Prepared, env: Envelope, hint: Option<CaseId>, eventId: string, now: int, window: nat)
    requires Ready(p) && AmountsOk(p.store) && p.corr == FindCorrelated(p.store, hint, p.res)
    requires React(p.store, env, p.res, p.corr, p.merchant, eventId, now, window).Ok?
    ensures AmountsOk(React(p.store, env, p.res, p.corr, p.merchant, eventId, now, window).value.store) <==>
              !ZeroAmount(p, env)
  {
    if IsPaymentEvent(env.event) {
      if OpensPayment(p, env) {
        OpenPaymentParts(p.store, p.res, p.corr, p.merchant.value, env.createdAt, eventId, window);
        var placed := PaymentPlaced(p.store, p.res, p.corr, p.merchant.value, env.createdAt, eventId, window).value;
        if p.corr.None? {
          assert FindCase(p.store.cases, PaymentSource, p.res.payment.value).None?;
          assert placed.case_ == |p.store.cases|;
        }
        RefreshAmounts(placed, PaymentAtRisk(p.store, p.res), p.merchant.value, eventId);
      } else {
        ClosingPayment(p, env, eventId, window);
      }
    } else if IsLinkEvent(env.event) {
      if OpensLink(p) {
        OpenLinkParts(p.store, p.res, p.merchant.value, eventId, now, window);
        var placed := LinkPlaced(p.store, p.res, p.merchant.value, eventId, now, window).value;
        RefreshLinkAmounts(placed, p.res.link.value, LinkAmount(p.store, p.res), p.merchant.value, eventId);
      } else {
        ClosingLink(p, eventId, now, window);
      }
    }
  }

  /** Of the keys, references and ranges a commit checks, an accepted event can only break the positive
      amount, and it breaks it exactly when a failed payment of amount zero meets a live case. */
  lemma CommitCanFail(s: Store, env: Envelope, recon: Recon, eventId: string, now: int, window: nat)
    requires Consistent(s) && Handle(s, env, recon, eventId, now, window).Ok?
    ensures Referential(Handle(s, env, recon, eventId, now, window).value.store)
    ensures Consistent(Handle(s, env, recon, eventId, now, window).value.store) <==>
              !ZeroAmount(Prepare(s, env, recon, now).value, env)
  {
    HandleKeeps(s, env, recon, eventId, now, window);
    var p := Prepare(s, env, recon, now).value;
    ReactAmounts(p, env, recon.caseId, eventId, now, window);
    ExpireAmounts(React(p.store, env, p.res, p.corr, p.merchant, eventId, now, window).value, eventId, now);
  }
}
