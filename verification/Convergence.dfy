/** Replaying `handle_webhook`: when a second application changes nothing, and why a third never does. */
module Convergence {
  import opened Outcomes
  import opened Lifecycle
  import opened Records
  import opened EngineSpec
  import opened EngineInvariants

  /** The stores agree on everything that decides ownership, resources and amounts. */
  predicate SameMirror(s: Store, t: Store) {
    && t.merchants == s.merchants && t.customers == s.customers
    && t.payments == s.payments && t.orders == s.orders
    && t.links.Keys == s.links.Keys
    && (forall l :: l in s.links ==> t.links[l] == s.links[l].(caseId := t.links[l].caseId))
  }

  predicate SameSources(cases: seq<RecoveryCase>, later: seq<RecoveryCase>) {
    && |cases| <= |later|
    && forall i :: 0 <= i < |cases| ==>
         later[i].merchant == cases[i].merchant && HasSource(later[i], cases[i].source, cases[i].sourceId)
  }

  lemma FindOwnedStable(
    cases: seq<RecoveryCase>, later: seq<RecoveryCase>, merchant: MerchantId, source: SourceType, id: string)
    requires SameSources(cases, later)
    ensures FindOwned(cases, merchant, source, id).Some? || |later| == |cases| ==>
              FindOwned(later, merchant, source, id) == FindOwned(cases, merchant, source, id)
  {
    if FindOwned(cases, merchant, source, id).Some? {
      FoundStays(cases, later, merchant, source, id);
    } else if |later| == |cases| {
      MissingStays(cases, later, merchant, source, id);
    }
  }

  lemma FoundStays(
    cases: seq<RecoveryCase>, later: seq<RecoveryCase>, merchant: MerchantId, source: SourceType, id: string)
    requires SameSources(cases, later) && FindOwned(cases, merchant, source, id).Some?
    ensures FindOwned(later, merchant, source, id) == FindOwned(cases, merchant, source, id)
  {
    var k := FindOwned(cases, merchant, source, id).value;
    assert HasSource(later[k], source, id) && later[k].merchant == merchant;
    var b := FindOwned(later, merchant, source, id);
    assert b.Some? && b.value <= k;
    assert HasSource(cases[b.value], source, id) && cases[b.value].merchant == merchant;
  }

  lemma MissingStays(
    cases: seq<RecoveryCase>, later: seq<RecoveryCase>, merchant: MerchantId, source: SourceType, id: string)
    requires SameSources(cases, later) && |later| == |cases| && FindOwned(cases, merchant, source, id).None?
    ensures FindOwned(later, merchant, source, id).None?
  {
  }

  // ---------------------------------------------------------------- preparing again

  /** How the rows the snapshot names look once they were ensured. */
  predicate Ensured(s: Store, t: Store, owner: Option<MerchantId>, snap: Snapshot) {
    && t.merchants == s.merchants
    && (snap.payment.Some? ==> var id := snap.payment.value.id;
         && (id in t.payments <==> id in s.payments || owner.Some?)
         && (id in s.payments ==> t.payments[id].merchant == s.payments[id].merchant)
         && (id in t.payments && id !in s.payments ==> Some(t.payments[id].merchant) == owner))
    && (snap.order.Some? ==> var id := snap.order.value.id;
         && (id in t.orders <==> id in s.orders || owner.Some?)
         && (id in s.orders ==> t.orders[id].merchant == s.orders[id].merchant)
         && (id in t.orders && id !in s.orders ==> Some(t.orders[id].merchant) == owner))
    && (snap.link.Some? ==> var id := snap.link.value.id;
         && (id in t.links <==> id in s.links || owner.Some?)
         && (id in s.links ==> t.links[id].merchant == s.links[id].merchant)
         && (id in t.links && id !in s.links ==> Some(t.links[id].merchant) == owner))
  }

  lemma EnsureEnsures(s: Store, owner: Option<MerchantId>, snap: Snapshot, now: int)
    ensures Ensured(s, EnsureResources(s, owner, snap, now), owner, snap)
  {
  }

  lemma EnsuredSame(s: Store, t: Store, u: Store, owner: Option<MerchantId>, snap: Snapshot)
    requires Ensured(s, t, owner, snap) && SameMirror(t, u)
    ensures Ensured(s, u, owner, snap)
  {
  }

  lemma PaymentOwnerStable(s: Store, u: Store, env: Envelope, snap: Snapshot)
    requires ResolveMerchant(s, env, snap).Ok? && Ensured(s, u, ResolveMerchant(s, env, snap).value, snap)
    ensures PaymentOwner(s, snap) <= PaymentOwner(u, snap) <= Owners(s, env, snap)
  {
  }

  lemma OrderOwnerStable(s: Store, u: Store, env: Envelope, snap: Snapshot)
    requires ResolveMerchant(s, env, snap).Ok? && Ensured(s, u, ResolveMerchant(s, env, snap).value, snap)
    ensures OrderOwner(s, snap) <= OrderOwner(u, snap) <= Owners(s, env, snap)
  {
  }

  lemma LinkOwnerStable(s: Store, u: Store, env: Envelope, snap: Snapshot)
    requires ResolveMerchant(s, env, snap).Ok? && Ensured(s, u, ResolveMerchant(s, env, snap).value, snap)
    ensures LinkOwner(s, snap) <= LinkOwner(u, snap) <= Owners(s, env, snap)
  {
  }

  lemma OwnersStable(s: Store, u: Store, env: Envelope, snap: Snapshot)
    requires ResolveMerchant(s, env, snap).Ok? && u.merchants == s.merchants
    requires PaymentOwner(s, snap) <= PaymentOwner(u, snap) <= Owners(s, env, snap)
    requires OrderOwner(s, snap) <= OrderOwner(u, snap) <= Owners(s, env, snap)
    requires LinkOwner(s, snap) <= LinkOwner(u, snap) <= Owners(s, env, snap)
    ensures Owners(u, env, snap) == Owners(s, env, snap)
    ensures AccountOwner(u, env) == AccountOwner(s, env)
  {
  }

  lemma ResolveStable(s: Store, u: Store, env: Envelope, snap: Snapshot)
    requires ResolveMerchant(s, env, snap).Ok? && u.merchants == s.merchants
    requires Owners(u, env, snap) == Owners(s, env, snap) && AccountOwner(u, env) == AccountOwner(s, env)
    ensures ResolveMerchant(u, env, snap) == ResolveMerchant(s, env, snap)
  {
  }

  lemma EnsureStable(s: Store, u: Store, owner: Option<MerchantId>, snap: Snapshot, now: int)
    requires Ensured(s, u, owner, snap)
    ensures EnsureResources(u, owner, snap, now) == u
  {
  }

  /** After the first application has prepared the store, preparing it again finds the same owner
      and rows and inserts nothing. */
  lemma PrepareAgain(s: Store, u: Store, env: Envelope, recon: Recon, now: int)
    requires Prepare(s, env, recon, now).Ok?
    requires SameMirror(Prepare(s, env, recon, now).value.store, u)
    ensures var p := Prepare(s, env, recon, now).value;
            Prepare(u, env, recon, now) ==
              Ok(Prepared(u, p.merchant, p.res, FindCorrelated(u, recon.caseId, p.res)))
  {
    var p := Prepare(s, env, recon, now).value;
    var snap := recon.snapshot;
    EnsureEnsures(s, p.merchant, snap, now);
    EnsuredSame(s, p.store, u, p.merchant, snap);
    PaymentOwnerStable(s, u, env, recon.snapshot);
    OrderOwnerStable(s, u, env, recon.snapshot);
    LinkOwnerStable(s, u, env, recon.snapshot);
    OwnersStable(s, u, env, snap);
    ResolveStable(s, u, env, snap);
    EnsureStable(s, u, p.merchant, snap, now);
    assert LocalResources(u, snap) == p.res;
  }

  lemma CorrelatedStable(s: Store, t: Store, hint: Option<CaseId>, res: Resources)
    requires CasesEvolve(s, t) && CaseIn(s, hint)
    requires |t.cases| == |s.cases|
    ensures FindCorrelated(t, hint, res) == FindCorrelated(s, hint, res)
  {
  }

  // ---------------------------------------------------------------- settled cases

  /** Refreshing a case after it was refreshed and expiry-checked changes nothing. */
  lemma RefreshOnce(placed: Placed, amount: int, merchant: MerchantId, eventId: string, later: string, now: int)
    requires placed.case_ < |placed.store.cases| && merchant in placed.store.merchants
    ensures var f := ExpireIfDue(Refresh(placed, amount, merchant, eventId), eventId, now);
            Refresh(Placed(f.store, placed.case_), amount, merchant, later) == f
  {
  }

  lemma RefreshLinkOnce(
    placed: Placed, link: string, amount: int, merchant: MerchantId, eventId: string, later: string, now: int)
    requires placed.case_ < |placed.store.cases| && merchant in placed.store.merchants && link in placed.store.links
    ensures var f := ExpireIfDue(RefreshLink(placed, link, amount, merchant, eventId), eventId, now);
            RefreshLink(Placed(f.store, placed.case_), link, amount, merchant, later) == f
  {
  }

  /** Closing the correlated case again, after the expiry check, does nothing. */
  lemma CloseTwice(
    s: Store, hint: Option<CaseId>, res: Resources, target: Closing, reason: Reason, eventId: string, later: string,
    now: int)
    requires CaseIn(s, hint)
    ensures var corr := FindCorrelated(s, hint, res);
            var f := ExpireIfDue(Close(s, corr, target, reason, eventId), eventId, now);
            && SameMirror(s, f.store) && FindCorrelated(f.store, hint, res) == corr
            && Close(f.store, corr, target, reason, later) == f && ExpireIfDue(f, later, now) == f
  {
    var corr := FindCorrelated(s, hint, res);
    CloseSettles(s, corr, target, reason, eventId, later, now);
    CorrelatedStable(s, ExpireIfDue(Close(s, corr, target, reason, eventId), eventId, now).store, hint, res);
  }

  lemma CloseSettles(
    s: Store, corr: Option<CaseId>, target: Closing, reason: Reason, eventId: string, later: string, now: int)
    requires CaseIn(s, corr)
    ensures var f := ExpireIfDue(Close(s, corr, target, reason, eventId), eventId, now);
            && CasesEvolve(s, f.store) && |f.store.cases| == |s.cases| && SameMirror(s, f.store)
            && Close(f.store, corr, target, reason, later) == f && ExpireIfDue(f, later, now) == f
  {
    var h := Close(s, corr, target, reason, eventId);
    CloseKeeps(s, corr, target, reason, eventId);
    ExpireKeeps(h, eventId, now);
    EvolvesTransitive(s, h.store, ExpireIfDue(h, eventId, now).store);
  }

  /** Leaving the correlated case alone, apart from the expiry check, settles at once. */
  lemma LeaveTwice(s: Store, hint: Option<CaseId>, res: Resources, eventId: string, later: string, now: int)
    requires CaseIn(s, hint)
    ensures var corr := FindCorrelated(s, hint, res);
            var f := ExpireIfDue(Handled(s, corr), eventId, now);
            && SameMirror(s, f.store) && FindCorrelated(f.store, hint, res) == corr
            && f.case_ == corr && ExpireIfDue(f, later, now) == f
  {
    var corr := FindCorrelated(s, hint, res);
    ExpirySettles(s, corr, eventId, later, now);
    CorrelatedStable(s, ExpireIfDue(Handled(s, corr), eventId, now).store, hint, res);
  }

  lemma ExpirySettles(s: Store, corr: Option<CaseId>, eventId: string, later: string, now: int)
    requires CaseIn(s, corr)
    ensures var f := ExpireIfDue(Handled(s, corr), eventId, now);
            && CasesEvolve(s, f.store) && |f.store.cases| == |s.cases| && SameMirror(s, f.store)
            && f.case_ == corr && ExpireIfDue(f, later, now) == f
  {
    ExpireKeeps(Handled(s, corr), eventId, now);
  }

  /** A case of its own is what a correlation finds right after it was created. */
  lemma CorrelatedNew(s: Store, t: Store, hint: Option<CaseId>, res: Resources, draft: RecoveryCase)
    requires FindCorrelated(s, hint, res).None? && CaseIn(s, hint)
    requires |t.cases| == |s.cases| + 1 && CasesEvolve(s, t) && SameSource(t.cases[|s.cases|], draft)
    requires (draft.source == PaymentSource && res.payment == Some(draft.sourceId))
          || (draft.source == LinkSource && res.link == Some(draft.sourceId))
    ensures FindCorrelated(t, hint, res) == Some(|s.cases|)
  {
  }

  // ---------------------------------------------------------------- payments

  function PaymentDraft(t: Store, res: Resources, merchant: MerchantId, start: int, window: nat): RecoveryCase
    requires Located(t, res) && res.payment.Some?
  {
    NewCase(merchant, OrderCustomer(t, res), PaymentSource, res.payment.value,
            PaymentAtRisk(t, res), t.payments[res.payment.value].core.currency, start, window)
  }

  /** Where the failed payment's case is, before it is refreshed. */
  function PaymentPlaced(
    t: Store, res: Resources, corr: Option<CaseId>, merchant: MerchantId, start: int,
    eventId: string, window: nat): Result<Placed, Error>
    requires Located(t, res) && res.payment.Some?
  {
    if corr.Some? then Ok(Placed(t, corr.value))
    else GetOrCreate(t, PaymentDraft(t, res, merchant, start, window), PaymentFailedTrigger, eventId)
  }

  lemma PlacedCorrelates(
    t: Store, u: Store, res: Resources, hint: Option<CaseId>, merchant: MerchantId, start: int,
    eventId: string, window: nat)
    requires Located(t, res) && res.payment.Some? && CaseIn(t, hint)
    requires var placed := PaymentPlaced(t, res, FindCorrelated(t, hint, res), merchant, start, eventId, window);
             placed.Ok? && CasesEvolve(placed.value.store, u) && |u.cases| == |placed.value.store.cases|
    ensures FindCorrelated(u, hint, res) ==
              Some(PaymentPlaced(t, res, FindCorrelated(t, hint, res), merchant, start, eventId, window).value.case_)
  {
    var corr := FindCorrelated(t, hint, res);
    var placed := PaymentPlaced(t, res, corr, merchant, start, eventId, window).value;
    if corr.Some? {
      CorrelatedStable(t, u, hint, res);
    } else {
      assert FindCase(t.cases, PaymentSource, res.payment.value).None?;
      assert placed.case_ == |t.cases|;
      assert CaseEvolves(placed.store.cases[|t.cases|], u.cases[|t.cases|]);
      forall i | 0 <= i < |t.cases| ensures CaseEvolves(t.cases[i], u.cases[i]) {
        assert CaseEvolves(placed.store.cases[i], u.cases[i]);
      }
      CorrelatedNew(t, u, hint, res, PaymentDraft(t, res, merchant, start, window));
    }
  }

  lemma OpenPaymentParts(
    t: Store, res: Resources, corr: Option<CaseId>, merchant: MerchantId, start: int, eventId: string, window: nat)
    requires Located(t, res) && CaseIn(t, corr) && merchant in t.merchants && res.payment.Some?
    requires PaymentPlaced(t, res, corr, merchant, start, eventId, window).Ok?
    ensures OpenPaymentCase(t, res, corr, merchant, start, eventId, window) ==
              Ok(Refresh(PaymentPlaced(t, res, corr, merchant, start, eventId, window).value,
                         PaymentAtRisk(t, res), merchant, eventId))
  {
  }

  lemma RefreshedKeeps(placed: Placed, amount: int, merchant: MerchantId, eventId: string, now: int)
    requires placed.case_ < |placed.store.cases| && merchant in placed.store.merchants
    ensures var f := ExpireIfDue(Refresh(placed, amount, merchant, eventId), eventId, now);
            && SameMirror(placed.store, f.store) && CasesEvolve(placed.store, f.store)
            && |f.store.cases| == |placed.store.cases|
  {
    var h := Refresh(placed, amount, merchant, eventId);
    RefreshKeeps(placed, amount, merchant, eventId);
    ExpireKeeps(h, eventId, now);
    EvolvesTransitive(placed.store, h.store, ExpireIfDue(h, eventId, now).store);
  }

  lemma OpenPaymentTwice(
    t: Store, res: Resources, hint: Option<CaseId>, merchant: MerchantId, start: int,
    eventId: string, later: string, now: int, window: nat)
    requires Located(t, res) && merchant in t.merchants && res.payment.Some? && CaseIn(t, hint)
    requires OpenPaymentCase(t, res, FindCorrelated(t, hint, res), merchant, start, eventId, window).Ok?
    ensures var h := OpenPaymentCase(t, res, FindCorrelated(t, hint, res), merchant, start, eventId, window).value;
            var f := ExpireIfDue(h, eventId, now);
            && SameMirror(t, f.store) && ExpireIfDue(f, later, now) == f
            && OpenPaymentCase(f.store, res, FindCorrelated(f.store, hint, res), merchant, start, later, window) == Ok(f)
  {
    var corr := FindCorrelated(t, hint, res);
    var amount := PaymentAtRisk(t, res);
    var placed := PaymentPlaced(t, res, corr, merchant, start, eventId, window).value;
    OpenPaymentParts(t, res, corr, merchant, start, eventId, window);
    var f := ExpireIfDue(Refresh(placed, amount, merchant, eventId), eventId, now);
    RefreshOnce(placed, amount, merchant, eventId, later, now);
    RefreshedKeeps(placed, amount, merchant, eventId, now);
    PlacedCorrelates(t, f.store, res, hint, merchant, start, eventId, window);
    assert PaymentAtRisk(f.store, res) == amount;
    OpenPaymentParts(f.store, res, Some(placed.case_), merchant, start, later, window);
  }

  /** Why a payment event that opens no case closes the correlated one, if it does. */
  function PaymentRuling(p: Prepared, env: Envelope): Option<Reason>
    requires Ready(p)
  {
    if p.res.payment.None? then None
    else
      var status := p.store.payments[p.res.payment.value].core.status;
      if status == PaymentCaptured then Some(PaymentWasCaptured)
      else if !IsFailure(env) || status != PaymentFailed || p.res.order.None? then None
      else
        var order := p.store.orders[p.res.order.value].core;
        if order.status == OrderPaid || order.amountDue <= 0 then Some(OrderAlreadyPaid) else None
  }

  function Ruled(s: Store, corr: Option<CaseId>, ruling: Option<Reason>, eventId: string): Handled
    requires CaseIn(s, corr)
  {
    if ruling.Some? then Close(s, corr, Recovered, ruling.value, eventId) else Handled(s, corr)
  }

  /** The ruling is taken from the mirror, so it is the same on every store with that mirror. */
  lemma RuledPayment(p: Prepared, u: Store, env: Envelope, eventId: string, later: string, window: nat)
    requires Ready(p) && !OpensPayment(p, env) && SameMirror(p.store, u) && CaseIn(u, p.corr)
    requires HandlePayment(p.store, env, p.res, p.corr, p.merchant, eventId, window).Ok?
    ensures HandlePayment(u, env, p.res, p.corr, p.merchant, later, window) ==
              Ok(Ruled(u, p.corr, PaymentRuling(p, env), later))
  {
  }

  lemma RuledTwice(
    s: Store, hint: Option<CaseId>, res: Resources, ruling: Option<Reason>, eventId: string, later: string, now: int)
    requires CaseIn(s, hint)
    ensures var corr := FindCorrelated(s, hint, res);
            var f := ExpireIfDue(Ruled(s, corr, ruling, eventId), eventId, now);
            && SameMirror(s, f.store) && FindCorrelated(f.store, hint, res) == corr
            && ExpireIfDue(Ruled(f.store, corr, ruling, later), later, now) == f
  {
    LeaveTwice(s, hint, res, eventId, later, now);
    if ruling.Some? {
      CloseTwice(s, hint, res, Recovered, ruling.value, eventId, later, now);
    }
  }

  lemma ClosingPaymentTwice(
    p: Prepared, env: Envelope, hint: Option<CaseId>, eventId: string, later: string, now: int, window: nat)
    requires Ready(p) && !OpensPayment(p, env) && CaseIn(p.store, hint) && p.corr == FindCorrelated(p.store, hint, p.res)
    requires HandlePayment(p.store, env, p.res, p.corr, p.merchant, eventId, window).Ok?
    ensures var f := ExpireIfDue(HandlePayment(p.store, env, p.res, p.corr, p.merchant, eventId, window).value, eventId, now);
            && SameMirror(p.store, f.store)
            && var again := HandlePayment(f.store, env, p.res, FindCorrelated(f.store, hint, p.res), p.merchant, later, window);
               again.Ok? && ExpireIfDue(again.value, later, now) == f
  {
    RuledPayment(p, p.store, env, eventId, eventId, window);
    var f := ExpireIfDue(Ruled(p.store, p.corr, PaymentRuling(p, env), eventId), eventId, now);
    RuledTwice(p.store, hint, p.res, PaymentRuling(p, env), eventId, later, now);
    RuledPayment(p, f.store, env, eventId, later, window);
  }

  lemma PaymentTwice(
    p: Prepared, env: Envelope, hint: Option<CaseId>, eventId: string, later: string, now: int, window: nat)
    requires Ready(p) && CaseIn(p.store, hint) && p.corr == FindCorrelated(p.store, hint, p.res)
    requires HandlePayment(p.store, env, p.res, p.corr, p.merchant, eventId, window).Ok?
    ensures var f := ExpireIfDue(HandlePayment(p.store, env, p.res, p.corr, p.merchant, eventId, window).value, eventId, now);
            && SameMirror(p.store, f.store)
            && var again := HandlePayment(f.store, env, p.res, FindCorrelated(f.store, hint, p.res), p.merchant, later, window);
               again.Ok? && ExpireIfDue(again.value, later, now) == f
  {
    if OpensPayment(p, env) {
      OpenPaymentTwice(p.store, p.res, hint, p.merchant.value, env.createdAt, eventId, later, now, window);
    } else {
      ClosingPaymentTwice(p, env, hint, eventId, later, now, window);
    }
  }

  // ---------------------------------------------------------------- payment links

  function LinkDraft(t: Store, res: Resources, merchant: MerchantId, now: int, window: nat): RecoveryCase
    requires Located(t, res) && res.link.Some?
  {
    NewCase(merchant, OrderCustomer(t, res), LinkSource, res.link.value,
            LinkRemaining(t.links[res.link.value].core), t.links[res.link.value].core.currency, now, window)
  }

  lemma PlacedAgain(t: Store, u: Store, placed: Placed, draft: RecoveryCase, eventId: string, later: string)
    requires !Terminal(draft.status) && GetOrCreate(t, draft, UnpaidLinkTrigger, eventId) == Ok(placed)
    requires CasesEvolve(placed.store, u) && |u.cases| == |placed.store.cases|
    ensures GetOrCreate(u, draft, UnpaidLinkTrigger, later) == Ok(Placed(u, placed.case_))
  {
  }

  /** Where the link's case is, before it is refreshed. */
  function LinkPlaced(t: Store, res: Resources, merchant: MerchantId, eventId: string, now: int, window: nat)
    : Result<Placed, Error>
    requires Located(t, res) && res.link.Some?
  {
    GetOrCreate(t, LinkDraft(t, res, merchant, now, window), UnpaidLinkTrigger, eventId)
  }

  function LinkAmount(t: Store, res: Resources): nat
    requires Located(t, res) && res.link.Some?
  {
    LinkRemaining(t.links[res.link.value].core)
  }

  lemma OpenLinkParts(t: Store, res: Resources, merchant: MerchantId, eventId: string, now: int, window: nat)
    requires Located(t, res) && merchant in t.merchants && res.link.Some?
    requires LinkPlaced(t, res, merchant, eventId, now, window).Ok?
    ensures var placed := LinkPlaced(t, res, merchant, eventId, now, window).value;
            OpenLinkCase(t, res, merchant, eventId, now, window) ==
              Ok(RefreshLink(placed, res.link.value, LinkAmount(t, res), merchant, eventId))
  {
  }

  lemma RefreshedLinkKeeps(placed: Placed, link: string, amount: int, merchant: MerchantId, eventId: string, now: int)
    requires placed.case_ < |placed.store.cases| && merchant in placed.store.merchants && link in placed.store.links
    ensures var f := ExpireIfDue(RefreshLink(placed, link, amount, merchant, eventId), eventId, now);
            && SameMirror(placed.store, f.store) && CasesEvolve(placed.store, f.store)
            && |f.store.cases| == |placed.store.cases|
  {
    var h := RefreshLink(placed, link, amount, merchant, eventId);
    var f := ExpireIfDue(h, eventId, now);
    RefreshLinkKeeps(placed, link, amount, merchant, eventId);
    ExpireKeeps(h, eventId, now);
    EvolvesTransitive(placed.store, h.store, f.store);
    RefreshedLinkMirror(placed, link, amount, merchant, eventId);
  }

  lemma RefreshedLinkMirror(placed: Placed, link: string, amount: int, merchant: MerchantId, eventId: string)
    requires placed.case_ < |placed.store.cases| && merchant in placed.store.merchants && link in placed.store.links
    ensures SameMirror(placed.store, RefreshLink(placed, link, amount, merchant, eventId).store)
  {
  }

  /** Opening the link's case again finds the same case and changes nothing. */
  lemma OpenLinkTwice(
    t: Store, res: Resources, merchant: MerchantId, eventId: string, later: string, now: int, window: nat)
    requires Located(t, res) && merchant in t.merchants && res.link.Some?
    requires OpenLinkCase(t, res, merchant, eventId, now, window).Ok?
    ensures var h := OpenLinkCase(t, res, merchant, eventId, now, window).value;
            var f := ExpireIfDue(h, eventId, now);
            && SameMirror(t, f.store) && ExpireIfDue(f, later, now) == f
            && OpenLinkCase(f.store, res, merchant, later, now, window) == Ok(f)
  {
    var placed := LinkPlaced(t, res, merchant, eventId, now, window).value;
    OpenLinkParts(t, res, merchant, eventId, now, window);
    var amount := LinkAmount(t, res);
    var f := ExpireIfDue(RefreshLink(placed, res.link.value, amount, merchant, eventId), eventId, now);
    RefreshLinkOnce(placed, res.link.value, amount, merchant, eventId, later, now);
    RefreshedLinkKeeps(placed, res.link.value, amount, merchant, eventId, now);
    var draft := LinkDraft(t, res, merchant, now, window);
    PlacedAgain(t, f.store, placed, draft, eventId, later);
    assert LinkDraft(f.store, res, merchant, now, window) == draft;
    OpenLinkParts(f.store, res, merchant, later, now, window);
  }

  /** An expired link with money left to collect, no case it belongs to, and nothing that stops a
      new one: the first application opens a live case that a replay then expires. */
  predicate OpensExpiredLink(p: Prepared)
    requires Ready(p)
  {
    && p.res.link.Some?
    && p.store.links[p.res.link.value].core.status == LinkExpired
    && LinkRemaining(p.store.links[p.res.link.value].core) > 0
    && p.corr.None?
    && p.merchant.Some?
    && StopReason(p.store, p.merchant.value, OrderCustomer(p.store, p.res)).None?
  }

  function LinkResult(p: Prepared, eventId: string, now: int, window: nat): Result<Handled, Error>
    requires Ready(p)
  {
    HandleLink(p.store, p.res, p.corr, p.merchant, eventId, now, window)
  }

  /** In every other branch the replay ends in the state and case of the first application. */
  lemma ClosingLinkTwice(
    p: Prepared, hint: Option<CaseId>, eventId: string, later: string, now: int, window: nat)
    requires Ready(p) && CaseIn(p.store, hint) && p.corr == FindCorrelated(p.store, hint, p.res)
    requires LinkResult(p, eventId, now, window).Ok? && !OpensLink(p)
    ensures var f := ExpireIfDue(LinkResult(p, eventId, now, window).value, eventId, now);
            && SameMirror(p.store, f.store) && FindCorrelated(f.store, hint, p.res) == p.corr
            && HandleLink(f.store, p.res, p.corr, p.merchant, later, now, window).Ok?
            && ExpireIfDue(HandleLink(f.store, p.res, p.corr, p.merchant, later, now, window).value, later, now) == f
  {
    LeaveTwice(p.store, hint, p.res, eventId, later, now);
    if p.res.link.Some? {
      var status := p.store.links[p.res.link.value].core.status;
      if status == LinkPaid {
        CloseTwice(p.store, hint, p.res, Recovered, LinkPaidReconciled, eventId, later, now);
      } else if status == LinkCancelled {
        CloseTwice(p.store, hint, p.res, Stopped, LinkWasCancelled, eventId, later, now);
      } else if status == LinkExpired && p.corr.Some? {
        CloseTwice(p.store, hint, p.res, Expired, RecoveryLinkExpired, eventId, later, now);
      }
    }
  }

  lemma ExpiredLinkCase(p: Prepared, hint: Option<CaseId>, eventId: string, now: int, window: nat)
    requires Ready(p) && CaseIn(p.store, hint) && p.corr == FindCorrelated(p.store, hint, p.res)
    requires LinkResult(p, eventId, now, window).Ok? && OpensLink(p)
    requires p.store.links[p.res.link.value].core.status == LinkExpired
    ensures var f := ExpireIfDue(LinkResult(p, eventId, now, window).value, eventId, now);
            && f.case_ == Some(|p.store.cases|) && |f.store.cases| == |p.store.cases| + 1
            && FindCorrelated(f.store, hint, p.res) == f.case_
  {
  }

  lemma ExpiredLinkStatus(p: Prepared, hint: Option<CaseId>, eventId: string, now: int, window: nat)
    requires Ready(p) && CaseIn(p.store, hint) && p.corr == FindCorrelated(p.store, hint, p.res)
    requires LinkResult(p, eventId, now, window).Ok? && OpensLink(p)
    requires p.store.links[p.res.link.value].core.status == LinkExpired
    ensures var f := ExpireIfDue(LinkResult(p, eventId, now, window).value, eventId, now);
            && |f.store.cases| == |p.store.cases| + 1
            && (Terminal(f.store.cases[|p.store.cases|].status) <==> !OpensExpiredLink(p))
  {
  }

  /** The replay of an expired link that opened a case closes that case. */
  lemma ExpiredLinkTwice(p: Prepared, hint: Option<CaseId>, eventId: string, now: int, window: nat)
    requires Ready(p) && CaseIn(p.store, hint) && p.corr == FindCorrelated(p.store, hint, p.res)
    requires LinkResult(p, eventId, now, window).Ok? && OpensLink(p)
    requires p.store.links[p.res.link.value].core.status == LinkExpired
    ensures var f := ExpireIfDue(LinkResult(p, eventId, now, window).value, eventId, now);
            && SameMirror(p.store, f.store)
            && f.case_ == Some(|p.store.cases|) && |f.store.cases| == |p.store.cases| + 1
            && FindCorrelated(f.store, hint, p.res) == f.case_
            && (Terminal(f.store.cases[|p.store.cases|].status) <==> !OpensExpiredLink(p))
  {
    OpenLinkTwice(p.store, p.res, p.merchant.value, eventId, eventId, now, window);
    ExpiredLinkCase(p, hint, eventId, now, window);
    ExpiredLinkStatus(p, hint, eventId, now, window);
  }

  // ---------------------------------------------------------------- the theorem

  /** `handle_webhook` as a function of the store alone. */
  function Again(s: Store, env: Envelope, recon: Recon, eventId: string, now: int, window: nat): Result<Handled, Error> {
    Handle(s, env, recon, eventId, now, window)
  }

  /** The one family a replay does not leave alone: a link event about an expired link that has money
      left to collect, belongs to no case, and whose merchant and customer let a new case go on. */
  predicate ReopensExpiredLink(s: Store, env: Envelope, recon: Recon, now: int) {
    && !IsPaymentEvent(env.event) && IsLinkEvent(env.event)
    && Prepare(s, env, recon, now).Ok? && OpensExpiredLink(Prepare(s, env, recon, now).value)
  }

  /** Settling again from the state the first application left. */
  lemma SettleTwice(
    p: Prepared, env: Envelope, hint: Option<CaseId>, eventId: string, later: string, now: int, window: nat)
    requires Ready(p) && CaseIn(p.store, hint) && p.corr == FindCorrelated(p.store, hint, p.res)
    requires Settle(p, env, eventId, now, window).Ok?
    ensures SameMirror(p.store, Settle(p, env, eventId, now, window).value.store)
    ensures var f := Settle(p, env, eventId, now, window).value;
            var q := p.(store := f.store, corr := FindCorrelated(f.store, hint, p.res));
            && Ready(q)
            && (!IsPaymentEvent(env.event) && IsLinkEvent(env.event) ==> !OpensExpiredLink(q))
            && Settle(q, env, later, now, window).Ok?
            && var g := Settle(q, env, later, now, window).value;
               && g.case_ == f.case_
               && (g.store == f.store <==>
                     !(!IsPaymentEvent(env.event) && IsLinkEvent(env.event) && OpensExpiredLink(p)))
  {
    var f := Settle(p, env, eventId, now, window).value;
    if IsPaymentEvent(env.event) {
      PaymentTwice(p, env, hint, eventId, later, now, window);
    } else if IsLinkEvent(env.event) {
      if !OpensLink(p) {
        ClosingLinkTwice(p, hint, eventId, later, now, window);
      } else if p.store.links[p.res.link.value].core.status == LinkPartiallyPaid {
        OpenLinkTwice(p.store, p.res, p.merchant.value, eventId, later, now, window);
      } else {
        ExpiredLinkTwice(p, hint, eventId, now, window);
        ExpiredLinkReplay(p, f, later, now, window);
      }
    } else {
      LeaveTwice(p.store, hint, p.res, eventId, later, now);
    }
  }

  lemma ExpiredLinkReplay(p: Prepared, f: Handled, eventId: string, now: int, window: nat)
    requires Ready(p) && OpensLink(p) && p.store.links[p.res.link.value].core.status == LinkExpired
    requires SameMirror(p.store, f.store) && f.case_ == Some(|p.store.cases|) && |f.store.cases| == |p.store.cases| + 1
    ensures HandleLink(f.store, p.res, f.case_, p.merchant, eventId, now, window)
              == Ok(Close(f.store, f.case_, Expired, RecoveryLinkExpired, eventId))
    ensures var g := ExpireIfDue(Close(f.store, f.case_, Expired, RecoveryLinkExpired, eventId), eventId, now);
            && g.case_ == f.case_
            && (g.store == f.store <==> Terminal(f.store.cases[|p.store.cases|].status))
  {
  }

  /** Applying `handle_webhook` a second time with the same envelope, reconciliation result and clock,
      under the same event id or any other, succeeds, returns the same case, and leaves the store exactly
      as it is (no new row, audit or amount) if and only if it is not a reopened expired link. */
  lemma HandleTwice(s: Store, env: Envelope, recon: Recon, eventId: string, later: string, now: int, window: nat)
    requires CaseIn(s, recon.caseId)
    requires Again(s, env, recon, eventId, now, window).Ok?
    ensures var first := Again(s, env, recon, eventId, now, window).value;
            && Again(first.store, env, recon, later, now, window).Ok?
            && var second := Again(first.store, env, recon, later, now, window).value;
               && second.case_ == first.case_
               && (second.store == first.store <==> !ReopensExpiredLink(s, env, recon, now))
  {
    var p := Prepare(s, env, recon, now).value;
    var f := Settle(p, env, eventId, now, window).value;
    SettleTwice(p, env, recon.caseId, eventId, later, now, window);
    PrepareAgain(s, f.store, env, recon, now);
  }

  /** What one application leaves behind is never a reopened expired link. */
  lemma NeverReopensAgain(s: Store, env: Envelope, recon: Recon, eventId: string, now: int, window: nat)
    requires CaseIn(s, recon.caseId) && Again(s, env, recon, eventId, now, window).Ok?
    ensures var first := Again(s, env, recon, eventId, now, window).value.store;
            CaseIn(first, recon.caseId) && !ReopensExpiredLink(first, env, recon, now)
  {
    var p := Prepare(s, env, recon, now).value;
    SettleTwice(p, env, recon.caseId, eventId, eventId, now, window);
    PrepareAgain(s, Settle(p, env, eventId, now, window).value.store, env, recon, now);
    SettleGrows(p, env, eventId, now, window);
  }

  /** Applying it a third time, under whatever ids, never changes anything. */
  lemma HandleThrice(
    s: Store, env: Envelope, recon: Recon, eventId: string, later: string, last: string, now: int, window: nat)
    requires CaseIn(s, recon.caseId)
    requires Again(s, env, recon, eventId, now, window).Ok?
    ensures var first := Again(s, env, recon, eventId, now, window).value;
            && Again(first.store, env, recon, later, now, window).Ok?
            && var second := Again(first.store, env, recon, later, now, window).value;
               Again(second.store, env, recon, last, now, window) == Ok(second)
  {
    HandleTwice(s, env, recon, eventId, later, now, window);
    NeverReopensAgain(s, env, recon, eventId, now, window);
    HandleTwice(Again(s, env, recon, eventId, now, window).value.store, env, recon, later, last, now, window);
  }

  lemma SettleGrows(p: Prepared, env: Envelope, eventId: string, now: int, window: nat)
    requires Ready(p) && Settle(p, env, eventId, now, window).Ok?
    ensures |p.store.cases| <= |Settle(p, env, eventId, now, window).value.store.cases|
  {
    if IsPaymentEvent(env.event) {
      if !OpensPayment(p, env) { ClosingPayment(p, env, eventId, window); }
    } else if IsLinkEvent(env.event) {
      if !OpensLink(p) { ClosingLink(p, eventId, now, window); }
    }
  }
}
