/** The recovery engine (recovery/engine.py) at work on a session, proved against EngineSpec and SweepSpec. */
module RecoveryEngine {
  import opened Outcomes
  import opened Lifecycle
  import opened Records
  import opened Database
  import opened EngineSpec
  import opened SweepSpec

  class RecoveryCaseEngine {
    const session: Session
    const window: nat

    constructor (session: Session, window: nat)
      ensures this.session == session && this.window == window
    {
      this.session := session;
      this.window := window;
    }

    /** The rows this session sees. */
    function Rows(): Store
      reads session
    {
      session.working.store
    }

    method Write(t: Store)
      modifies session`working
      ensures session.working == old(session.working).(store := t)
    {
      session.working := session.working.(store := t);
    }

    // -------------------------------------------------------------- transitions

    method Transition(c: CaseId, target: Closing, reason: Reason, actor: Actor, reference: Option<string>)
      requires c < |Rows().cases|
      modifies session`working
      ensures session.working ==
                old(session.working).(store := EngineSpec.Transition(old(Rows()), c, target, reason, actor, reference))
    {
      var row := Rows().cases[c];
      if Terminal(row.status) {
        return;
      }
      var previous := row.status;
      var next := TransitionTo(previous, target);
      // a closing status is accepted from every live one, so nothing is raised here
      row := row.(status := next.value);
      Write(Rows().(cases := Rows().cases[c := row]));
      Write(Rows().(audits := Rows().audits + [StatusChanged(c, previous, target, reason, actor, reference)]));
    }

    method ApplyStops(c: CaseId, merchant: MerchantId, customer: Option<CustomerId>, reference: string)
      requires c < |Rows().cases| && merchant in Rows().merchants
      modifies session`working
      ensures session.working ==
                old(session.working).(store := EngineSpec.ApplyStops(old(Rows()), c, merchant, customer, reference))
    {
      if Terminal(Rows().cases[c].status) {
        return;
      }
      if !Rows().merchants[merchant].active {
        Transition(c, Stopped, MerchantInactive, System, Some(reference));
        return;
      }
      if customer.Some? && customer.value in Rows().customers && Rows().customers[customer.value] == OptedOut {
        Transition(c, Stopped, CustomerOptedOut, System, Some(reference));
      }
    }

    method GetOrCreate(draft: RecoveryCase, trigger: Trigger, reference: string) returns (r: Result<CaseId, Error>)
      requires !Terminal(draft.status)
      modifies session`working
      ensures match EngineSpec.GetOrCreate(old(Rows()), draft, trigger, reference)
              case Ok(placed) => r == Ok(placed.case_) && session.working == old(session.working).(store := placed.store)
              case Err(e) => r == Err(e) && session.working == old(session.working)
    {
      var existing := FindOwned(Rows().cases, draft.merchant, draft.source, draft.sourceId);
      if existing.Some? {
        return Ok(existing.value);
      }
      if !ValidCase(draft) {
        return Err(ValidationError);
      }
      var id := |Rows().cases|;
      Write(Rows().(cases := Rows().cases + [draft]));
      Write(Rows().(audits := Rows().audits + [CaseCreated(id, trigger, reference, draft.amount, draft.windowEnd)]));
      r := Ok(id);
    }

    // -------------------------------------------------------------- ownership and resources

    method CollectOwners(env: Envelope, snap: Snapshot) returns (merchants: set<MerchantId>)
      ensures merchants == Owners(Rows(), env, snap)
    {
      var rows := Rows();
      merchants := AccountOwner(rows, env);
      if snap.payment.Some? && snap.payment.value.id in rows.payments {
        merchants := merchants + Owning(rows, rows.payments[snap.payment.value.id].merchant);
      }
      if snap.order.Some? && snap.order.value.id in rows.orders {
        merchants := merchants + Owning(rows, rows.orders[snap.order.value.id].merchant);
      }
      if snap.link.Some? && snap.link.value.id in rows.links {
        merchants := merchants + Owning(rows, rows.links[snap.link.value.id].merchant);
      }
    }

    method ResolveMerchant(env: Envelope, snap: Snapshot) returns (r: Result<Option<MerchantId>, Error>)
      ensures r == EngineSpec.ResolveMerchant(Rows(), env, snap)
    {
      var merchants := CollectOwners(env, snap);
      if HasAccount(env) && AccountOwner(Rows(), env) == {} {
        if exists m :: m in merchants && Mapped(Rows(), m) {
          return Err(OwnershipError);
        }
      }
      if |merchants| > 1 {
        return Err(OwnershipError);
      }
      if merchants == {} {
        return Ok(None);
      }
      var only := Only(merchants);
      r := Ok(Some(only));
    }

    method EnsureResources(merchant: Option<MerchantId>, snap: Snapshot, now: int) returns (res: Resources)
      modifies session`working
      ensures session.working ==
                old(session.working).(store := EngineSpec.EnsureResources(old(Rows()), merchant, snap, now))
      ensures res == LocalResources(Rows(), snap)
    {
      var order, payment, link: Option<string> := None, None, None;
      if snap.order.Some? {
        var id := snap.order.value.id;
        if id !in Rows().orders && merchant.Some? {
          Write(Rows().(orders := Rows().orders[id := Order(merchant.value, None, now, snap.order.value.core)]));
        }
        order := if id in Rows().orders then Some(id) else None;
      }
      if snap.payment.Some? {
        var id := snap.payment.value.id;
        if id !in Rows().payments && merchant.Some? {
          Write(Rows().(payments := Rows().payments[id :=
            Payment(merchant.value, snap.payment.value.core, NO_PAYMENT_EXTRA)]));
        }
        payment := if id in Rows().payments then Some(id) else None;
      }
      if snap.link.Some? {
        var id := snap.link.value.id;
        if id !in Rows().links && merchant.Some? {
          Write(Rows().(links := Rows().links[id :=
            PaymentLink(merchant.value, order, None, snap.link.value.core, NO_LINK_EXTRA)]));
        }
        link := if id in Rows().links then Some(id) else None;
      }
      res := Resources(payment, order, link);
    }

    method FindCorrelated(hint: Option<CaseId>, res: Resources) returns (r: Option<CaseId>)
      ensures r == EngineSpec.FindCorrelated(Rows(), hint, res)
    {
      var cases := Rows().cases;
      if hint.Some? && hint.value < |cases| {
        return hint;
      }
      var candidates := [(LinkSource, res.link), (PaymentSource, res.payment), (OrderSource, res.order)];
      r := None;
      for i := 0 to |candidates|
        invariant r == None
        invariant forall j :: 0 <= j < i && candidates[j].1.Some? ==>
                    FindCase(cases, candidates[j].0, candidates[j].1.value).None?
      {
        if candidates[i].1.Some? {
          var found := FindCase(cases, candidates[i].0, candidates[i].1.value);
          if found.Some? {
            assert i > 0 ==> candidates[0] == (LinkSource, res.link);
            assert i > 1 ==> candidates[1] == (PaymentSource, res.payment);
            return found;
          }
        }
      }
      assert candidates[0] == (LinkSource, res.link) && candidates[1] == (PaymentSource, res.payment)
             && candidates[2] == (OrderSource, res.order);
    }

    // -------------------------------------------------------------- reactions

    method Close(corr: Option<CaseId>, target: Closing, reason: Reason, eventId: string)
      requires CaseIn(Rows(), corr)
      modifies session`working
      ensures session.working ==
                old(session.working).(store := EngineSpec.Close(old(Rows()), corr, target, reason, eventId).store)
    {
      if corr.Some? {
        Transition(corr.value, target, reason, Razorpay, Some(eventId));
      }
    }

    method HandlePayment(
      env: Envelope, res: Resources, corr: Option<CaseId>, merchant: Option<MerchantId>, eventId: string)
      returns (r: Result<Option<CaseId>, Error>)
      requires Located(Rows(), res) && CaseIn(Rows(), corr)
      requires merchant.Some? ==> merchant.value in Rows().merchants
      modifies session`working
      ensures match EngineSpec.HandlePayment(old(Rows()), env, res, corr, merchant, eventId, window)
              case Ok(h) => r == Ok(h.case_) && session.working == old(session.working).(store := h.store)
              case Err(e) => r == Err(e)
      ensures session.working == old(session.working).(store := Rows())
    {
      if res.payment.None? {
        return Ok(corr);
      }
      var payment := Rows().payments[res.payment.value].core;
      if payment.status == PaymentCaptured {
        Close(corr, Recovered, PaymentWasCaptured, eventId);
        return Ok(corr);
      }
      if env.event != "payment.failed" || payment.status != PaymentFailed {
        return Ok(corr);
      }
      if res.order.Some? {
        var order := Rows().orders[res.order.value].core;
        if order.status == OrderPaid || order.amountDue <= 0 {
          Close(corr, Recovered, OrderAlreadyPaid, eventId);
          return Ok(corr);
        }
      }
      if merchant.None? {
        return Err(OwnershipError);
      }
      r := OpenPaymentCase(res, corr, merchant.value, env.createdAt, eventId);
    }

    method OpenPaymentCase(res: Resources, corr: Option<CaseId>, merchant: MerchantId, start: int, eventId: string)
      returns (r: Result<Option<CaseId>, Error>)
      requires Located(Rows(), res) && CaseIn(Rows(), corr) && merchant in Rows().merchants && res.payment.Some?
      modifies session`working
      ensures match EngineSpec.OpenPaymentCase(old(Rows()), res, corr, merchant, start, eventId, window)
              case Ok(h) => r == Ok(h.case_) && session.working == old(session.working).(store := h.store)
              case Err(e) => r == Err(e)
      ensures session.working == old(session.working).(store := Rows())
    {
      var payment := Rows().payments[res.payment.value].core;
      var amount := payment.amount;
      if res.order.Some? && Rows().orders[res.order.value].core.amountDue > 0 {
        var due := Rows().orders[res.order.value].core.amountDue;
        amount := if due < payment.amount then due else payment.amount;
      }
      var c: CaseId;
      if corr.Some? {
        c := corr.value;
      } else {
        var customer := OrderCustomer(Rows(), res);
        var placed := GetOrCreate(
          NewCase(merchant, customer, PaymentSource, res.payment.value, amount, payment.currency, start, window),
          PaymentFailedTrigger, eventId);
        if placed.Err? {
          return Err(placed.error);
        }
        c := placed.value;
      }
      SetAmount(c, amount);
      ApplyStops(c, merchant, Rows().cases[c].customer, eventId);
      r := Ok(Some(c));
    }

    method SetAmount(c: CaseId, amount: int)
      requires c < |Rows().cases|
      modifies session`working
      ensures session.working == old(session.working).(store := EngineSpec.SetAmount(old(Rows()), c, amount))
    {
      if !Terminal(Rows().cases[c].status) {
        Write(Rows().(cases := Rows().cases[c := Rows().cases[c].(amount := amount)]));
      }
    }

    method HandleLink(res: Resources, corr: Option<CaseId>, merchant: Option<MerchantId>, eventId: string, now: int)
      returns (r: Result<Option<CaseId>, Error>)
      requires Located(Rows(), res) && CaseIn(Rows(), corr)
      requires merchant.Some? ==> merchant.value in Rows().merchants
      modifies session`working
      ensures match EngineSpec.HandleLink(old(Rows()), res, corr, merchant, eventId, now, window)
              case Ok(h) => r == Ok(h.case_) && session.working == old(session.working).(store := h.store)
              case Err(e) => r == Err(e)
      ensures session.working == old(session.working).(store := Rows())
    {
      if res.link.None? {
        return Ok(corr);
      }
      var link := Rows().links[res.link.value].core;
      if link.status == LinkPaid {
        var captured := res.payment.Some? && Rows().payments[res.payment.value].core.status == PaymentCaptured;
        var paid := res.order.Some? && Rows().orders[res.order.value].core.status == OrderPaid;
        if !captured || !paid {
          return Err(EngineError);
        }
        Close(corr, Recovered, LinkPaidReconciled, eventId);
        return Ok(corr);
      }
      if link.status == LinkCancelled {
        Close(corr, Stopped, LinkWasCancelled, eventId);
        return Ok(corr);
      }
      var remaining := if link.amount - link.amountPaid > 0 then link.amount - link.amountPaid else 0;
      if link.status == LinkExpired && corr.Some? {
        Close(corr, Expired, RecoveryLinkExpired, eventId);
        return Ok(corr);
      }
      if remaining <= 0 || (link.status != LinkPartiallyPaid && link.status != LinkExpired) {
        return Ok(corr);
      }
      if merchant.None? {
        return Err(OwnershipError);
      }
      r := OpenLinkCase(res, merchant.value, remaining, eventId, now);
    }

    method OpenLinkCase(res: Resources, merchant: MerchantId, remaining: nat, eventId: string, now: int)
      returns (r: Result<Option<CaseId>, Error>)
      requires Located(Rows(), res) && merchant in Rows().merchants && res.link.Some?
      requires remaining == LinkRemaining(Rows().links[res.link.value].core)
      modifies session`working
      ensures match EngineSpec.OpenLinkCase(old(Rows()), res, merchant, eventId, now, window)
              case Ok(h) => r == Ok(h.case_) && session.working == old(session.working).(store := h.store)
              case Err(e) => r == Err(e)
      ensures session.working == old(session.working).(store := Rows())
    {
      var id := res.link.value;
      var placed := GetOrCreate(
        NewCase(merchant, OrderCustomer(Rows(), res), LinkSource, id, remaining,
                Rows().links[id].core.currency, now, window),
        UnpaidLinkTrigger, eventId);
      if placed.Err? {
        return Err(placed.error);
      }
      var c := placed.value;
      SetAmount(c, remaining);
      Write(Rows().(links := Rows().links[id := Rows().links[id].(caseId := Some(c))]));
      ApplyStops(c, merchant, Rows().cases[c].customer, eventId);
      r := Ok(Some(c));
    }

    // -------------------------------------------------------------- entry points

    /** `handle_webhook`.  On an error the session may hold half-made changes; the caller rolls back. */
    method HandleWebhook(env: Envelope, recon: Recon, eventId: string, now: int)
      returns (r: Result<Option<CaseId>, Error>)
      modifies session`working
      ensures match Handle(old(Rows()), env, recon, eventId, now, window)
              case Ok(h) => r == Ok(h.case_) && session.working == old(session.working).(store := h.store)
              case Err(e) => r == Err(e)
      ensures session.working == old(session.working).(store := Rows())
    {
      var merchant := ResolveMerchant(env, recon.snapshot);
      if merchant.Err? {
        return Err(merchant.error);
      }
      var res := EnsureResources(merchant.value, recon.snapshot, now);
      var corr := FindCorrelated(recon.caseId, res);
      var handled := Ok(corr);
      if IsPaymentEvent(env.event) {
        handled := HandlePayment(env, res, corr, merchant.value, eventId);
      } else if IsLinkEvent(env.event) {
        handled := HandleLink(res, corr, merchant.value, eventId, now);
      }
      if handled.Err? {
        return Err(handled.error);
      }
      var c := handled.value;
      if c.Some? && !Terminal(Rows().cases[c.value].status) {
        if now >= Rows().cases[c.value].windowEnd {
          Transition(c.value, Expired, WindowExpired, System, Some(eventId));
        }
      }
      r := Ok(c);
    }

    /** `scan_unpaid_orders` over the rows its query returned. */
    method ScanUnpaidOrders(cursor: seq<string>, now: int) returns (r: Result<seq<CaseId>, Error>)
      requires forall id :: id in cursor ==> id in Rows().orders
      modifies session`working
      ensures match Scan(old(Rows()), cursor, now, window)
              case Ok(sc) => r == Ok(sc.found) && session.working == old(session.working).(store := sc.store)
              case Err(e) => r == Err(e)
      ensures session.working == old(session.working).(store := Rows())
    {
      ghost var start := Rows();
      var found: seq<CaseId> := [];
      for k := 0 to |cursor|
        invariant session.working == old(session.working).(store := Rows())
        invariant ScanTo(start, cursor, k, now, window) == Ok(Scanned(Rows(), found))
      {
        var id := cursor[k];
        var order := Rows().orders[id];
        if order.merchant in Rows().merchants {
          var placed := GetOrCreate(
            NewCase(order.merchant, order.customer, OrderSource, id, order.core.amountDue, order.core.currency, now, window),
            UnpaidOrderScan, id);
          if placed.Err? {
            ScanStops(start, cursor, k + 1, now, window);
            return Err(placed.error);
          }
          ApplyStops(placed.value, order.merchant, order.customer, id);
          found := found + [placed.value];
        }
      }
      r := Ok(found);
    }

    /** `expire_due_cases`. */
    method ExpireDueCases(now: int, merchant: Option<MerchantId>) returns (expired: seq<CaseId>)
      modifies session`working
      ensures session.working == old(session.working).(store := Sweep(old(Rows()), now, merchant))
      ensures expired == DueCases(old(Rows()).cases, |old(Rows()).cases|, now, merchant)
    {
      ghost var start := Rows();
      expired := DueCases(Rows().cases, |Rows().cases|, now, merchant);
      for k := 0 to |expired|
        invariant session.working == old(session.working).(store := ExpireEach(start, expired[..k]))
      {
        Transition(expired[k], Expired, WindowExpired, System, None);
        assert expired[..k + 1][..k] == expired[..k];
      }
      assert expired[..|expired|] == expired;
    }
  }

  /** An error met on the way is the scan's error. */
  lemma {:induction false} ScanStops(s: Store, cursor: seq<string>, n: nat, now: int, window: nat)
    requires n <= |cursor| && forall id :: id in cursor ==> id in s.orders
    requires ScanTo(s, cursor, n, now, window).Err?
    ensures Scan(s, cursor, now, window) == Err(ScanTo(s, cursor, n, now, window).error)
    decreases |cursor| - n
  {
    if n < |cursor| {
      ScanStops(s, cursor, n + 1, now, window);
    }
  }
}
