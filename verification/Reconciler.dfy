/** The webhook reconciler (webhooks/reconciliation.py) at work on a session, proved against ReconcileSpec. */
module Reconciler {
  import opened Outcomes
  import opened Records
  import opened Database
  import opened EngineSpec
  import opened ReconcileSpec

  class RazorpayWebhookReconciler {
    const session: Session
    const gateway: Gateway

    constructor (session: Session, gateway: Gateway)
      ensures this.session == session && this.gateway == gateway
    {
      this.session := session;
      this.gateway := gateway;
    }

    function Rows(): Store
      reads session
    {
      session.working.store
    }

    method Write(t: Store)
      modifies session`working
      ensures session.working == old(session.working).(store := t)
    {
      session.working := session.working.(store := t);
    }

    method SyncPayment(d: PaymentDetails)
      modifies session`working
      ensures session.working == old(session.working).(store := ReconcileSpec.SyncPayment(old(Rows()), d))
    {
      if d.id in Rows().payments {
        var row := Rows().payments[d.id];
        row := row.(core := d.core);
        row := row.(extra := d.extra);
        Write(Rows().(payments := Rows().payments[d.id := row]));
      }
    }

    method SyncOrder(d: OrderDetails)
      modifies session`working
      ensures session.working == old(session.working).(store := ReconcileSpec.SyncOrder(old(Rows()), d))
    {
      if d.id in Rows().orders {
        Write(Rows().(orders := Rows().orders[d.id := Rows().orders[d.id].(core := d.core)]));
      }
    }

    method SyncLink(d: LinkDetails)
      modifies session`working
      ensures session.working == old(session.working).(store := ReconcileSpec.SyncLink(old(Rows()), d))
    {
      if d.id in Rows().links {
        var row := Rows().links[d.id].(core := d.core);
        var expiry := if d.extra.expireBy.Some? && d.extra.expireBy.value != 0 then d.extra.expireBy else None;
        row := row.(extra := LinkExtra(d.extra.shortUrl, expiry));
        Write(Rows().(links := Rows().links[d.id := row]));
      }
    }

    /** `_find_case`, tried for each source in turn. */
    method FindCaseOf(readings: Readings) returns (c: Option<CaseId>)
      ensures c == CaseOf(Rows(), readings)
    {
      c := None;
      if readings.link.Some? && readings.link.value.id in Rows().links {
        var attached := Rows().links[readings.link.value.id].caseId;
        if attached.Some? && attached.value < |Rows().cases| {
          c := attached;
        }
      }
      if c.None? && readings.link.Some? {
        c := FindCase(Rows().cases, LinkSource, readings.link.value.id);
      }
      if c.None? && readings.payment.Some? {
        c := FindCase(Rows().cases, PaymentSource, readings.payment.value.id);
      }
      if c.None? && readings.order.Some? {
        c := FindCase(Rows().cases, OrderSource, readings.order.value.id);
      }
    }

    method ReconcilePayment(env: Envelope) returns (r: Result<Recon, Error>)
      requires env.event in PAYMENT_EVENTS
      modifies session`working
      ensures match ReconcileSpec.Reconcile(old(Rows()), gateway, env)
              case Ok(done) => r == Ok(done.recon) && session.working == old(session.working).(store := done.store)
              case Err(e) => r == Err(e)
      ensures session.working == old(session.working).(store := Rows())
    {
      var id := RequiredId(env.payment);
      if id.Err? {
        return Err(id.error);
      }
      var payment := Fetch(gateway.payments, id.value);
      if payment.Err? {
        return Err(payment.error);
      }
      SyncPayment(payment.value);
      var order: Option<OrderDetails> := None;
      if payment.value.core.orderId.Some? && payment.value.core.orderId.value != "" {
        var answer := Fetch(gateway.orders, payment.value.core.orderId.value);
        if answer.Err? {
          return Err(answer.error);
        }
        order := Some(answer.value);
        SyncOrder(answer.value);
      }
      var readings := Readings(Some(payment.value), order, None);
      var c := FindCaseOf(readings);
      r := Ok(Recon(payment.value.id, c, SnapshotOf(readings)));
    }

    method ReconcileLink(env: Envelope) returns (r: Result<Recon, Error>)
      requires env.event !in PAYMENT_EVENTS && env.event in LINK_EVENTS
      modifies session`working
      ensures match ReconcileSpec.Reconcile(old(Rows()), gateway, env)
              case Ok(done) => r == Ok(done.recon) && session.working == old(session.working).(store := done.store)
              case Err(e) => r == Err(e)
      ensures session.working == old(session.working).(store := Rows())
    {
      var id := RequiredId(env.link);
      if id.Err? {
        return Err(id.error);
      }
      var link := Fetch(gateway.links, id.value);
      if link.Err? {
        return Err(link.error);
      }
      SyncLink(link.value);
      var payment: Option<PaymentDetails> := None;
      var paymentId := TextId(env.payment);
      if paymentId.Some? {
        var answer := Fetch(gateway.payments, paymentId.value);
        if answer.Err? {
          return Err(answer.error);
        }
        payment := Some(answer.value);
        SyncPayment(answer.value);
      }
      var order: Option<OrderDetails> := None;
      var orderId := OrderOf(env.order, payment);
      if orderId.Some? {
        var answer := Fetch(gateway.orders, orderId.value);
        if answer.Err? {
          return Err(answer.error);
        }
        order := Some(answer.value);
        SyncOrder(answer.value);
      }
      var readings := Readings(payment, order, Some(link.value));
      var c := FindCaseOf(readings);
      r := Ok(Recon(link.value.id, c, SnapshotOf(readings)));
    }

    /** `reconcile`.  On an error some rows may be synced already; the caller rolls back. */
    method Reconcile(env: Envelope) returns (r: Result<Recon, Error>)
      modifies session`working
      ensures match ReconcileSpec.Reconcile(old(Rows()), gateway, env)
              case Ok(done) => r == Ok(done.recon) && session.working == old(session.working).(store := done.store)
              case Err(e) => r == Err(e)
      ensures session.working == old(session.working).(store := Rows())
    {
      if env.event in PAYMENT_EVENTS {
        r := ReconcilePayment(env);
      } else if env.event in LINK_EVENTS {
        r := ReconcileLink(env);
      } else {
        r := Err(RoutingError);
      }
    }
  }
}
