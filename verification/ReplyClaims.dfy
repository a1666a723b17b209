/** What the sender of a delivery is told, and what the event's row tells afterwards (webhooks/service.py). */
module ReplyClaims {
  import opened Outcomes
  import opened Records
  import opened EngineSpec
  import opened ReconcileSpec
  import opened DeliverySpec
  import opened ReadingClaims

  /** An event that is new, was only recorded, or failed before. */
  predicate MayBeTried(db: Db, id: string) {
    id in db.events ==> db.events[id].status == EventReceived || db.events[id].status == EventFailed
  }

  /** The delivery is one to work on. */
  predicate Taken(db: Db, d: Delivery) {
    MayBeTried(db, d.eventId) && (PaymentNews(d.env.event) || LinkNews(d.env.event))
  }

  /** The sender gets an error, and so tries again, exactly if the event was worked on and failed; gets no
      reply only if the worker died; and otherwise is told the status the row now has, which is final, and
      whether the event was known before. */
  predicate Answers(before: Db, after: Db, d: Delivery, reply: Reply) {
    && (reply == ProcessingError <==> d.crash == NoCrash && Taken(before, d) && Attempt(before.store, d).Err?)
    && (reply == Lost <==>
          d.crash == BeforeRecord || d.crash == AfterRecord || (d.crash == WhileProcessing && Taken(before, d)))
    && (reply.Answer? ==>
          && d.eventId in after.events && after.events[d.eventId].status == reply.status
          && (reply.status == EventProcessing || reply.status == EventProcessed || reply.status == EventIgnored)
          && (reply.duplicate <==> d.eventId in before.events))
  }

  /** The row of an event nobody has seen yet. */
  function FreshRow(d: Delivery): EventRow {
    EventRow(d.env.event, d.env.account, d.env.createdAt, EventReceived, 0, None, None, None, None)
  }

  /** What the row says: who sent what, how often it was worked on, and how that ended. */
  predicate RowTells(before: Db, after: Db, d: Delivery) {
    if d.crash == BeforeRecord then after == before
    else
      var was := if d.eventId in before.events then before.events[d.eventId] else FreshRow(d);
      && d.eventId in after.events && after.events == before.events[d.eventId := after.events[d.eventId]]
      && after.events[d.eventId] ==
           if d.crash == AfterRecord || !MayBeTried(before, d.eventId) then was
           else if !Taken(before, d) then was.(status := EventIgnored)
           else if d.crash == WhileProcessing then
             was.(attempts := was.attempts + 1, status := EventProcessing, lastError := None)
           else
             match Attempt(before.store, d)
             case Ok(a) =>
               was.(attempts := was.attempts + 1, status := EventProcessed, lastError := None, caseId := a.caseId,
                    resourceId := Some(a.recon.resourceId), snapshot := Some(a.recon.snapshot))
             case Err(e) => was.(attempts := was.attempts + 1, status := EventFailed, lastError := Some(e))
  }

  lemma TakenMeans(db: Db, d: Delivery)
    ensures Taken(db, d) <==> !Settled(RowOf(db, d).status) && Supported(d.env.event)
    ensures MayBeTried(db, d.eventId) <==> !Settled(RowOf(db, d).status)
  {
  }

  /** The reply and the row of every delivery. */
  lemma DeliveryTold(db: Db, d: Delivery)
    ensures Answers(db, Deliver(db, d), d, ReplyTo(db, d))
    ensures RowTells(db, Deliver(db, d), d)
  {
    TakenMeans(db, d);
  }

  /** When working on an event fails: the gateway cannot be opened, the provider or the payload fails the
      reconciliation, the engine refuses, or the database refuses what the engine made; and otherwise the
      row will name the case the engine handled, or else the one the reconciler found. */
  lemma AttemptFails(s: Store, d: Delivery)
    ensures var r := Reconcile(s, d.gateway, d.env);
            var a := Attempt(s, d);
            if !d.gateway.opens then a == Err(GatewayError)
            else if r.Err? then a == Err(r.error)
            else
              var h := Handle(r.value.store, d.env, r.value.recon, d.eventId, d.now, d.window);
              && (a.Ok? <==> h.Ok? && Consistent(h.value.store))
              && (h.Err? ==> a == Err(h.error)) && (h.Ok? && a.Err? ==> a.error == IntegrityError)
              && (a.Ok? ==>
                    && a.value.store == h.value.store && a.value.recon == r.value.recon
                    && (h.value.case_.Some? ==> a.value.caseId == h.value.case_)
                    && (h.value.case_.None? ==> a.value.caseId == r.value.recon.caseId))
  {
  }
}
