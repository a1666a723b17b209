/** Webhook ingestion (webhooks/service.py, webhooks/repository.py) at work on a session: three commits,
    rollback on failure, and a crash at any point between them. */
module Ingestion {
  import opened Outcomes
  import opened Records
  import opened Database
  import opened EngineSpec
  import opened ReconcileSpec
  import opened DeliverySpec
  import opened ReplyClaims
  import opened Reconciler
  import opened RecoveryEngine

  class WebhookEventRepository {
    const session: Session

    constructor (session: Session)
      ensures this.session == session
    {
      this.session := session;
    }

    method Put(id: string, row: EventRow)
      modifies session`working
      ensures session.working == PutEvent(old(session.working), id, row)
    {
      session.working := session.working.(events := session.working.events[id := row]);
    }

    /** `record`: check, then insert and commit. */
    method Record(id: string, env: Envelope) returns (created: bool)
      requires session.Fresh() && Durable(session.working)
      modifies session`working, session`committed
      ensures session.Fresh() && created == (id !in old(session.working).events)
      ensures session.working == if created then PutEvent(old(session.working), id, Received(env)) else old(session.working)
    {
      if id in session.working.events {
        return false;
      }
      Put(id, Received(env));
      var ok := session.Commit();
      created := true;
    }

    method MarkProcessing(id: string)
      requires session.Fresh() && Durable(session.working) && id in session.working.events
      modifies session`working, session`committed
      ensures session.Fresh()
      ensures session.working == PutEvent(old(session.working), id, Begun(old(session.working).events[id]))
    {
      var row := session.working.events[id];
      row := row.(status := EventProcessing);
      row := row.(attempts := row.attempts + 1);
      row := row.(lastError := None);
      Put(id, row);
      var ok := session.Commit();
    }

    method MarkIgnored(id: string)
      requires session.Fresh() && Durable(session.working) && id in session.working.events
      modifies session`working, session`committed
      ensures session.Fresh()
      ensures session.working == PutEvent(old(session.working), id, old(session.working).events[id].(status := EventIgnored))
    {
      Put(id, session.working.events[id].(status := EventIgnored));
      var ok := session.Commit();
    }

    /** `mark_processed`: the event and everything pending with it become durable, or nothing does. */
    method MarkProcessed(id: string, caseId: Option<CaseId>, recon: Recon) returns (ok: bool)
      requires id in session.working.events
      modifies session`working, session`committed
      ensures ok == Durable(PutEvent(old(session.working), id, Finished(
                old(session.working).events[id], Applied(old(session.working).store, recon, caseId))))
      ensures ok ==> session.Fresh()
      ensures ok ==> session.working == PutEvent(old(session.working), id, Finished(
                old(session.working).events[id], Applied(old(session.working).store, recon, caseId)))
      ensures !ok ==> session.committed == old(session.committed)
    {
      var row := session.working.events[id];
      row := row.(status := EventProcessed, caseId := caseId);
      row := row.(resourceId := Some(recon.resourceId), snapshot := Some(recon.snapshot));
      row := row.(lastError := None);
      Put(id, row);
      ok := session.Commit();
    }

    method MarkFailed(id: string, error: Error)
      requires session.Fresh() && Durable(session.working) && id in session.working.events
      modifies session`working, session`committed
      ensures session.Fresh()
      ensures session.working == PutEvent(old(session.working), id, Broken(old(session.working).events[id], error))
    {
      Put(id, session.working.events[id].(status := EventFailed, lastError := Some(error)));
      var ok := session.Commit();
    }
  }

  class WebhookIngestionService {
    const session: Session
    const repository: WebhookEventRepository
    const window: nat

    constructor (session: Session, window: nat)
      ensures this.session == session && this.window == window && repository.session == session
    {
      this.session := session;
      this.window := window;
      repository := new WebhookEventRepository(session);
    }

    /** Reconcile, handle and mark processed; on an error the session holds pending changes only. */
    method Process(d: Delivery) returns (error: Option<Error>)
      requires repository.session == session && session.Fresh() && Durable(session.committed)
      requires d.eventId in session.working.events && d.window == window
      modifies session`working, session`committed
      ensures match Attempt(old(session.working).store, d)
              case Ok(a) =>
                error == None && session.Fresh()
                && session.working == PutEvent(old(session.working), d.eventId,
                                               Finished(old(session.working).events[d.eventId], a)).(store := a.store)
              case Err(e) => error == Some(e) && session.committed == old(session.committed)
    {
      if !d.gateway.opens {
        return Some(GatewayError);
      }
      var reconciler := new RazorpayWebhookReconciler(session, d.gateway);
      var result := reconciler.Reconcile(d.env);
      if result.Err? {
        return Some(result.error);
      }
      var engine := new RecoveryCaseEngine(session, window);
      var handled := engine.HandleWebhook(d.env, result.value, d.eventId, d.now);
      if handled.Err? {
        return Some(handled.error);
      }
      AttemptCommits(session.committed, d, session.working.events[d.eventId]);
      var caseId := if handled.value.Some? then handled.value else result.value.caseId;
      var ok := repository.MarkProcessed(d.eventId, caseId, result.value);
      if !ok {
        return Some(IntegrityError);
      }
      error := None;
    }

    /** Processing with its failure handling: roll back, then mark failed. */
    method ProcessOrFail(d: Delivery) returns (ok: bool)
      requires repository.session == session && session.Fresh() && Durable(session.committed)
      requires d.eventId in session.working.events && d.window == window
      modifies session`working, session`committed
      ensures session.Fresh() && ok == Attempt(old(session.working).store, d).Ok?
      ensures session.working == Conclude(old(session.working), d.eventId, old(session.working).events[d.eventId],
                                          Attempt(old(session.working).store, d))
    {
      var error := Process(d);
      if error.Some? {
        session.Rollback();
        repository.MarkFailed(d.eventId, error.value);
        return false;
      }
      ok := true;
    }

    /** The first two commits: record the event, then answer it at once or mark it PROCESSING.  A reply
        here is final. */
    method Begin(d: Delivery) returns (reply: Option<Reply>, created: bool)
      requires repository.session == session && session.Fresh() && Durable(session.committed)
      modifies session`working, session`committed
      ensures session.Fresh() && created == (d.eventId !in old(session.committed).events)
      ensures var row := RowOf(old(session.committed), d);
              if Settled(row.status) then
                && session.committed == PutEvent(old(session.committed), d.eventId, row)
                && reply == Some(Answer(row.status, true))
              else if !Supported(d.env.event) then
                && session.committed == PutEvent(old(session.committed), d.eventId, row.(status := EventIgnored))
                && reply == Some(Answer(EventIgnored, !created))
              else session.committed == PutEvent(old(session.committed), d.eventId, Begun(row)) && reply == None
    {
      created := repository.Record(d.eventId, d.env);
      ghost var row := RowOf(old(session.committed), d);
      assert session.committed == PutEvent(old(session.committed), d.eventId, row);
      var status := session.working.events[d.eventId].status;
      if !created && (status == EventProcessing || status == EventProcessed || status == EventIgnored) {
        return Some(Answer(status, true)), created;
      }
      if !Supported(d.env.event) {
        repository.MarkIgnored(d.eventId);
        assert session.committed == PutEvent(old(session.committed), d.eventId, row.(status := EventIgnored));
        return Some(Answer(EventIgnored, !created)), created;
      }
      repository.MarkProcessing(d.eventId);
      assert session.committed == PutEvent(old(session.committed), d.eventId, Begun(row));
      reply := None;
    }

    /** `ingest`, with the worker dying where the delivery says. */
    method Ingest(d: Delivery) returns (reply: Reply)
      requires repository.session == session && session.Fresh() && Durable(session.committed)
      requires d.window == window
      modifies session`working, session`committed
      ensures session.committed == Deliver(old(session.committed), d)
      ensures reply == ReplyTo(old(session.committed), d)
      ensures Answers(old(session.committed), session.committed, d, reply)
      ensures RowTells(old(session.committed), session.committed, d)
      ensures session.Fresh()
    {
      ghost var before := session.committed;
      DeliveryTold(before, d);
      if d.crash == BeforeRecord {
        return Lost;
      }
      if d.crash == AfterRecord {
        var recorded := repository.Record(d.eventId, d.env);
        assert session.committed == PutEvent(before, d.eventId, RowOf(before, d));
        return Lost;
      }
      var answer, created := Begin(d);
      if answer.Some? {
        return answer.value;
      }
      if d.crash == WhileProcessing {
        return Lost;
      }
      ghost var begun := Begun(RowOf(before, d));
      var ok := ProcessOrFail(d);
      ConcludedOver(before, d.eventId, begun, Attempt(before.store, d));
      reply := if ok then Answer(EventProcessed, !created) else ProcessingError;
    }
  }

  /** Putting a row twice leaves the second one. */
  lemma ConcludedOver(db: Db, id: string, row: EventRow, result: Result<Applied, Error>)
    ensures Conclude(PutEvent(db, id, row), id, row, result) == Conclude(db, id, row, result)
  {
  }
}
