/** One webhook delivery (webhooks/service.py, webhooks/repository.py) as a function of the committed database. */
module DeliverySpec {
  import opened Outcomes
  import opened Records
  import opened EngineSpec
  import opened ReconcileSpec
  import opened EngineInvariants

  /** Where the worker dies, if it does.  Between the commits nothing durable happens, so these
      points stand for every moment of a delivery. */
  datatype Crash = NoCrash | BeforeRecord | AfterRecord | WhileProcessing

  datatype Delivery = Delivery(eventId: string, env: Envelope, gateway: Gateway, now: int, window: nat, crash: Crash)

  /** The row `record` inserts. */
  function Received(env: Envelope): EventRow {
    EventRow(env.event, env.account, env.createdAt, EventReceived, 0, None, None, None, None)
  }

  /** Statuses whose duplicates are answered without another reconciliation. */
  predicate Settled(status: EventStatus) {
    status == EventProcessing || status == EventProcessed || status == EventIgnored
  }

  datatype Applied = Applied(store: Store, recon: Recon, caseId: Option<CaseId>)

  /** Reconcile, handle and commit: all of it or an error. */
  function Attempt(s: Store, d: Delivery): (r: Result<Applied, Error>)
  {
    if !d.gateway.opens then Err(GatewayError)
    else
      var reconciled :- Reconcile(s, d.gateway, d.env);
      var handled :- Handle(reconciled.store, d.env, reconciled.recon, d.eventId, d.now, d.window);
      if !Consistent(handled.store) then Err(IntegrityError)
      else Ok(Applied(handled.store, reconciled.recon,
                      if handled.case_.Some? then handled.case_ else reconciled.recon.caseId))
  }

  lemma AttemptKeeps(s: Store, d: Delivery)
    requires Referential(s) && Attempt(s, d).Ok?
    ensures Keeps(s, Attempt(s, d).value.store) && Consistent(Attempt(s, d).value.store)
  {
    var reconciled := Reconcile(s, d.gateway, d.env).value;
    ReconcileKeeps(s, d.gateway, d.env);
    HandleKeeps(reconciled.store, d.env, reconciled.recon, d.eventId, d.now, d.window);
    KeepsTransitive(s, reconciled.store, Attempt(s, d).value.store);
  }

  /** The one constraint check an attempt can fail is that of its own tables: the experiment tables' and
      the event's references stay good. */
  lemma AttemptTrials(s: Store, trials: Trials, d: Delivery)
    requires Referential(s) && TrialsRefsOk(s, trials) && Reconcile(s, d.gateway, d.env).Ok?
    requires var r := Reconcile(s, d.gateway, d.env).value;
             Handle(r.store, d.env, r.recon, d.eventId, d.now, d.window).Ok?
    ensures var r := Reconcile(s, d.gateway, d.env).value;
            var h := Handle(r.store, d.env, r.recon, d.eventId, d.now, d.window).value;
            && TrialsRefsOk(h.store, trials) && |s.cases| <= |h.store.cases|
            && CaseIn(h.store, if h.case_.Some? then h.case_ else r.recon.caseId)
  {
    var r := Reconcile(s, d.gateway, d.env).value;
    ReconcileKeeps(s, d.gateway, d.env);
    HandleKeeps(r.store, d.env, r.recon, d.eventId, d.now, d.window);
    TrialsRefsKept(s, r.store, trials);
    TrialsRefsKept(r.store, Handle(r.store, d.env, r.recon, d.eventId, d.now, d.window).value.store, trials);
  }

  /** The commit of a handled event succeeds exactly when its own tables are consistent. */
  lemma AttemptCommits(db: Db, d: Delivery, row: EventRow)
    requires Durable(db) && Reconcile(db.store, d.gateway, d.env).Ok?
    requires var r := Reconcile(db.store, d.gateway, d.env).value;
             Handle(r.store, d.env, r.recon, d.eventId, d.now, d.window).Ok?
    ensures var r := Reconcile(db.store, d.gateway, d.env).value;
            var h := Handle(r.store, d.env, r.recon, d.eventId, d.now, d.window).value;
            var c := if h.case_.Some? then h.case_ else r.recon.caseId;
            Durable(PutEvent(db.(store := h.store), d.eventId, Finished(row, Applied(h.store, r.recon, c)))) <==>
              Consistent(h.store)
  {
    AttemptTrials(db.store, db.trials, d);
    var r := Reconcile(db.store, d.gateway, d.env).value;
    var h := Handle(r.store, d.env, r.recon, d.eventId, d.now, d.window).value;
    EventsGrow(db, h.store, d.eventId,
               Finished(row, Applied(h.store, r.recon, if h.case_.Some? then h.case_ else r.recon.caseId)));
  }

  lemma EventsGrow(db: Db, t: Store, id: string, row: EventRow)
    requires EventsOk(db) && |db.store.cases| <= |t.cases| && CaseIn(t, row.caseId)
    ensures EventsOk(PutEvent(db.(store := t), id, row))
  {
  }

  function Begun(row: EventRow): EventRow {
    row.(status := EventProcessing, attempts := row.attempts + 1, lastError := None)
  }

  function Finished(row: EventRow, a: Applied): EventRow {
    row.(status := EventProcessed, caseId := a.caseId, resourceId := Some(a.recon.resourceId),
         snapshot := Some(a.recon.snapshot), lastError := None)
  }

  function Broken(row: EventRow, e: Error): EventRow {
    row.(status := EventFailed, lastError := Some(e))
  }

  function PutEvent(db: Db, id: string, row: EventRow): Db {
    db.(events := db.events[id := row])
  }

  /** The row a delivery finds or creates. */
  function RowOf(db: Db, d: Delivery): EventRow {
    if d.eventId in db.events then db.events[d.eventId] else Received(d.env)
  }

  /** The third commit: the attempt and the PROCESSED row together, or the FAILED row alone. */
  function Conclude(db: Db, id: string, row: EventRow, result: Result<Applied, Error>): Db {
    match result
    case Ok(a) => PutEvent(db, id, Finished(row, a)).(store := a.store)
    case Err(e) => PutEvent(db, id, Broken(row, e))
  }

  /** The committed database after one delivery. */
  function Deliver(db: Db, d: Delivery): Db {
    if d.crash == BeforeRecord then db
    else
      var row := RowOf(db, d);
      if d.crash == AfterRecord || Settled(row.status) then PutEvent(db, d.eventId, row)
      else if !Supported(d.env.event) then PutEvent(db, d.eventId, row.(status := EventIgnored))
      else if d.crash == WhileProcessing then PutEvent(db, d.eventId, Begun(row))
      else Conclude(db, d.eventId, Begun(row), Attempt(db.store, d))
  }

  datatype Reply = Answer(status: EventStatus, duplicate: bool) | ProcessingError | Lost

  /** What the sender is told. */
  function ReplyTo(db: Db, d: Delivery): Reply {
    var row := RowOf(db, d);
    var duplicate := d.eventId in db.events;
    if d.crash == BeforeRecord || d.crash == AfterRecord then Lost
    else if Settled(row.status) then Answer(row.status, true)
    else if !Supported(d.env.event) then Answer(EventIgnored, duplicate)
    else if d.crash == WhileProcessing then Lost
    else if Attempt(db.store, d).Ok? then Answer(EventProcessed, duplicate)
    else ProcessingError
  }

  /** The deliveries whose reconciliation and handling became durable. */
  predicate Succeeds(db: Db, d: Delivery) {
    && d.crash == NoCrash && !Settled(RowOf(db, d).status) && Supported(d.env.event)
    && Attempt(db.store, d).Ok?
  }

  /** Only this event's row may differ. */
  predicate OwnRowOnly(db: Db, after: Db, id: string) {
    && after.trials == db.trials
    && after.events.Keys == db.events.Keys + {id} * after.events.Keys
    && (forall other :: other != id && other in db.events ==> after.events[other] == db.events[other])
  }

  /** Nothing was applied: the store is as it was, and the event is PROCESSED only if it already was. */
  predicate NothingApplied(db: Db, after: Db, id: string) {
    && after.store == db.store
    && (id in after.events && after.events[id].status == EventProcessed ==>
          id in db.events && db.events[id] == after.events[id])
  }

  lemma Concluded(db: Db, id: string, row: EventRow, result: Result<Applied, Error>)
    ensures var after := Conclude(db, id, row, result);
            && OwnRowOnly(db, after, id)
            && (if result.Ok? then
                  after.store == result.value.store && id in after.events && after.events[id].status == EventProcessed
                else NothingApplied(db, after, id))
  {
  }

  lemma OnlyRecorded(db: Db, id: string, row: EventRow)
    requires row.status == EventProcessed ==> id in db.events && db.events[id] == row
    ensures OwnRowOnly(db, PutEvent(db, id, row), id) && NothingApplied(db, PutEvent(db, id, row), id)
  {
  }

  /** All or nothing: a delivery either applies its whole attempt and turns its own row PROCESSED, or
      leaves the store exactly as it was; it never touches another event's row. */
  lemma AllOrNothing(db: Db, d: Delivery)
    ensures var after := Deliver(db, d);
            && OwnRowOnly(db, after, d.eventId)
            && (if Succeeds(db, d) then
                  && after.store == Attempt(db.store, d).value.store
                  && d.eventId in after.events && after.events[d.eventId].status == EventProcessed
                else NothingApplied(db, after, d.eventId))
  {
    if d.crash != BeforeRecord {
      var row := RowOf(db, d);
      if d.crash == AfterRecord || Settled(row.status) {
        OnlyRecorded(db, d.eventId, row);
      } else if !Supported(d.env.event) {
        OnlyRecorded(db, d.eventId, row.(status := EventIgnored));
      } else if d.crash == WhileProcessing {
        OnlyRecorded(db, d.eventId, Begun(row));
      } else {
        Concluded(db, d.eventId, Begun(row), Attempt(db.store, d));
      }
    }
  }

  /** A row that is PROCESSING, PROCESSED or IGNORED between deliveries stays as it is whatever is
      delivered: processed events are never reprocessed, and an event whose worker died after
      `mark_processing` is never taken up again. */
  lemma SettledRowsStay(db: Db, d: Delivery, id: string)
    requires id in db.events && Settled(db.events[id].status)
    ensures id in Deliver(db, d).events && Deliver(db, d).events[id] == db.events[id]
  {
  }

  predicate IsProcessing(db: Db, id: string) {
    id in db.events && db.events[id].status == EventProcessing
  }

  /** A delivery leaves its event PROCESSING exactly when it was so, or when the worker dies while
      processing a supported event that may still be tried. */
  lemma StrandedExactly(db: Db, d: Delivery)
    ensures IsProcessing(Deliver(db, d), d.eventId) <==>
              || IsProcessing(db, d.eventId)
              || (d.crash == WhileProcessing && !Settled(RowOf(db, d).status) && Supported(d.env.event))
  {
  }

  /** The row a delivery leaves behind names a case that is there. */
  lemma DeliveredEvents(db: Db, d: Delivery)
    requires Durable(db)
    ensures EventsOk(Deliver(db, d))
  {
    if Succeeds(db, d) {
      AttemptNames(db.store, d);
      AppliedEvents(db, d);
    } else {
      UnappliedEvents(db, d);
    }
  }

  /** What an attempt leaves for the event's row to name. */
  predicate Names(s: Store, a: Applied) {
    |s.cases| <= |a.store.cases| && CaseIn(a.store, a.caseId)
  }

  lemma AttemptNames(s: Store, d: Delivery)
    requires Referential(s) && Attempt(s, d).Ok?
    ensures Names(s, Attempt(s, d).value)
  {
    var r := Reconcile(s, d.gateway, d.env).value;
    ReconcileKeeps(s, d.gateway, d.env);
    HandleKeeps(r.store, d.env, r.recon, d.eventId, d.now, d.window);
  }

  lemma AppliedEvents(db: Db, d: Delivery)
    requires EventsOk(db) && Succeeds(db, d) && Names(db.store, Attempt(db.store, d).value)
    ensures EventsOk(Deliver(db, d))
  {
    ConcludedEvents(db, d.eventId, Begun(RowOf(db, d)), Attempt(db.store, d));
  }

  lemma UnappliedEvents(db: Db, d: Delivery)
    requires EventsOk(db) && !Succeeds(db, d)
    ensures EventsOk(Deliver(db, d))
  {
  }

  lemma ConcludedEvents(db: Db, id: string, row: EventRow, result: Result<Applied, Error>)
    requires EventsOk(db) && CaseIn(db.store, row.caseId)
    requires result.Ok? ==> Names(db.store, result.value)
    ensures EventsOk(Conclude(db, id, row, result))
  {
  }
}
