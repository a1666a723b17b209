/** Inputs on which the code does not keep what one might expect of it.  The exact conditions are proved
    where the behaviour is: Convergence, EngineClaims, MirrorClaims, SweepSpec. */
module Counterexamples {
  import opened Outcomes
  import opened Records
  import opened EngineSpec
  import opened ReconcileSpec
  import opened Convergence
  import opened EngineClaims
  import opened DeliverySpec
  import opened MirrorClaims
  import opened SweepSpec
  import opened RecoverySystem
  import opened RunClaims

  /** One active merchant, and nothing else. */
  const EMPTY := Store(map[0 := Merchant(true, Some("acc_1"))], map[], map[], map[], map[], [], [])

  const NO_ERROR: Option<string> := None

  function PaymentOf(amount: nat, status: PaymentStatus): PaymentCore {
    PaymentCore(None, amount, "INR", status, None, NO_ERROR, NO_ERROR, NO_ERROR, NO_ERROR)
  }

  // ---------------------------------------------------------------- handling twice

  const LINK_CORE := LinkCore(100, 0, "INR", LinkExpired)
  const LINK_STORE := EMPTY.(links := map["plink_1" := PaymentLink(0, None, None, LINK_CORE, NO_LINK_EXTRA)])
  const LINK_EVENT := Envelope("payment_link.expired", None, 0, Absent, Absent, Text("plink_1"))
  const LINK_RECON := Recon("plink_1", None, Snapshot(None, None, Some(LinkView("plink_1", LINK_CORE))))
  const LINK_PREPARED := Prepared(LINK_STORE, Some(0), Resources(None, None, Some("plink_1")), None)

  lemma LinkOwned()
    ensures ResolveMerchant(LINK_STORE, LINK_EVENT, LINK_RECON.snapshot) == Ok(Some(0))
  {
    assert Owners(LINK_STORE, LINK_EVENT, LINK_RECON.snapshot) == {0};
  }

  lemma LinkPrepares()
    ensures Prepare(LINK_STORE, LINK_EVENT, LINK_RECON, 0) == Ok(LINK_PREPARED)
  {
    LinkOwned();
  }

  lemma LinkEvent()
    ensures !IsPaymentEvent(LINK_EVENT.event) && IsLinkEvent(LINK_EVENT.event)
  {
    assert LINK_EVENT.event[7] == '_';
  }

  lemma LinkSettles()
    ensures Settle(LINK_PREPARED, LINK_EVENT, "evt_1", 0, 10).Ok?
  {
    LinkEvent();
    assert ValidCurrency("INR") && !Space("plink_1"[0]);
  }

  /** Handling is not idempotent: the first application opens a case for an expired link, the second
      closes it. */
  lemma ReplayClosesLinkCase() returns (s: Store, env: Envelope, recon: Recon)
    ensures Consistent(s) && Again(s, env, recon, "evt_1", 0, 10).Ok?
    ensures ReopensExpiredLink(s, env, recon, 0)
    ensures var first := Again(s, env, recon, "evt_1", 0, 10).value;
            && Again(first.store, env, recon, "evt_2", 0, 10).Ok?
            && Again(first.store, env, recon, "evt_2", 0, 10).value.store != first.store
  {
    s, env, recon := LINK_STORE, LINK_EVENT, LINK_RECON;
    LinkPrepares();
    LinkEvent();
    LinkSettles();
    HandleTwice(s, env, recon, "evt_1", "evt_2", 0, 10);
  }

  // ---------------------------------------------------------------- committing

  const ZERO_CORE := PaymentOf(0, PaymentFailed)
  const ZERO_STORE := EMPTY.(payments := map["pay_1" := Payment(0, ZERO_CORE, NO_PAYMENT_EXTRA)],
                             cases := [NewCase(0, None, PaymentSource, "pay_1", 100, "INR", 0, 10)])
  const ZERO_EVENT := Envelope("payment.failed", None, 0, Text("pay_1"), Absent, Absent)
  const ZERO_RECON := Recon("pay_1", None, Snapshot(Some(PaymentView("pay_1", ZERO_CORE)), None, None))
  const ZERO_PREPARED := Prepared(ZERO_STORE, Some(0), Resources(Some("pay_1"), None, None), Some(0))

  lemma ZeroPrepares()
    ensures Prepare(ZERO_STORE, ZERO_EVENT, ZERO_RECON, 0) == Ok(ZERO_PREPARED)
  {
    assert HasSource(ZERO_STORE.cases[0], PaymentSource, "pay_1");
    assert Owners(ZERO_STORE, ZERO_EVENT, ZERO_RECON.snapshot) == {0};
    assert ResolveMerchant(ZERO_STORE, ZERO_EVENT, ZERO_RECON.snapshot) == Ok(Some(0));
  }

  lemma ZeroSettles()
    ensures Settle(ZERO_PREPARED, ZERO_EVENT, "evt_1", 0, 10).Ok? && ZeroAmount(ZERO_PREPARED, ZERO_EVENT)
  {
  }

  /** An accepted event need not commit: a failed payment of amount zero on a live case. */
  lemma ZeroAmountBreaksCommit() returns (s: Store, env: Envelope, recon: Recon)
    ensures Consistent(s) && Handle(s, env, recon, "evt_1", 0, 10).Ok?
    ensures ZeroAmount(Prepare(s, env, recon, 0).value, env)
    ensures !Consistent(Handle(s, env, recon, "evt_1", 0, 10).value.store)
  {
    s, env, recon := ZERO_STORE, ZERO_EVENT, ZERO_RECON;
    ZeroPrepares();
    ZeroSettles();
    CommitCanFail(s, env, recon, "evt_1", 0, 10);
  }

  // ---------------------------------------------------------------- mirroring

  const BANK_ANSWER :=
    PaymentDetails("pay_1", PaymentOf(100, PaymentAuthorized), NO_PAYMENT_EXTRA.(bank := Some("HDFC")))
  const BANK_EVENT := Envelope("payment.authorized", Some("acc_1"), 0, Text("pay_1"), Absent, Absent)
  const BANK_GATEWAY := Gateway(true, map["pay_1" := BANK_ANSWER], map[], map[])
  const BANK_READ := Readings(Some(BANK_ANSWER), None, None)

  lemma BankRead()
    ensures ReadProvider(BANK_GATEWAY, BANK_EVENT) == Ok(BANK_READ)
    ensures Reconcile(EMPTY, BANK_GATEWAY, BANK_EVENT) ==
              Ok(Reconciled(EMPTY, Recon("pay_1", None, SnapshotOf(BANK_READ))))
  {
    assert BANK_EVENT.event in PAYMENT_EVENTS;
  }

  lemma BankHandled()
    ensures var r := Handle(EMPTY, BANK_EVENT, Recon("pay_1", None, SnapshotOf(BANK_READ)), "evt_1", 0, 10);
            r.Ok? && Consistent(r.value.store) && "pay_1" in r.value.store.payments
  {
    var snap := SnapshotOf(BANK_READ);
    assert Owners(EMPTY, BANK_EVENT, snap) == {0};
    assert ResolveMerchant(EMPTY, BANK_EVENT, snap) == Ok(Some(0));
  }

  /** The mirror need not show all that was answered: a payment the event itself inserts loses its bank. */
  lemma InsertedPaymentLosesBank() returns (d: Delivery)
    ensures Attempt(EMPTY, d).Ok? && ReadProvider(d.gateway, d.env).Ok? && ReadingsOf(d).payment.Some?
    ensures var answer := ReadingsOf(d).payment.value;
            && answer.id in Attempt(EMPTY, d).value.store.payments
            && Attempt(EMPTY, d).value.store.payments[answer.id].extra != answer.extra
  {
    d := Delivery("evt_1", BANK_EVENT, BANK_GATEWAY, 0, 10, NoCrash);
    BankRead();
    BankHandled();
    ExtraFieldsKept(EMPTY, d);
  }

  // ---------------------------------------------------------------- crashing

  const FRESH := Db(EMPTY, Trials([], [], [], [], []), map[])

  lemma BankSucceeds(d: Delivery)
    requires d.env == BANK_EVENT && d.gateway == BANK_GATEWAY && d.eventId == "evt_1" && d.now == 0 && d.window == 10
    ensures Succeeds(FRESH, d.(crash := NoCrash))
  {
    BankRead();
    BankHandled();
  }

  /** Processing need not end: a worker that dies leaves an event PROCESSING that another attempt would
      have processed, and whatever follows it stays so. */
  lemma CrashStrandsEvent(later: seq<Step>) returns (db: Db, d: Delivery)
    ensures db == FRESH && Succeeds(db, d.(crash := NoCrash))
    ensures Deliver(db, d).store == db.store && IsProcessing(Run(Deliver(db, d), later), d.eventId)
  {
    db := FRESH;
    d := Delivery("evt_1", BANK_EVENT, BANK_GATEWAY, 0, 10, WhileProcessing);
    BankSucceeds(d);
    StrandedExactly(db, d);
    SettledForever(Deliver(db, d), later, "evt_1");
  }

  // ---------------------------------------------------------------- scanning

  /** A scan need not complete: one old unpaid order whose currency is not upper case refuses it. */
  lemma LowerCaseCurrencyStopsScan() returns (s: Store, cursor: seq<string>)
    ensures Consistent(s) && IsCursor(s, cursor, 0, None)
    ensures |cursor| == 1 && Unscannable(s, cursor[0], 0, 10) && Scan(s, cursor, 0, 10).Err?
  {
    s := EMPTY.(orders := map["order_1" := Order(0, None, 0, OrderCore(100, 0, 100, "inr", OrderCreated, 0))]);
    cursor := ["order_1"];
    assert !ValidCurrency("inr") by { assert "inr"[0] == 'i'; }
    ScanFails(s, cursor, 1, 0, 10);
  }
}
