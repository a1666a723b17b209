/** The unpaid-order scan and the expiry sweep (recovery/engine.py), as functions of the store. */
module SweepSpec {
  import opened Outcomes
  import opened Lifecycle
  import opened Ordering
  import opened Records
  import opened EngineSpec
  import opened EngineInvariants
  import opened Convergence
  import opened HandlingTable

  // ---------------------------------------------------------------- expiry

  /** A live case of the wanted merchant whose window has ended. */
  predicate Due(c: RecoveryCase, now: int, merchant: Option<MerchantId>) {
    !Terminal(c.status) && c.windowEnd <= now && (merchant.Some? ==> c.merchant == merchant.value)
  }

  /** The due cases below n, by age. */
  function DueCases(cases: seq<RecoveryCase>, n: nat, now: int, merchant: Option<MerchantId>): (r: seq<CaseId>)
    requires n <= |cases|
    ensures forall i: CaseId :: i in r <==> i < n && Due(cases[i], now, merchant)
    ensures forall k :: 0 <= k < |r| ==> r[k] < n && Due(cases[r[k]], now, merchant)
    ensures Distinct(r)
  {
    if n == 0 then []
    else DueCases(cases, n - 1, now, merchant) + if Due(cases[n - 1], now, merchant) then [n - 1] else []
  }

  function ExpireEach(s: Store, due: seq<CaseId>): (t: Store)
    requires forall k :: 0 <= k < |due| ==> due[k] < |s.cases|
    ensures |t.cases| == |s.cases| && t == s.(cases := t.cases, audits := t.audits)
  {
    if due == [] then s
    else
      var last := |due| - 1;
      Transition(ExpireEach(s, due[..last]), due[last], Expired, WindowExpired, System, None)
  }

  /** `expire_due_cases`. */
  function Sweep(s: Store, now: int, merchant: Option<MerchantId>): Store {
    ExpireEach(s, DueCases(s.cases, |s.cases|, now, merchant))
  }

  lemma {:induction false} ExpireEachKeeps(s: Store, due: seq<CaseId>)
    requires forall k :: 0 <= k < |due| ==> due[k] < |s.cases|
    ensures Keeps(s, ExpireEach(s, due))
    ensures AmountsOk(s) ==> AmountsOk(ExpireEach(s, due))
  {
    if due != [] {
      var last := |due| - 1;
      var t := ExpireEach(s, due[..last]);
      ExpireEachKeeps(s, due[..last]);
      TransitionKeeps(t, due[last], Expired, WindowExpired, System, None);
      KeepsTransitive(s, t, ExpireEach(s, due));
    }
  }

  lemma {:induction false} ExpireEachCases(s: Store, due: seq<CaseId>)
    requires forall k :: 0 <= k < |due| ==> due[k] < |s.cases| && !Terminal(s.cases[due[k]].status)
    requires Distinct(due)
    ensures forall i :: 0 <= i < |s.cases| ==>
              ExpireEach(s, due).cases[i] == if i in due then s.cases[i].(status := Expired) else s.cases[i]
    ensures |ExpireEach(s, due).audits| == |s.audits| + |due|
  {
    if due != [] {
      var last := |due| - 1;
      assert due == due[..last] + [due[last]];
      ExpireEachCases(s, due[..last]);
      assert due[last] !in due[..last];
    }
  }

  lemma {:induction false} ExpireEachAudits(s: Store, due: seq<CaseId>)
    requires forall k :: 0 <= k < |due| ==> due[k] < |s.cases| && !Terminal(s.cases[due[k]].status)
    requires Distinct(due)
    ensures s.audits <= ExpireEach(s, due).audits && |ExpireEach(s, due).audits| == |s.audits| + |due|
    ensures forall k :: 0 <= k < |due| ==>
              ExpireEach(s, due).audits[|s.audits| + k] ==
                StatusChanged(due[k], s.cases[due[k]].status, Expired, WindowExpired, System, None)
  {
    if due != [] {
      var last := |due| - 1;
      ExpireEachAudits(s, due[..last]);
      ExpireEachCases(s, due[..last]);
      assert due[last] !in due[..last];
    }
  }

  /** The sweep has nothing to do with a case that is over already, whose window is still open, or that
      belongs to another merchant than the one asked for. */
  predicate Spared(c: RecoveryCase, now: int, merchant: Option<MerchantId>) {
    || c.status == Recovered || c.status == Stopped || c.status == Expired || c.status == Escalated
    || now < c.windowEnd
    || (merchant.Some? && c.merchant != merchant.value)
  }

  lemma DueOrSpared(s: Store, now: int, merchant: Option<MerchantId>)
    ensures forall i :: 0 <= i < |s.cases| ==> (Due(s.cases[i], now, merchant) <==> !Spared(s.cases[i], now, merchant))
  {
  }

  lemma SweepKept(s: Store, now: int, merchant: Option<MerchantId>)
    ensures Keeps(s, Sweep(s, now, merchant)) && (AmountsOk(s) ==> AmountsOk(Sweep(s, now, merchant)))
  {
    ExpireEachKeeps(s, DueCases(s.cases, |s.cases|, now, merchant));
  }

  /** What the sweep does to the cases: each is spared or becomes EXPIRED. */
  lemma SweepCases(s: Store, now: int, merchant: Option<MerchantId>)
    ensures |Sweep(s, now, merchant).cases| == |s.cases|
    ensures forall i :: 0 <= i < |s.cases| ==>
              Sweep(s, now, merchant).cases[i] ==
                if Spared(s.cases[i], now, merchant) then s.cases[i] else s.cases[i].(status := Expired)
  {
    DueOrSpared(s, now, merchant);
    ExpireEachCases(s, DueCases(s.cases, |s.cases|, now, merchant));
  }

  /** What the sweep lists and writes to the log: exactly the cases that are not spared, once each, and for
      each of them, in list order, one audit of its expiry. */
  lemma SweepAudits(s: Store, now: int, merchant: Option<MerchantId>)
    ensures var listed, t := DueCases(s.cases, |s.cases|, now, merchant), Sweep(s, now, merchant);
            && Distinct(listed)
            && (forall i: CaseId :: i in listed <==> i < |s.cases| && !Spared(s.cases[i], now, merchant))
            && (forall k :: 0 <= k < |listed| ==> listed[k] < |s.cases|)
            && |t.audits| == |s.audits| + |listed| && s.audits <= t.audits
            && forall k :: 0 <= k < |listed| ==>
                 t.audits[|s.audits| + k] ==
                   StatusChanged(listed[k], s.cases[listed[k]].status, Expired, WindowExpired, System, None)
  {
    DueOrSpared(s, now, merchant);
    ExpireEachAudits(s, DueCases(s.cases, |s.cases|, now, merchant));
  }

  /** `list_active`: live cases whose window is still open, newest first. */
  function ListActive(cases: seq<RecoveryCase>, n: nat, now: int, merchant: Option<MerchantId>): (r: seq<CaseId>)
    requires n <= |cases|
    ensures Distinct(r)
    ensures forall i: CaseId :: i in r <==>
              && i < n && !Terminal(cases[i].status) && cases[i].windowEnd > now
              && (merchant.Some? ==> cases[i].merchant == merchant.value)
  {
    if n == 0 then []
    else
      var c := cases[n - 1];
      (if !Terminal(c.status) && c.windowEnd > now && (merchant.Some? ==> c.merchant == merchant.value) then [n - 1] else [])
      + ListActive(cases, n - 1, now, merchant)
  }

  /** After a sweep, the active list is exactly the non-terminal cases. */
  lemma SweepThenActive(s: Store, now: int, merchant: Option<MerchantId>)
    ensures var t := Sweep(s, now, merchant);
            forall i: CaseId :: i in ListActive(t.cases, |t.cases|, now, merchant) <==>
              i < |t.cases| && !Terminal(t.cases[i].status) && (merchant.Some? ==> t.cases[i].merchant == merchant.value)
  {
    SweepCases(s, now, merchant);
  }

  /** Sweeping early and again later leaves the cases as sweeping once, later, does. */
  lemma SweepsAgree(s: Store, early: int, late: int, merchant: Option<MerchantId>)
    requires early <= late
    ensures Sweep(Sweep(s, early, merchant), late, merchant).cases == Sweep(s, late, merchant).cases
  {
    SweepCases(s, early, merchant);
    SweepCases(s, late, merchant);
    SweepCases(Sweep(s, early, merchant), late, merchant);
  }

  // ---------------------------------------------------------------- scanning

  /** An order the scan selects. */
  predicate Selected(o: Order, cutoff: int, merchant: Option<MerchantId>) {
    && (o.core.status == OrderCreated || o.core.status == OrderAttempted)
    && o.core.amountDue > 0 && o.createdAt <= cutoff
    && (merchant.Some? ==> o.merchant == merchant.value)
  }

  /** The ids the query returns, oldest order first; ties come in any order. */
  ghost predicate IsCursor(s: Store, cursor: seq<string>, cutoff: int, merchant: Option<MerchantId>) {
    && Distinct(cursor)
    && (forall id :: id in cursor <==> id in s.orders && Selected(s.orders[id], cutoff, merchant))
    && (forall i, j :: 0 <= i < j < |cursor| ==> s.orders[cursor[i]].createdAt <= s.orders[cursor[j]].createdAt)
  }

  function OrderDraft(o: Order, id: string, now: int, window: nat): RecoveryCase {
    NewCase(o.merchant, o.customer, OrderSource, id, o.core.amountDue, o.core.currency, now, window)
  }

  datatype Scanned = Scanned(store: Store, found: seq<CaseId>)

  /** One turn of the scan's loop. */
  function ScanOrder(sc: Scanned, id: string, now: int, window: nat): (r: Result<Scanned, Error>)
    requires id in sc.store.orders
    ensures r.Ok? ==> r.value.store == sc.store.(cases := r.value.store.cases, audits := r.value.store.audits)
  {
    var order := sc.store.orders[id];
    if order.merchant !in sc.store.merchants then Ok(sc)
    else
      var placed :- GetOrCreate(sc.store, OrderDraft(order, id, now, window), UnpaidOrderScan, id);
      Ok(Scanned(ApplyStops(placed.store, placed.case_, order.merchant, order.customer, id), sc.found + [placed.case_]))
  }

  /** `scan_unpaid_orders` over the first n selected orders. */
  function ScanTo(s: Store, cursor: seq<string>, n: nat, now: int, window: nat): (r: Result<Scanned, Error>)
    requires n <= |cursor| && forall id :: id in cursor ==> id in s.orders
    ensures r.Ok? ==> r.value.store == s.(cases := r.value.store.cases, audits := r.value.store.audits)
  {
    if n == 0 then Ok(Scanned(s, []))
    else
      var before :- ScanTo(s, cursor, n - 1, now, window);
      ScanOrder(before, cursor[n - 1], now, window)
  }

  function Scan(s: Store, cursor: seq<string>, now: int, window: nat): Result<Scanned, Error>
    requires forall id :: id in cursor ==> id in s.orders
  {
    ScanTo(s, cursor, |cursor|, now, window)
  }

  lemma OrderPlacedKeeps(s: Store, id: string, now: int, window: nat)
    requires id in s.orders && MirrorOk(s)
    requires GetOrCreate(s, OrderDraft(s.orders[id], id, now, window), UnpaidOrderScan, id).Ok?
    ensures var t := GetOrCreate(s, OrderDraft(s.orders[id], id, now, window), UnpaidOrderScan, id).value.store;
            Keeps(s, t) && (AmountsOk(s) ==> AmountsOk(t))
  {
    assert s.orders[id].merchant in s.merchants && KnownCustomer(s, s.orders[id].customer);
    GetOrCreateKeeps(s, OrderDraft(s.orders[id], id, now, window), UnpaidOrderScan, id);
  }

  lemma StopsKeepAmounts(s: Store, c: CaseId, merchant: MerchantId, customer: Option<CustomerId>, reference: string)
    requires c < |s.cases| && merchant in s.merchants
    ensures AmountsOk(s) ==> AmountsOk(ApplyStops(s, c, merchant, customer, reference))
  {
  }

  lemma ScanOrderKeeps(sc: Scanned, id: string, now: int, window: nat)
    requires id in sc.store.orders && MirrorOk(sc.store) && ScanOrder(sc, id, now, window).Ok?
    ensures Keeps(sc.store, ScanOrder(sc, id, now, window).value.store)
    ensures AmountsOk(sc.store) ==> AmountsOk(ScanOrder(sc, id, now, window).value.store)
  {
    var order := sc.store.orders[id];
    assert order.merchant in sc.store.merchants;
    var placed := GetOrCreate(sc.store, OrderDraft(order, id, now, window), UnpaidOrderScan, id).value;
    OrderPlacedKeeps(sc.store, id, now, window);
    StopsKeep(placed.store, placed.case_, order.merchant, order.customer, id);
    StopsKeepAmounts(placed.store, placed.case_, order.merchant, order.customer, id);
    KeepsTransitive(sc.store, placed.store, ApplyStops(placed.store, placed.case_, order.merchant, order.customer, id));
  }

  /** What the scan has kept so far. */
  predicate ScanKept(s: Store, t: Store) {
    Keeps(s, t) && (AmountsOk(s) ==> AmountsOk(t))
  }

  lemma ScanTurnKeeps(s: Store, before: Scanned, id: string, now: int, window: nat)
    requires Referential(s) && ScanKept(s, before.store) && id in before.store.orders
    requires ScanOrder(before, id, now, window).Ok?
    ensures ScanKept(s, ScanOrder(before, id, now, window).value.store)
  {
    ScanOrderKeeps(before, id, now, window);
    KeepsTransitive(s, before.store, ScanOrder(before, id, now, window).value.store);
  }

  lemma {:induction false} ScanKeeps(s: Store, cursor: seq<string>, n: nat, now: int, window: nat)
    requires Referential(s) && n <= |cursor|
    requires forall id :: id in cursor ==> id in s.orders
    requires ScanTo(s, cursor, n, now, window).Ok?
    ensures ScanKept(s, ScanTo(s, cursor, n, now, window).value.store)
  {
    if n > 0 {
      ScanKeeps(s, cursor, n - 1, now, window);
      ScanTurnKeeps(s, ScanTo(s, cursor, n - 1, now, window).value, cursor[n - 1], now, window);
    } else {
      KeepsReflexive(s);
    }
  }

  /** The case of the k-th selected order is in place, and closed if the order's merchant or customer
      rules out recovery. */
  predicate ScanSettled(s: Store, t: Store, id: string, c: CaseId)
    requires id in s.orders
  {
    var order := s.orders[id];
    && order.merchant in t.merchants && FindOwned(t.cases, order.merchant, OrderSource, id) == Some(c)
    && (StopReason(t, order.merchant, order.customer).Some? ==> Terminal(t.cases[c].status))
  }

  lemma SettledStays(s: Store, t: Store, u: Store, id: string, c: CaseId)
    requires id in s.orders && ScanSettled(s, t, id, c) && Evolves(t, u)
    ensures ScanSettled(s, u, id, c)
  {
  }

  lemma PlacedFound(s: Store, draft: RecoveryCase, trigger: Trigger, reference: string)
    requires !Terminal(draft.status) && GetOrCreate(s, draft, trigger, reference).Ok?
    ensures var placed := GetOrCreate(s, draft, trigger, reference).value;
            FindOwned(placed.store.cases, draft.merchant, draft.source, draft.sourceId) == Some(placed.case_)
  {
    if FindOwned(s.cases, draft.merchant, draft.source, draft.sourceId).None? {
      FoundLast(s.cases, draft);
    }
  }

  lemma FoundLast(cases: seq<RecoveryCase>, draft: RecoveryCase)
    requires FindOwned(cases, draft.merchant, draft.source, draft.sourceId).None?
    ensures FindOwned(cases + [draft], draft.merchant, draft.source, draft.sourceId) == Some(|cases|)
  {
    assert (cases + [draft])[..|cases|] == cases;
  }

  lemma StopsSameSources(s: Store, c: CaseId, merchant: MerchantId, customer: Option<CustomerId>, reference: string)
    requires c < |s.cases| && merchant in s.merchants
    ensures SameSources(s.cases, ApplyStops(s, c, merchant, customer, reference).cases)
  {
  }

  lemma ScanOrderSettles(sc: Scanned, id: string, now: int, window: nat)
    requires id in sc.store.orders && Referential(sc.store) && ScanOrder(sc, id, now, window).Ok?
    ensures var t := ScanOrder(sc, id, now, window).value;
            && |t.found| == |sc.found| + 1 && t.found[..|sc.found|] == sc.found
            && ScanSettled(sc.store, t.store, id, t.found[|sc.found|])
  {
    var order := sc.store.orders[id];
    assert order.merchant in sc.store.merchants;
    var draft := OrderDraft(order, id, now, window);
    var placed := GetOrCreate(sc.store, draft, UnpaidOrderScan, id).value;
    PlacedFound(sc.store, draft, UnpaidOrderScan, id);
    StopsSameSources(placed.store, placed.case_, order.merchant, order.customer, id);
    FindOwnedStable(placed.store.cases, ScanOrder(sc, id, now, window).value.store.cases,
                    order.merchant, OrderSource, id);
  }

  /** The first n selected orders are settled, each by the case found at its place. */
  predicate FoundSettled(s: Store, t: Scanned, cursor: seq<string>, n: nat)
    requires n <= |cursor| && forall id :: id in cursor ==> id in s.orders
  {
    |t.found| == n && forall k :: 0 <= k < n ==> ScanSettled(s, t.store, cursor[k], t.found[k])
  }

  /** One more turn leaves the earlier orders settled and settles its own. */
  lemma ScanTurnSettles(s: Store, cursor: seq<string>, before: Scanned, n: nat, now: int, window: nat)
    requires 0 < n <= |cursor| && Referential(before.store) && before.store.orders == s.orders
    requires forall id :: id in cursor ==> id in s.orders
    requires FoundSettled(s, before, cursor, n - 1)
    requires ScanOrder(before, cursor[n - 1], now, window).Ok?
    ensures FoundSettled(s, ScanOrder(before, cursor[n - 1], now, window).value, cursor, n)
  {
    var t := ScanOrder(before, cursor[n - 1], now, window).value;
    ScanOrderKeeps(before, cursor[n - 1], now, window);
    ScanOrderSettles(before, cursor[n - 1], now, window);
    SameOrder(before.store, s, t.store, cursor[n - 1], t.found[n - 1]);
    OneMoreSettled(s, cursor, before, t, n);
  }

  lemma OneMoreSettled(s: Store, cursor: seq<string>, before: Scanned, t: Scanned, n: nat)
    requires 0 < n <= |cursor| && (forall id :: id in cursor ==> id in s.orders)
    requires FoundSettled(s, before, cursor, n - 1) && Evolves(before.store, t.store)
    requires |t.found| == n && t.found[..n - 1] == before.found
    requires ScanSettled(s, t.store, cursor[n - 1], t.found[n - 1])
    ensures FoundSettled(s, t, cursor, n)
  {
    forall k | 0 <= k < n - 1 ensures ScanSettled(s, t.store, cursor[k], t.found[k]) {
      assert t.found[k] == before.found[k];
      SettledStays(s, before.store, t.store, cursor[k], before.found[k]);
    }
  }

  lemma SameOrder(s: Store, s': Store, t: Store, id: string, c: CaseId)
    requires s.orders == s'.orders && id in s.orders && ScanSettled(s, t, id, c)
    ensures ScanSettled(s', t, id, c)
  {
  }

  lemma ScanReferential(s: Store, cursor: seq<string>, n: nat, now: int, window: nat)
    requires Referential(s) && n <= |cursor| && forall id :: id in cursor ==> id in s.orders
    requires ScanTo(s, cursor, n, now, window).Ok?
    ensures Referential(ScanTo(s, cursor, n, now, window).value.store)
  {
    ScanKeeps(s, cursor, n, now, window);
  }

  /** Every order the scan has reached has its own ORDER case, returned at its place in the list, and the
      case is closed when the merchant is inactive or the customer opted out. */
  lemma {:induction false} ScanSettles(s: Store, cursor: seq<string>, n: nat, now: int, window: nat)
    requires Referential(s) && n <= |cursor|
    requires forall id :: id in cursor ==> id in s.orders
    requires ScanTo(s, cursor, n, now, window).Ok?
    ensures FoundSettled(s, ScanTo(s, cursor, n, now, window).value, cursor, n)
  {
    if n > 0 {
      ScanSettles(s, cursor, n - 1, now, window);
      ScanReferential(s, cursor, n - 1, now, window);
      ScanTurnSettles(s, cursor, ScanTo(s, cursor, n - 1, now, window).value, n, now, window);
    }
  }

  /** The k-th case is this merchant's case for this order. */
  predicate OrderCase(t: Store, merchant: MerchantId, id: string, i: CaseId) {
    i < |t.cases| && t.cases[i].merchant == merchant && HasSource(t.cases[i], OrderSource, id)
  }

  lemma OnlyOneCase(t: Store, merchant: MerchantId, id: string, c: CaseId)
    requires CasesOk(t) && FindOwned(t.cases, merchant, OrderSource, id) == Some(c)
    ensures forall i: CaseId :: OrderCase(t, merchant, id, i) <==> i == c
  {
    forall i: CaseId | OrderCase(t, merchant, id, i) ensures i == c {
      assert SameSource(t.cases[i], t.cases[c]);
    }
  }

  /** This order has exactly one ORDER case; it was found, and is closed if recovery is ruled out. */
  ghost predicate FoundAlone(t: Scanned, order: Order, id: string, c: CaseId) {
    && (forall i: CaseId :: OrderCase(t.store, order.merchant, id, i) <==> i == c)
    && c in t.found && c < |t.store.cases| && order.merchant in t.store.merchants
    && (RuledOut(t.store, order.merchant, order.customer) ==> Terminal(t.store.cases[c].status))
  }

  lemma SettledAlone(s: Store, t: Scanned, cursor: seq<string>, k: nat)
    requires k < |cursor| && (forall id :: id in cursor ==> id in s.orders)
    requires CasesOk(t.store) && FoundSettled(s, t, cursor, |cursor|)
    ensures FoundAlone(t, s.orders[cursor[k]], cursor[k], t.found[k])
  {
    assert ScanSettled(s, t.store, cursor[k], t.found[k]);
    OnlyOneCase(t.store, s.orders[cursor[k]].merchant, cursor[k], t.found[k]);
  }

  /** An unpaid order, open and old enough, of the merchant asked for. */
  predicate LeftUnpaid(o: Order, cutoff: int, merchant: Option<MerchantId>) {
    && o.core.status != OrderPaid && o.core.amountDue > 0 && o.createdAt <= cutoff
    && (merchant == None || merchant == Some(o.merchant))
  }

  /** Scan completeness: after a scan every order left unpaid has exactly one ORDER case of its merchant;
      the scan returned that case, and it is closed if the merchant is inactive or the customer opted out. */
  lemma ScanCompletes(
    s: Store, cursor: seq<string>, cutoff: int, merchant: Option<MerchantId>, now: int, window: nat, id: string)
    requires Referential(s) && IsCursor(s, cursor, cutoff, merchant) && Scan(s, cursor, now, window).Ok?
    requires id in s.orders && LeftUnpaid(s.orders[id], cutoff, merchant)
    ensures exists c: CaseId :: FoundAlone(Scan(s, cursor, now, window).value, s.orders[id], id, c)
  {
    var t := Scan(s, cursor, now, window).value;
    ScanSettles(s, cursor, |cursor|, now, window);
    ScanReferential(s, cursor, |cursor|, now, window);
    assert Selected(s.orders[id], cutoff, merchant);
    var k :| 0 <= k < |cursor| && cursor[k] == id;
    SettledAlone(s, t, cursor, k);
  }

  /** And nothing else: the scan returns one case an order, each that of an order left unpaid. */
  lemma ScanReturnsOnly(
    s: Store, cursor: seq<string>, cutoff: int, merchant: Option<MerchantId>, now: int, window: nat, k: nat)
    requires Referential(s) && IsCursor(s, cursor, cutoff, merchant) && Scan(s, cursor, now, window).Ok?
    requires k < |Scan(s, cursor, now, window).value.found|
    ensures k < |cursor| && cursor[k] in s.orders && LeftUnpaid(s.orders[cursor[k]], cutoff, merchant)
    ensures var t := Scan(s, cursor, now, window).value; FoundAlone(t, s.orders[cursor[k]], cursor[k], t.found[k])
  {
    ScanSettles(s, cursor, |cursor|, now, window);
    ScanReferential(s, cursor, |cursor|, now, window);
    assert cursor[k] in cursor;
    SettledAlone(s, Scan(s, cursor, now, window).value, cursor, k);
  }

  /** The row an order without a case gets: everything it still owes, from now on. */
  function OrderRow(o: Order, id: string, now: int, window: nat): RecoveryCase {
    RecoveryCase(o.merchant, o.customer, OrderSource, id, o.core.amountDue, o.core.currency, AtRisk, now, now + window,
                 None, None)
  }

  /** One turn of the scan: the order's own case is found or created, stopped if its merchant or the
      order's customer rules it out, and otherwise left as it is, its amount and window included. */
  lemma ScanOrderTable(sc: Scanned, id: string, now: int, window: nat)
    requires id in sc.store.orders && sc.store.orders[id].merchant in sc.store.merchants
    requires ScanOrder(sc, id, now, window).Ok?
    ensures var order, t := sc.store.orders[id], ScanOrder(sc, id, now, window).value;
            && |t.found| == |sc.found| + 1 && t.found[..|sc.found|] == sc.found
            && exists placed: Placed ::
                 && Founded(sc.store, placed, OrderRow(order, id, now, window), UnpaidOrderScan, id)
                 && t.found[|sc.found|] == placed.case_ && placed.case_ < |placed.store.cases|
                 && order.merchant in placed.store.merchants && placed.store.customers == sc.store.customers
                 && placed.store.merchants == sc.store.merchants
                 && Decided(placed.store, t.store, placed.case_, placed.store.cases[placed.case_].amount,
                            StopRuling(placed.store, order.merchant, order.customer), false, id)
  {
    var order := sc.store.orders[id];
    var placed := GetOrCreate(sc.store, OrderDraft(order, id, now, window), UnpaidOrderScan, id).value;
    assert Founded(sc.store, placed, OrderRow(order, id, now, window), UnpaidOrderScan, id);
    StopsDecide(placed.store, placed.case_, order.merchant, order.customer, id);
  }

  lemma StopsDecide(s: Store, c: CaseId, merchant: MerchantId, customer: Option<CustomerId>, reference: string)
    requires c < |s.cases| && merchant in s.merchants
    ensures Decided(s, ApplyStops(s, c, merchant, customer, reference), c, s.cases[c].amount,
                    StopRuling(s, merchant, customer), false, reference)
  {
  }

  /** An order that cannot become a case: it has none yet, and the row it would get is not valid. */
  predicate Unscannable(s: Store, id: string, now: int, window: nat)
    requires id in s.orders
  {
    && FindOwned(s.cases, s.orders[id].merchant, OrderSource, id).None?
    && !ValidCase(OrderDraft(s.orders[id], id, now, window))
  }

  /** Other orders' cases do not give this order one. */
  lemma {:induction false} ScanLeavesOthers(s: Store, cursor: seq<string>, n: nat, now: int, window: nat, id: string)
    requires n <= |cursor| && id in s.orders && id !in cursor[..n]
    requires forall o :: o in cursor ==> o in s.orders
    requires ScanTo(s, cursor, n, now, window).Ok?
    ensures var t := ScanTo(s, cursor, n, now, window).value.store;
            FindOwned(t.cases, s.orders[id].merchant, OrderSource, id).Some? <==>
              FindOwned(s.cases, s.orders[id].merchant, OrderSource, id).Some?
  {
    if n > 0 {
      assert id !in cursor[..n - 1] && cursor[n - 1] in cursor[..n];
      ScanLeavesOthers(s, cursor, n - 1, now, window, id);
      var before := ScanTo(s, cursor, n - 1, now, window).value;
      var t := ScanTo(s, cursor, n, now, window).value;
      var m := s.orders[id].merchant;
      ScanOrderSources(before, cursor[n - 1], now, window);
      var a, b := FindOwned(before.store.cases, m, OrderSource, id), FindOwned(t.store.cases, m, OrderSource, id);
      if a.Some? {
        FindOwnedStable(before.store.cases, t.store.cases, m, OrderSource, id);
      } else {
        assert b.None?;
      }
    }
  }

  lemma ScanOrderSources(sc: Scanned, id: string, now: int, window: nat)
    requires id in sc.store.orders && ScanOrder(sc, id, now, window).Ok?
    ensures var t := ScanOrder(sc, id, now, window).value;
            && SameSources(sc.store.cases, t.store.cases)
            && forall i :: |sc.store.cases| <= i < |t.store.cases| ==> HasSource(t.store.cases[i], OrderSource, id)
  {
  }

  /** Whether one turn fails depends only on its own order. */
  lemma ScanOrderFails(s: Store, sc: Scanned, id: string, now: int, window: nat)
    requires id in s.orders && sc.store.orders == s.orders && s.orders[id].merchant in sc.store.merchants
    requires FindOwned(sc.store.cases, s.orders[id].merchant, OrderSource, id).Some? <==>
               FindOwned(s.cases, s.orders[id].merchant, OrderSource, id).Some?
    ensures ScanOrder(sc, id, now, window).Err? <==> Unscannable(s, id, now, window)
  {
  }

  /** The foreign key of orders. */
  predicate OrdersOwned(s: Store) {
    forall id :: id in s.orders ==> s.orders[id].merchant in s.merchants
  }

  lemma ScanTurnFails(s: Store, cursor: seq<string>, n: nat, now: int, window: nat)
    requires OrdersOwned(s) && 0 < n <= |cursor| && Distinct(cursor)
    requires forall id :: id in cursor ==> id in s.orders
    requires ScanTo(s, cursor, n - 1, now, window).Ok?
    ensures ScanTo(s, cursor, n, now, window).Err? <==> Unscannable(s, cursor[n - 1], now, window)
  {
    var id := cursor[n - 1];
    assert id !in cursor[..n - 1];
    ScanLeavesOthers(s, cursor, n - 1, now, window, id);
    ScanOrderFails(s, ScanTo(s, cursor, n - 1, now, window).value, id, now, window);
  }

  predicate SomeUnscannable(s: Store, cursor: seq<string>, n: nat, now: int, window: nat)
    requires n <= |cursor| && forall id :: id in cursor ==> id in s.orders
  {
    exists k :: 0 <= k < n && Unscannable(s, cursor[k], now, window)
  }

  lemma SomeUnscannableStep(s: Store, cursor: seq<string>, n: nat, now: int, window: nat)
    requires 0 < n <= |cursor| && forall id :: id in cursor ==> id in s.orders
    ensures SomeUnscannable(s, cursor, n, now, window) <==>
              SomeUnscannable(s, cursor, n - 1, now, window) || Unscannable(s, cursor[n - 1], now, window)
  {
  }

  /** The scan is refused exactly when some selected order cannot become a case. */
  lemma {:induction false} ScanFails(s: Store, cursor: seq<string>, n: nat, now: int, window: nat)
    requires OrdersOwned(s) && n <= |cursor| && Distinct(cursor)
    requires forall id :: id in cursor ==> id in s.orders
    ensures ScanTo(s, cursor, n, now, window).Err? <==> SomeUnscannable(s, cursor, n, now, window)
  {
    if n > 0 {
      ScanFails(s, cursor, n - 1, now, window);
      SomeUnscannableStep(s, cursor, n, now, window);
      if ScanTo(s, cursor, n - 1, now, window).Ok? {
        ScanTurnFails(s, cursor, n, now, window);
      }
    }
  }

  lemma SettledTurn(s: Store, t: Store, id: string, c: CaseId, found: seq<CaseId>, now: int, window: nat)
    requires id in s.orders && t.orders == s.orders && ScanSettled(s, t, id, c)
    ensures ScanOrder(Scanned(t, found), id, now, window) == Ok(Scanned(t, found + [c]))
  {
  }

  /** The k-th selected order is a row of s whose case in t is the k-th found one. */
  predicate TurnSettled(s: Store, t: Store, cursor: seq<string>, found: seq<CaseId>, k: nat)
    requires k < |cursor| == |found|
  {
    cursor[k] in s.orders && ScanSettled(s, t, cursor[k], found[k])
  }

  lemma {:induction false} RescanTo(
    s: Store, t: Store, cursor: seq<string>, found: seq<CaseId>, n: nat, now: int, window: nat)
    requires n <= |cursor| == |found| && t.orders == s.orders
    requires forall id :: id in cursor ==> id in t.orders
    requires forall k :: 0 <= k < |cursor| ==> TurnSettled(s, t, cursor, found, k)
    ensures ScanTo(t, cursor, n, now, window) == Ok(Scanned(t, found[..n]))
  {
    if n > 0 {
      RescanTo(s, t, cursor, found, n - 1, now, window);
      RescanTurn(s, t, cursor, found, n, now, window);
    }
  }

  lemma RescanTurn(s: Store, t: Store, cursor: seq<string>, found: seq<CaseId>, n: nat, now: int, window: nat)
    requires 0 < n <= |cursor| == |found| && t.orders == s.orders && TurnSettled(s, t, cursor, found, n - 1)
    requires forall id :: id in cursor ==> id in t.orders
    requires ScanTo(t, cursor, n - 1, now, window) == Ok(Scanned(t, found[..n - 1]))
    ensures ScanTo(t, cursor, n, now, window) == Ok(Scanned(t, found[..n]))
  {
    SettledTurn(s, t, cursor[n - 1], found[n - 1], found[..n - 1], now, window);
    assert found[..n - 1] + [found[n - 1]] == found[..n];
  }

  /** Scanning again at the same time finds the same cases and adds nothing. */
  lemma Rescan(s: Store, cursor: seq<string>, cutoff: int, merchant: Option<MerchantId>, now: int, window: nat)
    requires Referential(s) && IsCursor(s, cursor, cutoff, merchant) && Scan(s, cursor, now, window).Ok?
    ensures var t := Scan(s, cursor, now, window).value;
            IsCursor(t.store, cursor, cutoff, merchant) && Scan(t.store, cursor, now, window) == Ok(t)
  {
    var t := Scan(s, cursor, now, window).value;
    ScanSettles(s, cursor, |cursor|, now, window);
    assert forall k :: 0 <= k < |cursor| ==> TurnSettled(s, t.store, cursor, t.found, k);
    RescanTo(s, t.store, cursor, t.found, |cursor|, now, window);
    assert t.found[..|cursor|] == t.found;
  }
}
