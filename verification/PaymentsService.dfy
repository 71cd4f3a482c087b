/** The services that own the rows: each method carries out one step of the model on the database it holds. */
module PaymentsService {
  import opened JsText
  import opened PaymentStatus
  import opened Payments
  import opened Snapshots
  import opened Routing
  import opened Json
  import L = Ledger

  lemma NothingTried(p: Payment, d: Decision, money: Record, checkout: Checkout)
    ensures NotOpened(p, d, 0, money, checkout) == p
    ensures StoredFailures(p.raw) + FailureRecords(d.eligible, 0) == StoredFailures(p.raw)
  {
  }

  /** One more failure, written on top of those before it. */
  lemma FailedAfter(p: Payment, d: Decision, k: nat, money: Record, checkout: Checkout)
    requires k < |d.eligible|
    ensures var last := k + 1 == |d.eligible|;
      var failure := FailureRecord(d.eligible[k].gateway, if last then None else Some(d.eligible[k + 1].gateway));
      var count := StoredFallbackCount(p.raw) + if last then k else k + 1;
      var failures := StoredFailures(p.raw) + FailureRecords(d.eligible, k) + [failure];
      var routing := RoutingObject(d.requested, d.explicit, d.eligible[k].gateway, count, Some(failure), failures);
      var before := NotOpened(p, d, k, money, checkout);
      && failures == StoredFailures(p.raw) + FailureRecords(d.eligible, k + 1)
      && NotOpened(p, d, k + 1, money, checkout) == before.(
           attempts := before.attempts + [Attempt(d.eligible[k].gateway, Failed, "")],
           asked := before.asked + [d.eligible[k].gateway],
           raw := Merge(p.raw, Patch(map[], routing, money, checkout)))
  {
    hide RoutingObject, Merge, Patch, StoredFallbackCount, StoredFailures, FailureRecord;
    assert FailureRecords(d.eligible, k + 1) == FailureRecords(d.eligible, k) + [FailureAt(d.eligible, k)];
    assert StoredFailures(p.raw) + FailureRecords(d.eligible, k + 1)
        == StoredFailures(p.raw) + FailureRecords(d.eligible, k) + [FailureAt(d.eligible, k)];
    assert FailedAttempts(d.eligible[..k + 1])
        == FailedAttempts(d.eligible[..k]) + [Attempt(d.eligible[k].gateway, Failed, "")];
    assert Gateways(d.eligible[..k + 1]) == Gateways(d.eligible[..k]) + [d.eligible[k].gateway];
    assert p.attempts + FailedAttempts(d.eligible[..k + 1])
        == p.attempts + FailedAttempts(d.eligible[..k]) + [Attempt(d.eligible[k].gateway, Failed, "")];
    assert p.asked + Gateways(d.eligible[..k + 1]) == p.asked + Gateways(d.eligible[..k]) + [d.eligible[k].gateway];
    if k == 0 {
      assert p.attempts + FailedAttempts(d.eligible[..k]) == p.attempts;
      assert p.asked + Gateways(d.eligible[..k]) == p.asked;
    }
  }

  /** The session that succeeds after k failures. */
  lemma OpenedAfter(p: Payment, d: Decision, k: nat, s: Session, money: Record, checkout: Checkout)
    requires k < |d.eligible|
    ensures var g := d.eligible[k].gateway;
      var count := StoredFallbackCount(p.raw) + k;
      var failures := StoredFailures(p.raw) + FailureRecords(d.eligible, k);
      var routing := RoutingObject(d.requested, d.explicit, g, count,
                                   if count > 0 then LastFailure(failures) else None, failures);
      var before := NotOpened(p, d, k, money, checkout);
      Opened(p, d, k, s, money, checkout) == before.(
        attempts := CancelOpen(before.attempts, None) + [Attempt(g, Created, s.redirectUrl)],
        asked := before.asked + [g],
        gateway := Some(g),
        status := if p.status == CREATED then CREATED else PENDING,
        raw := Merge(p.raw, Patch(GatewayRequestSnapshot(g, s), routing, money, checkout)))
  {
    hide RoutingObject, Merge, Patch, StoredFallbackCount, StoredFailures, FailureRecord, GatewayRequestSnapshot,
         CancelOpen, FailureRecords, FailureAt, LastFailure;
    assert Gateways(d.eligible[..k + 1]) == Gateways(d.eligible[..k]) + [d.eligible[k].gateway];
    assert p.asked + Gateways(d.eligible[..k + 1]) == p.asked + Gateways(d.eligible[..k]) + [d.eligible[k].gateway];
    if k == 0 {
      assert p.attempts + FailedAttempts(d.eligible[..k]) == p.attempts;
      assert p.asked + Gateways(d.eligible[..k]) == p.asked;
    }
  }

  class Service {
    var payments: map<string, Payment>
    const ledger: L.LedgerService
    var outbox: seq<Delivery>
    var processed: set<(Gateway, string)>

    ghost function Contents(): Db
      reads this, ledger
    {
      Db(payments, ledger.entries, outbox, processed)
    }

    constructor ()
      ensures fresh(ledger) && Contents() == EMPTY
    {
      payments, outbox, processed := map[], [], {};
      ledger := new L.LedgerService();
    }

    method CancelOpenAttempts(reference: string, except: Option<Gateway>)
      requires reference in payments
      modifies this`payments
      ensures payments == old(payments)[reference :=
        old(payments)[reference].(attempts := CancelOpen(old(payments)[reference].attempts, except))]
    {
      var row := payments[reference];
      var attempts := row.attempts;
      for i := 0 to |attempts|
        invariant |attempts| == |row.attempts|
        invariant forall j :: i <= j < |attempts| ==> attempts[j] == row.attempts[j]
        invariant forall j :: 0 <= j < i ==> attempts[j] == CancelOpen(row.attempts, except)[j]
      {
        if Open(attempts[i]) && except != Some(attempts[i].gateway) {
          attempts := attempts[i := attempts[i].(status := Cancelled)];
        }
      }
      assert attempts == CancelOpen(row.attempts, except);
      payments := payments[reference := row.(attempts := attempts)];
    }

    /** The transaction after a session was opened: all open attempts give way to the new one. */
    method WriteOpened(reference: string, g: Gateway, session: Session, status: Status, raw: Json)
      requires reference in payments
      modifies this`payments
      ensures var row := old(payments)[reference];
        payments == old(payments)[reference := row.(
          attempts := CancelOpen(row.attempts, None) + [Attempt(g, Created, session.redirectUrl)],
          asked := row.asked + [g], gateway := Some(g), status := status, raw := raw)]
    {
      CancelOpenAttempts(reference, None);
      var row := payments[reference];
      var attempt := Attempt(g, Created, session.redirectUrl);
      payments := payments[reference := row.(attempts := row.attempts + [attempt], asked := row.asked + [g],
                                             gateway := Some(g), status := status, raw := raw)];
    }

    /** The transaction after a provider failed. */
    method WriteFailed(reference: string, g: Gateway, raw: Json)
      requires reference in payments
      modifies this`payments
      ensures var row := old(payments)[reference];
        payments == old(payments)[reference := row.(
          attempts := row.attempts + [Attempt(g, Failed, "")], asked := row.asked + [g], raw := raw)]
    {
      var row := payments[reference];
      payments := payments[reference := row.(attempts := row.attempts + [Attempt(g, Failed, "")],
                                             asked := row.asked + [g], raw := raw)];
    }

    /** Tries the candidates in turn; every failure is written down before the next one is tried. */
    method InitializePaymentGatewayWithFallback(reference: string, d: Decision, w: World, money: Record,
                                                checkout: Checkout)
      returns (answered: Option<Gateway>)
      requires reference in payments
      modifies this`payments
      ensures var init := Initialize(old(payments)[reference], d, w, money, checkout);
        payments == old(payments)[reference := init.payment] && answered == init.gateway
    {
      hide NotOpened, Opened, FirstOpened, RoutingObject, Merge, Patch, StoredFallbackCount, StoredFailures,
           FailureRecords, CancelOpen, LastFailure, GatewayRequestSnapshot, FailureRecord, FailureAt;
      var row := payments[reference];
      var fallbackCount, failures := StoredFallbackCount(row.raw), StoredFailures(row.raw);
      ghost var tried := Tried(d, w.plan);
      ghost var k := FirstOpened(tried, w.sessions);
      var index := 0;
      NothingTried(row, d, money, checkout);
      while index < |d.eligible|
        invariant index <= k <= |tried| && tried <= d.eligible
        invariant index < |d.eligible| ==> index < |tried| && fallbackCount == StoredFallbackCount(row.raw) + index
        invariant failures == StoredFailures(row.raw) + FailureRecords(d.eligible, index)
        invariant payments == old(payments)[reference := NotOpened(row, d, index, money, checkout)]
      {
        var g := d.eligible[index].gateway;
        if g in w.sessions {
          var session := w.sessions[g];
          var lastFallback := if fallbackCount > 0 then LastFailure(failures) else None;
          var routing := RoutingObject(d.requested, d.explicit, g, fallbackCount, lastFallback, failures);
          var status := if row.status == CREATED then CREATED else PENDING;
          WriteOpened(reference, g, session, status,
                      Merge(row.raw, Patch(GatewayRequestSnapshot(g, session), routing, money, checkout)));
          OpenedAfter(row, d, index, session, money, checkout);
          return Some(g);
        }
        var nextCandidate := if index + 1 < |d.eligible| then Some(d.eligible[index + 1].gateway) else None;
        var nextFallbackCount := if nextCandidate.Some? then fallbackCount + 1 else fallbackCount;
        var failure := FailureRecord(g, nextCandidate);
        FailedAfter(row, d, index, money, checkout);
        failures := failures + [failure];
        var routing := RoutingObject(d.requested, d.explicit, g, nextFallbackCount, Some(failure), failures);
        WriteFailed(reference, g, Merge(row.raw, Patch(map[], routing, money, checkout)));
        index := index + 1;
        if d.explicit || nextCandidate.None? || !w.plan.fallback {
          return None;
        }
        fallbackCount := nextFallbackCount;
      }
      return None;
    }

    method RecordSuccessfulPaymentLedger(reference: string)
      requires reference in payments
      modifies ledger
      ensures ledger.entries == Recorded(old(ledger.entries), reference, payments[reference])
    {
      var row := payments[reference];
      if row.status != PAID {
        return;
      }
      if HasEntry(ledger.entries, reference) {
        return;
      }
      var _ := ledger.WriteSuccessfulPaymentLedger(WriteFor(reference, row));
    }

    method DeliverEvent(endpoints: seq<string>, event: string, reference: string)
      modifies this`outbox
      ensures outbox == Enqueued(old(outbox), endpoints, event, reference)
    {
      for i := 0 to |endpoints|
        invariant outbox == Enqueued(old(outbox), endpoints[..i], event, reference)
      {
        outbox := outbox + [Delivery(endpoints[i], event, reference)];
        assert Enqueued(old(outbox), endpoints[..i + 1], event, reference)
            == Enqueued(old(outbox), endpoints[..i], event, reference) + [Delivery(endpoints[i], event, reference)];
      }
      assert endpoints[..|endpoints|] == endpoints;
    }

    // ---------- The handlers ----------

    method CreatePayment(reference: string, r: CreateRequest, w: World) returns (reply: Option<Gateway>)
      modifies this`payments
      ensures Contents() == Next(old(Contents()), Step(reference, Create(r), w))
      ensures reference !in old(payments) ==>
        reply == match CreateEffect(r, w) case None => None case Some(e) => e.reply
    {
      hide Decide, Initialize, ParseRequested, MonetizationSnapshot, PriceOf, CurrencyOf;
      ghost var before := Contents();
      CreateNext(before, reference, r, w);
      var requested := ParseRequested(r.gateway);
      if r.amountCents <= 0 || requested.Err? || !PlanAllows(requested.value, w.plan) {
        return None;
      }
      var d := Decide(w.merchant, w.env,
                      QueryFor(NewPayment(r, w, None), requested.value, {}, StrictPriority, r.checkout));
      if d.Err? || reference in payments {
        return None;
      }
      var row := NewPayment(r, w, Some(d.value.selected));
      payments := payments[reference := row];
      reply := InitializePaymentGatewayWithFallback(reference, d.value, w, MonetizationSnapshot(w.policy, row.price),
                                                    r.checkout);
    }

    method ContinueHostedCheckout(reference: string, asked: Option<string>, expired: bool, w: World)
      returns (reply: Option<Gateway>)
      modifies this`payments
      ensures Contents() == Next(old(Contents()), Step(reference, Continue(asked, expired), w))
      ensures reference in old(payments) ==> reply == ContinueEffect(old(payments)[reference], asked, expired, w).reply
    {
      hide Decide, Initialize, ContinuationRequest, StoredRequested, StoredCheckout, RedirectUrl, Money;
      ghost var before := Contents();
      QuietNext(before, Step(reference, Continue(asked, expired), w));
      if reference !in payments || expired {
        return None;
      }
      var row := payments[reference];
      var stored := StoredRequested(row.raw);
      var requested := ContinuationRequest(stored, asked);
      if requested.Err? || (Coerced(stored) == Auto && !PlanAllows(requested.value, w.plan)) || row.status == PAID {
        return None;
      }
      var checkout := StoredCheckout(row.raw);
      var d := Decide(w.merchant, w.env, QueryFor(row, requested.value, {}, StrictPriority, checkout));
      if d.Err? {
        return None;
      }
      if row.gateway == Some(d.value.selected) && RedirectUrl(row.raw, LatestUrl(row.attempts)).Some? {
        return Some(d.value.selected);
      }
      reply := InitializePaymentGatewayWithFallback(reference, d.value, w, Money(row, w), checkout);
    }

    /** The next gateway's session is opened first; only then are the other gateways' attempts cancelled. */
    method CreateFailoverAttempt(reference: string, w: World) returns (reply: Option<Gateway>)
      modifies this`payments
      ensures Contents() == Next(old(Contents()), Step(reference, Failover, w))
      ensures reference in old(payments) ==> reply == FailoverEffect(old(payments)[reference], w).reply
    {
      hide Decide, StoredRequested, StoredCheckout, RedirectUrl, Merge, Patch, RoutingObject, GatewayRequestSnapshot,
           CancelOpen, StoredFallbackCount, GatewayName;
      QuietNext(Contents(), Step(reference, Failover, w));
      if reference !in payments || !FailoverAllowed(payments[reference], w.plan) {
        return None;
      }
      var row := payments[reference];
      var checkout := StoredCheckout(row.raw);
      var decision := Decide(w.merchant, w.env, QueryFor(row, Auto, Attempted(row), FailoverPriority, checkout));
      if decision.Err? {
        return None;
      }
      var d := decision.value;
      var g := d.selected;
      payments := payments[reference := row.(asked := row.asked + [g])];
      if g !in w.sessions {
        return None;
      }
      var session := w.sessions[g];
      var lastFallback := Obj(map["fromGateway" :=
                                    if row.gateway.Some? then Text(GatewayName(row.gateway.value)) else Null,
                                  "toGateway" := Text(GatewayName(g))]);
      var routing := RoutingObject(d.requested, d.explicit, g, StoredFallbackCount(row.raw) + 1, Some(lastFallback),
                                   []);
      CancelOpenAttempts(reference, Some(g));
      var current := payments[reference];
      payments := payments[reference := current.(
        attempts := current.attempts + [Attempt(g, Created, session.redirectUrl)],
        gateway := Some(g), status := PENDING,
        raw := Merge(row.raw, Patch(GatewayRequestSnapshot(g, session), routing, map[], checkout)))];
      return Some(g);
    }

    /** The direct Ozow entry point, on a new reference or an existing one. */
    method InitiateOzowPayment(reference: string, r: CreateRequest, w: World) returns (reply: Option<Gateway>)
      modifies this`payments
      ensures Contents() == Next(old(Contents()), Step(reference, InitiateOzow(r), w))
    {
      hide CreateEffect, Merge, Patch, RoutingObject, GatewayRequestSnapshot, Money, CurrencyOf;
      InitiateOzowNext(Contents(), reference, r, w);
      if !OzowConfigured(w) {
        return None;
      }
      if reference !in payments {
        CreateNext(Contents(), reference, r.(gateway := Some("OZOW")), w);
        reply := CreatePayment(reference, r.(gateway := Some("OZOW")), w);
        return;
      }
      var row := payments[reference];
      if row.merchantId != r.merchantId || row.price.base != r.amountCents || row.currency != CurrencyOf(r.currency) {
        return None;
      }
      if (row.gateway.Some? && row.gateway != Some(OZOW)) || row.status == PAID {
        return None;
      }
      payments := payments[reference := row.(asked := row.asked + [OZOW])];
      if OZOW !in w.sessions {
        return None;
      }
      var session := w.sessions[OZOW];
      var routing := RoutingObject(Choice(OZOW), true, OZOW, 0, None, []);
      var current := payments[reference];
      payments := payments[reference := current.(
        attempts := current.attempts + [Attempt(OZOW, Created, session.redirectUrl)],
        gateway := Some(OZOW), status := if row.status == CREATED then CREATED else PENDING,
        raw := Merge(row.raw, Patch(GatewayRequestSnapshot(OZOW, session), routing, Money(row, w), r.checkout)))];
      return Some(OZOW);
    }

    /** Writes a reported status to the row and to the latest attempt. */
    method ApplyReport(reference: string, g: Gateway, next: Status, raw: Json)
      requires reference in payments
      modifies this`payments
      ensures payments == old(payments)[reference := Settle(old(payments)[reference], g, next, raw)]
    {
      hide AttemptStatusFor;
      var row := payments[reference];
      var attemptStatus := AttemptStatusFor(next);
      var attempts := UpdateLatestAttempt(row.attempts, attemptStatus);
      payments := payments[reference := row.(status := next, gateway := Some(g), raw := raw, attempts := attempts)];
    }

    method UpdateLatestAttempt(attempts: seq<Attempt>, status: Option<AttemptStatus>) returns (updated: seq<Attempt>)
      ensures updated == SetLatest(attempts, status)
    {
      if attempts != [] && status.Some? {
        var latest := attempts[|attempts| - 1];
        if latest.status != status.value {
          return attempts[|attempts| - 1 := latest.(status := status.value)];
        }
      }
      LatestSettled(attempts);
      return attempts;
    }

    /** A verified webhook: deduplicated by its event id, applied, recorded in the ledger and announced. */
    method HandleWebhook(reference: string, eventId: string, hook: Hook, w: World)
      modifies this, ledger
      ensures Contents() == Next(old(Contents()), Step(reference, Receive(eventId, hook), w))
    {
      hide HookStatus, HookRaw, Settle, Recorded, Enqueued, CanTransition, WebhookEventFor;
      ReceiveNext(Contents(), reference, eventId, hook, w);
      var mapped := HookStatus(hook);
      if mapped.None? || reference !in payments {
        return;
      }
      var next := mapped.value;
      var row := payments[reference];
      var seen := (HookGateway(hook), eventId) in processed;
      processed := processed + {(HookGateway(hook), eventId)};
      if seen || (row.status == PAID && next == PAID) || !CanTransition(row.status, next) {
        if !hook.PayfastItn? && next == PAID && row.status == PAID {
          RecordSuccessfulPaymentLedger(reference);
        }
        return;
      }
      ApplyReport(reference, HookGateway(hook), next, HookRaw(row.raw, hook));
      if next == PAID {
        RecordSuccessfulPaymentLedger(reference);
      }
      if row.status != next && (!hook.PayfastItn? || next == PAID) {
        var event := WebhookEventFor(next);
        if event.Some? {
          DeliverEvent(w.endpoints, event.value, reference);
        }
      }
    }

    /**
     * A status lookup: the provider's answer is weighed against the stored record and written if the table admits it.
     */
    method GetPaymentStatus(reference: string, lookup: Lookup, w: World)
      modifies this`payments, ledger
      ensures Contents() == Next(old(Contents()), Step(reference, LookUp(lookup), w))
    {
      hide LookupStatus, LookupRaw, Settle, Recorded, Enqueued, CanTransition;
      LookUpNext(Contents(), reference, lookup, w);
      if reference !in payments {
        return;
      }
      var row := payments[reference];
      var g := LookupGateway(lookup);
      if row.gateway.Some? && row.gateway != Some(g) {
        return;
      }
      var next := LookupStatus(row, lookup);
      if !LookupWrites(row, lookup) {
        return;
      }
      ApplyReport(reference, g, next, LookupRaw(row.raw, lookup));
      if next == PAID && (lookup.YocoLookup? || row.status != PAID) {
        RecordSuccessfulPaymentLedger(reference);
      }
    }
  }

  lemma LatestSettled(attempts: seq<Attempt>)
    ensures attempts != [] ==> SetLatest(attempts, Some(attempts[|attempts| - 1].status)) == attempts
  {
  }

  lemma InitiateOzowNext(db: Db, reference: string, r: CreateRequest, w: World)
    ensures var s := Step(reference, InitiateOzow(r), w);
      Next(db, s) ==
        if reference in db.payments
        then db.(payments := db.payments[reference := InitiateOzowEffect(db.payments[reference], r, w).payment])
        else if OzowConfigured(w) then Next(db, Step(reference, Create(r.(gateway := Some("OZOW"))), w))
        else db
    ensures reference in db.payments ==> db.payments[reference := db.payments[reference]] == db.payments
  {
    hide CreateEffect, OzowReinitiated, Recorded, Enqueued, CurrencyOf;
  }

  lemma ReceiveNext(db: Db, reference: string, eventId: string, hook: Hook, w: World)
    ensures var s := Step(reference, Receive(eventId, hook), w);
      Next(db, s) ==
        if reference in db.payments
        then Apply(db, reference,
                   WebhookEffect(db.payments[reference], hook, (HookGateway(hook), eventId) in db.processed),
                   w.endpoints).(processed := ProcessedAfter(s, db.processed))
        else db
    ensures reference in db.payments ==> db.payments[reference := db.payments[reference]] == db.payments
  {
    hide WebhookEffect, Recorded, Enqueued, HookStatus;
  }

  lemma LookUpNext(db: Db, reference: string, lookup: Lookup, w: World)
    ensures Next(db, Step(reference, LookUp(lookup), w)) ==
      if reference in db.payments then Apply(db, reference, LookupEffect(db.payments[reference], lookup), w.endpoints)
      else db
    ensures reference in db.payments ==> db.payments[reference := db.payments[reference]] == db.payments
  {
    hide LookupEffect, Recorded, Enqueued;
  }

  /** A step that records and announces nothing and only touches its payment. */
  lemma QuietNext(db: Db, s: Step)
    requires !s.action.Receive? && !s.action.Create? && !s.action.InitiateOzow?
    ensures s.reference !in db.payments ==> Next(db, s) == db
    ensures s.reference in db.payments && (s.action.Continue? || s.action.Failover?) ==>
      Next(db, s)
        == db.(payments := db.payments[s.reference := EffectOf(db.payments[s.reference], s, db.processed).payment])
    ensures s.reference in db.payments ==> db.payments[s.reference := db.payments[s.reference]] == db.payments
  {
    hide ContinueDecision, FailoverDecision, Initialize, FailedOver, Recorded, Enqueued, LookupEffect;
  }

  lemma CreateNext(db: Db, reference: string, r: CreateRequest, w: World)
    ensures reference in db.payments ==> Next(db, Step(reference, Create(r), w)) == db
    ensures reference !in db.payments ==>
      Next(db, Step(reference, Create(r), w)) ==
        match CreateEffect(r, w) case None => db case Some(e) => db.(payments := db.payments[reference := e.payment])
  {
    hide CreateDecision, Initialize, Recorded, Enqueued;
    if reference in db.payments {
      assert db.payments[reference := db.payments[reference]] == db.payments;
    }
  }
}
