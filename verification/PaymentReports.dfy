/** What a provider's report does to a payment's row, to the ledger and to the queue of outbound deliveries. */
module PaymentReports {
  import opened JsText
  import opened PaymentStatus
  import opened Payments
  import opened Snapshots
  import opened Routing
  import opened ProviderStatus
  import opened PaymentBooks
  import opened PaymentOutcomes
  import opened Json
  import L = Ledger

  // ---------- The row ----------

  /** A new report counts for an unsettled payment, and for one that has failed or been cancelled just so. */
  predicate TakesEffect(current: Status, next: Status, seen: bool) {
    !seen && (current == CREATED || current == PENDING || (current == next && next != PAID))
  }

  predicate SentBy(h: Hook, g: Gateway) {
    match h
    case PayfastItn(_, _) => g == PAYFAST
    case OzowNotify(_, _) => g == OZOW
    case PaystackEvent(_, _, _) => g == PAYSTACK
    case YocoEvent(_, _, _, _) => g == YOCO
  }

  predicate AttemptSays(a: AttemptStatus, next: Status) {
    && (next == PAID ==> a == Succeeded) && (next == FAILED ==> a == Failed)
    && (next == CANCELLED ==> a == Cancelled) && (next == PENDING ==> a == Pending)
  }

  /**
   * The report is on the row and on the latest attempt; terms, earlier attempts and provider calls are as they were.
   */
  ghost predicate OnRow(p: Payment, q: Payment, h: Hook, next: Status) {
    && q.status == next && q.gateway.Some? && SentBy(h, q.gateway.value)
    && SameTerms(p, q) && q.currency == p.currency && q.customerEmail == p.customerEmail && q.asked == p.asked
    && |q.attempts| == |p.attempts|
    && (p.attempts != [] ==>
          var n := |p.attempts| - 1;
          q.attempts[..n] == p.attempts[..n] && q.attempts[n].gateway == p.attempts[n].gateway
          && q.attempts[n].redirectUrl == p.attempts[n].redirectUrl && AttemptSays(q.attempts[n].status, next))
  }

  lemma ReportedStatus(h: Hook)
    ensures HookStatus(h).Some? ==> HookStatus(h).value in {PENDING, PAID, FAILED, CANCELLED}
    ensures SentBy(h, HookGateway(h))
  {
    hide NormalizeState, MapPayfast, MapOzow, MapPaystackEvent, MapYocoEvent;
  }

  /** A webhook that takes effect is on the row; any other leaves it as it is. */
  lemma ReportOnRow(p: Payment, h: Hook, seen: bool)
    ensures var q := WebhookEffect(p, h, seen).payment;
      match HookStatus(h)
      case None => q == p
      case Some(next) => if TakesEffect(p.status, next, seen) then OnRow(p, q, h, next) else q == p
  {
    ReportedStatus(h);
    hide HookStatus, HookRaw, HookGateway, SentBy;
  }

  // ---------- The database ----------

  /** One delivery of the event for each endpoint, in order. */
  function Announcing(outbox: seq<Delivery>, endpoints: seq<string>, event: string, reference: string): seq<Delivery> {
    outbox + seq(|endpoints|, i requires 0 <= i < |endpoints| => Delivery(endpoints[i], event, reference))
  }

  function EventName(next: Status): string {
    if next == PAID then "payment_intent.succeeded"
    else if next == FAILED then "payment_intent.failed"
    else if next == CANCELLED then "payment_intent.cancelled"
    else "payment_intent.processing"
  }

  /** Everybody hears of a changed status; of PayFast's reports only a success is passed on. */
  predicate IsAnnounced(current: Status, next: Status, seen: bool, h: Hook) {
    TakesEffect(current, next, seen) && current != next && (next == PAID || !h.PayfastItn?)
  }

  function Received(db: Db, reference: string, id: string, h: Hook, w: World): Db {
    Next(db, Step(reference, Receive(id, h), w))
  }

  lemma ReceivedIs(db: Db, reference: string, id: string, h: Hook, w: World)
    requires reference in db.payments && HookStatus(h).Some?
    ensures var e := WebhookEffect(db.payments[reference], h, (HookGateway(h), id) in db.processed);
      var after := Received(db, reference, id, h, w);
      && after.payments == db.payments[reference := e.payment]
      && after.entries == (if e.record then Recorded(db.entries, reference, e.payment) else db.entries)
      && after.outbox == (if e.notify.Some? then Announcing(db.outbox, w.endpoints, e.notify.value, reference)
                          else db.outbox)
      && after.processed == db.processed + {(HookGateway(h), id)}
  {
    hide WebhookEffect, Recorded, HookStatus;
  }

  lemma ReportNotifies(p: Payment, h: Hook, seen: bool)
    requires HookStatus(h).Some?
    ensures var e, next := WebhookEffect(p, h, seen), HookStatus(h).value;
      && e.notify == (if IsAnnounced(p.status, next, seen, h) then Some(EventName(next)) else None)
      && (e.record <==> next == PAID && (TakesEffect(p.status, next, seen) || (p.status == PAID && !h.PayfastItn?)))
  {
    ReportedStatus(h);
    hide HookStatus, HookRaw, HookGateway, Settle;
  }

  lemma PaidHasEntries(db: Db, reference: string)
    requires Books(db) && PaidIn(db.payments, reference)
    ensures HasEntry(db.entries, reference)
  {
    assert PaymentMatches(db.entries, reference, db.payments[reference]);
    NoEntryNoShares(db.entries, reference);
    hide Shares, HasEntry, Announced, L.RunningBalances, L.ZeroSum;
  }

  /**
   * What any report does to the database: it is on the row if it takes effect; its event id is spent; the endpoints
   * hear of it in order, if it is announced at all; and unless a payment becomes PAID by it, the ledger is as it was.
   */
  lemma ReportInDb(db: Db, reference: string, id: string, h: Hook, w: World)
    requires Books(db) && reference in db.payments && HookStatus(h).Some?
    ensures var p, next, after := db.payments[reference], HookStatus(h).value, Received(db, reference, id, h, w);
      var seen := (HookGateway(h), id) in db.processed;
      && after.payments.Keys == db.payments.Keys
      && (forall r :: r in db.payments && r != reference ==> after.payments[r] == db.payments[r])
      && (if TakesEffect(p.status, next, seen) then OnRow(p, after.payments[reference], h, next)
          else after.payments[reference] == p)
      && after.processed == db.processed + {(HookGateway(h), id)}
      && after.outbox == (if IsAnnounced(p.status, next, seen, h)
                          then Announcing(db.outbox, w.endpoints, EventName(next), reference) else db.outbox)
      && (next != PAID || !TakesEffect(p.status, next, seen) ==> after.entries == db.entries)
  {
    hide HookStatus, HookGateway, WebhookEffect, Received, OnRow, EventName, Announcing, HasEntry, Books;
    var p, seen := db.payments[reference], (HookGateway(h), id) in db.processed;
    ReceivedIs(db, reference, id, h, w);
    ReportOnRow(p, h, seen);
    ReportNotifies(p, h, seen);
    if p.status == PAID {
      PaidHasEntries(db, reference);
    }
  }

  lemma Booked(db: Db, after: Db, reference: string)
    requires Books(db) && Books(after) && reference in db.payments && db.payments[reference].status != PAID
    requires PaidIn(after.payments, reference) && SameTerms(db.payments[reference], after.payments[reference])
    requires after.payments.Keys == db.payments.Keys
    requires forall r :: r in db.payments && r != reference ==> after.payments[r] == db.payments[r]
    ensures var p := db.payments[reference];
      Shares(db.entries, reference) == [] && Shares(after.entries, reference) == CompleteSet(p.merchantId, p.price)
    ensures forall r :: r != reference ==> Shares(after.entries, r) == Shares(db.entries, r)
  {
    hide Shares, CompleteSet, Announced, L.RunningBalances, L.ZeroSum, Priced;
    assert PaymentMatches(db.entries, reference, db.payments[reference]);
    assert PaymentMatches(after.entries, reference, after.payments[reference]);
    forall r | r != reference
      ensures Shares(after.entries, r) == Shares(db.entries, r)
    {
      if r in db.payments {
        assert PaymentMatches(db.entries, r, db.payments[r]) && PaymentMatches(after.entries, r, after.payments[r]);
      }
    }
  }

  lemma ReceivedKeepsBooks(db: Db, reference: string, id: string, h: Hook, w: World)
    requires Books(db) && DistinctEndpoints(w.endpoints)
    ensures Books(Received(db, reference, id, h, w))
  {
    hide Books, Next, DistinctEndpoints;
    NextKeepsBooks(db, Step(reference, Receive(id, h), w));
  }

  lemma {:induction false} CountAnnouncing(outbox: seq<Delivery>, endpoints: seq<string>, event: string,
                                           reference: string, endpoint: string)
    requires DistinctEndpoints(endpoints)
    ensures multiset(Announcing(outbox, endpoints, event, reference))[Delivery(endpoint, event, reference)]
         == multiset(outbox)[Delivery(endpoint, event, reference)] + if endpoint in endpoints then 1 else 0
  {
    if endpoints == [] {
      assert Announcing(outbox, endpoints, event, reference) == outbox;
    } else {
      var n := |endpoints| - 1;
      CountAnnouncing(outbox, endpoints[..n], event, reference, endpoint);
      assert Announcing(outbox, endpoints, event, reference)
          == Announcing(outbox, endpoints[..n], event, reference) + [Delivery(endpoints[n], event, reference)];
      assert endpoint in endpoints <==> endpoint in endpoints[..n] || endpoint == endpoints[n];
    }
  }

  lemma UnpaidIsUnannounced(db: Db, endpoint: string, reference: string)
    requires Books(db) && !PaidIn(db.payments, reference)
    ensures Announcements(db.outbox, Delivery(endpoint, SUCCEEDED, reference)) == 0
  {
  }

  /**
   * A success that is new, for a payment that is not settled: the payment is PAID through the gateway that sent it, its
   * latest attempt SUCCEEDED; exactly the complete set of its entries is added to the ledger, in its merchant's books;
   * and every active endpoint is sent payment_intent.succeeded once.
   */
  lemma SuccessIsBooked(db: Db, reference: string, id: string, h: Hook, w: World)
    requires Books(db) && DistinctEndpoints(w.endpoints)
    requires reference in db.payments && db.payments[reference].status in {CREATED, PENDING}
    requires HookStatus(h) == Some(PAID) && (HookGateway(h), id) !in db.processed
    ensures var p, after := db.payments[reference], Received(db, reference, id, h, w);
      && reference in after.payments && OnRow(p, after.payments[reference], h, PAID)
      && Shares(db.entries, reference) == [] && Shares(after.entries, reference) == CompleteSet(p.merchantId, p.price)
      && (forall r :: r != reference ==> Shares(after.entries, r) == Shares(db.entries, r))
      && |after.outbox| == |db.outbox| + |w.endpoints|
      && (forall endpoint ::
            Announcements(after.outbox, Delivery(endpoint, "payment_intent.succeeded", reference))
              == if endpoint in w.endpoints then 1 else 0)
  {
    hide HookStatus, HookGateway, Received, Books, Shares, CompleteSet, DistinctEndpoints;
    ReportInDb(db, reference, id, h, w);
    ReceivedKeepsBooks(db, reference, id, h, w);
    Booked(db, Received(db, reference, id, h, w), reference);
    forall endpoint
      ensures Announcements(Received(db, reference, id, h, w).outbox,
                            Delivery(endpoint, "payment_intent.succeeded", reference))
           == if endpoint in w.endpoints then 1 else 0
    {
      UnpaidIsUnannounced(db, endpoint, reference);
      CountAnnouncing(db.outbox, w.endpoints, SUCCEEDED, reference, endpoint);
    }
  }

  /** An event id that is spent changes nothing: neither rows nor ledger nor queue. */
  lemma SpentEventChangesNothing(db: Db, reference: string, id: string, h: Hook, w: World)
    requires Books(db) && reference in db.payments && HookStatus(h).Some?
    requires (HookGateway(h), id) in db.processed
    ensures Received(db, reference, id, h, w) == db
  {
    hide HookStatus, HookGateway, Books, OnRow, Received, EventName, Announcing;
    ReportInDb(db, reference, id, h, w);
    var last := Received(db, reference, id, h, w);
    assert last.payments == db.payments && last.processed == db.processed;
  }

  lemma EventIsSpent(db: Db, reference: string, id: string, h: Hook, w: World)
    requires Books(db) && DistinctEndpoints(w.endpoints) && reference in db.payments && HookStatus(h).Some?
    ensures var after := Received(db, reference, id, h, w);
      Books(after) && reference in after.payments && (HookGateway(h), id) in after.processed
  {
    hide HookStatus, HookGateway, Books, Received, WebhookEffect, Recorded, Announcing, DistinctEndpoints;
    ReceivedKeepsBooks(db, reference, id, h, w);
    ReceivedIs(db, reference, id, h, w);
  }

  /** So an event delivered again changes nothing, whatever it says the second time. */
  lemma RedeliveryChangesNothing(db: Db, reference: string, id: string, h: Hook, w: World, again: Hook, later: World)
    requires Books(db) && DistinctEndpoints(w.endpoints) && reference in db.payments
    requires HookStatus(h).Some? && HookStatus(again).Some? && HookGateway(again) == HookGateway(h)
    ensures var after := Received(db, reference, id, h, w); Received(after, reference, id, again, later) == after
  {
    hide HookStatus, HookGateway, Books, Received, DistinctEndpoints;
    EventIsSpent(db, reference, id, h, w);
    SpentEventChangesNothing(Received(db, reference, id, h, w), reference, id, again, later);
  }

  // ---------- Lookups ----------

  function LookedUp(db: Db, reference: string, l: Lookup, w: World): Db {
    Next(db, Step(reference, LookUp(l), w))
  }

  lemma LookedUpIs(db: Db, reference: string, l: Lookup, w: World)
    requires reference in db.payments
    ensures var e := LookupEffect(db.payments[reference], l);
      var after := LookedUp(db, reference, l, w);
      && after.payments == db.payments[reference := e.payment]
      && after.entries == (if e.record then Recorded(db.entries, reference, e.payment) else db.entries)
      && (e.notify.None? ==> after.outbox == db.outbox) && after.processed == db.processed
  {
    hide LookupEffect, Recorded;
  }

  /** The answer of an Ozow lookup is taken as it is. */
  lemma OzowLookupWords(p: Payment, stored: Record)
    ensures LookupStatus(p, OzowLookup(SaysSucceeded, stored)) == PAID
    ensures LookupStatus(p, OzowLookup(SaysFailed, stored)) == FAILED
    ensures LookupStatus(p, OzowLookup(SaysPending, stored)) == PENDING
  {
  }

  /** Found paid by the lookup: the row and its latest attempt say so, and the gateway is the one that answered. */
  ghost predicate FoundPaid(p: Payment, q: Payment, l: Lookup) {
    && q.status == PAID && SameTerms(p, q) && (exists g :: AnsweredBy(l, g) && q.gateway == Some(g))
    && |q.attempts| == |p.attempts|
    && (p.attempts != [] ==> q.attempts[|p.attempts| - 1].status == Succeeded)
  }

  lemma LookupFindsPaid(p: Payment, l: Lookup)
    requires p.status in {CREATED, PENDING} && LookupStatus(p, l) == PAID
    requires p.gateway.Some? ==> AnsweredBy(l, p.gateway.value)
    ensures FoundPaid(p, LookupEffect(p, l).payment, l) && LookupEffect(p, l).notify == None
  {
    LookupOutcome(p, l);
    LookupIsLawful(p, l);
    hide LookupEffect, LookupStatus;
  }

  /**
   * A lookup that finds an unsettled payment paid, at the gateway it is on, has the same effect on row and ledger as a
   * webhook: PAID, the latest attempt SUCCEEDED and the complete set of entries. But nobody is told.
   */
  lemma LookupIsBooked(db: Db, reference: string, l: Lookup, w: World)
    requires Books(db) && DistinctEndpoints(w.endpoints)
    requires reference in db.payments && db.payments[reference].status in {CREATED, PENDING}
    requires LookupStatus(db.payments[reference], l) == PAID
    requires db.payments[reference].gateway.Some? ==> AnsweredBy(l, db.payments[reference].gateway.value)
    ensures var p, after := db.payments[reference], LookedUp(db, reference, l, w);
      && reference in after.payments && FoundPaid(p, after.payments[reference], l)
      && Shares(after.entries, reference) == CompleteSet(p.merchantId, p.price)
      && (forall r :: r != reference ==> Shares(after.entries, r) == Shares(db.entries, r))
      && after.outbox == db.outbox && after.processed == db.processed
  {
    hide LookupEffect, LookupStatus, LookedUp, Books, Shares, CompleteSet, DistinctEndpoints, AnsweredBy, FoundPaid,
         Recorded;
    var p, after := db.payments[reference], LookedUp(db, reference, l, w);
    LookupFindsPaid(p, l);
    LookedUpIs(db, reference, l, w);
    LookedUpKeepsBooks(db, reference, l, w);
    FoundPaidIsPaid(p, after.payments[reference], l);
    Booked(db, after, reference);
  }

  lemma FoundPaidIsPaid(p: Payment, q: Payment, l: Lookup)
    requires FoundPaid(p, q, l)
    ensures q.status == PAID && SameTerms(p, q)
  {
  }

  lemma LookedUpKeepsBooks(db: Db, reference: string, l: Lookup, w: World)
    requires Books(db) && DistinctEndpoints(w.endpoints)
    ensures Books(LookedUp(db, reference, l, w))
  {
    hide Books, Next, DistinctEndpoints;
    NextKeepsBooks(db, Step(reference, LookUp(l), w));
  }

  // ---------- Lookups after a webhook ----------

  /** Once Paystack's charge event is on the row, every Paystack lookup comes to the status it said. */
  lemma PaystackLookupAgrees(p: Payment, event: string, status: Option<string>, details: Record,
                             answered: Option<string>, later: Record)
    requires NormalizeState(Some(event)) in {Some("charge.success"), Some("charge.failed")}
    requires TakesEffect(p.status, MapPaystackEvent(NormalizeState(Some(event)), status), false)
    ensures var q := WebhookEffect(p, PaystackEvent(Some(event), status, details), false).payment;
      LookupStatus(q, PaystackLookup(answered, later)) == q.status
  {
    hide NormalizeState, PaystackNext, PaystackPatch, Merge, WebhookEffect, HookStatus, MapPaystackEvent, TakesEffect,
         LookupStatus, AfterPaystackLookups;
    PaystackRow(p, event, status, details);
    NormalTwice(event);
    var q := WebhookEffect(p, PaystackEvent(Some(event), status, details), false).payment;
    PaystackLookupRepeatsWebhook(p.raw, details, NormalizeState(Some(event)).value, status, [], answered);
    NoLookups(q.raw);
    LookupWeighs(q, None, false, false, answered, later);
  }

  lemma NormalTwice(event: string)
    requires NormalizeState(Some(event)) in {Some("charge.success"), Some("charge.failed")}
    ensures NormalizeState(NormalizeState(Some(event))) == NormalizeState(Some(event))
  {
    hide NormalizeState;
    ChargeEvents();
  }

  lemma PaystackRow(p: Payment, event: string, status: Option<string>, details: Record)
    requires NormalizeState(Some(event)) in {Some("charge.success"), Some("charge.failed")}
    requires TakesEffect(p.status, MapPaystackEvent(NormalizeState(Some(event)), status), false)
    ensures var h, name := PaystackEvent(Some(event), status, details), NormalizeState(Some(event));
      var q := WebhookEffect(p, h, false).payment;
      && HookStatus(h) == Some(MapPaystackEvent(name, status)) && q.status == MapPaystackEvent(name, status)
      && q.raw == Merge(p.raw, PaystackPatch(details, name, status))
  {
    hide NormalizeState, MapPaystackEvent, PaystackPatch, Merge;
  }

  /** The same for Yoco, whatever its API answers and although the checkout may have expired by then. */
  lemma YocoLookupAgrees(p: Payment, event: Option<string>, payment: Option<string>, id: Option<string>,
                         details: Record, checkout: Option<YocoAnswer>, failed: bool, expired: bool, later: Record)
    requires CleanText(event) && CleanText(payment) && MapYocoEvent(event, payment).Some?
    requires TakesEffect(p.status, MapYocoEvent(event, payment).value, false)
    ensures var q := WebhookEffect(p, YocoEvent(event, payment, id, details), false).payment;
      LookupStatus(q, YocoLookup(checkout, failed, expired, later)) == q.status
  {
    hide YocoNext, YocoPatch, Merge, WebhookEffect, MapYocoEvent, CleanText, LookupStatus, TakesEffect,
         AfterYocoLookups;
    YocoRow(p, event, payment, id, details);
    var q := WebhookEffect(p, YocoEvent(event, payment, id, details), false).payment;
    var stored := if q.status == PAID then Some("completed") else None;
    YocoLookupRepeatsWebhook(p.raw, details, event, payment, stored, id, [], q.status, checkout, expired);
    NoLookups(q.raw);
    LookupWeighs(q, checkout, failed, expired, None, later);
  }

  lemma NoLookups(raw: Json)
    ensures AfterYocoLookups(raw, []) == raw && AfterPaystackLookups(raw, []) == raw
  {
  }

  lemma LookupWeighs(q: Payment, checkout: Option<YocoAnswer>, failed: bool, expired: bool, answered: Option<string>,
                     later: Record)
    ensures LookupStatus(q, YocoLookup(checkout, failed, expired, later))
         == YocoNext(q.raw, q.status, checkout, expired)
    ensures LookupStatus(q, PaystackLookup(answered, later)) == PaystackNext(q.raw, answered)
  {
    hide YocoNext, PaystackNext;
  }

  lemma YocoRow(p: Payment, event: Option<string>, payment: Option<string>, id: Option<string>, details: Record)
    requires MapYocoEvent(event, payment).Some? && TakesEffect(p.status, MapYocoEvent(event, payment).value, false)
    ensures var q := WebhookEffect(p, YocoEvent(event, payment, id, details), false).payment;
      var next := MapYocoEvent(event, payment).value;
      && q.status == next
      && q.raw == Merge(p.raw, YocoPatch(details, event, payment, if next == PAID then Some("completed") else None, id))
  {
    hide MapYocoEvent, YocoPatch, Merge;
  }

  /** An event of Paystack's that is about no charge, and one of Yoco's that says nothing, change nothing at all. */
  lemma OtherEventsAreIgnored(db: Db, reference: string, id: string, h: Hook, w: World)
    requires reference in db.payments
    requires (h.PaystackEvent? && var e := NormalizeState(h.eventType);
                                  e.Some? && e.value != "charge.success" && e.value != "charge.failed")
             || (h.YocoEvent? && MapYocoEvent(h.eventType, h.paymentStatus).None?)
    ensures Received(db, reference, id, h, w) == db
  {
    hide NormalizeState, MapYocoEvent, MapPaystackEvent;
    assert HookStatus(h) == None;
    assert db.payments[reference := db.payments[reference]] == db.payments;
  }
}
