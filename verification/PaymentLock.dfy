/** The gateway lock kept in the JSON column, and the fee policy and checkout context beside it. */
module PaymentLock {
  import opened JsText
  import opened PaymentStatus
  import opened Payments
  import opened PaymentAttempts
  import opened Snapshots
  import opened Routing
  import opened ProviderStatus
  import opened Json
  import Fees

  ghost predicate LockedTo(p: Payment, g: Gateway) {
    Rail(g) && StoredRequested(p.raw) == Choice(g)
  }

  /** Every session asked for since then was asked of the gateway g. */
  ghost predicate AskedOnly(before: seq<Gateway>, after: seq<Gateway>, g: Gateway) {
    && before <= after
    && forall i :: |before| <= i < |after| ==> after[i] == g
  }

  /** The steps the lock covers: all but PayFast webhooks, which replace the JSON, and direct Ozow re-initiation. */
  predicate Covered(s: Step) {
    !s.action.InitiateOzow? && !(s.action.Receive? && s.action.hook.PayfastItn?)
  }

  // ---------- What the lock allows ----------

  lemma LockedContinuation(g: Gateway, asked: Option<string>)
    requires Rail(g)
    ensures var r := ContinuationRequest(Choice(g), asked); r.Ok? ==> r.value == Choice(g)
  {
    hide ParseRequested;
  }

  /**
   * A stored choice binds every later continuation exactly when it is one of the three rails: a payment asked to use
   * PayFast or Peach is treated as AUTO by the hosted checkout.
   */
  lemma LockBindsIffRail(g: Gateway)
    ensures (forall asked :: var r := ContinuationRequest(Choice(g), asked); r.Ok? ==> r.value == Choice(g))
         <==> Rail(g)
  {
    if Rail(g) {
      forall asked
        ensures var r := ContinuationRequest(Choice(g), asked); r.Ok? ==> r.value == Choice(g)
      {
        LockedContinuation(g, asked);
      }
    } else {
      UnofferedRequest(g);
    }
  }

  // ---------- What the JSON remembers ----------

  lemma PatchKeys(request: Record, routing: Record, money: Record, checkout: Checkout)
    requires "monetization" !in request && "checkout" !in request && "checkout" !in money
    ensures var patch := Patch(request, routing, money, checkout);
      && ("monetization" in patch <==> "monetization" in money)
      && ("monetization" in money ==> patch["monetization"] == money["monetization"])
      && ("checkout" in patch <==> "checkout" in CheckoutSnapshot(checkout))
      && ("checkout" in patch ==> patch["checkout"] == CheckoutSnapshot(checkout)["checkout"])
  {
    FieldNames();
    hide Cleaned, AsTexts;
  }

  lemma RequestKeys(g: Gateway, s: Session)
    ensures var r := GatewayRequestSnapshot(g, s); "monetization" !in r && "checkout" !in r && "routing" !in r
  {
    FieldNames();
    hide GatewayName;
  }

  /** The fee policy a payment was priced with and the checkout context it came with. */
  ghost predicate Remembers(p: Payment, policy: FeePolicy, checkout: Checkout) {
    StoredFeePolicy(p.raw) == Some(policy) && StoredCheckout(p.raw) == checkout
  }

  /** Storing again what was read keeps it. */
  lemma RestoringRemembers(p: Payment, request: Record, routing: Record, money: Record, policy: FeePolicy,
                           checkout: Checkout)
    requires Remembers(p, policy, checkout)
    requires "monetization" !in request && "checkout" !in request
    requires money == map[] || money == MonetizationSnapshot(policy, p.price)
    ensures var raw := Merge(p.raw, Patch(request, routing, money, checkout));
      StoredFeePolicy(raw) == Some(policy) && StoredCheckout(raw) == checkout
  {
    var patch := Patch(request, routing, money, checkout);
    hide Patch, Merge, CheckoutSnapshot, Cleaned, MonetizationObject, StoredFeePolicy, StoredCheckout;
    FieldNames();
    PatchKeys(request, routing, money, checkout);
    StoredPolicyIsStable(p.raw);
    CheckoutIsStable(p.raw);
    CheckoutRoundTrip(p.raw, patch, checkout);
    if money == map[] {
      MergeKeeps(p.raw, patch);
    } else {
      PolicyRoundTrip(p.raw, patch, policy, p.price);
    }
  }

  lemma InitializeRemembers(p: Payment, d: Decision, w: World, policy: FeePolicy, checkout: Checkout)
    requires Remembers(p, policy, checkout)
    ensures Remembers(Initialize(p, d, w, MonetizationSnapshot(policy, p.price), checkout).payment, policy, checkout)
  {
    var money := MonetizationSnapshot(policy, p.price);
    var tried := Tried(d, w.plan);
    TriedCandidates(d, w.plan);
    var k := FirstOpened(tried, w.sessions);
    hide FirstOpened, Tried, Opened, NotOpened, Remembers, MonetizationSnapshot;
    if k < |tried| {
      OpenedRemembers(p, d, k, w.sessions[tried[k].gateway], policy, checkout);
    } else {
      NotOpenedRemembers(p, d, k, policy, checkout);
    }
  }

  lemma OpenedRemembers(p: Payment, d: Decision, k: nat, s: Session, policy: FeePolicy, checkout: Checkout)
    requires Remembers(p, policy, checkout) && k < |d.eligible|
    ensures Remembers(Opened(p, d, k, s, MonetizationSnapshot(policy, p.price), checkout), policy, checkout)
  {
    var money := MonetizationSnapshot(policy, p.price);
    hide Merge, Patch, RoutingObject, GatewayRequestSnapshot, StoredFeePolicy, StoredCheckout, MonetizationSnapshot,
         StoredFallbackCount, StoredFailures, FailureRecords, LastFailure, CancelOpen, FailedAttempts, Gateways;
    var g := d.eligible[k].gateway;
    RequestKeys(g, s);
    var count := StoredFallbackCount(p.raw) + k;
    var failures := StoredFailures(p.raw) + FailureRecords(d.eligible, k);
    var lastFallback := if count > 0 then LastFailure(failures) else None;
    RestoringRemembers(p, GatewayRequestSnapshot(g, s),
      RoutingObject(d.requested, d.explicit, g, count, lastFallback, failures), money, policy, checkout);
  }

  lemma NotOpenedRemembers(p: Payment, d: Decision, k: nat, policy: FeePolicy, checkout: Checkout)
    requires Remembers(p, policy, checkout) && k <= |d.eligible|
    ensures Remembers(NotOpened(p, d, k, MonetizationSnapshot(policy, p.price), checkout), policy, checkout)
  {
    var money := MonetizationSnapshot(policy, p.price);
    hide Merge, Patch, RoutingObject, StoredFeePolicy, StoredCheckout, MonetizationSnapshot,
         StoredFallbackCount, StoredFailures, FailureRecords, FailureAt, FailedAttempts, Gateways;
    if k > 0 {
      var count := StoredFallbackCount(p.raw) + if k < |d.eligible| then k else k - 1;
      RestoringRemembers(p, map[],
        RoutingObject(d.requested, d.explicit, d.eligible[k - 1].gateway, count, Some(FailureAt(d.eligible, k - 1)),
                      StoredFailures(p.raw) + FailureRecords(d.eligible, k)), money, policy, checkout);
    }
  }

  /** None of the four parts of the JSON that the payment service reads back is written by a provider's report. */
  ghost predicate LeavesSnapshots(patch: Record) {
    "routing" !in patch && "monetization" !in patch && "checkout" !in patch && "request" !in patch
  }

  lemma OzowLeavesSnapshots(stored: Record)
    ensures LeavesSnapshots(OzowPatch(stored))
  {
    assert "routing"[0] == 'r' && "monetization"[0] == 'm' && "checkout"[1] == 'h' && "provider"[0] == 'p';
    assert "request"[2] == 'q' && "externalReference"[0] == 'e';
    assert !OzowKey("routing") && !OzowKey("monetization") && !OzowKey("checkout") && !OzowKey("request");
    hide OzowKey;
  }

  lemma PaystackLeavesSnapshots(details: Record, eventType: Option<string>, status: Option<string>)
    ensures LeavesSnapshots(PaystackPatch(details, eventType, status))
  {
    hide PaystackFields;
    assert "routing"[0] == 'r' && "monetization"[0] == 'm' && "checkout"[0] == 'c' && "request"[0] == 'r';
    assert "provider"[0] == 'p' && "paystack"[0] == 'p';
  }

  lemma YocoLeavesSnapshots(details: Record, a: Option<string>, b: Option<string>, c: Option<string>, d: Option<string>)
    ensures LeavesSnapshots(YocoPatch(details, a, b, c, d))
  {
    hide YocoFields;
    assert "routing"[0] == 'r' && "monetization"[0] == 'm' && "checkout"[0] == 'c' && "request"[0] == 'r';
    assert "provider"[0] == 'p' && "yoco"[0] == 'y';
  }

  /** What the payment service reads back is the same. */
  ghost predicate SameSnapshots(before: Json, after: Json) {
    && StoredRequested(after) == StoredRequested(before)
    && StoredFeePolicy(after) == StoredFeePolicy(before)
    && StoredCheckout(after) == StoredCheckout(before)
    && Field(Root(after), "request") == Field(Root(before), "request")
  }

  lemma MergeKeepsSnapshots(raw: Json, patch: Record)
    requires LeavesSnapshots(patch)
    ensures SameSnapshots(raw, Merge(raw, patch))
  {
    hide StoredRequested, StoredFeePolicy, StoredCheckout, Merge;
    MergeKeeps(raw, patch);
    MergeField(raw, patch, "request");
  }

  lemma HookKeepsSnapshots(raw: Json, h: Hook)
    requires !h.PayfastItn?
    ensures SameSnapshots(raw, HookRaw(raw, h))
  {
    hide OzowPatch, PaystackPatch, YocoPatch, LeavesSnapshots, SameSnapshots, Merge, HookStatus, NormalizeState;
    match h
    case OzowNotify(_, stored) =>
      OzowLeavesSnapshots(stored);
      MergeKeepsSnapshots(raw, OzowPatch(stored));
    case PaystackEvent(eventType, status, details) =>
      PaystackLeavesSnapshots(details, NormalizeState(eventType), status);
      MergeKeepsSnapshots(raw, PaystackPatch(details, NormalizeState(eventType), status));
    case YocoEvent(eventType, paymentStatus, paymentId, details) =>
      var checkoutStatus := if HookStatus(h) == Some(PAID) then Some("completed") else None;
      YocoLeavesSnapshots(details, eventType, paymentStatus, checkoutStatus, paymentId);
      MergeKeepsSnapshots(raw, YocoPatch(details, eventType, paymentStatus, checkoutStatus, paymentId));
  }

  lemma LookupKeepsSnapshots(raw: Json, l: Lookup)
    ensures SameSnapshots(raw, LookupRaw(raw, l))
  {
    hide OzowPatch, PaystackPatch, YocoPatch, LeavesSnapshots, SameSnapshots, Merge, StoredPaystackEvent,
         StoredYocoEvent, StoredYocoPayment, YocoCheckoutStatus, YocoPaymentId;
    match l
    case OzowLookup(_, stored) =>
      OzowLeavesSnapshots(stored);
      MergeKeepsSnapshots(raw, OzowPatch(stored));
    case PaystackLookup(answered, details) =>
      PaystackLeavesSnapshots(details, StoredPaystackEvent(raw), answered);
      MergeKeepsSnapshots(raw, PaystackPatch(details, StoredPaystackEvent(raw), answered));
    case YocoLookup(checkout, _, _, details) =>
      var e, p := StoredYocoEvent(raw), StoredYocoPayment(raw);
      var c, i := YocoCheckoutStatus(raw, checkout), YocoPaymentId(raw, checkout);
      YocoLeavesSnapshots(details, e, p, c, i);
      MergeKeepsSnapshots(raw, YocoPatch(details, e, p, c, i));
  }

  lemma ReportKeepsSnapshots(p: Payment, s: Step, processed: set<(Gateway, string)>)
    requires Covered(s) && (s.action.Receive? || s.action.LookUp?)
    ensures var q := EffectOf(p, s, processed).payment; SameSnapshots(p.raw, q.raw) && q.asked == p.asked
  {
    hide HookRaw, LookupRaw, HookStatus, LookupStatus, LookupWrites, StoredRequested, StoredFeePolicy, StoredCheckout;
    if s.action.Receive? {
      HookKeepsSnapshots(p.raw, s.action.hook);
    } else {
      LookupKeepsSnapshots(p.raw, s.action.lookup);
    }
  }

  // ---------- The lock over whole runs ----------

  /** A continuation leaves its payment alone or initialises it anew with what the row remembers. */
  lemma ContinueCases(p: Payment, asked: Option<string>, expired: bool, w: World)
    ensures var q, d := ContinueEffect(p, asked, expired, w).payment, ContinueDecision(p, asked, expired, w);
      q == p || (d.Ok? && q == Initialize(p, d.value, w, Money(p, w), StoredCheckout(p.raw)).payment)
  {
    hide ContinueDecision, Initialize, StoredCheckout, RedirectUrl, Money;
  }

  lemma ContinueKeepsLock(p: Payment, asked: Option<string>, expired: bool, w: World, g: Gateway)
    requires LockedTo(p, g)
    ensures var q := ContinueEffect(p, asked, expired, w).payment; LockedTo(q, g) && AskedOnly(p.asked, q.asked, g)
  {
    hide ContinueEffect, ContinueDecision, Initialize, StoredRequested, StoredCheckout, DecidedFor, Money;
    ContinueCases(p, asked, expired, w);
    LockedDecision(p, asked, expired, w, g);
    MoneyOf(p, w);
    var d := ContinueDecision(p, asked, expired, w);
    if d.Ok? {
      InitializeLocked(p, d.value, w, Money(p, w), StoredCheckout(p.raw), g);
    }
  }

  ghost predicate DecidedFor(d: Decision, g: Gateway) {
    d.explicit && d.requested == Choice(g) && d.eligible == [Candidate(g, 1)]
  }

  /** A decision reached is well formed for what the stored and the asked gateway come to. */
  lemma ContinueDecided(p: Payment, asked: Option<string>, expired: bool, w: World)
    ensures var d, r := ContinueDecision(p, asked, expired, w), ContinuationRequest(StoredRequested(p.raw), asked);
      d.Ok? ==> r.Ok? && WellFormed(d.value, QueryFor(p, r.value, {}, StrictPriority, StoredCheckout(p.raw)))
  {
    hide ContinuationRequest, StoredRequested, Decide, StoredCheckout, Coerced, Preference, WellFormed;
    var r := ContinuationRequest(StoredRequested(p.raw), asked);
    if r.Ok? {
      DecisionIsWellFormed(w.merchant, w.env, QueryFor(p, r.value, {}, StrictPriority, StoredCheckout(p.raw)));
    }
  }

  lemma LockedDecision(p: Payment, asked: Option<string>, expired: bool, w: World, g: Gateway)
    requires LockedTo(p, g)
    ensures var d := ContinueDecision(p, asked, expired, w); d.Ok? ==> DecidedFor(d.value, g)
  {
    ContinueDecided(p, asked, expired, w);
    LockedContinuation(g, asked);
    hide ContinueDecision, ContinuationRequest, StoredRequested, StoredCheckout, Preference;
  }

  /** Deciding for one gateway asks no other and stores it as the one requested. */
  lemma InitializeLocked(p: Payment, d: Decision, w: World, money: Record, checkout: Checkout, g: Gateway)
    requires DecidedFor(d, g) && "routing" !in money
    ensures var q := Initialize(p, d, w, money, checkout).payment;
      StoredRequested(q.raw) == Choice(g) && AskedOnly(p.asked, q.asked, g)
  {
    TriedCandidates(d, w.plan);
    var k := FirstOpened(Tried(d, w.plan), w.sessions);
    hide Merge, Patch, RoutingObject, StoredRequested, StoredFallbackCount, StoredFailures, FirstOpened;
    if k < |Tried(d, w.plan)| {
      OpenedRouting(p, d, k, w.sessions[g], money, checkout);
    } else {
      NotOpenedRouting(p, d, k, money, checkout);
    }
  }

  lemma StepKeepsLock(p: Payment, s: Step, processed: set<(Gateway, string)>, g: Gateway)
    requires LockedTo(p, g) && Covered(s)
    ensures var q := EffectOf(p, s, processed).payment; LockedTo(q, g) && AskedOnly(p.asked, q.asked, g)
  {
    hide ContinueEffect, WebhookEffect, LookupEffect, StoredRequested, Decide, RedirectUrl, StoredCheckout,
         StoredFeePolicy;
    match s.action
    case Create(_) =>
    case Continue(asked, expired) => ContinueKeepsLock(p, asked, expired, s.world, g);
    case Failover =>
    case Receive(_, _) => ReportKeepsSnapshots(p, s, processed);
    case LookUp(_) => ReportKeepsSnapshots(p, s, processed);
  }

  ghost predicate CoveredRun(steps: seq<Step>, reference: string) {
    forall i :: 0 <= i < |steps| && steps[i].reference == reference ==> Covered(steps[i])
  }

  /**
   * Once a payment is locked to Ozow, Yoco or Paystack, no run of continuations, fail-overs, lookups and Ozow, Yoco or
   * Paystack webhooks changes the lock or asks another gateway for a session; steps on other payments do not matter.
   */
  lemma {:induction false} LockIsKept(db: Db, steps: seq<Step>, reference: string, g: Gateway)
    requires reference in db.payments && LockedTo(db.payments[reference], g) && CoveredRun(steps, reference)
    ensures reference in Run(db, steps).payments && LockedTo(Run(db, steps).payments[reference], g)
    ensures AskedOnly(db.payments[reference].asked, Run(db, steps).payments[reference].asked, g)
    decreases |steps|
  {
    hide EffectOf, CreationOf, ProcessedAfter, LockedTo, Covered, Recorded, Enqueued;
    if steps != [] {
      var s := steps[0];
      if s.reference == reference {
        StepKeepsLock(db.payments[reference], s, db.processed, g);
      }
      LockIsKept(Next(db, s), steps[1..], reference, g);
    }
  }

  /** A payment created for a gateway asks only that one, and stores it as requested. */
  lemma CreationLocks(r: CreateRequest, w: World)
    ensures var requested, e := ParseRequested(r.gateway), CreateEffect(r, w);
      e.Some? ==> (requested.Ok?
        && StoredRequested(e.value.payment.raw) == (if requested.value.Choice? then requested.value else Auto)
        && (requested.value.Choice? ==> AskedOnly([], e.value.payment.asked, requested.value.gateway)))
  {
    CreateDecisionFor(r, w);
    hide CreateDecision, ParseRequested, Initialize, StoredRequested, WellFormed, MonetizationSnapshot, PriceOf;
    var d := CreateDecision(r, w);
    if d.Ok? {
      var p := NewPayment(r, w, Some(d.value.selected));
      var money := MonetizationSnapshot(w.policy, p.price);
      MoneyHasNoRouting(w.policy, p.price);
      if ParseRequested(r.gateway).value.Choice? {
        InitializeLocked(p, d.value, w, money, r.checkout, ParseRequested(r.gateway).value.gateway);
      } else {
        InitializeStores(p, d.value, w, money, r.checkout);
      }
    }
  }

  lemma MoneyOf(p: Payment, w: World)
    ensures "routing" !in Money(p, w)
  {
    hide ResolveStoredFeePolicy, MonetizationSnapshot;
    MoneyHasNoRouting(ResolveStoredFeePolicy(p.raw, w.policy), p.price);
  }

  lemma MoneyHasNoRouting(policy: FeePolicy, price: Fees.Breakdown)
    ensures "routing" !in MonetizationSnapshot(policy, price)
  {
    hide MonetizationObject;
    FieldNames();
  }

  lemma CreateDecisionFor(r: CreateRequest, w: World)
    ensures CreateDecision(r, w).Ok? ==>
      var requested, d := ParseRequested(r.gateway), CreateDecision(r, w).value;
      && requested.Ok? && d.eligible != []
      && (if requested.value.Choice? then DecidedFor(d, requested.value.gateway) else d.requested == Auto)
  {
    hide ParseRequested, Decide, PriceOf, CurrencyOf;
    var requested := ParseRequested(r.gateway);
    if requested.Ok? {
      DecisionIsWellFormed(w.merchant, w.env,
                           QueryFor(NewPayment(r, w, None), requested.value, {}, StrictPriority, r.checkout));
    }
  }

  lemma InitializeStores(p: Payment, d: Decision, w: World, money: Record, checkout: Checkout)
    requires d.eligible != [] && d.requested == Auto && "routing" !in money
    ensures StoredRequested(Initialize(p, d, w, money, checkout).payment.raw) == Auto
  {
    TriedCandidates(d, w.plan);
    var k := FirstOpened(Tried(d, w.plan), w.sessions);
    hide Merge, Patch, RoutingObject, StoredRequested, StoredFallbackCount, StoredFailures, FirstOpened, Opened,
         NotOpened, Tried;
    if k < |Tried(d, w.plan)| {
      OpenedRouting(p, d, k, w.sessions[d.eligible[k].gateway], money, checkout);
    } else {
      NotOpenedRouting(p, d, k, money, checkout);
    }
  }

  lemma NextCreates(db: Db, s: Step)
    requires s.reference !in db.payments && CreationOf(s).Some?
    ensures s.reference in Next(db, s).payments && Next(db, s).payments[s.reference] == CreationOf(s).value.payment
  {
    hide CreationOf, Recorded, Enqueued;
  }

  ghost predicate AskedNoOther(db: Db, reference: string, g: Gateway) {
    reference in db.payments && AskedOnly([], db.payments[reference].asked, g)
  }

  lemma AskedFromTheStart(before: seq<Gateway>, after: seq<Gateway>, g: Gateway)
    requires AskedOnly([], before, g) && AskedOnly(before, after, g)
    ensures AskedOnly([], after, g)
  {
  }

  lemma CreatedLocked(s: Step, g: Gateway)
    requires s.action.Create? && CreationOf(s).Some?
    requires ParseRequested(s.action.request.gateway) == Ok(Choice(g)) && Rail(g)
    ensures LockedTo(CreationOf(s).value.payment, g) && AskedOnly([], CreationOf(s).value.payment.asked, g)
  {
    CreationLocks(s.action.request, s.world);
    hide CreateEffect, ParseRequested, StoredRequested, Rail, AskedOnly;
  }

  /** From creation on: a payment created for one of the rails asks no other gateway for a session, ever. */
  lemma LockedFromCreation(db: Db, first: Step, steps: seq<Step>, g: Gateway)
    requires first.reference !in db.payments && first.action.Create? && CreationOf(first).Some?
    requires ParseRequested(first.action.request.gateway) == Ok(Choice(g)) && Rail(g)
    requires CoveredRun(steps, first.reference)
    ensures AskedNoOther(Run(Next(db, first), steps), first.reference, g)
  {
    CreatedLocked(first, g);
    NextCreates(db, first);
    hide Next, CreationOf, CreateEffect, ParseRequested, StoredRequested, Run, Covered, CoveredRun, Rail, AskedOnly;
    LockIsKept(Next(db, first), steps, first.reference, g);
    AskedFromTheStart(CreationOf(first).value.payment.asked,
                      Run(Next(db, first), steps).payments[first.reference].asked, g);
  }

  /** The lock the hosted checkout does not know: a continuation that tries anything at all turns it into AUTO. */
  lemma UnofferedGatewayIsForgotten(p: Payment, expired: bool, w: World, g: Gateway)
    requires StoredRequested(p.raw) == Choice(g) && !Rail(g)
    ensures var q := ContinueEffect(p, None, expired, w).payment; q == p || StoredRequested(q.raw) == Auto
  {
    AutoDecisionFor(p, expired, w, g);
    hide ContinueEffect, ContinueDecision, Initialize, StoredRequested, StoredCheckout, Money;
    ContinueCases(p, None, expired, w);
    MoneyOf(p, w);
    var d := ContinueDecision(p, None, expired, w);
    if d.Ok? {
      InitializeStores(p, d.value, w, Money(p, w), StoredCheckout(p.raw));
    }
  }

  lemma UnofferedRequest(g: Gateway)
    requires !Rail(g)
    ensures ContinuationRequest(Choice(g), None) == Ok(Auto)
  {
  }

  lemma AutoDecisionFor(p: Payment, expired: bool, w: World, g: Gateway)
    requires StoredRequested(p.raw) == Choice(g) && !Rail(g)
    ensures var d := ContinueDecision(p, None, expired, w);
      d.Ok? ==> d.value.eligible != [] && d.value.requested == Auto
  {
    ContinueDecided(p, None, expired, w);
    UnofferedRequest(g);
    hide ContinueDecision, ContinuationRequest, StoredRequested, StoredCheckout, Preference;
  }

  // ---------- Fee policy and checkout context over whole runs ----------

  lemma ContinueRemembers(p: Payment, asked: Option<string>, expired: bool, w: World, policy: FeePolicy,
                          checkout: Checkout)
    requires Remembers(p, policy, checkout)
    ensures Remembers(ContinueEffect(p, asked, expired, w).payment, policy, checkout)
  {
    hide ContinueEffect, ContinueDecision, Initialize, StoredCheckout, StoredFeePolicy, MonetizationSnapshot;
    ContinueCases(p, asked, expired, w);
    var d := ContinueDecision(p, asked, expired, w);
    if d.Ok? {
      InitializeRemembers(p, d.value, w, policy, checkout);
    }
  }

  lemma FailoverRemembers(p: Payment, w: World, policy: FeePolicy, checkout: Checkout)
    requires Remembers(p, policy, checkout)
    ensures Remembers(FailoverEffect(p, w).payment, policy, checkout)
  {
    hide FailoverDecision, StoredCheckout, StoredFeePolicy, Patch, Merge, RoutingObject, GatewayRequestSnapshot,
         StoredFallbackCount, CancelOpen, GatewayName;
    var decision := FailoverDecision(p, w);
    if decision.Ok? && decision.value.selected in w.sessions {
      var d := decision.value;
      var s := w.sessions[d.selected];
      var lastFallback := Obj(map["fromGateway" := if p.gateway.Some? then Text(GatewayName(p.gateway.value)) else Null,
                                  "toGateway" := Text(GatewayName(d.selected))]);
      var routing := RoutingObject(d.requested, d.explicit, d.selected, StoredFallbackCount(p.raw) + 1,
                                   Some(lastFallback), []);
      RequestKeys(d.selected, s);
      RestoringRemembers(p, GatewayRequestSnapshot(d.selected, s), routing, map[], policy, checkout);
    }
  }

  lemma StepRemembers(p: Payment, s: Step, processed: set<(Gateway, string)>, policy: FeePolicy, checkout: Checkout)
    requires Remembers(p, policy, checkout) && Covered(s)
    ensures Remembers(EffectOf(p, s, processed).payment, policy, checkout)
  {
    hide ContinueEffect, FailoverEffect, WebhookEffect, LookupEffect, StoredRequested, StoredCheckout, StoredFeePolicy;
    match s.action
    case Create(_) =>
    case Continue(asked, expired) => ContinueRemembers(p, asked, expired, s.world, policy, checkout);
    case Failover => FailoverRemembers(p, s.world, policy, checkout);
    case Receive(_, _) => ReportKeepsSnapshots(p, s, processed);
    case LookUp(_) => ReportKeepsSnapshots(p, s, processed);
  }

  /**
   * However often a checkout is continued, failed over or reported on, and whatever plan the merchant has moved to
   * meanwhile, the row keeps the fee policy it was priced with and the checkout context it came with.
   */
  lemma {:induction false} RunRemembers(db: Db, steps: seq<Step>, reference: string, policy: FeePolicy,
                                        checkout: Checkout)
    requires reference in db.payments && Remembers(db.payments[reference], policy, checkout)
    requires CoveredRun(steps, reference)
    ensures reference in Run(db, steps).payments && Remembers(Run(db, steps).payments[reference], policy, checkout)
    decreases |steps|
  {
    hide EffectOf, CreationOf, ProcessedAfter, Remembers, Covered, Recorded, Enqueued;
    if steps != [] {
      var s := steps[0];
      if s.reference == reference {
        StepRemembers(db.payments[reference], s, db.processed, policy, checkout);
      }
      RunRemembers(Next(db, s), steps[1..], reference, policy, checkout);
    }
  }

  /** What there is to remember: the policy used at creation, and the request's context trimmed and without blanks. */
  lemma CreationRemembers(r: CreateRequest, w: World)
    requires Label(w.policy.ruleType) && Label(w.policy.source)
    ensures CreateEffect(r, w).Some? ==> Remembers(CreateEffect(r, w).value.payment, w.policy, Cleaned(r.checkout))
  {
    CreateDecisionFor(r, w);
    hide CreateDecision, Initialize, Remembers, PriceOf, MonetizationSnapshot, DecidedFor, Cleaned, ParseRequested;
    var d := CreateDecision(r, w);
    if d.Ok? {
      InitializeStoresContext(NewPayment(r, w, Some(d.value.selected)), d.value, w, r.checkout);
    }
  }

  lemma NothingStored(policy: FeePolicy, request: Record, routing: Record, price: Fees.Breakdown, checkout: Checkout)
    requires Label(policy.ruleType) && Label(policy.source)
    requires "monetization" !in request && "checkout" !in request
    ensures var raw := Merge(Null, Patch(request, routing, MonetizationSnapshot(policy, price), checkout));
      StoredFeePolicy(raw) == Some(policy) && StoredCheckout(raw) == Cleaned(checkout)
  {
    var money := MonetizationSnapshot(policy, price);
    var patch := Patch(request, routing, money, checkout);
    hide Patch, Merge, CheckoutSnapshot, Cleaned, MonetizationObject, StoredFeePolicy;
    FieldNames();
    PatchKeys(request, routing, money, checkout);
    CheckoutRoundTrip(Null, patch, checkout);
    PolicyRoundTrip(Null, patch, policy, price);
  }

  lemma InitializeStoresContext(p: Payment, d: Decision, w: World, checkout: Checkout)
    requires p.raw == Null && d.eligible != []
    requires Label(w.policy.ruleType) && Label(w.policy.source)
    ensures Remembers(Initialize(p, d, w, MonetizationSnapshot(w.policy, p.price), checkout).payment, w.policy,
                      Cleaned(checkout))
  {
    TriedCandidates(d, w.plan);
    var k := FirstOpened(Tried(d, w.plan), w.sessions);
    var money := MonetizationSnapshot(w.policy, p.price);
    hide Merge, Patch, RoutingObject, StoredFallbackCount, StoredFailures, FirstOpened, StoredFeePolicy, StoredCheckout,
         Cleaned, GatewayRequestSnapshot, FailureRecords, FailureAt, LastFailure, Tried, CancelOpen, FailedAttempts,
         Gateways, MonetizationSnapshot, Label;
    var failures := StoredFailures(p.raw) + FailureRecords(d.eligible, k);
    if k < |Tried(d, w.plan)| {
      var g := d.eligible[k].gateway;
      var count := StoredFallbackCount(p.raw) + k;
      RequestKeys(g, w.sessions[g]);
      NothingStored(w.policy, GatewayRequestSnapshot(g, w.sessions[g]),
        RoutingObject(d.requested, d.explicit, g, count, if count > 0 then LastFailure(failures) else None, failures),
        p.price, checkout);
    } else {
      var count := StoredFallbackCount(p.raw) + if k < |d.eligible| then k else k - 1;
      NothingStored(w.policy, map[],
        RoutingObject(d.requested, d.explicit, d.eligible[k - 1].gateway, count, Some(FailureAt(d.eligible, k - 1)),
                      failures), p.price, checkout);
    }
  }
}
