/** The life of a payment: creation, hosted checkout, fail-over, provider webhooks and status lookups. */
module Payments {
  import opened JsText
  import opened PaymentStatus
  import opened Fees
  import opened Json
  import opened Snapshots
  import opened Routing
  import opened ProviderStatus
  import GatewayConfig
  import Ledger

  datatype Attempt = Attempt(gateway: Gateway, status: AttemptStatus, redirectUrl: string)

  /** A payment row with its attempts, oldest first; asked lists every call that asked a provider for a session. */
  datatype Payment = Payment(merchantId: string, currency: string, customerEmail: Option<string>, price: Breakdown,
                             status: Status, gateway: Option<Gateway>, raw: Json, attempts: seq<Attempt>,
                             asked: seq<Gateway>)

  datatype Plan = Plan(manualSelection: bool, autoRouting: bool, fallback: bool)

  /**
   * What a handler finds around it: the loaded merchant record, the merchant's plan and present fee policy, its active
   * webhook endpoints, and the sessions the providers would open if asked; a provider without one fails.
   */
  datatype World = World(merchant: GatewayConfig.Merchant, env: GatewayConfig.Env, plan: Plan, policy: FeePolicy,
                         endpoints: seq<string>, sessions: map<Gateway, Session>)

  // ---------- Attempts ----------

  predicate Open(a: Attempt) {
    a.status.Created? || a.status.Pending?
  }

  /** Every open attempt is cancelled, those on the gateway excepted if one is named. */
  function CancelOpen(attempts: seq<Attempt>, except: Option<Gateway>): (r: seq<Attempt>)
    ensures |r| == |attempts|
  {
    seq(|attempts|, i requires 0 <= i < |attempts| =>
      if Open(attempts[i]) && except != Some(attempts[i].gateway) then attempts[i].(status := Cancelled)
      else attempts[i])
  }

  function SetLatest(attempts: seq<Attempt>, status: Option<AttemptStatus>): (r: seq<Attempt>)
    ensures |r| == |attempts|
  {
    if attempts == [] || status.None? then attempts
    else attempts[|attempts| - 1 := attempts[|attempts| - 1].(status := status.value)]
  }

  function LatestUrl(attempts: seq<Attempt>): Option<string> {
    if attempts == [] then None else Some(attempts[|attempts| - 1].redirectUrl)
  }

  // ---------- Opening a session, with fallback ----------

  /** The candidates the loop may come to: all of them only under AUTO routing with fallback in the plan. */
  function Tried(d: Decision, plan: Plan): seq<Candidate> {
    if d.eligible == [] || (!d.explicit && plan.fallback) then d.eligible else d.eligible[..1]
  }

  /** Index of the first candidate whose provider opens a session, or the number of candidates. */
  function FirstOpened(tried: seq<Candidate>, sessions: map<Gateway, Session>): (k: nat)
    ensures k <= |tried|
    ensures forall i :: 0 <= i < k ==> tried[i].gateway !in sessions
    ensures k < |tried| ==> tried[k].gateway in sessions
  {
    if tried == [] || tried[0].gateway in sessions then 0 else 1 + FirstOpened(tried[1..], sessions)
  }

  function FailedAttempts(tried: seq<Candidate>): (r: seq<Attempt>)
    ensures |r| == |tried|
  {
    seq(|tried|, i requires 0 <= i < |tried| => Attempt(tried[i].gateway, Failed, ""))
  }

  function Gateways(cs: seq<Candidate>): seq<Gateway> {
    seq(|cs|, i requires 0 <= i < |cs| => cs[i].gateway)
  }

  function FailureAt(eligible: seq<Candidate>, i: nat): Json
    requires i < |eligible|
  {
    FailureRecord(eligible[i].gateway, if i + 1 < |eligible| then Some(eligible[i + 1].gateway) else None)
  }

  function FailureRecords(eligible: seq<Candidate>, k: nat): (r: seq<Json>)
    requires k <= |eligible|
    ensures |r| == k
  {
    seq(k, i requires 0 <= i < k => FailureAt(eligible, i))
  }

  function Patch(request: Record, routing: Record, money: Record, checkout: Checkout): Record {
    request + RoutingSnapshot(routing) + money + CheckoutSnapshot(checkout)
  }

  function LastFailure(failures: seq<Json>): Option<Json> {
    if failures != [] && failures[|failures| - 1].Obj? then Some(failures[|failures| - 1]) else None
  }

  /** The k-th candidate has opened a session after those before it failed. */
  function Opened(p: Payment, d: Decision, k: nat, s: Session, money: Record, checkout: Checkout): Payment
    requires k < |d.eligible|
  {
    var g := d.eligible[k].gateway;
    var count := StoredFallbackCount(p.raw) + k;
    var failures := StoredFailures(p.raw) + FailureRecords(d.eligible, k);
    var lastFallback := if count > 0 then LastFailure(failures) else None;
    var routing := RoutingObject(d.requested, d.explicit, g, count, lastFallback, failures);
    var tried := p.attempts + FailedAttempts(d.eligible[..k]);
    p.(attempts := CancelOpen(tried, None) + [Attempt(g, Created, s.redirectUrl)],
       asked := p.asked + Gateways(d.eligible[..k + 1]),
       gateway := Some(g),
       status := if p.status == CREATED then CREATED else PENDING,
       raw := Merge(p.raw, Patch(GatewayRequestSnapshot(g, s), routing, money, checkout)))
  }

  /** The first k candidates have been tried, all in vain. */
  function NotOpened(p: Payment, d: Decision, k: nat, money: Record, checkout: Checkout): Payment
    requires k <= |d.eligible|
  {
    if k == 0 then p else
      var count := StoredFallbackCount(p.raw) + if k < |d.eligible| then k else k - 1;
      var failures := StoredFailures(p.raw) + FailureRecords(d.eligible, k);
      var routing := RoutingObject(d.requested, d.explicit, d.eligible[k - 1].gateway, count,
                                   Some(FailureAt(d.eligible, k - 1)), failures);
      p.(attempts := p.attempts + FailedAttempts(d.eligible[..k]),
         asked := p.asked + Gateways(d.eligible[..k]),
         raw := Merge(p.raw, Patch(map[], routing, money, checkout)))
  }

  datatype Init = Init(payment: Payment, gateway: Option<Gateway>)

  function Initialize(p: Payment, d: Decision, w: World, money: Record, checkout: Checkout): Init {
    var tried := Tried(d, w.plan);
    var k := FirstOpened(tried, w.sessions);
    if k < |tried|
    then Init(Opened(p, d, k, w.sessions[tried[k].gateway], money, checkout), Some(tried[k].gateway))
    else Init(NotOpened(p, d, k, money, checkout), None)
  }

  // ---------- The handlers, each on one payment ----------

  /** What a handler does to its payment, whether it records the ledger, and which event it enqueues. */
  datatype Effect = Effect(payment: Payment, reply: Option<Gateway>, record: bool, notify: Option<string>)

  function Unchanged(p: Payment): Effect {
    Effect(p, None, false, None)
  }

  predicate PlanAllows(requested: Requested, plan: Plan) {
    if requested.Choice? then plan.manualSelection else plan.autoRouting
  }

  function QueryFor(p: Payment, requested: Requested, excluded: set<Gateway>, mode: Mode, checkout: Checkout): Query {
    Query(requested, excluded, mode, Some(p.price.charge), Some(p.currency), p.customerEmail, Preference(checkout))
  }

  datatype CreateRequest = CreateRequest(merchantId: string, amountCents: int, currency: Option<string>,
                                         customerEmail: Option<string>, gateway: Option<string>, checkout: Checkout)

  function CurrencyOf(currency: Option<string>): string {
    var c := TrimToNull(currency);
    if c.Some? then Upper(c.value) else "ZAR"
  }

  function PriceOf(amountCents: int, policy: FeePolicy): Breakdown {
    ComputePlatformFeeBreakdown(Finite(amountCents as real),
      Policy(Finite(policy.fixedFeeCents as real), Finite(policy.percentageBps as real)))
  }

  /** The row as it is inserted: no session yet, the gateway the router selected. */
  function NewPayment(r: CreateRequest, w: World, selected: Option<Gateway>): Payment {
    Payment(r.merchantId, CurrencyOf(r.currency), r.customerEmail, PriceOf(r.amountCents, w.policy), CREATED, selected,
            Null, [], [])
  }

  function CreateDecision(r: CreateRequest, w: World): Result<Decision> {
    var requested := ParseRequested(r.gateway);
    if r.amountCents <= 0 then Err("amountCents must be a positive integer")
    else if requested.Err? then Err(requested.message)
    else if !PlanAllows(requested.value, w.plan) then Err("not enabled for this plan")
    else Decide(w.merchant, w.env, QueryFor(NewPayment(r, w, None), requested.value, {}, StrictPriority, r.checkout))
  }

  /** None when the request is refused before anything is written. */
  function CreateEffect(r: CreateRequest, w: World): Option<Effect> {
    match CreateDecision(r, w)
    case Err(_) => None
    case Ok(d) =>
      var p := NewPayment(r, w, Some(d.selected));
      var init := Initialize(p, d, w, MonetizationSnapshot(w.policy, p.price), r.checkout);
      Some(Effect(init.payment, init.gateway, false, None))
  }

  /** Hosted checkout offers the three rails only, so a payment locked to another gateway counts as AUTO. */
  function Coerced(stored: Requested): Requested {
    if stored.Choice? && Rail(stored.gateway) then stored else Auto
  }

  function ContinuationRequest(stored: Requested, asked: Option<string>): Result<Requested> {
    match ParseRequested(asked)
    case Err(e) => Err(e)
    case Ok(parsed) =>
      if parsed.Choice? && !Rail(parsed.gateway) then Err("gateway must be one of AUTO, YOCO, OZOW, PAYSTACK")
      else
        var requested := if parsed.NoRequest? then Coerced(stored) else parsed;
        if Coerced(stored) != Auto && requested != Coerced(stored) then Err("This checkout is locked")
        else Ok(requested)
  }

  function Money(p: Payment, w: World): Record {
    MonetizationSnapshot(ResolveStoredFeePolicy(p.raw, w.policy), p.price)
  }

  /** The routing decision of a continuation, unless it is refused. */
  function ContinueDecision(p: Payment, asked: Option<string>, expired: bool, w: World): Result<Decision> {
    var stored := StoredRequested(p.raw);
    var requested := ContinuationRequest(stored, asked);
    if expired then Err("Checkout session not found or expired")
    else if requested.Err? then Err(requested.message)
    else if Coerced(stored) == Auto && !PlanAllows(requested.value, w.plan) then Err("not enabled for this plan")
    else if p.status == PAID then Err("Payment is already paid")
    else Decide(w.merchant, w.env, QueryFor(p, requested.value, {}, StrictPriority, StoredCheckout(p.raw)))
  }

  /** A checkout that was already opened on the gateway selected is handed out again. */
  function ContinueEffect(p: Payment, asked: Option<string>, expired: bool, w: World): Effect {
    match ContinueDecision(p, asked, expired, w)
    case Err(_) => Unchanged(p)
    case Ok(d) =>
      if p.gateway == Some(d.selected) && RedirectUrl(p.raw, LatestUrl(p.attempts)).Some?
      then Effect(p, Some(d.selected), false, None)
      else
        var init := Initialize(p, d, w, Money(p, w), StoredCheckout(p.raw));
        Effect(init.payment, init.gateway, false, None)
  }

  function Attempted(p: Payment): set<Gateway> {
    (set a | a in p.attempts :: a.gateway) + if p.gateway.Some? then {p.gateway.value} else {}
  }

  /** A session on the next gateway supersedes the open attempts of the others. */
  function FailedOver(p: Payment, d: Decision, s: Session, checkout: Checkout): Payment {
    var lastFallback := Obj(map["fromGateway" := if p.gateway.Some? then Text(GatewayName(p.gateway.value)) else Null,
                                "toGateway" := Text(GatewayName(d.selected))]);
    var routing := RoutingObject(d.requested, d.explicit, d.selected, StoredFallbackCount(p.raw) + 1,
                                 Some(lastFallback), []);
    p.(attempts := CancelOpen(p.attempts, Some(d.selected)) + [Attempt(d.selected, Created, s.redirectUrl)],
       asked := p.asked + [d.selected],
       gateway := Some(d.selected),
       status := PENDING,
       raw := Merge(p.raw, Patch(GatewayRequestSnapshot(d.selected, s), routing, map[], checkout)))
  }

  predicate FailoverAllowed(p: Payment, plan: Plan) {
    && p.status != PAID
    && !StoredRequested(p.raw).Choice?
    && RedirectUrl(p.raw, LatestUrl(p.attempts)).None?
    && plan.fallback
  }

  function FailoverDecision(p: Payment, w: World): Result<Decision> {
    if !FailoverAllowed(p, w.plan) then Err("Fallback is unavailable")
    else Decide(w.merchant, w.env, QueryFor(p, Auto, Attempted(p), FailoverPriority, StoredCheckout(p.raw)))
  }

  function FailoverEffect(p: Payment, w: World): Effect {
    match FailoverDecision(p, w)
    case Err(_) => Unchanged(p)
    case Ok(d) =>
      if d.selected !in w.sessions then Unchanged(p.(asked := p.asked + [d.selected]))
      else Effect(FailedOver(p, d, w.sessions[d.selected], StoredCheckout(p.raw)), Some(d.selected), false, None)
  }

  /**
   * The direct Ozow entry point on a reference that exists already: nothing is superseded, and the lock is rewritten.
   */
  function OzowReinitiated(p: Payment, s: Session, money: Record, checkout: Checkout): Payment {
    var routing := RoutingObject(Choice(OZOW), true, OZOW, 0, None, []);
    p.(attempts := p.attempts + [Attempt(OZOW, Created, s.redirectUrl)],
       asked := p.asked + [OZOW],
       gateway := Some(OZOW),
       status := if p.status == CREATED then CREATED else PENDING,
       raw := Merge(p.raw, Patch(GatewayRequestSnapshot(OZOW, s), routing, money, checkout)))
  }

  predicate OzowConfigured(w: World) {
    w.merchant.ozowSiteCode.Some? && w.merchant.ozowPrivateKey.Some?
  }

  /** The request is for this payment, which is not settled and not on another gateway. */
  predicate ReinitiationAllowed(p: Payment, r: CreateRequest, w: World) {
    && OzowConfigured(w)
    && p.merchantId == r.merchantId && p.price.base == r.amountCents && p.currency == CurrencyOf(r.currency)
    && (p.gateway.Some? ==> p.gateway == Some(OZOW))
    && p.status != PAID
  }

  function InitiateOzowEffect(p: Payment, r: CreateRequest, w: World): Effect {
    if !ReinitiationAllowed(p, r, w) then Unchanged(p)
    else if OZOW !in w.sessions then Unchanged(p.(asked := p.asked + [OZOW]))
    else Effect(OzowReinitiated(p, w.sessions[OZOW], Money(p, w), r.checkout), Some(OZOW), false, None)
  }

  // ---------- Provider reports ----------

  /** What a provider reported is written to the row, and the latest attempt follows it. */
  function Settle(p: Payment, g: Gateway, next: Status, raw: Json): Payment {
    p.(status := next, gateway := Some(g), raw := raw, attempts := SetLatest(p.attempts, AttemptStatusFor(next)))
  }

  /** A webhook with a valid signature; the details and payloads stand for what is stored and never read back here. */
  datatype Hook =
    | PayfastItn(paymentStatus: Option<string>, payload: map<string, string>)
    | OzowNotify(status: Option<string>, stored: Record)
    | PaystackEvent(eventType: Option<string>, providerStatus: Option<string>, details: Record)
    | YocoEvent(eventType: Option<string>, paymentStatus: Option<string>, paymentId: Option<string>, details: Record)

  function HookGateway(h: Hook): Gateway {
    match h
    case PayfastItn(_, _) => PAYFAST
    case OzowNotify(_, _) => OZOW
    case PaystackEvent(_, _, _) => PAYSTACK
    case YocoEvent(_, _, _, _) => YOCO
  }

  /** None when the handler ignores or rejects the event before it stores anything. */
  function HookStatus(h: Hook): Option<Status> {
    match h
    case PayfastItn(status, _) => Some(MapPayfast(status))
    case OzowNotify(status, _) => Some(MapOzow(status))
    case PaystackEvent(eventType, status, _) =>
      var event := NormalizeState(eventType);
      if event.Some? && event.value != "charge.success" && event.value != "charge.failed" then None
      else Some(MapPaystackEvent(event, status))
    case YocoEvent(eventType, paymentStatus, _, _) => MapYocoEvent(eventType, paymentStatus)
  }

  /** The keys an Ozow notification or lookup writes beside the provider's name. */
  predicate OzowKey(key: string) {
    key == "callback" || key == "statusLookup" || key == "externalReference" || key == "ozow"
  }

  function OzowPatch(stored: Record): Record {
    (map k | k in stored && OzowKey(k) :: stored[k]) + map["provider" := Text("OZOW")]
  }

  /** PayFast replaces the JSON column by its payload; the other three merge into it. */
  function HookRaw(raw: Json, h: Hook): Json {
    match h
    case PayfastItn(_, payload) => Obj(map k | k in payload :: Text(payload[k]))
    case OzowNotify(_, stored) => Merge(raw, OzowPatch(stored))
    case PaystackEvent(eventType, status, details) =>
      Merge(raw, PaystackPatch(details, NormalizeState(eventType), status))
    case YocoEvent(eventType, paymentStatus, paymentId, details) =>
      var checkoutStatus := if HookStatus(h) == Some(PAID) then Some("completed") else None;
      Merge(raw, YocoPatch(details, eventType, paymentStatus, checkoutStatus, paymentId))
  }

  /** A report counts when its event is new, the table admits it and it does not repeat a success. */
  predicate Counts(p: Payment, next: Status, seen: bool) {
    !seen && CanTransition(p.status, next) && !(p.status == PAID && next == PAID)
  }

  /** An event id seen before changes nothing, but the ledger is asked for again when payment and event say PAID. */
  function WebhookEffect(p: Payment, h: Hook, seen: bool): Effect {
    var mapped := HookStatus(h);
    if mapped.None? then Unchanged(p)
    else
      var next := mapped.value;
      var paidAgain := !h.PayfastItn? && next == PAID && p.status == PAID;
      if !Counts(p, next, seen) then Effect(p, None, paidAgain, None)
      else
        var updated := Settle(p, HookGateway(h), next, HookRaw(p.raw, h));
        var changed := p.status != next;
        Effect(updated, None, next == PAID,
               if changed && (!h.PayfastItn? || next == PAID) then WebhookEventFor(next) else None)
  }

  /** A status lookup and what the provider answered; failed says that asking Yoco ended in an error. */
  datatype Lookup =
    | OzowLookup(answer: LookupAnswer, stored: Record)
    | PaystackLookup(answered: Option<string>, details: Record)
    | YocoLookup(checkout: Option<YocoAnswer>, failed: bool, expired: bool, details: Record)

  function LookupGateway(l: Lookup): Gateway {
    match l case OzowLookup(_, _) => OZOW case PaystackLookup(_, _) => PAYSTACK case YocoLookup(_, _, _, _) => YOCO
  }

  function LookupStatus(p: Payment, l: Lookup): Status {
    match l
    case OzowLookup(answer, _) => MapGatewayLookup(answer)
    case PaystackLookup(answered, _) => PaystackNext(p.raw, answered)
    case YocoLookup(checkout, _, expired, _) => YocoNext(p.raw, p.status, checkout, expired)
  }

  function LookupRaw(raw: Json, l: Lookup): Json {
    match l
    case OzowLookup(_, stored) => Merge(raw, OzowPatch(stored))
    case PaystackLookup(answered, details) => Merge(raw, PaystackPatch(details, StoredPaystackEvent(raw), answered))
    case YocoLookup(checkout, _, _, details) =>
      Merge(raw, YocoPatch(details, StoredYocoEvent(raw), StoredYocoPayment(raw), YocoCheckoutStatus(raw, checkout),
                           YocoPaymentId(raw, checkout)))
  }

  /** Ozow writes only a changed status; Paystack and Yoco write an unchanged one too. */
  predicate LookupWrites(p: Payment, l: Lookup) {
    var next := LookupStatus(p, l);
    && (p.gateway.Some? ==> p.gateway == Some(LookupGateway(l)))
    && CanTransition(p.status, next)
    && match l
       case OzowLookup(_, _) => p.status != next
       case PaystackLookup(_, _) => true
       case YocoLookup(checkout, failed, _, _) => checkout.Some? || failed || p.status != next
  }

  function LookupEffect(p: Payment, l: Lookup): Effect {
    var next := LookupStatus(p, l);
    if !LookupWrites(p, l) then Unchanged(p)
    else Effect(Settle(p, LookupGateway(l), next, LookupRaw(p.raw, l)), None,
                next == PAID && (l.YocoLookup? || p.status != PAID), None)
  }

  // ---------- The database and its steps ----------

  datatype Delivery = Delivery(endpointId: string, event: string, reference: string)

  /** Payments by their unique reference, the ledger, the queue of outbound deliveries, the webhook events processed. */
  datatype Db = Db(payments: map<string, Payment>, entries: seq<Ledger.Entry>, outbox: seq<Delivery>,
                   processed: set<(Gateway, string)>)

  predicate HasEntry(entries: seq<Ledger.Entry>, reference: string) {
    exists i :: 0 <= i < |entries| && entries[i].paymentId == reference
  }

  function WriteFor(reference: string, p: Payment): Ledger.Write {
    Ledger.Write(p.merchantId, reference, p.price.charge, p.price.platformFee, p.price.merchantNet)
  }

  /** Only a paid payment without entries has its ledger written. */
  function Recorded(entries: seq<Ledger.Entry>, reference: string, p: Payment): seq<Ledger.Entry> {
    if p.status != PAID || HasEntry(entries, reference) then entries
    else Ledger.AfterWrite(entries, WriteFor(reference, p))
  }

  function Enqueued(outbox: seq<Delivery>, endpoints: seq<string>, event: string, reference: string): seq<Delivery> {
    outbox + seq(|endpoints|, i requires 0 <= i < |endpoints| => Delivery(endpoints[i], event, reference))
  }

  function Apply(db: Db, reference: string, e: Effect, endpoints: seq<string>): Db {
    db.(payments := db.payments[reference := e.payment],
        entries := if e.record then Recorded(db.entries, reference, e.payment) else db.entries,
        outbox := if e.notify.Some? then Enqueued(db.outbox, endpoints, e.notify.value, reference) else db.outbox)
  }

  datatype Action =
    | Create(request: CreateRequest)
    | InitiateOzow(request: CreateRequest)
    | Continue(asked: Option<string>, expired: bool)
    | Failover
    | Receive(eventId: string, hook: Hook)
    | LookUp(lookup: Lookup)

  datatype Step = Step(reference: string, action: Action, world: World)

  function EffectOf(p: Payment, s: Step, processed: set<(Gateway, string)>): Effect {
    match s.action
    case Create(_) => Unchanged(p)
    case InitiateOzow(r) => InitiateOzowEffect(p, r, s.world)
    case Continue(asked, expired) => ContinueEffect(p, asked, expired, s.world)
    case Failover => FailoverEffect(p, s.world)
    case Receive(id, hook) => WebhookEffect(p, hook, (HookGateway(hook), id) in processed)
    case LookUp(lookup) => LookupEffect(p, lookup)
  }

  /** Creation on a free reference; the direct Ozow entry point then creates a payment for OZOW. */
  function CreationOf(s: Step): Option<Effect> {
    match s.action
    case Create(r) => CreateEffect(r, s.world)
    case InitiateOzow(r) => if OzowConfigured(s.world) then CreateEffect(r.(gateway := Some("OZOW")), s.world) else None
    case _ => None
  }

  function ProcessedAfter(s: Step, processed: set<(Gateway, string)>): set<(Gateway, string)> {
    if s.action.Receive? && HookStatus(s.action.hook).Some?
    then processed + {(HookGateway(s.action.hook), s.action.eventId)}
    else processed
  }

  function Next(db: Db, s: Step): Db {
    if s.reference in db.payments then
      Apply(db, s.reference, EffectOf(db.payments[s.reference], s, db.processed), s.world.endpoints)
        .(processed := ProcessedAfter(s, db.processed))
    else
      match CreationOf(s)
      case None => db
      case Some(e) => Apply(db, s.reference, e, s.world.endpoints)
  }

  const EMPTY := Db(map[], [], [], {})

  function Run(db: Db, steps: seq<Step>): Db
    decreases |steps|
  {
    if steps == [] then db else Run(Next(db, steps[0]), steps[1..])
  }
}
