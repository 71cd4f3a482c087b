/** What single handlers leave behind, and how a payment's attempts tell whether it is paid. */
module PaymentOutcomes {
  import opened JsText
  import opened PaymentStatus
  import opened Payments
  import opened PaymentAttempts
  import opened Snapshots
  import opened Routing
  import opened ProviderStatus
  import opened Json
  import Lock = PaymentLock
  import Fees
  import PaymentBooks

  // ---------- A started checkout ----------

  /** The request part of a patch is the last word on it: neither routing nor money nor checkout context touches it. */
  lemma PatchRequest(g: Gateway, s: Session, routing: Record, money: Record, checkout: Checkout)
    requires "request" !in money
    ensures var patch := Patch(GatewayRequestSnapshot(g, s), routing, money, checkout);
      "request" in patch && patch["request"] == GatewayRequestSnapshot(g, s)["request"]
  {
    FieldNames();
    hide Cleaned, AsTexts, GatewayName;
  }

  function RequestObject(s: Session): Record {
    map["redirectUrl" := Text(s.redirectUrl), "redirectForm" := s.redirectForm, "raw" := s.raw]
  }

  lemma RequestObjectRead(s: Session)
    ensures Field(Some(RequestObject(s)), "redirectUrl") == Some(Text(s.redirectUrl))
  {
    assert "redirectUrl"[8] == 'U' && "redirectForm"[8] == 'F' && "raw"[1] == 'a' && "redirectUrl"[1] == 'e';
  }

  /** The row itself holds a URL to follow, whatever its attempts are. */
  ghost predicate SessionStored(raw: Json) {
    TrimText(Field(AsRecord(Field(Root(raw), "request")), "redirectUrl")).Some?
  }

  /** Where the payer is sent once a session with a URL has been stored. */
  lemma SessionIsStored(raw: Json, patch: Record, g: Gateway, s: Session, latest: Option<string>)
    requires "request" in patch && patch["request"] == GatewayRequestSnapshot(g, s)["request"]
    requires TrimToNull(Some(s.redirectUrl)).Some?
    ensures RedirectUrl(Merge(raw, patch), latest) == TrimToNull(Some(s.redirectUrl))
    ensures SessionStored(Merge(raw, patch))
  {
    RequestIsObject(g, s);
    RequestObjectRead(s);
    MergeField(raw, patch, "request");
    hide TrimToNull, FormAction, RequestObject, Merge, GatewayRequestSnapshot;
  }

  lemma RequestFormRead(s: Session)
    ensures Field(Some(RequestObject(s)), "redirectForm") == Some(s.redirectForm)
  {
    assert "redirectUrl"[8] == 'U' && "redirectForm"[8] == 'F' && "raw"[1] == 'a' && "redirectForm"[1] == 'e';
  }

  /** A form that can be posted: an action, the method POST in any case, and an object of fields. */
  ghost predicate Postable(form: Json, action: string) {
    && form.Obj? && "action" in form.fields && form.fields["action"] == Text(action) && Trim(action) != ""
    && "method" in form.fields && form.fields["method"].Text? && Upper(Trim(form.fields["method"].s)) == "POST"
    && "fields" in form.fields && form.fields["fields"].Obj?
  }

  lemma PostableForm(form: Json, action: string)
    requires Postable(form, action)
    ensures FormAction(Some(form)) == Some(Trim(action))
  {
    hide Trim, Upper;
    assert |Upper(Trim(form.fields["method"].s))| == |Trim(form.fields["method"].s)|;
  }

  /** No other form counts. */
  lemma OnlyPostableForms(form: Option<Json>)
    requires FormAction(form).Some?
    ensures form.Some? && form.value.Obj? && "action" in form.value.fields && form.value.fields["action"].Text?
    ensures Postable(form.value, form.value.fields["action"].s)
  {
    hide Trim, Upper;
  }

  /** Rows of an older shape keep the URL at the top. */
  lemma UrlAtTheTop(raw: Json, url: string, latest: Option<string>)
    requires raw.Obj? && "request" !in raw.fields
    requires "redirectUrl" in raw.fields && raw.fields["redirectUrl"] == Text(url) && Trim(url) != ""
    ensures RedirectUrl(raw, latest) == Some(Trim(url))
  {
    hide Trim, StoredForm;
  }

  /** A session without a URL but with a form: the payer is sent to the form's action. */
  lemma FormIsStored(raw: Json, patch: Record, g: Gateway, s: Session, action: string, latest: Option<string>)
    requires "request" in patch && patch["request"] == GatewayRequestSnapshot(g, s)["request"]
    requires Trim(s.redirectUrl) == "" && Postable(s.redirectForm, action)
    ensures RedirectUrl(Merge(raw, patch), latest) == Some(Trim(action))
  {
    MergedRequest(raw, patch, g, s);
    FollowsForm(Merge(raw, patch), s, action, latest);
  }

  lemma MergedRequest(raw: Json, patch: Record, g: Gateway, s: Session)
    requires "request" in patch && patch["request"] == GatewayRequestSnapshot(g, s)["request"]
    ensures RequestRecord(Merge(raw, patch)) == Some(RequestObject(s))
  {
    RequestIsObject(g, s);
    MergeField(raw, patch, "request");
    hide Merge, GatewayRequestSnapshot, RequestObject;
  }

  lemma FollowsForm(raw: Json, s: Session, action: string, latest: Option<string>)
    requires RequestRecord(raw) == Some(RequestObject(s))
    requires Trim(s.redirectUrl) == "" && Postable(s.redirectForm, action)
    ensures RedirectUrl(raw, latest) == Some(Trim(action))
  {
    BlankIsNoText(s.redirectUrl);
    RequestObjectRead(s);
    FormStored(raw, s, action);
    hide Trim, TrimText, StoredForm, RequestObject, RequestRecord, Postable;
  }

  lemma BlankIsNoText(s: string)
    requires Trim(s) == ""
    ensures TrimText(Some(Text(s))) == None
  {
    hide Trim;
  }

  lemma FormStored(raw: Json, s: Session, action: string)
    requires RequestRecord(raw) == Some(RequestObject(s)) && Postable(s.redirectForm, action)
    ensures StoredForm(raw) == Some(Trim(action))
  {
    RequestFormRead(s);
    PostableForm(s.redirectForm, action);
    FormIsNotNull(s.redirectForm, action);
    hide Trim, FormAction, RequestObject, RequestRecord, Postable;
    assert Coalesce(Some(s.redirectForm), Field(Root(raw), "redirectForm")) == Some(s.redirectForm);
  }

  lemma FormIsNotNull(form: Json, action: string)
    requires Postable(form, action)
    ensures form != Null
  {
  }

  /** Nothing to follow on the row: the latest attempt's URL is what is left. */
  lemma AttemptUrlIsLeft(raw: Json, latest: Option<string>)
    requires TrimText(Field(RequestRecord(raw), "redirectUrl")).None? && StoredForm(raw).None?
    ensures RedirectUrl(raw, latest) == if latest == Some("") then None else latest
  {
    hide TrimText, StoredForm;
  }

  lemma RequestIsObject(g: Gateway, s: Session)
    ensures GatewayRequestSnapshot(g, s)["request"] == Obj(RequestObject(s))
  {
    hide GatewayName;
  }

  lemma PriceHasNoRequest(policy: FeePolicy, price: Fees.Breakdown)
    ensures "request" !in MonetizationSnapshot(policy, price)
  {
    hide MonetizationObject;
    FieldNames();
  }

  lemma MoneyHasNoRequest(p: Payment, w: World)
    ensures "request" !in Money(p, w)
  {
    hide ResolveStoredFeePolicy, MonetizationObject;
    FieldNames();
  }

  lemma OpenedSessionStored(p: Payment, d: Decision, k: nat, s: Session, money: Record, checkout: Checkout)
    requires k < |d.eligible| && "request" !in money && TrimToNull(Some(s.redirectUrl)).Some?
    ensures forall latest ::
      RedirectUrl(Opened(p, d, k, s, money, checkout).raw, latest) == TrimToNull(Some(s.redirectUrl))
    ensures SessionStored(Opened(p, d, k, s, money, checkout).raw)
  {
    hide SessionStored, Merge, Patch, RoutingObject, StoredFallbackCount, StoredFailures, FailureRecords, LastFailure,
         CancelOpen, FailedAttempts, Gateways, GatewayRequestSnapshot, RedirectUrl, TrimToNull;
    var g := d.eligible[k].gateway;
    var count := StoredFallbackCount(p.raw) + k;
    var failures := StoredFailures(p.raw) + FailureRecords(d.eligible, k);
    var lastFallback := if count > 0 then LastFailure(failures) else None;
    var routing := RoutingObject(d.requested, d.explicit, g, count, lastFallback, failures);
    PatchRequest(g, s, routing, money, checkout);
    SessionIsStored(p.raw, Patch(GatewayRequestSnapshot(g, s), routing, money, checkout), g, s, None);
    forall latest
      ensures RedirectUrl(Opened(p, d, k, s, money, checkout).raw, latest) == TrimToNull(Some(s.redirectUrl))
    {
      SessionIsStored(p.raw, Patch(GatewayRequestSnapshot(g, s), routing, money, checkout), g, s, latest);
    }
  }

  /** The payer has somewhere to go. */
  ghost predicate Started(p: Payment) {
    RedirectUrl(p.raw, LatestUrl(p.attempts)).Some?
  }

  /** A provider that opens sessions with a URL, as opposed to one that answers with nothing to follow. */
  ghost predicate WithUrls(sessions: map<Gateway, Session>) {
    forall g :: g in sessions ==> TrimToNull(Some(sessions[g].redirectUrl)).Some?
  }

  lemma InitializeStarts(p: Payment, d: Decision, w: World, money: Record, checkout: Checkout)
    requires "request" !in money && WithUrls(w.sessions)
    ensures var init := Initialize(p, d, w, money, checkout);
      init.gateway.Some? ==> Started(init.payment) && init.payment.gateway == init.gateway
  {
    TriedCandidates(d, w.plan);
    var tried := Tried(d, w.plan);
    var k := FirstOpened(tried, w.sessions);
    hide Tried, FirstOpened, NotOpened, RedirectUrl, TrimToNull;
    if k < |tried| {
      var s := w.sessions[tried[k].gateway];
      OpenedSessionStored(p, d, k, s, money, checkout);
      OpenedRow(p, d, k, s, money, checkout);
    }
  }

  /** Once started, a checkout is never failed over. */
  lemma StartedIsNotFailedOver(p: Payment, w: World)
    requires Started(p)
    ensures FailoverEffect(p, w) == Unchanged(p)
  {
    hide RedirectUrl, StoredRequested, Decide;
  }

  // ---------- A started checkout over whole runs ----------

  lemma StoredIsStarted(p: Payment)
    requires SessionStored(p.raw)
    ensures Started(p)
  {
    hide FormAction, TrimToNull;
  }

  lemma PatchWithoutRequest(routing: Record, money: Record, checkout: Checkout)
    requires "request" !in money
    ensures "request" !in Patch(map[], routing, money, checkout)
  {
    FieldNames();
    hide Cleaned, AsTexts;
  }

  lemma NotOpenedKeepsStored(p: Payment, d: Decision, k: nat, money: Record, checkout: Checkout)
    requires k <= |d.eligible| && "request" !in money && SessionStored(p.raw)
    ensures SessionStored(NotOpened(p, d, k, money, checkout).raw)
  {
    hide Merge, Patch, RoutingObject, StoredFallbackCount, StoredFailures, FailureRecords, FailureAt, Gateways,
         FailedAttempts, TrimText;
    if k > 0 {
      var count := StoredFallbackCount(p.raw) + if k < |d.eligible| then k else k - 1;
      var failures := StoredFailures(p.raw) + FailureRecords(d.eligible, k);
      var routing := RoutingObject(d.requested, d.explicit, d.eligible[k - 1].gateway, count,
                                   Some(FailureAt(d.eligible, k - 1)), failures);
      PatchWithoutRequest(routing, money, checkout);
      MergeField(p.raw, Patch(map[], routing, money, checkout), "request");
    }
  }

  lemma ContinueKeepsStored(p: Payment, asked: Option<string>, expired: bool, w: World)
    requires SessionStored(p.raw) && WithUrls(w.sessions)
    ensures SessionStored(ContinueEffect(p, asked, expired, w).payment.raw)
  {
    Lock.ContinueCases(p, asked, expired, w);
    MoneyHasNoRequest(p, w);
    hide ContinueEffect, ContinueDecision, StoredCheckout, Money, SessionStored, Opened, NotOpened, FirstOpened, Tried,
         TrimToNull;
    var d := ContinueDecision(p, asked, expired, w);
    if d.Ok? {
      InitializeKeepsStored(p, d.value, w, Money(p, w), StoredCheckout(p.raw));
    }
  }

  lemma InitializeKeepsStored(p: Payment, d: Decision, w: World, money: Record, checkout: Checkout)
    requires "request" !in money && SessionStored(p.raw) && WithUrls(w.sessions)
    ensures SessionStored(Initialize(p, d, w, money, checkout).payment.raw)
  {
    TriedCandidates(d, w.plan);
    var tried := Tried(d, w.plan);
    var k := FirstOpened(tried, w.sessions);
    hide Tried, FirstOpened, Opened, NotOpened, SessionStored, RedirectUrl, TrimToNull;
    if k < |tried| {
      OpenedSessionStored(p, d, k, w.sessions[tried[k].gateway], money, checkout);
    } else {
      NotOpenedKeepsStored(p, d, k, money, checkout);
    }
  }

  lemma ReinitiationKeepsStored(p: Payment, r: CreateRequest, w: World)
    requires SessionStored(p.raw) && WithUrls(w.sessions)
    ensures SessionStored(InitiateOzowEffect(p, r, w).payment.raw)
  {
    hide ReinitiationAllowed, Merge, Patch, RoutingObject, GatewayRequestSnapshot, Money, SessionStored, TrimToNull,
         RedirectUrl;
    if ReinitiationAllowed(p, r, w) && OZOW in w.sessions {
      MoneyHasNoRequest(p, w);
      var s, routing := w.sessions[OZOW], RoutingObject(Choice(OZOW), true, OZOW, 0, None, []);
      PatchRequest(OZOW, s, routing, Money(p, w), r.checkout);
      SessionIsStored(p.raw, Patch(GatewayRequestSnapshot(OZOW, s), routing, Money(p, w), r.checkout), OZOW, s, None);
    }
  }

  /** The steps that keep a stored session: all but PayFast webhooks, which replace the JSON. */
  ghost predicate Follows(s: Step) {
    !(s.action.Receive? && s.action.hook.PayfastItn?) && WithUrls(s.world.sessions)
  }

  lemma StepKeepsStored(p: Payment, s: Step, processed: set<(Gateway, string)>)
    requires SessionStored(p.raw) && Follows(s)
    ensures SessionStored(EffectOf(p, s, processed).payment.raw)
  {
    hide ContinueEffect, InitiateOzowEffect, FailoverEffect, WebhookEffect, LookupEffect, WithUrls, TrimText;
    match s.action
    case Create(_) =>
    case InitiateOzow(r) => ReinitiationKeepsStored(p, r, s.world);
    case Continue(asked, expired) => ContinueKeepsStored(p, asked, expired, s.world);
    case Failover =>
      StoredIsStarted(p);
      StartedIsNotFailedOver(p, s.world);
    case Receive(_, _) => Lock.ReportKeepsSnapshots(p, s, processed);
    case LookUp(_) => Lock.ReportKeepsSnapshots(p, s, processed);
  }

  /** The payment's row holds a session to follow. */
  ghost predicate StoredIn(db: Db, reference: string) {
    reference in db.payments && SessionStored(db.payments[reference].raw)
  }

  lemma NextKeepsStored(db: Db, s: Step, reference: string)
    requires StoredIn(db, reference) && (s.reference == reference ==> Follows(s))
    ensures StoredIn(Next(db, s), reference)
  {
    hide EffectOf, CreationOf, ProcessedAfter, SessionStored, Follows, Recorded, Enqueued;
    if s.reference == reference {
      StepKeepsStored(db.payments[reference], s, db.processed);
    }
  }

  /**
   * Once a session with a URL has been stored, no run of continuations, Ozow re-initiations, lookups and merging
   * webhooks, with providers whose sessions have URLs, ever comes to a state in which the payment would be failed over.
   */
  lemma {:induction false} OnceStartedNeverFailedOver(db: Db, steps: seq<Step>, reference: string, w: World)
    requires StoredIn(db, reference)
    requires forall i :: 0 <= i < |steps| && steps[i].reference == reference ==> Follows(steps[i])
    ensures var after := Run(db, steps);
      && StoredIn(after, reference)
      && FailoverEffect(after.payments[reference], w) == Unchanged(after.payments[reference])
    decreases |steps|
  {
    hide Next, SessionStored, Follows, FailoverEffect;
    if steps == [] {
      StoredIsStarted(db.payments[reference]);
      StartedIsNotFailedOver(db.payments[reference], w);
    } else {
      NextKeepsStored(db, steps[0], reference);
      OnceStartedNeverFailedOver(Next(db, steps[0]), steps[1..], reference, w);
    }
  }

  /** A creation that a provider with URLs answered stores its session, so all of this holds from there on. */
  lemma CreationStarts(r: CreateRequest, w: World)
    requires WithUrls(w.sessions)
    ensures var e := CreateEffect(r, w); e.Some? && e.value.reply.Some? ==> SessionStored(e.value.payment.raw)
  {
    hide CreateDecision, Opened, NotOpened, FirstOpened, Tried, SessionStored, PriceOf, MonetizationSnapshot,
         RedirectUrl, TrimToNull;
    var d := CreateDecision(r, w);
    if d.Ok? {
      var p := NewPayment(r, w, Some(d.value.selected));
      PriceHasNoRequest(w.policy, p.price);
      TriedCandidates(d.value, w.plan);
      var tried := Tried(d.value, w.plan);
      var k := FirstOpened(tried, w.sessions);
      if k < |tried| {
        OpenedSessionStored(p, d.value, k, w.sessions[tried[k].gateway], MonetizationSnapshot(w.policy, p.price),
                            r.checkout);
      }
    }
  }

  lemma ContinuedStarts(p: Payment, asked: Option<string>, w: World)
    requires WithUrls(w.sessions)
    ensures var e := ContinueEffect(p, asked, false, w);
      e.reply.Some? && e.payment != p ==> Started(e.payment) && e.payment.gateway == e.reply
  {
    MoneyHasNoRequest(p, w);
    hide ContinueDecision, Initialize, StoredCheckout, Money, RedirectUrl, WithUrls;
    var d := ContinueDecision(p, asked, false, w);
    if d.Ok? {
      InitializeStarts(p, d.value, w, Money(p, w), StoredCheckout(p.raw));
    }
  }

  /** The later routing still selects the gateway the payment is on. */
  ghost predicate SelectsSame(q: Payment, asked: Option<string>, later: World) {
    var d := ContinueDecision(q, asked, false, later);
    d.Ok? && Some(d.value.selected) == q.gateway
  }

  lemma StartedIsReused(q: Payment, asked: Option<string>, later: World)
    requires Started(q) && SelectsSame(q, asked, later)
    ensures ContinueEffect(q, asked, false, later) == Effect(q, q.gateway, false, None)
  {
    hide ContinueDecision, Initialize, StoredCheckout, Money, RedirectUrl;
  }

  /**
   * A continuation that opened a session is idempotent: as long as routing still selects the gateway that answered, the
   * next one hands out the same session, asks no provider and leaves the row as it is.
   */
  lemma ContinuedCheckoutIsReused(p: Payment, asked: Option<string>, w: World, again: Option<string>, later: World)
    requires WithUrls(w.sessions)
    ensures var e := ContinueEffect(p, asked, false, w);
      e.reply.Some? && e.payment != p && SelectsSame(e.payment, again, later) ==>
        ContinueEffect(e.payment, again, false, later) == Effect(e.payment, e.reply, false, None)
  {
    ContinuedStarts(p, asked, w);
    hide ContinueEffect, SelectsSame, Started;
    var q := ContinueEffect(p, asked, false, w).payment;
    if Started(q) && SelectsSame(q, again, later) {
      StartedIsReused(q, again, later);
    }
  }

  // ---------- Fail-over ----------

  /**
   * What a fail-over that opened a session leaves: the payment is PENDING on the new gateway, still without a lock, its
   * fallback count one higher, and only this provider was asked. The failures of its creation are no longer listed.
   */
  ghost predicate FailedOverTo(p: Payment, q: Payment, g: Gateway) {
    && q.status == PENDING && q.gateway == Some(g) && q.asked == p.asked + [g]
    && StoredRequested(q.raw) == Auto && StoredFallbackCount(q.raw) == StoredFallbackCount(p.raw) + 1
    && StoredFailures(q.raw) == []
  }

  lemma FailoverOutcome(p: Payment, w: World)
    ensures var e := FailoverEffect(p, w);
      match e.reply
      case Some(g) => FailoverAllowed(p, w.plan) && g in w.sessions && FailedOverTo(p, e.payment, g)
      case None => e.payment == p || (e.payment == p.(asked := e.payment.asked) && |e.payment.asked| == |p.asked| + 1)
  {
    FailoverDecided(p, w);
    hide FailoverDecision, StoredCheckout, FailedOver, FailoverAllowed;
    var decision := FailoverDecision(p, w);
    if decision.Ok? && decision.value.selected in w.sessions {
      FailedOverRow(p, decision.value, w.sessions[decision.value.selected], StoredCheckout(p.raw));
    }
  }

  lemma FailoverDecided(p: Payment, w: World)
    ensures var d := FailoverDecision(p, w); d.Ok? ==> FailoverAllowed(p, w.plan) && d.value.requested == Auto
  {
    hide Decide, FailoverAllowed, StoredCheckout, Attempted, Preference, WellFormed;
    var query := QueryFor(p, Auto, Attempted(p), FailoverPriority, StoredCheckout(p.raw));
    DecisionIsWellFormed(w.merchant, w.env, query);
    AutoStaysAuto(w, query);
  }

  lemma AutoStaysAuto(w: World, query: Query)
    requires query.requested == Auto
    ensures var d := Decide(w.merchant, w.env, query); d.Ok? ==> d.value.requested == Auto
  {
    DecisionIsWellFormed(w.merchant, w.env, query);
    hide Decide;
  }

  lemma FailedOverRow(p: Payment, d: Decision, s: Session, checkout: Checkout)
    requires d.requested == Auto
    ensures FailedOverTo(p, FailedOver(p, d, s, checkout), d.selected)
  {
    hide Merge, Patch, RoutingObject, StoredRequested, StoredFallbackCount, StoredFailures, GatewayRequestSnapshot,
         CancelOpen, GatewayName;
    var lastFallback := Obj(map["fromGateway" := if p.gateway.Some? then Text(GatewayName(p.gateway.value)) else Null,
                                "toGateway" := Text(GatewayName(d.selected))]);
    var count := StoredFallbackCount(p.raw) + 1;
    var routing := RoutingObject(d.requested, d.explicit, d.selected, count, Some(lastFallback), []);
    PatchHasRouting(GatewayRequestSnapshot(d.selected, s), routing, map[], checkout);
    RoutingRoundTrip(p.raw, Patch(GatewayRequestSnapshot(d.selected, s), routing, map[], checkout), d.requested,
                     d.explicit, d.selected, count, Some(lastFallback), []);
  }

  // ---------- Provider reports ----------

  /** The report is on the row and on the latest attempt; nothing else has moved. */
  ghost predicate Reported(p: Payment, q: Payment, g: Gateway, next: Status) {
    && q.status == next && q.gateway == Some(g) && q.price == p.price && q.asked == p.asked
    && |q.attempts| == |p.attempts|
    && forall i :: 0 <= i < |p.attempts| ==>
         q.attempts[i].gateway == p.attempts[i].gateway && q.attempts[i].redirectUrl == p.attempts[i].redirectUrl
         && q.attempts[i].status ==
              if i == |p.attempts| - 1 && AttemptStatusFor(next).Some? then AttemptStatusFor(next).value
              else p.attempts[i].status
  }

  predicate AnsweredBy(l: Lookup, g: Gateway) {
    match l
    case OzowLookup(_, _) => g == OZOW
    case PaystackLookup(_, _) => g == PAYSTACK
    case YocoLookup(_, _, _, _) => g == YOCO
  }

  /** A lookup answers for its own gateway's payments only, and never announces anything. */
  lemma LookupOutcome(p: Payment, l: Lookup)
    ensures var next, e := LookupStatus(p, l), LookupEffect(p, l);
      && e.notify.None? && AnsweredBy(l, LookupGateway(l))
      && (if LookupWrites(p, l) then Reported(p, e.payment, LookupGateway(l), next) else e.payment == p)
      && (p.status != next ==> (LookupWrites(p, l) <==>
            CanTransition(p.status, next) && (p.gateway.None? || p.gateway == Some(LookupGateway(l)))))
      && (p.status == next ==> (LookupWrites(p, l) <==>
            (p.gateway.None? || p.gateway == Some(LookupGateway(l)))
            && (l.PaystackLookup? || (l.YocoLookup? && (l.checkout.Some? || l.failed)))))
      && (e.payment.status == PAID && p.status != PAID ==> e.record)
  {
    hide LookupStatus, LookupRaw;
  }

  // ---------- The attempt that succeeded ----------

  /** A payment is PAID exactly when its latest attempt succeeded, and no earlier attempt ever did. */
  ghost predicate AttemptsTell(p: Payment) {
    && p.attempts != []
    && forall i :: 0 <= i < |p.attempts| ==>
         (p.attempts[i].status.Succeeded? <==> p.status == PAID && i == |p.attempts| - 1)
  }

  lemma OpenedTells(p: Payment, d: Decision, k: nat, s: Session, money: Record, checkout: Checkout)
    requires k < |d.eligible| && p.status != PAID
    requires forall i :: 0 <= i < |p.attempts| ==> !p.attempts[i].status.Succeeded?
    ensures AttemptsTell(Opened(p, d, k, s, money, checkout))
  {
    hide Merge, Patch, RoutingObject, StoredFallbackCount, StoredFailures, FailureRecords, LastFailure, Gateways,
         GatewayRequestSnapshot;
  }

  lemma NotOpenedTells(p: Payment, d: Decision, k: nat, money: Record, checkout: Checkout)
    requires 0 < k <= |d.eligible| && p.status != PAID
    requires forall i :: 0 <= i < |p.attempts| ==> !p.attempts[i].status.Succeeded?
    ensures AttemptsTell(NotOpened(p, d, k, money, checkout))
  {
    hide Merge, Patch, RoutingObject, StoredFallbackCount, StoredFailures, FailureRecords, FailureAt, Gateways;
  }

  lemma InitializeTells(p: Payment, d: Decision, w: World, money: Record, checkout: Checkout)
    requires d.eligible != [] && p.status != PAID
    requires forall i :: 0 <= i < |p.attempts| ==> !p.attempts[i].status.Succeeded?
    ensures AttemptsTell(Initialize(p, d, w, money, checkout).payment)
  {
    TriedCandidates(d, w.plan);
    var tried := Tried(d, w.plan);
    var k := FirstOpened(tried, w.sessions);
    hide Tried, FirstOpened, Opened, NotOpened, AttemptsTell;
    if k < |tried| {
      OpenedTells(p, d, k, w.sessions[tried[k].gateway], money, checkout);
    } else {
      NotOpenedTells(p, d, k, money, checkout);
    }
  }

  /** A report that the table admits, written to the row and to its latest attempt. */
  lemma ReportTells(p: Payment, q: Payment, g: Gateway, next: Status)
    requires AttemptsTell(p) && CanTransition(p.status, next) && Reported(p, q, g, next)
    ensures AttemptsTell(q)
  {
  }

  lemma StepTells(p: Payment, s: Step, processed: set<(Gateway, string)>)
    requires AttemptsTell(p)
    ensures AttemptsTell(EffectOf(p, s, processed).payment)
  {
    match s.action
    case Create(_) =>
    case InitiateOzow(r) => InitiateOzowTells(p, r, s.world);
    case Continue(asked, expired) => ContinueTells(p, asked, expired, s.world);
    case Failover => FailoverTells(p, s.world);
    case Receive(id, hook) => ReceiveTells(p, hook, (HookGateway(hook), id) in processed);
    case LookUp(lookup) => LookUpTells(p, lookup);
  }

  lemma InitiateOzowTells(p: Payment, r: CreateRequest, w: World)
    requires AttemptsTell(p)
    ensures AttemptsTell(InitiateOzowEffect(p, r, w).payment)
  {
    hide Merge, Patch, RoutingObject, GatewayRequestSnapshot, Money, CurrencyOf;
  }

  lemma ContinueTells(p: Payment, asked: Option<string>, expired: bool, w: World)
    requires AttemptsTell(p)
    ensures AttemptsTell(ContinueEffect(p, asked, expired, w).payment)
  {
    Lock.ContinueCases(p, asked, expired, w);
    Lock.ContinueDecided(p, asked, expired, w);
    PaymentBooks.PaidRefusesContinuation(p, asked, expired, w);
    hide ContinueEffect, ContinueDecision, Initialize, StoredCheckout, Money;
    var d := ContinueDecision(p, asked, expired, w);
    if d.Ok? {
      InitializeTells(p, d.value, w, Money(p, w), StoredCheckout(p.raw));
    }
  }

  lemma FailoverTells(p: Payment, w: World)
    requires AttemptsTell(p)
    ensures AttemptsTell(FailoverEffect(p, w).payment)
  {
    hide Merge, Patch, RoutingObject, GatewayRequestSnapshot, Decide, StoredCheckout, StoredRequested, RedirectUrl,
         GatewayName, StoredFallbackCount;
  }

  lemma ReceiveTells(p: Payment, h: Hook, seen: bool)
    requires AttemptsTell(p)
    ensures AttemptsTell(WebhookEffect(p, h, seen).payment)
  {
    hide HookStatus, HookRaw, CanTransition, AttemptsTell;
    var mapped := HookStatus(h);
    if mapped.Some? && CanTransition(p.status, mapped.value) {
      ReportTells(p, Settle(p, HookGateway(h), mapped.value, HookRaw(p.raw, h)), HookGateway(h), mapped.value);
    }
  }

  lemma LookUpTells(p: Payment, l: Lookup)
    requires AttemptsTell(p)
    ensures AttemptsTell(LookupEffect(p, l).payment)
  {
    LookupOutcome(p, l);
    hide LookupEffect, LookupStatus, CanTransition, Reported, AttemptsTell;
    if LookupWrites(p, l) {
      ReportTells(p, LookupEffect(p, l).payment, LookupGateway(l), LookupStatus(p, l));
    }
  }

  lemma CreateTells(r: CreateRequest, w: World)
    ensures CreateEffect(r, w).Some? ==> AttemptsTell(CreateEffect(r, w).value.payment)
  {
    Lock.CreateDecisionFor(r, w);
    hide CreateDecision, Initialize, AttemptsTell, PriceOf, ParseRequested;
    var d := CreateDecision(r, w);
    if d.Ok? {
      var p := NewPayment(r, w, Some(d.value.selected));
      InitializeTells(p, d.value, w, MonetizationSnapshot(w.policy, p.price), r.checkout);
    }
  }

  lemma CreationTells(s: Step)
    ensures CreationOf(s).Some? ==> AttemptsTell(CreationOf(s).value.payment)
  {
    hide CreateEffect, AttemptsTell;
    match s.action
    case Create(r) => CreateTells(r, s.world);
    case InitiateOzow(r) => CreateTells(r.(gateway := Some("OZOW")), s.world);
    case _ =>
  }

  ghost predicate AllTell(db: Db) {
    forall r :: r in db.payments ==> AttemptsTell(db.payments[r])
  }

  /** In every run of all handlers, a payment is PAID exactly when its latest attempt is the one that succeeded. */
  lemma {:induction false} PaidIffLatestSucceeded(db: Db, steps: seq<Step>)
    requires AllTell(db)
    ensures AllTell(Run(db, steps))
    decreases |steps|
  {
    hide EffectOf, CreationOf, ProcessedAfter, AttemptsTell, Recorded, Enqueued;
    if steps != [] {
      var s := steps[0];
      if s.reference in db.payments {
        StepTells(db.payments[s.reference], s, db.processed);
      } else {
        CreationTells(s);
      }
      PaidIffLatestSucceeded(Next(db, s), steps[1..]);
    }
  }
}
