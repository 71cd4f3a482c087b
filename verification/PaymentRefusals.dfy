/** What the handlers demand: exactly when a request for a payment is refused, and that nothing is written then. */
module PaymentRefusals {
  import opened JsText
  import opened PaymentStatus
  import opened Payments
  import opened Snapshots
  import opened Routing
  import opened Json
  import opened PaymentAttempts
  import Lock = PaymentLock

  /** The plan has what the request needs: a named gateway manual selection, any other request automatic routing. */
  predicate InPlan(requested: Requested, plan: Plan) {
    (requested.Choice? ==> plan.manualSelection) && (!requested.Choice? ==> plan.autoRouting)
  }

  /**
   * The question put to the router about a payment: its full charge, currency and payer, and the payer's preference.
   */
  function QuestionAbout(p: Payment, requested: Requested, excluded: set<Gateway>, mode: Mode,
                         checkout: Checkout): Query {
    Query(requested, excluded, mode, Some(p.price.charge), Some(p.currency), p.customerEmail,
          if "paymentMethodPreference" in checkout then Some(checkout["paymentMethodPreference"]) else None)
  }

  /**
   * A creation is refused unless the amount is positive, the gateway's name is known, the plan has what is asked for
   * and the router finds a gateway.
   */
  lemma CreatedIff(r: CreateRequest, w: World)
    ensures var requested := ParseRequested(r.gateway);
      CreateEffect(r, w).Some? <==>
        && r.amountCents > 0 && requested.Ok? && InPlan(requested.value, w.plan)
        && Decide(w.merchant, w.env,
                  QuestionAbout(NewPayment(r, w, None), requested.value, {}, StrictPriority, r.checkout)).Ok?
  {
    hide ParseRequested, Decide, Initialize, PriceOf, CurrencyOf, MonetizationSnapshot;
  }

  // ---------- Continuation ----------

  /** The payment is bound to one of the three rails. */
  predicate Bound(p: Payment) {
    var stored := StoredRequested(p.raw);
    stored.Choice? && Rail(stored.gateway)
  }

  /** What is routed on: the rail the payment is bound to, else what the payer asks for, AUTO if that is nothing. */
  function RoutedOn(p: Payment, parsed: Requested): Requested {
    if !parsed.NoRequest? then parsed else if Bound(p) then StoredRequested(p.raw) else Auto
  }

  ghost predicate MayContinue(p: Payment, asked: Option<string>, expired: bool, w: World) {
    var parsed := ParseRequested(asked);
    && !expired && p.status != PAID && parsed.Ok? && (parsed.value.Choice? ==> Rail(parsed.value.gateway))
    && (if Bound(p) then RoutedOn(p, parsed.value) == StoredRequested(p.raw)
        else InPlan(RoutedOn(p, parsed.value), w.plan))
  }

  /**
   * A continuation is refused if the session has expired, the payment is paid, the gateway is unknown or no rail, the
   * payment is bound to another rail, or, for one that is not bound, if the plan lacks what is asked for. Otherwise the
   * router decides on the payment.
   */
  lemma ContinuedIff(p: Payment, asked: Option<string>, expired: bool, w: World)
    ensures ContinueDecision(p, asked, expired, w).Ok? ==> MayContinue(p, asked, expired, w)
    ensures MayContinue(p, asked, expired, w) ==>
      ContinueDecision(p, asked, expired, w) ==
        Decide(w.merchant, w.env, QuestionAbout(p, RoutedOn(p, ParseRequested(asked).value), {}, StrictPriority,
                                                StoredCheckout(p.raw)))
    ensures ContinueDecision(p, asked, expired, w).Err? ==>
      ContinueEffect(p, asked, expired, w) == Effect(p, None, false, None)
  {
    hide ParseRequested, Decide, StoredRequested, StoredCheckout, Initialize;
  }

  // ---------- Fail-over ----------

  /** Where the payer could still go: what the row holds, or else the URL of the latest attempt. */
  function OpenCheckout(p: Payment): Option<string> {
    RedirectUrl(p.raw, if p.attempts == [] then None else Some(p.attempts[|p.attempts| - 1].redirectUrl))
  }

  lemma AttemptedGateways(p: Payment, g: Gateway)
    ensures g in Attempted(p)
      <==> p.gateway == Some(g) || exists i :: 0 <= i < |p.attempts| && p.attempts[i].gateway == g
  {
    if i :| 0 <= i < |p.attempts| && p.attempts[i].gateway == g {
      assert p.attempts[i] in p.attempts;
    }
  }

  /**
   * A fail-over answers exactly if the plan has fallback, the payment is not paid, not locked and has no checkout to
   * follow, the router finds a gateway beyond those attempted, and that gateway's provider opens a session.
   */
  lemma FailedOverIff(p: Payment, w: World)
    ensures var e := FailoverEffect(p, w);
      var d := Decide(w.merchant, w.env,
                      QuestionAbout(p, Auto, Attempted(p), FailoverPriority, StoredCheckout(p.raw)));
      var allowed := w.plan.fallback && p.status != PAID && StoredRequested(p.raw) == Auto && OpenCheckout(p).None?;
      && (e.reply.Some? <==> allowed && d.Ok? && d.value.selected in w.sessions)
      && (e.reply.Some? ==> e.reply == Some(d.value.selected))
      && (e.reply.None? ==> e.payment == if allowed && d.Ok? then p.(asked := p.asked + [d.value.selected]) else p)
  {
    hide Decide, StoredRequested, StoredCheckout, RedirectUrl, FailedOver, Attempted;
  }

  // ---------- Direct Ozow re-initiation ----------

  /**
   * The direct Ozow entry point answers for a payment exactly if the merchant has Ozow's credentials, the request is
   * the payment's own, it is not paid and not on another gateway, and Ozow opens a session. The payment is then locked
   * to Ozow, with one more attempt and every earlier one as it was.
   */
  lemma ReinitiatedIff(p: Payment, r: CreateRequest, w: World)
    ensures var e := InitiateOzowEffect(p, r, w);
      var currency := TrimToNull(r.currency);
      var allowed :=
        && w.merchant.ozowSiteCode.Some? && w.merchant.ozowPrivateKey.Some?
        && p.merchantId == r.merchantId && p.price.base == r.amountCents
        && p.currency == (if currency.Some? then Upper(currency.value) else "ZAR")
        && (p.gateway == None || p.gateway == Some(OZOW)) && p.status != PAID;
      && (e.reply.Some? <==> allowed && OZOW in w.sessions)
      && (e.reply.Some? ==> e.reply == Some(OZOW) && Reinitiated(p, e.payment, w.sessions[OZOW]))
      && (e.reply.None? ==> e.payment == if allowed then p.(asked := p.asked + [OZOW]) else p)
  {
    hide TrimToNull, Upper;
    if InitiateOzowEffect(p, r, w).reply.Some? {
      Lock.MoneyOf(p, w);
      ReinitiatedRow(p, w.sessions[OZOW], Money(p, w), r.checkout);
    }
    hide OzowReinitiated, Reinitiated, Money;
  }

  ghost predicate Reinitiated(p: Payment, q: Payment, s: Session) {
    && q.status == (if p.status == CREATED then CREATED else PENDING) && q.gateway == Some(OZOW)
    && q.attempts == p.attempts + [Attempt(OZOW, Created, s.redirectUrl)] && q.asked == p.asked + [OZOW]
    && q.price == p.price && q.merchantId == p.merchantId && q.currency == p.currency
    && q.customerEmail == p.customerEmail
    && StoredRequested(q.raw) == Choice(OZOW) && StoredFallbackCount(q.raw) == 0 && StoredFailures(q.raw) == []
  }

  lemma ReinitiatedRow(p: Payment, s: Session, money: Record, checkout: Checkout)
    requires "routing" !in money
    ensures Reinitiated(p, OzowReinitiated(p, s, money, checkout), s)
  {
    var routing := RoutingObject(Choice(OZOW), true, OZOW, 0, None, []);
    PatchHasRouting(GatewayRequestSnapshot(OZOW, s), routing, money, checkout);
    hide Merge, Patch, RoutingObject, GatewayRequestSnapshot, StoredRequested, StoredFallbackCount, StoredFailures;
    RoutingRoundTrip(p.raw, Patch(GatewayRequestSnapshot(OZOW, s), routing, money, checkout), Choice(OZOW), true, OZOW,
                     0, None, []);
  }
}
