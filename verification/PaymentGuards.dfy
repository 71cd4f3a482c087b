/**
 * What the handlers ask the router about a payment is true of it, so every rail they line up passes its adapter's
 * guards.
 */
module PaymentGuards {
  import opened JsText
  import opened PaymentStatus
  import opened Payments
  import opened Snapshots
  import opened Routing
  import G = GatewayConfig
  import Lock = PaymentLock

  /** The charge as an adapter is given it. */
  function ChargeOf(reference: string, p: Payment): G.Charge {
    G.Charge(reference, p.price.charge, p.currency, p.customerEmail)
  }

  /** Every rail lined up is accepted by its adapter, which resolves the merchant's credentials once more. */
  ghost predicate PassesGuards(d: Decision, w: World, c: G.Charge) {
    forall i :: 0 <= i < |d.eligible| && Rail(d.eligible[i].gateway) ==>
      G.AdapterAccepts(d.eligible[i].gateway, w.merchant, w.env, c)
  }

  lemma UpperKeepsStored(s: string)
    requires Stored(s)
    ensures Stored(Upper(s))
  {
  }

  lemma CurrencyIsStored(currency: Option<string>)
    ensures Stored(CurrencyOf(currency))
  {
    var c := TrimToNull(currency);
    hide TrimToNull, Upper;
    if c.Some? { UpperKeepsStored(c.value); }
  }

  lemma DecisionPasses(p: Payment, reference: string, w: World, query: Query)
    requires Describes(query, ChargeOf(reference, p))
    ensures var d := Decide(w.merchant, w.env, query); d.Ok? ==> PassesGuards(d.value, w, ChargeOf(reference, p))
  {
    hide Decide, Describes, G.OzowAccepts, G.YocoAccepts, G.PaystackAccepts;
    var c := ChargeOf(reference, p);
    var d := Decide(w.merchant, w.env, query);
    if d.Ok? {
      if query.requested.Choice? {
        NamedDecision(w.merchant, w.env, query, c);
      } else {
        AutoDecision(w.merchant, w.env, query, c);
        assert forall i :: 0 <= i < |d.value.eligible| ==> Lists(d.value.eligible, d.value.eligible[i].gateway);
      }
    }
  }

  lemma QueryDescribes(p: Payment, reference: string, requested: Requested, excluded: set<Gateway>, mode: Mode,
                       checkout: Checkout)
    requires Stored(p.currency) && Stored(reference)
    ensures Describes(QueryFor(p, requested, excluded, mode, checkout), ChargeOf(reference, p))
  {
    hide Preference, Stored;
  }

  lemma ContinuationPasses(p: Payment, reference: string, asked: Option<string>, expired: bool, w: World)
    requires Stored(p.currency) && Stored(reference)
    ensures var d := ContinueDecision(p, asked, expired, w); d.Ok? ==> PassesGuards(d.value, w, ChargeOf(reference, p))
  {
    hide Decide, Describes, PassesGuards, Stored, StoredCheckout, StoredRequested, ContinuationRequest, QueryFor;
    var r := ContinuationRequest(StoredRequested(p.raw), asked);
    if r.Ok? {
      QueryDescribes(p, reference, r.value, {}, StrictPriority, StoredCheckout(p.raw));
      DecisionPasses(p, reference, w, QueryFor(p, r.value, {}, StrictPriority, StoredCheckout(p.raw)));
    }
  }

  lemma FailoverPasses(p: Payment, reference: string, w: World)
    requires Stored(p.currency) && Stored(reference)
    ensures var d := FailoverDecision(p, w); d.Ok? ==> PassesGuards(d.value, w, ChargeOf(reference, p))
  {
    hide Decide, Describes, PassesGuards, Stored, StoredCheckout, QueryFor, FailoverAllowed;
    QueryDescribes(p, reference, Auto, Attempted(p), FailoverPriority, StoredCheckout(p.raw));
    DecisionPasses(p, reference, w, QueryFor(p, Auto, Attempted(p), FailoverPriority, StoredCheckout(p.raw)));
  }

  /** Creation asks about the row before it has a gateway, which changes nothing about the charge. */
  lemma CreationPasses(r: CreateRequest, reference: string, w: World)
    requires Stored(reference)
    ensures var d := CreateDecision(r, w);
      d.Ok? ==> PassesGuards(d.value, w, ChargeOf(reference, NewPayment(r, w, Some(d.value.selected))))
  {
    CurrencyIsStored(r.currency);
    var p := NewPayment(r, w, None);
    hide Decide, Describes, PassesGuards, Stored, QueryFor, ParseRequested, PriceOf, CurrencyOf;
    var requested := ParseRequested(r.gateway);
    if requested.Ok? {
      QueryDescribes(p, reference, requested.value, {}, StrictPriority, r.checkout);
      DecisionPasses(p, reference, w, QueryFor(p, requested.value, {}, StrictPriority, r.checkout));
    }
  }

  // ---------- Over whole runs ----------

  ghost predicate CurrenciesStored(db: Db) {
    forall r :: r in db.payments ==> Stored(db.payments[r].currency)
  }

  lemma InitializeKeepsCurrency(p: Payment, d: Decision, w: World, money: Json.Record, checkout: Checkout)
    ensures Initialize(p, d, w, money, checkout).payment.currency == p.currency
  {
  }

  lemma ContinueKeepsCurrency(p: Payment, asked: Option<string>, expired: bool, w: World)
    ensures ContinueEffect(p, asked, expired, w).payment.currency == p.currency
  {
    Lock.ContinueCases(p, asked, expired, w);
    hide ContinueEffect, ContinueDecision, Initialize, StoredCheckout, Money;
    var d := ContinueDecision(p, asked, expired, w);
    if d.Ok? {
      InitializeKeepsCurrency(p, d.value, w, Money(p, w), StoredCheckout(p.raw));
    }
  }

  lemma StepKeepsCurrency(p: Payment, s: Step, processed: set<(Gateway, string)>)
    ensures EffectOf(p, s, processed).payment.currency == p.currency
  {
    hide ContinueEffect, HookStatus, HookRaw, LookupStatus, LookupRaw, LookupWrites, ReinitiationAllowed,
         FailoverDecision;
    if s.action.Continue? {
      ContinueKeepsCurrency(p, s.action.asked, s.action.expired, s.world);
    }
  }

  lemma CreateStoresCurrency(r: CreateRequest, w: World)
    ensures CreateEffect(r, w).Some? ==> Stored(CreateEffect(r, w).value.payment.currency)
  {
    CurrencyIsStored(r.currency);
    hide CreateDecision, Initialize, Stored, CurrencyOf, PriceOf;
    var d := CreateDecision(r, w);
    if d.Ok? {
      var p := NewPayment(r, w, Some(d.value.selected));
      InitializeKeepsCurrency(p, d.value, w, MonetizationSnapshot(w.policy, p.price), r.checkout);
    }
  }

  lemma NextKeepsCurrencies(db: Db, s: Step)
    requires CurrenciesStored(db)
    ensures CurrenciesStored(Next(db, s))
  {
    hide EffectOf, CreateEffect, ProcessedAfter, Stored, Recorded, Enqueued;
    if s.reference in db.payments {
      StepKeepsCurrency(db.payments[s.reference], s, db.processed);
    } else if s.action.Create? {
      CreateStoresCurrency(s.action.request, s.world);
    } else if s.action.InitiateOzow? {
      CreateStoresCurrency(s.action.request.(gateway := Some("OZOW")), s.world);
    }
  }

  lemma {:induction false} RunKeepsCurrencies(db: Db, steps: seq<Step>)
    requires CurrenciesStored(db)
    ensures CurrenciesStored(Run(db, steps))
    decreases |steps|
  {
    hide CurrenciesStored, Next;
    if steps != [] {
      NextKeepsCurrencies(db, steps[0]);
      RunKeepsCurrencies(Next(db, steps[0]), steps[1..]);
    }
  }

  /**
   * After any run from an empty database, whatever payment a continuation or a fail-over is about and whatever the
   * merchant has configured by then: each rail it would ask for a session passes its adapter's guards.
   */
  lemma AskedRailsPassTheirGuards(steps: seq<Step>, reference: string, asked: Option<string>, expired: bool, w: World)
    requires Stored(reference)
    ensures var db := Run(EMPTY, steps);
      reference in db.payments ==>
        var p := db.payments[reference];
        var c := ChargeOf(reference, p);
        && (ContinueDecision(p, asked, expired, w).Ok? ==>
              PassesGuards(ContinueDecision(p, asked, expired, w).value, w, c))
        && (FailoverDecision(p, w).Ok? ==> PassesGuards(FailoverDecision(p, w).value, w, c))
  {
    RunKeepsCurrencies(EMPTY, steps);
    var db := Run(EMPTY, steps);
    hide Run, Stored, PassesGuards, ContinueDecision, FailoverDecision;
    if reference in db.payments {
      ContinuationPasses(db.payments[reference], reference, asked, expired, w);
      FailoverPasses(db.payments[reference], reference, w);
    }
  }
}
