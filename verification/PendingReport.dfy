/**
 * A run that leaves a payment with two open attempts: created on Paystack, continued in vain on Yoco, reported PENDING.
 */
module PendingReport {
  import opened JsText
  import opened PaymentStatus
  import opened Payments
  import opened PaymentAttempts
  import opened Snapshots
  import opened Routing
  import opened ProviderStatus
  import opened Json
  import G = GatewayConfig
  import Fees
  import Lock = PaymentLock

  const ANSWER := Session("https://checkout", Null, None, Null)
  const POLICY := FeePolicy(0, 0, "NONE", "platform_default", false)
  const ORDER := CreateRequest("m", 1000, None, Some("a"), None, map[])
  const REFERENCE: string := "INV-1"

  /** Everything is allowed by the plan; the providers in the map answer. */
  function WorldOf(m: G.Merchant, sessions: map<Gateway, Session>): World {
    World(m, map[], Plan(true, true, true), POLICY, [], sessions)
  }

  function Ordering(m: G.Merchant): Step { Step(REFERENCE, Create(ORDER), WorldOf(m, map[PAYSTACK := ANSWER])) }

  function Continuing(m: G.Merchant): Step { Step(REFERENCE, Continue(Some("YOCO"), false), WorldOf(m, map[])) }

  function Reporting(m: G.Merchant): Step {
    Step(REFERENCE, Receive("event-1", OzowNotify(Some("PENDING"), map[])), WorldOf(m, map[]))
  }

  // ---------- What routing decides ----------

  function TheCharge(): G.Charge { G.Charge(REFERENCE, 1000, "ZAR", Some("a")) }

  /** The merchant takes the charge on Paystack and on Yoco. */
  ghost predicate TakesBoth(m: G.Merchant) {
    G.PaystackAccepts(m, map[], TheCharge()) && G.YocoAccepts(m, map[], TheCharge())
  }

  lemma Price()
    ensures PriceOf(1000, POLICY) == Fees.Breakdown(1000, 0, 1000, 1000) && CurrencyOf(None) == "ZAR"
  {
  }

  lemma DescribedBy(query: Query)
    requires query.amountCents == Some(1000) && query.currency == Some("ZAR") && query.customerEmail == Some("a")
    ensures Describes(query, TheCharge())
  {
  }

  lemma AutoSelectsPaystack(m: G.Merchant, query: Query)
    requires TakesBoth(m) && Describes(query, TheCharge())
    requires query.requested == NoRequest && query.excluded == {} && query.preference == None
    ensures var d := Decide(m, map[], query);
      d.Ok? && !d.value.explicit && |d.value.eligible| > 0 && d.value.eligible[0].gateway == PAYSTACK
  {
    hide G.PaystackAccepts, G.YocoAccepts, G.OzowAccepts, Decide, Describes;
    AutoDecision(m, map[], query, TheCharge());
    assert PAYSTACK in Takers(m, map[], query, TheCharge());
    FirstOfOrder(Decide(m, map[], query).value, query, Takers(m, map[], query, TheCharge()));
  }

  /** Paystack heads the order, so if it is among the takers it is lined up first. */
  lemma FirstOfOrder(d: Decision, query: Query, takers: set<Gateway>)
    requires AutoOutcome(d, query, takers) && query.preference == None
    requires PAYSTACK in takers && takers <= {PAYSTACK, YOCO, OZOW}
    ensures d.eligible[0].gateway == PAYSTACK
  {
    var order := PreferredOrder(None);
    assert Lists(d.eligible, PAYSTACK) && Lists(d.eligible, d.eligible[0].gateway);
    var i :| 0 <= i < |d.eligible| && d.eligible[i].gateway == PAYSTACK;
    assert Places(d.eligible[i], order, 0);
    var g := d.eligible[0].gateway;
    var a := if g == PAYSTACK then 0 else if g == YOCO then 1 else 2;
    assert Places(d.eligible[0], order, a);
  }

  function OrderQuery(): Query {
    Query(NoRequest, {}, StrictPriority, Some(1000), Some("ZAR"), Some("a"), None)
  }

  lemma OrderAsks(m: G.Merchant)
    ensures QueryFor(NewPayment(ORDER, Ordering(m).world, None), NoRequest, {}, StrictPriority, ORDER.checkout)
         == OrderQuery()
  {
    Price();
    assert Preference(ORDER.checkout) == None;
    hide PriceOf, CurrencyOf, Preference;
  }

  lemma CreationAsks(m: G.Merchant)
    ensures CreateDecision(ORDER, Ordering(m).world) == Decide(m, map[], OrderQuery())
  {
    OrderAsks(m);
    assert ParseRequested(None) == Ok(NoRequest);
    hide Decide, QueryFor, NewPayment, OrderQuery, ParseRequested;
  }

  lemma CreationDecision(m: G.Merchant)
    requires TakesBoth(m)
    ensures var d := CreateDecision(ORDER, Ordering(m).world);
      d.Ok? && !d.value.explicit && |d.value.eligible| > 0 && d.value.eligible[0].gateway == PAYSTACK
  {
    hide TakesBoth, Decide, CreateDecision, Describes, Ordering;
    CreationAsks(m);
    DescribedBy(OrderQuery());
    AutoSelectsPaystack(m, OrderQuery());
  }

  lemma NamedReady(rs: seq<Readiness>, g: Gateway, m: G.Merchant, query: Query)
    requires IsReady(rs, g) && g !in query.excluded
    ensures DecideNamed(rs, g, m, query).Ok?
  {
    hide Find, LegacyReadiness, Unready;
  }

  lemma YocoDecision(m: G.Merchant, query: Query)
    requires TakesBoth(m) && Describes(query, TheCharge())
    requires query.requested == Choice(YOCO) && query.excluded == {}
    ensures var d := Decide(m, map[], query);
      d.Ok? && d.value.eligible == [Candidate(YOCO, 1)] && d.value.selected == YOCO && d.value.explicit
  {
    hide G.PaystackAccepts, G.YocoAccepts, G.OzowAccepts, GatewayReadiness, Describes, DecideNamed, IsReady, TheCharge;
    ReadyIffAdapterAccepts(YOCO, m, map[], query, TheCharge());
    NamedReady(GatewayReadiness(m, map[], query), YOCO, m, query);
    DecisionIsWellFormed(m, map[], query);
  }

  lemma ContinuationDecision(m: G.Merchant, p: Payment)
    requires TakesBoth(m) && OnPaystack(p)
    ensures var d := ContinueDecision(p, Some("YOCO"), false, Continuing(m).world);
      d.Ok? && d.value.eligible == [Candidate(YOCO, 1)] && d.value.selected == YOCO && d.value.explicit
  {
    ParseNamed(Choice(YOCO));
    hide TakesBoth, Decide, StoredCheckout, Preference, StoredRequested, ParseRequested;
    var query := QueryFor(p, Choice(YOCO), {}, StrictPriority, StoredCheckout(p.raw));
    DescribedBy(query);
    hide Describes;
    YocoDecision(m, query);
    assert ContinuationRequest(Auto, Some("YOCO")) == Ok(Choice(YOCO));
  }

  // ---------- The three steps ----------

  /** One open attempt on Paystack, and no lock. */
  ghost predicate OnPaystack(p: Payment) {
    && p.status == CREATED && p.gateway == Some(PAYSTACK) && StoredRequested(p.raw) == Auto
    && p.price.charge == 1000 && p.currency == "ZAR" && p.customerEmail == Some("a")
    && |p.attempts| == 1 && p.attempts[0].status == Created
  }

  lemma Ordered(m: G.Merchant)
    requires TakesBoth(m)
    ensures CreationOf(Ordering(m)).Some? && OnPaystack(CreationOf(Ordering(m)).value.payment)
  {
    CreationDecision(m);
    Price();
    var w := Ordering(m).world;
    var d := CreateDecision(ORDER, w).value;
    Lock.CreationLocks(ORDER, w);
    assert ParseRequested(None) == Ok(NoRequest);
    hide TakesBoth, CreateDecision, StoredRequested, PriceOf, CurrencyOf, ParseRequested;
    var p := NewPayment(ORDER, w, Some(d.selected));
    OpenedFirst(p, d, w, MonetizationSnapshot(POLICY, p.price), map[]);
  }

  lemma OpenedFirst(p: Payment, d: Decision, w: World, money: Record, checkout: Checkout)
    requires |d.eligible| > 0 && d.eligible[0].gateway in w.sessions && p.attempts == []
    ensures var q := Initialize(p, d, w, money, checkout).payment;
      && q.gateway == Some(d.eligible[0].gateway) && |q.attempts| == 1 && q.attempts[0].status == Created
      && q.price == p.price && q.currency == p.currency && q.customerEmail == p.customerEmail
      && (p.status == CREATED ==> q.status == CREATED)
  {
    TriedCandidates(d, w.plan);
    assert Tried(d, w.plan)[0] == d.eligible[0];
    OpenedRow(p, d, 0, w.sessions[d.eligible[0].gateway], money, checkout);
    hide Merge, Patch, RoutingObject, GatewayRequestSnapshot, StoredFallbackCount, StoredFailures, FailureRecords;
  }

  /** Another gateway than the payment's is not reused. */
  lemma ContinueInitializes(p: Payment, asked: Option<string>, w: World, d: Decision)
    requires ContinueDecision(p, asked, false, w) == Ok(d) && p.gateway != Some(d.selected)
    ensures ContinueEffect(p, asked, false, w).payment
         == Initialize(p, d, w, Money(p, w), StoredCheckout(p.raw)).payment
  {
    hide ContinueDecision, Initialize, RedirectUrl, Money, StoredCheckout;
  }

  lemma InitializedInVain(p: Payment, d: Decision, w: World, money: Record, checkout: Checkout)
    requires d.eligible == [Candidate(YOCO, 1)] && YOCO !in w.sessions
    ensures var q := Initialize(p, d, w, money, checkout).payment;
      q.status == p.status && q.attempts == p.attempts + [Attempt(YOCO, Failed, "")]
  {
    assert Tried(d, w.plan) == d.eligible;
    assert d.eligible[..1] == d.eligible;
    NotOpenedRow(p, d, 1, money, checkout);
    assert FailedAttempts(d.eligible) == [Attempt(YOCO, Failed, "")];
    hide NotOpened, Opened;
  }

  lemma ContinuedInVain(m: G.Merchant, p: Payment)
    requires TakesBoth(m) && OnPaystack(p)
    ensures var q := ContinueEffect(p, Some("YOCO"), false, Continuing(m).world).payment;
      q.status == CREATED && |q.attempts| == 2 && q.attempts[0] == p.attempts[0]
  {
    ContinuationDecision(m, p);
    hide TakesBoth, ContinueDecision, ContinueEffect, Initialize, StoredRequested, StoredCheckout, Money;
    var w := Continuing(m).world;
    var d := ContinueDecision(p, Some("YOCO"), false, w).value;
    ContinueInitializes(p, Some("YOCO"), w, d);
    InitializedInVain(p, d, w, Money(p, w), StoredCheckout(p.raw));
  }

  lemma Reported(p: Payment)
    requires p.status == CREATED && |p.attempts| == 2 && Open(p.attempts[0])
    ensures !AtMostOneOpen(WebhookEffect(p, OzowNotify(Some("PENDING"), map[]), false).payment.attempts)
  {
    PendingIsPending();
    hide MapOzow, HookRaw;
    var after := WebhookEffect(p, OzowNotify(Some("PENDING"), map[]), false).payment.attempts;
    assert Open(after[0]) && Open(after[1]);
  }

  lemma PendingIsPending()
    ensures MapOzow(Some("PENDING")) == PENDING
  {
    TrimKeepsTrimmed("PENDING");
    assert Upper("PENDING") == "PENDING";
    hide Trim, Upper;
    assert "PENDING"[1] == 'E' && "PENDING"[0] == 'P';
  }

  lemma ThreeSteps(a: Step, b: Step, c: Step)
    ensures Run(EMPTY, [a, b, c]) == Next(Next(Next(EMPTY, a), b), c)
  {
    hide Next;
    var first := Next(EMPTY, a);
    var second := Next(first, b);
    assert [a, b, c][1..] == [b, c] && [b, c][1..] == [c] && [c][1..] == [];
    assert Run(second, [c]) == Run(Next(second, c), []) == Next(second, c);
    assert Run(first, [b, c]) == Run(second, [c]);
    assert Run(EMPTY, [a, b, c]) == Run(first, [b, c]);
  }

  lemma NextOrdered(m: G.Merchant)
    requires TakesBoth(m)
    ensures var db := Next(EMPTY, Ordering(m));
      REFERENCE in db.payments && OnPaystack(db.payments[REFERENCE]) && db.processed == {}
  {
    Ordered(m);
    hide TakesBoth, CreationOf, OnPaystack, Recorded, Enqueued;
  }

  lemma NextOf(db: Db, s: Step)
    requires s.reference in db.payments
    ensures s.reference in Next(db, s).payments
    ensures Next(db, s).payments[s.reference] == EffectOf(db.payments[s.reference], s, db.processed).payment
    ensures Next(db, s).processed == ProcessedAfter(s, db.processed)
  {
    hide EffectOf, Recorded, Enqueued, ProcessedAfter;
  }

  ghost predicate TwoOpen(db: Db) {
    REFERENCE in db.payments && !AtMostOneOpen(db.payments[REFERENCE].attempts)
  }

  /** A failed attempt after an open one. */
  ghost predicate AfterFailure(db: Db) {
    && REFERENCE in db.payments && db.processed == {}
    && var p := db.payments[REFERENCE]; p.status == CREATED && |p.attempts| == 2 && Open(p.attempts[0])
  }

  lemma NextContinued(m: G.Merchant, db: Db)
    requires TakesBoth(m) && REFERENCE in db.payments && OnPaystack(db.payments[REFERENCE]) && db.processed == {}
    ensures AfterFailure(Next(db, Continuing(m)))
  {
    hide Next, ContinueEffect, TakesBoth;
    NextOf(db, Continuing(m));
    ContinuedInVain(m, db.payments[REFERENCE]);
  }

  lemma NextReported(m: G.Merchant, db: Db)
    requires AfterFailure(db)
    ensures TwoOpen(Next(db, Reporting(m)))
  {
    hide Next, WebhookEffect, AtMostOneOpen, ProcessedAfter;
    NextOf(db, Reporting(m));
    Reported(db.payments[REFERENCE]);
  }

  /** From an empty database, for any merchant that takes the charge on both. */
  lemma TwoAttemptsOpen(m: G.Merchant)
    requires TakesBoth(m)
    ensures TwoOpen(Run(EMPTY, [Ordering(m), Continuing(m), Reporting(m)]))
  {
    hide Next, Run, TakesBoth, TwoOpen, AfterFailure, OnPaystack, Ordering, Continuing, Reporting;
    ThreeSteps(Ordering(m), Continuing(m), Reporting(m));
    NextOrdered(m);
    NextContinued(m, Next(EMPTY, Ordering(m)));
    NextReported(m, Next(Next(EMPTY, Ordering(m)), Continuing(m)));
  }

  // ---------- Such a merchant ----------

  const MERCHANT := G.Merchant(None, None, None, None, None, None, None, Some("pk_test_y"), Some("sk_test_y"), None,
                               Some("sk_test_p"), None)

  lemma Kept(s: string)
    requires s != "" && Trimmed(s)
    ensures TrimToNull(Some(s)) == Some(s)
  {
    TrimKeepsTrimmed(s);
  }

  lemma PaystackTakes(m: G.Merchant, key: string)
    requires m.paystackSecretKey == Some(key) && m.paystackTestMode == None
    requires TrimToNull(Some(key)) == Some(key) && StartsWith(key, "sk_test_")
    ensures G.PaystackAccepts(m, map[], TheCharge())
  {
    Kept("a");
    hide TrimToNull, StartsWith, Upper, Trim;
  }

  lemma TestMode(publicKey: string, secretKey: string)
    requires TrimToNull(Some(publicKey)) == Some(publicKey) && StartsWith(publicKey, "pk_test_")
    requires TrimToNull(Some(secretKey)) == Some(secretKey) && StartsWith(secretKey, "sk_test_")
    ensures G.DetectYocoMode(Some(publicKey), Some(secretKey)) == Ok(Some(true))
  {
    hide TrimToNull, StartsWith;
  }

  lemma Rands()
    ensures Upper(Trim("ZAR")) == "ZAR"
  {
    TrimKeepsTrimmed("ZAR");
    assert Upper("ZAR") == "ZAR";
  }

  lemma YocoTakes(m: G.Merchant, publicKey: string, secretKey: string)
    requires m.yocoPublicKey == Some(publicKey) && m.yocoSecretKey == Some(secretKey) && m.yocoTestMode == None
    requires TrimToNull(Some(publicKey)) == Some(publicKey) && StartsWith(publicKey, "pk_test_")
    requires TrimToNull(Some(secretKey)) == Some(secretKey) && StartsWith(secretKey, "sk_test_")
    ensures G.YocoAccepts(m, map[], TheCharge())
  {
    hide TrimToNull, StartsWith, Upper, Trim, G.DetectYocoMode;
    TestMode(publicKey, secretKey);
    Rands();
  }

  lemma TestKey(key: string, prefix: string, rest: char)
    requires key == prefix + [rest] && !IsSpace(rest) && prefix != "" && !IsSpace(prefix[0])
    ensures TrimToNull(Some(key)) == Some(key) && StartsWith(key, prefix)
  {
    hide TrimToNull;
    Kept(key);
  }

  lemma MerchantTakesBoth()
    ensures TakesBoth(MERCHANT)
  {
    hide TrimToNull, StartsWith, G.PaystackAccepts, G.YocoAccepts;
    TestKey("pk_test_y", "pk_test_", 'y');
    TestKey("sk_test_y", "sk_test_", 'y');
    TestKey("sk_test_p", "sk_test_", 'p');
    YocoTakes(MERCHANT, "pk_test_y", "sk_test_y");
    PaystackTakes(MERCHANT, "sk_test_p");
  }

  /**
   * So one run, from an empty database, leaves a payment with two open attempts: an AUTO payment is created on
   * Paystack, the payer asks for Yoco, whose API fails, and Ozow notifies PENDING.
   */
  lemma ReachableFromEmpty()
    ensures TwoOpen(Run(EMPTY, [Ordering(MERCHANT), Continuing(MERCHANT), Reporting(MERCHANT)]))
  {
    MerchantTakesBoth();
    hide TakesBoth, TwoOpen, Run;
    TwoAttemptsOpen(MERCHANT);
  }
}
