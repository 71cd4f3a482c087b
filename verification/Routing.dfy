/** Which gateway takes a payment: a readiness check for each rail, then a fixed order of preference. */
module Routing {
  import opened JsText
  import opened PaymentStatus
  import opened GatewayConfig

  datatype Mode = StrictPriority | FailoverPriority

  datatype Requested = NoRequest | Auto | Choice(gateway: Gateway)

  datatype Readiness = Readiness(gateway: Gateway, issues: seq<string>, testMode: Option<bool>) {
    predicate Ready() { |issues| == 0 }
  }

  datatype Candidate = Candidate(gateway: Gateway, priority: nat)

  datatype Decision = Decision(mode: Mode, explicit: bool, requested: Requested, selected: Gateway,
                               eligible: seq<Candidate>, skipped: seq<Readiness>)

  /** The charge as the router is given it; the reference is not its concern. */
  datatype Query = Query(requested: Requested, excluded: set<Gateway>, mode: Mode, amountCents: Option<int>,
                         currency: Option<string>, customerEmail: Option<string>, preference: Option<string>)

  function IssueIf(condition: bool, issue: string): seq<string> {
    if condition then [issue] else []
  }

  function OzowReadiness(m: Merchant, env: Env, q: Query): (r: Readiness)
    ensures r.gateway == OZOW
  {
    var config := ResolveOzow(m, env);
    var currency := TrimToNull(q.currency);
    Readiness(OZOW,
      IssueIf(OZOW in q.excluded, "excluded from the current routing attempt")
      + (if config.hasPartialMerchantConfig then ["merchant Ozow config is incomplete"]
         else IssueIf(config.siteCode.None? || config.privateKey.None?, "merchant Ozow credentials are not configured"))
      + IssueIf(currency.Some? && Upper(currency.value) != "ZAR", "Ozow currently supports ZAR only"),
      Some(config.isTest))
  }

  function YocoReadiness(m: Merchant, env: Env, q: Query): (r: Readiness)
    ensures r.gateway == YOCO
  {
    var currency := TrimToNull(q.currency);
    var excluded := IssueIf(YOCO in q.excluded, "excluded from the current routing attempt");
    match ResolveYoco(m, env)
    case Err(e) => Readiness(YOCO, excluded + [e], None)
    case Ok(config) =>
      if !YocoConsistent(config)
      then Readiness(YOCO, excluded + ["Yoco keys do not match the selected testMode"], None)
      else Readiness(YOCO,
        excluded
        + IssueIf(config.publicKey.None? || config.secretKey.None?, "merchant Yoco credentials are not configured")
        + IssueIf(currency.Some? && Upper(currency.value) != "ZAR", "Yoco currently supports ZAR only")
        + IssueIf(q.amountCents.Some? && q.amountCents.value < 200, "Yoco requires a minimum amount of 200 cents"),
        Some(config.testMode))
  }

  function PaystackReadiness(m: Merchant, env: Env, q: Query): (r: Readiness)
    ensures r.gateway == PAYSTACK
  {
    var config := ResolvePaystack(m, env);
    var excluded := IssueIf(PAYSTACK in q.excluded, "excluded from the current routing attempt");
    if !PaystackConsistent(config)
    then Readiness(PAYSTACK, excluded + ["Paystack secret key does not match the selected testMode"], None)
    else Readiness(PAYSTACK,
      excluded
      + IssueIf(config.secretKey.None?, "merchant Paystack credentials are not configured")
      + IssueIf(TrimToNull(q.customerEmail).None?, "Paystack requires customerEmail"),
      Some(config.testMode))
  }

  /** The three rails AUTO routing knows. */
  predicate Rail(g: Gateway) {
    g.PAYSTACK? || g.YOCO? || g.OZOW?
  }

  function GatewayReadiness(m: Merchant, env: Env, q: Query): seq<Readiness> {
    [PaystackReadiness(m, env, q), YocoReadiness(m, env, q), OzowReadiness(m, env, q)]
  }

  /** PayFast can only be asked for by name; Peach has no adapter at all. */
  function LegacyReadiness(g: Gateway, m: Merchant, q: Query): Option<Readiness> {
    if g == PAYFAST then
      Some(Readiness(PAYFAST,
        IssueIf(PAYFAST in q.excluded, "excluded from the current routing attempt")
        + IssueIf(m.payfastMerchantId in {None, Some("")} || m.payfastMerchantKey in {None, Some("")},
                  "merchant PayFast credentials are not configured"),
        m.payfastIsSandbox))
    else None
  }

  predicate PrefersBank(preference: Option<string>) {
    var p := TrimToNull(preference);
    p.Some? && Upper(p.value) in {"BANK_EFT", "BANK", "EFT", "INSTANT_EFT"}
  }

  function AutoRailOrder(preference: Option<string>): (order: seq<Gateway>)
    ensures forall g :: g in order <==> Rail(g)
  {
    if PrefersBank(preference) then [OZOW, YOCO, PAYSTACK] else [PAYSTACK, YOCO, OZOW]
  }

  /** Array.prototype.find by gateway. */
  function Find(readiness: seq<Readiness>, g: Gateway): (r: Option<Readiness>)
    ensures r.Some? ==> r.value in readiness && r.value.gateway == g
  {
    if readiness == [] then None
    else if readiness[0].gateway == g then Some(readiness[0])
    else Find(readiness[1..], g)
  }

  predicate IsReady(readiness: seq<Readiness>, g: Gateway) {
    var r := Find(readiness, g);
    r.Some? && r.value.Ready()
  }

  function BuildEligible(readiness: seq<Readiness>, order: seq<Gateway>, priority: nat): seq<Candidate> {
    if order == [] then []
    else if IsReady(readiness, order[0])
    then [Candidate(order[0], priority)] + BuildEligible(readiness, order[1..], priority + 1)
    else BuildEligible(readiness, order[1..], priority)
  }

  function Unready(rs: seq<Readiness>): seq<Readiness> {
    if rs == [] then [] else (if rs[0].Ready() then [] else [rs[0]]) + Unready(rs[1..])
  }

  function DecideNamed(readiness: seq<Readiness>, g: Gateway, m: Merchant, q: Query): Result<Decision> {
    if g in q.excluded then Err("gateway is not available for this payment")
    else
      var r := if Find(readiness, g).Some? then Find(readiness, g) else LegacyReadiness(g, m, q);
      if r.None? || !r.value.Ready() then Err("gateway is not available for this payment")
      else Ok(Decision(q.mode, true, Choice(g), g, [Candidate(g, 1)], Unready(readiness)))
  }

  function DecideAuto(readiness: seq<Readiness>, q: Query): Result<Decision> {
    var eligible := BuildEligible(readiness, AutoRailOrder(q.preference), 1);
    if eligible == [] then Err("No gateway available for this payment")
    else Ok(Decision(q.mode, false, Auto, eligible[0].gateway, eligible, Unready(readiness)))
  }

  function Decide(m: Merchant, env: Env, q: Query): Result<Decision> {
    var readiness := GatewayReadiness(m, env, q);
    match q.requested
    case Choice(g) => DecideNamed(readiness, g, m, q)
    case _ => DecideAuto(readiness, q)
  }

  // ---------- Readiness agrees with the adapters ----------

  /** Text as payment rows hold it: trimmed before it was stored, and never blank. */
  predicate Stored(s: string) {
    s != "" && Trimmed(s)
  }

  /** The router is told the truth about the charge: the stored amount, a currency, the payer's address. */
  predicate Describes(q: Query, c: Charge) {
    && q.amountCents == Some(c.amountCents)
    && q.currency == Some(c.currency) && Stored(c.currency)
    && q.customerEmail == c.customerEmail
    && Stored(c.reference)
  }

  lemma StoredText(c: Charge)
    ensures Stored(c.currency) ==> Trim(c.currency) == c.currency
    ensures Stored(c.reference) ==> Trim(c.reference) == c.reference
  {
    if Stored(c.currency) { TrimKeepsTrimmed(c.currency); }
    if Stored(c.reference) { TrimKeepsTrimmed(c.reference); }
  }

  lemma OzowReadyWhen(m: Merchant, env: Env, q: Query)
    ensures var config := ResolveOzow(m, env);
      var currency := TrimToNull(q.currency);
      OzowReadiness(m, env, q).Ready() <==>
        && OZOW !in q.excluded && !config.hasPartialMerchantConfig
        && config.siteCode.Some? && config.privateKey.Some?
        && (currency.Some? ==> Upper(currency.value) == "ZAR")
  {
    hide ResolveOzow, TrimToNull, Upper;
  }

  lemma OzowCredentialsTrimmed(m: Merchant, env: Env)
    ensures var config := ResolveOzow(m, env);
      && TrimToNull(config.siteCode) == config.siteCode && TrimToNull(config.privateKey) == config.privateKey
      && (config.siteCode.Some? && config.privateKey.Some? ==> !config.hasPartialMerchantConfig)
  {
    if ResolveOzow(m, env).fromMerchant {
      TrimToNullTwice(m.ozowSiteCode);
      TrimToNullTwice(m.ozowPrivateKey);
    } else {
      TrimToNullTwice(Var(env, "OZOW_SITE_CODE"));
      TrimToNullTwice(Var(env, "OZOW_PRIVATE_KEY"));
    }
  }

  lemma OzowReadyIff(m: Merchant, env: Env, q: Query, c: Charge)
    requires Describes(q, c)
    ensures OzowReadiness(m, env, q).Ready() <==> OZOW !in q.excluded && OzowAccepts(m, env, c)
  {
    OzowReadyWhen(m, env, q);
    OzowCredentialsTrimmed(m, env);
    hide ResolveOzow, OzowReadiness, Upper;
    StoredText(c);
    assert TrimToNull(q.currency) == Some(c.currency);
  }

  lemma YocoReadyWhen(m: Merchant, env: Env, q: Query)
    ensures var config := ResolveYoco(m, env);
      var currency := TrimToNull(q.currency);
      YocoReadiness(m, env, q).Ready() <==>
        && YOCO !in q.excluded && config.Ok? && YocoConsistent(config.value)
        && config.value.publicKey.Some? && config.value.secretKey.Some?
        && (currency.Some? ==> Upper(currency.value) == "ZAR")
        && (q.amountCents.Some? ==> q.amountCents.value >= 200)
  {
    hide ResolveYoco, YocoConsistent, TrimToNull, Upper;
  }

  lemma YocoReadyIff(m: Merchant, env: Env, q: Query, c: Charge)
    requires Describes(q, c)
    ensures YocoReadiness(m, env, q).Ready() <==> YOCO !in q.excluded && YocoAccepts(m, env, c)
  {
    hide ResolveYoco, YocoConsistent, YocoReadiness, Upper;
    YocoReadyWhen(m, env, q);
    StoredText(c);
    assert TrimToNull(q.currency) == Some(c.currency);
  }

  lemma PaystackReadyIff(m: Merchant, env: Env, q: Query, c: Charge)
    requires Describes(q, c)
    ensures PaystackReadiness(m, env, q).Ready() <==> PAYSTACK !in q.excluded && PaystackAccepts(m, env, c)
  {
    hide ResolvePaystack, PaystackConsistent, TrimToNull, Trim;
  }

  /** A rail is ready exactly when it is not excluded and its adapter would let the charge through. */
  lemma ReadyIffAdapterAccepts(g: Gateway, m: Merchant, env: Env, q: Query, c: Charge)
    requires Rail(g) && Describes(q, c)
    ensures IsReady(GatewayReadiness(m, env, q), g) <==> g !in q.excluded && AdapterAccepts(g, m, env, c)
  {
    FindRail(m, env, q);
    OzowReadyIff(m, env, q, c);
    YocoReadyIff(m, env, q, c);
    PaystackReadyIff(m, env, q, c);
  }

  lemma FindRail(m: Merchant, env: Env, q: Query)
    ensures var rs := GatewayReadiness(m, env, q);
      Find(rs, PAYSTACK) == Some(PaystackReadiness(m, env, q)) && Find(rs, YOCO) == Some(YocoReadiness(m, env, q))
      && Find(rs, OZOW) == Some(OzowReadiness(m, env, q)) && forall g :: Find(rs, g).Some? <==> Rail(g)
  {
    hide PaystackReadiness, YocoReadiness, OzowReadiness;
    FindInThree(PaystackReadiness(m, env, q), YocoReadiness(m, env, q), OzowReadiness(m, env, q));
  }

  lemma FindInThree(p: Readiness, y: Readiness, o: Readiness)
    requires p.gateway == PAYSTACK && y.gateway == YOCO && o.gateway == OZOW
    ensures Find([p, y, o], PAYSTACK) == Some(p) && Find([p, y, o], YOCO) == Some(y) && Find([p, y, o], OZOW) == Some(o)
    ensures forall g :: Find([p, y, o], g).Some? <==> Rail(g)
  {
    forall g
      ensures Find([p, y, o], g)
           == if g == PAYSTACK then Some(p) else if g == YOCO then Some(y) else if g == OZOW then Some(o) else None
    {
      assert [p, y, o][1..] == [y, o] && [y, o][1..] == [o] && [o][1..] == [];
      assert Find([p, y, o], g) == if g == PAYSTACK then Some(p) else Find([y, o], g);
      assert Find([y, o], g) == if g == YOCO then Some(y) else Find([o], g);
      assert Find([o], g) == if g == OZOW then Some(o) else Find([], g);
    }
  }

  predicate Lists(es: seq<Candidate>, g: Gateway) {
    exists i :: 0 <= i < |es| && es[i].gateway == g
  }

  predicate Distinct(es: seq<Candidate>) {
    forall i, j :: 0 <= i < j < |es| ==> es[i].gateway != es[j].gateway
  }

  /** The candidates come in the order of preference. */
  ghost predicate InOrder(es: seq<Candidate>, order: seq<Gateway>) {
    forall i, j, a, b :: 0 <= i < j < |es| && Places(es[i], order, a) && Places(es[j], order, b) ==> a < b
  }

  predicate Places(c: Candidate, order: seq<Gateway>, k: int) {
    0 <= k < |order| && order[k] == c.gateway
  }

  /** Who prefers to pay from a bank account is sent to Ozow first, everybody else to Paystack. */
  ghost function PreferredOrder(preference: Option<string>): seq<Gateway> {
    if preference.Some? && Upper(Trim(preference.value)) in {"BANK_EFT", "BANK", "EFT", "INSTANT_EFT"}
    then [OZOW, YOCO, PAYSTACK] else [PAYSTACK, YOCO, OZOW]
  }

  lemma OrderIsPreferred(preference: Option<string>)
    ensures AutoRailOrder(preference) == PreferredOrder(preference)
  {
    hide Upper, Trim;
    if preference.Some? && Trim(preference.value) == "" {
      assert Upper("") == "";
    }
  }

  /** What the eligible list is: the ready gateways of the order, each once, in that order, numbered upwards. */
  lemma {:induction false} EligibleIsReady(rs: seq<Readiness>, order: seq<Gateway>, priority: nat)
    requires forall i, j :: 0 <= i < j < |order| ==> order[i] != order[j]
    ensures var es := BuildEligible(rs, order, priority);
      && (forall g :: Lists(es, g) <==> g in order && IsReady(rs, g))
      && (forall i :: 0 <= i < |es| ==> es[i].priority == priority + i)
      && Distinct(es)
  {
    if order != [] {
      var es := BuildEligible(rs, order, priority);
      var ready := IsReady(rs, order[0]);
      var rest := BuildEligible(rs, order[1..], if ready then priority + 1 else priority);
      EligibleIsReady(rs, order[1..], if ready then priority + 1 else priority);
      assert forall g :: g in order <==> g == order[0] || g in order[1..];
      if ready {
        assert es[0].gateway == order[0];
        forall g
          ensures Lists(es, g) <==> g == order[0] || Lists(rest, g)
        {
          if i :| 0 <= i < |rest| && rest[i].gateway == g {
            assert es[i + 1].gateway == g;
          }
        }
        forall j | 0 < j < |es|
          ensures es[0].gateway != es[j].gateway
        {
          assert es[j] == rest[j - 1] && Lists(rest, es[j].gateway);
        }
      }
    }
  }

  lemma {:induction false} EligibleInOrder(rs: seq<Readiness>, order: seq<Gateway>, priority: nat)
    requires forall i, j :: 0 <= i < j < |order| ==> order[i] != order[j]
    ensures InOrder(BuildEligible(rs, order, priority), order)
  {
    hide InOrder, IsReady, Lists, Distinct;
    if order == [] {
      NothingInOrder([], order);
    } else {
      var next := if IsReady(rs, order[0]) then priority + 1 else priority;
      var rest := BuildEligible(rs, order[1..], next);
      EligibleInOrder(rs, order[1..], next);
      EligibleIsReady(rs, order[1..], next);
      NotListedAgain(rest, order);
      var first := if IsReady(rs, order[0]) then [Candidate(order[0], priority)] else [];
      InOrderAfterFirst(rest, order, first);
      assert BuildEligible(rs, order, priority) == first + rest;
    }
  }

  lemma NothingInOrder(es: seq<Candidate>, order: seq<Gateway>)
    requires es == []
    ensures InOrder(es, order)
  {
  }

  lemma NotListedAgain(rest: seq<Candidate>, order: seq<Gateway>)
    requires order != [] && forall i, j :: 0 <= i < j < |order| ==> order[i] != order[j]
    requires forall g :: Lists(rest, g) ==> g in order[1..]
    ensures order[0] !in order[1..] && forall i :: 0 <= i < |rest| ==> rest[i].gateway != order[0]
  {
    forall i | 0 <= i < |rest|
      ensures rest[i].gateway != order[0]
    {
      assert Lists(rest, rest[i].gateway);
    }
  }

  lemma InOrderAfterFirst(rest: seq<Candidate>, order: seq<Gateway>, first: seq<Candidate>)
    requires order != [] && order[0] !in order[1..] && InOrder(rest, order[1..])
    requires forall i :: 0 <= i < |rest| ==> rest[i].gateway != order[0]
    requires first == [] || (|first| == 1 && first[0].gateway == order[0])
    ensures InOrder(first + rest, order)
  {
    var es := first + rest;
    assert forall k :: 0 < k < |order| ==> order[k] == order[1..][k - 1];
    forall i, j, a, b | 0 <= i < j < |es| && Places(es[i], order, a) && Places(es[j], order, b)
      ensures a < b
    {
      assert es[j] == rest[j - |first|];
      assert b > 0 && Places(rest[j - |first|], order[1..], b - 1);
      if i >= |first| {
        assert es[i] == rest[i - |first|];
        assert a > 0 && Places(rest[i - |first|], order[1..], a - 1);
      }
    }
  }

  /** What AUTO routing does with a readiness report, in terms of the rails it reports ready. */
  lemma AutoFromReport(rs: seq<Readiness>, q: Query, ready: set<Gateway>)
    requires forall g :: g in ready <==> Rail(g) && IsReady(rs, g)
    ensures DecideAuto(rs, q).Ok? <==> ready != {}
    ensures DecideAuto(rs, q).Ok? ==> AutoOutcome(DecideAuto(rs, q).value, q, ready)
  {
    var order := AutoRailOrder(q.preference);
    OrderIsPreferred(q.preference);
    EligibleIsReady(rs, order, 1);
    EligibleInOrder(rs, order, 1);
    var es := BuildEligible(rs, order, 1);
    if es != [] {
      assert Lists(es, es[0].gateway);
    }
    if ready != {} {
      var g :| g in ready;
      assert g in order;
    }
  }

  /** Every taker is lined up once, in order of preference, and the one selected comes before all other takers. */
  ghost predicate AutoOutcome(d: Decision, q: Query, takers: set<Gateway>) {
    && !d.explicit && d.requested == Auto && d.mode == q.mode
    && |d.eligible| > 0 && d.selected == d.eligible[0].gateway
    && (forall g :: Lists(d.eligible, g) <==> g in takers)
    && (forall i :: 0 <= i < |d.eligible| ==> d.eligible[i].priority == i + 1)
    && Distinct(d.eligible) && InOrder(d.eligible, PreferredOrder(q.preference))
  }

  /** The rails outside the excluded ones whose adapter would let the charge through. */
  ghost function Takers(m: Merchant, env: Env, q: Query, c: Charge): set<Gateway> {
    set g | g in {PAYSTACK, YOCO, OZOW} && g !in q.excluded && AdapterAccepts(g, m, env, c)
  }

  lemma TakerIffReady(g: Gateway, m: Merchant, env: Env, q: Query, c: Charge)
    requires Describes(q, c)
    ensures g in Takers(m, env, q, c) <==> Rail(g) && IsReady(GatewayReadiness(m, env, q), g)
  {
    hide OzowAccepts, YocoAccepts, PaystackAccepts, IsReady, GatewayReadiness, Describes;
    if Rail(g) {
      ReadyIffAdapterAccepts(g, m, env, q, c);
    }
  }

  lemma ReadyRailsAreTakers(m: Merchant, env: Env, q: Query, c: Charge)
    requires Describes(q, c)
    ensures forall g :: g in Takers(m, env, q, c) <==> Rail(g) && IsReady(GatewayReadiness(m, env, q), g)
  {
    hide Takers, IsReady, GatewayReadiness, Describes;
    forall g
      ensures g in Takers(m, env, q, c) <==> Rail(g) && IsReady(GatewayReadiness(m, env, q), g)
    {
      TakerIffReady(g, m, env, q, c);
    }
  }

  /**
   * AUTO routing decides exactly when some rail outside the excluded ones would be accepted by its adapter; the
   * gateways it lines up are those rails, none missing, in the order of preference, and the first one is selected.
   */
  lemma AutoDecision(m: Merchant, env: Env, q: Query, c: Charge)
    requires !q.requested.Choice? && Describes(q, c)
    ensures Decide(m, env, q).Ok? <==> Takers(m, env, q, c) != {}
    ensures Decide(m, env, q).Ok? ==> AutoOutcome(Decide(m, env, q).value, q, Takers(m, env, q, c))
  {
    ReadyRailsAreTakers(m, env, q, c);
    AutoFromReport(GatewayReadiness(m, env, q), q, Takers(m, env, q, c));
  }

  /** PayFast's credentials are on the merchant's record. */
  predicate HasPayfast(m: Merchant) {
    m.payfastMerchantId.Some? && m.payfastMerchantId.value != ""
    && m.payfastMerchantKey.Some? && m.payfastMerchantKey.value != ""
  }

  /**
   * Exactly when a gateway asked for by name can be had: a rail if it is ready, PayFast with credentials, Peach never.
   */
  lemma LegacyIff(g: Gateway, m: Merchant, q: Query)
    requires !Rail(g)
    ensures var r := LegacyReadiness(g, m, q);
      r.Some? && r.value.Ready() <==> g == PAYFAST && g !in q.excluded && HasPayfast(m)
  {
    if g == PAYFAST {
      assert m.payfastMerchantId in {None, Some("")}
        <==> !(m.payfastMerchantId.Some? && m.payfastMerchantId.value != "");
      assert m.payfastMerchantKey in {None, Some("")} <==>
        !(m.payfastMerchantKey.Some? && m.payfastMerchantKey.value != "");
    }
  }

  lemma NamedIff(rs: seq<Readiness>, g: Gateway, m: Merchant, q: Query)
    requires forall h :: Find(rs, h).Some? <==> Rail(h)
    ensures DecideNamed(rs, g, m, q).Ok? <==>
      g !in q.excluded && (Rail(g) ==> IsReady(rs, g)) && (g == PAYFAST ==> HasPayfast(m)) && g != PEACH
  {
    if !Rail(g) { LegacyIff(g, m, q); }
    hide Unready, Find, LegacyReadiness, HasPayfast;
  }

  lemma NamedFromReport(rs: seq<Readiness>, g: Gateway, m: Merchant, q: Query)
    requires DecideNamed(rs, g, m, q).Ok?
    requires forall h :: Find(rs, h).Some? <==> Rail(h)
    ensures var d := DecideNamed(rs, g, m, q).value;
      && d.explicit && d.requested == Choice(g) && d.selected == g && d.mode == q.mode
      && d.eligible == [Candidate(g, 1)] && g !in q.excluded && g != PEACH
      && (Rail(g) ==> IsReady(rs, g))
  {
  }

  /**
   * A gateway asked for by name is refused unless it is a rail whose adapter accepts the charge, or PayFast with its
   * credentials; otherwise it is the only one lined up.
   */
  lemma NamedDecision(m: Merchant, env: Env, q: Query, c: Charge)
    requires q.requested.Choice? && Describes(q, c)
    ensures var g := q.requested.gateway;
      Decide(m, env, q).Ok? <==>
        g !in q.excluded && (g in Takers(m, env, q, c) || (g == PAYFAST && HasPayfast(m)))
    ensures Decide(m, env, q).Ok? ==>
      var d := Decide(m, env, q).value;
      && d.explicit && d.requested == q.requested && d.selected == q.requested.gateway && d.mode == q.mode
      && d.eligible == [Candidate(d.selected, 1)] && d.selected !in q.excluded && d.selected != PEACH
      && (Rail(d.selected) ==> d.selected in Takers(m, env, q, c))
  {
    NamedAvailable(m, env, q, c);
    hide Takers, IsReady, GatewayReadiness, DecideNamed, HasPayfast, Describes;
    if Decide(m, env, q).Ok? {
      ReadyRailsAreTakers(m, env, q, c);
      FindRail(m, env, q);
      NamedFromReport(GatewayReadiness(m, env, q), q.requested.gateway, m, q);
    }
  }

  lemma NamedAvailable(m: Merchant, env: Env, q: Query, c: Charge)
    requires q.requested.Choice? && Describes(q, c)
    ensures var g := q.requested.gateway;
      Decide(m, env, q).Ok? <==> g !in q.excluded && (g in Takers(m, env, q, c) || (g == PAYFAST && HasPayfast(m)))
  {
    hide Takers, IsReady, GatewayReadiness, DecideNamed, DecideAuto, HasPayfast, Describes, Find, PaystackReadiness,
         YocoReadiness, OzowReadiness, AdapterAccepts;
    TakerIffReady(q.requested.gateway, m, env, q, c);
    FindRail(m, env, q);
    NamedIff(GatewayReadiness(m, env, q), q.requested.gateway, m, q);
  }

  lemma {:induction false} UnreadyAreSkipped(rs: seq<Readiness>, r: Readiness)
    ensures r in Unready(rs) <==> r in rs && r.issues != []
  {
    if rs != [] { UnreadyAreSkipped(rs[1..], r); }
  }

  /** A decision records the rails that were not ready, and no others, with what stood against them. */
  lemma SkippedAreUnready(m: Merchant, env: Env, q: Query, r: Readiness)
    requires Decide(m, env, q).Ok?
    ensures r in Decide(m, env, q).value.skipped <==>
      r.issues != [] && r in {PaystackReadiness(m, env, q), YocoReadiness(m, env, q), OzowReadiness(m, env, q)}
  {
    hide PaystackReadiness, YocoReadiness, OzowReadiness, Unready, BuildEligible, Find, LegacyReadiness;
    UnreadyAreSkipped(GatewayReadiness(m, env, q), r);
  }

  /**
   * End to end from the stored merchant record: the record is loaded, routed on and resolved once more by the adapter
   * of the gateway selected, and that adapter accepts the charge. Loading once or twice makes no difference.
   */
  lemma SelectedGatewayNeverFailsItsGuards(stored: Merchant, env: Env, q: Query, c: Charge)
    requires Load(stored, env).Ok? && !q.requested.Choice? && Describes(q, c)
    requires Decide(Load(stored, env).value, env, q).Ok?
    ensures var loaded := Load(stored, env).value;
      && Decide(loaded, env, q).value.selected in Takers(loaded, env, q, c)
      && Load(loaded, env) == Ok(loaded)
  {
    LoadIdempotent(stored, env);
    AutoDecision(Load(stored, env).value, env, q, c);
    var d := Decide(Load(stored, env).value, env, q).value;
    assert Lists(d.eligible, d.selected);
  }

  /** A merchant's contradictory Yoco keys stop every gateway, not just Yoco: the record cannot be loaded at all. */
  lemma ContradictoryYocoKeysStopEverything(stored: Merchant, env: Env)
    ensures Load(stored, env).Err? <==>
      var p, s := InferKeyMode(TrimToNull(stored.yocoPublicKey), "pk_test_", "pk_live_"),
                  InferKeyMode(TrimToNull(stored.yocoSecretKey), "sk_test_", "sk_live_");
      p.Some? && s.Some? && p != s
  {
    TrimToNullTwice(stored.yocoPublicKey);
    TrimToNullTwice(stored.yocoSecretKey);
  }

  lemma RailsReadyAreNotExcluded(m: Merchant, env: Env, q: Query)
    ensures PaystackReadiness(m, env, q).Ready() ==> PAYSTACK !in q.excluded
    ensures YocoReadiness(m, env, q).Ready() ==> YOCO !in q.excluded
    ensures OzowReadiness(m, env, q).Ready() ==> OZOW !in q.excluded
  {
    OzowReadyWhen(m, env, q);
    YocoReadyWhen(m, env, q);
    hide OzowReadiness, YocoReadiness, ResolveOzow, ResolveYoco, ResolvePaystack, YocoConsistent, PaystackConsistent,
         TrimToNull, Upper;
  }

  lemma ReadyIsNotExcluded(m: Merchant, env: Env, q: Query, g: Gateway)
    requires Rail(g) && IsReady(GatewayReadiness(m, env, q), g)
    ensures g !in q.excluded
  {
    FindRail(m, env, q);
    RailsReadyAreNotExcluded(m, env, q);
    hide GatewayReadiness, OzowReadiness, YocoReadiness, PaystackReadiness, Find;
  }

  /** The shape of every decision, whatever the merchant has configured. */
  ghost predicate WellFormed(d: Decision, q: Query) {
    && d.eligible != [] && d.selected == d.eligible[0].gateway && Distinct(d.eligible)
    && (forall i :: 0 <= i < |d.eligible| ==> d.eligible[i].gateway !in q.excluded)
    && d.explicit == q.requested.Choice?
    && d.requested == (if d.explicit then q.requested else Auto)
    && (d.explicit ==> d.eligible == [Candidate(q.requested.gateway, 1)])
  }

  lemma NamedIsWellFormed(rs: seq<Readiness>, g: Gateway, m: Merchant, q: Query)
    requires forall h :: Find(rs, h).Some? <==> Rail(h)
    requires q.requested == Choice(g) && DecideNamed(rs, g, m, q).Ok?
    ensures WellFormed(DecideNamed(rs, g, m, q).value, q)
  {
    NamedFromReport(rs, g, m, q);
    hide DecideNamed, Find;
  }

  lemma AutoIsWellFormed(rs: seq<Readiness>, q: Query)
    requires forall g :: Rail(g) && IsReady(rs, g) ==> g !in q.excluded
    requires !q.requested.Choice? && DecideAuto(rs, q).Ok?
    ensures WellFormed(DecideAuto(rs, q).value, q)
  {
    var ready := set g | g in {PAYSTACK, YOCO, OZOW} && IsReady(rs, g);
    AutoFromReport(rs, q, ready);
    hide DecideAuto, IsReady, AutoRailOrder;
    var d := DecideAuto(rs, q).value;
    forall i | 0 <= i < |d.eligible|
      ensures d.eligible[i].gateway !in q.excluded
    {
      assert Lists(d.eligible, d.eligible[i].gateway);
    }
  }

  lemma DecisionIsWellFormed(m: Merchant, env: Env, q: Query)
    ensures Decide(m, env, q).Ok? ==> WellFormed(Decide(m, env, q).value, q)
  {
    hide GatewayReadiness, IsReady, DecideAuto, DecideNamed, WellFormed;
    var rs := GatewayReadiness(m, env, q);
    if Decide(m, env, q).Ok? {
      if q.requested.Choice? {
        FindRail(m, env, q);
        NamedIsWellFormed(rs, q.requested.gateway, m, q);
      } else {
        forall g | Rail(g) && IsReady(rs, g)
          ensures g !in q.excluded
        {
          ReadyIsNotExcluded(m, env, q, g);
        }
        AutoIsWellFormed(rs, q);
      }
    }
  }
}
