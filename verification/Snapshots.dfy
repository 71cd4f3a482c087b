/** What a payment row remembers in its JSON column: routing, redirect, fee policy and checkout context. */
module Snapshots {
  import opened JsText
  import opened PaymentStatus
  import opened Routing
  import opened Json
  import opened Fees

  // ---------- The requested gateway ----------

  function GatewayName(g: Gateway): string {
    match g
    case PAYFAST => "PAYFAST"
    case OZOW => "OZOW"
    case YOCO => "YOCO"
    case PAYSTACK => "PAYSTACK"
    case PEACH => "PEACH"
  }

  function GatewayOf(name: string): Option<Gateway> {
    if name == "PAYFAST" then Some(PAYFAST)
    else if name == "OZOW" then Some(OZOW)
    else if name == "YOCO" then Some(YOCO)
    else if name == "PAYSTACK" then Some(PAYSTACK)
    else if name == "PEACH" then Some(PEACH)
    else None
  }

  /** A gateway as a client names it: blank means no request, an unknown name is refused. */
  function ParseRequested(value: Option<string>): Result<Requested> {
    var raw := TrimToNull(value);
    if raw.None? then Ok(NoRequest)
    else if Upper(raw.value) == "AUTO" then Ok(Auto)
    else
      var g := GatewayOf(Upper(raw.value));
      if g.Some? then Ok(Choice(g.value)) else Err("gateway must be one of AUTO, ...")
  }

  function RequestedName(r: Requested): string {
    if r.Choice? then GatewayName(r.gateway) else "AUTO"
  }

  /** Text as names are stored: upper case, without space around it. */
  predicate PlainName(s: string) {
    s != "" && Trimmed(s) && forall i :: 0 <= i < |s| ==> !('a' <= s[i] <= 'z')
  }

  lemma PlainNameReads(s: string)
    requires PlainName(s)
    ensures TrimToNull(Some(s)) == Some(s) && Upper(s) == s
  {
    TrimKeepsTrimmed(s);
  }

  lemma ParsePlain(s: string)
    requires PlainName(s)
    ensures ParseRequested(Some(s)) ==
      if s == "AUTO" then Ok(Auto)
      else if GatewayOf(s).Some? then Ok(Choice(GatewayOf(s).value)) else Err("gateway must be one of AUTO, ...")
  {
    PlainNameReads(s);
    hide TrimToNull, Upper, GatewayOf;
  }

  lemma NamesArePlain()
    ensures PlainName("AUTO") && PlainName("PAYFAST") && PlainName("OZOW") && PlainName("YOCO")
    ensures PlainName("PAYSTACK") && PlainName("PEACH")
  {
  }

  lemma RequestedNameIsPlain(r: Requested)
    ensures PlainName(RequestedName(r))
  {
    hide PlainName;
    NamesArePlain();
  }

  lemma NameIsGateway(g: Gateway)
    ensures GatewayOf(GatewayName(g)) == Some(g) && GatewayName(g) != "AUTO"
  {
    match g
    case PAYFAST => assert "PAYFAST"[0] == 'P' && |"PAYFAST"| == 7;
    case OZOW => assert "OZOW"[0] == 'O' && |"OZOW"| == 4;
    case YOCO => assert "YOCO"[0] == 'Y' && |"YOCO"| == 4;
    case PAYSTACK => assert "PAYSTACK"[0] == 'P' && |"PAYSTACK"| == 8;
    case PEACH => assert "PEACH"[0] == 'P' && |"PEACH"| == 5;
  }

  /** Parsing undoes naming; no request reads back as AUTO. */
  lemma ParseNamed(r: Requested)
    ensures ParseRequested(Some(RequestedName(r))) == Ok(if r.Choice? then r else Auto)
  {
    RequestedNameIsPlain(r);
    ParsePlain(RequestedName(r));
    hide ParseRequested, PlainName, GatewayOf, GatewayName;
    if r.Choice? { NameIsGateway(r.gateway); }
  }

  function RoutingRecord(raw: Json): Option<Record> {
    AsRecord(Field(Root(raw), "routing"))
  }

  function ReadRequested(routing: Option<Record>): (r: Requested)
    ensures !r.NoRequest?
  {
    var parsed := ParseRequested(TrimText(Field(routing, "requestedGateway")));
    if parsed.Ok? && !parsed.value.NoRequest? then parsed.value else Auto
  }

  function ReadFallbackCount(routing: Option<Record>): nat {
    NormalizeFeeComponent(ToNumber(Field(routing, "fallbackCount")))
  }

  function ReadFailures(routing: Option<Record>): seq<Json> {
    var failures := Field(routing, "initializationFailures");
    if failures.Some? && failures.value.List? then failures.value.items else []
  }

  /** The gateway the payment was asked to use, AUTO unless a known one is stored. */
  function StoredRequested(raw: Json): (r: Requested)
    ensures !r.NoRequest?
  {
    ReadRequested(RoutingRecord(raw))
  }

  function StoredFallbackCount(raw: Json): nat {
    ReadFallbackCount(RoutingRecord(raw))
  }

  function StoredFailures(raw: Json): seq<Json> {
    ReadFailures(RoutingRecord(raw))
  }

  function FailureRecord(g: Gateway, fallbackTo: Option<Gateway>): Json {
    Obj(map["gateway" := Text(GatewayName(g)), "stage" := Text("initialization"),
            "fallbackTo" := if fallbackTo.Some? then Text(GatewayName(fallbackTo.value)) else Null])
  }

  function RoutingFields(requested: Requested, explicit: bool, selected: Gateway, fallbackCount: nat): Record {
    map["requestedGateway" := Text(RequestedName(requested)), "explicitSelection" := Bool(explicit),
        "selectedGateway" := Text(GatewayName(selected)), "fallbackCount" := Number(fallbackCount as real)]
  }

  function RoutingObject(requested: Requested, explicit: bool, selected: Gateway, fallbackCount: nat,
                         lastFallback: Option<Json>, failures: seq<Json>): Record
  {
    RoutingFields(requested, explicit, selected, fallbackCount)
    + (if lastFallback.Some? then map["lastFallback" := lastFallback.value] else map[])
    + (if failures != [] then map["initializationFailures" := List(failures)] else map[])
  }

  function RoutingSnapshot(routing: Record): Record {
    map["routing" := Obj(routing)]
  }

  // ---------- The provider session ----------

  /** What a provider answers when it opens a checkout. */
  datatype Session = Session(redirectUrl: string, redirectForm: Json, externalReference: Option<string>, raw: Json)

  function GatewayRequestSnapshot(g: Gateway, s: Session): Record {
    map["provider" := Text(GatewayName(g)), "externalReference" := TextOrNull(s.externalReference),
        "request" := Obj(map["redirectUrl" := Text(s.redirectUrl), "redirectForm" := s.redirectForm, "raw" := s.raw])]
  }

  /** The action of a usable form: an action, the method POST and an object of fields. */
  function FormAction(form: Option<Json>): (action: Option<string>)
    ensures action.Some? ==> action.value != ""
  {
    var record := AsRecord(form);
    var httpMethod := TrimText(Field(record, "method"));
    if httpMethod.Some? && Upper(httpMethod.value) == "POST" && AsRecord(Field(record, "fields")).Some?
    then TrimText(Field(record, "action"))
    else None
  }

  function RequestRecord(raw: Json): Option<Record> {
    var request := AsRecord(Field(Root(raw), "request"));
    if request.Some? then request else Root(raw)
  }

  function StoredForm(raw: Json): Option<string> {
    FormAction(Coalesce(Field(RequestRecord(raw), "redirectForm"), Field(Root(raw), "redirectForm")))
  }

  /** Where the payer is sent: the stored URL, else the form's action, else what the latest attempt kept. */
  function RedirectUrl(raw: Json, latestAttemptUrl: Option<string>): (url: Option<string>)
    ensures url.Some? ==> url.value != ""
  {
    var direct := TrimText(Field(RequestRecord(raw), "redirectUrl"));
    if direct.Some? then direct
    else if StoredForm(raw).Some? then StoredForm(raw)
    else if latestAttemptUrl == Some("") then None
    else latestAttemptUrl
  }

  // ---------- The fee policy ----------

  datatype FeePolicy = FeePolicy(fixedFeeCents: nat, percentageBps: nat, ruleType: string, source: string,
                                 merchantOverrideApplied: bool)

  function PolicyFields(p: FeePolicy): Record {
    map["fixedFeeCents" := Number(p.fixedFeeCents as real), "percentageBps" := Number(p.percentageBps as real),
        "ruleType" := Text(p.ruleType), "source" := Text(p.source),
        "merchantOverrideApplied" := Bool(p.merchantOverrideApplied)]
  }

  function MonetizationObject(p: FeePolicy, b: Breakdown): Record {
    map["feeModel" := Text("ADDED_ON_TOP"),
        "baseAmountCents" := Number(b.base as real), "chargeAmountCents" := Number(b.charge as real),
        "platformFeeCents" := Number(b.platformFee as real), "merchantNetCents" := Number(b.merchantNet as real),
        "feePolicy" := Obj(PolicyFields(p))]
  }

  function MonetizationSnapshot(p: FeePolicy, b: Breakdown): Record {
    map["monetization" := Obj(MonetizationObject(p, b))]
  }

  function PolicyRecord(raw: Json): Option<Record> {
    AsRecord(Field(AsRecord(Field(Root(raw), "monetization")), "feePolicy"))
  }

  function ReadPolicy(r: Option<Record>): Option<FeePolicy> {
    var fixed, bps := ToNumber(Field(r, "fixedFeeCents")), ToNumber(Field(r, "percentageBps"));
    var ruleType, source := TrimText(Field(r, "ruleType")), TrimText(Field(r, "source"));
    if fixed.Finite? && bps.Finite? && ruleType.Some? && source.Some? then
      Some(FeePolicy(NormalizeFeeComponent(fixed), NormalizeFeeComponent(bps), ruleType.value, source.value,
                     Field(r, "merchantOverrideApplied") == Some(Bool(true))))
    else None
  }

  /** The policy the payment was priced with; the merchant's present one stands in when none is readable. */
  function StoredFeePolicy(raw: Json): Option<FeePolicy> {
    ReadPolicy(PolicyRecord(raw))
  }

  function ResolveStoredFeePolicy(raw: Json, present: FeePolicy): FeePolicy {
    var stored := StoredFeePolicy(raw);
    if stored.Some? then stored.value else present
  }

  // ---------- The checkout request ----------

  predicate CheckoutField(key: string) {
    key in ["itemName", "returnUrl", "cancelUrl", "errorUrl", "notifyUrl", "bankReference", "paymentMethodPreference"]
  }

  type Checkout = map<string, string>

  /** The fields that hold more than blanks, trimmed. */
  function Cleaned(c: Checkout): Checkout {
    map k | k in c && CheckoutField(k) && TrimToNull(Some(c[k])).Some? :: TrimToNull(Some(c[k])).value
  }

  function AsTexts(c: Checkout): Record {
    map k | k in c :: Text(c[k])
  }

  function CheckoutSnapshot(c: Checkout): Record {
    if Cleaned(c) == map[] then map[] else map["checkout" := Obj(AsTexts(Cleaned(c)))]
  }

  function Texts(r: Record): Checkout {
    map k | k in r && r[k].Text? :: r[k].s
  }

  function StoredCheckout(raw: Json): Checkout {
    var checkout := AsRecord(Field(Root(raw), "checkout"));
    if checkout.None? then map[] else Cleaned(Texts(checkout.value))
  }

  function Preference(c: Checkout): Option<string> {
    if "paymentMethodPreference" in c then Some(c["paymentMethodPreference"]) else None
  }

  // ---------- Reading back what was written ----------

  lemma FieldNames()
    ensures "routing" != "request" && "routing" != "monetization" && "routing" != "checkout" && "routing" != "provider"
    ensures "routing" != "externalReference" && "monetization" != "request" && "monetization" != "checkout"
    ensures "monetization" != "provider" && "monetization" != "externalReference" && "checkout" != "request"
    ensures "checkout" != "provider" && "checkout" != "externalReference"
  {
    assert "routing"[2] != "request"[2];
    assert "checkout"[0] != "provider"[0];
  }

  lemma RoutingFieldNames()
    ensures "requestedGateway" != "lastFallback" && "requestedGateway" != "initializationFailures"
    ensures "fallbackCount" != "lastFallback" && "fallbackCount" != "initializationFailures"
    ensures "lastFallback" != "initializationFailures" && "requestedGateway" != "fallbackCount"
    ensures "requestedGateway" != "explicitSelection" && "requestedGateway" != "selectedGateway"
    ensures "fallbackCount" != "explicitSelection" && "fallbackCount" != "selectedGateway"
    ensures "initializationFailures" != "explicitSelection" && "initializationFailures" != "selectedGateway"
  {
    assert "requestedGateway"[0] == 'r' && "lastFallback"[0] == 'l';
    assert "fallbackCount"[0] == 'f' && "selectedGateway"[0] == 's' && "explicitSelection"[0] == 'e';
  }

  lemma RoutingFieldsRead(requested: Requested, explicit: bool, selected: Gateway, count: nat)
    ensures var r := RoutingFields(requested, explicit, selected, count);
      && Field(Some(r), "requestedGateway") == Some(Text(RequestedName(requested)))
      && Field(Some(r), "fallbackCount") == Some(Number(count as real))
      && "lastFallback" !in r && "initializationFailures" !in r
  {
    hide RequestedName, GatewayName;
    RoutingFieldNames();
  }

  lemma RoutingObjectRead(requested: Requested, explicit: bool, selected: Gateway, count: nat,
                          lastFallback: Option<Json>, failures: seq<Json>)
    ensures var r := Some(RoutingObject(requested, explicit, selected, count, lastFallback, failures));
      && ReadRequested(r) == (if requested.Choice? then requested else Auto)
      && ReadFallbackCount(r) == count
      && ReadFailures(r) == failures
  {
    hide RoutingFields, RequestedName, ParseRequested, TrimToNull, Trim;
    RoutingFieldsRead(requested, explicit, selected, count);
    RoutingFieldNames();
    ParseNamed(requested);
    RequestedNameTrimmed(requested);
  }

  /** What is kept of a session beside its redirect. */
  lemma SessionSays(g: Gateway, s: Session)
    ensures var r := Some(GatewayRequestSnapshot(g, s));
      && Field(r, "provider") == Some(Text(GatewayName(g)))
      && Field(r, "externalReference") == Some(TextOrNull(s.externalReference))
  {
    hide GatewayName, TextOrNull;
    assert "provider"[0] == 'p' && "externalReference"[0] == 'e' && "request"[0] == 'r';
  }

  lemma RecordIsObject(g: Gateway, fallbackTo: Option<Gateway>)
    ensures FailureRecord(g, fallbackTo).Obj?
  {
  }

  /** What else the routing part says: how the gateway was chosen, which it is, and what was fallen back from. */
  lemma RoutingObjectSays(requested: Requested, explicit: bool, selected: Gateway, count: nat,
                          lastFallback: Option<Json>, failures: seq<Json>)
    ensures var r := Some(RoutingObject(requested, explicit, selected, count, lastFallback, failures));
      && Field(r, "explicitSelection") == Some(Bool(explicit))
      && Field(r, "selectedGateway") == Some(Text(GatewayName(selected)))
      && Field(r, "lastFallback") == lastFallback
  {
    hide RequestedName, GatewayName;
    RoutingFieldNames();
    assert "lastFallback"[0] == 'l' && "selectedGateway"[0] == 's' && "explicitSelection"[0] == 'e';
  }

  lemma RequestedNameTrimmed(r: Requested)
    ensures TrimToNull(Some(RequestedName(r))) == Some(RequestedName(r))
  {
    RequestedNameIsPlain(r);
    PlainNameReads(RequestedName(r));
    hide PlainName, RequestedName, TrimToNull;
  }

  /** A patch whose routing part was built here reads back as what it was built from, whatever was stored before. */
  lemma RoutingRoundTrip(raw: Json, patch: Record, requested: Requested, explicit: bool, selected: Gateway, count: nat,
                         lastFallback: Option<Json>, failures: seq<Json>)
    requires "routing" in patch
    requires patch["routing"] == Obj(RoutingObject(requested, explicit, selected, count, lastFallback, failures))
    ensures var merged := Merge(raw, patch);
      && StoredRequested(merged) == (if requested.Choice? then requested else Auto)
      && StoredFallbackCount(merged) == count
      && StoredFailures(merged) == failures
  {
    hide RoutingObject, ReadRequested, ReadFallbackCount, ReadFailures;
    MergeField(raw, patch, "routing");
    RoutingObjectRead(requested, explicit, selected, count, lastFallback, failures);
  }

  lemma PolicyFieldsRead(p: FeePolicy)
    ensures var r := Some(PolicyFields(p));
      && Field(r, "fixedFeeCents") == Some(Number(p.fixedFeeCents as real))
      && Field(r, "percentageBps") == Some(Number(p.percentageBps as real))
      && Field(r, "ruleType") == Some(Text(p.ruleType)) && Field(r, "source") == Some(Text(p.source))
      && Field(r, "merchantOverrideApplied") == Some(Bool(p.merchantOverrideApplied))
  {
    assert "fixedFeeCents"[0] == 'f' && "percentageBps"[0] == 'p' && "ruleType"[0] == 'r' && "source"[0] == 's';
    assert "merchantOverrideApplied"[0] == 'm';
  }

  predicate Label(s: string) {
    s != "" && Trimmed(s)
  }

  /** The fee policy survives being stored, provided its two labels are trimmed text. */
  lemma PolicyRoundTrip(raw: Json, patch: Record, p: FeePolicy, b: Breakdown)
    requires "monetization" in patch && patch["monetization"] == Obj(MonetizationObject(p, b))
    requires Label(p.ruleType) && Label(p.source)
    ensures StoredFeePolicy(Merge(raw, patch)) == Some(p)
  {
    hide PolicyFields, Trim, Trimmed, MonetizationObject;
    MergeField(raw, patch, "monetization");
    MonetizationObjectRead(p, b);
    PolicyFieldsRead(p);
    LabelsKept(p);
  }

  lemma MonetizationObjectRead(p: FeePolicy, b: Breakdown)
    ensures Field(Some(MonetizationObject(p, b)), "feePolicy") == Some(Obj(PolicyFields(p)))
  {
    hide PolicyFields;
  }

  lemma LabelsKept(p: FeePolicy)
    requires Label(p.ruleType) && Label(p.source)
    ensures Trim(p.ruleType) == p.ruleType && Trim(p.source) == p.source
  {
    TrimKeepsTrimmed(p.ruleType);
    TrimKeepsTrimmed(p.source);
  }

  /** A policy that was read back has trimmed labels, so storing it again keeps it for good. */
  lemma StoredPolicyIsStable(raw: Json)
    ensures StoredFeePolicy(raw).Some? ==>
      Label(StoredFeePolicy(raw).value.ruleType) && Label(StoredFeePolicy(raw).value.source)
  {
  }

  lemma CleanedTwice(c: Checkout)
    ensures Cleaned(Cleaned(c)) == Cleaned(c)
  {
    hide CheckoutField;
    forall k | k in Cleaned(c)
      ensures TrimToNull(Some(Cleaned(c)[k])) == Some(Cleaned(c)[k])
    {
      TrimToNullIdempotent(Some(c[k]));
    }
  }

  /** A checkout context is stored trimmed and without blanks; one without any content leaves what was stored before. */
  lemma CheckoutRoundTrip(raw: Json, patch: Record, c: Checkout)
    requires "checkout" in patch <==> "checkout" in CheckoutSnapshot(c)
    requires "checkout" in patch ==> patch["checkout"] == CheckoutSnapshot(c)["checkout"]
    ensures StoredCheckout(Merge(raw, patch)) == if Cleaned(c) == map[] then StoredCheckout(raw) else Cleaned(c)
  {
    hide Cleaned;
    MergeField(raw, patch, "checkout");
    CleanedTwice(c);
    assert Texts(AsTexts(Cleaned(c))) == Cleaned(c);
  }

  /** What is kept of a context: seven fields and no others, each trimmed, and none that is blank. */
  lemma CleanedHolds(c: Checkout, k: string)
    ensures k in Cleaned(c) <==>
      && k in c && Trim(c[k]) != ""
      && k in {"itemName", "returnUrl", "cancelUrl", "errorUrl", "notifyUrl", "bankReference",
               "paymentMethodPreference"}
    ensures k in Cleaned(c) ==> Cleaned(c)[k] == Trim(c[k])
  {
    hide Trim;
  }

  lemma UpperTwice(s: string)
    ensures Upper(Upper(s)) == Upper(s)
  {
  }

  lemma UpperOfTrimmed(s: string)
    requires Trimmed(s)
    ensures Trimmed(Upper(s)) && (s != "" ==> Upper(s) != "")
  {
  }

  /** A gateway is recognised in any case and with any space around it; a blank name is no request. */
  lemma NamesInAnyCase(name: string)
    ensures ParseRequested(Some(name)) == ParseRequested(Some(Upper(Trim(name))))
    ensures Trim(name) == "" ==> ParseRequested(Some(name)) == Ok(NoRequest)
    ensures ParseRequested(None) == Ok(NoRequest)
  {
    CleanName(name);
    CleanedName(name);
    hide Trim, Upper, GatewayOf, TrimToNull;
  }

  lemma CleanedName(name: string)
    ensures TrimToNull(None) == None
    ensures TrimToNull(Some(name)) == if Trim(name) == "" then None else Some(Trim(name))
  {
    hide Trim;
  }

  /** Cleaning a name and putting it in upper case can be done once or twice. */
  lemma CleanName(name: string)
    ensures var clean := Upper(Trim(name));
      && Upper(clean) == clean && (clean == "" <==> Trim(name) == "")
      && TrimToNull(Some(clean)) == if Trim(name) == "" then None else Some(clean)
  {
    hide Trim, Upper, Trimmed, TrimToNull;
    var trimmed := Trim(name);
    TrimIsTrimmed(name);
    UpperOfTrimmed(trimmed);
    UpperTwice(trimmed);
    TrimKeepsTrimmed(Upper(trimmed));
    CleanedName(Upper(trimmed));
    assert |Upper(trimmed)| == |trimmed|;
  }

  lemma TrimIsTrimmed(s: string)
    ensures Trimmed(Trim(s))
  {
  }

  /** And a name that is no gateway's is refused. */
  lemma OtherNamesAreRefused(name: string)
    ensures ParseRequested(Some(name)).Ok? <==>
      Upper(Trim(name)) in {"", "AUTO", "PAYFAST", "OZOW", "YOCO", "PAYSTACK", "PEACH"}
  {
    hide Upper, Trim;
    assert Trim(name) == "" ==> Upper(Trim(name)) == "" by { UpperOfNothing(); }
    assert Upper(Trim(name)) == "" ==> |Trim(name)| == 0;
  }

  lemma UpperOfNothing()
    ensures Upper("") == ""
  {
  }

  /** A record of a failure names the gateway that failed and the next one, if there is one. */
  lemma FailureIsNamed(g: Gateway, fallbackTo: Option<Gateway>)
    ensures var r := AsRecord(Some(FailureRecord(g, fallbackTo)));
      && Field(r, "gateway") == Some(Text(GatewayName(g)))
      && Field(r, "stage") == Some(Text("initialization"))
      && Field(r, "fallbackTo") == Some(if fallbackTo.Some? then Text(GatewayName(fallbackTo.value)) else Null)
  {
    hide GatewayName;
    assert "gateway"[0] == 'g' && "stage"[0] == 's' && "fallbackTo"[0] == 'f';
  }

  /** The amounts a row keeps beside the policy are those of its price. */
  lemma MonetizationIsPrice(p: FeePolicy, b: Breakdown)
    ensures var r := Some(MonetizationObject(p, b));
      && Field(r, "feeModel") == Some(Text("ADDED_ON_TOP"))
      && Field(r, "baseAmountCents") == Some(Number(b.base as real))
      && Field(r, "chargeAmountCents") == Some(Number(b.charge as real))
      && Field(r, "platformFeeCents") == Some(Number(b.platformFee as real))
      && Field(r, "merchantNetCents") == Some(Number(b.merchantNet as real))
  {
    hide PolicyFields;
    assert "baseAmountCents"[0] == 'b' && "chargeAmountCents"[0] == 'c' && "platformFeeCents"[0] == 'p';
    assert "merchantNetCents"[0] == 'm' && "feeModel"[3] == 'M' && "feePolicy"[3] == 'P';
  }

  /** So a context that was read from the row can be stored again without change. */
  lemma CheckoutIsStable(raw: Json)
    ensures Cleaned(StoredCheckout(raw)) == StoredCheckout(raw)
  {
    var checkout := AsRecord(Field(Root(raw), "checkout"));
    if checkout.Some? {
      CleanedTwice(Texts(checkout.value));
    } else {
      assert Cleaned(map[]) == map[];
    }
  }

  /** What a patch does not name is kept, and so is everything read from it. */
  lemma MergeKeeps(raw: Json, patch: Record)
    ensures "routing" !in patch ==>
      StoredRequested(Merge(raw, patch)) == StoredRequested(raw)
      && StoredFallbackCount(Merge(raw, patch)) == StoredFallbackCount(raw)
    ensures "monetization" !in patch ==> StoredFeePolicy(Merge(raw, patch)) == StoredFeePolicy(raw)
    ensures "checkout" !in patch ==> StoredCheckout(Merge(raw, patch)) == StoredCheckout(raw)
  {
    MergeField(raw, patch, "routing");
    MergeField(raw, patch, "monetization");
    MergeField(raw, patch, "checkout");
  }
}
