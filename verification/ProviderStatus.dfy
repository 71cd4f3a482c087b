/** What the providers report, what it means for a payment, and how lookups weigh it against stored webhook events. */
module ProviderStatus {
  import opened JsText
  import opened PaymentStatus
  import opened Json

  /** A provider's word for a state: trimmed and in lower case; blank counts as none. */
  function NormalizeState(value: Option<string>): Option<string> {
    var t := TrimToNull(value);
    if t.Some? then Some(Lower(t.value)) else None
  }

  function MapPaystackTransaction(status: Option<string>): (s: Status)
    ensures !s.CREATED? && !s.REFUNDED?
  {
    var state := NormalizeState(status);
    if state == Some("success") then PAID
    else if state == Some("failed") then FAILED
    else if state.Some? && state.value in ["abandoned", "cancelled", "canceled", "reversed"] then CANCELLED
    else PENDING
  }

  function MapPaystackEvent(eventType: Option<string>, transactionStatus: Option<string>): (s: Status)
    ensures !s.CREATED? && !s.REFUNDED?
  {
    var event := NormalizeState(eventType);
    if event == Some("charge.success") then PAID
    else if event == Some("charge.failed") then FAILED
    else MapPaystackTransaction(transactionStatus)
  }

  function MapYocoEvent(eventType: Option<string>, paymentStatus: Option<string>): (s: Option<Status>)
    ensures s.Some? ==> s.value.PAID? || s.value.FAILED? || s.value.CANCELLED?
  {
    var event, payment := NormalizeState(eventType), NormalizeState(paymentStatus);
    if event == Some("payment.succeeded") || payment == Some("succeeded") then Some(PAID)
    else if event == Some("payment.failed") || payment == Some("failed") then Some(FAILED)
    else if event == Some("payment.cancelled") || payment == Some("cancelled") then Some(CANCELLED)
    else None
  }

  function MapYocoCheckout(checkoutStatus: Option<string>, paymentId: Option<string>, expired: bool): (s: Status)
    ensures s == PAID <==> NormalizeState(checkoutStatus) == Some("completed") && TrimToNull(paymentId).Some?
    ensures !s.FAILED? && !s.REFUNDED?
  {
    var state := NormalizeState(checkoutStatus);
    if state == Some("completed") && TrimToNull(paymentId).Some? then PAID
    else if expired then CANCELLED
    else if state == Some("created") then CREATED
    else PENDING
  }

  function UpperTrimmed(value: Option<string>): string {
    if value.Some? then Upper(Trim(value.value)) else ""
  }

  function MapPayfast(rawStatus: Option<string>): (s: Status)
    ensures !s.CREATED? && !s.REFUNDED?
  {
    var value := UpperTrimmed(rawStatus);
    if value == "COMPLETE" then PAID
    else if value == "FAILED" then FAILED
    else if value == "CANCELLED" then CANCELLED
    else PENDING
  }

  function MapOzow(rawStatus: Option<string>): (s: Status)
    ensures !s.CREATED? && !s.REFUNDED?
  {
    var value := UpperTrimmed(rawStatus);
    if value in ["COMPLETE", "COMPLETED", "SUCCESS", "SUCCESSFUL", "PAID"] then PAID
    else if value in ["CANCELLED", "CANCELED", "ABANDONED"] then CANCELLED
    else if value in ["FAILED", "FAILURE", "ERROR", "REJECTED", "DECLINED"] then FAILED
    else PENDING
  }

  datatype LookupAnswer = SaysPending | SaysSucceeded | SaysFailed

  function MapGatewayLookup(answer: LookupAnswer): Status {
    match answer
    case SaysSucceeded => PAID
    case SaysFailed => FAILED
    case SaysPending => PENDING
  }

  // ---------- Which words mean what ----------

  /** The provider's word, whatever its case and the space around it. */
  predicate SaysUpper(value: Option<string>, words: set<string>) {
    value.Some? && Upper(Trim(value.value)) in words
  }

  predicate SaysLower(value: Option<string>, words: set<string>) {
    value.Some? && Trim(value.value) != "" && Lower(Trim(value.value)) in words
  }

  predicate Blank(value: Option<string>) {
    value.None? || Trim(value.value) == ""
  }

  lemma PayfastWords(status: Option<string>)
    ensures MapPayfast(status) == PAID <==> SaysUpper(status, {"COMPLETE"})
    ensures MapPayfast(status) == FAILED <==> SaysUpper(status, {"FAILED"})
    ensures MapPayfast(status) == CANCELLED <==> SaysUpper(status, {"CANCELLED"})
  {
    hide Upper, Trim;
    assert "COMPLETE"[1] == 'O' && "FAILED"[1] == 'A' && "CANCELLED"[1] == 'A' && "FAILED"[0] == 'F';
  }

  lemma OzowWordsDiffer()
    ensures {"COMPLETE", "COMPLETED", "SUCCESS", "SUCCESSFUL", "PAID"} !! {"CANCELLED", "CANCELED", "ABANDONED"}
    ensures {"COMPLETE", "COMPLETED", "SUCCESS", "SUCCESSFUL", "PAID"}
         !! {"FAILED", "FAILURE", "ERROR", "REJECTED", "DECLINED"}
    ensures {"CANCELLED", "CANCELED", "ABANDONED"} !! {"FAILED", "FAILURE", "ERROR", "REJECTED", "DECLINED"}
  {
    assert "COMPLETE"[1] == 'O' && "COMPLETED"[1] == 'O' && "SUCCESS"[0] == 'S' && "SUCCESSFUL"[0] == 'S';
    assert "PAID"[0] == 'P' && "CANCELLED"[0] == 'C' && "CANCELED"[0] == 'C' && "ABANDONED"[0] == 'A';
    assert "CANCELLED"[1] == 'A' && "CANCELED"[1] == 'A';
    assert "FAILED"[0] == 'F' && "FAILURE"[0] == 'F' && "ERROR"[0] == 'E' && "REJECTED"[0] == 'R';
    assert "DECLINED"[0] == 'D';
  }

  lemma OzowWords(status: Option<string>)
    ensures MapOzow(status) == PAID
      <==> SaysUpper(status, {"COMPLETE", "COMPLETED", "SUCCESS", "SUCCESSFUL", "PAID"})
    ensures MapOzow(status) == CANCELLED <==> SaysUpper(status, {"CANCELLED", "CANCELED", "ABANDONED"})
    ensures MapOzow(status) == FAILED <==> SaysUpper(status, {"FAILED", "FAILURE", "ERROR", "REJECTED", "DECLINED"})
  {
    OzowWordsDiffer();
    hide Upper, Trim;
  }

  lemma PaystackWords(status: Option<string>)
    ensures MapPaystackTransaction(status) == PAID <==> SaysLower(status, {"success"})
    ensures MapPaystackTransaction(status) == FAILED <==> SaysLower(status, {"failed"})
    ensures MapPaystackTransaction(status) == CANCELLED
      <==> SaysLower(status, {"abandoned", "cancelled", "canceled", "reversed"})
  {
    hide Lower, Trim;
    assert "success"[0] == 's' && "failed"[0] == 'f' && "abandoned"[0] == 'a' && "cancelled"[0] == 'c';
    assert "canceled"[0] == 'c' && "reversed"[0] == 'r';
  }

  /** A named charge event decides alone; without one the transaction's own status does. */
  lemma PaystackEventWords(event: Option<string>, status: Option<string>)
    ensures SaysLower(event, {"charge.success"}) ==> MapPaystackEvent(event, status) == PAID
    ensures SaysLower(event, {"charge.failed"}) ==> MapPaystackEvent(event, status) == FAILED
    ensures !SaysLower(event, {"charge.success", "charge.failed"}) ==>
      MapPaystackEvent(event, status) == MapPaystackTransaction(status)
  {
    hide Lower, Trim, MapPaystackTransaction;
    assert "charge.success"[7] == 's' && "charge.failed"[7] == 'f';
  }

  /** Either word of Yoco's is enough; a success outranks a failure, and that a cancellation. */
  lemma YocoWords(event: Option<string>, payment: Option<string>)
    ensures var paid := SaysLower(event, {"payment.succeeded"}) || SaysLower(payment, {"succeeded"});
      var failed := SaysLower(event, {"payment.failed"}) || SaysLower(payment, {"failed"});
      var cancelled := SaysLower(event, {"payment.cancelled"}) || SaysLower(payment, {"cancelled"});
      && (MapYocoEvent(event, payment) == Some(PAID) <==> paid)
      && (MapYocoEvent(event, payment) == Some(FAILED) <==> failed && !paid)
      && (MapYocoEvent(event, payment) == Some(CANCELLED) <==> cancelled && !failed && !paid)
      && (MapYocoEvent(event, payment).None? <==> !paid && !failed && !cancelled)
  {
    hide Lower, Trim;
  }

  /** A checkout that is not completed and paid is cancelled once it has expired, and created or pending until then. */
  lemma YocoCheckoutWords(checkoutStatus: Option<string>, paymentId: Option<string>, expired: bool)
    ensures var s := MapYocoCheckout(checkoutStatus, paymentId, expired);
      && (s == PAID <==> SaysLower(checkoutStatus, {"completed"}) && !Blank(paymentId))
      && (s != PAID && expired ==> s == CANCELLED)
      && (s != PAID && !expired ==> s == if SaysLower(checkoutStatus, {"created"}) then CREATED else PENDING)
  {
    hide Lower, Trim;
    assert "completed"[1] == 'o' && "created"[1] == 'r';
  }

  // ---------- The provider records kept in the JSON column ----------

  function PaystackRecord(raw: Json): Option<Record> { AsRecord(Field(Root(raw), "paystack")) }

  function YocoRecord(raw: Json): Option<Record> { AsRecord(Field(Root(raw), "yoco")) }

  function RequestRaw(raw: Json): Option<Record> {
    AsRecord(Field(AsRecord(Field(Root(raw), "request")), "raw"))
  }

  function OrElse(a: Option<string>, b: Option<string>): Option<string> {
    if a.Some? then a else b
  }

  /** The details stand for the fields that nothing here reads back. */
  function PaystackFields(details: Record, eventType: Option<string>, providerStatus: Option<string>): Record {
    details + map["eventType" := TextOrNull(eventType), "providerStatus" := TextOrNull(providerStatus)]
  }

  function PaystackPatch(details: Record, eventType: Option<string>, providerStatus: Option<string>): Record {
    map["provider" := Text("PAYSTACK"), "paystack" := Obj(PaystackFields(details, eventType, providerStatus))]
  }

  function YocoFields(details: Record, eventType: Option<string>, paymentStatus: Option<string>,
                      checkoutStatus: Option<string>, paymentId: Option<string>): Record
  {
    details + map["eventType" := TextOrNull(eventType), "paymentStatus" := TextOrNull(paymentStatus),
                  "checkoutStatus" := TextOrNull(checkoutStatus), "paymentId" := TextOrNull(paymentId)]
  }

  function YocoPatch(details: Record, eventType: Option<string>, paymentStatus: Option<string>,
                     checkoutStatus: Option<string>, paymentId: Option<string>): Record
  {
    map["provider" := Text("YOCO"),
        "yoco" := Obj(YocoFields(details, eventType, paymentStatus, checkoutStatus, paymentId))]
  }

  function StoredPaystackEvent(raw: Json): Option<string> {
    TrimText(Field(PaystackRecord(raw), "eventType"))
  }

  function StoredPaystackStatus(raw: Json): Option<string> {
    var r := PaystackRecord(raw);
    OrElse(OrElse(TrimText(Field(r, "providerStatus")), TrimText(Field(r, "transactionStatus"))),
           TrimText(Field(RequestRaw(raw), "status")))
  }

  /** A stored webhook event outranks what the provider answers now. */
  function PaystackNext(raw: Json, answered: Option<string>): (s: Status)
    ensures !s.CREATED? && !s.REFUNDED?
  {
    if StoredPaystackEvent(raw).Some?
    then MapPaystackEvent(StoredPaystackEvent(raw), StoredPaystackStatus(raw))
    else MapPaystackTransaction(OrElse(answered, StoredPaystackStatus(raw)))
  }

  function StoredYocoEvent(raw: Json): Option<string> { TrimText(Field(YocoRecord(raw), "eventType")) }

  function StoredYocoPayment(raw: Json): Option<string> { TrimText(Field(YocoRecord(raw), "paymentStatus")) }

  function StoredYocoCheckout(raw: Json): Option<string> {
    OrElse(TrimText(Field(YocoRecord(raw), "checkoutStatus")), TrimText(Field(RequestRaw(raw), "status")))
  }

  function StoredYocoPaymentId(raw: Json): Option<string> {
    OrElse(TrimText(Field(YocoRecord(raw), "paymentId")), TrimText(Field(RequestRaw(raw), "paymentId")))
  }

  /** What the Yoco API says about the checkout. */
  datatype YocoAnswer = YocoAnswer(providerStatus: Option<string>, paymentId: Option<string>)

  function YocoCheckoutStatus(raw: Json, answer: Option<YocoAnswer>): Option<string> {
    OrElse(if answer.Some? then answer.value.providerStatus else None, StoredYocoCheckout(raw))
  }

  function YocoPaymentId(raw: Json, answer: Option<YocoAnswer>): Option<string> {
    OrElse(if answer.Some? then answer.value.paymentId else None, StoredYocoPaymentId(raw))
  }

  predicate NonBlank(s: Option<string>) { s.Some? && s.value != "" }

  function YocoNext(raw: Json, current: Status, answer: Option<YocoAnswer>, expired: bool): Status {
    var event := MapYocoEvent(StoredYocoEvent(raw), StoredYocoPayment(raw));
    var checkoutStatus, paymentId := YocoCheckoutStatus(raw, answer), YocoPaymentId(raw, answer);
    if event.Some? then event.value
    else if NonBlank(checkoutStatus) || NonBlank(paymentId) then MapYocoCheckout(checkoutStatus, paymentId, expired)
    else if expired && !current.PAID? && !current.FAILED? && !current.CANCELLED? then CANCELLED
    else current
  }

  /** Without a stored event a lookup follows the provider's answer, or without one what was stored of it before. */
  lemma PaystackLookupWithoutEvent(raw: Json, answered: Option<string>)
    requires StoredPaystackEvent(raw).None?
    ensures answered.Some? ==> PaystackNext(raw, answered) == MapPaystackTransaction(answered)
    ensures answered.None? ==> PaystackNext(raw, answered) == MapPaystackTransaction(StoredPaystackStatus(raw))
  {
    hide MapPaystackTransaction, StoredPaystackEvent, StoredPaystackStatus;
  }

  /** The same for Yoco; a lookup that says nothing cancels an expired checkout and leaves any other as it is. */
  lemma YocoLookupWithoutEvent(raw: Json, current: Status, answer: Option<YocoAnswer>, expired: bool)
    requires MapYocoEvent(StoredYocoEvent(raw), StoredYocoPayment(raw)).None?
    ensures var status, id := YocoCheckoutStatus(raw, answer), YocoPaymentId(raw, answer);
      var next := YocoNext(raw, current, answer, expired);
      if (status.Some? && status.value != "") || (id.Some? && id.value != "")
      then next == MapYocoCheckout(status, id, expired)
      else next == if expired && current in {CREATED, PENDING, REFUNDED} then CANCELLED else current
    ensures answer.Some? && answer.value.providerStatus.Some? ==>
      YocoCheckoutStatus(raw, answer) == answer.value.providerStatus
    ensures answer.Some? && answer.value.paymentId.Some? ==> YocoPaymentId(raw, answer) == answer.value.paymentId
  {
    hide MapYocoEvent, MapYocoCheckout, StoredYocoEvent, StoredYocoPayment;
  }

  /** What stands at the end of a path of keys. */
  function At(raw: Json, path: seq<string>): Option<Json>
    decreases |path|
  {
    if path == [] then Some(raw)
    else if raw.Obj? && path[0] in raw.fields then At(raw.fields[path[0]], path[1..])
    else None
  }

  function TextAt(raw: Json, path: seq<string>): Option<string> {
    TrimText(At(raw, path))
  }

  lemma AtOne(raw: Json, a: string)
    ensures At(raw, [a]) == Field(Root(raw), a)
  {
    assert [a][1..] == [];
    if raw.Obj? && a in raw.fields {
      assert At(raw.fields[a], []) == Some(raw.fields[a]);
    }
  }

  lemma AtTwo(raw: Json, a: string, b: string)
    ensures At(raw, [a, b]) == Field(AsRecord(Field(Root(raw), a)), b)
  {
    assert [a, b][1..] == [b];
    if raw.Obj? && a in raw.fields {
      AtOne(raw.fields[a], b);
    }
  }

  lemma AtThree(raw: Json, a: string, b: string, c: string)
    ensures At(raw, [a, b, c]) == Field(AsRecord(Field(AsRecord(Field(Root(raw), a)), b)), c)
  {
    assert [a, b, c][1..] == [b, c];
    if raw.Obj? && a in raw.fields {
      AtTwo(raw.fields[a], b, c);
    }
  }

  /** Where each stored word is looked for: in the provider's own record, then in what it answered at first. */
  lemma StoredWords(raw: Json)
    ensures StoredPaystackEvent(raw) == TextAt(raw, ["paystack", "eventType"])
    ensures StoredPaystackStatus(raw) ==
      OrElse(OrElse(TextAt(raw, ["paystack", "providerStatus"]), TextAt(raw, ["paystack", "transactionStatus"])),
             TextAt(raw, ["request", "raw", "status"]))
    ensures StoredYocoEvent(raw) == TextAt(raw, ["yoco", "eventType"])
    ensures StoredYocoPayment(raw) == TextAt(raw, ["yoco", "paymentStatus"])
    ensures StoredYocoCheckout(raw) ==
      OrElse(TextAt(raw, ["yoco", "checkoutStatus"]), TextAt(raw, ["request", "raw", "status"]))
    ensures StoredYocoPaymentId(raw) ==
      OrElse(TextAt(raw, ["yoco", "paymentId"]), TextAt(raw, ["request", "raw", "paymentId"]))
  {
    AtTwo(raw, "paystack", "eventType");
    AtTwo(raw, "paystack", "providerStatus");
    AtTwo(raw, "paystack", "transactionStatus");
    AtTwo(raw, "yoco", "eventType");
    AtTwo(raw, "yoco", "paymentStatus");
    AtTwo(raw, "yoco", "checkoutStatus");
    AtTwo(raw, "yoco", "paymentId");
    AtThree(raw, "request", "raw", "status");
    AtThree(raw, "request", "raw", "paymentId");
    hide At, TrimText, Root, AsRecord, Field;
  }

  // ---------- A lookup repeats the webhook ----------

  predicate CleanText(s: Option<string>) {
    s.Some? ==> s.value != "" && Trimmed(s.value)
  }

  lemma PaystackPatchRead(raw: Json, details: Record, eventType: Option<string>, providerStatus: Option<string>)
    requires CleanText(eventType)
    ensures StoredPaystackEvent(Merge(raw, PaystackPatch(details, eventType, providerStatus))) == eventType
  {
    var fields := PaystackFields(details, eventType, providerStatus);
    assert "paystack"[2] != "provider"[2];
    MergeField(raw, PaystackPatch(details, eventType, providerStatus), "paystack");
    assert PaystackRecord(Merge(raw, PaystackPatch(details, eventType, providerStatus))) == Some(fields);
    assert "eventType"[0] != "providerStatus"[0];
    assert Field(Some(fields), "eventType") == Some(TextOrNull(eventType));
    TrimTextOfTrimmed(eventType);
  }

  lemma YocoFieldsRead(details: Record, eventType: Option<string>, paymentStatus: Option<string>,
                       checkoutStatus: Option<string>, paymentId: Option<string>)
    ensures var r := Some(YocoFields(details, eventType, paymentStatus, checkoutStatus, paymentId));
      Field(r, "eventType") == Some(TextOrNull(eventType))
        && Field(r, "paymentStatus") == Some(TextOrNull(paymentStatus))
        && Field(r, "checkoutStatus") == Some(TextOrNull(checkoutStatus))
        && Field(r, "paymentId") == Some(TextOrNull(paymentId))
  {
    hide TextOrNull;
    assert "eventType"[0] == 'e' && "paymentStatus"[0] == 'p' && "checkoutStatus"[0] == 'c' && "paymentId"[7] == 'I';
    assert "paymentStatus"[7] == 'S';
  }

  lemma YocoPatchRead(raw: Json, details: Record, eventType: Option<string>, paymentStatus: Option<string>,
                      checkoutStatus: Option<string>, paymentId: Option<string>)
    requires CleanText(eventType) && CleanText(paymentStatus)
    ensures var merged := Merge(raw, YocoPatch(details, eventType, paymentStatus, checkoutStatus, paymentId));
      StoredYocoEvent(merged) == eventType && StoredYocoPayment(merged) == paymentStatus
  {
    hide YocoFields, TrimText, TextOrNull, Trimmed;
    var patch := YocoPatch(details, eventType, paymentStatus, checkoutStatus, paymentId);
    MergeField(raw, patch, "yoco");
    YocoFieldsRead(details, eventType, paymentStatus, checkoutStatus, paymentId);
    TrimTextOfTrimmed(eventType);
    TrimTextOfTrimmed(paymentStatus);
  }

  lemma LowerCaseState(s: string)
    requires s != "" && Trimmed(s) && forall i :: 0 <= i < |s| ==> !('A' <= s[i] <= 'Z')
    ensures NormalizeState(Some(s)) == Some(s)
  {
    TrimKeepsTrimmed(s);
    assert Lower(s) == s;
  }

  lemma ChargeEvents()
    ensures NormalizeState(Some("charge.success")) == Some("charge.success")
    ensures NormalizeState(Some("charge.failed")) == Some("charge.failed")
    ensures "charge.success" != "charge.failed"
  {
    hide NormalizeState;
    LowerCaseState("charge.success");
    LowerCaseState("charge.failed");
  }

  /** What the provider answered to one lookup is what the next one falls back on. */
  lemma PaystackAnswerIsRemembered(raw: Json, details: Record, event: Option<string>, status: string)
    requires CleanText(Some(status))
    ensures StoredPaystackStatus(Merge(raw, PaystackPatch(details, event, Some(status)))) == Some(status)
  {
    var patch := PaystackPatch(details, event, Some(status));
    assert "paystack"[2] != "provider"[2];
    MergeField(raw, patch, "paystack");
    assert PaystackRecord(Merge(raw, patch)) == Some(PaystackFields(details, event, Some(status)));
    assert "eventType"[0] != "providerStatus"[0];
    TrimTextOfTrimmed(Some(status));
    hide TrimText, RequestRaw, Trimmed;
  }

  lemma YocoAnswerIsRemembered(raw: Json, details: Record, event: Option<string>, payment: Option<string>,
                               checkoutStatus: string, paymentId: string)
    requires CleanText(Some(checkoutStatus)) && CleanText(Some(paymentId))
    ensures var merged := Merge(raw, YocoPatch(details, event, payment, Some(checkoutStatus), Some(paymentId)));
      StoredYocoCheckout(merged) == Some(checkoutStatus) && StoredYocoPaymentId(merged) == Some(paymentId)
  {
    var patch := YocoPatch(details, event, payment, Some(checkoutStatus), Some(paymentId));
    MergeField(raw, patch, "yoco");
    YocoFieldsRead(details, event, payment, Some(checkoutStatus), Some(paymentId));
    TrimTextOfTrimmed(Some(checkoutStatus));
    TrimTextOfTrimmed(Some(paymentId));
    hide TrimText, RequestRaw, Trimmed, YocoFields;
  }

  /** What one Paystack lookup was answered; its record is stored over the one before. */
  datatype PaystackAnswer = PaystackAnswer(details: Record, status: Option<string>)

  function AfterPaystackLookups(raw: Json, answers: seq<PaystackAnswer>): Json
    decreases |answers|
  {
    if answers == [] then raw
    else
      AfterPaystackLookups(Merge(raw, PaystackPatch(answers[0].details, StoredPaystackEvent(raw), answers[0].status)),
                           answers[1..])
  }

  lemma {:induction false} PaystackEventSticks(raw: Json, answers: seq<PaystackAnswer>)
    ensures StoredPaystackEvent(AfterPaystackLookups(raw, answers)) == StoredPaystackEvent(raw)
    decreases |answers|
  {
    hide PaystackPatch, StoredPaystackEvent, Merge;
    if answers != [] {
      StoredEventIsClean(raw);
      PaystackPatchRead(raw, answers[0].details, StoredPaystackEvent(raw), answers[0].status);
      PaystackEventSticks(Merge(raw, PaystackPatch(answers[0].details, StoredPaystackEvent(raw), answers[0].status)),
                          answers[1..]);
    }
  }

  lemma StoredEventIsClean(raw: Json)
    ensures CleanText(StoredPaystackEvent(raw)) && CleanText(StoredYocoEvent(raw)) && CleanText(StoredYocoPayment(raw))
  {
  }

  /**
   * After a Paystack webhook that named its event, every lookup comes to the webhook's status, whatever the provider
   * answers now and whatever any number of earlier lookups have stored over the webhook's record.
   */
  lemma PaystackLookupRepeatsWebhook(raw: Json, details: Record, eventType: string, providerStatus: Option<string>,
                                     earlier: seq<PaystackAnswer>, answered: Option<string>)
    requires eventType == "charge.success" || eventType == "charge.failed"
    ensures var stored := Merge(raw, PaystackPatch(details, Some(eventType), providerStatus));
      PaystackNext(AfterPaystackLookups(stored, earlier), answered) == MapPaystackEvent(Some(eventType), providerStatus)
  {
    hide PaystackPatch, NormalizeState, StoredPaystackEvent, StoredPaystackStatus, AfterPaystackLookups;
    PaystackPatchRead(raw, details, Some(eventType), providerStatus);
    PaystackEventSticks(Merge(raw, PaystackPatch(details, Some(eventType), providerStatus)), earlier);
    ChargeEvents();
  }

  /** What one Yoco lookup was answered, if it was. */
  datatype YocoReply = YocoReply(details: Record, answer: Option<YocoAnswer>)

  function YocoLookupPatch(raw: Json, r: YocoReply): Record {
    YocoPatch(r.details, StoredYocoEvent(raw), StoredYocoPayment(raw), YocoCheckoutStatus(raw, r.answer),
              YocoPaymentId(raw, r.answer))
  }

  function AfterYocoLookups(raw: Json, replies: seq<YocoReply>): Json
    decreases |replies|
  {
    if replies == [] then raw else AfterYocoLookups(Merge(raw, YocoLookupPatch(raw, replies[0])), replies[1..])
  }

  lemma {:induction false} YocoEventSticks(raw: Json, replies: seq<YocoReply>)
    ensures StoredYocoEvent(AfterYocoLookups(raw, replies)) == StoredYocoEvent(raw)
    ensures StoredYocoPayment(AfterYocoLookups(raw, replies)) == StoredYocoPayment(raw)
    decreases |replies|
  {
    hide YocoPatch, StoredYocoEvent, StoredYocoPayment, YocoCheckoutStatus, YocoPaymentId, Merge;
    if replies != [] {
      StoredEventIsClean(raw);
      var r := replies[0];
      YocoPatchRead(raw, r.details, StoredYocoEvent(raw), StoredYocoPayment(raw), YocoCheckoutStatus(raw, r.answer),
                    YocoPaymentId(raw, r.answer));
      YocoEventSticks(Merge(raw, YocoLookupPatch(raw, r)), replies[1..]);
    }
  }

  /** The same for Yoco, for every event the webhook handler accepts. */
  lemma YocoLookupRepeatsWebhook(raw: Json, details: Record, eventType: Option<string>, paymentStatus: Option<string>,
                                 checkoutStatus: Option<string>, paymentId: Option<string>, earlier: seq<YocoReply>,
                                 current: Status, answer: Option<YocoAnswer>, expired: bool)
    requires CleanText(eventType) && CleanText(paymentStatus)
    requires MapYocoEvent(eventType, paymentStatus).Some?
    ensures var stored := Merge(raw, YocoPatch(details, eventType, paymentStatus, checkoutStatus, paymentId));
      YocoNext(AfterYocoLookups(stored, earlier), current, answer, expired)
        == MapYocoEvent(eventType, paymentStatus).value
  {
    hide YocoPatch, MapYocoEvent, StoredYocoEvent, StoredYocoPayment, YocoCheckoutStatus, YocoPaymentId,
         AfterYocoLookups;
    YocoPatchRead(raw, details, eventType, paymentStatus, checkoutStatus, paymentId);
    YocoEventSticks(Merge(raw, YocoPatch(details, eventType, paymentStatus, checkoutStatus, paymentId)), earlier);
  }
}
