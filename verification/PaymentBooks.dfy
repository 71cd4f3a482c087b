/** Whole runs of the payment handlers: what is paid, what the ledger holds and which deliveries are enqueued. */
module PaymentBooks {
  import opened JsText
  import opened PaymentStatus
  import opened Fees
  import opened Payments
  import opened Snapshots
  import opened Routing
  import L = Ledger

  // ---------- What one handler may do to its payment ----------

  const SUCCEEDED := "payment_intent.succeeded"

  /** Price and owner are fixed, PAID is never left, and becoming PAID is what records the ledger and announces it. */
  ghost predicate Lawful(p: Payment, e: Effect) {
    && e.payment.price == p.price && e.payment.merchantId == p.merchantId
    && (p.status == PAID ==> e.payment.status == PAID)
    && (e.payment.status == PAID && p.status != PAID ==> e.record)
    && (e.notify == Some(SUCCEEDED) ==> e.payment.status == PAID && p.status != PAID)
  }

  predicate SameTerms(p: Payment, q: Payment) {
    q.merchantId == p.merchantId && q.price == p.price
  }

  lemma OnlyPaidSucceeds(s: Status)
    ensures WebhookEventFor(s) == Some(SUCCEEDED) <==> s == PAID
  {
    assert SUCCEEDED[15] == 's' && "payment_intent.failed"[15] == 'f';
    assert "payment_intent.cancelled"[15] == 'c' && "payment_intent.processing"[15] == 'p';
  }

  lemma InitializeKeepsTerms(p: Payment, d: Decision, w: World, money: Json.Record, checkout: Checkout)
    ensures var q := Initialize(p, d, w, money, checkout).payment;
      && SameTerms(p, q) && q.currency == p.currency && q.customerEmail == p.customerEmail
      && (q.status == p.status || (p.status != CREATED && q.status == PENDING))
  {
  }

  lemma HandlersAreLawful(p: Payment, s: Step, processed: set<(Gateway, string)>)
    ensures Lawful(p, EffectOf(p, s, processed))
  {
    hide Lawful, InitiateOzowEffect, ContinueEffect, FailoverEffect, WebhookEffect, LookupEffect;
    match s.action
    case Create(_) => UnchangedIsLawful(p);
    case InitiateOzow(r) => InitiateOzowIsLawful(p, r, s.world);
    case Continue(asked, expired) => ContinueIsLawful(p, asked, expired, s.world);
    case Failover => FailoverIsLawful(p, s.world);
    case Receive(id, hook) => WebhookIsLawful(p, hook, (HookGateway(hook), id) in processed);
    case LookUp(lookup) => LookupIsLawful(p, lookup);
  }

  lemma UnchangedIsLawful(p: Payment)
    ensures Lawful(p, Unchanged(p))
  {
  }

  lemma InitiateOzowIsLawful(p: Payment, r: CreateRequest, w: World)
    ensures Lawful(p, InitiateOzowEffect(p, r, w))
  {
  }

  lemma LookupIsLawful(p: Payment, l: Lookup)
    ensures Lawful(p, LookupEffect(p, l))
  {
    hide LookupStatus, LookupRaw;
  }

  lemma ContinueIsLawful(p: Payment, asked: Option<string>, expired: bool, w: World)
    ensures Lawful(p, ContinueEffect(p, asked, expired, w))
  {
    PaidRefusesContinuation(p, asked, expired, w);
    hide Initialize, ContinueDecision, RedirectUrl, StoredCheckout, Money;
    var d := ContinueDecision(p, asked, expired, w);
    if d.Ok? {
      InitializeKeepsTerms(p, d.value, w, Money(p, w), StoredCheckout(p.raw));
    }
  }

  lemma PaidRefusesContinuation(p: Payment, asked: Option<string>, expired: bool, w: World)
    ensures p.status == PAID ==> ContinueDecision(p, asked, expired, w).Err?
  {
    hide Decide, ContinuationRequest, StoredRequested;
  }

  lemma FailoverIsLawful(p: Payment, w: World)
    ensures Lawful(p, FailoverEffect(p, w))
  {
    hide Decide, StoredRequested, RedirectUrl, StoredCheckout;
  }

  lemma WebhookIsLawful(p: Payment, h: Hook, seen: bool)
    ensures Lawful(p, WebhookEffect(p, h, seen))
  {
    hide HookStatus, HookRaw;
    var mapped := HookStatus(h);
    if mapped.Some? {
      OnlyPaidSucceeds(mapped.value);
    }
  }

  predicate Priced(price: Breakdown) {
    price.charge > 0 && price.platformFee + price.merchantNet == price.charge
  }

  /** The merchant gets the amount asked for, and the policy's fee is charged on top. */
  ghost predicate PricedBy(price: Breakdown, amountCents: int, policy: FeePolicy) {
    && amountCents > 0 && price.base == amountCents && price.merchantNet == amountCents
    && price.charge == amountCents + price.platformFee
    && FeeIs(price.platformFee, amountCents, policy.fixedFeeCents, policy.percentageBps)
  }

  /** The row is the request's own: its merchant and payer, its currency in upper case or ZAR, priced by the policy. */
  ghost predicate AsRequested(p: Payment, r: CreateRequest, w: World) {
    && p.merchantId == r.merchantId && p.customerEmail == r.customerEmail
    && p.currency == (if TrimToNull(r.currency).Some? then Upper(TrimToNull(r.currency).value) else "ZAR")
    && PricedBy(p.price, r.amountCents, w.policy)
  }

  /** A payment is born unpaid, the request's own, with a price whose two shares make up a positive charge. */
  lemma CreationIsPriced(s: Step)
    ensures CreationOf(s).Some? ==>
      var e := CreationOf(s).value;
      && Priced(e.payment.price) && e.payment.status == CREATED && !e.record && e.notify == None
      && (s.action.Create? || s.action.InitiateOzow?) && AsRequested(e.payment, s.action.request, s.world)
  {
    hide Priced, AsRequested, CreateEffect;
    match s.action
    case Create(r) => CreateIsPriced(r, s.world);
    case InitiateOzow(r) =>
      var named := r.(gateway := Some("OZOW"));
      CreateIsPriced(named, s.world);
      if CreateEffect(named, s.world).Some? {
        GatewayDoesNotMatter(CreateEffect(named, s.world).value.payment, r, s.world);
      }
    case _ =>
  }

  lemma GatewayDoesNotMatter(p: Payment, r: CreateRequest, w: World)
    ensures AsRequested(p, r.(gateway := Some("OZOW")), w) ==> AsRequested(p, r, w)
  {
    hide TrimToNull, Upper;
  }

  lemma CreateIsPriced(r: CreateRequest, w: World)
    ensures CreateEffect(r, w).Some? ==>
      var e := CreateEffect(r, w).value;
      && Priced(e.payment.price) && e.payment.status == CREATED && !e.record && e.notify == None
      && AsRequested(e.payment, r, w)
  {
    PositiveAmounts(r, w);
    hide CreateDecision, Initialize, AsRequested;
    var d := CreateDecision(r, w);
    if d.Ok? {
      var p := NewPayment(r, w, Some(d.value.selected));
      RowAsRequested(r, w, Some(d.value.selected));
      InitializeKeepsTerms(p, d.value, w, MonetizationSnapshot(w.policy, p.price), r.checkout);
      SameRequested(p, Initialize(p, d.value, w, MonetizationSnapshot(w.policy, p.price), r.checkout).payment, r, w);
    }
  }

  lemma SameRequested(p: Payment, q: Payment, r: CreateRequest, w: World)
    requires AsRequested(p, r, w)
    requires SameTerms(p, q) && q.currency == p.currency && q.customerEmail == p.customerEmail
    ensures AsRequested(q, r, w)
  {
  }

  lemma RowAsRequested(r: CreateRequest, w: World, selected: Option<Gateway>)
    requires r.amountCents > 0
    ensures AsRequested(NewPayment(r, w, selected), r, w)
  {
    hide TrimToNull, Upper;
    FeeIsFixedPlusPercentage(Finite(r.amountCents as real),
      Policy(Finite(w.policy.fixedFeeCents as real), Finite(w.policy.percentageBps as real)),
      r.amountCents, w.policy.fixedFeeCents, w.policy.percentageBps);
  }

  lemma PositiveAmounts(r: CreateRequest, w: World)
    ensures CreateDecision(r, w).Ok? ==> r.amountCents > 0
  {
    hide Decide, ParseRequested;
  }

  // ---------- A payment's entries ----------

  datatype Share = Share(merchantId: string, account: L.Account, direction: L.Direction, amountCents: int)

  /** The payment's ledger entries, in order, running balances aside: whose books they are in and what they say. */
  function Shares(entries: seq<L.Entry>, reference: string): seq<Share> {
    if entries == [] then []
    else
      var e := entries[|entries| - 1];
      Shares(entries[..|entries| - 1], reference)
      + if e.paymentId == reference then [Share(e.merchantId, e.account, e.direction, e.amountCents)] else []
  }

  /** The one complete set: what the customer paid, what the merchant gets, and the platform's fee when there is one. */
  function CompleteSet(merchantId: string, price: Breakdown): seq<Share> {
    [Share(merchantId, L.CustomerFunds, L.Debit, price.charge),
     Share(merchantId, L.MerchantBalance, L.Credit, price.merchantNet)]
    + if price.platformFee > 0 then [Share(merchantId, L.PlatformFees, L.Credit, price.platformFee)] else []
  }

  lemma SharesOfExtended(entries: seq<L.Entry>, e: L.Entry, reference: string)
    ensures Shares(entries + [e], reference)
         == Shares(entries, reference)
            + if e.paymentId == reference then [Share(e.merchantId, e.account, e.direction, e.amountCents)] else []
  {
    assert (entries + [e])[..|entries|] == entries;
  }

  lemma {:induction false} NoEntryNoShares(entries: seq<L.Entry>, reference: string)
    ensures HasEntry(entries, reference) <==> Shares(entries, reference) != []
  {
    if entries != [] {
      NoEntryNoShares(entries[..|entries| - 1], reference);
      if i :| 0 <= i < |entries| && entries[i].paymentId == reference {
        assert i == |entries| - 1 || entries[..|entries| - 1][i].paymentId == reference;
      }
    }
  }

  /** An accepted write adds the complete set to its own payment and nothing to any other. */
  lemma WriteAddsShares(entries: seq<L.Entry>, w: L.Write, reference: string)
    requires L.Accepted(w)
    ensures Shares(L.AfterWrite(entries, w), reference) == Shares(entries, reference) +
      if w.paymentId == reference
      then CompleteSet(w.merchantId,
                       Breakdown(w.merchantNetCents, w.platformFeeCents, w.amountCents, w.merchantNetCents))
      else []
  {
    hide L.Balance;
    var received := L.WithEntry(entries, w.merchantId, w.paymentId, L.CustomerFunds, L.Debit, w.amountCents);
    var credited := L.WithEntry(received, w.merchantId, w.paymentId, L.MerchantBalance, L.Credit, w.merchantNetCents);
    SharesOfExtended(entries, received[|entries|], reference);
    SharesOfExtended(received, credited[|received|], reference);
    if w.platformFeeCents > 0 {
      var paid := L.WithEntry(credited, w.merchantId, w.paymentId, L.PlatformFees, L.Credit, w.platformFeeCents);
      SharesOfExtended(credited, paid[|credited|], reference);
    }
  }

  // ---------- The invariant of every run ----------

  ghost predicate PaymentMatches(entries: seq<L.Entry>, reference: string, p: Payment) {
    && Priced(p.price)
    && Shares(entries, reference) == if p.status == PAID then CompleteSet(p.merchantId, p.price) else []
  }

  /** Paid payments have exactly one complete set of entries, all other references none. */
  ghost predicate LedgerMatches(db: Db) {
    && (forall r :: r in db.payments ==> PaymentMatches(db.entries, r, db.payments[r]))
    && (forall r :: r !in db.payments ==> Shares(db.entries, r) == [])
  }

  ghost predicate PaidIn(payments: map<string, Payment>, reference: string) {
    reference in payments && payments[reference].status == PAID
  }

  /** A success is announced for paid payments only, and at most once to each endpoint. */
  ghost predicate Announced(payments: map<string, Payment>, outbox: seq<Delivery>) {
    && (forall i :: 0 <= i < |outbox| && outbox[i].event == SUCCEEDED ==> PaidIn(payments, outbox[i].reference))
    && (forall i, j :: 0 <= i < j < |outbox| && outbox[i] == outbox[j] ==> outbox[i].event != SUCCEEDED)
  }

  ghost predicate Books(db: Db) {
    LedgerMatches(db) && L.RunningBalances(db.entries) && L.ZeroSum(db.entries) && Announced(db.payments, db.outbox)
  }

  predicate DistinctEndpoints(endpoints: seq<string>) {
    forall i, j :: 0 <= i < j < |endpoints| ==> endpoints[i] != endpoints[j]
  }

  lemma PricedIsAccepted(reference: string, p: Payment)
    requires Priced(p.price)
    ensures L.Accepted(WriteFor(reference, p))
  {
  }

  lemma RecordedMatches(db: Db, reference: string, e: Effect, q: Payment)
    requires LedgerMatches(db) && Priced(e.payment.price)
    requires reference in db.payments ==> SameTerms(db.payments[reference], e.payment)
    requires reference in db.payments && db.payments[reference].status == PAID ==> e.payment.status == PAID
    requires e.payment.status == PAID && !PaidIn(db.payments, reference) ==> e.record
    requires q == e.payment
    ensures var entries := if e.record then Recorded(db.entries, reference, q) else db.entries;
      PaymentMatches(entries, reference, q)
      && forall r :: r != reference ==> Shares(entries, r) == Shares(db.entries, r)
  {
    hide L.AfterWrite, Shares;
    NoEntryNoShares(db.entries, reference);
    if e.record && q.status == PAID && !HasEntry(db.entries, reference) {
      PricedIsAccepted(reference, q);
      forall r
        ensures Shares(L.AfterWrite(db.entries, WriteFor(reference, q)), r)
             == Shares(db.entries, r) + if r == reference then CompleteSet(q.merchantId, q.price) else []
      {
        WriteAddsShares(db.entries, WriteFor(reference, q), r);
      }
    }
  }

  lemma RecordedKeepsBooks(entries: seq<L.Entry>, reference: string, p: Payment)
    requires L.RunningBalances(entries) && L.ZeroSum(entries)
    ensures L.RunningBalances(Recorded(entries, reference, p)) && L.ZeroSum(Recorded(entries, reference, p))
  {
    hide L.AfterWrite, L.RunningBalances, L.ZeroSum;
    L.WriteKeepsBooks(entries, WriteFor(reference, p));
  }

  lemma EnqueuedAnnounces(payments: map<string, Payment>, outbox: seq<Delivery>, reference: string, q: Payment,
                          notify: Option<string>, endpoints: seq<string>)
    requires Announced(payments, outbox) && DistinctEndpoints(endpoints)
    requires PaidIn(payments, reference) ==> q.status == PAID
    requires notify == Some(SUCCEEDED) ==> q.status == PAID && !PaidIn(payments, reference)
    ensures Announced(payments[reference := q],
                      if notify.Some? then Enqueued(outbox, endpoints, notify.value, reference) else outbox)
  {
    var payments' := payments[reference := q];
    assert forall r :: PaidIn(payments, r) ==> PaidIn(payments', r);
    if notify.Some? {
      var outbox' := Enqueued(outbox, endpoints, notify.value, reference);
      assert notify == Some(SUCCEEDED) ==>
        forall i :: 0 <= i < |outbox| && outbox'[i].event == SUCCEEDED ==> outbox'[i].reference != reference;
    }
  }

  /** Any lawful effect on one payment keeps the books. */
  lemma ApplyKeepsBooks(db: Db, reference: string, e: Effect, endpoints: seq<string>)
    requires Books(db) && DistinctEndpoints(endpoints)
    requires Priced(e.payment.price)
    requires reference in db.payments ==> Lawful(db.payments[reference], e)
    requires reference !in db.payments ==> e.payment.status == CREATED && !e.record && e.notify == None
    ensures Books(Apply(db, reference, e, endpoints))
  {
    hide Announced, L.RunningBalances, L.ZeroSum, Recorded, Enqueued, Priced, Shares;
    RecordedMatches(db, reference, e, e.payment);
    RecordedKeepsBooks(db.entries, reference, e.payment);
    EnqueuedAnnounces(db.payments, db.outbox, reference, e.payment, e.notify, endpoints);
  }

  lemma NextKeepsBooks(db: Db, s: Step)
    requires Books(db) && DistinctEndpoints(s.world.endpoints)
    ensures Books(Next(db, s))
  {
    hide Announced, L.RunningBalances, L.ZeroSum, Apply, EffectOf, CreationOf, Lawful, Priced, ProcessedAfter;
    if s.reference in db.payments {
      var p := db.payments[s.reference];
      var e := EffectOf(p, s, db.processed);
      HandlersAreLawful(p, s, db.processed);
      LawfulKeepsPrice(p, e);
      assert PaymentMatches(db.entries, s.reference, p);
      ApplyKeepsBooks(db, s.reference, e, s.world.endpoints);
    } else {
      CreationIsPriced(s);
      if CreationOf(s).Some? {
        ApplyKeepsBooks(db, s.reference, CreationOf(s).value, s.world.endpoints);
      }
    }
  }

  lemma LawfulKeepsPrice(p: Payment, e: Effect)
    requires Lawful(p, e)
    ensures SameTerms(p, e.payment) && (p.status == PAID ==> e.payment.status == PAID)
  {
  }

  ghost predicate ProperSteps(steps: seq<Step>) {
    forall i :: 0 <= i < |steps| ==> DistinctEndpoints(steps[i].world.endpoints)
  }

  lemma {:induction false} RunKeepsBooks(db: Db, steps: seq<Step>)
    requires Books(db) && ProperSteps(steps)
    ensures Books(Run(db, steps))
    decreases |steps|
  {
    hide Books, Next, DistinctEndpoints;
    if steps != [] {
      NextKeepsBooks(db, steps[0]);
      RunKeepsBooks(Next(db, steps[0]), steps[1..]);
    }
  }

  /**
   * In every run of all handlers a payment has ledger entries exactly when it is PAID, and then exactly one complete
   * set; running balances are right, every merchant's accounts sum to zero, and a success is announced to an endpoint
   * at most once, for paid payments only.
   */
  lemma EveryRunKeepsTheBooks(steps: seq<Step>)
    requires ProperSteps(steps)
    ensures Books(Run(EMPTY, steps))
  {
    EmptyBooks();
    hide Books, Run;
    RunKeepsBooks(EMPTY, steps);
  }

  lemma EmptyBooks()
    ensures Books(EMPTY)
  {
    forall m ensures L.MerchantTotal(EMPTY.entries, m) == 0 {
    }
  }

  /** After any run, the ledger's guard would accept the write of every payment there is: it never rejects one. */
  lemma GuardNeverRejects(steps: seq<Step>, reference: string)
    requires ProperSteps(steps)
    ensures var db := Run(EMPTY, steps);
      reference in db.payments ==> L.Accepted(WriteFor(reference, db.payments[reference]))
  {
    EveryRunKeepsTheBooks(steps);
    var db := Run(EMPTY, steps);
    hide Run, Shares, Announced, L.RunningBalances, L.ZeroSum, L.Accepted, WriteFor;
    if reference in db.payments {
      assert PaymentMatches(db.entries, reference, db.payments[reference]);
      PricedIsAccepted(reference, db.payments[reference]);
    }
  }

  /** Entries of a reference exist exactly when its payment is PAID. */
  lemma LedgerIffPaid(steps: seq<Step>, reference: string)
    requires ProperSteps(steps)
    ensures var db := Run(EMPTY, steps); HasEntry(db.entries, reference) <==> PaidIn(db.payments, reference)
  {
    EveryRunKeepsTheBooks(steps);
    var db := Run(EMPTY, steps);
    hide Run, Shares, Announced, L.RunningBalances, L.ZeroSum, HasEntry;
    NoEntryNoShares(db.entries, reference);
    if reference in db.payments {
      assert PaymentMatches(db.entries, reference, db.payments[reference]);
    }
  }

  // ---------- Whose books ----------

  lemma {:induction false} EntryHasShare(entries: seq<L.Entry>, i: nat)
    requires i < |entries|
    ensures var e := entries[i];
      Share(e.merchantId, e.account, e.direction, e.amountCents) in Shares(entries, e.paymentId)
  {
    var n := |entries| - 1;
    if i < n {
      EntryHasShare(entries[..n], i);
      assert entries[..n][i] == entries[i];
    }
  }

  lemma CompleteSetIsOwn(merchantId: string, price: Breakdown)
    ensures forall x :: x in CompleteSet(merchantId, price) ==> x.merchantId == merchantId
  {
  }

  /** After any run every entry is in the books of the merchant whose payment it is about. */
  lemma EntriesAreTheMerchants(steps: seq<Step>, i: nat)
    requires ProperSteps(steps)
    ensures var db := Run(EMPTY, steps);
      i < |db.entries| ==>
        var e := db.entries[i];
        PaidIn(db.payments, e.paymentId) && e.merchantId == db.payments[e.paymentId].merchantId
  {
    EveryRunKeepsTheBooks(steps);
    var db := Run(EMPTY, steps);
    hide Run, Shares, CompleteSet, Announced, L.RunningBalances, L.ZeroSum, Priced;
    if i < |db.entries| {
      var e := db.entries[i];
      EntryHasShare(db.entries, i);
      if e.paymentId in db.payments {
        var p := db.payments[e.paymentId];
        assert PaymentMatches(db.entries, e.paymentId, p);
        CompleteSetIsOwn(p.merchantId, p.price);
      }
    }
  }

  function ShareIn(x: Share, m: string, a: L.Account): int {
    if x.merchantId == m && x.account == a then L.Signed(x.direction, x.amountCents) else 0
  }

  function SharesIn(shares: seq<Share>, m: string, a: L.Account): int {
    if shares == [] then 0 else SharesIn(shares[..|shares| - 1], m, a) + ShareIn(shares[|shares| - 1], m, a)
  }

  function AllSharesIn(entries: seq<L.Entry>, order: seq<string>, m: string, a: L.Account): int {
    if order == [] then 0
    else SharesIn(Shares(entries, order[0]), m, a) + AllSharesIn(entries, order[1..], m, a)
  }

  lemma SharesInOfExtended(entries: seq<L.Entry>, e: L.Entry, reference: string, m: string, a: L.Account)
    ensures SharesIn(Shares(entries + [e], reference), m, a) == SharesIn(Shares(entries, reference), m, a)
      + if e.paymentId != reference then 0
        else ShareIn(Share(e.merchantId, e.account, e.direction, e.amountCents), m, a)
  {
    SharesOfExtended(entries, e, reference);
    var x := Share(e.merchantId, e.account, e.direction, e.amountCents);
    var shares := Shares(entries, reference);
    hide Shares, ShareIn;
    assert (shares + [x])[..|shares|] == shares && shares + [] == shares;
  }

  /** One more entry counts once, under its own payment. */
  lemma {:induction false} AllSharesOfExtended(entries: seq<L.Entry>, e: L.Entry, order: seq<string>, m: string,
                                               a: L.Account)
    requires NoneTwice(order)
    ensures AllSharesIn(entries + [e], order, m, a) == AllSharesIn(entries, order, m, a)
      + if e.paymentId in order then ShareIn(Share(e.merchantId, e.account, e.direction, e.amountCents), m, a) else 0
  {
    hide Shares, SharesIn, ShareIn;
    if order != [] {
      SharesInOfExtended(entries, e, order[0], m, a);
      AllSharesOfExtended(entries, e, order[1..], m, a);
      assert order[0] !in order[1..];
    }
  }

  predicate NoneTwice(order: seq<string>) {
    forall i, j :: 0 <= i < j < |order| ==> order[i] != order[j]
  }

  lemma {:induction false} NoSharesAtAll(order: seq<string>, m: string, a: L.Account)
    ensures AllSharesIn([], order, m, a) == 0
  {
    if order != [] {
      NoSharesAtAll(order[1..], m, a);
    }
  }

  /** A balance, payment by payment. */
  lemma {:induction false} BalanceByPayment(entries: seq<L.Entry>, order: seq<string>, m: string, a: L.Account)
    requires NoneTwice(order) && forall i :: 0 <= i < |entries| ==> entries[i].paymentId in order
    ensures L.Balance(entries, m, a) == AllSharesIn(entries, order, m, a)
  {
    hide NoneTwice;
    if entries == [] {
      NoSharesAtAll(order, m, a);
    } else {
      var n := |entries| - 1;
      var e := entries[n];
      assert entries == entries[..n] + [e] && e.paymentId in order;
      assert forall i :: 0 <= i < n ==> entries[..n][i] == entries[i];
      BalanceByPayment(entries[..n], order, m, a);
      AllSharesOfExtended(entries[..n], e, order, m, a);
      hide AllSharesIn;
    }
  }

  /** What one payment puts on a merchant's account: its charge, the merchant's share or the fee, once it is PAID. */
  function Owed(p: Payment, m: string, a: L.Account): int {
    if p.status != PAID || p.merchantId != m then 0
    else match a
      case CustomerFunds => 0 - p.price.charge
      case MerchantBalance => p.price.merchantNet
      case PlatformFees => p.price.platformFee
      case GatewaySettlement => 0
  }

  function TotalOwed(payments: map<string, Payment>, order: seq<string>, m: string, a: L.Account): int
    requires forall r :: r in order ==> r in payments
  {
    if order == [] then 0 else Owed(payments[order[0]], m, a) + TotalOwed(payments, order[1..], m, a)
  }

  lemma CompleteSetOwes(p: Payment, m: string, a: L.Account)
    requires p.status == PAID
    ensures SharesIn(CompleteSet(p.merchantId, p.price), m, a) == Owed(p, m, a)
  {
    var x := Share(p.merchantId, L.CustomerFunds, L.Debit, p.price.charge);
    var y := Share(p.merchantId, L.MerchantBalance, L.Credit, p.price.merchantNet);
    var z := Share(p.merchantId, L.PlatformFees, L.Credit, p.price.platformFee);
    assert [x][..0] == [] && [x, y][..1] == [x] && [x, y, z][..2] == [x, y];
    assert SharesIn([x], m, a) == ShareIn(x, m, a);
    assert SharesIn([x, y], m, a) == ShareIn(x, m, a) + ShareIn(y, m, a);
    assert SharesIn([x, y, z], m, a) == SharesIn([x, y], m, a) + ShareIn(z, m, a);
    assert CompleteSet(p.merchantId, p.price) == if p.price.platformFee > 0 then [x, y, z] else [x, y];
  }

  lemma {:induction false} SharesAreOwed(db: Db, order: seq<string>, m: string, a: L.Account)
    requires LedgerMatches(db) && forall r :: r in order ==> r in db.payments
    ensures AllSharesIn(db.entries, order, m, a) == TotalOwed(db.payments, order, m, a)
  {
    hide Shares, SharesIn, CompleteSet, Owed, Priced;
    if order != [] {
      var p := db.payments[order[0]];
      assert PaymentMatches(db.entries, order[0], p);
      if p.status == PAID {
        CompleteSetOwes(p, m, a);
      } else {
        assert SharesIn([], m, a) == 0 == Owed(p, m, a) by { UnpaidOwesNothing(p, m, a); }
      }
      SharesAreOwed(db, order[1..], m, a);
    }
  }

  lemma UnpaidOwesNothing(p: Payment, m: string, a: L.Account)
    requires p.status != PAID
    ensures SharesIn([], m, a) == 0 == Owed(p, m, a)
  {
  }

  /**
   * What a merchant's accounts hold after any run: the charges, the net amounts and the fees of the merchant's own PAID
   * payments, all of them and nothing else. The order lists every payment once.
   */
  lemma BalancesAreThePaidPayments(steps: seq<Step>, order: seq<string>, m: string, a: L.Account)
    requires ProperSteps(steps) && NoneTwice(order)
    requires forall r :: r in order <==> r in Run(EMPTY, steps).payments
    ensures var db := Run(EMPTY, steps); L.Balance(db.entries, m, a) == TotalOwed(db.payments, order, m, a)
  {
    EveryRunKeepsTheBooks(steps);
    var db := Run(EMPTY, steps);
    forall i | 0 <= i < |db.entries|
      ensures db.entries[i].paymentId in order
    {
      EntriesAreTheMerchants(steps, i);
    }
    hide Run, LedgerMatches, Announced, L.RunningBalances, L.ZeroSum, NoneTwice;
    BalanceByPayment(db.entries, order, m, a);
    SharesAreOwed(db, order, m, a);
  }

  // ---------- PAID is final ----------

  /** Paid before and after, to the same merchant, at the same price and with the same ledger entries. */
  ghost predicate StillPaid(before: Db, after: Db, reference: string) {
    && PaidIn(before.payments, reference) && PaidIn(after.payments, reference)
    && SameTerms(before.payments[reference], after.payments[reference])
    && Shares(after.entries, reference) == Shares(before.entries, reference)
  }

  lemma ApplyKeepsPaid(db: Db, changed: string, e: Effect, endpoints: seq<string>, reference: string)
    requires PaidIn(db.payments, reference)
    requires changed == reference ==> Lawful(db.payments[reference], e)
    ensures PaidIn(Apply(db, changed, e, endpoints).payments, reference)
    ensures SameTerms(db.payments[reference], Apply(db, changed, e, endpoints).payments[reference])
  {
    hide Recorded, Enqueued;
  }

  lemma SamePriceSameShares(before: Db, after: Db, reference: string)
    requires LedgerMatches(before) && LedgerMatches(after)
    requires PaidIn(before.payments, reference) && PaidIn(after.payments, reference)
    requires SameTerms(before.payments[reference], after.payments[reference])
    ensures StillPaid(before, after, reference)
  {
    hide Shares;
    assert PaymentMatches(before.entries, reference, before.payments[reference]);
    assert PaymentMatches(after.entries, reference, after.payments[reference]);
  }

  lemma NextKeepsPaid(db: Db, s: Step, reference: string)
    requires Books(db) && DistinctEndpoints(s.world.endpoints) && PaidIn(db.payments, reference)
    ensures StillPaid(db, Next(db, s), reference)
  {
    NextKeepsBooks(db, s);
    hide Announced, L.RunningBalances, L.ZeroSum, EffectOf, CreationOf, Lawful, ProcessedAfter, Shares, LedgerMatches,
         Apply, DistinctEndpoints, StillPaid;
    if s.reference in db.payments {
      var p := db.payments[s.reference];
      HandlersAreLawful(p, s, db.processed);
      ApplyKeepsPaid(db, s.reference, EffectOf(p, s, db.processed), s.world.endpoints, reference);
    } else if CreationOf(s).Some? {
      ApplyKeepsPaid(db, s.reference, CreationOf(s).value, s.world.endpoints, reference);
    }
    SamePriceSameShares(db, Next(db, s), reference);
  }

  /** Once PAID, a payment stays PAID at the same price and its ledger entries never change, whatever happens later. */
  lemma {:induction false} PaidIsForever(db: Db, steps: seq<Step>, reference: string)
    requires Books(db) && ProperSteps(steps) && PaidIn(db.payments, reference)
    ensures StillPaid(db, Run(db, steps), reference)
    decreases |steps|
  {
    hide Books, Next, DistinctEndpoints, Shares;
    if steps != [] {
      NextKeepsBooks(db, steps[0]);
      NextKeepsPaid(db, steps[0], reference);
      PaidIsForever(Next(db, steps[0]), steps[1..], reference);
    }
  }

  /** How often a success of one payment was enqueued for one endpoint. */
  function Announcements(outbox: seq<Delivery>, d: Delivery): nat {
    multiset(outbox)[d]
  }

  /** At most once in any run, and never for a payment that is not PAID. */
  lemma AnnouncedAtMostOnce(steps: seq<Step>, endpoint: string, reference: string)
    requires ProperSteps(steps)
    ensures var db := Run(EMPTY, steps);
      Announcements(db.outbox, Delivery(endpoint, SUCCEEDED, reference))
        <= if PaidIn(db.payments, reference) then 1 else 0
  {
    EveryRunKeepsTheBooks(steps);
    var db := Run(EMPTY, steps);
    hide Run, LedgerMatches, L.RunningBalances, L.ZeroSum;
    OccursOnce(db.outbox, Delivery(endpoint, SUCCEEDED, reference));
  }

  lemma {:induction false} OccursOnce(outbox: seq<Delivery>, d: Delivery)
    requires forall i, j :: 0 <= i < j < |outbox| && outbox[i] == outbox[j] ==> outbox[i] != d
    ensures multiset(outbox)[d] == if d in outbox then 1 else 0
  {
    if outbox != [] {
      var n := |outbox| - 1;
      assert outbox == outbox[..n] + [outbox[n]];
      OccursOnce(outbox[..n], d);
    }
  }
}
