/** Payment attempts: the fallback loop's outcome, and why a payment has at most one open attempt. */
module PaymentAttempts {
  import opened JsText
  import opened PaymentStatus
  import opened Payments
  import opened Snapshots
  import opened Routing
  import opened ProviderStatus
  import opened Json

  ghost predicate NoneOpen(attempts: seq<Attempt>) {
    forall i :: 0 <= i < |attempts| ==> !Open(attempts[i])
  }

  ghost predicate AtMostOneOpen(attempts: seq<Attempt>) {
    forall i, j :: 0 <= i < j < |attempts| ==> !Open(attempts[i]) || !Open(attempts[j])
  }

  /** The latest attempt is open and no other is. */
  ghost predicate OnlyLatestOpen(attempts: seq<Attempt>) {
    attempts != [] && Open(attempts[|attempts| - 1]) && NoneOpen(attempts[..|attempts| - 1])
  }

  // ---------- The fallback loop ----------

  /** Nothing is tried beyond the first candidate unless the choice is automatic and the plan has fallback. */
  lemma TriedCandidates(d: Decision, plan: Plan)
    ensures Tried(d, plan) <= d.eligible
    ensures (d.explicit || !plan.fallback) ==> |Tried(d, plan)| <= 1
    ensures !d.explicit && plan.fallback ==> Tried(d, plan) == d.eligible
    ensures d.eligible != [] ==> Tried(d, plan) != []
  {
  }

  /** The attempts a tried candidate has among those appended: one, and it failed without a redirect URL. */
  ghost predicate FailedOnce(appended: seq<Attempt>, g: Gateway) {
    exists i :: 0 <= i < |appended| && appended[i] == Attempt(g, Failed, "")
      && forall j :: 0 <= j < |appended| && appended[j].gateway == g ==> j == i
  }

  /** An attempt that is superseded: cancelled if it was created or pending, and as it was otherwise. */
  function Closed(a: Attempt): Attempt {
    if a.status == Created || a.status == Pending then a.(status := Cancelled) else a
  }

  /**
   * One new failed attempt for each candidate that failed, and after them the attempt of the one that answered, which
   * supersedes all before it.
   */
  ghost predicate Appended(before: seq<Attempt>, after: seq<Attempt>, failed: seq<Candidate>,
                           answered: Option<Gateway>) {
    && |after| == |before| + |failed| + (if answered.Some? then 1 else 0)
    && (forall i :: 0 <= i < |failed| ==> FailedOnce(after[|before|..], failed[i].gateway))
    && (answered.Some? ==> OnlyLatestOpen(after) && after[|after| - 1].gateway == answered.value)
    && (forall i :: 0 <= i < |before| ==> after[i] == if answered.Some? then Closed(before[i]) else before[i])
  }

  lemma FailOnce(failed: seq<Candidate>, latest: seq<Attempt>)
    requires Distinct(failed)
    requires forall i, j :: 0 <= i < |failed| && 0 <= j < |latest| ==> failed[i].gateway != latest[j].gateway
    ensures forall i :: 0 <= i < |failed| ==> FailedOnce(FailedAttempts(failed) + latest, failed[i].gateway)
  {
    var appended := FailedAttempts(failed) + latest;
    forall i | 0 <= i < |failed|
      ensures FailedOnce(appended, failed[i].gateway)
    {
      assert appended[i] == Attempt(failed[i].gateway, Failed, "");
    }
  }

  lemma AppendedWhenAnswered(before: seq<Attempt>, failed: seq<Candidate>, g: Gateway, url: string)
    requires Distinct(failed) && forall i :: 0 <= i < |failed| ==> failed[i].gateway != g
    ensures Appended(before, CancelOpen(before + FailedAttempts(failed), None)
                     + [Attempt(g, Created, url)], failed, Some(g))
  {
    FailOnce(failed, [Attempt(g, Created, url)]);
    hide FailedOnce;
    var after := CancelOpen(before + FailedAttempts(failed), None) + [Attempt(g, Created, url)];
    assert after[|before|..] == FailedAttempts(failed) + [Attempt(g, Created, url)];
  }

  lemma AppendedWhenNoneAnswers(before: seq<Attempt>, failed: seq<Candidate>)
    requires Distinct(failed)
    ensures Appended(before, before + FailedAttempts(failed), failed, None)
  {
    FailOnce(failed, []);
    hide FailedOnce;
    assert (before + FailedAttempts(failed))[|before|..] == FailedAttempts(failed) + [];
  }

  lemma PatchHasRouting(request: Record, routing: Record, money: Record, checkout: Checkout)
    requires "routing" !in money
    ensures var patch := Patch(request, routing, money, checkout);
      "routing" in patch && patch["routing"] == Obj(routing)
  {
    FieldNames();
  }

  /**
   * A session is opened by the first candidate tried whose provider answers. Each one before it has one new attempt,
   * failed; its own attempt is the only open one; the fallback count has grown by the number of failures, the failure
   * list by one record each.
   */
  ghost predicate FirstSucceeds(p: Payment, tried: seq<Candidate>, sessions: map<Gateway, Session>, q: Payment,
                                k: nat) {
    && k < |tried| && tried[k].gateway in sessions && q.gateway == Some(tried[k].gateway)
    && q.attempts != []
    && q.attempts[|q.attempts| - 1] == Attempt(tried[k].gateway, Created, sessions[tried[k].gateway].redirectUrl)
    && q.status == (if p.status == CREATED then CREATED else PENDING)
    && AskedInTurn(p, tried, k + 1, q)
    && (forall i :: 0 <= i < k ==> tried[i].gateway !in sessions)
    && Appended(p.attempts, q.attempts, tried[..k], q.gateway)
    && Counted(p.raw, q.raw, k)
  }

  /** The first n candidates have been asked for a session, one after the other. */
  ghost predicate AskedInTurn(p: Payment, tried: seq<Candidate>, n: nat, q: Payment) {
    && n <= |tried| && |q.asked| == |p.asked| + n && p.asked <= q.asked
    && forall i :: 0 <= i < n ==> q.asked[|p.asked| + i] == tried[i].gateway
  }

  /** The JSON after k failures: the count has grown by k, and k records follow those there were. */
  ghost predicate Counted(before: Json, after: Json, k: nat) {
    && StoredFallbackCount(after) == StoredFallbackCount(before) + k
    && |StoredFailures(after)| == |StoredFailures(before)| + k && StoredFailures(before) <= StoredFailures(after)
  }

  /** No candidate tried opens a session: each has one new failed attempt, gateway and status are as they were. */
  ghost predicate AllFail(p: Payment, tried: seq<Candidate>, sessions: map<Gateway, Session>, q: Payment) {
    && (forall i :: 0 <= i < |tried| ==> tried[i].gateway !in sessions)
    && q.gateway == p.gateway && q.status == p.status
    && Appended(p.attempts, q.attempts, tried, None)
    && AskedInTurn(p, tried, |tried|, q)
  }

  lemma DistinctPrefix(es: seq<Candidate>, k: nat)
    requires Distinct(es) && k < |es|
    ensures Distinct(es[..k]) && forall i :: 0 <= i < k ==> es[..k][i].gateway != es[k].gateway
  {
  }

  lemma OpenedRow(p: Payment, d: Decision, k: nat, s: Session, money: Record, checkout: Checkout)
    requires k < |d.eligible|
    ensures var q, g := Opened(p, d, k, s, money, checkout), d.eligible[k].gateway;
      && q.gateway == Some(g)
      && q.attempts
        == CancelOpen(p.attempts + FailedAttempts(d.eligible[..k]), None) + [Attempt(g, Created, s.redirectUrl)]
      && q.status == (if p.status == CREATED then CREATED else PENDING)
      && q.asked == p.asked + Gateways(d.eligible[..k + 1])
  {
    hide Merge, Patch, RoutingObject, FailedAttempts, CancelOpen, Gateways, StoredFallbackCount, StoredFailures,
         FailureRecords, LastFailure, GatewayRequestSnapshot;
  }

  lemma OpenedCounted(p: Payment, d: Decision, k: nat, s: Session, money: Record, checkout: Checkout)
    requires k < |d.eligible| && "routing" !in money
    ensures Counted(p.raw, Opened(p, d, k, s, money, checkout).raw, k)
  {
    hide Opened, StoredFallbackCount, StoredFailures, FailureRecords;
    OpenedRouting(p, d, k, s, money, checkout);
  }

  lemma OpenedAppended(p: Payment, d: Decision, k: nat, s: Session, money: Record, checkout: Checkout)
    requires k < |d.eligible| && Distinct(d.eligible)
    ensures var q := Opened(p, d, k, s, money, checkout); Appended(p.attempts, q.attempts, d.eligible[..k], q.gateway)
  {
    hide Opened, Appended, FailedAttempts, CancelOpen, Distinct;
    OpenedRow(p, d, k, s, money, checkout);
    DistinctPrefix(d.eligible, k);
    AppendedWhenAnswered(p.attempts, d.eligible[..k], d.eligible[k].gateway, s.redirectUrl);
  }

  lemma OpenedOutcome(p: Payment, d: Decision, k: nat, sessions: map<Gateway, Session>, money: Record,
                      checkout: Checkout, tried: seq<Candidate>)
    requires Distinct(d.eligible) && "routing" !in money && tried <= d.eligible
    requires k == FirstOpened(tried, sessions) < |tried|
    ensures FirstSucceeds(p, tried, sessions, Opened(p, d, k, sessions[tried[k].gateway], money, checkout), k)
  {
    hide Opened, Appended, Counted, Distinct, FirstOpened;
    var s := sessions[tried[k].gateway];
    OpenedRow(p, d, k, s, money, checkout);
    OpenedCounted(p, d, k, s, money, checkout);
    OpenedAppended(p, d, k, s, money, checkout);
    hide FailedAttempts, CancelOpen;
    assert tried[..k] == d.eligible[..k];
  }

  lemma OpenedRouting(p: Payment, d: Decision, k: nat, s: Session, money: Record, checkout: Checkout)
    requires k < |d.eligible| && "routing" !in money
    ensures var q := Opened(p, d, k, s, money, checkout);
      && StoredRequested(q.raw) == (if d.requested.Choice? then d.requested else Auto)
      && StoredFallbackCount(q.raw) == StoredFallbackCount(p.raw) + k
      && StoredFailures(q.raw) == StoredFailures(p.raw) + FailureRecords(d.eligible, k)
  {
    hide Merge, Patch, GatewayRequestSnapshot, RoutingObject, StoredRequested, StoredFallbackCount, StoredFailures;
    var g := d.eligible[k].gateway;
    var count := StoredFallbackCount(p.raw) + k;
    var failures := StoredFailures(p.raw) + FailureRecords(d.eligible, k);
    var lastFallback := if count > 0 then LastFailure(failures) else None;
    var routing := RoutingObject(d.requested, d.explicit, g, count, lastFallback, failures);
    PatchHasRouting(GatewayRequestSnapshot(g, s), routing, money, checkout);
    RoutingRoundTrip(p.raw, Patch(GatewayRequestSnapshot(g, s), routing, money, checkout), d.requested, d.explicit, g,
                     count, lastFallback, failures);
  }

  /** The last failure before a session is what the row names as its last fallback. */
  lemma OpenedLastFallback(p: Payment, d: Decision, k: nat, s: Session, money: Record, checkout: Checkout)
    requires 0 < k < |d.eligible| && "routing" !in money
    ensures Field(RoutingRecord(Opened(p, d, k, s, money, checkout).raw), "lastFallback")
         == Some(FailureRecord(d.eligible[k - 1].gateway, Some(d.eligible[k].gateway)))
  {
    hide Merge, Patch, GatewayRequestSnapshot, RoutingObject, StoredFallbackCount, StoredFailures, FailureRecord,
         CancelOpen, Gateways, FailedAttempts;
    var g := d.eligible[k].gateway;
    var count := StoredFallbackCount(p.raw) + k;
    var failures := StoredFailures(p.raw) + FailureRecords(d.eligible, k);
    var lastFallback := if count > 0 then LastFailure(failures) else None;
    var routing := RoutingObject(d.requested, d.explicit, g, count, lastFallback, failures);
    PatchHasRouting(GatewayRequestSnapshot(g, s), routing, money, checkout);
    MergeField(p.raw, Patch(GatewayRequestSnapshot(g, s), routing, money, checkout), "routing");
    assert failures[|failures| - 1] == FailureAt(d.eligible, k - 1);
    RecordIsObject(d.eligible[k - 1].gateway, Some(g));
    RoutingObjectSays(d.requested, d.explicit, g, count, lastFallback, failures);
  }

  lemma NotOpenedRouting(p: Payment, d: Decision, k: nat, money: Record, checkout: Checkout)
    requires 0 < k <= |d.eligible| && "routing" !in money
    ensures var q := NotOpened(p, d, k, money, checkout);
      && StoredRequested(q.raw) == (if d.requested.Choice? then d.requested else Auto)
      && StoredFallbackCount(q.raw) == StoredFallbackCount(p.raw) + (if k < |d.eligible| then k else k - 1)
      && StoredFailures(q.raw) == StoredFailures(p.raw) + FailureRecords(d.eligible, k)
  {
    hide Merge, Patch, RoutingObject, StoredRequested, StoredFallbackCount, StoredFailures;
    var count := StoredFallbackCount(p.raw) + if k < |d.eligible| then k else k - 1;
    var failures := StoredFailures(p.raw) + FailureRecords(d.eligible, k);
    var last := Some(FailureAt(d.eligible, k - 1));
    var g := d.eligible[k - 1].gateway;
    var routing := RoutingObject(d.requested, d.explicit, g, count, last, failures);
    PatchHasRouting(map[], routing, money, checkout);
    RoutingRoundTrip(p.raw, Patch(map[], routing, money, checkout), d.requested, d.explicit, g, count, last, failures);
  }

  lemma NotOpenedRow(p: Payment, d: Decision, k: nat, money: Record, checkout: Checkout)
    requires k <= |d.eligible|
    ensures var q := NotOpened(p, d, k, money, checkout);
      && q.gateway == p.gateway && q.status == p.status && q.attempts == p.attempts + FailedAttempts(d.eligible[..k])
      && q.asked == p.asked + Gateways(d.eligible[..k])
  {
    hide Merge, Patch, RoutingObject, StoredFallbackCount, StoredFailures, FailureRecords, FailureAt;
    if k == 0 {
      assert p.attempts + FailedAttempts(d.eligible[..k]) == p.attempts;
      assert p.asked + Gateways(d.eligible[..k]) == p.asked;
    }
  }

  lemma NotOpenedOutcome(p: Payment, d: Decision, sessions: map<Gateway, Session>, money: Record, checkout: Checkout,
                         tried: seq<Candidate>)
    requires Distinct(tried) && tried <= d.eligible
    requires FirstOpened(tried, sessions) == |tried|
    ensures AllFail(p, tried, sessions, NotOpened(p, d, |tried|, money, checkout))
  {
    hide NotOpened, Appended, FailedAttempts, Distinct, FirstOpened;
    AppendedWhenNoneAnswers(p.attempts, tried);
    NotOpenedRow(p, d, |tried|, money, checkout);
    assert d.eligible[..|tried|] == tried;
  }

  /** The loop either stops at the first candidate whose provider answers, or has failed on every one it may try. */
  lemma FallbackOutcome(p: Payment, d: Decision, w: World, money: Record, checkout: Checkout)
    requires Distinct(d.eligible) && "routing" !in money
    ensures var init, tried := Initialize(p, d, w, money, checkout), Tried(d, w.plan);
      match init.gateway
      case Some(g) => exists k: nat :: FirstSucceeds(p, tried, w.sessions, init.payment, k) && tried[k].gateway == g
      case None => AllFail(p, tried, w.sessions, init.payment)
  {
    TriedCandidates(d, w.plan);
    var tried := Tried(d, w.plan);
    assert Distinct(tried) by {
      assert forall i :: 0 <= i < |tried| ==> tried[i] == d.eligible[i];
    }
    hide Opened, NotOpened, AllFail, Tried, Distinct;
    var k := FirstOpened(tried, w.sessions);
    if k < |tried| {
      OpenedOutcome(p, d, k, w.sessions, money, checkout, tried);
    } else {
      NotOpenedOutcome(p, d, w.sessions, money, checkout, tried);
    }
  }

  // ---------- At most one open attempt ----------

  ghost predicate NoneOn(attempts: seq<Attempt>, g: Option<Gateway>) {
    g.Some? ==> forall i :: 0 <= i < |attempts| ==> attempts[i].gateway != g.value
  }

  lemma CancelAllCloses(attempts: seq<Attempt>, except: Option<Gateway>)
    requires NoneOn(attempts, except)
    ensures NoneOpen(CancelOpen(attempts, except))
  {
  }

  /**
   * Fail-over cancels the other gateways' attempts only, yet it leaves exactly one open: the next gateway is a new one.
   */
  lemma FailoverLeavesOneOpen(p: Payment, w: World)
    ensures var e := FailoverEffect(p, w);
      match e.reply
      case Some(g) => g !in Attempted(p) && OnlyLatestOpen(e.payment.attempts)
        && g in w.sessions && |e.payment.attempts| == |p.attempts| + 1
        && e.payment.attempts[|p.attempts|] == Attempt(g, Created, w.sessions[g].redirectUrl)
        && (forall i :: 0 <= i < |p.attempts| ==> e.payment.attempts[i] == Closed(p.attempts[i]))
      case None => e.payment.attempts == p.attempts
  {
    var query := QueryFor(p, Auto, Attempted(p), FailoverPriority, StoredCheckout(p.raw));
    DecisionIsWellFormed(w.merchant, w.env, query);
    hide Decide, FailoverAllowed, Merge, Patch, RoutingObject, StoredCheckout;
    if FailoverDecision(p, w).Ok? {
      var d := FailoverDecision(p, w).value;
      assert d.eligible[0].gateway !in Attempted(p);
      CancelAllCloses(p.attempts, Some(d.selected));
    }
  }

  lemma InitializeKeepsOpen(p: Payment, d: Decision, w: World, money: Record, checkout: Checkout)
    requires AtMostOneOpen(p.attempts)
    ensures AtMostOneOpen(Initialize(p, d, w, money, checkout).payment.attempts)
  {
    TriedCandidates(d, w.plan);
    var k := FirstOpened(Tried(d, w.plan), w.sessions);
    hide Merge, Patch, RoutingObject;
    if k < |Tried(d, w.plan)| {
      var s := w.sessions[Tried(d, w.plan)[k].gateway];
      var q := Opened(p, d, k, s, money, checkout);
      CancelAllCloses(p.attempts + FailedAttempts(d.eligible[..k]), None);
      assert q.attempts[..|q.attempts| - 1] == CancelOpen(p.attempts + FailedAttempts(d.eligible[..k]), None);
      OnlyLatestIsAtMostOne(q.attempts);
    }
  }

  lemma OnlyLatestIsAtMostOne(attempts: seq<Attempt>)
    requires OnlyLatestOpen(attempts)
    ensures AtMostOneOpen(attempts)
  {
    forall i | 0 <= i < |attempts| - 1
      ensures !Open(attempts[i])
    {
      assert attempts[..|attempts| - 1][i] == attempts[i];
    }
  }

  /** No attempt before the latest is open. */
  ghost predicate EarlierClosed(attempts: seq<Attempt>) {
    attempts == [] || NoneOpen(attempts[..|attempts| - 1])
  }

  /** A report leaves at most one attempt open unless it is PENDING and an attempt before the latest is still open. */
  lemma ReportKeepsOneOpenIff(attempts: seq<Attempt>, next: Status)
    requires AtMostOneOpen(attempts)
    ensures AtMostOneOpen(SetLatest(attempts, AttemptStatusFor(next))) <==> next != PENDING || EarlierClosed(attempts)
  {
    var after := SetLatest(attempts, AttemptStatusFor(next));
    if attempts != [] {
      var n := |attempts| - 1;
      assert after[..n] == attempts[..n];
      if next == PENDING && !NoneOpen(attempts[..n]) {
        var i :| 0 <= i < n && Open(attempts[..n][i]);
        assert Open(after[i]) && Open(after[n]);
      }
      if next == PENDING && NoneOpen(attempts[..n]) {
        assert forall i :: 0 <= i < n ==> !Open(attempts[..n][i]) && after[i] == attempts[..n][i];
      }
    }
  }

  /** The same for a webhook as a whole: only one that counts and says PENDING can open a second attempt. */
  lemma WebhookKeepsOneOpenIff(p: Payment, h: Hook, seen: bool)
    requires AtMostOneOpen(p.attempts)
    ensures AtMostOneOpen(WebhookEffect(p, h, seen).payment.attempts)
      <==> (HookStatus(h) == Some(PENDING) && Counts(p, PENDING, seen) ==> EarlierClosed(p.attempts))
  {
    hide HookStatus, HookRaw, Counts, AtMostOneOpen, EarlierClosed, SetLatest, AttemptStatusFor, WebhookEventFor;
    if HookStatus(h).Some? {
      ReportKeepsOneOpenIff(p.attempts, HookStatus(h).value);
    }
  }

  lemma LookupKeepsOneOpenIff(p: Payment, l: Lookup)
    requires AtMostOneOpen(p.attempts)
    ensures AtMostOneOpen(LookupEffect(p, l).payment.attempts)
      <==> (LookupWrites(p, l) && LookupStatus(p, l) == PENDING ==> EarlierClosed(p.attempts))
  {
    hide LookupStatus, LookupRaw, LookupWrites, AtMostOneOpen, EarlierClosed, SetLatest, AttemptStatusFor;
    ReportKeepsOneOpenIff(p.attempts, LookupStatus(p, l));
  }

  /** Direct Ozow re-initiation adds an open attempt, so it needs all others closed. */
  lemma ReinitiationKeepsOneOpenIff(p: Payment, r: CreateRequest, w: World)
    requires AtMostOneOpen(p.attempts)
    ensures AtMostOneOpen(InitiateOzowEffect(p, r, w).payment.attempts)
      <==> (ReinitiationAllowed(p, r, w) && OZOW in w.sessions ==> NoneOpen(p.attempts))
  {
    hide ReinitiationAllowed, Merge, Patch, RoutingObject, GatewayRequestSnapshot, Money;
    if ReinitiationAllowed(p, r, w) && OZOW in w.sessions {
      var after := InitiateOzowEffect(p, r, w).payment.attempts;
      assert after == p.attempts + [Attempt(OZOW, Created, w.sessions[OZOW].redirectUrl)];
      if !NoneOpen(p.attempts) {
        var i :| 0 <= i < |p.attempts| && Open(p.attempts[i]);
        assert Open(after[i]) && Open(after[|p.attempts|]);
      }
    }
  }

  /** What each step must meet; creation, continuation and fail-over meet it always. */
  ghost predicate Careful(p: Payment, s: Step, processed: set<(Gateway, string)>) {
    match s.action
    case InitiateOzow(r) => ReinitiationAllowed(p, r, s.world) && OZOW in s.world.sessions ==> NoneOpen(p.attempts)
    case Receive(id, hook) =>
      HookStatus(hook) == Some(PENDING) && Counts(p, PENDING, (HookGateway(hook), id) in processed) ==>
        EarlierClosed(p.attempts)
    case LookUp(lookup) => LookupWrites(p, lookup) && LookupStatus(p, lookup) == PENDING ==> EarlierClosed(p.attempts)
    case _ => true
  }

  lemma ContinueKeepsOneOpen(p: Payment, asked: Option<string>, expired: bool, w: World)
    requires AtMostOneOpen(p.attempts)
    ensures AtMostOneOpen(ContinueEffect(p, asked, expired, w).payment.attempts)
  {
    hide Initialize, ContinueDecision, AtMostOneOpen, Money, StoredCheckout, RedirectUrl;
    var d := ContinueDecision(p, asked, expired, w);
    if d.Ok? {
      InitializeKeepsOpen(p, d.value, w, Money(p, w), StoredCheckout(p.raw));
    }
  }

  lemma FailoverKeepsOneOpen(p: Payment, w: World)
    requires AtMostOneOpen(p.attempts)
    ensures AtMostOneOpen(FailoverEffect(p, w).payment.attempts)
  {
    FailoverLeavesOneOpen(p, w);
    hide FailoverEffect, AtMostOneOpen, OnlyLatestOpen;
    var e := FailoverEffect(p, w);
    if e.reply.Some? { OnlyLatestIsAtMostOne(e.payment.attempts); }
  }

  /** One step keeps at most one attempt open exactly when it meets its condition. */
  lemma StepKeepsOneOpenIff(p: Payment, s: Step, processed: set<(Gateway, string)>)
    requires AtMostOneOpen(p.attempts)
    ensures AtMostOneOpen(EffectOf(p, s, processed).payment.attempts) <==> Careful(p, s, processed)
  {
    hide ContinueEffect, FailoverEffect, WebhookEffect, LookupEffect, InitiateOzowEffect, AtMostOneOpen;
    match s.action
    case Create(_) =>
    case InitiateOzow(r) => ReinitiationKeepsOneOpenIff(p, r, s.world);
    case Continue(asked, expired) => ContinueKeepsOneOpen(p, asked, expired, s.world);
    case Failover => FailoverKeepsOneOpen(p, s.world);
    case Receive(id, hook) => WebhookKeepsOneOpenIff(p, hook, (HookGateway(hook), id) in processed);
    case LookUp(lookup) => LookupKeepsOneOpenIff(p, lookup);
  }

  ghost predicate OneOpenEach(db: Db) {
    forall r :: r in db.payments ==> AtMostOneOpen(db.payments[r].attempts)
  }

  /** No step of the run breaks its condition. */
  ghost predicate CarefulRun(db: Db, steps: seq<Step>)
    decreases |steps|
  {
    steps == []
    || (var s := steps[0];
        && (s.reference in db.payments ==> Careful(db.payments[s.reference], s, db.processed))
        && CarefulRun(Next(db, s), steps[1..]))
  }

  /** Every payment has at most one open attempt, now and after each step. */
  ghost predicate OneOpenThroughout(db: Db, steps: seq<Step>)
    decreases |steps|
  {
    OneOpenEach(db) && (steps == [] || OneOpenThroughout(Next(db, steps[0]), steps[1..]))
  }

  lemma CreationHasOneOpen(s: Step)
    ensures CreationOf(s).Some? ==> AtMostOneOpen(CreationOf(s).value.payment.attempts)
  {
    match s.action
    case Create(r) => CreateHasOneOpen(r, s.world);
    case InitiateOzow(r) => CreateHasOneOpen(r.(gateway := Some("OZOW")), s.world);
    case _ =>
  }

  lemma CreateHasOneOpen(r: CreateRequest, w: World)
    ensures CreateEffect(r, w).Some? ==> AtMostOneOpen(CreateEffect(r, w).value.payment.attempts)
  {
    hide CreateDecision, Initialize;
    var d := CreateDecision(r, w);
    if d.Ok? {
      var p := NewPayment(r, w, Some(d.value.selected));
      InitializeKeepsOpen(p, d.value, w, MonetizationSnapshot(w.policy, p.price), r.checkout);
    }
  }

  lemma NextKeepsOneOpenIff(db: Db, s: Step)
    requires OneOpenEach(db)
    ensures OneOpenEach(Next(db, s))
         <==> (s.reference in db.payments ==> Careful(db.payments[s.reference], s, db.processed))
  {
    hide EffectOf, CreationOf, ProcessedAfter, AtMostOneOpen, Careful, Recorded, Enqueued;
    if s.reference in db.payments {
      StepKeepsOneOpenIff(db.payments[s.reference], s, db.processed);
      assert s.reference in Next(db, s).payments;
    } else {
      CreationHasOneOpen(s);
    }
  }

  /**
   * Over every run of all handlers, a payment has at most one open attempt throughout if and only if no PENDING report
   * takes effect while an attempt before the latest is open, and none is added by Ozow re-initiation to an open one.
   */
  lemma {:induction false} AtMostOneOpenAttempt(db: Db, steps: seq<Step>)
    requires OneOpenEach(db)
    ensures OneOpenThroughout(db, steps) <==> CarefulRun(db, steps)
    decreases |steps|
  {
    hide Next, OneOpenEach, Careful;
    if steps != [] {
      NextKeepsOneOpenIff(db, steps[0]);
      if OneOpenEach(Next(db, steps[0])) {
        AtMostOneOpenAttempt(Next(db, steps[0]), steps[1..]);
      }
    }
  }

  /**
   * Where it breaks: an open attempt, then a continuation that asks another provider in vain, then a report of PENDING,
   * which is written to the failed attempt. Two attempts are open after it.
   */
  lemma PendingAfterFailedContinuation(p: Payment, asked: Option<string>, expired: bool, w: World, hook: Hook)
    requires p.attempts != [] && Open(p.attempts[|p.attempts| - 1])
    requires var e := ContinueEffect(p, asked, expired, w);
      e.reply.None? && e.payment.asked != p.asked && HookStatus(hook) == Some(PENDING)
      && (p.status == CREATED || p.status == PENDING)
    ensures !AtMostOneOpen(WebhookEffect(ContinueEffect(p, asked, expired, w).payment, hook, false).payment.attempts)
  {
    hide ContinueDecision, HookStatus, HookRaw, Money, StoredCheckout, RedirectUrl, Merge, Patch, RoutingObject, Tried;
    var d := ContinueDecision(p, asked, expired, w).value;
    var k := FirstOpened(Tried(d, w.plan), w.sessions);
    TriedCandidates(d, w.plan);
    var q := ContinueEffect(p, asked, expired, w).payment;
    assert q.attempts == p.attempts + FailedAttempts(d.eligible[..k]);
    var after := WebhookEffect(q, hook, false).payment.attempts;
    assert Open(after[|p.attempts| - 1]) && Open(after[|after| - 1]);
  }
}
