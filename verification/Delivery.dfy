/** One outbound webhook delivery: attempts, retries with capped exponential backoff, and manual retries. */
module Delivery {
  import opened JsText

  datatype Status = Pending | Success | Failed | Skipped

  /** Settings as parsePositiveInt yields them: floored, so a setting between 0 and 1 becomes 0. */
  datatype Settings = Settings(maxAttempts: nat, initialDelayMs: nat, maxDelayMs: nat)

  /**
   * What the endpoint did; an unreadable response, a network error and a failed write of SUCCESS are all NoResponse.
   */
  datatype Response = Delivered | HttpStatus(code: int) | NoResponse

  /** The copy of the row a worker took with its batch. */
  datatype Claim = Claim(attempts: nat, endpointActive: bool)

  /** The row, the claim in flight if any, and two counters the proofs speak about. */
  datatype Row = Row(status: Status, attempts: nat, nextAttemptAt: Option<int>, inFlight: Option<Claim>,
                     manualRetries: nat, scheduled: nat, waited: nat)

  function Enqueued(now: int): Row {
    Row(Pending, 0, Some(now), None, 0, 0, 0)
  }

  function Pow2(n: nat): nat {
    if n == 0 then 1 else 2 * Pow2(n - 1)
  }

  function Min(a: int, b: int): int { if a < b then a else b }

  function Max(a: int, b: int): int { if a < b then b else a }

  /** The wait after the n-th attempt, before jitter. */
  function ExponentialDelay(c: Settings, n: nat): nat
    requires n >= 1
  {
    Min(c.maxDelayMs, c.initialDelayMs * Max(1, Pow2(n - 1)))
  }

  /** Math.floor(delay * 0.2 * r) for r in [0, 1) lies between 0 and a fifth of the delay. */
  predicate PossibleJitter(delay: nat, jitter: nat) {
    5 * jitter <= delay
  }

  function AfterFailure(c: Settings, r: Row, n: nat, response: Response, now: int, jitter: nat): Row
    requires n >= 1
  {
    var clientError := response.HttpStatus? && 400 <= response.code < 500;
    if !clientError && n < c.maxAttempts then
      var wait := ExponentialDelay(c, n) + jitter;
      r.(status := Pending, attempts := n, nextAttemptAt := Some(now + wait), inFlight := None,
         scheduled := r.scheduled + 1, waited := r.waited + wait)
    else
      r.(status := Failed, attempts := n, nextAttemptAt := None, inFlight := None)
  }

  function AfterAttempt(c: Settings, r: Row, claim: Claim, response: Response, now: int, jitter: nat): Row {
    if !claim.endpointActive then r.(status := Skipped, nextAttemptAt := None, inFlight := None)
    else if response.Delivered? then
      r.(status := Success, attempts := claim.attempts + 1, nextAttemptAt := None, inFlight := None)
    else AfterFailure(c, r, claim.attempts + 1, response, now, jitter)
  }

  datatype Event =
    | Take(now: int, endpointActive: bool)
    | Finish(response: Response, now: int, jitter: nat)
    | WriteLost
    | ManualRetry(now: int)

  predicate Enabled(c: Settings, r: Row, e: Event) {
    match e
    case Take(now, _) => r.inFlight.None? && r.status == Pending
      && (r.nextAttemptAt.Some? ==> r.nextAttemptAt.value <= now)
    case Finish(_, _, jitter) => r.inFlight.Some?
      && PossibleJitter(ExponentialDelay(c, r.inFlight.value.attempts + 1), jitter)
    case WriteLost => r.inFlight.Some?
    case ManualRetry(_) => true
  }

  function Step(c: Settings, r: Row, e: Event): Row {
    if !Enabled(c, r, e) then r
    else match e
      case Take(_, active) => r.(inFlight := Some(Claim(r.attempts, active)))
      case Finish(response, now, jitter) => AfterAttempt(c, r, r.inFlight.value, response, now, jitter)
      case WriteLost => r.(inFlight := None)
      case ManualRetry(now) => r.(status := Pending, nextAttemptAt := Some(now), manualRetries := r.manualRetries + 1)
  }

  function Run(c: Settings, r: Row, events: seq<Event>): Row
    decreases |events|
  {
    if events == [] then r else Run(c, Step(c, r, events[0]), events[1..])
  }

  /** The delivery rows of the service, updated in place. */
  class DeliveryStore {
    var rows: map<string, Row>

    constructor ()
      ensures rows == map[]
    {
      rows := map[];
    }

    method NextRetryAt(c: Settings, attemptNumber: nat, now: int, jitter: nat) returns (at: int)
      requires attemptNumber >= 1
      ensures at == now + ExponentialDelay(c, attemptNumber) + jitter
    {
      var factor := 1;
      for k := 1 to attemptNumber
        invariant factor == Pow2(k - 1)
      {
        factor := factor * 2;
      }
      Pow2Positive(attemptNumber - 1);
      var delay := c.initialDelayMs * factor;
      if c.maxDelayMs < delay {
        delay := c.maxDelayMs;
      }
      return now + delay + jitter;
    }

    method HandleDeliveryFailure(c: Settings, id: string, n: nat, response: Response, now: int, jitter: nat)
      requires id in rows && n >= 1
      modifies this
      ensures rows == old(rows)[id := AfterFailure(c, old(rows)[id], n, response, now, jitter)]
    {
      var isClientError := response.HttpStatus? && response.code >= 400 && response.code < 500;
      var shouldRetry := !isClientError && n < c.maxAttempts;
      var r := rows[id];
      if shouldRetry {
        var at := NextRetryAt(c, n, now, jitter);
        rows := rows[id := r.(status := Pending, attempts := n, nextAttemptAt := Some(at), inFlight := None,
                              scheduled := r.scheduled + 1, waited := r.waited + (at - now))];
      } else {
        rows := rows[id := r.(status := Failed, attempts := n, nextAttemptAt := None, inFlight := None)];
      }
    }

    method AttemptWebhookDelivery(c: Settings, id: string, claim: Claim, response: Response, now: int, jitter: nat)
      requires id in rows
      modifies this
      ensures rows == old(rows)[id := AfterAttempt(c, old(rows)[id], claim, response, now, jitter)]
    {
      var r := rows[id];
      if !claim.endpointActive {
        rows := rows[id := r.(status := Skipped, nextAttemptAt := None, inFlight := None)];
        return;
      }
      var nextAttemptNumber := claim.attempts + 1;
      if response.Delivered? {
        rows := rows[id := r.(status := Success, attempts := nextAttemptNumber, nextAttemptAt := None,
                              inFlight := None)];
        return;
      }
      HandleDeliveryFailure(c, id, nextAttemptNumber, response, now, jitter);
    }

    method RetryWebhookDelivery(id: string, now: int)
      requires id in rows
      modifies this
      ensures rows == old(rows)[id := old(rows)[id].(status := Pending, nextAttemptAt := Some(now),
                                                     manualRetries := old(rows)[id].manualRetries + 1)]
    {
      var r := rows[id];
      rows := rows[id := r.(status := Pending, nextAttemptAt := Some(now), manualRetries := r.manualRetries + 1)];
    }
  }

  lemma Pow2Positive(n: nat)
    ensures Pow2(n) >= 1
  {
  }

  // ---------- One attempt ----------

  /** The delay starts at the initial one and doubles with every further failure until it reaches the cap. */
  lemma BackoffDoubles(c: Settings, n: nat)
    requires n >= 1
    ensures ExponentialDelay(c, 1) == Min(c.initialDelayMs, c.maxDelayMs)
    ensures ExponentialDelay(c, n + 1) == Min(2 * ExponentialDelay(c, n), c.maxDelayMs)
  {
    Pow2Positive(n - 1);
    Pow2Positive(n);
    Doubling(c.initialDelayMs, Pow2(n - 1));
  }

  lemma Doubling(initial: nat, p: nat)
    ensures initial * (2 * p) == 2 * (initial * p)
  {
  }

  /** A row is taken exactly when it is pending, its time has come and no other attempt of it is in flight. */
  lemma TakenIffDue(c: Settings, r: Row, now: int, active: bool)
    ensures var s := Step(c, r, Take(now, active));
      var due := r.inFlight.None? && r.status == Pending && (r.nextAttemptAt == None || r.nextAttemptAt.value <= now);
      s == if due then r.(inFlight := Some(Claim(r.attempts, active))) else r
  {
  }

  /** A client error is final, and so is any failure that uses up the limit. */
  predicate Final(c: Settings, attempts: nat, response: Response) {
    (response.HttpStatus? && 400 <= response.code <= 499) || attempts >= c.maxAttempts
  }

  /**
   * What an attempt comes to: at a disabled endpoint it is skipped and not counted; delivered, it succeeds; a client
   * error or the last failure is final; after any other failure the row is pending again, and is not taken before the
   * delay for its number of attempts, with the jitter, has passed.
   */
  lemma AttemptOutcome(c: Settings, r: Row, claim: Claim, response: Response, now: int, jitter: nat)
    requires r.inFlight == Some(claim) && 5 * jitter <= ExponentialDelay(c, claim.attempts + 1)
    ensures var s, n := Step(c, r, Finish(response, now, jitter)), claim.attempts + 1;
      var delay := ExponentialDelay(c, n) + jitter;
      && s.inFlight == None && s.manualRetries == r.manualRetries
      && (!claim.endpointActive ==> s.status == Skipped && s.attempts == r.attempts)
      && (claim.endpointActive ==> s.attempts == n)
      && (claim.endpointActive && response.Delivered? ==> s.status == Success)
      && (claim.endpointActive && !response.Delivered? && Final(c, n, response) ==> s.status == Failed)
      && (claim.endpointActive && !response.Delivered? && !Final(c, n, response) ==>
            s.status == Pending && s.nextAttemptAt == Some(now + delay)
            && forall at, active :: Step(c, s, Take(at, active)) != s <==> at >= now + delay)
      && (s.status != Pending ==>
            s.nextAttemptAt == None && forall at, active :: Step(c, s, Take(at, active)) == s)
  {
    hide ExponentialDelay;
  }

  /**
   * A manual retry makes any row due at once; a new delivery is due from the start; and an attempt whose row could not
   * be written leaves the row as it was before.
   */
  lemma RetriedIsDue(c: Settings, r: Row, now: int, active: bool)
    ensures r.inFlight == None ==> Step(c, Step(c, r, ManualRetry(now)), Take(now, active)).inFlight.Some?
    ensures Step(c, r, ManualRetry(now)).attempts == r.attempts
    ensures r.inFlight.Some? ==> Step(c, r, WriteLost) == r.(inFlight := None)
    ensures Step(c, Enqueued(now), Take(now, active)).inFlight == Some(Claim(0, active))
  {
  }

  // ---------- How many attempts ----------

  /** The first attempt is made whatever the limit says. */
  function Limit(c: Settings): nat { Max(1, c.maxAttempts) }

  /** A claim in flight still carries the row's own count, and a pending row has at least one attempt in hand. */
  ghost predicate WithinLimit(c: Settings, r: Row) {
    && r.attempts <= Limit(c) + r.manualRetries
    && (r.status == Pending ==> r.attempts < Limit(c) + r.manualRetries)
    && (r.inFlight.Some? ==> r.inFlight.value.attempts == r.attempts && r.status == Pending)
  }

  lemma StepKeepsLimit(c: Settings, r: Row, e: Event)
    requires WithinLimit(c, r)
    ensures WithinLimit(c, Step(c, r, e))
    ensures Step(c, r, e).manualRetries == r.manualRetries + if e.ManualRetry? then 1 else 0
  {
  }

  function ManualRetries(events: seq<Event>): nat {
    if events == [] then 0 else (if events[0].ManualRetry? then 1 else 0) + ManualRetries(events[1..])
  }

  lemma {:induction false} RunKeepsLimit(c: Settings, r: Row, events: seq<Event>)
    requires WithinLimit(c, r)
    ensures WithinLimit(c, Run(c, r, events))
    ensures Run(c, r, events).manualRetries == r.manualRetries + ManualRetries(events)
    decreases |events|
  {
    if events != [] {
      StepKeepsLimit(c, r, events[0]);
      RunKeepsLimit(c, Step(c, r, events[0]), events[1..]);
    }
  }

  /**
   * In every run a delivery makes at most maxAttempts attempts, and one more for each manual retry. This needs a limit
   * of at least 1: with WEBHOOK_MAX_ATTEMPTS set between 0 and 1 the limit is floored to 0, and one attempt is made.
   */
  lemma AttemptsBounded(c: Settings, now: int)
    ensures c.maxAttempts >= 1 <==>
      forall events :: Run(c, Enqueued(now), events).attempts <= c.maxAttempts + ManualRetries(events)
  {
    if c.maxAttempts >= 1 {
      forall events
        ensures Run(c, Enqueued(now), events).attempts <= c.maxAttempts + ManualRetries(events)
      {
        RunKeepsLimit(c, Enqueued(now), events);
      }
    } else {
      var first, second := Take(now, true), Finish(Delivered, now, 0);
      var taken := Step(c, Enqueued(now), first);
      var done := Step(c, taken, second);
      assert taken.inFlight == Some(Claim(0, true));
      assert done.attempts == 1;
      RunOfTwo(c, Enqueued(now), first, second);
      assert ManualRetries([first, second]) == 0 by {
        assert [first, second][1..] == [second] && [second][1..] == [];
        assert ManualRetries([second]) == 0;
      }
    }
  }

  lemma RunOfTwo(c: Settings, r: Row, a: Event, b: Event)
    ensures Run(c, r, [a, b]) == Step(c, Step(c, r, a), b)
  {
    assert [a, b][1..] == [b] && [b][1..] == [];
    assert Run(c, r, [a, b]) == Run(c, Step(c, r, a), [b]);
    assert Run(c, Step(c, r, a), [b]) == Run(c, Step(c, Step(c, r, a), b), []);
  }

  // ---------- Every delivery settles ----------

  /** Attempts a pending row can still make before it must settle. */
  function Rank(c: Settings, r: Row): nat {
    if r.status != Pending then 0
    else if r.attempts + 1 < c.maxAttempts then c.maxAttempts - r.attempts
    else 1
  }

  lemma FinishLowersRank(c: Settings, r: Row, e: Event)
    requires WithinLimit(c, r) && !e.ManualRetry?
    ensures Rank(c, Step(c, r, e)) <= Rank(c, r)
    ensures e.Finish? && Enabled(c, r, e) ==> Rank(c, Step(c, r, e)) < Rank(c, r)
  {
  }

  /** Attempts of the run that came to a recorded end. */
  function Finished(c: Settings, r: Row, events: seq<Event>): nat
    decreases |events|
  {
    if events == [] then 0
    else
      var here := if events[0].Finish? && Enabled(c, r, events[0]) then 1 else 0;
      here + Finished(c, Step(c, r, events[0]), events[1..])
  }

  /** From any reachable row, without further manual retries, each recorded attempt brings settling one step nearer. */
  lemma {:induction false} DeliverySettles(c: Settings, r: Row, events: seq<Event>)
    requires WithinLimit(c, r) && ManualRetries(events) == 0
    ensures Rank(c, Run(c, r, events)) + Finished(c, r, events) <= Rank(c, r)
    ensures Finished(c, r, events) >= Rank(c, r) ==> Run(c, r, events).status in {Success, Failed, Skipped}
    decreases |events|
  {
    if events != [] {
      FinishLowersRank(c, r, events[0]);
      StepKeepsLimit(c, r, events[0]);
      DeliverySettles(c, Step(c, r, events[0]), events[1..]);
    }
  }

  // ---------- How long it waits ----------

  function TotalDelay(c: Settings, k: nat): nat {
    if k == 0 then 0 else TotalDelay(c, k - 1) + ExponentialDelay(c, k)
  }

  lemma {:induction false} TotalDelayBound(c: Settings, k: nat)
    ensures TotalDelay(c, k) <= c.initialDelayMs * (Pow2(k) - 1)
    ensures TotalDelay(c, k) <= k * c.maxDelayMs
  {
    if k > 0 {
      TotalDelayBound(c, k - 1);
      Pow2Positive(k - 1);
      NextTerm(c.initialDelayMs, Pow2(k - 1), c.maxDelayMs, k);
    }
  }

  lemma NextTerm(initial: nat, p: nat, cap: nat, k: nat)
    requires p >= 1 && k >= 1
    ensures initial * (p - 1) + initial * p == initial * (2 * p - 1)
    ensures (k - 1) * cap + cap == k * cap
  {
  }

  lemma {:induction false} TotalDelayMonotone(c: Settings, j: nat, k: nat)
    requires j <= k
    ensures TotalDelay(c, j) <= TotalDelay(c, k)
    decreases k
  {
    if j < k {
      TotalDelayMonotone(c, j, k - 1);
    }
  }

  /** While nobody retries by hand, every retry scheduled is the one its attempt number calls for. */
  ghost predicate OnSchedule(c: Settings, r: Row) {
    && WithinLimit(c, r) && r.manualRetries == 0
    && r.scheduled <= Limit(c) - 1
    && (r.status == Pending ==> r.scheduled == r.attempts)
    && TotalDelay(c, r.scheduled) <= r.waited
    && 5 * r.waited <= 6 * TotalDelay(c, r.scheduled)
  }

  lemma StepKeepsSchedule(c: Settings, r: Row, e: Event)
    requires OnSchedule(c, r) && !e.ManualRetry?
    ensures OnSchedule(c, Step(c, r, e))
  {
    StepKeepsLimit(c, r, e);
    if Enabled(c, r, e) && e.Finish? && Step(c, r, e).status == Pending {
      var s := Step(c, r, e);
      assert s.scheduled == r.scheduled + 1 && s.waited == r.waited + ExponentialDelay(c, r.attempts + 1) + e.jitter;
      assert TotalDelay(c, s.scheduled) == TotalDelay(c, r.scheduled) + ExponentialDelay(c, s.scheduled);
    }
  }

  lemma {:induction false} RunKeepsSchedule(c: Settings, r: Row, events: seq<Event>)
    requires OnSchedule(c, r) && ManualRetries(events) == 0
    ensures OnSchedule(c, Run(c, r, events))
    decreases |events|
  {
    if events != [] {
      StepKeepsSchedule(c, r, events[0]);
      RunKeepsSchedule(c, Step(c, r, events[0]), events[1..]);
    }
  }

  /**
   * A delivery nobody retries by hand waits at most 1.2 times the geometric sum, and at most 1.2 times the capped sum.
   */
  lemma TotalWaitBounded(c: Settings, now: int, events: seq<Event>)
    requires c.maxAttempts >= 1 && ManualRetries(events) == 0
    ensures var retries := c.maxAttempts - 1;
      5 * Run(c, Enqueued(now), events).waited
        <= 6 * Min(c.initialDelayMs * (Pow2(retries) - 1), retries * c.maxDelayMs)
  {
    RunKeepsSchedule(c, Enqueued(now), events);
    TotalDelayMonotone(c, Run(c, Enqueued(now), events).scheduled, c.maxAttempts - 1);
    TotalDelayBound(c, c.maxAttempts - 1);
  }
}
