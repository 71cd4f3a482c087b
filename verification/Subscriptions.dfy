/** The hourly scheduler: each due subscription is charged, then moved to its next billing date. */
module Subscriptions {
  import opened Calendar
  import opened Billing

  /** A subscription row, with the times at which it was charged. */
  datatype Subscription = Subscription(nextBillingAt: Instant, interval: Interval, active: bool, charges: seq<Instant>)

  /** One run as one subscription sees it: whether its charge and its row update would succeed. */
  datatype Tick = Tick(now: Instant, charged: bool, updated: bool)

  predicate Due(s: Subscription, now: Instant) {
    s.active && AtMost(s.nextBillingAt, now)
  }

  function AfterTick(s: Subscription, t: Tick): Subscription {
    if !Due(s, t.now) || !t.charged then s
    else s.(charges := s.charges + [t.now],
            nextBillingAt := if t.updated then ComputeNextBillingDate(s.nextBillingAt, s.interval) else s.nextBillingAt)
  }

  function AfterTicks(s: Subscription, ticks: seq<Tick>): Subscription {
    if ticks == [] then s else AfterTick(AfterTicks(s, ticks[..|ticks| - 1]), ticks[|ticks| - 1])
  }

  /** A charge whose row update failed afterwards: the error is logged, the charge stands. */
  predicate LosesUpdate(s: Subscription, t: Tick) {
    Due(s, t.now) && t.charged && !t.updated
  }

  function LostUpdates(s: Subscription, ticks: seq<Tick>): nat {
    if ticks == [] then 0
    else
      var before := ticks[..|ticks| - 1];
      LostUpdates(s, before) + if LosesUpdate(AfterTicks(s, before), ticks[|ticks| - 1]) then 1 else 0
  }

  // ---------- The scheduler ----------

  type Subscriptions = map<string, Subscription>

  /** One hourly run: the time, and the subscriptions whose charge and whose row update succeed in it. */
  datatype HourlyRun = HourlyRun(now: Instant, charged: set<string>, updated: set<string>)

  function TickOf(r: HourlyRun, id: string): Tick {
    Tick(r.now, id in r.charged, id in r.updated)
  }

  /** What a run does to the subscriptions listed. */
  function AfterRunOf(subscriptions: Subscriptions, r: HourlyRun, ids: seq<string>): Subscriptions {
    map id | id in subscriptions :: if id in ids then AfterTick(subscriptions[id], TickOf(r, id)) else subscriptions[id]
  }

  function AfterRun(subscriptions: Subscriptions, r: HourlyRun): Subscriptions {
    map id | id in subscriptions :: AfterTick(subscriptions[id], TickOf(r, id))
  }

  class SubscriptionScheduler {
    const order: seq<string>
    var subscriptions: Subscriptions

    ghost predicate Valid()
      reads this
    {
      && (forall i, j :: 0 <= i < j < |order| ==> order[i] != order[j])
      && (forall id :: id in order <==> id in subscriptions)
    }

    constructor (order: seq<string>, subscriptions: Subscriptions)
      requires forall i, j :: 0 <= i < j < |order| ==> order[i] != order[j]
      requires forall id :: id in order <==> id in subscriptions
      ensures Valid() && this.order == order && this.subscriptions == subscriptions
    {
      this.order, this.subscriptions := order, subscriptions;
    }

    /** A failed charge leaves the row alone, a failed update leaves it due. */
    method Bill(id: string, sub: Subscription, r: HourlyRun)
      requires id in subscriptions && subscriptions[id] == sub
      modifies this
      ensures subscriptions == old(subscriptions)[id := AfterTick(sub, TickOf(r, id))]
    {
      hide ComputeNextBillingDate, AtMost;
      if Due(sub, r.now) && id in r.charged {
        subscriptions := subscriptions[id := sub.(charges := sub.charges + [r.now])];
        if id in r.updated {
          var next := ComputeNextBillingDate(sub.nextBillingAt, sub.interval);
          subscriptions := subscriptions[id := subscriptions[id].(nextBillingAt := next)];
        }
      } else {
        assert subscriptions[id := subscriptions[id]] == subscriptions;
      }
    }

    /** The subscriptions are read once and billed one after the other. */
    method ProcessSubscriptions(r: HourlyRun)
      requires Valid()
      modifies this
      ensures Valid() && subscriptions == AfterRun(old(subscriptions), r)
    {
      hide AfterTick, AfterRunOf;
      ghost var before := subscriptions;
      var found := subscriptions;
      RunOfAll(before, r, order);
      for i := 0 to |order|
        invariant subscriptions == AfterRunOf(before, r, order[..i])
      {
        OneMoreSubscription(before, r, order[..i], order[i]);
        assert order[..i + 1] == order[..i] + [order[i]];
        Bill(order[i], found[order[i]], r);
      }
      assert order[..|order|] == order;
    }
  }

  lemma RunOfAll(subscriptions: Subscriptions, r: HourlyRun, ids: seq<string>)
    requires forall id :: id in ids <==> id in subscriptions
    ensures AfterRunOf(subscriptions, r, []) == subscriptions
    ensures AfterRunOf(subscriptions, r, ids) == AfterRun(subscriptions, r)
    ensures AfterRun(subscriptions, r).Keys == subscriptions.Keys
  {
    hide AfterTick;
  }

  lemma OneMoreSubscription(subscriptions: Subscriptions, r: HourlyRun, ids: seq<string>, id: string)
    requires id in subscriptions && id !in ids
    ensures var current := AfterRunOf(subscriptions, r, ids);
      && id in current && current[id] == subscriptions[id]
      && AfterRunOf(subscriptions, r, ids + [id]) == current[id := AfterTick(subscriptions[id], TickOf(r, id))]
      && current[id := current[id]] == current
  {
    hide AfterTick;
    assert forall x :: x in ids + [id] <==> x in ids || x == id;
  }

  function AfterRuns(subscriptions: Subscriptions, runs: seq<HourlyRun>): Subscriptions {
    if runs == [] then subscriptions else AfterRun(AfterRuns(subscriptions, runs[..|runs| - 1]), runs[|runs| - 1])
  }

  function TicksOf(runs: seq<HourlyRun>, id: string): (ticks: seq<Tick>)
    ensures |ticks| == |runs|
  {
    seq(|runs|, i requires 0 <= i < |runs| => TickOf(runs[i], id))
  }

  /** Each subscription goes its own way through the runs. */
  lemma {:induction false} RunsOfOne(subscriptions: Subscriptions, runs: seq<HourlyRun>, id: string)
    requires id in subscriptions
    ensures id in AfterRuns(subscriptions, runs)
    ensures AfterRuns(subscriptions, runs)[id] == AfterTicks(subscriptions[id], TicksOf(runs, id))
  {
    hide AfterTick;
    if runs != [] {
      var n := |runs| - 1;
      RunsOfOne(subscriptions, runs[..n], id);
      assert TicksOf(runs, id)[..n] == TicksOf(runs[..n], id);
    }
  }

  // ---------- What is charged ----------

  /**
   * What one run does to a subscription: an active one whose billing date has come is charged if its charge succeeds,
   * and moves on by one interval if its update does; any other is left as it is.
   */
  lemma ChargedIffDue(subscriptions: Subscriptions, r: HourlyRun, id: string)
    requires id in subscriptions
    ensures var s, after := subscriptions[id], AfterRun(subscriptions, r)[id];
      var come := s.nextBillingAt.day < r.now.day
                  || (s.nextBillingAt.day == r.now.day && s.nextBillingAt.time <= r.now.time);
      && after.active == s.active && after.interval == s.interval
      && after.charges == (if s.active && come && id in r.charged then s.charges + [r.now] else s.charges)
      && after.nextBillingAt == if s.active && come && id in r.charged && id in r.updated
                                then Nth(s.nextBillingAt, s.interval, 1) else s.nextBillingAt
  {
    hide ComputeNextBillingDate;
    var s := subscriptions[id];
    assert Nth(s.nextBillingAt, s.interval, 1)
        == ComputeNextBillingDate(Nth(s.nextBillingAt, s.interval, 0), s.interval);
    assert Nth(s.nextBillingAt, s.interval, 0) == s.nextBillingAt;
  }

  /** So an inactive subscription is never charged, over any number of runs. */
  lemma {:induction false} InactiveIsNeverCharged(subscriptions: Subscriptions, runs: seq<HourlyRun>, id: string)
    requires id in subscriptions && !subscriptions[id].active
    ensures id in AfterRuns(subscriptions, runs) && AfterRuns(subscriptions, runs)[id] == subscriptions[id]
  {
    hide AfterRun;
    if runs != [] {
      var before := AfterRuns(subscriptions, runs[..|runs| - 1]);
      InactiveIsNeverCharged(subscriptions, runs[..|runs| - 1], id);
      ChargedIffDue(before, runs[|runs| - 1], id);
      KeysStay(before, runs[|runs| - 1]);
    }
  }

  lemma KeysStay(subscriptions: Subscriptions, r: HourlyRun)
    ensures AfterRun(subscriptions, r).Keys == subscriptions.Keys
  {
    hide AfterTick;
  }

  /** The row has moved on once for every charge whose update was not lost. */
  lemma {:induction false} RowFollowsUpdates(s: Subscription, ticks: seq<Tick>)
    requires s.charges == []
    ensures var after, lost := AfterTicks(s, ticks), LostUpdates(s, ticks);
      && lost <= |after.charges| && after.interval == s.interval
      && after.nextBillingAt == Nth(s.nextBillingAt, s.interval, |after.charges| - lost)
  {
    hide ComputeNextBillingDate, AtMost;
    if ticks != [] {
      RowFollowsUpdates(s, ticks[..|ticks| - 1]);
    }
  }

  /** No charge came before its billing date. */
  ghost predicate OnTime(s: Subscription, charges: seq<Instant>) {
    forall k :: 0 <= k < |charges| ==> AtMost(Nth(s.nextBillingAt, s.interval, k), charges[k])
  }

  lemma {:induction false} ChargesOnTime(s: Subscription, ticks: seq<Tick>)
    requires s.charges == [] && LostUpdates(s, ticks) == 0
    ensures OnTime(s, AfterTicks(s, ticks).charges)
  {
    hide ComputeNextBillingDate, AtMost, Nth;
    if ticks != [] {
      ChargesOnTime(s, ticks[..|ticks| - 1]);
      RowFollowsUpdates(s, ticks[..|ticks| - 1]);
    }
  }

  /**
   * Over any number of runs the row stands at its start date advanced once per charge exactly when no update was lost
   * after a charge; and then the k-th charge never came before the k-th billing date.
   */
  lemma BilledOncePerDate(subscriptions: Subscriptions, runs: seq<HourlyRun>, id: string)
    requires id in subscriptions && subscriptions[id].charges == []
    ensures var s, ticks := subscriptions[id], TicksOf(runs, id);
      var after := AfterTicks(s, ticks);
      && id in AfterRuns(subscriptions, runs) && AfterRuns(subscriptions, runs)[id] == after
      && (after.nextBillingAt == Nth(s.nextBillingAt, s.interval, |after.charges|) <==> LostUpdates(s, ticks) == 0)
      && (LostUpdates(s, ticks) == 0 ==> OnTime(s, after.charges))
  {
    var s, ticks := subscriptions[id], TicksOf(runs, id);
    RunsOfOne(subscriptions, runs, id);
    RowOnTrack(s, ticks);
    hide AfterTicks, LostUpdates, Nth, AfterRuns, OnTime, TicksOf;
    if LostUpdates(s, ticks) == 0 {
      ChargesOnTime(s, ticks);
    }
  }

  lemma RowOnTrack(s: Subscription, ticks: seq<Tick>)
    requires s.charges == []
    ensures var after := AfterTicks(s, ticks);
      after.nextBillingAt == Nth(s.nextBillingAt, s.interval, |after.charges|) <==> LostUpdates(s, ticks) == 0
  {
    hide AfterTicks, LostUpdates, Nth, ComputeNextBillingDate, AtMost;
    RowFollowsUpdates(s, ticks);
    var after, lost := AfterTicks(s, ticks), LostUpdates(s, ticks);
    if lost > 0 {
      BillingDatesIncrease(s.nextBillingAt, s.interval, |after.charges| - lost, |after.charges|);
    }
  }

  lemma TwoTicks(s: Subscription, a: Tick, b: Tick)
    ensures AfterTicks(s, [a, b]) == AfterTick(AfterTick(s, a), b)
  {
    hide AfterTick;
    assert [a, b][..1] == [a] && [a][..0] == [];
    assert AfterTicks(s, [a]) == AfterTick(AfterTicks(s, []), a);
  }

  /**
   * What a lost update does: any subscription that is due and charged without its row moving on is charged again by
   * any later run that comes before its second billing date.
   */
  lemma LostUpdateChargesTwice(s: Subscription, now: Instant, later: Instant)
    requires s.charges == [] && Due(s, now) && AtMost(now, later) && !AtMost(Nth(s.nextBillingAt, s.interval, 1), later)
    ensures var after := AfterTicks(s, [Tick(now, true, false), Tick(later, true, true)]);
      after.charges == [now, later] && !OnTime(s, after.charges)
      && after.nextBillingAt == Nth(s.nextBillingAt, s.interval, 1)
  {
    hide ComputeNextBillingDate, AfterTicks;
    TwoTicks(s, Tick(now, true, false), Tick(later, true, true));
    assert AfterTick(s, Tick(now, true, false)) == s.(charges := [now]);
    var after := AfterTicks(s, [Tick(now, true, false), Tick(later, true, true)]);
    assert Nth(s.nextBillingAt, s.interval, 1)
        == ComputeNextBillingDate(Nth(s.nextBillingAt, s.interval, 0), s.interval);
    assert after.charges[1] == later;
  }
}
