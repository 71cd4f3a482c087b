/**
 * Intake of provider webhooks: each request runs one database transaction over the unique index on
 * (provider, event id). Transactions interleave freely; reads see committed rows only, and an insert of a key another
 * transaction holds uncommitted waits for it.
 */
module WebhookIntake {
  import opened JsText
  import opened PaymentStatus

  datatype Provider = PayfastItn | Ozow | Yoco | Paystack | DerivPa

  datatype Key = Key(provider: Provider, eventId: string)

  datatype Reply = Reply(deduplicated: bool, statusChanged: bool) | Thrown

  /** A row the webhooks write, and the status it holds. */
  datatype Row = PaymentRow(reference: string) | PayoutRow(reference: string)

  datatype Value = PaymentIs(status: Status) | PayoutIs(payoutStatus: PayoutStatus)

  datatype Rows = Rows(payments: map<string, Status>, payouts: map<string, PayoutStatus>)

  /** What an event says about a payment or a payout. */
  datatype Report = PaymentReport(reference: string, status: Status)
                  | PayoutReport(reference: string, payoutStatus: PayoutStatus)

  /** How the row is updated: not at all, in its other columns only, or in its status too. */
  datatype Update = NoUpdate | WithoutStatus | WithStatus

  /** What the transaction read of the row, and how it will have updated it if it commits. */
  datatype Decision = Decision(read: Option<Value>, update: Update)

  datatype Phase =
    | Begun
    | NotFound                                         // looked up, no committed row
    | FoundUnprocessed                                 // looked up, a committed row without processedAt
    | Holding                                          // event row inserted
    | Applied(decision: Decision)                      // row read
    | Marked(decision: Decision)                       // row updated, processedAt set, both uncommitted
    | Finished(reply: Reply)

  datatype Tx = Tx(key: Key, report: Report, phase: Phase)

  datatype Commit = Commit(tx: nat, key: Key, report: Report, decision: Decision)

  /** Committed event rows with their processed flag, committed statuses, all requests, all commits in order. */
  datatype State = State(events: map<Key, bool>, rows: Rows, txs: seq<Tx>, log: seq<Commit>)

  datatype Event =
    | Arrive(key: Key, report: Report)
    | LookUp(tx: nat)
    | Insert(tx: nat)
    | Apply(tx: nat)
    | Mark(tx: nat)
    | CommitTx(tx: nat)
    | Abort(tx: nat)

  function Target(report: Report): Row {
    match report
    case PaymentReport(reference, _) => PaymentRow(reference)
    case PayoutReport(reference, _) => PayoutRow(reference)
  }

  function Reported(report: Report): Value {
    match report
    case PaymentReport(_, status) => PaymentIs(status)
    case PayoutReport(_, status) => PayoutIs(status)
  }

  /** Payout reports come from the payout agent and from nobody else. */
  predicate Matches(provider: Provider, report: Report) {
    provider.DerivPa? <==> report.PayoutReport?
  }

  function Read(rows: Rows, row: Row): Option<Value> {
    match row
    case PaymentRow(r) => if r in rows.payments then Some(PaymentIs(rows.payments[r])) else None
    case PayoutRow(r) => if r in rows.payouts then Some(PayoutIs(rows.payouts[r])) else None
  }

  function Write(rows: Rows, report: Report): Rows {
    match report
    case PaymentReport(r, status) => rows.(payments := rows.payments[r := status])
    case PayoutReport(r, status) => rows.(payouts := rows.payouts[r := status])
  }

  /** A payment that has the status already: Yoco and Paystack then leave the column out of the update. */
  predicate SkipsSameStatus(provider: Provider) {
    provider.Yoco? || provider.Paystack?
  }

  function UpdateFor(provider: Provider, read: Option<Value>, reported: Value): Update {
    match (read, reported)
    case (Some(PaymentIs(current)), PaymentIs(next)) =>
      if (current == PAID && next == PAID) || !CanTransition(current, next) then NoUpdate
      else if current == next && SkipsSameStatus(provider) then WithoutStatus
      else WithStatus
    case (Some(PayoutIs(current)), PayoutIs(next)) =>
      if CanTransitionPayout(current, next) then WithStatus else NoUpdate
    case _ => NoUpdate
  }

  /** The handler's decision on the row it found, if it found one. */
  function Decide(key: Key, report: Report, rows: Rows): Decision {
    var read := Read(rows, Target(report));
    Decision(read, UpdateFor(key.provider, read, Reported(report)))
  }

  predicate Changes(d: Decision, report: Report) {
    d.update.WithStatus? && d.read != Some(Reported(report))
  }

  /** The transaction has an uncommitted event row. */
  predicate HoldsRow(t: Tx) {
    t.phase.Holding? || t.phase.Applied? || t.phase.Marked?
  }

  predicate Blocked(s: State, i: nat)
    requires i < |s.txs|
  {
    exists j :: 0 <= j < |s.txs| && j != i && s.txs[j].key == s.txs[i].key && HoldsRow(s.txs[j])
  }

  /** Another transaction has updated the row and not committed: an update waits for it. */
  predicate RowLocked(s: State, i: nat)
    requires i < |s.txs|
  {
    exists j :: 0 <= j < |s.txs| && j != i && Target(s.txs[j].report) == Target(s.txs[i].report) && Updated(s.txs[j])
  }

  predicate Updated(t: Tx) {
    t.phase.Marked? && !t.phase.decision.update.NoUpdate?
  }

  function At(s: State, i: nat, phase: Phase): State
    requires i < |s.txs|
  {
    s.(txs := s.txs[i := s.txs[i].(phase := phase)])
  }

  function Arrived(s: State, t: Tx): State {
    s.(txs := s.txs + [t])
  }

  function Published(s: State, i: nat, d: Decision): State
    requires i < |s.txs|
  {
    var t := s.txs[i];
    At(s, i, Finished(Reply(false, Changes(d, t.report)))).(
      events := s.events[t.key := true],
      rows := if d.update.WithStatus? then Write(s.rows, t.report) else s.rows,
      log := s.log + [Commit(i, t.key, t.report, d)])
  }

  function Step(s: State, e: Event): State {
    match e
    case Arrive(key, report) => if Matches(key.provider, report) then Arrived(s, Tx(key, report, Begun)) else s
    case LookUp(i) =>
      if i >= |s.txs| || !s.txs[i].phase.Begun? then s
      else if s.txs[i].key !in s.events then At(s, i, NotFound)
      else if s.events[s.txs[i].key] then At(s, i, Finished(Reply(true, false)))
      else At(s, i, FoundUnprocessed)
    case Insert(i) =>
      if i >= |s.txs| then s
      else if s.txs[i].phase.FoundUnprocessed? then At(s, i, Holding)
      else if !s.txs[i].phase.NotFound? then s
      else if s.txs[i].key in s.events then At(s, i, Finished(Reply(true, false)))   // unique-constraint error
      else if Blocked(s, i) then s
      else At(s, i, Holding)
    case Apply(i) =>
      if i >= |s.txs| || !s.txs[i].phase.Holding? then s
      else At(s, i, Applied(Decide(s.txs[i].key, s.txs[i].report, s.rows)))
    case Mark(i) =>
      if i >= |s.txs| || !s.txs[i].phase.Applied? then s
      else if !s.txs[i].phase.decision.update.NoUpdate? && RowLocked(s, i) then s
      else At(s, i, Marked(s.txs[i].phase.decision))
    case CommitTx(i) =>
      if i >= |s.txs| || !s.txs[i].phase.Marked? then s
      else Published(s, i, s.txs[i].phase.decision)
    case Abort(i) =>
      if i >= |s.txs| || s.txs[i].phase.Finished? then s
      else At(s, i, Finished(Thrown))
  }

  function Run(s: State, events: seq<Event>): State
    decreases |events|
  {
    if events == [] then s else Run(Step(s, events[0]), events[1..])
  }

  function Initial(rows: Rows): State {
    State(map[], rows, [], [])
  }

  predicate Replied(t: Tx, deduplicated: bool) {
    t.phase.Finished? && t.phase.reply.Reply? && t.phase.reply.deduplicated == deduplicated
  }

  ghost predicate Logged(s: State, i: nat) {
    exists n :: 0 <= n < |s.log| && s.log[n].tx == i
  }

  ghost predicate LoggedKey(s: State, k: Key) {
    exists n :: 0 <= n < |s.log| && s.log[n].key == k
  }

  ghost predicate AfterCommit(s: State, t: Tx)
    requires Replied(t, true)
  {
    t.key in s.events && !t.phase.reply.statusChanged
  }

  ghost predicate Accounted(s: State, c: Commit) {
    && c.tx < |s.txs| && s.txs[c.tx].key == c.key
    && s.txs[c.tx].phase == Finished(Reply(false, Changes(c.decision, c.report)))
  }

  /** Committed rows are always marked; an open key is held by one transaction at most and is not committed yet. */
  ghost predicate RowsInv(s: State) {
    && (forall k :: k in s.events ==> s.events[k])
    && (forall i :: 0 <= i < |s.txs| ==> !s.txs[i].phase.FoundUnprocessed?)
    && (forall i :: 0 <= i < |s.txs| && HoldsRow(s.txs[i]) ==> s.txs[i].key !in s.events)
    && (forall i, j :: 0 <= i < j < |s.txs| && s.txs[i].key == s.txs[j].key ==>
          !HoldsRow(s.txs[i]) || !HoldsRow(s.txs[j]))
  }

  /** One commit a key, and the committed keys are those of the log. */
  ghost predicate LogInv(s: State) {
    && (forall m, n :: 0 <= m < n < |s.log| ==> s.log[m].key != s.log[n].key)
    && (forall k :: k in s.events <==> LoggedKey(s, k))
  }

  /** Every commit was answered as such, and every answer is backed by a commit. */
  ghost predicate ReplyInv(s: State) {
    && (forall n :: 0 <= n < |s.log| ==> Accounted(s, s.log[n]))
    && (forall i :: 0 <= i < |s.txs| && Replied(s.txs[i], false) ==> Logged(s, i))
    && (forall i :: 0 <= i < |s.txs| && Replied(s.txs[i], true) ==> AfterCommit(s, s.txs[i]))
  }

  ghost predicate Inv(s: State) {
    RowsInv(s) && LogInv(s) && ReplyInv(s)
  }

  /** A phase a transaction may move to without committing. */
  ghost predicate Admissible(s: State, i: nat, phase: Phase)
    requires i < |s.txs|
  {
    && !s.txs[i].phase.Finished? && !phase.FoundUnprocessed?
    && ((HoldsRow(s.txs[i].(phase := phase)) && !HoldsRow(s.txs[i])) ==> (s.txs[i].key !in s.events && !Blocked(s, i)))
    && (phase.Finished? ==> (phase.reply.Thrown? || (phase.reply == Reply(true, false) && s.txs[i].key in s.events)))
  }

  lemma AtKeepsRows(s: State, i: nat, phase: Phase)
    requires i < |s.txs| && RowsInv(s) && Admissible(s, i, phase)
    ensures RowsInv(At(s, i, phase))
  {
  }

  lemma AtKeepsReplies(s: State, i: nat, phase: Phase)
    requires i < |s.txs| && ReplyInv(s) && Admissible(s, i, phase)
    ensures ReplyInv(At(s, i, phase))
  {
    var t := At(s, i, phase);
    forall n | 0 <= n < |t.log|
      ensures Accounted(t, t.log[n])
    {
      assert Accounted(s, s.log[n]);
    }
    forall j | 0 <= j < |t.txs| && Replied(t.txs[j], false)
      ensures Logged(t, j)
    {
      assert Logged(s, j);
    }
  }

  lemma SameLogKeepsLog(s: State, t: State)
    requires LogInv(s) && t.log == s.log && t.events == s.events
    ensures LogInv(t)
  {
    assert forall k :: LoggedKey(s, k) <==> LoggedKey(t, k);
  }

  lemma AtKeepsInv(s: State, i: nat, phase: Phase)
    requires i < |s.txs| && Inv(s) && Admissible(s, i, phase)
    ensures Inv(At(s, i, phase))
  {
    hide RowsInv, LogInv, ReplyInv, Admissible;
    AtKeepsRows(s, i, phase);
    AtKeepsReplies(s, i, phase);
    SameLogKeepsLog(s, At(s, i, phase));
  }

  lemma PublishKeepsRows(s: State, i: nat)
    requires RowsInv(s) && i < |s.txs| && s.txs[i].phase.Marked?
    ensures RowsInv(Published(s, i, s.txs[i].phase.decision))
  {
  }

  lemma PublishKeepsLog(s: State, i: nat)
    requires RowsInv(s) && LogInv(s) && i < |s.txs| && s.txs[i].phase.Marked?
    ensures LogInv(Published(s, i, s.txs[i].phase.decision))
  {
    var t := Published(s, i, s.txs[i].phase.decision);
    var c := t.log[|s.log|];
    assert !LoggedKey(s, c.key);
    forall k
      ensures k in t.events <==> LoggedKey(t, k)
    {
      if n :| 0 <= n < |s.log| && s.log[n].key == k {
        assert t.log[n].key == k;
      }
      assert t.log[|s.log|].key == c.key;
      assert LoggedKey(t, k) ==> k == c.key || LoggedKey(s, k);
    }
  }

  lemma PublishKeepsReplies(s: State, i: nat)
    requires ReplyInv(s) && i < |s.txs| && s.txs[i].phase.Marked?
    ensures ReplyInv(Published(s, i, s.txs[i].phase.decision))
  {
    var t := Published(s, i, s.txs[i].phase.decision);
    forall n | 0 <= n < |t.log|
      ensures Accounted(t, t.log[n])
    {
      assert n < |s.log| ==> Accounted(s, s.log[n]);
    }
    forall j | 0 <= j < |t.txs| && Replied(t.txs[j], false)
      ensures Logged(t, j)
    {
      if j == i {
        assert t.log[|s.log|].tx == i;
      } else {
        assert Logged(s, j);
        var n :| 0 <= n < |s.log| && s.log[n].tx == j;
        assert t.log[n].tx == j;
      }
    }
  }

  lemma PublishKeepsInv(s: State, i: nat)
    requires Inv(s) && i < |s.txs| && s.txs[i].phase.Marked?
    ensures Inv(Published(s, i, s.txs[i].phase.decision))
  {
    hide RowsInv, LogInv, ReplyInv, Published;
    PublishKeepsRows(s, i);
    PublishKeepsLog(s, i);
    PublishKeepsReplies(s, i);
  }

  lemma ArriveKeepsInv(s: State, tx: Tx)
    requires Inv(s) && tx.phase.Begun?
    ensures Inv(Arrived(s, tx))
  {
    var t := Arrived(s, tx);
    assert RowsInv(t);
    SameLogKeepsLog(s, t);
    assert ReplyInv(t) by {
      hide RowsInv, LogInv;
      forall n | 0 <= n < |t.log|
        ensures Accounted(t, t.log[n])
      {
        assert Accounted(s, s.log[n]);
      }
      forall j | 0 <= j < |t.txs| && Replied(t.txs[j], false)
        ensures Logged(t, j)
      {
        assert Logged(s, j);
      }
    }
  }

  /** What the steps need to know of the invariant. */
  lemma InvFacts(s: State, i: nat)
    requires Inv(s) && i < |s.txs|
    ensures s.txs[i].key in s.events ==> s.events[s.txs[i].key]
    ensures !s.txs[i].phase.FoundUnprocessed?
  {
  }

  lemma StepIsAdmissible(s: State, e: Event)
    requires Inv(s) && !e.Arrive? && !e.CommitTx? && Step(s, e) != s
    ensures e.tx < |s.txs| && e.tx < |Step(s, e).txs|
    ensures Step(s, e) == At(s, e.tx, Step(s, e).txs[e.tx].phase)
    ensures Admissible(s, e.tx, Step(s, e).txs[e.tx].phase)
  {
    InvFacts(s, e.tx);
    hide Inv;
  }

  lemma StepKeepsInv(s: State, e: Event)
    requires Inv(s)
    ensures Inv(Step(s, e))
  {
    hide Inv;
    if Step(s, e) != s {
      if e.Arrive? {
        ArriveKeepsInv(s, Tx(e.key, e.report, Begun));
      } else if e.CommitTx? {
        PublishKeepsInv(s, e.tx);
      } else {
        StepIsAdmissible(s, e);
        hide Step;
        AtKeepsInv(s, e.tx, Step(s, e).txs[e.tx].phase);
      }
    }
  }

  lemma {:induction false} RunKeepsInv(s: State, events: seq<Event>)
    requires Inv(s)
    ensures Inv(Run(s, events))
    decreases |events|
  {
    if events != [] {
      StepKeepsInv(s, events[0]);
      RunKeepsInv(Step(s, events[0]), events[1..]);
    }
  }

  /** Each event id commits once at most, with processedAt set; the branch for an unprocessed row is never taken. */
  lemma CommitsAtMostOnce(rows: Rows, events: seq<Event>)
    ensures var s := Run(Initial(rows), events);
      && (forall m, n :: 0 <= m < n < |s.log| ==> s.log[m].key != s.log[n].key)
      && (forall k :: k in s.events ==> s.events[k])
      && (forall i :: 0 <= i < |s.txs| ==> !s.txs[i].phase.FoundUnprocessed?)
  {
    RunKeepsInv(Initial(rows), events);
  }

  /**
   * Of all deliveries of one event id at most one is answered as new; every other one that is answered reports a
   * duplicate and no change, and such an answer is only given once the event is committed.
   */
  lemma OneDeliveryIsNew(rows: Rows, events: seq<Event>, i: nat, j: nat)
    requires var s := Run(Initial(rows), events);
      i < |s.txs| && j < |s.txs| && i != j && s.txs[i].key == s.txs[j].key
    ensures var s := Run(Initial(rows), events);
      && !(Replied(s.txs[i], false) && Replied(s.txs[j], false))
      && (Replied(s.txs[i], true) ==> s.txs[i].key in s.events && !s.txs[i].phase.reply.statusChanged)
  {
    var s := Run(Initial(rows), events);
    RunKeepsInv(Initial(rows), events);
    LoggedOnce(s, i, j);
  }

  lemma LoggedOnce(s: State, i: nat, j: nat)
    requires Inv(s) && i < |s.txs| && j < |s.txs| && i != j && s.txs[i].key == s.txs[j].key
    ensures !Logged(s, i) || !Logged(s, j)
  {
    forall m, n | 0 <= m < |s.log| && 0 <= n < |s.log| && s.log[m].tx == i
      ensures s.log[n].tx != j
    {
      assert Accounted(s, s.log[m]) && Accounted(s, s.log[n]);
    }
  }

  // ---------- The writes ----------

  /** The event is a step of some delivery of the key. */
  predicate ActsFor(s: State, e: Event, k: Key) {
    !e.Arrive? && e.tx < |s.txs| && s.txs[e.tx].key == k
  }

  /** How many steps of a run change a status on behalf of a key, over all deliveries of it. */
  function ChangesFor(s: State, events: seq<Event>, k: Key): nat
    decreases |events|
  {
    if events == [] then 0
    else
      var t := Step(s, events[0]);
      (if ActsFor(s, events[0], k) && t.rows != s.rows then 1 else 0) + ChangesFor(t, events[1..], k)
  }

  /** What the rows come to when the writes of the log are made one after another. */
  function Replay(rows: Rows, log: seq<Commit>): Rows {
    if log == [] then rows
    else
      var before, c := Replay(rows, log[..|log| - 1]), log[|log| - 1];
      if c.decision.update.WithStatus? then Write(before, c.report) else before
  }

  lemma StepWrites(s: State, e: Event, k: Key)
    requires Inv(s)
    ensures k in s.events ==> k in Step(s, e).events
    ensures ActsFor(s, e, k) && Step(s, e).rows != s.rows ==> k !in s.events && k in Step(s, e).events
  {
    hide LogInv, ReplyInv, Write;
  }

  lemma {:induction false} RunWrites(s: State, events: seq<Event>, k: Key)
    requires Inv(s)
    ensures ChangesFor(s, events, k) <= if k !in s.events && k in Run(s, events).events then 1 else 0
    ensures k in s.events ==> k in Run(s, events).events
    decreases |events|
  {
    hide Inv, Step, ActsFor;
    if events != [] {
      StepWrites(s, events[0], k);
      StepKeepsInv(s, events[0]);
      RunWrites(Step(s, events[0]), events[1..], k);
    }
  }

  lemma PublishedFollowsTheLog(rows: Rows, s: State, i: nat, d: Decision)
    requires i < |s.txs| && s.rows == Replay(rows, s.log)
    ensures Published(s, i, d).rows == Replay(rows, Published(s, i, d).log)
  {
    hide Write, Changes;
    var log := Published(s, i, d).log;
    assert log[..|log| - 1] == s.log;
  }

  lemma StepFollowsTheLog(rows: Rows, s: State, e: Event)
    requires s.rows == Replay(rows, s.log)
    ensures Step(s, e).rows == Replay(rows, Step(s, e).log)
  {
    hide Replay, Published, Decide, Blocked, RowLocked;
    if e.CommitTx? && Step(s, e) != s {
      PublishedFollowsTheLog(rows, s, e.tx, s.txs[e.tx].phase.decision);
    }
  }

  lemma {:induction false} RowsFollowTheLog(rows: Rows, s: State, events: seq<Event>)
    requires s.rows == Replay(rows, s.log)
    ensures Run(s, events).rows == Replay(rows, Run(s, events).log)
    decreases |events|
  {
    hide Replay, Step;
    if events != [] {
      StepFollowsTheLog(rows, s, events[0]);
      RowsFollowTheLog(rows, Step(s, events[0]), events[1..]);
    }
  }

  /**
   * No event counts twice: however often it is delivered and however the deliveries interleave, one step at most
   * changes a status on its behalf, none if no delivery committed; the statuses are those of the committed events, in
   * their order, no two of which are the same event.
   */
  lemma EachEventWritesOnce(rows: Rows, events: seq<Event>, k: Key)
    ensures var s := Run(Initial(rows), events);
      && ChangesFor(Initial(rows), events, k) <= (if k in s.events then 1 else 0)
      && s.rows == Replay(rows, s.log)
      && (forall m, n :: 0 <= m < n < |s.log| ==> s.log[m].key != s.log[n].key)
      && (k in s.events <==> LoggedKey(s, k))
  {
    RunWrites(Initial(rows), events, k);
    RowsFollowTheLog(rows, Initial(rows), events);
    RunKeepsInv(Initial(rows), events);
    hide Run, ChangesFor, Replay, RowsInv, ReplyInv;
  }

  // ---------- Statuses that are lost ----------

  /** What a transaction decided was decided on what it read. */
  ghost predicate Decided(s: State) {
    forall i :: 0 <= i < |s.txs| && Deciding(s.txs[i]) ==>
      var d, t := s.txs[i].phase.decision, s.txs[i];
      d.update == UpdateFor(t.key.provider, d.read, Reported(t.report))
  }

  /** Between reading the row and committing. */
  predicate Deciding(t: Tx) {
    t.phase.Applied? || t.phase.Marked?
  }

  lemma StepKeepsDecided(s: State, e: Event)
    requires Decided(s)
    ensures Decided(Step(s, e))
  {
    hide UpdateFor, Read;
    if !e.Arrive? && Step(s, e) != s {
      assert forall i :: 0 <= i < |s.txs| && i != e.tx ==> Step(s, e).txs[i] == s.txs[i];
    }
  }

  lemma {:induction false} RunKeepsDecided(s: State, events: seq<Event>)
    requires Decided(s)
    ensures Decided(Run(s, events))
    decreases |events|
  {
    hide Decided, Step;
    if events != [] {
      StepKeepsDecided(s, events[0]);
      RunKeepsDecided(Step(s, events[0]), events[1..]);
    }
  }

  /**
   * The index orders deliveries of one event only. Exactly when a commit changes a payment's status: its transaction
   * had read a status that admits what was reported, and that is another than the payment has by then. A success that
   * had been read already is not written again, nor is any other status by Yoco and Paystack. So PAID, or any other
   * settled status, is lost only by a read that has become stale.
   */
  lemma PaidLostOnlyByStaleRead(rows: Rows, events: seq<Event>, i: nat, current: Status)
    requires var s := Run(Initial(rows), events);
      && i < |s.txs| && s.txs[i].phase.Marked? && s.txs[i].report.PaymentReport?
      && Read(s.rows, Target(s.txs[i].report)) == Some(PaymentIs(current))
    ensures var s := Run(Initial(rows), events);
      var t := s.txs[i];
      var next := t.report.status;
      Read(Step(s, CommitTx(i)).rows, Target(t.report)) != Some(PaymentIs(current))
      <==> match t.phase.decision.read
           case Some(PaymentIs(read)) =>
             next != current && CanTransition(read, next)
             && (read == next ==> next != PAID && t.key.provider != Yoco && t.key.provider != Paystack)
           case _ => false
  {
    RunKeepsDecided(Initial(rows), events);
    hide Run, CanTransition;
  }

  /** Payouts likewise: a commit changes a payout exactly when the status it read admits the one reported. */
  lemma PayoutLostOnlyByStaleRead(rows: Rows, events: seq<Event>, i: nat, current: PayoutStatus)
    requires var s := Run(Initial(rows), events);
      && i < |s.txs| && s.txs[i].phase.Marked? && s.txs[i].report.PayoutReport?
      && Read(s.rows, Target(s.txs[i].report)) == Some(PayoutIs(current))
    ensures var s := Run(Initial(rows), events);
      var t := s.txs[i];
      var next := t.report.payoutStatus;
      Read(Step(s, CommitTx(i)).rows, Target(t.report)) != Some(PayoutIs(current))
      <==> match t.phase.decision.read
           case Some(PayoutIs(read)) => next != current && CanTransitionPayout(read, next)
           case _ => false
  {
    RunKeepsDecided(Initial(rows), events);
    hide Run, CanTransitionPayout;
  }

  // ---------- Runs in which transactions on one row do not overlap ----------

  /** No transaction reads a row while another one has read it and neither committed nor aborted. */
  ghost predicate Serial(s: State, e: Event) {
    e.Apply? && e.tx < |s.txs| && s.txs[e.tx].phase.Holding? ==>
      forall j :: 0 <= j < |s.txs| && Deciding(s.txs[j]) ==> Target(s.txs[j].report) != Target(s.txs[e.tx].report)
  }

  ghost predicate SerialRun(s: State, events: seq<Event>)
    decreases |events|
  {
    events == [] || (Serial(s, events[0]) && SerialRun(Step(s, events[0]), events[1..]))
  }

  /** Every open decision is up to date, and no two are about one row. */
  ghost predicate UpToDate(s: State) {
    && (forall i :: 0 <= i < |s.txs| && Deciding(s.txs[i]) ==>
          s.txs[i].phase.decision == Decide(s.txs[i].key, s.txs[i].report, s.rows))
    && (forall i, j :: 0 <= i < j < |s.txs| && Deciding(s.txs[i]) && Deciding(s.txs[j]) ==>
          Target(s.txs[i].report) != Target(s.txs[j].report))
  }

  lemma MoveKeepsUpToDate(s: State, i: nat, phase: Phase)
    requires UpToDate(s) && i < |s.txs|
    requires phase.Applied? ==> phase.decision == Decide(s.txs[i].key, s.txs[i].report, s.rows)
    requires phase.Applied? ==>
      forall j :: 0 <= j < |s.txs| && Deciding(s.txs[j]) ==> Target(s.txs[j].report) != Target(s.txs[i].report)
    requires phase.Marked? ==> s.txs[i].phase == Applied(phase.decision)
    ensures UpToDate(At(s, i, phase))
  {
    hide Decide, Target;
  }

  lemma OtherRowsDecideAlike(rows: Rows, written: Report, key: Key, report: Report)
    requires Target(report) != Target(written)
    ensures Decide(key, report, Write(rows, written)) == Decide(key, report, rows)
  {
    hide UpdateFor;
  }

  lemma CommitKeepsUpToDate(s: State, i: nat)
    requires UpToDate(s) && i < |s.txs| && s.txs[i].phase.Marked?
    ensures UpToDate(Published(s, i, s.txs[i].phase.decision))
  {
    hide Decide, Target, Write;
    var t := Published(s, i, s.txs[i].phase.decision);
    forall j | 0 <= j < |t.txs| && Deciding(t.txs[j])
      ensures t.txs[j].phase.decision == Decide(t.txs[j].key, t.txs[j].report, t.rows)
    {
      OtherRowsDecideAlike(s.rows, s.txs[i].report, s.txs[j].key, s.txs[j].report);
    }
  }

  lemma StepKeepsUpToDate(s: State, e: Event)
    requires UpToDate(s) && Serial(s, e)
    ensures UpToDate(Step(s, e))
  {
    if Step(s, e) != s && !e.Arrive? {
      hide UpToDate, Published, Decide, RowLocked;
      if e.CommitTx? {
        CommitKeepsUpToDate(s, e.tx);
      } else {
        MoveKeepsUpToDate(s, e.tx, Step(s, e).txs[e.tx].phase);
      }
    }
  }

  /** A status that admits no other. */
  predicate Settled(v: Value) {
    match v
    case PaymentIs(status) => status in {PAID, FAILED, CANCELLED, REFUNDED}
    case PayoutIs(status) => status in {PayoutSuccess, PayoutFailed}
  }

  ghost predicate SettledAt(s: State, row: Row, v: Value) {
    Settled(v) && Read(s.rows, row) == Some(v)
  }

  lemma SettledAdmitsNoOther(key: Key, report: Report, rows: Rows, row: Row, v: Value)
    requires Settled(v) && Read(rows, row) == Some(v)
    requires Decide(key, report, rows).update.WithStatus?
    ensures Read(Write(rows, report), row) == Some(v)
  {
  }

  /** An up-to-date commit leaves a settled status alone. */
  lemma StepKeepsSettled(s: State, e: Event, row: Row, v: Value)
    requires UpToDate(s) && SettledAt(s, row, v)
    ensures SettledAt(Step(s, e), row, v)
  {
    hide Settled, Decide, Read, Write;
    if e.CommitTx? && Step(s, e).rows != s.rows {
      SettledAdmitsNoOther(s.txs[e.tx].key, s.txs[e.tx].report, s.rows, row, v);
    }
  }

  lemma {:induction false} SettledStaysWhenSerial(s: State, events: seq<Event>, row: Row, v: Value)
    requires UpToDate(s) && SerialRun(s, events) && SettledAt(s, row, v)
    ensures SettledAt(Run(s, events), row, v)
    decreases |events|
  {
    hide UpToDate, Step, SettledAt, Serial;
    if events != [] {
      StepKeepsUpToDate(s, events[0]);
      StepKeepsSettled(s, events[0], row, v);
      SettledStaysWhenSerial(Step(s, events[0]), events[1..], row, v);
    }
  }

  lemma {:induction false} RunKeepsUpToDate(s: State, events: seq<Event>)
    requires UpToDate(s) && SerialRun(s, events)
    ensures UpToDate(Run(s, events))
    decreases |events|
  {
    hide UpToDate, Step, Serial;
    if events != [] {
      StepKeepsUpToDate(s, events[0]);
      RunKeepsUpToDate(Step(s, events[0]), events[1..]);
    }
  }

  lemma {:induction false} SerialParts(s: State, before: seq<Event>, after: seq<Event>)
    requires SerialRun(s, before + after)
    ensures SerialRun(s, before) && SerialRun(Run(s, before), after)
    ensures Run(s, before + after) == Run(Run(s, before), after)
    decreases |before|
  {
    hide Step, Serial;
    if before == [] {
      assert before + after == after;
    } else {
      assert (before + after)[1..] == before[1..] + after;
      SerialParts(Step(s, before[0]), before[1..], after);
    }
  }

  /**
   * From the beginning: once some prefix of a serial run has settled a payment or a payout, the rest leaves it as it
   * is, whatever the events and however many are delivered twice.
   */
  lemma SettledIsFinalInSerialRuns(rows: Rows, before: seq<Event>, after: seq<Event>, row: Row, v: Value)
    requires SerialRun(Initial(rows), before + after)
    requires Settled(v) && Read(Run(Initial(rows), before).rows, row) == Some(v)
    ensures Read(Run(Initial(rows), before + after).rows, row) == Some(v)
  {
    SerialParts(Initial(rows), before, after);
    RunKeepsUpToDate(Initial(rows), before);
    hide Run, SerialRun, UpToDate, Read, Settled;
    SettledStaysWhenSerial(Run(Initial(rows), before), after, row, v);
  }

  // ---------- A delivery that nobody stands in the way of ----------

  /** The delivery on its way, the last of all, when nothing else moves. */
  function Delivered(s: State, t: Tx, phase: Phase): State {
    s.(txs := s.txs + [t.(phase := phase)])
  }

  /** No transaction holds the event's row or has the reported row locked. */
  ghost predicate Unopposed(s: State, t: Tx) {
    forall u :: u in s.txs ==>
      (HoldsRow(u) ==> u.key != t.key) && (Updated(u) ==> Target(u.report) != Target(t.report))
  }

  lemma NotInTheWay(s: State, t: Tx, phase: Phase)
    requires Unopposed(s, t)
    ensures !Blocked(Delivered(s, t, phase), |s.txs|) && !RowLocked(Delivered(s, t, phase), |s.txs|)
  {
    var d := Delivered(s, t, phase);
    forall j | 0 <= j < |d.txs| && j != |s.txs|
      ensures !(d.txs[j].key == t.key && HoldsRow(d.txs[j]))
      ensures !(Target(d.txs[j].report) == Target(t.report) && Updated(d.txs[j]))
    {
      assert d.txs[j] in s.txs;
    }
  }

  lemma DeliveredMoves(s: State, t: Tx, a: Phase, b: Phase)
    ensures At(Delivered(s, t, a), |s.txs|, b) == Delivered(s, t, b)
  {
  }

  /** Where the report leads: a forward move that is no refund, or the same status once more. */
  predicate Moves(current: Value, next: Value) {
    match (current, next)
    case (PaymentIs(p), PaymentIs(q)) => p == q || (Stage(p) < Stage(q) && q != REFUNDED)
    case (PayoutIs(p), PayoutIs(q)) => p == q || PayoutStage(q) == PayoutStage(p) + 1
    case _ => false
  }

  lemma DecidedByMoves(t: Tx, rows: Rows)
    ensures var d, read := Decide(t.key, t.report, rows), Read(rows, Target(t.report));
      && d.read == read
      && (d.update.WithStatus? ==> read.Some? && Moves(read.value, Reported(t.report)))
      && (!d.update.WithStatus? && read.Some? && Moves(read.value, Reported(t.report)) ==>
            read.value == Reported(t.report))
  {
    if t.report.PaymentReport? && t.report.reference in rows.payments {
      AdmittedIff(rows.payments[t.report.reference], t.report.status);
    }
    if t.report.PayoutReport? && t.report.reference in rows.payouts {
      PayoutAdmittedIff(rows.payouts[t.report.reference], t.report.payoutStatus);
    }
    hide CanTransition, CanTransitionPayout;
  }

  lemma DeliveredSteps(s: State, t: Tx)
    requires t.phase.Begun? && Matches(t.key.provider, t.report) && t.key !in s.events && Unopposed(s, t)
    ensures var n, d := |s.txs|, Decide(t.key, t.report, s.rows);
      && Step(s, Arrive(t.key, t.report)) == Delivered(s, t, Begun)
      && Step(Delivered(s, t, Begun), LookUp(n)) == Delivered(s, t, NotFound)
      && Step(Delivered(s, t, NotFound), Insert(n)) == Delivered(s, t, Holding)
      && Step(Delivered(s, t, Holding), Apply(n)) == Delivered(s, t, Applied(d))
      && Step(Delivered(s, t, Applied(d)), Mark(n)) == Delivered(s, t, Marked(d))
      && Step(Delivered(s, t, Marked(d)), CommitTx(n)) == Published(Delivered(s, t, Marked(d)), n, d)
  {
    var d := Decide(t.key, t.report, s.rows);
    NotInTheWay(s, t, NotFound);
    NotInTheWay(s, t, Applied(d));
    hide Unopposed, Blocked, RowLocked, Decide, Matches;
    DeliveredMoves(s, t, Begun, NotFound);
    DeliveredMoves(s, t, NotFound, Holding);
    DeliveredMoves(s, t, Holding, Applied(d));
    DeliveredMoves(s, t, Applied(d), Marked(d));
  }

  lemma RunOfSix(s: State, a: Event, b: Event, c: Event, d: Event, e: Event, f: Event)
    ensures Run(s, [a, b] + ([c, d] + ([e, f] + []))) == Step(Step(Step(Step(Step(Step(s, a), b), c), d), e), f)
  {
    hide Step;
    RunOfTwo(s, a, b, [c, d] + ([e, f] + []));
    RunOfTwo(Step(Step(s, a), b), c, d, [e, f] + []);
    RunOfTwo(Step(Step(Step(Step(s, a), b), c), d), e, f, []);
  }

  function AllSix(t: Tx, n: nat): seq<Event> {
    [Arrive(t.key, t.report), LookUp(n)] + ([Insert(n), Apply(n)] + ([Mark(n), CommitTx(n)] + []))
  }

  /**
   * A new event that nobody stands in the way of is answered as new and commits: the row has the reported status if
   * there is one and its status admits it, and is left as it is otherwise; the answer says whether it has changed.
   */
  lemma NewEventIsApplied(s: State, t: Tx)
    requires t.phase.Begun? && Matches(t.key.provider, t.report) && t.key !in s.events && Unopposed(s, t)
    ensures var n, after, read := |s.txs|, Run(s, AllSix(t, |s.txs|)), Read(s.rows, Target(t.report));
      && after.rows == (if read.Some? && Moves(read.value, Reported(t.report)) then Write(s.rows, t.report) else s.rows)
      && after.events == s.events[t.key := true]
      && after.txs == s.txs + [t.(phase := Finished(Reply(false, after.rows != s.rows)))]
  {
    var n, d := |s.txs|, Decide(t.key, t.report, s.rows);
    RunOfSix(s, Arrive(t.key, t.report), LookUp(n), Insert(n), Apply(n), Mark(n), CommitTx(n));
    DeliveredSteps(s, t);
    DecidedByMoves(t, s.rows);
    SameWriteSameRows(s.rows, t.report);
    hide Run, Step, Decide, Moves, Unopposed, Read, Write, Matches;
    assert Run(s, AllSix(t, n)) == Published(Delivered(s, t, Marked(d)), n, d);
    var reply := Finished(Reply(false, Changes(d, t.report)));
    assert Delivered(s, t, Marked(d)).txs[n := t.(phase := reply)] == s.txs + [t.(phase := reply)];
  }

  lemma SameWriteSameRows(rows: Rows, report: Report)
    ensures Write(rows, report) == rows <==> Read(rows, Target(report)) == Some(Reported(report))
  {
    match report
    case PaymentReport(r, status) =>
      assert rows.payments[r := status] == rows.payments ==> r in rows.payments && rows.payments[r] == status by {
        assert r in rows.payments[r := status] && rows.payments[r := status][r] == status;
      }
    case PayoutReport(r, status) =>
      assert rows.payouts[r := status] == rows.payouts ==> r in rows.payouts && rows.payouts[r] == status by {
        assert r in rows.payouts[r := status] && rows.payouts[r := status][r] == status;
      }
  }

  /** An event that has committed before is answered as a duplicate at once. */
  lemma KnownEventIsDuplicate(s: State, t: Tx)
    requires t.phase.Begun? && Matches(t.key.provider, t.report) && t.key in s.events && s.events[t.key]
    ensures Run(s, [Arrive(t.key, t.report), LookUp(|s.txs|)] + [])
         == s.(txs := s.txs + [t.(phase := Finished(Reply(true, false)))])
  {
    RunOfTwo(s, Arrive(t.key, t.report), LookUp(|s.txs|), []);
    DeliveredMoves(s, t, Begun, Finished(Reply(true, false)));
    assert Step(s, Arrive(t.key, t.report)) == Delivered(s, t, Begun);
    hide Matches;
  }

  /** A delivery that fails leaves no trace but its answer; nothing it did before was visible to others. */
  lemma AbortLeavesNoTrace(s: State, i: nat)
    requires i < |s.txs| && !s.txs[i].phase.Finished?
    ensures var t := Step(s, Abort(i));
      && t.events == s.events && t.rows == s.rows && t.log == s.log
      && t.txs == s.txs[i := s.txs[i].(phase := Finished(Thrown))]
  {
  }

  /** No two transactions have updated the same row without having committed. */
  ghost predicate OneUpdateARow(s: State) {
    forall i, j :: 0 <= i < |s.txs| && 0 <= j < |s.txs| && i != j && Updated(s.txs[i]) && Updated(s.txs[j]) ==>
      Target(s.txs[i].report) != Target(s.txs[j].report)
  }

  lemma StepKeepsOneUpdate(s: State, e: Event)
    requires OneUpdateARow(s)
    ensures OneUpdateARow(Step(s, e))
  {
    hide Decide, Target, Blocked, Read, Write;
    if !e.Arrive? && Step(s, e) != s {
      assert forall i :: 0 <= i < |s.txs| && i != e.tx ==> Step(s, e).txs[i] == s.txs[i];
    }
  }

  /** In every interleaving: the updates of a row follow one another, each committed or undone before the next. */
  lemma {:induction false} RowsAreUpdatedInTurn(s: State, events: seq<Event>)
    requires OneUpdateARow(s)
    ensures OneUpdateARow(Run(s, events))
    decreases |events|
  {
    hide OneUpdateARow, Step;
    if events != [] {
      StepKeepsOneUpdate(s, events[0]);
      RowsAreUpdatedInTurn(Step(s, events[0]), events[1..]);
    }
  }

  // ---------- Two transactions that overlap ----------

  /** Both deliveries in hand, nothing committed. */
  function Both(rows: Rows, a: Tx, b: Tx, p: Phase, q: Phase): State {
    State(map[], rows, [a.(phase := p), b.(phase := q)], [])
  }

  /** Both read the row before the first one commits. */
  function FirstCommits(a: Tx, b: Tx): seq<Event> {
    [Arrive(a.key, a.report), Arrive(b.key, b.report)] + ([LookUp(0), LookUp(1)] + ([Insert(0), Insert(1)]
    + ([Apply(0), Apply(1)] + ([Mark(0), CommitTx(0)] + []))))
  }

  lemma RunOfTwo(s: State, a: Event, b: Event, rest: seq<Event>)
    ensures Run(s, [a, b] + rest) == Run(Step(Step(s, a), b), rest)
  {
    hide Step;
    assert ([a, b] + rest)[1..] == [b] + rest;
    assert ([b] + rest)[1..] == rest;
    assert Run(s, [a, b] + rest) == Run(Step(s, a), [b] + rest);
  }

  lemma BothHold(rows: Rows, a: Tx, b: Tx, rest: seq<Event>)
    requires a.key != b.key
    ensures Run(Both(rows, a, b, Begun, Begun), [LookUp(0), LookUp(1)] + ([Insert(0), Insert(1)] + rest))
         == Run(Both(rows, a, b, Holding, Holding), rest)
  {
    RunOfTwo(Both(rows, a, b, Begun, Begun), LookUp(0), LookUp(1), [Insert(0), Insert(1)] + rest);
    RunOfTwo(Both(rows, a, b, NotFound, NotFound), Insert(0), Insert(1), rest);
    hide Run;
    assert Step(Both(rows, a, b, Begun, Begun), LookUp(0)) == Both(rows, a, b, NotFound, Begun);
    assert Step(Both(rows, a, b, NotFound, Begun), LookUp(1)) == Both(rows, a, b, NotFound, NotFound);
    assert Step(Both(rows, a, b, NotFound, NotFound), Insert(0)) == Both(rows, a, b, Holding, NotFound);
    assert Step(Both(rows, a, b, Holding, NotFound), Insert(1)) == Both(rows, a, b, Holding, Holding);
  }

  lemma BothApply(rows: Rows, a: Tx, b: Tx)
    ensures var c, d := Decide(a.key, a.report, rows), Decide(b.key, b.report, rows);
      && Step(Both(rows, a, b, Holding, Holding), Apply(0)) == Both(rows, a, b, Applied(c), Holding)
      && Step(Both(rows, a, b, Applied(c), Holding), Apply(1)) == Both(rows, a, b, Applied(c), Applied(d))
      && Step(Both(rows, a, b, Applied(c), Applied(d)), Mark(0)) == Both(rows, a, b, Marked(c), Applied(d))
  {
    hide Decide;
  }

  lemma FirstCommitted(rows: Rows, a: Tx, b: Tx)
    requires a.key != b.key && a.phase == b.phase == Begun
    requires Matches(a.key.provider, a.report) && Matches(b.key.provider, b.report)
    ensures var c, d := Decide(a.key, a.report, rows), Decide(b.key, b.report, rows);
      Run(Initial(rows), FirstCommits(a, b)) == Published(Both(rows, a, b, Marked(c), Applied(d)), 0, c)
  {
    var c, d := Decide(a.key, a.report, rows), Decide(b.key, b.report, rows);
    var commit := [Mark(0), CommitTx(0)] + [];
    var applies := [Apply(0), Apply(1)] + commit;
    RunOfTwo(Initial(rows), Arrive(a.key, a.report), Arrive(b.key, b.report),
             [LookUp(0), LookUp(1)] + ([Insert(0), Insert(1)] + applies));
    assert Step(Step(Initial(rows), Arrive(a.key, a.report)), Arrive(b.key, b.report))
        == Both(rows, a, b, Begun, Begun);
    BothHold(rows, a, b, applies);
    RunOfTwo(Both(rows, a, b, Holding, Holding), Apply(0), Apply(1), commit);
    BothApply(rows, a, b);
    RunOfTwo(Both(rows, a, b, Applied(c), Applied(d)), Mark(0), CommitTx(0), []);
    assert Step(Both(rows, a, b, Marked(c), Applied(d)), CommitTx(0))
        == Published(Both(rows, a, b, Marked(c), Applied(d)), 0, c);
  }

  /**
   * Whatever two events the status of a row both admits: there is a run in which the first commits, and then the
   * second, which had read the row before, overwrites it.
   */
  lemma StaleReadOverwrites(rows: Rows, a: Tx, b: Tx)
    requires a.key != b.key && a.phase == b.phase == Begun && Target(a.report) == Target(b.report)
    requires Matches(a.key.provider, a.report) && Matches(b.key.provider, b.report)
    requires Decide(a.key, a.report, rows).update.WithStatus? && Decide(b.key, b.report, rows).update.WithStatus?
    ensures var s := Run(Initial(rows), FirstCommits(a, b));
      && Read(s.rows, Target(a.report)) == Some(Reported(a.report))
      && Read(Run(s, [Mark(1), CommitTx(1)]).rows, Target(a.report)) == Some(Reported(b.report))
  {
    FirstCommitted(rows, a, b);
    var s := Run(Initial(rows), FirstCommits(a, b));
    assert [Mark(1), CommitTx(1)] == [Mark(1), CommitTx(1)] + [];
    RunOfTwo(s, Mark(1), CommitTx(1), []);
    hide Decide;
    assert Step(s, Mark(1)).rows == s.rows;
  }

  const INVOICE := Rows(map["INV-1" := CREATED], map[])
  const SUCCESS := Tx(Key(Ozow, "a"), PaymentReport("INV-1", PAID), Begun)
  const FAILURE := Tx(Key(Ozow, "b"), PaymentReport("INV-1", FAILED), Begun)

  /** So a success can be overwritten by a failure. */
  lemma PaidCanBeLost()
    ensures var s := Run(Initial(INVOICE), FirstCommits(SUCCESS, FAILURE));
      && Read(s.rows, PaymentRow("INV-1")) == Some(PaymentIs(PAID))
      && Read(Run(s, [Mark(1), CommitTx(1)]).rows, PaymentRow("INV-1")) == Some(PaymentIs(FAILED))
  {
    StaleReadOverwrites(INVOICE, SUCCESS, FAILURE);
  }
}
