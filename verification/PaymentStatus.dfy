/** Payment, attempt and payout statuses, and which changes a provider may make. */
module PaymentStatus {
  import opened JsText

  datatype Gateway = PAYFAST | OZOW | YOCO | PAYSTACK | PEACH

  datatype Status = CREATED | PENDING | PAID | FAILED | CANCELLED | REFUNDED

  datatype AttemptStatus = Created | Pending | Succeeded | Failed | Cancelled

  datatype PayoutStatus = PayoutCreated | PayoutPending | PayoutSuccess | PayoutFailed

  /** The transition table: settled statuses admit no change. */
  function AllowedTransitions(current: Status): set<Status> {
    match current
    case CREATED => {PENDING, PAID, FAILED, CANCELLED}
    case PENDING => {PAID, FAILED, CANCELLED}
    case PAID => {}
    case FAILED => {}
    case CANCELLED => {}
    case REFUNDED => {}
  }

  predicate CanTransition(current: Status, next: Status) {
    current == next || next in AllowedTransitions(current)
  }

  predicate CanTransitionPayout(current: PayoutStatus, next: PayoutStatus) {
    || current == next
    || (current == PayoutCreated && next == PayoutPending)
    || (current == PayoutPending && next in {PayoutSuccess, PayoutFailed})
  }

  function AttemptStatusFor(status: Status): Option<AttemptStatus> {
    match status
    case PAID => Some(Succeeded)
    case FAILED => Some(Failed)
    case CANCELLED => Some(Cancelled)
    case PENDING => Some(Pending)
    case CREATED => None
    case REFUNDED => None
  }

  function WebhookEventFor(status: Status): Option<string> {
    match status
    case PAID => Some("payment_intent.succeeded")
    case FAILED => Some("payment_intent.failed")
    case CANCELLED => Some("payment_intent.cancelled")
    case PENDING => Some("payment_intent.processing")
    case CREATED => None
    case REFUNDED => None
  }

  /** One provider report after another, each applied only when the table admits it. */
  function ApplyAll(current: Status, reports: seq<Status>): Status
    decreases |reports|
  {
    if reports == [] then current
    else ApplyAll(if CanTransition(current, reports[0]) then reports[0] else current, reports[1..])
  }

  /** The path a payment may take: 0 created, 1 pending, 2 settled. */
  function Stage(s: Status): nat {
    match s case CREATED => 0 case PENDING => 1 case _ => 2
  }

  /** Provider reports only move a payment forward, and the first settled status is final whatever comes later. */
  lemma {:induction false} SettledIsFinal(current: Status, reports: seq<Status>)
    ensures Stage(current) <= Stage(ApplyAll(current, reports))
    ensures Stage(current) == 2 ==> ApplyAll(current, reports) == current
    decreases |reports|
  {
    if reports != [] {
      SettledIsFinal(if CanTransition(current, reports[0]) then reports[0] else current, reports[1..]);
    }
  }

  /** The table admits exactly the same status again and every move forward but one to a refund. */
  lemma AdmittedIff(current: Status, next: Status)
    ensures CanTransition(current, next) <==> current == next || (Stage(current) < Stage(next) && next != REFUNDED)
  {
  }

  /** A payout moves one step at a time, from created over pending to success or failure. */
  lemma PayoutAdmittedIff(current: PayoutStatus, next: PayoutStatus)
    ensures CanTransitionPayout(current, next) <==> current == next || PayoutStage(next) == PayoutStage(current) + 1
  {
  }

  function PayoutStage(s: PayoutStatus): nat {
    match s case PayoutCreated => 0 case PayoutPending => 1 case _ => 2
  }

  /** The last report counts exactly if the table admits it after those before. */
  lemma {:induction false} LastReport(current: Status, reports: seq<Status>, last: Status)
    ensures var before, after := ApplyAll(current, reports), ApplyAll(current, reports + [last]);
      after == if before == last || (Stage(before) < Stage(last) && last != REFUNDED) then last else before
    decreases |reports|
  {
    hide CanTransition;
    if reports == [] {
      AdmittedIff(current, last);
      assert [last][1..] == [];
    } else {
      assert (reports + [last])[1..] == reports[1..] + [last];
      LastReport(if CanTransition(current, reports[0]) then reports[0] else current, reports[1..], last);
    }
  }

  function ApplyAllPayout(current: PayoutStatus, reports: seq<PayoutStatus>): PayoutStatus
    decreases |reports|
  {
    if reports == [] then current
    else ApplyAllPayout(if CanTransitionPayout(current, reports[0]) then reports[0] else current, reports[1..])
  }

  lemma {:induction false} LastPayoutReport(current: PayoutStatus, reports: seq<PayoutStatus>, last: PayoutStatus)
    ensures var before, after := ApplyAllPayout(current, reports), ApplyAllPayout(current, reports + [last]);
      after == if before == last || PayoutStage(last) == PayoutStage(before) + 1 then last else before
    decreases |reports|
  {
    hide CanTransitionPayout;
    if reports == [] {
      PayoutAdmittedIff(current, last);
      assert [last][1..] == [];
    } else {
      assert (reports + [last])[1..] == reports[1..] + [last];
      LastPayoutReport(if CanTransitionPayout(current, reports[0]) then reports[0] else current, reports[1..], last);
    }
  }

  /** A payout that succeeded or failed keeps that status, and it can only have got there by way of pending. */
  lemma {:induction false} SettledPayoutIsFinal(current: PayoutStatus, reports: seq<PayoutStatus>)
    ensures current in {PayoutSuccess, PayoutFailed} ==> ApplyAllPayout(current, reports) == current
    ensures current == PayoutCreated && ApplyAllPayout(current, reports) in {PayoutSuccess, PayoutFailed}
      ==> PayoutPending in reports
    decreases |reports|
  {
    if reports != [] {
      var next := if CanTransitionPayout(current, reports[0]) then reports[0] else current;
      SettledPayoutIsFinal(next, reports[1..]);
    }
  }
}
