# Payment core: model and proofs

This project models the payment core of the gateway service and proves properties of it in Dafny 4.11. It covers the
life of a payment from its creation on a provider, over continued checkouts, fail-overs, provider webhooks and status
lookups, to the double-entry ledger; the transaction protocol of webhook intake and of payout creation; the outbound
delivery queue with its worker pool and retries; routing over provider credentials; and four self-contained algorithms:
keyset pagination, the PayFast form encoding, the migration of plain-text secrets, and subscription billing dates.

`dafny verify dfyconfig.toml` checks everything.

## How the model is laid out

| file | what it models |
|---|---|
| JsText | trimming, case mapping, splitting and joining as the code uses them |
| PaymentStatus | statuses of payments, attempts and payouts, and which changes are admitted |
| Fees, Ledger | the fee added on top of the base amount; the three-account ledger and the service that writes it |
| GatewayConfig, Routing | resolution of provider credentials; readiness, order of preference and the routing decision |
| Json, Snapshots, ProviderStatus | the JSON column of a payment: what is written to it, read back from it, and reported by providers |
| Payments | every handler as a function on one payment, and the database steps made of them |
| PaymentBooks, PaymentAttempts, PaymentLock, PaymentOutcomes, PaymentGuards | theorems over whole runs of the handlers |
| PaymentReports, PaymentRefusals | what a provider's report does, from the row to the outbound queue; exactly when a handler refuses |
| PendingReport | one concrete run that ends with two open attempts |
| PaymentsService | the services in imperative form, each method proved to carry out the step of the model |
| WebhookIntake, Payouts | database transactions that interleave over unique indexes |
| Delivery, WorkerPool | one delivery's retries; the pool of workers and the running flag |
| Pagination | cursor pages over a table that grows meanwhile |
| PercentCoding, PayfastForm | percent-encoding over UTF-8; parameter strings and signature text |
| Secrets, SecretMigration | encrypted secrets; the script that migrates, verifies and rolls back |
| Calendar, Billing, Subscriptions | ECMA-262 day numbers; billing dates; the hourly scheduler |

The handlers of a payment are atomic steps. What happens inside one handler, such as the candidates that fail before one
answers, is part of the step. Only WebhookIntake, Payouts and WorkerPool are about interleaving. A provider is a map from
gateways to the sessions they would open; a gateway outside the map fails. An attempt's place in the row's list stands
for its creation time.

## What turned out not to hold

- At most one open attempt: a report of PENDING is written to the latest attempt, even if that attempt has failed and an
  earlier one is open, and direct Ozow re-initiation supersedes nothing. `AtMostOneOpenAttempt` gives the exact condition
  over runs, `PendingAfterFailedContinuation` the family that breaks it, `ReachableFromEmpty` one such run.
- Gateway lock: a payment asked to use PayFast or Peach is not locked, because the hosted checkout treats it as AUTO and
  then overwrites what was asked for (`LockBindsIffRail`, `UnofferedGatewayIsForgotten`).
- PAID is final only while webhook transactions for one payment do not overlap, and so is a payout's SUCCESS
  (`SettledIsFinalInSerialRuns`): a transaction that read the row before it was settled overwrites it
  (`PaidLostOnlyByStaleRead`, `PayoutLostOnlyByStaleRead`, `StaleReadOverwrites`, `PaidCanBeLost`).
- The pool's running flag is cleared when one worker throws while others are still busy, and then a delivery can be in
  flight twice (`FlagGuardsIff` for the exact condition after any run, `ThrowExposesOthers` for the throw itself).
- Attempts of a delivery stay within the limit exactly when the limit is at least one; a setting between 0 and 1 is
  floored to 0 and every delivery is attempted once more than it says (`AttemptsBounded`).
- A list limit between 0 and 1 is floored to 0 and yields an empty page without a cursor, whatever the table holds
  (`FractionalLimitHidesAll`).
- A subscription whose row update fails after its charge is charged again by the next run, before its second date has
  come (`BilledOncePerDate` for the exact condition, `LostUpdateChargesTwice` for the runs in question).
- A merchant's contradictory Yoco keys make its whole record unusable, for every gateway
  (`ContradictoryYocoKeysStopEverything`).
- The repository's README describes a fee clamped to the amount; the code adds the fee on top, and the model follows the
  code.

## Model

| member | source | states |
|---|---|---|
| `PaymentBooks.EveryRunKeepsTheBooks` | src/payments/payments.service.ts:1700-1830 | in every run of creation, Ozow initiation, continuation, fail-over, the four webhooks and the three lookups: entries exactly for PAID payments, one complete set each, in the books of the payment's merchant; running balances right; each merchant's accounts sum to zero; success announced at most once an endpoint |
| `PaymentBooks.LedgerIffPaid` | src/payments/payments.service.ts:1777-1830 | after any run a reference has ledger entries if and only if its payment is PAID |
| `PaymentBooks.EntriesAreTheMerchants` | src/payments/payments.service.ts:1815-1830 | after any run every ledger entry is in the books of the merchant whose PAID payment it is about |
| `PaymentBooks.BalancesAreThePaidPayments` | src/payments/payments.service.ts:1629-1830 | after any run each account of each merchant holds exactly the charges, net amounts or fees of the merchant's own PAID payments |
| `PaymentBooks.GuardNeverRejects` | src/payments/payments.service.ts:1710-1722 | after any run the guard of the ledger write accepts the amounts of every payment there is |
| `PaymentBooks.CreationIsPriced` | src/payments/payments.service.ts:2112-2206 | every payment that is created is the request's own: its merchant, payer and currency, the amount asked for as the merchant's share, and on top the policy's fixed fee with the percentage to the nearest cent; it is CREATED, and records and announces nothing |
| `PaymentBooks.HandlersAreLawful` | src/webhooks/webhooks.service.ts:177-197 | no handler changes owner or price or leaves PAID; becoming PAID always records the ledger; a success is announced only on becoming PAID |
| `PaymentBooks.WriteAddsShares` | src/payments/payments.service.ts:1700-1775 | an accepted write adds the customer debit, the merchant credit and, if positive, the platform credit to its own payment and nothing to any other |
| `PaymentBooks.PaidIsForever` | src/payments/payment-status.transitions.ts:3-30 | once PAID, whatever steps follow: still PAID, same merchant, same price, same ledger entries |
| `PaymentBooks.AnnouncedAtMostOnce` | src/webhooks/webhooks.service.ts:2001-2043 | in any run, at most one payment_intent.succeeded delivery for a payment and endpoint, none if the payment is not PAID |
| `PaymentReports.SuccessIsBooked` | src/webhooks/webhooks.service.ts:329-360 | a new success for an unsettled payment makes it PAID through the sender's gateway with its latest attempt SUCCEEDED, adds exactly its complete set of entries and one payment_intent.succeeded for each endpoint |
| `PaymentReports.ReportInDb` | src/webhooks/webhooks.service.ts:1310-1375 | what any report does: on the row if it takes effect, its event id spent, announced by its own event name to all endpoints in order or not at all, and the ledger untouched unless a payment becomes PAID |
| `PaymentReports.ReportOnRow` | src/webhooks/webhooks.service.ts:1116-1190 | a webhook takes effect exactly if it is new and the payment is unsettled, or has failed or been cancelled just so; then status, gateway and latest attempt follow it and all else stays |
| `PaymentReports.RedeliveryChangesNothing` | src/webhooks/webhooks.service.ts:1226-1260 | an event delivered again changes neither rows nor ledger nor queue, whatever it says |
| `PaymentReports.OtherEventsAreIgnored` | src/webhooks/webhooks.service.ts:405-416 | a Paystack event about no charge and a Yoco event that says nothing change nothing |
| `PaymentReports.LookupIsBooked` | src/payments/payments.service.ts:3243-3320 | a lookup that finds an unsettled payment of its gateway paid makes it PAID, its latest attempt SUCCEEDED, and adds exactly its complete set of entries; nobody is told |
| `PaymentReports.OzowLookupWords` | src/payments/payments.service.ts:3029-3169 | which answer of an Ozow lookup means which status |
| `PaymentReports.PaystackLookupAgrees` | src/payments/payments.service.ts:3225-3240 | once a Paystack charge event has taken effect, every Paystack lookup comes to the row's status |
| `PaymentReports.YocoLookupAgrees` | src/payments/payments.service.ts:3418-3440 | the same for Yoco, whatever its API answers and although the checkout has expired |
| `PaymentRefusals.CreatedIff` | src/payments/payments.service.ts:2071-2160 | a creation is refused unless the amount is positive, the gateway's name known, the plan has what is asked for and the router, asked about the full charge, finds a gateway |
| `PaymentRefusals.ContinuedIff` | src/payments/payments.service.ts:2703-2752 | exactly when a continuation is refused: expired, paid, an unknown gateway or no rail, bound to another rail, or not in the plan; otherwise the router decides on the payment, and a refusal writes nothing |
| `PaymentRefusals.FailedOverIff` | src/payments/payments.service.ts:3638-3720 | a fail-over answers exactly if the plan has fallback, the payment is not paid, not locked and has no checkout to follow, and the router finds a gateway beyond those attempted whose provider answers |
| `PaymentRefusals.AttemptedGateways` | src/payments/payments.service.ts:3672-3700 | those attempted are the gateways of all attempts and the payment's own |
| `PaymentRefusals.ReinitiatedIff` | src/payments/payments.service.ts:2281-2487 | exactly when direct Ozow re-initiation answers; then the payment is locked to Ozow with one more attempt, its count and failures reset |
| `PaymentOutcomes.PaidIffLatestSucceeded` | src/webhooks/webhooks.service.ts:1149-1190 | over every run, a payment is PAID exactly when its latest attempt SUCCEEDED, and no earlier attempt ever did |
| `PaymentOutcomes.ContinuedCheckoutIsReused` | src/payments/payments.service.ts:2753-2771 | a continuation that opened a session is idempotent: while routing selects the same gateway the next one returns that session, asks no provider and changes nothing |
| `PaymentOutcomes.OnceStartedNeverFailedOver` | src/payments/payments.service.ts:3656-3670 | once a session with a URL is stored, no run without PayFast webhooks, with providers whose sessions have URLs, ever reaches a state in which the payment would be failed over |
| `PaymentOutcomes.CreationStarts` | src/payments/payments.service.ts:2213-2240 | a creation that such a provider answered stores its session |
| `PaymentOutcomes.FailoverOutcome` | src/payments/payments.service.ts:3638-3793 | a fail-over that answers was allowed, leaves the payment PENDING on the new gateway without a lock, with the count one higher; otherwise only the call is on record |
| `PaymentOutcomes.SessionIsStored` | src/payments/payments.service.ts:714-735 | the redirect of a stored session is what is read back for the payer, whatever the row held before |
| `PaymentOutcomes.FormIsStored` | src/payments/payments.service.ts:714-735 | for a session without a URL but with a form to post it is the form's action |
| `PaymentOutcomes.OnlyPostableForms` | src/payments/payments.service.ts:714-735 | a form counts only with an action, the method POST and an object of fields |
| `PaymentOutcomes.UrlAtTheTop` | src/payments/payments.service.ts:714-735 | rows without a request part are read from the top |
| `PaymentOutcomes.AttemptUrlIsLeft` | src/payments/payments.service.ts:714-735 | with nothing to follow on the row the latest attempt's URL is left |
| `PaymentAttempts.FallbackOutcome` | src/payments/payments.service.ts:1400-1583 | the loop asks the candidates in turn and returns the first whose provider answers: one FAILED attempt for each before it, its own attempt with its URL the only open one, earlier attempts cancelled only if open, status, count and failure list as they should be; or every candidate it may try has failed once |
| `PaymentAttempts.OpenedRouting` | src/payments/payments.service.ts:1432-1500 | after k failures and a success the JSON reads back as: gateway requested by the decision, stored count plus k, stored failures followed by k records |
| `PaymentAttempts.OpenedLastFallback` | src/payments/payments.service.ts:1432-1500 | the row names as its last fallback the last candidate that failed and the one that answered |
| `PaymentAttempts.NotOpenedRouting` | src/payments/payments.service.ts:1512-1560 | after total failure the JSON reads back with all failures and a count that includes the fallback announced but not tried |
| `PaymentAttempts.FailoverLeavesOneOpen` | src/payments/payments.service.ts:3750-3793 | the next gateway was never attempted before; every earlier attempt is cancelled if it was open and else as it was, and the new one, with its URL, is the only one open |
| `PaymentAttempts.AtMostOneOpenAttempt` | src/payments/payments.service.ts:1593-1619 | over every run of all handlers a payment has at most one open attempt throughout if and only if no PENDING report takes effect while an attempt before the latest is open, and Ozow re-initiation adds none to an open one |
| `PaymentAttempts.StepKeepsOneOpenIff` | src/payments/payments.service.ts:3750-3793 | the same for one step: creation, continuation and fail-over keep it always, the others exactly under that condition |
| `PaymentAttempts.WebhookKeepsOneOpenIff` | src/webhooks/webhooks.service.ts:1727-1757 | a webhook opens a second attempt if and only if it takes effect, says PENDING and an attempt before the latest is open |
| `PaymentAttempts.ReportKeepsOneOpenIff` | src/webhooks/webhooks.service.ts:1727-1757 | a report keeps at most one attempt open if and only if it is not PENDING or all attempts before the latest are closed |
| `PaymentAttempts.PendingAfterFailedContinuation` | src/webhooks/webhooks.service.ts:1340-1375 | an open attempt, a continuation that asks in vain, then a PENDING report: two attempts are open |
| `PendingReport.ReachableFromEmpty` | src/webhooks/webhooks.service.ts:1340-1375 | such a run from an empty database: created under AUTO on Paystack, continued on Yoco whose API fails, reported PENDING by Ozow |
| `PaymentLock.LockIsKept` | src/payments/payments.service.ts:2711-2740 | once locked to Ozow, Yoco or Paystack: over any run of continuations, fail-overs, lookups and the three merging webhooks the lock stays and only that gateway is asked |
| `PaymentLock.LockedFromCreation` | src/payments/payments.service.ts:486-513 | a payment created for one of the three rails asks no other gateway for a session, from its creation on |
| `PaymentLock.CreationLocks` | src/payments/payments.service.ts:2071-2240 | what a created payment stores as requested is what the request asked for, AUTO if nothing |
| `PaymentLock.LockBindsIffRail` | src/payments/payments.service.ts:445-458 | a stored choice binds every later continuation if and only if it is one of the three rails |
| `PaymentLock.UnofferedGatewayIsForgotten` | src/payments/payments.service.ts:2719-2736 | a continuation of a payment locked to another gateway either changes nothing or turns the lock into AUTO |
| `PaymentLock.HookKeepsSnapshots` | src/webhooks/webhooks.service.ts:1796-1805 | the merges of Ozow, Paystack and Yoco webhooks leave requested gateway, fee policy and checkout context as they were |
| `PaymentLock.LookupKeepsSnapshots` | src/payments/payments.service.ts:333-342 | so do the merges of the three status lookups |
| `PaymentLock.RunRemembers` | src/payments/payments.service.ts:671-703 | over any such run the row keeps the fee policy it was priced with and its checkout context, whatever plan the merchant has meanwhile |
| `PaymentLock.CreationRemembers` | src/payments/payments.service.ts:2207-2240 | a created payment stores the policy it was priced with and the request's context, trimmed and without blanks |
| `PaymentsService.Service.InitializePaymentGatewayWithFallback` | src/payments/payments.service.ts:1400-1583 | the loop with its running count and failure list computes the closed form, for every list of candidates |
| `PaymentsService.Service.CancelOpenAttempts` | src/payments/payments.service.ts:1593-1619 | cancels every open attempt except those on the gateway named, and touches no other row |
| `PaymentsService.Service.RecordSuccessfulPaymentLedger` | src/payments/payments.service.ts:1777-1830 | writes the ledger only for a PAID payment without entries |
| `PaymentsService.Service.CreatePayment` | src/payments/payments.service.ts:2071-2279 | creation is the model's step, refusals and taken references included |
| `PaymentsService.Service.InitiateOzowPayment` | src/payments/payments.service.ts:2281-2487 | the direct Ozow entry point is the model's step, on new and existing references |
| `PaymentsService.Service.ContinueHostedCheckout` | src/payments/payments.service.ts:2703-2814 | continuation is the model's step |
| `PaymentsService.Service.CreateFailoverAttempt` | src/payments/payments.service.ts:3572-3806 | fail-over is the model's step |
| `PaymentsService.Service.HandleWebhook` | src/webhooks/webhooks.service.ts:1031-1224 | a verified webhook is the model's step: deduplicated, applied, recorded, announced |
| `PaymentsService.Service.GetPaymentStatus` | src/payments/payments.service.ts:3029-3169 | each status lookup is the model's step |
| `PaymentsService.Service.DeliverEvent` | src/webhooks/webhooks.service.ts:2001-2043 | one delivery is enqueued for each active endpoint, in order |
| `Snapshots.RoutingRoundTrip` | src/payments/payments.service.ts:515-564 | requested gateway, fallback count and failure list are read back as they were stored, over any earlier content |
| `Snapshots.ParseNamed` | src/payments/payments.service.ts:408-421 | parsing a gateway's stored name gives the gateway back |
| `Snapshots.NamesInAnyCase` | src/payments/payments.service.ts:408-421 | names are recognised in any case and with space around them; a blank one is no request |
| `Snapshots.OtherNamesAreRefused` | src/payments/payments.service.ts:408-421 | exactly the five gateways, AUTO and a blank are accepted |
| `Snapshots.FailureIsNamed` | src/payments/payments.service.ts:1512-1540 | a failure on record names its gateway and the next one |
| `Snapshots.MonetizationIsPrice` | src/payments/payments.service.ts:566-589 | the amounts a row keeps are those of its price |
| `Snapshots.SessionSays` | src/payments/payments.service.ts:1432-1500 | a session is kept with its provider's name and external reference |
| `Snapshots.PolicyRoundTrip` | src/payments/payments.service.ts:566-589 | a fee policy is read back as it was stored |
| `Snapshots.CheckoutRoundTrip` | src/payments/payments.service.ts:630-669 | a checkout context is read back trimmed and without blanks; a context without content leaves the earlier one |
| `Snapshots.CleanedHolds` | src/payments/payments.service.ts:630-669 | of a context exactly seven fields are kept, each trimmed and none blank |
| `Snapshots.MergeKeeps` | src/payments/payments.service.ts:333-342 | a merge that does not name a part keeps what is read from it |
| `ProviderStatus.PaystackLookupRepeatsWebhook` | src/payments/payments.service.ts:3225-3240 | after a named Paystack event every lookup comes to the webhook's status, whatever the provider answers and whatever any number of earlier lookups have stored |
| `ProviderStatus.YocoLookupRepeatsWebhook` | src/payments/payments.service.ts:3418-3440 | the same for every Yoco event the handler accepts, over any number of lookups, expiry included |
| `ProviderStatus.MapYocoCheckout` | src/gateways/yoco.lifecycle.ts:14-44 | a Yoco checkout counts as PAID if and only if it is completed and has a payment id |
| `ProviderStatus.PayfastWords` | src/webhooks/webhooks.service.ts:2335-2341 | the words of PayFast that mean PAID, FAILED and CANCELLED, in any case; any other is PENDING |
| `ProviderStatus.OzowWords` | src/webhooks/webhooks.service.ts:2343-2361 | the same for Ozow's thirteen words |
| `ProviderStatus.PaystackWords` | src/gateways/paystack.lifecycle.ts:9-41 | the same for the statuses of a Paystack transaction |
| `ProviderStatus.PaystackEventWords` | src/gateways/paystack.lifecycle.ts:54-67 | a named charge event decides alone, otherwise the transaction's status does |
| `ProviderStatus.YocoWords` | src/gateways/yoco.lifecycle.ts:59-79 | event or payment status of Yoco is enough; success outranks failure, failure cancellation |
| `ProviderStatus.YocoCheckoutWords` | src/gateways/yoco.lifecycle.ts:14-44 | a checkout that is not paid is CANCELLED once it has expired, CREATED or PENDING until then |
| `ProviderStatus.PaystackLookupWithoutEvent` | src/payments/payments.service.ts:3225-3240 | without a stored event a lookup follows the answer, or without one what was stored before |
| `ProviderStatus.YocoLookupWithoutEvent` | src/payments/payments.service.ts:3418-3440 | the same for Yoco, and a lookup that says nothing cancels an expired checkout and leaves any other as it is |
| `ProviderStatus.StoredWords` | src/payments/payments.service.ts:753-853 | where in the row each stored word of Paystack and Yoco is looked for, and in which order |
| `ProviderStatus.PaystackAnswerIsRemembered` | src/payments/payments.service.ts:3241-3300 | the answer to one lookup is what the next one falls back on |
| `ProviderStatus.YocoAnswerIsRemembered` | src/payments/payments.service.ts:3441-3520 | the same for Yoco's checkout status and payment id |
| `PaymentStatus.SettledIsFinal` | src/payments/payment-status.transitions.ts:3-30 | under any sequence of reports the stage never goes back and the first settled status stays |
| `PaymentStatus.AdmittedIff` | src/payments/payment-status.transitions.ts:3-30 | the table admits exactly the same status again and every move forward but one to REFUNDED |
| `PaymentStatus.LastReport` | src/payments/payment-status.transitions.ts:3-30 | after any reports the next one counts exactly if the table admits it then |
| `PaymentStatus.SettledPayoutIsFinal` | src/webhooks/webhooks.service.ts:2416-2428 | a payout that succeeded or failed keeps that status, and only reaches it over pending |
| `PaymentStatus.PayoutAdmittedIff` | src/webhooks/webhooks.service.ts:2416-2428 | a payout moves exactly one stage at a time, or stays |
| `PaymentStatus.LastPayoutReport` | src/webhooks/webhooks.service.ts:2416-2428 | after any reports the next one counts exactly if it is one stage on |
| `Fees.NormalizeFeeComponent` | src/payments/monetization.config.ts:131-137 | a non-negative number is cut to the natural number just below it, anything else counts as zero |
| `Fees.BreakdownBalances` | src/payments/monetization.config.ts:274-295 | fee and merchant share make up the charge, the merchant keeps the whole requested amount, and a cent or more is never charged nothing |
| `Fees.FeeIsFixedPlusPercentage` | src/payments/monetization.config.ts:274-295 | the fee is the fixed part plus the percentage to the nearest cent, halves upwards; settings that are negative or no number count as 0 |
| `Fees.RoundHalfUp` | src/payments/monetization.config.ts:274-295 | the rounded quotient is off by at most one half, halves upwards |
| `Fees.BreakdownMonotone` | src/payments/monetization.config.ts:131-137 | a larger request never lowers fee, charge or merchant share |
| `Fees.RoundingDrift` | src/payments/monetization.config.ts:274-295 | over any list of n amounts the variable fees differ from the exact percentage of the total by at most n/2 cents |
| `Fees.RoundingDriftReached` | src/payments/monetization.config.ts:274-295 | and for every n that bound is reached |
| `Fees.SplittingACharge` | src/payments/monetization.config.ts:274-295 | splitting a charge into n parts changes the variable fee by at most (n + 1)/2 cents |
| `Ledger.LedgerService.WriteSuccessfulPaymentLedger` | src/payments/payments.service.ts:1700-1775 | writes exactly the accepted write's entries, and nothing when the amounts do not balance |
| `Ledger.RefusedIff` | src/payments/payments.service.ts:1710-1722 | a write is refused, and nothing changes, exactly if an amount is out of range or the shares do not add up |
| `Ledger.LedgerService.ComputeBalanceAfter` | src/payments/payments.service.ts:1629-1662 | the loop computes the signed sum of the merchant's entries on the account plus the new amount |
| `Ledger.BooksStayBalanced` | src/payments/payments.service.ts:1629-1775 | after any writes for any mix of merchants each row's balanceAfter is the sum up to it, and each merchant's accounts sum to zero |
| `Ledger.ClosingBalance` | src/payments/payments.service.ts:1664-1775 | an account's closing balance is the opening one plus the shares of the accepted writes |
| `GatewayConfig.LoadIdempotent` | src/payments/payments.service.ts:855-923 | resolving resolved credentials changes nothing, for all three providers together |
| `GatewayConfig.OzowIdempotent` | src/gateways/ozow.config.ts:166-202 | Ozow credentials, from the merchant or the environment, resolve to themselves |
| `GatewayConfig.YocoIdempotent` | src/gateways/yoco.config.ts:58-74 | so do Yoco's |
| `GatewayConfig.PaystackIdempotent` | src/gateways/paystack.config.ts:42-66 | so do Paystack's |
| `GatewayConfig.LoadedIsResolved` | src/payments/payments.service.ts:855-923 | the loaded record holds the resolved values of all three providers and the rest as stored |
| `GatewayConfig.OzowSource` | src/gateways/ozow.config.ts:166-202 | where each Ozow value comes from: all from the record once it has any, otherwise all from the named environment variables; without a mode, production decides |
| `GatewayConfig.YocoSource` | src/gateways/yoco.config.ts:58-74 | Yoco keys come from the record alone; its mode outranks the keys', and that the default |
| `GatewayConfig.PaystackSource` | src/gateways/paystack.config.ts:42-66 | the environment's key stands in for a missing one; record, key and environment decide the mode in that order |
| `GatewayConfig.SwitchWords` | src/gateways/ozow.config.ts:155-164 | which words switch a mode on and off |
| `GatewayConfig.KeyModes` | src/gateways/yoco.config.ts:34-56 | the prefix of a key gives its mode, whatever follows |
| `GatewayConfig.OtherKeysHaveNoMode` | src/gateways/paystack.config.ts:32-40 | a key with neither prefix has no mode |
| `Routing.ReadyIffAdapterAccepts` | src/routing/routing.engine.ts:181-320 | a rail is ready if and only if it is not excluded and its adapter's guards accept the charge |
| `Routing.OzowReadyIff` | src/gateways/ozow.config.ts:322-343 | Ozow's readiness agrees with the guards of its form |
| `Routing.YocoReadyIff` | src/gateways/yoco.gateway.ts:50-66 | Yoco's readiness agrees with its adapter's guards on keys, mode, currency and amount |
| `Routing.PaystackReadyIff` | src/gateways/paystack.gateway.ts:49-59 | Paystack's readiness agrees with its adapter's guards on key, mode and e-mail |
| `Routing.EligibleIsReady` | src/routing/routing.engine.ts:322-345 | the eligible list is the ready gateways of the order, each once, numbered upwards |
| `Routing.EligibleInOrder` | src/routing/routing.engine.ts:322-345 | and it keeps the order |
| `Routing.OrderIsPreferred` | src/routing/routing.engine.ts:347-389 | a preference for a bank payment, by any of four words in any case, puts Ozow first, anything else Paystack |
| `Routing.SkippedAreUnready` | src/routing/routing.engine.ts:76-95 | a decision records exactly the rails that were not ready |
| `Routing.AutoDecision` | src/routing/routing.engine.ts:76-179 | AUTO decides if and only if some rail would be accepted; it lines up exactly those, in the order of preference spelled out, and selects the first |
| `Routing.NamedDecision` | src/routing/routing.engine.ts:76-179 | a gateway asked for by name is available if and only if it is a rail whose adapter accepts the charge or PayFast with credentials; it is then the only one lined up |
| `Routing.DecisionIsWellFormed` | src/routing/routing.engine.ts:76-179 | every decision selects its first candidate, repeats none, includes no excluded gateway and records what was requested |
| `Routing.SelectedGatewayNeverFailsItsGuards` | src/routing/routing.engine.ts:181-345 | from the stored merchant record on: the gateway AUTO selects passes its adapter's guards, which resolve the record once more |
| `PaymentGuards.AskedRailsPassTheirGuards` | src/payments/payments.service.ts:1294-1342 | after any run, every rail that a continuation or a fail-over of any payment lines up passes its adapter's guards for the row's own charge |
| `PaymentGuards.CreationPasses` | src/payments/payments.service.ts:2127-2145 | and so does every rail a creation lines up |
| `Routing.ContradictoryYocoKeysStopEverything` | src/gateways/yoco.config.ts:34-56 | the merchant record cannot be loaded if and only if its Yoco keys belong to different modes |
| `WebhookIntake.CommitsAtMostOnce` | src/webhooks/webhooks.service.ts:1031-1224 | under any interleaving each event id commits at most once, always with processedAt set; the branch for an unprocessed row is never taken |
| `WebhookIntake.OneDeliveryIsNew` | src/webhooks/webhooks.service.ts:1226-1411 | of all deliveries of an event id at most one is answered as new, every other answered one reports a committed duplicate and no change |
| `WebhookIntake.NewEventIsApplied` | src/webhooks/webhooks.service.ts:1031-1224 | a new event that nobody stands in the way of commits and is answered as new: the row has the reported status exactly if its own admits it, and the answer says whether it has changed |
| `WebhookIntake.KnownEventIsDuplicate` | src/webhooks/webhooks.service.ts:1031-1065 | an event committed before is answered as a duplicate at once |
| `WebhookIntake.AbortLeavesNoTrace` | src/webhooks/webhooks.service.ts:1205-1224 | a delivery that fails leaves events, rows and log as they were |
| `WebhookIntake.RowsAreUpdatedInTurn` | src/webhooks/webhooks.service.ts:1159-1200 | in every interleaving no two transactions have updated one row at a time |
| `WebhookIntake.EachEventWritesOnce` | src/webhooks/webhooks.service.ts:882-1029 | for payments and payouts: over all deliveries of an event id and any interleaving at most one step changes a status, none if no delivery committed; the statuses are the committed events' writes in commit order, no event among them twice |
| `WebhookIntake.PaidLostOnlyByStaleRead` | src/webhooks/webhooks.service.ts:1503-1552 | a commit changes a payment's status if and only if its transaction had read one that admits the reported status, that is another than the payment has by then, and the status is written at all (a repeated success is not, nor an unchanged status by Yoco and Paystack); so PAID is lost only by a stale read |
| `WebhookIntake.PayoutLostOnlyByStaleRead` | src/webhooks/webhooks.service.ts:962-1000 | a commit changes a payout if and only if the status its transaction had read admits the reported one, and that is another than the payout has by then |
| `WebhookIntake.SettledIsFinalInSerialRuns` | src/webhooks/webhooks.service.ts:962-1005 | in every interleaving in which no transaction reads a row while another has read it and not committed: PAID and every other settled payment status, and SUCCESS and FAILED of a payout, stay as they are |
| `WebhookIntake.StaleReadOverwrites` | src/webhooks/webhooks.service.ts:1116-1174 | without that, for any two events the row's status admits there is a run, row locks respected, in which the first commits and the second overwrites it |
| `WebhookIntake.PaidCanBeLost` | src/webhooks/webhooks.service.ts:1340-1360 | so a success can be overwritten by a failure that was read before it |
| `Payouts.OnePayoutPerKey` | src/payouts/payouts.service.ts:62-117 | under any interleaving at most one payout for a merchant and idempotency key, and one for a reference |
| `Payouts.RepliesAgree` | src/payouts/payouts.service.ts:62-117 | all requests for a key that are answered with a payout get the same one |
| `Payouts.RecoveryAnswers` | src/payouts/payouts.service.ts:95-117 | a request refused by the key index always finds the payout it collided with |
| `Payouts.FreshRequestIsPaidOut` | src/payouts/payouts.service.ts:62-94 | a request with free key and reference and no open insert in its way is answered with its own new payout |
| `Payouts.TakenReferenceConflicts` | src/payouts/payouts.service.ts:95-117 | a free key with a taken reference ends in a conflict and writes nothing |
| `Payouts.RepeatedRequestGetsThePayout` | src/payouts/payouts.service.ts:62-80 | a key that has its payout gets that one and writes nothing |
| `Delivery.AttemptsBounded` | src/webhooks/webhooks.service.ts:2149-2314 | attempts stay within the limit plus the manual retries over all runs if and only if the limit is at least one |
| `Delivery.DeliverySettles` | src/webhooks/webhooks.service.ts:2149-2314 | without further manual retries a measure falls with every finished attempt until the delivery has settled |
| `Delivery.AttemptOutcome` | src/webhooks/webhooks.service.ts:2149-2314 | what an attempt comes to: skipped uncounted at a disabled endpoint, success, final after a client error or at the limit, and otherwise pending and not taken before its delay with jitter has passed |
| `Delivery.TakenIffDue` | src/webhooks/webhooks.service.ts:2065-2090 | a row is taken exactly if it is pending, due and not in flight |
| `Delivery.RetriedIsDue` | src/webhooks/webhooks.service.ts:1983-2043 | a new delivery and one retried by hand are due at once; an unwritten outcome leaves the row as it was |
| `Delivery.BackoffDoubles` | src/webhooks/webhooks.service.ts:2841-2856 | the delay starts at the initial one and doubles with each failure up to the cap |
| `Delivery.TotalDelayBound` | src/webhooks/webhooks.service.ts:2841-2856 | the delays of k failures sum to at most the smaller of the uncapped geometric sum and k caps |
| `Delivery.TotalWaitBounded` | src/webhooks/webhooks.service.ts:2265-2314 | a delivery never retried by hand waits at most 1.2 times that in all |
| `Delivery.DeliveryStore.NextRetryAt` | src/webhooks/webhooks.service.ts:2841-2856 | the delay is the capped power of two, which the model's loop computes, plus jitter |
| `Delivery.DeliveryStore.AttemptWebhookDelivery` | src/webhooks/webhooks.service.ts:2149-2263 | an attempt is the model's step on its row and on no other |
| `WorkerPool.PoolCoversBatch` | src/webhooks/webhooks.service.ts:2114-2147 | under any interleaving, throws included: each index is claimed and completed at most once, at most min(concurrency, n) are in flight, once nothing is in flight every delivery was attempted or every worker threw, and when all workers stopped all attempts ended |
| `WorkerPool.PoolStaysFull` | src/webhooks/webhooks.service.ts:2114-2147 | while no attempt throws, in flight are exactly the smaller of concurrency and what is left |
| `WorkerPool.EveryTurnCompletes` | src/webhooks/webhooks.service.ts:2114-2147 | every turn taken completes one delivery, and a worker can take one exactly while deliveries are left |
| `WorkerPool.AttemptEnds` | src/webhooks/webhooks.service.ts:2052-2112 | the end of an attempt makes its delivery no longer due unless it threw, and lowers the flag exactly if it was the guarded pool's last or threw |
| `WorkerPool.FlagGuardsIff` | src/webhooks/webhooks.service.ts:2052-2112 | after any run, throws included, a delivery can still come to be in flight twice if and only if an attempt in flight lies outside the pool the running flag guards |
| `WorkerPool.NoDoubleFlight` | src/webhooks/webhooks.service.ts:2052-2112 | so with the running flag no delivery is in flight twice, as long as no worker throws while others are busy |
| `WorkerPool.ThrowExposesOthers` | src/webhooks/webhooks.service.ts:2045-2112 | a throw lets a delivery be taken twice if and only if another worker is still busy with one |
| `Pagination.WalkReturnsSnapshot` | src/payments/payments.service.ts:3936-4022 | following the cursor with any limit of at least one ends after the expected pages and returns the key of every matching row of the first table once, in order, whatever newer rows are inserted and whatever changes about the others, given a stable verdict of the filters on them |
| `Pagination.RestOfListing` | src/payments/payments.service.ts:3936-3975 | the where clause of a cursor selects exactly the rows after it in the first listing, also in a table that has grown and changed |
| `Pagination.FractionalLimitHidesAll` | src/payments/payments.service.ts:4029-4038 | a limit between zero and one yields an empty page without a cursor for every table |
| `Pagination.LimitAsAsked` | src/payments/payments.service.ts:4029-4038 | up to 100 a limit is the floor of what was asked for, above it 100 |
| `PercentCoding.DecodeEncoded` | src/webhooks/webhooks.service.ts:2513-2517 | decoding undoes percent-encoding for every text, over exact UTF-8 of one to four bytes |
| `PercentCoding.DecodeEscaped` | src/webhooks/webhooks.service.ts:2778-2785 | the escapes of any character are read back as that character, whatever follows |
| `PercentCoding.OnlyEscapesDecode` | src/webhooks/webhooks.service.ts:2778-2785 | a character is read only from its own escapes, in either case: no overlong form, surrogate or stray byte is accepted |
| `PayfastForm.ValueRoundTrip` | src/webhooks/webhooks.service.ts:2513-2517 | with plus signs for spaces every value is read back, and its code holds no separator |
| `PayfastForm.ParseUndoesBuild` | src/webhooks/webhooks.service.ts:2748-2770 | parsing a built parameter string gives every entry but the signature, in order, its value trimmed |
| `PayfastForm.ParsedObject` | src/webhooks/webhooks.service.ts:2748-2770 | for distinct keys the parsed object holds exactly those values |
| `PayfastForm.SignatureBaseAgrees` | src/webhooks/webhooks.service.ts:2695-2746 | the signature text taken from a raw body built from a payload equals the one computed from the payload |
| `PayfastForm.SignatureBaseOfParsed` | src/webhooks/webhooks.service.ts:2710-2724 | and the one computed from the payload parsed out of that body |
| `PayfastForm.PassphraseComesLast` | src/webhooks/webhooks.service.ts:2719-2743 | the secret comes last, encoded and trimmed, after all entries; a blank one adds nothing |
| `PayfastForm.PassphraseAfterRawBody` | src/webhooks/webhooks.service.ts:2719-2743 | the same for the text taken from the raw body |
| `PayfastForm.SecretsTellApart` | src/webhooks/webhooks.service.ts:2719-2743 | two different secrets never give the same text for one payload |
| `PayfastForm.BaseOfMore` | src/webhooks/webhooks.service.ts:2710-2724 | each entry adds key, equals sign and encoded trimmed value, a signature in any case nothing |
| `PayfastForm.BuiltOfMore` | src/webhooks/webhooks.service.ts:2635-2650 | the same for a parameter string, which leaves out only the exact name signature, and only if asked to |
| `PayfastForm.RawBodyIsPreferred` | src/webhooks/webhooks.service.ts:2695-2746 | the raw body has the last word in its own order whatever the payload is, unless nothing was sent |
| `PayfastForm.BlankBodyIsIgnored` | src/webhooks/webhooks.service.ts:2726-2746 | a body of ampersands and space is no body |
| `PayfastForm.CodeByCharacter` | src/webhooks/webhooks.service.ts:2513-2517 | the code of each ASCII character: a plus sign, itself, or its escape in upper case |
| `PayfastForm.KeyAlone` | src/webhooks/webhooks.service.ts:2748-2770 | a segment without an equals sign is a key with an empty value |
| `PayfastForm.InvalidCodeIsKept` | src/webhooks/webhooks.service.ts:2778-2785 | a text that is no valid code is taken as it stands |
| `Secrets.EncryptedOpens` | src/security/secrets.ts:43-104 | plain text encrypted under any nonce is recognised as encrypted and opens to its trimmed text |
| `Secrets.SealedOpensOrFails` | src/security/secrets.ts:70-104 | a sealed text opens exactly if its key fits, and is refused otherwise |
| `Secrets.EmptyPartIsRefused` | src/security/secrets.ts:70-92 | a sealed text of which a part is missing is refused |
| `Secrets.ReadingRefuses` | src/security/secrets.ts:70-92 | plain text reads as its trimmed self; what is marked as encrypted without five parts is refused |
| `Secrets.MigrationPreservesMeaning` | src/security/merchant-secret-migration.ts:30-74 | every field of a row reads the same before and after, errors included |
| `Secrets.RollbackRestores` | src/scripts/migrate-merchant-secrets.ts:121-126 | the backup restores the trimmed original of every field changed and leaves the others |
| `SecretMigration.MerchantTable.Apply` | src/scripts/migrate-merchant-secrets.ts:187-220 | the script's loops migrate every row, back up exactly what was in plain text, and find nothing left: no field of any merchant is non-blank without the encryption mark |
| `SecretMigration.MerchantTable.Rollback` | src/scripts/migrate-merchant-secrets.ts:110-126 | writes the entries back in order and stops at a merchant that is gone |
| `SecretMigration.MerchantTable.Verify` | src/scripts/migrate-merchant-secrets.ts:157-172 | succeeds if and only if no field of any merchant is non-blank without the encryption mark |
| `SecretMigration.BackupIsComplete` | src/security/merchant-secret-migration.ts:30-58 | a merchant has a backup entry exactly if some secret is exposed, with exactly its exposed fields out of the seven, trimmed |
| `SecretMigration.NothingIsExposed` | src/scripts/migrate-merchant-secrets.ts:191-220 | after an apply no secret is exposed, and those that were not are as they were |
| `SecretMigration.ApplyPreservesMeaning` | src/scripts/migrate-merchant-secrets.ts:191-204 | every secret of every merchant reads the same after an apply |
| `SecretMigration.SecondApplyWritesNothing` | src/scripts/migrate-merchant-secrets.ts:191-204 | after an apply there is nothing to back up, and a second one, with other nonces, changes no row |
| `SecretMigration.RollbackUndoesApply` | src/scripts/migrate-merchant-secrets.ts:110-126 | an apply rolled back with its own backup leaves every row as it was, its plain-text fields trimmed |
| `Calendar.DatesAreUnique` | src/scheduler/subscription.scheduler.ts:59-81 | a day number belongs to one valid date only |
| `Calendar.CivilOf` | src/scheduler/subscription.scheduler.ts:59-81 | the date read from a day number is valid and has that day number |
| `Calendar.CountedFromTheEpoch` | src/scheduler/subscription.scheduler.ts:59-81 | day 0 is 1 January 1970, and every following day is the date after |
| `Calendar.MonthLengths` | src/scheduler/subscription.scheduler.ts:59-81 | the lengths of the twelve months |
| `Calendar.LeapYears` | src/scheduler/subscription.scheduler.ts:59-81 | which years are leap years |
| `Billing.MonthStep` | src/scheduler/subscription.scheduler.ts:72-74 | a MONTH step adds exactly the length of the current month, even when the date overflows |
| `Billing.YearStep` | src/scheduler/subscription.scheduler.ts:75-77 | a YEAR step adds 366 days if a 29 February lies between, otherwise 365 |
| `Billing.DayStep` | src/scheduler/subscription.scheduler.ts:66-71 | DAY and WEEK steps add one and seven days across any month and year boundary |
| `Billing.MonthStepOverflows` | src/scheduler/subscription.scheduler.ts:72-74 | a date the next month lacks leads that many days into the month after |
| `Billing.BillingDatesIncrease` | src/scheduler/subscription.scheduler.ts:59-81 | billing dates strictly increase and keep their time of day |
| `Billing.EarlyDatesAreKept` | src/scheduler/subscription.scheduler.ts:59-81 | up to the 28th a monthly subscription keeps its date for ever, month after month |
| `Billing.DateKeptIffEarly` | src/scheduler/subscription.scheduler.ts:59-81 | the date is kept for ever if and only if it is at most the 28th |
| `Subscriptions.SubscriptionScheduler.ProcessSubscriptions` | src/scheduler/subscription.scheduler.ts:16-57 | one run charges each due subscription once and moves it on, whichever charges and updates fail |
| `Subscriptions.ChargedIffDue` | src/scheduler/subscription.scheduler.ts:16-57 | in one run exactly the active subscriptions whose date has come are charged, if their charge succeeds, and move on by one interval if their update does |
| `Subscriptions.InactiveIsNeverCharged` | src/scheduler/subscription.scheduler.ts:16-30 | an inactive subscription is never charged over any number of runs |
| `Subscriptions.BilledOncePerDate` | src/scheduler/subscription.scheduler.ts:16-57 | over all runs the row stands at its start date advanced once per charge if and only if no update was lost, and then no charge is before its date |
| `Subscriptions.LostUpdateChargesTwice` | src/scheduler/subscription.scheduler.ts:37-55 | any due subscription whose update is lost is charged again by any later run that comes before its second date |

## Left out

- PaymentLock.LockIsKept: does not cover PayFast webhooks, which replace the JSON, and direct Ozow re-initiation, which rewrites the lock.
- PaymentBooks.EveryRunKeepsTheBooks: takes each handler as one step; overlapping handlers read and write without locks (see WebhookIntake.PaidCanBeLost).
- WorkerPool.NoDoubleFlight: does not cover runs in which a worker throws while others are busy, with which it does not hold; WorkerPool.FlagGuardsIff covers every run.
- PaymentOutcomes.OnceStartedNeverFailedOver: does not cover PayFast webhooks, which replace the JSON, and providers that answer with a session without a URL.
- PayfastForm.ParseUndoesBuild: takes the entries in their sorted order; the locale order itself and lone surrogates are not modelled, and keys need to be free of reserved characters and surrounding space.
- The text of a page's cursor: its encoding and decoding are not modelled; a cursor is the pair it stands for.
- Payment ids: rows are found by their unique reference alone; the gateway's own reference, tokens, descriptions and row timestamps do not matter to the properties.
- Idempotency keys of payment creation: a replay returns the stored payment and writes nothing.
- Public Ozow sign-up: it writes one further JSON key and activates the merchant.
- Plan and fee policy precedence and their environment variables: a plan and a policy are inputs of a handler.
- Reasons, error texts, timestamps, skipped gateways and plan features in the routing snapshot: nothing reads them back.
- Numbers stored as text in the JSON column: only JSON numbers, booleans and null are converted, as nothing stores them otherwise.
- Case mapping outside ASCII.
- The payout agent's words: a payout report is the status it has been mapped to.
- Webhook signatures, hashes, the status postback and event id derivation: a webhook of the model is a verified one with its id.
- AES-GCM, base64url and the key's origin: a cipher is any pair of functions that open what they seal into colon-free text.
- Payouts and webhook intake are modelled on values rather than as classes, because their steps interleave.
- Provider HTTP, redirect URL validation, the Peach gateway (it has no adapter) and the legacy PayFast adapter's own guards.
- The database column width of amounts and floating point: amounts are exact integers, and the jitter is any number of milliseconds up to a fifth of the delay.
- Local time zones: dates are taken in UTC.
- Checkout pages, Shopify, support, WhatsApp, dashboards, authentication and the mobile app.
