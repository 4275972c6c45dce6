# Payment attempts of payment-processing-system, modelled in Dafny

This project models the core of the payment-processing-system backend and the
helpers of its payment page. An order is a sum a user owes. Each payment is one
attempt to pay it through an authorization provider. A user gets three attempts
per order. Every payment request carries an idempotency key, and an audit log
records what happened.

The modules follow the source files:

| module | source |
|---|---|
| `OrderModel`, `PaymentModel`, `TransactionLog`, `IdempotencyKeyModel`, `Ids` | the Mongoose schemas in `backend/models/` |
| `Store` | the order and payment collections, as a class with two maps |
| `PaymentService` | `processPayment` and `retryPayment` |
| `AttemptProperties` | what the service promises across calls |
| `Idempotency`, `IdempotencyProperties` | the idempotency middleware and its ledger |
| `TransactionLogger` | `transactionLogger.log`, an append-only audit log |
| `WebhookService` | the notifier: its payload and signature |
| `Crypto` | the card mask, card type and webhook signatures |
| `Validators` | the express-validator chains and `validate` |
| `PaymentController`, `OrderController`, `TransactionController` | the HTTP handlers |
| `PaymentRoutes` | the two attempt routes: the idempotency gate in front of the attempt handlers, with its own 409 and replay replies |
| `Listing` | the pagination and filtering the three controllers share |
| `Filtering` | the order-keeping filter the three listings apply to their newest-first collections |
| `PaymentPage` | the key, mask, formatter and reply handling of `PaymentPage.jsx` |

Each handler that writes is a method on the `Database`, `AuditLog` and
`Ledger` objects. It is proved equal to a pure specification function of the
old state: `Attempt`, `Retry`, `CreateOrderSpec`, `Admit`/`Finish` or `Logged`.
The lemmas are stated about those functions.

Amounts are integers in minor units. All five currencies have two decimals, so
the schema's and validator's minimum of one unit is 100.

Several inputs are parameters rather than computed:

- the clock (`now`, `startTime`, `endTime`). An attempt reads the clock once before the provider call (`startTime`) and once after it (`endTime`), so `Date.now()` and each `new Date()` of one phase are read as one instant. In the source, the expiry check reads `new Date()` after the order lookup (`backend/services/paymentService.js:25`), which is later than `startTime` (line 16); `processedAt` and `paidAt` (lines 115 and 120) are two separate reads that the model gives the same `endTime`;
- the uuids behind the default ids;
- the provider's answer, as a function from request to outcome;
- SHA-256, HMAC-SHA256 and `JSON.stringify`;
- the library checks `isEmail` and `isCreditCard`;
- the year the server started;
- the result of `Math.random()`;
- whether the audit store accepts writes.

An error thrown inside a handler reaches the application's error handler.
`errorHandler` is not part of this model. The model assumes it replies with
the error's `statusCode` (500 when there is none) and its `message`. Schema
validation errors and duplicate-key errors therefore appear as 500.

Some behaviours of the code are easy to miss; the model keeps them as written:

- **The attempt budget can be overrun.** The decline branch sets the new order
  status from the attempt count read *before* the increment
  (`paymentService.js:145-146`). After the third declined attempt the order is
  `created` again, not `failed`. `processPayment` checks exhaustion only for
  `failed` orders, so it admits a fourth attempt and the count reaches 4.
  See `AttemptProperties.LastAllowedDeclineReopens`,
  `AttemptProperties.ThreeDeclinedRetries` and
  `AttemptProperties.AttemptsCanExceedMax`.
- **`processPayment` admits more statuses than `retryPayment`.** It accepts
  `processing` and `refunded` orders (`paymentService.js:19-26`).
  `retryPayment` rejects them (`paymentService.js:181-183`).
- **The request fingerprint is never compared.** `idempotency.js` computes
  `requestHash` but never reads it.
- **Idempotency keys are unique across all users**
  (`IdempotencyKey.js:8`). A second user's request with a taken key therefore
  fails on the unique index.
- **The audit schema has eleven events**, including `payment.refunded` and
  `order.status_changed`. No event `idempotency.hit` is ever written.
- **Order and payment updates are unconditional writes.** A lost update is
  not detected.

## Model

| member | source | states |
|---|---|---|
| OrderModel.ParseCurrency | backend/models/Order.js:22-28 | the upper-cased text is accepted exactly when it is one of the five codes, and yields that code |
| OrderModel.CurrencyCodeRoundTrip | backend/models/Order.js:22-28 | every code is upper case already and parses to itself, and so does every spelling that upper-cases to it (`inr`, or `ınr` with a dotless i) |
| OrderModel.DefaultOrderIdShape | backend/models/Order.js:6-10 | a default order id is `ORD_` followed by 16 upper-case hex digits |
| OrderModel.DraftViolations | backend/models/Order.js:17-39 | no violation iff the amount is present and at least 100, the currency (if any) upper-cases to an allowed code, and the trimmed description is at most 255 characters long |
| OrderModel.NewOrder | backend/models/Order.js:4-63 | an insert succeeds iff there is no violation, and otherwise reports exactly the violations; a new order gets the defaults `INR` (or the upper-cased code), `created`, 0 of 3 attempts, expiry 30 minutes after `now`, and a trimmed description |
| OrderModel.NewOrderExpiryWindow | backend/models/Order.js:53-56 | a new order is unexpired exactly up to 30 minutes after its creation |
| Ids.IdFromUuidShape | backend/models/Order.js:9 | dropping a uuid's dashes, upper-casing it and keeping 16 characters leaves 16 upper-case hex digits after the prefix |
| PaymentModel.ParseMethod | backend/models/Payment.js:32-36 | exactly the four method names are accepted |
| PaymentModel.DefaultPaymentIdShape | backend/models/Payment.js:7-11 | a default payment id is `PAY_` followed by 16 upper-case hex digits |
| PaymentModel.NewPayment | backend/models/Payment.js:5-78 | a new payment is `pending` with the draft's fields and no outcome yet |
| TransactionLog.ParseEvent | backend/models/TransactionLog.js:20-36 | an accepted name is the name of the event it yields |
| TransactionLog.EventNamesClosed | backend/models/TransactionLog.js:20-36 | every event's name parses back to that event, so the eleven names are distinct; a text is accepted iff it is the name of some event |
| TransactionLogger.EntryFor | backend/services/transactionLogger.js:6-17 | the entry copies the call's fields; severity defaults to `info`; ip and user agent come from the request when there is one |
| TransactionLogger.Logged | backend/services/transactionLogger.js:4-21 | the log grows by exactly that entry when the store is up and the message is non-empty; otherwise it is unchanged and no error escapes |
| TransactionLogger.LoggedIsAppendOnly | backend/services/transactionLogger.js:4-21 | a log call never removes or rewrites earlier entries |
| TransactionLogger.AuditLog.Log | backend/services/transactionLogger.js:4-21 | the audit log becomes `Logged` of the old log |
| Crypto.MaskCardNumber | backend/utils/crypto.js:9-12 | `**** **** **** ` followed by the last min(4, n) characters of the number without white space |
| Crypto.DetectCardType | backend/utils/crypto.js:14-21 | visa for a leading 4, mastercard for 51-55, amex for 34/37, discover for a leading 6, unknown otherwise; each type holds exactly when its prefix test holds |
| Crypto.SpacesIgnored | backend/utils/crypto.js:9-21 | white space inserted anywhere changes neither the mask nor the card type |
| Crypto.SpaceFreeFormAgrees | backend/utils/crypto.js:9-21 | the number and its space-free form get the same mask and type |
| Crypto.VerifyWebhookSignature | backend/utils/crypto.js:30-36 | it throws when the decoded byte lengths differ; otherwise it answers whether the bytes are equal |
| Crypto.VerifyAcceptsGenerated | backend/utils/crypto.js:23-36 | a signature generated for a payload and secret verifies |
| Crypto.VerifyIgnoresCase | backend/utils/crypto.js:30-36 | the upper-case spelling of a valid signature verifies too |
| Crypto.VerifyWithTrailingText | backend/utils/crypto.js:30-36 | trailing text that decodes to no byte is ignored; other trailing text makes verification throw |
| WebhookService.WebhookSecret | backend/services/webhookService.js:22 | an unset or empty secret falls back to `default_secret` |
| WebhookService.SendWebhook | backend/services/webhookService.js:9-22 | the payload's event follows the payment status, and its fields come from the payment and order; the signature is the HMAC of the payload under the secret |
| WebhookService.DispatchVerifies | backend/services/webhookService.js:22 | every dispatched signature verifies with the same secret |
| WebhookService.DeliveryLogRequest | backend/services/webhookService.js:31-39 | the `webhook.sent` entry names the payment, order and user, and shows only the shortened signature |
| WebhookService.DeliveryLogHidesSignature | backend/services/webhookService.js:28-38 | the logged signature is at most 19 characters: a prefix of the real one, at most 16 long, then `...` |
| Store.FindOwnedOrder | backend/services/paymentService.js:19 | the order is found iff it exists under that id and belongs to the caller |
| Store.FindOwnedPayment | backend/controllers/paymentController.js:82-85 | the payment is found iff it exists under that id and belongs to the caller |
| PaymentService.AttemptGuard | backend/services/paymentService.js:19-26 | the checks run in the source's order: 404 missing or not owned, 409 paid, 422 failed with attempts ≥ max, 410 expired, 409 cancelled; otherwise the order |
| PaymentService.StoredCard | backend/services/paymentService.js:40-49 | the stored card is the mask, the hash, the type and the expiry; it has no CVV |
| PaymentService.PaymentDraftFor | backend/services/paymentService.js:29-53 | amount and currency come from the order and `retryCount` is the attempt count before this attempt; card details are kept only for `card`, UPI details only for `upi` |
| PaymentService.ProviderRequestFor | backend/services/paymentService.js:81-103 | card, UPI or generic charge by method; a card charge carries only the stored summary |
| PaymentService.EngineResultOf | backend/services/paymentService.js:104-107 | a provider exception becomes a decline with reason `Payment gateway unavailable` |
| PaymentService.Settle | backend/services/paymentService.js:112-116 | approval gives `success` with a response and time; decline gives `failed` with the reason |
| PaymentService.CloseOrder | backend/services/paymentService.js:118-121 | approval gives `paid` with `paidAt`; a decline gives `failed` iff the count *before* the attempt had reached the maximum, else `created` |
| PaymentService.InitiatedLog | backend/services/paymentService.js:64-73 | the `payment.initiated` entry names payment, order, user and method |
| PaymentService.OutcomeLog | backend/services/paymentService.js:123-160 | the `payment.success` or `payment.failed` entry; a decline records remaining = max(0, max − before − 1) |
| PaymentService.OpenAttempt | backend/services/paymentService.js:56-79 | inserts the payment, opens the attempt (one more attempt, `processing`), logs it and marks the payment `processing` |
| PaymentService.ApplyOutcome | backend/services/paymentService.js:109-163 | writes the settled payment and the closed order, and logs the outcome |
| PaymentService.ProcessPayment | backend/services/paymentService.js:15-169 | the stores, log and result equal `Attempt` of the old state |
| PaymentService.RetryGuard | backend/services/paymentService.js:175-183 | 404 missing, 409 paid, 422 attempts ≥ max, 422 status not `created`/`failed`; otherwise the order |
| PaymentService.RetryLog | backend/services/paymentService.js:185-192 | the `payment.retry` warning names attempt `attempts + 1` of `maxAttempts` |
| PaymentService.RetryPayment | backend/services/paymentService.js:174-195 | the stores, log and result equal `Retry` of the old state |
| AttemptProperties.ExpiryOnlyRefusesCreatedOrders | backend/services/paymentService.js:19-26 | through the `isExpired` virtual (`Order.js:65-67`), the guard answers 410 iff the order is `created` and past its expiry; a 410 stays 410 at every later moment; for any other status the guard's answer does not depend on the clock |
| AttemptProperties.RejectedAttemptChangesNothing | backend/services/paymentService.js:19-26 | a refused attempt changes no store and no log |
| AttemptProperties.AttemptKeepsStoresKeyed | backend/services/paymentService.js:56-62 | every order and payment stays stored under its own id after an attempt |
| AttemptProperties.RetryKeepsStoresKeyed | backend/services/paymentService.js:174-195 | the same holds after a retry |
| AttemptProperties.AdmittedAttemptOpensOnce | backend/services/paymentService.js:56-79 | an admitted attempt counts exactly one more attempt and creates exactly one payment |
| AttemptProperties.NewPaymentFromOrder | backend/services/paymentService.js:29-53 | the new payment copies amount and currency from the order and records the earlier attempt count |
| AttemptProperties.CvvOnlyReachesCard | backend/services/paymentService.js:40-49 | two card inputs that differ only in the CVV give identical stored cards, drafts and provider requests |
| AttemptProperties.CvvIsNeverUsed | backend/services/paymentService.js:40-49 | changing the CVV changes nothing about the attempt: stores, log and result |
| AttemptProperties.ProviderExceptionIsDecline | backend/services/paymentService.js:104-107 | a throwing provider ends the attempt as a decline, not as an error |
| AttemptProperties.ApprovedAttempt | backend/services/paymentService.js:112-137 | on approval the payment is `success` with the provider's response and the order `paid` at the end time; the webhook reports success; with the audit store up the log gains exactly `payment.initiated` then `payment.success` |
| AttemptProperties.DeclinedAttempt | backend/services/paymentService.js:139-162 | on decline the payment is `failed` with the reason; the order is `failed` iff the count before the attempt had reached the maximum, else `created`; with the audit store up the log gains `payment.initiated` then `payment.failed` with remaining = max(0, max − before − 1) |
| AttemptProperties.AttemptIgnoresLog | backend/services/paymentService.js:64-73 | the outcome and the stores depend on neither the log nor the audit store's health |
| AttemptProperties.AttemptWithoutLog | backend/services/transactionLogger.js:18-20 | with the audit store down, the log is unchanged |
| AttemptProperties.AuditOutageDoesNotChangeOutcome | backend/services/transactionLogger.js:18-20 | an audit outage changes nothing but the log |
| AttemptProperties.ProcessPaymentAdmitsWhatRetryRejects | backend/services/paymentService.js:19-26 | `processing`/`refunded` orders pass `processPayment`'s guards and fail `retryPayment`'s with 422 |
| AttemptProperties.LastAllowedDeclineReopens | backend/services/paymentService.js:145-148 | declining the last allowed attempt leaves the order `created`, and `processPayment` admits it again |
| AttemptProperties.AttemptsCanExceedMax | backend/services/paymentService.js:22 | an admitted attempt on a used-up order counts past `maxAttempts` |
| AttemptProperties.PaidOrderIsFinal | backend/services/paymentService.js:21 | every attempt or retry on a paid order is refused with 409 and changes nothing |
| AttemptProperties.RetryLogsThenDelegates | backend/services/paymentService.js:185-194 | a retry that passes its guards logs `payment.retry` and then runs `processPayment` |
| AttemptProperties.DeclinedRetryStep | backend/services/paymentService.js:174-195 | a declined retry below the limit is admitted, counts one more attempt, and leaves the order `created` |
| AttemptProperties.DeclinedRetries | backend/services/paymentService.js:174-195 | a run of declined retries within the limit, each with its own fresh payment id (`Declining`), leaves the order `created` with one more attempt per retry; the payment store gains exactly those ids (`RetryAll` is the world after the run) |
| AttemptProperties.ThreeDeclinedRetries | backend/services/paymentService.js:145-148 | after three declined retries of a new order (limit 3) it is `created` with 3 attempts; a fourth retry is refused with 422, but `processPayment` admits a fourth attempt, which takes the count to 4 |
| AttemptProperties.ExhaustedRetryRefused | backend/services/paymentService.js:178-180 | a retry on an unpaid order at the limit is refused with 422 and changes nothing |
| AttemptProperties.AdmittedAttemptWrites | backend/services/paymentService.js:56-62 | an admitted attempt writes the closed order under its id and adds exactly one payment id |
| AttemptProperties.AttemptsCanExceedMaxHere | backend/services/paymentService.js:19-26 | a `created`, unexpired order is admitted whatever its attempt count, and the count grows by one |
| IdempotencyKeyModel.NewRecord | backend/models/IdempotencyKey.js:3-32 | the required fields are checked; a new record is `processing` with no response and expires 24 hours on |
| IdempotencyKeyModel.Reaped | backend/models/IdempotencyKey.js:28-32 | the TTL monitor keeps exactly the records whose expiry is ahead |
| IdempotencyProperties.NewRecordLivesOneDay | backend/models/IdempotencyKey.js:28-32 | a new record survives reaping for exactly 24 hours |
| Idempotency.CheckKey | backend/middlewares/idempotency.js:6-14 | missing or empty gives the "required" 400; otherwise a length outside 16..255 gives the length 400 |
| Idempotency.FindRecord | backend/middlewares/idempotency.js:21-24 | a record is found iff the key is held by this user |
| Idempotency.Admit | backend/middlewares/idempotency.js:5-53 | header errors; then 409 while in flight, a replay of the cached body once completed, or a new `processing` record (which fails when the key is taken or the fingerprint is empty) |
| Idempotency.Finish | backend/middlewares/idempotency.js:56-67 | a 2xx reply completes the record with the body; any other reply deletes it; other records are untouched |
| Idempotency.Ledger.Check | backend/middlewares/idempotency.js:5-53 | the ledger and the answer equal `Admit` |
| Idempotency.Ledger.Respond | backend/middlewares/idempotency.js:56-67 | the ledger becomes `Finish` of the old ledger |
| IdempotencyProperties.LedgerStaysKeyed | backend/models/IdempotencyKey.js:8 | admission and completion keep one record per key |
| IdempotencyProperties.ReplayAfterSuccess | backend/middlewares/idempotency.js:35-41 | a key answered with 2xx replays exactly that body to the same user, whatever the new request; the ledger is unchanged |
| IdempotencyProperties.FailedReplyFreesKey | backend/middlewares/idempotency.js:63-65 | a non-2xx reply restores the old ledger, and the key is admitted afresh |
| IdempotencyProperties.AnsweredRequestSettles | backend/middlewares/idempotency.js:56-67 | after an admitted request is answered, only its own record differs from the old ledger, and it is kept, completed with the body and still the user's, iff the reply is 2xx |
| IdempotencyProperties.NextRequestAfterSettling | backend/middlewares/idempotency.js:21-50 | under a settled key, the next request of the owner is replayed from a completed record, and admitted afresh once the record is deleted |
| IdempotencyProperties.InFlightDuplicateConflicts | backend/middlewares/idempotency.js:27-33 | a duplicate while the first request is in flight gets 409 and does not reach the handler |
| IdempotencyProperties.FingerprintNeverCompared | backend/middlewares/idempotency.js:16-41 | for a held key the answer is the same whatever the fingerprint |
| IdempotencyProperties.KeyIsGlobal | backend/models/IdempotencyKey.js:8 | another user's key is neither replayed nor admitted; the insert fails |
| IdempotencyProperties.ExpiryActsThroughReaping | backend/middlewares/idempotency.js:21-24 | an expired record is still replayed until it is reaped; after reaping the key is admitted afresh |
| Listing.ParseIntReadsNumeral | backend/controllers/paymentController.js:93 | `parseInt` of a decimal numeral followed by non-digit text reads the numeral |
| Listing.ParseIntReadsNegative | backend/controllers/paymentController.js:94 | `parseInt` reads a minus sign |
| Listing.OrDefault | backend/controllers/paymentController.js:93 | `x \|\| d`: NaN and 0 give the fallback; any other number is kept |
| Listing.PageParam | backend/controllers/paymentController.js:93 | never 0; 1 when missing, non-numeric or 0; otherwise the number read |
| Listing.LimitParam | backend/controllers/paymentController.js:94 | never 0 and never above the cap; the fallback (capped) when missing; a positive number up to the cap is used as given |
| Listing.PageParamReadsNumber | backend/controllers/paymentController.js:93 | a written page number n ≥ 1 is the page |
| Listing.LimitParamReadsNumber | backend/controllers/paymentController.js:94 | a written limit n ≥ 1 is used, capped |
| Listing.CeilDiv | backend/controllers/paymentController.js:114 | `Math.ceil(total / limit)` exactly, for either sign of limit |
| Listing.Paginate | backend/controllers/paymentController.js:93-114 | the reply's page, limit and total, and a page count with (pages − 1) × limit < total ≤ pages × limit for a positive limit |
| Listing.Window | backend/controllers/paymentController.js:105-106 | `skip` then `limit`: at most `limit` items, taken from position `skip` on |
| Listing.PagesCoverResults | backend/controllers/paymentController.js:95-114 | the pages 1..`pages` list every match exactly once, in order; every later page is empty |
| Listing.ListPage | backend/controllers/paymentController.js:93-114 | a negative skip fails with the store's error; otherwise the window of the matches and the pagination of all of them |
| Listing.DefaultListing | backend/controllers/paymentController.js:93-95 | without page or limit the first `min(fallback, cap)` matches are listed |
| Listing.NumberedPage | backend/controllers/paymentController.js:93-95 | page n with the default limit lists the n-th slice |
| Listing.NegativeLimitPassesCap | backend/controllers/paymentController.js:94 | `limit=-n` passes `Math.min`, lists min(n, total) matches and reports a non-positive page count |
| PaymentController.RemainingAttempts | backend/controllers/paymentController.js:37 | non-negative; 0 iff the attempts have reached the maximum; otherwise attempts + remaining = max |
| PaymentController.AttemptReply | backend/controllers/paymentController.js:18-40 | 200 for a successful payment and 402 otherwise; `success` iff 200; the four messages; the payment and order fields shown |
| PaymentController.InitiatePayment | backend/controllers/paymentController.js:5-41 | the world equals `Attempt` of the old world; the reply is that outcome's reply |
| PaymentController.RetryPaymentHandler | backend/controllers/paymentController.js:43-79 | the world equals `Retry` of the old world; the reply is that outcome's reply |
| PaymentController.ReplyReportsProvider | backend/controllers/paymentController.js:18 | an admitted attempt replies 200 iff the provider approved and 402 iff it declined |
| PaymentController.DeclineReplyAgreesWithLogAndRetry | backend/controllers/paymentController.js:37 | after a decline the reply's remaining count equals the one in the `payment.failed` entry; it is positive iff a retry would be admitted |
| PaymentController.GetPaymentById | backend/controllers/paymentController.js:81-90 | the caller's own payment, else 404 |
| PaymentController.MatchingPayments | backend/controllers/paymentController.js:97-99 | a payment matches iff it has the owner and the supplied status and method; the result keeps the newest-first order (a subsequence of the input) and each matching payment's multiplicity |
| PaymentController.MyPaymentsAreOwn | backend/controllers/paymentController.js:92-117 | only the caller's payments, with the status and method asked for; the total counts exactly those |
| PaymentController.AllPaymentsCountsEverything | backend/controllers/paymentController.js:120-146 | without filters the admin total is the number of payments |
| PaymentController.DashboardStats | backend/controllers/paymentController.js:169-174 | the `forEach` loop computes the fold `StatsOf` of the groups |
| PaymentController.DashboardSummarisesPayments | backend/controllers/paymentController.js:150-174 | for a correct grouping: the total is the number of payments, each listed count is correct, every present status is listed, `success`/`failed`/`pending` always are, and revenue is the sum over successful payments |
| PaymentController.GetDashboardStats | backend/controllers/paymentController.js:149-180 | the stats and the ten newest payments |
| PaymentRoutes.GateReply | backend/middlewares/idempotency.js:26-41 | a key in flight gets 409 with `success` false, the conflict message and code `IDEMPOTENCY_CONFLICT`; a completed key gets 200 with `success` true, the cached message, `idempotencyHit` and the stored body as `data`; a refused key gets the error handler's reply |
| PaymentRoutes.Serve | backend/routes/paymentRoutes.js:50-51 | a request the gate stops changes neither the ledger nor the stores; an admitted one runs the handler under its key, and its record is kept, completed with the reply's body, iff the reply is 2xx, and deleted otherwise; no other record changes |
| PaymentRoutes.ServedAttemptSettlesKey | backend/middlewares/idempotency.js:56-67 | for a first payment under a fresh key, the record survives iff the provider approved; after an approval the next request under the key is answered from it with that body; after a decline the ledger is as before and the key is admitted afresh |
| PaymentRoutes.ServedReplyReportsProvider | backend/routes/paymentRoutes.js:50 | a first payment under a fresh key is answered with 2xx iff the provider approved, and the stores end as the attempt leaves them |
| PaymentRoutes.RepeatAfterSuccessReplays | backend/middlewares/idempotency.js:35-41 | after a 2xx reply, every later request of the same user under the key, on either route, gets the 200 replay of that body and changes nothing |
| PaymentRoutes.RepeatAfterFailureRunsAgain | backend/middlewares/idempotency.js:63-65 | after a non-2xx reply the ledger is as before, and the next request under the key runs its handler again |
| PaymentRoutes.InFlightRepeatConflicts | backend/middlewares/idempotency.js:27-33 | a second request before the first is answered gets the 409 conflict reply; nothing runs and nothing changes |
| OrderController.CurrencyOrDefault | backend/controllers/orderController.js:11 | the supplied currency, or `INR` when missing or empty |
| OrderController.CreatedLog | backend/controllers/orderController.js:16-23 | the `order.created` entry; its message repeats the amount and currency as sent |
| OrderController.CreateOrder | backend/controllers/orderController.js:5-30 | the orders and log equal `CreateOrderSpec` of the old state |
| OrderController.CreatedOrderIsFresh | backend/controllers/orderController.js:8-23 | creation succeeds iff the schema accepts the draft and the id is free; a new order is the caller's, `created`, 0 of 3 attempts; exactly one log entry; a failure changes nothing |
| OrderController.CreatedOrderIsPayable | backend/controllers/orderController.js:8-14 | the new order passes `processPayment`'s guards for its owner throughout its 30 minutes |
| OrderController.GetOrderById | backend/controllers/orderController.js:54-63 | the caller's own order, else 404 |
| OrderController.MatchingOrders | backend/controllers/orderController.js:37-38 | an order matches iff it has the owner, the supplied status, and (admin, line 73) the supplied user id, compared as text (the cast error is under Left out); the result keeps the newest-first order (a subsequence of the input) and each matching order's multiplicity |
| OrderController.MyOrdersAreOwn | backend/controllers/orderController.js:32-52 | only the caller's orders with the status asked for; a `userId` parameter changes nothing |
| OrderController.AdminUserFilter | backend/controllers/orderController.js:71-73 | filtering by a user's id lists only that user's orders |
| TransactionController.MatchingEntries | backend/controllers/transactionController.js:8-12 | an entry matches iff it has the supplied event, severity, user and payment; the result keeps the newest-first order (a subsequence of the input) and each matching entry's multiplicity |
| TransactionController.EntriesOf | backend/controllers/transactionController.js:40 | exactly the caller's entries, in newest-first order (a subsequence of the input) with their multiplicity |
| TransactionController.MyLogsAreOwn | backend/controllers/transactionController.js:34-54 | only entries naming the caller; the total counts exactly those |
| TransactionController.AdminFilterHolds | backend/controllers/transactionController.js:3-32 | every listed entry has the event, severity, user and payment asked for |
| TransactionController.UnknownEventListsNothing | backend/controllers/transactionController.js:8-9 | an event filter naming no schema event lists nothing |
| Validators.Check | backend/middlewares/validators.js:8 | one error at the path when a check fails, none when it passes |
| Validators.Validate | backend/middlewares/validators.js:5-12 | it passes iff there are no errors; otherwise it gives 400 with `Validation failed: ` and the joined `path: msg` list |
| Validators.OrderErrors | backend/middlewares/validators.js:31-40 | no error iff the amount is at least 100, the currency (if given) is one of the five exact codes, and the trimmed description is at most 255 characters |
| Validators.SanitizedOrder | backend/middlewares/validators.js:39 | the handler sees the description trimmed |
| Validators.ValidatedOrderIsStorable | backend/middlewares/validators.js:31-40 | a body the validator accepts gives a draft the schema accepts |
| Validators.NonCanonicalCurrencyRefused | backend/middlewares/validators.js:35-38 | every spelling of a code other than the code itself (`inr`, `Usd`, `ınr`) draws the currency error, while the schema parses it to that code and raises no currency violation |
| Validators.PaymentErrors | backend/middlewares/validators.js:43-74 | no error iff the order id is non-empty, the method is one of four, the card checks pass for `card`, and the VPA checks pass for `upi` |
| Validators.MethodSelectsChains | backend/middlewares/validators.js:48-73 | card fields are not read unless the method is `card` |
| Validators.MissingCardFieldsReported | backend/middlewares/validators.js:48-68 | a card payment without card fields gets nine errors in chain order; `notEmpty` keeps the default message, because `withMessage` names only the validator before it |
| Validators.ExpiryMonthRange | backend/middlewares/validators.js:53-57 | a written month n passes iff 1 ≤ n ≤ 12 |
| Validators.CvvAcceptsDecimalPoint | backend/middlewares/validators.js:63-68 | for any digit strings `a` and non-empty `b`, `a.b` passes `isNumeric` with or without a sign, and as a 3- or 4-character CVV draws no CVV error |
| Validators.CvvChecksPass | backend/middlewares/validators.js:63-68 | a 3- or 4-character CVV that reads as a number draws no CVV error |
| Validators.NumericTextCharacters | backend/middlewares/validators.js:67 | whatever passes `isNumeric` holds only digits and points after an optional leading sign |
| Validators.VpaShape | backend/middlewares/validators.js:69-73 | `l@d` passes iff `l` and `d` are non-empty runs of word characters, dots and dashes |
| Validators.SignupErrors | backend/middlewares/validators.js:15-23 | no error iff the trimmed name is 1..100 characters, the email passes, and the password has at least 8 characters with lower, upper and digit on its first line |
| Validators.PasswordRuleReadsFirstLine | backend/middlewares/validators.js:21 | the look-aheads cannot cross a line terminator: for any first line `l` and any text after the terminator, the password passes exactly when `l` holds a lower-case letter, an upper-case letter and a digit |
| Validators.LoginErrors | backend/middlewares/validators.js:25-28 | no error iff the email passes and the password is non-empty |
| PaymentPage.GeneratedKeyAccepted | frontend/src/pages/PaymentPage.jsx:6-7 | a key made at 10^9 ms or later passes the server's 16..255 length check |
| PaymentPage.KeysOfDistinctMomentsDiffer | frontend/src/pages/PaymentPage.jsx:6-7 | keys made at different milliseconds differ |
| PaymentPage.MaskCardShape | frontend/src/pages/PaymentPage.jsx:9-14 | always 19 characters, with spaces at 4, 9 and 14; slot k shows the k-th digit or `*`; with no digits the result is `**** **** **** ****`, the same as the general formula |
| PaymentPage.FormatIsGrouped | frontend/src/pages/PaymentPage.jsx:37-39 | the formatted input is the first 16 digits in groups of four |
| PaymentPage.FormatCardNumberProperties | frontend/src/pages/PaymentPage.jsx:37-39 | without spaces it is the first ≤ 16 digits; it is at most 19 characters; formatting is idempotent |
| PaymentPage.PayloadFor | frontend/src/pages/PaymentPage.jsx:50-60 | card fields (number without spaces) only for `card`, the VPA only for `upi` |
| PaymentPage.SentNumberIsTypedDigits | frontend/src/pages/PaymentPage.jsx:37-53 | a number typed through the formatter is sent as the first 16 digits typed |
| PaymentPage.Landed | frontend/src/pages/PaymentPage.jsx:62-72 | a resolved reply becomes the result; a rejected one keeps the result and shows its message or the fallback |
| PaymentPage.Page.HandlePay | frontend/src/pages/PaymentPage.jsx:45-76 | sends the body under the page's own key; the view becomes `Landed` of the old result |
| PaymentPage.Page.HandleRetry | frontend/src/pages/PaymentPage.jsx:78-104 | clears the result and sends under a key made now, which differs from the page key when made at another millisecond |
| PaymentPage.RetryNeverOfferedAsWritten | frontend/src/pages/PaymentPage.jsx:147 | with axios's default status rule, no reply of either attempt route makes the retry button appear: not a handler's reply for any outcome, nor the 409 conflict, the 200 cached replay or an error |
| PaymentPage.DeclineHidesRetryAsWritten | frontend/src/pages/PaymentPage.jsx:62-72 | a declined attempt with attempts to spare lands as the error `Payment failed` with no result, so no retry is offered |
| PaymentPage.RetryOfferedExactlyWhenAllowed | frontend/src/pages/PaymentPage.jsx:147 | with a client that resolves 402, the button appears after a decline iff the server would admit a retry, and never after an approval |

## Left out

- The provider itself (`paymentEngine.js`) is not modelled. Its random approval, delays and float success rate become a function parameter that approves, declines or throws.
- Concurrency is not modelled: every operation runs alone. This leaves out the check-then-insert race in the idempotency middleware, the non-atomic order updates and the notifier's timer.
- The delayed `webhook.sent` write runs after a random delay. The model gives its entry (`DeliveryLogRequest`) but does not interleave it with later requests.
- MongoDB mechanics are not modelled: `$inc`, `populate`, `sort` and connections. The TTL monitor is modelled only as `Reaped`. Newest-first order is taken as given. `aggregate` is taken as a list of groups. `methodBreakdown` on the dashboard is passed through unexamined.
- SHA-256, HMAC-SHA256, `JSON.stringify`, `timingSafeEqual`'s timing, `isCreditCard` (Luhn) and `isEmail`/`normalizeEmail` are abstract functions.
- Authentication and JWT are not modelled: the caller's user id is an input. Rate limiting, the server set-up, `errorHandler` and `logger` are not modelled either.
- Amounts are integers in minor units, not JavaScript floats. Validators.OrderErrors: the `isFloat` text rules are not modelled; a non-numeric amount is simply absent.
- OrderController.CreatedLog: the amount in the message is kept as the text the client sent. How JavaScript prints a number is not modelled.
- Lengths count characters, not UTF-16 code units.
- Query parameters are single strings. Array-valued parameters are not modelled.
- Document `_id`s are not modelled: an order's and a payment's ObjectId are identified with their `orderId` and `paymentId`. The audit entries store ObjectIds (backend/services/paymentService.js:30,65-66,124-125,151-152 and backend/controllers/orderController.js:17); the model stores the business ids in their place.
- TransactionController.MatchingEntries: the `userId` and `paymentId` filters are compared as text with the entry's references. In the source they are cast to ObjectIds: a `PAY_…` payment id, or any text that is not a valid ObjectId, makes Mongoose throw a cast error, answered with 500. The model lists nothing, or the entries that name that payment, instead.
- OrderController.MatchingOrders: the admin listing's `userId` filter is compared as text with the owner's id. In the source, `getAllOrders` passes `req.query.userId` into the filter (backend/controllers/orderController.js:73) and `Order.userId` is an ObjectId (backend/models/Order.js:11-15): a text that is not a valid ObjectId makes Mongoose throw a cast error, answered with 500. The model answers 200 with an empty page instead.
- Order and payment store writes are taken to succeed. In the source, a failed `payment.save()` before the provider call sits inside the provider's `try` (backend/services/paymentService.js:77-79), so it becomes the `Payment gateway unavailable` decline (402), not a 500. The ledger writes in the idempotency middleware's `res.json` override (backend/middlewares/idempotency.js:57-66) run in an async function that nobody awaits: if they fail, no reply is sent at all. Neither failure is modelled.
- OrderModel.ParseCurrency: upper-casing maps the ASCII letters, the dotless i (U+0131) and the long s (U+017F), whose upper-case forms are single ASCII letters. Other letters keep their case, and multi-character expansions such as `ß` to `SS` and the `ﬁ` and `ﬅ` ligatures are not modelled. None of them can yield one of the five codes, so the accepted spellings are unchanged.
- PaymentRoutes.Serve: the rate limiter and the validation chain that run before the idempotency gate are not composed in; every request is served as if it had passed them.
- PaymentPage: React rendering, toasts, navigation, the order fetch and `formatCurrency` are not modelled. So is the 401 redirect interceptor in `api.js`.
- The other pages, the auth controller and the webhook receiver are not modelled.

## Findings

| source | as written | input that shows it | evidently intended | confidence | as-written member | corrected member |
|---|---|---|---|---|---|---|
| frontend/src/pages/PaymentPage.jsx:62-72,147 with frontend/src/services/api.js:3-7 | The client keeps axios's default status rule, under which a non-2xx reply rejects the call. A declined payment is answered with 402, so it lands in `catch`: the page shows an error line, `result` stays empty, and the retry button (`!result.success && remainingAttempts > 0`) can never appear. | a first attempt on a new order (3 allowed) that the provider declines: the reply is 402 with `remainingAttempts` 2 | the failed-result screen with a retry button whenever the server still admits a retry | high (not executed) | PaymentPage.DeclineHidesRetryAsWritten | PaymentPage.RetryOfferedExactlyWhenAllowed |
