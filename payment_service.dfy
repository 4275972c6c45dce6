/** The payment attempt state machine (backend/services/paymentService.js).
    `ProcessPayment` checks the order, records a payment, opens the attempt,
    asks the provider, and applies the outcome to payment, order and audit log;
    `RetryPayment` adds its own guards and a retry entry, then delegates.
    Both are proved equal to the pure specifications `Attempt` and `Retry` over
    a `World` value, and the properties of the machine are lemmas about those. */
module PaymentService {
  import opened Common
  import opened OrderModel
  import opened PaymentModel
  import opened TransactionLog
  import opened TransactionLogger
  import Crypto
  import opened WebhookService
  import opened Store

  /** Declared by the service and never read: the limit that applies is each order's `maxAttempts`. */
  const MAX_RETRY_ATTEMPTS: nat := 3

  const GATEWAY_UNAVAILABLE: string := "Payment gateway unavailable"

  /** The card fields of a request; `cvv` is accepted and then never used. */
  datatype CardInput = CardInput(number: string, expiryMonth: string, expiryYear: string, cvv: string)

  /** The arguments of `processPayment` and `retryPayment`. */
  datatype AttemptRequest = AttemptRequest(
    orderId: string,
    userId: UserId,
    paymentMethod: PaymentMethod,
    card: Option<CardInput>,
    upi: Option<UpiDetails>,
    idempotencyKey: Option<string>,
    req: Option<RequestInfo>)

  /** What the provider is asked to charge. Net banking and wallets go through
      the card entry point with an empty card object. */
  datatype ProviderRequest =
    | CardCharge(amount: int, currency: Currency, card: Option<CardDetails>, orderRef: string)
    | UpiCharge(amount: int, currency: Currency, upi: Option<UpiDetails>, orderRef: string)
    | GenericCharge(amount: int, currency: Currency, orderRef: string)

  datatype EngineResult =
    | Approved(gatewayResponse: Option<GatewayResponse>)
    | Declined(failureReason: string, gatewayResponse: Option<GatewayResponse>)

  /** The provider either answers or throws. */
  datatype ProviderOutcome = Returned(result: EngineResult) | Threw

  /** The environment of one attempt: the clock when it starts and after the
      provider answers, the uuid the payment id is made from, SHA-256, the
      provider, the webhook signer and clock, and whether the audit store
      accepts writes. */
  datatype Context = Context(
    startTime: int,
    endTime: int,
    paymentUuid: string,
    sha256: string -> string,
    provider: ProviderRequest -> ProviderOutcome,
    signer: Signer,
    timestamp: string,
    logUp: bool)

  /** The collections an attempt touches. */
  datatype World = World(orders: map<string, Order>, payments: map<string, Payment>, log: seq<LogEntry>)

  /** What an admitted attempt returns: the payment and order as re-read at the
      end, the stored order and payment at the moment the provider was called, and
      the notification that was built. */
  datatype AttemptReport = AttemptReport(
    payment: Payment,
    order: Order,
    orderAtCall: Order,
    paymentAtCall: Payment,
    dispatch: Dispatch)

  datatype Attempted = Attempted(outcome: Result<AttemptReport, AppError>, world: World)

  /** Inserting a payment whose generated id is taken violates the unique index. */
  const DUPLICATE_PAYMENT_ID: AppError := AppError("E11000 duplicate key error: paymentId", UNHANDLED_STATUS)

  /** The guards of `processPayment`, in the order the service checks them. */
  function AttemptGuard(orders: map<string, Order>, orderId: string, userId: UserId, now: int): (r: Result<Order, AppError>)
    ensures var found := FindOwnedOrder(orders, orderId, userId);
      && (r.Err? && r.error.statusCode == 404 <==> found.None?)
      && (r.Err? && r.error.statusCode == 409 <==> found.Some? && found.value.status in {Paid, Cancelled})
      && (r.Err? && r.error.statusCode == 422 <==>
            found.Some? && found.value.status == OrderStatus.Failed && found.value.attempts >= found.value.maxAttempts)
      && (r.Err? && r.error.statusCode == 410 <==> found.Some? && IsExpired(found.value, now))
      && (r.Err? ==> r.error.statusCode in {404, 409, 410, 422})
      && (r.Ok? ==> found == Some(r.value))
  {
    match FindOwnedOrder(orders, orderId, userId)
    case None => Err(AppError("Order not found or does not belong to this user.", 404))
    case Some(order) =>
      if order.status == Paid then Err(AppError("Order has already been paid.", 409))
      else if order.status == OrderStatus.Failed && order.attempts >= order.maxAttempts then
        Err(AppError("Order has exceeded maximum retry attempts (" + NatToString(order.maxAttempts) + ").", 422))
      else if IsExpired(order, now) then Err(AppError("Order has expired. Please create a new order.", 410))
      else if order.status == Cancelled then Err(AppError("Order has been cancelled.", 409))
      else Ok(order)
  }

  /** The stored summary of a card: mask, hash, network and expiry, and no CVV. */
  function StoredCard(sha256: string -> string, card: CardInput): (d: CardDetails)
    ensures d.maskedNumber == Crypto.MaskCardNumber(card.number)
    ensures d.cardHash == Crypto.HashCardNumber(sha256, card.number)
    ensures d.cardType == Crypto.CardTypeName(Crypto.DetectCardType(card.number))
    ensures d.expiryMonth == card.expiryMonth && d.expiryYear == card.expiryYear
  {
    CardDetails(
      maskedNumber := Crypto.MaskCardNumber(card.number),
      cardHash := Crypto.HashCardNumber(sha256, card.number),
      cardType := Crypto.CardTypeName(Crypto.DetectCardType(card.number)),
      expiryMonth := card.expiryMonth,
      expiryYear := card.expiryYear)
  }

  /** The new payment's fields: amount and currency from the order, the attempt
      count before this attempt as `retryCount`, card or UPI details for that method only. */
  function PaymentDraftFor(order: Order, rq: AttemptRequest, sha256: string -> string): (d: PaymentDraft)
    ensures d.orderId == order.orderId && d.userId == rq.userId
    ensures d.amount == order.amount && d.currency == order.currency && d.paymentMethod == rq.paymentMethod
    ensures d.idempotencyKey == rq.idempotencyKey && d.retryCount == Some(order.attempts)
    ensures d.cardDetails.Some? <==> rq.paymentMethod == Card && rq.card.Some?
    ensures d.cardDetails.Some? ==> d.cardDetails.value == StoredCard(sha256, rq.card.value)
    ensures d.upiDetails.Some? <==> rq.paymentMethod == Upi && rq.upi.Some?
    ensures d.upiDetails.Some? ==> d.upiDetails.value.vpa == rq.upi.value.vpa
  {
    PaymentDraft(
      orderId := order.orderId,
      userId := rq.userId,
      amount := order.amount,
      currency := order.currency,
      paymentMethod := rq.paymentMethod,
      cardDetails := if rq.paymentMethod == Card && rq.card.Some? then Some(StoredCard(sha256, rq.card.value)) else None,
      upiDetails := if rq.paymentMethod == Upi && rq.upi.Some? then Some(UpiDetails(rq.upi.value.vpa)) else None,
      idempotencyKey := rq.idempotencyKey,
      retryCount := Some(order.attempts))
  }

  /** The provider call for the request's method; a card charge carries the stored summary only. */
  function ProviderRequestFor(order: Order, rq: AttemptRequest, card: Option<CardDetails>): (r: ProviderRequest)
    ensures r.amount == order.amount && r.currency == order.currency && r.orderRef == order.orderId
    ensures r.CardCharge? <==> rq.paymentMethod == Card
    ensures r.UpiCharge? <==> rq.paymentMethod == Upi
    ensures r.CardCharge? ==> r.card == card
    ensures r.UpiCharge? ==> r.upi == rq.upi
  {
    match rq.paymentMethod
    case Card => CardCharge(order.amount, order.currency, card, order.orderId)
    case Upi => UpiCharge(order.amount, order.currency, rq.upi, order.orderId)
    case _ => GenericCharge(order.amount, order.currency, order.orderId)
  }

  /** A provider exception is turned into a decline. */
  function EngineResultOf(o: ProviderOutcome): (r: EngineResult)
    ensures o.Threw? ==> r == Declined(GATEWAY_UNAVAILABLE, None)
    ensures o.Returned? ==> r == o.result
  {
    match o
    case Returned(result) => result
    case Threw => Declined(GATEWAY_UNAVAILABLE, None)
  }

  /** The payment after the outcome is applied. */
  function Settle(p: Payment, result: EngineResult, now: int): (s: Payment)
    ensures s.status == Success <==> result.Approved?
    ensures s.status == Success || s.status == PaymentStatus.Failed
    ensures s.gatewayResponse == result.gatewayResponse
    ensures result.Approved? ==> s == p.(status := Success, gatewayResponse := result.gatewayResponse, processedAt := Some(now))
    ensures result.Declined? ==>
      s == p.(status := PaymentStatus.Failed, failureReason := Some(result.failureReason), gatewayResponse := result.gatewayResponse)
  {
    match result
    case Approved(gr) => p.(status := Success, gatewayResponse := gr, processedAt := Some(now))
    case Declined(reason, gr) => p.(status := PaymentStatus.Failed, failureReason := Some(reason), gatewayResponse := gr)
  }

  /** The order after the outcome is applied to the opened order `begun`. A
      decline decides between `failed` and `created` with the count `before`
      the attempt, not the incremented one. */
  function CloseOrder(begun: Order, before: Order, result: EngineResult, now: int): (c: Order)
    ensures c.(status := begun.status, paidAt := begun.paidAt) == begun
    ensures c.status == Paid <==> result.Approved?
    ensures result.Approved? ==> c == begun.(status := Paid, paidAt := Some(now))
    ensures result.Declined? ==> c.paidAt == begun.paidAt
    ensures result.Declined? ==> (c.status == OrderStatus.Failed <==> before.attempts >= before.maxAttempts)
    ensures result.Declined? ==> (c.status == Created <==> before.attempts < before.maxAttempts)
  {
    if result.Approved? then begun.(status := Paid, paidAt := Some(now))
    else begun.(status := if before.attempts >= before.maxAttempts then OrderStatus.Failed else Created)
  }

  function InitiatedLog(payment: Payment, order: Order, rq: AttemptRequest): (r: LogRequest)
    ensures r.event == PaymentInitiated && r.status == Some(Info) && r.message != ""
    ensures r.paymentId == Some(payment.paymentId) && r.orderId == Some(order.orderId) && r.userId == Some(rq.userId)
    ensures r.metadata == Some(InitiatedMeta(order.amount, order.currency, rq.paymentMethod))
  {
    LogRequest(
      paymentId := Some(payment.paymentId),
      orderId := Some(order.orderId),
      userId := Some(rq.userId),
      event := PaymentInitiated,
      status := Some(Info),
      message := "Payment initiated via " + MethodName(rq.paymentMethod) + " for order " + order.orderId,
      metadata := Some(InitiatedMeta(order.amount, order.currency, rq.paymentMethod)),
      req := rq.req,
      duration := None)
  }

  /** `engineResult.gatewayResponse?.transactionId` */
  function TransactionIdOf(result: EngineResult): Option<string> {
    if result.gatewayResponse.Some? then result.gatewayResponse.value.transactionId else None
  }

  /** The outcome entry. For a decline, `remainingAttempts` is computed from the
      count before the attempt: max(0, maxAttempts - attempts - 1). */
  function OutcomeLog(payment: Payment, before: Order, rq: AttemptRequest, result: EngineResult, duration: int): (r: LogRequest)
    ensures r.event == (if result.Approved? then PaymentSucceeded else PaymentFailed)
    ensures r.status == Some(if result.Approved? then SuccessLevel else ErrorLevel)
    ensures r.paymentId == Some(payment.paymentId) && r.orderId == Some(before.orderId) && r.userId == Some(rq.userId)
    ensures r.message != "" && r.duration == Some(duration)
    ensures result.Approved? ==> r.metadata == Some(SucceededMeta(TransactionIdOf(result), duration))
    ensures result.Declined? ==>
      r.metadata == Some(FailedMeta(result.failureReason, AtLeastZero(before.maxAttempts - before.attempts - 1), duration))
  {
    match result
    case Approved(_) =>
      LogRequest(Some(payment.paymentId), Some(before.orderId), Some(rq.userId), PaymentSucceeded, Some(SuccessLevel),
        "Payment " + payment.paymentId + " succeeded",
        Some(SucceededMeta(TransactionIdOf(result), duration)), rq.req, Some(duration))
    case Declined(reason, _) =>
      LogRequest(Some(payment.paymentId), Some(before.orderId), Some(rq.userId), PaymentFailed, Some(ErrorLevel),
        "Payment " + payment.paymentId + " failed: " + reason,
        Some(FailedMeta(reason, AtLeastZero(before.maxAttempts - before.attempts - 1), duration)), rq.req, Some(duration))
  }

  /** The specification of `processPayment`. */
  function Attempt(w: World, rq: AttemptRequest, ctx: Context): Attempted
  {
    var guard := AttemptGuard(w.orders, rq.orderId, rq.userId, ctx.startTime);
    if guard.Err? then Attempted(Err(guard.error), w)
    else
      var paymentId := DefaultPaymentId(ctx.paymentUuid);
      if paymentId in w.payments then Attempted(Err(DUPLICATE_PAYMENT_ID), w)
      else Charge(w, rq, ctx, guard.value, paymentId)
  }

  /** Lines 29-163, once the guards have passed: create the payment under
      `paymentId`, open the attempt, call the provider and apply its answer. */
  function Charge(w: World, rq: AttemptRequest, ctx: Context, order: Order, paymentId: string): Attempted
  {
    var draft := PaymentDraftFor(order, rq, ctx.sha256);
    var created := NewPayment(paymentId, draft, ctx.startTime);
    var result := EngineResultOf(ctx.provider(ProviderRequestFor(order, rq, draft.cardDetails)));
    Conclude(w, rq, ctx, order, created, result)
  }

  /** The writes, log entries and notification of an attempt on `order` whose
      new payment is `created` and whose provider answered `result`. */
  function Conclude(w: World, rq: AttemptRequest, ctx: Context, order: Order, created: Payment, result: EngineResult): Attempted
  {
    var begun := order.(status := OrderStatus.Processing, attempts := order.attempts + 1);
    var charging := created.(status := PaymentStatus.Processing);
    var settled := Settle(charging, result, ctx.endTime);
    var closed := CloseOrder(begun, order, result, ctx.endTime);
    var log := Logged(Logged(w.log, InitiatedLog(created, order, rq), ctx.startTime, ctx.logUp),
                      OutcomeLog(settled, order, rq, result, ctx.endTime - ctx.startTime), ctx.endTime, ctx.logUp);
    var dispatch := SendWebhook(ctx.signer, settled, if result.Approved? then closed else order, ctx.timestamp);
    Attempted(Ok(AttemptReport(settled, closed, begun, charging, dispatch)),
              World(w.orders[rq.orderId := closed], w.payments[created.paymentId := settled], log))
  }

  /** Writing a key twice keeps the second value. */
  lemma OverwriteKey<K, V>(m: map<K, V>, k: K, a: V, b: V)
    ensures m[k := a][k := b] == m[k := b]
  {
  }

  /** Lines 56-79: store the new payment, open the attempt on the order, log
      the initiation, and mark the payment `processing`. */
  method OpenAttempt(db: Database, audit: AuditLog, order: Order, created: Payment, rq: AttemptRequest, ctx: Context)
    returns (begun: Order, charging: Payment)
    modifies db, audit
    ensures begun == order.(status := OrderStatus.Processing, attempts := order.attempts + 1)
    ensures charging == created.(status := PaymentStatus.Processing)
    ensures db.orders == old(db.orders)[rq.orderId := begun]
    ensures db.payments == old(db.payments)[created.paymentId := charging]
    ensures audit.entries == Logged(old(audit.entries), InitiatedLog(created, order, rq), ctx.startTime, ctx.logUp)
  {
    db.payments := db.payments[created.paymentId := created];
    begun := order.(status := OrderStatus.Processing, attempts := order.attempts + 1);
    db.orders := db.orders[rq.orderId := begun];
    audit.Log(InitiatedLog(created, order, rq), ctx.startTime, ctx.logUp);
    charging := created.(status := PaymentStatus.Processing);
    OverwriteKey(old(db.payments), created.paymentId, created, charging);
    db.payments := db.payments[created.paymentId := charging];
  }

  /** Lines 109-163: apply the provider's answer to the payment and the order
      and log the outcome; returns the order document the notifier is given. */
  method ApplyOutcome(db: Database, audit: AuditLog, before: Order, begun: Order, charging: Payment,
                      result: EngineResult, rq: AttemptRequest, ctx: Context)
    returns (settled: Payment, closed: Order, notified: Order)
    requires rq.orderId in db.orders && db.orders[rq.orderId] == begun
    modifies db, audit
    ensures settled == Settle(charging, result, ctx.endTime)
    ensures closed == CloseOrder(begun, before, result, ctx.endTime)
    ensures notified == if result.Approved? then closed else before
    ensures db.orders == old(db.orders)[rq.orderId := closed]
    ensures db.payments == old(db.payments)[charging.paymentId := settled]
    ensures audit.entries == Logged(old(audit.entries), OutcomeLog(settled, before, rq, result, ctx.endTime - ctx.startTime),
                                    ctx.endTime, ctx.logUp)
  {
    var duration := ctx.endTime - ctx.startTime;
    if result.Approved? {
      settled := charging.(status := Success, gatewayResponse := result.gatewayResponse, processedAt := Some(ctx.endTime));
      db.payments := db.payments[charging.paymentId := settled];
      db.orders := db.orders[rq.orderId := db.orders[rq.orderId].(status := Paid, paidAt := Some(ctx.endTime))];
      audit.Log(OutcomeLog(settled, before, rq, result, duration), ctx.endTime, ctx.logUp);
      closed := db.orders[rq.orderId];
      notified := closed;
    } else {
      settled := charging.(status := PaymentStatus.Failed, failureReason := Some(result.failureReason),
                           gatewayResponse := result.gatewayResponse);
      db.payments := db.payments[charging.paymentId := settled];
      var newStatus := if before.attempts >= before.maxAttempts then OrderStatus.Failed else Created;
      db.orders := db.orders[rq.orderId := db.orders[rq.orderId].(status := newStatus)];
      audit.Log(OutcomeLog(settled, before, rq, result, duration), ctx.endTime, ctx.logUp);
      closed := db.orders[rq.orderId];
      notified := before;
    }
  }

  /** `processPayment`, one store write at a time. */
  method ProcessPayment(db: Database, audit: AuditLog, rq: AttemptRequest, ctx: Context) returns (r: Result<AttemptReport, AppError>)
    requires db.Valid()
    modifies db, audit
    ensures db.Valid()
    ensures Attempted(r, World(db.orders, db.payments, audit.entries))
         == Attempt(World(old(db.orders), old(db.payments), old(audit.entries)), rq, ctx)
  {
    var guard := AttemptGuard(db.orders, rq.orderId, rq.userId, ctx.startTime);
    if guard.Err? {
      return Err(guard.error);
    }
    var paymentId := DefaultPaymentId(ctx.paymentUuid);
    if paymentId in db.payments {
      return Err(DUPLICATE_PAYMENT_ID);
    }
    ghost var orders, payments := db.orders, db.payments;
    r := ChargeOrder(db, audit, guard.value, paymentId, rq, ctx);
    StoresStayKeyed(orders, payments, r.value.order, r.value.payment);
  }

  /** Lines 29-163 on the stores: the part of `processPayment` after its guards. */
  method ChargeOrder(db: Database, audit: AuditLog, order: Order, paymentId: string, rq: AttemptRequest, ctx: Context)
    returns (r: Result<AttemptReport, AppError>)
    modifies db, audit
    ensures Attempted(r, World(db.orders, db.payments, audit.entries))
         == Charge(World(old(db.orders), old(db.payments), old(audit.entries)), rq, ctx, order, paymentId)
    ensures r.Ok? && r.value.order.orderId == order.orderId && r.value.payment.paymentId == paymentId
  {
    var draft := PaymentDraftFor(order, rq, ctx.sha256);
    var created := NewPayment(paymentId, draft, ctx.startTime);
    var result := EngineResultOf(ctx.provider(ProviderRequestFor(order, rq, draft.cardDetails)));
    r := ConcludeAttempt(db, audit, order, created, result, rq, ctx);
  }

  /** Lines 56-163 on the stores, once the provider's answer is known. */
  method ConcludeAttempt(db: Database, audit: AuditLog, order: Order, created: Payment, result: EngineResult,
                         rq: AttemptRequest, ctx: Context) returns (r: Result<AttemptReport, AppError>)
    modifies db, audit
    ensures Attempted(r, World(db.orders, db.payments, audit.entries))
         == Conclude(World(old(db.orders), old(db.payments), old(audit.entries)), rq, ctx, order, created, result)
    ensures r.Ok? && r.value.order.orderId == order.orderId && r.value.payment.paymentId == created.paymentId
  {
    ghost var w := World(db.orders, db.payments, audit.entries);
    var begun, charging := OpenAttempt(db, audit, order, created, rq, ctx);
    ghost var started := audit.entries;
    var settled, closed, notified := ApplyOutcome(db, audit, order, begun, charging, result, rq, ctx);
    OverwriteKey(w.payments, created.paymentId, charging, settled);
    OverwriteKey(w.orders, rq.orderId, begun, closed);
    var dispatch := SendWebhook(ctx.signer, settled, notified, ctx.timestamp);
    r := Ok(AttemptReport(settled, closed, begun, charging, dispatch));
    assert World(db.orders, db.payments, audit.entries)
        == World(w.orders[rq.orderId := closed], w.payments[created.paymentId := settled],
                 Logged(started, OutcomeLog(settled, order, rq, result, ctx.endTime - ctx.startTime), ctx.endTime, ctx.logUp));
  }

  /** Writing a document under its own id keeps both collections keyed. */
  lemma StoresStayKeyed(orders: map<string, Order>, payments: map<string, Payment>, o: Order, p: Payment)
    requires OrdersKeyed(orders) && PaymentsKeyed(payments)
    ensures OrdersKeyed(orders[o.orderId := o]) && PaymentsKeyed(payments[p.paymentId := p])
  {
  }

  /** The guards of `retryPayment`, in the order the service checks them. */
  function RetryGuard(orders: map<string, Order>, orderId: string, userId: UserId): (r: Result<Order, AppError>)
    ensures var found := FindOwnedOrder(orders, orderId, userId);
      && (r.Ok? <==> found.Some? && found.value.attempts < found.value.maxAttempts
                     && (found.value.status == Created || found.value.status == OrderStatus.Failed))
      && (r.Ok? ==> found == Some(r.value))
      && (r.Err? ==> r.error.statusCode == (if found.None? then 404 else if found.value.status == Paid then 409 else 422))
  {
    match FindOwnedOrder(orders, orderId, userId)
    case None => Err(AppError("Order not found.", 404))
    case Some(order) =>
      if order.status == Paid then Err(AppError("Order is already paid.", 409))
      else if order.attempts >= order.maxAttempts then
        Err(AppError("Maximum retry attempts (" + NatToString(order.maxAttempts) + ") reached for this order.", 422))
      else if order.status != Created && order.status != OrderStatus.Failed then
        Err(AppError("Order cannot be retried in " + StatusName(order.status) + " status.", 422))
      else Ok(order)
  }

  /** The retry entry names the attempt about to be made: `attempts + 1` of `maxAttempts`. */
  function RetryLog(order: Order, rq: AttemptRequest): (r: LogRequest)
    ensures r.event == PaymentRetry && r.status == Some(Warning) && r.paymentId.None?
    ensures r.orderId == Some(order.orderId) && r.userId == Some(rq.userId) && r.metadata.None?
    ensures r.message == "Retry attempt " + NatToString(order.attempts + 1) + "/" + NatToString(order.maxAttempts)
                         + " for order " + rq.orderId
  {
    LogRequest(
      paymentId := None,
      orderId := Some(order.orderId),
      userId := Some(rq.userId),
      event := PaymentRetry,
      status := Some(Warning),
      message := "Retry attempt " + NatToString(order.attempts + 1) + "/" + NatToString(order.maxAttempts) + " for order " + rq.orderId,
      metadata := None,
      req := rq.req,
      duration := None)
  }

  /** The specification of `retryPayment`. */
  function Retry(w: World, rq: AttemptRequest, ctx: Context): Attempted
  {
    match RetryGuard(w.orders, rq.orderId, rq.userId)
    case Err(e) => Attempted(Err(e), w)
    case Ok(order) => Attempt(w.(log := Logged(w.log, RetryLog(order, rq), ctx.startTime, ctx.logUp)), rq, ctx)
  }

  method RetryPayment(db: Database, audit: AuditLog, rq: AttemptRequest, ctx: Context) returns (r: Result<AttemptReport, AppError>)
    requires db.Valid()
    modifies db, audit
    ensures db.Valid()
    ensures Attempted(r, World(db.orders, db.payments, audit.entries))
         == Retry(World(old(db.orders), old(db.payments), old(audit.entries)), rq, ctx)
  {
    var guard := RetryGuard(db.orders, rq.orderId, rq.userId);
    if guard.Err? {
      return Err(guard.error);
    }
    audit.Log(RetryLog(guard.value, rq), ctx.startTime, ctx.logUp);
    r := ProcessPayment(db, audit, rq, ctx);
  }
}
