/** Properties of the payment attempt state machine, stated about the
    specifications `Attempt` and `Retry` that `ProcessPayment` and
    `RetryPayment` are proved to implement (backend/services/paymentService.js). */
module AttemptProperties {
  import opened Common
  import opened OrderModel
  import opened PaymentModel
  import opened TransactionLog
  import opened TransactionLogger
  import opened WebhookService
  import opened Store
  import opened PaymentService

  /** The guards pass and the generated payment id is free: the attempt goes ahead. */
  predicate Admitted(w: World, rq: AttemptRequest, ctx: Context)
  {
    AttemptGuard(w.orders, rq.orderId, rq.userId, ctx.startTime).Ok? && DefaultPaymentId(ctx.paymentUuid) !in w.payments
  }

  /** Expiry only ever stops an order still in `created`, and stops it for
      good: once the guard answers 410 it answers 410 at every later moment,
      and for an order in any other status the guard's answer is the same
      at every moment and never 410. */
  lemma ExpiryOnlyRefusesCreatedOrders(orders: map<string, Order>, orderId: string, userId: UserId, now: int, later: int)
    requires orderId in orders && orders[orderId].userId == userId
    ensures var o := orders[orderId]; var r := AttemptGuard(orders, orderId, userId, now);
      (r.Err? && r.error.statusCode == 410) <==> (o.status == Created && o.expiresAt < now)
    ensures var r := AttemptGuard(orders, orderId, userId, now);
      r.Err? && r.error.statusCode == 410 && now <= later ==> AttemptGuard(orders, orderId, userId, later) == r
    ensures orders[orderId].status != Created ==>
      AttemptGuard(orders, orderId, userId, later) == AttemptGuard(orders, orderId, userId, now)
  {
  }

  /** The provider's answer as the attempt sees it (a throw already turned into a decline). */
  function ResultOf(w: World, rq: AttemptRequest, ctx: Context): EngineResult
    requires rq.orderId in w.orders
  {
    var o := w.orders[rq.orderId];
    EngineResultOf(ctx.provider(ProviderRequestFor(o, rq, PaymentDraftFor(o, rq, ctx.sha256).cardDetails)))
  }

  /** A rejected attempt changes no store and no log. */
  lemma RejectedAttemptChangesNothing(w: World, rq: AttemptRequest, ctx: Context)
    ensures Attempt(w, rq, ctx).outcome.Err? ==> Attempt(w, rq, ctx).world == w
    ensures Attempt(w, rq, ctx).outcome.Err? <==> !Admitted(w, rq, ctx)
  {
  }

  /** The unique-id invariant of both stores survives every attempt. */
  lemma AttemptKeepsStoresKeyed(w: World, rq: AttemptRequest, ctx: Context)
    requires OrdersKeyed(w.orders) && PaymentsKeyed(w.payments)
    ensures OrdersKeyed(Attempt(w, rq, ctx).world.orders) && PaymentsKeyed(Attempt(w, rq, ctx).world.payments)
  {
    if Admitted(w, rq, ctx) {
      AdmittedAttemptOpensOnce(w, rq, ctx);
    }
  }

  /** ... and every retry. */
  lemma RetryKeepsStoresKeyed(w: World, rq: AttemptRequest, ctx: Context)
    requires OrdersKeyed(w.orders) && PaymentsKeyed(w.payments)
    ensures OrdersKeyed(Retry(w, rq, ctx).world.orders) && PaymentsKeyed(Retry(w, rq, ctx).world.payments)
  {
    match RetryGuard(w.orders, rq.orderId, rq.userId)
    case Err(_) =>
    case Ok(o) => AttemptKeepsStoresKeyed(w.(log := Logged(w.log, RetryLog(o, rq), ctx.startTime, ctx.logUp)), rq, ctx);
  }

  /** An admitted attempt writes exactly one order and one new payment: the order's
      count goes up by one, and when the provider is called the stored order is
      `processing` with that count and the stored payment is `processing`. */
  lemma AdmittedAttemptOpensOnce(w: World, rq: AttemptRequest, ctx: Context)
    requires Admitted(w, rq, ctx)
    ensures rq.orderId in w.orders
    ensures var a := Attempt(w, rq, ctx); var o := w.orders[rq.orderId];
      var pid := DefaultPaymentId(ctx.paymentUuid);
      && a.outcome.Ok?
      && a.world.orders == w.orders[rq.orderId := a.outcome.value.order]
      && a.world.payments == w.payments[pid := a.outcome.value.payment]
      && pid !in w.payments
      && a.outcome.value.order.attempts == o.attempts + 1
      && a.outcome.value.orderAtCall == o.(status := OrderStatus.Processing, attempts := o.attempts + 1)
      && a.outcome.value.paymentAtCall.status == PaymentStatus.Processing
      && a.outcome.value.payment.paymentId == pid
  {
  }

  /** The new payment copies amount and currency from the order, records the
      idempotency key, takes the count before the attempt as `retryCount`, and
      is created `pending`; a card is kept only as its stored summary. */
  lemma NewPaymentFromOrder(w: World, rq: AttemptRequest, ctx: Context)
    requires Admitted(w, rq, ctx)
    ensures rq.orderId in w.orders
    ensures var o := w.orders[rq.orderId]; var p := Attempt(w, rq, ctx).outcome.value.payment;
      var created := NewPayment(DefaultPaymentId(ctx.paymentUuid), PaymentDraftFor(o, rq, ctx.sha256), ctx.startTime);
      && created.status == Pending
      && Attempt(w, rq, ctx).outcome.value.paymentAtCall == created.(status := PaymentStatus.Processing)
      && p.amount == o.amount && p.currency == o.currency && p.orderId == o.orderId && p.userId == rq.userId
      && p.paymentMethod == rq.paymentMethod && p.idempotencyKey == rq.idempotencyKey && p.retryCount == o.attempts
      && p.cardDetails == (if rq.paymentMethod == Card && rq.card.Some? then Some(StoredCard(ctx.sha256, rq.card.value)) else None)
      && p.createdAt == ctx.startTime && !p.webhookSent
  {
    var o := AttemptGuard(w.orders, rq.orderId, rq.userId, ctx.startTime).value;
    var draft := PaymentDraftFor(o, rq, ctx.sha256);
    var created := NewPayment(DefaultPaymentId(ctx.paymentUuid), draft, ctx.startTime);
    var result := EngineResultOf(ctx.provider(ProviderRequestFor(o, rq, draft.cardDetails)));
    assert Attempt(w, rq, ctx) == Conclude(w, rq, ctx, o, created, result);
  }

  /** Every input of an attempt that the card fields reach is the same for two
      card inputs that differ only in their CVV. */
  lemma CvvOnlyReachesCard(o: Order, rq: AttemptRequest, cvv: string, sha256: string -> string)
    requires rq.card.Some?
    ensures var rq' := rq.(card := Some(rq.card.value.(cvv := cvv)));
      PaymentDraftFor(o, rq', sha256) == PaymentDraftFor(o, rq, sha256)
    ensures var rq' := rq.(card := Some(rq.card.value.(cvv := cvv)));
      forall c :: ProviderRequestFor(o, rq', c) == ProviderRequestFor(o, rq, c)
    ensures var rq' := rq.(card := Some(rq.card.value.(cvv := cvv)));
      forall p :: InitiatedLog(p, o, rq') == InitiatedLog(p, o, rq)
    ensures var rq' := rq.(card := Some(rq.card.value.(cvv := cvv)));
      forall p, res, d :: OutcomeLog(p, o, rq', res, d) == OutcomeLog(p, o, rq, res, d)
  {
    var rq' := rq.(card := Some(rq.card.value.(cvv := cvv)));
    assert rq'.userId == rq.userId && rq'.req == rq.req && rq'.paymentMethod == rq.paymentMethod;
    assert rq'.upi == rq.upi && rq'.idempotencyKey == rq.idempotencyKey && rq'.card.Some?;
    assert StoredCard(sha256, rq'.card.value) == StoredCard(sha256, rq.card.value);
    assert PaymentDraftFor(o, rq', sha256) == PaymentDraftFor(o, rq, sha256);
    forall c ensures ProviderRequestFor(o, rq', c) == ProviderRequestFor(o, rq, c) { }
    forall p ensures InitiatedLog(p, o, rq') == InitiatedLog(p, o, rq) { }
    forall p, res, d ensures OutcomeLog(p, o, rq', res, d) == OutcomeLog(p, o, rq, res, d) { }
  }

  /** The CVV reaches neither a store, nor the log, nor the provider, nor the
      notifier: changing it changes nothing about the attempt. */
  lemma CvvIsNeverUsed(w: World, rq: AttemptRequest, ctx: Context, cvv: string)
    requires rq.card.Some?
    ensures Attempt(w, rq.(card := Some(rq.card.value.(cvv := cvv))), ctx) == Attempt(w, rq, ctx)
  {
    var rq' := rq.(card := Some(rq.card.value.(cvv := cvv)));
    var guard := AttemptGuard(w.orders, rq.orderId, rq.userId, ctx.startTime);
    if guard.Ok? {
      CvvOnlyReachesCard(guard.value, rq, cvv, ctx.sha256);
    }
  }

  /** A provider that throws ends the attempt as an ordinary decline with reason
      `Payment gateway unavailable`, never as an error of the attempt. */
  lemma ProviderExceptionIsDecline(w: World, rq: AttemptRequest, ctx: Context)
    requires Admitted(w, rq, ctx)
    requires var o := w.orders[rq.orderId];
      ctx.provider(ProviderRequestFor(o, rq, PaymentDraftFor(o, rq, ctx.sha256).cardDetails)) == Threw
    ensures var a := Attempt(w, rq, ctx);
      && a.outcome.Ok?
      && a.outcome.value.payment.status == PaymentStatus.Failed
      && a.outcome.value.payment.failureReason == Some(GATEWAY_UNAVAILABLE)
      && a.outcome.value.payment.gatewayResponse.None?
  {
  }

  /** Approval: the payment is `success` with the gateway response and a
      processing time, the order is `paid` with a payment time, and the log
      gains the initiation and exactly one `payment.success` entry. */
  lemma ApprovedAttempt(w: World, rq: AttemptRequest, ctx: Context)
    requires Admitted(w, rq, ctx) && ResultOf(w, rq, ctx).Approved?
    ensures var a := Attempt(w, rq, ctx); var rep := a.outcome.value; var n := |w.log|;
      && rep.payment.status == Success
      && rep.payment.gatewayResponse == ResultOf(w, rq, ctx).gatewayResponse
      && rep.payment.processedAt == Some(ctx.endTime)
      && rep.order.status == Paid && rep.order.paidAt == Some(ctx.endTime)
      && rep.dispatch.payload.event == PaymentSucceeded
      && rep.dispatch.payload.orderId == w.orders[rq.orderId].orderId
      && a.world.log[..n] == w.log
      && (ctx.logUp ==> |a.world.log| == n + 2
                        && a.world.log[n].event == PaymentInitiated
                        && a.world.log[n + 1].event == PaymentSucceeded
                        && a.world.log[n + 1].status == SuccessLevel)
      && (!ctx.logUp ==> a.world.log == w.log)
  {
  }

  /** Decline: the payment is `failed` with the reason; the order goes back to
      `created`, or to `failed` exactly when its count BEFORE the attempt had
      reached the limit; one `payment.failed` entry records max(0, max - before - 1). */
  lemma DeclinedAttempt(w: World, rq: AttemptRequest, ctx: Context)
    requires Admitted(w, rq, ctx) && ResultOf(w, rq, ctx).Declined?
    ensures var a := Attempt(w, rq, ctx); var rep := a.outcome.value; var n := |w.log|;
      var o := w.orders[rq.orderId]; var reason := ResultOf(w, rq, ctx).failureReason;
      && rep.payment.status == PaymentStatus.Failed
      && rep.payment.failureReason == Some(reason)
      && rep.payment.processedAt.None?
      && rep.order.status == (if o.attempts >= o.maxAttempts then OrderStatus.Failed else Created)
      && rep.order.paidAt == o.paidAt
      && rep.dispatch.payload.event == PaymentFailed
      && a.world.log[..n] == w.log
      && (ctx.logUp ==> |a.world.log| == n + 2
                        && a.world.log[n].event == PaymentInitiated
                        && a.world.log[n + 1].event == PaymentFailed
                        && a.world.log[n + 1].metadata
                           == Some(FailedMeta(reason, AtLeastZero(o.maxAttempts - o.attempts - 1), ctx.endTime - ctx.startTime)))
  {
  }

  /** An attempt's outcome and stores depend on the log neither before nor during it. */
  lemma AttemptIgnoresLog(w: World, rq: AttemptRequest, ctx: Context, log: seq<LogEntry>, logUp: bool)
    ensures var a := Attempt(w, rq, ctx); var b := Attempt(w.(log := log), rq, ctx.(logUp := logUp));
      a.outcome == b.outcome && a.world.orders == b.world.orders && a.world.payments == b.world.payments
  {
    var w', ctx' := w.(log := log), ctx.(logUp := logUp);
    if Admitted(w, rq, ctx) {
      var o := AttemptGuard(w.orders, rq.orderId, rq.userId, ctx.startTime).value;
      var draft := PaymentDraftFor(o, rq, ctx.sha256);
      var created := NewPayment(DefaultPaymentId(ctx.paymentUuid), draft, ctx.startTime);
      var result := EngineResultOf(ctx.provider(ProviderRequestFor(o, rq, draft.cardDetails)));
      assert Attempt(w, rq, ctx) == Conclude(w, rq, ctx, o, created, result);
      assert Attempt(w', rq, ctx') == Conclude(w', rq, ctx', o, created, result);
      ConcludeIgnoresLog(w, rq, ctx, o, created, result, log, logUp);
    }
  }

  lemma ConcludeIgnoresLog(w: World, rq: AttemptRequest, ctx: Context, order: Order, created: Payment,
                           result: EngineResult, log: seq<LogEntry>, logUp: bool)
    ensures var a := Conclude(w, rq, ctx, order, created, result);
      var b := Conclude(w.(log := log), rq, ctx.(logUp := logUp), order, created, result);
      a.outcome == b.outcome && a.world.orders == b.world.orders && a.world.payments == b.world.payments
  {
  }

  /** With the audit store down, an attempt leaves the log as it was. */
  lemma AttemptWithoutLog(w: World, rq: AttemptRequest, ctx: Context)
    requires !ctx.logUp
    ensures Attempt(w, rq, ctx).world.log == w.log
  {
  }

  /** A failing audit store changes nothing but the log. */
  lemma AuditOutageDoesNotChangeOutcome(w: World, rq: AttemptRequest, ctx: Context)
    ensures var up := Attempt(w, rq, ctx.(logUp := true)); var down := Attempt(w, rq, ctx.(logUp := false));
      && up.outcome == down.outcome
      && up.world.orders == down.world.orders && up.world.payments == down.world.payments
      && down.world.log == w.log
    ensures var up := Retry(w, rq, ctx.(logUp := true)); var down := Retry(w, rq, ctx.(logUp := false));
      && up.outcome == down.outcome
      && up.world.orders == down.world.orders && up.world.payments == down.world.payments
      && down.world.log == w.log
  {
    AttemptIgnoresLog(w, rq, ctx.(logUp := true), w.log, false);
    AttemptWithoutLog(w, rq, ctx.(logUp := false));
    match RetryGuard(w.orders, rq.orderId, rq.userId)
    case Err(_) =>
    case Ok(o) =>
      var upLog := Logged(w.log, RetryLog(o, rq), ctx.startTime, true);
      assert Logged(w.log, RetryLog(o, rq), ctx.startTime, false) == w.log;
      AttemptIgnoresLog(w.(log := upLog), rq, ctx.(logUp := true), w.log, false);
  }

  /** `processPayment` admits orders that are `processing` or `refunded`, and
      an exhausted order whose status is not `failed`; `retryPayment` rejects
      all of them with 422. */
  lemma ProcessPaymentAdmitsWhatRetryRejects(w: World, rq: AttemptRequest, ctx: Context)
    requires FindOwnedOrder(w.orders, rq.orderId, rq.userId).Some?
    requires var o := w.orders[rq.orderId];
      || o.status == OrderStatus.Processing || o.status == OrderStatus.Refunded
      || (o.status == Created && o.attempts >= o.maxAttempts && o.expiresAt >= ctx.startTime)
    ensures AttemptGuard(w.orders, rq.orderId, rq.userId, ctx.startTime).Ok?
    ensures RetryGuard(w.orders, rq.orderId, rq.userId).Err?
    ensures RetryGuard(w.orders, rq.orderId, rq.userId).error.statusCode == 422
  {
  }

  /** Because the decline rule reads the count before the increment, the attempt
      that uses up the last allowed try leaves the order `created`, and
      `processPayment` still admits it afterwards. */
  lemma LastAllowedDeclineReopens(w: World, rq: AttemptRequest, ctx: Context, later: int)
    requires Admitted(w, rq, ctx) && ResultOf(w, rq, ctx).Declined?
    requires var o := w.orders[rq.orderId]; o.attempts + 1 == o.maxAttempts && later <= o.expiresAt
    ensures var a := Attempt(w, rq, ctx); var closed := a.outcome.value.order;
      && closed.status == Created
      && closed.attempts == closed.maxAttempts
      && AttemptGuard(a.world.orders, rq.orderId, rq.userId, later).Ok?
      && RetryGuard(a.world.orders, rq.orderId, rq.userId).Err?
  {
    var a := Attempt(w, rq, ctx);
    assert a.world.orders[rq.orderId] == a.outcome.value.order;
  }

  /** An admitted attempt on an order that has used up its tries still counts
      one more: `attempts` exceeds `maxAttempts`. */
  lemma AttemptsCanExceedMax(w: World, rq: AttemptRequest, ctx: Context)
    requires Admitted(w, rq, ctx)
    requires w.orders[rq.orderId].attempts >= w.orders[rq.orderId].maxAttempts
    ensures Attempt(w, rq, ctx).outcome.value.order.attempts > Attempt(w, rq, ctx).outcome.value.order.maxAttempts
  {
  }

  /** A paid order is final: every further attempt or retry is refused with 409
      and changes nothing. */
  lemma PaidOrderIsFinal(w: World, rq: AttemptRequest, ctx: Context)
    requires FindOwnedOrder(w.orders, rq.orderId, rq.userId).Some? && w.orders[rq.orderId].status == Paid
    ensures Attempt(w, rq, ctx) == Attempted(Err(AppError("Order has already been paid.", 409)), w)
    ensures Retry(w, rq, ctx) == Attempted(Err(AppError("Order is already paid.", 409)), w)
  {
  }

  /** A retry that passes its own guards logs `payment.retry` first and then runs
      `processPayment` with the same request and key; an expired order thus
      leaves a retry entry behind and is refused with 410. */
  lemma RetryLogsThenDelegates(w: World, rq: AttemptRequest, ctx: Context)
    requires RetryGuard(w.orders, rq.orderId, rq.userId).Ok?
    ensures var o := w.orders[rq.orderId]; var logged := Logged(w.log, RetryLog(o, rq), ctx.startTime, ctx.logUp);
      && Retry(w, rq, ctx) == Attempt(w.(log := logged), rq, ctx)
      && (IsExpired(o, ctx.startTime) ==>
            Retry(w, rq, ctx) == Attempted(Err(AppError("Order has expired. Please create a new order.", 410)), w.(log := logged)))
  {
  }

  /** The provider of `ctx` declines every request (or throws). */
  ghost predicate AlwaysDeclines(ctx: Context) {
    forall q :: EngineResultOf(ctx.provider(q)).Declined?
  }

  /** One declined retry of an open order below its limit: admitted, one more
      attempt counted, and the order is `created` again. */
  lemma DeclinedRetryStep(w: World, rq: AttemptRequest, ctx: Context)
    requires rq.orderId in w.orders && w.orders[rq.orderId].userId == rq.userId
    requires var o := w.orders[rq.orderId];
      o.status == Created && o.attempts < o.maxAttempts && ctx.startTime <= o.expiresAt
    requires DefaultPaymentId(ctx.paymentUuid) !in w.payments
    requires AlwaysDeclines(ctx)
    ensures var a := Retry(w, rq, ctx); var o := w.orders[rq.orderId];
      && a.outcome.Ok?
      && a.world.orders == w.orders[rq.orderId := o.(attempts := o.attempts + 1)]
      && a.world.payments.Keys == w.payments.Keys + {DefaultPaymentId(ctx.paymentUuid)}
  {
    var o := w.orders[rq.orderId];
    var w' := w.(log := Logged(w.log, RetryLog(o, rq), ctx.startTime, ctx.logUp));
    assert Retry(w, rq, ctx) == Attempt(w', rq, ctx);
    var q := ProviderRequestFor(o, rq, PaymentDraftFor(o, rq, ctx.sha256).cardDetails);
    assert EngineResultOf(ctx.provider(q)).Declined?;
    AdmittedAttemptWrites(w', rq, ctx);
  }

  /** What an admitted attempt leaves in the stores: the order closed by the
      provider's answer under its own key, and one payment more. */
  lemma AdmittedAttemptWrites(w: World, rq: AttemptRequest, ctx: Context)
    requires Admitted(w, rq, ctx)
    ensures rq.orderId in w.orders
    ensures var a := Attempt(w, rq, ctx); var o := w.orders[rq.orderId];
      && a.outcome.Ok?
      && a.world.orders == w.orders[rq.orderId := CloseOrder(o.(status := OrderStatus.Processing, attempts := o.attempts + 1),
                                                             o, ResultOf(w, rq, ctx), ctx.endTime)]
      && a.world.payments.Keys == w.payments.Keys + {DefaultPaymentId(ctx.paymentUuid)}
  {
  }

  /** The world after a client retries once per context, in order. */
  function RetryAll(w: World, rq: AttemptRequest, cs: seq<Context>): World
  {
    if cs == [] then w else Retry(RetryAll(w, rq, cs[..|cs| - 1]), rq, cs[|cs| - 1]).world
  }

  /** Every context declines, and starts no later than `expiresAt`. */
  ghost predicate AllDecline(cs: seq<Context>, expiresAt: int)
  {
    forall i :: 0 <= i < |cs| ==> cs[i].startTime <= expiresAt && AlwaysDeclines(cs[i])
  }

  /** The ids of a sequence, as a set. */
  function IdSet(ids: seq<string>): set<string>
  {
    set id | id in ids
  }

  /** `ids` are the payment ids the contexts generate, distinct and none of them in `taken`. */
  predicate FreshIds(cs: seq<Context>, ids: seq<string>, taken: set<string>)
  {
    && |ids| == |cs|
    && (forall i :: 0 <= i < |cs| ==> ids[i] == DefaultPaymentId(cs[i].paymentUuid))
    && (forall i :: 0 <= i < |ids| ==> ids[i] !in taken)
    && (forall i, j :: 0 <= i < j < |ids| ==> ids[i] != ids[j])
  }

  /** An open order of the caller with a try to spare for each context, every
      one of which declines before the order expires and generates a fresh,
      distinct payment id (the ids are `ids`). */
  ghost predicate Declining(w: World, rq: AttemptRequest, cs: seq<Context>, ids: seq<string>)
  {
    && rq.orderId in w.orders && w.orders[rq.orderId].userId == rq.userId
    && w.orders[rq.orderId].status == Created
    && w.orders[rq.orderId].attempts + |cs| <= w.orders[rq.orderId].maxAttempts
    && AllDecline(cs, w.orders[rq.orderId].expiresAt)
    && FreshIds(cs, ids, w.payments.Keys)
  }

  /** Declined retries of an open order, as many as it has tries to spare: each
      counts one attempt and leaves the order `created`; each adds its own
      payment id and no other. */
  lemma {:induction false} DeclinedRetries(w: World, rq: AttemptRequest, cs: seq<Context>, ids: seq<string>)
    requires Declining(w, rq, cs, ids)
    ensures var o := w.orders[rq.orderId]; var last := RetryAll(w, rq, cs);
      && rq.orderId in last.orders && last.orders[rq.orderId] == o.(attempts := o.attempts + |cs|)
      && last.payments.Keys == w.payments.Keys + IdSet(ids)
  {
    if cs != [] {
      var init, c := cs[..|cs| - 1], cs[|cs| - 1];
      DecliningPrefix(w, rq, cs, ids);
      DeclinedRetries(w, rq, init, ids[..|ids| - 1]);
      DeclinedRetryStep(RetryAll(w, rq, init), rq, c);
    }
  }

  /** All but the last of a declining run still decline; the last one has its own try to spare. */
  lemma DecliningPrefix(w: World, rq: AttemptRequest, cs: seq<Context>, ids: seq<string>)
    requires Declining(w, rq, cs, ids) && cs != []
    ensures Declining(w, rq, cs[..|cs| - 1], ids[..|ids| - 1])
    ensures var o, c, id := w.orders[rq.orderId], cs[|cs| - 1], ids[|ids| - 1];
      && c.startTime <= o.expiresAt && AlwaysDeclines(c)
      && id == DefaultPaymentId(c.paymentUuid)
      && id !in w.payments.Keys + IdSet(ids[..|ids| - 1])
      && IdSet(ids) == IdSet(ids[..|ids| - 1]) + {id}
  {
    var init := ids[..|ids| - 1];
    assert ids == init + [ids[|ids| - 1]];
    forall i | 0 <= i < |cs| - 1 ensures cs[..|cs| - 1][i] == cs[i] { }
  }

  /** Three declined retries of a new order (limit 3) leave it `created` with
      3 attempts, not `failed`. A fourth retry is refused with 422, but
      `processPayment` admits a fourth attempt, which takes the count to 4. */
  lemma ThreeDeclinedRetries(w0: World, rq: AttemptRequest, c1: Context, c2: Context, c3: Context, c4: Context,
                             ids: seq<string>)
    requires Declining(w0, rq, [c1, c2, c3], ids)
    requires var o := w0.orders[rq.orderId]; o.attempts == 0 && o.maxAttempts == 3 && c4.startTime <= o.expiresAt
    requires DefaultPaymentId(c4.paymentUuid) !in w0.payments.Keys + IdSet(ids)
    ensures var w3 := RetryAll(w0, rq, [c1, c2, c3]);
      && rq.orderId in w3.orders && w3.orders[rq.orderId] == w0.orders[rq.orderId].(attempts := 3)
      && Retry(w3, rq, c4).outcome.Err? && Retry(w3, rq, c4).outcome.error.statusCode == 422
      && Attempt(w3, rq, c4).outcome.Ok? && Attempt(w3, rq, c4).outcome.value.order.attempts == 4
  {
    DeclinedRetries(w0, rq, [c1, c2, c3], ids);
    ExhaustedRetryRefused(RetryAll(w0, rq, [c1, c2, c3]), rq, c4);
    AttemptsCanExceedMaxHere(RetryAll(w0, rq, [c1, c2, c3]), rq, c4);
  }

  /** A retry of an order whose count has reached its limit is refused with 422. */
  lemma ExhaustedRetryRefused(w: World, rq: AttemptRequest, ctx: Context)
    requires rq.orderId in w.orders && w.orders[rq.orderId].userId == rq.userId
    requires var o := w.orders[rq.orderId]; o.status != Paid && o.attempts >= o.maxAttempts
    ensures Retry(w, rq, ctx).outcome.Err? && Retry(w, rq, ctx).outcome.error.statusCode == 422
    ensures Retry(w, rq, ctx).world == w
  {
  }

  /** The fourth attempt of the scenario: admitted, and counted. */
  lemma AttemptsCanExceedMaxHere(w: World, rq: AttemptRequest, ctx: Context)
    requires rq.orderId in w.orders && w.orders[rq.orderId].userId == rq.userId
    requires var o := w.orders[rq.orderId]; o.status == Created && ctx.startTime <= o.expiresAt
    requires DefaultPaymentId(ctx.paymentUuid) !in w.payments
    ensures Attempt(w, rq, ctx).outcome.Ok?
    ensures Attempt(w, rq, ctx).outcome.value.order.attempts == w.orders[rq.orderId].attempts + 1
  {
    AdmittedAttemptOpensOnce(w, rq, ctx);
  }
}
