/** The two attempt routes (backend/routes/paymentRoutes.js): the idempotency
    gate runs in front of `initiatePayment` and `retryPayment`, answers the
    requests it stops with its own replies, and settles the record it opened
    with the handler's reply. */
module PaymentRoutes {
  import opened Common
  import opened IdempotencyKeyModel
  import opened Idempotency
  import opened IdempotencyProperties
  import opened PaymentModel
  import opened PaymentService
  import opened PaymentController

  /** The reply to a request the gate stops: the error handler's for a
      refused key, 409 while the key is in flight, and a 200 that wraps the
      stored body once the key is completed. */
  function GateReply(a: Admission<ReplyBody>): (r: Reply)
    requires !a.Proceed?
    ensures a.Rejected? ==> r == ErrorReply(a.error)
    ensures a.Conflict? ==>
      && r.statusCode == 409 && r.body.ConflictBody? && !r.body.success
      && r.body.message == CONFLICT_MESSAGE && r.body.code == CONFLICT_CODE
    ensures a.CachedHit? ==>
      && r.statusCode == 200 && r.body.CachedBody? && r.body.success && r.body.idempotencyHit
      && r.body.message == CACHED_MESSAGE && r.body.data == a.data
  {
    match a
    case Rejected(e) => ErrorReply(e)
    case Conflict => Reply(409, ConflictBody(false, CONFLICT_MESSAGE, CONFLICT_CODE))
    case CachedHit(data) => Reply(200, CachedBody(true, CACHED_MESSAGE, true, data))
  }

  /** The handler behind the gate: `retryPayment` when `retry`, `initiatePayment` otherwise. */
  function Handle(w: World, rq: AttemptRequest, ctx: Context, retry: bool): Attempted {
    if retry then Retry(w, rq, ctx) else Attempt(w, rq, ctx)
  }

  /** What one request leaves behind: the ledger, the stores and the log, and the reply. */
  datatype Served = Served(records: map<string, IdempotencyRecord<ReplyBody>>, world: World, reply: Reply)

  /** One request through an attempt route. `requestHash` is the fingerprint
      of the body and the user; the handler receives the admitted key as
      `req.idempotencyKey`. */
  function Serve(records: map<string, IdempotencyRecord<ReplyBody>>, header: Option<string>, requestHash: string,
                 now: int, w: World, rq: AttemptRequest, ctx: Context, retry: bool): (s: Served)
    ensures var step := Admit(records, header, rq.userId, requestHash, now);
      !step.outcome.Proceed? ==> s == Served(records, w, GateReply(step.outcome))
    ensures Admit(records, header, rq.userId, requestHash, now).outcome.Proceed? ==>
      var k := header.value;
      && s.world == Handle(w, rq.(idempotencyKey := Some(k)), ctx, retry).world
      && s.reply == ReplyFor(Handle(w, rq.(idempotencyKey := Some(k)), ctx, retry).outcome, retry)
      && s.records - {k} == records
      && (k in s.records <==> IsSuccessStatus(s.reply.statusCode))
      && (k in s.records ==> s.records[k].status == KeyCompleted && s.records[k].response == Some(s.reply.body)
                             && s.records[k].userId == rq.userId)
  {
    var step := Admit(records, header, rq.userId, requestHash, now);
    if !step.outcome.Proceed? then Served(records, w, GateReply(step.outcome))
    else
      var k := step.outcome.key;
      var a := Handle(w, rq.(idempotencyKey := Some(k)), ctx, retry);
      var reply := ReplyFor(a.outcome, retry);
      AnsweredRequestSettles(records, header, rq.userId, requestHash, now, reply.statusCode, reply.body);
      Served(Finish(step.records, k, reply.statusCode, reply.body), a.world, reply)
  }

  /** A first payment request under a fresh key that passes the service's
      guards settles its record by the provider's answer: after an approval
      the record is completed with the reply's body and a repeat of the key
      is answered from it; after a decline the record is deleted and a repeat
      of the key is admitted afresh. */
  lemma ServedAttemptSettlesKey(records: map<string, IdempotencyRecord<ReplyBody>>, k: string, h: string, now: int,
                                w: World, rq: AttemptRequest, ctx: Context, h2: string, now2: int)
    requires Admit(records, Some(k), rq.userId, h, now).outcome.Proceed?
    requires AttemptGuard(w.orders, rq.orderId, rq.userId, ctx.startTime).Ok?
    requires DefaultPaymentId(ctx.paymentUuid) !in w.payments
    ensures var s := Serve(records, Some(k), h, now, w, rq, ctx, false);
      var rk := rq.(idempotencyKey := Some(k));
      var o := AttemptGuard(w.orders, rq.orderId, rq.userId, ctx.startTime).value;
      var result := EngineResultOf(ctx.provider(ProviderRequestFor(o, rk, PaymentDraftFor(o, rk, ctx.sha256).cardDetails)));
      && s.world == Attempt(w, rk, ctx).world
      && s.records - {k} == records
      && (k in s.records <==> result.Approved?)
      && (result.Approved? ==>
            && s.records[k].status == KeyCompleted && s.records[k].response == Some(s.reply.body)
            && Admit(s.records, Some(k), rq.userId, h2, now2) == AdmitStep(CachedHit(Some(s.reply.body)), s.records))
      && (result.Declined? ==> s.records == records
                               && (h2 != "" ==> Admit(s.records, Some(k), rq.userId, h2, now2).outcome == Proceed(k)))
  {
    var s := Serve(records, Some(k), h, now, w, rq, ctx, false);
    ServedReplyReportsProvider(records, k, h, now, w, rq, ctx);
    NextRequestAfterSettling(records, s.records, k, rq.userId, h2, now2);
  }

  /** The route's reply to such a request is 2xx exactly when the provider
      approved, and the stores end as the attempt leaves them. */
  lemma ServedReplyReportsProvider(records: map<string, IdempotencyRecord<ReplyBody>>, k: string, h: string, now: int,
                                   w: World, rq: AttemptRequest, ctx: Context)
    requires Admit(records, Some(k), rq.userId, h, now).outcome.Proceed?
    requires AttemptGuard(w.orders, rq.orderId, rq.userId, ctx.startTime).Ok?
    requires DefaultPaymentId(ctx.paymentUuid) !in w.payments
    ensures var s := Serve(records, Some(k), h, now, w, rq, ctx, false);
      var rk := rq.(idempotencyKey := Some(k));
      var o := AttemptGuard(w.orders, rq.orderId, rq.userId, ctx.startTime).value;
      var result := EngineResultOf(ctx.provider(ProviderRequestFor(o, rk, PaymentDraftFor(o, rk, ctx.sha256).cardDetails)));
      && s.world == Attempt(w, rk, ctx).world
      && (IsSuccessStatus(s.reply.statusCode) <==> result.Approved?)
  {
    var rk := rq.(idempotencyKey := Some(k));
    ReplyReportsProvider(w, rk, ctx, false);
    assert Handle(w, rk, ctx, false) == Attempt(w, rk, ctx);
  }

  /** Once a request under a key has been answered with a 2xx reply, every
      later request of the same user under that key, on either route and
      whatever it carries, is answered with that reply wrapped in the 200
      replay, and changes neither the ledger nor the stores. */
  lemma RepeatAfterSuccessReplays(records: map<string, IdempotencyRecord<ReplyBody>>, k: string, h: string, now: int,
                                  w: World, rq: AttemptRequest, ctx: Context, retry: bool,
                                  h2: string, now2: int, w2: World, rq2: AttemptRequest, ctx2: Context, retry2: bool)
    requires Admit(records, Some(k), rq.userId, h, now).outcome.Proceed?
    requires IsSuccessStatus(Serve(records, Some(k), h, now, w, rq, ctx, retry).reply.statusCode)
    requires rq2.userId == rq.userId
    ensures var s := Serve(records, Some(k), h, now, w, rq, ctx, retry);
      Serve(s.records, Some(k), h2, now2, w2, rq2, ctx2, retry2)
        == Served(s.records, w2, Reply(200, CachedBody(true, CACHED_MESSAGE, true, Some(s.reply.body))))
  {
    var s := Serve(records, Some(k), h, now, w, rq, ctx, retry);
    assert s.records == Finish(Admit(records, Some(k), rq.userId, h, now).records, k, s.reply.statusCode, s.reply.body);
    ReplayAfterSuccess(records, Some(k), rq.userId, h, h2, now, now2, s.reply.statusCode, s.reply.body);
  }

  /** A request under a key that was answered with anything but a 2xx reply
      leaves the ledger as it was, so the next request of the same user under
      that key runs its handler again. */
  lemma RepeatAfterFailureRunsAgain(records: map<string, IdempotencyRecord<ReplyBody>>, k: string, h: string, now: int,
                                    w: World, rq: AttemptRequest, ctx: Context, retry: bool,
                                    h2: string, now2: int, w2: World, rq2: AttemptRequest, ctx2: Context, retry2: bool)
    requires Admit(records, Some(k), rq.userId, h, now).outcome.Proceed?
    requires !IsSuccessStatus(Serve(records, Some(k), h, now, w, rq, ctx, retry).reply.statusCode)
    requires rq2.userId == rq.userId
    ensures Serve(records, Some(k), h, now, w, rq, ctx, retry).records == records
    ensures h2 != "" ==>
      var second := Serve(records, Some(k), h2, now2, w2, rq2, ctx2, retry2);
      var a := Handle(w2, rq2.(idempotencyKey := Some(k)), ctx2, retry2);
      second.world == a.world && second.reply == ReplyFor(a.outcome, retry2)
  {
    var s := Serve(records, Some(k), h, now, w, rq, ctx, retry);
    assert s.records == Finish(Admit(records, Some(k), rq.userId, h, now).records, k, s.reply.statusCode, s.reply.body);
    if h2 != "" {
      FailedReplyFreesKey(records, Some(k), rq.userId, h, h2, now, now2, s.reply.statusCode, s.reply.body);
    } else {
      FailedReplyFreesKey(records, Some(k), rq.userId, h, "-", now, now2, s.reply.statusCode, s.reply.body);
    }
  }

  /** A second request under a key whose first request has not been answered
      yet gets the 409 conflict; its handler does not run. */
  lemma InFlightRepeatConflicts(records: map<string, IdempotencyRecord<ReplyBody>>, k: string, h: string, now: int,
                                h2: string, now2: int, w2: World, rq: AttemptRequest, rq2: AttemptRequest,
                                ctx2: Context, retry2: bool)
    requires Admit(records, Some(k), rq.userId, h, now).outcome.Proceed?
    requires rq2.userId == rq.userId
    ensures var open := Admit(records, Some(k), rq.userId, h, now).records;
      Serve(open, Some(k), h2, now2, w2, rq2, ctx2, retry2)
        == Served(open, w2, Reply(409, ConflictBody(false, CONFLICT_MESSAGE, CONFLICT_CODE)))
  {
    var open := Admit(records, Some(k), rq.userId, h, now).records;
    assert k in open && open[k].userId == rq.userId && open[k].status == KeyProcessing;
  }
}
