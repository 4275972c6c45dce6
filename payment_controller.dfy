/** The payment endpoints (backend/controllers/paymentController.js): the two
    attempt handlers shape the service's result into a 200 or 402 reply, the
    read endpoints list and look up payments, and the admin dashboard folds the
    per-status totals into one summary. */
module PaymentController {
  import opened Common
  import opened OrderModel
  import opened PaymentModel
  import opened TransactionLog
  import opened TransactionLogger
  import opened Store
  import opened PaymentService
  import opened Listing
  import opened Filtering

  /** The payment as the attempt replies show it; `processedAt` appears in the
      first-attempt reply and `retryCount` in the retry reply. */
  datatype PaymentView = PaymentView(
    paymentId: string,
    status: PaymentStatus,
    amount: int,
    currency: Currency,
    paymentMethod: PaymentMethod,
    failureReason: Option<string>,
    processedAt: Option<Option<int>>,
    retryCount: Option<nat>)

  datatype OrderView = OrderView(orderId: string, status: OrderStatus, attempts: nat, remainingAttempts: int)

  /** A reply body: an attempt result, the error handler's message, or one of
      the idempotency gate's own replies (the in-flight conflict, and the
      replay that wraps the stored body). */
  datatype ReplyBody =
    | AttemptBody(success: bool, message: string, payment: PaymentView, order: OrderView)
    | ErrorBody(message: string)
    | ConflictBody(success: bool, message: string, code: string)
    | CachedBody(success: bool, message: string, idempotencyHit: bool, data: Option<ReplyBody>)

  datatype Reply = Reply(statusCode: int, body: ReplyBody)

  /** The error handler answers an error with its status and message. */
  function ErrorReply(e: AppError): (r: Reply)
    ensures r.statusCode == e.statusCode && r.body == ErrorBody(e.message)
  {
    Reply(e.statusCode, ErrorBody(e.message))
  }

  /** `Math.max(0, maxAttempts - attempts)` */
  function RemainingAttempts(o: Order): (r: int)
    ensures r >= 0
    ensures r == 0 <==> o.attempts >= o.maxAttempts
    ensures r > 0 ==> o.attempts + r == o.maxAttempts
  {
    AtLeastZero(o.maxAttempts - o.attempts)
  }

  /** The reply of `initiatePayment` (`retry` false) or `retryPayment` (`retry`
      true) for an attempt the service completed. */
  function AttemptReply(rep: AttemptReport, retry: bool): (r: Reply)
    ensures r.statusCode == (if rep.payment.status == Success then 200 else 402)
    ensures r.body.AttemptBody? && (r.body.success <==> r.statusCode == 200)
    ensures r.body.message == (if r.body.success then (if retry then "Retry successful" else "Payment processed successfully")
                               else (if retry then "Retry failed" else "Payment failed"))
    ensures var v := r.body.payment;
      && v.paymentId == rep.payment.paymentId && v.status == rep.payment.status && v.amount == rep.payment.amount
      && v.currency == rep.payment.currency && v.paymentMethod == rep.payment.paymentMethod
      && v.failureReason == rep.payment.failureReason
      && (v.processedAt.Some? <==> !retry) && (v.retryCount.Some? <==> retry)
      && (retry ==> v.retryCount == Some(rep.payment.retryCount))
      && (!retry ==> v.processedAt == Some(rep.payment.processedAt))
    ensures r.body.order == OrderView(rep.order.orderId, rep.order.status, rep.order.attempts, RemainingAttempts(rep.order))
  {
    var ok := rep.payment.status == Success;
    var p := rep.payment;
    Reply(
      if ok then 200 else 402,
      AttemptBody(
        ok,
        if ok then (if retry then "Retry successful" else "Payment processed successfully")
        else (if retry then "Retry failed" else "Payment failed"),
        PaymentView(p.paymentId, p.status, p.amount, p.currency, p.paymentMethod, p.failureReason,
                    if retry then None else Some(p.processedAt), if retry then Some(p.retryCount) else None),
        OrderView(rep.order.orderId, rep.order.status, rep.order.attempts, RemainingAttempts(rep.order))))
  }

  /** The reply for a service result: the shaped attempt, or the error. */
  function ReplyFor(outcome: Result<AttemptReport, AppError>, retry: bool): Reply {
    if outcome.Ok? then AttemptReply(outcome.value, retry) else ErrorReply(outcome.error)
  }

  /** `initiatePayment` */
  method InitiatePayment(db: Database, audit: AuditLog, rq: AttemptRequest, ctx: Context) returns (reply: Reply)
    requires db.Valid()
    modifies db, audit
    ensures db.Valid()
    ensures var a := Attempt(World(old(db.orders), old(db.payments), old(audit.entries)), rq, ctx);
      && World(db.orders, db.payments, audit.entries) == a.world
      && reply == ReplyFor(a.outcome, false)
  {
    var r := ProcessPayment(db, audit, rq, ctx);
    if r.Err? {
      return ErrorReply(r.error);
    }
    reply := AttemptReply(r.value, false);
  }

  /** `retryPayment` */
  method RetryPaymentHandler(db: Database, audit: AuditLog, rq: AttemptRequest, ctx: Context) returns (reply: Reply)
    requires db.Valid()
    modifies db, audit
    ensures db.Valid()
    ensures var a := Retry(World(old(db.orders), old(db.payments), old(audit.entries)), rq, ctx);
      && World(db.orders, db.payments, audit.entries) == a.world
      && reply == ReplyFor(a.outcome, true)
  {
    var r := RetryPayment(db, audit, rq, ctx);
    if r.Err? {
      return ErrorReply(r.error);
    }
    reply := AttemptReply(r.value, true);
  }

  /** The reply of an admitted attempt is 200 exactly when the provider
      approved, and 402 otherwise; it never carries an error. */
  lemma ReplyReportsProvider(w: World, rq: AttemptRequest, ctx: Context, retry: bool)
    requires AttemptGuard(w.orders, rq.orderId, rq.userId, ctx.startTime).Ok?
    requires DefaultPaymentId(ctx.paymentUuid) !in w.payments
    ensures rq.orderId in w.orders
    ensures var o := w.orders[rq.orderId];
      var result := EngineResultOf(ctx.provider(ProviderRequestFor(o, rq, PaymentDraftFor(o, rq, ctx.sha256).cardDetails)));
      var reply := ReplyFor(Attempt(w, rq, ctx).outcome, retry);
      && reply.body.AttemptBody?
      && (reply.statusCode == 200 <==> result.Approved?)
      && (reply.statusCode == 402 <==> result.Declined?)
  {
  }

  /** After a decline, the remaining count in the reply is the one the
      `payment.failed` entry records, and it is positive exactly when the
      retry endpoint would accept the order. */
  lemma DeclineReplyAgreesWithLogAndRetry(w: World, rq: AttemptRequest, ctx: Context, retry: bool)
    requires AttemptGuard(w.orders, rq.orderId, rq.userId, ctx.startTime).Ok?
    requires DefaultPaymentId(ctx.paymentUuid) !in w.payments
    requires var o := AttemptGuard(w.orders, rq.orderId, rq.userId, ctx.startTime).value;
      EngineResultOf(ctx.provider(ProviderRequestFor(o, rq, PaymentDraftFor(o, rq, ctx.sha256).cardDetails))).Declined?
    ensures var a := Attempt(w, rq, ctx); var reply := ReplyFor(a.outcome, retry);
      && reply.statusCode == 402 && reply.body.AttemptBody?
      && (ctx.logUp ==> |a.world.log| == |w.log| + 2
                        && a.world.log[|w.log| + 1].metadata.Some?
                        && a.world.log[|w.log| + 1].metadata.value.FailedMeta?
                        && a.world.log[|w.log| + 1].metadata.value.remainingAttempts == reply.body.order.remainingAttempts)
      && (reply.body.order.remainingAttempts > 0 <==> RetryGuard(a.world.orders, rq.orderId, rq.userId).Ok?)
  {
    var o := w.orders[rq.orderId];
    var a := Attempt(w, rq, ctx);
    var closed := a.outcome.value.order;
    assert closed.attempts == o.attempts + 1 && closed.maxAttempts == o.maxAttempts && closed.userId == o.userId;
    assert a.world.orders[rq.orderId] == closed;
  }

  const PAYMENT_NOT_FOUND: AppError := AppError("Payment not found.", 404)

  /** `getPaymentById`: the caller's own payment with that id, or 404. */
  function GetPaymentById(payments: map<string, Payment>, paymentId: string, userId: UserId): (r: Result<Payment, AppError>)
    ensures r.Ok? <==> paymentId in payments && payments[paymentId].userId == userId
    ensures r.Ok? ==> r.value == payments[paymentId] && r.value.userId == userId
    ensures r.Err? ==> r == Err(PAYMENT_NOT_FOUND)
  {
    match FindOwnedPayment(payments, paymentId, userId)
    case Some(p) => Ok(p)
    case None => Err(PAYMENT_NOT_FOUND)
  }

  /** Query parameters of the payment listings. */
  datatype PaymentQuery = PaymentQuery(page: Option<string>, limit: Option<string>, status: Option<string>, paymentMethod: Option<string>)

  /** The listing filter: the owner (for `/payments/my`), and `status` and `method` when supplied. */
  predicate PaymentMatches(p: Payment, owner: Option<UserId>, q: PaymentQuery) {
    && (owner.None? || p.userId == owner.value)
    && FieldMatches(Only(q.status), PaymentStatusName(p.status))
    && FieldMatches(Only(q.paymentMethod), MethodName(p.paymentMethod))
  }

  /** `Payment.find(filter)` over the collection in newest-first order. */
  function MatchingPayments(newestFirst: seq<Payment>, owner: Option<UserId>, q: PaymentQuery): (r: seq<Payment>)
    ensures |r| <= |newestFirst|
    ensures forall p :: p in r <==> p in newestFirst && PaymentMatches(p, owner, q)
    ensures IsSubsequence(r, newestFirst)
    ensures forall p :: multiset(r)[p] == if PaymentMatches(p, owner, q) then multiset(newestFirst)[p] else 0
  {
    if newestFirst == [] then []
    else
      var rest := MatchingPayments(newestFirst[1..], owner, q);
      FilterStep(newestFirst, rest, PaymentMatches(newestFirst[0], owner, q));
      (if PaymentMatches(newestFirst[0], owner, q) then [newestFirst[0]] else []) + rest
  }

  /** `getMyPayments`: 10 per page by default, at most 50. */
  function MyPayments(newestFirst: seq<Payment>, userId: UserId, q: PaymentQuery): Result<Listed<Payment>, AppError> {
    ListPage(MatchingPayments(newestFirst, Some(userId), q), q.page, q.limit, 10, 50)
  }

  /** `getAllPayments`: 20 per page by default, at most 100. */
  function AllPayments(newestFirst: seq<Payment>, q: PaymentQuery): Result<Listed<Payment>, AppError> {
    ListPage(MatchingPayments(newestFirst, None, q), q.page, q.limit, 20, 100)
  }

  /** A caller's payment listing shows only that caller's payments, only with
      the status and method asked for, and counts exactly those. */
  lemma MyPaymentsAreOwn(newestFirst: seq<Payment>, userId: UserId, q: PaymentQuery)
    ensures var r := MyPayments(newestFirst, userId, q);
      r.Ok? ==>
        && r.value.pagination.total == |MatchingPayments(newestFirst, Some(userId), q)|
        && forall p :: p in r.value.items ==>
             && p in newestFirst && p.userId == userId
             && (Supplied(q.status) ==> PaymentStatusName(p.status) == q.status.value)
             && (Supplied(q.paymentMethod) ==> MethodName(p.paymentMethod) == q.paymentMethod.value)
  {
    var m := MatchingPayments(newestFirst, Some(userId), q);
    var r := MyPayments(newestFirst, userId, q);
    if r.Ok? {
      WindowOfMatches(m, Skip(r.value.pagination), Abs(r.value.pagination.limit));
    }
  }

  /** Without filters the admin listing counts every payment. */
  lemma AllPaymentsCountsEverything(newestFirst: seq<Payment>, page: Option<string>, limit: Option<string>)
    ensures var r := AllPayments(newestFirst, PaymentQuery(page, limit, None, None));
      r.Ok? ==> r.value.pagination.total == |newestFirst|
  {
    assert MatchingPayments(newestFirst, None, PaymentQuery(page, limit, None, None)) == newestFirst by {
      AllMatch(newestFirst, PaymentQuery(page, limit, None, None));
    }
  }

  lemma {:induction false} AllMatch(ps: seq<Payment>, q: PaymentQuery)
    requires q.status.None? && q.paymentMethod.None?
    ensures MatchingPayments(ps, None, q) == ps
  {
    if ps != [] {
      AllMatch(ps[1..], q);
      assert [ps[0]] + ps[1..] == ps;
    }
  }

  // ---- Admin dashboard ----

  /** One row of the `$group` by status: how many payments have it and their summed amount. */
  datatype StatusGroup = StatusGroup(status: PaymentStatus, count: nat, totalAmount: int)

  /** `stats`: the running total, one count per status seen (success, failed
      and pending start at 0), and the revenue. */
  datatype Stats = Stats(total: int, counts: map<PaymentStatus, int>, totalRevenue: int)

  const INITIAL_STATS: Stats := Stats(0, map[Success := 0, PaymentStatus.Failed := 0, Pending := 0], 0)

  /** One turn of the `forEach` over the groups. */
  function StatsStep(s: Stats, g: StatusGroup): Stats {
    Stats(s.total + g.count, s.counts[g.status := g.count], if g.status == Success then g.totalAmount else s.totalRevenue)
  }

  /** The stats after folding the groups in order. */
  function StatsOf(groups: seq<StatusGroup>): Stats {
    if groups == [] then INITIAL_STATS else StatsStep(StatsOf(groups[..|groups| - 1]), groups[|groups| - 1])
  }

  /** The loop of `getDashboardStats`. */
  method DashboardStats(groups: seq<StatusGroup>) returns (stats: Stats)
    ensures stats == StatsOf(groups)
  {
    stats := INITIAL_STATS;
    var i := 0;
    while i < |groups|
      invariant 0 <= i <= |groups|
      invariant stats == StatsOf(groups[..i])
    {
      assert groups[..i + 1][..i] == groups[..i];
      var g := groups[i];
      stats := Stats(stats.total + g.count, stats.counts[g.status := g.count],
                     if g.status == Success then g.totalAmount else stats.totalRevenue);
      i := i + 1;
    }
    assert groups[..i] == groups;
  }

  /** The number of payments with a status. */
  function CountWith(ps: seq<Payment>, s: PaymentStatus): nat {
    if ps == [] then 0 else (if ps[0].status == s then 1 else 0) + CountWith(ps[1..], s)
  }

  /** The summed amount of the payments with a status. */
  function AmountWith(ps: seq<Payment>, s: PaymentStatus): int {
    if ps == [] then 0 else (if ps[0].status == s then ps[0].amount else 0) + AmountWith(ps[1..], s)
  }

  /** The number of payments whose status is in a set. */
  function CountIn(ps: seq<Payment>, ss: set<PaymentStatus>): nat {
    if ps == [] then 0 else (if ps[0].status in ss then 1 else 0) + CountIn(ps[1..], ss)
  }

  lemma {:induction false} CountInAdd(ps: seq<Payment>, ss: set<PaymentStatus>, s: PaymentStatus)
    requires s !in ss
    ensures CountIn(ps, ss + {s}) == CountIn(ps, ss) + CountWith(ps, s)
  {
    if ps != [] {
      CountInAdd(ps[1..], ss, s);
    }
  }

  lemma {:induction false} CountInNone(ps: seq<Payment>)
    ensures CountIn(ps, {}) == 0
  {
    if ps != [] {
      CountInNone(ps[1..]);
    }
  }

  lemma {:induction false} CountInAll(ps: seq<Payment>, ss: set<PaymentStatus>)
    requires forall p :: p in ps ==> p.status in ss
    ensures CountIn(ps, ss) == |ps|
  {
    if ps != [] {
      assert ps[0] in ps;
      assert forall p :: p in ps[1..] ==> p in ps;
      CountInAll(ps[1..], ss);
    }
  }

  lemma {:induction false} CountWithAbsent(ps: seq<Payment>, s: PaymentStatus)
    requires forall p :: p in ps ==> p.status != s
    ensures CountWith(ps, s) == 0 && AmountWith(ps, s) == 0
  {
    if ps != [] {
      assert ps[0] in ps;
      assert forall p :: p in ps[1..] ==> p in ps;
      CountWithAbsent(ps[1..], s);
    }
  }

  /** The statuses of the first `k` groups. */
  function GroupStatuses(groups: seq<StatusGroup>): set<PaymentStatus> {
    set i | 0 <= i < |groups| :: groups[i].status
  }

  /** The aggregation's promise: one row per status present among the
      payments, with that status's count and summed amount. */
  predicate IsGrouping(groups: seq<StatusGroup>, ps: seq<Payment>) {
    && (forall i, j :: 0 <= i < j < |groups| ==> groups[i].status != groups[j].status)
    && (forall i :: 0 <= i < |groups| ==>
          groups[i].count == CountWith(ps, groups[i].status) && groups[i].totalAmount == AmountWith(ps, groups[i].status))
    && (forall p :: p in ps ==> p.status in GroupStatuses(groups))
  }

  /** The statuses of the first `k` groups are those of the first `k - 1` and
      the `k`-th's, which is new. */
  lemma GroupStatusesSnoc(groups: seq<StatusGroup>, ps: seq<Payment>, k: nat)
    requires IsGrouping(groups, ps) && 0 < k <= |groups|
    ensures GroupStatuses(groups[..k]) == GroupStatuses(groups[..k - 1]) + {groups[k - 1].status}
    ensures groups[k - 1].status !in GroupStatuses(groups[..k - 1])
  {
    var prev, g := groups[..k - 1], groups[k - 1];
    forall st | st in GroupStatuses(groups[..k]) ensures st in GroupStatuses(prev) + {g.status} {
      var i :| 0 <= i < k && groups[..k][i].status == st;
      if i < k - 1 {
        assert prev[i].status == st;
      }
    }
    forall st | st in GroupStatuses(prev) ensures st in GroupStatuses(groups[..k]) {
      var i :| 0 <= i < k - 1 && prev[i].status == st;
      assert groups[..k][i].status == st;
    }
    assert groups[..k][k - 1] == g;
  }

  lemma {:induction false} StatsOfPrefix(groups: seq<StatusGroup>, ps: seq<Payment>, k: nat)
    requires IsGrouping(groups, ps) && k <= |groups|
    ensures var s := StatsOf(groups[..k]); var seen := GroupStatuses(groups[..k]);
      && s.total == CountIn(ps, seen)
      && (forall st :: st in s.counts <==> st in seen || st in {Success, PaymentStatus.Failed, Pending})
      && (forall st :: st in seen ==> s.counts[st] == CountWith(ps, st))
      && (forall st :: st !in seen && st in s.counts ==> s.counts[st] == 0)
      && s.totalRevenue == (if Success in seen then AmountWith(ps, Success) else 0)
  {
    if k == 0 {
      assert groups[..0] == [];
      assert GroupStatuses(groups[..0]) == {};
      CountInNone(ps);
    } else {
      StatsOfPrefix(groups, ps, k - 1);
      var prev := groups[..k - 1];
      var g := groups[k - 1];
      assert groups[..k][..k - 1] == prev;
      GroupStatusesSnoc(groups, ps, k);
      CountInAdd(ps, GroupStatuses(prev), g.status);
      assert StatsOf(groups[..k]) == StatsStep(StatsOf(prev), g);
      assert g.count == CountWith(ps, g.status) && g.totalAmount == AmountWith(ps, g.status);
    }
  }

  /** What the dashboard reports, given an aggregation that groups the payments
      correctly: the total is the number of payments, each status seen (and
      success, failed, pending, present even when zero) has its own count, and
      the revenue is the summed amount of the successful payments. */
  lemma DashboardSummarisesPayments(groups: seq<StatusGroup>, ps: seq<Payment>)
    requires IsGrouping(groups, ps)
    ensures var s := StatsOf(groups);
      && s.total == |ps|
      && (forall st :: st in s.counts ==> s.counts[st] == CountWith(ps, st))
      && (forall st :: CountWith(ps, st) > 0 ==> st in s.counts)
      && s.counts.Keys >= {Success, PaymentStatus.Failed, Pending}
      && s.totalRevenue == AmountWith(ps, Success)
  {
    assert groups[..|groups|] == groups;
    StatsOfPrefix(groups, ps, |groups|);
    var seen := GroupStatuses(groups);
    CountInAll(ps, seen);
    forall st | st !in seen ensures CountWith(ps, st) == 0 && AmountWith(ps, st) == 0 {
      CountWithAbsent(ps, st);
    }
  }

  /** The dashboard reply: the stats and the ten newest payments. */
  datatype Dashboard = Dashboard(stats: Stats, recentPayments: seq<Payment>)

  method GetDashboardStats(groups: seq<StatusGroup>, newestFirst: seq<Payment>) returns (d: Dashboard)
    ensures d.stats == StatsOf(groups)
    ensures d.recentPayments == newestFirst[..if |newestFirst| < 10 then |newestFirst| else 10]
  {
    var stats := DashboardStats(groups);
    d := Dashboard(stats, newestFirst[..if |newestFirst| < 10 then |newestFirst| else 10]);
  }
}
