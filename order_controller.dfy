/** The order endpoints (backend/controllers/orderController.js): create an
    order for the caller and log it, look one up, and list them. */
module OrderController {
  import opened Common
  import opened OrderModel
  import opened TransactionLog
  import opened TransactionLogger
  import opened Store
  import opened Listing
  import opened Filtering
  import PaymentService

  /** The body of `POST /orders`. `amount` is the amount in minor units (absent
      when the body has none) and `amountText` is how JavaScript prints the
      number the client sent. */
  datatype CreateOrderBody = CreateOrderBody(
    amount: Option<int>,
    amountText: string,
    currency: Option<string>,
    description: Option<string>,
    metadata: Option<map<string, string>>)

  /** `currency || 'INR'` */
  function CurrencyOrDefault(currency: Option<string>): (c: string)
    ensures Supplied(currency) ==> c == currency.value
    ensures !Supplied(currency) ==> c == "INR"
  {
    if Supplied(currency) then currency.value else "INR"
  }

  /** The fields handed to `Order.create`. */
  function DraftFor(userId: UserId, body: CreateOrderBody): OrderDraft {
    OrderDraft(userId, body.amount, Some(CurrencyOrDefault(body.currency)), body.description, body.metadata)
  }

  /** A document the schema refuses reaches the error handler as a validation
      error, which carries no status of its own. */
  const ORDER_VALIDATION_FAILED: AppError := AppError("Order validation failed", UNHANDLED_STATUS)

  /** Inserting an order whose generated id is taken violates the unique index. */
  const DUPLICATE_ORDER_ID: AppError := AppError("E11000 duplicate key error: orderId", UNHANDLED_STATUS)

  /** The `order.created` entry. The message repeats the amount and the
      currency as the client sent them (not the stored, upper-cased code). */
  function CreatedLog(order: Order, userId: UserId, body: CreateOrderBody, req: Option<RequestInfo>): (r: LogRequest)
    ensures r.event == OrderCreated && r.status == Some(Info) && r.paymentId.None?
    ensures r.orderId == Some(order.orderId) && r.userId == Some(userId) && r.metadata.None? && r.duration.None?
    ensures r.message == "Order " + order.orderId + " created for " + body.amountText + " " + CurrencyOrDefault(body.currency)
  {
    LogRequest(
      paymentId := None,
      orderId := Some(order.orderId),
      userId := Some(userId),
      event := OrderCreated,
      status := Some(Info),
      message := "Order " + order.orderId + " created for " + body.amountText + " " + CurrencyOrDefault(body.currency),
      metadata := None,
      req := req,
      duration := None)
  }

  datatype Creation = Creation(outcome: Result<Order, AppError>, orders: map<string, Order>, log: seq<LogEntry>)

  /** The specification of `createOrder`: insert the new order under a fresh
      id made from `uuid`, then log it. */
  function CreateOrderSpec(orders: map<string, Order>, log: seq<LogEntry>, userId: UserId, body: CreateOrderBody,
                           uuid: string, now: int, req: Option<RequestInfo>, logUp: bool): Creation
  {
    var orderId := DefaultOrderId(uuid);
    match NewOrder(orderId, DraftFor(userId, body), now)
    case Err(_) => Creation(Err(ORDER_VALIDATION_FAILED), orders, log)
    case Ok(order) =>
      if orderId in orders then Creation(Err(DUPLICATE_ORDER_ID), orders, log)
      else Creation(Ok(order), orders[orderId := order], Logged(log, CreatedLog(order, userId, body, req), now, logUp))
  }

  /** `createOrder` */
  method CreateOrder(db: Database, audit: AuditLog, userId: UserId, body: CreateOrderBody,
                     uuid: string, now: int, req: Option<RequestInfo>, logUp: bool) returns (r: Result<Order, AppError>)
    requires db.Valid()
    modifies db, audit
    ensures db.Valid()
    ensures db.payments == old(db.payments)
    ensures Creation(r, db.orders, audit.entries)
         == CreateOrderSpec(old(db.orders), old(audit.entries), userId, body, uuid, now, req, logUp)
  {
    var orderId := DefaultOrderId(uuid);
    var created := NewOrder(orderId, DraftFor(userId, body), now);
    if created.Err? {
      return Err(ORDER_VALIDATION_FAILED);
    }
    if orderId in db.orders {
      return Err(DUPLICATE_ORDER_ID);
    }
    var order := created.value;
    db.orders := db.orders[orderId := order];
    audit.Log(CreatedLog(order, userId, body, req), now, logUp);
    r := Ok(order);
  }

  /** A created order is the caller's, new, `created`, with no attempts and three
      allowed, at least the minimum amount, and stored under its own id; the
      log gains exactly its `order.created` entry when the store is up. A
      refused creation changes nothing. */
  lemma CreatedOrderIsFresh(orders: map<string, Order>, log: seq<LogEntry>, userId: UserId, body: CreateOrderBody,
                            uuid: string, now: int, req: Option<RequestInfo>, logUp: bool)
    ensures var c := CreateOrderSpec(orders, log, userId, body, uuid, now, req, logUp);
      && (c.outcome.Err? ==> c.orders == orders && c.log == log)
      && (c.outcome.Ok? <==> DraftViolations(DraftFor(userId, body)) == [] && DefaultOrderId(uuid) !in orders)
      && (c.outcome.Ok? ==>
            var o := c.outcome.value;
            && o.orderId == DefaultOrderId(uuid) && o.orderId !in orders
            && c.orders == orders[o.orderId := o]
            && o.userId == userId && o.status == Created && o.attempts == 0 && o.maxAttempts == 3
            && o.amount >= MIN_AMOUNT && o.paidAt.None?
            && c.log[..|log|] == log
            && (logUp ==> |c.log| == |log| + 1 && c.log[|log|].event == OrderCreated
                          && c.log[|log|].orderId == Some(o.orderId) && c.log[|log|].userId == Some(userId)))
  {
  }

  /** A new order can be paid by its owner at any moment of its 30-minute window. */
  lemma CreatedOrderIsPayable(orders: map<string, Order>, log: seq<LogEntry>, userId: UserId, body: CreateOrderBody,
                              uuid: string, now: int, req: Option<RequestInfo>, logUp: bool, later: int)
    requires CreateOrderSpec(orders, log, userId, body, uuid, now, req, logUp).outcome.Ok?
    requires later <= now + ORDER_TTL_MS
    ensures var c := CreateOrderSpec(orders, log, userId, body, uuid, now, req, logUp);
      PaymentService.AttemptGuard(c.orders, DefaultOrderId(uuid), userId, later) == Ok(c.outcome.value)
  {
  }

  const ORDER_NOT_FOUND: AppError := AppError("Order not found.", 404)

  /** `getOrderById`: the caller's own order with that id, or 404. */
  function GetOrderById(orders: map<string, Order>, orderId: string, userId: UserId): (r: Result<Order, AppError>)
    ensures r.Ok? <==> orderId in orders && orders[orderId].userId == userId
    ensures r.Ok? ==> r.value == orders[orderId] && r.value.userId == userId
    ensures r.Err? ==> r == Err(ORDER_NOT_FOUND)
  {
    match FindOwnedOrder(orders, orderId, userId)
    case Some(o) => Ok(o)
    case None => Err(ORDER_NOT_FOUND)
  }

  /** Query parameters of the order listings; `userId` is used by the admin listing only. */
  datatype OrderQuery = OrderQuery(page: Option<string>, limit: Option<string>, status: Option<string>, userId: Option<string>)

  /** The listing filter: the owner (for a caller's own listing), `status` when
      supplied, and for the admin listing `userId` when supplied (compared with
      the owner's id as text). */
  predicate OrderMatches(o: Order, owner: Option<UserId>, q: OrderQuery) {
    && (owner.None? || o.userId == owner.value)
    && FieldMatches(Only(q.status), StatusName(o.status))
    && (owner.Some? || FieldMatches(Only(q.userId), NatToString(o.userId)))
  }

  /** `Order.find(filter)` over the collection in newest-first order. */
  function MatchingOrders(newestFirst: seq<Order>, owner: Option<UserId>, q: OrderQuery): (r: seq<Order>)
    ensures |r| <= |newestFirst|
    ensures forall o :: o in r <==> o in newestFirst && OrderMatches(o, owner, q)
    ensures IsSubsequence(r, newestFirst)
    ensures forall o :: multiset(r)[o] == if OrderMatches(o, owner, q) then multiset(newestFirst)[o] else 0
  {
    if newestFirst == [] then []
    else
      var rest := MatchingOrders(newestFirst[1..], owner, q);
      FilterStep(newestFirst, rest, OrderMatches(newestFirst[0], owner, q));
      (if OrderMatches(newestFirst[0], owner, q) then [newestFirst[0]] else []) + rest
  }

  /** `getMyOrders`: 10 per page by default, at most 50. */
  function MyOrders(newestFirst: seq<Order>, userId: UserId, q: OrderQuery): Result<Listed<Order>, AppError> {
    ListPage(MatchingOrders(newestFirst, Some(userId), q), q.page, q.limit, 10, 50)
  }

  /** `getAllOrders`: 20 per page by default, at most 100. */
  function AllOrders(newestFirst: seq<Order>, q: OrderQuery): Result<Listed<Order>, AppError> {
    ListPage(MatchingOrders(newestFirst, None, q), q.page, q.limit, 20, 100)
  }

  /** A caller's order listing shows only that caller's orders, with the status
      asked for; a `userId` parameter cannot widen it to someone else's. */
  lemma MyOrdersAreOwn(newestFirst: seq<Order>, userId: UserId, q: OrderQuery)
    ensures var r := MyOrders(newestFirst, userId, q);
      r.Ok? ==>
        && r.value.pagination.total == |MatchingOrders(newestFirst, Some(userId), q)|
        && forall o :: o in r.value.items ==>
             && o in newestFirst && o.userId == userId
             && (Supplied(q.status) ==> StatusName(o.status) == q.status.value)
    ensures MyOrders(newestFirst, userId, q) == MyOrders(newestFirst, userId, q.(userId := None))
  {
    var m := MatchingOrders(newestFirst, Some(userId), q);
    var r := MyOrders(newestFirst, userId, q);
    if r.Ok? {
      WindowOfMatches(m, Skip(r.value.pagination), Abs(r.value.pagination.limit));
    }
    SameOwnFilter(newestFirst, userId, q);
  }

  lemma {:induction false} SameOwnFilter(ps: seq<Order>, userId: UserId, q: OrderQuery)
    ensures MatchingOrders(ps, Some(userId), q) == MatchingOrders(ps, Some(userId), q.(userId := None))
  {
    if ps != [] {
      SameOwnFilter(ps[1..], userId, q);
    }
  }

  /** An admin listing filtered by a user's id shows only that user's orders. */
  lemma AdminUserFilter(newestFirst: seq<Order>, u: UserId, q: OrderQuery)
    requires q.userId == Some(NatToString(u))
    ensures var r := AllOrders(newestFirst, q);
      r.Ok? ==> forall o :: o in r.value.items ==> o.userId == u
  {
    var m := MatchingOrders(newestFirst, None, q);
    var r := AllOrders(newestFirst, q);
    if r.Ok? {
      WindowOfMatches(m, Skip(r.value.pagination), Abs(r.value.pagination.limit));
      forall o | o in r.value.items ensures o.userId == u {
        NatToStringInjective(o.userId, u);
      }
    }
  }
}
