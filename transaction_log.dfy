/** Audit entries (backend/models/TransactionLog.js): a closed set of events and
    severities, optional references to payment, order and user, a required message. */
module TransactionLog {
  import opened Common
  import opened OrderModel
  import opened PaymentModel

  datatype LogEvent =
    | PaymentInitiated | PaymentProcessing | PaymentSucceeded | PaymentFailed | PaymentRetry
    | PaymentRefunded | OrderCreated | OrderStatusChanged | WebhookSent | WebhookFailed | IdempotencyHit

  function EventName(e: LogEvent): string {
    match e
    case PaymentInitiated => "payment.initiated"
    case PaymentProcessing => "payment.processing"
    case PaymentSucceeded => "payment.success"
    case PaymentFailed => "payment.failed"
    case PaymentRetry => "payment.retry"
    case PaymentRefunded => "payment.refunded"
    case OrderCreated => "order.created"
    case OrderStatusChanged => "order.status_changed"
    case WebhookSent => "webhook.sent"
    case WebhookFailed => "webhook.failed"
    case IdempotencyHit => "idempotency.hit"
  }

  /** The schema's `enum` check on `event`. */
  function ParseEvent(s: string): (r: Option<LogEvent>)
    ensures r.Some? ==> EventName(r.value) == s
  {
    if s == "payment.initiated" then Some(PaymentInitiated)
    else if s == "payment.processing" then Some(PaymentProcessing)
    else if s == "payment.success" then Some(PaymentSucceeded)
    else if s == "payment.failed" then Some(PaymentFailed)
    else if s == "payment.retry" then Some(PaymentRetry)
    else if s == "payment.refunded" then Some(PaymentRefunded)
    else if s == "order.created" then Some(OrderCreated)
    else if s == "order.status_changed" then Some(OrderStatusChanged)
    else if s == "webhook.sent" then Some(WebhookSent)
    else if s == "webhook.failed" then Some(WebhookFailed)
    else if s == "idempotency.hit" then Some(IdempotencyHit)
    else None
  }

  /** The eleven event names are distinct and are exactly the names the schema accepts. */
  lemma EventNamesClosed(e: LogEvent, s: string)
    ensures ParseEvent(EventName(e)) == Some(e)
    ensures ParseEvent(s).Some? <==> exists e': LogEvent :: EventName(e') == s
  {
    EventNameParses(e);
    if ParseEvent(s).None? {
      forall e': LogEvent ensures EventName(e') != s {
        EventNameParses(e');
      }
    }
  }

  /** Each event name is read back as its own event. */
  lemma EventNameParses(e: LogEvent)
    ensures ParseEvent(EventName(e)) == Some(e)
  {
    match e
    case PaymentInitiated =>
    case PaymentProcessing =>
    case PaymentSucceeded =>
    case PaymentFailed =>
    case PaymentRetry =>
    case PaymentRefunded =>
    case OrderCreated =>
    case OrderStatusChanged =>
    case WebhookSent =>
    case WebhookFailed =>
    case IdempotencyHit =>
  }

  datatype Severity = Info | SuccessLevel | Warning | ErrorLevel

  function SeverityName(s: Severity): string {
    match s
    case Info => "info"
    case SuccessLevel => "success"
    case Warning => "warning"
    case ErrorLevel => "error"
  }

  /** The structured `metadata` objects the core writes. */
  datatype Metadata =
    | InitiatedMeta(amount: int, currency: Currency, paymentMethod: PaymentMethod)
    | SucceededMeta(transactionId: Option<string>, duration: int)
    | FailedMeta(failureReason: string, remainingAttempts: int, duration: int)
    | DispatchMeta(signature: string, event: string)

  /** The origin of an HTTP request: `req.ip` and the `user-agent` header. */
  datatype RequestInfo = RequestInfo(ip: Option<string>, userAgent: Option<string>)

  datatype LogEntry = LogEntry(
    paymentId: Option<string>,
    orderId: Option<string>,
    userId: Option<UserId>,
    event: LogEvent,
    status: Severity,
    message: string,
    metadata: Option<Metadata>,
    ipAddress: Option<string>,
    userAgent: Option<string>,
    duration: Option<int>,
    createdAt: int)

  /** `message` is required, and a required string must not be empty. */
  predicate IsStorable(e: LogEntry) {
    e.message != ""
  }
}
