/** The merchant notifier (backend/services/webhookService.js): builds the
    payload for a settled payment, signs it, and schedules a delivery log entry.
    The clock (`toISOString`) and the secret from the environment are inputs. */
module WebhookService {
  import opened Common
  import opened OrderModel
  import opened PaymentModel
  import opened TransactionLog
  import opened TransactionLogger
  import Crypto

  datatype WebhookPayload = WebhookPayload(
    event: LogEvent,
    paymentId: string,
    orderId: string,
    amount: int,
    currency: Currency,
    status: PaymentStatus,
    paymentMethod: PaymentMethod,
    timestamp: string,
    gatewayResponse: Option<GatewayResponse>)

  /** `{ payload, signature }` */
  datatype Dispatch = Dispatch(payload: WebhookPayload, signature: string)

  /** HMAC-SHA256, the JSON rendering of a payload, and `process.env.WEBHOOK_SECRET`. */
  datatype Signer = Signer(
    hmac: (string, string) -> string,
    stringify: WebhookPayload -> string,
    secretEnv: Option<string>)

  const DEFAULT_SECRET: string := "default_secret"

  /** `process.env.WEBHOOK_SECRET || 'default_secret'`: an unset or empty secret falls back. */
  function WebhookSecret(env: Option<string>): (s: string)
    ensures s != ""
    ensures env.Some? && env.value != "" ==> s == env.value
    ensures env.None? || env.value == "" ==> s == DEFAULT_SECRET
  {
    if env.Some? && env.value != "" then env.value else DEFAULT_SECRET
  }

  /** `sendWebhook`: the payload describes the payment and the order it paid, and
      the signature is the HMAC of that payload under the configured secret. */
  function SendWebhook(signer: Signer, payment: Payment, order: Order, timestamp: string): (d: Dispatch)
    ensures d.payload.event == PaymentSucceeded <==> payment.status == Success
    ensures d.payload.event == PaymentSucceeded || d.payload.event == PaymentFailed
    ensures && d.payload.paymentId == payment.paymentId && d.payload.amount == payment.amount
            && d.payload.currency == payment.currency && d.payload.status == payment.status
            && d.payload.paymentMethod == payment.paymentMethod
            && d.payload.gatewayResponse == payment.gatewayResponse
    ensures d.payload.orderId == order.orderId && d.payload.timestamp == timestamp
    ensures d.signature == Crypto.GenerateWebhookSignature(signer.hmac, signer.stringify, d.payload, WebhookSecret(signer.secretEnv))
  {
    var payload := WebhookPayload(
      event := if payment.status == Success then PaymentSucceeded else PaymentFailed,
      paymentId := payment.paymentId,
      orderId := order.orderId,
      amount := payment.amount,
      currency := payment.currency,
      status := payment.status,
      paymentMethod := payment.paymentMethod,
      timestamp := timestamp,
      gatewayResponse := payment.gatewayResponse);
    Dispatch(payload, Crypto.GenerateWebhookSignature(signer.hmac, signer.stringify, payload, WebhookSecret(signer.secretEnv)))
  }

  /** The receiver can check every dispatched signature with the same secret. */
  lemma DispatchVerifies(signer: Signer, payment: Payment, order: Order, timestamp: string)
    ensures var d := SendWebhook(signer, payment, order, timestamp);
      Crypto.VerifyWebhookSignature(signer.hmac, signer.stringify, d.payload, d.signature, WebhookSecret(signer.secretEnv)) == Ok(true)
  {
    var d := SendWebhook(signer, payment, order, timestamp);
    Crypto.VerifyAcceptsGenerated(signer.hmac, signer.stringify, d.payload, WebhookSecret(signer.secretEnv));
  }

  /** The signature as the delivery log shows it: `signature.slice(0, 16) + '...'`. */
  function ShortSignature(signature: string): (r: string)
    ensures |r| == (if |signature| < 16 then |signature| else 16) + 3
    ensures r[..|r| - 3] == signature[..|r| - 3] && r[|r| - 3..] == "..."
  {
    Take(signature, 16) + "..."
  }

  /** The entry the delayed delivery callback asks the logger to append. */
  function DeliveryLogRequest(d: Dispatch, payment: Payment, order: Order): (r: LogRequest)
    ensures r.event == WebhookSent && r.status == Some(Info) && r.req.None? && r.duration.None?
    ensures r.paymentId == Some(payment.paymentId) && r.orderId == Some(order.orderId) && r.userId == Some(payment.userId)
    ensures r.message == "Webhook dispatched: " + EventName(d.payload.event)
    ensures r.metadata == Some(DispatchMeta(ShortSignature(d.signature), EventName(d.payload.event)))
  {
    LogRequest(
      paymentId := Some(payment.paymentId),
      orderId := Some(order.orderId),
      userId := Some(payment.userId),
      event := WebhookSent,
      status := Some(Info),
      message := "Webhook dispatched: " + EventName(d.payload.event),
      metadata := Some(DispatchMeta(ShortSignature(d.signature), EventName(d.payload.event))),
      req := None,
      duration := None)
  }

  /** The delivery log never holds more than 16 characters of a signature. */
  lemma DeliveryLogHidesSignature(d: Dispatch, payment: Payment, order: Order)
    ensures var m := DeliveryLogRequest(d, payment, order).metadata.value;
      |m.signature| <= 19 && m.signature[..|m.signature| - 3] <= d.signature
  {
  }
}
