/** The Payment document: one attempt to pay an order (backend/models/Payment.js).
    Only a summary of the card is stored; the document has no place for a CVV. */
module PaymentModel {
  import opened Common
  import Ids
  import opened OrderModel

  datatype PaymentMethod = Card | Upi | NetBanking | Wallet

  function MethodName(m: PaymentMethod): string {
    match m
    case Card => "card"
    case Upi => "upi"
    case NetBanking => "netbanking"
    case Wallet => "wallet"
  }

  /** The schema's `enum` check on `method` (exact spelling). */
  function ParseMethod(s: string): (r: Option<PaymentMethod>)
    ensures r.Some? ==> MethodName(r.value) == s
    ensures r.None? ==> forall m: PaymentMethod :: MethodName(m) != s
  {
    if s == "card" then Some(Card)
    else if s == "upi" then Some(Upi)
    else if s == "netbanking" then Some(NetBanking)
    else if s == "wallet" then Some(Wallet)
    else None
  }

  datatype PaymentStatus = Pending | Processing | Success | Failed | Refunded

  function PaymentStatusName(s: PaymentStatus): string {
    match s
    case Pending => "pending"
    case Processing => "processing"
    case Success => "success"
    case Failed => "failed"
    case Refunded => "refunded"
  }

  /** What is kept of a card: masked number, hash, network and expiry. */
  datatype CardDetails = CardDetails(
    maskedNumber: string,
    cardHash: string,
    cardType: string,
    expiryMonth: string,
    expiryYear: string)

  datatype UpiDetails = UpiDetails(vpa: string)

  /** The provider's reference for an attempt; its other fields are provider policy. */
  datatype GatewayResponse = GatewayResponse(
    transactionId: Option<string>,
    responseCode: string,
    responseMessage: string)

  datatype Payment = Payment(
    paymentId: string,
    orderId: string,
    userId: UserId,
    amount: int,
    currency: Currency,
    paymentMethod: PaymentMethod,
    status: PaymentStatus,
    cardDetails: Option<CardDetails>,
    upiDetails: Option<UpiDetails>,
    gatewayResponse: Option<GatewayResponse>,
    failureReason: Option<string>,
    idempotencyKey: Option<string>,
    retryCount: nat,
    webhookSent: bool,
    webhookSentAt: Option<int>,
    processedAt: Option<int>,
    createdAt: int)

  const PAYMENT_ID_PREFIX: string := "PAY_"

  /** The default `paymentId`: `PAY_` and 16 upper-case hex digits of a uuid. */
  function DefaultPaymentId(uuid: string): string {
    Ids.IdFromUuid(PAYMENT_ID_PREFIX, uuid)
  }

  lemma DefaultPaymentIdShape(uuid: string)
    requires Ids.IsUuidString(uuid)
    ensures Ids.IsPrefixedId(DefaultPaymentId(uuid), PAYMENT_ID_PREFIX)
  {
    Ids.IdFromUuidShape(PAYMENT_ID_PREFIX, uuid);
  }

  /** The fields a caller hands to `Payment.create`; each value is typed, so the
      schema's `required` and `enum` checks hold by construction. */
  datatype PaymentDraft = PaymentDraft(
    orderId: string,
    userId: UserId,
    amount: int,
    currency: Currency,
    paymentMethod: PaymentMethod,
    cardDetails: Option<CardDetails>,
    upiDetails: Option<UpiDetails>,
    idempotencyKey: Option<string>,
    retryCount: Option<nat>)

  /** A new payment document with the schema defaults applied. */
  function NewPayment(paymentId: string, d: PaymentDraft, now: int): (p: Payment)
    ensures p.paymentId == paymentId && p.orderId == d.orderId && p.userId == d.userId
    ensures p.amount == d.amount && p.currency == d.currency && p.paymentMethod == d.paymentMethod
    ensures p.cardDetails == d.cardDetails && p.upiDetails == d.upiDetails && p.idempotencyKey == d.idempotencyKey
    ensures p.status == Pending
    ensures p.retryCount == (if d.retryCount.None? then 0 else d.retryCount.value)
    ensures !p.webhookSent && p.webhookSentAt.None? && p.processedAt.None?
    ensures p.gatewayResponse.None? && p.failureReason.None?
  {
    Payment(
      paymentId := paymentId,
      orderId := d.orderId,
      userId := d.userId,
      amount := d.amount,
      currency := d.currency,
      paymentMethod := d.paymentMethod,
      status := Pending,
      cardDetails := d.cardDetails,
      upiDetails := d.upiDetails,
      gatewayResponse := None,
      failureReason := None,
      idempotencyKey := d.idempotencyKey,
      retryCount := if d.retryCount.None? then 0 else d.retryCount.value,
      webhookSent := false,
      webhookSentAt := None,
      processedAt := None,
      createdAt := now)
  }
}
