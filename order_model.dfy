/** The Order document: a monetary obligation that payment attempts are made
    against (backend/models/Order.js). Amounts are integer minor units; the
    five currencies all have two decimals, so the schema's minimum of one
    currency unit is 100 minor units. */
module OrderModel {
  import opened Common
  import Ids

  datatype Currency = INR | USD | EUR | GBP | AED

  function CurrencyCode(c: Currency): string {
    match c
    case INR => "INR"
    case USD => "USD"
    case EUR => "EUR"
    case GBP => "GBP"
    case AED => "AED"
  }

  /** The schema's `uppercase: true` setter followed by its `enum` check. */
  function ParseCurrency(s: string): (r: Option<Currency>)
    ensures r.Some? ==> CurrencyCode(r.value) == ToUpperCase(s)
    ensures r.None? ==> forall c: Currency :: CurrencyCode(c) != ToUpperCase(s)
  {
    var u := ToUpperCase(s);
    if u == "INR" then Some(INR)
    else if u == "USD" then Some(USD)
    else if u == "EUR" then Some(EUR)
    else if u == "GBP" then Some(GBP)
    else if u == "AED" then Some(AED)
    else None
  }

  /** Every currency code is upper case already and is accepted as itself, and
      so is every other spelling that upper-cases to it. */
  lemma CurrencyCodeRoundTrip(c: Currency)
    ensures ToUpperCase(CurrencyCode(c)) == CurrencyCode(c)
    ensures ParseCurrency(CurrencyCode(c)) == Some(c)
    ensures forall s :: ToUpperCase(s) == CurrencyCode(c) ==> ParseCurrency(s) == Some(c)
  {
    var code := CurrencyCode(c);
    assert ToUpperCase(code) == code by {
      assert forall i :: 0 <= i < |code| ==> UpperChar(code[i]) == code[i];
    }
  }

  datatype OrderStatus = Created | Processing | Paid | Failed | Refunded | Cancelled

  function StatusName(s: OrderStatus): string {
    match s
    case Created => "created"
    case Processing => "processing"
    case Paid => "paid"
    case Failed => "failed"
    case Refunded => "refunded"
    case Cancelled => "cancelled"
  }

  datatype Order = Order(
    orderId: string,
    userId: UserId,
    amount: int,
    currency: Currency,
    status: OrderStatus,
    description: Option<string>,
    metadata: Option<map<string, string>>,
    attempts: nat,
    maxAttempts: nat,
    createdAt: int,
    expiresAt: int,
    paidAt: Option<int>)

  const MIN_AMOUNT: int := 100
  const DESCRIPTION_MAX_LENGTH: nat := 255
  const DEFAULT_MAX_ATTEMPTS: nat := 3
  const ORDER_TTL_MS: int := 30 * 60 * 1000
  const ORDER_ID_PREFIX: string := "ORD_"

  /** The `isExpired` virtual: only an order still in `created` can be expired. */
  predicate IsExpired(o: Order, now: int) {
    o.expiresAt < now && o.status == Created
  }

  /** The default `orderId`: `ORD_` and 16 upper-case hex digits of a uuid. */
  function DefaultOrderId(uuid: string): string {
    Ids.IdFromUuid(ORDER_ID_PREFIX, uuid)
  }

  lemma DefaultOrderIdShape(uuid: string)
    requires Ids.IsUuidString(uuid)
    ensures Ids.IsPrefixedId(DefaultOrderId(uuid), ORDER_ID_PREFIX)
  {
    Ids.IdFromUuidShape(ORDER_ID_PREFIX, uuid);
  }

  /** The fields a caller hands to `Order.create`; absent fields take the schema defaults. */
  datatype OrderDraft = OrderDraft(
    userId: UserId,
    amount: Option<int>,
    currency: Option<string>,
    description: Option<string>,
    metadata: Option<map<string, string>>)

  datatype SchemaViolation = AmountRequired | AmountBelowMinimum | CurrencyNotAllowed | DescriptionTooLong

  /** The schema's validators, one violation per failing path, in declaration order. */
  function DraftViolations(d: OrderDraft): (r: seq<SchemaViolation>)
    ensures r == [] <==>
      && d.amount.Some? && d.amount.value >= MIN_AMOUNT
      && (d.currency.None? || ParseCurrency(d.currency.value).Some?)
      && (d.description.None? || |Trim(d.description.value)| <= DESCRIPTION_MAX_LENGTH)
  {
    (if d.amount.None? then [AmountRequired] else if d.amount.value < MIN_AMOUNT then [AmountBelowMinimum] else [])
    + (if d.currency.Some? && ParseCurrency(d.currency.value).None? then [CurrencyNotAllowed] else [])
    + (if d.description.Some? && |Trim(d.description.value)| > DESCRIPTION_MAX_LENGTH then [DescriptionTooLong] else [])
  }

  /** A new order document with the schema defaults applied, or the violations that stop its insertion. */
  function NewOrder(orderId: string, d: OrderDraft, now: int): (r: Result<Order, seq<SchemaViolation>>)
    ensures r.Ok? <==> DraftViolations(d) == []
    ensures r.Err? ==> r.error == DraftViolations(d)
    ensures r.Ok? ==>
      && r.value.orderId == orderId && r.value.userId == d.userId
      && r.value.amount == d.amount.value && r.value.amount >= MIN_AMOUNT
      && CurrencyCode(r.value.currency) == (if d.currency.None? then "INR" else ToUpperCase(d.currency.value))
      && r.value.status == Created && r.value.attempts == 0 && r.value.maxAttempts == DEFAULT_MAX_ATTEMPTS
      && r.value.createdAt == now && r.value.expiresAt == now + ORDER_TTL_MS && r.value.paidAt.None?
      && (r.value.description.Some? ==> |r.value.description.value| <= DESCRIPTION_MAX_LENGTH)
  {
    var violations := DraftViolations(d);
    if violations != [] then Err(violations)
    else
      Ok(Order(
        orderId := orderId,
        userId := d.userId,
        amount := d.amount.value,
        currency := if d.currency.None? then INR else ParseCurrency(d.currency.value).value,
        status := Created,
        description := if d.description.None? then None else Some(Trim(d.description.value)),
        metadata := d.metadata,
        attempts := 0,
        maxAttempts := DEFAULT_MAX_ATTEMPTS,
        createdAt := now,
        expiresAt := now + ORDER_TTL_MS,
        paidAt := None))
  }

  /** A new order stays payable for its whole 30-minute window and expires after it. */
  lemma NewOrderExpiryWindow(orderId: string, d: OrderDraft, now: int, later: int)
    requires NewOrder(orderId, d, now).Ok?
    ensures !IsExpired(NewOrder(orderId, d, now).value, later) <==> later <= now + 30 * 60 * 1000
  {
  }
}
