/** The payment page of the web client (frontend/src/pages/PaymentPage.jsx):
    the idempotency key it makes, the card-number mask and input formatter,
    the request body it sends, and how the server's reply lands on the page
    through the HTTP client (frontend/src/services/api.js). */
module PaymentPage {
  import opened Common
  import Idempotency
  import Validators
  import PaymentController
  import PaymentService
  import PaymentRoutes
  import IdempotencyKeyModel
  import Listing
  import Payments = PaymentModel

  // ---- Idempotency keys ----

  /** `s.substring(start, end)` for `start <= end`: both ends are clamped to the string. */
  function Substring(s: string, start: nat, end: nat): (r: string)
    requires start <= end
    ensures |r| <= end - start
  {
    var e := if end < |s| then end else |s|;
    var b := if start < e then start else e;
    s[b..e]
  }

  /** `generateIdempotencyKey`: `now` is `Date.now()` and `random36` the text of
      `Math.random().toString(36)`. */
  function GenerateIdempotencyKey(now: nat, random36: string): string {
    "idem_" + NatToString(now) + "_" + Substring(random36, 2, 18)
  }

  /** A key made at any moment from September 2001 on (ten or more digits of
      milliseconds) has the length the server's middleware asks for. */
  lemma GeneratedKeyAccepted(now: nat, random36: string)
    requires Pow10(9) <= now < Pow10(233)
    ensures Idempotency.CheckKey(Some(GenerateIdempotencyKey(now, random36))).Ok?
  {
    NatToStringLong(now, 9);
    NatToStringShort(now, 233);
  }

  /** Keys made at different milliseconds differ, whatever the random parts. */
  lemma KeysOfDistinctMomentsDiffer(t1: nat, r1: string, t2: nat, r2: string)
    requires t1 != t2
    ensures GenerateIdempotencyKey(t1, r1) != GenerateIdempotencyKey(t2, r2)
  {
    var a, b := NatToString(t1), NatToString(t2);
    var k1, k2 := GenerateIdempotencyKey(t1, r1), GenerateIdempotencyKey(t2, r2);
    var x1, x2 := "_" + Substring(r1, 2, 18), "_" + Substring(r2, 2, 18);
    // the number is the run of digits after the prefix
    assert k1[5..] == a + x1;
    assert k2[5..] == b + x2;
    Listing.LeadingDigitsOfNumeral(a, x1);
    Listing.LeadingDigitsOfNumeral(b, x2);
    NatToStringInjective(t1, t2);
  }

  // ---- The card mask ----

  /** `s.padEnd(n, c)` for a one-character pad. */
  function PadEnd(s: string, n: nat, c: char): (r: string)
    ensures |r| == if |s| < n then n else |s|
    ensures forall i :: 0 <= i < |r| ==> r[i] == if i < |s| then s[i] else c
  {
    if |s| < n then s + seq(n - |s|, _ => c) else s
  }

  /** The four groups of the padded digits. */
  function MaskOf(cleaned: string): string {
    var padded := PadEnd(cleaned, 16, '*');
    padded[0..4] + " " + padded[4..8] + " " + padded[8..12] + " " + padded[12..16]
  }

  /** `maskCard` */
  function MaskCard(num: string): string {
    var cleaned := DigitsOf(RemoveSpaces(num));
    if |cleaned| == 0 then "**** **** **** ****" else MaskOf(cleaned)
  }

  /** Where the `k`-th of the sixteen slots sits in the mask. */
  function SlotPosition(k: nat): nat {
    k + k / 4
  }

  /** What the `k`-th slot shows: the `k`-th digit, or `*` past the last one. */
  function SlotChar(digits: string, k: nat): char {
    if k < |digits| then digits[k] else '*'
  }

  /** Dropping the white space first changes nothing about the digits kept. */
  lemma {:induction false} DigitsIgnoreSpaces(s: string)
    ensures DigitsOf(RemoveSpaces(s)) == DigitsOf(s)
  {
    if s != [] {
      DigitsIgnoreSpaces(s[1..]);
      FilterAppend(if NotSpace(s[0]) then [s[0]] else [], Filter(s[1..], NotSpace), IsDigit);
      assert Filter(s, NotSpace) == (if NotSpace(s[0]) then [s[0]] else []) + Filter(s[1..], NotSpace);
    }
  }

  lemma MaskOfShape(cleaned: string)
    ensures var r := MaskOf(cleaned);
      && |r| == 19 && r[4] == ' ' && r[9] == ' ' && r[14] == ' '
      && forall k: nat :: k < 16 ==> r[SlotPosition(k)] == SlotChar(cleaned, k)
  {
    var padded := PadEnd(cleaned, 16, '*');
    var r := MaskOf(cleaned);
    forall k: nat | k < 16 ensures r[SlotPosition(k)] == SlotChar(cleaned, k) {
      assert r[SlotPosition(k)] == padded[k];
    }
  }

  /** With no digits the general formula gives sixteen stars, the same as the special case. */
  lemma EmptyMask()
    ensures MaskOf([]) == "**** **** **** ****"
  {
    var padded := PadEnd([], 16, '*');
    assert padded == "****************";
    assert padded[0..4] == padded[4..8] == padded[8..12] == padded[12..16] == "****";
  }

  /** The mask is always four groups of four separated by single spaces; slot
      `k` shows the `k`-th digit of the input, or `*` when there are fewer
      digits, so the characters other than `*` are the first sixteen digits
      (or all of them) in order. The no-digit case is the general one. */
  lemma MaskCardShape(num: string)
    ensures var r := MaskCard(num); var digits := DigitsOf(num);
      && |r| == 19 && r[4] == ' ' && r[9] == ' ' && r[14] == ' '
      && (forall k: nat :: k < 16 ==> r[SlotPosition(k)] == SlotChar(digits, k))
      && (forall k: nat :: k < 16 ==> (r[SlotPosition(k)] != '*' <==> k < |digits|))
    ensures DigitsOf(num) == [] ==> MaskCard(num) == "**** **** **** ****" == MaskOf([])
  {
    var digits := DigitsOf(num);
    DigitsIgnoreSpaces(num);
    EmptyMask();
    assert MaskCard(num) == MaskOf(digits);
    MaskOfShape(digits);
    forall k: nat | k < 16 ensures SlotChar(digits, k) != '*' <==> k < |digits| {
      if k < |digits| {
        assert IsDigit(digits[k]);
      }
    }
  }

  // ---- The card-number input ----

  /** `s.replace(/(.{4})/g, '$1 ')` on a string without line terminators: a
      space after every full group of four. */
  function SpaceAfterGroups(s: string): string {
    if |s| < 4 then s else s[..4] + " " + SpaceAfterGroups(s[4..])
  }

  /** `formatCardNumber` */
  function FormatCardNumber(v: string): string {
    Trim(SpaceAfterGroups(Take(DigitsOf(v), 16)))
  }

  /** The intended display: the digits in groups of four, one space between groups. */
  function Grouped(d: string): (r: string)
    ensures d != [] ==> |r| == |d| + (|d| - 1) / 4 && r[0] == d[0] && r[|r| - 1] == d[|d| - 1]
    ensures d == [] ==> r == []
  {
    if |d| <= 4 then d else d[..4] + " " + Grouped(d[4..])
  }

  /** The replacement leaves a trailing space exactly when the last group is full. */
  lemma {:induction false} SpaceAfterGroupsIsGrouped(d: string)
    ensures SpaceAfterGroups(d) == Grouped(d) + (if |d| > 0 && |d| % 4 == 0 then " " else "")
  {
    if |d| == 4 {
      assert SpaceAfterGroups(d) == d + " " + SpaceAfterGroups(d[4..]);
      assert SpaceAfterGroups(d[4..]) == [];
    } else if |d| > 4 {
      var tail := d[4..];
      var sfx: string := if |d| % 4 == 0 then " " else "";
      assert |tail| > 0 && |tail| % 4 == |d| % 4;
      SpaceAfterGroupsIsGrouped(tail);
      assert SpaceAfterGroups(tail) == Grouped(tail) + sfx;
      assert SpaceAfterGroups(d) == d[..4] + " " + (Grouped(tail) + sfx);
      assert Grouped(d) == d[..4] + " " + Grouped(tail);
    }
  }

  /** Filtering the grouped digits with a test the digits pass and the space
      fails gives the digits back. */
  lemma {:induction false} FilterGrouped(d: string, keep: char -> bool)
    requires forall i :: 0 <= i < |d| ==> keep(d[i])
    requires !keep(' ')
    ensures Filter(Grouped(d), keep) == d
  {
    if |d| <= 4 {
      FilterKeepsAll(d, keep);
    } else {
      FilterGrouped(d[4..], keep);
      FilterAppend(d[..4] + " ", Grouped(d[4..]), keep);
      FilterAppend(d[..4], " ", keep);
      FilterKeepsAll(d[..4], keep);
      assert Filter(" ", keep) == [];
      assert d[..4] + d[4..] == d;
    }
  }

  /** The formatted input is the grouped form of the first sixteen digits. */
  lemma FormatIsGrouped(v: string)
    ensures FormatCardNumber(v) == Grouped(Take(DigitsOf(v), 16))
  {
    var d := Take(DigitsOf(v), 16);
    var g := Grouped(d);
    SpaceAfterGroupsIsGrouped(d);
    if d != [] {
      var s := SpaceAfterGroups(d);
      assert s[0] == d[0] && !IsSpace(s[0]);
      assert TrimStart(s) == s;
      if |d| % 4 == 0 {
        assert s == g + " ";
        assert s[..|s| - 1] == g;
        assert TrimEnd(g) == g by { assert !IsSpace(g[|g| - 1]); }
      } else {
        assert s == g;
        assert !IsSpace(g[|g| - 1]);
      }
    }
  }

  /** The formatter keeps at most sixteen digits and shows at most nineteen
      characters; taking the spaces out gives the first sixteen digits typed
      (or all of them); formatting twice is formatting once. */
  lemma FormatCardNumberProperties(v: string)
    ensures RemoveSpaces(FormatCardNumber(v)) == Take(DigitsOf(v), 16)
    ensures DigitsOf(FormatCardNumber(v)) == Take(DigitsOf(v), 16)
    ensures |FormatCardNumber(v)| <= 19
    ensures FormatCardNumber(FormatCardNumber(v)) == FormatCardNumber(v)
  {
    var d := Take(DigitsOf(v), 16);
    FormatIsGrouped(v);
    FilterGrouped(d, NotSpace);
    FilterGrouped(d, IsDigit);
    FormatIsGrouped(FormatCardNumber(v));
    assert Take(d, 16) == d;
  }

  // ---- The request body ----

  /** The card form; `name` is shown but never sent. */
  datatype CardForm = CardForm(number: string, expiryMonth: string, expiryYear: string, cvv: string, name: string)

  /** The body `handlePay` and `handleRetry` send: the card fields (the number
      without its spaces) for a card, the VPA for UPI, nothing more otherwise. */
  function PayloadFor(orderId: string, paymentMethod: string, card: CardForm, vpa: string): (p: Validators.PaymentBody)
    ensures p.orderId == Some(orderId) && p.paymentMethod == Some(paymentMethod)
    ensures p.cardNumber.Some? <==> paymentMethod == "card"
    ensures p.cardNumber.Some? ==>
      (p.cardNumber.value == RemoveSpaces(card.number)
       && p.expiryMonth == Some(card.expiryMonth) && p.expiryYear == Some(card.expiryYear) && p.cvv == Some(card.cvv))
    ensures p.cardNumber.None? ==> p.expiryMonth.None? && p.expiryYear.None? && p.cvv.None?
    ensures p.vpa.Some? <==> paymentMethod == "upi"
    ensures p.vpa.Some? ==> p.vpa.value == vpa
  {
    var isCard := paymentMethod == "card";
    Validators.PaymentBody(
      orderId := Some(orderId),
      paymentMethod := Some(paymentMethod),
      cardNumber := if isCard then Some(RemoveSpaces(card.number)) else None,
      expiryMonth := if isCard then Some(card.expiryMonth) else None,
      expiryYear := if isCard then Some(card.expiryYear) else None,
      cvv := if isCard then Some(card.cvv) else None,
      vpa := if paymentMethod == "upi" then Some(vpa) else None)
  }

  /** A number typed through the formatter reaches the server as the first
      sixteen digits typed. */
  lemma SentNumberIsTypedDigits(orderId: string, typed: string, card: CardForm, vpa: string)
    requires card.number == FormatCardNumber(typed)
    ensures PayloadFor(orderId, "card", card, vpa).cardNumber == Some(Take(DigitsOf(typed), 16))
  {
    FormatCardNumberProperties(typed);
  }

  // ---- Replies on the page ----

  /** axios's default `validateStatus`, which the client in api.js keeps: a
      2xx reply resolves the call, anything else rejects it. */
  predicate ResolvesAsWritten(statusCode: int) {
    200 <= statusCode < 300
  }

  /** A client that also resolves the 402 a declined attempt answers with. */
  predicate ResolvesDecline(statusCode: int) {
    200 <= statusCode < 300 || statusCode == 402
  }

  /** What the page shows: the last result (the result screen when present)
      and the error line of the form. */
  datatype View = View(result: Option<PaymentController.ReplyBody>, error: string)

  /** How a call ends on the page: a resolved reply becomes the result; a
      rejected one (or no reply at all) leaves the result as it was and shows
      the reply's message, or `fallback` when there is none. */
  function Landed(before: Option<PaymentController.ReplyBody>, reply: Option<PaymentController.Reply>,
                  resolves: int -> bool, fallback: string): (v: View)
    ensures reply.Some? && resolves(reply.value.statusCode) ==> v == View(Some(reply.value.body), "")
    ensures !(reply.Some? && resolves(reply.value.statusCode)) ==>
      && v.result == before
      && v.error == (if reply.Some? && reply.value.body.message != "" then reply.value.body.message else fallback)
  {
    if reply.Some? && resolves(reply.value.statusCode) then View(Some(reply.value.body), "")
    else View(before, if reply.Some? && reply.value.body.message != "" then reply.value.body.message else fallback)
  }

  /** The retry button: `!result.success && result.data?.order?.remainingAttempts > 0`. */
  predicate RetryOffered(result: Option<PaymentController.ReplyBody>) {
    && result.Some? && result.value.AttemptBody?
    && !result.value.success && result.value.order.remainingAttempts > 0
  }

  /** The page: the order it pays, the key made when it opened, and its state. */
  class Page {
    const orderId: string
    /** `Date.now()` and the random draw when the page opened. */
    const openedAt: nat
    const openedRandom: string
    /** The client's rule for which statuses resolve a call. */
    const resolves: int -> bool
    var result: Option<PaymentController.ReplyBody>
    var error: string
    var processing: bool

    constructor(orderId: string, openedAt: nat, openedRandom: string, resolves: int -> bool)
      ensures this.orderId == orderId && this.openedAt == openedAt && this.openedRandom == openedRandom
      ensures this.resolves == resolves
      ensures result.None? && error == "" && !processing
    {
      this.orderId := orderId;
      this.openedAt := openedAt;
      this.openedRandom := openedRandom;
      this.resolves := resolves;
      result := None;
      error := "";
      processing := false;
    }

    /** `useState(generateIdempotencyKey)`: made once when the page opens. */
    function IdempotencyKey(): string {
      GenerateIdempotencyKey(openedAt, openedRandom)
    }

    /** `handlePay`: send the body under the page's own key; `reply` is what the
        server answers (None when no reply arrives). */
    method HandlePay(paymentMethod: string, card: CardForm, vpa: string, reply: Option<PaymentController.Reply>)
      returns (sent: Validators.PaymentBody, key: string)
      modifies this
      ensures key == IdempotencyKey()
      ensures sent == PayloadFor(orderId, paymentMethod, card, vpa)
      ensures View(result, error) == Landed(old(result), reply, resolves, "Payment processing failed")
      ensures !processing
    {
      error := "";
      processing := true;
      sent := PayloadFor(orderId, paymentMethod, card, vpa);
      key := IdempotencyKey();
      if reply.Some? && resolves(reply.value.statusCode) {
        result := Some(reply.value.body);
      } else {
        error := if reply.Some? && reply.value.body.message != "" then reply.value.body.message else "Payment processing failed";
      }
      processing := false;
    }

    /** `handleRetry`: clear the result and send the body under a key made now. */
    method HandleRetry(paymentMethod: string, card: CardForm, vpa: string, now: nat, random36: string,
                       reply: Option<PaymentController.Reply>)
      returns (sent: Validators.PaymentBody, key: string)
      modifies this
      ensures key == GenerateIdempotencyKey(now, random36)
      ensures now != openedAt ==> key != IdempotencyKey()
      ensures sent == PayloadFor(orderId, paymentMethod, card, vpa)
      ensures View(result, error) == Landed(None, reply, resolves, "Retry failed")
      ensures !processing
    {
      key := GenerateIdempotencyKey(now, random36);
      if now != openedAt {
        KeysOfDistinctMomentsDiffer(now, random36, openedAt, openedRandom);
      }
      error := "";
      result := None;
      processing := true;
      sent := PayloadFor(orderId, paymentMethod, card, vpa);
      if reply.Some? && resolves(reply.value.statusCode) {
        result := Some(reply.value.body);
      } else {
        error := if reply.Some? && reply.value.body.message != "" then reply.value.body.message else "Retry failed";
      }
      processing := false;
    }
  }

  /** Every reply of the payment endpoints that resolves under axios's default
      rule is a success, and so is the idempotency gate's 200 replay, so a page
      that shows no retry button keeps showing none after a pay or retry call,
      whatever the server answers: a handler's reply for any outcome, or any
      reply of either attempt route, gate replies included. */
  lemma RetryNeverOfferedAsWritten(before: Option<PaymentController.ReplyBody>,
                                   outcome: Result<PaymentService.AttemptReport, AppError>, retry: bool, fallback: string,
                                   records: map<string, IdempotencyKeyModel.IdempotencyRecord<PaymentController.ReplyBody>>,
                                   header: Option<string>, requestHash: string, now: int,
                                   w: PaymentService.World, rq: PaymentService.AttemptRequest, ctx: PaymentService.Context)
    requires !RetryOffered(before)
    ensures !RetryOffered(Landed(before, Some(PaymentController.ReplyFor(outcome, retry)), ResolvesAsWritten, fallback).result)
    ensures var reply := PaymentRoutes.Serve(records, header, requestHash, now, w, rq, ctx, retry).reply;
      !RetryOffered(Landed(before, Some(reply), ResolvesAsWritten, fallback).result)
  {
  }

  /** The discrepancy: a declined first attempt that leaves attempts to spare
      (the server would accept a retry) lands on the page as an error line
      with no result, so the retry button never appears. */
  lemma DeclineHidesRetryAsWritten(w: PaymentService.World, rq: PaymentService.AttemptRequest, ctx: PaymentService.Context)
    requires PaymentService.AttemptGuard(w.orders, rq.orderId, rq.userId, ctx.startTime).Ok?
    requires Payments.DefaultPaymentId(ctx.paymentUuid) !in w.payments
    requires var o := PaymentService.AttemptGuard(w.orders, rq.orderId, rq.userId, ctx.startTime).value;
      PaymentService.EngineResultOf(ctx.provider(PaymentService.ProviderRequestFor(o, rq,
        PaymentService.PaymentDraftFor(o, rq, ctx.sha256).cardDetails))).Declined?
    requires PaymentService.RetryGuard(PaymentService.Attempt(w, rq, ctx).world.orders, rq.orderId, rq.userId).Ok?
    ensures var reply := PaymentController.ReplyFor(PaymentService.Attempt(w, rq, ctx).outcome, false);
      && reply.body.AttemptBody? && !reply.body.success && reply.body.order.remainingAttempts > 0
      && Landed(None, Some(reply), ResolvesAsWritten, "Payment processing failed") == View(None, "Payment failed")
      && !RetryOffered(Landed(None, Some(reply), ResolvesAsWritten, "Payment processing failed").result)
  {
    PaymentController.DeclineReplyAgreesWithLogAndRetry(w, rq, ctx, false);
  }

  /** With a client that resolves the decline reply, the retry button after an
      attempt appears exactly when the server would accept a retry of the
      order, and never after an approval. */
  lemma RetryOfferedExactlyWhenAllowed(w: PaymentService.World, rq: PaymentService.AttemptRequest,
                                       ctx: PaymentService.Context, retry: bool)
    requires PaymentService.AttemptGuard(w.orders, rq.orderId, rq.userId, ctx.startTime).Ok?
    requires Payments.DefaultPaymentId(ctx.paymentUuid) !in w.payments
    ensures var a := PaymentService.Attempt(w, rq, ctx);
      var v := Landed(None, Some(PaymentController.ReplyFor(a.outcome, retry)), ResolvesDecline, "Payment processing failed");
      var o := PaymentService.AttemptGuard(w.orders, rq.orderId, rq.userId, ctx.startTime).value;
      var result := PaymentService.EngineResultOf(ctx.provider(PaymentService.ProviderRequestFor(o, rq,
        PaymentService.PaymentDraftFor(o, rq, ctx.sha256).cardDetails)));
      && v.result.Some?
      && (result.Approved? ==> !RetryOffered(v.result))
      && (result.Declined? ==> (RetryOffered(v.result) <==> PaymentService.RetryGuard(a.world.orders, rq.orderId, rq.userId).Ok?))
  {
    PaymentController.ReplyReportsProvider(w, rq, ctx, retry);
    var o := PaymentService.AttemptGuard(w.orders, rq.orderId, rq.userId, ctx.startTime).value;
    var result := PaymentService.EngineResultOf(ctx.provider(PaymentService.ProviderRequestFor(o, rq,
      PaymentService.PaymentDraftFor(o, rq, ctx.sha256).cardDetails)));
    if result.Declined? {
      PaymentController.DeclineReplyAgreesWithLogAndRetry(w, rq, ctx, retry);
    }
  }
}
