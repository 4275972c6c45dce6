/** The request validators (backend/middlewares/validators.js): one chain of
    checks per body field, run in declaration order; every failing check adds
    one error (its own message, or `Invalid value` when the chain gives it
    none), and `validate` turns a non-empty error list into one 400 error.
    A field the body lacks is read as the empty string; `optional()` skips a
    chain for a missing field, and `if(...)` skips it unless the method matches. */
module Validators {
  import opened Common
  import opened OrderModel
  import opened OrderController
  import Listing

  datatype FieldError = FieldError(path: string, msg: string)

  /** The message of a check the chain gives none. */
  const DEFAULT_MESSAGE: string := "Invalid value"

  /** The value a check sees: a missing field reads as the empty string. */
  function Str(v: Option<string>): string {
    if v.None? then "" else v.value
  }

  /** One check: no error when it passes, one error at `path` otherwise. */
  function Check(ok: bool, path: string, msg: string): (r: seq<FieldError>)
    ensures ok <==> r == []
    ensures !ok ==> r == [FieldError(path, msg)]
  {
    if ok then [] else [FieldError(path, msg)]
  }

  /** `path: msg` */
  function ErrorText(e: FieldError): string {
    e.path + ": " + e.msg
  }

  function ErrorTexts(errors: seq<FieldError>): (r: seq<string>)
    ensures |r| == |errors|
    ensures forall i :: 0 <= i < |errors| ==> r[i] == ErrorText(errors[i])
  {
    if errors == [] then [] else [ErrorText(errors[0])] + ErrorTexts(errors[1..])
  }

  const VALIDATION_PREFIX: string := "Validation failed: "

  /** `validate`: pass on no errors, else one 400 error listing them all. */
  function Validate(errors: seq<FieldError>): (r: Result<(), AppError>)
    ensures r.Ok? <==> errors == []
    ensures r.Err? ==> r.error.statusCode == 400
    ensures r.Err? ==> r.error.message == VALIDATION_PREFIX + Join(ErrorTexts(errors), ", ")
    ensures |errors| == 1 ==> r == Err(AppError(VALIDATION_PREFIX + ErrorText(errors[0]), 400))
  {
    if errors == [] then Ok(()) else Err(AppError(VALIDATION_PREFIX + Join(ErrorTexts(errors), ", "), 400))
  }

  // ---- Character classes and the validator library's checks ----

  predicate IsLower(c: char) { 'a' <= c <= 'z' }
  predicate IsUpper(c: char) { 'A' <= c <= 'Z' }

  /** `\w` */
  predicate IsWordChar(c: char) {
    IsLower(c) || IsUpper(c) || IsDigit(c) || c == '_'
  }

  /** `[\w.-]` */
  predicate IsVpaChar(c: char) {
    IsWordChar(c) || c == '.' || c == '-'
  }

  /** `notEmpty()`: at least one character (white space counts). */
  predicate NotEmpty(s: string) {
    s != ""
  }

  predicate AllDigits(s: string) {
    forall i :: 0 <= i < |s| ==> IsDigit(s[i])
  }

  /** `isInt()` text: an optional sign and one or more digits (leading zeros allowed). */
  predicate IsIntText(s: string) {
    && s != []
    && (if s[0] == '-' || s[0] == '+' then |s| >= 2 && AllDigits(s[1..]) else AllDigits(s))
  }

  /** The value of `isInt()` text. */
  function IntTextValue(s: string): int
    requires IsIntText(s)
  {
    if s[0] == '-' then -(DecimalValue(s[1..]) as int)
    else if s[0] == '+' then DecimalValue(s[1..])
    else DecimalValue(s)
  }

  /** `isInt({ min, max })` with either bound optional. */
  predicate IsIntIn(s: string, min: Option<int>, max: Option<int>) {
    && IsIntText(s)
    && (min.None? || IntTextValue(s) >= min.value)
    && (max.None? || IntTextValue(s) <= max.value)
  }

  /** `isNumeric()`: an optional sign, optionally digits and a point, then one or more digits. */
  predicate IsNumericText(s: string) {
    var u := if s != [] && (s[0] == '-' || s[0] == '+') then s[1..] else s;
    || (u != [] && AllDigits(u))
    || (exists i :: 0 <= i < |u| - 1 && u[i] == '.' && AllDigits(u[..i]) && AllDigits(u[i + 1..]))
  }

  /** `matches(/^[\w.-]+@[\w.-]+$/)`: one `@` with a non-empty run of word
      characters, dots and dashes on each side. */
  predicate IsVpa(s: string) {
    exists i :: 0 < i < |s| - 1 && s[i] == '@' && (forall j :: 0 <= j < |s| && j != i ==> IsVpaChar(s[j]))
  }

  /** JavaScript's line terminators, which `.` does not match. */
  predicate IsLineTerminator(c: char) {
    c == '\n' || c == '\r' || c == '\U{2028}' || c == '\U{2029}'
  }

  /** The text before the first line terminator. */
  function FirstLine(s: string): (r: string)
    ensures r <= s
    ensures forall i :: 0 <= i < |r| ==> !IsLineTerminator(r[i])
    ensures |r| < |s| ==> IsLineTerminator(s[|r|])
  {
    if s == [] || IsLineTerminator(s[0]) then [] else [s[0]] + FirstLine(s[1..])
  }

  /** `matches(/^(?=.*[a-z])(?=.*[A-Z])(?=.*\d)/)`: each look-ahead starts at
      the beginning and cannot cross a line terminator, so the three kinds of
      character must all occur in the first line. */
  predicate HasMixedFirstLine(s: string) {
    var l := FirstLine(s);
    && (exists i :: 0 <= i < |l| && IsLower(l[i]))
    && (exists i :: 0 <= i < |l| && IsUpper(l[i]))
    && (exists i :: 0 <= i < |l| && IsDigit(l[i]))
  }

  /** Checks the model takes from outside: `isEmail()` and `isCreditCard()`. */
  datatype Library = Library(isEmail: string -> bool, isCreditCard: string -> bool)

  // ---- Order ----

  /** The order fields the chains read; `amount` is the number in minor units
      (absent when the field is missing or not a number). */
  datatype OrderBody = OrderBody(amount: Option<int>, currency: Option<string>, description: Option<string>)

  const CURRENCY_CODES: seq<string> := ["INR", "USD", "EUR", "GBP", "AED"]

  /** `createOrderValidator`: the errors, and the body with `description` trimmed. */
  function OrderErrors(b: OrderBody): (r: seq<FieldError>)
    ensures r == [] <==>
      && b.amount.Some? && b.amount.value >= MIN_AMOUNT
      && (b.currency.None? || b.currency.value in CURRENCY_CODES)
      && (b.description.None? || |Trim(b.description.value)| <= 255)
  {
    Check(b.amount.Some? && b.amount.value >= MIN_AMOUNT, "amount", "Amount must be a positive number")
    + (if b.currency.None? then [] else Check(b.currency.value in CURRENCY_CODES, "currency", "Invalid currency"))
    + (if b.description.None? then [] else Check(|Trim(b.description.value)| <= 255, "description", DEFAULT_MESSAGE))
  }

  /** The `trim()` sanitizer rewrites `description` for the handler. */
  function SanitizedOrder(b: OrderBody): (s: OrderBody)
    ensures s.amount == b.amount && s.currency == b.currency
    ensures s.description.Some? <==> b.description.Some?
    ensures s.description.Some? ==> s.description.value == Trim(b.description.value)
  {
    b.(description := if b.description.None? then None else Some(Trim(b.description.value)))
  }

  lemma TrimShortens(s: string)
    ensures |Trim(s)| <= |s|
  {
  }

  /** An order body that passes the validator is one the schema stores: the
      controller's draft (`currency || 'INR'`, the trimmed description) has no
      violation. */
  lemma ValidatedOrderIsStorable(b: OrderBody, userId: UserId, amountText: string, metadata: Option<map<string, string>>)
    requires OrderErrors(b) == []
    ensures var s := SanitizedOrder(b);
      DraftViolations(DraftFor(userId, CreateOrderBody(s.amount, amountText, s.currency, s.description, metadata))) == []
  {
    var s := SanitizedOrder(b);
    var d := DraftFor(userId, CreateOrderBody(s.amount, amountText, s.currency, s.description, metadata));
    assert d.amount == b.amount && d.description == s.description;
    var code := CurrencyOrDefault(b.currency);
    assert d.currency == Some(code);
    assert ParseCurrency(code).Some? by {
      if Listing.Supplied(b.currency) {
        ListedCodeParses(b.currency.value);
      } else {
        CurrencyCodeRoundTrip(INR);
      }
    }
    assert d.description.None? || |Trim(d.description.value)| <= DESCRIPTION_MAX_LENGTH by {
      if b.description.Some? {
        TrimShortens(Trim(b.description.value));
      }
    }
  }

  /** Every code the validator lists is one the schema accepts. */
  lemma ListedCodeParses(c: string)
    requires c in CURRENCY_CODES
    ensures ParseCurrency(c).Some?
  {
    var i :| 0 <= i < 5 && CURRENCY_CODES[i] == c;
    var cur := [INR, USD, EUR, GBP, AED][i];
    assert c == CurrencyCode(cur);
    CurrencyCodeRoundTrip(cur);
  }

  /** The validator is stricter than the schema on currency: any other
      spelling of a code (`inr`, `Usd`, or `ınr` with a dotless i) is one the
      schema upper-cases to the code and stores, and the validator refuses. */
  lemma NonCanonicalCurrencyRefused(s: string, c: Currency, amount: Option<int>, description: Option<string>,
                                    userId: UserId, metadata: Option<map<string, string>>)
    requires ToUpperCase(s) == CurrencyCode(c) && s != CurrencyCode(c)
    ensures FieldError("currency", "Invalid currency") in OrderErrors(OrderBody(amount, Some(s), description))
    ensures ParseCurrency(s) == Some(c)
    ensures CurrencyNotAllowed !in DraftViolations(OrderDraft(userId, amount, Some(s), description, metadata))
  {
    CurrencyCodeRoundTrip(c);
    if s in CURRENCY_CODES {
      ListedCodeIsUpperCase(s);
    }
    UnlistedCurrencyReported(OrderBody(amount, Some(s), description));
    ParsedCurrencyAllowed(OrderDraft(userId, amount, Some(s), description, metadata));
  }

  /** A currency the schema parses draws no currency violation. */
  lemma ParsedCurrencyAllowed(d: OrderDraft)
    requires d.currency.Some? && ParseCurrency(d.currency.value).Some?
    ensures CurrencyNotAllowed !in DraftViolations(d)
  {
    var first := if d.amount.None? then [AmountRequired] else if d.amount.value < MIN_AMOUNT then [AmountBelowMinimum] else [];
    var last := if d.description.Some? && |Trim(d.description.value)| > DESCRIPTION_MAX_LENGTH then [DescriptionTooLong] else [];
    assert DraftViolations(d) == first + last;
  }

  /** A currency outside the list draws the currency error. */
  lemma UnlistedCurrencyReported(b: OrderBody)
    requires b.currency.Some? && b.currency.value !in CURRENCY_CODES
    ensures FieldError("currency", "Invalid currency") in OrderErrors(b)
  {
    var first := Check(b.amount.Some? && b.amount.value >= MIN_AMOUNT, "amount", "Amount must be a positive number");
    var last := if b.description.None? then [] else Check(|Trim(b.description.value)| <= 255, "description", DEFAULT_MESSAGE);
    assert OrderErrors(b) == first + [FieldError("currency", "Invalid currency")] + last;
    assert OrderErrors(b)[|first|] == FieldError("currency", "Invalid currency");
  }

  /** The listed codes are written in upper case. */
  lemma ListedCodeIsUpperCase(x: string)
    requires x in CURRENCY_CODES
    ensures ToUpperCase(x) == x
  {
    var i :| 0 <= i < 5 && CURRENCY_CODES[i] == x;
    var cur := [INR, USD, EUR, GBP, AED][i];
    assert x == CurrencyCode(cur);
    CurrencyCodeRoundTrip(cur);
  }

  // ---- Payment ----

  /** The payment fields the chains read. */
  datatype PaymentBody = PaymentBody(
    orderId: Option<string>,
    paymentMethod: Option<string>,
    cardNumber: Option<string>,
    expiryMonth: Option<string>,
    expiryYear: Option<string>,
    cvv: Option<string>,
    vpa: Option<string>)

  const METHOD_NAMES: seq<string> := ["card", "upi", "netbanking", "wallet"]

  /** The card chains, run only when `method` is `card`. The year bound is the
      calendar year when the server loaded the module. */
  function CardErrors(b: PaymentBody, lib: Library, bootYear: int): seq<FieldError> {
    var number := Str(b.cardNumber);
    var month := Str(b.expiryMonth);
    var year := Str(b.expiryYear);
    var cvv := Str(b.cvv);
    Check(NotEmpty(number), "cardDetails.number", DEFAULT_MESSAGE)
    + Check(lib.isCreditCard(number), "cardDetails.number", "Valid card number is required for card payments")
    + Check(NotEmpty(month), "cardDetails.expiryMonth", DEFAULT_MESSAGE)
    + Check(IsIntIn(month, Some(1), Some(12)), "cardDetails.expiryMonth", "Valid expiry month required")
    + Check(NotEmpty(year), "cardDetails.expiryYear", DEFAULT_MESSAGE)
    + Check(IsIntIn(year, Some(bootYear), None), "cardDetails.expiryYear", "Valid expiry year required")
    + Check(NotEmpty(cvv), "cardDetails.cvv", DEFAULT_MESSAGE)
    + Check(3 <= |cvv| <= 4, "cardDetails.cvv", DEFAULT_MESSAGE)
    + Check(IsNumericText(cvv), "cardDetails.cvv", "Valid CVV required")
  }

  /** The UPI chain, run only when `method` is `upi`. */
  function UpiErrors(b: PaymentBody): seq<FieldError> {
    Check(NotEmpty(Str(b.vpa)), "upiDetails.vpa", DEFAULT_MESSAGE)
    + Check(IsVpa(Str(b.vpa)), "upiDetails.vpa", "Valid UPI VPA required (e.g., user@upi)")
  }

  /** `createPaymentValidator` */
  function PaymentErrors(b: PaymentBody, lib: Library, bootYear: int): (r: seq<FieldError>)
    ensures r == [] <==>
      && NotEmpty(Str(b.orderId))
      && Str(b.paymentMethod) in METHOD_NAMES
      && (Str(b.paymentMethod) == "card" ==> CardErrors(b, lib, bootYear) == [])
      && (Str(b.paymentMethod) == "upi" ==> UpiErrors(b) == [])
  {
    Check(NotEmpty(Str(b.orderId)), "orderId", "Order ID is required")
    + Check(Str(b.paymentMethod) in METHOD_NAMES, "method", "Invalid payment method")
    + (if Str(b.paymentMethod) == "card" then CardErrors(b, lib, bootYear) else [])
    + (if Str(b.paymentMethod) == "upi" then UpiErrors(b) else [])
  }

  /** The card fields are read only for card payments and the VPA only for UPI. */
  lemma MethodSelectsChains(b: PaymentBody, lib: Library, bootYear: int, card: PaymentBody)
    requires Str(b.paymentMethod) != "card"
    requires card.orderId == b.orderId && card.paymentMethod == b.paymentMethod && card.vpa == b.vpa
    ensures PaymentErrors(card, lib, bootYear) == PaymentErrors(b, lib, bootYear)
  {
  }

  /** A card body with the fields missing gets an error from every check of
      the four card chains, each at its own path. */
  lemma MissingCardFieldsReported(orderId: string, lib: Library, bootYear: int)
    requires orderId != "" && !lib.isCreditCard("")
    ensures var b := PaymentBody(Some(orderId), Some("card"), None, None, None, None, None);
      PaymentErrors(b, lib, bootYear) == [
        FieldError("cardDetails.number", DEFAULT_MESSAGE),
        FieldError("cardDetails.number", "Valid card number is required for card payments"),
        FieldError("cardDetails.expiryMonth", DEFAULT_MESSAGE),
        FieldError("cardDetails.expiryMonth", "Valid expiry month required"),
        FieldError("cardDetails.expiryYear", DEFAULT_MESSAGE),
        FieldError("cardDetails.expiryYear", "Valid expiry year required"),
        FieldError("cardDetails.cvv", DEFAULT_MESSAGE),
        FieldError("cardDetails.cvv", DEFAULT_MESSAGE),
        FieldError("cardDetails.cvv", "Valid CVV required")]
  {
    var b := PaymentBody(Some(orderId), Some("card"), None, None, None, None, None);
    assert "card" in METHOD_NAMES;
    assert !IsNumericText("");
  }

  /** The month check accepts exactly the written numbers 1 to 12. */
  lemma ExpiryMonthRange(n: nat)
    ensures IsIntIn(NatToString(n), Some(1), Some(12)) <==> 1 <= n <= 12
  {
    var s := NatToString(n);
    NatToStringValue(n);
    assert s[0] != '-' && s[0] != '+';
  }

  /** The CVV checks ask for three or four characters that read as a number,
      so digits around a decimal point, signed or not, pass; a CVV of that
      form and length draws no CVV error. */
  lemma CvvAcceptsDecimalPoint(a: string, b: string, body: PaymentBody, lib: Library, bootYear: int)
    requires AllDigits(a) && AllDigits(b) && b != []
    ensures IsNumericText(a + "." + b) && IsNumericText("+" + a + "." + b) && IsNumericText("-" + a + "." + b)
    ensures body.cvv == Some(a + "." + b) && 2 <= |a| + |b| <= 3 ==>
      forall e | e in CardErrors(body, lib, bootYear) :: e.path != "cardDetails.cvv"
  {
    var u := a + "." + b;
    assert u[|a|] == '.' && u[..|a|] == a && u[|a| + 1..] == b;
    assert IsNumericText(u) by {
      if a != [] {
        assert u[0] == a[0];
      }
    }
    var plus, minus := "+" + a + "." + b, "-" + a + "." + b;
    assert plus == "+" + u && minus == "-" + u;
    assert plus[0] == '+' && plus[1..] == u;
    assert minus[0] == '-' && minus[1..] == u;
    if body.cvv == Some(u) && 2 <= |a| + |b| <= 3 {
      CvvChecksPass(body, lib, bootYear);
    }
  }

  /** A CVV of three or four characters that reads as a number draws no CVV error. */
  lemma CvvChecksPass(body: PaymentBody, lib: Library, bootYear: int)
    requires body.cvv.Some? && 3 <= |body.cvv.value| <= 4 && IsNumericText(body.cvv.value)
    ensures forall e | e in CardErrors(body, lib, bootYear) :: e.path != "cardDetails.cvv"
  {
    var number, month, year := Str(body.cardNumber), Str(body.expiryMonth), Str(body.expiryYear);
    var head :=
      Check(NotEmpty(number), "cardDetails.number", DEFAULT_MESSAGE)
      + Check(lib.isCreditCard(number), "cardDetails.number", "Valid card number is required for card payments")
      + Check(NotEmpty(month), "cardDetails.expiryMonth", DEFAULT_MESSAGE)
      + Check(IsIntIn(month, Some(1), Some(12)), "cardDetails.expiryMonth", "Valid expiry month required")
      + Check(NotEmpty(year), "cardDetails.expiryYear", DEFAULT_MESSAGE)
      + Check(IsIntIn(year, Some(bootYear), None), "cardDetails.expiryYear", "Valid expiry year required");
    assert CardErrors(body, lib, bootYear) == head;
  }

  /** The converse: text `isNumeric` accepts holds digits and points only,
      after an optional leading sign. */
  lemma NumericTextCharacters(s: string)
    requires IsNumericText(s)
    ensures forall i :: 0 <= i < |s| ==> IsDigit(s[i]) || s[i] == '.' || (i == 0 && (s[0] == '+' || s[0] == '-'))
  {
    if s != [] && (s[0] == '-' || s[0] == '+') {
      UnsignedNumericCharacters(s[1..]);
      forall i | 1 <= i < |s| ensures IsDigit(s[i]) || s[i] == '.' {
        assert s[i] == s[1..][i - 1];
      }
    } else {
      UnsignedNumericCharacters(s);
    }
  }

  lemma UnsignedNumericCharacters(u: string)
    requires || (u != [] && AllDigits(u))
             || (exists k :: 0 <= k < |u| - 1 && u[k] == '.' && AllDigits(u[..k]) && AllDigits(u[k + 1..]))
    ensures forall i :: 0 <= i < |u| ==> IsDigit(u[i]) || u[i] == '.'
  {
    if !(u != [] && AllDigits(u)) {
      var k :| 0 <= k < |u| - 1 && u[k] == '.' && AllDigits(u[..k]) && AllDigits(u[k + 1..]);
      forall i | 0 <= i < |u| ensures IsDigit(u[i]) || u[i] == '.' {
        if i < k {
          assert u[i] == u[..k][i];
        } else if i > k {
          assert u[i] == u[k + 1..][i - k - 1];
        }
      }
    }
  }

  /** Every character of `s` may stand on one side of a VPA's `@`. */
  predicate AllVpaChars(s: string) {
    forall j :: 0 <= j < |s| ==> IsVpaChar(s[j])
  }

  /** The VPA pattern: text with an `@` is a VPA exactly when the `@` has a
      non-empty run of word characters, dots and dashes on each side (so a
      second `@` on either side refuses it). */
  lemma VpaShape(l: string, d: string)
    ensures IsVpa(l + "@" + d) <==> l != [] && d != [] && AllVpaChars(l) && AllVpaChars(d)
  {
    var s := l + "@" + d;
    assert forall j :: 0 <= j < |l| ==> s[j] == l[j];
    assert forall j :: 0 <= j < |d| ==> s[|l| + 1 + j] == d[j];
    if l != [] && d != [] && AllVpaChars(l) && AllVpaChars(d) {
      assert s[|l|] == '@';
      forall j | 0 <= j < |s| && j != |l| ensures IsVpaChar(s[j]) {
        if j < |l| {
          assert s[j] == l[j];
        } else {
          assert s[j] == d[j - |l| - 1];
        }
      }
    }
    if IsVpa(s) {
      var i :| 0 < i < |s| - 1 && s[i] == '@' && (forall j :: 0 <= j < |s| && j != i ==> IsVpaChar(s[j]));
      assert !IsVpaChar(s[|l|]);
      assert i == |l|;
      assert AllVpaChars(l) by {
        forall j | 0 <= j < |l| ensures IsVpaChar(l[j]) {
          assert IsVpaChar(s[j]);
        }
      }
      assert AllVpaChars(d) by {
        forall j | 0 <= j < |d| ensures IsVpaChar(d[j]) {
          assert IsVpaChar(s[|l| + 1 + j]);
        }
      }
    }
  }

  // ---- Sign-up and log-in ----

  datatype SignupBody = SignupBody(name: Option<string>, email: Option<string>, password: Option<string>)

  /** `signupValidator`; `name` is trimmed before its checks. */
  function SignupErrors(b: SignupBody, lib: Library): (r: seq<FieldError>)
    ensures r == [] <==>
      && Trim(Str(b.name)) != "" && |Trim(Str(b.name))| <= 100
      && lib.isEmail(Str(b.email))
      && |Str(b.password)| >= 8 && HasMixedFirstLine(Str(b.password))
  {
    var name := Trim(Str(b.name));
    Check(NotEmpty(name), "name", "Name is required")
    + Check(|name| <= 100, "name", DEFAULT_MESSAGE)
    + Check(lib.isEmail(Str(b.email)), "email", "Valid email is required")
    + Check(|Str(b.password)| >= 8, "password", "Password must be at least 8 characters")
    + Check(HasMixedFirstLine(Str(b.password)), "password", "Password must contain uppercase, lowercase, and number")
  }

  /** The first line ends at the first line terminator. */
  lemma FirstLineEndsAt(s: string, k: nat)
    requires k < |s| && IsLineTerminator(s[k])
    requires forall i :: 0 <= i < k ==> !IsLineTerminator(s[i])
    ensures FirstLine(s) == s[..k]
  {
  }

  /** The password rule looks only at the first line: a password passes
      exactly when the text before its first line terminator has a
      lower-case letter, an upper-case letter and a digit, whatever follows. */
  lemma PasswordRuleReadsFirstLine(l: string, t: char, rest: string)
    requires forall i :: 0 <= i < |l| ==> !IsLineTerminator(l[i])
    requires IsLineTerminator(t)
    ensures HasMixedFirstLine(l + [t] + rest) <==>
      && (exists i :: 0 <= i < |l| && IsLower(l[i]))
      && (exists i :: 0 <= i < |l| && IsUpper(l[i]))
      && (exists i :: 0 <= i < |l| && IsDigit(l[i]))
  {
    var p := l + [t] + rest;
    assert p[|l|] == t;
    forall i | 0 <= i < |l| ensures !IsLineTerminator(p[i]) {
      assert p[i] == l[i];
    }
    FirstLineEndsAt(p, |l|);
    assert FirstLine(p) == l;
  }

  datatype LoginBody = LoginBody(email: Option<string>, password: Option<string>)

  /** `loginValidator` */
  function LoginErrors(b: LoginBody, lib: Library): (r: seq<FieldError>)
    ensures r == [] <==> lib.isEmail(Str(b.email)) && Str(b.password) != ""
  {
    Check(lib.isEmail(Str(b.email)), "email", "Valid email is required")
    + Check(NotEmpty(Str(b.password)), "password", "Password is required")
  }
}
