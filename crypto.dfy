/** Card and signature helpers (backend/utils/crypto.js). SHA-256 and HMAC-SHA256
    are abstract deterministic functions passed in; `JSON.stringify` likewise. */
module Crypto {
  import opened Common
  import Ids

  const MASK_PREFIX: string := "**** **** **** "

  /** `maskCardNumber`: a fixed mask and the last (at most) four characters of the
      number with its white space removed. */
  function MaskCardNumber(cardNumber: string): (r: string)
    ensures var c := RemoveSpaces(cardNumber);
      && |r| == |MASK_PREFIX| + (if |c| < 4 then |c| else 4)
      && r[..|MASK_PREFIX|] == MASK_PREFIX
      && r[|MASK_PREFIX|..] == c[|c| - (|r| - |MASK_PREFIX|)..]
  {
    MASK_PREFIX + TakeLast(RemoveSpaces(cardNumber), 4)
  }

  datatype CardType = Visa | Mastercard | Amex | Discover | UnknownType

  function CardTypeName(t: CardType): string {
    match t
    case Visa => "visa"
    case Mastercard => "mastercard"
    case Amex => "amex"
    case Discover => "discover"
    case UnknownType => "unknown"
  }

  predicate StartsWith(s: string, prefix: string) {
    |prefix| <= |s| && s[..|prefix|] == prefix
  }

  /** `detectCardType`: the first matching prefix of the number without white space.
      The prefixes are disjoint, so each type is exactly its own prefix test. */
  function DetectCardType(cardNumber: string): (t: CardType)
    ensures var n := RemoveSpaces(cardNumber);
      && (t == Visa <==> StartsWith(n, "4"))
      && (t == Mastercard <==> StartsWith(n, "51") || StartsWith(n, "52") || StartsWith(n, "53") || StartsWith(n, "54") || StartsWith(n, "55"))
      && (t == Amex <==> StartsWith(n, "34") || StartsWith(n, "37"))
      && (t == Discover <==> StartsWith(n, "6"))
  {
    var n := RemoveSpaces(cardNumber);
    assert |n| >= 1 ==> n[..1] == [n[0]];
    assert |n| >= 2 ==> n[..2] == [n[0], n[1]];
    if |n| >= 1 && n[0] == '4' then Visa
    else if |n| >= 2 && n[0] == '5' && '1' <= n[1] <= '5' then Mastercard
    else if |n| >= 2 && n[0] == '3' && (n[1] == '4' || n[1] == '7') then Amex
    else if |n| >= 1 && n[0] == '6' then Discover
    else UnknownType
  }

  /** Removing white space twice is removing it once. */
  lemma RemoveSpacesIdempotent(s: string)
    ensures RemoveSpaces(RemoveSpaces(s)) == RemoveSpaces(s)
  {
    FilterKeepsAll(RemoveSpaces(s), NotSpace);
  }

  lemma SameCleanNumber(x: string, y: string)
    requires RemoveSpaces(x) == RemoveSpaces(y)
    ensures MaskCardNumber(x) == MaskCardNumber(y)
    ensures DetectCardType(x) == DetectCardType(y)
  {
  }

  lemma RemoveSpacesSkipsSpaces(a: string, ws: string, b: string)
    requires forall i :: 0 <= i < |ws| ==> IsSpace(ws[i])
    ensures RemoveSpaces(a + ws + b) == RemoveSpaces(a + b)
  {
    FilterAppend(a + ws, b, NotSpace);
    FilterAppend(a, ws, NotSpace);
    FilterAppend(a, b, NotSpace);
    FilterDropsAll(ws, NotSpace);
    assert Filter(a, NotSpace) + [] == Filter(a, NotSpace);
  }

  /** White space anywhere in a card number changes neither its mask nor its type. */
  lemma SpacesIgnored(a: string, ws: string, b: string)
    requires forall i :: 0 <= i < |ws| ==> IsSpace(ws[i])
    ensures MaskCardNumber(a + ws + b) == MaskCardNumber(a + b)
    ensures DetectCardType(a + ws + b) == DetectCardType(a + b)
  {
    RemoveSpacesSkipsSpaces(a, ws, b);
    SameCleanNumber(a + ws + b, a + b);
  }

  /** The helpers give the same answer for a number and for its space-free form. */
  lemma SpaceFreeFormAgrees(cardNumber: string)
    ensures MaskCardNumber(RemoveSpaces(cardNumber)) == MaskCardNumber(cardNumber)
    ensures DetectCardType(RemoveSpaces(cardNumber)) == DetectCardType(cardNumber)
  {
    RemoveSpacesIdempotent(cardNumber);
    SameCleanNumber(RemoveSpaces(cardNumber), cardNumber);
  }

  /** `hashCardNumber`: the hex SHA-256 digest of the number exactly as given. */
  function HashCardNumber(sha256: string -> string, cardNumber: string): string {
    sha256(cardNumber)
  }

  function HexValue(c: char): (v: nat)
    requires Ids.IsHexDigit(c)
    ensures v < 16
  {
    if IsDigit(c) then c as int - '0' as int
    else if 'a' <= c <= 'f' then c as int - 'a' as int + 10
    else c as int - 'A' as int + 10
  }

  /** `Buffer.from(s, 'hex')`: bytes from successive pairs of hex digits, stopping
      at the first pair that is not two hex digits (a lone last digit is dropped). */
  function HexBytes(s: string): (r: seq<nat>)
    ensures |r| <= |s| / 2
    ensures forall i :: 0 <= i < |r| ==> r[i] < 256
  {
    if |s| >= 2 && Ids.IsHexDigit(s[0]) && Ids.IsHexDigit(s[1]) then
      [16 * HexValue(s[0]) + HexValue(s[1])] + HexBytes(s[2..])
    else []
  }

  /** An even number of hex digits. */
  predicate IsEvenHex(s: string) {
    |s| % 2 == 0 && forall i :: 0 <= i < |s| ==> Ids.IsHexDigit(s[i])
  }

  /** `generateWebhookSignature`: HMAC-SHA256 under `secret` of the JSON text of the payload. */
  function GenerateWebhookSignature<P>(hmac: (string, string) -> string, stringify: P -> string, payload: P, secret: string): string {
    hmac(secret, stringify(payload))
  }

  const LENGTH_MISMATCH: string := "Input buffers must have the same byte length"

  /** `verifyWebhookSignature`: decode both signatures as hex and compare the bytes;
      `timingSafeEqual` throws when the byte lengths differ. */
  function VerifyWebhookSignature<P>(hmac: (string, string) -> string, stringify: P -> string, payload: P, signature: string, secret: string): (r: Result<bool, string>)
    ensures var expected := HexBytes(GenerateWebhookSignature(hmac, stringify, payload, secret));
      && (r.Err? <==> |HexBytes(signature)| != |expected|)
      && (r == Ok(true) <==> HexBytes(signature) == expected)
  {
    var a := HexBytes(signature);
    var b := HexBytes(GenerateWebhookSignature(hmac, stringify, payload, secret));
    if |a| != |b| then Err(LENGTH_MISMATCH) else Ok(a == b)
  }

  /** A signature made with the same payload and secret verifies. */
  lemma VerifyAcceptsGenerated<P>(hmac: (string, string) -> string, stringify: P -> string, payload: P, secret: string)
    ensures VerifyWebhookSignature(hmac, stringify, payload, GenerateWebhookSignature(hmac, stringify, payload, secret), secret) == Ok(true)
  {
  }

  lemma {:induction false} HexBytesIgnoresCase(s: string)
    ensures HexBytes(ToUpperCase(s)) == HexBytes(s)
    decreases |s|
  {
    var u := ToUpperCase(s);
    if |s| >= 2 {
      assert u[2..] == ToUpperCase(s[2..]);
      HexBytesIgnoresCase(s[2..]);
    }
  }

  /** The upper-case spelling of a valid signature verifies as well. */
  lemma VerifyIgnoresCase<P>(hmac: (string, string) -> string, stringify: P -> string, payload: P, secret: string)
    ensures VerifyWebhookSignature(hmac, stringify, payload, ToUpperCase(GenerateWebhookSignature(hmac, stringify, payload, secret)), secret) == Ok(true)
  {
    HexBytesIgnoresCase(GenerateWebhookSignature(hmac, stringify, payload, secret));
  }

  lemma {:induction false} HexBytesConcat(a: string, b: string)
    requires IsEvenHex(a)
    ensures HexBytes(a + b) == HexBytes(a) + HexBytes(b)
    decreases |a|
  {
    if a == [] {
      assert a + b == b;
    } else {
      assert (a + b)[2..] == a[2..] + b;
      HexBytesConcat(a[2..], b);
    }
  }

  /** Text after a valid signature that does not itself decode to a byte (a
      non-hex character, or a single trailing digit) is ignored: the signature
      still verifies. Other trailing text makes verification throw. */
  lemma VerifyWithTrailingText<P>(hmac: (string, string) -> string, stringify: P -> string, payload: P, secret: string, tail: string)
    requires IsEvenHex(GenerateWebhookSignature(hmac, stringify, payload, secret))
    ensures var sig := GenerateWebhookSignature(hmac, stringify, payload, secret);
      VerifyWebhookSignature(hmac, stringify, payload, sig + tail, secret)
        == if HexBytes(tail) == [] then Ok(true) else Err(LENGTH_MISMATCH)
  {
    HexBytesConcat(GenerateWebhookSignature(hmac, stringify, payload, secret), tail);
  }
}
