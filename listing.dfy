/** The listing arithmetic the order, payment and transaction controllers share
    (the three controllers under backend/controllers): query strings read with JavaScript's
    `parseInt`, `parseInt(x) || default` for page and limit, a cap on the
    limit, `skip = (page - 1) * limit`, `pages = Math.ceil(total / limit)`, and
    filter objects that gain a field only when the query supplies it. */
module Listing {
  import opened Common
  import Ids
  import Crypto

  /** A digit in base 10 or 16. */
  predicate IsRadixDigit(c: char, hex: bool) {
    if hex then Ids.IsHexDigit(c) else IsDigit(c)
  }

  /** The longest prefix of `s` made of digits of the radix. */
  function LeadingDigits(s: string, hex: bool): (r: string)
    ensures r <= s
    ensures forall i :: 0 <= i < |r| ==> IsRadixDigit(r[i], hex)
    ensures |r| < |s| ==> !IsRadixDigit(s[|r|], hex)
  {
    if s != [] && IsRadixDigit(s[0], hex) then [s[0]] + LeadingDigits(s[1..], hex) else []
  }

  /** The value of a digit string in base 10 or 16, most significant digit first. */
  function RadixValue(s: string, hex: bool): nat
    requires forall i :: 0 <= i < |s| ==> IsRadixDigit(s[i], hex)
  {
    if s == [] then 0
    else
      assert IsRadixDigit(s[|s| - 1], hex);
      (if hex then 16 else 10) * RadixValue(s[..|s| - 1], hex) + Crypto.HexValue(s[|s| - 1])
  }

  /** The unsigned part of `parseInt`: a `0x` or `0X` prefix selects base 16,
      then the longest run of digits; no digits at all is `NaN` (here `None`). */
  function ParseUnsigned(u: string): Option<nat> {
    var hex := |u| >= 2 && u[0] == '0' && (u[1] == 'x' || u[1] == 'X');
    var digits := LeadingDigits(if hex then u[2..] else u, hex);
    if digits == [] then None else Some(RadixValue(digits, hex))
  }

  /** JavaScript's `parseInt(s)` without a radix: leading white space skipped,
      an optional sign, then the unsigned part. */
  function JsParseInt(s: string): Option<int> {
    var t := TrimStart(s);
    if t != [] && (t[0] == '-' || t[0] == '+') then
      match ParseUnsigned(t[1..])
      case None => None
      case Some(v) => Some(if t[0] == '-' then -(v as int) else v)
    else
      match ParseUnsigned(t)
      case None => None
      case Some(v) => Some(v)
  }

  lemma {:induction false} LeadingDigitsOfNumeral(d: string, rest: string)
    requires forall i :: 0 <= i < |d| ==> IsDigit(d[i])
    requires rest == [] || !IsDigit(rest[0])
    ensures LeadingDigits(d + rest, false) == d
  {
    if d != [] {
      assert (d + rest)[1..] == d[1..] + rest;
      LeadingDigitsOfNumeral(d[1..], rest);
    } else {
      assert d + rest == rest;
    }
  }

  lemma {:induction false} DecimalRadixValue(d: string)
    requires forall i :: 0 <= i < |d| ==> IsDigit(d[i])
    ensures RadixValue(d, false) == DecimalValue(d)
  {
    if d != [] {
      DecimalRadixValue(d[..|d| - 1]);
    }
  }

  /** A rendered number followed by text that does not continue it (and is not
      the `x` of a `0x` prefix) reads back as the number. */
  lemma ParseUnsignedNumeral(n: nat, rest: string)
    requires rest == [] || !IsDigit(rest[0])
    requires n == 0 ==> rest == [] || (rest[0] != 'x' && rest[0] != 'X')
    ensures ParseUnsigned(NatToString(n) + rest) == Some(n)
  {
    var d := NatToString(n);
    var u := d + rest;
    assert u[0] == d[0];
    if n >= 10 {
      assert u[1] == d[1];
    } else {
      assert d == [DigitChar(n)];
      if n != 0 {
        assert u[0] != '0';
      }
    }
    assert !(|u| >= 2 && u[0] == '0' && (u[1] == 'x' || u[1] == 'X'));
    LeadingDigitsOfNumeral(d, rest);
    DecimalRadixValue(d);
    NatToStringValue(n);
  }

  /** `parseInt` reads back the decimal rendering of a number, whatever
      non-digit text follows it (a `0x` after a lone zero aside, which selects
      base 16). */
  lemma ParseIntReadsNumeral(n: nat, rest: string)
    requires rest == [] || !IsDigit(rest[0])
    requires n == 0 ==> rest == [] || (rest[0] != 'x' && rest[0] != 'X')
    ensures JsParseInt(NatToString(n) + rest) == Some(n)
  {
    var d := NatToString(n);
    var s := d + rest;
    assert s[0] == d[0] && IsDigit(d[0]);
    assert !IsSpace(s[0]) && s[0] != '-' && s[0] != '+';
    assert TrimStart(s) == s;
    ParseUnsignedNumeral(n, rest);
  }

  /** `parseInt` also reads a minus sign. */
  lemma ParseIntReadsNegative(n: nat)
    ensures JsParseInt("-" + NatToString(n)) == Some(-(n as int))
  {
    var s := "-" + NatToString(n);
    assert s[1..] == NatToString(n) + [];
    assert TrimStart(s) == s;
    ParseUnsignedNumeral(n, []);
  }

  /** `parseInt(x) || fallback`: `NaN` and zero both give the fallback. */
  function OrDefault(v: Option<int>, fallback: int): (r: int)
    ensures v.Some? && v.value != 0 ==> r == v.value
    ensures v.None? || v.value == 0 ==> r == fallback
  {
    if v.Some? && v.value != 0 then v.value else fallback
  }

  /** A query parameter: absent (`undefined`, which `parseInt` reads as `NaN`) or its text. */
  function ParseQuery(q: Option<string>): Option<int> {
    if q.None? then None else JsParseInt(q.value)
  }

  /** `parseInt(req.query.page) || 1`: never zero; 1 when missing, non-numeric or zero. */
  function PageParam(q: Option<string>): (page: int)
    ensures page != 0
    ensures ParseQuery(q).None? || ParseQuery(q) == Some(0) ==> page == 1
    ensures ParseQuery(q).Some? && ParseQuery(q).value != 0 ==> page == ParseQuery(q).value
  {
    OrDefault(ParseQuery(q), 1)
  }

  /** `Math.min(parseInt(req.query.limit) || fallback, cap)`: never zero and never above the cap. */
  function LimitParam(q: Option<string>, fallback: int, cap: int): (limit: int)
    requires fallback != 0 && cap > 0
    ensures limit != 0 && limit <= cap
    ensures ParseQuery(q).None? || ParseQuery(q) == Some(0) ==> limit == if fallback < cap then fallback else cap
    ensures ParseQuery(q).Some? && 0 < ParseQuery(q).value ==> 1 <= limit
    ensures ParseQuery(q).Some? && ParseQuery(q).value != 0 && ParseQuery(q).value <= cap ==> limit == ParseQuery(q).value
  {
    var v := OrDefault(ParseQuery(q), fallback);
    if v < cap then v else cap
  }

  /** A page number written out in the query is the page listed. */
  lemma PageParamReadsNumber(n: nat)
    requires n >= 1
    ensures PageParam(Some(NatToString(n))) == n
  {
    ParseIntReadsNumeral(n, []);
    assert NatToString(n) + [] == NatToString(n);
  }

  /** A limit written out in the query is used up to the cap. */
  lemma LimitParamReadsNumber(n: nat, fallback: int, cap: int)
    requires n >= 1 && fallback != 0 && cap > 0
    ensures LimitParam(Some(NatToString(n)), fallback, cap) == if n < cap then n else cap
  {
    ParseIntReadsNumeral(n, []);
    assert NatToString(n) + [] == NatToString(n);
  }

  /** `Math.ceil(total / limit)` for a count and a non-zero limit, exactly. */
  function CeilDiv(total: nat, limit: int): (pages: int)
    requires limit != 0
    ensures limit > 0 ==> (pages - 1) * limit < total <= pages * limit
    ensures limit < 0 ==> pages * limit <= total < (pages - 1) * limit
    ensures limit < 0 ==> pages <= 0
  {
    if limit > 0 then
      var q := (total + limit - 1) / limit;
      QuotientBounds(total + limit - 1, limit);
      Distribute(q, limit);
      q
    else
      var q := total / (-limit);
      QuotientBounds(total, -limit);
      Distribute(q, -limit);
      -q
  }

  /** Euclidean division brackets its dividend. */
  lemma QuotientBounds(a: nat, b: int)
    requires b > 0
    ensures a / b >= 0
    ensures (a / b) * b <= a < (a / b) * b + b
  {
    assert a == (a / b) * b + a % b;
  }

  /** The products the bounds above compare. */
  lemma Distribute(q: int, b: int)
    ensures (q - 1) * b == q * b - b && (q + 1) * b == q * b + b
    ensures -q * -b == q * b && (-q - 1) * -b == q * b + b
  {
  }

  datatype Pagination = Pagination(page: int, limit: int, total: nat, pages: int)

  /** The `pagination` object of a listing reply and the `skip` handed to the query. */
  function Paginate(pageQuery: Option<string>, limitQuery: Option<string>, fallback: int, cap: int, total: nat)
    : (p: Pagination)
    requires fallback != 0 && cap > 0
    ensures p.page == PageParam(pageQuery) && p.limit == LimitParam(limitQuery, fallback, cap) && p.total == total
    ensures p.limit > 0 ==> (p.pages - 1) * p.limit < total <= p.pages * p.limit
    ensures p.pages == CeilDiv(total, p.limit)
  {
    var limit := LimitParam(limitQuery, fallback, cap);
    Pagination(PageParam(pageQuery), limit, total, CeilDiv(total, limit))
  }

  /** `(page - 1) * limit` */
  function Skip(p: Pagination): int {
    (p.page - 1) * p.limit
  }

  /** `.skip(skip).limit(limit)` over the sorted results, for a non-negative
      skip and a positive limit. */
  function Window<T>(items: seq<T>, skip: nat, limit: nat): (r: seq<T>)
    ensures |r| <= limit
    ensures skip >= |items| ==> r == []
    ensures skip < |items| ==> r == items[skip..if skip + limit <= |items| then skip + limit else |items|]
  {
    if skip >= |items| then [] else items[skip..if skip + limit <= |items| then skip + limit else |items|]
  }

  /** Every listed document is one of the matches. */
  lemma WindowOfMatches<T>(matching: seq<T>, skip: nat, limit: nat)
    ensures forall x :: x in Window(matching, skip, limit) ==> x in matching
  {
    forall x | x in Window(matching, skip, limit) ensures x in matching {
      var i :| 0 <= i < |Window(matching, skip, limit)| && Window(matching, skip, limit)[i] == x;
      assert x == matching[skip + i];
    }
  }

  /** Page `page` (counted from 1) of the matches at a positive limit. */
  function PageAt<T>(items: seq<T>, limit: nat, page: nat): seq<T>
    requires page >= 1
  {
    Window(items, (page - 1) * limit, limit)
  }

  /** Pages 1 to `k`, one after the other. */
  function PagesUpTo<T>(items: seq<T>, limit: nat, k: nat): seq<T>
    requires limit > 0
  {
    if k == 0 then [] else PagesUpTo(items, limit, k - 1) + PageAt(items, limit, k)
  }

  lemma {:induction false} PagesUpToPrefix<T>(items: seq<T>, limit: nat, k: nat)
    requires limit > 0
    ensures PagesUpTo(items, limit, k) == items[..if k * limit <= |items| then k * limit else |items|]
  {
    if k > 0 {
      PagesUpToPrefix(items, limit, k - 1);
      var a := (k - 1) * limit;
      Distribute(k, limit);
      if a >= |items| {
        assert k * limit >= |items|;
      } else {
        var b := if a + limit <= |items| then a + limit else |items|;
        assert items[..a] + items[a..b] == items[..b];
      }
    }
  }

  /** Walking the pages 1 to `pages` of a listing shows every match exactly
      once, in order, and a page past the last one is empty. */
  lemma PagesCoverResults<T>(items: seq<T>, limit: nat)
    requires limit > 0
    ensures CeilDiv(|items|, limit) >= 0
    ensures PagesUpTo(items, limit, CeilDiv(|items|, limit) as nat) == items
    ensures forall page: nat :: page > CeilDiv(|items|, limit) ==> PageAt(items, limit, page) == []
  {
    var pages := CeilDiv(|items|, limit);
    assert |items| <= pages * limit;
    assert pages >= 0;
    PagesUpToPrefix(items, limit, pages as nat);
    assert items[..|items|] == items;
    forall page: nat | page > pages ensures PageAt(items, limit, page) == [] {
      MonotoneProduct(pages, page - 1, limit);
    }
  }

  lemma MonotoneProduct(a: int, b: int, c: nat)
    requires a <= b
    ensures a * c <= b * c
  {
  }

  /** A query parameter is used when it is present and non-empty (JavaScript truthiness of a string). */
  predicate Supplied(q: Option<string>) {
    q.Some? && q.value != ""
  }

  /** `if (req.query.x) filter.x = req.query.x;`: the condition the filter gets on `x`. */
  function Only(q: Option<string>): (r: Option<string>)
    ensures r.Some? <==> Supplied(q)
    ensures r.Some? ==> r == q
  {
    if Supplied(q) then q else None
  }

  /** A condition on a text field; no condition matches every document. */
  predicate FieldMatches(cond: Option<string>, field: string) {
    cond.None? || cond.value == field
  }

  /** One page of a listing and its `pagination` object. */
  datatype Listed<T> = Listed(items: seq<T>, pagination: Pagination)

  /** The store refuses a negative `skip`; the error handler answers 500. */
  const NEGATIVE_SKIP: AppError := AppError("BadValue: skip value must be non-negative", UNHANDLED_STATUS)

  function Abs(x: int): nat {
    if x < 0 then -x else x
  }

  /** A listing reply over the matching documents, newest first: the window
      `.skip(skip).limit(limit)` (a negative limit asks for that many
      documents in one batch) and the count of all matches. */
  function ListPage<T>(matching: seq<T>, pageQuery: Option<string>, limitQuery: Option<string>, fallback: int, cap: int)
    : (r: Result<Listed<T>, AppError>)
    requires fallback > 0 && cap > 0
    ensures var p := Paginate(pageQuery, limitQuery, fallback, cap, |matching|);
      && (r.Err? <==> Skip(p) < 0)
      && (r.Err? ==> r.error == NEGATIVE_SKIP)
      && (r.Ok? ==> r.value.pagination == p)
      && (r.Ok? ==> r.value.items == Window(matching, Skip(p), Abs(p.limit)))
  {
    var p := Paginate(pageQuery, limitQuery, fallback, cap, |matching|);
    if Skip(p) < 0 then Err(NEGATIVE_SKIP)
    else Ok(Listed(Window(matching, Skip(p), Abs(p.limit)), p))
  }

  /** Without page and limit parameters a listing shows the newest `fallback`
      matches (or `cap`, if smaller), reports the count of all matches, and
      never fails. */
  lemma DefaultListing<T>(matching: seq<T>, fallback: int, cap: int)
    requires fallback > 0 && cap > 0
    ensures var r := ListPage(matching, None, None, fallback, cap); var l := if fallback < cap then fallback else cap;
      && r.Ok?
      && r.value.items == matching[..if l <= |matching| then l else |matching|]
      && r.value.pagination.total == |matching| && r.value.pagination.page == 1
  {
  }

  /** Page `n` written in the query, with the default limit, shows the `n`-th
      slice of the matches. */
  lemma NumberedPage<T>(matching: seq<T>, n: nat, fallback: int, cap: int)
    requires n >= 1 && 0 < fallback <= cap
    ensures var r := ListPage(matching, Some(NatToString(n)), None, fallback, cap);
      && r.Ok?
      && r.value.items == PageAt(matching, fallback as nat, n)
  {
    PageParamReadsNumber(n);
    var p := Paginate(Some(NatToString(n)), None, fallback, cap, |matching|);
    assert p.page == n && p.limit == fallback;
    MonotoneProduct(0, n - 1, fallback);
    assert Skip(p) == (n - 1) * fallback >= 0;
  }

  /** The cap on the page size holds only for positive limits: a negative
      `limit` query passes `Math.min` unchanged and the store returns that
      many documents, so `limit=-n` lists up to `n` matches whatever the cap. */
  lemma NegativeLimitPassesCap<T>(matching: seq<T>, n: nat, fallback: int, cap: int)
    requires n > 0 && fallback > 0 && cap > 0
    ensures var r := ListPage(matching, None, Some("-" + NatToString(n)), fallback, cap);
      && r.Ok?
      && r.value.pagination.limit == -(n as int)
      && |r.value.items| == (if n <= |matching| then n else |matching|)
      && r.value.pagination.pages <= 0
  {
    NegativeLimitParam(n, fallback, cap);
    var p := Paginate(None, Some("-" + NatToString(n)), fallback, cap, |matching|);
    assert p.page == 1 && p.limit == -(n as int);
    assert p.page - 1 == 0;
    assert Skip(p) == 0 && Abs(p.limit) == n;
    assert p.pages == CeilDiv(|matching|, p.limit) && p.pages <= 0;
    var r := ListPage(matching, None, Some("-" + NatToString(n)), fallback, cap);
    assert r.value.items == Window(matching, 0, n);
  }

  /** A `limit` query of `-n` is taken as it is. */
  lemma NegativeLimitParam(n: nat, fallback: int, cap: int)
    requires n > 0 && fallback > 0 && cap > 0
    ensures LimitParam(Some("-" + NatToString(n)), fallback, cap) == -(n as int)
  {
    ParseIntReadsNegative(n);
    assert ParseQuery(Some("-" + NatToString(n))) == Some(-(n as int));
  }
}
