/** Public identifiers of orders (`ORD_…`) and payments (`PAY_…`): the schema
    default strips the dashes of a random version-4 uuid, upper-cases it and
    keeps its first 16 characters (backend/models/Order.js:9,
    backend/models/Payment.js:10). The uuid itself is an input here. */
module Ids {
  import opened Common

  predicate IsHexDigit(c: char) {
    IsDigit(c) || 'a' <= c <= 'f' || 'A' <= c <= 'F'
  }

  predicate IsUpperHexDigit(c: char) {
    IsDigit(c) || 'A' <= c <= 'F'
  }

  predicate NotDash(c: char) {
    c != '-'
  }

  predicate IsDashPosition(i: int) {
    i == 8 || i == 13 || i == 18 || i == 23
  }

  /** The textual form of a uuid: 36 characters, dashes at 8, 13, 18 and 23, hex digits elsewhere. */
  predicate IsUuidString(u: string) {
    && |u| == 36
    && (forall i :: 0 <= i < 36 && IsDashPosition(i) ==> u[i] == '-')
    && (forall i :: 0 <= i < 36 && !IsDashPosition(i) ==> IsHexDigit(u[i]))
  }

  /** `${prefix}${uuid.replace(/-/g, '').toUpperCase().slice(0, 16)}` */
  function IdFromUuid(prefix: string, uuid: string): string {
    prefix + Take(ToUpperCase(Filter(uuid, NotDash)), 16)
  }

  /** `prefix` followed by exactly 16 upper-case hex digits. */
  predicate IsPrefixedId(s: string, prefix: string) {
    && |s| == |prefix| + 16
    && s[..|prefix|] == prefix
    && forall i :: |prefix| <= i < |s| ==> IsUpperHexDigit(s[i])
  }

  /** The number of positions below `k` that hold a hex digit in a uuid. */
  function DigitPositionsBelow(k: nat): nat {
    k - (if k > 23 then 4 else if k > 18 then 3 else if k > 13 then 2 else if k > 8 then 1 else 0)
  }

  lemma {:induction false} UuidPrefixDigits(u: string, k: nat)
    requires IsUuidString(u) && k <= 36
    ensures |Filter(u[..k], NotDash)| == DigitPositionsBelow(k)
    ensures forall i :: 0 <= i < |Filter(u[..k], NotDash)| ==> IsHexDigit(Filter(u[..k], NotDash)[i])
  {
    if k > 0 {
      UuidPrefixDigits(u, k - 1);
      assert u[..k] == u[..k - 1] + [u[k - 1]];
      FilterAppend(u[..k - 1], [u[k - 1]], NotDash);
      assert [u[k - 1]][1..] == [];
    }
  }

  /** Removing the dashes of a uuid leaves its 32 hex digits. */
  lemma UuidDigits(u: string)
    requires IsUuidString(u)
    ensures |Filter(u, NotDash)| == 32
    ensures forall i :: 0 <= i < 32 ==> IsHexDigit(Filter(u, NotDash)[i])
  {
    UuidPrefixDigits(u, 36);
    assert u[..36] == u;
  }

  /** Every id made from a uuid has the documented shape: the prefix and 16 upper-case hex digits. */
  lemma IdFromUuidShape(prefix: string, uuid: string)
    requires IsUuidString(uuid)
    ensures IsPrefixedId(IdFromUuid(prefix, uuid), prefix)
  {
    UuidDigits(uuid);
    var up := ToUpperCase(Filter(uuid, NotDash));
    var id := IdFromUuid(prefix, uuid);
    assert id == prefix + up[..16];
    forall i | |prefix| <= i < |id| ensures IsUpperHexDigit(id[i]) {
      assert id[i] == up[i - |prefix|] == UpperChar(Filter(uuid, NotDash)[i - |prefix|]);
    }
  }
}
