/** The order-keeping filter behind the three listings: `find(filter)` over
    a newest-first collection keeps the matching documents in that order. */
module Filtering {
  /** `r` keeps some of the elements of `s`, in the order they have there. */
  predicate IsSubsequence<T(==)>(r: seq<T>, s: seq<T>)
    decreases |s|
  {
    || r == []
    || (s != [] && ((r[0] == s[0] && IsSubsequence(r[1..], s[1..])) || IsSubsequence(r, s[1..])))
  }

  /** One step of an order-keeping filter: keeping or dropping the head of
      `s` in front of a filtered tail gives a subsequence of `s`, with the
      head counted once more when kept. */
  lemma FilterStep<T>(s: seq<T>, rest: seq<T>, keep: bool)
    requires s != [] && IsSubsequence(rest, s[1..])
    ensures IsSubsequence((if keep then [s[0]] else []) + rest, s)
    ensures multiset((if keep then [s[0]] else []) + rest)
         == (if keep then multiset{s[0]} else multiset{}) + multiset(rest)
    ensures multiset(s) == multiset{s[0]} + multiset(s[1..])
  {
    assert s == [s[0]] + s[1..];
    if keep {
      assert ([s[0]] + rest)[1..] == rest;
    } else {
      assert [] + rest == rest;
    }
  }
}
