/** The comment lists the two popups display, as sequences with the newest
    entry first: a bounded prepend and the reversal used when a saved list is
    restored. */
module Feed {

  /** The first `cap` entries of a list: what the `while` loops removing the
      last child leave. */
  function Truncate<T>(s: seq<T>, cap: nat): (r: seq<T>)
    ensures |r| <= cap && |r| <= |s|
    ensures r == s[..|r|]
    ensures |s| <= cap ==> r == s
    ensures |s| > cap ==> |r| == cap
  {
    if |s| > cap then s[..cap] else s
  }

  /** Prepending and truncating puts the new entry first and keeps the older
      entries in their order, dropping only from the end. */
  lemma PrependTruncate<T>(x: T, s: seq<T>, cap: nat)
    requires cap >= 1
    ensures var r := Truncate([x] + s, cap);
      && r != [] && r[0] == x
      && r[1..] == s[..|r| - 1]
      && |r| == if |s| + 1 <= cap then |s| + 1 else cap
  {
    var r := Truncate([x] + s, cap);
    assert r[1..] == ([x] + s)[1..|r|];
  }

  /** Nothing is deduplicated: adding the same entry twice shows it twice. */
  lemma PrependTwiceShowsTwice<T>(x: T, s: seq<T>, cap: nat)
    requires cap >= 2
    ensures Truncate([x] + Truncate([x] + s, cap), cap)[..2] == [x, x]
  {
    PrependTruncate(x, s, cap);
    PrependTruncate(x, Truncate([x] + s, cap), cap);
  }

  /** `Array.prototype.reverse`. */
  function Reverse<T>(s: seq<T>): (r: seq<T>)
    ensures |r| == |s|
    ensures forall i :: 0 <= i < |s| ==> r[i] == s[|s| - 1 - i]
    decreases |s|
  {
    if s == [] then [] else [s[|s| - 1]] + Reverse(s[..|s| - 1])
  }

  /** Reversing twice gives the list back. */
  lemma ReverseReverse<T>(s: seq<T>)
    ensures Reverse(Reverse(s)) == s
  {
    assert forall i :: 0 <= i < |s| ==> Reverse(Reverse(s))[i] == s[i];
  }
}
