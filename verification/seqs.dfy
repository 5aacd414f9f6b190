/** Facts about sequences used to state order preservation and set-like use. */
module Seqs {

  /** No element occurs twice: an insertion-ordered `Set` is such a sequence. */
  predicate Distinct<T(==)>(s: seq<T>)
  {
    forall i, j :: 0 <= i < j < |s| ==> s[i] != s[j]
  }

  /** Appending an element not yet present keeps a sequence free of repeats. */
  lemma DistinctSnoc<T>(s: seq<T>, x: T)
    requires Distinct(s) && x !in s
    ensures Distinct(s + [x])
  {
    var t := s + [x];
    forall i, j | 0 <= i < j < |t| ensures t[i] != t[j] {
      assert t[i] == s[i];
    }
  }

  /** `idx` picks, in increasing positions of `b`, the elements of `a`. */
  ghost predicate PicksAt<T>(a: seq<T>, b: seq<T>, idx: seq<int>)
  {
    && |idx| == |a|
    && (forall k :: 0 <= k < |idx| ==> 0 <= idx[k] < |b| && a[k] == b[idx[k]])
    && (forall k, l :: 0 <= k < l < |idx| ==> idx[k] < idx[l])
  }

  /** `a` is an order-preserving subsequence of `b`. */
  ghost predicate SubsequenceOf<T>(a: seq<T>, b: seq<T>)
  {
    exists idx :: PicksAt(a, b, idx)
  }

  lemma SubsequenceOfEmpty<T>(b: seq<T>)
    ensures SubsequenceOf([], b)
  {
    assert PicksAt([], b, []);
  }

  /** Extending the larger sequence keeps a subsequence, whether or not the new
      element is also picked. */
  lemma SubsequenceExtend<T>(a: seq<T>, b: seq<T>, x: T)
    requires SubsequenceOf(a, b)
    ensures SubsequenceOf(a, b + [x])
    ensures SubsequenceOf(a + [x], b + [x])
  {
    var idx: seq<int> :| PicksAt(a, b, idx);
    assert PicksAt(a, b + [x], idx);
    assert PicksAt(a + [x], b + [x], idx + [|b|]);
  }

  /** A subsequence is never longer. */
  lemma SubsequenceLength<T>(a: seq<T>, b: seq<T>)
    requires SubsequenceOf(a, b)
    ensures |a| <= |b|
  {
    var idx: seq<int> :| PicksAt(a, b, idx);
    var k := 0;
    while k < |idx|
      invariant 0 <= k <= |idx|
      invariant k > 0 ==> k - 1 <= idx[k - 1]
    {
      k := k + 1;
    }
    assert |idx| > 0 ==> |idx| - 1 <= idx[|idx| - 1] < |b|;
  }

  /** Every element of a subsequence comes from the larger sequence. */
  lemma SubsequenceElements<T>(a: seq<T>, b: seq<T>)
    requires SubsequenceOf(a, b)
    ensures forall x :: x in a ==> x in b
  {
    var idx: seq<int> :| PicksAt(a, b, idx);
    forall x | x in a ensures x in b {
      var k :| 0 <= k < |a| && a[k] == x;
      assert b[idx[k]] == x;
    }
  }
}
