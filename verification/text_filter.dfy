/** The text filter without deduplication that tblive/content.js (lines 48-70)
    and inject.js (line 72) apply to a comment list: keep the elements whose
    text guard passes, in order; an element whose guard throws ends the scan. */
module TextFilter {

  import opened Json
  import opened Js
  import opened Seqs

  /** The elements kept so far, and whether an element threw. */
  datatype Filtered = Filtered(passed: seq<Json>, threw: bool)

  /** The scan over `items` under the text guard `gate`. */
  function FilterText(gate: Json -> Gate, items: seq<Json>): (r: Filtered)
    ensures forall c :: c in r.passed ==> gate(c) == Pass
    decreases |items|
  {
    if items == [] then Filtered([], false)
    else
      var acc := FilterText(gate, items[..|items| - 1]);
      var c := items[|items| - 1];
      if acc.threw then acc
      else
        match gate(c)
        case Throws => Filtered(acc.passed, true)
        case Fail => acc
        case Pass => Filtered(acc.passed + [c], false)
  }

  /** A scan that threw at position `i` stays as it was. */
  lemma {:induction false} FilterTextThrewStays(gate: Json -> Gate, items: seq<Json>, i: nat)
    requires i <= |items| && FilterText(gate, items[..i]).threw
    ensures FilterText(gate, items) == FilterText(gate, items[..i])
    decreases |items| - i
  {
    if i < |items| {
      assert items[..i + 1][..i] == items[..i];
      FilterTextThrewStays(gate, items, i + 1);
    } else {
      assert items[..i] == items;
    }
  }

  /** What the scan keeps is an order-preserving subsequence of the list. */
  lemma {:induction false} FilterTextSubsequence(gate: Json -> Gate, items: seq<Json>)
    ensures SubsequenceOf(FilterText(gate, items).passed, items)
    decreases |items|
  {
    if items == [] {
      SubsequenceOfEmpty(items);
    } else {
      var init := items[..|items| - 1];
      var c := items[|items| - 1];
      assert items == init + [c];
      FilterTextSubsequence(gate, init);
      SubsequenceExtend(FilterText(gate, init).passed, init, c);
    }
  }

  /** The scan throws exactly when some element's guard throws. */
  lemma {:induction false} FilterTextThrowsIff(gate: Json -> Gate, items: seq<Json>)
    ensures FilterText(gate, items).threw <==> exists c :: c in items && gate(c) == Throws
    decreases |items|
  {
    if items != [] {
      var init := items[..|items| - 1];
      assert items == init + [items[|items| - 1]];
      FilterTextThrowsIff(gate, init);
    }
  }

  /** When nothing throws, every element that passes is kept as often as it
      occurs, and nothing else is kept: repeated comments are all kept. */
  lemma {:induction false} FilterTextCounts(gate: Json -> Gate, items: seq<Json>)
    requires !FilterText(gate, items).threw
    ensures forall c :: multiset(FilterText(gate, items).passed)[c]
                        == (if gate(c) == Pass then multiset(items)[c] else 0)
    decreases |items|
  {
    if items != [] {
      var init := items[..|items| - 1];
      var x := items[|items| - 1];
      assert items == init + [x];
      FilterTextCounts(gate, init);
      assert multiset(items) == multiset(init) + multiset{x};
    }
  }

  /** A list whose elements all pass is kept whole. */
  lemma {:induction false} FilterTextAllPass(gate: Json -> Gate, items: seq<Json>)
    requires forall c :: c in items ==> gate(c) == Pass
    ensures FilterText(gate, items) == Filtered(items, false)
    decreases |items|
  {
    if items != [] {
      var init := items[..|items| - 1];
      assert forall c :: c in init ==> c in items;
      FilterTextAllPass(gate, init);
      assert init + [items[|items| - 1]] == items;
    }
  }

  /** A scan that threw kept exactly what the scan of the elements before the
      first throwing one keeps. */
  lemma {:induction false} FilterTextStopsAtThrow(gate: Json -> Gate, items: seq<Json>, k: nat)
    requires k < |items| && gate(items[k]) == Throws
    requires forall j :: 0 <= j < k ==> gate(items[j]) != Throws
    ensures FilterText(gate, items) == Filtered(FilterText(gate, items[..k]).passed, true)
    decreases |items|
  {
    var init := items[..|items| - 1];
    if k == |items| - 1 {
      assert init == items[..k];
      assert !FilterText(gate, init).threw by {
        FilterTextThrowsIff(gate, init);
      }
    } else {
      assert init[..k] == items[..k];
      FilterTextStopsAtThrow(gate, init, k);
    }
  }
}
