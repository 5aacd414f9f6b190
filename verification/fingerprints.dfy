/** Bounded fingerprint sets. Every execution context remembers the keys it has
    already relayed in an insertion-ordered JavaScript `Set`; here such a set is a
    sequence without repeats, oldest key first. Two eviction rules occur in the
    scripts: dropping the 500 oldest keys once the size passes 1000, and keeping
    only the newer half once the size passes 1000. */
module Fingerprints {

  import opened Seqs

  /** The size a set may reach before it is cut down. */
  const CAPACITY: nat := 1000

  /** How many keys the drop-oldest rule deletes at once. */
  const EVICT_COUNT: nat := 500

  /** `set.add(k)`: a new key goes to the end; a present key keeps its place. */
  function Insert(s: seq<string>, k: string): (r: seq<string>)
    ensures Distinct(s) ==> Distinct(r)
    ensures k in r && forall x :: x in r <==> x in s || x == k
    ensures k in s ==> r == s
    ensures k !in s ==> |r| == |s| + 1 && r[..|s|] == s && r[|s|] == k
  {
    if k in s then s else s + [k]
  }

  /** The drop-oldest rule: once the size passes CAPACITY, the EVICT_COUNT
      oldest keys go. */
  function EvictOldest(s: seq<string>): seq<string>
  {
    if |s| > CAPACITY then s[EVICT_COUNT..] else s
  }

  /** The keep-newer-half rule: once the size `n` passes CAPACITY, the set is
      rebuilt from `Array.from(set).slice(Math.floor(n / 2))`. */
  function KeepNewerHalf(s: seq<string>): seq<string>
  {
    if |s| > CAPACITY then s[|s| / 2..] else s
  }

  /** Dropping the oldest keeps the newest ones in order, never adds a key, and
      brings a set that grew by one past the bound back to 501 keys. */
  lemma EvictOldestFacts(s: seq<string>)
    ensures var r := EvictOldest(s);
      && (|s| <= CAPACITY ==> r == s)
      && (|s| > CAPACITY ==> |r| == |s| - EVICT_COUNT && r == s[|s| - |r|..])
      && (|s| <= CAPACITY + 1 ==> |r| <= CAPACITY)
      && (|s| == CAPACITY + 1 ==> |r| == CAPACITY + 1 - EVICT_COUNT)
      && (Distinct(s) ==> Distinct(r))
      && (s != [] ==> s[|s| - 1] in r)
  {
  }

  /** The newer half holds exactly the newest `n - floor(n/2)` keys, in order;
      it is within the bound exactly when `n <= 2 * CAPACITY`; and the newest key
      always survives. */
  lemma KeepNewerHalfFacts(s: seq<string>)
    ensures var r := KeepNewerHalf(s);
      && (|s| <= CAPACITY ==> r == s)
      && (|s| > CAPACITY ==> |r| == |s| - |s| / 2 && r == s[|s| - |r|..])
      && (|r| <= CAPACITY <==> |s| <= 2 * CAPACITY)
      && (Distinct(s) ==> Distinct(r))
      && (s != [] ==> s[|s| - 1] in r)
  {
  }

  /** Insertions one at a time, each followed by the drop-oldest rule, as
      background.js does for every comment it sees. */
  function InsertAllEvicting(s: seq<string>, keys: seq<string>): seq<string>
    decreases |keys|
  {
    if keys == [] then s else InsertAllEvicting(EvictOldest(Insert(s, keys[0])), keys[1..])
  }

  /** Insertions one at a time, each followed by the keep-newer-half rule, as
      the newComment handler of tblive/background.js does. */
  function InsertAllHalving(s: seq<string>, keys: seq<string>): seq<string>
    decreases |keys|
  {
    if keys == [] then s else InsertAllHalving(KeepNewerHalf(Insert(s, keys[0])), keys[1..])
  }

  /** However long the stream of keys, a set that starts within the bound stays
      within it and keeps no key twice. */
  lemma {:induction false} InsertAllEvictingBounded(s: seq<string>, keys: seq<string>)
    requires |s| <= CAPACITY && Distinct(s)
    ensures |InsertAllEvicting(s, keys)| <= CAPACITY
    ensures Distinct(InsertAllEvicting(s, keys))
    decreases |keys|
  {
    if keys != [] {
      var t := Insert(s, keys[0]);
      EvictOldestFacts(t);
      InsertAllEvictingBounded(EvictOldest(t), keys[1..]);
    }
  }

  /** The same bound for insertions followed by the keep-newer-half rule. */
  lemma {:induction false} InsertAllHalvingBounded(s: seq<string>, keys: seq<string>)
    requires |s| <= CAPACITY && Distinct(s)
    ensures |InsertAllHalving(s, keys)| <= CAPACITY
    ensures Distinct(InsertAllHalving(s, keys))
    decreases |keys|
  {
    if keys != [] {
      var t := Insert(s, keys[0]);
      KeepNewerHalfFacts(t);
      InsertAllHalvingBounded(KeepNewerHalf(t), keys[1..]);
    }
  }
}
