/** The per-comment screening that content.js (lines 98-123) and tblive/inject.js
    (lines 77-92) run over one batch: drop comments without text, drop comments
    whose id was seen in this batch or earlier, record the id of every comment let
    through. Both files use the same id formula and the same loop. */
module CommentScreen {

  import opened Wrappers
  import opened Json
  import opened Js
  import opened Seqs

  /** `comment.content && comment.content.trim()` on one element of a comment
      list; reading a member of a `null` element throws. */
  function ContentGate(comment: Json): (g: Gate)
    ensures g == Pass <==> comment.JObj? && TrimGate(Field(comment, "content")) == Pass
    ensures g == Throws <==> comment.JNull? || TrimGate(Field(comment, "content")) == Throws
  {
    if comment.JNull? then Throws else TrimGate(Field(comment, "content"))
  }

  /** The trimmed text of a comment that passed ContentGate. */
  function TrimmedContent(comment: Json): (r: string)
    requires ContentGate(comment) == Pass
    ensures r != [] && !IsSpace(r[0]) && !IsSpace(r[|r| - 1])
  {
    var v := Field(comment, "content");
    assert v.Some? && v.value.JStr? && Trim(v.value.s) != "";
    Trim(v.value.s)
  }

  /** What `data?.data?.comments?.length > 0` finds in a fetched packet. */
  datatype CommentList =
    | NoComments          // the test is false
    | Comments(items: seq<Json>)  // a non-empty array
    | NotAList            // the test is true, but the value has no array methods, so iterating it throws

  /** `data?.data?.comments?.length > 0` and the value it looks at. A string's
      `length` counts its characters; an object's is its `length` member,
      compared with 0 after conversion to a number. */
  function CommentsOf(data: Option<Json>): (r: CommentList)
    ensures r.Comments? <==> exists items :: Member(Member(data, "data"), "comments") == Some(JArr(items)) && items != []
    ensures r.Comments? ==> Member(Member(data, "data"), "comments") == Some(JArr(r.items))
  {
    match Member(Member(data, "data"), "comments")
    case Some(JArr(items)) => if items != [] then Comments(items) else NoComments
    case Some(JStr(s)) => if s != [] then NotAList else NoComments
    case Some(JObj(fields)) => if GreaterThanZero(Lookup(fields, "length")) then NotAList else NoComments
    case _ => NoComments
  }

  /** An object `comments` passes the test when its `length` member converts
      to a positive number: `true`, or the decimal form of a positive
      integer, in which case iterating it throws. */
  lemma CoercedLength(data: Option<Json>, n: int)
    ensures Member(Member(data, "data"), "comments") == Some(JObj([("length", JBool(true))])) ==>
      CommentsOf(data) == NotAList
    ensures Member(Member(data, "data"), "comments") == Some(JObj([("length", JStr(Decimal(n)))])) ==>
      (CommentsOf(data) == NotAList <==> n > 0) && (CommentsOf(data) == NoComments <==> n <= 0)
  {
    var c := Member(Member(data, "data"), "comments");
    if c == Some(JObj([("length", JBool(true))])) {
      ObjectComments(data, c.value.fields);
      assert Lookup(c.value.fields, "length") == Some(JBool(true));
    }
    if c == Some(JObj([("length", JStr(Decimal(n)))])) {
      ObjectComments(data, c.value.fields);
      assert Lookup(c.value.fields, "length") == Str(Decimal(n));
      DecimalGreaterThanZero(n);
    }
  }

  /** For an object `comments`, the test is the conversion of its `length`. */
  lemma ObjectComments(data: Option<Json>, fields: seq<(string, Json)>)
    requires Member(Member(data, "data"), "comments") == Some(JObj(fields))
    ensures CommentsOf(data) == if GreaterThanZero(Lookup(fields, "length")) then NotAList else NoComments
  {
  }

  /** `${content}_${timestamp}_${tbNick || publisherNick}_${userId || ''}`. */
  function MessageId(comment: Json): string
  {
    ToJsString(Field(comment, "content")) + "_" + ToJsString(Field(comment, "timestamp")) + "_"
    + ToJsString(Or(Field(comment, "tbNick"), Field(comment, "publisherNick"))) + "_"
    + ToJsString(Or(Field(comment, "userId"), Str("")))
  }

  /** Equal id fields give equal ids, whatever else the comments hold. */
  lemma MessageIdDeterminedByFields(a: Json, b: Json)
    requires forall f :: f in ["content", "timestamp", "tbNick", "publisherNick", "userId"] ==> Field(a, f) == Field(b, f)
    ensures MessageId(a) == MessageId(b)
  {
    assert Field(a, "content") == Field(b, "content");
    assert Field(a, "timestamp") == Field(b, "timestamp");
    assert Field(a, "tbNick") == Field(b, "tbNick");
    assert Field(a, "publisherNick") == Field(b, "publisherNick");
    assert Field(a, "userId") == Field(b, "userId");
  }

  /** The ids of a list of comments, under an id formula `id`. */
  function Ids(id: Json -> string, comments: seq<Json>): (r: seq<string>)
    ensures |r| == |comments| && forall i :: 0 <= i < |comments| ==> r[i] == id(comments[i])
  {
    seq(|comments|, i requires 0 <= i < |comments| => id(comments[i]))
  }

  /** The state of a screening after some prefix of the batch: the comments let
      through, the history with their ids appended, and whether a comment threw. */
  datatype Screened = Screened(kept: seq<Json>, history: seq<string>, threw: bool)

  /** One comment of the loop, for a text guard `gate`, an id formula `id` and
      an eviction rule `evict` applied after each insertion. In content.js and
      tblive/inject.js the source also checks a per-batch set; every id in that
      set is already in the history, so that check is left to the loop in
      ScreenBatch. */
  function Step(gate: Json -> Gate, id: Json -> string, evict: seq<string> -> seq<string>,
                acc: Screened, c: Json): Screened
  {
    match gate(c)
    case Throws => acc.(threw := true)
    case Fail => acc
    case Pass =>
      if id(c) in acc.history then acc else Screened(acc.kept + [c], evict(acc.history + [id(c)]), false)
  }

  /** The whole loop over `comments`, starting from `history`; a throw ends it. */
  function Screen(gate: Json -> Gate, id: Json -> string, evict: seq<string> -> seq<string>,
                  history: seq<string>, comments: seq<Json>): Screened
    decreases |comments|
  {
    if comments == [] then Screened([], history, false)
    else
      var acc := Screen(gate, id, evict, history, comments[..|comments| - 1]);
      if acc.threw then acc else Step(gate, id, evict, acc, comments[|comments| - 1])
  }

  /** No eviction inside the loop. */
  function Keep(s: seq<string>): seq<string>
  {
    s
  }

  /** The screening content.js and tblive/inject.js perform: no eviction inside
      the loop. */
  function ScreenComments(history: seq<string>, comments: seq<Json>): Screened
  {
    Screen(ContentGate, MessageId, Keep, history, comments)
  }

  /** The loop as the source runs it, with its per-batch set `currentBatch`. */
  method ScreenBatch(history: seq<string>, comments: seq<Json>)
    returns (kept: seq<Json>, newHistory: seq<string>, threw: bool)
    ensures Screened(kept, newHistory, threw) == ScreenComments(history, comments)
  {
    kept, newHistory, threw := [], history, false;
    var currentBatch: set<string> := {};
    var i := 0;
    while i < |comments| && !threw
      invariant 0 <= i <= |comments|
      invariant Screened(kept, newHistory, threw) == Screen(ContentGate, MessageId, Keep, history, comments[..i])
      invariant forall id :: id in currentBatch ==> id in newHistory
    {
      assert comments[..i + 1][..i] == comments[..i];
      var c := comments[i];
      var gate := ContentGate(c);
      if gate == Throws {
        threw := true;
      } else if gate == Pass {
        var id := MessageId(c);
        if id !in currentBatch && id !in newHistory {
          currentBatch := currentBatch + {id};
          newHistory := newHistory + [id];
          kept := kept + [c];
        }
      }
      i := i + 1;
    }
    if threw {
      ScreenThrewStays(ContentGate, MessageId, Keep, history, comments, i);
    } else {
      assert comments[..i] == comments;
    }
  }

  /** Once a comment has thrown, the rest of the batch changes nothing. */
  lemma {:induction false} ScreenThrewStays(gate: Json -> Gate, id: Json -> string, evict: seq<string> -> seq<string>, history: seq<string>, comments: seq<Json>, i: nat)
    requires i <= |comments| && Screen(gate, id, evict, history, comments[..i]).threw
    ensures Screen(gate, id, evict, history, comments) == Screen(gate, id, evict, history, comments[..i])
    decreases |comments| - i
  {
    if i < |comments| {
      assert comments[..i + 1][..i] == comments[..i];
      ScreenThrewStays(gate, id, evict, history, comments, i + 1);
    } else {
      assert comments[..i] == comments;
    }
  }

  /** What one comment does to a screening that has not thrown. */
  lemma StepFacts(gate: Json -> Gate, id: Json -> string, evict: seq<string> -> seq<string>, acc: Screened, c: Json)
    requires !acc.threw
    ensures var r := Step(gate, id, evict, acc, c);
      && (r.kept == acc.kept + [c] || r.kept == acc.kept)
      && (r.kept == acc.kept + [c] ==> gate(c) == Pass && id(c) !in acc.history
                                       && r.history == evict(acc.history + [id(c)]))
      && (r.kept == acc.kept ==> r.history == acc.history)
      && (r.threw <==> gate(c) == Throws)
      && (gate(c) == Pass ==> id(c) in acc.history || r.kept == acc.kept + [c])
  {
  }

  /** What a screening lets through is an order-preserving subsequence of the
      batch. */
  lemma {:induction false} ScreenSubsequence(gate: Json -> Gate, id: Json -> string, evict: seq<string> -> seq<string>, history: seq<string>, comments: seq<Json>)
    ensures SubsequenceOf(Screen(gate, id, evict, history, comments).kept, comments)
    decreases |comments|
  {
    if comments == [] {
      SubsequenceOfEmpty(comments);
    } else {
      var init := comments[..|comments| - 1];
      var c := comments[|comments| - 1];
      assert comments == init + [c];
      ScreenSubsequence(gate, id, evict, history, init);
      var acc := Screen(gate, id, evict, history, init);
      SubsequenceExtend(acc.kept, init, c);
      if !acc.threw {
        StepFacts(gate, id, evict, acc, c);
      }
    }
  }

  /** Every comment let through passed the text guard. */
  lemma {:induction false} ScreenKeptPass(gate: Json -> Gate, id: Json -> string, evict: seq<string> -> seq<string>, history: seq<string>, comments: seq<Json>)
    ensures forall c :: c in Screen(gate, id, evict, history, comments).kept ==> gate(c) == Pass
    decreases |comments|
  {
    if comments != [] {
      var init := comments[..|comments| - 1];
      ScreenKeptPass(gate, id, evict, history, init);
      var acc := Screen(gate, id, evict, history, init);
      if !acc.threw {
        StepFacts(gate, id, evict, acc, comments[|comments| - 1]);
      }
    }
  }

  /** Without eviction, the history grows by exactly the ids of the comments
      let through, in order. */
  lemma {:induction false} ScreenHistory(gate: Json -> Gate, id: Json -> string, history: seq<string>, comments: seq<Json>)
    ensures var r := Screen(gate, id, Keep, history, comments);
      r.history == history + Ids(id, r.kept)
    decreases |comments|
  {
    if comments == [] {
      assert Ids(id, []) == [];
    } else {
      var init := comments[..|comments| - 1];
      var c := comments[|comments| - 1];
      ScreenHistory(gate, id, history, init);
      var acc := Screen(gate, id, Keep, history, init);
      if !acc.threw {
        StepFacts(gate, id, Keep, acc, c);
        if Step(gate, id, Keep, acc, c).kept == acc.kept + [c] {
          assert Ids(id, acc.kept + [c]) == Ids(id, acc.kept) + [id(c)];
        }
      }
    }
  }

  /** Without eviction, the screened history has no repeats when the starting
      one has none; so the ids let through are pairwise distinct and none was
      in the history. */
  lemma {:induction false} ScreenFresh(gate: Json -> Gate, id: Json -> string, history: seq<string>, comments: seq<Json>)
    requires Distinct(history)
    ensures var r := Screen(gate, id, Keep, history, comments);
      && Distinct(r.history)
      && (forall c :: c in r.kept ==> id(c) !in history)
      && Distinct(Ids(id, r.kept))
    decreases |comments|
  {
    var r := Screen(gate, id, Keep, history, comments);
    if comments != [] {
      var init := comments[..|comments| - 1];
      ScreenFresh(gate, id, history, init);
      var acc := Screen(gate, id, Keep, history, init);
      if !acc.threw {
        StepFacts(gate, id, Keep, acc, comments[|comments| - 1]);
      }
    }
    ScreenHistory(gate, id, history, comments);
    assert r.history == history + Ids(id, r.kept);
    assert forall j :: 0 <= j < |history| ==> r.history[j] == history[j];
    forall c | c in r.kept ensures id(c) !in history {
      var k :| 0 <= k < |r.kept| && r.kept[k] == c;
      assert r.history[|history| + k] == id(c);
      assert forall j :: 0 <= j < |history| ==> r.history[j] != r.history[|history| + k];
    }
    forall i, j | 0 <= i < j < |Ids(id, r.kept)| ensures Ids(id, r.kept)[i] != Ids(id, r.kept)[j] {
      assert r.history[|history| + i] == Ids(id, r.kept)[i];
      assert r.history[|history| + j] == Ids(id, r.kept)[j];
    }
  }

  /** A screening throws exactly when some comment of the batch throws. */
  lemma {:induction false} ScreenThrowsIff(gate: Json -> Gate, id: Json -> string, evict: seq<string> -> seq<string>, history: seq<string>, comments: seq<Json>)
    ensures Screen(gate, id, evict, history, comments).threw <==> exists c :: c in comments && gate(c) == Throws
    decreases |comments|
  {
    if comments != [] {
      var init := comments[..|comments| - 1];
      assert comments == init + [comments[|comments| - 1]];
      ScreenThrowsIff(gate, id, evict, history, init);
    }
  }

  /** Without eviction, after a batch that did not throw, the id of every
      comment with text is in the history, whether it was let through now or
      seen before. */
  lemma {:induction false} ScreenRecordsAll(gate: Json -> Gate, id: Json -> string, history: seq<string>, comments: seq<Json>)
    requires !Screen(gate, id, Keep, history, comments).threw
    ensures forall c :: c in comments && gate(c) == Pass ==> id(c) in Screen(gate, id, Keep, history, comments).history
    ensures forall k :: k in history ==> k in Screen(gate, id, Keep, history, comments).history
    decreases |comments|
  {
    if comments != [] {
      var init := comments[..|comments| - 1];
      var c := comments[|comments| - 1];
      assert comments == init + [c];
      ScreenRecordsAll(gate, id, history, init);
      StepFacts(gate, id, Keep, Screen(gate, id, Keep, history, init), c);
    }
  }

  /** Without eviction, screening a batch again with the history the first
      pass left lets nothing through and changes nothing. */
  lemma ScreenAgainKeepsNothing(gate: Json -> Gate, id: Json -> string, history: seq<string>, comments: seq<Json>)
    requires !Screen(gate, id, Keep, history, comments).threw
    ensures var h := Screen(gate, id, Keep, history, comments).history;
      Screen(gate, id, Keep, h, comments) == Screened([], h, false)
  {
    ScreenRecordsAll(gate, id, history, comments);
    var h := Screen(gate, id, Keep, history, comments).history;
    ScreenThrowsIff(gate, id, Keep, history, comments);
    ScreenAllSeen(gate, id, Keep, h, comments);
  }

  /** A batch all of whose text-bearing ids are already known, and in which
      nothing throws, lets nothing through. */
  lemma {:induction false} ScreenAllSeen(gate: Json -> Gate, id: Json -> string, evict: seq<string> -> seq<string>, h: seq<string>, comments: seq<Json>)
    requires forall c :: c in comments ==> gate(c) != Throws
    requires forall c :: c in comments && gate(c) == Pass ==> id(c) in h
    ensures Screen(gate, id, evict, h, comments) == Screened([], h, false)
    decreases |comments|
  {
    if comments != [] {
      var init := comments[..|comments| - 1];
      assert forall c :: c in init ==> c in comments;
      ScreenAllSeen(gate, id, evict, h, init);
    }
  }

  /** With an eviction rule that only drops entries, every id in the screened
      history was in the starting history or belongs to a comment of the batch
      with text: a comment without text never reaches the history. */
  lemma {:induction false} ScreenRecordsOnlyPassing(gate: Json -> Gate, id: Json -> string, evict: seq<string> -> seq<string>, history: seq<string>, comments: seq<Json>)
    requires forall s: seq<string>, k :: k in evict(s) ==> k in s
    ensures forall k :: k in Screen(gate, id, evict, history, comments).history ==>
      k in history || exists c :: c in comments && gate(c) == Pass && id(c) == k
    decreases |comments|
  {
    if comments != [] {
      var init := comments[..|comments| - 1];
      var c := comments[|comments| - 1];
      assert comments == init + [c];
      ScreenRecordsOnlyPassing(gate, id, evict, history, init);
      var acc := Screen(gate, id, evict, history, init);
      if !acc.threw {
        StepFacts(gate, id, evict, acc, c);
      }
    }
  }

  /** The eviction rule's guarantee, applied to one set. */
  lemma EvictWithinBound(evict: seq<string> -> seq<string>, cap: nat, s: seq<string>)
    requires forall s: seq<string> :: |s| <= cap + 1 && Distinct(s) ==> |evict(s)| <= cap && Distinct(evict(s))
    requires |s| <= cap + 1 && Distinct(s)
    ensures |evict(s)| <= cap && Distinct(evict(s))
  {
  }

  /** With an eviction rule that brings one-over-capacity sets back under
      `cap` and keeps them free of repeats, the screened history stays within
      `cap` and free of repeats. */
  lemma {:induction false} ScreenBounded(gate: Json -> Gate, id: Json -> string, evict: seq<string> -> seq<string>, cap: nat, history: seq<string>, comments: seq<Json>)
    requires forall s: seq<string> :: |s| <= cap + 1 && Distinct(s) ==> |evict(s)| <= cap && Distinct(evict(s))
    requires |history| <= cap && Distinct(history)
    ensures var r := Screen(gate, id, evict, history, comments);
      |r.history| <= cap && Distinct(r.history)
    decreases |comments|
  {
    if comments != [] {
      var init := comments[..|comments| - 1];
      var c := comments[|comments| - 1];
      ScreenBounded(gate, id, evict, cap, history, init);
      var acc := Screen(gate, id, evict, history, init);
      if !acc.threw && gate(c) == Pass && id(c) !in acc.history {
        var s := acc.history + [id(c)];
        DistinctSnoc(acc.history, id(c));
        EvictWithinBound(evict, cap, s);
        assert Screen(gate, id, evict, history, comments).history == evict(s);
      }
    }
  }

  /** Two comments with text and the same id, the first one new: only the first
      is let through, provided eviction keeps the newest entry. */
  lemma ScreenSameIdOnce(gate: Json -> Gate, id: Json -> string, evict: seq<string> -> seq<string>, history: seq<string>, a: Json, b: Json)
    requires gate(a) == Pass && gate(b) == Pass && id(a) == id(b) && id(a) !in history
    requires id(a) in evict(history + [id(a)])
    ensures Screen(gate, id, evict, history, [a, b]).kept == [a]
  {
    assert [a, b][..1] == [a];
    assert [a][..0] == [];
    assert Screen(gate, id, evict, history, [a]) == Screened([a], evict(history + [id(a)]), false);
  }
}
