/** The page script of the page-hook variant, inject.js: it turns a JSONP
    comment packet into a list of normalised records and posts them to the
    content script, and it reads the JSONP callback name out of a request URL.
    Everything here is a pure function of its inputs. */
module PageInject {

  import opened Wrappers
  import opened Json
  import opened Js
  import opened Seqs
  import opened Messages
  import opened CommentScreen
  import opened TextFilter
  import opened TimeFormat

  /** The list `__processJSONPResponse` picks out of `data.data`: its
      `commentList`, else its `comments`, else its `result.commentList`, else
      `data.data` itself when it is an array, else an empty array. */
  function SelectComments(d: Json): (r: Json)
    ensures Truthy(Some(r))
  {
    if Truthy(Field(d, "commentList")) then Field(d, "commentList").value
    else if Truthy(Field(d, "comments")) then Field(d, "comments").value
    else if Truthy(Field(d, "result")) && Truthy(Member(Field(d, "result"), "commentList"))
    then Member(Field(d, "result"), "commentList").value
    else if d.JArr? then d
    else JArr([])
  }

  /** The if/else selection is the `||` chain of its candidates, in priority
      order. */
  lemma SelectCommentsPriority(d: Json)
    ensures Some(SelectComments(d)) == FirstTruthy(
      [Field(d, "commentList"),
       Field(d, "comments"),
       And(Field(d, "result"), Member(Field(d, "result"), "commentList")),
       Some(if d.JArr? then d else JArr([]))])
  {
    var cands := [Field(d, "commentList"),
                  Field(d, "comments"),
                  And(Field(d, "result"), Member(Field(d, "result"), "commentList")),
                  Some(if d.JArr? then d else JArr([]))];
    OrChain(cands);
    OrChain(cands[1..]);
    OrChain(cands[1..][1..]);
    assert cands[1..][1..][1..] == [cands[3]];
  }

  /** The user token of a comment (lines 48-57): the first truthy of
      `renders.userToken`, `userToken`, `userId`, `publisherId`, else `''`. */
  function UserToken(c: Json): Option<Json>
  {
    var renders := Field(c, "renders");
    if Truthy(renders) && Truthy(Member(renders, "userToken")) then Member(renders, "userToken")
    else if Truthy(Field(c, "userToken")) then Field(c, "userToken")
    else if Truthy(Field(c, "userId")) then Field(c, "userId")
    else if Truthy(Field(c, "publisherId")) then Field(c, "publisherId")
    else Str("")
  }

  /** The room id of a comment (lines 60-63): `renders.liveId` when truthy,
      else `''`. */
  function RoomId(c: Json): Option<Json>
  {
    var renders := Field(c, "renders");
    if Truthy(renders) && Truthy(Member(renders, "liveId")) then Member(renders, "liveId") else Str("")
  }

  /** The user token is the `||` chain of its fallbacks, never undefined, and
      the room id falls back to `''` the same way. */
  lemma UserTokenFallbacks(c: Json)
    ensures var renders := Field(c, "renders");
      && UserToken(c) == FirstTruthy([And(renders, Member(renders, "userToken")), Field(c, "userToken"),
                                      Field(c, "userId"), Field(c, "publisherId"), Str("")])
      && UserToken(c).Some?
      && RoomId(c) == Or(And(renders, Member(renders, "liveId")), Str(""))
      && RoomId(c).Some?
  {
    var renders := Field(c, "renders");
    var cands := [And(renders, Member(renders, "userToken")), Field(c, "userToken"),
                  Field(c, "userId"), Field(c, "publisherId"), Str("")];
    OrChain(cands);
    OrChain(cands[1..]);
    OrChain(cands[1..][1..]);
    OrChain(cands[1..][1..][1..]);
    assert cands[1..][1..][1..][1..] == [Str("")];
  }

  function DecodedMembers(c: Json, now: int): seq<(string, Option<Json>)>
  {
    [("content", Or(Or(Field(c, "content"), Field(c, "message")), Str(""))),
     ("nick", Or(Or(Or(Field(c, "userNick"), Field(c, "tbNick")), Field(c, "publisherNick")), Str(""))),
     ("userId", UserToken(c)),
     ("time", Or(Or(Field(c, "timestamp"), Field(c, "gmtCreate")), Some(JNum(now)))),
     ("liveId", RoomId(c))]
  }

  /** The record `map` builds for one comment; `now` is `Date.now()`. A `null`
      comment makes `map` throw; ProcessJsonp handles that before decoding. */
  function DecodeComment(c: Json, now: int): Json
  {
    Obj(DecodedMembers(c, now))
  }

  /** Every record carries its content, nick and time with the fallbacks in
      order, each defined; the content is taken as it is, not trimmed. */
  lemma DecodeCommentFields(c: Json, now: int)
    ensures var r := DecodeComment(c, now);
      && Field(r, "content") == Or(Or(Field(c, "content"), Field(c, "message")), Str(""))
      && Field(r, "nick") == Or(Or(Or(Field(c, "userNick"), Field(c, "tbNick")), Field(c, "publisherNick")), Str(""))
      && Field(r, "time") == Or(Or(Field(c, "timestamp"), Field(c, "gmtCreate")), Some(JNum(now)))
      && Field(r, "content").Some? && Field(r, "nick").Some? && Field(r, "time").Some?
  {
    DecodedReadBack(c, now, 0);
    DecodedReadBack(c, now, 1);
    DecodedReadBack(c, now, 3);
  }

  /** Every record carries the user token and room id of the comment, both
      defined. */
  lemma DecodeCommentIds(c: Json, now: int)
    ensures var r := DecodeComment(c, now);
      && Field(r, "userId") == UserToken(c) && Field(r, "userId").Some?
      && Field(r, "liveId") == RoomId(c) && Field(r, "liveId").Some?
  {
    DecodedReadBack(c, now, 2);
    DecodedReadBack(c, now, 4);
    UserTokenFallbacks(c);
  }

  /** `comments.map(...)`. */
  function Decoded(items: seq<Json>, now: int): (r: seq<Json>)
    ensures |r| == |items| && forall i :: 0 <= i < |items| ==> r[i] == DecodeComment(items[i], now)
  {
    seq(|items|, i requires 0 <= i < |items| => DecodeComment(items[i], now))
  }

  /** `__processJSONPResponse(data)`: the `newComments` message it posts, if
      any. Nothing is posted for a packet without `data.data`, for an empty or
      non-array list, for a list holding `null` (`map` throws), or when a
      record's content has no `trim` (`filter` throws); every throw ends in
      the `catch`. */
  function ProcessJsonp(data: Option<Json>, now: int): (r: Option<PageMsg>)
    ensures r.Some? ==> Truthy(data) && Truthy(Member(data, "data"))
    ensures r.Some? ==> r.value.NewComments? && r.value.comments != []
    ensures r.Some? ==> forall c :: c in r.value.comments ==> ContentGate(c) == Pass
  {
    if !Truthy(data) || !Truthy(Member(data, "data")) then None
    else
      match SelectComments(Member(data, "data").value)
      case JArr(items) =>
        if items == [] || exists i | 0 <= i < |items| :: items[i].JNull? then None
        else
          var f := FilterText(ContentGate, Decoded(items, now));
          if f.threw || f.passed == [] then None else Some(NewComments(f.passed))
      case _ => None
  }

  /** A posted list is, in order, the records of the selected list whose
      content is text that is not blank after trimming, each occurring as
      often as among all the records; so it is never longer than the selected
      list. It is posted exactly when that list is non-empty and nothing
      threw. */
  lemma ProcessJsonpPosts(data: Option<Json>, now: int, items: seq<Json>)
    requires Truthy(data) && Truthy(Member(data, "data"))
    requires SelectComments(Member(data, "data").value) == JArr(items)
    requires forall i :: 0 <= i < |items| ==> !items[i].JNull?
    requires forall c :: c in Decoded(items, now) ==> ContentGate(c) != Throws
    ensures var passed := FilterText(ContentGate, Decoded(items, now)).passed;
      && (ProcessJsonp(data, now).Some? <==> passed != [])
      && (passed != [] ==> ProcessJsonp(data, now) == Some(NewComments(passed)))
      && SubsequenceOf(passed, Decoded(items, now))
      && |passed| <= |items|
      && forall c :: multiset(passed)[c]
                     == (if ContentGate(c) == Pass then multiset(Decoded(items, now))[c] else 0)
  {
    var recs := Decoded(items, now);
    FilterTextThrowsIff(ContentGate, recs);
    FilterTextCounts(ContentGate, recs);
    FilterTextSubsequence(ContentGate, recs);
    SubsequenceLength(FilterText(ContentGate, recs).passed, recs);
  }

  /** The API name a script URL must contain for its callback to be hooked. */
  const COMMENT_API: string := "mtop.taobao.iliad.comment.query.latest"

  /** The literal part of the pattern `callback=(mtopjsonp\d+)`. */
  const CALLBACK_KEY: string := "callback=mtopjsonp"

  /** `callback=` is 9 characters; the captured name starts after it. */
  const NAME_OFFSET: nat := 9

  /** The pattern matches at `i`: the literal, then at least one digit. */
  predicate MatchAt(s: string, i: int)
  {
    0 <= i && i + |CALLBACK_KEY| < |s| && s[i..i + |CALLBACK_KEY|] == CALLBACK_KEY
    && IsDigit(s[i + |CALLBACK_KEY|])
  }

  /** The length of the run of digits starting at `j`. */
  function DigitRun(s: string, j: nat): (n: nat)
    requires j <= |s|
    ensures j + n <= |s|
    ensures forall k :: j <= k < j + n ==> IsDigit(s[k])
    ensures j + n == |s| || !IsDigit(s[j + n])
    decreases |s| - j
  {
    if j < |s| && IsDigit(s[j]) then 1 + DigitRun(s, j + 1) else 0
  }

  /** The leftmost position at or after `i` where the pattern matches. */
  function FindMatch(s: string, i: nat): (r: Option<nat>)
    ensures r.Some? ==> i <= r.value && MatchAt(s, r.value)
    ensures r.Some? ==> forall k :: i <= k < r.value ==> !MatchAt(s, k)
    ensures r.None? ==> forall k :: i <= k ==> !MatchAt(s, k)
    decreases |s| - i
  {
    if i + |CALLBACK_KEY| >= |s| then None
    else if MatchAt(s, i) then Some(i)
    else FindMatch(s, i + 1)
  }

  /** `name` is what the pattern captures when it matches at `i`:
      `mtopjsonp` and the whole run of digits after it. */
  ghost predicate CapturedAt(s: string, i: int, name: string)
  {
    && OccursAt(s, "callback=" + name, i)
    && |name| > |CALLBACK_KEY| - NAME_OFFSET
    && name[..|CALLBACK_KEY| - NAME_OFFSET] == "mtopjsonp"
    && (forall k :: |CALLBACK_KEY| - NAME_OFFSET <= k < |name| ==> IsDigit(name[k]))
    && (i + NAME_OFFSET + |name| == |s| || !IsDigit(s[i + NAME_OFFSET + |name|]))
  }

  /** The text the group captures at a match: `mtopjsonp` and the digits
      after it. */
  function NameAt(s: string, i: nat): string
    requires MatchAt(s, i)
  {
    s[i + NAME_OFFSET..i + |CALLBACK_KEY| + DigitRun(s, i + |CALLBACK_KEY|)]
  }

  /** The literal splits at the `=`. */
  lemma KeyParts()
    ensures CALLBACK_KEY[..NAME_OFFSET] == "callback=" && CALLBACK_KEY[NAME_OFFSET..] == "mtopjsonp"
  {
  }

  /** At a match, the group captures `NameAt`. */
  lemma CapturedAtMatch(s: string, i: nat)
    requires MatchAt(s, i)
    ensures CapturedAt(s, i, NameAt(s, i))
  {
    var name := NameAt(s, i);
    var j := i + |CALLBACK_KEY|;
    var n := DigitRun(s, j);
    assert |name| == |CALLBACK_KEY| - NAME_OFFSET + n;
    KeyParts();
    assert s[i..i + NAME_OFFSET] == s[i..i + |CALLBACK_KEY|][..NAME_OFFSET];
    assert name[..|CALLBACK_KEY| - NAME_OFFSET] == s[i..i + |CALLBACK_KEY|][NAME_OFFSET..];
    assert s[i..i + NAME_OFFSET + |name|] == s[i..i + NAME_OFFSET] + name;
    forall k | |CALLBACK_KEY| - NAME_OFFSET <= k < |name|
      ensures IsDigit(name[k])
    {
      assert name[k] == s[i + NAME_OFFSET + k];
      assert j <= i + NAME_OFFSET + k < j + n;
    }
    assert i + NAME_OFFSET + |name| == j + n;
  }

  /** `src.match(/callback=(mtopjsonp\d+)/)` and its first group (line 108):
      the name captured at the leftmost match, or None when there is none. */
  function CallbackName(src: string): (r: Option<string>)
    ensures r.None? <==> forall i :: !MatchAt(src, i)
    ensures r.Some? ==> exists i :: CapturedAt(src, i, r.value) && forall k :: 0 <= k < i ==> !MatchAt(src, k)
  {
    match FindMatch(src, 0)
    case None => None
    case Some(i) =>
      CapturedAtMatch(src, i);
      Some(NameAt(src, i))
  }

  /** The callback a script element's URL leads the observer to hook: only
      URLs of the comment API are looked at. */
  function HookedCallback(src: string): (r: Option<string>)
    ensures r.Some? ==> Contains(src, COMMENT_API) && r == CallbackName(src)
  {
    if Contains(src, COMMENT_API) then CallbackName(src) else None
  }

  /** The script text injected to install the proxy (line 115). */
  function ProxyScript(name: string): string
  {
    "window.__createCallbackProxy('" + name + "');"
  }

  /** A captured name holds only letters and digits, so the only quotes in the
      injected script are the two that delimit the name: a URL cannot smuggle
      code into it. */
  lemma ProxyScriptQuotes(src: string)
    requires CallbackName(src).Some?
    ensures var name := CallbackName(src).value;
      var text := ProxyScript(name);
      forall k :: 0 <= k < |text| && text[k] == '\'' ==> k == 29 || k == 30 + |name|
  {
    var name := CallbackName(src).value;
    var i :| CapturedAt(src, i, name) && forall k :: 0 <= k < i ==> !MatchAt(src, k);
    var head := "window.__createCallbackProxy('";
    var tail := "');";
    var text := ProxyScript(name);
    assert text == head + name + tail;
    forall n | 0 <= n < |name| ensures name[n] != '\'' {
      if n < 9 {
        assert name[n] == name[..9][n];
      }
    }
    forall k | 0 <= k < |text| && text[k] == '\''
      ensures k == 29 || k == 30 + |name|
    {
      if k < |head| {
        assert text[k] == head[k];
      } else if k >= |head| + |name| {
        assert text[k] == tail[k - |head| - |name|];
      }
    }
  }


  /** The `i`-th member of the record reads back as written. */
  lemma DecodedReadBack(c: Json, now: int, i: nat)
    requires i < 5
    ensures var m := DecodedMembers(c, now);
      Field(DecodeComment(c, now), m[i].0) == m[i].1
  {
    ObjFieldReadBack(DecodedMembers(c, now), i);
  }
}
