/** The service worker of the webRequest variant, background.js: it watches the
    page's comment-query requests (lines 1-228, which tblive/background.js
    repeats unchanged), fetches each admitted request again, relays the packet
    and one `newComment` message per comment not seen before, and routes
    runtime messages (lines 231-279). */
module BackgroundScript {

  import opened Wrappers
  import opened Json
  import opened Js
  import opened Seqs
  import opened Fingerprints
  import opened Messages
  import opened CommentScreen

  /** The least gap, in milliseconds, between two admitted requests. */
  const REQUEST_INTERVAL: int := 2000

  /** The API name a request URL must contain to be captured. */
  const COMMENT_QUERY: string := "mtop.taobao.iliad.comment.query.latest"

  /** The TypeError text the router's `catch` reports for a `null` message. */
  const NULL_ACTION_ERROR: string := "Cannot read properties of null (reading 'action')"

  /** The dedup key `${timestamp}_${content}_${tbNick || publisherNick}`. It has
      no user part: two users posting the same text under the same nick in the
      same millisecond collide. */
  function CommentKey(comment: Json): string
  {
    ToJsString(Field(comment, "timestamp")) + "_" + ToJsString(Field(comment, "content")) + "_"
    + ToJsString(Or(Field(comment, "tbNick"), Field(comment, "publisherNick")))
  }

  /** The screening of one fetched comment list: the text guard, then
      `isCommentProcessed`, which inserts each new key and drops the 500 oldest
      once the set passes 1000. */
  function FilterComments(history: seq<string>, comments: seq<Json>): Screened
  {
    Screen(ContentGate, CommentKey, EvictOldest, history, comments)
  }

  /** A request is handled only while capturing, only for the comment query,
      and only REQUEST_INTERVAL after the last admitted one. */
  predicate Admitted(capturing: bool, url: string, now: int, last: int)
  {
    capturing && Contains(url, COMMENT_QUERY) && now - last >= REQUEST_INTERVAL
  }

  /** `x && x !== currentLiveId`: the room id to switch to, if any. Ids are
      compared as values. */
  function LiveIdChange(current: Json, candidate: Option<Json>): Option<Json>
  {
    if Truthy(candidate) && candidate.value != current then candidate else None
  }

  function LiveInfoMsgs(change: Option<Json>): seq<Msg>
  {
    if change.Some? then [LiveInfo(change.value)] else []
  }

  /** The `data` of the `newComment` message sent for a comment let through;
      `time` is the comment's timestamp in the browser's locale. Only comments
      that passed the text guard reach it, so their content is a string. */
  function NewCommentRecord(comment: Json, time: string, liveId: Json): Json
  {
    Obj(NewCommentMembers(comment, time, liveId))
  }

  function NewCommentMembers(comment: Json, time: string, liveId: Json): seq<(string, Option<Json>)>
  {
    [("sender", Or(Field(comment, "tbNick"), Field(comment, "publisherNick"))),
         ("userToken", Or(Or(Field(comment, "userToken"), Member(Field(comment, "renders"), "userToken")), Str(""))),
         ("time", Str(time)),
         ("content", TrimmedString(Field(comment, "content"))),
         ("liveId", Or(Member(Field(comment, "renders"), "liveId"), Some(liveId)))]
  }

  /** The record builder for a given locale and room id. */
  function RecordOf(localeTime: Option<Json> -> string, liveId: Json): Json -> Json
  {
    c => NewCommentRecord(c, localeTime(Field(c, "timestamp")), liveId)
  }

  /** What an admitted request leaves behind: the key set, the room id and the
      messages sent. */
  datatype Capture = Capture(history: seq<string>, liveId: Json, sent: seq<Msg>)

  /** The screening of a non-empty comment list and what follows it: when the
      screening neither throws nor comes out empty, the room id of the first new
      comment and one record per new comment. */
  function RelayComments(history: seq<string>, liveId: Json, items: seq<Json>,
                         localeTime: Option<Json> -> string): Capture
  {
    var r := FilterComments(history, items);
    if r.threw || r.kept == [] then Capture(r.history, liveId, [])
    else
      var change := LiveIdChange(liveId, Member(Field(r.kept[0], "renders"), "liveId"));
      var id := if change.Some? then change.value else liveId;
      Capture(r.history, id, LiveInfoMsgs(change) + CommentMessages(r.kept, RecordOf(localeTime, id)))
  }

  /** The admitted request: room id from the URL, the URL, the packet when it
      holds comments, then what RelayComments sends. `urlLiveId` is what
      `extractLiveId` reads from the URL and `fetched` the packet `fetchData`
      returns (null on failure). */
  function CaptureRequest(history: seq<string>, liveId: Json, url: string, urlLiveId: Json,
                          fetched: Json, localeTime: Option<Json> -> string): Capture
  {
    var change := LiveIdChange(liveId, Some(urlLiveId));
    var id1 := if change.Some? then change.value else liveId;
    var head := LiveInfoMsgs(change) + [ApiUrl(Str(url))];
    match CommentsOf(Some(fetched))
    case NoComments => Capture(history, id1, head)
    case NotAList => Capture(history, id1, head + [ApiResponse(Str(url), Some(fetched))])
    case Comments(items) =>
      var r := RelayComments(history, id1, items, localeTime);
      Capture(r.history, r.liveId, head + [ApiResponse(Str(url), Some(fetched))] + r.sent)
  }

  /** The worker's global state. */
  class Background {
    var isCapturing: bool
    var processedComments: seq<string>
    var lastRequestTime: int
    var currentLiveId: Json

    /** The key set is a set, and never holds more than CAPACITY keys between
        two calls. */
    ghost predicate Valid()
      reads this
    {
      Distinct(processedComments) && |processedComments| <= CAPACITY
    }

    constructor ()
      ensures Valid()
      ensures !isCapturing && processedComments == [] && lastRequestTime == 0 && currentLiveId == JNull
    {
      isCapturing := false;
      processedComments := [];
      lastRequestTime := 0;
      currentLiveId := JNull;
    }

    /** `isCommentProcessed`: answers whether the key was known; a new key is
        inserted, and once the set passes CAPACITY its EVICT_COUNT oldest keys
        are deleted one by one. */
    method IsCommentProcessed(comment: Json) returns (seen: bool)
      requires Valid()
      modifies this`processedComments
      ensures Valid()
      ensures seen <==> CommentKey(comment) in old(processedComments)
      ensures processedComments == if seen then old(processedComments)
                                   else EvictOldest(old(processedComments) + [CommentKey(comment)])
    {
      var key := CommentKey(comment);
      if key in processedComments {
        return true;
      }
      processedComments := processedComments + [key];
      EvictOldestFacts(processedComments);
      if |processedComments| > CAPACITY {
        var grown := processedComments;
        var i := 0;
        while i < EVICT_COUNT
          invariant 0 <= i <= EVICT_COUNT
          invariant processedComments == grown[i..]
        {
          processedComments := processedComments[1..];
          i := i + 1;
        }
      }
      return false;
    }

    /** `comments.filter(c => c.content && c.content.trim() && !isCommentProcessed(c))`;
        a throwing element abandons the filter, keeping the keys already
        inserted. */
    method FilterNewComments(comments: seq<Json>) returns (kept: seq<Json>, threw: bool)
      requires Valid()
      modifies this`processedComments
      ensures Valid()
      ensures Screened(kept, processedComments, threw) == FilterComments(old(processedComments), comments)
    {
      kept, threw := [], false;
      var i := 0;
      while i < |comments| && !threw
        invariant 0 <= i <= |comments|
        invariant Valid()
        invariant Screened(kept, processedComments, threw)
                  == Screen(ContentGate, CommentKey, EvictOldest, old(processedComments), comments[..i])
      {
        assert comments[..i + 1][..i] == comments[..i];
        var c := comments[i];
        ghost var acc := Screened(kept, processedComments, threw);
        assert Screen(ContentGate, CommentKey, EvictOldest, old(processedComments), comments[..i + 1])
               == Step(ContentGate, CommentKey, EvictOldest, acc, c);
        var gate := ContentGate(c);
        if gate == Throws {
          threw := true;
        } else if gate == Pass {
          var seen := IsCommentProcessed(c);
          if !seen {
            kept := kept + [c];
          }
        }
        assert Screened(kept, processedComments, threw) == Step(ContentGate, CommentKey, EvictOldest, acc, c);
        i := i + 1;
      }
      if threw {
        ScreenThrewStays(ContentGate, CommentKey, EvictOldest, old(processedComments), comments, i);
      } else {
        assert comments[..i] == comments;
      }
    }

    /** `updateLiveId`: switch to a truthy room id that differs from the
        current one and announce it. */
    method UpdateLiveId(newLiveId: Json) returns (sent: seq<Msg>)
      modifies this`currentLiveId
      ensures var change := LiveIdChange(old(currentLiveId), Some(newLiveId));
        && sent == LiveInfoMsgs(change)
        && currentLiveId == (if change.Some? then change.value else old(currentLiveId))
    {
      sent := [];
      if Truthy(Some(newLiveId)) && newLiveId != currentLiveId {
        currentLiveId := newLiveId;
        sent := [LiveInfo(currentLiveId)];
      }
    }

    /** The `webRequest.onBeforeRequest` listener, for a request to `url` at
        time `now`. The clock, `extractLiveId`, `fetchData` and the locale's
        time format are parameters; the fetch is taken to complete before any
        other event is handled. */
    method OnBeforeRequest(url: string, now: int, urlLiveId: Json, fetched: Json,
                           localeTime: Option<Json> -> string)
      returns (sent: seq<Msg>)
      requires Valid()
      modifies this
      ensures Valid() && isCapturing == old(isCapturing)
      ensures !Admitted(old(isCapturing), url, now, old(lastRequestTime)) ==>
        && sent == [] && processedComments == old(processedComments)
        && lastRequestTime == old(lastRequestTime) && currentLiveId == old(currentLiveId)
      ensures Admitted(old(isCapturing), url, now, old(lastRequestTime)) ==>
        && lastRequestTime == now
        && Capture(processedComments, currentLiveId, sent)
           == CaptureRequest(old(processedComments), old(currentLiveId), url, urlLiveId, fetched, localeTime)
    {
      sent := [];
      if !isCapturing || !Contains(url, COMMENT_QUERY) {
        return;
      }
      if now - lastRequestTime < REQUEST_INTERVAL {
        return;
      }
      lastRequestTime := now;
      sent := CaptureAdmitted(url, urlLiveId, fetched, localeTime);
    }

    /** The body of the listener once a request is admitted. */
    method CaptureAdmitted(url: string, urlLiveId: Json, fetched: Json, localeTime: Option<Json> -> string)
      returns (sent: seq<Msg>)
      requires Valid()
      modifies this`processedComments, this`currentLiveId
      ensures Valid()
      ensures Capture(processedComments, currentLiveId, sent)
              == CaptureRequest(old(processedComments), old(currentLiveId), url, urlLiveId, fetched, localeTime)
    {
      sent := UpdateLiveId(urlLiveId);
      sent := sent + [ApiUrl(Str(url))];
      var list := CommentsOf(Some(fetched));
      if list.NoComments? {
        return;
      }
      sent := sent + [ApiResponse(Str(url), Some(fetched))];
      if list.NotAList? {
        // `filter` is not a function of the value: the listener's promise rejects
        return;
      }
      var more := RelayNewComments(list.items, localeTime);
      sent := sent + more;
    }

    /** Filtering a non-empty comment list and sending what it lets through. */
    method RelayNewComments(items: seq<Json>, localeTime: Option<Json> -> string) returns (sent: seq<Msg>)
      requires Valid()
      modifies this`processedComments, this`currentLiveId
      ensures Valid()
      ensures Capture(processedComments, currentLiveId, sent)
              == RelayComments(old(processedComments), old(currentLiveId), items, localeTime)
    {
      sent := [];
      var newComments, threw := FilterNewComments(items);
      if threw || newComments == [] {
        return;
      }
      var first := Member(Field(newComments[0], "renders"), "liveId");
      if Truthy(first) {
        sent := UpdateLiveId(first.value);
      }
      ghost var change := LiveIdChange(old(currentLiveId), first);
      assert sent == LiveInfoMsgs(change);
      assert currentLiveId == if change.Some? then change.value else old(currentLiveId);
      var relayed := SendComments(newComments, RecordOf(localeTime, currentLiveId));
      sent := sent + relayed;
    }

    /** The `runtime.onMessage` router. `reply` is what `sendResponse` gets,
        None when the message is not answered. */
    method OnMessage(message: Json) returns (reply: Option<Json>, sent: seq<Msg>)
      requires Valid()
      modifies this
      ensures Valid()
      ensures message.JNull? ==>
        reply == Some(FailureReply(NULL_ACTION_ERROR)) && sent == [] && unchanged(this)
      ensures Field(message, "action") == Str("startCapture") ==>
        && isCapturing && processedComments == [] && lastRequestTime == 0
        && currentLiveId == old(currentLiveId)
        && sent == (if Truthy(Some(currentLiveId)) then [LiveInfo(currentLiveId)] else [])
        && reply == Some(SuccessReply(true))
      ensures Field(message, "action") == Str("stopCapture") ==>
        && !isCapturing && processedComments == old(processedComments)
        && lastRequestTime == old(lastRequestTime) && currentLiveId == old(currentLiveId)
        && sent == [] && reply == Some(SuccessReply(true))
      ensures !message.JNull? && Field(message, "action") != Str("startCapture")
              && Field(message, "action") != Str("stopCapture") ==>
        && unchanged(this)
        && (if Field(message, "type") in RELAYED_TYPES
            then sent == [Relayed(message)] && reply == Some(SuccessReply(true))
            else sent == [] && reply == None)
    {
      sent := [];
      if message.JNull? {
        reply := Some(FailureReply(NULL_ACTION_ERROR));
        return;
      }
      var action := Field(message, "action");
      if action == Str("startCapture") {
        isCapturing := true;
        processedComments := [];
        lastRequestTime := 0;
        if Truthy(Some(currentLiveId)) {
          sent := [LiveInfo(currentLiveId)];
        }
        reply := Some(SuccessReply(true));
      } else if action == Str("stopCapture") {
        isCapturing := false;
        reply := Some(SuccessReply(true));
      } else if Field(message, "type") in RELAYED_TYPES {
        sent := [Relayed(message)];
        reply := Some(SuccessReply(true));
      } else {
        reply := None;
      }
    }
  }

  /** The message types the router broadcasts again unchanged. */
  const RELAYED_TYPES: seq<Option<Json>> :=
    [Str("apiUrl"), Str("apiResponse"), Str("newComment"), Str("liveInfo")]

  /** However many comments a fetch brings, the key set stays a set of at most
      CAPACITY keys. */
  lemma FilterBounded(history: seq<string>, comments: seq<Json>)
    requires |history| <= CAPACITY && Distinct(history)
    ensures var r := FilterComments(history, comments);
      |r.history| <= CAPACITY && Distinct(r.history)
  {
    forall s: seq<string> | |s| <= CAPACITY + 1 && Distinct(s)
      ensures |EvictOldest(s)| <= CAPACITY && Distinct(EvictOldest(s))
    {
      EvictOldestFacts(s);
    }
    ScreenBounded(ContentGate, CommentKey, EvictOldest, CAPACITY, history, comments);
  }

  /** The comments let through are, in order, some of the fetched ones, each
      with text; and no key enters the set except from a comment with text. */
  lemma FilterOnlyText(history: seq<string>, comments: seq<Json>)
    ensures var r := FilterComments(history, comments);
      && SubsequenceOf(r.kept, comments)
      && (forall c :: c in r.kept ==> ContentGate(c) == Pass)
      && (forall k :: k in r.history ==>
            k in history || exists c :: c in comments && ContentGate(c) == Pass && CommentKey(c) == k)
  {
    ScreenSubsequence(ContentGate, CommentKey, EvictOldest, history, comments);
    ScreenKeptPass(ContentGate, CommentKey, EvictOldest, history, comments);
    forall s: seq<string>, k | k in EvictOldest(s) ensures k in s {
      EvictOldestFacts(s);
    }
    ScreenRecordsOnlyPassing(ContentGate, CommentKey, EvictOldest, history, comments);
  }

  /** Two comments with text whose keys agree are relayed once, whichever
      users posted them. */
  lemma SameKeyRelayedOnce(history: seq<string>, a: Json, b: Json)
    requires ContentGate(a) == Pass && ContentGate(b) == Pass
    requires CommentKey(a) == CommentKey(b) && CommentKey(a) !in history
    ensures FilterComments(history, [a, b]).kept == [a]
  {
    var s := history + [CommentKey(a)];
    EvictOldestFacts(s);
    assert s[|s| - 1] == CommentKey(a);
    ScreenSameIdOnce(ContentGate, CommentKey, EvictOldest, history, a, b);
  }

  /** Every `newComment` record carries the formatted time, a defined room id
      (the comment's own, else the current one) and a defined user token, and
      names the sender when the comment has a nick. */
  lemma NewCommentRecordFields(comment: Json, time: string, liveId: Json)
    ensures var rec := NewCommentRecord(comment, time, liveId);
      && Field(rec, "time") == Str(time)
      && Field(rec, "liveId") == Or(Member(Field(comment, "renders"), "liveId"), Some(liveId))
      && Field(rec, "userToken")
         == Or(Or(Field(comment, "userToken"), Member(Field(comment, "renders"), "userToken")), Str(""))
      && Field(rec, "liveId").Some? && Field(rec, "userToken").Some?
      && Field(rec, "sender") == Or(Field(comment, "tbNick"), Field(comment, "publisherNick"))
  {
    NewCommentReadBack(comment, time, liveId, 0);
    NewCommentReadBack(comment, time, liveId, 1);
    NewCommentReadBack(comment, time, liveId, 2);
    NewCommentReadBack(comment, time, liveId, 4);
  }

  /** The record of a comment let through carries its trimmed text, which is
      not empty. */
  lemma NewCommentRecordContent(comment: Json, time: string, liveId: Json)
    requires ContentGate(comment) == Pass
    ensures Field(NewCommentRecord(comment, time, liveId), "content") == Str(TrimmedContent(comment))
    ensures TrimmedContent(comment) != []
  {
    NewCommentReadBack(comment, time, liveId, 3);
  }

  /** An admitted request always announces its URL; it sends at most one
      record per fetched comment; and a packet without a comment list changes
      no key. */
  lemma CaptureRequestFacts(history: seq<string>, liveId: Json, url: string, urlLiveId: Json,
                            fetched: Json, localeTime: Option<Json> -> string)
    ensures var r := CaptureRequest(history, liveId, url, urlLiveId, fetched, localeTime);
      && ApiUrl(Str(url)) in r.sent
      && (!CommentsOf(Some(fetched)).Comments? ==> r.history == history && |r.sent| <= 3)
      && (CommentsOf(Some(fetched)).Comments? ==>
            |r.sent| <= 4 + |CommentsOf(Some(fetched)).items|)
  {
    var list := CommentsOf(Some(fetched));
    if list.Comments? {
      var r := FilterComments(history, list.items);
      ScreenSubsequence(ContentGate, CommentKey, EvictOldest, history, list.items);
      SubsequenceLength(r.kept, list.items);
      var change := LiveIdChange(liveId, Some(urlLiveId));
      var id1 := if change.Some? then change.value else liveId;
      assert |RelayComments(history, id1, list.items, localeTime).sent| <= 1 + |list.items|;
    }
  }

  /** The `i`-th member of the record reads back as written. */
  lemma NewCommentReadBack(comment: Json, time: string, liveId: Json, i: nat)
    requires i < 5
    ensures var m := NewCommentMembers(comment, time, liveId);
      Field(NewCommentRecord(comment, time, liveId), m[i].0) == m[i].1
  {
    ObjFieldReadBack(NewCommentMembers(comment, time, liveId), i);
  }
}
