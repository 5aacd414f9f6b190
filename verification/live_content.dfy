/** The content script of the live-console variant, tblive/content.js: it
    forwards the page's URL, and for every JSONP packet the injected script
    posts it reports the packet and relays one record per comment with text.
    It keeps no id history. */
module LiveContentScript {

  import opened Wrappers
  import opened Json
  import opened Seqs
  import opened Js
  import opened Messages
  import opened CommentScreen
  import opened TextFilter
  import opened TimeFormat

  /** The record relayed for a comment with text; `time` is its formatted
      timestamp. Room id and user token come from the comment's `renders`. */
  function LiveRecord(comment: Json, time: string): Json
  {
    Obj(LiveMembers(comment, time))
  }

  function LiveMembers(comment: Json, time: string): seq<(string, Option<Json>)>
  {
    [("sender", Or(Field(comment, "tbNick"), Field(comment, "publisherNick"))),
     ("time", Str(time)),
     ("content", TrimmedString(Field(comment, "content"))),
     ("liveId", Member(Field(comment, "renders"), "liveId")),
     ("userToken", Member(Field(comment, "renders"), "userToken"))]
  }

  /** The record builder for a clock that reads a timestamp as local
      wall-clock time (None for an invalid date). */
  function LiveRecordOf(clock: Option<Json> -> Option<LocalTime>): Json -> Json
  {
    c => LiveRecord(c, FormatTimestamp(clock(Field(c, "timestamp"))))
  }

  /** The messages one `processComments(data)` sends: the packet report, then
      one record per comment with text, up to a comment that throws. A value
      the length test lets through that is not an array throws at `forEach`. */
  function PacketMessages(url: Option<Json>, data: Option<Json>, clock: Option<Json> -> Option<LocalTime>): (r: seq<Msg>)
    ensures |r| >= 1 && r[0] == ApiResponse(url, data)
    ensures forall i :: 1 <= i < |r| ==> r[i].NewComment?
  {
    [ApiResponse(url, data)]
    + match CommentsOf(data)
      case Comments(items) => CommentMessages(FilterText(ContentGate, items).passed, LiveRecordOf(clock))
      case _ => []
  }

  /** The script's `state` object; `lastProcessedUrl` is never read or
      written after its initialisation. */
  class LiveContent {
    var currentUrl: Option<Json>
    var isProcessing: bool

    constructor ()
      ensures currentUrl == Str("") && !isProcessing
    {
      currentUrl := Str("");
      isProcessing := false;
    }

    /** `processComments(data)`; every exception ends in its `catch`. */
    method ProcessComments(data: Option<Json>, clock: Option<Json> -> Option<LocalTime>) returns (sent: seq<Msg>)
      ensures sent == PacketMessages(currentUrl, data, clock)
    {
      var list := CommentsOf(data);
      var more := [];
      if list.Comments? {
        more := SendPassing(list.items, LiveRecordOf(clock));
      }
      sent := [ApiResponse(currentUrl, data)] + more;
    }

    /** A `window` message. Only messages the page posts to itself count; a
        `null` payload throws on reading its type, which ends the handler. */
    method OnWindowMessage(fromSameWindow: bool, payload: Json, clock: Option<Json> -> Option<LocalTime>)
      returns (sent: seq<Msg>)
      modifies this`currentUrl, this`isProcessing
      ensures isProcessing == old(isProcessing)
      ensures !fromSameWindow || payload.JNull? ==> sent == [] && currentUrl == old(currentUrl)
      ensures fromSameWindow && Field(payload, "type") == Str("CAPTURED_URL") ==>
        currentUrl == Field(payload, "url") && sent == [ApiUrl(Field(payload, "url"))]
      ensures fromSameWindow && Field(payload, "type") == Str("JSONP_RESPONSE") ==>
        && currentUrl == old(currentUrl)
        && sent == (if old(isProcessing) then [] else PacketMessages(old(currentUrl), Field(payload, "data"), clock))
      ensures Field(payload, "type") != Str("CAPTURED_URL") && Field(payload, "type") != Str("JSONP_RESPONSE") ==>
        sent == [] && currentUrl == old(currentUrl)
    {
      sent := [];
      if !fromSameWindow || payload.JNull? {
        return;
      }
      var kind := Field(payload, "type");
      if kind == Str("CAPTURED_URL") {
        var url := Field(payload, "url");
        currentUrl := url;
        sent := [ApiUrl(url)];
      } else if kind == Str("JSONP_RESPONSE") {
        if !isProcessing {
          isProcessing := true;
          sent := ProcessComments(Field(payload, "data"), clock);
          isProcessing := false;
        }
      }
    }
  }

  /** The `forEach` of `processComments`: one `newComment` message per
      comment with text, in order, until a comment throws. */
  method SendPassing(items: seq<Json>, rec: Json -> Json) returns (sent: seq<Msg>)
    ensures sent == CommentMessages(FilterText(ContentGate, items).passed, rec)
  {
    sent := [];
    ghost var passed: seq<Json> := [];
    var i := 0;
    var threw := false;
    while i < |items| && !threw
      invariant 0 <= i <= |items|
      invariant FilterText(ContentGate, items[..i]) == Filtered(passed, threw)
      invariant sent == CommentMessages(passed, rec)
    {
      assert items[..i + 1][..i] == items[..i];
      var c := items[i];
      var gate := ContentGate(c);
      if gate == Throws {
        threw := true;
      } else if gate == Pass {
        sent := sent + [NewComment(rec(c))];
        passed := passed + [c];
      }
      i := i + 1;
    }
    if threw {
      FilterTextThrewStays(ContentGate, items, i);
    } else {
      assert items[..i] == items;
    }
  }

  /** After the packet report, the records relayed are, in order, those of the
      packet's comments with text. When no comment throws, each such comment
      is relayed as often as it occurs: there is no deduplication. */
  lemma PacketMessagesRelays(url: Option<Json>, items: seq<Json>, clock: Option<Json> -> Option<LocalTime>)
    requires items != []
    ensures var data := Some(JObj([("data", JObj([("comments", JArr(items))]))]));
      var passed := FilterText(ContentGate, items).passed;
      && PacketMessages(url, data, clock) == [ApiResponse(url, data)] + CommentMessages(passed, LiveRecordOf(clock))
      && SubsequenceOf(passed, items)
      && ((forall c :: c in items ==> ContentGate(c) != Throws) ==>
            forall c :: multiset(passed)[c] == (if ContentGate(c) == Pass then multiset(items)[c] else 0))
  {
    var data := Some(JObj([("data", JObj([("comments", JArr(items))]))]));
    assert Member(Member(data, "data"), "comments") == Some(JArr(items));
    assert CommentsOf(data) == Comments(items);
    FilterTextSubsequence(ContentGate, items);
    FilterTextThrowsIff(ContentGate, items);
    if forall c :: c in items ==> ContentGate(c) != Throws {
      FilterTextCounts(ContentGate, items);
    }
  }

  /** Every relayed record carries the formatted time, `tbNick ||
      publisherNick` as sender, and the room id and user token of the
      comment's `renders` (absent when `renders` lacks them). */
  lemma LiveRecordFields(comment: Json, time: string)
    ensures var rec := LiveRecord(comment, time);
      && Field(rec, "time") == Str(time)
      && Field(rec, "sender") == Or(Field(comment, "tbNick"), Field(comment, "publisherNick"))
      && Field(rec, "liveId") == Member(Field(comment, "renders"), "liveId")
      && Field(rec, "userToken") == Member(Field(comment, "renders"), "userToken")
  {
    LiveReadBack(comment, time, 0);
    LiveReadBack(comment, time, 1);
    LiveReadBack(comment, time, 3);
    LiveReadBack(comment, time, 4);
  }

  /** The record of a comment with text carries that text trimmed. */
  lemma LiveRecordContent(comment: Json, time: string)
    requires ContentGate(comment) == Pass
    ensures Field(LiveRecord(comment, time), "content") == Str(TrimmedContent(comment))
  {
    LiveReadBack(comment, time, 2);
  }

  /** The `i`-th member of the record reads back as written. */
  lemma LiveReadBack(comment: Json, time: string, i: nat)
    requires i < 5
    ensures var m := LiveMembers(comment, time);
      Field(LiveRecord(comment, time), m[i].0) == m[i].1
  {
    ObjFieldReadBack(LiveMembers(comment, time), i);
  }
}
