/** The content script of the page-hook variant, content.js: it receives the
    JSONP packets the injected page script captures, screens their comments
    against its id history, relays one record per new comment to the service
    worker, and follows the worker's start and stop commands. */
module ContentScript {

  import opened Wrappers
  import opened Json
  import opened Js
  import opened Seqs
  import opened Fingerprints
  import opened Messages
  import opened CommentScreen
  import opened TimeFormat

  /** The record relayed for a comment let through; `time` is its formatted
      timestamp and `liveId` the room id the script holds. */
  function ContentRecord(comment: Json, time: string, liveId: Option<Json>): Json
  {
    Obj(ContentMembers(comment, time, liveId))
  }

  function ContentMembers(comment: Json, time: string, liveId: Option<Json>): seq<(string, Option<Json>)>
  {
    [("sender", Or(Or(Field(comment, "tbNick"), Field(comment, "publisherNick")), Str("unknown"))),
     ("time", Str(time)),
     ("content", TrimmedString(Field(comment, "content"))),
     ("liveId", Or(liveId, Str(""))),
     ("userToken", Or(Member(Field(comment, "renders"), "userToken"), Str("0"))),
     ("userId", Or(Field(comment, "userId"), Str("")))]
  }

  /** The record builder for a clock and a room id. `clock` reads a timestamp
      as local wall-clock time (None for an invalid date). */
  function ContentRecordOf(clock: Option<Json> -> Option<LocalTime>, liveId: Option<Json>): Json -> Json
  {
    c => ContentRecord(c, FormatTimestamp(clock(Field(c, "timestamp"))), liveId)
  }

  /** The id history and the messages one packet leaves behind. */
  datatype Outcome = Outcome(ids: seq<string>, sent: seq<Msg>)

  /** `processComments` once it proceeds: screen the list; when nothing threw,
      relay the records of the new comments and then clean the history up. A
      throw lands in the `catch`: the ids already recorded stay, nothing is
      sent, and the cleanup is skipped. */
  function ProcessBatch(ids: seq<string>, data: Option<Json>, clock: Option<Json> -> Option<LocalTime>,
                        liveId: Option<Json>): Outcome
  {
    match CommentsOf(data)
    case Comments(items) =>
      var r := ScreenComments(ids, items);
      if r.threw then Outcome(r.history, [])
      else Outcome(KeepNewerHalf(r.history), CommentMessages(r.kept, ContentRecordOf(clock, liveId)))
    case _ => Outcome(ids, [])
  }

  /** The content script's `state` object. */
  class ContentScript {
    var currentUrl: Option<Json>
    var isProcessing: bool
    var isCapturing: bool
    var processedMessageIds: seq<string>
    /** `state.liveId`, undefined until first set. */
    var liveId: Option<Json>

    ghost predicate Valid()
      reads this
    {
      Distinct(processedMessageIds)
    }

    constructor ()
      ensures Valid()
      ensures currentUrl == Str("") && !isProcessing && !isCapturing
      ensures processedMessageIds == [] && liveId == None
    {
      currentUrl := Str("");
      isProcessing := false;
      isCapturing := false;
      processedMessageIds := [];
      liveId := None;
    }

    /** `processComments(data)`. `extracted` is what `extractLiveId` would
        return, used only when no room id is held yet. */
    method ProcessComments(data: Option<Json>, extracted: Json, clock: Option<Json> -> Option<LocalTime>)
      returns (sent: seq<Msg>)
      requires Valid()
      modifies this`isProcessing, this`processedMessageIds, this`liveId
      ensures Valid()
      ensures isProcessing == old(isProcessing)
      ensures !old(isCapturing) || old(isProcessing) ==>
        sent == [] && processedMessageIds == old(processedMessageIds) && liveId == old(liveId)
      ensures old(isCapturing) && !old(isProcessing) ==>
        && liveId == (if Truthy(old(liveId)) then old(liveId) else Some(extracted))
        && Outcome(processedMessageIds, sent) == ProcessBatch(old(processedMessageIds), data, clock, liveId)
    {
      sent := [];
      if !isCapturing {
        return;
      }
      if isProcessing {
        return;
      }
      isProcessing := true;
      if !Truthy(liveId) {
        liveId := Some(extracted);
      }
      sent := RelayBatch(data, clock);
      isProcessing := false;
    }

    /** The `try` block of `processComments` after the room id is settled. */
    method RelayBatch(data: Option<Json>, clock: Option<Json> -> Option<LocalTime>) returns (sent: seq<Msg>)
      requires Valid()
      modifies this`processedMessageIds
      ensures Valid()
      ensures Outcome(processedMessageIds, sent) == ProcessBatch(old(processedMessageIds), data, clock, liveId)
    {
      sent := [];
      var list := CommentsOf(data);
      if list.Comments? {
        ghost var ids := processedMessageIds;
        var kept, newHistory, threw := ScreenBatch(processedMessageIds, list.items);
        assert Distinct(newHistory) by {
          ScreenFresh(ContentGate, MessageId, ids, list.items);
        }
        processedMessageIds := newHistory;
        if !threw {
          sent := SendComments(kept, ContentRecordOf(clock, liveId));
          KeepNewerHalfFacts(newHistory);
          processedMessageIds := KeepNewerHalf(newHistory);
        }
        assert ProcessBatch(ids, data, clock, liveId) == Outcome(processedMessageIds, sent);
      }
    }

    /** The `startCapture` command: capture on, room id re-read, history
        cleared, re-entrancy flag cleared. */
    method OnStartCapture(extracted: Json) returns (reply: Json)
      modifies this`isCapturing, this`liveId, this`processedMessageIds, this`isProcessing
      ensures Valid()
      ensures isCapturing && liveId == Some(extracted) && processedMessageIds == [] && !isProcessing
      ensures reply == StatusReply("success", None)
    {
      isCapturing := true;
      liveId := Some(extracted);
      processedMessageIds := [];
      isProcessing := false;
      reply := StatusReply("success", None);
    }

    /** The `stopCapture` command: capture off and flag cleared; the history is
        kept. */
    method OnStopCapture() returns (reply: Json)
      modifies this`isCapturing, this`isProcessing
      ensures !isCapturing && !isProcessing
      ensures reply == StatusReply("success", None)
    {
      isCapturing := false;
      isProcessing := false;
      reply := StatusReply("success", None);
    }

    /** A `window` message. Only messages the page posts to itself count; a
        `null` payload throws on reading its type, which ends the handler. */
    method OnWindowMessage(fromSameWindow: bool, payload: Json, extracted: Json,
                           clock: Option<Json> -> Option<LocalTime>)
      returns (sent: seq<Msg>)
      requires Valid()
      modifies this`currentUrl, this`isProcessing, this`processedMessageIds, this`liveId
      ensures Valid()
      ensures isProcessing == old(isProcessing)
      ensures !fromSameWindow || payload.JNull? ==>
        sent == [] && currentUrl == old(currentUrl) && processedMessageIds == old(processedMessageIds)
        && liveId == old(liveId)
      ensures fromSameWindow && Field(payload, "type") == Str("CAPTURED_URL") ==>
        currentUrl == Field(payload, "url") && sent == []
        && processedMessageIds == old(processedMessageIds) && liveId == old(liveId)
      ensures fromSameWindow && Field(payload, "type") == Str("JSONP_RESPONSE") ==>
        currentUrl == old(currentUrl)
        && (old(isCapturing) && !old(isProcessing) ==>
              && liveId == (if Truthy(old(liveId)) then old(liveId) else Some(extracted))
              && Outcome(processedMessageIds, sent)
                 == ProcessBatch(old(processedMessageIds), Field(payload, "data"), clock, liveId))
        && (!old(isCapturing) || old(isProcessing) ==>
              sent == [] && processedMessageIds == old(processedMessageIds) && liveId == old(liveId))
    {
      sent := [];
      if !fromSameWindow || payload.JNull? {
        return;
      }
      var kind := Field(payload, "type");
      if kind == Str("CAPTURED_URL") {
        currentUrl := Field(payload, "url");
      } else if kind == Str("JSONP_RESPONSE") {
        if isCapturing && !isProcessing {
          sent := ProcessComments(Field(payload, "data"), extracted, clock);
        }
      }
    }
  }

  /** A packet screened from a history within CAPACITY, carrying at most
      CAPACITY comments, leaves the history within CAPACITY after the cleanup;
      the cleanup keeps the bound exactly when at most 2 * CAPACITY ids are
      present, so a larger packet can leave more than CAPACITY. */
  lemma {:induction false} ProcessBatchBounded(ids: seq<string>, data: Option<Json>,
                                                clock: Option<Json> -> Option<LocalTime>, liveId: Option<Json>)
    requires |ids| <= CAPACITY && Distinct(ids)
    requires CommentsOf(data).Comments? ==> |CommentsOf(data).items| <= CAPACITY
    ensures Distinct(ProcessBatch(ids, data, clock, liveId).ids)
    ensures CommentsOf(data).Comments? && !ScreenComments(ids, CommentsOf(data).items).threw ==>
      |ProcessBatch(ids, data, clock, liveId).ids| <= CAPACITY
  {
    var list := CommentsOf(data);
    if list.Comments? {
      var r := ScreenComments(ids, list.items);
      ScreenHistory(ContentGate, MessageId, ids, list.items);
      ScreenFresh(ContentGate, MessageId, ids, list.items);
      ScreenSubsequence(ContentGate, MessageId, Keep, ids, list.items);
      SubsequenceLength(r.kept, list.items);
      KeepNewerHalfFacts(r.history);
    }
  }

  /** The relayed messages are, in order, one per comment let through: some
      of the packet's comments, each with text, none with an id in the history
      or repeated within the packet. */
  lemma ProcessBatchRelays(ids: seq<string>, items: seq<Json>, clock: Option<Json> -> Option<LocalTime>,
                           liveId: Option<Json>)
    requires Distinct(ids)
    ensures var r := ScreenComments(ids, items);
      var out := ProcessBatch(ids, Some(JObj([("data", JObj([("comments", JArr(items))]))])), clock, liveId);
      && SubsequenceOf(r.kept, items)
      && (forall c :: c in r.kept ==> ContentGate(c) == Pass && MessageId(c) !in ids)
      && Distinct(Ids(MessageId, r.kept))
      && (items != [] && !r.threw ==> out.sent == CommentMessages(r.kept, ContentRecordOf(clock, liveId)))
      && (r.threw ==> out.sent == [])
  {
    ScreenSubsequence(ContentGate, MessageId, Keep, ids, items);
    ScreenKeptPass(ContentGate, MessageId, Keep, ids, items);
    ScreenFresh(ContentGate, MessageId, ids, items);
    var data := Some(JObj([("data", JObj([("comments", JArr(items))]))]));
    var r := ScreenComments(ids, items);
    if items != [] {
      assert Member(Member(data, "data"), "comments") == Some(JArr(items));
      assert CommentsOf(data) == Comments(items);
      assert ProcessBatch(ids, data, clock, liveId).sent
        == (if r.threw then [] else CommentMessages(r.kept, ContentRecordOf(clock, liveId)));
    } else {
      assert !r.threw;
    }
  }

  /** Every relayed record names a sender (`'unknown'` at worst), carries the
      formatted time, a room id (`''` at worst), a user token (`'0'` at worst)
      and a user id (`''` at worst). */
  lemma ContentRecordFields(comment: Json, time: string, liveId: Option<Json>)
    ensures var rec := ContentRecord(comment, time, liveId);
      && Field(rec, "sender") == Or(Or(Field(comment, "tbNick"), Field(comment, "publisherNick")), Str("unknown"))
      && Field(rec, "sender").Some?
      && Field(rec, "time") == Str(time)
      && Field(rec, "liveId") == Or(liveId, Str("")) && Field(rec, "liveId").Some?
      && Field(rec, "userToken") == Or(Member(Field(comment, "renders"), "userToken"), Str("0"))
      && Field(rec, "userId") == Or(Field(comment, "userId"), Str(""))
      && Field(rec, "userToken").Some? && Field(rec, "userId").Some?
  {
    ContentReadBack(comment, time, liveId, 0);
    ContentReadBack(comment, time, liveId, 1);
    ContentReadBack(comment, time, liveId, 3);
    ContentReadBack(comment, time, liveId, 4);
    ContentReadBack(comment, time, liveId, 5);
  }

  /** The record of a comment let through carries its text trimmed. */
  lemma ContentRecordContent(comment: Json, time: string, liveId: Option<Json>)
    requires ContentGate(comment) == Pass
    ensures Field(ContentRecord(comment, time, liveId), "content") == Str(TrimmedContent(comment))
  {
    ContentReadBack(comment, time, liveId, 2);
  }

  /** The `i`-th member of the record reads back as written. */
  lemma ContentReadBack(comment: Json, time: string, liveId: Option<Json>, i: nat)
    requires i < 6
    ensures var m := ContentMembers(comment, time, liveId);
      Field(ContentRecord(comment, time, liveId), m[i].0) == m[i].1
  {
    ObjFieldReadBack(ContentMembers(comment, time, liveId), i);
  }
}
