/** The page script of the live-console variant, tblive/inject.js: it receives
    each JSONP comment packet, drops a packet equal to the previous one, screens
    the comments against its id history and posts the packet again, reduced to
    the new comments, to the content script. */
module LiveInject {

  import opened Wrappers
  import opened Json
  import opened Js
  import opened Seqs
  import opened Fingerprints
  import opened Messages
  import opened CommentScreen

  /** `{...packet, data: {...packet.data, comments: kept}}`: the packet with its
      comment list replaced, every other member where it was. */
  function Repacked(packet: Json, kept: seq<Json>): (r: Json)
    requires packet.JObj? && Field(packet, "data").Some? && Field(packet, "data").value.JObj?
    ensures r.JObj?
    ensures forall k :: k != "data" ==> Field(r, k) == Field(packet, k)
    ensures Field(r, "data").Some? && Field(r, "data").value.JObj?
    ensures forall k :: k != "comments" ==> Member(Field(r, "data"), k) == Member(Field(packet, "data"), k)
    ensures Member(Field(r, "data"), "comments") == Some(JArr(kept))
  {
    var inner := Field(packet, "data").value;
    JObj(SetField(packet.fields, "data", JObj(SetField(inner.fields, "comments", JArr(kept)))))
  }

  /** A packet whose comments all survive is posted exactly as it came. */
  lemma RepackedAllKept(packet: Json, items: seq<Json>)
    requires packet.JObj? && Field(packet, "data").Some? && Field(packet, "data").value.JObj?
    requires Member(Field(packet, "data"), "comments") == Some(JArr(items))
    ensures Repacked(packet, items) == packet
  {
    var inner := Field(packet, "data").value;
    SetFieldSame(inner.fields, "comments", JArr(items));
    SetFieldSame(packet.fields, "data", inner);
  }

  /** The id history and the comments to forward that one packet leaves. */
  datatype Relay = Relay(ids: seq<string>, kept: seq<Json>)

  /** The `try` block of `__processJSONPResponse` on `data.data.comments`: an
      array is screened; when nothing threw its new comments are forwarded and
      the history is cleaned up; a throw lands in the `catch`, keeping the ids
      recorded so far and forwarding nothing. A value that is not an array has
      no `forEach` and throws at once. */
  function RelayBatch(ids: seq<string>, comments: Json): Relay
  {
    match comments
    case JArr(items) =>
      var r := ScreenComments(ids, items);
      if r.threw then Relay(r.history, []) else Relay(KeepNewerHalf(r.history), r.kept)
    case _ => Relay(ids, [])
  }

  /** `window.__TAOBAO_LIVE_HELPER__`. */
  class LiveInject {
    var lastProcessedData: Json
    var processedMessages: seq<string>
    var isProcessing: bool

    ghost predicate Valid()
      reads this
    {
      Distinct(processedMessages)
    }

    constructor ()
      ensures Valid()
      ensures lastProcessedData == JNull && processedMessages == [] && !isProcessing
    {
      lastProcessedData := JNull;
      processedMessages := [];
      isProcessing := false;
    }

    /** `cleanupProcessedMessages()`. */
    method CleanupProcessedMessages()
      requires Valid()
      modifies this`processedMessages
      ensures Valid()
      ensures processedMessages == KeepNewerHalf(old(processedMessages))
    {
      KeepNewerHalfFacts(processedMessages);
      processedMessages := KeepNewerHalf(processedMessages);
    }

    /** `isDataDuplicate(data)`: the first packet is stored; a later one is a
        duplicate exactly when it equals the stored one, and otherwise replaces
        it. Equality of `JSON.stringify` renderings is equality of values. */
    method IsDataDuplicate(data: Json) returns (dup: bool)
      modifies this`lastProcessedData
      ensures dup <==> Truthy(Some(old(lastProcessedData))) && data == old(lastProcessedData)
      ensures dup ==> lastProcessedData == old(lastProcessedData)
      ensures lastProcessedData == data
    {
      if !Truthy(Some(lastProcessedData)) {
        lastProcessedData := data;
        return false;
      }
      dup := data == lastProcessedData;
      if !dup {
        lastProcessedData := data;
      }
    }

    /** `__processJSONPResponse(data)`: the packet posted to the content
        script, if any. */
    method ProcessJsonpResponse(data: Option<Json>) returns (posted: Option<PageMsg>)
      requires Valid()
      modifies this`lastProcessedData, this`processedMessages, this`isProcessing
      ensures Valid()
      ensures isProcessing == old(isProcessing)
      ensures old(isProcessing) || !PacketGate(data) ==>
        posted == None && lastProcessedData == old(lastProcessedData)
        && processedMessages == old(processedMessages)
      ensures !old(isProcessing) && PacketGate(data) ==> lastProcessedData == data.value
      ensures !old(isProcessing) && PacketGate(data) && Truthy(Some(old(lastProcessedData)))
              && data.value == old(lastProcessedData) ==>
        posted == None && processedMessages == old(processedMessages)
      ensures !old(isProcessing) && PacketGate(data)
              && !(Truthy(Some(old(lastProcessedData))) && data.value == old(lastProcessedData)) ==>
        var rel := RelayBatch(old(processedMessages), PacketComments(data));
        && processedMessages == rel.ids
        && posted == (if rel.kept != [] then Some(JsonpResponse(Repacked(data.value, rel.kept))) else None)
    {
      posted := None;
      if isProcessing {
        return;
      }
      if !PacketGate(data) {
        return;
      }
      var dup := IsDataDuplicate(data.value);
      if dup {
        return;
      }
      isProcessing := true;
      posted := Forward(data.value);
      isProcessing := false;
    }

    /** The `try` block once the packet is accepted. */
    method Forward(packet: Json) returns (posted: Option<PageMsg>)
      requires Valid() && PacketGate(Some(packet))
      modifies this`processedMessages
      ensures Valid()
      ensures var rel := RelayBatch(old(processedMessages), PacketComments(Some(packet)));
        && processedMessages == rel.ids
        && posted == (if rel.kept != [] then Some(JsonpResponse(Repacked(packet, rel.kept))) else None)
    {
      posted := None;
      var comments := PacketComments(Some(packet));
      if comments.JArr? {
        ghost var ids := processedMessages;
        var kept, newHistory, threw := ScreenBatch(processedMessages, comments.items);
        assert Distinct(newHistory) by {
          ScreenFresh(ContentGate, MessageId, ids, comments.items);
        }
        processedMessages := newHistory;
        if !threw {
          if kept != [] {
            posted := Some(JsonpResponse(Repacked(packet, kept)));
          }
          CleanupProcessedMessages();
        }
      }
    }
  }

  /** The checks before the duplicate test: `data`, `data.data` and
      `data.data.comments` all truthy. */
  predicate PacketGate(data: Option<Json>)
  {
    Truthy(data) && Truthy(Member(data, "data")) && Truthy(Member(Member(data, "data"), "comments"))
  }

  /** `data.data.comments` of a packet that passed the gate. */
  function PacketComments(data: Option<Json>): (r: Json)
    requires PacketGate(data)
    ensures Member(Member(data, "data"), "comments") == Some(r)
  {
    Member(Member(data, "data"), "comments").value
  }

  /** The comments forwarded are, in order, some of the packet's comments, each
      with text, none with an id in the history or repeated within the packet;
      and every comment with text that did not throw has its id in the history
      before the cleanup. */
  lemma RelayBatchForwards(ids: seq<string>, items: seq<Json>)
    requires Distinct(ids)
    ensures var r := ScreenComments(ids, items);
      && RelayBatch(ids, JArr(items)).kept == (if r.threw then [] else r.kept)
      && SubsequenceOf(r.kept, items)
      && (forall c :: c in r.kept ==> ContentGate(c) == Pass && MessageId(c) !in ids)
      && Distinct(Ids(MessageId, r.kept))
      && (!r.threw ==> forall c :: c in items && ContentGate(c) == Pass ==> MessageId(c) in r.history)
  {
    ScreenSubsequence(ContentGate, MessageId, Keep, ids, items);
    ScreenKeptPass(ContentGate, MessageId, Keep, ids, items);
    ScreenFresh(ContentGate, MessageId, ids, items);
    if !ScreenComments(ids, items).threw {
      ScreenRecordsAll(ContentGate, MessageId, ids, items);
    }
  }

  /** A history within CAPACITY stays within it after a packet of at most
      CAPACITY comments that did not throw; it never holds an id twice. */
  lemma {:induction false} RelayBatchBounded(ids: seq<string>, comments: Json)
    requires |ids| <= CAPACITY && Distinct(ids)
    requires comments.JArr? ==> |comments.items| <= CAPACITY
    ensures Distinct(RelayBatch(ids, comments).ids)
    ensures comments.JArr? && !ScreenComments(ids, comments.items).threw ==>
      |RelayBatch(ids, comments).ids| <= CAPACITY
  {
    if comments.JArr? {
      var r := ScreenComments(ids, comments.items);
      ScreenHistory(ContentGate, MessageId, ids, comments.items);
      ScreenFresh(ContentGate, MessageId, ids, comments.items);
      ScreenSubsequence(ContentGate, MessageId, Keep, ids, comments.items);
      SubsequenceLength(r.kept, comments.items);
      KeepNewerHalfFacts(r.history);
    }
  }

  /** Handing the same packet over twice in a row: the second call posts
      nothing and changes no history. */
  method RepeatedPacketIgnored(page: LiveInject, data: Option<Json>) returns (first: Option<PageMsg>, second: Option<PageMsg>)
    requires page.Valid() && !page.isProcessing
    modifies page
    ensures page.Valid()
    ensures second == None
  {
    first := page.ProcessJsonpResponse(data);
    ghost var ids := page.processedMessages;
    second := page.ProcessJsonpResponse(data);
    assert page.processedMessages == ids;
  }
}
