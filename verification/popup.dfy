/** The popup of the page-hook variant, popup.js: a capture toggle, and a feed
    of at most MAX_MESSAGES comments, newest first, that skips a comment whose
    id it has recorded. */
module Popup {

  import opened Wrappers
  import opened Json
  import opened Js
  import opened Seqs
  import opened Messages
  import opened Feed

  /** `maxMessages`. */
  const MAX_MESSAGES: nat := 100

  /** `${content}_${time}_${sender}` of a relayed record. */
  function PopupId(message: Json): string
  {
    ToJsString(Field(message, "content")) + "_" + ToJsString(Field(message, "time")) + "_"
    + ToJsString(Field(message, "sender"))
  }

  /** The id set after `cleanupOldMessages`: over twice MAX_MESSAGES ids, only
      the newest MAX_MESSAGES stay, in insertion order. */
  function TrimIds(ids: seq<string>): (r: seq<string>)
    ensures |ids| <= 2 * MAX_MESSAGES ==> r == ids
    ensures |ids| > 2 * MAX_MESSAGES ==> |r| == MAX_MESSAGES && r == ids[|ids| - MAX_MESSAGES..]
    ensures Distinct(ids) ==> Distinct(r)
  {
    if |ids| > 2 * MAX_MESSAGES then ids[|ids| - MAX_MESSAGES..] else ids
  }

  /** The displayed messages, newest first, are those of the newest ids, read
      backwards from the end of the id set. */
  ghost predicate Aligned(id: Json -> string, list: seq<Json>, ids: seq<string>)
  {
    && |list| <= |ids|
    && forall i :: 0 <= i < |list| ==> id(list[i]) == ids[|ids| - 1 - i]
  }

  /** The popup's state; the DOM list is the sequence `commentsList`. */
  class Popup {
    var isCapturing: bool
    var commentCount: nat
    var processedMessageIds: seq<string>
    var commentsList: seq<Json>

    ghost predicate Valid()
      reads this
    {
      && Distinct(processedMessageIds)
      && |processedMessageIds| <= 2 * MAX_MESSAGES
      && |commentsList| <= MAX_MESSAGES
      && Aligned(PopupId, commentsList, processedMessageIds)
    }

    constructor ()
      ensures Valid()
      ensures !isCapturing && commentCount == 0 && processedMessageIds == [] && commentsList == []
    {
      isCapturing := false;
      commentCount := 0;
      processedMessageIds := [];
      commentsList := [];
    }

    /** `cleanupOldMessages()`: drop the last rows beyond MAX_MESSAGES, then
        trim the id set. */
    method CleanupOldMessages()
      modifies this`commentsList, this`processedMessageIds
      ensures commentsList == Truncate(old(commentsList), MAX_MESSAGES)
      ensures processedMessageIds == TrimIds(old(processedMessageIds))
    {
      while |commentsList| > MAX_MESSAGES
        invariant commentsList == old(commentsList)[..|commentsList|]
        invariant |commentsList| >= MAX_MESSAGES || commentsList == old(commentsList)
        invariant processedMessageIds == old(processedMessageIds)
        decreases |commentsList|
      {
        commentsList := commentsList[..|commentsList| - 1];
      }
      if |processedMessageIds| > 2 * MAX_MESSAGES {
        processedMessageIds := processedMessageIds[|processedMessageIds| - MAX_MESSAGES..];
      }
    }

    /** `addMessageToList(message)`: a message whose id is recorded changes
        nothing; otherwise its id is recorded and it goes to the top. */
    method AddMessageToList(message: Json)
      requires Valid()
      modifies this`commentsList, this`processedMessageIds
      ensures Valid()
      ensures PopupId(message) in old(processedMessageIds) ==>
        commentsList == old(commentsList) && processedMessageIds == old(processedMessageIds)
      ensures PopupId(message) !in old(processedMessageIds) ==>
        && commentsList == Truncate([message] + old(commentsList), MAX_MESSAGES)
        && processedMessageIds == TrimIds(old(processedMessageIds) + [PopupId(message)])
    {
      var id := PopupId(message);
      if id in processedMessageIds {
        return;
      }
      processedMessageIds := processedMessageIds + [id];
      commentsList := [message] + commentsList;
      CleanupOldMessages();
      AddKeepsAligned(PopupId, message, old(commentsList), old(processedMessageIds));
    }

    /** `clearMessageList()`. */
    method ClearMessageList()
      modifies this`commentsList, this`processedMessageIds
      ensures Valid()
      ensures commentsList == [] && processedMessageIds == []
    {
      commentsList := [];
      processedMessageIds := [];
    }

    /** A click on the capture button, with the reply `response` that the
        background sends back (undefined when none came). `response.status` on
        an undefined or null reply throws, which the `catch` swallows. */
    method Toggle(response: Option<Json>) returns (command: Json)
      requires Valid()
      modifies this`isCapturing, this`commentsList, this`processedMessageIds
      ensures Valid()
      ensures command == TypeCommand(if old(isCapturing) then "stopCapture" else "startCapture")
      ensures var ok := response.Some? && Field(response.value, "status") == Str("success");
        isCapturing == (if ok then !old(isCapturing) else old(isCapturing))
      ensures var ok := response.Some? && Field(response.value, "status") == Str("success");
        if ok && !old(isCapturing) then commentsList == [] && processedMessageIds == []
        else commentsList == old(commentsList) && processedMessageIds == old(processedMessageIds)
    {
      command := TypeCommand(if isCapturing then "stopCapture" else "startCapture");
      var ok := response.Some? && Field(response.value, "status") == Str("success");
      if !ok {
        return;
      }
      if !isCapturing {
        isCapturing := true;
        ClearMessageList();
      } else {
        isCapturing := false;
      }
    }

    /** A runtime message. A `newComment` counts only while capturing, and it
        counts even when its id is recorded and nothing is shown; one without
        `data` throws in `generateMessageId` before the count. Other messages
        only change page text. */
    method OnRuntimeMessage(message: Json)
      requires Valid()
      modifies this`commentsList, this`processedMessageIds, this`commentCount
      ensures Valid()
      ensures var data := Field(message, "data");
        if Field(message, "type") == Str("newComment") && isCapturing && data.Some? && !data.value.JNull? then
          && commentCount == old(commentCount) + 1
          && (PopupId(data.value) in old(processedMessageIds) ==>
                commentsList == old(commentsList) && processedMessageIds == old(processedMessageIds))
          && (PopupId(data.value) !in old(processedMessageIds) ==>
                && commentsList == Truncate([data.value] + old(commentsList), MAX_MESSAGES)
                && processedMessageIds == TrimIds(old(processedMessageIds) + [PopupId(data.value)]))
        else
          commentCount == old(commentCount) && commentsList == old(commentsList)
          && processedMessageIds == old(processedMessageIds)
    {
      if Field(message, "type") == Str("newComment") {
        if !isCapturing {
          return;
        }
        var data := Field(message, "data");
        if data.None? || data.value.JNull? {
          return;
        }
        AddMessageToList(data.value);
        commentCount := commentCount + 1;
      }
    }

    /** Restoring the capture flag from storage when it is truthy. */
    method RestoreCapturing(stored: Option<Json>)
      modifies this`isCapturing
      ensures isCapturing == (old(isCapturing) || Truthy(stored))
    {
      if Truthy(stored) {
        isCapturing := true;
      }
    }
  }

  /** No message is displayed twice: the ids of the rows are pairwise
      distinct, since each is a distinct recorded id. */
  lemma DisplayedOnce(id: Json -> string, list: seq<Json>, ids: seq<string>)
    requires Distinct(ids) && Aligned(id, list, ids)
    ensures forall i, j :: 0 <= i < j < |list| ==> id(list[i]) != id(list[j])
  {
    forall i, j | 0 <= i < j < |list| ensures id(list[i]) != id(list[j]) {
      assert id(list[i]) == ids[|ids| - 1 - i];
      assert id(list[j]) == ids[|ids| - 1 - j];
    }
  }

  /** Adding a message with a new id and cleaning up keeps the rows aligned
      with the newest ids. */
  lemma AddKeepsAligned(id: Json -> string, message: Json, list: seq<Json>, ids: seq<string>)
    requires Aligned(id, list, ids) && |list| <= MAX_MESSAGES
    ensures Aligned(id, Truncate([message] + list, MAX_MESSAGES), TrimIds(ids + [id(message)]))
  {
    var ids1 := ids + [id(message)];
    var list1 := [message] + list;
    assert Aligned(id, list1, ids1) by {
      forall i | 0 <= i < |list1| ensures id(list1[i]) == ids1[|ids1| - 1 - i] {
        if i > 0 {
          assert list1[i] == list[i - 1];
        }
      }
    }
  }
}
