/** The popup of the live-console variant, tblive/popup.js: a capture toggle
    and a feed of at most MAX_COMMENTS comments, newest first, without any
    deduplication, saved on stop and restored when the popup opens. */
module LivePopup {

  import opened Wrappers
  import opened Json
  import opened Js
  import opened Messages
  import opened Feed

  /** `maxComments`. */
  const MAX_COMMENTS: nat := 1000

  /** The popup's state; the DOM list is the sequence `commentsList`. */
  class LivePopup {
    var isCapturing: bool
    var commentsList: seq<Json>

    constructor ()
      ensures !isCapturing && commentsList == []
    {
      isCapturing := false;
      commentsList := [];
    }

    /** `addComment(comment)`: the comment goes to the top, then rows beyond
        MAX_COMMENTS are removed from the bottom. */
    method AddComment(comment: Json)
      modifies this`commentsList
      ensures commentsList == Truncate([comment] + old(commentsList), MAX_COMMENTS)
    {
      commentsList := [comment] + commentsList;
      while |commentsList| > MAX_COMMENTS
        invariant commentsList == ([comment] + old(commentsList))[..|commentsList|]
        invariant |commentsList| >= MAX_COMMENTS || commentsList == [comment] + old(commentsList)
        decreases |commentsList|
      {
        commentsList := commentsList[..|commentsList| - 1];
      }
    }

    /** `clearAllData()`, once confirmed: the list is emptied (the stored copy
        is cleared too). */
    method ClearAllData()
      modifies this`commentsList
      ensures commentsList == []
    {
      commentsList := [];
    }

    /** A click on the capture button, with the reply `response` that the
        background sends back (undefined when none came). The flag flips only
        on a truthy reply whose `success` is truthy; a successful stop also
        saves the list, returned as `saved`. */
    method Toggle(response: Option<Json>) returns (command: Json, saved: Option<seq<Json>>)
      modifies this`isCapturing
      ensures command == ActionCommand(if old(isCapturing) then "stopCapture" else "startCapture")
      ensures var ok := Truthy(response) && Truthy(Member(response, "success"));
        && isCapturing == (if ok then !old(isCapturing) else old(isCapturing))
        && saved == (if ok && old(isCapturing) then Some(commentsList) else None)
    {
      command := ActionCommand(if isCapturing then "stopCapture" else "startCapture");
      saved := None;
      if Truthy(response) && Truthy(Member(response, "success")) {
        if isCapturing {
          isCapturing := false;
          saved := Some(commentsList);
        } else {
          isCapturing := true;
        }
      }
    }

    /** A runtime message: only a `newComment` with truthy `data` changes the
        list; the other kinds only change page text. */
    method OnRuntimeMessage(message: Json)
      modifies this`commentsList
      ensures Field(message, "type") == Str("newComment") && Truthy(Field(message, "data")) ==>
        commentsList == Truncate([Field(message, "data").value] + old(commentsList), MAX_COMMENTS)
      ensures !(Field(message, "type") == Str("newComment") && Truthy(Field(message, "data"))) ==>
        commentsList == old(commentsList)
    {
      if Field(message, "type") == Str("newComment") && Truthy(Field(message, "data")) {
        AddComment(Field(message, "data").value);
      }
    }

    /** Restoring the saved rows: they are appended in reverse of their saved
        order, below any rows already shown, with no bound applied. */
    method RestoreSaved(saved: seq<Json>)
      modifies this`commentsList
      ensures commentsList == old(commentsList) + Reverse(saved)
    {
      var i := |saved|;
      while i > 0
        invariant 0 <= i <= |saved|
        invariant commentsList == old(commentsList) + Reverse(saved[i..])
        decreases i
      {
        assert saved[i - 1..] == [saved[i - 1]] + saved[i..];
        assert Reverse(saved[i - 1..]) == Reverse(saved[i..]) + [saved[i - 1]];
        commentsList := commentsList + [saved[i - 1]];
        i := i - 1;
      }
    }
  }
}
