/** The messages the scripts exchange. Every send is fire-and-forget: a handler's
    effect on other contexts is the list of messages it emits, in order. */
module Messages {

  import opened Wrappers
  import opened Json

  /** Payloads of `chrome.runtime.sendMessage`. */
  datatype Msg =
    | NewComment(data: Json)                          // {type: 'newComment', data}
    | LiveInfo(liveId: Json)                          // {type: 'liveInfo', data: {liveId}}
    | ApiUrl(url: Option<Json>)                       // {type: 'apiUrl', url}
    | ApiResponse(url: Option<Json>, response: Option<Json>)  // {type: 'apiResponse', data: {url, response}}; response is the packet before JSON.stringify
    | Relayed(message: Json)                          // a received message broadcast again unchanged

  /** Payloads of `window.postMessage` between the page and the content script. */
  datatype PageMsg =
    | NewComments(comments: seq<Json>)  // {type: 'newComments', data}
    | JsonpResponse(packet: Json)       // {type: 'JSONP_RESPONSE', data}

  /** A command sent to every open live-stream tab. */
  datatype TabCommand = TabCommand(tab: nat, command: Json)

  /** One `newComment` message per record, each built by `rec`, in order. */
  function CommentMessages(items: seq<Json>, rec: Json -> Json): (r: seq<Msg>)
    ensures |r| == |items|
    ensures forall i :: 0 <= i < |items| ==> r[i] == NewComment(rec(items[i]))
    decreases |items|
  {
    if items == [] then [] else CommentMessages(items[..|items| - 1], rec) + [NewComment(rec(items[|items| - 1]))]
  }

  /** A `forEach` sending one `newComment` message per record. */
  method SendComments(items: seq<Json>, rec: Json -> Json) returns (sent: seq<Msg>)
    ensures sent == CommentMessages(items, rec)
  {
    sent := [];
    var i := 0;
    while i < |items|
      invariant 0 <= i <= |items|
      invariant sent == CommentMessages(items[..i], rec)
    {
      assert items[..i + 1][..i] == items[..i];
      sent := sent + [NewComment(rec(items[i]))];
      i := i + 1;
    }
    assert items[..i] == items;
  }

  /** `{success: b}`. */
  function SuccessReply(b: bool): Json
  {
    JObj([("success", JBool(b))])
  }

  /** `{success: false, error}`. */
  function FailureReply(error: string): Json
  {
    JObj([("success", JBool(false)), ("error", JStr(error))])
  }

  /** `{status}` or `{status, error}`. */
  function StatusReply(status: string, error: Option<Json>): Json
  {
    if error.Some? then JObj([("status", JStr(status)), ("error", error.value)])
    else JObj([("status", JStr(status))])
  }

  /** `{type: t}` and `{action: a}` commands. */
  function TypeCommand(t: string): Json
  {
    JObj([("type", JStr(t))])
  }

  function ActionCommand(a: string): Json
  {
    JObj([("action", JStr(a))])
  }
}
