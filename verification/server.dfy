/** The receiver of the page-hook variant, tb_server.py: `process_message`
    validates one parsed WebSocket message, fills in defaults, formats a log
    line and appends a record to the bounded queue. */
module TbServer {

  import opened Wrappers
  import opened Json
  import opened Js
  import opened DanmuQueue
  import LiveBackgroundScript

  /** What `process_message` returns: `None`, `True` or `False`. */
  datatype Reply = ReturnsNone | ReturnsTrue | ReturnsFalse

  /** The outcome of one message: ignored (`None`), a record to append
      (`True`), or an exception (`False`). */
  datatype Verdict = Ignored | Enqueued(danmu: Json) | Failed

  /** `f"[{time}] {sender} [{user_token}]\n{content}"` over the `str()` of
      each value. */
  function Formatted(time: string, sender: string, userToken: string, content: string): string
  {
    "[" + time + "] " + sender + " [" + userToken + "]\n" + content
  }

  /** The members of the record appended for a message dict, each field
      taken with its default; `pyStr` is Python's `str()`. */
  function DanmuMembers(message: Json, pyStr: Json -> string): seq<(string, Option<Json>)>
    requires message.JObj?
  {
    var content := PyGet(message, "content", JStr(""));
    var sender := PyGet(message, "nickname", JStr("unknown"));
    var time := PyGet(message, "time", JStr(""));
    var userToken := PyGet(message, "userToken", JStr(""));
    var liveId := PyGet(message, "liveId", JStr(""));
    [("user", Some(sender)), ("content", Some(content)), ("time", Some(time)), ("live_id", Some(liveId)),
     ("user_token", Some(userToken)),
     ("formatted", Some(JStr(Formatted(pyStr(time), pyStr(sender), pyStr(userToken), pyStr(content)))))]
  }

  /** The record `danmu` built for a message dict. */
  function DanmuOf(message: Json, pyStr: Json -> string): Json
    requires message.JObj?
  {
    Obj(DanmuMembers(message, pyStr))
  }

  /** `process_message` on the result of `json.loads` (None when decoding
      failed). A truthy `data` that is not a dict has no `get`, which raises. */
  function Interpret(parsed: Option<Json>, pyStr: Json -> string): (v: Verdict)
    ensures v.Enqueued? <==>
      && parsed.Some? && parsed.value.JObj? && Field(parsed.value, "type") == Str("danmu")
      && PyGet(parsed.value, "data", JObj([])).JObj? && PyGet(parsed.value, "data", JObj([])).fields != []
    ensures v.Failed? <==>
      || parsed.None?
      || (&& parsed.value.JObj? && Field(parsed.value, "type") == Str("danmu")
          && PyTruthy(PyGet(parsed.value, "data", JObj([]))) && !PyGet(parsed.value, "data", JObj([])).JObj?)
  {
    if parsed.None? then Failed
    else
      var data := parsed.value;
      if !data.JObj? then Ignored
      else if Field(data, "type") != Str("danmu") then Ignored
      else
        var message := PyGet(data, "data", JObj([]));
        if !PyTruthy(message) then Ignored
        else if !message.JObj? then Failed
        else Enqueued(DanmuOf(message, pyStr))
  }

  /** The Python value returned for a verdict. */
  function ReplyOf(v: Verdict): Reply
  {
    match v
    case Ignored => ReturnsNone
    case Enqueued(_) => ReturnsTrue
    case Failed => ReturnsFalse
  }

  /** `process_message(message_data)` against the module-level queue. */
  method ProcessMessage(parsed: Option<Json>, pyStr: Json -> string, queue: Deque) returns (reply: Reply)
    requires queue.Valid()
    modifies queue
    ensures queue.Valid()
    ensures reply == ReplyOf(Interpret(parsed, pyStr))
    ensures Interpret(parsed, pyStr).Enqueued? ==>
      queue.items == Push(old(queue.items), Interpret(parsed, pyStr).danmu)
    ensures !Interpret(parsed, pyStr).Enqueued? ==> queue.items == old(queue.items)
  {
    var v := Interpret(parsed, pyStr);
    if v.Enqueued? {
      queue.Append(v.danmu);
    }
    reply := ReplyOf(v);
  }

  /** Every field of the record is the message's value, or its default when
      the key is absent. */
  lemma DanmuOfFields(message: Json, pyStr: Json -> string)
    requires message.JObj?
    ensures var d := DanmuOf(message, pyStr);
      && Field(d, "user") == Some(if Field(message, "nickname").Some? then Field(message, "nickname").value else JStr("unknown"))
      && Field(d, "content") == Some(if Field(message, "content").Some? then Field(message, "content").value else JStr(""))
      && Field(d, "time") == Some(if Field(message, "time").Some? then Field(message, "time").value else JStr(""))
      && Field(d, "live_id") == Some(if Field(message, "liveId").Some? then Field(message, "liveId").value else JStr(""))
      && Field(d, "user_token") == Some(if Field(message, "userToken").Some? then Field(message, "userToken").value else JStr(""))
  {
    DanmuMemberReadBack(message, pyStr, 0);
    DanmuMemberReadBack(message, pyStr, 1);
    DanmuMemberReadBack(message, pyStr, 2);
    DanmuMemberReadBack(message, pyStr, 3);
    DanmuMemberReadBack(message, pyStr, 4);
  }

  /** The `i`-th member of the record reads back as written. */
  lemma DanmuMemberReadBack(message: Json, pyStr: Json -> string, i: nat)
    requires message.JObj? && i < 6
    ensures var m := DanmuMembers(message, pyStr);
      Field(DanmuOf(message, pyStr), m[i].0) == m[i].1
  {
    ObjFieldReadBack(DanmuMembers(message, pyStr), i);
  }

  /** The log line is stored under `formatted`, built from the `str()` of the
      stored time, sender, token and content. */
  lemma DanmuOfFormatted(message: Json, pyStr: Json -> string)
    requires message.JObj?
    ensures var d := DanmuOf(message, pyStr);
      Field(d, "formatted") == Some(JStr(Formatted(pyStr(PyGet(message, "time", JStr(""))),
        pyStr(PyGet(message, "nickname", JStr("unknown"))), pyStr(PyGet(message, "userToken", JStr(""))),
        pyStr(PyGet(message, "content", JStr(""))))))
  {
    var m := DanmuMembers(message, pyStr);
    ObjFieldReadBack(m, 5);
  }

  /** Where none of the sender, time and token renderings holds a line break,
      the text after the first line break of the log line is the content. */
  lemma FormattedContentAfterFirstLine(time: string, sender: string, userToken: string, content: string)
    requires '\n' !in time && '\n' !in sender && '\n' !in userToken
    ensures var f := Formatted(time, sender, userToken, content);
      var k := |time| + |sender| + |userToken| + 6;
      && f[k] == '\n' && (forall j :: 0 <= j < k ==> f[j] != '\n')
      && f[k + 1..] == content
  {
    var f := Formatted(time, sender, userToken, content);
    var head := "[" + time + "] " + sender + " [" + userToken + "]";
    assert f == head + "\n" + content;
    assert |head| == |time| + |sender| + |userToken| + 6;
    forall j | 0 <= j < |head| ensures f[j] != '\n' {
      assert f[j] == head[j];
      if 1 <= j < 1 + |time| {
        assert head[j] == time[j - 1];
      } else if 3 + |time| <= j < 3 + |time| + |sender| {
        assert head[j] == sender[j - 3 - |time|];
      } else if 5 + |time| + |sender| <= j < 5 + |time| + |sender| + |userToken| {
        assert head[j] == userToken[j - 5 - |time| - |sender|];
      }
    }
  }

  /** A frame of the live-console background is stored exactly when it
      carries at least one defined field: an all-undefined frame arrives with
      an empty `data`, which is falsy, and is ignored. The stored sender is
      the record's `sender`, `'unknown'` when it had none. */
  lemma DanmuFrameStored(record: Json, pyStr: Json -> string)
    ensures var v := Interpret(Some(LiveBackgroundScript.DanmuFrame(record)), pyStr);
      && (v.Enqueued? <==> LiveBackgroundScript.DanmuData(record).fields != [])
      && (v.Ignored? <==> LiveBackgroundScript.DanmuData(record).fields == [])
      && (v.Enqueued? ==>
            Field(v.danmu, "user") == Some(if Field(record, "sender").Some? then Field(record, "sender").value else JStr("unknown")))
  {
    var frame := LiveBackgroundScript.DanmuFrame(record);
    var data := LiveBackgroundScript.DanmuData(record);
    LiveBackgroundScript.DanmuFrameShape(record);
    assert PyGet(frame, "data", JObj([])) == data;
    var v := Interpret(Some(frame), pyStr);
    if data.fields != [] {
      assert v == Enqueued(DanmuOf(data, pyStr));
      DanmuMemberReadBack(data, pyStr, 0);
      LiveBackgroundScript.DanmuDataReadBack(record, 1);
    } else {
      assert v == Ignored;
    }
  }
}
