/** The receiver of the live-console variant, tblive/tb_server.py: its
    `process_message` stores every `danmu` message whose `data` is a dict,
    empty or not, with four fields and no log line. */
module LiveTbServer {

  import opened Wrappers
  import opened Json
  import opened Js
  import opened DanmuQueue
  import LiveBackgroundScript
  import TbServer

  /** The members of the record appended for a `data` dict, each field taken
      with its default. */
  function RecordMembers(data: Json): seq<(string, Option<Json>)>
    requires data.JObj?
  {
    [("user", Some(PyGet(data, "nickname", JStr("unknown")))),
     ("content", Some(PyGet(data, "content", JStr("")))),
     ("time", Some(PyGet(data, "time", JStr("")))),
     ("live_id", Some(PyGet(data, "liveId", JStr(""))))]
  }

  /** The record `danmu` built for a `data` dict. */
  function RecordOf(data: Json): Json
    requires data.JObj?
  {
    Obj(RecordMembers(data))
  }

  /** `process_message` on the result of `json.loads` (None when decoding
      failed): the record to append, or None when it returns False. A top
      level or a `data` that is not a dict has no `get`, which raises. */
  function Interpret(parsed: Option<Json>): (r: Option<Json>)
    ensures r.Some? <==>
      && parsed.Some? && parsed.value.JObj? && Field(parsed.value, "type") == Str("danmu")
      && PyGet(parsed.value, "data", JObj([])).JObj?
  {
    if parsed.None? || !parsed.value.JObj? then None
    else
      var message := parsed.value;
      if Field(message, "type") != Str("danmu") then None
      else
        var data := PyGet(message, "data", JObj([]));
        if !data.JObj? then None
        else Some(RecordOf(data))
  }

  /** `process_message(message_data)` against the module-level queue: True
      exactly when a record was appended. */
  method ProcessMessage(parsed: Option<Json>, queue: Deque) returns (ok: bool)
    requires queue.Valid()
    modifies queue
    ensures queue.Valid()
    ensures ok == Interpret(parsed).Some?
    ensures ok ==> queue.items == Push(old(queue.items), Interpret(parsed).value)
    ensures !ok ==> queue.items == old(queue.items)
  {
    var r := Interpret(parsed);
    if r.None? {
      return false;
    }
    queue.Append(r.value);
    return true;
  }

  /** Every field of the record is the value of `data`, or its default when
      the key is absent; the user token is not stored. */
  lemma RecordFields(data: Json)
    requires data.JObj?
    ensures var d := RecordOf(data);
      && Field(d, "user") == Some(if Field(data, "nickname").Some? then Field(data, "nickname").value else JStr("unknown"))
      && Field(d, "content") == Some(if Field(data, "content").Some? then Field(data, "content").value else JStr(""))
      && Field(d, "time") == Some(if Field(data, "time").Some? then Field(data, "time").value else JStr(""))
      && Field(d, "live_id") == Some(if Field(data, "liveId").Some? then Field(data, "liveId").value else JStr(""))
      && Field(d, "user_token") == None
  {
    var d := RecordOf(data);
    RecordReadBack(data, 0);
    assert Field(d, "user") == Some(PyGet(data, "nickname", JStr("unknown")));
    RecordReadBack(data, 1);
    assert Field(d, "content") == Some(PyGet(data, "content", JStr("")));
    RecordReadBack(data, 2);
    assert Field(d, "time") == Some(PyGet(data, "time", JStr("")));
    RecordReadBack(data, 3);
    assert Field(d, "live_id") == Some(PyGet(data, "liveId", JStr("")));
    RecordHasNoToken(data);
  }

  /** Every frame of the live-console background is stored, the empty one
      included, with its sender as the user (`'unknown'` when it had none). */
  lemma DanmuFrameStored(record: Json)
    ensures var r := Interpret(Some(LiveBackgroundScript.DanmuFrame(record)));
      && r.Some?
      && Field(r.value, "user") == Some(if Field(record, "sender").Some? then Field(record, "sender").value else JStr("unknown"))
      && Field(r.value, "content") == Some(if Field(record, "content").Some? then Field(record, "content").value else JStr(""))
  {
    var frame := LiveBackgroundScript.DanmuFrame(record);
    var data := LiveBackgroundScript.DanmuData(record);
    LiveBackgroundScript.DanmuFrameFields(record);
    assert frame.JObj? && data.JObj?;
    assert PyGet(frame, "data", JObj([])) == data;
    assert Interpret(Some(frame)) == Some(RecordOf(data));
    RecordFields(data);
  }

  /** The two receivers store the same user, content, time and live id for a
      message both store; the page-hook receiver stores fewer messages, since
      it ignores an empty `data` that this one stores. */
  lemma ReceiversAgree(parsed: Option<Json>, pyStr: Json -> string)
    ensures TbServer.Interpret(parsed, pyStr).Enqueued? ==> Interpret(parsed).Some?
    ensures TbServer.Interpret(parsed, pyStr).Enqueued? ==>
      var a := TbServer.Interpret(parsed, pyStr).danmu;
      var b := Interpret(parsed).value;
      && Field(a, "user") == Field(b, "user") && Field(a, "content") == Field(b, "content")
      && Field(a, "time") == Field(b, "time") && Field(a, "live_id") == Field(b, "live_id")
  {
    if TbServer.Interpret(parsed, pyStr).Enqueued? {
      var data := PyGet(parsed.value, "data", JObj([]));
      assert TbServer.Interpret(parsed, pyStr).danmu == TbServer.DanmuOf(data, pyStr);
      assert Interpret(parsed).value == RecordOf(data);
      TbServer.DanmuOfFields(data, pyStr);
      RecordFields(data);
    }
  }

  /** The `i`-th member of the record reads back as written. */
  lemma RecordReadBack(data: Json, i: nat)
    requires data.JObj? && i < 4
    ensures var m := RecordMembers(data);
      Field(RecordOf(data), m[i].0) == m[i].1
  {
    ObjFieldReadBack(RecordMembers(data), i);
  }

  /** No member of the record is named `user_token`. */
  lemma RecordHasNoToken(data: Json)
    requires data.JObj?
    ensures Field(RecordOf(data), "user_token") == None
  {
    var m := RecordMembers(data);
    forall j | 0 <= j < |m| ensures m[j].0 != "user_token" {
      assert |m[j].0| < |"user_token"|;
    }
    FirstDefinedAbsent(m, "user_token");
  }
}
