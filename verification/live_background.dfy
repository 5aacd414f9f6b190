/** The service worker of the WebSocket variant, tblive/background.js. Its
    request listener (lines 1-228) is that of background.js, held here as an
    embedded BackgroundScript.Background whose capture flag nothing ever sets.
    Its own part (lines 230-472) deduplicates `newComment` messages, forwards
    them to the popup and to a local WebSocket server, and keeps that socket
    connected with at most MAX_RECONNECT_ATTEMPTS retries. */
module LiveBackgroundScript {

  import opened Wrappers
  import opened Json
  import opened Js
  import opened Seqs
  import opened Fingerprints
  import opened Messages
  import BackgroundScript

  /** Retries allowed after a close before the connection is given up. */
  const MAX_RECONNECT_ATTEMPTS: nat := 3

  /** Reply to a `newComment` while the connection is given up. */
  const DISABLED_ERROR: string := "WebSocket连接已禁用，请重新开始捕获"

  /** Reply to `startCapture` when no live-stream tab is open. */
  const NO_TAB_ERROR: string := "请先打开淘宝直播页面"

  /** `WebSocket.readyState`. */
  datatype ReadyState = Connecting | Open | Closing | Closed

  /** A socket that is connecting or open. */
  predicate Live(s: ReadyState)
  {
    s == Connecting || s == Open
  }

  /** What `chrome.tabs.query` delivers: the matching tabs, or the rejection's
      message. */
  datatype TabsResult = Tabs(ids: seq<nat>) | QueryFailed(message: string)

  /** `${content}_${time}_${sender}_${userToken}` over a relayed record. */
  function GenerateMessageId(message: Json): string
  {
    ToJsString(Field(message, "content")) + "_" + ToJsString(Field(message, "time")) + "_"
    + ToJsString(Field(message, "sender")) + "_" + ToJsString(Field(message, "userToken"))
  }

  /** The wire message for the local server, before `JSON.stringify`. */
  function DanmuFrame(message: Json): Json
  {
    Obj([("type", Str("danmu")), ("data", Some(DanmuData(message)))])
  }

  function DanmuData(message: Json): Json
  {
    Obj(DanmuMembers(message))
  }

  function DanmuMembers(message: Json): seq<(string, Option<Json>)>
  {
    [("content", Field(message, "content")),
     ("nickname", Field(message, "sender")),
     ("time", Field(message, "time")),
     ("liveId", Field(message, "liveId")),
     ("userToken", Field(message, "userToken"))]
  }

  /** The frame is an object of type `danmu` whose `data` is the record's
      data object. */
  lemma DanmuFrameShape(message: Json)
    ensures var frame := DanmuFrame(message);
      && frame.JObj? && DanmuData(message).JObj?
      && Field(frame, "type") == Str("danmu")
      && Field(frame, "data") == Some(DanmuData(message))
  {
    var top := [("type", Str("danmu")), ("data", Some(DanmuData(message)))];
    assert Field(DanmuFrame(message), "type") == top[0].1 by { ObjFieldReadBack(top, 0); }
    assert Field(DanmuFrame(message), "data") == top[1].1 by { ObjFieldReadBack(top, 1); }
  }

  /** The frame is a `danmu` message whose data copies the record's fields
      unchanged, `sender` renamed to `nickname`. */
  lemma DanmuFrameFields(message: Json)
    ensures var frame := DanmuFrame(message);
      && Field(frame, "type") == Str("danmu")
      && Field(frame, "data") == Some(DanmuData(message))
    ensures var data := DanmuData(message);
      && Field(data, "content") == Field(message, "content")
      && Field(data, "nickname") == Field(message, "sender")
      && Field(data, "time") == Field(message, "time")
      && Field(data, "liveId") == Field(message, "liveId")
      && Field(data, "userToken") == Field(message, "userToken")
  {
    DanmuFrameShape(message);
    DanmuDataReadBack(message, 0);
    DanmuDataReadBack(message, 1);
    DanmuDataReadBack(message, 2);
    DanmuDataReadBack(message, 3);
    DanmuDataReadBack(message, 4);
  }

  /** One command per tab, in the order the query lists them. */
  function TabCommands(ids: seq<nat>, command: Json): (r: seq<TabCommand>)
    ensures |r| == |ids| && forall i :: 0 <= i < |ids| ==> r[i] == TabCommand(ids[i], command)
  {
    seq(|ids|, i requires 0 <= i < |ids| => TabCommand(ids[i], command))
  }

  class LiveBackground {
    /** The request listener shared with background.js. */
    const requests: BackgroundScript.Background
    /** Index into `sockets` of the socket `ws` refers to; None for `null`. */
    var ws: Option<nat>
    /** Every socket created so far, in creation order, with its ready state. */
    var sockets: seq<ReadyState>
    var connectionDisabled: bool
    var reconnectAttempts: nat
    /** Retry timers scheduled and not yet fired. */
    var pendingRetries: nat
    var processedMessages: seq<string>

    ghost predicate Valid()
      reads this, requests
    {
      && requests.Valid() && !requests.isCapturing
      && Distinct(processedMessages) && |processedMessages| <= CAPACITY
      && reconnectAttempts <= MAX_RECONNECT_ATTEMPTS
      && (ws.Some? ==> ws.value < |sockets| && Live(sockets[ws.value]))
    }

    /** The socket `ws` refers to is the only one connecting or open. */
    ghost predicate SingleLive()
      reads this
    {
      forall k :: 0 <= k < |sockets| ==> (Live(sockets[k]) <==> ws == Some(k))
    }

    constructor ()
      ensures Valid() && SingleLive()
      ensures ws == None && sockets == [] && !connectionDisabled && reconnectAttempts == 0
      ensures pendingRetries == 0 && processedMessages == []
    {
      requests := new BackgroundScript.Background();
      ws := None;
      sockets := [];
      connectionDisabled := false;
      reconnectAttempts := 0;
      pendingRetries := 0;
      processedMessages := [];
    }

    /** `cleanupProcessedMessages`: past CAPACITY ids, the set is cleared and
        refilled with the newer half. */
    method CleanupProcessedMessages()
      requires Distinct(processedMessages)
      modifies this`processedMessages
      ensures processedMessages == KeepNewerHalf(old(processedMessages))
    {
      if |processedMessages| > CAPACITY {
        var messagesArray := processedMessages;
        var keepMessages := messagesArray[|messagesArray| / 2..];
        assert Distinct(keepMessages) by {
          forall i, j | 0 <= i < j < |keepMessages| ensures keepMessages[i] != keepMessages[j] {
            assert keepMessages[i] == messagesArray[|messagesArray| / 2 + i];
            assert keepMessages[j] == messagesArray[|messagesArray| / 2 + j];
          }
        }
        processedMessages := [];
        var i := 0;
        while i < |keepMessages|
          invariant 0 <= i <= |keepMessages|
          invariant processedMessages == keepMessages[..i]
        {
          assert keepMessages[i] !in keepMessages[..i];
          processedMessages := Insert(processedMessages, keepMessages[i]);
          assert keepMessages[..i + 1] == keepMessages[..i] + [keepMessages[i]];
          i := i + 1;
        }
        assert keepMessages[..i] == keepMessages;
      }
    }

    /** `isDuplicateMessage`: a known id is a duplicate; a new one is added and
        the set cleaned up. */
    method IsDuplicateMessage(message: Json) returns (dup: bool)
      requires Distinct(processedMessages) && |processedMessages| <= CAPACITY
      modifies this`processedMessages
      ensures Distinct(processedMessages) && |processedMessages| <= CAPACITY
      ensures dup <==> GenerateMessageId(message) in old(processedMessages)
      ensures processedMessages == if dup then old(processedMessages)
                                   else KeepNewerHalf(old(processedMessages) + [GenerateMessageId(message)])
    {
      var messageId := GenerateMessageId(message);
      if messageId in processedMessages {
        return true;
      }
      processedMessages := Insert(processedMessages, messageId);
      KeepNewerHalfFacts(processedMessages);
      CleanupProcessedMessages();
      return false;
    }

    /** `sendToServer`: only an open socket gets the frame; the answer says
        whether it was sent. */
    method SendToServer(message: Json) returns (ok: bool, frame: Option<(nat, Json)>)
      ensures ok <==> ws.Some? && ws.value < |sockets| && sockets[ws.value] == Open
      ensures frame == if ok then Some((ws.value, DanmuFrame(message))) else None
    {
      if ws.None? || ws.value >= |sockets| || sockets[ws.value] != Open {
        return false, None;
      }
      return true, Some((ws.value, DanmuFrame(message)));
    }

    /** `connectWebSocket`: nothing while the current socket is connecting or
        open or while the connection is given up; otherwise a new socket. */
    method ConnectWebSocket()
      requires Valid()
      modifies this`ws, this`sockets
      ensures Valid()
      ensures old(ws.Some? || connectionDisabled) ==> ws == old(ws) && sockets == old(sockets)
      ensures old(ws.None? && !connectionDisabled) ==>
        sockets == old(sockets) + [Connecting] && ws == Some(|old(sockets)|)
      ensures old(SingleLive()) ==> SingleLive()
    {
      if ws.Some? && Live(sockets[ws.value]) {
        return;
      }
      if connectionDisabled {
        return;
      }
      sockets := sockets + [Connecting];
      ws := Some(|sockets| - 1);
    }

    /** The `open` event of socket `k`. */
    method OnOpen(k: nat)
      requires Valid() && k < |sockets| && sockets[k] == Connecting
      modifies this`sockets, this`reconnectAttempts
      ensures Valid()
      ensures sockets == old(sockets)[k := Open] && reconnectAttempts == 0
      ensures old(SingleLive()) ==> SingleLive()
    {
      sockets := sockets[k := Open];
      reconnectAttempts := 0;
    }

    /** The `close` event of socket `k`, with the handler as written: whichever
        socket closes, `ws` is cleared and a retry may be scheduled. */
    method OnClose(k: nat)
      requires Valid() && k < |sockets| && sockets[k] != Closed
      modifies this`sockets, this`ws, this`reconnectAttempts, this`pendingRetries, this`connectionDisabled
      ensures Valid()
      ensures sockets == old(sockets)[k := Closed] && ws == None
      ensures var retry := !old(connectionDisabled) && old(reconnectAttempts) < MAX_RECONNECT_ATTEMPTS;
        && reconnectAttempts == (if retry then old(reconnectAttempts) + 1 else old(reconnectAttempts))
        && pendingRetries == (if retry then old(pendingRetries) + 1 else old(pendingRetries))
        && connectionDisabled == (old(connectionDisabled) || old(reconnectAttempts) >= MAX_RECONNECT_ATTEMPTS)
    {
      sockets := sockets[k := Closed];
      ws := None;
      if !connectionDisabled && reconnectAttempts < MAX_RECONNECT_ATTEMPTS {
        reconnectAttempts := reconnectAttempts + 1;
        pendingRetries := pendingRetries + 1;
      } else if reconnectAttempts >= MAX_RECONNECT_ATTEMPTS {
        connectionDisabled := true;
      }
    }

    /** The `close` handler bound to its own socket: the close of a socket `ws`
        no longer refers to changes nothing else. */
    method OnCloseGuarded(k: nat)
      requires Valid() && k < |sockets| && sockets[k] != Closed
      modifies this`sockets, this`ws, this`reconnectAttempts, this`pendingRetries, this`connectionDisabled
      ensures Valid()
      ensures sockets == old(sockets)[k := Closed]
      ensures old(ws) != Some(k) ==>
        && ws == old(ws) && reconnectAttempts == old(reconnectAttempts)
        && pendingRetries == old(pendingRetries) && connectionDisabled == old(connectionDisabled)
      ensures old(ws) == Some(k) ==>
        var retry := !old(connectionDisabled) && old(reconnectAttempts) < MAX_RECONNECT_ATTEMPTS;
        && ws == None
        && reconnectAttempts == (if retry then old(reconnectAttempts) + 1 else old(reconnectAttempts))
        && pendingRetries == (if retry then old(pendingRetries) + 1 else old(pendingRetries))
        && connectionDisabled == (old(connectionDisabled) || old(reconnectAttempts) >= MAX_RECONNECT_ATTEMPTS)
      ensures old(SingleLive()) ==> SingleLive()
    {
      if ws != Some(k) {
        sockets := sockets[k := Closed];
        return;
      }
      OnClose(k);
    }

    /** A scheduled retry fires and calls `connectWebSocket`. */
    method OnRetryTimer()
      requires Valid() && pendingRetries > 0
      modifies this`ws, this`sockets, this`pendingRetries
      ensures Valid()
      ensures pendingRetries == old(pendingRetries) - 1
      ensures old(ws.Some? || connectionDisabled) ==> ws == old(ws) && sockets == old(sockets)
      ensures old(ws.None? && !connectionDisabled) ==>
        sockets == old(sockets) + [Connecting] && ws == Some(|old(sockets)|)
      ensures old(SingleLive()) ==> SingleLive()
    {
      pendingRetries := pendingRetries - 1;
      ConnectWebSocket();
    }

    /** `closeWebSocket`: start closing the current socket, forget it, and give
        the connection up. */
    method CloseWebSocket()
      requires Valid()
      modifies this`sockets, this`ws, this`connectionDisabled
      ensures Valid()
      ensures ws == None && connectionDisabled
      ensures old(ws).None? ==> sockets == old(sockets)
      ensures old(ws).Some? ==> sockets == old(sockets)[old(ws).value := Closing]
      ensures old(SingleLive()) ==> SingleLive()
    {
      if ws.Some? {
        sockets := sockets[ws.value := Closing];
        ws := None;
      }
      connectionDisabled := true;
    }

    /** The `startCapture` branch: forget the relayed ids, re-enable and open
        the connection, then, once the tab query answers, command every tab. */
    method OnStartCapture(tabs: TabsResult) returns (reply: Json, commands: seq<TabCommand>)
      requires Valid()
      modifies this`processedMessages, this`connectionDisabled, this`reconnectAttempts, this`ws, this`sockets
      ensures Valid()
      ensures processedMessages == [] && !connectionDisabled && reconnectAttempts == 0
      ensures old(ws).Some? ==> ws == old(ws) && sockets == old(sockets)
      ensures old(ws).None? ==> sockets == old(sockets) + [Connecting] && ws == Some(|old(sockets)|)
      ensures old(SingleLive()) ==> SingleLive()
      ensures match tabs
        case Tabs(ids) =>
          if ids == [] then reply == StatusReply("error", Str(NO_TAB_ERROR)) && commands == []
          else reply == StatusReply("success", None) && commands == TabCommands(ids, TypeCommand("startCapture"))
        case QueryFailed(m) => reply == StatusReply("error", Str(m)) && commands == []
    {
      processedMessages := [];
      connectionDisabled := false;
      reconnectAttempts := 0;
      ConnectWebSocket();
      commands := [];
      match tabs {
        case QueryFailed(m) =>
          reply := StatusReply("error", Str(m));
        case Tabs(ids) =>
          if |ids| == 0 {
            reply := StatusReply("error", Str(NO_TAB_ERROR));
            return;
          }
          var i := 0;
          while i < |ids|
            invariant 0 <= i <= |ids|
            invariant commands == TabCommands(ids[..i], TypeCommand("startCapture"))
          {
            commands := commands + [TabCommand(ids[i], TypeCommand("startCapture"))];
            i := i + 1;
          }
          assert ids[..i] == ids;
          reply := StatusReply("success", None);
      }
    }

    /** The `stopCapture` branch: close the connection, then command every tab
        to stop. The relayed ids are kept. */
    method OnStopCapture(tabs: TabsResult) returns (reply: Json, commands: seq<TabCommand>)
      requires Valid()
      modifies this`sockets, this`ws, this`connectionDisabled
      ensures Valid()
      ensures ws == None && connectionDisabled
      ensures old(ws).None? ==> sockets == old(sockets)
      ensures old(ws).Some? ==> sockets == old(sockets)[old(ws).value := Closing]
      ensures old(SingleLive()) ==> SingleLive()
      ensures match tabs
        case Tabs(ids) => reply == StatusReply("success", None) && commands == TabCommands(ids, TypeCommand("stopCapture"))
        case QueryFailed(m) => reply == StatusReply("error", Str(m)) && commands == []
    {
      CloseWebSocket();
      commands := [];
      match tabs {
        case QueryFailed(m) =>
          reply := StatusReply("error", Str(m));
        case Tabs(ids) =>
          var i := 0;
          while i < |ids|
            invariant 0 <= i <= |ids|
            invariant commands == TabCommands(ids[..i], TypeCommand("stopCapture"))
          {
            commands := commands + [TabCommand(ids[i], TypeCommand("stopCapture"))];
            i := i + 1;
          }
          assert ids[..i] == ids;
          reply := StatusReply("success", None);
      }
    }

    /** The `newComment` branch: a given-up connection answers failure before
        anything else; then a duplicate answers success and goes nowhere; a new
        record goes to the popup and, when the socket is open, to the server,
        and the answer says whether the server got it. A missing or `null`
        record makes the id formula throw, so nothing is answered. */
    method OnNewComment(message: Json) returns (reply: Option<Json>, sent: seq<Msg>, frame: Option<(nat, Json)>)
      requires Valid()
      modifies this`processedMessages
      ensures Valid()
      ensures old(connectionDisabled) ==>
        reply == Some(FailureReply(DISABLED_ERROR)) && sent == [] && frame == None
        && processedMessages == old(processedMessages)
      ensures !old(connectionDisabled) && (Field(message, "data") == None || Field(message, "data") == Some(JNull)) ==>
        reply == None && sent == [] && frame == None && processedMessages == old(processedMessages)
      ensures !old(connectionDisabled) && Field(message, "data").Some? && Field(message, "data") != Some(JNull) ==>
        var data := Field(message, "data").value;
        var id := GenerateMessageId(data);
        if id in old(processedMessages) then
          reply == Some(SuccessReply(true)) && sent == [] && frame == None
          && processedMessages == old(processedMessages)
        else
          && processedMessages == KeepNewerHalf(old(processedMessages) + [id])
          && sent == [NewComment(data)]
          && (frame.Some? <==> ws.Some? && sockets[ws.value] == Open)
          && (frame.Some? ==> frame.value == (ws.value, DanmuFrame(data)))
          && reply == Some(SuccessReply(frame.Some?))
    {
      sent, frame := [], None;
      if connectionDisabled {
        reply := Some(FailureReply(DISABLED_ERROR));
        return;
      }
      var data := Field(message, "data");
      if data.None? || data.value.JNull? {
        reply := None;
        return;
      }
      var dup := IsDuplicateMessage(data.value);
      if dup {
        reply := Some(SuccessReply(true));
        return;
      }
      sent := [NewComment(data.value)];
      var ok;
      ok, frame := SendToServer(data.value);
      reply := Some(SuccessReply(ok));
    }

    /** The request listener: since this worker never sets the capture flag,
        every request returns at once. */
    method OnBeforeRequest(url: string, now: int, urlLiveId: Json, fetched: Json,
                           localeTime: Option<Json> -> string)
      returns (sent: seq<Msg>)
      requires Valid()
      modifies requests
      ensures Valid()
      ensures sent == []
      ensures requests.processedComments == old(requests.processedComments)
      ensures requests.lastRequestTime == old(requests.lastRequestTime)
      ensures requests.currentLiveId == old(requests.currentLiveId)
    {
      sent := requests.OnBeforeRequest(url, now, urlLiveId, fetched, localeTime);
    }
  }

  /** An immediate repeat of a record is a duplicate: the id just added
      survives the cleanup that follows it, since the kept half is the newer
      one. */
  method ImmediateRepeatIsDuplicate(b: LiveBackground, message: Json) returns (first: bool, second: bool)
    requires Distinct(b.processedMessages) && |b.processedMessages| <= CAPACITY
    modifies b
    ensures first <==> GenerateMessageId(message) in old(b.processedMessages)
    ensures second
  {
    first := b.IsDuplicateMessage(message);
    KeepNewerHalfFacts(old(b.processedMessages) + [GenerateMessageId(message)]);
    second := b.IsDuplicateMessage(message);
  }

  /** Once a close finds the attempts used up, the connection stays given up:
      no close, open, retry or relayed comment re-enables it, and no retry
      creates a socket; only OnStartCapture resets the flag. This lemma states
      the counting side: from a fresh start, the retries a run of closes
      schedules, with no open in between, number at most
      MAX_RECONNECT_ATTEMPTS. */
  lemma {:induction false} RetriesBounded(attempts: nat, disabled: bool, closes: nat)
    requires attempts <= MAX_RECONNECT_ATTEMPTS
    ensures RetriesScheduled(attempts, disabled, closes) <= MAX_RECONNECT_ATTEMPTS - attempts
    decreases closes
  {
    if closes > 0 {
      if !disabled && attempts < MAX_RECONNECT_ATTEMPTS {
        RetriesBounded(attempts + 1, disabled, closes - 1);
      } else {
        RetriesBounded(attempts, disabled || attempts >= MAX_RECONNECT_ATTEMPTS, closes - 1);
      }
    }
  }

  /** The retries scheduled by `closes` successive close events with no open
      between them, from `attempts` used and the given flag; each step is what
      OnClose does to the two counters. */
  function RetriesScheduled(attempts: nat, disabled: bool, closes: nat): nat
    decreases closes
  {
    if closes == 0 then 0
    else if !disabled && attempts < MAX_RECONNECT_ATTEMPTS then 1 + RetriesScheduled(attempts + 1, disabled, closes - 1)
    else RetriesScheduled(attempts, disabled || attempts >= MAX_RECONNECT_ATTEMPTS, closes - 1)
  }

  /** Whether the connection is given up after `closes` successive close
      events with no open between them; each step is what OnClose does to the
      flag. */
  function DisabledAfter(attempts: nat, disabled: bool, closes: nat): bool
    decreases closes
  {
    if closes == 0 then disabled
    else if !disabled && attempts < MAX_RECONNECT_ATTEMPTS then DisabledAfter(attempts + 1, disabled, closes - 1)
    else DisabledAfter(attempts, disabled || attempts >= MAX_RECONNECT_ATTEMPTS, closes - 1)
  }

  /** From `attempts` used and the connection enabled, successive closes
      without an open schedule one retry each until the attempts run out, so
      the bound of RetriesBounded is attained; the close that finds them used
      up gives the connection up, and it stays given up. */
  lemma {:induction false} RetriesExhausted(attempts: nat, closes: nat)
    requires attempts <= MAX_RECONNECT_ATTEMPTS
    ensures RetriesScheduled(attempts, false, closes) ==
      if closes <= MAX_RECONNECT_ATTEMPTS - attempts then closes else MAX_RECONNECT_ATTEMPTS - attempts
    ensures DisabledAfter(attempts, false, closes) <==> closes > MAX_RECONNECT_ATTEMPTS - attempts
    decreases closes
  {
    if closes > 0 {
      if attempts < MAX_RECONNECT_ATTEMPTS {
        RetriesExhausted(attempts + 1, closes - 1);
      } else {
        GivenUpStays(attempts, closes - 1);
      }
    }
  }

  /** Once given up, further closes schedule nothing and leave it given up. */
  lemma {:induction false} GivenUpStays(attempts: nat, closes: nat)
    ensures RetriesScheduled(attempts, true, closes) == 0 && DisabledAfter(attempts, true, closes)
    decreases closes
  {
    if closes > 0 {
      GivenUpStays(attempts, closes - 1);
    }
  }

  /** The close handler as written lets a socket of a stopped capture cut the
      link to the socket of the next capture: start, open, stop, start again,
      open, and only then the first socket's close event. A retry then opens a
      third socket while the second is still open, so two sockets are live. */
  method StaleCloseCounterexample() returns (b: LiveBackground)
    ensures b.Valid()
    ensures b.sockets == [Closed, Open, Connecting] && b.ws == Some(2)
    ensures !b.SingleLive()
  {
    b := new LiveBackground();
    var reply, commands := b.OnStartCapture(Tabs([]));
    b.OnOpen(0);
    reply, commands := b.OnStopCapture(Tabs([]));
    reply, commands := b.OnStartCapture(Tabs([]));
    assert b.sockets == [Closing, Connecting];
    b.OnOpen(1);
    assert b.sockets == [Closing, Open];
    b.OnClose(0);
    assert b.sockets == [Closed, Open] && b.ws == None && !b.connectionDisabled;
    b.OnRetryTimer();
    assert Live(b.sockets[1]) && b.ws != Some(1);
  }

  /** With the handler bound to its own socket, the same run keeps a single
      live socket. */
  method StaleCloseGuarded() returns (b: LiveBackground)
    ensures b.Valid() && b.SingleLive()
    ensures b.sockets == [Closed, Open] && b.ws == Some(1) && b.pendingRetries == 0
  {
    b := new LiveBackground();
    var reply, commands := b.OnStartCapture(Tabs([]));
    b.OnOpen(0);
    reply, commands := b.OnStopCapture(Tabs([]));
    reply, commands := b.OnStartCapture(Tabs([]));
    b.OnOpen(1);
    b.OnCloseGuarded(0);
  }

  /** The `i`-th member of the frame data reads back as written. */
  lemma DanmuDataReadBack(message: Json, i: nat)
    requires i < 5
    ensures var m := DanmuMembers(message);
      Field(DanmuData(message), m[i].0) == m[i].1
  {
    ObjFieldReadBack(DanmuMembers(message), i);
  }
}
