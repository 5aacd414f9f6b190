# Taobao live comment capture, modelled in Dafny

The repository is a Chrome extension that captures the live-stream comments
("danmu") of Taobao Live pages. It comes in two variants, and each has a small
Python receiver.

- **Page-hook variant.** Files: `background.js`, `content.js`, `inject.js`,
  `popup.js`, `tb_server.py`.
  - The service worker watches the page's comment-query requests. It fetches
    each admitted request again and relays one `newComment` message per
    comment it has not seen. Seen comments are remembered by a key in a
    bounded set that drops its 500 oldest keys once it passes 1000.
  - The injected page script normalises each JSONP comment packet into
    records and posts them to the page.
  - The content script screens a packet's comments against an id history.
  - The popup shows at most 100 comments, newest first, and skips ids it has
    recorded.
- **Live-console variant.** Files under `tblive/`.
  - The page script drops a packet equal to the previous one. It screens the
    comments against an id history and posts the packet again, reduced to the
    new comments.
  - The content script reports every packet and relays every comment with
    text.
  - The service worker deduplicates the relayed records. It forwards them to
    the popup and, as a `danmu` frame, to a local WebSocket server. It
    reconnects at most three times before it gives the connection up.
  - The popup keeps up to 1000 comments, newest first.

Every handler is modelled as one atomic step on its context's state.

- A script whose handlers update variables in place becomes a `class` with
  those fields. Its methods are proved against specification functions,
  which the lemmas are about.
- A `Set` used as an insertion-ordered fingerprint store becomes a sequence
  without repeats, oldest first.
- A DOM list becomes a sequence, newest first.
- JSON values are a datatype whose objects keep their members in order.
- JavaScript's `||`, `&&`, truthiness, template-literal string conversion,
  `trim` and the `TypeError` of reading a member of `null` are written out in
  module `Js`.
- Python's truthiness and `dict.get` are written out in module `DanmuQueue`.

Messages sent with `chrome.runtime.sendMessage`, `window.postMessage` or the
WebSocket are not delivered anywhere. Each handler returns them in order as
its output.

Inputs that come from outside the scripts are parameters of the model:

- the clock and the locale's time format;
- the room id read from the URL or the page;
- the packet `fetchData` returns;
- the answer of `chrome.tabs.query`;
- the reply a popup gets to its capture command;
- Python's `str()`.

Some observations follow from the code as written and are stated by the
model.

- The request listener of `tblive/background.js` is the same code as that of
  `background.js`. Its capture flag is never set in that file, so the listener
  always returns at once (`LiveBackgroundScript.LiveBackground.OnBeforeRequest`).
- The keep-newer-half cleanup bounds a history at 1000 ids only while at most
  2000 ids are present when it runs. A packet with more than 1000 new comments
  leaves more than 1000 (`Fingerprints.KeepNewerHalfFacts`,
  `ContentScript.ProcessBatchBounded`).
- The popups are paired crosswise with the service workers:
  - `popup.js` sends `{type}` commands and reads `status`, which is what
    `tblive/background.js` answers;
  - `tblive/popup.js` sends `{action}` commands and reads `success`, which is
    what `background.js` answers.
- `popup.js` counts a comment even when it is a duplicate it does not display.
- The `isProcessing` flag of `tblive/content.js` is set and cleared around a
  synchronous call, so it never blocks a packet. The flag of `content.js` is
  likewise false whenever a handler starts.
- The two page-side scripts of the page-hook variant never connect. `inject.js`
  posts its records as `newComments`, which no script handles. `content.js`
  acts only on `CAPTURED_URL` and `JSONP_RESPONSE`, which only
  `tblive/inject.js` posts. The screening of `content.js` is modelled as
  written, on the packet it would receive.
- Restoring saved comments in `tblive/popup.js` appends them below the list
  in reverse order. No bound is applied.
- The two Python receivers store the same fields for a message both accept.
  `tb_server.py` ignores a `danmu` frame with an empty `data`, which
  `tblive/tb_server.py` stores (`LiveTbServer.ReceiversAgree`).

## Model

| member | source | states |
|---|---|---|
| Fingerprints.Insert | background.js:91-94 | `Set.add`: a present key leaves the set as it is; a new key is appended at the end; no key ever occurs twice |
| Fingerprints.EvictOldestFacts | background.js:96-101 | at most 1000 keys: unchanged; past 1000: exactly the 500 oldest go and the rest keep their order, so 1001 keys become 501; the newest key always stays |
| Fingerprints.KeepNewerHalfFacts | tblive/background.js:246-253 | at most 1000 ids: unchanged; past 1000: exactly the newest `n - floor(n/2)` ids stay, in order; the result is within 1000 exactly when `n <= 2000`; the newest id always stays |
| Fingerprints.InsertAllEvictingBounded | background.js:89-103 | however many keys are inserted one by one, each followed by the drop-oldest rule, the set stays within 1000 keys without repeats |
| Fingerprints.InsertAllHalvingBounded | tblive/background.js:256-265 | the same bound for insertions followed by the keep-newer-half rule |
| Js.Trim | background.js:185 | `String.prototype.trim`: the result is a slice of the input with only whitespace cut at either end; it is empty exactly when the input is all whitespace |
| Js.TrimGate | background.js:184-185 | `x && x.trim()` passes exactly for a string that is not blank, and throws exactly for a truthy value that is not a string |
| CommentScreen.ContentGate | content.js:99 | a comment passes exactly when it is an object whose `content` is a non-blank string; the guard throws exactly for a `null` comment or a truthy non-string content |
| CommentScreen.TrimmedContent | content.js:113 | the trimmed text of a passing comment is non-empty and starts and ends with a non-space |
| CommentScreen.CommentsOf | content.js:94 | `data?.data?.comments?.length > 0` yields a comment list exactly when `data.data.comments` is a non-empty array, and that list is it |
| CommentScreen.CoercedLength | background.js:172 | an object `comments` whose `length` is `true`, or the decimal string of a positive integer, passes the test without being a list; the decimal string of a non-positive integer fails it |
| Js.DecimalGreaterThanZero | background.js:172 | `v > 0` on the decimal string of an integer holds exactly when the integer is positive |
| CommentScreen.MessageIdDeterminedByFields | content.js:60-62 | comments that agree on content, timestamp, nicks and user id get the same id |
| CommentScreen.ScreenBatch | content.js:95-123 | the loop with its per-batch set produces exactly the screening function's comments, history and throw flag |
| CommentScreen.StepFacts | content.js:99-122 | one comment is let through only if it passes the guard and its id is not in the history, and then its id is recorded; otherwise the history is unchanged; a step throws exactly when the guard throws |
| CommentScreen.ScreenSubsequence | content.js:98-123 | the comments let through are an order-preserving subsequence of the batch |
| CommentScreen.ScreenKeptPass | content.js:99-101 | every comment let through passed the text guard |
| CommentScreen.ScreenHistory | content.js:106-108 | the history grows by exactly the ids of the comments let through, in order |
| CommentScreen.ScreenFresh | content.js:106 | no id let through was in the history or is repeated within the batch, and the history keeps no id twice |
| CommentScreen.ScreenThrowsIff | content.js:98-101 | the screening throws exactly when some comment of the batch throws |
| CommentScreen.ScreenRecordsAll | content.js:106-108 | after a batch that did not throw, the id of every comment with text is in the history, and no old id was lost |
| CommentScreen.ScreenAgainKeepsNothing | content.js:106 | the same batch screened a second time lets nothing through and changes nothing |
| CommentScreen.ScreenAllSeen | content.js:106 | a batch whose ids with text are all known lets nothing through |
| CommentScreen.ScreenRecordsOnlyPassing | background.js:183-187 | an id enters the history only from a comment of the batch with text |
| CommentScreen.ScreenBounded | background.js:183-187 | with an eviction rule that keeps a set within a bound, the screened history stays within it and without repeats |
| CommentScreen.ScreenSameIdOnce | background.js:90-94 | of two comments with the same key, only the first is let through |
| BackgroundScript.Background.constructor | background.js:1-4 | the worker starts not capturing, with no key, request time 0 and no room id |
| BackgroundScript.Background.IsCommentProcessed | background.js:89-103 | answers true exactly when the key is known, and then changes nothing; otherwise it inserts the key and applies the drop-oldest rule; the set stays within 1000 keys |
| BackgroundScript.Background.FilterNewComments | background.js:183-187 | the filter equals the screening function: only comments with text reach `isCommentProcessed`, and a throwing element ends the filter keeping the keys already inserted |
| BackgroundScript.Background.UpdateLiveId | background.js:106-115 | the room id changes, with one `liveInfo` message, exactly for a truthy id that differs from the current one |
| BackgroundScript.Background.OnBeforeRequest | background.js:139-150 | a request that is not captured, not the comment query, or within 2000 ms of the last admitted one changes nothing and sends nothing; an admitted one sets the request time and does what the capture function says |
| BackgroundScript.Background.CaptureAdmitted | background.js:155-218 | the room id from the URL, the `apiUrl` message, the packet report and the relayed records equal the capture function |
| BackgroundScript.Background.RelayNewComments | background.js:183-214 | the loop sends one record per new comment, after updating the room id from the first of them |
| BackgroundScript.Background.OnMessage | background.js:231-279 | start sets capturing, clears the keys and the request time, and re-announces a held room id; stop only clears capturing; the four relayed types are broadcast unchanged; other messages change nothing and get no answer; a `null` message is answered with the caught error |
| BackgroundScript.FilterBounded | background.js:96-101 | however many comments a fetch brings, the key set stays within 1000 keys without repeats |
| BackgroundScript.FilterOnlyText | background.js:183-187 | the comments let through are, in order, some of the fetched ones, each with text; no key enters the set except from a comment with text |
| BackgroundScript.SameKeyRelayedOnce | background.js:90 | two comments whose keys agree are relayed once, whoever posted them |
| BackgroundScript.NewCommentRecordFields | background.js:198-211 | each record carries the formatted time, `tbNick || publisherNick` as sender, `userToken || renders.userToken || ''` and `renders.liveId || currentLiveId` |
| BackgroundScript.NewCommentRecordContent | background.js:210 | each record carries the comment's text trimmed, which is not empty |
| BackgroundScript.CaptureRequestFacts | background.js:164-214 | an admitted request always announces its URL; it sends at most one record per fetched comment; a packet without a comment list changes no key |
| TimeFormat.Pad2Digits | content.js:53-55 | `padStart(2, '0')` of a number below 100 is two digits that read back as the number |
| TimeFormat.FormatTimestampRoundTrip | content.js:51-57 | a valid local time formats as eight characters `HH:MM:SS` that parse back to that time |
| ContentScript.ContentScript.constructor | content.js:11-18 | the state starts with URL `''`, no flags set and an empty id history |
| ContentScript.ContentScript.ProcessComments | content.js:74-145 | nothing happens while not capturing or while processing; otherwise the room id is settled, the history and the messages are those of the batch function, and the flag ends as it started |
| ContentScript.ContentScript.RelayBatch | content.js:93-138 | screening, sending and cleanup equal the batch function: a throw keeps the ids recorded so far and sends nothing |
| ContentScript.ContentScript.OnStartCapture | content.js:151-157 | capture on, room id re-read, history emptied, flag cleared, `{status: 'success'}` answered |
| ContentScript.ContentScript.OnStopCapture | content.js:158-162 | capture off and flag cleared; the history is kept |
| ContentScript.ContentScript.OnWindowMessage | content.js:183-197 | only same-window messages count; `CAPTURED_URL` sets the URL; `JSONP_RESPONSE` is processed only while capturing and not processing |
| ContentScript.ProcessBatchBounded | content.js:65-71 | from a history within 1000, a packet of at most 1000 comments leaves it within 1000 after the cleanup, without repeats |
| ContentScript.ProcessBatchRelays | content.js:98-134 | the records sent are, in order, for comments of the packet with text whose ids were in neither the history nor earlier in the batch; a throw sends nothing |
| ContentScript.ContentRecordFields | content.js:110-117 | each record has sender `tbNick \|\| publisherNick \|\| 'unknown'`, the formatted time, room id or `''`, `renders.userToken \|\| '0'` and `userId \|\| ''` |
| ContentScript.ContentRecordContent | content.js:113 | each record carries the comment's text trimmed |
| TextFilter.FilterText | inject.js:72 | every record that passes the filter has non-blank text |
| TextFilter.FilterTextSubsequence | inject.js:72 | the records that pass are an order-preserving subsequence of the input |
| TextFilter.FilterTextThrowsIff | inject.js:72 | the filter throws exactly when some record's content has no `trim` |
| TextFilter.FilterTextCounts | inject.js:72 | when nothing throws, each record with text occurs in the output as often as in the input, and no other record occurs |
| TextFilter.FilterTextAllPass | inject.js:72 | when every record has text, the output is the input |
| TextFilter.FilterTextStopsAtThrow | tblive/content.js:48-70 | the loop stops at the first throwing comment, keeping only what passed before it |
| PageInject.SelectComments | inject.js:30-39 | the list chosen is always truthy |
| PageInject.SelectCommentsPriority | inject.js:31-39 | the choice is the first truthy of `commentList`, `comments`, `result.commentList`, then `data.data` as an array, in that order |
| PageInject.UserTokenFallbacks | inject.js:47-63 | the user token is the first truthy of `renders.userToken`, `userToken`, `userId`, `publisherId`, else `''`; the room id is `renders.liveId` or `''` |
| PageInject.DecodeCommentFields | inject.js:65-71 | each record has `content \|\| message \|\| ''`, `userNick \|\| tbNick \|\| publisherNick \|\| ''` and `timestamp \|\| gmtCreate \|\| now`, all defined and the content not trimmed |
| PageInject.DecodeCommentIds | inject.js:65-71 | each record carries the comment's user token and room id |
| PageInject.ProcessJsonp | inject.js:21-84 | a message is posted only for a truthy packet with a truthy `data.data`, as one non-empty `newComments` list of records with text |
| PageInject.ProcessJsonpPosts | inject.js:72-80 | when nothing throws, the posted list is, in order, the records with text, each as often as among all records, never longer than the selected list, and it is posted exactly when it is non-empty |
| PageInject.CallbackName | inject.js:108-110 | the name is None exactly when `callback=mtopjsonp` followed by a digit occurs nowhere; otherwise it is `mtopjsonp` and the whole digit run at the leftmost match |
| PageInject.HookedCallback | inject.js:102-110 | only URLs of the comment API get a callback hooked, and it is the name the pattern captures |
| PageInject.ProxyScriptQuotes | inject.js:115 | the script injected for a captured name holds no quote besides the two around the name |
| LiveInject.Repacked | tblive/inject.js:97-103 | the reposted packet differs from the input only in `data.comments`, which holds the surviving comments |
| LiveInject.RepackedAllKept | tblive/inject.js:97-103 | when every comment survives, the reposted packet equals the input |
| LiveInject.LiveInject.constructor | tblive/inject.js:11-16 | no stored packet, empty history, not processing |
| LiveInject.LiveInject.CleanupProcessedMessages | tblive/inject.js:19-26 | the history becomes its newer half once it passes 1000 ids |
| LiveInject.LiveInject.IsDataDuplicate | tblive/inject.js:34-48 | a packet is a duplicate exactly when a truthy packet is stored and equals it; afterwards the stored packet equals the argument either way |
| LiveInject.LiveInject.ProcessJsonpResponse | tblive/inject.js:51-118 | nothing changes while processing or for a packet without truthy `data.data.comments`; a repeated packet posts nothing and keeps the history; otherwise the history and the post are those of the relay function; the flag ends as it started |
| LiveInject.LiveInject.Forward | tblive/inject.js:70-117 | screening, posting the repacked packet when something survives, and the cleanup equal the relay function |
| LiveInject.RelayBatchForwards | tblive/inject.js:77-92 | the comments forwarded are, in order, comments of the packet with text and fresh ids, untrimmed; after a packet that did not throw, every id with text is recorded |
| LiveInject.RelayBatchBounded | tblive/inject.js:112 | from a history within 1000, a packet of at most 1000 comments leaves it within 1000, without repeats |
| LiveInject.RepeatedPacketIgnored | tblive/inject.js:64-68 | handing the same packet over twice in a row, the second call posts nothing |
| LiveContentScript.PacketMessages | tblive/content.js:27-78 | every packet produces exactly one `apiResponse` message first, followed only by `newComment` messages |
| LiveContentScript.LiveContent.constructor | tblive/content.js:11-15 | URL `''` and not processing |
| LiveContentScript.LiveContent.ProcessComments | tblive/content.js:27-78 | the messages sent are those of the packet function |
| LiveContentScript.LiveContent.OnWindowMessage | tblive/content.js:95-125 | `CAPTURED_URL` sets the URL and forwards one `apiUrl` message; `JSONP_RESPONSE` is processed when not processing, and the flag ends as it started |
| LiveContentScript.SendPassing | tblive/content.js:48-70 | the loop sends one record per comment with text, in order, up to the first throwing comment |
| LiveContentScript.PacketMessagesRelays | tblive/content.js:47-70 | the records follow the packet report in order, with no deduplication: each comment with text is relayed as often as it occurs |
| LiveContentScript.LiveRecordFields | tblive/content.js:50-56 | each record has the formatted time, `tbNick \|\| publisherNick` as sender, and `renders.liveId` and `renders.userToken` |
| LiveContentScript.LiveRecordContent | tblive/content.js:53 | each record carries the comment's text trimmed |
| LiveBackgroundScript.DanmuFrameFields | tblive/background.js:293-302 | the frame is of type `danmu` and its data copies content, time, room id and user token unchanged, with `sender` as `nickname` |
| LiveBackgroundScript.LiveBackground.constructor | tblive/background.js:231-237 | no socket, connection enabled, no attempt, no relayed id |
| LiveBackgroundScript.LiveBackground.CleanupProcessedMessages | tblive/background.js:246-253 | the clear-and-refill loop leaves exactly the newer half of the ids |
| LiveBackgroundScript.LiveBackground.IsDuplicateMessage | tblive/background.js:256-265 | a duplicate exactly when the id is known, and then nothing changes; otherwise the id is added and the set cleaned; the set stays within 1000 ids |
| LiveBackgroundScript.ImmediateRepeatIsDuplicate | tblive/background.js:256-265 | the second of two identical records in a row is a duplicate |
| LiveBackgroundScript.LiveBackground.SendToServer | tblive/background.js:285-311 | true, with one `danmu` frame on the current socket, exactly when that socket is open |
| LiveBackgroundScript.LiveBackground.ConnectWebSocket | tblive/background.js:314-326 | nothing while a socket is connecting or open or while the connection is given up; otherwise one new connecting socket |
| LiveBackgroundScript.LiveBackground.OnOpen | tblive/background.js:328-331 | the socket is open and the attempts are reset to 0 |
| LiveBackgroundScript.LiveBackground.OnClose | tblive/background.js:333-345 | as written: whichever socket closes, `ws` is cleared; a retry is scheduled and counted only while enabled with fewer than 3 attempts; at 3 attempts the connection is given up |
| LiveBackgroundScript.LiveBackground.OnCloseGuarded | tblive/background.js:333-345 | corrected: the close of a socket other than the current one changes nothing else, so a single live socket stays single |
| LiveBackgroundScript.LiveBackground.OnRetryTimer | tblive/background.js:340 | a fired retry calls `connectWebSocket` |
| LiveBackgroundScript.LiveBackground.CloseWebSocket | tblive/background.js:360-367 | the current socket starts closing, `ws` is cleared and the connection is given up |
| LiveBackgroundScript.LiveBackground.OnStartCapture | tblive/background.js:373-418 | ids cleared, connection re-enabled with 0 attempts and opened; every tab found gets `startCapture`; no tab or a failed query is answered with an error |
| LiveBackgroundScript.LiveBackground.OnStopCapture | tblive/background.js:420-444 | the connection is closed and given up, the ids are kept, every tab gets `stopCapture` |
| LiveBackgroundScript.LiveBackground.OnNewComment | tblive/background.js:446-471 | given up: failure, and no id is touched; duplicate: success with no delivery; otherwise one popup message and the reply is whether the server got the frame |
| LiveBackgroundScript.LiveBackground.OnBeforeRequest | tblive/background.js:139-143 | the request listener never admits a request: nothing is sent and no state changes |
| LiveBackgroundScript.RetriesBounded | tblive/background.js:337-344 | closes with no open in between schedule at most 3 retries from a fresh start |
| LiveBackgroundScript.RetriesExhausted | tblive/background.js:337-344 | from `a` attempts used, `n` closes with no open between them schedule exactly `min(n, 3 - a)` retries, and leave the connection given up exactly when `n > 3 - a` |
| LiveBackgroundScript.GivenUpStays | tblive/background.js:341-344 | once given up, further closes schedule no retry and the connection stays given up |
| LiveBackgroundScript.StaleCloseCounterexample | tblive/background.js:333-345 | start, open, stop, start, open, then the first socket's close: a retry opens a third socket while the second is open |
| LiveBackgroundScript.StaleCloseGuarded | tblive/background.js:333-345 | the same events with the corrected handler keep one live socket and schedule no retry |
| Feed.Truncate | popup.js:57-59 | removing the last row until at most the cap remain keeps a prefix: removals come only from the tail |
| Feed.PrependTruncate | tblive/popup.js:85-95 | the new comment goes first and the older ones keep their order, within the cap |
| Feed.PrependTwiceShowsTwice | tblive/popup.js:66-96 | adding the same comment twice shows it twice |
| Feed.Reverse | tblive/popup.js:159 | `reverse`: position `i` holds the element at `n - 1 - i` |
| Feed.ReverseReverse | tblive/popup.js:158-159 | reversing twice restores the order |
| Popup.TrimIds | popup.js:62-66 | past 200 ids exactly the last 100 stay, in insertion order, without repeats |
| Popup.Popup.constructor | popup.js:38-40 | not capturing, no count, no id and no row |
| Popup.Popup.CleanupOldMessages | popup.js:56-67 | rows beyond 100 are removed from the tail and the ids are trimmed |
| Popup.Popup.AddMessageToList | popup.js:70-106 | a recorded id changes nothing; otherwise the id is recorded and the message goes to the top, within 100 rows, keeping every row's id among the newest recorded ones |
| Popup.Popup.ClearMessageList | popup.js:109-112 | rows and ids are emptied |
| Popup.Popup.Toggle | popup.js:124-153 | the flag flips only on a reply with `status === 'success'`, and a successful start also clears the list |
| Popup.Popup.OnRuntimeMessage | popup.js:183-194 | a `newComment` is ignored while not capturing; while capturing it is counted once even when it is a duplicate that is not shown; a new one goes to the top within 100 rows and its id is recorded, keeping the newest 100 ids past 200 |
| Popup.Popup.RestoreCapturing | popup.js:198-203 | a truthy stored flag sets capturing |
| Popup.DisplayedOnce | popup.js:74-80 | no message is displayed twice: the ids of the rows are pairwise distinct |
| Popup.AddKeepsAligned | popup.js:70-106 | adding a message with a new id and cleaning up keeps the rows those of the newest ids |
| LivePopup.LivePopup.constructor | tblive/popup.js:46 | not capturing and no row |
| LivePopup.LivePopup.AddComment | tblive/popup.js:66-96 | the comment goes to the top and rows beyond 1000 are removed from the tail |
| LivePopup.LivePopup.ClearAllData | tblive/popup.js:57-63 | the list is emptied |
| LivePopup.LivePopup.Toggle | tblive/popup.js:99-127 | the flag flips only on a truthy reply with truthy `success`; a successful stop saves the list |
| LivePopup.LivePopup.OnRuntimeMessage | tblive/popup.js:139-150 | only a `newComment` with truthy `data` adds a row |
| LivePopup.LivePopup.RestoreSaved | tblive/popup.js:153-163 | the saved rows are appended in reverse order below the rows shown |
| DanmuQueue.PushFacts | tb_server.py:15 | the queue never passes 100 entries and ends with the new one; below 100 nothing is dropped; at 100 exactly the oldest is dropped |
| DanmuQueue.Deque.constructor | tb_server.py:15 | the queue starts empty |
| DanmuQueue.Deque.Append | tb_server.py:57 | `append` on the bounded deque keeps it within 100 |
| TbServer.Interpret | tb_server.py:17-64 | a record is stored exactly for a dict of type `danmu` whose `data` is a non-empty dict; the call fails exactly when decoding fails or a truthy `data` is not a dict |
| TbServer.ProcessMessage | tb_server.py:17-64 | True with exactly one append, None with none, False with none |
| TbServer.DanmuOfFields | tb_server.py:36-54 | user, content, time, live id and user token are the message's values or the defaults `'unknown'` and `''` |
| TbServer.DanmuOfFormatted | tb_server.py:43 | `formatted` is `"[time] sender [user_token]\ncontent"` over the stored values |
| TbServer.FormattedContentAfterFirstLine | tb_server.py:43 | when time, sender and token hold no line break, the first line break is right after `]` and the content follows it unchanged |
| TbServer.DanmuFrameStored | tb_server.py:28-34 | a frame of the live-console worker is stored exactly when its data has a defined field, with its sender as user or `'unknown'` |
| LiveTbServer.Interpret | tblive/tb_server.py:17-57 | a record is stored exactly for a dict of type `danmu` whose `data` (default `{}`) is a dict; everything else returns False |
| LiveTbServer.ProcessMessage | tblive/tb_server.py:17-57 | True exactly when one record is appended; the queue stays within 100 |
| LiveTbServer.RecordFields | tblive/tb_server.py:24-36 | user, content, time and live id are the values of `data` or the defaults; no user token is stored |
| LiveTbServer.DanmuFrameStored | tblive/tb_server.py:23-39 | every frame of the live-console worker is stored, the empty one included, with its sender as user or `'unknown'` |
| LiveTbServer.ReceiversAgree | tblive/tb_server.py:25-36 | whatever the page-hook receiver stores, this one stores too, with the same user, content, time and live id |

## Left out

- `chrome.*` calls are not modelled as calls: messaging, tab queries, script injection, storage and window creation. A handler's sends are its returned messages; the tab query's answer is a parameter. `ensureContentScriptInjected` and `sendMessageToContentScript` (background.js:13-51) are never called and are not modelled.
- `extractLiveId` (background.js:54-65, content.js:21-48) and `fetchData` (background.js:68-86) read URLs, the DOM and the network. Their results are parameters.
- `Date`, `toLocaleTimeString` and time zones are parameters. The clock maps a timestamp to local hours, minutes and seconds, or to an invalid date.
- The awaited fetch in the request listener of background.js is taken to complete before any other event. Interleavings of two listener runs are not modelled.
- The MutationObserver, the `createElement` override, `__createCallbackProxy` and the URL watcher (inject.js:87-145, tblive/inject.js:120-173) hook the page. Only the callback-name extraction and the injected text are modelled. A `CAPTURED_URL` event is an input of the content script.
- Display text is not modelled. This covers `innerHTML` rendering, live-id and URL labels, button labels, `formatJSON` and the `apiResponse` display of both popups. The saved comments of tblive/popup.js are modelled as the list, not as HTML.
- The `getResponseData` handler of tblive/content.js (lines 128-135) only answers success and is not modelled.
- `lastProcessedUrl` of both content scripts and `tabStates` of the workers are written but never read.
- The WebSocket server loop, asyncio and logging of both receivers are not modelled. Python's `str()` is a parameter of the formatted line.
- JSON numbers are integers, so fractional numbers are not modelled. An object member is read at its first occurrence, while `JSON.parse` and `json.loads` keep the last one; the two agree on objects without repeated keys.
- `JSON.stringify(data, null, 2)` in the `apiResponse` messages is modelled by the packet itself.
- Timers are explicit events: the 1000 ms reconnect delay becomes `OnRetryTimer` and the keep-alive loops are left out.
- BackgroundScript.Background.UpdateLiveId: values have no identity, so `!==` on a room id compares contents. The source compares an object or array id by reference and announces such an id again on every call (background.js:108, background.js:156); ids that are strings or numbers behave alike in both.
- CommentScreen.CommentsOf: a `length` string in hexadecimal, octal, binary or exponent notation (`"0x10"`, `"1e3"`) is not read as a positive number, while `Number()` reads it; decimal strings, `Infinity`, booleans, `null`, numbers and one-element arrays are converted as JavaScript does.
- LiveBackgroundScript.RetriesBounded: counts the retries of successive closes with no open between them, without replaying them through the class.

## Findings

| source | as written | input that shows it | evidently intended | confidence | as-written member | corrected member |
|---|---|---|---|---|---|---|
| tblive/background.js:333-345 | the `onclose` handler clears the shared `ws` and may schedule a retry, whichever socket closed | start capture, the socket opens, stop capture (the socket starts closing), start capture again and the new socket opens, then the first socket's close event arrives: `ws` is cleared and the retry opens a third socket while the second is still open | a close event of a socket that `ws` no longer refers to is ignored | not executed | LiveBackgroundScript.StaleCloseCounterexample | LiveBackgroundScript.LiveBackground.OnCloseGuarded |
