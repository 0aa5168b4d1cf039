# AllLive core, modelled in Dafny

AllLive is a Windows client for Chinese live-streaming sites. This project models its core
and proves properties of the model:

- the Douyin live-comment (danmaku) client, with its reconnect logic;
- the Douyin and Huya site adapters: cookies, search, room details, play qualities and play URLs;
- the signing helpers and script runners that compute Douyin and Douyu request signatures;
- the query-string and form-body builders of the HTTP helper;
- the SQLite helper that stores favourites and watch history, with its repair of garbled site
  names;
- the history page's view model;
- the room-link parser of the parse page;
- the favourite item with its live-status flags.

Each source file becomes one or two Dafny modules:

| Dafny file | module | models |
|---|---|---|
| danmaku_spec.dfy | DanmakuSpec | DouyinDanmaku as a pure state machine: one function per handler, a `Step` over events, and lemmas over whole runs |
| danmaku.dfy | DouyinDanmaku | DouyinDanmaku as a class; each handler is a method proved to move the state as its `DanmakuSpec` function says |
| douyin.dfy | Douyin | Douyin.cs: cookies, search, play qualities, random numbers, msToken, a_bogus URLs |
| huya.dfy | Huya | Huya.cs: room cards, search paging, stream lines, bit rates, play URLs, uuid |
| sign_helper.dfy | SignHelper | DouyinSignHelper.cs: the MS stub, MD5 as hex, the signature retry loop |
| script_runtime.dfy | ScriptRuntime | DouyinScriptRuntime.cs: the current runner, the QuickJS fallback, the resource lookup |
| douyin_script_runner.dfy | DouyinScriptRunner | WebViewDouyinScriptRunner.cs: initialisation, one retry after any failure, reset |
| douyu_sign_runner.dfy | DouyuSignRunner | WebViewDouyuSignRunner.cs: the same for the Douyu signing page |
| js_escape.dfy | JsEscape | the two JavaScript string-escaping helpers and their inverses |
| http_util.dfy | HttpUtil | HttpUtil.cs: query strings and form bodies |
| uri.dfy | UriEscape | `Uri.EscapeDataString` over UTF-8, which the query builder uses |
| database.dfy | Database | DatabaseHelper.cs: the favourite and history tables as sequences of rows |
| history_vm.dfy | HistoryVM | HistoryVM.cs: the list on screen, removal, export and import |
| parse_page.dfy | ParsePage | ParsePage.xaml.cs: extracting a site and a room id from pasted text |
| favorite_item.dfy | FavoriteItem | FavoriteItem.cs and LiveStatus.cs |
| text.dfy, sorting.dfy, wrappers.dfy | Text, Sorting, Wrappers | string helpers, a stable descending sort, `Option` |

Objects whose fields the source updates in place are classes:

- `DanmakuClient`;
- `DouyinSite` (the cookie cache);
- `UrlData` (Huya);
- `Store` (the database);
- `HistoryViewModel`;
- `Favorite`;
- `Runtime`;
- the two WebView runners.

Each of their methods is proved against a pure function of the old state. Network replies,
clocks, random draws, script engines and WebViews are parameters of the model.

## Model

| member | source | states |
|---|---|---|
| DouyinDanmaku.DanmakuClient.constructor | AllLive.Core/Danmaku/DouyinDanmaku.cs:41-47 | a new client holds no socket, timer or token, has counted no attempt, and has sent, raised and dialled nothing |
| DouyinDanmaku.DanmakuClient.Start | AllLive.Core/Danmaku/DouyinDanmaku.cs:59-122 | `argumentError` is set exactly when there are no arguments (the `ArgumentException`), and then nothing changes; the new state is `DanmakuSpec.Start` of the old: the session resets, the endpoints are derived and the primary one is dialled |
| DouyinDanmaku.DanmakuClient.Prepare | AllLive.Core/Danmaku/DouyinDanmaku.cs:61-118 | the arguments are stored, the flags and counter reset, a pending reconnect cancelled, the server URL is the base URL plus the query and the backup URL its host-replaced copy |
| DouyinDanmaku.DanmakuClient.ResetSession | AllLive.Core/Danmaku/DouyinDanmaku.cs:72-75 | stopping, the attempt counter and the backup flag are reset and a pending reconnect is cancelled; nothing else changes |
| DouyinDanmaku.DanmakuClient.OnOpen | AllLive.Core/Danmaku/DouyinDanmaku.cs:124-136 | on the current socket: counter and endpoint reset, reconnect cancelled, one heartbeat sent, timer started; a superseded socket changes nothing |
| DouyinDanmaku.DanmakuClient.OnMessage | AllLive.Core/Danmaku/DouyinDanmaku.cs:138-172 | the new state is `DanmakuSpec.OnMessage` of the old (reset, optional ACK, messages raised in order) |
| DouyinDanmaku.DanmakuClient.DispatchMessages | AllLive.Core/Danmaku/DouyinDanmaku.cs:156-166 | the loop appends exactly `Dispatch(ms)` to the raised messages and changes no other field |
| DouyinDanmaku.DanmakuClient.UnPackWebcastChatMessage | AllLive.Core/Danmaku/DouyinDanmaku.cs:174-191 | a chat with a sender raises one chat line; a payload that fails to decode raises nothing; nothing else changes |
| DouyinDanmaku.DanmakuClient.UnPackWebcastRoomUserSeqMessage | AllLive.Core/Danmaku/DouyinDanmaku.cs:193-211 | a decodable audience count raises one `Online` message; otherwise nothing |
| DouyinDanmaku.DanmakuClient.OnClose | AllLive.Core/Danmaku/DouyinDanmaku.cs:213-223 | ignored while stopping or on a superseded socket; otherwise a failure with the reason, or "Danmaku server closed" when it is empty |
| DouyinDanmaku.DanmakuClient.OnError | AllLive.Core/Danmaku/DouyinDanmaku.cs:225-235 | ignored while stopping or on a superseded socket; otherwise a failure with the error message |
| DouyinDanmaku.DanmakuClient.TimerElapsed | AllLive.Core/Danmaku/DouyinDanmaku.cs:237-240 | a started timer of the current generation sends a heartbeat; any other timer changes nothing |
| DouyinDanmaku.DanmakuClient.Heartbeat | AllLive.Core/Danmaku/DouyinDanmaku.cs:242-245 | the same as sending heartbeat data |
| DouyinDanmaku.DanmakuClient.Stop | AllLive.Core/Danmaku/DouyinDanmaku.cs:247-265 | stopping is set, the reconnect cancelled, counter and endpoint reset, socket and timer dropped |
| DouyinDanmaku.DanmakuClient.SendHeartBeatData | AllLive.Core/Danmaku/DouyinDanmaku.cs:267-275 | one `hb` frame is sent when a socket exists, none otherwise |
| DouyinDanmaku.DanmakuClient.SendAckData | AllLive.Core/Danmaku/DouyinDanmaku.cs:277-292 | an empty `internalExt` sends nothing; otherwise one frame with the log id, if a socket exists |
| DouyinDanmaku.DanmakuClient.ConnectAsync | AllLive.Core/Danmaku/DouyinDanmaku.cs:354-406 | the new state is `DanmakuSpec.ConnectAsync` of the old: the old socket dropped, the target dialled, a fault handled as a failure |
| DouyinDanmaku.DanmakuClient.OpenSocket | AllLive.Core/Danmaku/DouyinDanmaku.cs:369-394 | a new socket for the URL and a new stopped timer, each under a fresh handle; the URL is logged as dialled |
| DouyinDanmaku.DanmakuClient.CleanupWebSocket | AllLive.Core/Danmaku/DouyinDanmaku.cs:408-437 | socket and timer are dropped; nothing else changes |
| DouyinDanmaku.DanmakuClient.HandleConnectionFailure | AllLive.Core/Danmaku/DouyinDanmaku.cs:439-465 | the new state is `DanmakuSpec.HandleConnectionFailure` of the old (see the lemmas below for what that does) |
| DouyinDanmaku.DanmakuClient.ScheduleReconnect | AllLive.Core/Danmaku/DouyinDanmaku.cs:467-488 | the old token is cancelled and a fresh one is held and scheduled |
| DouyinDanmaku.DanmakuClient.RetryFired | AllLive.Core/Danmaku/DouyinDanmaku.cs:473-487 | the corrected delayed reconnect `RetryFiredReleasing` (see Findings) |
| DouyinDanmaku.DanmakuClient.CancelReconnect | AllLive.Core/Danmaku/DouyinDanmaku.cs:490-498 | a held token is cancelled and released; with none nothing changes |
| DouyinDanmaku.DanmakuClient.Handle | AllLive.Core/Danmaku/DouyinDanmaku.cs:124-265 | each event moves the client exactly as `DanmakuSpec.StepFixed` says |
| DanmakuSpec.DefaultSignatureProvider | AllLive.Core/Danmaku/DouyinDanmaku.cs:340-352 | the helper's signature when it is neither empty nor "00000000"; otherwise the fallback's, or "00000000" when the fallback fails (`SignatureProviderPrefersReal` states what the answer guarantees) |
| DanmakuSpec.StaleSocketIgnored | AllLive.Core/Danmaku/DouyinDanmaku.cs:408-418 | open, message, close and error events of a superseded socket change nothing, because its handlers were detached |
| DanmakuSpec.FailureWhileScheduled | AllLive.Core/Danmaku/DouyinDanmaku.cs:444-448 | while a reconnect token is held, a failure changes nothing |
| DanmakuSpec.FailureWithinBudget | AllLive.Core/Danmaku/DouyinDanmaku.cs:450-464 | within the budget a failure counts one attempt, raises "reconnecting (n/5)", flips the endpoint when a backup is known, and schedules one reconnect under a fresh token |
| DanmakuSpec.FailureBeyondBudget | AllLive.Core/Danmaku/DouyinDanmaku.cs:453-459 | past five attempts a failure raises the reason (or "Reconnect failed") and schedules nothing |
| DanmakuSpec.CancelReconnectIdempotent | AllLive.Core/Danmaku/DouyinDanmaku.cs:490-498 | cancelling twice is cancelling once; afterwards no token is held and the old one counts as cancelled |
| DanmakuSpec.CleanupClears | AllLive.Core/Danmaku/DouyinDanmaku.cs:408-437 | cleanup leaves neither socket nor timer, touches no other field, and is a no-op when both are absent |
| DanmakuSpec.RetryOnlyIfLive | AllLive.Core/Danmaku/DouyinDanmaku.cs:473-487 | the delayed task dials only when its token is pending and not cancelled, and then dials the endpoint chosen at the failure; it never fires twice |
| DanmakuSpec.ConnectTarget | AllLive.Core/Danmaku/DouyinDanmaku.cs:356-404 | the backup URL is dialled exactly when asked for and known; new socket and stopped timer under fresh handles; a fault leaves neither |
| DanmakuSpec.OpenResets | AllLive.Core/Danmaku/DouyinDanmaku.cs:124-136 | opening resets counter and endpoint, holds no token, sends one heartbeat and starts the timer |
| DanmakuSpec.TimerHeartbeat | AllLive.Core/Danmaku/DouyinDanmaku.cs:237-245 | a timer event sends a heartbeat exactly when it is the current, started timer and a socket exists |
| DanmakuSpec.MessageHandled | AllLive.Core/Danmaku/DouyinDanmaku.cs:138-172 | a frame resets the counter, is acknowledged exactly when `needAck` is true and `internalExt` is non-empty (log id 0 when absent), and raises its sub-messages in order; an undecodable frame only resets |
| DanmakuSpec.DispatchConcat | AllLive.Core/Danmaku/DouyinDanmaku.cs:156-166 | sub-messages are handled independently: dispatching a concatenation raises the two results concatenated |
| DanmakuSpec.UnPackCases | AllLive.Core/Danmaku/DouyinDanmaku.cs:158-209 | a chat with a sender raises one chat line with its content and nickname; an audience count raises one `Online`; unknown methods and undecodable payloads raise nothing |
| DanmakuSpec.DispatchBound | AllLive.Core/Danmaku/DouyinDanmaku.cs:156-166 | a frame raises at most one message per sub-message |
| DanmakuSpec.StartConnects | AllLive.Core/Danmaku/DouyinDanmaku.cs:59-122 | with arguments, `Start` resets the retry state, sets the server URL to base URL plus query and the backup URL to its host-replaced copy of equal length, and dials the server URL |
| DanmakuSpec.StepKeepsInv | AllLive.Core/Danmaku/DouyinDanmaku.cs:439-498 | every handler of the client as written preserves the invariant: tokens fresh, the counter at most 1, every notice "reconnecting (1/5)" |
| DanmakuSpec.StartKeepsInv | AllLive.Core/Danmaku/DouyinDanmaku.cs:59-122 | `Start` preserves that invariant |
| DanmakuSpec.RetryKeepsInv | AllLive.Core/Danmaku/DouyinDanmaku.cs:473-487 | the delayed reconnect as written preserves that invariant |
| DanmakuSpec.FailureKeepsInv | AllLive.Core/Danmaku/DouyinDanmaku.cs:439-465 | a connection failure preserves that invariant |
| DanmakuSpec.ConnectKeepsInv | AllLive.Core/Danmaku/DouyinDanmaku.cs:354-406 | a connection attempt preserves that invariant |
| DanmakuSpec.RunKeepsInv | AllLive.Core/Danmaku/DouyinDanmaku.cs:59-498 | every run of events preserves that invariant |
| DanmakuSpec.ExhaustionUnreachable | AllLive.Core/Danmaku/DouyinDanmaku.cs:453-459 | as written, from a new client no run of events reaches a second attempt, and every notice is "reconnecting (1/5)" |
| DanmakuSpec.QuietRun | AllLive.Core/Danmaku/DouyinDanmaku.cs:213-265 | once stopped and settled, no event other than `Start` dials, sends, raises or reconnects |
| DanmakuSpec.StopIsFinal | AllLive.Core/Danmaku/DouyinDanmaku.cs:247-265 | after `Stop`, events other than `Start` change nothing the client has sent, raised or dialled, and it stays without a socket or token |
| DanmakuSpec.FirstRetryUsesBackup | AllLive.Core/Danmaku/DouyinDanmaku.cs:461-462 | as written, the first reconnect after a reset dials the backup endpoint |
| DanmakuSpec.StuckAfterFirstRetry | AllLive.Core/Danmaku/DouyinDanmaku.cs:444-448 | start, close, retry, close: the retry keeps its token, so the second failure is dropped and no close or error of the new socket ever changes the client |
| DanmakuSpec.ReleasingRetry | AllLive.Core/Danmaku/DouyinDanmaku.cs:473-487 | the corrected retry dials under the same conditions, never fires twice, and releases the held token it fired under |
| DanmakuSpec.RoundCounts | AllLive.Core/Danmaku/DouyinDanmaku.cs:439-465 | with the corrected retry, one close-and-retry round counts one attempt, raises the next interim notice, flips the endpoint and dials the other one |
| DanmakuSpec.RoundsCount | AllLive.Core/Danmaku/DouyinDanmaku.cs:439-465 | k rounds count k attempts, raise notices n+1 to n+k in order and flip the endpoint k times |
| DanmakuSpec.RoundsDial | AllLive.Core/Danmaku/DouyinDanmaku.cs:461-480 | k rounds dial the two endpoints alternately, starting with the one not used last |
| DanmakuSpec.FixedGivesUp | AllLive.Core/Danmaku/DouyinDanmaku.cs:453-459 | with the corrected retry, the failure after the budget is spent raises the final reason and schedules nothing; it covers a non-empty reason, and the empty reason ("Reconnect failed") is stated by `FailureBeyondBudget` |
| DanmakuSpec.FiveRounds | AllLive.Core/Danmaku/DouyinDanmaku.cs:41 | from a fresh connection the budget is five notices "1/5" to "5/5" and five dials backup, primary, backup, primary, backup |
| DanmakuSpec.SignatureProviderPrefersReal | AllLive.Core/Danmaku/DouyinDanmaku.cs:340-352 | a real signature from either source is answered, the helper's first; "00000000" only when the helper failed; "" only when the fallback itself answered ""; the answer is always one of the two |
| DanmakuSpec.Start | AllLive.Core/Danmaku/DouyinDanmaku.cs:59-122 | `Start`: without arguments the `ArgumentException` leaves the client as it was; with arguments the session is reset, the endpoints derived and the primary one dialled (`StartConnects`, `StartKeepsInv`) |
| DanmakuSpec.OnOpen | AllLive.Core/Danmaku/DouyinDanmaku.cs:124-136 | `Ws_OnOpen`: a stale socket is ignored; otherwise the attempts and the backup flag reset, a scheduled reconnect is cancelled, a heartbeat goes out and the timer starts (`OpenResets`) |
| DanmakuSpec.OnMessage | AllLive.Core/Danmaku/DouyinDanmaku.cs:138-172 | `Ws_OnMessage`: a stale socket is ignored; the attempts reset; an undecodable frame raises nothing; otherwise an ack when one is asked for, then the messages of every sub-message in order (`MessageHandled`) |
| DanmakuSpec.OnClose | AllLive.Core/Danmaku/DouyinDanmaku.cs:213-223 | `Ws_OnClose`: ignored for a stale socket or while stopping; otherwise a connection failure, an empty reason read as the server having closed |
| DanmakuSpec.OnError | AllLive.Core/Danmaku/DouyinDanmaku.cs:225-235 | `Ws_OnError`: ignored for a stale socket or while stopping; otherwise a connection failure with the error's message |
| DanmakuSpec.Stop | AllLive.Core/Danmaku/DouyinDanmaku.cs:247-265 | `Stop`: stopping is set, a scheduled reconnect cancelled, attempts and backup flag reset, socket and timer dropped (`StopIsFinal`, `QuietRun`) |
| DanmakuSpec.HandleConnectionFailure | AllLive.Core/Danmaku/DouyinDanmaku.cs:439-465 | a failure while a reconnect is scheduled is skipped; otherwise it is counted, and within five attempts a notice is raised, the backup flag flips and a reconnect is scheduled, beyond them the client gives up with a notice (`FailureWhileScheduled`, `FailureWithinBudget`, `FailureBeyondBudget`) |
| DanmakuSpec.ScheduleReconnect | AllLive.Core/Danmaku/DouyinDanmaku.cs:467-488 | a scheduled reconnect is cancelled and a fresh token is held and pending (`FailureWithinBudget`) |
| DanmakuSpec.CancelReconnect | AllLive.Core/Danmaku/DouyinDanmaku.cs:490-498 | the held token, if any, is cancelled and released (`CancelReconnectIdempotent`) |
| DanmakuSpec.RetryFired | AllLive.Core/Danmaku/DouyinDanmaku.cs:473-487 | the delayed reconnect as written: a token no longer pending does nothing, a cancelled one only leaves the pending set, otherwise it dials while the client still holds the token (`RetryOnlyIfLive`, `StuckAfterFirstRetry`) |
| DanmakuSpec.RetryFiredReleasing | AllLive.Core/Danmaku/DouyinDanmaku.cs:467-488 | the delayed reconnect as intended: the same, but its token is released before it dials (`ReleasingRetry`, `FixedGivesUp`) |
| DanmakuSpec.ConnectAsync | AllLive.Core/Danmaku/DouyinDanmaku.cs:354-406 | the old socket and timer are dropped and a new socket dials the backup url when asked for and present, else the primary; an exception while connecting is a connection failure (`ConnectTarget`, `ConnectKeepsInv`) |
| DanmakuSpec.Step | AllLive.Core/Danmaku/DouyinDanmaku.cs:59-498 | one event of the client as written: start, socket open, message, close or error, timer, heartbeat, delayed retry, stop (`StepKeepsInv`, `RunKeepsInv`) |
| DanmakuSpec.StepFixed | AllLive.Core/Danmaku/DouyinDanmaku.cs:467-488 | one event with the corrected delayed retry, every other event as written (`FixedGivesUp`) |
| DanmakuSpec.Dispatch | AllLive.Core/Danmaku/DouyinDanmaku.cs:156-166 | the messages raised by the sub-messages, in their order (`DispatchConcat`, `DispatchBound`) |
| DanmakuSpec.UnPack | AllLive.Core/Danmaku/DouyinDanmaku.cs:158-209 | a chat with a sender raises one chat line, a user-count message one audience count, anything else or an undecodable payload nothing (`UnPackCases`) |
| Douyin.CookiePair | AllLive.Core/Douyin.cs:74 | the pair is the Set-Cookie value's text before its first ';' (the first part of the split), holds no ';' and starts the value |
| Douyin.KeptCookiesShape | AllLive.Core/Douyin.cs:72-78 | every kept pair mentions one of the keys, is non-empty and holds no ';' |
| Douyin.TerminatedTrimmed | AllLive.Core/Douyin.cs:76-82 | the builder's text is the kept pairs joined by ';' plus one ';', and trimming the trailing ';' gives back exactly the join |
| Douyin.BuiltCookie | AllLive.Core/Douyin.cs:72-83 | the builder is empty exactly when nothing was kept; otherwise trimming it gives the kept pairs joined by ';' |
| Douyin.RefreshedCookie | AllLive.Core/Douyin.cs:46-89 | when something is kept, the installed Cookie header splits back at ';' into exactly the kept pairs in order; a forced refresh drops the old `cookie` entry; every other header is unchanged |
| Douyin.RefreshedNothingKept | AllLive.Core/Douyin.cs:53-89 | when the HEAD fails or keeps nothing, no Cookie header is installed: a forced refresh leaves neither spelling, an unforced one leaves the headers as they were |
| Douyin.DouyinSite.constructor | AllLive.Core/Douyin.cs:36-43 | a new site holds the initial headers; the verified search cookie (a static field, written at AllLive.Core/Douyin.cs:825 and read at line 747) is not a field here but the `verified` parameter threaded through `Search` and `SearchAsWritten` |
| Douyin.DouyinSite.GetRequestHeaders | AllLive.Core/Douyin.cs:46-89 | an existing Cookie or cookie header is reused unless a refresh is forced; otherwise the headers become `Refreshed` of the old ones (the harvest loop is proved against `Terminated(KeptCookies(...))`) |
| Douyin.DouyinSite.GetWebCookie | AllLive.Core/Douyin.cs:461-476 | the shared headers are harvested first when they hold no cookie; a room HEAD that fails or has no Set-Cookie header is an error (None); otherwise the result is each kept pair followed by ';', without trimming |
| Douyin.DouyinSite.GetSearchCookie | AllLive.Core/Douyin.cs:481-519 | with a HEAD response, the pairs with any of the five keys joined by ';' (empty without Set-Cookie); when the HEAD fails, a forced header refresh and its Cookie entry (None where the lookup throws) |
| Douyin.WebCookieVersusHeader | AllLive.Core/Douyin.cs:461-476 | the web cookie is the header cookie plus a trailing ';' |
| Douyin.KeptRoomsSound | AllLive.Core/Douyin.cs:866-887 | every kept room has a room id and comes from the answer; no more rooms than items |
| Douyin.KeptRoomsComplete | AllLive.Core/Douyin.cs:866-887 | every item with rawdata and a non-empty room id is kept |
| Douyin.SearchAsWrittenUnbounded | AllLive.Core/Douyin.cs:812-830 | as written, a server that always demands verification and a handler that always succeeds make the search recurse past any budget |
| Douyin.Search | AllLive.Core/Douyin.cs:693-898 | the corrected search issues one or two requests (one when it already uses the verified cookie), the first with the verified cookie when asked for and known, else the fresh one |
| Douyin.SearchRetriesOnce | AllLive.Core/Douyin.cs:812-830 | a successful verification retries once with the handler's cookie; whatever the retry is answered, the search then ends |
| Douyin.SearchRooms | AllLive.Core/Douyin.cs:848-898 | every room returned has a room id; an answer with a room list gives the kept rooms, with `hasMore` exactly when the server says 1 or ten rooms were kept |
| Douyin.ByLevel | AllLive.Core/Douyin.cs:625-634 | the entry at `Count - level` exactly when that index is in range, else nothing |
| Douyin.CandidatesShape | AllLive.Core/Douyin.cs:618-678 | every candidate has one or two urls and is a listed quality with its own urls |
| Douyin.PlayQualityOrdered | AllLive.Core/Douyin.cs:607-686 | the result is sorted by `Sort` descending, a permutation of the qualities that have a url, stable among equal `Sort`, and each has one or two urls |
| Douyin.SortedKeepsKeys | AllLive.Core/Douyin.cs:684 | for each `Sort` value, sorting keeps the qualities with that value in their listed order |
| Douyin.SortedKeepsUrls | AllLive.Core/Douyin.cs:684 | every sorted quality has one or two urls |
| Douyin.UrlsOf | AllLive.Core/Douyin.cs:622-665 | the urls of one quality: by level from the pull lists when `stream_data` is not a JSON object, else the non-empty flv and hls urls under its sdk key |
| Douyin.GetPlayQuality | AllLive.Core/Douyin.cs:607-686 | no data gives no qualities; otherwise the loop builds exactly the candidates and sorts them descending |
| Douyin.RouteByLength | AllLive.Core/Douyin.cs:257-279 | 11-12 digit web rids go to the web-rid lookup, 19-digit room ids to the room-id lookup, and only ids of 17 or more characters to the latter |
| Douyin.Next | AllLive.Core/Douyin.cs:929-933 | `Random.Next(lo, hi)` lies in [lo, hi) |
| Douyin.GenerateRandomNumber | AllLive.Core/Douyin.cs:920-937 | `length` digits, the first drawn from [1, 9) and the rest from [0, 9) |
| Douyin.RandomDigitsRange | AllLive.Core/Douyin.cs:920-937 | the first digit is 1-8 and every digit is 0-8: the digit 9 never occurs |
| Douyin.CharRange | AllLive.Core/Douyin.cs:987 | n consecutive characters from the first one |
| Douyin.MsToken | AllLive.Core/Douyin.cs:985-999 | one alphabet character per byte, `chars[b % 62]` |
| Douyin.GenerateMsToken | AllLive.Core/Douyin.cs:985-999 | a 107-character token equal to `MsToken(buffer)` |
| Douyin.MsTokenUnescaped | AllLive.Core/Douyin.cs:963-973 | the token is alphanumeric, so URL escaping leaves it unchanged |
| Douyin.QueryParam | AllLive.Core/Douyin.cs:965-973 | an appended msToken or a_bogus parameter, its value escaped, holds no '&' |
| Douyin.SignedQueryParts | AllLive.Core/Douyin.cs:961-973 | split at '&', the final query is the original parameters, then the token, then the a_bogus value when there is one |
| Douyin.ABogusUrl | AllLive.Core/Douyin.cs:939-983 | the signed URL keeps the path, and its query reads back as the original parameters plus the appended ones; a URL that does not parse or a signer that throws leaves the URL unchanged |
| Douyin.GetABougs | AllLive.Core/Douyin.cs:939-983 | the url with the msToken and, when the signer produced a non-empty value, the a_bogus parameter added to its query; on any exception the url unchanged (`ABogusUrl`, `SignedQueryParts`) |
| Douyin.RouteRoomDetail | AllLive.Core/Douyin.cs:257-279 | ids of up to 16 characters are web rids, longer ones room ids (`RouteByLength`) |
| Douyin.SearchAsWritten | AllLive.Core/Douyin.cs:698-898 | the search as written, with its retry after verification asking for verification again (`SearchAsWrittenUnbounded`) |
| Douyin.KeptCookies | AllLive.Core/Douyin.cs:72-78 | the cookie pairs of the Set-Cookie values that mention one of the keys, in order (`KeptCookiesShape`, `BuiltCookie`) |
| Douyin.Refreshed | AllLive.Core/Douyin.cs:46-89 | the headers after a refetch: a forced refresh drops both cookie headers, and the kept pairs joined by ';' become the Cookie header when there are any (`RefreshedCookie`, `RefreshedNothingKept`) |
| Douyin.Candidates | AllLive.Core/Douyin.cs:618-678 | the qualities with at least one url, before sorting (`CandidatesShape`, `PlayQualityOrdered`) |
| Huya.CoverUrl | AllLive.Core/Huya.cs:84-88 | a screenshot without '?' gets the thumbnail style appended; one with '?' is kept |
| Huya.CoverUrlIdempotent | AllLive.Core/Huya.cs:84-88 | every cover then contains '?', so applying the rule twice is applying it once |
| Huya.Title | AllLive.Core/Huya.cs:89-93 | the introduction unless it is null or empty, else the room name, else "" (`TitleEmpty` states when the title is empty) |
| Huya.ListRooms | AllLive.Core/Huya.cs:73-104 | one card per entry in order, with cover and title rules; more pages exactly when the page is before the last |
| Huya.SearchRooms | AllLive.Core/Huya.cs:295-329 | one card per document in order; more pages exactly when more than `page * 20` results were found |
| Huya.SearchPaging | AllLive.Core/Huya.cs:308-327 | pages hold 20 results, and there is more exactly when results lie past the page's end |
| Huya.ValidLines | AllLive.Core/Huya.cs:171-178 | exactly the stream infos with a positive priority are kept, a missing priority counting as -1 |
| Huya.FirstOfCdn | AllLive.Core/Huya.cs:190 | the first valid line of the entry's CDN type, and None exactly when there is none |
| Huya.LinesSound | AllLive.Core/Huya.cs:181-206 | every line comes from a usable FLV entry and the first valid line of its CDN type, and every usable entry yields its line |
| Huya.BuildLines | AllLive.Core/Huya.cs:165-206 | the loop builds exactly `Lines`, and the channel ids are those of the last line built (0 when none) |
| Huya.DedupFirst | AllLive.Core/Huya.cs:221-231 | the deduplicated bitrates hold every display name exactly once, each as its first entry |
| Huya.DedupBitRates | AllLive.Core/Huya.cs:221-231 | the loop builds exactly `Dedup` of the entries |
| Huya.GetRoomDetail | AllLive.Core/Huya.cs:140-266 | a status other than 200 or a missing stream gives an offline detail; otherwise the title, lines, channel ids, deduplicated bitrates (from `bitRateInfo`, else `rateArray`) and the live flag; whenever a stream is present the live flag is what `GetLiveStatus` answers for the same room, and a live detail is never reported offline by it |
| Huya.GetLiveStatus | AllLive.Core/Huya.cs:526-535 | live exactly when the request returned 200 and the status is "ON" or "REPLAY", the same flag `GetRoomDetail` reports for a room with a stream |
| Huya.UrlData.constructor | AllLive.Core/Huya.cs:541-548 | the play data holds the given bitrates and lines |
| Huya.EffectiveBitRates | AllLive.Core/Huya.cs:338-352 | a null or empty bitrate list becomes the two defaults; any other list is kept |
| Huya.Qualities | AllLive.Core/Huya.cs:385-422 | one quality per bitrate, in order, each with its name and bitrate and all of the room's lines |
| Huya.GetPlayQuality | AllLive.Core/Huya.cs:330-428 | no data gives no qualities; otherwise the defaults and an empty line list are written back into the data, then one quality per bitrate |
| Huya.DefaultQualities | AllLive.Core/Huya.cs:338-352 | a room without bitrates offers the original (0) and the 2000 kbps quality on its lines |
| Huya.AbsoluteBase | AllLive.Core/Huya.cs:513-517 | the host starts with "http" afterwards, and one that already does is unchanged |
| Huya.FallbackAbsolute | AllLive.Core/Huya.cs:512-523 | the fallback URL is absolute |
| Huya.CodecTailCases | AllLive.Core/Huya.cs:499-522 | the URL parameters are `&codec=264`, followed by `&ratio=` and the bitrate exactly when the bitrate is positive |
| Huya.UrlEnds | AllLive.Core/Huya.cs:486-524 | both the token URL and the fallback URL end in those parameters |
| Huya.GetPlayUrls | AllLive.Core/Huya.cs:470-484 | no lines give no URLs; otherwise one URL per line, in order, each from that line's token answer |
| Huya.WrapInt32 | AllLive.Core/Huya.cs:284 | the 32-bit wrap of a product lies in the `int` range and differs from it by a multiple of 2^32 |
| Huya.TruncRem | AllLive.Core/Huya.cs:284 | C# `%` keeps the dividend's sign |
| Huya.GetUuidAsWritten | AllLive.Core/Huya.cs:282-285 | the uuid as written lies strictly between `-uint.MaxValue` and `uint.MaxValue` |
| Huya.UuidAsWrittenNegative | AllLive.Core/Huya.cs:284 | a clock just past a multiple of 10^10 ms and the draw 2147484 give the negative uuid -2147483296 |
| Huya.GetUuid | AllLive.Core/Huya.cs:282-285 | the corrected uuid is a non-negative value below `uint.MaxValue` |
| Huya.UuidAgrees | AllLive.Core/Huya.cs:284 | where `1000 * draw` does not overflow, the uuid as written and the corrected one agree |
| Huya.TitleEmpty | AllLive.Core/Huya.cs:89-93 | the title is empty exactly when the introduction is null or empty and the room name null or empty, and it is always one of the two |
| Huya.IsLive | AllLive.Core/Huya.cs:237-238 | `liveStatus` "ON" or "REPLAY" counts as live; `GetRoomDetail` and `GetLiveStatus` both state their flag through it |
| Huya.Lines | AllLive.Core/Huya.cs:181-206 | one line per FLV entry with a valid CDN, in order (`LinesSound`, `BuildLines`) |
| Huya.Dedup | AllLive.Core/Huya.cs:221-231 | the bitrates with repeated display names dropped, the first of each kept (`DedupFirst`, `DedupBitRates`) |
| Huya.GetRealUrl | AllLive.Core/Huya.cs:486-524 | the token's anti-code url when the token request gave one, otherwise the fallback url, both ending in the codec tail (`UrlEnds`) |
| Huya.FallbackUrl | AllLive.Core/Huya.cs:512-523 | the line made absolute, the stream name and the line's own anti-code (`FallbackAbsolute`, `AbsoluteBase`) |
| Huya.SearchStart | AllLive.Core/Huya.cs:308 | a search page starts 20 results after the previous one (`SearchPaging`) |
| SignHelper.StubFields | AllLive.Core/Helper/DouyinSignHelper.cs:68-77 | the stub has thirteen fields, the room id in the `room_id` slot and the user id in the `user_unique_id` slot |
| SignHelper.StubSlots | AllLive.Core/Helper/DouyinSignHelper.cs:65-80 | when neither id holds a comma, splitting the stub at commas gives back exactly its thirteen fields |
| SignHelper.HexDigit | AllLive.Core/Helper/DouyinSignHelper.cs:91 | a nibble formats as a lowercase hex digit |
| SignHelper.Hex | AllLive.Core/Helper/DouyinSignHelper.cs:88-93 | two lowercase hex digits per byte |
| SignHelper.HexRoundTrip | AllLive.Core/Helper/DouyinSignHelper.cs:88-93 | reading the hex text back two digits at a time gives every digest byte: the formatting loses nothing |
| SignHelper.ComputeMd5 | AllLive.Core/Helper/DouyinSignHelper.cs:82-95 | the loop produces exactly `Hex` of the digest |
| SignHelper.BuildMsStub | AllLive.Core/Helper/DouyinSignHelper.cs:65-80 | the appended text is exactly the thirteen fields joined by commas, and the stub is its digest in hex |
| SignHelper.SignatureCallArguments | AllLive.Core/Helper/DouyinSignHelper.cs:43-48 | a hex stub needs no escaping, so a user agent on one line is read back exactly, with the stub; a user agent holding a line break leaves the call unreadable |
| SignHelper.Attempts | AllLive.Core/Helper/DouyinSignHelper.cs:46-53 | the loop makes at least one and at most five evaluations |
| SignHelper.Generated | AllLive.Core/Helper/DouyinSignHelper.cs:31-63 | at most five evaluations; the signature is "00000000" or non-empty; a missing script or a null user agent gives "00000000" without evaluating |
| SignHelper.GenerateSignature | AllLive.Core/Helper/DouyinSignHelper.cs:31-63 | the loop, which stops at the first acceptable value, gives exactly `Generated` |
| SignHelper.GetSignature | AllLive.Core/Helper/DouyinSignHelper.cs:21-29 | a blank room or user id gives "00000000" without evaluating; otherwise `Generated` |
| SignHelper.StopsAtFirstAcceptable | AllLive.Core/Helper/DouyinSignHelper.cs:46-53 | the first answer that is non-empty and holds neither '-' nor '=' is returned, after that many evaluations |
| SignHelper.KeepsLastValue | AllLive.Core/Helper/DouyinSignHelper.cs:44-55 | without an acceptable answer, all five evaluations are made and the last value is kept |
| SignHelper.RejectedValueReturned | AllLive.Core/Helper/DouyinSignHelper.cs:44-55 | an example: with a one-line user agent and an engine that always answers "a-b=", the engine is asked five times and that rejected value is still returned |
| SignHelper.ThrowEndsLoop | AllLive.Core/Helper/DouyinSignHelper.cs:58-62 | an evaluation that throws ends the loop at once |
| SignHelper.StubText | AllLive.Core/Helper/DouyinSignHelper.cs:65-80 | the stub fields joined by commas (`StubSlots`, `StubFields`) |
| SignHelper.SignatureCall | AllLive.Core/Helper/DouyinSignHelper.cs:48 | the signature call: the hex stub as it is and the escaped user agent (`SignatureCallArguments`) |
| SignHelper.Acceptable | AllLive.Core/Helper/DouyinSignHelper.cs:49 | a value the loop accepts: non-null, non-empty, without '-' or '=' (`StopsAtFirstAcceptable`) |
| SignHelper.Engine | AllLive.Core/Helper/DouyinSignHelper.cs:46-53 | the k-th evaluation of the signature call: a call that does not parse throws, any other is answered by the script (`SignatureLineBreak`) |
| SignHelper.SignatureLineBreak | AllLive.Core/Helper/DouyinSignHelper.cs:31-63 | a user agent holding a line break makes the first evaluation throw, so the signature is "00000000" after one evaluation |
| ScriptRuntime.FirstWithSuffixSpec | AllLive.Core/Helper/DouyinScriptRuntime.cs:114-126 | the lookup finds nothing iff no resource name ends with the suffix (ignoring case); otherwise it is the first name that does |
| ScriptRuntime.FindResourceName | AllLive.Core/Helper/DouyinScriptRuntime.cs:114-126 | the loop over the manifest names answers the first name ending with the suffix, or nothing |
| ScriptRuntime.ArgumentsRead | AllLive.Core/Helper/DouyinScriptRuntime.cs:58-63 | the call text built from two escaped literals on one line each is read back as exactly those two values; a line break in either leaves the call unreadable |
| ScriptRuntime.CallArguments | AllLive.Core/Helper/DouyinScriptRuntime.cs:58-63 | the script engine is handed the caller's two values, with null passed as "", when both are on one line; otherwise the call does not parse |
| ScriptRuntime.QuickJsCall | AllLive.Core/Helper/DouyinScriptRuntime.cs:50-112 | a non-empty answer means the embedded script was found and loaded, the call parsed and the engine returned that value; a failure, a syntax error included, gives "" |
| ScriptRuntime.EvaluateSignature | AllLive.Core/Helper/DouyinScriptRuntime.cs:37-72 | the Null runner answers "", the QuickJS runner answers what its engine returns for `getMSSDKSignature` |
| ScriptRuntime.GenerateABogus | AllLive.Core/Helper/DouyinScriptRuntime.cs:37-96 | the Null runner answers "", the QuickJS runner answers what its engine returns for `getABogus` |
| ScriptRuntime.QuickJsAnswer | AllLive.Core/Helper/DouyinScriptRuntime.cs:74-96 | a non-empty a_bogus answer means the query and user agent were on one line and the engine returned it for a call carrying exactly those two values |
| ScriptRuntime.Runtime.constructor | AllLive.Core/Helper/DouyinScriptRuntime.cs:27-34 | the default runner is the Null runner on the platform without an engine and the QuickJS runner otherwise |
| ScriptRuntime.Runtime.SetCurrent | AllLive.Core/Helper/DouyinScriptRuntime.cs:21-25 | assigning null is an argument error that keeps the runner; any other runner replaces it |
| ScriptRuntime.NoEngineDefault | AllLive.Core/Helper/DouyinScriptRuntime.cs:27-42 | on the platform without an engine both calls answer "" whatever the inputs |
| ScriptRuntime.FirstWithSuffix | AllLive.Core/Helper/DouyinScriptRuntime.cs:114-126 | the first resource name ending with the suffix, ignoring case (`FirstWithSuffixSpec`, `FindResourceName`) |
| ScriptRuntime.ArgumentsOf | AllLive.Core/Helper/DouyinScriptRuntime.cs:58-63 | the two string arguments the engine reads from a call, or nothing when the call does not parse (`ArgumentsRead`, `CallArguments`) |
| ScriptRuntime.Evaluate | AllLive.Core/Helper/DouyinScriptRuntime.cs:58-72 | a call whose arguments do not parse throws; any other is answered by the script (`QuickJsCall`, `QuickJsLineBreak`) |
| ScriptRuntime.QuickJsLineBreak | AllLive.Core/Helper/DouyinScriptRuntime.cs:37-96 | a query or user agent holding a carriage return or a line feed makes the engine throw, so both QuickJS calls answer "" |
| JsEscape.EscapeQuotesConcat | AllLive.Core/Helper/DouyinScriptRuntime.cs:128-133 | the backslash-and-quote escape of a concatenation is the concatenation of the escapes |
| JsEscape.EscapeQuotesOne | AllLive.Core/Helper/DouyinScriptRuntime.cs:128-133 | a single character escapes to its per-character escape (a backslash to two, a quote to backslash-quote, others unchanged) |
| JsEscape.EscapeQuotesPerChar | AllLive.Core/Helper/DouyinScriptRuntime.cs:128-133 | the two chained replacements act character by character: the backslash added before a quote is never doubled |
| JsEscape.QuotesRoundTrip | AllLive.Core/Helper/DouyinSignHelper.cs:127-130 | the escaped text read as a literal body stands for the original value |
| JsEscape.QuoteCharsRoundTrip | AllLive.Core/Helper/DouyinScriptRuntime.cs:128-133 | the per-character escape read as a literal body stands for the original value |
| JsEscape.QuotesGuarded | AllLive.Core/Helper/DouyinScriptRuntime.cs:128-133 | every quote in the escaped text is preceded by a backslash |
| JsEscape.QuotesUnchanged | AllLive.Core/Helper/DouyinSignHelper.cs:127-130 | a value without backslashes or quotes is left as it is |
| JsEscape.ReadQuoteChars | AllLive.Core/Helper/DouyinScriptRuntime.cs:58-63 | the per-character escape followed by a quote is read as exactly the value, ending at that quote, when the value is on one line; a value holding a line break is a syntax error |
| JsEscape.ReadEscaped | AllLive.Core/Helper/DouyinScriptRuntime.cs:58-63 | an escaped value cannot close the literal early: on one line it reads back as the value, ending at the closing quote; with a raw line break it is a syntax error |
| JsEscape.EscapeJavaScriptString | AllLive.Core/Helper/DouyinScriptRuntime.cs:128-133 | null escapes to ""; any other value escapes to a text that stands for the value and is on one line exactly when the value is |
| JsEscape.EscapeLinesConcat | AllLive.UWP/Helper/WebViewDouyinScriptRunner.cs:267-274 | the four-replacement escape of a concatenation is the concatenation of the escapes |
| JsEscape.EscapeLinesOne | AllLive.UWP/Helper/WebViewDouyinScriptRunner.cs:267-274 | a single character escapes to its per-character escape (`\\`, `\'`, `\r`, `\n`, or itself) |
| JsEscape.EscapeLinesPerChar | AllLive.UWP/Helper/WebViewDouyinScriptRunner.cs:267-274 | the four chained replacements act character by character: none rewrites what an earlier one inserted |
| JsEscape.UnescapeLinesHead | AllLive.UWP/Helper/WebViewDouyinScriptRunner.cs:267-274 | one escaped character reads back as that character, whatever follows |
| JsEscape.LineCharsRoundTrip | AllLive.UWP/Helper/WebViewDouyinScriptRunner.cs:267-274 | the per-character escape reads back as the original value |
| JsEscape.LineCharsSingleLine | AllLive.UWP/Helper/WebViewDouyinScriptRunner.cs:267-274 | the escaped text holds no carriage return and no line feed |
| JsEscape.LinesRoundTrip | AllLive.UWP/Helper/WebViewDouyuSignRunner.cs:191-198 | the escape reads back as the value and stays on one line |
| JsEscape.LinesUnchanged | AllLive.UWP/Helper/WebViewDouyuSignRunner.cs:191-198 | a value without any of the four characters is left as it is |
| JsEscape.LineCharsUnchanged | AllLive.UWP/Helper/WebViewDouyinScriptRunner.cs:267-274 | the per-character escape leaves such a value as it is |
| JsEscape.ReadLineChars | AllLive.UWP/Helper/WebViewDouyinScriptRunner.cs:267-274 | the per-character escape followed by a quote is read as exactly the value, and the literal ends there |
| JsEscape.ReadLinesEscaped | AllLive.UWP/Helper/WebViewDouyuSignRunner.cs:191-198 | an escaped value followed by a quote is read back as exactly the value, ending at that quote |
| JsEscape.EscapeJsString | AllLive.UWP/Helper/WebViewDouyinScriptRunner.cs:267-274 | null escapes to ""; any other value to a single-line text that reads back as the value |
| JsEscape.EscapeQuotes | AllLive.Core/Helper/DouyinScriptRuntime.cs:128-133 | backslashes doubled, then quotes escaped (`EscapeQuotesPerChar`, `QuotesRoundTrip`, `ReadEscaped`) |
| JsEscape.QuoteCharsKeepLines | AllLive.Core/Helper/DouyinScriptRuntime.cs:128-133 | the quote escape leaves a text on one line exactly when the text was |
| JsEscape.EscapeLines | AllLive.UWP/Helper/WebViewDouyinScriptRunner.cs:267-274 | backslashes doubled, quotes escaped, carriage returns and line feeds written as `\r` and `\n` (`EscapeLinesPerChar`, `LinesRoundTrip`) |
| JsEscape.ReadLiteral | AllLive.Core/Helper/DouyinScriptRuntime.cs:58-63 | how the engine reads a single-quoted literal: up to the first quote not taken by a backslash; a raw line break or a missing closing quote is a syntax error (`ReadQuoteChars`, `ReadEscaped`, `ReadLineChars`) |
| JsEscape.UnescapeLines | AllLive.Core/Helper/DouyinScriptRuntime.cs:58-63 | the value a literal body stands for: `\r` and `\n` the control characters, a backslash before anything else that character (`QuotesRoundTrip`, `LinesRoundTrip`) |
| DouyinScriptRunner.ScriptRead | AllLive.UWP/Helper/WebViewDouyinScriptRunner.cs:60-62 | the call expression built from two escaped literals is read by the engine with exactly those two arguments |
| DouyinScriptRunner.ScriptPassesArguments | AllLive.UWP/Helper/WebViewDouyinScriptRunner.cs:60-62 | the called function receives the two values passed (null as ""), whatever backslashes, quotes and line breaks they hold |
| DouyinScriptRunner.JudgeSpec | AllLive.UWP/Helper/WebViewDouyinScriptRunner.cs:74-83 | an answer is passed on iff nothing was thrown and it is null, empty or does not start with `ERROR:`; null is passed on as "" |
| DouyinScriptRunner.EnsureSharesTask | AllLive.UWP/Helper/WebViewDouyinScriptRunner.cs:103-124 | an initialised runner hands out a completed task and changes nothing; asking again while a task is in flight returns that task, so at most one is started |
| DouyinScriptRunner.FailedInitRetried | AllLive.UWP/Helper/WebViewDouyinScriptRunner.cs:171-184 | a failed initialisation clears its task, so the next request starts a new one |
| DouyinScriptRunner.StepsConsistent | AllLive.UWP/Helper/WebViewDouyinScriptRunner.cs:103-206 | ensuring, completing, resetting and awaiting initialisation all keep a WebView attached to an initialised runner |
| DouyinScriptRunner.ResetReinitializes | AllLive.UWP/Helper/WebViewDouyinScriptRunner.cs:187-206 | after a reset the next request starts a fresh task, and any WebView it uses is the one that task created |
| DouyinScriptRunner.Run | AllLive.UWP/Helper/WebViewDouyinScriptRunner.cs:52-99 | a request makes one try, or two when retrying is on |
| DouyinScriptRunner.RunAnswers | AllLive.UWP/Helper/WebViewDouyinScriptRunner.cs:52-99 | a request gives "" or a value the engine really returned for that expression, never an `ERROR:` text |
| DouyinScriptRunner.RetryOnce | AllLive.UWP/Helper/WebViewDouyinScriptRunner.cs:86-97 | only a failed first try is followed by a second, on a reset WebView, without further retry; when that fails too the answer is "" |
| DouyinScriptRunner.WebViewRunner.constructor | AllLive.UWP/Helper/WebViewDouyinScriptRunner.cs:30-33 | a new runner is not initialised, has no task and no WebView |
| DouyinScriptRunner.WebViewRunner.EnsureInitialized | AllLive.UWP/Helper/WebViewDouyinScriptRunner.cs:103-124 | the fields and the task returned are those of `EnsureStep` |
| DouyinScriptRunner.WebViewRunner.CompleteInitialization | AllLive.UWP/Helper/WebViewDouyinScriptRunner.cs:126-185 | the fields after an initialisation ends are those of `CompleteStep` |
| DouyinScriptRunner.WebViewRunner.ResetWebView | AllLive.UWP/Helper/WebViewDouyinScriptRunner.cs:187-206 | the flag and the task are cleared and the WebView detached |
| DouyinScriptRunner.WebViewRunner.ExecuteScriptInternal | AllLive.UWP/Helper/WebViewDouyinScriptRunner.cs:52-99 | the new fields and the answer are those of `Run` on the call expression |
| DouyinScriptRunner.WebViewRunner.EvaluateSignature | AllLive.UWP/Helper/WebViewDouyinScriptRunner.cs:35-38 | calls `getMSSDKSignature` with retrying on, as `Run` describes |
| DouyinScriptRunner.WebViewRunner.GenerateABogus | AllLive.UWP/Helper/WebViewDouyinScriptRunner.cs:40-45 | calls `getABogus` with null arguments replaced by "" and retrying on, as `Run` describes |
| DouyinScriptRunner.Judge | AllLive.UWP/Helper/WebViewDouyinScriptRunner.cs:74-83 | a throw or a non-empty answer starting with "ERROR:" fails, null is "", any other answer is returned (`JudgeSpec`) |
| DouyinScriptRunner.EnsureStep | AllLive.UWP/Helper/WebViewDouyinScriptRunner.cs:103-124 | a completed task once initialised, else the running initialisation, else a new one (`EnsureSharesTask`) |
| DouyinScriptRunner.CompleteStep | AllLive.UWP/Helper/WebViewDouyinScriptRunner.cs:126-185 | success attaches the WebView and sets the flag; failure keeps a created WebView and clears the task while still uninitialised (`FailedInitRetried`, `StepsConsistent`) |
| DouyinScriptRunner.ResetStep | AllLive.UWP/Helper/WebViewDouyinScriptRunner.cs:187-206 | flag and task cleared, WebView detached (`ResetReinitializes`) |
| DouyuSignRunner.Chain | AllLive.UWP/Helper/WebViewDouyuSignRunner.cs:200-214 | the inner-exception chain walked by the recoverability test always has at least one entry |
| DouyuSignRunner.ShiftFirstCom | AllLive.UWP/Helper/WebViewDouyuSignRunner.cs:213 | a non-COM exception in front of the chain does not change whether the first COM exception is recoverable |
| DouyuSignRunner.RecoverableByChain | AllLive.UWP/Helper/WebViewDouyuSignRunner.cs:200-214 | an exception is recoverable iff some exception in its chain is a COM exception with HResult 0x80020101 or 0x8001010E and none before it is a COM exception |
| DouyuSignRunner.LiteralAfter | AllLive.UWP/Helper/WebViewDouyuSignRunner.cs:70-71 | an escaped literal placed after a fixed head is read back as exactly the value, ending at its closing quote |
| DouyuSignRunner.SignScriptPassesRoom | AllLive.UWP/Helper/WebViewDouyuSignRunner.cs:49-71 | the sign call hands the function the room id exactly, followed by the fixed device id and the time |
| DouyuSignRunner.Run | AllLive.UWP/Helper/WebViewDouyuSignRunner.cs:38-89 | a request makes one try, or two when retrying is on; an exception escapes to the caller only from a request that retries with the setup awaited; with the setup awaited, an initialised runner keeps a WebView |
| DouyuSignRunner.Recover | AllLive.UWP/Helper/WebViewDouyuSignRunner.cs:77-88 | the handler makes at most one more try, and only when retrying is on; the same escape and WebView facts as `Run` |
| DouyuSignRunner.EmptyInputsGiveEmpty | AllLive.UWP/Helper/WebViewDouyuSignRunner.cs:42-47 | once initialised, an empty page or room id gives "" after one try with nothing evaluated and no state change |
| DouyuSignRunner.RunAnswers | AllLive.UWP/Helper/WebViewDouyuSignRunner.cs:38-89 | a non-empty answer comes from a non-empty page and room and is the sign function's answer in some WebView |
| DouyuSignRunner.RecoverAnswers | AllLive.UWP/Helper/WebViewDouyuSignRunner.cs:77-88 | the same holds for an answer reached through the handler |
| DouyuSignRunner.NoRetryUnlessRecoverable | AllLive.UWP/Helper/WebViewDouyuSignRunner.cs:79-87 | an error that is not recoverable ends the request with "" after one try and leaves the state as it is |
| DouyuSignRunner.FaultedInitSticks | AllLive.UWP/Helper/WebViewDouyuSignRunner.cs:91-133 | with the setup awaited, a failed initialisation with an unrecoverable error stays cached: the request gives "" after one try and the faulted task is still held |
| DouyuSignRunner.ResetFailureEscapes | AllLive.UWP/Helper/WebViewDouyuSignRunner.cs:82-83 | with the setup awaited, when the fresh initialisation after a recoverable error fails, its error escapes to the caller instead of giving "" |
| DouyuSignRunner.NullIsEmpty | AllLive.UWP/Helper/WebViewDouyuSignRunner.cs:31-36 | null page and room are the same request as "" |
| DouyuSignRunner.WebViewSignRunner.constructor | AllLive.UWP/Helper/WebViewDouyuSignRunner.cs:26-29 | a new runner is not initialised, has no task and no WebView |
| DouyuSignRunner.WebViewSignRunner.EnsureInitialized | AllLive.UWP/Helper/WebViewDouyuSignRunner.cs:91-133 | the fields and the error awaited are those of `Ready`, for the setup as written and for the setup awaited |
| DouyuSignRunner.WebViewSignRunner.ResetWebView | AllLive.UWP/Helper/WebViewDouyuSignRunner.cs:135-150 | the WebView is detached, flag and task cleared, and initialisation awaited again |
| DouyuSignRunner.WebViewSignRunner.ExecuteInternal | AllLive.UWP/Helper/WebViewDouyuSignRunner.cs:38-89 | the new fields and the outcome are those of `Run` |
| DouyuSignRunner.WebViewSignRunner.GenerateSignAsync | AllLive.UWP/Helper/WebViewDouyuSignRunner.cs:31-36 | the fields and outcome are those of `GenerateSign` |
| DouyuSignRunner.IsRecoverable | AllLive.UWP/Helper/WebViewDouyuSignRunner.cs:200-214 | the first COM exception down the inner chain decides, by its HRESULT; a chain without one is not recoverable (`RecoverableByChain`, `ShiftFirstCom`) |
| DouyuSignRunner.Ready | AllLive.UWP/Helper/WebViewDouyuSignRunner.cs:91-133 | the state after initialisation is awaited and the error the await throws; as written the setup runs as async void, so the runner is initialised however the setup ended and nothing is thrown (`SetupFailureBreaksAsWritten`); awaited, the setup's error faults the held task (`FaultedInitSticks`, `SetupFailureRecovered`) |
| DouyuSignRunner.GenerateSign | AllLive.UWP/Helper/WebViewDouyuSignRunner.cs:31-36 | null page and room taken as "" before the run (`NullIsEmpty`) |
| DouyuSignRunner.NoViewIsFinal | AllLive.UWP/Helper/WebViewDouyuSignRunner.cs:38-89 | an initialised runner without a WebView answers every request with "" after one try and stays as it is |
| DouyuSignRunner.SetupFailureBreaksAsWritten | AllLive.UWP/Helper/WebViewDouyuSignRunner.cs:116-132 | as written, a setup that throws before the WebView is assigned leaves the runner initialised without one, and the request gives "" after one try |
| DouyuSignRunner.SetupFailureRecovered | AllLive.UWP/Helper/WebViewDouyuSignRunner.cs:77-133 | with the setup awaited, a recoverable setup error is cured by the reset and the request is answered by the sign function in the second WebView after two tries |
| HttpUtil.AppendQuery | AllLive.Core/Helper/HttpUtil.cs:30-38 | the loop appends '?', then every key, '=', escaped value and '&', then trims trailing '&'; without parameters the url is unchanged |
| HttpUtil.QueryTextStep | AllLive.Core/Helper/HttpUtil.cs:33-36 | one loop round appends the next pair and its '&' |
| HttpUtil.PairTexts | AllLive.Core/Helper/HttpUtil.cs:35 | there is one pair text per dictionary entry |
| HttpUtil.QueryTextJoined | AllLive.Core/Helper/HttpUtil.cs:33-36 | what the loop writes is the pair texts joined by '&', followed by one '&' |
| HttpUtil.QueryAssembled | AllLive.Core/Helper/HttpUtil.cs:57-65 | an empty dictionary leaves the url ending in '?'; otherwise the url is followed by '?' and the pairs joined by '&', trimming removing exactly the last '&' |
| HttpUtil.PostBody | AllLive.Core/Helper/HttpUtil.cs:110-115 | the loop's fields are `FormBody`: each '&'-item split on '=' gives its first two parts; an item without '=' or a null text fails the request |
| HttpUtil.FormPairsStep | AllLive.Core/Helper/HttpUtil.cs:111-115 | one loop round adds the next item's field or fails |
| HttpUtil.NoneStaysNone | AllLive.Core/Helper/HttpUtil.cs:111-115 | once an item fails, the whole body fails |
| HttpUtil.EscapedPairs | AllLive.Core/Helper/HttpUtil.cs:35 | each key with its value escaped, one per entry |
| HttpUtil.FormReadsQuery | AllLive.Core/Helper/HttpUtil.cs:33-37 | the POST form parser reads back what the query builder writes: with keys free of '&' and '=', each key with its escaped value, in order |
| HttpUtil.PairSplit | AllLive.Core/Helper/HttpUtil.cs:113 | a pair text splits on '=' into its key and escaped value |
| HttpUtil.FormPairsOfTexts | AllLive.Core/Helper/HttpUtil.cs:110-115 | the form fields of the pair texts are the escaped pairs |
| HttpUtil.MissingEqualsFails | AllLive.Core/Helper/HttpUtil.cs:113-114 | an item without '=' makes the request fail (the index is out of range) |
| HttpUtil.SecondEqualsDropped | AllLive.Core/Helper/HttpUtil.cs:113-114 | an example of `FormPairsStep`: text after a second '=' is dropped: "a=b=c" gives the one field a = b |
| HttpUtil.WithQuery | AllLive.Core/Helper/HttpUtil.cs:30-38 | the url unchanged without parameters, otherwise followed by '?', the escaped pairs and no trailing '&' (`AppendQuery`, `QueryAssembled`) |
| HttpUtil.FormPairs | AllLive.Core/Helper/HttpUtil.cs:111-115 | each item split on '=' gives its first two parts; an item without '=' fails the request (`FormPairsStep`, `MissingEqualsFails`, `FormPairsOfTexts`) |
| HttpUtil.FormBody | AllLive.Core/Helper/HttpUtil.cs:110-115 | a null data text fails; otherwise the form pairs of its '&'-separated items (`PostBody`, `FormReadsQuery`) |
| UriEscape.HexDigit | AllLive.Core/Helper/HttpUtil.cs:35 | each nibble is written as an upper-case hex digit |
| UriEscape.Utf8 | AllLive.Core/Helper/HttpUtil.cs:35 | a character encodes to one to four bytes, each below 256 |
| UriEscape.PercentEncode | AllLive.Core/Helper/HttpUtil.cs:35 | each byte becomes three characters, '%' and two upper-case hex digits |
| UriEscape.EscapeDataString | AllLive.Core/Helper/HttpUtil.cs:35 | the result holds only unreserved characters and '%', and is no shorter than the input |
| UriEscape.EscapeUnreserved | AllLive.Core/Helper/HttpUtil.cs:35 | a text made only of unreserved characters is left as it is |
| UriEscape.EscapedHasNo | AllLive.Core/Helper/HttpUtil.cs:35 | no reserved character (such as '&' or '=') survives escaping |
| UriEscape.EscapeConcat | AllLive.Core/Helper/HttpUtil.cs:35 | escaping a concatenation is concatenating the escapes |
| Database.FirstMatch | AllLive.UWP/Helper/DatabaseHelper.cs:225-233 | the lookup finds nothing iff no row has that room and site; otherwise it gives the id of a row that has them |
| Database.WithoutId | AllLive.UWP/Helper/DatabaseHelper.cs:235-243 | the rows kept are exactly the rows whose id differs |
| Database.Touched | AllLive.UWP/Helper/DatabaseHelper.cs:288 | every row with that room and site gets the new watch time; every other row is unchanged, and no row is added or removed |
| Database.KnownOnly | AllLive.UWP/Helper/DatabaseHelper.cs:98-105 | the rows kept are exactly those whose site is one of the four known names |
| Database.FixRows | AllLive.UWP/Helper/DatabaseHelper.cs:128-186 | every row keeps its fields except the site name, which becomes the name after the repair rules |
| Database.RuleSkips | AllLive.UWP/Helper/DatabaseHelper.cs:130 | a rule leaves a name alone when each of its two marks has a character the name lacks |
| Database.RuleHits | AllLive.UWP/Helper/DatabaseHelper.cs:130 | a rule rewrites a name holding its first mark to its target site |
| Database.AllRulesSkip | AllLive.UWP/Helper/DatabaseHelper.cs:128-157 | a name holding none of the marks' first characters is left alone by each of the four rules |
| Database.KnownNamesKept | AllLive.UWP/Helper/DatabaseHelper.cs:128-157 | the repair leaves each of the four correct site names unchanged, in either rule order |
| Database.GarbledDouyinAsWritten | AllLive.UWP/Helper/DatabaseHelper.cs:143-157 | in the order written, the garbled douyin name (whose "Ö±" holds '±') is rewritten to the bilibili site and the douyin rule never sees it |
| Database.GarbledNamesFixed | AllLive.UWP/Helper/DatabaseHelper.cs:127-157 | with the douyin rule ahead of the bilibili rule each of the four garbled names becomes its own site |
| Database.GarbledHuyaFixed | AllLive.UWP/Helper/DatabaseHelper.cs:127-133 | the garbled huya name becomes the huya site |
| Database.GarbledDouyuFixed | AllLive.UWP/Helper/DatabaseHelper.cs:135-141 | the garbled douyu name becomes the douyu site |
| Database.GarbledDouyinFixed | AllLive.UWP/Helper/DatabaseHelper.cs:151-157 | the garbled douyin name becomes the douyin site |
| Database.GarbledBilibiliFixed | AllLive.UWP/Helper/DatabaseHelper.cs:143-149 | the garbled bilibili name becomes the bilibili site |
| Database.Store.constructor | AllLive.UWP/Helper/DatabaseHelper.cs:37-51 | both tables start empty, ids counting from 1 |
| Database.Store.AddFavorite | AllLive.UWP/Helper/DatabaseHelper.cs:197-214 | an empty key or a room already saved for that site changes nothing; otherwise one row is appended with the next id, null name and photo stored as ""; the room is found afterwards, keys stay unique and the history is untouched |
| Database.Store.DeleteFavorite | AllLive.UWP/Helper/DatabaseHelper.cs:235-243 | the favourite rows become those without that id; ids stay ordered and the history is untouched |
| Database.Store.DeleteAllFavorites | AllLive.UWP/Helper/DatabaseHelper.cs:245-252 | the favourite table becomes empty and nothing else changes |
| Database.Store.GetFavorites | AllLive.UWP/Helper/DatabaseHelper.cs:254-271 | the reader loop gives every favourite row in table order |
| Database.Store.AddHistory | AllLive.UWP/Helper/DatabaseHelper.cs:274-304 | an empty key changes nothing; a room already saved for that site gets the new watch time on its row and no new row; any other room is appended with the next id and that time; keys stay unique and the favourites are untouched |
| Database.Store.DeleteHistory | AllLive.UWP/Helper/DatabaseHelper.cs:325-333 | the history rows become those without that id; nothing else changes |
| Database.Store.DeleteAllHistory | AllLive.UWP/Helper/DatabaseHelper.cs:334-341 | the history table becomes empty and nothing else changes |
| Database.Store.GetHistory | AllLive.UWP/Helper/DatabaseHelper.cs:342-360 | the rows read are every history row, sorted by watch time, latest first |
| Database.Store.DetectAndCleanCorruptedData | AllLive.UWP/Helper/DatabaseHelper.cs:63-115 | both tables keep exactly their rows with a known site name, whether or not any was corrupted |
| Database.Store.FixCorruptedData | AllLive.UWP/Helper/DatabaseHelper.cs:120-194 | every site name in both tables is rewritten by the repair rules, with the douyin rule ahead of the bilibili rule |
| Database.AppendKeepsOrder | AllLive.UWP/Helper/DatabaseHelper.cs:208 | appending a row with the counter's id keeps ids increasing and below the counter |
| Database.AppendUnique | AllLive.UWP/Helper/DatabaseHelper.cs:205-213 | appending a row whose key is absent keeps keys unique |
| Database.WithoutIdKeepsOrder | AllLive.UWP/Helper/DatabaseHelper.cs:239 | deleting by id keeps ids increasing and below the counter |
| Database.KnownOnlyKeepsOrder | AllLive.UWP/Helper/DatabaseHelper.cs:98-105 | the cleanup keeps ids increasing and below the counter |
| Database.KnownOnlyAllKnown | AllLive.UWP/Helper/DatabaseHelper.cs:91-109 | when every site name is known the cleanup deletes nothing |
| Database.TouchedKeepsShape | AllLive.UWP/Helper/DatabaseHelper.cs:288 | updating a watch time keeps id order and key uniqueness |
| Database.DeleteRemovesOnlyThatId | AllLive.UWP/Helper/DatabaseHelper.cs:239 | no row with the id remains and every other row does |
| Database.TouchedFindsSameRow | AllLive.UWP/Helper/DatabaseHelper.cs:284-295 | updating a watch time does not change which row the lookup finds |
| Database.UpsertFinds | AllLive.UWP/Helper/DatabaseHelper.cs:274-304 | an empty key changes nothing; any other key is found after the add |
| Database.UpsertGrowth | AllLive.UWP/Helper/DatabaseHelper.cs:284-303 | a saved room adds no row and uses no id; a new room adds one row at the end and one id |
| Database.UpsertUnique | AllLive.UWP/Helper/DatabaseHelper.cs:284-303 | the add never creates a second row for a room and site |
| Database.UpsertStamps | AllLive.UWP/Helper/DatabaseHelper.cs:284-303 | every row the add wrote carries the time passed in |
| Database.UpsertKeepsFound | AllLive.UWP/Helper/DatabaseHelper.cs:274-304 | a room found before an add is still found after it |
| Database.StartupKeepsGarbledDouyin | AllLive.UWP/Helper/DatabaseHelper.cs:55-57 | on start-up (repair, then clean) a garbled douyin row survives as a douyin row with the corrected order, but as a bilibili row in the order written |
| Database.Check | AllLive.UWP/Helper/DatabaseHelper.cs:215-233 | a null or empty room or site gives null; otherwise the id of the first row with that room and site, if any (`FirstMatch`) |
| Database.Store.CheckFavorite | AllLive.UWP/Helper/DatabaseHelper.cs:215-233 | `Check` on the favourites (`AppendUnique`) |
| Database.Store.CheckHistory | AllLive.UWP/Helper/DatabaseHelper.cs:305-323 | `Check` on the history (`UpsertFinds`) |
| Database.Upsert | AllLive.UWP/Helper/DatabaseHelper.cs:274-304 | `AddHistory` on the rows: an empty key changes nothing, a saved room and site gets the new watch time, any other a new row (`UpsertFinds`, `UpsertGrowth`, `UpsertUnique`, `UpsertStamps`, `UpsertKeepsFound`) |
| Database.UpsertStampsKey | AllLive.UWP/Helper/DatabaseHelper.cs:284-303 | after an upsert every row of its room and site carries the time passed in |
| Database.UpsertKeepsOthers | AllLive.UWP/Helper/DatabaseHelper.cs:284-303 | an upsert of another room or site leaves the rows of a room and site as they were |
| Database.ApplyRule | AllLive.UWP/Helper/DatabaseHelper.cs:130 | one `UPDATE … LIKE` repair: a name holding either mark becomes the rule's site name, any other stays (`RuleHits`, `RuleSkips`) |
| Database.FixName | AllLive.UWP/Helper/DatabaseHelper.cs:127-157 | the repairs applied in the order the code runs them (`GarbledNamesFixed`, `GarbledDouyinAsWritten`, `KnownNamesKept`) |
| HistoryVM.SiteIdRoundTrip | AllLive.UWP/ViewModels/HistoryVM.cs:145-160 | exactly the four known sites get a non-empty id, and the id names the site back; no id holds '_' |
| HistoryVM.SiteNameRoundTrip | AllLive.UWP/ViewModels/HistoryVM.cs:145-160 | every id that names a site is that site's id |
| HistoryVM.Records | AllLive.UWP/ViewModels/HistoryVM.cs:142-171 | one record per listed item, in list order |
| HistoryVM.RecordIdReadsBack | AllLive.UWP/ViewModels/HistoryVM.cs:162-166 | a record id splits at its first '_' into the site id and the room id, and the site id names the row's site iff that site is a known one |
| HistoryVM.ImportUnique | AllLive.UWP/ViewModels/HistoryVM.cs:108-118 | importing never creates a second history row for a room and site, whatever times the upserts read |
| HistoryVM.ImportFindsAll | AllLive.UWP/ViewModels/HistoryVM.cs:108-118 | after an import every record with a room and a site is in the history |
| HistoryVM.ImportStampsNow | AllLive.UWP/ViewModels/HistoryVM.cs:108-118 | the times in the file are not stored: the rows of a room and site hold the time read by the upsert of the last record naming them |
| HistoryVM.RemoveFirstSpec | AllLive.UWP/ViewModels/HistoryVM.cs:64 | removing a listed item takes out exactly one copy of it; removing an unlisted item changes nothing |
| HistoryVM.HistoryViewModel.constructor | AllLive.UWP/ViewModels/HistoryVM.cs:18-24 | the list starts empty, not loading |
| HistoryVM.HistoryViewModel.LoadData | AllLive.UWP/ViewModels/HistoryVM.cs:31-50 | the stored history, latest first, is appended to what the list shows; the empty flag says whether the list is empty; loading ends |
| HistoryVM.HistoryViewModel.Refresh | AllLive.UWP/ViewModels/HistoryVM.cs:52-57 | the list shows exactly the stored history |
| HistoryVM.HistoryViewModel.RemoveItem | AllLive.UWP/ViewModels/HistoryVM.cs:59-71 | the item's row is deleted from the table and its first copy from the list; the empty flag is updated |
| HistoryVM.HistoryViewModel.Clean | AllLive.UWP/ViewModels/HistoryVM.cs:73-91 | without confirmation nothing changes; with it table and list are emptied and the list flagged empty |
| HistoryVM.HistoryViewModel.Output | AllLive.UWP/ViewModels/HistoryVM.cs:130-182 | nothing is written iff no file is chosen; otherwise the records of the listed items, in order |
| HistoryVM.HistoryViewModel.Input | AllLive.UWP/ViewModels/HistoryVM.cs:93-128 | without a file nothing changes; otherwise each record is added through the history upsert at the time that upsert reads, and the list then shows the stored history |
| HistoryVM.SiteId | AllLive.UWP/ViewModels/HistoryVM.cs:145-160 | the export id of a site name, "" for an unknown one (`SiteIdRoundTrip`, `SiteNameRoundTrip`) |
| HistoryVM.Record | AllLive.UWP/ViewModels/HistoryVM.cs:162-166 | one exported record: the site id, the id made of site id and room, the room fields and the formatted watch time (`RecordIdReadsBack`, `Records`) |
| HistoryVM.ImportAll | AllLive.UWP/ViewModels/HistoryVM.cs:108-118 | the history after adding the records one by one, record k stamped with the time its own upsert reads (`ImportUnique`, `ImportFindsAll`, `ImportStampsNow`) |
| HistoryVM.RemoveFirst | AllLive.UWP/ViewModels/HistoryVM.cs:64 | the first entry equal to the item removed, the rest in order (`RemoveFirstSpec`) |
| ParsePage.SiteOf | AllLive.UWP/Views/ParsePage.xaml.cs:72 | the site found is a registered one of that type; nothing is found iff no registered site has that type |
| ParsePage.FirstMatchFrom | AllLive.UWP/Views/ParsePage.xaml.cs:90 | the leftmost position from the start index where the prefix is followed by a class character, or none when there is no such position |
| ParsePage.Run | AllLive.UWP/Views/ParsePage.xaml.cs:90 | the greedy run: a prefix of the text made of class characters, followed by the end or a character outside the class |
| ParsePage.CaptureSpec | AllLive.UWP/Views/ParsePage.xaml.cs:90-94 | a link pattern matches iff its prefix occurs followed by a class character; the group is the whole non-empty run after the leftmost such occurrence |
| ParsePage.RunAfterMatch | AllLive.UWP/Views/ParsePage.xaml.cs:90-94 | the run after a match is non-empty and ends where the text or the class ends |
| ParsePage.ParseInputOrder | AllLive.UWP/Views/ParsePage.xaml.cs:87-128 | a Douyin link wins whatever else the text holds; failing that a Bilibili link wins; an all-digit input is a Douyin room; any room id found is non-empty |
| ParsePage.NoLinkInDigits | AllLive.UWP/Views/ParsePage.xaml.cs:122-125 | no link pattern matches an all-digit text, so a bare number reaches the Douyin fallback |
| ParsePage.WordRunAtEnd | AllLive.UWP/Views/ParsePage.xaml.cs:132 | the longest run of word characters the text ends with |
| ParsePage.LastSegment | AllLive.UWP/Views/ParsePage.xaml.cs:132-136 | when found, a non-empty word run that the input ends with, after a '/' and before at most one closing '/' |
| ParsePage.WordCharsOnly | AllLive.UWP/Views/ParsePage.xaml.cs:137 | only word characters remain, and a text of word characters is left as it is |
| ParsePage.ExtractRoomId | AllLive.UWP/Views/ParsePage.xaml.cs:130-138 | the last path segment when there is one, otherwise the input without its non-word characters |
| ParsePage.ExtractFromUrl | AllLive.UWP/Views/ParsePage.xaml.cs:132-136 | a url ending in a word-character room id gives that id, with or without a closing '/' |
| ParsePage.ExtractSegment | AllLive.UWP/Views/ParsePage.xaml.cs:132 | the word run a text ends with stops at the '/' before it |
| ParsePage.BtnGoOutcome | AllLive.UWP/Views/ParsePage.xaml.cs:33-85 | blank or null input prompts for a link; the page navigates only to a registered site with a non-empty room id; with a site chosen the room id is the one extracted from the trimmed input and a missing site or empty id shows the failure text |
| ParsePage.BtnGoNavigates | AllLive.UWP/Views/ParsePage.xaml.cs:35-80 | blank input prompts; navigation only with a registered site and a non-empty room id |
| ParsePage.BtnGoByTag | AllLive.UWP/Views/ParsePage.xaml.cs:51-84 | with a site tag chosen the outcome is navigation to that site type with the extracted room id, or the failure text |
| ParsePage.BlankPrompts | AllLive.UWP/Views/ParsePage.xaml.cs:35-40 | input of white space only trims to nothing and prompts |
| ParsePage.ParseInput | AllLive.UWP/Views/ParsePage.xaml.cs:87-128 | the Douyin, Bilibili, Huya and Douyu patterns are tried in that order and the first match decides; an all-digit input is a Douyin room; anything else is nothing (`ParseInputOrder`, `NoLinkInDigits`) |
| ParsePage.TagSite | AllLive.UWP/Views/ParsePage.xaml.cs:54-71 | the four site tags select their site, any other tag Douyin (`BtnGoByTag`) |
| ParsePage.BtnGo | AllLive.UWP/Views/ParsePage.xaml.cs:33-85 | a blank input prompts; "auto" parses the input, any other tag names the site and extracts the room id; a missing site or room id shows the unknown-input message (`BtnGoOutcome`, `BtnGoNavigates`, `BlankPrompts`) |
| FavoriteItem.StatusValue | AllLive.Core/Models/LiveStatus.cs:6-20 | the status values are 0, 1 and 2 |
| FavoriteItem.StatusValuesDistinct | AllLive.Core/Models/LiveStatus.cs:6-20 | two statuses have the same value iff they are the same status |
| FavoriteItem.FlagsAgree | AllLive.UWP/Models/FavoriteItem.cs:37-47 | live and replay exclude each other, the combined flag is their disjunction, and it is false exactly for an offline room |
| FavoriteItem.Favorite.constructor | AllLive.UWP/Models/FavoriteItem.cs:13-20 | a new item is offline and has raised no notification |
| FavoriteItem.Favorite.SetLiveStatus | AllLive.UWP/Models/FavoriteItem.cs:21-32 | the status is stored, then the status and the three flags derived from it are announced in that order, also when the value did not change; no other field changes |
| FavoriteItem.IsLive | AllLive.UWP/Models/FavoriteItem.cs:42 | live exactly when the status is Live (`FlagsAgree`) |
| FavoriteItem.IsReplay | AllLive.UWP/Models/FavoriteItem.cs:47 | replay exactly when the status is Replay (`FlagsAgree`) |
| FavoriteItem.IsLiveOrReplay | AllLive.UWP/Models/FavoriteItem.cs:37 | live or replay exactly when either flag holds (`FlagsAgree`) |
| Sorting.SortDesc | AllLive.UWP/Helper/DatabaseHelper.cs:345 | the rows are reordered, never added or lost |
| Sorting.SortDescSorted | AllLive.UWP/Helper/DatabaseHelper.cs:345 | the result is ordered by watch time, latest first |
| Sorting.SortDescStable | AllLive.UWP/Helper/DatabaseHelper.cs:345 | rows with equal watch times keep their table order |
| Text.Split | AllLive.Core/Helper/HttpUtil.cs:111-113 | at least one piece, none holding the separator |
| Text.JoinSplit | AllLive.Core/Helper/HttpUtil.cs:111-113 | joining the pieces with the separator gives the text back |
| Text.SplitJoin | AllLive.Core/Helper/HttpUtil.cs:111-113 | splitting separator-free pieces joined by the separator gives the pieces back |
| Text.TrimEnd | AllLive.Core/Helper/HttpUtil.cs:37 | the result is a prefix of the text not ending in the character, and only that character was removed |
| Text.TrimBlank | AllLive.UWP/Views/ParsePage.xaml.cs:35 | a text of white space only trims to nothing |
| Text.Truncate | AllLive.UWP/Helper/WebViewDouyinScriptRunner.cs:302-310 | null and values up to the limit are returned as they are; a longer value is cut to the limit and followed by "..." |

## Left out

- Sockets, timers, `Task.Run`, `Task.Delay` and locks: the danmaku client and the WebView runners are modelled as sequential events. Awaits run in order and thread interleavings are not modelled.
- Protobuf and gzip decoding: a received frame is the decoded `Inbound` value, and a decode failure is a flag on it.
- HTTP, Tars and JSON: replies are parameters holding the fields the code reads. The request building around them (`GetCategores`, `GetCategoryRooms`, `GetRecommendRooms`, `GetRoomDetailByRoomID`/`ByWebRid*`, `GetRoomDataHtml`/`Api`, `GetUserUniqueId`, `GetSuperChatMessages` in Douyin.cs, and the equivalent fetches in Huya.cs) is not modelled, because it is JSON traversal of remote replies.
- `Huya.ProcessAnticode`, `GetUid` and the Huya sign helpers: MD5, Base64, URL decoding and clocks. The anti-code text is a parameter of `Huya.GetRealUrl`.
- MD5 digests, `Random` and `RandomNumberGenerator` draws, and clocks are parameters. `SignHelper.ComputeMd5` models only the hex formatting of a given digest.
- JavaScript engines: QuickJS, WebView `InvokeScriptAsync`, and the loading of embedded scripts are a parameter answering each call expression. The Douyu runner's regex rewriting of the downloaded sign script (AllLive.UWP/Helper/WebViewDouyuSignRunner.cs:62-67) is inside that parameter.
- `Utils.BuildQueryString` and `Utils.GetTimestamp` are not part of this model. The encoded danmaku query and the Douyu timestamp are inputs.
- Logging, `Trace` output and UI notifications are not modelled. `TruncateForLog` (AllLive.Core/Douyin.cs:910-918) is the same cut as the WebView runner's `Truncate`, and `Text.Truncate` models both.
- Pages and dialogs are not modelled: App.xaml.cs, FavoritePage, HistoryPage, the verify dialog and handler, file pickers and toasts. The confirmation dialog and the chosen file are parameters of `HistoryVM.HistoryViewModel.Clean`, `Input` and `Output`.
- `HistoryJsonItem` is not part of this model. So the JSON text and the round trip from export to import are not modelled, and an import reads records that are already parsed.
- `HistoryVM.HistoryViewModel.Input`: a file whose JSON fails to parse, which the source catches and reports, is not modelled.
- `HistoryVM.HistoryViewModel.LoadData`: the error path (`HandleError` on a database exception) is not modelled. `IsEmpty` is assumed to start false, because `BaseViewModel` is not part of this model.
- `HistoryVM.RemoveFirst`: `ObservableCollection.Remove` is modelled with value equality on rows. The source compares object references.
- SQLite itself: the tables are sequences of rows with ids from increasing counters. SQL text, the UTF-8 pragma and `DateTime` values (modelled as integers) are not modelled.
- `Database.Store.GetHistory`: rows with equal watch times are returned in table order. SQLite does not promise any order for ties.
- `Favorite.constructor`: the string properties start as "" where C# starts them as null. No modelled operation reads them before they are set.
- Regular expressions: `\d` and `\w` are their ASCII classes. .NET also matches other Unicode digits and letters.
- Strings are sequences of Unicode scalar values. UTF-16 surrogate pairs and culture-sensitive comparisons are not modelled, and ignore-case matching folds ASCII only.
- `Douyin.SearchAsWritten` takes a fuel bound so that it can be stated as a Dafny function. The lemma about it shows that no bound is ever enough.
- The Douyin runner's `IsRecoverableWebViewException` is never called by its retry logic (every failure is retried once). It is the same chain walk as `DouyuSignRunner.IsRecoverable`, which models it.
- `JsEscape.ReadLiteral`: the engine's reading of a single-quoted literal knows only `\r`, `\n` and a backslash before any other character standing for that character. Other JavaScript escapes (`\t`, `\x`, `\u`, a backslash before a line break) never occur in the escaped texts and are not modelled.
- `DanmakuSpec.UnPack`: a chat without a sender raises nothing, as the code's null check does; the content of the chat protobuf beyond nickname and text is not modelled.
- `HttpUtil.AppendQuery`: dictionary values are strings, never null. A null value would make `Uri.EscapeDataString` throw (AllLive.Core/Helper/HttpUtil.cs:35), and no modelled caller passes one.
- `DouyuSignRunner.Ready`: as written, the async-void setup lets the initialisation complete at the setup's first await, before the blank page has finished loading. The model runs the setup to its end first, so a request that overlaps that loading is not modelled.

## Findings

| source | as written | input that shows it | evidently intended | confidence | as-written member | corrected member |
|---|---|---|---|---|---|---|
| AllLive.Core/Danmaku/DouyinDanmaku.cs:444-448 | the retry token set by `ScheduleReconnect` is still held after the delayed reconnect dials, so every later failure of that socket is skipped as "reconnect already in progress" | Start; the first socket closes with "reset"; the retry dials socket 3; socket 3 closes before opening: no notice, no retry, the client stays dead with 1 attempt counted | a reconnect that has dialled releases its token, so a failed reconnect is retried until the five attempts are spent | not executed; proved on the model | DanmakuSpec.StuckAfterFirstRetry | DanmakuSpec.FixedGivesUp |
| AllLive.UWP/Helper/DatabaseHelper.cs:146 | the bilibili repair (`LIKE '%±%'`) runs before the douyin repair, and the garbled douyin name "¶¶ÒôÖ±²¥" holds '±' | a favourite whose site name is "¶¶ÒôÖ±²¥" is rewritten to 哔哩哔哩直播 | the garbled douyin name becomes 抖音直播, as the comment at line 151 documents | not executed; proved on the model | Database.GarbledDouyinAsWritten | Database.GarbledNamesFixed |
| AllLive.Core/Douyin.cs:827 | the retry after a successful verification passes `useVerifiedCookie: true`, but the verify branch never reads it | a server that always answers `verify_check` and a handler that always returns a cookie: the search recurses without end | the retry does not ask for verification again (the comment at line 826), so the search ends after one retry | not executed; proved on the model | Douyin.SearchAsWrittenUnbounded | Douyin.SearchRetriesOnce |
| AllLive.Core/Huya.cs:284 | `1000 * Random.Next(0, int.MaxValue)` is a 32-bit product that wraps, and `%` keeps the sign | clock 1760000000000 ms and draw 2147484 give the uuid -2147483296 | a non-negative uuid below `uint.MaxValue` | not executed; proved on the model | Huya.UuidAsWrittenNegative | Huya.UuidAgrees |
| AllLive.UWP/Helper/WebViewDouyuSignRunner.cs:116-132 | the setup lambda returns nothing, so it binds to the `Action` overload of `RunOnUiThreadAsync` and runs as async void: `InitializeAsync` completes and sets `_initialized` however the setup ended | the first setup throws before the new WebView is assigned: the runner is initialised with no WebView, every later request fails on the null view (not recoverable) and gives "", and no reset ever happens | the setup is awaited, as in the Douyin runner, so its error faults the initialisation and a recoverable one is cured by the reset and retry | not executed; proved on the model | DouyuSignRunner.SetupFailureBreaksAsWritten | DouyuSignRunner.SetupFailureRecovered |
