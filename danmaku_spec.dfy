/** The Douyin live-comment client (AllLive.Core/Danmaku/DouyinDanmaku.cs) as a sequential state
    machine: one pure function per handler, over a value that holds every field the class updates
    plus logs of what it sends, raises and dials. Socket I/O, timers and delays become events;
    protobuf and gzip decoding become the already-decoded `Inbound` value. */
module DanmakuSpec {
  import opened Wrappers
  import opened Text

  const MaxReconnectAttempts: int := 5
  const HeartbeatTime: int := 10 * 1000
  const BaseUrl: string := "wss://webcast3-ws-web-lq.douyin.com/webcast/im/push/v2/"
  const PrimaryHost: string := "webcast3-ws-web-lq"
  const BackupHost: string := "webcast5-ws-web-lf"
  const HeartbeatTag: string := "hb"
  const ServerClosed: string := "Danmaku server closed"
  const ReconnectFailed: string := "Reconnect failed"
  const ChatMethod: string := "WebcastChatMessage"
  const RoomUserSeqMethod: string := "WebcastRoomUserSeqMessage"
  const NoSignature: string := "00000000"

  /** `DouyinDanmakuArgs`. */
  datatype Args = Args(webRid: string, roomId: string, userId: string, cookie: string)

  /** An outbound `PushFrame`: a heartbeat carries no `logId`. */
  datatype PushFrame = PushFrame(logId: Option<nat>, payloadType: string)

  /** A decoded `ChatMessage`; `user` is None when the message has no `User`. */
  datatype ChatMessage = ChatMessage(content: string, user: Option<string>)

  /** One entry of `messagesLists`: its method name (`kind`) and how its payload decodes as each known
      kind (None: that decoding throws). */
  datatype SubMessage = SubMessage(kind: string, chat: Option<ChatMessage>, totalUser: Option<int>)

  /** The inner `Response`; a null `internalExt` is the empty string here (both skip the ACK). */
  datatype Response = Response(needAck: Option<bool>, internalExt: string, messages: seq<SubMessage>)

  /** A received binary frame: it either fails to decode (frame, gzip or response) or yields the
      outer frame's `logId` and the inner response. */
  datatype Inbound = Undecodable | Decoded(logId: Option<nat>, response: Response)

  /** What `NewMessage` raises. */
  datatype LiveMessage = Chat(message: string, userName: string) | Online(totalUser: int)

  /** A WebSocket and a heartbeat timer, each with the handle its handlers were attached under. */
  datatype Socket = Socket(id: nat, url: string)
  datatype Timer = Timer(id: nat, running: bool)

  /** The fields of `DouyinDanmaku` and what it has done so far.
      token: `reconnectTokenSource` (None for null); cancelled: tokens whose source was cancelled;
      pending: tokens whose delayed reconnect has not fired yet; nextId: fresh handles;
      sent: frames sent; notices: `OnClose` arguments; messages: `NewMessage` arguments;
      dialled: URLs a socket was created for. */
  datatype Client = Client(
    attempts: nat, useBackup: bool, stopping: bool,
    token: Option<nat>, cancelled: set<nat>, pending: set<nat>,
    ws: Option<Socket>, timer: Option<Timer>, nextId: nat,
    args: Option<Args>, serverUrl: string, backupUrl: string,
    sent: seq<PushFrame>, notices: seq<string>, messages: seq<LiveMessage>, dialled: seq<string>)

  const Init: Client := Client(0, false, false, None, {}, {}, None, None, 0, None, "", "", [], [], [], [])

  /** The interim notice of attempt n. */
  function ReconnectingNotice(n: nat): string {
    "Connection lost, reconnecting (" + NatToString(n) + "/" + NatToString(MaxReconnectAttempts) + ")"
  }

  /** `BackupUrl` derived from `ServerUrl`. */
  function BackupOf(url: string): string {
    Replace(url, PrimaryHost, BackupHost)
  }

  /** The URL `ConnectAsync(useBackup)` dials. */
  function Target(c: Client, useBackup: bool): string {
    if useBackup && c.backupUrl != "" then c.backupUrl else c.serverUrl
  }

  function CancelReconnect(c: Client): Client {
    if c.token.Some? then c.(token := None, cancelled := c.cancelled + {c.token.value}) else c
  }

  /** Handlers detached, socket closed, timer disposed: neither handle delivers events afterwards. */
  function CleanupWebSocket(c: Client): Client {
    c.(ws := None, timer := None)
  }

  function ScheduleReconnect(c: Client): Client {
    var c1 := CancelReconnect(c);
    c1.(token := Some(c1.nextId), pending := c1.pending + {c1.nextId}, nextId := c1.nextId + 1)
  }

  function HandleConnectionFailure(c: Client, reason: string): Client {
    if c.token.Some? then c
    else
      var n := c.attempts + 1;
      if n > MaxReconnectAttempts then
        var c1 := CancelReconnect(c.(attempts := n));
        c1.(notices := c1.notices + [if reason == "" then ReconnectFailed else reason])
      else
        var c1 := c.(attempts := n, notices := c.notices + [ReconnectingNotice(n)]);
        ScheduleReconnect(c1.(useBackup := !c1.useBackup && c1.backupUrl != ""))
  }

  /** A new socket dialling `url` and a new, stopped heartbeat timer, each with a fresh handle. */
  function OpenSocket(c: Client, url: string): Client {
    c.(ws := Some(Socket(c.nextId, url)), timer := Some(Timer(c.nextId + 1, false)),
       nextId := c.nextId + 2, dialled := c.dialled + [url])
  }

  /** `ConnectAsync(useBackup)`; `fault` is the message of an exception thrown while connecting. */
  function ConnectAsync(c: Client, useBackup: bool, fault: Option<string>): Client {
    var c2 := OpenSocket(CleanupWebSocket(c), Target(c, useBackup));
    match fault
    case None => c2
    case Some(m) => HandleConnectionFailure(CleanupWebSocket(c2), m)
  }

  function SendHeartBeatData(c: Client): Client {
    if c.ws.Some? then c.(sent := c.sent + [PushFrame(None, HeartbeatTag)]) else c
  }

  function SendAckData(c: Client, logId: nat, internalExt: string): Client {
    if internalExt == "" then c
    else if c.ws.Some? then c.(sent := c.sent + [PushFrame(Some(logId), internalExt)])
    else c
  }

  /** What one sub-message raises: a chat line, an audience count, or nothing (unknown method,
      or a payload whose decoding throws and is caught). */
  function UnPack(m: SubMessage): seq<LiveMessage> {
    if m.kind == ChatMethod then
      match m.chat
      case Some(ChatMessage(content, Some(nick))) => [Chat(content, nick)]
      case _ => []
    else if m.kind == RoomUserSeqMethod then
      match m.totalUser
      case Some(n) => [Online(n)]
      case None => []
    else []
  }

  /** The `foreach` over `messagesLists`. */
  function Dispatch(ms: seq<SubMessage>): seq<LiveMessage>
    decreases |ms|
  {
    if |ms| == 0 then [] else Dispatch(ms[..|ms| - 1]) + UnPack(ms[|ms| - 1])
  }

  /** One more sub-message adds what it raises after what the earlier ones raised. */
  lemma DispatchStep(prefix: seq<LiveMessage>, ms: seq<SubMessage>, i: nat)
    requires i < |ms|
    ensures prefix + Dispatch(ms[..i + 1]) == (prefix + Dispatch(ms[..i])) + UnPack(ms[i])
  {
    assert ms[..i + 1][..i] == ms[..i];
  }

  predicate IsCurrent(c: Client, socket: nat) {
    c.ws.Some? && c.ws.value.id == socket
  }

  /** The state `Start` connects from: the arguments stored, the flags and counters reset, a
      pending reconnect cancelled, and both endpoints derived from the query. */
  function Prepared(c: Client, args: Option<Args>, query: string): Client {
    var c1 := CancelReconnect(c.(args := args, stopping := false, attempts := 0, useBackup := false));
    var url := BaseUrl + "?" + query;
    c1.(serverUrl := url, backupUrl := BackupOf(url))
  }

  /** `Start`; without arguments it throws `ArgumentException` before assigning anything, which
      leaves the client as it was. */
  function Start(c: Client, args: Option<Args>, query: string, fault: Option<string>): Client {
    if args.None? then c else ConnectAsync(Prepared(c, args, query), false, fault)
  }

  function OnOpen(c: Client, socket: nat): Client {
    if !IsCurrent(c, socket) then c
    else
      var c1 := SendHeartBeatData(CancelReconnect(c.(attempts := 0, useBackup := false)));
      c1.(timer := if c1.timer.Some? then Some(c1.timer.value.(running := true)) else None)
  }

  function OnMessage(c: Client, socket: nat, frame: Inbound): Client {
    if !IsCurrent(c, socket) then c
    else
      var c1 := c.(attempts := 0);
      match frame
      case Undecodable => c1
      case Decoded(logId, resp) =>
        var c2 := if resp.needAck.GetOr(false) then SendAckData(c1, logId.GetOr(0), resp.internalExt) else c1;
        c2.(messages := c2.messages + Dispatch(resp.messages))
  }

  function OnClose(c: Client, socket: nat, reason: string): Client {
    if !IsCurrent(c, socket) || c.stopping then c
    else HandleConnectionFailure(c, if reason == "" then ServerClosed else reason)
  }

  function OnError(c: Client, socket: nat, message: string): Client {
    if !IsCurrent(c, socket) || c.stopping then c
    else HandleConnectionFailure(c, message)
  }

  function TimerElapsed(c: Client, timer: nat): Client {
    if c.timer.Some? && c.timer.value.id == timer && c.timer.value.running then SendHeartBeatData(c) else c
  }

  /** The delayed task of `ScheduleReconnect` firing: it connects only if its token is uncancelled. */
  function RetryFired(c: Client, token: nat, fault: Option<string>): Client {
    if token !in c.pending then c
    else
      var c1 := c.(pending := c.pending - {token});
      if token in c1.cancelled then c1 else ConnectAsync(c1, c1.useBackup, fault)
  }

  function Stop(c: Client): Client {
    var c1 := CancelReconnect(c.(stopping := true));
    CleanupWebSocket(c1.(attempts := 0, useBackup := false))
  }

  /** `DefaultSignatureProvider`: the signing helper's value unless it is empty or the placeholder,
      else the network fallback's (None: the fallback threw or had no signature field). */
  function DefaultSignatureProvider(primary: string, fallback: Option<string>): (sign: string)
    ensures primary != "" && primary != NoSignature ==> sign == primary
    ensures (primary == "" || primary == NoSignature) ==> sign == fallback.GetOr(NoSignature)
  {
    if primary != "" && primary != NoSignature then primary else fallback.GetOr(NoSignature)
  }

  /** A signature other than "" and the placeholder. */
  predicate RealSignature(s: string) {
    s != "" && s != NoSignature
  }

  /** The provider answers a real signature whenever either source has one, preferring the
      helper's; it answers a placeholder only when the helper failed, and "" only when the
      fallback itself answered "". */
  lemma SignatureProviderPrefersReal(primary: string, fallback: Option<string>)
    ensures var sign := DefaultSignatureProvider(primary, fallback);
      ((RealSignature(primary) || (fallback.Some? && RealSignature(fallback.value))) ==>
         RealSignature(sign)) &&
      (!RealSignature(sign) ==> !RealSignature(primary)) &&
      (sign == "" ==> fallback == Some("")) &&
      (sign == primary || sign == fallback.GetOr(NoSignature))
  {
  }

  datatype Event =
    | StartEv(args: Option<Args>, query: string, fault: Option<string>)
    | OpenEv(socket: nat)
    | MessageEv(socket: nat, frame: Inbound)
    | CloseEv(socket: nat, reason: string)
    | ErrorEv(socket: nat, message: string)
    | TimerEv(timer: nat)
    | HeartbeatEv
    | RetryEv(token: nat, fault: Option<string>)
    | StopEv

  function Step(c: Client, e: Event): Client {
    match e
    case StartEv(a, q, f) => Start(c, a, q, f)
    case OpenEv(s) => OnOpen(c, s)
    case MessageEv(s, fr) => OnMessage(c, s, fr)
    case CloseEv(s, r) => OnClose(c, s, r)
    case ErrorEv(s, m) => OnError(c, s, m)
    case TimerEv(t) => TimerElapsed(c, t)
    case HeartbeatEv => SendHeartBeatData(c)
    case RetryEv(t, f) => RetryFired(c, t, f)
    case StopEv => Stop(c)
  }

  function Run(c: Client, es: seq<Event>): Client
    decreases |es|
  {
    if |es| == 0 then c else Run(Step(c, es[0]), es[1..])
  }

  // ---------------------------------------------------------------------------------------------
  // Single handlers

  /** Events of a superseded socket reach no handler: its handlers were detached. */
  lemma StaleSocketIgnored(c: Client, socket: nat, frame: Inbound, reason: string)
    requires !IsCurrent(c, socket)
    ensures OnOpen(c, socket) == c && OnMessage(c, socket, frame) == c
    ensures OnClose(c, socket, reason) == c && OnError(c, socket, reason) == c
  {
  }

  /** While a reconnect is scheduled, a further failure is not counted and raises nothing. */
  lemma FailureWhileScheduled(c: Client, reason: string)
    requires c.token.Some?
    ensures HandleConnectionFailure(c, reason) == c
  {
  }

  /** Within the budget a failure counts one attempt, raises the interim notice, flips to the
      backup endpoint when the last attempt used the primary one, and schedules exactly one
      reconnect under a fresh token; the socket is left alone. */
  lemma FailureWithinBudget(c: Client, reason: string)
    requires c.token.None? && c.attempts < MaxReconnectAttempts
    requires c.nextId !in c.cancelled && c.nextId !in c.pending
    ensures var d := HandleConnectionFailure(c, reason);
      d.attempts == c.attempts + 1
      && d.notices == c.notices + [ReconnectingNotice(c.attempts + 1)]
      && d.useBackup == (!c.useBackup && c.backupUrl != "")
      && d.token == Some(c.nextId) && d.pending == c.pending + {c.nextId} && d.cancelled == c.cancelled
      && d.ws == c.ws && d.timer == c.timer && d.sent == c.sent && d.dialled == c.dialled
  {
  }

  /** Beyond the budget a failure raises one final notice (the reason, or "Reconnect failed")
      and schedules nothing. */
  lemma FailureBeyondBudget(c: Client, reason: string)
    requires c.token.None? && c.attempts >= MaxReconnectAttempts
    ensures var d := HandleConnectionFailure(c, reason);
      d.attempts == c.attempts + 1
      && d.notices == c.notices + [if reason == "" then ReconnectFailed else reason]
      && d.token.None? && d.pending == c.pending && d.useBackup == c.useBackup
      && d.ws == c.ws && d.dialled == c.dialled
  {
  }

  /** Cancelling twice is cancelling once; afterwards no token is held. */
  lemma CancelReconnectIdempotent(c: Client)
    ensures CancelReconnect(CancelReconnect(c)) == CancelReconnect(c)
    ensures CancelReconnect(c).token.None?
    ensures c.token.Some? ==> c.token.value in CancelReconnect(c).cancelled
  {
  }

  /** Cleaning up always leaves neither socket nor timer, touches nothing else, and does nothing
      when neither is set. */
  lemma CleanupClears(c: Client)
    ensures var d := CleanupWebSocket(c);
      d.ws.None? && d.timer.None? && d == c.(ws := d.ws, timer := d.timer)
      && (c.ws.None? && c.timer.None? ==> d == c)
  {
  }

  /** A scheduled retry dials only under a token that is still pending and was not cancelled;
      it never fires twice. */
  lemma RetryOnlyIfLive(c: Client, token: nat, fault: Option<string>)
    ensures var d := RetryFired(c, token, fault);
      (fault.None? ==> token !in d.pending)
      && ((token !in c.pending || token in c.cancelled) ==> d.dialled == c.dialled && d.ws == c.ws)
      && (token in c.pending && token !in c.cancelled ==>
            d.dialled == c.dialled + [Target(c, c.useBackup)])
  {
  }

  /** A connection dials the backup URL exactly when asked to and one is known, creates a new
      socket and a stopped timer under fresh handles, and leaves the retry state alone; a fault
      while connecting drops both and is handled as a failure. */
  lemma ConnectTarget(c: Client, useBackup: bool, fault: Option<string>)
    ensures var d := ConnectAsync(c, useBackup, fault);
      var url := if useBackup && c.backupUrl != "" then c.backupUrl else c.serverUrl;
      d.dialled == c.dialled + [url]
      && (fault.None? ==>
            d.ws == Some(Socket(c.nextId, url)) && d.timer == Some(Timer(c.nextId + 1, false))
            && d.nextId == c.nextId + 2 && d.token == c.token && d.attempts == c.attempts)
      && (fault.Some? ==> d.ws.None? && d.timer.None?)
  {
  }

  /** Opening resets the counter and the endpoint, drops a scheduled reconnect, sends one
      heartbeat and starts the timer. */
  lemma OpenResets(c: Client, socket: nat)
    requires IsCurrent(c, socket)
    ensures var d := OnOpen(c, socket);
      d.attempts == 0 && !d.useBackup && d.token.None?
      && d.sent == c.sent + [PushFrame(None, HeartbeatTag)]
      && d.ws == c.ws && (c.timer.Some? ==> d.timer == Some(c.timer.value.(running := true)))
  {
  }

  /** Only a started timer of the current generation sends heartbeats. */
  lemma TimerHeartbeat(c: Client, timer: nat)
    ensures var d := TimerElapsed(c, timer);
      d.sent == (if c.timer == Some(Timer(timer, true)) && c.ws.Some?
                 then c.sent + [PushFrame(None, HeartbeatTag)] else c.sent)
  {
  }

  /** A frame on the live socket resets the counter, acknowledges when the server asks for it and
      the frame carries a non-empty `internalExt` (log id 0 when absent), and raises what its
      sub-messages hold, in order. A frame that fails to decode does only the reset. */
  lemma MessageHandled(c: Client, socket: nat, frame: Inbound)
    requires IsCurrent(c, socket)
    ensures var d := OnMessage(c, socket, frame);
      d.attempts == 0 && d.token == c.token && d.ws == c.ws
      && (frame.Undecodable? ==> d.sent == c.sent && d.messages == c.messages)
      && (frame.Decoded? ==>
            var resp := frame.response;
            d.messages == c.messages + Dispatch(resp.messages)
            && d.sent == (if resp.needAck == Some(true) && resp.internalExt != ""
                          then c.sent + [PushFrame(Some(frame.logId.GetOr(0)), resp.internalExt)]
                          else c.sent))
  {
  }

  /** The sub-messages are handled one after the other, each on its own: what one of them raises
      (or fails to raise) does not depend on the others. */
  lemma {:induction false} DispatchConcat(a: seq<SubMessage>, b: seq<SubMessage>)
    ensures Dispatch(a + b) == Dispatch(a) + Dispatch(b)
    decreases |b|
  {
    if |b| == 0 {
      assert a + b == a;
    } else {
      var b' := b[..|b| - 1];
      assert (a + b)[..|a + b| - 1] == a + b';
      assert (a + b)[|a + b| - 1] == b[|b| - 1];
      DispatchConcat(a, b');
    }
  }

  /** A chat line raises one `Chat` with its content and the sender's nickname; an audience count
      one `Online`; a payload that does not decode and an unknown method raise nothing. */
  lemma UnPackCases(m: SubMessage)
    ensures m.kind == ChatMethod && m.chat.Some? && m.chat.value.user.Some? ==>
      UnPack(m) == [Chat(m.chat.value.content, m.chat.value.user.value)]
    ensures m.kind == RoomUserSeqMethod && m.totalUser.Some? ==> UnPack(m) == [Online(m.totalUser.value)]
    ensures |UnPack(m)| <= 1
    ensures ((m.kind == ChatMethod && (m.chat.None? || m.chat.value.user.None?))
             || (m.kind == RoomUserSeqMethod && m.totalUser.None?)
             || (m.kind != ChatMethod && m.kind != RoomUserSeqMethod)) ==> UnPack(m) == []
  {
  }

  /** Each sub-message raises at most one message. */
  lemma {:induction false} DispatchBound(ms: seq<SubMessage>)
    ensures |Dispatch(ms)| <= |ms|
    decreases |ms|
  {
    if |ms| > 0 {
      DispatchBound(ms[..|ms| - 1]);
      UnPackCases(ms[|ms| - 1]);
    }
  }

  /** `Start` without arguments throws before touching anything; with arguments it resets the
      retry state, derives both endpoints from the query and dials the primary one. */
  lemma StartConnects(c: Client, args: Option<Args>, query: string)
    ensures args.None? ==> Start(c, args, query, None) == c
    ensures args.Some? ==>
      var d := Start(c, args, query, None);
      d.serverUrl == BaseUrl + "?" + query && d.backupUrl == BackupOf(d.serverUrl)
      && |d.backupUrl| == |d.serverUrl| > 0
      && d.attempts == 0 && !d.useBackup && !d.stopping && d.token.None?
      && d.dialled == c.dialled + [d.serverUrl] && d.ws == Some(Socket(c.nextId, d.serverUrl))
  {
    ReplaceKeepsLength(BaseUrl + "?" + query, PrimaryHost, BackupHost);
  }

  // ---------------------------------------------------------------------------------------------
  // Whole runs

  /** Tokens are drawn fresh. */
  ghost predicate FreshIds(c: Client) {
    (forall t :: t in c.cancelled ==> t < c.nextId) && (forall t :: t in c.pending ==> t < c.nextId)
  }

  /** Handles and tokens are drawn fresh; every scheduled reconnect that is not cancelled belongs
      to the token currently held. */
  ghost predicate Fresh(c: Client) {
    FreshIds(c)
    && (forall t :: t in c.pending && t !in c.cancelled ==> c.token == Some(t))
  }

  /** What holds in every reachable state of the client as written: the counter only ever reaches
      1, it is 0 whenever no token is held, and every notice is the first interim one. */
  ghost predicate Inv(c: Client) {
    Fresh(c)
    && c.attempts <= 1
    && (c.token.None? ==> c.attempts == 0)
    && (forall i :: 0 <= i < |c.notices| ==> c.notices[i] == ReconnectingNotice(1))
  }

  lemma CancelKeepsFresh(c: Client)
    requires Fresh(c) && (c.token.Some? ==> c.token.value < c.nextId)
    ensures Fresh(CancelReconnect(c))
    ensures forall t :: t in CancelReconnect(c).pending ==> t in CancelReconnect(c).cancelled
  {
  }

  ghost predicate TokenFresh(c: Client) {
    c.token.Some? ==> c.token.value < c.nextId
  }

  lemma FailureKeepsInv(c: Client, reason: string)
    requires Inv(c) && TokenFresh(c)
    ensures Inv(HandleConnectionFailure(c, reason)) && TokenFresh(HandleConnectionFailure(c, reason))
  {
    if c.token.None? {
      CancelKeepsFresh(c);
      var d := HandleConnectionFailure(c, reason);
      assert d.notices == c.notices + [ReconnectingNotice(1)];
      assert forall t :: t in d.pending && t !in d.cancelled ==> t == c.nextId;
    }
  }

  lemma ConnectKeepsInv(c: Client, useBackup: bool, fault: Option<string>)
    requires Inv(c) && TokenFresh(c)
    ensures Inv(ConnectAsync(c, useBackup, fault)) && TokenFresh(ConnectAsync(c, useBackup, fault))
  {
    var url := Target(c, useBackup);
    var c2 := CleanupWebSocket(c).(ws := Some(Socket(c.nextId, url)), timer := Some(Timer(c.nextId + 1, false)),
                                    nextId := c.nextId + 2, dialled := c.dialled + [url]);
    assert Inv(c2) && TokenFresh(c2);
    if fault.Some? {
      FailureKeepsInv(CleanupWebSocket(c2), fault.value);
    }
  }

  lemma {:induction false} StepKeepsInv(c: Client, e: Event)
    requires Inv(c) && TokenFresh(c)
    ensures Inv(Step(c, e)) && TokenFresh(Step(c, e))
  {
    match e
    case StartEv(a, q, f) =>
      StartKeepsInv(c, a, q, f);
    case OpenEv(s) =>
      if IsCurrent(c, s) {
        CancelKeepsFresh(c.(attempts := 0, useBackup := false));
      }
    case MessageEv(s, fr) =>
    case CloseEv(s, r) =>
      if IsCurrent(c, s) && !c.stopping {
        FailureKeepsInv(c, if r == "" then ServerClosed else r);
      }
    case ErrorEv(s, m) =>
      if IsCurrent(c, s) && !c.stopping {
        FailureKeepsInv(c, m);
      }
    case TimerEv(t) =>
    case HeartbeatEv =>
    case RetryEv(t, f) =>
      RetryKeepsInv(c, t, f);
    case StopEv =>
      CancelKeepsFresh(c.(stopping := true));
  }

  lemma StartKeepsInv(c: Client, args: Option<Args>, query: string, fault: Option<string>)
    requires Inv(c) && TokenFresh(c)
    ensures Inv(Start(c, args, query, fault)) && TokenFresh(Start(c, args, query, fault))
  {
    if args.Some? {
      CancelKeepsFresh(c.(args := args, stopping := false, attempts := 0, useBackup := false));
      ConnectKeepsInv(Prepared(c, args, query), false, fault);
    }
  }

  lemma RetryKeepsInv(c: Client, token: nat, fault: Option<string>)
    requires Inv(c) && TokenFresh(c)
    ensures Inv(RetryFired(c, token, fault)) && TokenFresh(RetryFired(c, token, fault))
  {
    if token in c.pending && token !in c.cancelled {
      ConnectKeepsInv(c.(pending := c.pending - {token}), c.useBackup, fault);
    }
  }

  lemma {:induction false} RunKeepsInv(c: Client, es: seq<Event>)
    requires Inv(c) && TokenFresh(c)
    ensures Inv(Run(c, es)) && TokenFresh(Run(c, es))
    decreases |es|
  {
    if |es| > 0 {
      StepKeepsInv(c, es[0]);
      RunKeepsInv(Step(c, es[0]), es[1..]);
    }
  }

  /** As written, the give-up branch of `HandleConnectionFailure` is unreachable: in every run the
      counter stays at most 1 and the only notice ever raised is "reconnecting (1/5)". */
  lemma ExhaustionUnreachable(es: seq<Event>)
    ensures Run(Init, es).attempts <= 1
    ensures forall i :: 0 <= i < |Run(Init, es).notices| ==> Run(Init, es).notices[i] == ReconnectingNotice(1)
  {
    RunKeepsInv(Init, es);
  }

  /** A run that is only ever stopped once the client has settled: once `Stop` has run, no event
      other than `Start` dials, sends, raises or reconnects. */
  ghost predicate Quiet(c: Client) {
    c.ws.None? && c.timer.None? && c.token.None? && c.stopping && c.attempts == 0
    && (forall t :: t in c.pending ==> t in c.cancelled)
  }

  lemma {:induction false} QuietRun(c: Client, es: seq<Event>)
    requires Quiet(c)
    requires forall i :: 0 <= i < |es| ==> !es[i].StartEv?
    ensures var d := Run(c, es);
      Quiet(d) && d.dialled == c.dialled && d.sent == c.sent && d.notices == c.notices
      && d.messages == c.messages && d.attempts == c.attempts
    decreases |es|
  {
    if |es| > 0 {
      assert !es[0].StartEv?;
      var d := Step(c, es[0]);
      assert Quiet(d) && d.dialled == c.dialled && d.sent == c.sent && d.notices == c.notices
        && d.messages == c.messages && d.attempts == c.attempts;
      QuietRun(d, es[1..]);
    }
  }

  /** `Stop` releases the socket, the timer and the scheduled reconnect, and nothing short of a new
      `Start` brings the client back: later socket, timer, heartbeat, retry and stop events change
      nothing it has sent, raised or dialled. */
  lemma StopIsFinal(c: Client, es: seq<Event>)
    requires Inv(c) && TokenFresh(c)
    requires forall i :: 0 <= i < |es| ==> !es[i].StartEv?
    ensures var d := Run(Stop(c), es);
      d.ws.None? && d.token.None? && d.attempts == 0
      && d.dialled == c.dialled && d.sent == c.sent && d.notices == c.notices && d.messages == c.messages
  {
    CancelKeepsFresh(c.(stopping := true));
    QuietRun(Stop(c), es);
  }

  /** As written, the first reconnect after a reset goes to the backup endpoint. */
  lemma FirstRetryUsesBackup(c: Client, reason: string)
    requires Inv(c) && TokenFresh(c) && c.ws.Some? && !c.stopping
    requires c.token.None? && !c.useBackup && c.backupUrl != ""
    ensures var d := Run(c, [CloseEv(c.ws.value.id, reason), RetryEv(c.nextId, None)]);
      d.dialled == c.dialled + [c.backupUrl] && d.notices == c.notices + [ReconnectingNotice(1)]
  {
    var c1 := Step(c, CloseEv(c.ws.value.id, reason));
    assert c1.token == Some(c.nextId) && c.nextId in c1.pending && c.nextId !in c1.cancelled;
    assert c1.useBackup;
    var c2 := Step(c1, RetryEv(c.nextId, None));
    assert c2.dialled == c.dialled + [c.backupUrl] && c2.notices == c.notices + [ReconnectingNotice(1)];
    var es := [CloseEv(c.ws.value.id, reason), RetryEv(c.nextId, None)];
    assert es[1..] == [RetryEv(c.nextId, None)];
    assert [RetryEv(c.nextId, None)][1..] == [];
    assert Run(c1, [RetryEv(c.nextId, None)]) == Run(c2, []);
  }

  /** As written, a reconnect that has run keeps its token: the next failure of the new socket
      is taken for "a reconnect is already scheduled" and dropped, and nothing is ever scheduled
      or raised again. Start, close the first socket, let the retry dial, close that socket too. */
  lemma StuckAfterFirstRetry(a: Args, query: string)
    ensures var c := Run(Init, [StartEv(Some(a), query, None), CloseEv(0, "reset"), RetryEv(2, None), CloseEv(3, "reset")]);
      IsCurrent(c, 3) && c.token == Some(2) && c.pending == {} && c.attempts == 1
      && c.notices == [ReconnectingNotice(1)]
      && forall r :: OnClose(c, 3, r) == c && OnError(c, 3, r) == c
  {
    var es := [StartEv(Some(a), query, None), CloseEv(0, "reset"), RetryEv(2, None), CloseEv(3, "reset")];
    var c1 := Step(Init, es[0]);
    assert c1.ws == Some(Socket(0, c1.serverUrl)) && c1.nextId == 2 && c1.token.None? && c1.attempts == 0;
    var c2 := Step(c1, es[1]);
    assert c2.token == Some(2) && c2.pending == {2} && c2.cancelled == {} && c2.nextId == 3;
    var c3 := Step(c2, es[2]);
    assert c3.ws.value.id == 3 && c3.token == Some(2) && c3.pending == {};
    var c4 := Step(c3, es[3]);
    assert c4 == c3;
    assert Run(Init, es) == Run(c1, es[1..]);
    assert es[1..] == [es[1], es[2], es[3]];
    assert Run(c1, [es[1], es[2], es[3]]) == Run(c2, [es[2], es[3]]);
    assert Run(c2, [es[2], es[3]]) == Run(c3, [es[3]]);
    assert Run(c3, [es[3]]) == Run(c4, []);
  }

  // ---------------------------------------------------------------------------------------------
  // The reconnect task with its token released

  /** The delayed reconnect as evidently intended: when it fires it releases the token it was
      scheduled under before dialling, so that the next failure is counted again. */
  function RetryFiredReleasing(c: Client, token: nat, fault: Option<string>): Client {
    if token !in c.pending then c
    else
      var c1 := c.(pending := c.pending - {token});
      if token in c1.cancelled then c1
      else ConnectAsync(c1.(token := if c1.token == Some(token) then None else c1.token), c1.useBackup, fault)
  }

  /** The intended retry dials under the same conditions, and afterwards holds no token when it
      fired under the held one. */
  lemma ReleasingRetry(c: Client, token: nat, fault: Option<string>)
    requires fault.None?
    ensures var d := RetryFiredReleasing(c, token, fault);
      token !in d.pending
      && ((token !in c.pending || token in c.cancelled) ==> d == c.(pending := c.pending - {token}))
      && (token in c.pending && token !in c.cancelled ==>
            d.dialled == c.dialled + [Target(c, c.useBackup)]
            && (c.token == Some(token) ==> d.token.None?))
  {
  }

  /** The client with the released token. */
  function StepFixed(c: Client, e: Event): Client {
    if e.RetryEv? then RetryFiredReleasing(c, e.token, e.fault) else Step(c, e)
  }

  /** A connected client with no reconnect scheduled. */
  ghost predicate Live(c: Client) {
    c.ws.Some? && c.token.None? && !c.stopping && FreshIds(c)
  }

  /** One failure round: the live socket closes, then the reconnect it scheduled fires and dials. */
  function Round(c: Client, reason: string): Client {
    if c.ws.None? then c
    else StepFixed(StepFixed(c, CloseEv(c.ws.value.id, reason)), RetryEv(c.nextId, None))
  }

  function Rounds(c: Client, reason: string, k: nat): Client
    decreases k
  {
    if k == 0 then c else Round(Rounds(c, reason, k - 1), reason)
  }

  /** The interim notices from attempt `from` on, k of them. */
  function Notices(from: nat, k: nat): seq<string>
    decreases k
  {
    if k == 0 then [] else Notices(from, k - 1) + [ReconnectingNotice(from + k - 1)]
  }

  /** `b` negated k times. */
  function Flip(b: bool, k: nat): bool
    decreases k
  {
    if k == 0 then b else !Flip(b, k - 1)
  }

  /** The URL the i-th round dials (from 0) when the attempt before the first round used the
      backup endpoint iff `lastBackup`: the endpoints alternate, starting with the other one. */
  function DialAt(lastBackup: bool, backup: string, primary: string, i: nat): string {
    if Flip(lastBackup, i) then primary else backup
  }

  function Dials(lastBackup: bool, backup: string, primary: string, k: nat): seq<string>
    decreases k
  {
    if k == 0 then [] else Dials(lastBackup, backup, primary, k - 1) + [DialAt(lastBackup, backup, primary, k - 1)]
  }

  lemma RoundCounts(c: Client, reason: string)
    requires Live(c) && c.attempts < MaxReconnectAttempts && c.backupUrl != ""
    ensures var d := Round(c, reason);
      Live(d) && d.attempts == c.attempts + 1
      && d.notices == c.notices + [ReconnectingNotice(c.attempts + 1)]
      && d.pending == c.pending && d.useBackup == !c.useBackup
      && d.dialled == c.dialled + [if c.useBackup then c.serverUrl else c.backupUrl]
      && d.serverUrl == c.serverUrl && d.backupUrl == c.backupUrl
  {
    var c1 := StepFixed(c, CloseEv(c.ws.value.id, reason));
    assert c1 == HandleConnectionFailure(c, if reason == "" then ServerClosed else reason);
    assert c1.token == Some(c.nextId) && c1.pending == c.pending + {c.nextId};
    assert c.nextId !in c.cancelled;
    var d := Round(c, reason);
    assert d.pending == c.pending;
  }

  lemma {:induction false} RoundsCount(c: Client, reason: string, k: nat)
    requires Live(c) && c.attempts + k <= MaxReconnectAttempts && c.backupUrl != ""
    ensures var d := Rounds(c, reason, k);
      Live(d) && d.attempts == c.attempts + k
      && d.notices == c.notices + Notices(c.attempts + 1, k)
      && d.pending == c.pending && d.useBackup == Flip(c.useBackup, k)
      && d.serverUrl == c.serverUrl && d.backupUrl == c.backupUrl
    decreases k
  {
    if k > 0 {
      RoundsCount(c, reason, k - 1);
      RoundCounts(Rounds(c, reason, k - 1), reason);
    }
  }

  lemma {:induction false} RoundsDial(c: Client, reason: string, k: nat)
    requires Live(c) && c.attempts + k <= MaxReconnectAttempts && c.backupUrl != ""
    ensures Rounds(c, reason, k).dialled == c.dialled + Dials(c.useBackup, c.backupUrl, c.serverUrl, k)
    decreases k
  {
    if k > 0 {
      var prev := Rounds(c, reason, k - 1);
      RoundsCount(c, reason, k - 1);
      RoundsDial(c, reason, k - 1);
      RoundCounts(prev, reason);
      assert Rounds(c, reason, k).dialled == prev.dialled + [DialAt(c.useBackup, c.backupUrl, c.serverUrl, k - 1)];
    }
  }

  /** With the token released, a connection that keeps failing is retried until the budget is
      spent, alternating endpoints and counting the attempts up, and the failure after that gives
      up with one final notice and schedules nothing. */
  lemma FixedGivesUp(c: Client, reason: string, k: nat)
    requires Live(c) && c.backupUrl != "" && reason != ""
    requires c.attempts + k == MaxReconnectAttempts
    ensures var d := Rounds(c, reason, k);
      d.ws.Some? &&
      var e := StepFixed(d, CloseEv(d.ws.value.id, reason));
      e.notices == c.notices + Notices(c.attempts + 1, k) + [reason]
      && e.dialled == c.dialled + Dials(c.useBackup, c.backupUrl, c.serverUrl, k)
      && e.token.None? && e.pending == c.pending
  {
    RoundsCount(c, reason, k);
    RoundsDial(c, reason, k);
    var d := Rounds(c, reason, k);
    var e := StepFixed(d, CloseEv(d.ws.value.id, reason));
    assert e == HandleConnectionFailure(d, reason);
  }

  /** From a fresh connection the budget is five interim notices, 1/5 to 5/5, and five dials that
      start on the backup endpoint. */
  lemma FiveRounds(b: string, p: string)
    ensures Notices(1, 5) == [ReconnectingNotice(1), ReconnectingNotice(2), ReconnectingNotice(3),
                              ReconnectingNotice(4), ReconnectingNotice(5)]
    ensures Dials(false, b, p, 5) == [b, p, b, p, b]
  {
    assert Notices(1, 2) == [ReconnectingNotice(1), ReconnectingNotice(2)];
    assert Notices(1, 4) == Notices(1, 2) + [ReconnectingNotice(3), ReconnectingNotice(4)];
    assert Dials(false, b, p, 2) == [b, p];
    assert Dials(false, b, p, 4) == Dials(false, b, p, 2) + [b, p];
  }
}
