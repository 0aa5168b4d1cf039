/** `DouyinDanmaku` as a class: its fields, and one method per handler, each proved to move the
    client exactly as the matching function of `DanmakuSpec` says. The delayed reconnect releases
    its token when it fires (see `DanmakuSpec.RetryFiredReleasing`). */
module DouyinDanmaku {
  import opened Wrappers
  import opened Text
  import opened DanmakuSpec

  class DanmakuClient {
    var reconnectAttempts: nat
    var useBackupEndpoint: bool
    var isStopping: bool
    /** The token of `reconnectTokenSource`, None for null. */
    var reconnectToken: Option<nat>
    var cancelledTokens: set<nat>
    /** Tokens whose delayed reconnect is still waiting. */
    var scheduledRetries: set<nat>
    var ws: Option<Socket>
    var timer: Option<Timer>
    var nextHandle: nat
    var danmakuArgs: Option<Args>
    var serverUrl: string
    var backupUrl: string
    /** What was sent, raised through `OnClose` and `NewMessage`, and dialled. */
    var sentFrames: seq<PushFrame>
    var closeNotices: seq<string>
    var newMessages: seq<LiveMessage>
    var dialled: seq<string>

    function Snapshot(): Client
      reads this
    {
      Client(reconnectAttempts, useBackupEndpoint, isStopping, reconnectToken, cancelledTokens,
             scheduledRetries, ws, timer, nextHandle, danmakuArgs, serverUrl, backupUrl,
             sentFrames, closeNotices, newMessages, dialled)
    }

    constructor ()
      ensures Snapshot() == Init
    {
      reconnectAttempts, useBackupEndpoint, isStopping := 0, false, false;
      reconnectToken, cancelledTokens, scheduledRetries := None, {}, {};
      ws, timer, nextHandle := None, None, 0;
      danmakuArgs, serverUrl, backupUrl := None, "", "";
      sentFrames, closeNotices, newMessages, dialled := [], [], [], [];
    }

    /** `argumentError` is the `ArgumentException` thrown to the caller when the arguments are
        missing or of another type; it is thrown before any field is assigned. */
    method Start(args: Option<Args>, query: string, fault: Option<string>)
      returns (argumentError: bool)
      modifies this
      ensures argumentError <==> args.None?
      ensures argumentError ==> Snapshot() == old(Snapshot())
      ensures Snapshot() == DanmakuSpec.Start(old(Snapshot()), args, query, fault)
    {
      if args.None? {
        return true;
      }
      argumentError := false;
      Prepare(args, query);
      ConnectAsync(false, fault);
    }

    /** The part of `Start` before it connects. */
    method Prepare(args: Option<Args>, query: string)
      modifies this
      ensures Snapshot() == Prepared(old(Snapshot()), args, query)
    {
      ResetSession(args);
      var url := BaseUrl + "?" + query;
      serverUrl := url;
      backupUrl := Replace(url, PrimaryHost, BackupHost);
    }

    /** The arguments stored, the flags and the attempt counter reset, a pending reconnect
        cancelled. */
    method ResetSession(args: Option<Args>)
      modifies this
      ensures Snapshot() ==
        DanmakuSpec.CancelReconnect(old(Snapshot()).(args := args, stopping := false, attempts := 0, useBackup := false))
    {
      danmakuArgs := args;
      isStopping := false;
      reconnectAttempts := 0;
      useBackupEndpoint := false;
      CancelReconnect();
    }

    method OnOpen(socket: nat)
      modifies this
      ensures Snapshot() == DanmakuSpec.OnOpen(old(Snapshot()), socket)
    {
      if !(ws.Some? && ws.value.id == socket) {
        return;
      }
      reconnectAttempts := 0;
      useBackupEndpoint := false;
      CancelReconnect();
      SendHeartBeatData();
      if timer.Some? {
        timer := Some(timer.value.(running := true));
      }
    }

    /** Handles a binary frame; the sub-messages are raised one by one, in order. */
    method OnMessage(socket: nat, frame: Inbound)
      modifies this
      ensures Snapshot() == DanmakuSpec.OnMessage(old(Snapshot()), socket, frame)
    {
      if !(ws.Some? && ws.value.id == socket) {
        return;
      }
      reconnectAttempts := 0;
      ghost var c1 := Snapshot();
      assert c1 == old(Snapshot()).(attempts := 0);
      if frame.Undecodable? {
        return;
      }
      var resp := frame.response;
      if resp.needAck.GetOr(false) {
        SendAckData(frame.logId.GetOr(0), resp.internalExt);
      }
      assert Snapshot() == if resp.needAck.GetOr(false) then DanmakuSpec.SendAckData(c1, frame.logId.GetOr(0), resp.internalExt) else c1;
      DispatchMessages(resp.messages);
    }

    /** The `foreach` over `messagesLists`: each sub-message is handed to its unpacker, in order. */
    method DispatchMessages(ms: seq<SubMessage>)
      modifies this
      ensures Snapshot() == old(Snapshot()).(messages := old(newMessages) + Dispatch(ms))
    {
      ghost var before := Snapshot();
      var i := 0;
      assert Dispatch(ms[..0]) == [];
      while i < |ms|
        invariant 0 <= i <= |ms|
        invariant newMessages == before.messages + Dispatch(ms[..i])
        invariant Snapshot() == before.(messages := newMessages)
      {
        var m := ms[i];
        if m.kind == ChatMethod {
          UnPackWebcastChatMessage(m.chat);
        } else if m.kind == RoomUserSeqMethod {
          UnPackWebcastRoomUserSeqMessage(m.totalUser);
        }
        DispatchStep(before.messages, ms, i);
        i := i + 1;
      }
      assert ms[..|ms|] == ms;
    }

    method UnPackWebcastChatMessage(chat: Option<ChatMessage>)
      modifies this
      ensures newMessages == old(newMessages) + UnPack(SubMessage(ChatMethod, chat, None))
      ensures Snapshot() == old(Snapshot()).(messages := newMessages)
    {
      if chat.Some? && chat.value.user.Some? {
        newMessages := newMessages + [Chat(chat.value.content, chat.value.user.value)];
      }
    }

    method UnPackWebcastRoomUserSeqMessage(totalUser: Option<int>)
      modifies this
      ensures newMessages == old(newMessages) + UnPack(SubMessage(RoomUserSeqMethod, None, totalUser))
      ensures Snapshot() == old(Snapshot()).(messages := newMessages)
    {
      if totalUser.Some? {
        newMessages := newMessages + [Online(totalUser.value)];
      }
    }

    method OnClose(socket: nat, reason: string)
      modifies this
      ensures Snapshot() == DanmakuSpec.OnClose(old(Snapshot()), socket, reason)
    {
      if !(ws.Some? && ws.value.id == socket) || isStopping {
        return;
      }
      HandleConnectionFailure(if reason == "" then ServerClosed else reason);
    }

    method OnError(socket: nat, message: string)
      modifies this
      ensures Snapshot() == DanmakuSpec.OnError(old(Snapshot()), socket, message)
    {
      if !(ws.Some? && ws.value.id == socket) || isStopping {
        return;
      }
      HandleConnectionFailure(message);
    }

    method TimerElapsed(id: nat)
      modifies this
      ensures Snapshot() == DanmakuSpec.TimerElapsed(old(Snapshot()), id)
    {
      if timer.Some? && timer.value.id == id && timer.value.running {
        Heartbeat();
      }
    }

    method Heartbeat()
      modifies this
      ensures Snapshot() == DanmakuSpec.SendHeartBeatData(old(Snapshot()))
    {
      SendHeartBeatData();
    }

    method Stop()
      modifies this
      ensures Snapshot() == DanmakuSpec.Stop(old(Snapshot()))
    {
      isStopping := true;
      CancelReconnect();
      reconnectAttempts := 0;
      useBackupEndpoint := false;
      CleanupWebSocket();
    }

    method SendHeartBeatData()
      modifies this
      ensures Snapshot() == DanmakuSpec.SendHeartBeatData(old(Snapshot()))
    {
      if ws.Some? {
        sentFrames := sentFrames + [PushFrame(None, HeartbeatTag)];
      }
    }

    method SendAckData(logId: nat, internalExt: string)
      modifies this
      ensures Snapshot() == DanmakuSpec.SendAckData(old(Snapshot()), logId, internalExt)
    {
      if internalExt == "" {
        return;
      }
      if ws.Some? {
        sentFrames := sentFrames + [PushFrame(Some(logId), internalExt)];
      }
    }

    method ConnectAsync(useBackup: bool, fault: Option<string>)
      modifies this
      ensures Snapshot() == DanmakuSpec.ConnectAsync(old(Snapshot()), useBackup, fault)
    {
      var targetUrl := if useBackup && backupUrl != "" then backupUrl else serverUrl;
      assert targetUrl == Target(old(Snapshot()), useBackup);
      CleanupWebSocket();
      OpenSocket(targetUrl);
      if fault.Some? {
        CleanupWebSocket();
        HandleConnectionFailure(fault.value);
      }
    }

    /** The new socket and heartbeat timer of a connection attempt. */
    method OpenSocket(url: string)
      modifies this
      ensures Snapshot() == DanmakuSpec.OpenSocket(old(Snapshot()), url)
    {
      ws, timer := Some(Socket(nextHandle, url)), Some(Timer(nextHandle + 1, false));
      nextHandle, dialled := nextHandle + 2, dialled + [url];
    }

    method CleanupWebSocket()
      modifies this
      ensures Snapshot() == DanmakuSpec.CleanupWebSocket(old(Snapshot()))
    {
      ws := None;
      timer := None;
    }

    method HandleConnectionFailure(reason: string)
      modifies this
      ensures Snapshot() == DanmakuSpec.HandleConnectionFailure(old(Snapshot()), reason)
    {
      if reconnectToken.Some? {
        return;
      }
      reconnectAttempts := reconnectAttempts + 1;
      if reconnectAttempts > MaxReconnectAttempts {
        CancelReconnect();
        closeNotices := closeNotices + [if reason == "" then ReconnectFailed else reason];
        return;
      }
      closeNotices := closeNotices + [ReconnectingNotice(reconnectAttempts)];
      useBackupEndpoint := !useBackupEndpoint && backupUrl != "";
      ScheduleReconnect();
    }

    method ScheduleReconnect()
      modifies this
      ensures Snapshot() == DanmakuSpec.ScheduleReconnect(old(Snapshot()))
    {
      CancelReconnect();
      reconnectToken := Some(nextHandle);
      scheduledRetries := scheduledRetries + {nextHandle};
      nextHandle := nextHandle + 1;
    }

    /** The delayed task scheduled under `token` firing: unless its token was cancelled, it
        releases the token and connects to the endpoint chosen at the last failure. */
    method RetryFired(token: nat, fault: Option<string>)
      modifies this
      ensures Snapshot() == RetryFiredReleasing(old(Snapshot()), token, fault)
    {
      if token !in scheduledRetries {
        return;
      }
      scheduledRetries := scheduledRetries - {token};
      if token in cancelledTokens {
        return;
      }
      if reconnectToken == Some(token) {
        reconnectToken := None;
      }
      ConnectAsync(useBackupEndpoint, fault);
    }

    method CancelReconnect()
      modifies this
      ensures Snapshot() == DanmakuSpec.CancelReconnect(old(Snapshot()))
    {
      if reconnectToken.Some? {
        cancelledTokens := cancelledTokens + {reconnectToken.value};
        reconnectToken := None;
      }
    }

    /** Feeds one event to the matching handler. */
    method Handle(e: Event)
      modifies this
      ensures Snapshot() == StepFixed(old(Snapshot()), e)
    {
      match e
      case StartEv(a, q, f) =>
        var _ := Start(a, q, f);
      case OpenEv(s) => OnOpen(s);
      case MessageEv(s, fr) => OnMessage(s, fr);
      case CloseEv(s, r) => OnClose(s, r);
      case ErrorEv(s, m) => OnError(s, m);
      case TimerEv(t) => TimerElapsed(t);
      case HeartbeatEv => Heartbeat();
      case RetryEv(t, f) => RetryFired(t, f);
      case StopEv => Stop();
    }
  }
}
