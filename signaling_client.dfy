/**
 * The Android signaling client (`SignalingClient`): it dials the worker's
 * `/call/<roomId>` WebSocket, identifies itself when the socket opens, keeps
 * a heartbeat, and reconnects with jittered exponential backoff unless the
 * user disconnected.
 *
 * The OkHttp socket, the Android `Handler` queues and the listener are
 * modelled by fields that record what the client asks of them: the socket it
 * dialled, the reconnect and ping tasks it has posted and not yet cancelled,
 * the packets it handed to the socket and the listener calls it made.
 */
module Signaling {
  import opened Options
  import opened Backoff

  const MaxReconnectAttempts: int := 8
  /** Delay of the task posted once the attempt limit is reached. */
  const LongDelayMs: nat := 120000

  /** The socket `client.newWebSocket` opened for one `connectWithMode` call. */
  datatype Connection = Connection(host: string, roomId: string, token: string, mode: string)

  /** Packets handed to `webSocket.send`. */
  datatype Packet = Identify(role: string) | Ping(timestamp: int)

  /** Calls on the `SignalingListener`. */
  datatype Notice =
    | Opened
    | Closed
    | Failed
    | Reconnecting(attempt: int, delayMs: int)
    | ReconnectFailed

  /** A reconnect runnable posted on the reconnect handler. */
  datatype RetryTask = RetryTask(delayMs: nat)

  /**
   * Whitespace as Kotlin's `isBlank` sees it on the JVM (`Char.isWhitespace`):
   * Java's `Character.isWhitespace` (tab to carriage return, the separators
   * U+001C to U+001F, and the space, line and paragraph separators other than
   * the no-break ones) together with `Character.isSpaceChar` (every space,
   * line or paragraph separator, the no-break ones included).
   */
  predicate IsWhitespace(c: char) {
    || '\t' <= c <= '\r'
    || '\U{1C}' <= c <= '\U{1F}'
    || c == ' ' || c == '\U{A0}' || c == '\U{1680}'
    || '\U{2000}' <= c <= '\U{200A}'
    || c == '\U{2028}' || c == '\U{2029}' || c == '\U{202F}' || c == '\U{205F}' || c == '\U{3000}'
  }

  /** `isNullOrBlank()`. */
  predicate IsNullOrBlank(s: Option<string>) {
    s.None? || forall i | 0 <= i < |s.value| :: IsWhitespace(s.value[i])
  }

  predicate StartsWith(s: string, prefix: string) {
    |prefix| <= |s| && s[..|prefix|] == prefix
  }

  /**
   * The host part of the URL: when `backendHost` starts with "http", a
   * leading "http://" or "https://" is removed (`replaceFirst` with the
   * anchored pattern `^https?://`); any other host is used as it is.
   */
  function StripScheme(backendHost: string): (h: string)
    ensures StartsWith(backendHost, "https://") ==> h == backendHost[8..]
    ensures StartsWith(backendHost, "http://") ==> h == backendHost[7..]
    ensures !StartsWith(backendHost, "https://") && !StartsWith(backendHost, "http://") ==>
      h == backendHost
  {
    if StartsWith(backendHost, "http") then
      if StartsWith(backendHost, "https://") then
        assert backendHost[..8][4] == 's';
        backendHost[8..]
      else if StartsWith(backendHost, "http://") then backendHost[7..]
      else backendHost
    else backendHost
  }

  /** `"wss://$scheme/call/$roomId?token=$token&mode=$mode"`, no escaping:
      the room's path on the scheme-less host, then the query with the token
      and the mode. */
  function Url(c: Connection): (url: string)
    ensures StartsWith(url, "wss://" + StripScheme(c.host) + "/call/" + c.roomId + "?")
    ensures url[|"wss://" + StripScheme(c.host) + "/call/" + c.roomId + "?"|..]
      == "token=" + c.token + "&mode=" + c.mode
  {
    var prefix := "wss://" + StripScheme(c.host) + "/call/" + c.roomId + "?";
    var url := prefix + "token=" + c.token + "&mode=" + c.mode;
    assert url[..|prefix|] == prefix;
    url
  }

  /** The identify packet role: "agent" for talk mode, "monitor" otherwise. */
  function IdentifyRole(mode: string): (role: string)
    ensures role == "agent" <==> mode == "talk"
    ensures role == "monitor" <==> mode != "talk"
  {
    if mode == "talk" then "agent" else "monitor"
  }

  /** The delay a normal reconnect posts for the already incremented attempt count. */
  function RetryDelay(attempts: int, rnd: nat): (d: nat)
    ensures attempts >= 1 ==>
      BackoffMs(attempts) - JitterRange(BackoffMs(attempts)) <= d
      <= BackoffMs(attempts) + JitterRange(BackoffMs(attempts))
  {
    JitteredDelay(BackoffMs(attempts), rnd)
  }

  class SignalingClient {
    const backendHost: string
    var webSocket: Option<Connection>
    var reconnectAttempts: int
    var reconnecting: bool
    var lastRoomId: Option<string>
    var lastToken: Option<string>
    var userInitiatedDisconnect: bool
    /** Ping runnables posted on the ping handler and not yet run or removed. */
    var pendingPings: nat
    /** Reconnect runnables posted on the reconnect handler and not yet run or removed. */
    var retries: seq<RetryTask>
    /** The URL of every socket dialled, oldest first. */
    var dialled: seq<string>
    var sent: seq<Packet>
    var notices: seq<Notice>

    /** What every method keeps: a bounded counter, at most one heartbeat,
        room and token stored and cleared together. */
    ghost predicate Valid()
      reads this
    {
      && 0 <= reconnectAttempts <= MaxReconnectAttempts
      && pendingPings <= 1
      && (lastRoomId.None? <==> lastToken.None?)
    }

    /**
     * The states the client reaches from its constructor: because every
     * retry goes through `connect`, which resets the counter, the counter
     * never exceeds one, it is one only while a retry is pending or after
     * the user disconnected, and it is zero before the first `connect`.
     */
    ghost predicate Reachable()
      reads this
    {
      && Valid()
      && reconnectAttempts <= 1
      && (reconnectAttempts == 1 ==> reconnecting || userInitiatedDisconnect)
      && (!userInitiatedDisconnect && lastRoomId.None? ==> reconnectAttempts == 0)
    }

    constructor(backendHost: string)
      ensures Reachable()
      ensures this.backendHost == backendHost && webSocket.None?
      ensures lastRoomId.None? && lastToken.None? && !userInitiatedDisconnect
      ensures pendingPings == 0 && retries == [] && dialled == [] && sent == [] && notices == []
    {
      this.backendHost := backendHost;
      webSocket := None;
      reconnectAttempts := 0;
      reconnecting := false;
      lastRoomId := None;
      lastToken := None;
      userInitiatedDisconnect := false;
      pendingPings := 0;
      retries := [];
      dialled := [];
      sent := [];
      notices := [];
    }

    /** `connect`: talk mode. */
    method Connect(roomId: string, token: string)
      requires Valid()
      modifies this
      ensures Valid() && (old(Reachable()) ==> Reachable())
      ensures webSocket == Some(Connection(backendHost, roomId, token, "talk"))
      ensures dialled == old(dialled) + [Url(webSocket.value)]
      ensures lastRoomId == Some(roomId) && lastToken == Some(token)
      ensures !userInitiatedDisconnect && reconnectAttempts == 0 && !reconnecting
      ensures pendingPings == old(pendingPings) && retries == old(retries)
      ensures sent == old(sent) && notices == old(notices)
    {
      ConnectWithMode(roomId, token, "talk");
    }

    /** `connectWithMode`: store the parameters for later retries, reset the
        backoff and dial a new socket. */
    method ConnectWithMode(roomId: string, token: string, mode: string)
      requires Valid()
      modifies this
      ensures Valid() && (old(Reachable()) ==> Reachable())
      ensures webSocket == Some(Connection(backendHost, roomId, token, mode))
      ensures dialled == old(dialled) + [Url(webSocket.value)]
      ensures lastRoomId == Some(roomId) && lastToken == Some(token)
      ensures !userInitiatedDisconnect && reconnectAttempts == 0 && !reconnecting
      ensures pendingPings == old(pendingPings) && retries == old(retries)
      ensures sent == old(sent) && notices == old(notices)
    {
      lastRoomId := Some(roomId);
      lastToken := Some(token);
      userInitiatedDisconnect := false;
      reconnectAttempts := 0;
      reconnecting := false;
      var conn := Connection(backendHost, roomId, token, mode);
      webSocket := Some(conn);
      dialled := dialled + [Url(conn)];
    }

    /** `send`: the packet reaches the socket only when there is one. */
    method Send(p: Packet)
      modifies `sent
      ensures sent == old(sent) + (if webSocket.Some? then [p] else [])
    {
      if webSocket.Some? {
        sent := sent + [p];
      }
    }

    /** `onOpen` of the socket dialled for `conn`: notify, identify with the
        role of that connection's mode, reset the backoff, (re)arm the heartbeat. */
    method OnOpen(conn: Connection)
      requires Valid()
      modifies this
      ensures Valid() && (old(Reachable()) ==> Reachable())
      ensures notices == old(notices) + [Opened]
      ensures sent == old(sent) + (if webSocket.Some? then [Identify(IdentifyRole(conn.mode))] else [])
      ensures reconnectAttempts == 0 && !reconnecting && pendingPings == 1
      ensures webSocket == old(webSocket) && lastRoomId == old(lastRoomId) && lastToken == old(lastToken)
      ensures userInitiatedDisconnect == old(userInitiatedDisconnect)
      ensures retries == old(retries) && dialled == old(dialled)
    {
      notices := notices + [Opened];
      Send(Identify(IdentifyRole(conn.mode)));
      reconnectAttempts := 0;
      reconnecting := false;
      StartHeartbeat();
    }

    /** `startHeartbeat`: remove any posted ping, then post one. */
    method StartHeartbeat()
      modifies `pendingPings
      ensures pendingPings == 1
    {
      StopHeartbeat();
      pendingPings := pendingPings + 1;
    }

    /** `stopHeartbeat`: `removeCallbacks(pingRunnable)`. */
    method StopHeartbeat()
      modifies `pendingPings
      ensures pendingPings == 0
    {
      pendingPings := 0;
    }

    /** A posted `pingRunnable` runs at time `now`: ping through the socket if
        there is one, then post itself again, so one ping stays pending. */
    method FirePing(now: int)
      requires Valid() && pendingPings > 0
      modifies this
      ensures Valid() && (old(Reachable()) ==> Reachable())
      ensures sent == old(sent) + (if webSocket.Some? then [Ping(now)] else [])
      ensures pendingPings == old(pendingPings)
      ensures webSocket == old(webSocket) && reconnectAttempts == old(reconnectAttempts)
      ensures reconnecting == old(reconnecting) && retries == old(retries) && notices == old(notices)
      ensures lastRoomId == old(lastRoomId) && lastToken == old(lastToken)
      ensures userInitiatedDisconnect == old(userInitiatedDisconnect) && dialled == old(dialled)
    {
      pendingPings := pendingPings - 1;
      if webSocket.Some? {
        Send(Ping(now));
      }
      pendingPings := pendingPings + 1;
    }

    /** `onClosing`: notify, and try to reconnect unless the user disconnected.
        The heartbeat is left running. */
    method OnClosing(rnd: nat)
      requires Valid()
      modifies this
      ensures Valid() && (old(Reachable()) ==> Reachable())
      // after a user disconnect, or while a retry is pending, only the notice
      ensures old(userInitiatedDisconnect) || old(reconnecting) ==>
        && notices == old(notices) + [Closed] && retries == old(retries)
        && reconnectAttempts == old(reconnectAttempts) && reconnecting == old(reconnecting)
      // otherwise the outcome of `scheduleReconnectIfNeeded`
      ensures (&& !old(userInitiatedDisconnect) && !old(reconnecting)
               && (IsNullOrBlank(lastRoomId) || IsNullOrBlank(lastToken))) ==>
        && notices == old(notices) + [Closed, ReconnectFailed] && retries == old(retries)
        && reconnectAttempts == old(reconnectAttempts) && !reconnecting
      ensures (&& !old(userInitiatedDisconnect) && !old(reconnecting)
               && !IsNullOrBlank(lastRoomId) && !IsNullOrBlank(lastToken)
               && old(reconnectAttempts) >= MaxReconnectAttempts) ==>
        && reconnectAttempts == MaxReconnectAttempts - 2 && !reconnecting
        && notices == old(notices) + [Closed, Reconnecting(MaxReconnectAttempts - 2, LongDelayMs)]
        && retries == old(retries) + [RetryTask(LongDelayMs)]
      ensures (&& !old(userInitiatedDisconnect) && !old(reconnecting)
               && !IsNullOrBlank(lastRoomId) && !IsNullOrBlank(lastToken)
               && old(reconnectAttempts) < MaxReconnectAttempts) ==>
        && reconnectAttempts == old(reconnectAttempts) + 1 && reconnecting
        && notices == old(notices) + [Closed, Reconnecting(reconnectAttempts, RetryDelay(reconnectAttempts, rnd))]
        && retries == old(retries) + [RetryTask(RetryDelay(reconnectAttempts, rnd))]
      ensures lastRoomId == old(lastRoomId) && lastToken == old(lastToken)
      ensures userInitiatedDisconnect == old(userInitiatedDisconnect)
      ensures pendingPings == old(pendingPings) && webSocket == old(webSocket)
      ensures sent == old(sent) && dialled == old(dialled)
    {
      notices := notices + [Closed];
      if !userInitiatedDisconnect {
        ScheduleReconnectIfNeeded(rnd);
      }
    }

    /** `onFailure`: as `onClosing`, with an error notice. */
    method OnFailure(rnd: nat)
      requires Valid()
      modifies this
      ensures Valid() && (old(Reachable()) ==> Reachable())
      // after a user disconnect, or while a retry is pending, only the notice
      ensures old(userInitiatedDisconnect) || old(reconnecting) ==>
        && notices == old(notices) + [Failed] && retries == old(retries)
        && reconnectAttempts == old(reconnectAttempts) && reconnecting == old(reconnecting)
      // otherwise the outcome of `scheduleReconnectIfNeeded`
      ensures (&& !old(userInitiatedDisconnect) && !old(reconnecting)
               && (IsNullOrBlank(lastRoomId) || IsNullOrBlank(lastToken))) ==>
        && notices == old(notices) + [Failed, ReconnectFailed] && retries == old(retries)
        && reconnectAttempts == old(reconnectAttempts) && !reconnecting
      ensures (&& !old(userInitiatedDisconnect) && !old(reconnecting)
               && !IsNullOrBlank(lastRoomId) && !IsNullOrBlank(lastToken)
               && old(reconnectAttempts) >= MaxReconnectAttempts) ==>
        && reconnectAttempts == MaxReconnectAttempts - 2 && !reconnecting
        && notices == old(notices) + [Failed, Reconnecting(MaxReconnectAttempts - 2, LongDelayMs)]
        && retries == old(retries) + [RetryTask(LongDelayMs)]
      ensures (&& !old(userInitiatedDisconnect) && !old(reconnecting)
               && !IsNullOrBlank(lastRoomId) && !IsNullOrBlank(lastToken)
               && old(reconnectAttempts) < MaxReconnectAttempts) ==>
        && reconnectAttempts == old(reconnectAttempts) + 1 && reconnecting
        && notices == old(notices) + [Failed, Reconnecting(reconnectAttempts, RetryDelay(reconnectAttempts, rnd))]
        && retries == old(retries) + [RetryTask(RetryDelay(reconnectAttempts, rnd))]
      ensures lastRoomId == old(lastRoomId) && lastToken == old(lastToken)
      ensures userInitiatedDisconnect == old(userInitiatedDisconnect)
      ensures pendingPings == old(pendingPings) && webSocket == old(webSocket)
      ensures sent == old(sent) && dialled == old(dialled)
    {
      notices := notices + [Failed];
      if !userInitiatedDisconnect {
        ScheduleReconnectIfNeeded(rnd);
      }
    }

    /**
     * `scheduleReconnectIfNeeded`, with `rnd` the random draw for the jitter.
     * While a retry is pending nothing happens; without room or token the
     * listener hears `onReconnectFailed`; at the attempt limit the counter
     * falls back to 6 and a two-minute task is posted; otherwise the counter
     * grows by one and a task with the jittered backoff is posted.
     */
    method ScheduleReconnectIfNeeded(rnd: nat)
      requires Valid()
      modifies this
      ensures Valid() && (old(Reachable()) && !userInitiatedDisconnect ==> Reachable())
      ensures old(reconnecting) ==>
        && notices == old(notices) && retries == old(retries)
        && reconnectAttempts == old(reconnectAttempts) && reconnecting
      ensures !old(reconnecting) && (IsNullOrBlank(lastRoomId) || IsNullOrBlank(lastToken)) ==>
        && notices == old(notices) + [ReconnectFailed] && retries == old(retries)
        && reconnectAttempts == old(reconnectAttempts) && !reconnecting
      ensures (&& !old(reconnecting) && !IsNullOrBlank(lastRoomId) && !IsNullOrBlank(lastToken)
               && old(reconnectAttempts) >= MaxReconnectAttempts) ==>
        && reconnectAttempts == MaxReconnectAttempts - 2 && !reconnecting
        && notices == old(notices) + [Reconnecting(MaxReconnectAttempts - 2, LongDelayMs)]
        && retries == old(retries) + [RetryTask(LongDelayMs)]
      ensures (&& !old(reconnecting) && !IsNullOrBlank(lastRoomId) && !IsNullOrBlank(lastToken)
               && old(reconnectAttempts) < MaxReconnectAttempts) ==>
        && reconnectAttempts == old(reconnectAttempts) + 1 && reconnecting
        && notices == old(notices) + [Reconnecting(reconnectAttempts, RetryDelay(reconnectAttempts, rnd))]
        && retries == old(retries) + [RetryTask(RetryDelay(reconnectAttempts, rnd))]
      ensures webSocket == old(webSocket) && lastRoomId == old(lastRoomId) && lastToken == old(lastToken)
      ensures userInitiatedDisconnect == old(userInitiatedDisconnect) && pendingPings == old(pendingPings)
      ensures sent == old(sent) && dialled == old(dialled)
    {
      if reconnecting {
        return;
      }
      var roomNow := lastRoomId;
      var tokenNow := lastToken;
      if IsNullOrBlank(roomNow) || IsNullOrBlank(tokenNow) {
        notices := notices + [ReconnectFailed];
        return;
      }
      if reconnectAttempts >= MaxReconnectAttempts {
        reconnectAttempts := MaxReconnectAttempts - 2;
        notices := notices + [Reconnecting(reconnectAttempts, LongDelayMs)];
        retries := retries + [RetryTask(LongDelayMs)];
        return;
      }
      reconnecting := true;
      reconnectAttempts := reconnectAttempts + 1;
      var delayMs := RetryDelay(reconnectAttempts, rnd);
      notices := notices + [Reconnecting(reconnectAttempts, delayMs)];
      retries := retries + [RetryTask(delayMs)];
    }

    /**
     * The posted reconnect task at index `k` runs: it reconnects in talk mode
     * with the stored parameters unless the user disconnected or they are
     * gone, and then clears `reconnecting` either way.
     */
    method FireRetry(k: nat)
      requires Valid() && k < |retries|
      modifies this
      ensures Valid() && (old(Reachable()) ==> Reachable())
      ensures retries == old(retries[..k] + retries[k + 1..])
      ensures !reconnecting
      ensures !old(userInitiatedDisconnect) && old(lastRoomId).Some? && old(lastToken).Some? ==>
        && webSocket == Some(Connection(backendHost, old(lastRoomId).value, old(lastToken).value, "talk"))
        && dialled == old(dialled) + [Url(webSocket.value)]
        && reconnectAttempts == 0
      ensures old(userInitiatedDisconnect) || old(lastRoomId).None? || old(lastToken).None? ==>
        && webSocket == old(webSocket) && dialled == old(dialled)
        && reconnectAttempts == old(reconnectAttempts)
      ensures lastRoomId == old(lastRoomId) && lastToken == old(lastToken)
      ensures userInitiatedDisconnect == old(userInitiatedDisconnect)
      ensures pendingPings == old(pendingPings) && sent == old(sent) && notices == old(notices)
    {
      retries := retries[..k] + retries[k + 1..];
      var room := lastRoomId;
      var token := lastToken;
      if !userInitiatedDisconnect && room.Some? && token.Some? {
        Connect(room.value, token.value);
      }
      reconnecting := false;
    }

    /** `disconnect`: mark the close as the user's, cancel every posted ping
        and reconnect task, drop the socket and forget room and token. */
    method Disconnect()
      requires Valid()
      modifies this
      ensures Valid() && (old(Reachable()) ==> Reachable())
      ensures userInitiatedDisconnect && pendingPings == 0 && retries == []
      ensures webSocket.None? && lastRoomId.None? && lastToken.None?
      ensures reconnectAttempts == old(reconnectAttempts) && reconnecting == old(reconnecting)
      ensures sent == old(sent) && notices == old(notices) && dialled == old(dialled)
    {
      userInitiatedDisconnect := true;
      StopHeartbeat();
      retries := [];
      webSocket := None;
      lastRoomId := None;
      lastToken := None;
    }

    /** In every reachable state a reconnect is scheduled (not by the user,
        none pending) from a zero counter: the attempt limit and its
        two-minute branch are out of reach, and the retry waits the first
        backoff step, 800 to 1200 ms. */
    lemma ReachableRetriesWaitFirstStep(rnd: nat)
      requires Reachable() && !reconnecting && !userInitiatedDisconnect
      ensures reconnectAttempts == 0 < MaxReconnectAttempts
      ensures 800 <= RetryDelay(reconnectAttempts + 1, rnd) <= 1200
    {
      assert BackoffMs(1) == 1000;
    }
  }
}
