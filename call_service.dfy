/**
 * The Android foreground service (`CallService`) that keeps one signaling
 * connection for incoming calls: start and stop commands, the connection
 * flag it keeps from the client's callbacks, manual reconnects, and the
 * domain it reports for an incoming offer.
 *
 * Notifications, the wake lock and the restart after the task is removed are
 * platform plumbing and are not modelled; starting the service in the
 * foreground and `stopSelf` are recorded as flags.
 */
module Services {
  import opened Options
  import opened RoomIds
  import opened Signaling

  const ActionStartService := "START_SERVICE"
  const ActionStopService := "STOP_SERVICE"
  /** Android's `Service.START_STICKY`. */
  const StartSticky: int := 1
  /** The worker host the service hands to every client it creates. */
  const BackendHost := "call-server.netdoc64.workers.dev"
  /** Domain reported when no room is stored. */
  const UnknownDomain := "unbekannt"

  /** The fields of an incoming signal the service reads (`optString` values;
      `None` for a missing key). */
  datatype Signal = Signal(
    msgType: Option<string>,
    sessionId: Option<string>,
    subtype: Option<string>,
    visitor: Option<VisitorData>)

  datatype VisitorData = VisitorData(sessionId: Option<string>, domain: Option<string>)

  /** One incoming-call notification plus `onCallReceived` callback. */
  datatype IncomingCall = IncomingCall(sessionId: string, domain: string)

  /** `currentRoomId?.split("__")?.firstOrNull() ?: "unbekannt"`: the split
      always has a first part, so the fallback is used only without a room. */
  function ReportedDomain(currentRoomId: Option<string>): (d: string)
    ensures currentRoomId.None? ==> d == UnknownDomain
    ensures currentRoomId.Some? ==> d == TargetDomain(currentRoomId.value)
    ensures d == UnknownDomain ==> currentRoomId.None? || currentRoomId.value[..|UnknownDomain|] == UnknownDomain
  {
    match currentRoomId
    case None => UnknownDomain
    case Some(roomId) =>
      var parts := Split(roomId);
      if |parts| > 0 then parts[0] else UnknownDomain
  }

  /** A room id built by the backend from a domain that round-trips reports
      that domain. */
  lemma ReportedDomainOfBuiltRoom(domain: string, unique: string)
    requires RoundTrips(domain)
    ensures ReportedDomain(Some(BuildRoomId(domain, unique))) == domain
  {
    BuildThenParse(domain, unique);
  }

  /** The call an incoming signal announces, if any. */
  function AnnouncedCall(s: Signal, currentRoomId: Option<string>): (c: Option<IncomingCall>)
    ensures s.msgType == Some("offer") ==>
      c == Some(IncomingCall(s.sessionId.GetOr("unknown"), ReportedDomain(currentRoomId)))
    ensures c.Some? && s.msgType != Some("offer") ==>
      && s.msgType == Some("system") && s.subtype == Some("visitor_joined")
      && s.visitor.Some? && c.value.sessionId != ""
      && c.value == IncomingCall(s.visitor.value.sessionId.GetOr(""), s.visitor.value.domain.GetOr(""))
    ensures s.msgType == Some("system") ==>
      (c.Some? <==> s.subtype == Some("visitor_joined") && s.visitor.Some?
                    && s.visitor.value.sessionId.GetOr("") != "")
    ensures s.msgType != Some("offer") && s.msgType != Some("system") ==> c.None?
  {
    match s.msgType
    case Some("offer") =>
      Some(IncomingCall(s.sessionId.GetOr("unknown"), ReportedDomain(currentRoomId)))
    case Some("system") =>
      if s.subtype == Some("visitor_joined") then
        var sessionId := if s.visitor.Some? then s.visitor.value.sessionId.GetOr("") else "";
        var domain := if s.visitor.Some? then s.visitor.value.domain.GetOr("") else "";
        if sessionId != "" then Some(IncomingCall(sessionId, domain)) else None
      else None
    case _ => None
  }

  class CallService {
    var signalingClient: SignalingClient?
    var isConnected: bool
    var currentRoomId: Option<string>
    var currentToken: Option<string>
    /** `startForeground` has been called and `stopForeground` has not. */
    var inForeground: bool
    /** `stopSelf` has been called. */
    var stopRequested: bool
    /** Values passed to `onConnectionStateChanged`, oldest first. */
    var stateChanges: seq<bool>
    var incomingCalls: seq<IncomingCall>

    /** The client, when there is one, is consistent and dials the worker host. */
    ghost predicate Valid()
      reads this, signalingClient
    {
      signalingClient != null ==> signalingClient.Valid() && signalingClient.backendHost == BackendHost
    }

    constructor()
      ensures Valid() && signalingClient == null && !isConnected
      ensures currentRoomId.None? && currentToken.None?
      ensures !inForeground && !stopRequested && stateChanges == [] && incomingCalls == []
    {
      signalingClient := null;
      isConnected := false;
      currentRoomId := None;
      currentToken := None;
      inForeground := false;
      stopRequested := false;
      stateChanges := [];
      incomingCalls := [];
    }

    /**
     * `onStartCommand` for an intent with the given action and extras.
     * START with both extras stores them and connects unless already
     * connected; START missing one stops the service and keeps the stored
     * credentials; STOP disconnects and stops. The result is always
     * `START_STICKY`.
     */
    method OnStartCommand(action: Option<string>, roomId: Option<string>, token: Option<string>)
      returns (r: int)
      requires Valid()
      modifies this, signalingClient
      ensures Valid() && r == StartSticky
      ensures action == Some(ActionStartService) && roomId.Some? && token.Some? ==>
        && currentRoomId == roomId && currentToken == token
        && isConnected == old(isConnected) && stopRequested == old(stopRequested)
      ensures action == Some(ActionStartService) && roomId.Some? && token.Some? && !old(isConnected) ==>
        && inForeground && signalingClient != null
        && (old(signalingClient) != null ==> signalingClient == old(signalingClient))
        && signalingClient.webSocket == Some(Connection(BackendHost, roomId.value, token.value, "talk"))
        && signalingClient.lastRoomId == roomId && signalingClient.lastToken == token
      ensures action == Some(ActionStartService) && roomId.Some? && token.Some? && old(isConnected) ==>
        && signalingClient == old(signalingClient) && inForeground == old(inForeground)
        && (signalingClient != null ==> unchanged(signalingClient))
      ensures action == Some(ActionStartService) && (roomId.None? || token.None?) ==>
        && stopRequested && signalingClient == old(signalingClient)
        && (signalingClient != null ==> unchanged(signalingClient))
        && currentRoomId == old(currentRoomId) && currentToken == old(currentToken)
        && isConnected == old(isConnected)
      ensures action == Some(ActionStopService) ==>
        && signalingClient == null && !isConnected && !inForeground && stopRequested
        && stateChanges == old(stateChanges) + [false]
        && currentRoomId == old(currentRoomId) && currentToken == old(currentToken)
      ensures action != Some(ActionStartService) && action != Some(ActionStopService) ==>
        && signalingClient == old(signalingClient) && isConnected == old(isConnected)
        && (signalingClient != null ==> unchanged(signalingClient))
        && currentRoomId == old(currentRoomId) && currentToken == old(currentToken)
        && inForeground == old(inForeground) && stopRequested == old(stopRequested)
      ensures action != Some(ActionStopService) ==> stateChanges == old(stateChanges)
      ensures incomingCalls == old(incomingCalls)
    {
      if action == Some(ActionStartService) {
        if roomId.Some? && token.Some? {
          currentRoomId := roomId;
          currentToken := token;
          if !isConnected {
            inForeground := true;
            ConnectWebSocket(roomId.value, token.value);
          } else if currentRoomId != roomId || currentToken != token {
            // The credentials were stored just above, so they never differ here.
            assert false;
          }
        } else {
          stopRequested := true;
        }
      } else if action == Some(ActionStopService) {
        StopForegroundService();
      }
      r := StartSticky;
    }

    /** `stopForegroundService`. */
    method StopForegroundService()
      requires Valid()
      modifies this, signalingClient
      ensures Valid() && signalingClient == null && !isConnected
      ensures !inForeground && stopRequested
      ensures stateChanges == old(stateChanges) + [false]
      ensures old(signalingClient) != null ==>
        old(signalingClient).userInitiatedDisconnect && old(signalingClient).retries == []
      ensures currentRoomId == old(currentRoomId) && currentToken == old(currentToken)
      ensures incomingCalls == old(incomingCalls)
    {
      DisconnectWebSocket();
      inForeground := false;
      stopRequested := true;
    }

    /** `connectWebSocket`: create the client on first use, then connect it. */
    method ConnectWebSocket(roomId: string, token: string)
      requires Valid()
      modifies this, signalingClient
      ensures Valid() && signalingClient != null
      ensures old(signalingClient) != null ==> signalingClient == old(signalingClient)
      ensures old(signalingClient) == null ==> fresh(signalingClient)
      ensures signalingClient.webSocket == Some(Connection(BackendHost, roomId, token, "talk"))
      ensures signalingClient.lastRoomId == Some(roomId) && signalingClient.lastToken == Some(token)
      ensures !signalingClient.userInitiatedDisconnect && signalingClient.reconnectAttempts == 0
      ensures isConnected == old(isConnected) && currentRoomId == old(currentRoomId)
      ensures currentToken == old(currentToken) && inForeground == old(inForeground)
      ensures stopRequested == old(stopRequested) && stateChanges == old(stateChanges)
      ensures incomingCalls == old(incomingCalls)
    {
      if signalingClient == null {
        signalingClient := new SignalingClient(BackendHost);
      }
      signalingClient.Connect(roomId, token);
    }

    /** `disconnectWebSocket`: disconnect and drop the client, clear the flag
        and report the change. The dropped client never reconnects. */
    method DisconnectWebSocket()
      requires Valid()
      modifies this, signalingClient
      ensures Valid() && signalingClient == null && !isConnected
      ensures stateChanges == old(stateChanges) + [false]
      ensures old(signalingClient) != null ==>
        && old(signalingClient).userInitiatedDisconnect && old(signalingClient).retries == []
        && old(signalingClient).webSocket.None? && old(signalingClient).pendingPings == 0
      ensures currentRoomId == old(currentRoomId) && currentToken == old(currentToken)
      ensures inForeground == old(inForeground) && stopRequested == old(stopRequested)
      ensures incomingCalls == old(incomingCalls)
    {
      if signalingClient != null {
        signalingClient.Disconnect();
      }
      signalingClient := null;
      isConnected := false;
      stateChanges := stateChanges + [false];
    }

    /** `onWebSocketOpen`. */
    method OnWebSocketOpen()
      modifies `isConnected, `stateChanges
      ensures isConnected && stateChanges == old(stateChanges) + [true]
    {
      isConnected := true;
      stateChanges := stateChanges + [true];
    }

    /** `onWebSocketClosed`. */
    method OnWebSocketClosed()
      modifies `isConnected, `stateChanges
      ensures !isConnected && stateChanges == old(stateChanges) + [false]
    {
      isConnected := false;
      stateChanges := stateChanges + [false];
    }

    /** `onNewSignalReceived`: an offer or a visitor announcement becomes an
        incoming-call notification and callback. */
    method OnNewSignalReceived(s: Signal)
      modifies `incomingCalls
      ensures incomingCalls == old(incomingCalls) +
        (if AnnouncedCall(s, currentRoomId).Some? then [AnnouncedCall(s, currentRoomId).value] else [])
    {
      var call := AnnouncedCall(s, currentRoomId);
      if call.Some? {
        incomingCalls := incomingCalls + [call.value];
      }
    }

    /** `reconnect`: with both credentials stored, replace the client by a
        fresh one connected with them; otherwise do nothing. */
    method Reconnect()
      requires Valid()
      modifies this, signalingClient
      ensures Valid()
      ensures currentRoomId.Some? && currentToken.Some? ==>
        && signalingClient != null && fresh(signalingClient)
        && signalingClient.webSocket == Some(Connection(BackendHost, currentRoomId.value, currentToken.value, "talk"))
        && !isConnected && stateChanges == old(stateChanges) + [false]
        && (old(signalingClient) != null ==> old(signalingClient).userInitiatedDisconnect)
      ensures currentRoomId.None? || currentToken.None? ==>
        && signalingClient == old(signalingClient) && isConnected == old(isConnected)
        && (signalingClient != null ==> unchanged(signalingClient))
        && stateChanges == old(stateChanges)
      ensures currentRoomId == old(currentRoomId) && currentToken == old(currentToken)
      ensures inForeground == old(inForeground) && stopRequested == old(stopRequested)
      ensures incomingCalls == old(incomingCalls)
    {
      if currentRoomId.Some? && currentToken.Some? {
        DisconnectWebSocket();
        ConnectWebSocket(currentRoomId.value, currentToken.value);
      }
    }
  }
}
