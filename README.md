# 2bro4proCall signaling core in Dafny

This project models the signaling core of 2bro4proCall. The backend is a
Cloudflare worker. It routes `/call/<roomId>` WebSocket upgrades to one
`CallRoom` durable object per room. The room:

- admits a connection after checking the token, the room-id format, the
  caller's domain access and the call's claim;
- relays every message to the other open sessions;
- on a departure, notifies the rest and logs the end of the call when the last
  agent leaves.

The Android agent app connects through `SignalingClient`. The client
identifies itself when the socket opens, keeps a heartbeat, and reconnects
with jittered exponential backoff. Three other pieces sit around it:

- `CallService` keeps the connection alive as a foreground service;
- `NetworkChangeReceiver` restarts the service when the network returns,
  at most once every ten seconds;
- `AppActivity` keeps the list of live visitors and the call in progress.

Modules, one per file:

- `Options` (`options.dfy`): the option type.
- `RoomIds` (`room_ids.dfy`): `split('__')` on room ids, the target domain,
  and how `handleInitiateCall` builds room ids.
- `Paths` (`paths.dfy`): path segments after `split("/").filter(p => p)`.
- `Router` (`router.dfy`): the worker's `fetch` router.
- `Passwords` (`passwords.dfy`): the simulated password hash.
- `Admission` (`admission.dfy`): the admission chain of `CallRoom.fetch`, as a
  pure verdict.
- `Rooms` (`call_room.dfy`): class `CallRoom` with its session list, and class
  `Session`.
- `Backoff` (`backoff.dfy`): `calculateBackoffMs` and the jitter.
- `Signaling` (`signaling_client.dfy`): class `SignalingClient`.
- `Services` (`call_service.dfy`): class `CallService`.
- `NetworkReceivers` (`network_receiver.dfy`): class `NetworkChangeReceiver`.
- `Activities` (`app_activity.dfy`): class `AppActivity`.

The model records what the code asks of the outside world, such as sockets,
timers, the listener and the database, as fields or parameters:

- `CallRoom.wire` holds the frames handed to `socket.send`.
- `SignalingClient.retries` holds the reconnect tasks posted and not yet
  cancelled.
- `SignalingClient.notices` holds the listener calls.
- `CallRoom.chatLog` and `CallRoom.callEnds` are the database writes.

Behaviours a reader may not expect, which the model follows as the code has
them:

- Room ids with an empty half (`"a__"`, `"__b"`) pass the format check.
- Admission never writes a claim.
- `hangup` and `ping` messages are relayed like any other message.
- The call end is logged when the departing role is `agent` and no `agent`
  remains. Other roles do not count.
- `onClosing` and `onFailure` leave the heartbeat running.

## Model

| member | source | states |
|---|---|---|
| RoomIds.Split | backend/index.js:451-452 | `split('__')` always has a first part. It has two or more parts exactly when the id contains `"__"`, and no part contains `"__"`. |
| RoomIds.FirstSep | backend/index.js:451 | The first `"__"` found is the leftmost one, and none is found exactly when the id has no `"__"`. |
| RoomIds.TargetDomain | backend/index.js:455 | The target domain is the text before the leftmost `"__"`, or the whole id when there is none. |
| RoomIds.BuildThenParse | backend/index.js:142 | For a domain with no `"__"` that does not end in `_`, parsing the built id `domain__uuid` gives back that domain. |
| RoomIds.TrailingUnderscoreBreaksRoundTrip | backend/index.js:142 | A domain ending in `_` does not round-trip: `"a_"` built with `"x"` parses as domain `"a"`. |
| RoomIds.EmptyHalvesPassFormatCheck | backend/index.js:451-455 | `"a__"` and `"__b"` both split into two parts, so the format check accepts them, with domains `"a"` and `""`. |
| Paths.Segments | backend/index.js:437 | The non-empty path segments contain no `/`. |
| Paths.SegmentsOfJoinPath | backend/index.js:361 | Splitting `"/" + x1 + "/" + x2 ...` on `/` and dropping empty parts gives back the segments `x1, x2, ...`. |
| Router.RouteOf | backend/index.js:351-390 | OPTIONS is answered first. Each API path (`/api/login`, `/api/register`, `/api/domain/announce`, `/api/public/initiate_call`, `/api/admin/data`, `/api/admin/assign`, `/api/admin/approve/<id>`, `/api/admin/domain/add`) reaches exactly its own handler, with the approve handler given the fourth segment. Every other `/api` path gets 404. `/call/<room>` with a room segment is forwarded to that room. Anything else gets the running banner. |
| Router.CallPathReachesRoom | backend/index.js:379-384 | A path `/call/<roomId>` with a slash-free, non-empty `roomId` is forwarded to the room named `roomId`. |
| Passwords.HashPassword | backend/index.js:42-44 | The stored hash is `"HASH_"` followed by the password. |
| Passwords.CheckAcceptsOnlyTheHashedPassword | backend/index.js:46-48 | A password is accepted against `hashPassword(p)` exactly when it equals `p`. |
| Admission.StatusOf | backend/index.js:430-491 | Status 101 is returned exactly for admission, 426 exactly for a non-upgrade request, 400 exactly for a malformed room id, 401 exactly for a missing or invalid token, and 403 exactly for denied domain access or a call claimed by another agent. |
| Admission.ModeOf | backend/index.js:441 | The mode is the query value when it is non-empty, and `talk` otherwise. |
| Admission.Admit | backend/index.js:430-491 | A connection is admitted exactly when every check passes, in this order: upgrade (426), token present (401), token valid (401), room segment present (401), `__` present (400), superadmin or domain listed (403), lookup succeeds (401), and no claim by another agent unless monitoring (403). Each rejection happens exactly when every earlier check passed and its own check failed. |
| Admission.MonitorNeverClaimRejected | backend/index.js:470-480 | A monitoring connection is never refused as already claimed. |
| Admission.OwnerReadmitted | backend/index.js:470-480 | The agent recorded on the call is admitted again once the earlier checks pass. |
| Admission.RivalAgentRejected | backend/index.js:470-480 | Another agent in talk mode is refused with 403 on a claimed call. |
| Admission.NoSeparatorRejected | backend/index.js:451-454 | A room id without `"__"` is never admitted. With an upgrade and a token, it gets 400. |
| Rooms.Deliveries | backend/index.js:532-542 | Every frame a send loop emits is the given frame. With a skipped id, that id receives nothing. |
| Rooms.DeliversOnce | backend/index.js:532-542 | With distinct ids, a send loop gives exactly one frame to each session it sends to and none to the others. |
| Rooms.RelayReachesEachPeerOnce | backend/index.js:532-542 | `broadcast` relays exactly once to every other open session whose send succeeds. It relays nothing to the sender and nothing to closed or failing sessions. |
| Rooms.NotifyReachesEachOnce | backend/index.js:560-569 | `cleanup` sends the `peer_left` frame exactly once to every remaining session whose send does not throw. |
| Rooms.KeptMembers | backend/index.js:533-541 | After `broadcast`, the list holds exactly the sessions that are open and whose send did not throw. The sender is kept while it is open. |
| Rooms.KeptDistinct | backend/index.js:533-541 | Pruning keeps session ids distinct. |
| Rooms.WithoutIdMembers | backend/index.js:550 | The filter removes exactly the sessions with the departing id and keeps ids distinct. |
| Rooms.Session.constructor | backend/index.js:496-505 | A new session is alive, with the given room, user, role and mode. |
| Rooms.CallRoom.constructor | backend/index.js:397-401 | A new room has no sessions, frames or log entries. |
| Rooms.CallRoom.Fetch | backend/index.js:430-491 | The status returned is that of the admission verdict. On 101, exactly one fresh alive session is appended, with the room, user, role and mode of the verdict. Otherwise nothing changes. |
| Rooms.CallRoom.HandleSession | backend/index.js:493-509 | Appends one fresh alive session at the end of the list and keeps the ids distinct. |
| Rooms.CallRoom.OnMessage | backend/index.js:512-523 | A chat entry is logged exactly when the mode is not monitor, the type is `chat` and the text is truthy. An unparseable message is neither logged nor relayed. A `null` message is relayed from a monitoring session, because the mode test ends the condition before `.type` is read, and is dropped from any other session, where reading `.type` of `null` throws. A failed log skips the relay. Otherwise the raw message is broadcast. |
| Rooms.CallRoom.Broadcast | backend/index.js:532-542 | The list becomes the survivors in their original order. The wire gains the relayed frames. The room invariant is kept. |
| Rooms.CallRoom.RelayToAll | backend/index.js:533-541 | The filter loop computes the survivors and sends to the relayed sessions in list order. |
| Rooms.CallRoom.Cleanup | backend/index.js:545-570 | A second call for the same session changes nothing. The first removes exactly that id. It logs the call end exactly when an agent leaves and no agent remains. It sends one `peer_left` to every remaining session. |
| Rooms.CallRoom.Retire | backend/index.js:546-550 | The session is marked dead and exactly its id is filtered out of the list. Listed sessions stay alive and distinct. |
| Rooms.CallRoom.SendToAll | backend/index.js:567-569 | Every session is tried in order, and the sends that do not throw reach the wire. |
| Backoff.BackoffMs | app/src/main/java/com/x2bro4pro/bro4call/SignalingClient.kt:243-248 | For attempts of 1 or more, the delay lies between 1000 and 60000 ms. |
| Backoff.BackoffDoubles | app/src/main/java/com/x2bro4pro/bro4call/SignalingClient.kt:243-248 | Each further attempt doubles the delay, up to the 60000 ms cap. |
| Backoff.BackoffBeforeCap | app/src/main/java/com/x2bro4pro/bro4call/SignalingClient.kt:243-248 | Attempts 1 to 6 wait 1000·2^(a-1) ms, from 1 s to 32 s. |
| Backoff.BackoffCapped | app/src/main/java/com/x2bro4pro/bro4call/SignalingClient.kt:243-248 | From attempt 7 on, the delay is 60000 ms. |
| Backoff.BackoffMonotone | app/src/main/java/com/x2bro4pro/bro4call/SignalingClient.kt:243-248 | More attempts never mean a shorter delay. |
| Backoff.Jitter | app/src/main/java/com/x2bro4pro/bro4call/SignalingClient.kt:220-221 | The random jitter lies in `[-d/5, d/5]`. |
| Backoff.JitterCoversRange | app/src/main/java/com/x2bro4pro/bro4call/SignalingClient.kt:221 | Every value of that range is drawn for some random input. |
| Backoff.JitteredDelay | app/src/main/java/com/x2bro4pro/bro4call/SignalingClient.kt:219-222 | The posted delay lies between `d - d/5` and `d + d/5`. |
| Signaling.StripScheme | app/src/main/java/com/x2bro4pro/bro4call/SignalingClient.kt:77-80 | A leading `https://` or `http://` is removed. Any other host is kept as it is. |
| Signaling.Url | app/src/main/java/com/x2bro4pro/bro4call/SignalingClient.kt:81 | The URL is `wss://<host>/call/<roomId>?` with the scheme stripped from the host, and the rest is exactly `token=<token>&mode=<mode>`. |
| Signaling.IdentifyRole | app/src/main/java/com/x2bro4pro/bro4call/SignalingClient.kt:87-91 | The identify role is `agent` exactly in talk mode and `monitor` otherwise. |
| Signaling.RetryDelay | app/src/main/java/com/x2bro4pro/bro4call/SignalingClient.kt:218-222 | A normal retry waits the backoff of the incremented count, within ±20 %. |
| Signaling.SignalingClient.constructor | app/src/main/java/com/x2bro4pro/bro4call/SignalingClient.kt:19-63 | The client starts with no socket, no stored parameters, no pending tasks and a zero counter. |
| Signaling.SignalingClient.Connect | app/src/main/java/com/x2bro4pro/bro4call/SignalingClient.kt:65-67 | Connects in talk mode. |
| Signaling.SignalingClient.ConnectWithMode | app/src/main/java/com/x2bro4pro/bro4call/SignalingClient.kt:69-83 | Stores the room and token, clears the disconnect flag, resets the counter and `reconnecting`, and dials exactly one socket, at the `Url` of these parameters. |
| Signaling.SignalingClient.Send | app/src/main/java/com/x2bro4pro/bro4call/SignalingClient.kt:126-132 | A packet reaches the socket only when there is one. |
| Signaling.SignalingClient.OnOpen | app/src/main/java/com/x2bro4pro/bro4call/SignalingClient.kt:84-98 | Notifies the listener and sends exactly one identify with the role of the connection's mode. It resets the backoff and leaves exactly one ping pending. |
| Signaling.SignalingClient.StartHeartbeat | app/src/main/java/com/x2bro4pro/bro4call/SignalingClient.kt:153-156 | Afterwards exactly one ping task is pending. |
| Signaling.SignalingClient.StopHeartbeat | app/src/main/java/com/x2bro4pro/bro4call/SignalingClient.kt:158-160 | Afterwards no ping task is pending. |
| Signaling.SignalingClient.FirePing | app/src/main/java/com/x2bro4pro/bro4call/SignalingClient.kt:39-55 | A ping is sent when a socket exists. The task reposts itself. |
| Signaling.SignalingClient.OnClosing | app/src/main/java/com/x2bro4pro/bro4call/SignalingClient.kt:114-118 | Notifies the listener. After a user disconnect, or while a retry is pending, nothing else changes. Otherwise the state changes as `scheduleReconnectIfNeeded` changes it: `onReconnectFailed` without a room or token, the 120 s task at the attempt limit, and otherwise one more attempt with its jittered task. The room, token and flag are kept, and the heartbeat is never touched. |
| Signaling.SignalingClient.OnFailure | app/src/main/java/com/x2bro4pro/bro4call/SignalingClient.kt:119-122 | The same outcomes as `onClosing`, with an error notice first. |
| Signaling.SignalingClient.ScheduleReconnectIfNeeded | app/src/main/java/com/x2bro4pro/bro4call/SignalingClient.kt:182-241 | It does nothing while a retry is pending. Without a room or token it reports `onReconnectFailed` once. A room or token is missing when it is null or blank, with blank judged as Kotlin does on the JVM: every character is whitespace, which includes U+001C to U+001F and the Unicode space separators. At 8 attempts it sets the counter to 6, reports `(6, 120000)` and posts one 120 s task. Otherwise it sets `reconnecting`, adds one to the counter, reports the jittered delay and posts exactly one task with it. |
| Signaling.SignalingClient.FireRetry | app/src/main/java/com/x2bro4pro/bro4call/SignalingClient.kt:201-213 | The task leaves the queue. Unless the user disconnected or the parameters are gone, it reconnects in talk mode with a zero counter. `reconnecting` ends up false either way. |
| Signaling.SignalingClient.Disconnect | app/src/main/java/com/x2bro4pro/bro4call/SignalingClient.kt:134-151 | Sets the disconnect flag, cancels every pending ping and retry, and clears the socket, room and token. |
| Signaling.SignalingClient.ReachableRetriesWaitFirstStep | app/src/main/java/com/x2bro4pro/bro4call/SignalingClient.kt:195-225 | Every retry goes through `connect`, which resets the counter. So in every reachable state a reconnect is scheduled from a zero counter and waits 800 to 1200 ms, and the attempt limit is never reached. |
| Services.ReportedDomain | app/src/main/java/com/x2bro4pro/bro4call/CallService.kt:334 | The reported domain is the text before the first `"__"` of the stored room. It is `"unbekannt"` when no room is stored. |
| Services.ReportedDomainOfBuiltRoom | app/src/main/java/com/x2bro4pro/bro4call/CallService.kt:334 | For a room id the backend built, the reported domain is the domain it was built from. |
| Services.AnnouncedCall | app/src/main/java/com/x2bro4pro/bro4call/CallService.kt:326-357 | An `offer` always announces a call with the reported domain. A `system`/`visitor_joined` message announces one only with a non-empty visitor id. Other types announce nothing. |
| Services.CallService.constructor | app/src/main/java/com/x2bro4pro/bro4call/CallService.kt:34-43 | The service starts with no client, not connected and with no stored credentials. |
| Services.CallService.OnStartCommand | app/src/main/java/com/x2bro4pro/bro4call/CallService.kt:56-93 | The result is always START_STICKY. START with both extras stores them and connects only when not connected; the credential-change branch is dead. START missing one extra stops the service and keeps the old credentials. STOP disconnects and stops. |
| Services.CallService.StopForegroundService | app/src/main/java/com/x2bro4pro/bro4call/CallService.kt:153-157 | Disconnects, leaves the foreground and requests a stop. |
| Services.CallService.ConnectWebSocket | app/src/main/java/com/x2bro4pro/bro4call/CallService.kt:288-299 | Creates the client only if there is none, then connects it in talk mode to the worker host with the given room and token. |
| Services.CallService.DisconnectWebSocket | app/src/main/java/com/x2bro4pro/bro4call/CallService.kt:301-307 | The dropped client is disconnected with nothing pending. Afterwards there is no client, `isConnected` is false and `false` is reported. |
| Services.CallService.OnWebSocketOpen | app/src/main/java/com/x2bro4pro/bro4call/CallService.kt:316-324 | `isConnected` becomes true and `true` is reported. |
| Services.CallService.OnWebSocketClosed | app/src/main/java/com/x2bro4pro/bro4call/CallService.kt:359-367 | `isConnected` becomes false and `false` is reported. |
| Services.CallService.OnNewSignalReceived | app/src/main/java/com/x2bro4pro/bro4call/CallService.kt:326-357 | Records exactly the call the signal announces, if any. |
| Services.CallService.Reconnect | app/src/main/java/com/x2bro4pro/bro4call/CallService.kt:396-403 | With both credentials stored, the old client is disconnected and a fresh one connects with them. Otherwise nothing changes. |
| NetworkReceivers.SpacedGaps | app/src/main/java/com/x2bro4pro/bro4call/NetworkChangeReceiver.kt:37-42 | In a debounced history, attempts k positions apart are at least k·10 s apart. |
| NetworkReceivers.NetworkChangeReceiver.constructor | app/src/main/java/com/x2bro4pro/bro4call/NetworkChangeReceiver.kt:17-23 | The receiver starts offline, with reconnect time 0 and no attempts. |
| NetworkReceivers.NetworkChangeReceiver.OnReceive | app/src/main/java/com/x2bro4pro/bro4call/NetworkChangeReceiver.kt:25-77 | Other actions change nothing. A restart is attempted only on an offline-to-online change at least 10 s after the last attempt, and it records `now`. The service is started only with both saved credentials. After every handled event the stored availability is the current one. |
| NetworkReceivers.NetworkChangeReceiver.AttemptsTenSecondsApart | app/src/main/java/com/x2bro4pro/bro4call/NetworkChangeReceiver.kt:37-42 | Any two restart attempts are at least 10 s apart. |
| Activities.IndexOfFirst | app/src/main/java/com/example/x2bro4proCall/AppActivity.kt:166 | The result is -1 exactly when no visitor has the id. Otherwise it is the first index with that id. |
| Activities.Without | app/src/main/java/com/example/x2bro4proCall/AppActivity.kt:164-172 | Removing visitors never lengthens the list. |
| Activities.WithoutMembers | app/src/main/java/com/example/x2bro4proCall/AppActivity.kt:164-172 | After removal, a visitor is listed exactly when it was listed before and has another id. |
| Activities.RemoveFirstIsWithout | app/src/main/java/com/example/x2bro4proCall/AppActivity.kt:166-168 | With distinct ids, `removeAt(indexOfFirst(id))` leaves exactly the visitors with other ids, in order. |
| Activities.WithoutAbsent | app/src/main/java/com/example/x2bro4proCall/AppActivity.kt:167 | When no visitor has the id, removal leaves the list unchanged. |
| Activities.WithoutWellKeyed | app/src/main/java/com/example/x2bro4proCall/AppActivity.kt:151 | Removal keeps the ids non-empty and distinct. |
| Activities.AppActivity.constructor | app/src/main/java/com/example/x2bro4proCall/AppActivity.kt:42-45 | The activity starts with no visitors and no call. |
| Activities.AppActivity.HandleNewVisitor | app/src/main/java/com/example/x2bro4proCall/AppActivity.kt:149-162 | An empty or already listed id changes nothing. Otherwise exactly one visitor is appended at the end. Ids stay non-empty and distinct. |
| Activities.AppActivity.HandleVisitorLeft | app/src/main/java/com/example/x2bro4proCall/AppActivity.kt:164-172 | The visitor with that id is removed if listed. Otherwise the list is unchanged. The rest keeps its order. |
| Activities.AppActivity.HandleSystemMessage | app/src/main/java/com/example/x2bro4proCall/AppActivity.kt:139-145 | Only a visitor's `peer_left` acts: it removes that visitor and ends the call with it. A `peer_left` without `sessionId`, the shape the backend sends, changes nothing. |
| Activities.AppActivity.GenerateOffer | app/src/main/java/com/example/x2bro4proCall/AppActivity.kt:176-177 | The active call becomes the chosen visitor's id. |
| Activities.AppActivity.EndCall | app/src/main/java/com/example/x2bro4proCall/AppActivity.kt:236-241 | Clears the active call and sends exactly one hangup. |

## Left out

- JWT verification (`verifyToken`) and the D1 database are left out. The verification outcome and the call lookup are inputs to `Admission.Admit`. The `logMessage` and `logCallEnd` writes are recorded as entries, and a failing `logMessage` is a flag.
- `crypto.randomUUID` is modelled as a per-room counter that gives distinct ids. `Date.now()` and `System.currentTimeMillis()` are parameters. The random jitter draw is a parameter `rnd`.
- The worker's HTTP handlers (login, register, announce, initiate call, admin) are not modelled. Only the room-id format from `handleInitiateCall` is, because the room consumes it.
- `JSON.parse` and `org.json` are not modelled. Messages are given as the fields the handlers read. Non-string field values and `optString`'s conversion of them are left out.
- The JS handler awaits `logMessage` before it relays. Other events that interleave at that await are not modelled; `OnMessage` runs as one step.
- Events from a socket that a newer `connect` has replaced are left out.
- Exceptions thrown by `connect` (an invalid URL) inside the retry task and `connectWebSocket` are left out.
- URL encoding of the query string is not modelled, and neither is the luxurycallapp `SignalingClient`.
- The incoming `onMessage` dispatch of `SignalingClient` is not modelled: it forwards every parsed message to the listener.
- Notifications, wake locks, `onTaskRemoved` restarts and the boot receiver are Android plumbing and are not modelled. The Firebase messaging service and `AuthClient` are not part of this model; the saved token and room id are parameters of `OnReceive`.
- `isNetworkAvailable` is a query to the platform and is a parameter. `lastTransportType` only feeds logging and is not modelled.
- `AppActivity`'s views, adapter, toasts and WebRTC offer/answer handling are left out. `GenerateOffer` models only the update of `activeCallSessionId`; the offer it sends later on success is left out.
- Signaling.SignalingClient.FireRetry: the model lets any pending task fire, not only the earliest. This allows more orders than the handler's time order, so every property proved still holds.
- Backoff.JitterRange: `(d * 0.2).toInt()` is modelled as `d / 5`. The two agree on every delay `BackoffMs` produces.
- Backoff.BackoffMs: the `toInt` saturation of a huge power is not written out. It only matters above the 60000 ms cap, where the result is the cap either way.
