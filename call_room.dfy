/** The per-room coordinator of the backend (`CallRoom`): the in-memory list of
    sessions, the message handler that logs chat and relays everything, the
    relay itself (`broadcast`) and the departure path (`cleanup`).

    What the sockets are handed is recorded, in order, on the room's `wire`;
    calls into the database (`logMessage`, `logCallEnd`) are recorded on the
    room's logs. Whether a socket is open and whether `send` throws are decided by the
    transport and appear as fields of the session. */
module Rooms {
  import opened Options
  import opened Router
  import opened RoomIds
  import opened Admission

  /** A frame handed to a socket: a relayed message, unchanged, or the
      departure notice `{type: "system", action: "peer_left", userId, role}`. */
  datatype Frame = Raw(data: string) | PeerLeft(userId: string, role: string)

  /** One `socket.send` that did not throw: which session, which frame. */
  datatype Delivery = Delivery(to: nat, frame: Frame)

  /** One call of `logMessage(roomId, senderId, text)`. */
  datatype ChatEntry = ChatEntry(roomId: string, senderId: string, content: string)

  /** What `JSON.parse(msg.data)` gives: it throws, it gives `null` (reading
      `.type` of it throws, unless the mode test stops the condition first), or a value whose `type` and `text` fields are read. */
  datatype Parsed = Unparseable | JsonNull | JsonValue(msgType: Option<string>, text: Option<string>)

  /** `WebSocket.readyState` of an open socket. */
  const ReadyOpen: int := 1

  class Session {
    const id: nat
    const roomId: string
    const userId: string
    const role: string
    const mode: string
    var alive: bool
    var readyState: int
    var sendThrows: bool

    /** The session `handleSession` makes for an accepted socket. */
    constructor (id: nat, roomId: string, userId: string, role: string, mode: string)
      ensures this.id == id && this.roomId == roomId && this.userId == userId
      ensures this.role == role && this.mode == mode
      ensures alive && readyState == ReadyOpen && !sendThrows
    {
      this.id := id;
      this.roomId := roomId;
      this.userId := userId;
      this.role := role;
      this.mode := mode;
      alive := true;
      readyState := ReadyOpen;
      sendThrows := false;
    }
  }

  /** A loop over the list sends `f` to `s`: `s` is not the skipped sender,
      it is open when openness is checked, and its `send` does not throw.
      `broadcast` skips the sender and checks openness; `cleanup` does neither. */
  predicate SendsTo(s: Session, skip: Option<nat>, checkOpen: bool)
    reads s
  {
    (skip.None? || s.id != skip.value) && (!checkOpen || s.readyState == ReadyOpen) && !s.sendThrows
  }

  /** `broadcast` sends to `s`: open, not the sender, and `send` does not throw. */
  predicate Relays(s: Session, senderId: nat)
    reads s
  {
    SendsTo(s, Some(senderId), true)
  }

  /** `broadcast` keeps `s` in the list. */
  predicate Survives(s: Session, senderId: nat)
    reads s
  {
    s.readyState == ReadyOpen && (s.id == senderId || !s.sendThrows)
  }

  predicate DistinctIds(ss: seq<Session>) {
    forall i, j :: 0 <= i < j < |ss| ==> ss[i].id != ss[j].id
  }

  /** The list `broadcast` leaves: the surviving sessions, in their order. */
  function Kept(ss: seq<Session>, senderId: nat): (r: seq<Session>)
    reads ss
  {
    if ss == [] then []
    else
      var last := ss[|ss| - 1];
      Kept(ss[..|ss| - 1], senderId) + (if Survives(last, senderId) then [last] else [])
  }

  /** The successful sends of a loop over `ss`, in list order. */
  function Deliveries(ss: seq<Session>, skip: Option<nat>, checkOpen: bool, f: Frame): (r: seq<Delivery>)
    reads ss
    ensures forall d :: d in r ==> d.frame == f
    ensures skip.Some? ==> forall d :: d in r ==> d.to != skip.value
  {
    if ss == [] then []
    else
      var last := ss[|ss| - 1];
      Deliveries(ss[..|ss| - 1], skip, checkOpen, f)
        + (if SendsTo(last, skip, checkOpen) then [Delivery(last.id, f)] else [])
  }

  /** The sends `broadcast` makes. */
  function RelayDeliveries(ss: seq<Session>, senderId: nat, f: Frame): seq<Delivery>
    reads ss
  {
    Deliveries(ss, Some(senderId), true, f)
  }

  /** The sends `cleanup`'s `forEach` makes: to every listed session whose
      `send` does not throw. */
  function NotifyDeliveries(ss: seq<Session>, f: Frame): seq<Delivery>
    reads ss
  {
    Deliveries(ss, None, false, f)
  }

  /** `sessions.filter((s) => s.id !== id)`. */
  function WithoutId(ss: seq<Session>, id: nat): seq<Session> {
    if ss == [] then []
    else
      var last := ss[|ss| - 1];
      WithoutId(ss[..|ss| - 1], id) + (if last.id != id then [last] else [])
  }

  /** The filter removes exactly the sessions with the given id, keeps ids
      distinct, and leaves the others in their order. */
  lemma {:induction false} WithoutIdMembers(ss: seq<Session>, id: nat)
    ensures forall s :: s in WithoutId(ss, id) ==> s in ss && s.id != id
    ensures forall s :: s in ss && s.id != id ==> s in WithoutId(ss, id)
    ensures DistinctIds(ss) ==> DistinctIds(WithoutId(ss, id))
  {
    if ss != [] {
      var init := ss[..|ss| - 1];
      var last := ss[|ss| - 1];
      WithoutIdMembers(init, id);
      assert forall s :: s in ss ==> s in init || s == last;
      if DistinctIds(ss) {
        assert DistinctIds(init);
        forall s | s in WithoutId(init, id) ensures s.id != last.id {
          var k :| 0 <= k < |init| && init[k] == s;
          assert ss[k] == s;
        }
      }
    }
  }

  /** Some listed session has the given role (`sessions.some(s => s.role === role)`). */
  predicate HasRole(ss: seq<Session>, role: string) {
    exists s :: s in ss && s.role == role
  }

  /** The departing session was the last agent in the room. */
  predicate LastAgentLeft(departingRole: string, remaining: seq<Session>) {
    departingRole == "agent" && !HasRole(remaining, "agent")
  }

  /** The handler calls `logMessage`: a chat message with a non-empty text
      from a session that is not monitoring. */
  predicate ShouldLog(mode: string, parsed: Parsed) {
    parsed.JsonValue? && mode != "monitor" && parsed.msgType == Some("chat") && Truthy(parsed.text)
  }

  /** The handler reaches `broadcast`: the message parsed to a non-null value
      and, if it was logged, logging did not fail; or it parsed to `null` from
      a monitoring session, for which the mode test stops the condition before
      it reads `.type` of `null`. */
  predicate Relayed(mode: string, parsed: Parsed, logFails: bool) {
    || (parsed.JsonValue? && !(ShouldLog(mode, parsed) && logFails))
    || (parsed.JsonNull? && mode == "monitor")
  }

  /** Number of deliveries to session `id`. */
  function CountTo(ds: seq<Delivery>, id: nat): nat {
    if ds == [] then 0
    else CountTo(ds[..|ds| - 1], id) + (if ds[|ds| - 1].to == id then 1 else 0)
  }

  /** In a list with distinct ids, a send loop hands the frame exactly once to
      every session it sends to and to no one else. */
  lemma {:induction false} DeliversOnce(ss: seq<Session>, skip: Option<nat>, checkOpen: bool, f: Frame, s: Session)
    requires DistinctIds(ss) && s in ss
    ensures CountTo(Deliveries(ss, skip, checkOpen, f), s.id) == if SendsTo(s, skip, checkOpen) then 1 else 0
  {
    var init := ss[..|ss| - 1];
    var last := ss[|ss| - 1];
    var tail := if SendsTo(last, skip, checkOpen) then [Delivery(last.id, f)] else [];
    CountAppend(Deliveries(init, skip, checkOpen, f), tail, s.id);
    if s == last {
      forall t | t in init ensures t.id != s.id {
        var k :| 0 <= k < |init| && init[k] == t;
        assert ss[k] == t;
      }
      MissesAbsentId(init, skip, checkOpen, f, s.id);
    } else {
      assert s in init;
      assert DistinctIds(init);
      var k :| 0 <= k < |init| && init[k] == s;
      assert ss[k] == s;
      DeliversOnce(init, skip, checkOpen, f, s);
    }
  }

  /** No frame goes to an id that is not in the list. */
  lemma {:induction false} MissesAbsentId(ss: seq<Session>, skip: Option<nat>, checkOpen: bool, f: Frame, id: nat)
    requires forall s :: s in ss ==> s.id != id
    ensures CountTo(Deliveries(ss, skip, checkOpen, f), id) == 0
  {
    if ss != [] {
      var init := ss[..|ss| - 1];
      var last := ss[|ss| - 1];
      var tail := if SendsTo(last, skip, checkOpen) then [Delivery(last.id, f)] else [];
      CountAppend(Deliveries(init, skip, checkOpen, f), tail, id);
      MissesAbsentId(init, skip, checkOpen, f, id);
    }
  }

  /** `broadcast` relays once to every other open session whose send succeeds,
      and never to the sender. */
  lemma RelayReachesEachPeerOnce(ss: seq<Session>, sender: Session, f: Frame)
    requires DistinctIds(ss)
    ensures forall s :: s in ss ==>
      CountTo(RelayDeliveries(ss, sender.id, f), s.id) == if Relays(s, sender.id) then 1 else 0
    ensures CountTo(RelayDeliveries(ss, sender.id, f), sender.id) == 0
  {
    forall s | s in ss
      ensures CountTo(RelayDeliveries(ss, sender.id, f), s.id) == if Relays(s, sender.id) then 1 else 0
    {
      DeliversOnce(ss, Some(sender.id), true, f, s);
    }
    if s :| s in ss && s.id == sender.id {
      DeliversOnce(ss, Some(sender.id), true, f, s);
    } else {
      MissesAbsentId(ss, Some(sender.id), true, f, sender.id);
    }
  }

  /** `cleanup` hands the departure notice once to every remaining session whose
      send does not throw. */
  lemma NotifyReachesEachOnce(ss: seq<Session>, f: Frame)
    requires DistinctIds(ss)
    ensures forall s :: s in ss ==>
      CountTo(NotifyDeliveries(ss, f), s.id) == if s.sendThrows then 0 else 1
  {
    forall s | s in ss ensures CountTo(NotifyDeliveries(ss, f), s.id) == if s.sendThrows then 0 else 1 {
      DeliversOnce(ss, None, false, f, s);
    }
  }

  lemma {:induction false} CountAppend(a: seq<Delivery>, b: seq<Delivery>, id: nat)
    ensures CountTo(a + b, id) == CountTo(a, id) + CountTo(b, id)
  {
    if b == [] {
      assert a + b == a;
    } else {
      assert (a + b)[..|a + b| - 1] == a + b[..|b| - 1];
      CountAppend(a, b[..|b| - 1], id);
    }
  }

  /** `broadcast` keeps exactly the surviving sessions. */
  lemma {:induction false} KeptMembers(ss: seq<Session>, senderId: nat)
    ensures forall s :: s in Kept(ss, senderId) ==> s in ss && Survives(s, senderId)
    ensures forall s :: s in ss && Survives(s, senderId) ==> s in Kept(ss, senderId)
  {
    if ss != [] {
      var init := ss[..|ss| - 1];
      KeptMembers(init, senderId);
      assert forall s :: s in ss ==> s in init || s == ss[|ss| - 1];
    }
  }

  lemma {:induction false} KeptDistinct(ss: seq<Session>, senderId: nat)
    requires DistinctIds(ss)
    ensures DistinctIds(Kept(ss, senderId))
  {
    if ss != [] {
      var init := ss[..|ss| - 1];
      var last := ss[|ss| - 1];
      assert DistinctIds(init);
      KeptDistinct(init, senderId);
      KeptMembers(init, senderId);
      forall s | s in Kept(init, senderId) ensures s.id != last.id {
        var k :| 0 <= k < |init| && init[k] == s;
        assert ss[k] == s;
      }
    }
  }

  class CallRoom {
    var sessions: seq<Session>
    /** Source of fresh session ids (the backend draws `crypto.randomUUID()`). */
    var nextId: nat
    /** Every frame handed to a socket, in order. */
    var wire: seq<Delivery>
    /** Calls of `logMessage`. */
    var chatLog: seq<ChatEntry>
    /** Calls of `logCallEnd(roomId)`. */
    var callEnds: seq<string>

    /** Listed sessions have distinct ids, drawn from `nextId`, and are alive. */
    ghost predicate Valid()
      reads `sessions, `nextId, sessions
    {
      DistinctIds(sessions) && forall s :: s in sessions ==> s.id < nextId && s.alive
    }

    constructor ()
      ensures Valid() && sessions == [] && wire == [] && chatLog == [] && callEnds == []
    {
      sessions := [];
      nextId := 0;
      wire := [];
      chatLog := [];
      callEnds := [];
    }

    /** `CallRoom.fetch`: run the admission chain and, when it accepts, create
        exactly one session. */
    method Fetch(req: Request, verified: Option<Payload>, lookup: CallLookup) returns (status: int)
      requires Valid()
      modifies this
      ensures Valid()
      ensures status == StatusOf(Admit(req, verified, lookup))
      ensures status != 101 ==> sessions == old(sessions) && nextId == old(nextId)
      ensures status == 101 ==>
        var v := Admit(req, verified, lookup);
        var n := |old(sessions)|;
        && |sessions| == n + 1 && sessions[..n] == old(sessions)
        && fresh(sessions[n])
        && sessions[n].roomId == v.roomId && sessions[n].userId == v.payload.userId
        && sessions[n].role == v.payload.role && sessions[n].mode == v.mode
      ensures wire == old(wire) && chatLog == old(chatLog) && callEnds == old(callEnds)
    {
      var v := Admit(req, verified, lookup);
      status := StatusOf(v);
      if v.Accept? {
        var _ := HandleSession(v.roomId, v.payload, v.mode);
      }
    }

    /** `handleSession`: accept the socket and append its session to the list. */
    method HandleSession(roomId: string, userData: Payload, mode: string) returns (session: Session)
      requires Valid()
      modifies this
      ensures Valid() && fresh(session)
      ensures sessions == old(sessions) + [session]
      ensures session.roomId == roomId && session.userId == userData.userId
      ensures session.role == userData.role && session.mode == mode && session.alive
      ensures wire == old(wire) && chatLog == old(chatLog) && callEnds == old(callEnds)
    {
      session := new Session(nextId, roomId, userData.userId, userData.role, mode);
      nextId := nextId + 1;
      sessions := sessions + [session];
    }

    /** The "message" listener of a session: log chat text unless monitoring,
        then relay the raw message. A parse failure, a rejected `logMessage`,
        or a `null` message from a session that is not monitoring (reading
        `.type` of `null` throws) ends the handler before the relay. */
    method OnMessage(session: Session, raw: string, parsed: Parsed, logFails: bool)
      requires Valid()
      modifies this
      ensures Valid()
      ensures chatLog == old(chatLog) +
        (if ShouldLog(session.mode, parsed) then [ChatEntry(session.roomId, session.userId, parsed.text.value)] else [])
      ensures Relayed(session.mode, parsed, logFails) ==>
        sessions == Kept(old(sessions), session.id)
        && wire == old(wire) + RelayDeliveries(old(sessions), session.id, Raw(raw))
      ensures !Relayed(session.mode, parsed, logFails) ==> sessions == old(sessions) && wire == old(wire)
      ensures nextId == old(nextId) && callEnds == old(callEnds)
    {
      match parsed
      case Unparseable =>
      case JsonNull =>
        if session.mode == "monitor" {
          Broadcast(session, raw);
        }
      case JsonValue(msgType, text) =>
        if session.mode != "monitor" && msgType == Some("chat") && Truthy(text) {
          chatLog := chatLog + [ChatEntry(session.roomId, session.userId, text.value)];
          if logFails {
            return;
          }
        }
        Broadcast(session, raw);
    }

    /** `broadcast`: hand `message` to every other open session, and keep only
        the sessions that are open and whose `send` did not throw. */
    method Broadcast(sender: Session, message: string)
      requires Valid()
      modifies this
      ensures Valid()
      ensures sessions == Kept(old(sessions), sender.id)
      ensures wire == old(wire) + RelayDeliveries(old(sessions), sender.id, Raw(message))
      ensures nextId == old(nextId) && chatLog == old(chatLog) && callEnds == old(callEnds)
    {
      var kept := RelayToAll(sender, message);
      KeptDistinct(sessions, sender.id);
      KeptMembers(sessions, sender.id);
      sessions := kept;
    }

    /** The loop of `broadcast`'s `filter`: send to each relayed session and
        collect the survivors. */
    method RelayToAll(sender: Session, message: string) returns (kept: seq<Session>)
      modifies `wire
      ensures kept == Kept(sessions, sender.id)
      ensures wire == old(wire) + RelayDeliveries(sessions, sender.id, Raw(message))
    {
      kept := [];
      var i := 0;
      while i < |sessions|
        invariant 0 <= i <= |sessions|
        invariant kept == Kept(sessions[..i], sender.id)
        invariant wire == old(wire) + RelayDeliveries(sessions[..i], sender.id, Raw(message))
      {
        var s := sessions[i];
        assert sessions[..i + 1][..i] == sessions[..i];
        assert Kept(sessions[..i + 1], sender.id) ==
          Kept(sessions[..i], sender.id) + (if Survives(s, sender.id) then [s] else []);
        if s.readyState == ReadyOpen {
          if s.id != sender.id {
            if !s.sendThrows {
              wire := wire + [Delivery(s.id, Raw(message))];
              kept := kept + [s];
            }
          } else {
            kept := kept + [s];
          }
        }
        i := i + 1;
      }
      assert sessions[..i] == sessions;
    }

    /** `cleanup`, run on "close" and on "error": at most once per session. */
    method Cleanup(session: Session)
      requires Valid()
      modifies this, session
      ensures Valid() && !session.alive
      ensures session.readyState == old(session.readyState) && session.sendThrows == old(session.sendThrows)
      ensures !old(session.alive) ==>
        sessions == old(sessions) && wire == old(wire) && callEnds == old(callEnds)
      ensures old(session.alive) ==>
        && sessions == WithoutId(old(sessions), session.id)
        && callEnds == old(callEnds) +
             (if LastAgentLeft(session.role, sessions) then [session.roomId] else [])
        && wire == old(wire) + NotifyDeliveries(sessions, PeerLeft(session.userId, session.role))
      ensures nextId == old(nextId) && chatLog == old(chatLog)
    {
      if !session.alive {
        return;
      }
      Retire(session);
      if LastAgentLeft(session.role, sessions) {
        callEnds := callEnds + [session.roomId];
      }
      SendToAll(PeerLeft(session.userId, session.role));
    }

    /** The first two steps of `cleanup`: mark the session dead and filter
        its id out of the list. */
    method Retire(session: Session)
      requires Valid() && session.alive
      modifies `sessions, session`alive
      ensures Valid() && !session.alive
      ensures sessions == WithoutId(old(sessions), session.id)
    {
      var rest := WithoutId(sessions, session.id);
      WithoutIdMembers(sessions, session.id);
      assert session !in rest;
      sessions := rest;
      session.alive := false;
    }

    /** `sessions.forEach((s) => { try { s.socket.send(f) } catch (e) {} })`. */
    method SendToAll(f: Frame)
      modifies `wire
      ensures wire == old(wire) + NotifyDeliveries(sessions, f)
    {
      var i := 0;
      while i < |sessions|
        invariant 0 <= i <= |sessions|
        invariant wire == old(wire) + NotifyDeliveries(sessions[..i], f)
      {
        assert sessions[..i + 1][..i] == sessions[..i];
        if !sessions[i].sendThrows {
          wire := wire + [Delivery(sessions[i].id, f)];
        }
        i := i + 1;
      }
      assert sessions[..i] == sessions;
    }
  }
}
