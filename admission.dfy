/** Admission of a WebSocket connection to one call room (`CallRoom.fetch`): a
    fixed chain of checks, each failing with its own status. Token verification
    (an HMAC-signed JWT checked by the `jose` library) and the lookup of the
    `calls` record are done outside this model; their results are inputs. */
module Admission {
  import opened Options
  import opened Paths
  import opened Router
  import opened RoomIds

  /** The verified token payload (`sessionData`): who connects, with which role,
      and the domains assigned to the user. `allowedDomains` is `None` when the
      payload's `allowed_domains` is not an array. */
  datatype Payload = Payload(userId: string, role: string, allowedDomains: Option<seq<string>>)

  /** Result of `SELECT agent_id FROM calls WHERE session_id = ?`. */
  datatype CallLookup =
    | NoCallRecord
    | CallRecord(agentId: Option<string>)   // agent_id, NULL as None
    | LookupFailed                          // the query threw

  datatype Rejection =
    | ExpectedWebSocket          // 426
    | MissingToken               // 401
    | InvalidToken               // 401: anything thrown inside the try block
    | InvalidRoomIdFormat        // 400
    | AccessDenied(domain: string)  // 403
    | AlreadyClaimed             // 403

  datatype Verdict =
    | Reject(why: Rejection)
    | Accept(roomId: string, payload: Payload, mode: string)

  function StatusOf(v: Verdict): (status: int)
    ensures status == 101 <==> v.Accept?
    ensures v == Reject(ExpectedWebSocket) <==> status == 426
    ensures v == Reject(InvalidRoomIdFormat) <==> status == 400
    ensures status == 401 <==> v == Reject(MissingToken) || v == Reject(InvalidToken)
    ensures status == 403 <==> v.Reject? && (v.why.AccessDenied? || v.why == AlreadyClaimed)
  {
    match v
    case Accept(_, _, _) => 101
    case Reject(ExpectedWebSocket) => 426
    case Reject(MissingToken) => 401
    case Reject(InvalidToken) => 401
    case Reject(InvalidRoomIdFormat) => 400
    case Reject(AccessDenied(_)) => 403
    case Reject(AlreadyClaimed) => 403
  }

  /** A JavaScript string value that is truthy: present and non-empty. */
  predicate Truthy(s: Option<string>) {
    s.Some? && s.value != ""
  }

  /** `url.searchParams.get("mode") || 'talk'`. */
  function ModeOf(req: Request): (mode: string)
    ensures mode != ""
    ensures Truthy(req.mode) ==> mode == req.mode.value
    ensures !Truthy(req.mode) ==> mode == "talk"
  {
    if Truthy(req.mode) then req.mode.value else "talk"
  }

  /** The second path segment, `url.pathname.split("/").filter((p) => p)[1]`. */
  function RequestedRoomId(req: Request): Option<string> {
    At(Segments(req.path), 1)
  }

  /** The domain check: a super-admin may enter any room, everyone else only
      rooms of a domain listed in `allowed_domains`. */
  predicate DomainAccess(p: Payload, domain: string) {
    p.role == "superadmin" || (p.allowedDomains.Some? && domain in p.allowedDomains.value)
  }

  /** The claim check on the stored `agent_id`. */
  predicate ClaimAllows(lookup: CallLookup, mode: string, userId: string) {
    !(lookup.CallRecord? && Truthy(lookup.agentId))
    || mode == "monitor"
    || lookup.agentId.value == userId
  }

  /** Every check up to and including the domain check passed for `room`. */
  predicate PassesUpToDomain(req: Request, verified: Option<Payload>, room: string) {
    && req.upgrade == Some("websocket")
    && Truthy(req.token)
    && verified.Some?
    && RequestedRoomId(req) == Some(room)
    && HasSep(room)
    && DomainAccess(verified.value, TargetDomain(room))
  }

  /** The admission chain. `verified` is what verifying the token produced
      (`None`: it threw), `lookup` what the `calls` query produced. */
  function Admit(req: Request, verified: Option<Payload>, lookup: CallLookup): (v: Verdict)
    // admitted exactly when every check passes
    ensures v.Accept? <==>
      && RequestedRoomId(req).Some?
      && PassesUpToDomain(req, verified, RequestedRoomId(req).value)
      && !lookup.LookupFailed?
      && ClaimAllows(lookup, ModeOf(req), verified.value.userId)
    ensures v.Accept? ==>
      RequestedRoomId(req) == Some(v.roomId) && verified == Some(v.payload) && v.mode == ModeOf(req)
    // each rejection is given only once every earlier check has passed
    ensures v == Reject(ExpectedWebSocket) <==> req.upgrade != Some("websocket")
    ensures v == Reject(MissingToken) <==> req.upgrade == Some("websocket") && !Truthy(req.token)
    ensures v == Reject(InvalidRoomIdFormat) <==>
      && req.upgrade == Some("websocket") && Truthy(req.token) && verified.Some?
      && RequestedRoomId(req).Some? && !HasSep(RequestedRoomId(req).value)
    ensures v.Reject? && v.why.AccessDenied? <==>
      && req.upgrade == Some("websocket") && Truthy(req.token) && verified.Some?
      && RequestedRoomId(req).Some? && HasSep(RequestedRoomId(req).value)
      && !DomainAccess(verified.value, TargetDomain(RequestedRoomId(req).value))
    ensures v.Reject? && v.why.AccessDenied? ==> v.why.domain == TargetDomain(RequestedRoomId(req).value)
    ensures v == Reject(AlreadyClaimed) <==>
      && RequestedRoomId(req).Some?
      && PassesUpToDomain(req, verified, RequestedRoomId(req).value)
      && lookup.CallRecord? && Truthy(lookup.agentId)
      && ModeOf(req) != "monitor" && lookup.agentId.value != verified.value.userId
  {
    if req.upgrade != Some("websocket") then Reject(ExpectedWebSocket)
    else if !Truthy(req.token) then Reject(MissingToken)
    else if verified.None? then Reject(InvalidToken)
    else
      var payload := verified.value;
      match RequestedRoomId(req)
      // `undefined.split` throws inside the try block
      case None => Reject(InvalidToken)
      case Some(room) =>
        if !HasSep(room) then Reject(InvalidRoomIdFormat)
        else
          var domain := TargetDomain(room);
          if !DomainAccess(payload, domain) then Reject(AccessDenied(domain))
          else if lookup.LookupFailed? then Reject(InvalidToken)
          else if !ClaimAllows(lookup, ModeOf(req), payload.userId) then Reject(AlreadyClaimed)
          else Accept(room, payload, ModeOf(req))
  }

  /** A monitoring connection is never refused by the claim check. */
  lemma MonitorNeverClaimRejected(req: Request, verified: Option<Payload>, lookup: CallLookup)
    requires ModeOf(req) == "monitor"
    ensures Admit(req, verified, lookup) != Reject(AlreadyClaimed)
  {
  }

  /** The agent recorded as owner of the call gets back in (reconnect after a
      network loss), whatever its mode. */
  lemma OwnerReadmitted(req: Request, p: Payload, room: string)
    requires PassesUpToDomain(req, Some(p), room)
    ensures Admit(req, Some(p), CallRecord(Some(p.userId))) == Accept(room, p, ModeOf(req))
  {
  }

  /** A second agent cannot take over a call claimed by another agent. */
  lemma RivalAgentRejected(req: Request, p: Payload, room: string, owner: string)
    requires PassesUpToDomain(req, Some(p), room)
    requires owner != "" && owner != p.userId && ModeOf(req) != "monitor"
    ensures StatusOf(Admit(req, Some(p), CallRecord(Some(owner)))) == 403
  {
  }

  /** Room ids without "__" are refused with 400 once the token is good, and
      never admitted. */
  lemma NoSeparatorRejected(req: Request, p: Payload, lookup: CallLookup)
    requires RequestedRoomId(req).Some? && !HasSep(RequestedRoomId(req).value)
    ensures StatusOf(Admit(req, Some(p), lookup)) != 101
    ensures req.upgrade == Some("websocket") && Truthy(req.token) ==>
      StatusOf(Admit(req, Some(p), lookup)) == 400
  {
  }
}
