/** The worker's entry point (`server_default.fetch`): dispatch on the HTTP
    method and the path segments. The handlers themselves are not part of this
    model; the result names the handler the request is given to. */
module Router {
  import opened Options
  import opened Paths

  /** An incoming HTTP request, reduced to what the worker and the room read:
      the method, the URL path, the `Upgrade` header and the `token` and `mode`
      query parameters. */
  datatype Request = Request(
    httpMethod: string,
    path: string,
    upgrade: Option<string>,
    token: Option<string>,
    mode: Option<string>)

  datatype Route =
    | CorsPreflight
    | Login
    | Register
    | DomainAnnounce
    | InitiateCall
    | AdminData
    | AdminAssign
    | AdminApprove(userId: string)
    | AdminAddDomain
    | ApiNotFound
    | ToRoom(roomId: string)   // forwarded to the room object named by the id
    | Running                  // "Call Server Running.", status 200

  /** `path[i]` of a JavaScript array: undefined past the end. */
  function At(segs: seq<string>, i: nat): Option<string> {
    if i < |segs| then Some(segs[i]) else None
  }

  predicate IsApiRoute(r: Route) {
    r in {Login, Register, DomainAnnounce, InitiateCall, AdminData, AdminAssign, AdminAddDomain, ApiNotFound}
    || r.AdminApprove?
  }

  /** The request is not a preflight and its path segments begin with `prefix`. */
  predicate Under(req: Request, prefix: seq<string>) {
    && req.httpMethod != "OPTIONS"
    && |prefix| <= |Segments(req.path)|
    && Segments(req.path)[..|prefix|] == prefix
  }

  /** The request names one of the API handlers. */
  predicate KnownApi(req: Request) {
    || Under(req, ["api", "login"])
    || Under(req, ["api", "register"])
    || Under(req, ["api", "domain", "announce"])
    || Under(req, ["api", "public", "initiate_call"])
    || Under(req, ["api", "admin", "data"])
    || Under(req, ["api", "admin", "assign"])
    || (Under(req, ["api", "admin", "approve"]) && |Segments(req.path)| >= 4)
    || Under(req, ["api", "admin", "domain", "add"])
  }

  function RouteOf(req: Request): (r: Route)
    ensures r == CorsPreflight <==> req.httpMethod == "OPTIONS"
    // each API path reaches its own handler, and the rest of `/api` gets 404
    ensures r == Login <==> Under(req, ["api", "login"])
    ensures r == Register <==> Under(req, ["api", "register"])
    ensures r == DomainAnnounce <==> Under(req, ["api", "domain", "announce"])
    ensures r == InitiateCall <==> Under(req, ["api", "public", "initiate_call"])
    ensures r == AdminData <==> Under(req, ["api", "admin", "data"])
    ensures r == AdminAssign <==> Under(req, ["api", "admin", "assign"])
    ensures r.AdminApprove? <==> Under(req, ["api", "admin", "approve"]) && |Segments(req.path)| >= 4
    ensures r.AdminApprove? ==> r.userId == Segments(req.path)[3]
    ensures r == AdminAddDomain <==> Under(req, ["api", "admin", "domain", "add"])
    ensures r == ApiNotFound <==> Under(req, ["api"]) && !KnownApi(req)
    ensures r.ToRoom? <==>
      req.httpMethod != "OPTIONS" && |Segments(req.path)| >= 2 && Segments(req.path)[0] == "call"
    ensures r.ToRoom? ==> r.roomId == Segments(req.path)[1]
    ensures IsApiRoute(r) <==>
      req.httpMethod != "OPTIONS" && |Segments(req.path)| >= 1 && Segments(req.path)[0] == "api"
    ensures r == Running <==>
      req.httpMethod != "OPTIONS" && !(|Segments(req.path)| >= 1 && Segments(req.path)[0] == "api")
      && !(|Segments(req.path)| >= 2 && Segments(req.path)[0] == "call")
  {
    if req.httpMethod == "OPTIONS" then CorsPreflight
    else
      var path := Segments(req.path);
      // the prefixes `Under` compares, element by element
      assert |path| >= 1 ==> path[..1] == [path[0]];
      assert |path| >= 2 ==> path[..2] == [path[0], path[1]];
      assert |path| >= 3 ==> path[..3] == [path[0], path[1], path[2]];
      assert |path| >= 4 ==> path[..4] == [path[0], path[1], path[2], path[3]];
      if At(path, 0) == Some("api") then
        if At(path, 1) == Some("login") then Login
        else if At(path, 1) == Some("register") then Register
        else if At(path, 1) == Some("domain") && At(path, 2) == Some("announce") then DomainAnnounce
        else if At(path, 1) == Some("public") && At(path, 2) == Some("initiate_call") then InitiateCall
        else if At(path, 1) == Some("admin") && At(path, 2) == Some("data") then AdminData
        else if At(path, 1) == Some("admin") && At(path, 2) == Some("assign") then AdminAssign
        else if At(path, 1) == Some("admin") && At(path, 2) == Some("approve") && At(path, 3).Some? then
          AdminApprove(path[3])
        else if At(path, 1) == Some("admin") && At(path, 2) == Some("domain") && At(path, 3) == Some("add") then
          AdminAddDomain
        else ApiNotFound
      else if At(path, 0) == Some("call") && At(path, 1).Some? then ToRoom(path[1])
      else Running
  }

  /** The path the Android client opens, "/call/<roomId>", reaches the room
      named `roomId` whenever the id is one slash-free path segment. */
  lemma CallPathReachesRoom(req: Request, roomId: string)
    requires req.httpMethod != "OPTIONS"
    requires req.path == "/call/" + roomId
    requires IsSegment(roomId)
    ensures RouteOf(req) == ToRoom(roomId)
  {
    assert JoinPath([roomId]) == "/" + roomId + JoinPath([]);
    assert ["call", roomId][1..] == [roomId];
    assert req.path == JoinPath(["call", roomId]);
    SegmentsOfJoinPath(["call", roomId]);
  }
}
