/**
 * The agent screen (`AppActivity`): the list of live web visitors kept from
 * `identify` and `peer_left` messages, and the id of the visitor the agent is
 * calling.
 *
 * Only the list and the call id are modelled; views, the RecyclerView
 * adapter and WebRTC are not. Messages are given by the `optString` values
 * the handlers read (`None` for a missing key).
 */
module Activities {
  import opened Options

  /** A live web visitor; `timestamp` is the clock reading at creation. */
  datatype Visitor = Visitor(
    sessionId: string,
    domain: string,
    callerName: string,
    logoUrl: string,
    timestamp: int)

  /** The fields of an `identify` message `handleNewVisitor` reads. */
  datatype IdentifyMessage = IdentifyMessage(
    sessionId: Option<string>,
    domain: Option<string>,
    profileImage: Option<string>)

  /** The fields of a `system` message `handleSystemMessage` reads. */
  datatype SystemMessage = SystemMessage(
    action: Option<string>,
    role: Option<string>,
    sessionId: Option<string>)

  /** Messages handed to `signalingClient.send`. */
  datatype OutMessage = Hangup

  /** `liveVisitors.any { it.sessionId == id }`. */
  predicate HasSession(vs: seq<Visitor>, id: string) {
    exists k | 0 <= k < |vs| :: vs[k].sessionId == id
  }

  /** Session ids are non-empty and pairwise distinct. */
  predicate WellKeyed(vs: seq<Visitor>) {
    && (forall k | 0 <= k < |vs| :: vs[k].sessionId != "")
    && (forall k, l | 0 <= k < l < |vs| :: vs[k].sessionId != vs[l].sessionId)
  }

  /** `indexOfFirst { it.sessionId == id }`: -1 when there is no match. */
  function IndexOfFirst(vs: seq<Visitor>, id: string): (r: int)
    ensures -1 <= r < |vs|
    ensures r == -1 <==> !HasSession(vs, id)
    ensures r >= 0 ==> vs[r].sessionId == id && forall k | 0 <= k < r :: vs[k].sessionId != id
  {
    if vs == [] then -1
    else if vs[0].sessionId == id then 0
    else
      var r := IndexOfFirst(vs[1..], id);
      assert forall k | 0 < k < |vs| :: vs[k] == vs[1..][k - 1];
      if r == -1 then -1 else r + 1
  }

  /** The visitors whose id differs from `id`, in their order: what removing
      a departed visitor should leave. */
  function Without(vs: seq<Visitor>, id: string): (r: seq<Visitor>)
    ensures |r| <= |vs|
  {
    if vs == [] then []
    else (if vs[0].sessionId == id then [] else [vs[0]]) + Without(vs[1..], id)
  }

  /** Removal keeps exactly the visitors with another id. */
  lemma {:induction false} WithoutMembers(vs: seq<Visitor>, id: string)
    ensures forall v :: v in Without(vs, id) <==> v in vs && v.sessionId != id
  {
    if vs != [] {
      WithoutMembers(vs[1..], id);
      assert vs == [vs[0]] + vs[1..];
    }
  }

  lemma {:induction false} WithoutAbsent(vs: seq<Visitor>, id: string)
    requires !HasSession(vs, id)
    ensures Without(vs, id) == vs
  {
    if vs != [] {
      assert !HasSession(vs[1..], id) by {
        forall k | 0 <= k < |vs[1..]| ensures vs[1..][k].sessionId != id {
          assert vs[1..][k] == vs[k + 1];
        }
      }
      WithoutAbsent(vs[1..], id);
      assert [vs[0]] + vs[1..] == vs;
    }
  }

  lemma TailWellKeyed(vs: seq<Visitor>)
    requires WellKeyed(vs) && vs != []
    ensures WellKeyed(vs[1..])
  {
    forall k, l | 0 <= k < l < |vs[1..]| ensures vs[1..][k].sessionId != vs[1..][l].sessionId {
      assert vs[1..][k] == vs[k + 1] && vs[1..][l] == vs[l + 1];
    }
  }

  lemma TailLacksHead(vs: seq<Visitor>)
    requires WellKeyed(vs) && vs != []
    ensures !HasSession(vs[1..], vs[0].sessionId)
  {
    forall k | 0 <= k < |vs[1..]| ensures vs[1..][k].sessionId != vs[0].sessionId {
      assert vs[1..][k] == vs[k + 1];
    }
  }

  /** With distinct ids, `removeAt(indexOfFirst(...))` removes every visitor
      with that id and keeps the others in order. */
  lemma {:induction false} RemoveFirstIsWithout(vs: seq<Visitor>, id: string)
    requires WellKeyed(vs) && HasSession(vs, id)
    ensures var i := IndexOfFirst(vs, id); vs[..i] + vs[i + 1..] == Without(vs, id)
  {
    var i := IndexOfFirst(vs, id);
    if i == 0 {
      TailLacksHead(vs);
      WithoutAbsent(vs[1..], id);
      assert Without(vs, id) == vs[1..];
    } else {
      var tail := vs[1..];
      TailWellKeyed(vs);
      assert tail[i - 1] == vs[i];
      assert IndexOfFirst(tail, id) == i - 1;
      RemoveFirstIsWithout(tail, id);
      assert Without(vs, id) == [vs[0]] + (tail[..i - 1] + tail[i..]);
      assert vs[..i] == [vs[0]] + tail[..i - 1];
      assert vs[i + 1..] == tail[i..];
    }
  }

  /** Removing visitors keeps the ids non-empty and distinct. */
  lemma {:induction false} WithoutWellKeyed(vs: seq<Visitor>, id: string)
    requires WellKeyed(vs)
    ensures WellKeyed(Without(vs, id))
    ensures forall v | v in Without(vs, id) :: v in vs && v.sessionId != id
  {
    if vs != [] {
      TailWellKeyed(vs);
      WithoutWellKeyed(vs[1..], id);
      var rest := Without(vs[1..], id);
      forall v | v in rest ensures v.sessionId != vs[0].sessionId {
        var k :| 0 <= k < |vs[1..]| && vs[1..][k] == v;
        assert vs[k + 1] == v;
      }
    }
  }

  class AppActivity {
    var liveVisitors: seq<Visitor>
    var activeCallSessionId: Option<string>
    var outgoing: seq<OutMessage>

    /** Visitor ids are non-empty and distinct, and a call, when active,
        is with a non-empty id. */
    ghost predicate Valid()
      reads this
    {
      WellKeyed(liveVisitors) && activeCallSessionId != Some("")
    }

    constructor()
      ensures Valid() && liveVisitors == [] && activeCallSessionId.None? && outgoing == []
    {
      liveVisitors := [];
      activeCallSessionId := None;
      outgoing := [];
    }

    /** `handleNewVisitor`: ignore an empty or already listed id, otherwise
        append one visitor at the end. */
    method HandleNewVisitor(msg: IdentifyMessage, now: int)
      requires Valid()
      modifies `liveVisitors
      ensures Valid()
      ensures var id := msg.sessionId.GetOr("");
        id == "" || HasSession(old(liveVisitors), id) ==> liveVisitors == old(liveVisitors)
      ensures var id := msg.sessionId.GetOr("");
        id != "" && !HasSession(old(liveVisitors), id) ==>
          var domain := msg.domain.GetOr("N/A");
          liveVisitors == old(liveVisitors) +
            [Visitor(id, domain, "Besucher von " + domain, msg.profileImage.GetOr(""), now)]
    {
      var sessionId := msg.sessionId.GetOr("");
      if sessionId == "" || IndexOfFirst(liveVisitors, sessionId) != -1 {
        return;
      }
      var domain := msg.domain.GetOr("N/A");
      var visitor := Visitor(sessionId, domain, "Besucher von " + domain, msg.profileImage.GetOr(""), now);
      liveVisitors := liveVisitors + [visitor];
    }

    /** `handleVisitorLeft`: remove the visitor with that id, if listed. */
    method HandleVisitorLeft(sessionId: Option<string>)
      requires Valid()
      modifies `liveVisitors
      ensures Valid()
      ensures liveVisitors == Without(old(liveVisitors), sessionId.GetOr(""))
      ensures !HasSession(old(liveVisitors), sessionId.GetOr("")) ==> liveVisitors == old(liveVisitors)
      ensures HasSession(old(liveVisitors), sessionId.GetOr("")) ==> |liveVisitors| == |old(liveVisitors)| - 1
    {
      var id := sessionId.GetOr("");
      var index := IndexOfFirst(liveVisitors, id);
      WithoutWellKeyed(liveVisitors, id);
      if index != -1 {
        RemoveFirstIsWithout(liveVisitors, id);
        liveVisitors := liveVisitors[..index] + liveVisitors[index + 1..];
      } else {
        WithoutAbsent(liveVisitors, id);
      }
    }

    /** `handleSystemMessage`: a visitor's `peer_left` removes that visitor
        and ends the call with it. */
    method HandleSystemMessage(msg: SystemMessage)
      requires Valid()
      modifies this
      ensures Valid()
      ensures msg.action == Some("peer_left") && msg.role == Some("visitor") ==>
        && liveVisitors == Without(old(liveVisitors), msg.sessionId.GetOr(""))
        && (old(activeCallSessionId) == Some(msg.sessionId.GetOr("")) ==>
              activeCallSessionId.None? && outgoing == old(outgoing) + [Hangup])
        && (old(activeCallSessionId) != Some(msg.sessionId.GetOr("")) ==>
              activeCallSessionId == old(activeCallSessionId) && outgoing == old(outgoing))
      ensures !(msg.action == Some("peer_left") && msg.role == Some("visitor")) ==>
        && liveVisitors == old(liveVisitors) && activeCallSessionId == old(activeCallSessionId)
        && outgoing == old(outgoing)
      ensures msg.sessionId.GetOr("") == "" ==>
        && liveVisitors == old(liveVisitors) && activeCallSessionId == old(activeCallSessionId)
        && outgoing == old(outgoing)
    {
      if msg.action == Some("peer_left") && msg.role == Some("visitor") {
        var sessionId := msg.sessionId.GetOr("");
        HandleVisitorLeft(msg.sessionId);
        if activeCallSessionId == Some(sessionId) {
          EndCall();
        }
      }
    }

    /** `generateOffer` for a listed visitor: the call is now with it. */
    method GenerateOffer(visitor: Visitor)
      requires Valid() && visitor in liveVisitors
      modifies `activeCallSessionId
      ensures Valid() && activeCallSessionId == Some(visitor.sessionId)
    {
      activeCallSessionId := Some(visitor.sessionId);
    }

    /** `endCall`: clear the call and send one hangup. */
    method EndCall()
      requires Valid()
      modifies `activeCallSessionId, `outgoing
      ensures Valid() && activeCallSessionId.None? && outgoing == old(outgoing) + [Hangup]
    {
      activeCallSessionId := None;
      outgoing := outgoing + [Hangup];
    }
  }
}
