/** Room identifiers of the form `<domainId>__<sessionId>`: how the backend builds
    them (`handleInitiateCall`) and how the backend and the Android service take
    them apart again (`split('__')` in JavaScript, `split("__")` in Kotlin; both
    scan left to right for non-overlapping occurrences and keep empty parts). */
module RoomIds {
  import opened Options

  /** There is a separator "__" starting at index `i` of `s`. */
  predicate SepAt(s: string, i: int) {
    0 <= i && i + 1 < |s| && s[i] == '_' && s[i + 1] == '_'
  }

  /** `s` contains the separator "__" somewhere. */
  predicate HasSep(s: string) {
    exists i | 0 <= i < |s| :: SepAt(s, i)
  }

  /** Index of the first separator in `s`, if there is one. */
  function FirstSep(s: string): (r: Option<nat>)
    ensures r.None? <==> !HasSep(s)
    ensures r.Some? ==> SepAt(s, r.value) && forall j :: 0 <= j < r.value ==> !SepAt(s, j)
  {
    if |s| < 2 then None
    else if s[0] == '_' && s[1] == '_' then
      assert SepAt(s, 0);
      Some(0)
    else
      match FirstSep(s[1..])
      case None =>
        assert forall j :: SepAt(s, j) ==> j == 0 || SepAt(s[1..], j - 1);
        None
      case Some(k) =>
        assert SepAt(s[1..], k) ==> SepAt(s, k + 1);
        assert forall j :: 1 <= j < k + 1 ==> (SepAt(s, j) ==> SepAt(s[1..], j - 1));
        Some(k + 1)
  }

  /** The parts of `s` between separators, as JavaScript's `s.split('__')` and
      Kotlin's `s.split("__")` return them: always at least one part, and one
      more part than there are (non-overlapping, leftmost-first) separators. */
  function Split(s: string): (parts: seq<string>)
    decreases |s|
    ensures |parts| >= 1
    ensures |parts| >= 2 <==> HasSep(s)
    ensures forall k :: 0 <= k < |parts| ==> !HasSep(parts[k])
  {
    match FirstSep(s)
    case None => [s]
    case Some(i) =>
      var head := s[..i];
      assert !HasSep(head) by {
        forall j | SepAt(head, j) ensures false {
          assert SepAt(s, j);
        }
      }
      [head] + Split(s[i + 2..])
  }

  /** The domain part the backend checks: `requestedRoomId.split('__')[0]`. */
  function TargetDomain(roomId: string): (domain: string)
    ensures HasSep(roomId) ==> domain == roomId[..FirstSep(roomId).value]
    ensures !HasSep(roomId) ==> domain == roomId
    ensures |domain| <= |roomId| && domain == roomId[..|domain|]
  {
    Split(roomId)[0]
  }

  /** The room id built by `handleInitiateCall`: `${domain_id}__${uuid}`. */
  function BuildRoomId(domainId: string, sessionId: string): string {
    domainId + "__" + sessionId
  }

  /** A domain id that survives the round trip through `BuildRoomId` and
      `TargetDomain`: it holds no separator and does not end in '_'. */
  predicate RoundTrips(domainId: string) {
    !HasSep(domainId) && (domainId == [] || domainId[|domainId| - 1] != '_')
  }

  /** Building a room id and parsing it back gives the domain id again, and the
      id passes the backend's format check. */
  lemma {:induction false} BuildThenParse(domainId: string, sessionId: string)
    requires RoundTrips(domainId)
    ensures HasSep(BuildRoomId(domainId, sessionId))
    ensures FirstSep(BuildRoomId(domainId, sessionId)) == Some(|domainId|)
    ensures TargetDomain(BuildRoomId(domainId, sessionId)) == domainId
  {
    var s := BuildRoomId(domainId, sessionId);
    var n := |domainId|;
    assert SepAt(s, n);
    forall j | 0 <= j < n ensures !SepAt(s, j) {
      if j < n - 1 {
        if SepAt(s, j) { assert SepAt(domainId, j); }
      } else {
        assert s[j] == domainId[n - 1];
      }
    }
    assert s[..n] == domainId;
  }

  /** A trailing '_' on the domain id breaks the round trip: "a_" comes back as "a". */
  lemma TrailingUnderscoreBreaksRoundTrip()
    ensures TargetDomain(BuildRoomId("a_", "x")) == "a"
  {
    var s := BuildRoomId("a_", "x");
    assert s == "a___x";
    assert SepAt(s, 1) && !SepAt(s, 0);
    assert FirstSep(s) == Some(1);
  }

  /** The backend's format check only asks for a separator, so ids with an empty
      half pass it: "a__" checks domain "a", "__b" checks the empty domain. */
  lemma EmptyHalvesPassFormatCheck()
    ensures HasSep("a__") && TargetDomain("a__") == "a"
    ensures HasSep("__b") && TargetDomain("__b") == ""
  {
    assert SepAt("a__", 1) && !SepAt("a__", 0);
    assert FirstSep("a__") == Some(1);
    assert SepAt("__b", 0);
  }
}
