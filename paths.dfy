/** URL path segments as the worker computes them:
    `url.pathname.split("/").filter((p) => p)` — the non-empty pieces between slashes. */
module Paths {

  /** Length of the leading run of characters of `p` that are not '/'. */
  function SegmentLength(p: string): (n: nat)
    ensures n <= |p|
    ensures forall k :: 0 <= k < n ==> p[k] != '/'
    ensures n < |p| ==> p[n] == '/'
  {
    if p == [] || p[0] == '/' then 0 else 1 + SegmentLength(p[1..])
  }

  /** The non-empty, slash-free pieces of `p`, in order. */
  function Segments(p: string): (segs: seq<string>)
    decreases |p|
    ensures forall k :: 0 <= k < |segs| ==> segs[k] != [] && '/' !in segs[k]
  {
    if p == [] then []
    else if p[0] == '/' then Segments(p[1..])
    else
      var n := SegmentLength(p);
      [p[..n]] + Segments(p[n..])
  }

  /** A piece that can stand as one path segment. */
  predicate IsSegment(x: string) {
    x != [] && '/' !in x
  }

  /** The absolute path "/x0/x1/..." made of the given pieces. */
  function JoinPath(xs: seq<string>): string {
    if xs == [] then "" else "/" + xs[0] + JoinPath(xs[1..])
  }

  /** Splitting a joined path gives back its pieces. */
  lemma {:induction false} SegmentsOfJoinPath(xs: seq<string>)
    requires forall k :: 0 <= k < |xs| ==> IsSegment(xs[k])
    ensures Segments(JoinPath(xs)) == xs
  {
    if xs != [] {
      var rest := JoinPath(xs[1..]);
      var p := "/" + xs[0] + rest;
      assert p[1..] == xs[0] + rest;
      assert rest == [] || rest[0] == '/';
      SegmentLengthOfPrefix(xs[0], rest);
      assert (xs[0] + rest)[..|xs[0]|] == xs[0];
      assert (xs[0] + rest)[|xs[0]|..] == rest;
      SegmentsOfJoinPath(xs[1..]);
    }
  }

  lemma {:induction false} SegmentLengthOfPrefix(x: string, rest: string)
    requires '/' !in x
    requires rest == [] || rest[0] == '/'
    ensures SegmentLength(x + rest) == |x|
  {
    if x != [] {
      assert (x + rest)[1..] == x[1..] + rest;
      SegmentLengthOfPrefix(x[1..], rest);
    }
  }
}
