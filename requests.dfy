/** How the stream service sorts the first read from a client
    (StreamService.kt, handleClient): video paths stream, `GET /ping` and
    `PUT /v1/tally/` get a fixed HTTP reply, anything else gets nothing. */
module Requests {
  import opened Kotlin

  /** pat occurs in s starting at index i. */
  ghost predicate OccursAt(s: string, pat: string, i: int)
  {
    0 <= i && i + |pat| <= |s| && s[i..i + |pat|] == pat
  }

  /** Kotlin's `s.contains(pat)`: pat occurs somewhere in s. */
  function Contains(s: string, pat: string): (r: bool)
    ensures r <==> exists i :: OccursAt(s, pat, i)
    decreases |s|
  {
    if pat <= s then
      assert OccursAt(s, pat, 0);
      true
    else if |s| <= |pat| then
      false
    else
      var r := Contains(s[1..], pat);
      assert forall i | OccursAt(s[1..], pat, i) :: OccursAt(s, pat, i + 1);
      assert forall i | OccursAt(s, pat, i) && i > 0 :: OccursAt(s[1..], pat, i - 1);
      r
  }

  /** Kotlin's `s.startsWith(prefix)`. */
  predicate StartsWith(s: string, prefix: string)
  {
    prefix <= s
  }

  const VideoPaths: seq<string> := ["/v5/video/", "/v2/video/", "/v1/video/"]
  const PingPrefix: string := "GET /ping"
  const TallyPath: string := "PUT /v1/tally/"

  const PingReply: string := "HTTP/1.1 200 OK\r\n\r\n"
  const TallyReply: string := "HTTP/1.1 200 OK\r\nContent-Length: 0\r\n\r\n"

  datatype RequestKind = Video | Ping | Tally | Unrecognised

  /** The request text: what the first read returned, or "" when it returned
      nothing, end of stream or failed (read <= 0). */
  function RequestText(read: Option<string>): string
  {
    match read
    case Some(text) => text
    case None => ""
  }

  ghost predicate AsksForVideo(req: string)
  {
    exists k, i :: 0 <= k < |VideoPaths| && OccursAt(req, VideoPaths[k], i)
  }

  /** The if / else-if chain of handleClient, in its order. */
  function Classify(req: string): (kind: RequestKind)
    ensures kind == Video <==> AsksForVideo(req)
    ensures kind == Ping <==> !AsksForVideo(req) && StartsWith(req, PingPrefix)
    ensures kind == Tally <==>
              !AsksForVideo(req) && !StartsWith(req, PingPrefix) && exists i :: OccursAt(req, TallyPath, i)
  {
    if Contains(req, VideoPaths[0]) || Contains(req, VideoPaths[1]) || Contains(req, VideoPaths[2]) then Video
    else if StartsWith(req, PingPrefix) then Ping
    else if Contains(req, TallyPath) then Tally
    else Unrecognised
  }

  /** The bytes written back for a request that does not stream. */
  function Reply(kind: RequestKind): (r: seq<byte>)
    requires kind != Video
    ensures kind == Ping ==> r == AsciiBytes(PingReply)
    ensures kind == Tally ==> r == AsciiBytes(TallyReply)
    ensures kind == Unrecognised ==> r == []
  {
    match kind
    case Ping => AsciiBytes(PingReply)
    case Tally => AsciiBytes(TallyReply)
    case Unrecognised => []
  }

  /** An empty read (or one that failed) is answered with nothing. */
  lemma EmptyReadGetsNothing()
    ensures Classify(RequestText(None)) == Unrecognised
    ensures Reply(Classify(RequestText(None))) == []
  {
    assert !AsksForVideo("");
  }

  /** The video check comes first: a ping request naming a video path streams. */
  lemma VideoBeatsPing(rest: string)
    ensures Classify(PingPrefix + "/v1/video/" + rest) == Video
  {
    var req := PingPrefix + "/v1/video/" + rest;
    assert OccursAt(req, VideoPaths[2], |PingPrefix|);
  }
}
