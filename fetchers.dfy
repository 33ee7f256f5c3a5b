/** The per-platform fetch helpers, the `switch` that picks one of them, and
    the update each kind of result turns into. The network is an input: what
    the LeetCode endpoint answers is a `LeetCodeReply`, and whether the awaited
    helper call rejected is part of an `Attempt`. */
module Fetchers {
  import opened Registry

  /** What reading the body comes to. `Malformed` covers every body whose
      reading throws: one that is not JSON, and the JSON `null`, on which
      `data.totalSolved` throws. `Json` is any other JSON value, with its
      `totalSolved` field when that is an integer. */
  datatype Body = Malformed | Json(totalSolved: Option<int>)

  /** What the LeetCode statistics endpoint does with the request. */
  datatype LeetCodeReply = NetworkFailure | Response(ok: bool, body: Body)

  /** What awaiting the chosen helper does for one entry: it rejects, or it
      settles, having been answered `reply` if it asked the LeetCode endpoint.
      Every helper catches its own failures and answers `null`, so none of
      them rejects as written: `Threw` exists only to reach the loop's own
      `catch` branch. */
  datatype Attempt = Threw | Completed(reply: LeetCodeReply)

  /** A settled call of a helper that asks no endpoint: the CodeChef and
      GeeksforGeeks stubs ignore the reply, so any reply will do. */
  const StubSettled: Attempt := Completed(NetworkFailure)

  /** The value of `data` after the `switch`, or the exception that left it. */
  datatype Outcome = Got(solved: int) | Null | Thrown

  const FailedMessage: string := "Failed to fetch data"
  const ThrownMessage: string := "Error fetching data"

  /** `fetchLeetCodeData`: every failure inside it (no response, a non-ok
      status, a body that is not JSON or is the JSON `null`) is caught and
      becomes `null`. Data comes only from an ok response whose body parses
      to a value other than `null`, and the count is `totalSolved || 0`. */
  function LeetCodeData(reply: LeetCodeReply): (r: Option<int>)
    ensures r.Some? <==> reply.Response? && reply.ok && reply.body.Json?
    ensures r.Some? && reply.body.totalSolved.Some? ==> r.value == reply.body.totalSolved.value
    ensures r.Some? && reply.body.totalSolved.None? ==> r.value == 0
  {
    match reply
    case NetworkFailure => None
    case Response(ok, body) =>
      if !ok then None
      else match body
        case Malformed => None
        case Json(total) =>
          Some(if total.Some? && total.value != 0 then total.value else 0)
  }

  /** `fetchCodeChefData`: a stub that always answers 150. */
  function CodeChefData(): (r: Option<int>)
    ensures r.Some? && r.value == 150
  {
    Some(150)
  }

  /** `fetchGFGData`: a stub that always answers 200. */
  function GfgData(): (r: Option<int>)
    ensures r.Some? && r.value == 200
  {
    Some(200)
  }

  predicate Known(platform: string)
  {
    platform == "LeetCode" || platform == "CodeChef" || platform == "GeeksforGeeks"
  }

  function Settle(data: Option<int>): Outcome
  {
    if data.Some? then Got(data.value) else Null
  }

  /** The `switch (profile.platform)` of the loop body: a known platform
      awaits its helper, any other leaves `data` at `null`. */
  function Dispatch(platform: string, attempt: Attempt): (o: Outcome)
    ensures !Known(platform) ==> o == Null
    ensures o.Thrown? <==> Known(platform) && attempt.Threw?
    ensures platform == "CodeChef" && attempt.Completed? ==> o == Got(150)
    ensures platform == "GeeksforGeeks" && attempt.Completed? ==> o == Got(200)
    ensures platform == "LeetCode" && attempt.Completed? ==>
              (o.Got? <==> attempt.reply.Response? && attempt.reply.ok && attempt.reply.body.Json?)
    ensures platform == "LeetCode" && attempt.Completed? ==> o == Settle(LeetCodeData(attempt.reply))
  {
    if platform == "LeetCode" then
      if attempt.Threw? then Thrown else Settle(LeetCodeData(attempt.reply))
    else if platform == "CodeChef" then
      if attempt.Threw? then Thrown else Settle(CodeChefData())
    else if platform == "GeeksforGeeks" then
      if attempt.Threw? then Thrown else Settle(GfgData())
    else
      Null
  }

  /** The update the loop body applies to the visited entry: the count and
      `loading: false` on data, `loading: false` and a message otherwise. */
  function PatchFor(o: Outcome): (u: Patch)
    ensures u.loading == Some(false)
    ensures u.platform.None? && u.username.None? && u.logo.None? && u.rating.None?
    ensures u.maxSolved.None? && u.link.None?
    ensures o.Got? ==> u.solved == Some(o.solved) && u.error.None?
    ensures o.Null? ==> u.solved.None? && u.error == Some(Some(FailedMessage))
    ensures o.Thrown? ==> u.solved.None? && u.error == Some(Some(ThrownMessage))
  {
    match o
    case Got(n) => NoUpdates.(solved := Some(n), loading := Some(false))
    case Null => NoUpdates.(loading := Some(false), error := Some(Some(FailedMessage)))
    case Thrown => NoUpdates.(loading := Some(false), error := Some(Some(ThrownMessage)))
  }
}
