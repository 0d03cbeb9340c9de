/** backend/app/main.py: the backend's HTTP layer. A per-client
    fixed-window rate limiter (a table updated in place, answering
    429 Too Many Requests as defined in section 4 of RFC 6585), the set of
    allowed CORS origins, and the mapping of the agent's outcome to the
    reply of `POST /agent/run`. Clock readings are integer seconds. */
module BackendMain {
  import opened Wrappers
  import opened Json
  import opened Types
  import Text
  import Seqs
  import Schemas
  import AgentClient

  const Window: int := 60
  const MaxRequests: int := 120
  const UnknownClient: string := "unknown"

  /** `request.client.host if request.client else "unknown"`. */
  function ClientIp(host: Option<string>): string {
    host.GetOr(UnknownClient)
  }

  /** A client's entry after one more request at `now`: a new or expired
      window restarts at `now`, and the count goes up by one. */
  function Advance(entry: Option<(int, int)>, now: int): (e: (int, int))
    ensures entry.None? ==> e == (now, 1)
    ensures entry.Some? && now - entry.value.0 >= Window ==> e == (now, 1)
    ensures entry.Some? && now - entry.value.0 < Window ==> e == (entry.value.0, entry.value.1 + 1)
  {
    var (windowStart, count) := if entry.Some? then entry.value else (now, 0);
    var (windowStart', count') := if now - windowStart >= Window then (now, 0) else (windowStart, count);
    (windowStart', count' + 1)
  }

  /** The decisions for a client's requests at `times`, in order, from its
      entry `entry`: `true` for a request let through. */
  function Replay(entry: Option<(int, int)>, times: seq<int>): (decisions: seq<bool>)
    ensures |decisions| == |times|
    decreases |times|
  {
    if times == [] then []
    else
      var e := Advance(entry, times[0]);
      [e.1 <= MaxRequests] + Replay(Some(e), times[1..])
  }

  function CountAllowed(decisions: seq<bool>): nat {
    if decisions == [] then 0
    else (if decisions[0] then 1 else 0) + CountAllowed(decisions[1..])
  }

  function Min(a: int, b: int): int { if a <= b then a else b }

  /** Inside a window already holding `count` requests, exactly the first
      `120 - count` further requests get through. */
  lemma {:induction false} WindowAllowance(windowStart: int, count: int, times: seq<int>)
    requires 0 <= count
    requires forall i :: 0 <= i < |times| ==> times[i] - windowStart < Window
    ensures CountAllowed(Replay(Some((windowStart, count)), times)) ==
      if count >= MaxRequests then 0 else Min(|times|, MaxRequests - count)
    decreases |times|
  {
    if times != [] {
      WindowAllowance(windowStart, count + 1, times[1..]);
    }
  }

  /** A client's first request opens a window; of all its requests inside
      that window at most 120 get through, and exactly 120 when it sends
      more. */
  lemma AtMost120PerWindow(times: seq<int>)
    requires times != []
    requires forall i :: 0 <= i < |times| ==> times[0] <= times[i] < times[0] + Window
    ensures CountAllowed(Replay(None, times)) == Min(|times|, MaxRequests)
  {
    var rest := times[1..];
    forall i | 0 <= i < |rest| ensures rest[i] - times[0] < Window {
      assert rest[i] == times[i + 1];
    }
    WindowAllowance(times[0], 1, rest);
    var later := Replay(Some((times[0], 1)), rest);
    assert Advance(None, times[0]) == (times[0], 1);
    assert Replay(None, times) == [true] + later;
    assert ([true] + later)[1..] == later;
  }

  /** After a full window of silence the client starts afresh. */
  lemma WindowExpires(entry: (int, int), now: int)
    requires now - entry.0 >= Window
    ensures Advance(Some(entry), now) == Advance(None, now)
  {
  }

  const RateLimitBody: Value := Obj(map["detail" := Str("Rate limit exceeded")])

  /** `_rate_limit_state` and the `rate_limit` middleware. */
  class RateLimiter {
    /** Client address to (window start, requests counted in the window). */
    var state: map<string, (int, int)>

    constructor()
      ensures state == map[]
    {
      state := map[];
    }

    /** One request from `host` at `now`: its entry is advanced and stored
        (a refused request counts too), and the request is refused with 429
        once the count passes 120. Returns the refusal, or `None` when the
        request goes on to its handler. */
    method Check(host: Option<string>, now: int) returns (refusal: Option<(nat, Value)>)
      modifies this
      ensures var ip := ClientIp(host);
        state == old(state)[ip := Advance(if ip in old(state) then Some(old(state)[ip]) else None, now)]
      ensures var ip := ClientIp(host);
        refusal.None? <==> state[ip].1 <= MaxRequests
      ensures refusal.Some? ==> refusal.value == (429, RateLimitBody)
      ensures forall other :: other != ClientIp(host) ==>
        (other in state <==> other in old(state)) && (other in state ==> state[other] == old(state)[other])
    {
      var ip := ClientIp(host);
      var (windowStart, count) := if ip in state then state[ip] else (now, 0);
      if now - windowStart >= Window {
        windowStart, count := now, 0;
      }
      count := count + 1;
      state := state[ip := (windowStart, count)];
      if count > MaxRequests {
        refusal := Some((429, RateLimitBody));
      } else {
        refusal := None;
      }
    }
  }

  /** Two requests through the limiter behave as `Replay` says. */
  method TwoRequests(limiter: RateLimiter, host: Option<string>, t1: int, t2: int)
    returns (first: bool, second: bool)
    modifies limiter
    ensures var ip := ClientIp(host);
      var entry := if ip in old(limiter.state) then Some(old(limiter.state)[ip]) else None;
      [first, second] == Replay(entry, [t1, t2])
  {
    var r1 := limiter.Check(host, t1);
    var r2 := limiter.Check(host, t2);
    first := r1.None?;
    second := r2.None?;
  }

  predicate IsSlash(c: char) {
    c == '/'
  }

  /** `str(origin).rstrip("/")`: every trailing slash goes. */
  function StripSlashes(origin: string): (s: string)
    ensures Seqs.StartsWith(origin, s)
    ensures s == [] || s[|s| - 1] != '/'
    ensures forall i :: |s| <= i < |origin| ==> origin[i] == '/'
  {
    Text.DropTrailingOnlyWhitespace(IsSlash, origin);
    Text.DropTrailing(IsSlash, origin)
  }

  /** The allowed CORS origins. */
  function AllowedOrigins(frontendOrigin: Option<string>): (origins: set<string>)
    ensures "http://localhost:3000" in origins && "http://127.0.0.1:3000" in origins
    ensures frontendOrigin.Some? ==> StripSlashes(frontendOrigin.value) in origins
    ensures forall o :: o in origins ==>
      o == "http://localhost:3000" || o == "http://127.0.0.1:3000" ||
      (frontendOrigin.Some? && o == StripSlashes(frontendOrigin.value))
  {
    (if frontendOrigin.Some? then {StripSlashes(frontendOrigin.value)} else {}) +
    {"http://localhost:3000", "http://127.0.0.1:3000"}
  }

  /** Unlike the browser client, which removes one slash, the backend
      removes them all. */
  lemma OriginLosesAllSlashes()
    ensures StripSlashes("http://app.example//") == "http://app.example"
  {
    var s := "http://app.example//";
    assert s[..18] == "http://app.example";
    assert s[17] != '/';
  }

  /** How `run_agent` ended inside `asyncio.wait_for`. */
  datatype AgentOutcome = Finished(response: Response) | TimedOut | Raised(message: string)

  /** The reply of `POST /agent/run`: a response with status 200, or an
      `HTTPException`. */
  datatype RunReply = Ok200(response: Response) | HttpError(status: nat, detail: string)

  const TimeoutDetail: string := "Agent request timed out"
  const UnexpectedSummary: string := "The agent encountered an unexpected error."

  /** The response for an exception raised by the agent. */
  function CrashResponse(runId: string, createdAt: string, message: string): (r: Response)
    ensures r.status == Error && r.runId == runId && r.sections == [] && r.warnings == Some([message])
    ensures r.confidence == Some(0.0) && r.title == "Agent failed" && r.summary == UnexpectedSummary
  {
    Response(runId, Error, "Agent failed", UnexpectedSummary, [], Some([message]), Some(0.0), createdAt)
  }

  /** `agent_run`: the agent's response keeps its own run id (the endpoint's
      id fills in only an empty one), a timeout is 504, and any exception
      is a 200 reply with an error response. */
  function AgentRun(outcome: AgentOutcome, runId: string, createdAt: string): (reply: RunReply)
    ensures outcome.TimedOut? <==> reply == HttpError(504, TimeoutDetail)
    ensures outcome.Finished? ==>
      reply.Ok200? &&
      reply.response.runId == (if outcome.response.runId != "" then outcome.response.runId else runId) &&
      reply.response.(runId := outcome.response.runId) == outcome.response
    ensures outcome.Raised? ==> reply == Ok200(CrashResponse(runId, createdAt, outcome.message))
  {
    match outcome
    case Finished(r) => Ok200(r.(runId := if r.runId != "" then r.runId else runId))
    case TimedOut => HttpError(504, TimeoutDetail)
    case Raised(message) => Ok200(CrashResponse(runId, createdAt, message))
  }

  /** A crash reaches the browser client as an accepted response, not as
      an error: the client shows it like any output. */
  lemma CrashReachesClient(runId: string, createdAt: string, message: string)
    requires runId != ""
    ensures var reply := AgentRun(Raised(message), runId, createdAt);
      AgentClient.Accepted(AgentClient.Responded(true, 200, Some(Schemas.ResponseToJson(reply.response))))
  {
  }

  /** The crash response passes the backend's own response model. */
  lemma CrashResponseValidates(runId: string, createdAt: string, message: string, isUuid4: string -> bool, parseFloat: string -> Option<real>)
    requires isUuid4(runId)
    ensures var r := CrashResponse(runId, createdAt, message);
      Schemas.ValidateResponse(Schemas.ResponseToJson(r), isUuid4, parseFloat) == Some(r)
  {
    Schemas.ResponseRoundTrip(CrashResponse(runId, createdAt, message), isUuid4, parseFloat);
  }
}
