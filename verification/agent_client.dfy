/** lib/api/agent.ts: the browser-side client. It routes a run either to the
    simulated agent or to the HTTP endpoint, combines the caller's abort
    signal with a 30 second timeout, and turns every way the call can end
    into a response or a typed `AgentApiError`. The network is a parameter:
    `FetchOutcome` is what `fetch` and `response.json()` produced. */
module AgentClient {
  import opened Wrappers
  import opened Json
  import opened Types
  import MockAgent

  const DefaultTimeoutMs: nat := 30000

  /** `NEXT_PUBLIC_API_BASE_URL` with one trailing slash removed
      (`replace(/\/$/, "")`). */
  function ApiBase(raw: string): (base: string)
    ensures raw == base || raw == base + "/"
    ensures |base| > 0 ==> base[|base| - 1] != '/' || raw == base + "/"
  {
    if |raw| > 0 && raw[|raw| - 1] == '/' then raw[..|raw| - 1] else raw
  }

  /** Removing the trailing slash undoes appending one. */
  lemma ApiBaseUndoesSlash(base: string)
    ensures ApiBase(base + "/") == base
  {
    assert (base + "/")[..|base|] == base;
  }

  /** Only one slash goes: a base ending in two keeps the second. */
  lemma ApiBaseKeepsSecondSlash()
    ensures ApiBase("http://localhost:8000//") == "http://localhost:8000/"
  {
    ApiBaseUndoesSlash("http://localhost:8000/");
  }

  const RelativeEndpoint: string := "/api/agent/run"
  const AgentRunPath: string := "/agent/run"

  /** The URL posted to: the configured base plus `/agent/run`, or the
      same-origin proxy route when the base is unset or only a slash. */
  function Endpoint(rawBase: string): (url: string)
    ensures ApiBase(rawBase) == "" ==> url == RelativeEndpoint
    ensures ApiBase(rawBase) != "" ==> url == ApiBase(rawBase) + AgentRunPath
  {
    if ApiBase(rawBase) != "" then ApiBase(rawBase) + AgentRunPath else RelativeEndpoint
  }

  /** Every endpoint ends with `/agent/run`, and a configured base is
      always used verbatim apart from one trailing slash. */
  lemma EndpointShape(rawBase: string)
    ensures |Endpoint(rawBase)| >= |AgentRunPath|
    ensures Endpoint(rawBase)[|Endpoint(rawBase)| - |AgentRunPath|..] == AgentRunPath
    ensures rawBase == "" || rawBase == "/" ==> Endpoint(rawBase) == RelativeEndpoint
    ensures rawBase != "" && rawBase != "/" ==> Endpoint(rawBase)[..|ApiBase(rawBase)|] == ApiBase(rawBase)
  {
    if ApiBase(rawBase) == "" {
      assert RelativeEndpoint == "/api" + AgentRunPath;
    }
  }

  /** An abort signal, by the time it fires (`None`: never). Signals never
      reset. */
  datatype AbortSignal = AbortSignal(abortAt: Option<nat>)

  predicate Aborted(s: AbortSignal, t: nat) {
    s.abortAt.Some? && s.abortAt.value <= t
  }

  /** `combineAbortSignals`, created at time `now`: the combined signal
      fires, from `now` on, exactly when one of its inputs has fired. */
  method CombineAbortSignals(signals: seq<AbortSignal>, now: nat) returns (combined: AbortSignal)
    ensures combined.abortAt.Some? ==> combined.abortAt.value >= now
    ensures forall t: nat :: t >= now ==>
      (Aborted(combined, t) <==> exists i :: 0 <= i < |signals| && Aborted(signals[i], t))
  {
    var listening := AbortSignal(None);
    for k := 0 to |signals|
      invariant listening.abortAt.Some? ==> listening.abortAt.value > now
      invariant forall t: nat :: t >= now ==>
        (Aborted(listening, t) <==> exists i :: 0 <= i < k && Aborted(signals[i], t))
    {
      if Aborted(signals[k], now) {
        // Already aborted: the combined signal aborts at once.
        combined := AbortSignal(Some(now));
        assert forall t: nat :: t >= now ==> Aborted(signals[k], t);
        return;
      }
      // Otherwise a listener aborts the combined signal when this one fires.
      var at := signals[k].abortAt;
      var next := if at.Some? && (listening.abortAt.None? || at.value < listening.abortAt.value)
        then AbortSignal(at) else listening;
      assert forall t: nat :: Aborted(next, t) <==> Aborted(listening, t) || Aborted(signals[k], t);
      listening := next;
    }
    combined := listening;
  }

  /** `AgentApiError`. */
  datatype ApiError = ApiError(message: string, code: string, statusCode: Option<nat>)

  /** Something thrown: an `Error` with its `name` and `message`, or any
      other value. */
  datatype Thrown = ThrownError(name: string, message: string) | ThrownValue

  /** How `fetch` ended: a response (`body` is `None` when `response.json()`
      rejects), or a rejection. */
  datatype FetchOutcome =
    | Responded(ok: bool, status: nat, body: Option<Value>)
    | Rejected(thrown: Thrown)

  const DefaultErrorMessage: string := "An error occurred while running the agent"
  const DefaultErrorCode: string := "API_ERROR"
  const ParseErrorMessage: string := "Failed to parse response from agent"
  const InvalidResponseMessage: string := "Invalid response format from agent"
  const CancelledMessage: string := "Agent run was cancelled"
  const TimeoutMessage: string := "Request timed out. Please try again."
  const UnexpectedMessage: string := "An unexpected error occurred"

  /** The message of a network failure, naming the configured base. */
  function NetworkMessage(rawBase: string): string {
    "Failed to reach agent backend. Check that NEXT_PUBLIC_API_BASE_URL (" +
    (if rawBase == "" then "unset" else rawBase) +
    ") is correct, the backend is running, and CORS allows this origin."
  }

  /** `errorData[key] || fallback`, for a string field of the error body;
      reading a field of `null` throws and is swallowed, leaving the
      fallback. */
  function ErrorField(body: Option<Value>, key: string, fallback: string): (s: string)
    ensures s == fallback || (body.Some? && Get(body.value, key) == Some(Str(s)) && s != "")
    ensures (body.Some? && Get(body.value, key).Some? && Get(body.value, key).value.Str? &&
      Get(body.value, key).value.s != "") ==> s == Get(body.value, key).value.s
  {
    if body.Some? && Get(body.value, key).Some? && Get(body.value, key).value.Str? &&
      Get(body.value, key).value.s != ""
    then Get(body.value, key).value.s
    else fallback
  }

  /** The error for a non-ok response, keeping the HTTP status. */
  function HttpError(status: nat, body: Option<Value>): (e: ApiError)
    ensures e.statusCode == Some(status)
    ensures body.None? ==> e.message == DefaultErrorMessage && e.code == DefaultErrorCode
  {
    ApiError(ErrorField(body, "message", DefaultErrorMessage),
      ErrorField(body, "code", DefaultErrorCode), Some(status))
  }

  /** What `callAgentApi` settles to, AS WRITTEN: reading `data.runId` of a
      `null` body throws a `TypeError`, which the handler then reports as a
      network failure. `externalAborted` is `externalSignal?.aborted` when the
      handler runs. */
  function SettleAsWritten(outcome: FetchOutcome, externalAborted: bool, rawBase: string): Result<Value, ApiError> {
    match outcome
    case Rejected(ThrownError(name, message)) =>
      if name == "AbortError" then
        Err(ApiError(if externalAborted then CancelledMessage else TimeoutMessage,
          if externalAborted then "CANCELLED" else "TIMEOUT", None))
      else if name == "TypeError" then Err(ApiError(NetworkMessage(rawBase), "NETWORK_ERROR", None))
      else Err(ApiError(message, "UNKNOWN_ERROR", None))
    case Rejected(ThrownValue) => Err(ApiError(UnexpectedMessage, "UNKNOWN_ERROR", None))
    case Responded(ok, status, body) =>
      if !ok then Err(HttpError(status, body))
      else if body.None? then Err(ApiError(ParseErrorMessage, "PARSE_ERROR", None))
      else if body.value.Null? then Err(ApiError(NetworkMessage(rawBase), "NETWORK_ERROR", None))
      else if !TruthyField(Get(body.value, "runId")) || !TruthyField(Get(body.value, "status")) then
        Err(ApiError(InvalidResponseMessage, "INVALID_RESPONSE", None))
      else Ok(body.value)
  }

  /** A `null` body on a successful response is reported as an unreachable
      backend, with the network message, although the request arrived. */
  lemma NullBodyReportedAsNetworkError(rawBase: string)
    ensures SettleAsWritten(Responded(true, 200, Some(Null)), false, rawBase)
      == Err(ApiError(NetworkMessage(rawBase), "NETWORK_ERROR", None))
  {
  }

  predicate IsAbort(outcome: FetchOutcome) {
    outcome.Rejected? && outcome.thrown.ThrownError? && outcome.thrown.name == "AbortError"
  }

  predicate IsNetworkFailure(outcome: FetchOutcome) {
    outcome.Rejected? && outcome.thrown.ThrownError? && outcome.thrown.name == "TypeError"
  }

  /** A successful response whose body has a truthy `runId` and `status`. */
  predicate Accepted(outcome: FetchOutcome) {
    outcome.Responded? && outcome.ok && outcome.body.Some? &&
    TruthyField(Get(outcome.body.value, "runId")) && TruthyField(Get(outcome.body.value, "status"))
  }

  /** What `callAgentApi` settles to, with a `null` body reported as an
      invalid response like every other body without `runId`. */
  function Settle(outcome: FetchOutcome, externalAborted: bool, rawBase: string): (r: Result<Value, ApiError>)
    ensures r.Ok? <==> Accepted(outcome)
    ensures r.Ok? ==> r.value == outcome.body.value
    ensures r.Err? ==> (r.error.statusCode.Some? <==> outcome.Responded? && !outcome.ok)
    ensures r.Err? && r.error.statusCode.Some? ==> r.error.statusCode.value == outcome.status
    ensures r.Err? && r.error.code == "CANCELLED" && r.error.statusCode.None? <==> IsAbort(outcome) && externalAborted
    ensures r.Err? && r.error.code == "TIMEOUT" && r.error.statusCode.None? <==> IsAbort(outcome) && !externalAborted
    ensures r.Err? && r.error.code == "NETWORK_ERROR" && r.error.statusCode.None? <==> IsNetworkFailure(outcome)
    ensures r.Err? && r.error.code == "PARSE_ERROR" && r.error.statusCode.None? <==>
      outcome.Responded? && outcome.ok && outcome.body.None?
    ensures r.Err? && r.error.code == "INVALID_RESPONSE" && r.error.statusCode.None? <==>
      outcome.Responded? && outcome.ok && outcome.body.Some? && !Accepted(outcome)
    ensures outcome.Responded? && !outcome.ok ==> r == Err(HttpError(outcome.status, outcome.body))
    ensures outcome.Rejected? && outcome.thrown.ThrownError? && !IsAbort(outcome) && !IsNetworkFailure(outcome) ==>
      r == Err(ApiError(outcome.thrown.message, "UNKNOWN_ERROR", None))
    ensures outcome.Rejected? && outcome.thrown.ThrownValue? ==>
      r == Err(ApiError(UnexpectedMessage, "UNKNOWN_ERROR", None))
  {
    if outcome.Responded? && outcome.ok && outcome.body == Some(Null) then
      Err(ApiError(InvalidResponseMessage, "INVALID_RESPONSE", None))
    else SettleAsWritten(outcome, externalAborted, rawBase)
  }

  /** The two differ only on the `null` body. */
  lemma SettleDiffersOnlyOnNull(outcome: FetchOutcome, externalAborted: bool, rawBase: string)
    requires !(outcome.Responded? && outcome.ok && outcome.body == Some(Null))
    ensures Settle(outcome, externalAborted, rawBase) == SettleAsWritten(outcome, externalAborted, rawBase)
  {
  }

  /** `callAgentApi`, started at time `start`, with the network's answer
      `outcome` arriving (or the handler running) at `settledAt`. Returns the
      URL and body posted, the signal given to `fetch`, and the result. The
      timer is cleared once `fetch` settles, so the timeout fires only when
      the answer has not come within 30 seconds. The result is the corrected
      classification `Settle`; it is the code's own `SettleAsWritten` on
      every outcome but a `null` body on a successful response. */
  method CallAgentApi(request: Request, rawBase: string, external: Option<AbortSignal>,
    start: nat, outcome: FetchOutcome, settledAt: nat)
    returns (endpoint: string, body: Value, signal: AbortSignal, result: Result<Value, ApiError>)
    ensures endpoint == Endpoint(rawBase) && body == RequestToJson(request)
    ensures forall t: nat :: t >= start ==>
      (Aborted(signal, t) <==>
        (settledAt >= start + DefaultTimeoutMs && t >= start + DefaultTimeoutMs) ||
        (external.Some? && Aborted(external.value, t)))
    ensures result == Settle(outcome, external.Some? && Aborted(external.value, settledAt), rawBase)
    ensures !(outcome.Responded? && outcome.ok && outcome.body == Some(Null)) ==>
      result == SettleAsWritten(outcome, external.Some? && Aborted(external.value, settledAt), rawBase)
  {
    // `clearTimeout` runs when `fetch` settles: before 30 s the timer never fires.
    var timeout := AbortSignal(if settledAt >= start + DefaultTimeoutMs then Some(start + DefaultTimeoutMs) else None);
    assert forall t: nat :: Aborted(timeout, t) <==>
      settledAt >= start + DefaultTimeoutMs && t >= start + DefaultTimeoutMs;
    if external.Some? {
      var signals := [external.value, timeout];
      signal := CombineAbortSignals(signals, start);
      forall t: nat | t >= start
        ensures Aborted(signal, t) <==> Aborted(external.value, t) || Aborted(timeout, t)
      {
        assert signals[0] == external.value && signals[1] == timeout;
      }
    } else {
      signal := timeout;
    }
    endpoint := Endpoint(rawBase);
    body := RequestToJson(request);
    result := Settle(outcome, external.Some? && Aborted(external.value, settledAt), rawBase);
    if !(outcome.Responded? && outcome.ok && outcome.body == Some(Null)) {
      SettleDiffersOnlyOnNull(outcome, external.Some? && Aborted(external.value, settledAt), rawBase);
    }
  }

  /** Build-time configuration: `NEXT_PUBLIC_USE_MOCK_AGENT === "true"` and
      the raw `NEXT_PUBLIC_API_BASE_URL` (`""` when unset). */
  datatype Config = Config(useMock: bool, rawApiBase: string)

  function ConfigFrom(useMockVar: Option<string>, apiBaseVar: Option<string>): (c: Config)
    ensures c.useMock <==> useMockVar == Some("true")
    ensures c.rawApiBase == "" <==> apiBaseVar.None? || apiBaseVar == Some("")
  {
    Config(useMockVar == Some("true"), apiBaseVar.GetOr(""))
  }

  /** A run as `runAgent` performs it: simulated, with its progress events,
      or posted to the endpoint. */
  datatype Run =
    | Simulated(events: seq<RunStatus>, simulated: Result<Response, string>)
    | Posted(endpoint: string, body: Value, signal: AbortSignal, posted: Result<Value, ApiError>)

  /** `runAgent`. The simulated path sees the caller's signal through
      `mockAbortAt`, the checkpoint at which it is first seen aborted; with
      no signal it is never aborted. The posted path settles as
      `CallAgentApi` does. */
  method RunAgent(config: Config, request: Request, external: Option<AbortSignal>, start: nat,
    mockAbortAt: Option<nat>, mockFault: bool, mockRunId: string, mockJitter: real, mockCreatedAt: string,
    outcome: FetchOutcome, settledAt: nat)
    returns (run: Run)
    requires 0.0 <= mockJitter < 1.0
    ensures run.Simulated? <==> config.useMock
    ensures run.Simulated? ==> MockAgent.OrderedRun(run.events)
    ensures run.Simulated? && external.None? ==>
      run.simulated == Ok(MockAgent.BuildResponse(request, mockRunId, mockJitter, mockCreatedAt)) ||
      run.simulated == Err(MockAgent.FaultMessage)
    ensures run.Simulated? && external.Some? && MockAgent.AbortedAt(mockAbortAt, |MockAgent.Steps| - 1) ==>
      run.events == MockAgent.ProgressEvents(mockAbortAt.value) && run.simulated == Err(MockAgent.CancelledMessage)
    ensures run.Simulated? && !(external.Some? && MockAgent.AbortedAt(mockAbortAt, |MockAgent.Steps| - 1)) ==>
      if mockFault then
        run.events == MockAgent.ProgressEvents(|MockAgent.Steps| - 1) + [MockAgent.ErrorEvent] &&
        run.simulated == Err(MockAgent.FaultMessage)
      else
        run.events == MockAgent.ProgressEvents(|MockAgent.Steps| - 1) + [MockAgent.CompleteEvent] &&
        run.simulated == Ok(MockAgent.BuildResponse(request, mockRunId, mockJitter, mockCreatedAt))
    ensures run.Posted? ==> run.endpoint == Endpoint(config.rawApiBase) && run.body == RequestToJson(request)
    ensures run.Posted? ==> forall t: nat :: t >= start ==>
      (Aborted(run.signal, t) <==>
        (settledAt >= start + DefaultTimeoutMs && t >= start + DefaultTimeoutMs) ||
        (external.Some? && Aborted(external.value, t)))
    ensures run.Posted? ==>
      run.posted == Settle(outcome, external.Some? && Aborted(external.value, settledAt), config.rawApiBase)
    ensures run.Posted? && !(outcome.Responded? && outcome.ok && outcome.body == Some(Null)) ==>
      run.posted == SettleAsWritten(outcome, external.Some? && Aborted(external.value, settledAt), config.rawApiBase)
  {
    if config.useMock {
      var abortAt := if external.Some? then mockAbortAt else None;
      var events, result := MockAgent.SimulateMockAgentRun(request, abortAt, mockFault,
        mockRunId, mockJitter, mockCreatedAt);
      run := Simulated(events, result);
    } else {
      var endpoint, body, signal, result := CallAgentApi(request, config.rawApiBase, external,
        start, outcome, settledAt);
      run := Posted(endpoint, body, signal, result);
    }
  }
}
