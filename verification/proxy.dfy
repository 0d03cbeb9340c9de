/** app/api/agent/run/route.ts: the same-origin proxy route. It parses and
    validates the request body, refuses to forward without a configured
    backend, and otherwise relays the backend's status and JSON body. The
    forwarded call is a parameter: `Upstream` is what the backend answered. */
module Proxy {
  import opened Wrappers
  import opened Json
  import Types
  import Text
  import Schemas

  /** `validFormats.includes(x)` / `validTones.includes(x)` for a property. */
  predicate IsLiteralField(v: Option<Value>, literals: seq<string>) {
    v.Some? && v.value.Str? && v.value.s in literals
  }

  /** `validateRequest`: an object with a goal that is not blank after
      `trim()`, a known format and tone, a context that is absent or a string,
      and constraints that are absent or an array of strings. */
  predicate ValidRequest(body: Value) {
    body.Obj? &&
    IsStrField(Get(body, "goal")) && Text.JsTrim(Get(body, "goal").value.s) != "" &&
    IsLiteralField(Get(body, "outputFormat"), Schemas.FormatLiterals) &&
    IsLiteralField(Get(body, "tone"), Schemas.ToneLiterals) &&
    (Get(body, "context").None? || IsStrField(Get(body, "context"))) &&
    (Get(body, "constraints").None? ||
      (Get(body, "constraints").value.Arr? && AllStrings(Get(body, "constraints").value.items)))
  }

  /** Every body the proxy lets through is accepted by the backend's
      `AgentRunRequest` model. */
  lemma ProxyValidImpliesBackendValid(body: Value)
    requires ValidRequest(body)
    ensures Schemas.ValidateRequest(body).Ok?
  {
  }

  /** A goal of one space passes the backend's model but not the proxy. */
  lemma BlankGoalAcceptedByBackendOnly()
    ensures var blank := Types.RequestToJson(Types.Request(" ", None, Types.Plan, Types.Friendly, None));
      Schemas.ValidateRequest(blank).Ok? && !ValidRequest(blank)
  {
    var req := Types.Request(" ", None, Types.Plan, Types.Friendly, None);
    Schemas.ValidateRequestRoundTrip(req);
    Text.StripEmptyIff(Text.IsJsWhitespace, " ");
    ClientRequestValid(req);
  }

  /** A `null` context passes the backend's model but not the proxy. */
  lemma NullContextAcceptedByBackendOnly()
    ensures var nullContext := Obj(map["goal" := Str("g"), "outputFormat" := Str("plan"),
        "tone" := Str("strict"), "context" := Null]);
      Schemas.ValidateRequest(nullContext).Ok? && !ValidRequest(nullContext)
  {
    var nullContext := Obj(map["goal" := Str("g"), "outputFormat" := Str("plan"),
        "tone" := Str("strict"), "context" := Null]);
    assert Get(nullContext, "goal") == Some(Str("g"));
    assert Get(nullContext, "outputFormat") == Some(Str("plan"));
    assert Get(nullContext, "tone") == Some(Str("strict"));
    assert Get(nullContext, "context") == Some(Null);
    assert Get(nullContext, "constraints") == None;
  }

  /** The backend accepts more: a blank goal and a `null` context pass its
      model but not the proxy. */
  lemma BackendAcceptsMore()
    ensures var blank := Types.RequestToJson(Types.Request(" ", None, Types.Plan, Types.Friendly, None));
      Schemas.ValidateRequest(blank).Ok? && !ValidRequest(blank)
    ensures var nullContext := Obj(map["goal" := Str("g"), "outputFormat" := Str("plan"),
        "tone" := Str("strict"), "context" := Null]);
      Schemas.ValidateRequest(nullContext).Ok? && !ValidRequest(nullContext)
  {
    BlankGoalAcceptedByBackendOnly();
    NullContextAcceptedByBackendOnly();
  }

  /** A request serialised by the client passes the proxy exactly when its
      goal is not blank. */
  lemma ClientRequestValid(req: Types.Request)
    ensures ValidRequest(Types.RequestToJson(req)) <==> Text.JsTrim(req.goal) != ""
  {
    Types.FormatRoundTrip(req.outputFormat);
    Types.ToneRoundTrip(req.tone);
    assert Types.FormatLiteral(req.outputFormat) in Schemas.FormatLiterals;
    assert Types.ToneLiteral(req.tone) in Schemas.ToneLiterals;
  }

  /** The reply the route sends: its HTTP status and JSON body. */
  datatype Reply = Reply(status: nat, body: Value)

  /** What the backend answered: a status and a body (`None` when it is not
      JSON), or nothing because `fetch` failed. */
  datatype Upstream = Answered(status: nat, body: Option<Value>) | Unreachable

  const InvalidJsonMessage: string := "Invalid JSON in request body"
  const ValidationMessage: string := "Invalid request format. Required: goal, outputFormat, tone."
  const NotConfiguredMessage: string := "Backend is not configured. Set BACKEND_API_BASE_URL."
  const BackendErrorMessage: string := "Failed to reach backend agent"

  /** `!BACKEND_API_BASE_URL` is false. */
  predicate Configured(backendBase: Option<string>) {
    backendBase.Some? && backendBase.value != ""
  }

  /** The call the route forwards, if any: URL and body. */
  function Forwarded(body: Option<Value>, backendBase: Option<string>): (f: Option<(string, Value)>)
    ensures f.Some? <==> body.Some? && ValidRequest(body.value) && Configured(backendBase)
    ensures f.Some? ==> f.value == (backendBase.value + "/agent/run", body.value)
  {
    if body.Some? && ValidRequest(body.value) && Configured(backendBase)
    then Some((backendBase.value + "/agent/run", body.value))
    else None
  }

  /** `POST`: `body` is the parsed request body (`None` when it is not JSON). */
  function Post(body: Option<Value>, backendBase: Option<string>, upstream: Upstream): (r: Reply)
    ensures body.None? ==> r == Reply(400, ErrorBody(InvalidJsonMessage, "INVALID_JSON"))
    ensures body.Some? && !ValidRequest(body.value) ==>
      r == Reply(400, ErrorBody(ValidationMessage, "VALIDATION_ERROR"))
    ensures body.Some? && ValidRequest(body.value) && !Configured(backendBase) ==>
      r == Reply(500, ErrorBody(NotConfiguredMessage, "BACKEND_NOT_CONFIGURED"))
    ensures Forwarded(body, backendBase).Some? && upstream.Answered? && upstream.body.Some? ==>
      r == Reply(upstream.status, upstream.body.value)
    ensures Forwarded(body, backendBase).Some? && (upstream.Unreachable? || upstream.body.None?) ==>
      r == Reply(502, ErrorBody(BackendErrorMessage, "BACKEND_ERROR"))
  {
    if body.None? then Reply(400, ErrorBody(InvalidJsonMessage, "INVALID_JSON"))
    else if !ValidRequest(body.value) then Reply(400, ErrorBody(ValidationMessage, "VALIDATION_ERROR"))
    else if !Configured(backendBase) then Reply(500, ErrorBody(NotConfiguredMessage, "BACKEND_NOT_CONFIGURED"))
    else match upstream
      case Answered(status, Some(data)) => Reply(status, data)
      case _ => Reply(502, ErrorBody(BackendErrorMessage, "BACKEND_ERROR"))
  }

  /** Every reply the route makes itself carries an error body in the shape
      the backend's `ErrorResponse` accepts; any other reply is the
      backend's own. */
  lemma OwnRepliesAreErrorResponses(body: Option<Value>, backendBase: Option<string>, upstream: Upstream)
    ensures var r := Post(body, backendBase, upstream);
      Schemas.ValidateErrorResponse(r.body).Some? ||
      (Forwarded(body, backendBase).Some? && upstream == Answered(r.status, Some(r.body)))
  {
    Schemas.ErrorBodyValidates(InvalidJsonMessage, "INVALID_JSON");
    Schemas.ErrorBodyValidates(ValidationMessage, "VALIDATION_ERROR");
    Schemas.ErrorBodyValidates(NotConfiguredMessage, "BACKEND_NOT_CONFIGURED");
    Schemas.ErrorBodyValidates(BackendErrorMessage, "BACKEND_ERROR");
  }
}
