/** The shared record shapes and closed string unions of lib/types.ts. */
module Types {
  import opened Wrappers
  import Json

  datatype OutputFormat = Plan | Checklist | Email | SummaryActions

  const FormatLiterals: seq<string> := ["plan", "checklist", "email", "summary_actions"]

  /** The string literal that stands for an output format on the wire. */
  function FormatLiteral(f: OutputFormat): (s: string)
    ensures s in FormatLiterals
  {
    match f
    case Plan => "plan"
    case Checklist => "checklist"
    case Email => "email"
    case SummaryActions => "summary_actions"
  }

  /** Reading the union back from a string: exactly the four literals. */
  function ParseFormat(s: string): (r: Option<OutputFormat>)
    ensures r.Some? <==> s in FormatLiterals
    ensures r.Some? ==> FormatLiteral(r.value) == s
  {
    if s == "plan" then Some(Plan)
    else if s == "checklist" then Some(Checklist)
    else if s == "email" then Some(Email)
    else if s == "summary_actions" then Some(SummaryActions)
    else None
  }

  lemma FormatRoundTrip(f: OutputFormat)
    ensures ParseFormat(FormatLiteral(f)) == Some(f)
  {
  }

  /** OutputFormat has exactly four members, with four distinct literals. */
  lemma FormatsAreFour()
    ensures |FormatLiterals| == 4
    ensures forall i, j :: 0 <= i < j < 4 ==> FormatLiterals[i] != FormatLiterals[j]
    ensures forall f: OutputFormat :: ParseFormat(FormatLiteral(f)) == Some(f)
  {
    forall f: OutputFormat ensures ParseFormat(FormatLiteral(f)) == Some(f) {
      FormatRoundTrip(f);
    }
  }

  datatype Tone = Professional | Friendly | Strict

  const ToneLiterals: seq<string> := ["professional", "friendly", "strict"]

  function ToneLiteral(t: Tone): (s: string)
    ensures s in ToneLiterals
  {
    match t
    case Professional => "professional"
    case Friendly => "friendly"
    case Strict => "strict"
  }

  function ParseTone(s: string): (r: Option<Tone>)
    ensures r.Some? <==> s in ToneLiterals
    ensures r.Some? ==> ToneLiteral(r.value) == s
  {
    if s == "professional" then Some(Professional)
    else if s == "friendly" then Some(Friendly)
    else if s == "strict" then Some(Strict)
    else None
  }

  lemma ToneRoundTrip(t: Tone)
    ensures ParseTone(ToneLiteral(t)) == Some(t)
  {
  }

  /** The `status` of a response is one of two literals. */
  datatype Status = Success | Error

  const StatusLiterals: seq<string> := ["success", "error"]

  function StatusLiteral(s: Status): (r: string)
    ensures r in StatusLiterals
  {
    match s
    case Success => "success"
    case Error => "error"
  }

  function ParseStatus(s: string): (r: Option<Status>)
    ensures r.Some? <==> s in StatusLiterals
    ensures r.Some? ==> StatusLiteral(r.value) == s
  {
    if s == "success" then Some(Success) else if s == "error" then Some(Error) else None
  }

  datatype Request = Request(
    goal: string,
    context: Option<string>,
    outputFormat: OutputFormat,
    tone: Tone,
    constraints: Option<seq<string>>)

  /** `JSON.stringify(request)`, as the client sends it: fields that are
      `undefined` are left out of the object. */
  function RequestToJson(req: Request): (v: Json.Value)
    ensures v.Obj? && Json.Get(v, "goal") == Some(Json.Str(req.goal))
    ensures Json.Get(v, "outputFormat") == Some(Json.Str(FormatLiteral(req.outputFormat)))
    ensures Json.Get(v, "tone") == Some(Json.Str(ToneLiteral(req.tone)))
    ensures Json.Get(v, "context") == (if req.context.Some? then Some(Json.Str(req.context.value)) else None)
    ensures Json.Get(v, "constraints") ==
      (if req.constraints.Some? then Some(Json.Arr(Json.StrArray(req.constraints.value))) else None)
  {
    var base := map[
      "goal" := Json.Str(req.goal),
      "outputFormat" := Json.Str(FormatLiteral(req.outputFormat)),
      "tone" := Json.Str(ToneLiteral(req.tone))];
    var withContext := if req.context.Some? then base["context" := Json.Str(req.context.value)] else base;
    Json.Obj(
      if req.constraints.Some? then withContext["constraints" := Json.Arr(Json.StrArray(req.constraints.value))]
      else withContext)
  }

  datatype Section = Section(heading: string, content: seq<string>)

  /** `confidence` is documented as lying in 0..1 but nothing enforces it;
      `ConfidenceInRange` states the documented range. */
  datatype Response = Response(
    runId: string,
    status: Status,
    title: string,
    summary: string,
    sections: seq<Section>,
    warnings: Option<seq<string>>,
    confidence: Option<real>,
    createdAt: string)

  predicate ConfidenceInRange(c: Option<real>) {
    c.None? || 0.0 <= c.value <= 1.0
  }

  datatype AgentError = AgentError(message: string, code: Option<string>)

  /** A saved run: every response field, spread, plus the request. */
  datatype HistoryItem = HistoryItem(
    runId: string,
    status: Status,
    title: string,
    summary: string,
    sections: seq<Section>,
    warnings: Option<seq<string>>,
    confidence: Option<real>,
    createdAt: string,
    request: Request)

  /** `{ ...response, request }`. */
  function ToHistoryItem(request: Request, r: Response): (item: HistoryItem)
    ensures item.request == request && item.runId == r.runId && item.title == r.title
  {
    HistoryItem(r.runId, r.status, r.title, r.summary, r.sections, r.warnings,
      r.confidence, r.createdAt, request)
  }

  /** The response view of a history item (it is used wherever a response is expected). */
  function ResponseOf(item: HistoryItem): (r: Response)
    ensures r.runId == item.runId && r.title == item.title && r.sections == item.sections
  {
    Response(item.runId, item.status, item.title, item.summary, item.sections,
      item.warnings, item.confidence, item.createdAt)
  }

  /** A history item carries the response and the request and loses nothing. */
  lemma HistoryItemRoundTrip(request: Request, r: Response, item: HistoryItem)
    ensures ResponseOf(ToHistoryItem(request, r)) == r
    ensures ToHistoryItem(item.request, ResponseOf(item)) == item
  {
  }

  datatype RunStep = Validating | Calling | Generating | Finalizing | Complete | StepError

  const StepLiterals: seq<string> :=
    ["validating", "calling", "generating", "finalizing", "complete", "error"]

  function StepLiteral(s: RunStep): (r: string)
    ensures r in StepLiterals
  {
    match s
    case Validating => "validating"
    case Calling => "calling"
    case Generating => "generating"
    case Finalizing => "finalizing"
    case Complete => "complete"
    case StepError => "error"
  }

  /** `complete` and `error` end a run; the other four report progress. */
  predicate IsTerminal(s: RunStep) {
    s == Complete || s == StepError
  }

  /** The six steps have six distinct literals. */
  lemma StepLiteralInjective(a: RunStep, b: RunStep)
    ensures StepLiteral(a) == StepLiteral(b) ==> a == b
  {
  }

  datatype RunStatus = RunStatus(currentStep: RunStep, progress: int, error: Option<AgentError>)
}
