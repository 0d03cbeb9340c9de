/** backend/app/agent.py: the backend's agent. It builds the two chat
    messages, turns whatever the model returned into a response (conforming
    JSON, a "plan" object, or plain text), and tries the primary model up to
    `max_retries` times and the fallback model once. The model calls are a
    parameter `reply`, giving the answer to each call of a run in order;
    `json.dumps`, `str`, UUID checking, Python's `float` on strings, the run
    id and the clock are parameters too. */
module BackendAgent {
  import opened Wrappers
  import opened Json
  import opened Types
  import Text
  import Seqs
  import Schemas

  const SystemPrompt: string :=
    "You are PydanticPilot, a productivity AI agent. Always return actionable, concise, structured output as JSON matching the provided schema.\n" +
    "- Honor the requested outputFormat and tone exactly.\n" +
    "- Keep content clear, bullet-like sentences. Avoid verbosity.\n" +
    "- Never return markdown code fences.\n" +
    "- Provide helpful warnings if constraints limit the plan."

  datatype Message = Message(role: string, content: string)

  /** The context line, present when the context is truthy. */
  function ContextLine(req: Request): (line: string)
    ensures line != "" <==> req.context.Some? && req.context.value != ""
    ensures line != "" ==> line == "\nContext: " + req.context.value
  {
    if req.context.Some? && req.context.value != "" then "\nContext: " + req.context.value else ""
  }

  /** The constraints line, present when the list is non-empty, its items
      joined by ", ". */
  function ConstraintsLine(req: Request): (line: string)
    ensures line != "" <==> req.constraints.Some? && req.constraints.value != []
    ensures line != "" ==> line == "\nConstraints: " + Seqs.Join(req.constraints.value, ", ")
  {
    if req.constraints.Some? && req.constraints.value != [] then
      "\nConstraints: " + Seqs.Join(req.constraints.value, ", ")
    else ""
  }

  /** The goal line, which opens the user message. */
  function GoalLine(req: Request): string {
    "Goal: " + req.goal + "\n"
  }

  /** The format and tone lines. */
  function ChoiceLines(req: Request): string {
    "OutputFormat: " + FormatLiteral(req.outputFormat) + "\nTone: " + ToneLiteral(req.tone)
  }

  /** `_build_messages`: the system prompt, then the user's request. */
  function BuildMessages(req: Request): (ms: seq<Message>)
    ensures |ms| == 2 && ms[0] == Message("system", SystemPrompt) && ms[1].role == "user"
    ensures ms[1].content == GoalLine(req) + ChoiceLines(req) + ContextLine(req) + ConstraintsLine(req)
  {
    [Message("system", SystemPrompt),
     Message("user", GoalLine(req) + ChoiceLines(req) + ContextLine(req) + ConstraintsLine(req))]
  }

  /** The user message always opens with the goal, and is the goal, format
      and tone alone exactly when the request has no truthy context and no
      constraints. */
  lemma UserMessageShape(req: Request)
    ensures Seqs.StartsWith(BuildMessages(req)[1].content, GoalLine(req))
    ensures BuildMessages(req)[1].content == GoalLine(req) + ChoiceLines(req) <==>
      ((req.context.None? || req.context == Some("")) &&
       (req.constraints.None? || req.constraints == Some([])))
  {
    var g, choices := GoalLine(req), ChoiceLines(req);
    var context, constraints := ContextLine(req), ConstraintsLine(req);
    Seqs.StartsWithConcat(g, choices + context + constraints);
    assert g + choices + context + constraints == g + (choices + context + constraints);
    Seqs.ConcatEqualsPrefix(g + choices, context, constraints);
  }

  /** Keys tried, in order, on an object in a plan list. */
  const PlanItemKeys: seq<string> := ["day", "title", "task", "tasks", "content"]

  /** `fields` maps `key` to a string. */
  predicate HoldsString(fields: map<string, Value>, key: string) {
    key in fields && fields[key].Str?
  }

  /** `keys[i]` is the first of `keys` that holds a string. */
  predicate FirstHolder(fields: map<string, Value>, keys: seq<string>, i: int) {
    0 <= i < |keys| && HoldsString(fields, keys[i]) && forall j :: 0 <= j < i ==> !HoldsString(fields, keys[j])
  }

  /** The value of the first of `keys` that holds a string. */
  function FirstStringField(fields: map<string, Value>, keys: seq<string>): (r: Option<string>)
  {
    if keys == [] then None
    else if HoldsString(fields, keys[0]) then Some(fields[keys[0]].s)
    else FirstStringField(fields, keys[1..])
  }

  /** `FirstStringField` finds the string under the earliest key holding one,
      and finds nothing exactly when no key holds one. */
  lemma {:induction false} FirstStringFieldIsFirst(fields: map<string, Value>, keys: seq<string>)
    ensures FirstStringField(fields, keys).Some? ==>
      exists i :: FirstHolder(fields, keys, i) && fields[keys[i]] == Str(FirstStringField(fields, keys).value)
    ensures FirstStringField(fields, keys).None? <==> forall i :: 0 <= i < |keys| ==> !HoldsString(fields, keys[i])
  {
    if keys != [] && !HoldsString(fields, keys[0]) {
      var rest := keys[1..];
      FirstStringFieldIsFirst(fields, rest);
      var r := FirstStringField(fields, rest);
      if r.Some? {
        var i :| FirstHolder(fields, rest, i) && fields[rest[i]] == Str(r.value);
        assert keys[i + 1] == rest[i];
        forall j | 0 <= j < i + 1 ensures !HoldsString(fields, keys[j]) {
          if j > 0 {
            assert keys[j] == rest[j - 1];
          }
        }
        assert FirstHolder(fields, keys, i + 1);
      } else {
        forall i | 0 <= i < |keys| ensures !HoldsString(fields, keys[i]) {
          if i > 0 {
            assert keys[i] == rest[i - 1];
          }
        }
      }
    }
  }

  /** One item of a plan list: a stripped string, the stripped string under
      a known key, `json.dumps` of any other object, `str` of anything else. */
  function PlanItem(item: Value, dumps: Value -> string, pyStr: Value -> string): string {
    if item.Str? then Text.PyStrip(item.s)
    else if item.Obj? then
      match FirstStringField(item.fields, PlanItemKeys)
      case Some(s) => Text.PyStrip(s)
      case None => dumps(item)
    else pyStr(item)
  }

  /** The item texts of the elements of a plan list, in order. */
  function ItemTexts(vs: seq<Value>, dumps: Value -> string, pyStr: Value -> string): (items: seq<string>)
    ensures |items| == |vs|
  {
    if vs == [] then [] else ItemTexts(vs[..|vs| - 1], dumps, pyStr) + [PlanItem(vs[|vs| - 1], dumps, pyStr)]
  }

  /** The `k`-th text is that of the `k`-th element. */
  lemma {:induction false} ItemTextsElementwise(vs: seq<Value>, dumps: Value -> string, pyStr: Value -> string)
    ensures forall k :: 0 <= k < |vs| ==> ItemTexts(vs, dumps, pyStr)[k] == PlanItem(vs[k], dumps, pyStr)
  {
    if vs != [] {
      var init := vs[..|vs| - 1];
      ItemTextsElementwise(init, dumps, pyStr);
      forall k | 0 <= k < |vs| - 1 ensures ItemTexts(vs, dumps, pyStr)[k] == PlanItem(vs[k], dumps, pyStr) {
        assert vs[k] == init[k];
      }
    }
  }

  lemma ItemTextsSnoc(vs: seq<Value>, i: nat, dumps: Value -> string, pyStr: Value -> string)
    requires i < |vs|
    ensures ItemTexts(vs[..i + 1], dumps, pyStr) == ItemTexts(vs[..i], dumps, pyStr) + [PlanItem(vs[i], dumps, pyStr)]
  {
    assert vs[..i + 1][..i] == vs[..i];
  }

  /** The items taken from the `plan` value: one per element of a list,
      otherwise `str` of the value alone. */
  function PlanItems(planVal: Value, dumps: Value -> string, pyStr: Value -> string): (items: seq<string>)
    ensures planVal.Arr? ==> |items| == |planVal.items|
    ensures !planVal.Arr? ==> items == [pyStr(planVal)]
  {
    if planVal.Arr? then ItemTexts(planVal.items, dumps, pyStr) else [pyStr(planVal)]
  }

  /** A plan list of strings gives those strings, stripped. */
  lemma StringPlanItems(xs: seq<string>, dumps: Value -> string, pyStr: Value -> string)
    ensures PlanItems(Arr(StrArray(xs)), dumps, pyStr) == seq(|xs|, i requires 0 <= i < |xs| => Text.PyStrip(xs[i]))
  {
    var vs := StrArray(xs);
    ItemTextsElementwise(vs, dumps, pyStr);
    assert forall k :: 0 <= k < |xs| ==> vs[k] == Str(xs[k]);
  }

  /** The loop filling `items`. */
  method ExtractPlanItems(planVal: Value, dumps: Value -> string, pyStr: Value -> string) returns (items: seq<string>)
    ensures items == PlanItems(planVal, dumps, pyStr)
  {
    if !planVal.Arr? {
      return [pyStr(planVal)];
    }
    items := [];
    for i := 0 to |planVal.items|
      invariant items == ItemTexts(planVal.items[..i], dumps, pyStr)
    {
      ItemTextsSnoc(planVal.items, i, dumps, pyStr);
      items := items + [PlanItem(planVal.items[i], dumps, pyStr)];
    }
    assert planVal.items[..|planVal.items|] == planVal.items;
  }

  const DayPrefix: string := "day "

  /** `text.lower().startswith("day ")`. Lower-casing is ASCII here, which
      decides this prefix exactly: no other character lower-cases to one of
      `d`, `a`, `y` or a space. */
  predicate LabelledAsDay(text: string) {
    Seqs.StartsWith(Text.Lower(text), DayPrefix)
  }

  /** The `n`-th kept item (from 1), labelled "Day n: " unless it already
      reads as a day. */
  function Label(text: string, n: nat): string {
    if LabelledAsDay(text) then text else "Day " + Text.NatToString(n) + ": " + text
  }

  function NonEmpty(items: seq<string>): (kept: seq<string>)
    ensures forall i :: 0 <= i < |kept| ==> kept[i] != ""
  {
    Seqs.Filter(t => t != "", items)
  }

  /** The kept items, each labelled by its position among them. */
  function Labelled(kept: seq<string>): (content: seq<string>)
    ensures |content| == |kept|
  {
    if kept == [] then [] else Labelled(kept[..|kept| - 1]) + [Label(kept[|kept| - 1], |kept|)]
  }

  /** The `i`-th entry is the `i`-th kept item under the label of position
      `i + 1`. */
  lemma {:induction false} LabelledElementwise(kept: seq<string>)
    ensures forall i :: 0 <= i < |kept| ==> Labelled(kept)[i] == Label(kept[i], i + 1)
  {
    if kept != [] {
      var init := kept[..|kept| - 1];
      LabelledElementwise(init);
      forall i | 0 <= i < |kept| - 1 ensures Labelled(kept)[i] == Label(kept[i], i + 1) {
        assert kept[i] == init[i];
      }
    }
  }

  /** Items that all read as days are kept as they are. */
  lemma {:induction false} LabelledKeepsDays(kept: seq<string>)
    requires forall i :: 0 <= i < |kept| ==> LabelledAsDay(kept[i])
    ensures Labelled(kept) == kept
  {
    if kept != [] {
      var init := kept[..|kept| - 1];
      LabelledKeepsDays(init);
      assert init + [kept[|kept| - 1]] == kept;
    }
  }

  /** The plan's content: the non-empty items, labelled. */
  function DayContent(items: seq<string>): (content: seq<string>)
    ensures |content| == |NonEmpty(items)|
  {
    Labelled(NonEmpty(items))
  }

  /** The loop filling `content`. */
  method LabelDays(items: seq<string>) returns (content: seq<string>)
    ensures content == DayContent(items)
  {
    var kept := NonEmpty(items);
    content := [];
    for idx := 0 to |kept|
      invariant content == Labelled(kept[..idx])
    {
      assert kept[..idx + 1][..idx] == kept[..idx];
      var text := kept[idx];
      var labelled := if LabelledAsDay(text) then text else "Day " + Text.NatToString(idx + 1) + ": " + text;
      content := content + [labelled];
    }
    assert kept[..|kept|] == kept;
  }

  lemma DayLabelReadsAsDay(n: nat, text: string)
    ensures LabelledAsDay("Day " + Text.NatToString(n) + ": " + text)
  {
    var s := "Day " + Text.NatToString(n) + ": " + text;
    var l := Text.Lower(s);
    assert l[0] == 'd' && l[1] == 'a' && l[2] == 'y' && l[3] == ' ';
    assert l[..4] == DayPrefix;
  }

  /** Every entry of the plan's content reads as a day and is not empty, and
      it is the kept item itself or the item behind a "Day i: " label. */
  lemma DayContentLabels(items: seq<string>)
    ensures var content := DayContent(items); var kept := NonEmpty(items);
      forall i :: 0 <= i < |content| ==>
        LabelledAsDay(content[i]) && content[i] != "" &&
        (content[i] == kept[i] || content[i] == "Day " + Text.NatToString(i + 1) + ": " + kept[i])
  {
    var content := DayContent(items);
    var kept := NonEmpty(items);
    LabelledElementwise(kept);
    forall i | 0 <= i < |content|
      ensures LabelledAsDay(content[i]) && content[i] != ""
    {
      DayLabelReadsAsDay(i + 1, kept[i]);
    }
  }

  /** Normalising a plan's content again changes nothing. */
  lemma DayContentIdempotent(items: seq<string>)
    ensures DayContent(DayContent(items)) == DayContent(items)
  {
    var content := DayContent(items);
    DayContentLabels(items);
    Seqs.FilterKeepsAll(t => t != "", content);
    assert NonEmpty(content) == content;
    LabelledKeepsDays(content);
  }

  const DefaultPlanSummary: string := "Generated a plan based on your goal."
  const SummaryLimit: nat := 240

  /** The response built from a "plan" object's content. */
  function PlanResponse(runId: string, createdAt: string, content: seq<string>): (r: Response)
    ensures r.status == Success && r.runId == runId && r.createdAt == createdAt
    ensures r.title == "Generated Plan" && r.sections == [Section("7-Day Plan", content)]
    ensures content == [] ==> r.summary == DefaultPlanSummary
    ensures content != [] ==> Seqs.StartsWith(content[0], r.summary)
    ensures content != [] ==>
      |r.summary| == if |content[0]| < SummaryLimit then |content[0]| else SummaryLimit
    ensures r.warnings == Some([]) && r.confidence == Some(0.7)
  {
    var summary := if content != [] then content[0] else DefaultPlanSummary;
    Response(runId, Success, "Generated Plan", Text.Prefix(summary, SummaryLimit),
      [Section("7-Day Plan", content)], Some([]), Some(0.7), createdAt)
  }

  const NoContentText: string := "No content returned by the model."

  /** The text kept by the plain-text fallback: the stripped output, the
      dumped object when that is empty, or a fixed sentence. */
  function FallbackText(raw: string, parsedObject: Option<Value>, dumps: Value -> string): (text: string)
    ensures Text.PyStrip(raw) != "" ==> text == Text.PyStrip(raw)
    ensures Text.PyStrip(raw) == "" && parsedObject.None? ==> text == NoContentText
    ensures Text.PyStrip(raw) == "" && parsedObject.Some? ==>
      text == (if dumps(parsedObject.value) != "" then dumps(parsedObject.value) else NoContentText)
    ensures text != ""
  {
    var stripped := Text.PyStrip(raw);
    var text := if parsedObject.Some? && stripped == "" then dumps(parsedObject.value) else stripped;
    if text == "" then NoContentText else text
  }

  /** The response of the plain-text fallback. */
  function TextResponse(runId: string, createdAt: string, model: string, text: string): (r: Response)
    requires text != ""
    ensures r.status == Success && r.runId == runId && r.createdAt == createdAt
    ensures r.title == "Agent Result" && r.sections == [Section("Result", [text])]
    ensures Seqs.StartsWith(text, r.summary) && |r.summary| <= SummaryLimit
    ensures forall i :: 0 <= i < |r.summary| ==> !Text.IsPyLineBreak(r.summary[i])
    ensures |r.summary| == SummaryLimit || |r.summary| == |text| || Text.IsPyLineBreak(text[|r.summary|])
    ensures r.warnings == Some(["Normalized non-conforming output from model: " + model])
    ensures r.confidence == Some(0.7)
  {
    var first := Text.FirstLine(text);
    var summary := Text.Prefix(first, SummaryLimit);
    assert forall i :: 0 <= i < |summary| ==> summary[i] == first[i];
    assert Seqs.StartsWith(text, summary) by {
      assert text[..|first|] == first;
      assert first[..|summary|] == summary;
    }
    Response(runId, Success, "Agent Result", summary, [Section("Result", [text])],
      Some(["Normalized non-conforming output from model: " + model]), Some(0.7), createdAt)
  }

  /** A conforming output with the server's run id, and the creation time
      filled in when it was empty. */
  function Adopt(out: Response, runId: string, createdAt: string): (r: Response)
    ensures r.runId == runId
    ensures r.createdAt == (if out.createdAt == "" then createdAt else out.createdAt)
    ensures r.(runId := out.runId, createdAt := out.createdAt) == out
  {
    out.(runId := runId, createdAt := if out.createdAt == "" then createdAt else out.createdAt)
  }

  /** `_normalize_to_agent_response`. `parsed` is `json.loads(raw)`, or
      `None` when it raises. */
  function Normalize(raw: string, parsed: Option<Value>, runId: string, createdAt: string, model: string,
    isUuid4: string -> bool, parseFloat: string -> Option<real>, dumps: Value -> string, pyStr: Value -> string): (r: Response)
    ensures r.runId == runId
    ensures parsed.Some? && parsed.value.Obj? && Schemas.ValidateResponse(parsed.value, isUuid4, parseFloat).Some? ==>
      r == Adopt(Schemas.ValidateResponse(parsed.value, isUuid4, parseFloat).value, runId, createdAt)
    ensures (parsed.Some? && parsed.value.Obj? && Schemas.ValidateResponse(parsed.value, isUuid4, parseFloat).None? &&
      "plan" in parsed.value.fields) ==>
      r == PlanResponse(runId, createdAt, DayContent(PlanItems(parsed.value.fields["plan"], dumps, pyStr)))
    ensures var adopted := parsed.Some? && parsed.value.Obj? &&
        Schemas.ValidateResponse(parsed.value, isUuid4, parseFloat).Some?;
      var planned := parsed.Some? && parsed.value.Obj? && "plan" in parsed.value.fields;
      !adopted && !planned ==>
      r == TextResponse(runId, createdAt, model,
        FallbackText(raw, if parsed.Some? && parsed.value.Obj? then parsed else None, dumps))
  {
    var parsedObject := if parsed.Some? && parsed.value.Obj? then parsed else None;
    if parsedObject.Some? && Schemas.ValidateResponse(parsedObject.value, isUuid4, parseFloat).Some? then
      Adopt(Schemas.ValidateResponse(parsedObject.value, isUuid4, parseFloat).value, runId, createdAt)
    else if parsedObject.Some? && "plan" in parsedObject.value.fields then
      PlanResponse(runId, createdAt, DayContent(PlanItems(parsedObject.value.fields["plan"], dumps, pyStr)))
    else
      TextResponse(runId, createdAt, model, FallbackText(raw, parsedObject, dumps))
  }

  /** What one model call produced: content (with its `json.loads`), a reply
      body that was not JSON, or any other failure (HTTP error, timeout, a
      reply without the expected `choices`). */
  datatype ModelReply =
    | Content(raw: string, parsed: Option<Value>)
    | Undecodable(detail: string)
    | CallFailed(detail: string)

  /** The attempts `(model, attempt)` made for one model, in order. */
  function Attempts(model: string, retries: int): (ts: seq<(string, nat)>)
    ensures |ts| == if retries < 0 then 0 else retries
    ensures forall i :: 0 <= i < |ts| ==> ts[i] == (model, i + 1)
  {
    var n := if retries < 0 then 0 else retries;
    seq(n, i requires 0 <= i < n => (model, i + 1))
  }

  /** Every attempt `run_agent` may make: the primary model `max_retries`
      times, then the fallback once. */
  function Schedule(primary: string, maxRetries: int, fallback: string): (ts: seq<(string, nat)>)
    ensures |ts| >= 1 && ts[|ts| - 1] == (fallback, 1)
  {
    Attempts(primary, maxRetries) + Attempts(fallback, 1)
  }

  /** `last_error` after a failed attempt. */
  function ErrorText(model: string, reply: ModelReply): string
    requires !reply.Content?
  {
    match reply
    case Undecodable(detail) => "Validation failed on model " + model + ": " + detail
    case CallFailed(detail) => "Model call failed for " + model + ": " + detail
  }

  const UnknownError: string := "Unknown error"
  const NoKeyMessage: string := "Model API key not configured"

  /** The response when every attempt failed. */
  function FailureResponse(runId: string, createdAt: string, lastError: Option<string>): (r: Response)
    ensures r.status == Error && r.runId == runId && r.sections == [] && r.confidence == Some(0.0)
    ensures r.warnings == Some([if lastError.Some? && lastError.value != "" then lastError.value else UnknownError])
  {
    Response(runId, Error, "Agent failed", "The agent could not produce a valid structured response.", [],
      Some([if lastError.Some? && lastError.value != "" then lastError.value else UnknownError]),
      Some(0.0), createdAt)
  }

  /** `settings.openrouter_api_key or settings.mimo_api_key`. */
  function ApiKey(openrouter: Option<string>, mimo: Option<string>): (key: Option<string>)
    ensures key.Some? ==> key.value != ""
    ensures key.None? <==> (openrouter.None? || openrouter == Some("")) && (mimo.None? || mimo == Some(""))
    ensures openrouter.Some? && openrouter.value != "" ==> key == openrouter
  {
    if openrouter.Some? && openrouter.value != "" then openrouter
    else if mimo.Some? && mimo.value != "" then mimo
    else None
  }

  /** Call number `k` of the run (counting from 0) produced content. */
  predicate Succeeded(reply: nat -> ModelReply, k: nat) {
    reply(k).Content?
  }

  /** `last_error` after the failed call number `k`, the attempt `tried[k]`. */
  function ErrorOf(reply: nat -> ModelReply, tried: seq<(string, nat)>, k: nat): string
    requires k < |tried| && !Succeeded(reply, k)
  {
    ErrorText(tried[k].0, reply(k))
  }

  /** The inner loop of `run_agent` for one model, whose first call is call
      number `base` of the run: attempts until one succeeds or the retries
      run out, updating `last_error` on each failure. */
  method TryModel(model: string, retries: int, reply: nat -> ModelReply, base: nat, lastErrorIn: Option<string>)
    returns (made: seq<(string, nat)>, succeeded: bool, lastError: Option<string>)
    ensures Seqs.StartsWith(Attempts(model, retries), made)
    ensures forall k :: base <= k < base + |made| - 1 ==> !Succeeded(reply, k)
    ensures succeeded <==> made != [] && Succeeded(reply, base + |made| - 1)
    ensures !succeeded ==> made == Attempts(model, retries)
    ensures !succeeded && made != [] ==> lastError == Some(ErrorText(model, reply(base + |made| - 1)))
    ensures made == [] ==> lastError == lastErrorIn
  {
    made := [];
    lastError := lastErrorIn;
    var attempt := 1;
    while attempt <= retries
      invariant 1 <= attempt && (retries >= 0 ==> attempt <= retries + 1) && (retries < 0 ==> attempt == 1)
      invariant made == Attempts(model, attempt - 1)
      invariant forall k :: base <= k < base + |made| ==> !Succeeded(reply, k)
      invariant made != [] ==>
        !Succeeded(reply, base + |made| - 1) && lastError == Some(ErrorText(model, reply(base + |made| - 1)))
      invariant made == [] ==> lastError == lastErrorIn
    {
      var r := reply(base + attempt - 1);
      made := made + [(model, attempt)];
      assert made == Attempts(model, attempt);
      if r.Content? {
        return made, true, lastError;
      }
      lastError := Some(ErrorText(model, r));
      attempt := attempt + 1;
    }
    succeeded := false;
    if retries < 0 {
      assert |Attempts(model, retries)| == 0;
    } else {
      assert attempt - 1 == retries;
    }
  }

  /** The attempts a list of `(model, retries)` pairs stands for, model by
      model. */
  function ScheduleOf(models: seq<(string, int)>): (ts: seq<(string, nat)>)
  {
    if models == [] then []
    else ScheduleOf(models[..|models| - 1]) + Attempts(models[|models| - 1].0, models[|models| - 1].1)
  }

  /** The attempts of the first `k` models come first in the schedule. */
  lemma {:induction false} ScheduleOfPrefix(models: seq<(string, int)>, k: nat)
    requires k <= |models|
    ensures Seqs.StartsWith(ScheduleOf(models), ScheduleOf(models[..k]))
    decreases |models|
  {
    if k == |models| {
      assert models[..k] == models;
    } else {
      var init := models[..|models| - 1];
      ScheduleOfPrefix(init, k);
      assert init[..k] == models[..k];
    }
  }

  /** `run_agent`'s schedule is that of the primary model with its retries
      and then the fallback model once. */
  lemma ScheduleOfRunAgent(primary: string, maxRetries: int, fallback: string)
    ensures ScheduleOf([(primary, maxRetries), (fallback, 1)]) == Schedule(primary, maxRetries, fallback)
  {
    var models := [(primary, maxRetries), (fallback, 1)];
    var one := [(primary, maxRetries)];
    assert models[..1] == one && one[..0] == [];
    assert ScheduleOf(one) == [] + Attempts(primary, maxRetries);
    assert [] + Attempts(primary, maxRetries) == Attempts(primary, maxRetries);
  }

  /** Every call in `tried` failed, and `lastError` is the error of the
      last of them (`None` before any call). */
  ghost predicate AllFailed(reply: nat -> ModelReply, tried: seq<(string, nat)>, lastError: Option<string>) {
    (forall i :: 0 <= i < |tried| ==> !Succeeded(reply, i)) &&
    (tried == [] ==> lastError.None?) &&
    (tried != [] ==> lastError == Some(ErrorOf(reply, tried, |tried| - 1)))
  }

  /** A model whose calls all failed leaves every call so far failed, with
      its own last error (or the earlier one, when it made no call). */
  lemma FailedModel(reply: nat -> ModelReply, before: seq<(string, nat)>, lastError: Option<string>,
    model: string, made: seq<(string, nat)>, err: Option<string>)
    requires AllFailed(reply, before, lastError)
    requires forall i :: 0 <= i < |made| ==> made[i].0 == model
    requires forall k :: |before| <= k < |before| + |made| - 1 ==> !Succeeded(reply, k)
    requires made != [] ==>
      !Succeeded(reply, |before| + |made| - 1) && err == Some(ErrorText(model, reply(|before| + |made| - 1)))
    requires made == [] ==> err == lastError
    ensures AllFailed(reply, before + made, err)
  {
    var tried := before + made;
    if made == [] {
      assert tried == before;
    } else {
      assert tried[|tried| - 1] == made[|made| - 1];
    }
  }

  /** The model loop of `run_agent`: each model in turn through `TryModel`,
      stopping at the first success. Call number `k` is the attempt
      `tried[k]`. */
  method TryAll(models: seq<(string, int)>, reply: nat -> ModelReply)
    returns (tried: seq<(string, nat)>, succeeded: bool, lastError: Option<string>)
    ensures Seqs.StartsWith(ScheduleOf(models), tried)
    ensures forall i :: 0 <= i < |tried| - 1 ==> !Succeeded(reply, i)
    ensures succeeded <==> tried != [] && Succeeded(reply, |tried| - 1)
    ensures !succeeded ==> tried == ScheduleOf(models)
    ensures !succeeded && tried != [] ==> lastError == Some(ErrorOf(reply, tried, |tried| - 1))
    ensures tried == [] ==> lastError.None?
  {
    tried := [];
    lastError := None;
    for a := 0 to |models|
      invariant tried == ScheduleOf(models[..a])
      invariant AllFailed(reply, tried, lastError)
    {
      var (model, retries) := models[a];
      var made, ok, err := TryModel(model, retries, reply, |tried|, lastError);
      assert models[..a + 1][..a] == models[..a];
      assert ScheduleOf(models[..a + 1]) == tried + Attempts(model, retries);
      ghost var before := tried;
      tried := tried + made;
      if ok {
        ScheduleOfPrefix(models, a + 1);
        Seqs.StartsWithAppend(before, Attempts(model, retries), made);
        Seqs.StartsWithTransitive(ScheduleOf(models), ScheduleOf(models[..a + 1]), tried);
        return tried, true, lastError;
      }
      FailedModel(reply, before, lastError, model, made, err);
      lastError := err;
    }
    assert models[..|models|] == models;
    succeeded := false;
  }

  /** `tried` is how a run went through the schedule `s`: a non-empty prefix
      of it in which every call but the last failed, and the whole of it
      when the last failed too. */
  ghost predicate FollowsSchedule(s: seq<(string, nat)>, tried: seq<(string, nat)>, reply: nat -> ModelReply) {
    tried != [] && Seqs.StartsWith(s, tried) &&
    (forall i :: 0 <= i < |tried| - 1 ==> !Succeeded(reply, i)) &&
    (!Succeeded(reply, |tried| - 1) ==> tried == s)
  }

  /** The response `run_agent` returns once `tried` are the attempts made:
      the normalised output of the last call when it produced content, the
      failure response naming its error otherwise. */
  function Outcome(tried: seq<(string, nat)>, reply: nat -> ModelReply, runId: string, createdAt: string,
    isUuid4: string -> bool, parseFloat: string -> Option<real>, dumps: Value -> string, pyStr: Value -> string): (r: Response)
    requires tried != []
    ensures r.runId == runId
    ensures !Succeeded(reply, |tried| - 1) ==>
      r.status == Error && r.warnings.Some? && |r.warnings.value| == 1 && r.warnings.value[0] != UnknownError
  {
    var model := tried[|tried| - 1].0;
    var last := reply(|tried| - 1);
    if last.Content? then Normalize(last.raw, last.parsed, runId, createdAt, model, isUuid4, parseFloat, dumps, pyStr)
    else
      FailureNeverUnknown(model, last, runId, createdAt);
      FailureResponse(runId, createdAt, Some(ErrorText(model, last)))
  }

  /** `run_agent`. `reply(k)` is what the run's call number `k` (counting
      from 0) produced, so two calls of the same model with the same attempt
      number, as when the fallback model is the primary one, may answer
      differently. Returns the attempts made, in order, and the response, or
      the message of the `RuntimeError` raised when no key is configured. */
  method RunAgent(req: Request, openrouterKey: Option<string>, mimoKey: Option<string>,
    primary: string, maxRetries: int, fallback: string, reply: nat -> ModelReply,
    runId: string, createdAt: string,
    isUuid4: string -> bool, parseFloat: string -> Option<real>, dumps: Value -> string, pyStr: Value -> string)
    returns (tried: seq<(string, nat)>, result: Result<Response, string>)
    ensures ApiKey(openrouterKey, mimoKey).None? ==> tried == [] && result == Err(NoKeyMessage)
    ensures ApiKey(openrouterKey, mimoKey).Some? ==>
      FollowsSchedule(Schedule(primary, maxRetries, fallback), tried, reply) &&
      result == Ok(Outcome(tried, reply, runId, createdAt, isUuid4, parseFloat, dumps, pyStr))
  {
    var key := ApiKey(openrouterKey, mimoKey);
    if key.None? {
      return [], Err(NoKeyMessage);
    }
    var messages := BuildMessages(req);
    var models := [(primary, maxRetries), (fallback, 1)];
    var succeeded, lastError;
    tried, succeeded, lastError := TryAll(models, reply);
    ScheduleOfRunAgent(primary, maxRetries, fallback);
    if succeeded {
      var (model, attempt) := tried[|tried| - 1];
      var last := reply(|tried| - 1);
      result := Ok(Normalize(last.raw, last.parsed, runId, createdAt, model, isUuid4, parseFloat, dumps, pyStr));
    } else {
      result := Ok(FailureResponse(runId, createdAt, lastError));
    }
  }

  /** A fallback model equal to the primary one is still called afresh:
      when the primary's single call fails and the next call answers, the
      run ends on that answer. */
  lemma SameModelFallbackIsFreshCall(m: string, reply: nat -> ModelReply, tried: seq<(string, nat)>)
    requires !Succeeded(reply, 0) && Succeeded(reply, 1)
    requires FollowsSchedule(Schedule(m, 1, m), tried, reply)
    ensures tried == [(m, 1), (m, 1)] && Succeeded(reply, |tried| - 1)
  {
    var s := Schedule(m, 1, m);
    assert s == [(m, 1), (m, 1)];
    assert tried == s[..|tried|];
  }

  /** Every schedule holds the fallback attempt, so a failed run always
      reports a real error: the "Unknown error" default is never used. */
  lemma FailureNeverUnknown(model: string, reply: ModelReply, runId: string, createdAt: string)
    requires !reply.Content?
    ensures FailureResponse(runId, createdAt, Some(ErrorText(model, reply))).warnings.value[0] != UnknownError
  {
    var e := ErrorText(model, reply);
    assert e[0] == 'V' || e[0] == 'M';
  }
}
