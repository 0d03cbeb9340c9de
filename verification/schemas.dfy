/** The pydantic models of backend/app/schemas.py: the field rules the backend
    applies to a run request, to a response and to an error body. Inputs are
    parsed JSON values; a failure names the field that was rejected. */
module Schemas {
  import opened Wrappers
  import opened Json
  import Types

  const FormatLiterals: seq<string> := ["plan", "checklist", "email", "summary_actions"]
  const ToneLiterals: seq<string> := ["professional", "friendly", "strict"]
  const StatusLiterals: seq<string> := ["success", "error"]

  const ConstraintsMessage: string := "constraints must be a list of strings"

  /** The backend's literals are exactly the frontend's unions. */
  lemma LiteralsMatchFrontend(s: string)
    ensures s in FormatLiterals <==> Types.ParseFormat(s).Some?
    ensures s in ToneLiterals <==> Types.ParseTone(s).Some?
    ensures s in StatusLiterals <==> Types.ParseStatus(s).Some?
  {
  }

  /** `validate_constraints`: `None` passes, a list passes unchanged when all
      its items are strings, anything else is rejected. */
  function ValidateConstraints(v: Option<seq<Value>>): (r: Result<Option<seq<string>>, string>)
    ensures v.None? ==> r == Ok(None)
    ensures v.Some? ==> (r.Ok? <==> AllStrings(v.value))
    ensures v.Some? && r.Ok? ==> r.value.Some? && StrArray(r.value.value) == v.value
    ensures r.Err? ==> r.error == ConstraintsMessage
  {
    if v.None? then Ok(None)
    else if AllStrings(v.value) then
      var xs := Strings(v.value);
      assert StrArray(xs) == v.value;
      Ok(Some(xs))
    else Err(ConstraintsMessage)
  }

  /** `Optional[str]` with default `None`: absent and `null` give `None`. */
  function OptionalStr(v: Option<Value>): Result<Option<string>, string> {
    if v.None? || v.value.Null? then Ok(None)
    else if v.value.Str? then Ok(Some(v.value.s))
    else Err("not a string")
  }

  /** `Optional[List[str]]` with default `None`, then `validate_constraints`. */
  function OptionalStrList(v: Option<Value>): Result<Option<seq<string>>, string> {
    if v.None? || v.value.Null? then Ok(None)
    else if v.value.Arr? then ValidateConstraints(Some(v.value.items))
    else Err("not a list")
  }

  /** `AgentRunRequest.model_validate`. */
  function ValidateRequest(v: Value): (r: Result<Types.Request, string>)
    ensures r.Ok? ==> v.Obj? && Get(v, "goal") == Some(Str(r.value.goal)) && |r.value.goal| >= 1
    ensures r.Ok? ==> Get(v, "outputFormat") == Some(Str(Types.FormatLiteral(r.value.outputFormat)))
    ensures r.Ok? ==> Get(v, "tone") == Some(Str(Types.ToneLiteral(r.value.tone)))
    ensures r.Ok? ==> (r.value.context.Some? <==> IsStrField(Get(v, "context")))
    ensures r.Ok? && r.value.context.Some? ==> Get(v, "context") == Some(Str(r.value.context.value))
    ensures r.Ok? && r.value.constraints.Some? ==>
      Get(v, "constraints") == Some(Arr(StrArray(r.value.constraints.value)))
  {
    if !v.Obj? then Err("body")
    else
      var goal := Get(v, "goal");
      var format := Get(v, "outputFormat");
      var tone := Get(v, "tone");
      if !(IsStrField(goal) && |goal.value.s| >= 1) then Err("goal")
      else if !(IsStrField(format) && format.value.s in FormatLiterals) then Err("outputFormat")
      else if !(IsStrField(tone) && tone.value.s in ToneLiterals) then Err("tone")
      else
        var context := OptionalStr(Get(v, "context"));
        var constraints := OptionalStrList(Get(v, "constraints"));
        if context.Err? then Err("context")
        else if constraints.Err? then Err("constraints")
        else
          Ok(Types.Request(goal.value.s, context.value,
            Types.ParseFormat(format.value.s).value, Types.ParseTone(tone.value.s).value,
            constraints.value))
  }

  /** What the client sends is accepted and read back unchanged, whenever the
      goal has at least one character. */
  lemma ValidateRequestRoundTrip(req: Types.Request)
    requires |req.goal| >= 1
    ensures ValidateRequest(Types.RequestToJson(req)) == Ok(req)
  {
    var v := Types.RequestToJson(req);
    Types.FormatRoundTrip(req.outputFormat);
    Types.ToneRoundTrip(req.tone);
    if req.constraints.Some? {
      assert Strings(StrArray(req.constraints.value)) == req.constraints.value;
    }
  }

  /** `min_length=1` is the only bound on the goal: it is not trimmed and has
      no maximum, so a goal of spaces alone is accepted. */
  lemma GoalIsNotTrimmed()
    ensures ValidateRequest(Types.RequestToJson(
      Types.Request(" ", None, Types.Plan, Types.Professional, None))).Ok?
  {
    ValidateRequestRoundTrip(Types.Request(" ", None, Types.Plan, Types.Professional, None));
  }

  lemma EmptyGoalRejected(v: Value)
    requires Get(v, "goal") == Some(Str(""))
    ensures ValidateRequest(v) == Err("goal")
  {
  }

  function ValidateContent(items: seq<Value>): (r: Option<seq<string>>)
    ensures r.Some? <==> AllStrings(items)
    ensures r.Some? ==> StrArray(r.value) == items
  {
    if AllStrings(items) then
      var xs := Strings(items);
      assert StrArray(xs) == items;
      Some(xs)
    else None
  }

  /** `AgentSection.model_validate`. */
  function ValidateSection(v: Value): (r: Option<Types.Section>)
    ensures r.Some? ==> Get(v, "heading") == Some(Str(r.value.heading))
    ensures r.Some? ==> Get(v, "content") == Some(Arr(StrArray(r.value.content)))
  {
    var heading := Get(v, "heading");
    var content := Get(v, "content");
    if IsStrField(heading) && content.Some? && content.value.Arr? then
      var c := ValidateContent(content.value.items);
      if c.Some? then Some(Types.Section(heading.value.s, c.value)) else None
    else None
  }

  function ValidateSections(items: seq<Value>): (r: Option<seq<Types.Section>>)
    ensures r.Some? ==> |r.value| == |items|
    ensures r.Some? ==> forall i :: 0 <= i < |items| ==> ValidateSection(items[i]) == Some(r.value[i])
  {
    if items == [] then Some([])
    else
      var head := ValidateSection(items[0]);
      var tail := ValidateSections(items[1..]);
      if head.Some? && tail.Some? then Some([head.value] + tail.value) else None
  }

  /** pydantic's lax `float`: a number, a boolean (1.0 or 0.0), or a string
      that Python's `float` parses, which is the parameter `parseFloat`;
      anything else is refused. */
  function LaxFloat(v: Value, parseFloat: string -> Option<real>): (r: Option<real>)
  {
    match v
    case Num(n) => Some(n)
    case Bool(b) => Some(if b then 1.0 else 0.0)
    case Str(s) => parseFloat(s)
    case _ => None
  }

  /** The field rules of `AgentRunResponse`, applied to the fields as found
      (`None` for an absent field). */
  function ResponseFromFields(runId: Option<Value>, status: Option<Value>, title: Option<Value>,
    summary: Option<Value>, sections: Option<Value>, warnings: Option<Value>,
    confidence: Option<Value>, createdAt: Option<Value>, isUuid4: string -> bool, parseFloat: string -> Option<real>): (r: Option<Types.Response>)
    ensures r.Some? ==> runId == Some(Str(r.value.runId)) && isUuid4(r.value.runId)
    ensures r.Some? ==> status == Some(Str(Types.StatusLiteral(r.value.status)))
    ensures r.Some? ==> r.value.confidence.Some?
    ensures r.Some? && confidence.None? ==> r.value.confidence == Some(0.0)
    ensures r.Some? && confidence.Some? ==> r.value.confidence == LaxFloat(confidence.value, parseFloat)
    ensures confidence.Some? && LaxFloat(confidence.value, parseFloat).None? ==> r.None?
    ensures r.Some? && (warnings.None? || warnings == Some(Null)) ==> r.value.warnings.None?
  {
    var ws := OptionalStrList(warnings);
    if !(IsStrField(runId) && isUuid4(runId.value.s)) then None
    else if !(IsStrField(status) && status.value.s in StatusLiterals) then None
    else if !(IsStrField(title) && IsStrField(summary) && IsStrField(createdAt)) then None
    else if !(sections.Some? && sections.value.Arr?) then None
    else if ws.Err? then None
    else if confidence.Some? && LaxFloat(confidence.value, parseFloat).None? then None
    else
      var ss := ValidateSections(sections.value.items);
      if ss.None? then None
      else
        Some(Types.Response(runId.value.s, Types.ParseStatus(status.value.s).value,
          title.value.s, summary.value.s, ss.value, ws.value,
          if confidence.Some? then LaxFloat(confidence.value, parseFloat) else Some(0.0), createdAt.value.s))
  }

  /** `AgentRunResponse.model_validate`. The UUID4 check on `runId` is the
      parameter `isUuid4`. `warnings` defaults to `None` and `confidence` to
      0.0, so a validated response always carries a confidence; a given
      confidence is read as pydantic's lax `float` reads it. */
  function ValidateResponse(v: Value, isUuid4: string -> bool, parseFloat: string -> Option<real>): (r: Option<Types.Response>)
    ensures r.Some? ==> v.Obj? && Get(v, "runId") == Some(Str(r.value.runId)) && isUuid4(r.value.runId)
    ensures r.Some? ==> Get(v, "status") == Some(Str(Types.StatusLiteral(r.value.status)))
    ensures r.Some? ==> r.value.confidence.Some?
    ensures r.Some? && Get(v, "confidence").None? ==> r.value.confidence == Some(0.0)
    ensures r.Some? && Get(v, "confidence").Some? ==>
      r.value.confidence == LaxFloat(Get(v, "confidence").value, parseFloat)
    ensures Get(v, "confidence").Some? && LaxFloat(Get(v, "confidence").value, parseFloat).None? ==> r.None?
    ensures r.Some? && (Get(v, "warnings").None? || Get(v, "warnings") == Some(Null)) ==>
      r.value.warnings.None?
  {
    if !v.Obj? then None
    else
      ResponseFromFields(Get(v, "runId"), Get(v, "status"), Get(v, "title"), Get(v, "summary"),
        Get(v, "sections"), Get(v, "warnings"), Get(v, "confidence"), Get(v, "createdAt"), isUuid4, parseFloat)
  }

  /** The section and response shapes as FastAPI serialises them. */
  function SectionToJson(s: Types.Section): Value {
    Obj(map["heading" := Str(s.heading), "content" := Arr(StrArray(s.content))])
  }

  function SectionsToJson(ss: seq<Types.Section>): (r: seq<Value>)
    ensures |r| == |ss| && forall i :: 0 <= i < |ss| ==> r[i] == SectionToJson(ss[i])
  {
    seq(|ss|, i requires 0 <= i < |ss| => SectionToJson(ss[i]))
  }

  /** The fields of a response, with `confidence` written as the given
      value. */
  function ResponseWithConfidence(r: Types.Response, confidence: Value): Value {
    Obj(map[
      "runId" := Str(r.runId),
      "status" := Str(Types.StatusLiteral(r.status)),
      "title" := Str(r.title),
      "summary" := Str(r.summary),
      "sections" := Arr(SectionsToJson(r.sections)),
      "warnings" := (if r.warnings.Some? then Arr(StrArray(r.warnings.value)) else Null),
      "confidence" := confidence,
      "createdAt" := Str(r.createdAt)])
  }

  function ResponseToJson(r: Types.Response): Value {
    ResponseWithConfidence(r, Num(r.confidence.GetOr(0.0)))
  }

  lemma {:induction false} SectionsRoundTrip(ss: seq<Types.Section>)
    ensures ValidateSections(SectionsToJson(ss)) == Some(ss)
  {
    var js := SectionsToJson(ss);
    if ss != [] {
      assert js[1..] == SectionsToJson(ss[1..]);
      SectionsRoundTrip(ss[1..]);
      assert Strings(StrArray(ss[0].content)) == ss[0].content;
      assert [ss[0]] + ss[1..] == ss;
    }
  }

  /** The field rules accept the fields of a serialised response, with any
      confidence value that reads as its confidence, and give that response
      back. */
  lemma FieldsRoundTrip(r: Types.Response, confidence: Value, isUuid4: string -> bool,
    parseFloat: string -> Option<real>)
    requires r.confidence.Some? && isUuid4(r.runId) && LaxFloat(confidence, parseFloat) == r.confidence
    ensures ResponseFromFields(Some(Str(r.runId)), Some(Str(Types.StatusLiteral(r.status))),
      Some(Str(r.title)), Some(Str(r.summary)), Some(Arr(SectionsToJson(r.sections))),
      Some(if r.warnings.Some? then Arr(StrArray(r.warnings.value)) else Null),
      Some(confidence), Some(Str(r.createdAt)), isUuid4, parseFloat) == Some(r)
  {
    SectionsRoundTrip(r.sections);
    if r.warnings.Some? {
      assert Strings(StrArray(r.warnings.value)) == r.warnings.value;
    }
    assert Types.ParseStatus(Types.StatusLiteral(r.status)) == Some(r.status);
  }

  /** The fields of a response validate back to it whenever the confidence
      is written as any value that reads as its confidence. */
  lemma ValidateWithConfidence(r: Types.Response, confidence: Value, isUuid4: string -> bool,
    parseFloat: string -> Option<real>)
    requires r.confidence.Some? && isUuid4(r.runId) && LaxFloat(confidence, parseFloat) == r.confidence
    ensures ValidateResponse(ResponseWithConfidence(r, confidence), isUuid4, parseFloat) == Some(r)
  {
    var v := ResponseWithConfidence(r, confidence);
    FieldsRoundTrip(r, confidence, isUuid4, parseFloat);
    assert Get(v, "runId") == Some(Str(r.runId));
    assert Get(v, "status") == Some(Str(Types.StatusLiteral(r.status)));
    assert Get(v, "sections") == Some(Arr(SectionsToJson(r.sections)));
    assert Get(v, "confidence") == Some(confidence);
  }

  /** A response with a confidence survives serialisation and validation,
      provided its runId is a UUID4. */
  lemma ResponseRoundTrip(r: Types.Response, isUuid4: string -> bool, parseFloat: string -> Option<real>)
    requires r.confidence.Some? && isUuid4(r.runId)
    ensures ValidateResponse(ResponseToJson(r), isUuid4, parseFloat) == Some(r)
  {
    ValidateWithConfidence(r, Num(r.confidence.value), isUuid4, parseFloat);
  }

  /** A confidence given as a numeric string, as a model may write it, is
      read through `float`: the response is accepted as if the number had
      been written. */
  lemma StringConfidenceAccepted(r: Types.Response, text: string, isUuid4: string -> bool,
    parseFloat: string -> Option<real>)
    requires r.confidence.Some? && isUuid4(r.runId) && parseFloat(text) == r.confidence
    ensures ValidateResponse(ResponseWithConfidence(r, Str(text)), isUuid4, parseFloat) == Some(r)
  {
    ValidateWithConfidence(r, Str(text), isUuid4, parseFloat);
  }

  /** A boolean confidence is read as 1.0 or 0.0. */
  lemma BoolConfidenceAccepted(r: Types.Response, b: bool, isUuid4: string -> bool,
    parseFloat: string -> Option<real>)
    requires r.confidence == Some(if b then 1.0 else 0.0) && isUuid4(r.runId)
    ensures ValidateResponse(ResponseWithConfidence(r, Bool(b)), isUuid4, parseFloat) == Some(r)
  {
    ValidateWithConfidence(r, Bool(b), isUuid4, parseFloat);
  }

  /** A confidence that is null, a list, an object or a string `float`
      refuses makes the whole response invalid. */
  lemma BadConfidenceRejected(r: Types.Response, confidence: Value, isUuid4: string -> bool,
    parseFloat: string -> Option<real>)
    requires confidence.Null? || confidence.Arr? || confidence.Obj? ||
      (confidence.Str? && parseFloat(confidence.s).None?)
    ensures ValidateResponse(ResponseWithConfidence(r, confidence), isUuid4, parseFloat).None?
  {
    assert Get(ResponseWithConfidence(r, confidence), "confidence") == Some(confidence);
  }

  /** `ErrorResponse`: both `message` and `code` are required strings. */
  function ValidateErrorResponse(v: Value): (r: Option<(string, string)>)
    ensures r.Some? <==> IsStrField(Get(v, "message")) && IsStrField(Get(v, "code"))
    ensures r.Some? ==> Get(v, "message") == Some(Str(r.value.0)) && Get(v, "code") == Some(Str(r.value.1))
  {
    var m := Get(v, "message");
    var c := Get(v, "code");
    if IsStrField(m) && IsStrField(c) then Some((m.value.s, c.value.s)) else None
  }

  lemma ErrorBodyValidates(message: string, code: string)
    ensures ValidateErrorResponse(ErrorBody(message, code)) == Some((message, code))
  {
  }
}
