/** components/agent-input-form.tsx: the run form. Its state (goal, context,
    format, tone, selected constraints and the goal's error message) is a
    class whose methods are the form's handlers; what a submit sends is
    specified by `SubmittedRequest`. */
module InputForm {
  import opened Wrappers
  import opened Types
  import Text
  import Seqs
  import Proxy
  import Schemas

  const MaxGoalLength: nat := 500
  const GoalRequired: string := "Goal is required"
  const GoalTooLong: string := "Goal must be under 500 characters"

  /** The badges offered for constraints. */
  const ConstraintOptions: seq<string> :=
    ["Time-bound", "Budget-limited", "Beginner-friendly", "Technical", "High-priority"]

  /** `validate`: the goal's error message, if any. Blankness is judged on
      the trimmed goal, the length bound on the goal as typed, in UTF-16
      code units. */
  function GoalError(goal: string): (e: Option<string>)
  {
    if Text.JsTrim(goal) == "" then Some(GoalRequired)
    else if Text.Utf16Length(goal) > MaxGoalLength then Some(GoalTooLong)
    else None
  }

  /** Each of the three outcomes of `validate`, and exactly when it occurs. */
  lemma GoalErrorCases(goal: string)
    ensures GoalError(goal) == Some(GoalRequired) <==> Text.JsTrim(goal) == ""
    ensures GoalError(goal) == Some(GoalTooLong) <==>
      Text.JsTrim(goal) != "" && Text.Utf16Length(goal) > MaxGoalLength
    ensures GoalError(goal).None? <==> Text.JsTrim(goal) != "" && Text.Utf16Length(goal) <= MaxGoalLength
  {
    assert GoalRequired != GoalTooLong by {
      assert |GoalRequired| != |GoalTooLong|;
    }
  }

  /** The bound applies before trimming: 501 spaces around a one-letter goal
      are refused as too long. */
  lemma LengthBoundIgnoresTrim()
    ensures GoalError(seq(501, i => ' ') + "g") == Some(GoalTooLong)
  {
    var goal := seq(501, i => ' ') + "g";
    assert !Text.IsJsWhitespace(goal[|goal| - 1]);
    Text.StripEmptyIff(Text.IsJsWhitespace, goal);
    assert Text.Utf16Length(goal) >= |goal|;
  }

  /** The request `handleSubmit` passes to `onSubmit`: trimmed goal, trimmed
      context or nothing, and the constraints only when some are chosen. */
  function SubmittedRequest(goal: string, context: string, outputFormat: OutputFormat, tone: Tone,
    constraints: seq<string>): (r: Request)
    ensures r.goal == Text.JsTrim(goal)
    ensures r.context.None? <==> Text.JsTrim(context) == ""
    ensures r.context.Some? ==> r.context.value == Text.JsTrim(context)
    ensures r.outputFormat == outputFormat && r.tone == tone
    ensures r.constraints.None? <==> constraints == []
    ensures r.constraints.Some? ==> r.constraints.value == constraints
  {
    Request(Text.JsTrim(goal),
      if Text.JsTrim(context) != "" then Some(Text.JsTrim(context)) else None,
      outputFormat, tone,
      if |constraints| > 0 then Some(constraints) else None)
  }

  /** A request the form lets through passes the proxy's validation and the
      backend's model, and its goal needs no further trimming. */
  lemma SubmittedRequestIsAccepted(goal: string, context: string, outputFormat: OutputFormat,
    tone: Tone, constraints: seq<string>)
    requires GoalError(goal).None?
    ensures var r := SubmittedRequest(goal, context, outputFormat, tone, constraints);
      Proxy.ValidRequest(RequestToJson(r)) &&
      Schemas.ValidateRequest(RequestToJson(r)) == Ok(r) &&
      Text.JsTrim(r.goal) == r.goal
  {
    var r := SubmittedRequest(goal, context, outputFormat, tone, constraints);
    Text.StripIdempotent(Text.IsJsWhitespace, goal);
    Proxy.ClientRequestValid(r);
    Schemas.ValidateRequestRoundTrip(r);
  }

  /** `toggleConstraint` on the list of selected constraints: a new
      constraint goes last; a selected one is removed with every copy, the
      others keeping their order and their number. */
  function Toggled(selected: seq<string>, c: string): (r: seq<string>)
    ensures c in r <==> c !in selected
    ensures c !in selected ==> r == selected + [c]
    ensures c in selected ==> Seqs.IsSubsequence(r, selected)
    ensures forall x :: x != c ==> multiset(r)[x] == multiset(selected)[x]
  {
    if c in selected then
      Seqs.FilterIsSubsequence(x => x != c, selected);
      Seqs.FilterMultiset(x => x != c, selected);
      Seqs.Filter(x => x != c, selected)
    else selected + [c]
  }

  predicate NoDuplicates(xs: seq<string>) {
    forall i, j :: 0 <= i < j < |xs| ==> xs[i] != xs[j]
  }

  /** Toggling twice restores a list that did not hold the constraint. */
  lemma ToggleTwice(selected: seq<string>, c: string)
    requires c !in selected
    ensures Toggled(Toggled(selected, c), c) == selected
  {
    var t := selected + [c];
    Seqs.FilterConcat(x => x != c, selected, [c]);
    Seqs.FilterKeepsAll(x => x != c, selected);
  }

  /** Toggling keeps the list free of duplicates, in selection order. */
  lemma ToggleKeepsNoDuplicates(selected: seq<string>, c: string)
    requires NoDuplicates(selected)
    ensures NoDuplicates(Toggled(selected, c))
  {
    if c in selected {
      NoDuplicatesFilter(selected, c);
    }
  }

  lemma {:induction false} NoDuplicatesFilter(xs: seq<string>, c: string)
    requires NoDuplicates(xs)
    ensures NoDuplicates(Seqs.Filter(x => x != c, xs))
  {
    if xs != [] {
      NoDuplicatesFilter(xs[1..], c);
      var rest := Seqs.Filter(x => x != c, xs[1..]);
      if xs[0] != c {
        assert Seqs.Filter(x => x != c, xs) == [xs[0]] + rest;
      }
    }
  }

  /** `initialData`: any subset of a request's fields. */
  datatype InitialData = InitialData(goal: Option<string>, context: Option<string>,
    outputFormat: Option<OutputFormat>, tone: Option<Tone>, constraints: Option<seq<string>>)

  /** The form's initial data for a previous request. */
  function FromRequest(r: Request): (d: InitialData)
    ensures d.goal == Some(r.goal) && d.context == r.context && d.constraints == r.constraints
    ensures d.outputFormat == Some(r.outputFormat) && d.tone == Some(r.tone)
  {
    InitialData(Some(r.goal), r.context, Some(r.outputFormat), Some(r.tone), r.constraints)
  }

  class AgentInputForm {
    var goal: string
    var context: string
    var outputFormat: OutputFormat
    var tone: Tone
    var constraints: seq<string>
    var goalError: Option<string>

    /** The initial `useState` values: each field from `initialData` or its
        default (empty, `plan`, `professional`, no constraints). */
    constructor(initial: Option<InitialData>)
      ensures goal == (if initial.Some? && initial.value.goal.Some? then initial.value.goal.value else "")
      ensures context == (if initial.Some? && initial.value.context.Some? then initial.value.context.value else "")
      ensures outputFormat == (if initial.Some? && initial.value.outputFormat.Some? then initial.value.outputFormat.value else Plan)
      ensures tone == (if initial.Some? && initial.value.tone.Some? then initial.value.tone.value else Professional)
      ensures constraints == (if initial.Some? && initial.value.constraints.Some? then initial.value.constraints.value else [])
      ensures goalError.None?
    {
      var d := initial.GetOr(InitialData(None, None, None, None, None));
      goal := d.goal.GetOr("");
      context := d.context.GetOr("");
      outputFormat := d.outputFormat.GetOr(Plan);
      tone := d.tone.GetOr(Professional);
      constraints := d.constraints.GetOr([]);
      goalError := None;
    }

    /** The goal textarea's `onChange`: a new goal clears its error. */
    method EditGoal(value: string)
      modifies this
      ensures goal == value && goalError.None?
      ensures context == old(context) && outputFormat == old(outputFormat) && tone == old(tone)
      ensures constraints == old(constraints)
    {
      goal := value;
      if goalError.Some? {
        goalError := None;
      }
    }

    method EditContext(value: string)
      modifies this
      ensures context == value
      ensures goal == old(goal) && outputFormat == old(outputFormat) && tone == old(tone)
      ensures constraints == old(constraints) && goalError == old(goalError)
    {
      context := value;
    }

    method SelectFormat(f: OutputFormat)
      modifies this
      ensures outputFormat == f
      ensures goal == old(goal) && context == old(context) && tone == old(tone)
      ensures constraints == old(constraints) && goalError == old(goalError)
    {
      outputFormat := f;
    }

    method SelectTone(t: Tone)
      modifies this
      ensures tone == t
      ensures goal == old(goal) && context == old(context) && outputFormat == old(outputFormat)
      ensures constraints == old(constraints) && goalError == old(goalError)
    {
      tone := t;
    }

    /** A badge's `onClick`, ignored while a run is in progress. */
    method ClickConstraint(c: string, isRunning: bool)
      modifies this
      ensures constraints == if isRunning then old(constraints) else Toggled(old(constraints), c)
      ensures goal == old(goal) && context == old(context) && outputFormat == old(outputFormat)
      ensures tone == old(tone) && goalError == old(goalError)
    {
      if !isRunning {
        constraints := Toggled(constraints, c);
      }
    }

    /** `validate`: records the goal's error and reports whether there is
        none. */
    method Validate() returns (valid: bool)
      modifies this
      ensures goalError == GoalError(goal)
      ensures valid <==> goalError.None?
      ensures goal == old(goal) && context == old(context) && outputFormat == old(outputFormat)
      ensures tone == old(tone) && constraints == old(constraints)
    {
      goalError := GoalError(goal);
      valid := goalError.None?;
    }

    /** `handleSubmit`: the request passed to `onSubmit`, or nothing when the
        goal is refused. */
    method HandleSubmit() returns (submitted: Option<Request>)
      modifies this
      ensures goalError == GoalError(goal)
      ensures submitted.Some? <==> goalError.None?
      ensures submitted.Some? ==>
        submitted.value == SubmittedRequest(goal, context, outputFormat, tone, constraints)
      ensures goal == old(goal) && context == old(context) && outputFormat == old(outputFormat)
      ensures tone == old(tone) && constraints == old(constraints)
    {
      var valid := Validate();
      if !valid {
        return None;
      }
      var trimmedContext := Text.JsTrim(context);
      submitted := Some(Request(Text.JsTrim(goal),
        if trimmedContext != "" then Some(trimmedContext) else None,
        outputFormat, tone,
        if |constraints| > 0 then Some(constraints) else None));
    }

    /** `handleReset`: back to the defaults, whatever the initial data was. */
    method HandleReset()
      modifies this
      ensures goal == "" && context == "" && outputFormat == Plan && tone == Professional
      ensures constraints == [] && goalError.None?
    {
      goal := "";
      context := "";
      outputFormat := Plan;
      tone := Professional;
      constraints := [];
      goalError := None;
    }

    /** The submit button is enabled: never during a run, and never for a
        goal that `validate` would call missing. */
    predicate CanSubmit(isRunning: bool): (enabled: bool)
      reads this
      ensures enabled <==> !isRunning && GoalError(goal) != Some(GoalRequired)
    {
      !isRunning && Text.JsTrim(goal) != ""
    }
  }
}
