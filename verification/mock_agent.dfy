/** lib/api/mockAgent.ts: the simulated agent run. It walks the four progress
    steps, checking the abort signal before each and before the final
    decision, may take its fault path, and otherwise builds a response from a
    fixed table. Delays are dropped; the random fault, the random confidence,
    the generated id and the clock are parameters. */
module MockAgent {
  import opened Wrappers
  import opened Types

  const Steps: seq<RunStep> := [Validating, Calling, Generating, Finalizing, Complete]

  const CancelledMessage: string := "Agent run was cancelled"
  const FaultMessage: string := "Agent encountered an unexpected error. Please try again."
  const FaultCode: string := "AGENT_ERROR"
  const ConstraintsWarning: string := "Some constraints may affect the scope of recommendations"

  /** The abort signal never resets: `abortAt` is the first checkpoint at which
      it is seen aborted. Checkpoints 0 to 3 precede the four progress events,
      checkpoint 4 precedes the final decision. */
  predicate AbortedAt(abortAt: Option<nat>, checkpoint: nat) {
    abortAt.Some? && abortAt.value <= checkpoint
  }

  /** `((i + 1) / steps.length) * 100`, exact for the four progress steps. */
  function Progress(i: nat): (p: int)
    requires i < |Steps| - 1
    ensures p == 20 * (i + 1) && 0 < p < 100
  {
    (i + 1) * 100 / |Steps|
  }

  function ProgressEvent(i: nat): RunStatus
    requires i < |Steps| - 1
  {
    RunStatus(Steps[i], Progress(i), None)
  }

  /** The first `n` progress events. */
  function ProgressEvents(n: nat): (events: seq<RunStatus>)
    requires n <= |Steps| - 1
    ensures |events| == n && forall i :: 0 <= i < n ==> events[i] == ProgressEvent(i)
  {
    seq(n, i requires 0 <= i < n => ProgressEvent(i))
  }

  const ErrorEvent: RunStatus := RunStatus(StepError, 0, Some(AgentError(FaultMessage, Some(FaultCode))))
  const CompleteEvent: RunStatus := RunStatus(Complete, 100, None)

  /** Steps come in state-machine order, progress never goes down before a
      terminal event, and only the last event may be terminal. */
  ghost predicate OrderedRun(events: seq<RunStatus>) {
    (forall i :: 0 <= i < |events| - 1 ==> !IsTerminal(events[i].currentStep)) &&
    (forall i, j :: 0 <= i < j < |events| && !IsTerminal(events[j].currentStep) ==>
      events[i].progress < events[j].progress) &&
    (forall i :: 0 <= i < |events| && !IsTerminal(events[i].currentStep) ==>
      i < |Steps| - 1 && events[i] == ProgressEvent(i))
  }

  lemma ProgressEventsOrdered(n: nat, last: seq<RunStatus>)
    requires n <= |Steps| - 1 && |last| <= 1 && (|last| == 1 ==> IsTerminal(last[0].currentStep))
    ensures OrderedRun(ProgressEvents(n) + last)
  {
    var events := ProgressEvents(n) + last;
    forall i | 0 <= i < |events| - 1 ensures !IsTerminal(events[i].currentStep) {
      assert events[i] == ProgressEvent(i);
    }
  }

  /** An entry of the `mockResponses` table. */
  datatype Template = Template(title: string, summary: string, sections: seq<Section>)

  const PlanTemplate: Template := Template(
    "Strategic Action Plan",
    "A comprehensive plan has been generated based on your goals and context. This plan outlines key phases, milestones, and actionable steps to achieve your objective efficiently.",
    [
      Section("Phase 1: Foundation", [
        "Conduct initial research and gather requirements",
        "Define success metrics and KPIs",
        "Assemble core team and assign responsibilities",
        "Set up communication channels and workflows"]),
      Section("Phase 2: Development", [
        "Create detailed project timeline with milestones",
        "Begin iterative development cycles",
        "Implement feedback loops for continuous improvement",
        "Document progress and learnings"]),
      Section("Phase 3: Launch & Review", [
        "Prepare launch checklist and contingencies",
        "Execute soft launch with limited audience",
        "Gather feedback and iterate",
        "Full rollout with monitoring in place"])
    ])

  const ChecklistTemplate: Template := Template(
    "Action Checklist",
    "Your goal has been broken down into actionable items. Complete each task in order for best results.",
    [
      Section("Preparation", [
        "Review all available resources and documentation",
        "Clear your schedule for focused work",
        "Set up your workspace and tools",
        "Notify relevant stakeholders"]),
      Section("Execution", [
        "Complete the primary objective first",
        "Handle secondary tasks in priority order",
        "Document any blockers or issues",
        "Request help if stuck for more than 30 minutes"]),
      Section("Follow-up", [
        "Review completed work for quality",
        "Update relevant documentation",
        "Share results with stakeholders",
        "Schedule next steps if needed"])
    ])

  const EmailTemplate: Template := Template(
    "Email Draft",
    "A professional email draft has been generated based on your context and tone preferences.",
    [
      Section("Subject Line", ["Re: Follow-up on Our Recent Discussion"]),
      Section("Email Body", [
        "Dear [Recipient],",
        "I hope this message finds you well. Following up on our recent conversation, I wanted to provide you with a comprehensive update on the progress we've made.",
        "We have successfully completed the initial phases and are now moving forward with implementation. The team has been working diligently to ensure we meet our agreed-upon timelines.",
        "Please let me know if you have any questions or would like to schedule a call to discuss further.",
        "Best regards,",
        "[Your Name]"])
    ])

  const SummaryActionsTemplate: Template := Template(
    "Summary & Action Items",
    "Your input has been analyzed and distilled into a clear summary with specific action items.",
    [
      Section("Executive Summary", [
        "The primary objective focuses on achieving measurable outcomes within the defined constraints.",
        "Key success factors have been identified and prioritized.",
        "Resource allocation has been optimized for maximum efficiency."]),
      Section("Immediate Actions", [
        "Schedule kickoff meeting with all stakeholders",
        "Finalize resource allocation and budget approval",
        "Create project timeline with key milestones"]),
      Section("Next Steps", [
        "Review and approve proposed action items",
        "Assign owners to each action item",
        "Set up progress tracking and reporting"])
    ])

  /** `mockResponses[key]`, keyed by the format's literal. */
  function MockResponses(key: string): (t: Option<Template>)
    ensures t.Some? <==> key in FormatLiterals
  {
    if key == "plan" then Some(PlanTemplate)
    else if key == "checklist" then Some(ChecklistTemplate)
    else if key == "email" then Some(EmailTemplate)
    else if key == "summary_actions" then Some(SummaryActionsTemplate)
    else None
  }

  /** `mockResponses[request.outputFormat] || mockResponses.plan`: the plan
      fallback is never taken, since every format has its entry, and every
      entry has a title and at least one section. */
  function TemplateFor(format: OutputFormat): (t: Template)
    ensures MockResponses(FormatLiteral(format)) == Some(t)
    ensures t.title != "" && |t.sections| > 0
  {
    MockResponses(FormatLiteral(format)).GetOr(PlanTemplate)
  }

  /** `request.constraints?.length` is truthy. */
  predicate HasConstraints(request: Request) {
    request.constraints.Some? && |request.constraints.value| > 0
  }

  /** The response of a successful simulated run. `jitter` is the value of
      `Math.random()` used for the confidence. */
  function BuildResponse(request: Request, runId: string, jitter: real, createdAt: string): (r: Response)
    requires 0.0 <= jitter < 1.0
    ensures r.status == Success && r.runId == runId && r.createdAt == createdAt
    ensures var t := TemplateFor(request.outputFormat);
      r.title == t.title && r.summary == t.summary && r.sections == t.sections
    ensures r.warnings.Some? <==> HasConstraints(request)
    ensures r.warnings.Some? ==> r.warnings.value == [ConstraintsWarning]
    ensures r.confidence.Some? && 0.85 <= r.confidence.value < 0.95 && ConfidenceInRange(r.confidence)
  {
    var t := TemplateFor(request.outputFormat);
    Response(runId, Success, t.title, t.summary, t.sections,
      if HasConstraints(request) then Some([ConstraintsWarning]) else None,
      Some(0.85 + jitter * 0.1), createdAt)
  }

  /** `simulateMockAgentRun`: returns the events passed to `onProgress`, in
      order, and the settled promise (`Err` carries the thrown message). */
  method SimulateMockAgentRun(request: Request, abortAt: Option<nat>, fault: bool,
    runId: string, jitter: real, createdAt: string)
    returns (events: seq<RunStatus>, result: Result<Response, string>)
    requires 0.0 <= jitter < 1.0
    ensures OrderedRun(events)
    ensures AbortedAt(abortAt, |Steps| - 1) ==>
      events == ProgressEvents(abortAt.value) && result == Err(CancelledMessage)
    ensures !AbortedAt(abortAt, |Steps| - 1) && fault ==>
      events == ProgressEvents(|Steps| - 1) + [ErrorEvent] && result == Err(FaultMessage)
    ensures !AbortedAt(abortAt, |Steps| - 1) && !fault ==>
      events == ProgressEvents(|Steps| - 1) + [CompleteEvent] &&
      result == Ok(BuildResponse(request, runId, jitter, createdAt))
  {
    events := [];
    var i := 0;
    while i < |Steps| - 1
      invariant 0 <= i <= |Steps| - 1
      invariant events == ProgressEvents(i)
      invariant abortAt.Some? ==> i <= abortAt.value
    {
      if AbortedAt(abortAt, i) {
        ProgressEventsOrdered(i, []);
        assert ProgressEvents(i) + [] == ProgressEvents(i);
        result := Err(CancelledMessage);
        return;
      }
      events := events + [RunStatus(Steps[i], (i + 1) * 100 / |Steps|, None)];
      i := i + 1;
    }

    if AbortedAt(abortAt, |Steps| - 1) {
      ProgressEventsOrdered(i, []);
      assert ProgressEvents(i) + [] == ProgressEvents(i);
      result := Err(CancelledMessage);
      return;
    }

    if fault {
      events := events + [ErrorEvent];
      ProgressEventsOrdered(i, [ErrorEvent]);
      result := Err(FaultMessage);
      return;
    }

    var response := BuildResponse(request, runId, jitter, createdAt);
    events := events + [CompleteEvent];
    ProgressEventsOrdered(i, [CompleteEvent]);
    result := Ok(response);
  }
}
