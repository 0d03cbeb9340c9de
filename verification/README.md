# PydanticPilot, modelled in Dafny

PydanticPilot is a productivity agent. A Next.js frontend turns a goal, a
context, an output format, a tone and a list of constraints into a run of an
AI agent. Progress is shown while the run is in flight, and the structured
result (title, summary, sections, warnings, confidence) can be saved to a
local history and exported as Markdown. A FastAPI backend validates the
request with pydantic, prompts a primary and then a fallback chat model,
normalises whatever the model returned into the response shape, and
rate-limits clients.

This project models the logic of that system and proves properties about
it. There is one Dafny module per source file:

| module | source |
|---|---|
| `Types` | lib/types.ts |
| `Schemas` | backend/app/schemas.py |
| `MockApi` | lib/mock-api.ts (the history store is a class; the Markdown export is a method with loops, proved against a function) |
| `HistoryList`, `HistoryDrawer`, `RunStatusView` | the three history and status components |
| `MockAgent` | lib/api/mockAgent.ts (the step loop is a method) |
| `AgentClient` | lib/api/agent.ts |
| `Workspace` | app/app/page.tsx (the page state is a class) |
| `Proxy` | app/api/agent/run/route.ts |
| `InputForm` | components/agent-input-form.tsx (the form state is a class) |
| `BackendAgent` | backend/app/agent.py |
| `BackendMain` | backend/app/main.py (the rate limiter is a class) |

`Wrappers`, `Seqs`, `Text` and `Json` are shared helpers:
- Option and Result.
- `filter`, subsequences, `includes`, `join`.
- JavaScript and Python whitespace, `trim`/`strip`, lower-casing, UTF-16 length, decimal rendering.
- A parsed JSON value.

Everything the running system gets from outside is a parameter of the model:
- the network (`fetch`, the model API);
- the clock;
- `Math.random`, generated ids and UUIDs;
- abort signals, each given as the time it fires;
- `json.dumps`, `str`, the UUID4 check and Python's `float` on strings.

Where the code and its documentation disagree, the model follows the code:
- **Goal length (form).** The form bounds the goal at 500 UTF-16 code units *before* trimming (`InputForm.LengthBoundIgnoresTrim`).
- **Context length.** The 2000-character context limit is only displayed, never checked.
- **Goal length (proxy and backend).** Neither the proxy nor the backend bounds the goal's length. The backend does not trim it either, so a goal of spaces passes pydantic but not the proxy (`Proxy.BackendAcceptsMore`).
- **Null context.** The proxy rejects a `null` context; the backend accepts it.
- **Trailing slashes.** The browser removes one trailing slash from its API base. The backend's CORS setup removes every trailing slash from the frontend origin.
- **Failed step marks.** On an `error` status, `findIndex` gives -1, so no step is ever drawn as failed (`RunStatusView.ErrorShowsAllPending`).
- **Unreachable fallbacks.** Two fallbacks in the code can never be taken:
  - the `"Unknown error"` default of the backend's failure response (`BackendAgent.FailureNeverUnknown`);
  - the `plan` entry used when the mock table has no entry for a format (`MockAgent.TemplateFor`).
- **Exceptions.** An exception inside the backend's agent becomes an HTTP 200 reply whose status is `"error"`, which the browser accepts as an output (`BackendMain.CrashReachesClient`). A missing API key becomes such a reply too.
- **Run id.** `agent_run` keeps the agent's own run id; its own id is used only for crash replies.

## Model

| member | source | states |
|---|---|---|
| Types.ParseFormat | lib/types.ts:2 | a string names an output format exactly when it is one of the four literals, and the format read back prints as that literal |
| Types.FormatRoundTrip | lib/types.ts:2 | reading back the literal of any format gives that format |
| Types.FormatsAreFour | lib/types.ts:2 | there are exactly four distinct format literals and each round-trips |
| Types.ParseTone | lib/types.ts:3 | a string names a tone exactly when it is one of the three literals |
| Types.ToneRoundTrip | lib/types.ts:3 | reading back the literal of any tone gives that tone |
| Types.ParseStatus | lib/types.ts:21 | a response status is exactly "success" or "error" |
| Types.RequestToJson | lib/types.ts:5-11 | the serialised request carries goal, format and tone, and carries context and constraints exactly when they are defined |
| Types.ToHistoryItem | lib/types.ts:37-39 | a history item carries the response's fields and the request |
| Types.ResponseOf | lib/types.ts:37-39 | a history item is usable as a response with the same id, title and sections |
| Types.HistoryItemRoundTrip | lib/types.ts:37-39 | splitting a history item into response and request and joining them again loses nothing, in both directions |
| Types.StepLiteralInjective | lib/types.ts:42-48 | the six run steps have six distinct literals |
| Schemas.LiteralsMatchFrontend | backend/app/schemas.py:5-6 | the backend's format, tone and status literals are exactly the frontend's unions |
| Schemas.ValidateConstraints | backend/app/schemas.py:18-25 | None passes unchanged, a list passes unchanged exactly when every item is a string, and anything else is rejected with the fixed message |
| Schemas.ValidateRequest | backend/app/schemas.py:9-25 | an accepted request has a goal of at least one character, known format and tone, and context and constraints read from the body |
| Schemas.ValidateRequestRoundTrip | backend/app/schemas.py:9-16 | every request the client serialises with a non-empty goal is accepted and read back unchanged |
| Schemas.GoalIsNotTrimmed | backend/app/schemas.py:10 | a goal of one space is accepted: min_length is checked on the untrimmed goal and there is no maximum |
| Schemas.EmptyGoalRejected | backend/app/schemas.py:10 | an empty goal is rejected on the goal field |
| Schemas.ValidateContent | backend/app/schemas.py:30 | section content is accepted exactly when every item is a string, and is kept unchanged |
| Schemas.ValidateSection | backend/app/schemas.py:28-30 | an accepted section has the body's heading and content |
| Schemas.ValidateSections | backend/app/schemas.py:38 | a list of sections is accepted item by item, keeping length and order |
| Schemas.ResponseFromFields | backend/app/schemas.py:33-41 | an accepted response has a UUID4 run id and a known status; a missing confidence becomes 0.0, a given one is read as pydantic's lax float reads it (a number, a boolean, or a string `float` parses) and one it cannot read rejects the response; a missing or null warnings becomes None |
| Schemas.ValidateResponse | backend/app/schemas.py:33-41 | the same rules applied to a JSON object, including the lax reading of the confidence |
| Schemas.SectionsRoundTrip | backend/app/schemas.py:28-38 | serialised sections validate back to the same sections |
| Schemas.ResponseRoundTrip | backend/app/schemas.py:33-41 | a response with a confidence and a UUID4 run id validates back to itself after serialisation |
| Schemas.ValidateWithConfidence | backend/app/schemas.py:33-41 | the response's fields validate back to it with the confidence written as any value that reads as that confidence |
| Schemas.StringConfidenceAccepted | backend/app/schemas.py:40 | a confidence written as a numeric string such as "0.85" is accepted as that number |
| Schemas.BoolConfidenceAccepted | backend/app/schemas.py:40 | a boolean confidence is accepted as 1.0 or 0.0 |
| Schemas.BadConfidenceRejected | backend/app/schemas.py:40 | a null, list, object or unparsable string confidence makes the response invalid |
| Schemas.ValidateErrorResponse | backend/app/schemas.py:44-46 | an error body is accepted exactly when both message and code are strings |
| Schemas.ErrorBodyValidates | backend/app/schemas.py:44-46 | every message/code body is accepted with its own message and code |
| MockApi.Prepended | lib/mock-api.ts:26-28 | after a save the new item is first, the length is min(old + 1, 50), and the old items follow in order |
| MockApi.WithoutRun | lib/mock-api.ts:33 | deleting keeps, in order, exactly the items with another run id, each with as many copies as before, and an absent id leaves the list unchanged |
| MockApi.DeleteIdempotent | lib/mock-api.ts:31-35 | deleting the same run id twice is deleting it once |
| MockApi.Newest | lib/mock-api.ts:28 | the cut keeps the first min(n, 50) items |
| MockApi.PrependedNewest | lib/mock-api.ts:26-28 | saving into a cut list equals cutting after the save |
| MockApi.SaveAllKeepsNewest | lib/mock-api.ts:17-29 | a series of saves leaves the newest 50 of all items, newest first: what falls off is always the oldest |
| MockApi.SixtySaves | lib/mock-api.ts:26-28 | sixty saves into an empty history keep fifty, with the last save first |
| MockApi.HistoryStore.constructor | lib/mock-api.ts:11-15 | with nothing stored, the history is empty |
| MockApi.HistoryStore.GetHistory | lib/mock-api.ts:11-15 | returns the stored list |
| MockApi.HistoryStore.SaveToHistory | lib/mock-api.ts:17-29 | the stored list becomes the prepended, capped list, and the cap of 50 is kept |
| MockApi.HistoryStore.DeleteFromHistory | lib/mock-api.ts:31-35 | the stored list loses exactly the entries with that run id |
| MockApi.HistoryStore.ClearHistory | lib/mock-api.ts:37-39 | the next read of the history gives the empty list |
| MockApi.BulletsConcat | lib/mock-api.ts:48-50 | the bullets of two item lists are the bullets of each, in order |
| MockApi.SectionsMarkdownConcat | lib/mock-api.ts:46-52 | the Markdown of two section lists is that of each, in order |
| MockApi.BulletsCons | lib/mock-api.ts:48-50 | each content item is one "- item" line, followed by the rest |
| MockApi.MarkdownLayout | lib/mock-api.ts:42-62 | the document starts with "# title", a blank line, then the summary; the warnings block comes last and is present exactly when there is a warning |
| MockApi.AppendBullets | lib/mock-api.ts:48-50 | the item loop appends the bullets of the content |
| MockApi.AppendQuotes | lib/mock-api.ts:56-58 | the warning loop appends one "> w" line per warning |
| MockApi.AppendSection | lib/mock-api.ts:47-51 | one section iteration appends the heading, the bullets and a blank line |
| MockApi.ExportAsMarkdown | lib/mock-api.ts:42-62 | the string built by the loops is the document `Markdown` describes |
| HistoryList.FilteredItems | components/history-list.tsx:69-76 | the result is an order-preserving subsequence holding exactly the items whose goal or title contains the query, ignoring case, and whose format passes the filter, each with as many copies as the history has |
| HistoryList.EmptyQueryMatches | components/history-list.tsx:71-72 | an empty query matches every item |
| HistoryList.NoFilterIsIdentity | components/history-list.tsx:69-76 | an empty query with "all" formats returns the list unchanged |
| HistoryList.SearchIgnoresCase | components/history-list.tsx:71-72 | lower-casing the query does not change what is kept |
| HistoryList.FormatNarrows | components/history-list.tsx:73-74 | what one format keeps is also kept with "all" formats |
| HistoryList.EmptyStateTitle | components/history-list.tsx:109-112 | with nothing shown, the title is "No runs saved yet" exactly when the history is empty, and "No results found" otherwise |
| HistoryList.NoResultsNeedsAFilter | components/history-list.tsx:109-112 | without a query or format filter the title is never "No results found" |
| HistoryDrawer.PreviewSection | components/history-detail-drawer.tsx:114-127 | at most the first three items are shown, and "+k more items" appears exactly when there are more than three, with k = length - 3 |
| HistoryDrawer.Render | components/history-detail-drawer.tsx:45-135 | a null item renders nothing; at most the first two sections are previewed; "+k more sections" appears exactly when there are more than two, with k = length - 2 |
| HistoryDrawer.PreviewAccountsForEverything | components/history-detail-drawer.tsx:108-135 | the shown sections and items plus the counters add up to everything the run holds |
| HistoryDrawer.RestoreClicked | components/history-detail-drawer.tsx:146-149 | restore is invoked, then the drawer closes; what that does is RestoreClickedEffect |
| HistoryDrawer.CopyClicked | components/history-detail-drawer.tsx:157 | copy is invoked and the drawer stays open; what that does is CopyClickedEffect |
| HistoryDrawer.DeleteClicked | components/history-detail-drawer.tsx:165-168 | delete is invoked with the run id, then the drawer closes; what that does is DeleteClickedEffect |
| HistoryDrawer.RestoreClickedEffect | app/history/page.tsx:69-85 | the run's request is left for the workspace, the page moves there and the drawer closes with nothing selected; history, list and clipboard are untouched |
| HistoryDrawer.CopyClickedEffect | app/history/page.tsx:57-67 | the clipboard holds the run's Markdown export and nothing else changes; the drawer stays open |
| HistoryDrawer.DeleteClickedEffect | app/history/page.tsx:45-55 | every entry of the run leaves both the stored history and the list, all other entries keep their number of copies, and the drawer closes with nothing selected |
| HistoryDrawer.DeleteClickedTwice | app/history/page.tsx:45-55 | deleting the same run from the drawer twice leaves the page as deleting once |
| RunStatusView.CurrentIndex | components/agent-run-status.tsx:8-21 | the step's position among the four progress steps, or -1 exactly for complete and error |
| RunStatusView.CompleteShowsAllDone | components/agent-run-status.tsx:51 | on complete every step is done |
| RunStatusView.ProgressStepStates | components/agent-run-status.tsx:50-51 | at progress step k, earlier steps are done, step k is active and later ones are pending |
| RunStatusView.ErrorShowsAllPending | components/agent-run-status.tsx:51-52 | on error no step is done and none is marked failed: every step is pending |
| RunStatusView.ShowsCancel | components/agent-run-status.tsx:98 | the cancel button shows exactly when the step is neither complete nor error |
| RunStatusView.ShowsErrorBox | components/agent-run-status.tsx:91 | the error box shows exactly for an error step that carries an error, and never together with the cancel button |
| RunStatusView.Heading | components/agent-run-status.tsx:31-35 | the heading reads "Processing..." exactly while the cancel button shows |
| MockAgent.Progress | lib/api/mockAgent.ts:162 | progress of step i is 20(i+1), strictly between 0 and 100 |
| MockAgent.ProgressEvents | lib/api/mockAgent.ts:154-165 | the first n progress events are steps 0..n-1 with their progress |
| MockAgent.ProgressEventsOrdered | lib/api/mockAgent.ts:154-203 | progress events followed by at most one terminal event form an ordered run: rising progress, with at most one terminal event, which comes last |
| MockAgent.MockResponses | lib/api/mockAgent.ts:12-134 | the table has an entry exactly for the four format literals |
| MockAgent.TemplateFor | lib/api/mockAgent.ts:185 | every format finds its own entry, so the plan fallback is never taken |
| MockAgent.BuildResponse | lib/api/mockAgent.ts:187-198 | success with the template's title, summary and sections; the one fixed warning exactly when there are constraints; confidence in [0.85, 0.95) |
| MockAgent.SimulateMockAgentRun | lib/api/mockAgent.ts:140-206 | an abort seen at checkpoint k stops after k progress events with "Agent run was cancelled"; otherwise four progress events, then one error event and the fault message, or the complete event and the built response |
| AgentClient.ApiBase | lib/api/agent.ts:7 | the base is the raw value with at most one trailing slash removed |
| AgentClient.ApiBaseUndoesSlash | lib/api/agent.ts:7 | removing the slash undoes appending one |
| AgentClient.ApiBaseKeepsSecondSlash | lib/api/agent.ts:7 | a base ending in two slashes keeps one |
| AgentClient.Endpoint | lib/api/agent.ts:89-91 | the configured base plus "/agent/run", or "/api/agent/run" when the base is empty |
| AgentClient.EndpointShape | lib/api/agent.ts:89-91 | every endpoint ends with "/agent/run" and begins with the configured base |
| AgentClient.CombineAbortSignals | lib/api/agent.ts:186-198 | from its creation on, the combined signal is aborted exactly when one of its inputs is |
| AgentClient.ErrorField | lib/api/agent.ts:111-117 | a non-empty string field of the error body, or the fallback |
| AgentClient.HttpError | lib/api/agent.ts:107-120 | a non-ok reply keeps its HTTP status; without a readable body the message and code are the defaults |
| AgentClient.NullBodyReportedAsNetworkError | lib/api/agent.ts:134-166 | as written, an ok reply whose body is null is reported as NETWORK_ERROR |
| AgentClient.Settle | lib/api/agent.ts:107-178 | accepted exactly for an ok reply with truthy runId and status. Non-ok gives the HTTP error with its status. An abort gives CANCELLED when the external signal fired and TIMEOUT otherwise. TypeError gives NETWORK_ERROR, an unreadable body PARSE_ERROR, any other body INVALID_RESPONSE, and anything else UNKNOWN_ERROR |
| AgentClient.SettleDiffersOnlyOnNull | lib/api/agent.ts:122-178 | the corrected classification agrees with the code on every outcome except a null body |
| AgentClient.CallAgentApi | lib/api/agent.ts:73-180 | posts the serialised request to the endpoint; the fetch signal fires exactly when the caller's signal fired, or 30 s have passed with no answer (the timer is cleared once fetch settles); the result is the corrected classification, equal to the code's own on every outcome but a null body |
| AgentClient.ConfigFrom | lib/api/agent.ts:5-6 | mock mode exactly when the variable is "true"; an unset base is empty |
| AgentClient.RunAgent | lib/api/agent.ts:42-64 | mock mode simulates and never posts, ending cancelled with the events so far when the caller's signal is seen, else with the fault or the built response; otherwise the run is posted as CallAgentApi states |
| Proxy.ProxyValidImpliesBackendValid | app/api/agent/run/route.ts:6-21 | every body the proxy lets through passes the backend's request model |
| Proxy.BackendAcceptsMore | app/api/agent/run/route.ts:12-15 | a blank goal and a null context pass the backend's model but not the proxy |
| Proxy.ClientRequestValid | app/api/agent/run/route.ts:6-21 | a serialised client request passes exactly when its trimmed goal is not empty |
| Proxy.Forwarded | app/api/agent/run/route.ts:44-60 | the route forwards exactly a parsed, valid body with a configured backend, to base + "/agent/run" |
| Proxy.Post | app/api/agent/run/route.ts:23-74 | 400 INVALID_JSON before validation, 400 VALIDATION_ERROR, 500 BACKEND_NOT_CONFIGURED with no call, the backend's status and body unchanged, or 502 BACKEND_ERROR |
| Proxy.OwnRepliesAreErrorResponses | app/api/agent/run/route.ts:23-74 | every reply the route makes itself is a valid error body; any other reply is the backend's own |
| InputForm.GoalErrorCases | components/agent-input-form.tsx:66-75 | "Goal is required" exactly for a blank goal; the length error exactly for a non-blank goal over 500 code units before trimming; otherwise none |
| InputForm.LengthBoundIgnoresTrim | components/agent-input-form.tsx:68-71 | 501 spaces and one letter are refused as too long |
| InputForm.SubmittedRequest | components/agent-input-form.tsx:81-87 | trimmed goal, trimmed context or none when it trims to empty, and constraints only when some are chosen |
| InputForm.SubmittedRequestIsAccepted | components/agent-input-form.tsx:77-88 | a request the form lets through passes the proxy and round-trips through the backend's model |
| InputForm.Toggled | components/agent-input-form.tsx:99-105 | an absent constraint is appended at the end; a present one is removed, leaving an order-preserving subsequence; the clicked constraint changes membership and every other one keeps its number of copies |
| InputForm.ToggleTwice | components/agent-input-form.tsx:99-105 | toggling an absent constraint twice restores the list |
| InputForm.ToggleKeepsNoDuplicates | components/agent-input-form.tsx:99-105 | toggling keeps a duplicate-free list duplicate-free |
| InputForm.NoDuplicatesFilter | components/agent-input-form.tsx:102 | removing a constraint keeps a duplicate-free list duplicate-free |
| InputForm.FromRequest | components/agent-input-form.tsx:55-63 | initial data taken from a request carries every field of it |
| InputForm.AgentInputForm.constructor | components/agent-input-form.tsx:55-64 | each field starts from the initial data or its default, with no error |
| InputForm.AgentInputForm.EditGoal | components/agent-input-form.tsx:123-126 | typing replaces the goal and clears its error, leaving the rest |
| InputForm.AgentInputForm.EditContext | components/agent-input-form.tsx:152 | typing replaces the context only |
| InputForm.AgentInputForm.SelectFormat | components/agent-input-form.tsx:164 | selecting replaces the format only |
| InputForm.AgentInputForm.SelectTone | components/agent-input-form.tsx:184 | selecting replaces the tone only |
| InputForm.AgentInputForm.ClickConstraint | components/agent-input-form.tsx:215 | a click toggles the constraint, except during a run |
| InputForm.AgentInputForm.Validate | components/agent-input-form.tsx:66-75 | records the goal's error and reports whether there is none |
| InputForm.AgentInputForm.HandleSubmit | components/agent-input-form.tsx:77-88 | submits exactly when the goal has no error, and then the normalised request |
| InputForm.AgentInputForm.HandleReset | components/agent-input-form.tsx:90-97 | every field returns to its default, whatever the initial data was |
| InputForm.AgentInputForm.CanSubmit | components/agent-input-form.tsx:230 | the button is enabled exactly outside a run for a goal that is not missing |
| Workspace.ExactlyOnePanel | app/app/page.tsx:176-205 | exactly one output view shows, and an error hides an output |
| Workspace.WorkspacePage.constructor | app/app/page.tsx:32-38 | the page starts idle, on the empty view |
| Workspace.WorkspacePage.Submit | app/app/page.tsx:40-55 | the previous run is aborted, the new run is the only live one, and the page shows the validating status with no output or error |
| Workspace.WorkspacePage.Progress | app/app/page.tsx:60-64 | a live run's event replaces the status; an aborted run's event changes nothing |
| Workspace.WorkspacePage.Settle | app/app/page.tsx:68-83 | a live run's result sets the output, or its failure sets the error, and running stops; an aborted run's result changes nothing |
| Workspace.WorkspacePage.Cancel | app/app/page.tsx:86-97 | the current run is aborted and cleared, so no run is live, and running stops |
| Workspace.WorkspacePage.Save | app/app/page.tsx:99-104 | with both an output and a request, they are prepended to the history and marked saved; otherwise nothing changes |
| Workspace.WorkspacePage.RunAgain | app/app/page.tsx:106-116 | with a last request, the page is left as Submit of that request leaves it (previous run aborted, a new only live run, validating status, no output or error, unsaved); without one, no field changes |
| Workspace.RunToCompletion | app/app/page.tsx:40-83 | an undisturbed run ends on the output view, or on the error view for a non-empty message |
| Workspace.CancelThenSettle | app/app/page.tsx:40-97 | a cancelled run's late result leaves the empty view |
| Workspace.OverlappingRuns | app/app/page.tsx:40-84 | when a second run starts before the first settles, the page shows the second run's result |
| BackendAgent.ContextLine | backend/app/agent.py:28 | the context line appears exactly for a truthy context |
| BackendAgent.ConstraintsLine | backend/app/agent.py:25-27 | the constraints line appears exactly for a non-empty list, joined with ", " |
| BackendAgent.BuildMessages | backend/app/agent.py:24-41 | exactly two messages: the system prompt, then the user's request |
| BackendAgent.UserMessageShape | backend/app/agent.py:29-41 | the user message opens with the goal, and holds only goal, format and tone exactly when there is no context and no constraint |
| BackendAgent.FirstStringFieldIsFirst | backend/app/agent.py:131-134 | the value found is the string under the earliest listed key that holds one; nothing is found exactly when no listed key holds a string |
| BackendAgent.PlanItems | backend/app/agent.py:124-140 | one item per element of a plan list, otherwise the plan's `str` alone |
| BackendAgent.ItemTextsElementwise | backend/app/agent.py:126-138 | the k-th item is the text of the k-th element of the list |
| BackendAgent.StringPlanItems | backend/app/agent.py:126-128 | a list of strings gives those strings, stripped |
| BackendAgent.ExtractPlanItems | backend/app/agent.py:124-140 | the loop builds exactly `PlanItems` |
| BackendAgent.NonEmpty | backend/app/agent.py:144 | empty items are dropped |
| BackendAgent.LabelledElementwise | backend/app/agent.py:143-148 | the i-th kept item is kept verbatim when it reads as a day, otherwise prefixed "Day i: " |
| BackendAgent.LabelledKeepsDays | backend/app/agent.py:145-148 | items that all read as days are kept unchanged |
| BackendAgent.DayContent | backend/app/agent.py:143-148 | one entry per non-empty item |
| BackendAgent.LabelDays | backend/app/agent.py:143-148 | the loop builds exactly `DayContent` |
| BackendAgent.DayLabelReadsAsDay | backend/app/agent.py:145-148 | a "Day n: " label reads as a day |
| BackendAgent.DayContentLabels | backend/app/agent.py:143-148 | every entry is non-empty, reads as a day, and is the kept item or the item behind its "Day i: " label |
| BackendAgent.DayContentIdempotent | backend/app/agent.py:143-148 | normalising the content again changes nothing |
| BackendAgent.PlanResponse | backend/app/agent.py:150-160 | the summary is the first entry's first min(length, 240) characters, or the default sentence without entries; one "7-Day Plan" section; no warnings; confidence 0.7 |
| BackendAgent.FallbackText | backend/app/agent.py:163-168 | the stripped output; when it is empty, the dumped object, or the fixed sentence when nothing was parsed or the dump is empty; never empty |
| BackendAgent.TextResponse | backend/app/agent.py:170-179 | the summary is the text's first line cut to 240: a prefix of the text without line breaks that is 240 long, or the whole text, or stops at a line break; one "Result" section holding the text; the warning names the model |
| BackendAgent.Adopt | backend/app/agent.py:110-113 | a conforming output gets the server's run id and a creation time when it had none, and nothing else changes |
| BackendAgent.Normalize | backend/app/agent.py:82-179 | conforming JSON is adopted; a non-conforming object with "plan" becomes a plan response; anything else (plain text, non-object JSON, or an object of unknown shape) becomes the text response over the output or the dumped object; the run id is always the server's |
| BackendAgent.Attempts | backend/app/agent.py:213-214 | attempts 1..n of one model, none for a non-positive count |
| BackendAgent.Schedule | backend/app/agent.py:206-209 | every schedule ends with the fallback model's single attempt |
| BackendAgent.FailureResponse | backend/app/agent.py:282-291 | status error, no sections, confidence 0.0, warnings = [last error or "Unknown error"] |
| BackendAgent.ApiKey | backend/app/agent.py:188 | the OpenRouter key when set, else the MIMO key, else none |
| BackendAgent.TryModel | backend/app/agent.py:214-272 | attempts a prefix of the model's attempts, each a fresh call of the run, stopping at the first success; when all fail, all are made and the last error names the last failure |
| BackendAgent.ScheduleOfPrefix | backend/app/agent.py:213-214 | the attempts of the first k models come first in the whole schedule |
| BackendAgent.ScheduleOfRunAgent | backend/app/agent.py:206-209 | the two-entry attempt list stands for the primary model's retries, then one fallback attempt |
| BackendAgent.TryAll | backend/app/agent.py:213-272 | the models are tried in order, a prefix of the schedule, stopping at the first success; when none succeeds the whole schedule is tried and the last error is that of the last attempt |
| BackendAgent.Outcome | backend/app/agent.py:244-291 | the response keeps the server's run id; after a failed last attempt it is an error response with exactly one warning, never "Unknown error" |
| BackendAgent.RunAgent | backend/app/agent.py:182-291 | no key raises before any call. Otherwise the attempts follow the schedule and stop at the first success, whose output is normalised. When every attempt fails, the whole schedule is tried and the failure response names the last error |
| BackendAgent.FailureNeverUnknown | backend/app/agent.py:279-288 | a failed run always reports a real error, never "Unknown error" |
| BackendAgent.SameModelFallbackIsFreshCall | backend/app/agent.py:206-216 | with the fallback model equal to the primary one, the fallback attempt is a new call: a failed primary call followed by an answer ends the run on that answer |
| BackendMain.Advance | backend/app/main.py:81-85 | an unseen or expired client starts a window at now with count 1; otherwise the count goes up by one |
| BackendMain.Replay | backend/app/main.py:78-91 | one decision per request |
| BackendMain.WindowAllowance | backend/app/main.py:81-91 | inside a window holding c requests, exactly the first 120 - c further requests pass |
| BackendMain.AtMost120PerWindow | backend/app/main.py:86-91 | of a client's requests within one window, min(n, 120) pass |
| BackendMain.WindowExpires | backend/app/main.py:82-83 | after 60 s of silence the client starts afresh |
| BackendMain.RateLimiter.constructor | backend/app/main.py:52 | the table starts empty |
| BackendMain.RateLimiter.Check | backend/app/main.py:77-91 | the client's entry is advanced and stored, refused requests included; 429 is returned exactly when the count passes 120; no other client's entry changes |
| BackendMain.TwoRequests | backend/app/main.py:77-91 | two requests through the limiter are decided as `Replay` says |
| BackendMain.StripSlashes | backend/app/main.py:36 | every trailing slash is removed and nothing else |
| BackendMain.AllowedOrigins | backend/app/main.py:34-39 | the two localhost origins, plus the stripped frontend origin when it is set, and nothing else |
| BackendMain.OriginLosesAllSlashes | backend/app/main.py:36 | an origin ending in two slashes loses both |
| BackendMain.CrashResponse | backend/app/main.py:152-161 | status error, no sections, confidence 0.0, warnings = [the exception's message] |
| BackendMain.AgentRun | backend/app/main.py:134-161 | a timeout gives 504 and only a timeout; a finished run keeps its own run id; an exception gives a 200 reply with the crash response |
| BackendMain.CrashReachesClient | backend/app/main.py:150-161 | the browser client accepts a crash reply as an ordinary output |
| BackendMain.CrashResponseValidates | backend/app/main.py:152-161 | the crash response passes the backend's own response model |

## Left out

- Storage and network I/O are parameters or fields, never performed. This covers `localStorage`, `fetch`, `httpx` and `_call_model`, the clipboard and downloads.
- MockApi.HistoryStore.GetHistory: does not model the server-side `typeof window` check or a stored document that fails to parse.
- JSON text is never parsed or printed. Values start out structured (`Json.Value`), and `exportAsJson` is only a call to `JSON.stringify`.
- `json.dumps`, `str`, the UUID4 check, `uuid4()`, `Math.random`, `generateId` and the clocks are parameters.
- The 10% fault chance, the step delays and the 30 s timer are parameters: a fault flag, abort times, and a start time with the time the outcome arrives.
- Asynchrony is not modelled: no promise interleaving and no event listeners. Abort signals are given by the time they fire, and signals never reset.
- Floating point is not modelled:
  - confidence is a real. A confidence string such as "nan" or "inf", which pydantic's float accepts, has no real value, so the `parseFloat` parameter of `Schemas.LaxFloat` can only refuse it;
  - progress is an exact multiple of 20;
  - the limiter's `time.time()` is integer seconds;
  - `Math.round` of the progress is display only.
- Lower-casing covers ASCII letters only. This decides "day " prefixes exactly, but a search for non-ASCII text with other case mappings is not modelled.
- AgentClient.CallAgentApi: the result is the corrected classification `Settle`, not the code's `SettleAsWritten`; the two differ only for an ok response whose body is `null` (see Findings), where the code reports NETWORK_ERROR.
- AgentClient.RunAgent: the posted result is `Settle` as in CallAgentApi, so for an ok `null` body it gives INVALID_RESPONSE where the code gives NETWORK_ERROR.
- AgentClient.ErrorField: a truthy non-string `message` or `code` in an error body falls back to the default here, whereas the source would pass that value on.
- Workspace.WorkspacePage.Settle: the default message for a thrown non-`Error` is not modelled, since every rejection of `runAgent` is an `Error`. The "Run cancelled" toast is also left out.
- BackendAgent.RunAgent: the outcome of each model call is an oracle `reply(k)`, for the run's call number k counting from 0:
  - `Content` carries the string content and its parse;
  - `Undecodable` is a reply body that was not JSON;
  - `CallFailed` covers an HTTP error, a timeout, a reply without `choices`, or a `null` content.
  The built messages are not passed to it.
- The normaliser's unreachable branch is not modelled: it rewrites a status that pydantic would already have rejected.
- `asyncio.wait_for` with its deadline (`request_timeout_seconds + 5`) is the `TimedOut` outcome. FastAPI's 422 reply for a body the model rejects is not modelled.
- Not modelled:
  - settings loading (backend/app/settings.py);
  - logging and the request-id middleware;
  - CORS middleware registration;
  - the `/health` and `/debug/env` routes.
- Presentation-only parts are not modelled:
  - labels, tips and the goal's character counter;
  - components/agent-output-viewer.tsx;
  - app/page.tsx and app/settings/page.tsx;
  - of app/history/page.tsx, everything but the callbacks of the drawer's buttons (`HistoryDrawer.Perform`), including the toasts and the 300 ms load delay;
  - the sidebar, the shell, the skeletons and the empty-state component.

## Findings

| source | as written | input that shows it | evidently intended | confidence | as-written member | corrected member |
|---|---|---|---|---|---|---|
| lib/api/agent.ts:134 | an ok response whose JSON body is `null` makes `data.runId` throw a `TypeError`; the handler at lines 159-166 reports it as NETWORK_ERROR, "Failed to reach agent backend", although the backend answered | status 200 with body `null` | INVALID_RESPONSE, like any other body without a runId | not executed | AgentClient.NullBodyReportedAsNetworkError | AgentClient.Settle |
