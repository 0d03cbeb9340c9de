/** app/app/page.tsx: the workspace page. Its state is a class; each run
    started gets a handle standing for its `AbortController`, and the
    callbacks of a run whose controller was aborted change nothing. The
    output panel shows one of five views, chosen by `Visible`. */
module Workspace {
  import opened Wrappers
  import opened Types
  import MockApi

  /** The views of the output panel. */
  datatype Panel = StatusPanel | Skeleton | ErrorPanel | OutputPanel | EmptyPanel

  /** The string `error` is truthy. */
  predicate HasError(error: Option<string>) {
    error.Some? && error.value != ""
  }

  /** The views whose JSX condition holds. */
  function Visible(isRunning: bool, runStatus: Option<RunStatus>, error: Option<string>,
    output: Option<Response>): set<Panel>
  {
    (if isRunning && runStatus.Some? then {StatusPanel} else {}) +
    (if isRunning && runStatus.None? then {Skeleton} else {}) +
    (if !isRunning && HasError(error) then {ErrorPanel} else {}) +
    (if !isRunning && !HasError(error) && output.Some? then {OutputPanel} else {}) +
    (if !isRunning && !HasError(error) && output.None? then {EmptyPanel} else {})
  }

  /** The five conditions are exclusive and cover every state: exactly one
      view is shown, and an error hides an output. */
  lemma ExactlyOnePanel(isRunning: bool, runStatus: Option<RunStatus>, error: Option<string>,
    output: Option<Response>)
    ensures |Visible(isRunning, runStatus, error, output)| == 1
    ensures !isRunning && HasError(error) ==> Visible(isRunning, runStatus, error, output) == {ErrorPanel}
  {
    var v := Visible(isRunning, runStatus, error, output);
    if isRunning && runStatus.Some? { assert v == {StatusPanel}; }
    else if isRunning { assert v == {Skeleton}; }
    else if HasError(error) { assert v == {ErrorPanel}; }
    else if output.Some? { assert v == {OutputPanel}; }
    else { assert v == {EmptyPanel}; }
  }

  const InitialStatus: RunStatus := RunStatus(Validating, 0, None)

  class WorkspacePage {
    var isRunning: bool
    var runStatus: Option<RunStatus>
    var output: Option<Response>
    var error: Option<string>
    var lastRequest: Option<Request>
    var isSaved: bool
    /** `abortControllerRef.current`, by run handle. */
    var current: Option<nat>
    /** Runs whose controller has been aborted. */
    var aborted: set<nat>
    /** The handle the next run receives. */
    var nextRun: nat
    /** The persisted history that `saveToHistory` writes. */
    const store: MockApi.HistoryStore

    /** Every run that has not been aborted is the current one, so at most
        one run can still change the page; while a run is in progress the
        page shows its status and no stale output or error. */
    ghost predicate Valid()
      reads this, store
    {
      store.Valid() &&
      (forall h :: h in aborted ==> h < nextRun) &&
      (current.Some? ==> current.value < nextRun && current.value !in aborted) &&
      (forall h :: 0 <= h < nextRun && h !in aborted ==> current == Some(h)) &&
      (isRunning ==> runStatus.Some? && output.None? && error.None?)
    }

    /** A run whose callbacks still reach the page. */
    predicate Live(run: nat)
      reads this
    {
      run < nextRun && run !in aborted
    }

    constructor(store: MockApi.HistoryStore)
      requires store.Valid()
      ensures Valid() && this.store == store
      ensures !isRunning && runStatus.None? && output.None? && error.None?
      ensures lastRequest.None? && !isSaved && current.None? && nextRun == 0
      ensures Visible(isRunning, runStatus, error, output) == {EmptyPanel}
    {
      isRunning := false;
      runStatus := None;
      output := None;
      error := None;
      lastRequest := None;
      isSaved := false;
      current := None;
      aborted := {};
      nextRun := 0;
      this.store := store;
    }

    /** `handleSubmit` up to the call of `runAgent`: the previous run is
        aborted and a new one becomes the only live run. */
    method Submit(request: Request) returns (run: nat)
      requires Valid()
      modifies this
      ensures Valid()
      ensures run == old(nextRun) && nextRun == run + 1 && current == Some(run)
      ensures aborted == old(aborted) + (if old(current).Some? then {old(current).value} else {})
      ensures forall h: nat :: h < nextRun ==> (Live(h) <==> h == run)
      ensures isRunning && runStatus == Some(InitialStatus) && output.None? && error.None?
      ensures lastRequest == Some(request) && !isSaved
      ensures Visible(isRunning, runStatus, error, output) == {StatusPanel}
    {
      if current.Some? {
        aborted := aborted + {current.value};
      }
      run := nextRun;
      nextRun := nextRun + 1;
      current := Some(run);
      isRunning := true;
      runStatus := Some(InitialStatus);
      output := None;
      error := None;
      lastRequest := Some(request);
      isSaved := false;
    }

    /** The `onProgress` callback of run `run`. */
    method Progress(run: nat, status: RunStatus)
      requires Valid()
      modifies this
      ensures Valid()
      ensures Live(run) ==> runStatus == Some(status)
      ensures !Live(run) ==> runStatus == old(runStatus)
      ensures isRunning == old(isRunning) && output == old(output) && error == old(error)
      ensures lastRequest == old(lastRequest) && isSaved == old(isSaved)
      ensures current == old(current) && aborted == old(aborted) && nextRun == old(nextRun)
    {
      if Live(run) {
        runStatus := Some(status);
      }
    }

    /** The rest of `handleSubmit` once `runAgent` settles for run `run`:
        `Ok` carries the response, `Err` the thrown error's message. */
    method Settle(run: nat, result: Result<Response, string>)
      requires Valid()
      modifies this
      ensures Valid()
      ensures !Live(run) ==>
        isRunning == old(isRunning) && runStatus == old(runStatus) &&
        output == old(output) && error == old(error)
      ensures Live(run) ==> !isRunning && runStatus.None?
      ensures Live(run) && result.Ok? ==> output == Some(result.value) && error == old(error)
      ensures Live(run) && result.Err? ==> error == Some(result.error) && output == old(output)
      ensures lastRequest == old(lastRequest) && isSaved == old(isSaved)
      ensures current == old(current) && aborted == old(aborted) && nextRun == old(nextRun)
    {
      if Live(run) {
        if result.Ok? {
          output := Some(result.value);
        } else {
          error := Some(result.error);
        }
        runStatus := None;
        isRunning := false;
      }
    }

    /** `handleCancel`: the current run is aborted, so no run is live. */
    method Cancel()
      requires Valid()
      modifies this
      ensures Valid()
      ensures current.None? && !isRunning && runStatus.None?
      ensures aborted == old(aborted) + (if old(current).Some? then {old(current).value} else {})
      ensures forall h: nat :: h < nextRun ==> !Live(h)
      ensures output == old(output) && error == old(error) && nextRun == old(nextRun)
      ensures lastRequest == old(lastRequest) && isSaved == old(isSaved)
    {
      if current.Some? {
        aborted := aborted + {current.value};
        current := None;
      }
      isRunning := false;
      runStatus := None;
    }

    /** `handleSave`: the shown output and the request behind it go to the
        history. */
    method Save()
      requires Valid()
      modifies this, store
      ensures Valid()
      ensures output.Some? && lastRequest.Some? ==>
        isSaved && store.items == MockApi.Prepended(old(store.items),
          ToHistoryItem(lastRequest.value, output.value))
      ensures !(output.Some? && lastRequest.Some?) ==>
        isSaved == old(isSaved) && store.items == old(store.items)
      ensures isRunning == old(isRunning) && runStatus == old(runStatus)
      ensures output == old(output) && error == old(error) && lastRequest == old(lastRequest)
      ensures current == old(current) && aborted == old(aborted) && nextRun == old(nextRun)
    {
      if output.Some? && lastRequest.Some? {
        store.SaveToHistory(lastRequest.value, output.value);
        isSaved := true;
      }
    }

    /** `handleRetry` and `handleRunAgain`: submit the last request again. */
    method RunAgain() returns (run: Option<nat>)
      requires Valid()
      modifies this
      ensures Valid()
      ensures run.Some? <==> old(lastRequest).Some?
      ensures run.Some? ==>
        run.value == old(nextRun) && nextRun == run.value + 1 && current == run &&
        aborted == old(aborted) + (if old(current).Some? then {old(current).value} else {})
      ensures run.Some? ==> forall h: nat :: h < nextRun ==> (Live(h) <==> h == run.value)
      ensures run.Some? ==>
        isRunning && runStatus == Some(InitialStatus) && output.None? && error.None? &&
        lastRequest == old(lastRequest) && !isSaved
      ensures run.None? ==>
        isRunning == old(isRunning) && runStatus == old(runStatus) &&
        output == old(output) && error == old(error) &&
        lastRequest == old(lastRequest) && isSaved == old(isSaved) &&
        current == old(current) && aborted == old(aborted) && nextRun == old(nextRun)
    {
      if lastRequest.Some? {
        var r := Submit(lastRequest.value);
        run := Some(r);
      } else {
        run := None;
      }
    }
  }

  /** A full run without interference: submitted, then settled with a
      response, it ends on the output view; settled with a message, on the
      error view, or on the empty view when the message is empty. */
  method RunToCompletion(page: WorkspacePage, request: Request, result: Result<Response, string>)
    requires page.Valid()
    modifies page
    ensures page.Valid()
    ensures result.Ok? ==> Visible(page.isRunning, page.runStatus, page.error, page.output) == {OutputPanel}
    ensures result.Err? && result.error != "" ==>
      Visible(page.isRunning, page.runStatus, page.error, page.output) == {ErrorPanel}
    ensures result == Err("") ==>
      Visible(page.isRunning, page.runStatus, page.error, page.output) == {EmptyPanel}
  {
    var run := page.Submit(request);
    page.Settle(run, result);
  }

  /** A run started and then cancelled leaves the empty view, and its late
      result changes nothing. */
  method CancelThenSettle(page: WorkspacePage, request: Request, result: Result<Response, string>)
    requires page.Valid()
    modifies page
    ensures page.Valid()
    ensures Visible(page.isRunning, page.runStatus, page.error, page.output) == {EmptyPanel}
  {
    var run := page.Submit(request);
    page.Cancel();
    page.Settle(run, result);
  }

  /** Starting a second run before the first settles makes the first run's
      result invisible: the page shows the second run's result. */
  method OverlappingRuns(page: WorkspacePage, first: Request, second: Request,
    firstResult: Result<Response, string>, secondResponse: Response)
    requires page.Valid()
    modifies page
    ensures page.Valid()
    ensures page.output == Some(secondResponse) && page.lastRequest == Some(second)
    ensures Visible(page.isRunning, page.runStatus, page.error, page.output) == {OutputPanel}
  {
    var run1 := page.Submit(first);
    var run2 := page.Submit(second);
    page.Settle(run1, firstResult);
    page.Settle(run2, Ok(secondResponse));
  }
}
