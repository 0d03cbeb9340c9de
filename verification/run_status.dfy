/** components/agent-run-status.tsx: how each of the four progress steps is
    drawn for a run status, and when the error box and the cancel button
    appear. */
module RunStatusView {
  import opened Types

  const Steps: seq<RunStep> := [Validating, Calling, Generating, Finalizing]

  /** `STEPS.findIndex((s) => s.key === status.currentStep)`. */
  function CurrentIndex(step: RunStep): (r: int)
    ensures -1 <= r < |Steps|
    ensures r == -1 <==> IsTerminal(step)
    ensures r >= 0 ==> Steps[r] == step && forall j :: 0 <= j < r ==> Steps[j] != step
  {
    match step
    case Validating => 0
    case Calling => 1
    case Generating => 2
    case Finalizing => 3
    case _ => -1
  }

  /** The icon a step row gets; a failed mark wins over done, done over active. */
  datatype StepState = Done | Active | Failed | Pending

  function StepStateAt(status: RunStatus, index: nat): StepState
    requires index < |Steps|
  {
    var currentIndex := CurrentIndex(status.currentStep);
    var isError := status.currentStep == StepError;
    var isComplete := status.currentStep == Complete;
    var isActive := Steps[index] == status.currentStep;
    var isDone := !isError && (isComplete || index < currentIndex);
    var isFailed := isError && index == currentIndex;
    if isFailed then Failed else if isDone then Done else if isActive then Active else Pending
  }

  /** A complete run shows every step done. */
  lemma CompleteShowsAllDone(status: RunStatus, index: nat)
    requires status.currentStep == Complete && index < |Steps|
    ensures StepStateAt(status, index) == Done
  {
  }

  /** At progress step k, earlier steps are done, step k is active and the
      later ones are pending. */
  lemma ProgressStepStates(status: RunStatus, k: nat, index: nat)
    requires k < |Steps| && status.currentStep == Steps[k] && index < |Steps|
    ensures index < k ==> StepStateAt(status, index) == Done
    ensures index == k ==> StepStateAt(status, index) == Active
    ensures index > k ==> StepStateAt(status, index) == Pending
  {
  }

  /** On error no step is done, and since `findIndex` gives -1 for "error"
      no step is marked failed either: every step is drawn pending. */
  lemma ErrorShowsAllPending(status: RunStatus, index: nat)
    requires status.currentStep == StepError && index < |Steps|
    ensures StepStateAt(status, index) == Pending
  {
  }

  /** The cancel button: shown while the step is neither complete nor error. */
  function ShowsCancel(status: RunStatus): (shown: bool)
    ensures shown <==> CurrentIndex(status.currentStep) >= 0
  {
    status.currentStep != Complete && status.currentStep != StepError
  }

  /** The error box: shown for an error step that carries an error. */
  function ShowsErrorBox(status: RunStatus): (shown: bool)
    ensures shown ==> !ShowsCancel(status)
    ensures shown <==> status.currentStep == StepError && status.error.Some?
  {
    status.currentStep == StepError && status.error.Some?
  }

  /** The heading above the progress bar. */
  function Heading(status: RunStatus): (h: string)
    ensures h == "Processing..." <==> ShowsCancel(status)
  {
    if status.currentStep == StepError then "Error occurred"
    else if status.currentStep == Complete then "Complete"
    else "Processing..."
  }
}
