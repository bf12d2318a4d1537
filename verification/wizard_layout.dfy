// The wizard shell (src/components/WizardLayout.tsx): the step table, the route step,
// the step-click gate, the progress figure and the per-step status.

module WizardLayout {
  import opened Types
  import opened ParameterStore

  datatype StepInfo = StepInfo(id: int, name: string, description: string)

  /** The `steps` table (lines 9-15). */
  const Steps: seq<StepInfo> := [
    StepInfo(1, "Industry", "Select your industry sector"),
    StepInfo(2, "Technology", "Choose the technology focus"),
    StepInfo(3, "Solution", "Pick the solution type"),
    StepInfo(4, "Variant", "Select solution variant"),
    StepInfo(5, "Product", "Configure parameters and calculations")
  ]

  lemma StepsAreOneToFive()
    ensures |Steps| == 5
    ensures forall i :: 0 <= i < |Steps| ==> Steps[i].id == i + 1
  {
  }

  /** The current step: the route's step number, 1 when the route has none (line 20). The
      routes of src/App.tsx:26-31 declare no `:step` parameter, so the app always takes the
      `None` case. */
  function RouteStep(routeStep: Option<int>): (r: int)
    ensures routeStep.None? ==> r == 1
    ensures routeStep.Some? ==> r == routeStep.value
  {
    routeStep.OrElse(1)
  }

  /** The effect of lines 23-25: the store's step follows the route. */
  method SyncCurrentStep(store: Store, routeStep: Option<int>)
    modifies store
    ensures store.currentStep == RouteStep(routeStep)
    ensures store.hierarchy == old(store.hierarchy) && store.parameters == old(store.parameters)
    ensures store.calculations == old(store.calculations) && store.patches == old(store.patches)
  {
    store.SetCurrentStep(RouteStep(routeStep));
  }

  /** `handleStepClick` (lines 27-31): the step navigated to, or None when the click is ignored. */
  function StepClick(currentStep: int, target: int): (r: Option<int>)
    ensures r.Some? <==> target <= currentStep
    ensures r.Some? ==> r.value == target
  {
    if target <= currentStep then Some(target) else None
  }

  /** `progress` (line 33), in percent. */
  function Progress(currentStep: int): (r: real)
    ensures r == (currentStep as real) * 20.0
  {
    (currentStep as real) / (|Steps| as real) * 100.0
  }

  datatype StepStatus = Current | Completed | Locked

  /** The class chosen for a step's button (lines 60-66). */
  function Status(stepId: int, currentStep: int): (r: StepStatus)
    ensures r == Current <==> stepId == currentStep
    ensures r == Completed <==> stepId < currentStep
    ensures r == Locked <==> stepId > currentStep
  {
    if stepId == currentStep then Current
    else if stepId < currentStep then Completed
    else Locked
  }

  datatype Badge = CheckMark | StepNumber(n: int)

  /** The badge inside a step's button (line 75): a check for earlier steps, else the number. */
  function BadgeOf(stepId: int, currentStep: int): (r: Badge)
    ensures r == CheckMark <==> Status(stepId, currentStep) == Completed
    ensures r.StepNumber? ==> r.n == stepId
  {
    if stepId < currentStep then CheckMark else StepNumber(stepId)
  }

  /** A step can be clicked to exactly when it is not locked. */
  lemma ClickableIffNotLocked(currentStep: int, target: int)
    ensures StepClick(currentStep, target).Some? <==> Status(target, currentStep) != Locked
  {
  }

  /** The bar shows some progress and never overflows exactly on the wizard's own steps, and is
      full exactly on the last one. */
  lemma ProgressInRange(currentStep: int)
    ensures 0.0 < Progress(currentStep) <= 100.0 <==> 1 <= currentStep <= |Steps|
    ensures Progress(currentStep) == 100.0 <==> currentStep == |Steps|
  {
  }
}
