// The wizard footer (src/components/StepFooter.tsx): the Next and Back transitions,
// the Back button's disabled rule and the Next button's label.

module StepFooter {

  /** What a click leads to: the page's own callback, a step route, the review page, or nothing. */
  datatype FooterAction = CallOverride | GoToStep(step: int) | GoToReview | NoAction

  const LastStep := 5

  /** `handleNext` (lines 21-29): the override when given, else the next step, else review. */
  function HandleNext(currentStep: int, hasOnNext: bool): (r: FooterAction)
    ensures r == CallOverride <==> hasOnNext
    ensures !hasOnNext ==> (r == GoToReview <==> currentStep >= LastStep)
    ensures r.GoToStep? ==> currentStep < LastStep && r.step == currentStep + 1
    ensures r != NoAction
  {
    if hasOnNext then CallOverride
    else if currentStep < LastStep then GoToStep(currentStep + 1)
    else GoToReview
  }

  /** `handleBack` (lines 31-37): the override when given, else the previous step, else nothing. */
  function HandleBack(currentStep: int, hasOnBack: bool): (r: FooterAction)
    ensures r == CallOverride <==> hasOnBack
    ensures !hasOnBack ==> (r == NoAction <==> currentStep <= 1)
    ensures r.GoToStep? ==> currentStep > 1 && r.step == currentStep - 1
    ensures r != GoToReview
  {
    if hasOnBack then CallOverride
    else if currentStep > 1 then GoToStep(currentStep - 1)
    else NoAction
  }

  /** The Back button is disabled on the first step only (line 44). */
  function BackDisabled(currentStep: int): (r: bool)
    ensures currentStep >= 1 ==> (r <==> HandleBack(currentStep, false) == NoAction)
  {
    currentStep == 1
  }

  /** The Next button's label (line 57). */
  function NextLabel(currentStep: int): (r: string)
    ensures r == "Review Configuration" <==> currentStep == LastStep
    ensures r == "Next" <==> currentStep != LastStep
  {
    if currentStep == LastStep then "Review Configuration" else "Next"
  }

  /** Within the wizard's steps, Next then Back returns to the step one started from. */
  lemma NextThenBack(s: int)
    requires 1 <= s < LastStep
    ensures HandleNext(s, false) == GoToStep(s + 1)
    ensures HandleBack(s + 1, false) == GoToStep(s)
  {
  }

  /** Within the wizard's steps, Next stays in the wizard or goes to review, never backwards. */
  lemma NextStaysInWizard(s: int)
    requires 1 <= s <= LastStep
    ensures var a := HandleNext(s, false);
      a == GoToReview || (a.GoToStep? && 2 <= a.step <= LastStep)
  {
  }

  /** Within the wizard's steps, the Next label names the review exactly when Next goes there. */
  lemma LabelsMatchActions(s: int)
    requires 1 <= s <= LastStep
    ensures NextLabel(s) == "Review Configuration" <==> HandleNext(s, false) == GoToReview
  {
  }
}
