/**
 * The generic stepper: an internal step counter that an external `activeStep`
 * overrides, moved by step clicks, Next, Back and Reset, each reported to an
 * optional `onStepChange` listener.
 */
module EnhancedStepper {
  import opened Js

  /** Which navigation button was pressed. */
  datatype Button = BackButton | NextButton | ResetButton

  /** Back is disabled on the first step. */
  predicate BackEnabled(active: int)
  {
    active != 0
  }

  /** Next is disabled once every step is done. */
  predicate NextEnabled(active: int, stepCount: nat)
  {
    active != stepCount
  }

  /** Reset takes the place of Next once every step is done, when `showResetOnComplete` is set. */
  predicate ResetShown(active: int, stepCount: nat, showReset: bool)
  {
    active == stepCount && showReset
  }

  /** Whether the button is on screen and enabled. */
  predicate Enabled(active: int, b: Button, stepCount: nat, showReset: bool)
  {
    match b
    case BackButton => BackEnabled(active)
    case NextButton => !ResetShown(active, stepCount, showReset) && NextEnabled(active, stepCount)
    case ResetButton => ResetShown(active, stepCount, showReset)
  }

  /** The step after a press; a button that is disabled or not shown changes nothing. */
  function Press(active: int, b: Button, stepCount: nat, showReset: bool): (r: int)
    ensures !Enabled(active, b, stepCount, showReset) ==> r == active
    ensures b == BackButton && BackEnabled(active) ==> r == active - 1
    ensures b == NextButton && NextEnabled(active, stepCount) ==> r == active + 1
    ensures b == ResetButton && ResetShown(active, stepCount, showReset) ==> r == 0
    ensures 0 <= active <= stepCount ==> 0 <= r <= stepCount
  {
    if !Enabled(active, b, stepCount, showReset) then active
    else
      match b
      case BackButton => active - 1
      case NextButton => active + 1
      case ResetButton => 0
  }

  /** The step after a run of presses, in order. */
  function PressAll(active: int, presses: seq<Button>, stepCount: nat, showReset: bool): int
    decreases presses
  {
    if presses == [] then active else PressAll(Press(active, presses[0], stepCount, showReset), presses[1..], stepCount, showReset)
  }

  /** Starting from step 0, the horizontal buttons never leave [0, steps.length]. */
  lemma {:induction false} ButtonsStayInBounds(active: int, presses: seq<Button>, stepCount: nat, showReset: bool)
    requires 0 <= active <= stepCount
    ensures 0 <= PressAll(active, presses, stepCount, showReset) <= stepCount
    decreases presses
  {
    if presses != [] {
      ButtonsStayInBounds(Press(active, presses[0], stepCount, showReset), presses[1..], stepCount, showReset);
    }
  }

  /** The stepper is completed exactly at step `steps.length`. */
  predicate Completed(active: int, stepCount: nat)
  {
    active == stepCount
  }

  /** Next reads Finish on the last step. */
  function NextCaption(active: int, stepCount: nat, nextText: string, finishText: string): (r: string)
    ensures r == finishText <==> active == stepCount - 1 || nextText == finishText
  {
    if active == stepCount - 1 then finishText else nextText
  }

  /** Pressing Next on the last step completes the stepper; then Next is disabled and Reset is offered only when asked for. */
  lemma NextFromLastCompletes(stepCount: nat, showReset: bool)
    requires stepCount > 0
    ensures var done := Press(stepCount - 1, NextButton, stepCount, showReset);
      Completed(done, stepCount) && !Enabled(done, NextButton, stepCount, showReset)
      && (Enabled(done, ResetButton, stepCount, showReset) <==> showReset)
  {
  }

  class Stepper {
    var internalStep: int
    const stepCount: nat
    const external: Option<int>
    const allowClickNavigation: bool
    const linear: bool
    const showResetOnComplete: bool

    /** The step shown: the external one when it is given, the internal one otherwise. */
    function ActiveStep(): (r: int)
      reads this
      ensures external.Some? ==> r == external.value
      ensures external.None? ==> r == internalStep
    {
      if external.Some? then external.value else internalStep
    }

    constructor (stepCount: nat, external: Option<int>, allowClickNavigation: bool, linear: bool, showResetOnComplete: bool)
      ensures internalStep == 0
      ensures this.stepCount == stepCount && this.external == external
      ensures this.allowClickNavigation == allowClickNavigation && this.linear == linear
      ensures this.showResetOnComplete == showResetOnComplete
    {
      internalStep := 0;
      this.stepCount, this.external := stepCount, external;
      this.allowClickNavigation, this.linear := allowClickNavigation, linear;
      this.showResetOnComplete := showResetOnComplete;
    }

    /**
     * `handleStep`: ignored unless click navigation is on, and in linear mode
     * for targets more than one step ahead; backward jumps always go through.
     */
    method StepTo(step: int) returns (reported: Option<int>)
      modifies this
      ensures var refused := !allowClickNavigation || (linear && step > old(ActiveStep()) + 1);
        (refused ==> internalStep == old(internalStep) && reported == None)
        && (!refused ==> internalStep == step && reported == Some(step))
    {
      if !allowClickNavigation || (linear && step > ActiveStep() + 1) {
        return None;
      }
      internalStep := step;
      reported := Some(step);
    }

    /** `handleNext`: one step on from the active step; `onComplete` fires when that is `steps.length`. */
    method Next() returns (reported: int, completes: bool)
      modifies this
      ensures internalStep == old(ActiveStep()) + 1 && reported == internalStep
      ensures completes <==> internalStep == stepCount
    {
      var newStep := ActiveStep() + 1;
      internalStep := newStep;
      reported := newStep;
      completes := newStep == stepCount;
    }

    /** `handleBack`. */
    method Back() returns (reported: int)
      modifies this
      ensures internalStep == old(ActiveStep()) - 1 && reported == internalStep
    {
      internalStep := ActiveStep() - 1;
      reported := internalStep;
    }

    /** `handleReset`. */
    method Reset() returns (reported: int)
      modifies this
      ensures internalStep == 0 && reported == 0
    {
      internalStep := 0;
      reported := 0;
    }

    /**
     * A press on the horizontal buttons, which act on the active step whether
     * it is supplied from outside or not: an enabled button moves the internal
     * step as `Press` says and reports the new step to `onStepChange`, and
     * Next signals completion on reaching the step count; a button that is
     * disabled or not shown does nothing.
     */
    method PressButton(b: Button) returns (reported: Option<int>, completes: bool)
      modifies this
      ensures Enabled(old(ActiveStep()), b, stepCount, showResetOnComplete) ==>
        internalStep == Press(old(ActiveStep()), b, stepCount, showResetOnComplete) && reported == Some(internalStep)
      ensures !Enabled(old(ActiveStep()), b, stepCount, showResetOnComplete) ==>
        internalStep == old(internalStep) && reported.None?
      ensures completes <==> b == NextButton && reported.Some? && internalStep == stepCount
      ensures 0 <= old(ActiveStep()) <= stepCount && 0 <= old(internalStep) <= stepCount ==> 0 <= internalStep <= stepCount
    {
      reported, completes := None, false;
      if !Enabled(ActiveStep(), b, stepCount, showResetOnComplete) {
        return;
      }
      match b {
        case BackButton =>
          var s := Back();
          reported := Some(s);
        case NextButton =>
          var s, c := Next();
          reported, completes := Some(s), c;
        case ResetButton =>
          var s := Reset();
          reported := Some(s);
      }
    }
  }
}
