/**
 * The three-step booking page (vehicle, date, review): a per-step validator
 * that rebuilds the whole error map and refuses past days, Next and Back, the
 * simulated submit that issues an 'INS-' reference, and which navigation
 * buttons are offered.
 */
module BookInspectionPage {
  import opened Js

  /** The form; the date is a calendar day, absent until one is picked. */
  datatype Form = Form(vehicleId: string, date: Option<int>, notes: string)

  /** The error map: a key is present only when that field has an error. */
  datatype FormErrors = FormErrors(vehicleId: Option<string>, date: Option<string>, notes: Option<string>)

  const NoErrors := FormErrors(None, None, None)
  const EmptyForm := Form("", None, "")

  const Steps := ["Select Vehicle", "Choose Date", "Review & Confirm"]

  const VehicleMessage := "Please select a vehicle"
  const DateMessage := "Please select a date"
  const FutureMessage := "Please select a future date"

  /** Step 0 needs a vehicle, step 1 a day that is not before today; other steps always pass. */
  predicate StepValid(step: int, f: Form, today: int)
  {
    if step == 0 then f.vehicleId != ""
    else if step == 1 then f.date.Some? && f.date.value >= today
    else true
  }

  /**
   * The error map `validateStep` builds: a vehicle message on step 0 without a
   * vehicle, a missing-date or past-date message on step 1, nothing otherwise.
   */
  function StepErrorsOf(step: int, f: Form, today: int): (e: FormErrors)
    ensures e == NoErrors <==> StepValid(step, f, today)
    ensures e.notes.None?
    ensures e.vehicleId.Some? <==> step == 0 && f.vehicleId == ""
    ensures e.vehicleId.Some? ==> e.vehicleId.value == VehicleMessage
    ensures e.date.Some? <==> step == 1 && (f.date.None? || f.date.value < today)
    ensures e.date.Some? ==> e.date.value == if f.date.None? then DateMessage else FutureMessage
  {
    if step == 0 && f.vehicleId == "" then NoErrors.(vehicleId := Some(VehicleMessage))
    else if step == 1 && f.date.None? then NoErrors.(date := Some(DateMessage))
    else if step == 1 && f.date.value < today then NoErrors.(date := Some(FutureMessage))
    else NoErrors
  }

  /**
   * `validateStep`: starts from an empty error map, so the errors of other
   * steps are dropped; `today` is the current calendar day.
   */
  method ValidateStep(step: int, f: Form, today: int) returns (errors: FormErrors, isValid: bool)
    ensures isValid <==> StepValid(step, f, today)
    ensures errors == StepErrorsOf(step, f, today)
  {
    errors := NoErrors;
    isValid := true;
    if step == 0 {
      if f.vehicleId == "" {
        errors := errors.(vehicleId := Some(VehicleMessage));
        isValid := false;
      }
    } else if step == 1 {
      if f.date.None? {
        errors := errors.(date := Some(DateMessage));
        isValid := false;
      } else if f.date.value < today {
        errors := errors.(date := Some(FutureMessage));
        isValid := false;
      }
    }
  }

  // --------------------------------------------------------------- reference

  /** `'INS-' + Math.floor(1000 + Math.random() * 9000)`, with `draw` the floor of `Math.random() * 9000`. */
  function Reference(draw: nat): (r: string)
    requires draw < 9000
    ensures |r| == 8 && r[..4] == "INS-" && AllDigits(r[4..])
  {
    FourDigits(1000 + draw);
    "INS-" + NatToString(1000 + draw)
  }

  lemma FourDigits(n: nat)
    requires 1000 <= n < 10000
    ensures |NatToString(n)| == 4
  {
    assert |NatToString(n / 10 / 10 / 10)| == 1;
    assert |NatToString(n / 10 / 10)| == 2;
    assert |NatToString(n / 10)| == 3;
  }

  /** The reference's number is the four-digit number drawn, between 1000 and 9999. */
  lemma ReferenceNumber(draw: nat)
    requires draw < 9000
    ensures var r := Reference(draw);
      StringToNumber(r[4..]) == Some(1000 + draw) && 1000 <= StringToNumber(r[4..]).value <= 9999
  {
    var r := Reference(draw);
    assert r[4..] == IntToString(1000 + draw);
    NumberOfString(1000 + draw);
  }

  // --------------------------------------------------------------- navigation

  datatype Primary = NextButton | ConfirmButton

  /** The navigation row: hidden after a booking, else an optional Back and one primary button. */
  datatype Buttons = Hidden | Shown(back: bool, primary: Primary, disabled: bool)

  /** Back from step 1 on, Next before the last step and Confirm on it, all disabled while submitting. */
  function NavButtons(activeStep: int, bookingSuccess: bool, submitting: bool): (r: Buttons)
    ensures r.Hidden? <==> bookingSuccess
    ensures r.Shown? ==> (r.back <==> activeStep > 0)
    ensures r.Shown? ==> (r.primary == ConfirmButton <==> activeStep >= |Steps| - 1)
    ensures r.Shown? ==> r.disabled == submitting
  {
    if bookingSuccess then Hidden
    else Shown(activeStep > 0, if activeStep < |Steps| - 1 then NextButton else ConfirmButton, submitting)
  }

  datatype Press = PressBack | PressNext

  /**
   * The step after pressing a button that is shown and enabled; a press on a
   * button that is not offered does nothing, and Next moves only on a valid step.
   */
  function AfterPress(step: int, p: Press, valid: bool): (r: int)
    ensures NavButtons(step, false, false).back && p == PressBack ==> r == step - 1
    ensures p == PressNext && NavButtons(step, false, false).primary == NextButton ==> r == if valid then step + 1 else step
  {
    var b := NavButtons(step, false, false);
    match p
    case PressBack => if b.back then step - 1 else step
    case PressNext => if b.primary == NextButton && valid then step + 1 else step
  }

  function AfterPresses(step: int, presses: seq<Press>, valid: seq<bool>): (r: int)
    requires |valid| == |presses|
    decreases |presses|
  {
    if presses == [] then step else AfterPresses(AfterPress(step, presses[0], valid[0]), presses[1..], valid[1..])
  }

  /** However the offered buttons are pressed, the step stays on one of the three steps. */
  lemma {:induction false} PressesStayOnSteps(step: int, presses: seq<Press>, valid: seq<bool>)
    requires 0 <= step < |Steps| && |valid| == |presses|
    ensures 0 <= AfterPresses(step, presses, valid) < |Steps|
    decreases |presses|
  {
    if presses != [] {
      PressesStayOnSteps(AfterPress(step, presses[0], valid[0]), presses[1..], valid[1..]);
    }
  }

  // --------------------------------------------------------------------- page

  class Page {
    var activeStep: int
    var form: Form
    var errors: FormErrors
    var submitting: bool
    var bookingSuccess: bool
    var bookingId: Option<string>
    var error: Option<string>

    constructor ()
      ensures activeStep == 0 && form == EmptyForm && errors == NoErrors
      ensures !submitting && !bookingSuccess && bookingId.None? && error.None?
    {
      activeStep, form, errors := 0, EmptyForm, NoErrors;
      submitting, bookingSuccess, bookingId, error := false, false, None, None;
    }

    /** The notes input; the error map is left as it is. */
    method ChangeNotes(n: string)
      modifies this
      ensures form == old(form).(notes := n)
      ensures errors == old(errors) && activeStep == old(activeStep) && bookingSuccess == old(bookingSuccess)
      ensures bookingId == old(bookingId) && submitting == old(submitting) && error == old(error)
    {
      form := form.(notes := n);
    }

    method ChangeDate(d: Option<int>)
      modifies this
      ensures form == old(form).(date := d)
      ensures errors == old(errors) && activeStep == old(activeStep) && bookingSuccess == old(bookingSuccess)
      ensures bookingId == old(bookingId) && submitting == old(submitting) && error == old(error)
    {
      form := form.(date := d);
    }

    method ChangeVehicle(v: string)
      modifies this
      ensures form == old(form).(vehicleId := v)
      ensures errors == old(errors) && activeStep == old(activeStep) && bookingSuccess == old(bookingSuccess)
      ensures bookingId == old(bookingId) && submitting == old(submitting) && error == old(error)
    {
      form := form.(vehicleId := v);
    }

    /** `handleNext`: the error map is replaced, and the step moves on only when it validates. */
    method Next(today: int)
      modifies this
      ensures activeStep == if StepValid(old(activeStep), form, today) then old(activeStep) + 1 else old(activeStep)
      ensures errors == StepErrorsOf(old(activeStep), old(form), today)
      ensures form == old(form) && bookingSuccess == old(bookingSuccess) && bookingId == old(bookingId)
      ensures submitting == old(submitting) && error == old(error)
    {
      var e, ok := ValidateStep(activeStep, form, today);
      errors := e;
      if ok {
        activeStep := activeStep + 1;
      }
    }

    /** `handleBack`. */
    method Back()
      modifies this
      ensures activeStep == old(activeStep) - 1
      ensures form == old(form) && errors == old(errors) && bookingSuccess == old(bookingSuccess)
      ensures bookingId == old(bookingId) && submitting == old(submitting) && error == old(error)
    {
      activeStep := activeStep - 1;
    }

    /** `handleSubmit` once the simulated delay has passed: the booking always succeeds. */
    method Submit(draw: nat)
      requires draw < 9000
      modifies this
      ensures bookingSuccess && activeStep == 3 && bookingId == Some(Reference(draw))
      ensures !submitting && error.None?
      ensures form == old(form) && errors == old(errors)
      ensures NavButtons(activeStep, bookingSuccess, submitting).Hidden?
    {
      submitting := true;
      error := None;
      bookingId := Some(Reference(draw));
      bookingSuccess := true;
      activeStep := 3;
      submitting := false;
    }
  }
}
