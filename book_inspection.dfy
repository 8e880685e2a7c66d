/**
 * The four-step booking wizard (vehicle, date and time, inspector, review):
 * a per-step validator that gates Next, field edits that clear their own
 * error, URL preselection of the vehicle, and the submit guard that turns
 * the chosen 'HH:MM' slot into hours and minutes.
 */
module BookInspection {
  import opened Js

  /** The wizard's fields; the date is a calendar day, absent until one is picked. */
  datatype Form = Form(vehicleId: string, date: Option<int>, time: string, inspectorName: string, notes: string)

  /** One message per field; '' means no error. */
  datatype Errors = Errors(vehicleId: string, date: string, time: string, inspectorName: string)

  const NoErrors := Errors("", "", "", "")
  const EmptyForm := Form("", None, "", "", "")
  const StepCount := 4

  const VehicleMessage := "Please select a vehicle"
  const DateMessage := "Please select a date"
  const TimeMessage := "Please select a time"
  const InspectorMessage := "Please select an inspector"

  /** Step 0 needs a vehicle, step 1 a date and a time, step 2 an inspector; other steps always pass. */
  predicate StepValid(step: int, f: Form)
  {
    if step == 0 then f.vehicleId != ""
    else if step == 1 then f.date.Some? && f.time != ""
    else if step == 2 then f.inspectorName != ""
    else true
  }

  /**
   * The errors after checking `step`: that step's fields get their message or
   * '', and every other field keeps its previous message.
   */
  function StepErrors(step: int, f: Form, prev: Errors): (e: Errors)
    ensures step != 0 ==> e.vehicleId == prev.vehicleId
    ensures step != 1 ==> e.date == prev.date && e.time == prev.time
    ensures step != 2 ==> e.inspectorName == prev.inspectorName
    ensures 0 <= step <= 2 ==> (StepValid(step, f) <==> StepClear(step, e))
  {
    Errors(
      if step == 0 then (if f.vehicleId == "" then VehicleMessage else "") else prev.vehicleId,
      if step == 1 then (if f.date.None? then DateMessage else "") else prev.date,
      if step == 1 then (if f.time == "" then TimeMessage else "") else prev.time,
      if step == 2 then (if f.inspectorName == "" then InspectorMessage else "") else prev.inspectorName)
  }

  /** The messages of the fields `step` checks are all ''. */
  predicate StepClear(step: int, e: Errors)
  {
    if step == 0 then e.vehicleId == ""
    else if step == 1 then e.date == "" && e.time == ""
    else if step == 2 then e.inspectorName == ""
    else true
  }

  /**
   * `validateStep`: starts from the current errors and rewrites only the
   * fields of the step it checks.
   */
  method ValidateStep(step: int, f: Form, prev: Errors) returns (errors: Errors, isValid: bool)
    ensures isValid <==> StepValid(step, f)
    ensures errors == StepErrors(step, f, prev)
    ensures errors.vehicleId == if step == 0 then (if f.vehicleId == "" then VehicleMessage else "") else prev.vehicleId
    ensures errors.date == if step == 1 then (if f.date.None? then DateMessage else "") else prev.date
    ensures errors.time == if step == 1 then (if f.time == "" then TimeMessage else "") else prev.time
    ensures errors.inspectorName == if step == 2 then (if f.inspectorName == "" then InspectorMessage else "") else prev.inspectorName
  {
    isValid := true;
    errors := prev;
    if step == 0 {
      if f.vehicleId == "" {
        errors := errors.(vehicleId := VehicleMessage);
        isValid := false;
      } else {
        errors := errors.(vehicleId := "");
      }
    } else if step == 1 {
      if f.date.None? {
        errors := errors.(date := DateMessage);
        isValid := false;
      } else {
        errors := errors.(date := "");
      }
      if f.time == "" {
        errors := errors.(time := TimeMessage);
        isValid := false;
      } else {
        errors := errors.(time := "");
      }
    } else if step == 2 {
      if f.inspectorName == "" {
        errors := errors.(inspectorName := InspectorMessage);
        isValid := false;
      } else {
        errors := errors.(inspectorName := "");
      }
    }
  }

  // ------------------------------------------------------------ time slots

  datatype Time = Time(hours: int, minutes: int)

  /** `time.split(':').map(Number)` destructured into hours and minutes; a missing or non-numeric part is NaN. */
  function ParseTime(s: string): (r: Option<Time>)
    ensures r.Some? ==> StringToNumber(Split(s, ':')[0]) == Some(r.value.hours)
  {
    var parts := Split(s, ':');
    var h := StringToNumber(parts[0]);
    var m := if |parts| >= 2 then StringToNumber(parts[1]) else None;
    if h.Some? && m.Some? then Some(Time(h.value, m.value)) else None
  }

  /** A two-digit, zero-padded number. */
  function Pad2(n: nat): (s: string)
    requires n < 100
    ensures |s| == 2 && AllDigits(s)
  {
    [DigitChar(n / 10), DigitChar(n % 10)]
  }

  lemma NumberOfPad2(n: nat)
    requires n < 100
    ensures StringToNumber(Pad2(n)) == Some(n)
  {
    var s := Pad2(n);
    assert AllDigits(s[1..]) by { assert s[1..] == [s[1]]; }
    TrimNumeral(s);
    assert s[..1] == [s[0]] && [s[0]][..0] == [];
    assert DigitValue(s[0]) == n / 10 && DigitValue(s[1]) == n % 10;
    assert DigitsValue(s[..1]) == n / 10;
    assert DigitsValue(s) == 10 * (n / 10) + n % 10;
  }

  /** 'HH:MM' parses back to the hours and minutes it was written from. */
  lemma ParsePadded(h: nat, m: nat)
    requires h < 100 && m < 100
    ensures ParseTime(Pad2(h) + ":" + Pad2(m)) == Some(Time(h, m))
  {
    var a, b := Pad2(h), Pad2(m);
    assert ':' !in a && ':' !in b by {
      assert a == [a[0], a[1]] && b == [b[0], b[1]];
    }
    SplitAfterPart(a, ':', b);
    SplitNoSeparator(b, ':');
    assert a + ":" + b == a + [':'] + b;
    NumberOfPad2(h);
    NumberOfPad2(m);
  }

  /** The slots offered. */
  const TimeSlots := ["09:00", "09:30", "10:00", "10:30", "11:00", "11:30",
                      "13:00", "13:30", "14:00", "14:30", "15:00", "15:30", "16:00", "16:30"]

  /** Every offered slot parses to a time between 09:00 and 16:30 on the hour or half hour. */
  lemma SlotsWithinHours()
    ensures forall k :: 0 <= k < |TimeSlots| ==>
      var t := ParseTime(TimeSlots[k]);
      t.Some? && 9 <= t.value.hours <= 16 && (t.value.minutes == 0 || t.value.minutes == 30)
  {
    var parts := [(9, 0), (9, 30), (10, 0), (10, 30), (11, 0), (11, 30),
                  (13, 0), (13, 30), (14, 0), (14, 30), (15, 0), (15, 30), (16, 0), (16, 30)];
    forall k | 0 <= k < |TimeSlots|
      ensures var t := ParseTime(TimeSlots[k]);
        t.Some? && 9 <= t.value.hours <= 16 && (t.value.minutes == 0 || t.value.minutes == 30)
    {
      var (h, m) := parts[k];
      assert TimeSlots[k] == Pad2(h) + ":" + Pad2(m);
      ParsePadded(h, m);
    }
  }

  // ------------------------------------------------------------------ wizard

  const RequiredMessage := "Please fill in all required fields"
  const GenericMessage := "An error occurred. Please try again."

  /** What pressing the final button leads to. */
  datatype SubmitOutcome =
    | Invalid
    | ErrorToast(message: string)
    | Booked(vehicleId: string, day: int, at: Time, inspectorName: string, notes: string)

  class Wizard {
    var activeStep: int
    var submitting: bool
    var form: Form
    var errors: Errors

    /** The initial state, then the preselection from a `vehicleId` query parameter. */
    constructor (queryVehicleId: Option<string>)
      ensures submitting == false && errors == NoErrors
      ensures queryVehicleId.Some? && queryVehicleId.value != "" ==>
        form == EmptyForm.(vehicleId := queryVehicleId.value) && activeStep == 1
      ensures !(queryVehicleId.Some? && queryVehicleId.value != "") ==> form == EmptyForm && activeStep == 0
    {
      activeStep, submitting, form, errors := 0, false, EmptyForm, NoErrors;
      new;
      if queryVehicleId.Some? && queryVehicleId.value != "" {
        form := form.(vehicleId := queryVehicleId.value);
        activeStep := 1;
      }
    }

    method ChangeVehicle(v: string)
      modifies this
      ensures form == old(form).(vehicleId := v) && errors == old(errors).(vehicleId := "")
      ensures activeStep == old(activeStep) && submitting == old(submitting)
    {
      form := form.(vehicleId := v);
      errors := errors.(vehicleId := "");
    }

    method ChangeDate(d: Option<int>)
      modifies this
      ensures form == old(form).(date := d) && errors == old(errors).(date := "")
      ensures activeStep == old(activeStep) && submitting == old(submitting)
    {
      form := form.(date := d);
      errors := errors.(date := "");
    }

    method ChangeTime(t: string)
      modifies this
      ensures form == old(form).(time := t) && errors == old(errors).(time := "")
      ensures activeStep == old(activeStep) && submitting == old(submitting)
    {
      form := form.(time := t);
      errors := errors.(time := "");
    }

    method ChangeInspector(n: string)
      modifies this
      ensures form == old(form).(inspectorName := n) && errors == old(errors).(inspectorName := "")
      ensures activeStep == old(activeStep) && submitting == old(submitting)
    {
      form := form.(inspectorName := n);
      errors := errors.(inspectorName := "");
    }

    /** Notes have no error of their own. */
    method ChangeNotes(n: string)
      modifies this
      ensures form == old(form).(notes := n) && errors == old(errors)
      ensures activeStep == old(activeStep) && submitting == old(submitting)
    {
      form := form.(notes := n);
    }

    /** `handleNext`: one step on, and only when the current step validates. */
    method Next()
      modifies this
      ensures activeStep == if StepValid(old(activeStep), form) then old(activeStep) + 1 else old(activeStep)
      ensures errors == StepErrors(old(activeStep), old(form), old(errors))
      ensures form == old(form) && submitting == old(submitting)
    {
      var e, ok := ValidateStep(activeStep, form, errors);
      errors := e;
      if ok {
        activeStep := activeStep + 1;
      }
    }

    /** The left button: Cancel (leave the page) on step 0, Back otherwise; disabled while submitting. */
    method PressLeft() returns (cancelled: bool)
      modifies this
      ensures cancelled <==> !old(submitting) && old(activeStep) == 0
      ensures activeStep == if old(submitting) || cancelled then old(activeStep) else old(activeStep) - 1
      ensures form == old(form) && errors == old(errors) && submitting == old(submitting)
    {
      if submitting {
        return false;
      }
      if activeStep == 0 {
        return true;
      }
      activeStep := activeStep - 1;
      cancelled := false;
    }

    /** The right button is disabled while submitting, and on step 0 when there are no vehicles. */
    predicate RightEnabled(vehicleCount: nat)
      reads this
    {
      !submitting && !(activeStep == 0 && vehicleCount == 0)
    }

    /**
     * `handleSubmit`: validates the current step, insists on every required
     * field, then books for the chosen day at the slot's hours and minutes. A
     * slot that does not parse makes the date invalid, which ends in the
     * generic error toast.
     */
    method Submit() returns (outcome: SubmitOutcome)
      modifies this`errors, this`submitting
      ensures !StepValid(old(activeStep), old(form)) ==> outcome == Invalid
      ensures (StepValid(old(activeStep), old(form)) &&
        (old(form).date.None? || old(form).time == "" || old(form).vehicleId == "" || old(form).inspectorName == ""))
        ==> outcome == ErrorToast(RequiredMessage)
      ensures outcome.Booked? ==>
        (form.date.Some? && ParseTime(form.time).Some? &&
         outcome == Booked(form.vehicleId, form.date.value, ParseTime(form.time).value, form.inspectorName, form.notes))
      ensures outcome.Booked? <==> (StepValid(old(activeStep), old(form)) && form.date.Some? && form.time != ""
        && form.vehicleId != "" && form.inspectorName != "" && ParseTime(form.time).Some?)
      ensures outcome.Booked? ==> submitting
      ensures outcome == ErrorToast(GenericMessage) ==> !submitting
      ensures outcome == Invalid || outcome == ErrorToast(RequiredMessage) ==> submitting == old(submitting)
      ensures errors == StepErrors(old(activeStep), old(form), old(errors))
      ensures form == old(form) && activeStep == old(activeStep)
    {
      var e, ok := ValidateStep(activeStep, form, errors);
      errors := e;
      if !ok {
        return Invalid;
      }
      outcome := Book();
    }

    /** The part of `handleSubmit` after the step has validated. */
    method Book() returns (outcome: SubmitOutcome)
      modifies this`submitting
      ensures outcome != Invalid
      ensures (form.date.None? || form.time == "" || form.vehicleId == "" || form.inspectorName == "")
        ==> outcome == ErrorToast(RequiredMessage) && submitting == old(submitting)
      ensures outcome.Booked? <==> (form.date.Some? && form.time != "" && form.vehicleId != "" &&
        form.inspectorName != "" && ParseTime(form.time).Some?)
      ensures outcome.Booked? ==>
        submitting && form.date.Some? && ParseTime(form.time).Some? &&
        outcome == Booked(form.vehicleId, form.date.value, ParseTime(form.time).value, form.inspectorName, form.notes)
      ensures !(form.date.None? || form.time == "" || form.vehicleId == "" || form.inspectorName == "")
        ==> outcome.Booked? || (outcome == ErrorToast(GenericMessage) && !submitting)
    {
      if form.date.None? || form.time == "" || form.vehicleId == "" || form.inspectorName == "" {
        return ErrorToast(RequiredMessage);
      }
      submitting := true;
      var t := ParseTime(form.time);
      if t.None? {
        submitting := false;
        return ErrorToast(GenericMessage);
      }
      outcome := Booked(form.vehicleId, form.date.value, t.value, form.inspectorName, form.notes);
    }
  }

  /** A form with every field filled passes every step. */
  lemma CompleteFormPassesAllSteps(f: Form, step: int)
    requires f.vehicleId != "" && f.date.Some? && f.time != "" && f.inspectorName != ""
    ensures StepValid(step, f)
  {
  }
}
