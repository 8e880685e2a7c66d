/**
 * The vehicle detail page of the older front-end: the edit buffer, its
 * validator, saving the buffer over the loaded vehicle and cancelling an edit.
 */
module VehicleDetailPage {
  import opened Js
  import VehiclesPage

  /** The loaded vehicle; its status uses the list page's four values. */
  datatype Vehicle = Vehicle(
    id: string,
    make: string,
    model: string,
    year: int,
    registrationNumber: string,
    color: string,
    lastInspectionDate: Option<string>,
    status: VehiclesPage.Status)

  /** The edit buffer; the year is `Number(input)`, with NaN as `None`. */
  datatype Draft = Draft(make: string, model: string, year: Option<int>, registrationNumber: string, color: string)

  /** The buffer as the page fills it from a vehicle, on load and on cancel. */
  function DraftOf(v: Vehicle): (d: Draft)
    ensures d.make == v.make && d.model == v.model && d.year == Some(v.year)
    ensures d.registrationNumber == v.registrationNumber && d.color == v.color
  {
    Draft(v.make, v.model, Some(v.year), v.registrationNumber, v.color)
  }

  datatype DraftField = MakeField | ModelField | YearField | RegistrationField | ColorField

  /** `handleInputChange`: the year input is converted to a number, every other input is kept as text. */
  function SetField(d: Draft, field: DraftField, value: string): (r: Draft)
    ensures field == YearField ==> r == d.(year := StringToNumber(value))
    ensures field == YearField && AllDigits(Trim(value)) ==> r.year.Some?
    ensures field != YearField ==> r.year == d.year
    ensures field == MakeField ==> r == d.(make := value)
    ensures field == ModelField ==> r == d.(model := value)
    ensures field == RegistrationField ==> r == d.(registrationNumber := value)
    ensures field == ColorField ==> r == d.(color := value)
  {
    match field
    case MakeField => d.(make := value)
    case ModelField => d.(model := value)
    case YearField => d.(year := StringToNumber(value))
    case RegistrationField => d.(registrationNumber := value)
    case ColorField => d.(color := value)
  }

  /** Typing a year's digits stores that year. */
  lemma YearInputRoundTrip(d: Draft, y: nat)
    ensures SetField(d, YearField, NatToString(y)).year == Some(y)
  {
    NumberOfString(y);
  }

  // -------------------------------------------------------------- validation

  /** The same five rules as the list page's dialog. */
  predicate DraftValid(d: Draft, currentYear: int)
  {
    !IsBlank(d.make) && !IsBlank(d.model) && !IsBlank(d.registrationNumber) &&
    d.year.Some? && 1900 <= d.year.value <= currentYear + 1 && !IsBlank(d.color)
  }

  /** The list page's form holding the same text and year. */
  function AsListDraft(d: Draft): VehiclesPage.Draft
    requires d.year.Some?
  {
    VehiclesPage.Draft(d.make, d.model, Number(d.year.value), d.registrationNumber, d.color)
  }

  /** Both pages accept the same forms. */
  lemma SameRulesAsList(d: Draft, currentYear: int)
    requires d.year.Some?
    ensures DraftValid(d, currentYear) <==> VehiclesPage.DraftValid(AsListDraft(d), currentYear)
  {
  }

  /** The messages `validateForm` records, one per failing field. */
  function DraftErrorsOf(d: Draft, currentYear: int): VehiclesPage.DraftErrors
  {
    VehiclesPage.DraftErrors(
      if IsBlank(d.make) then Some("Make is required") else None,
      if IsBlank(d.model) then Some("Model is required") else None,
      if IsBlank(d.registrationNumber) then Some("Registration number is required") else None,
      if d.year.None? || d.year.value < 1900 || d.year.value > currentYear + 1 then Some("Please enter a valid year") else None,
      if IsBlank(d.color) then Some("Color is required") else None)
  }

  /** `validateForm`: valid exactly when no message was recorded. */
  method ValidateDraft(d: Draft, currentYear: int) returns (errors: VehiclesPage.DraftErrors, isValid: bool)
    ensures isValid <==> errors == VehiclesPage.NoErrors
    ensures isValid <==> DraftValid(d, currentYear)
    ensures errors == DraftErrorsOf(d, currentYear)
    ensures errors.make.Some? <==> IsBlank(d.make)
    ensures errors.model.Some? <==> IsBlank(d.model)
    ensures errors.registrationNumber.Some? <==> IsBlank(d.registrationNumber)
    ensures errors.year.Some? <==> d.year.None? || d.year.value < 1900 || d.year.value > currentYear + 1
    ensures errors.color.Some? <==> IsBlank(d.color)
  {
    var expected := DraftErrorsOf(d, currentYear);
    errors := VehiclesPage.NoErrors;
    isValid := true;
    BlankIffTrimEmpty(d.make);
    BlankIffTrimEmpty(d.model);
    BlankIffTrimEmpty(d.registrationNumber);
    BlankIffTrimEmpty(d.color);
    if Trim(d.make) == "" {
      errors := errors.(make := Some("Make is required"));
      isValid := false;
    }
    assert errors == VehiclesPage.NoErrors.(make := expected.make) && (isValid <==> expected.make.None?);
    if Trim(d.model) == "" {
      errors := errors.(model := Some("Model is required"));
      isValid := false;
    }
    assert errors == VehiclesPage.NoErrors.(make := expected.make, model := expected.model);
    assert isValid <==> expected.make.None? && expected.model.None?;
    if Trim(d.registrationNumber) == "" {
      errors := errors.(registrationNumber := Some("Registration number is required"));
      isValid := false;
    }
    assert errors == expected.(year := None, color := None);
    assert isValid <==> expected.make.None? && expected.model.None? && expected.registrationNumber.None?;
    if d.year.None? || d.year.value < 1900 || d.year.value > currentYear + 1 {
      errors := errors.(year := Some("Please enter a valid year"));
      isValid := false;
    }
    assert errors == expected.(color := None);
    assert isValid <==> expected.(color := None) == VehiclesPage.NoErrors;
    if Trim(d.color) == "" {
      errors := errors.(color := Some("Color is required"));
      isValid := false;
    }
    assert errors == expected;
  }

  /** `{ ...vehicle, ...editedVehicle }`: the five edited fields replace the vehicle's, the rest stays. */
  function Saved(v: Vehicle, d: Draft): (r: Vehicle)
    requires d.year.Some?
    ensures r.id == v.id && r.status == v.status && r.lastInspectionDate == v.lastInspectionDate
    ensures DraftOf(r) == d
  {
    v.(make := d.make, model := d.model, year := d.year.value, registrationNumber := d.registrationNumber, color := d.color)
  }

  /** Saving the buffer the vehicle was loaded into changes nothing. */
  lemma SaveUneditedIsIdentity(v: Vehicle)
    ensures Saved(v, DraftOf(v)) == v
  {
  }

  // -------------------------------------------------------------------- page

  class Page {
    var vehicle: Option<Vehicle>
    var isEditing: bool
    var draft: Draft
    var errors: VehiclesPage.DraftErrors

    /** The page once `v` is loaded. */
    constructor (v: Vehicle)
      ensures vehicle == Some(v) && !isEditing && draft == DraftOf(v) && errors == VehiclesPage.NoErrors
    {
      vehicle := Some(v);
      isEditing := false;
      draft := DraftOf(v);
      errors := VehiclesPage.NoErrors;
    }

    method InputChange(field: DraftField, value: string)
      modifies this`draft
      ensures draft == SetField(old(draft), field, value)
    {
      draft := SetField(draft, field, value);
    }

    /**
     * `handleSaveChanges`: an invalid buffer only records its errors; a valid
     * one is laid over the vehicle, which keeps its id and status, and editing ends.
     */
    method SaveChanges(currentYear: int) returns (saved: bool)
      modifies this`vehicle, this`isEditing, this`errors
      ensures (errors == VehiclesPage.NoErrors) <==> DraftValid(old(draft), currentYear)
      ensures errors == DraftErrorsOf(old(draft), currentYear)
      ensures saved <==> DraftValid(old(draft), currentYear) && old(vehicle).Some?
      ensures saved ==> vehicle == Some(Saved(old(vehicle).value, old(draft))) && !isEditing
      ensures !saved ==> vehicle == old(vehicle) && isEditing == old(isEditing)
    {
      var e, ok := ValidateDraft(draft, currentYear);
      errors := e;
      saved := ok && vehicle.Some?;
      if saved {
        vehicle := Some(Saved(vehicle.value, draft));
        isEditing := false;
      }
    }

    /** The Cancel button: editing ends, errors clear and the buffer is reloaded from the vehicle. */
    method CancelEdit()
      modifies this`isEditing, this`errors, this`draft
      ensures !isEditing && errors == VehiclesPage.NoErrors
      ensures draft == if vehicle.Some? then DraftOf(vehicle.value) else old(draft)
    {
      isEditing := false;
      errors := VehiclesPage.NoErrors;
      if vehicle.Some? {
        draft := DraftOf(vehicle.value);
      }
    }
  }
}
