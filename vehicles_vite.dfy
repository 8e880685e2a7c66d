/**
 * The vehicles screen of the newer front-end: the add/edit form with its
 * validator, the prefill from a stored vehicle, the search and status filter
 * over the vehicle list, and the dialog handlers. The records are those of
 * `VehicleStore`; the store the screen writes to is not part of this model, so
 * submit and delete report what they would ask it to do.
 */
module Vehicles {
  import opened Js
  import opened Lists
  import opened VehicleStore

  /** The form; `licensePlate` and `status` can be missing when prefilled from a record without them. */
  datatype VehicleForm = VehicleForm(
    make: string,
    model: string,
    year: Entry,
    licensePlate: Option<string>,
    vin: string,
    color: string,
    status: Option<string>,
    fuelType: string,
    mileage: Entry,
    registrationDate: string,
    notes: string,
    imageUrl: string)

  /** `initialFormData`, with the year it was computed in. */
  function InitialForm(currentYear: int): (f: VehicleForm)
    ensures f.make == "" && f.model == "" && f.licensePlate == Some("") && f.year == Number(currentYear)
    ensures f.status == Some("active") && f.fuelType == "gasoline" && f.mileage == Number(0)
  {
    VehicleForm("", "", Number(currentYear), Some(""), "", "", Some("active"), "gasoline", Number(0), "", "", "")
  }

  /** `handleEditClick`'s prefill: missing optional fields become '', 'gasoline' or 0. */
  function Prefill(v: Vehicle): (f: VehicleForm)
    ensures f.make == v.make && f.model == v.model && f.year == Number(v.year)
    ensures f.licensePlate == v.licensePlate && f.status == v.status
    ensures f.vin == (if v.vin.Some? then v.vin.value else "")
    ensures f.color == (if v.color.Some? then v.color.value else "")
    ensures f.fuelType == (if v.fuelType.Some? && v.fuelType.value != "" then v.fuelType.value else "gasoline")
    ensures f.mileage == Number(if v.mileage.Some? && v.mileage.value != 0 then v.mileage.value else 0)
    ensures f.registrationDate == (if v.registrationDate.Some? then v.registrationDate.value else "")
    ensures f.notes == (if v.notes.Some? then v.notes.value else "")
    ensures f.imageUrl == (if v.imageUrl.Some? then v.imageUrl.value else "")
  {
    VehicleForm(v.make, v.model, Number(v.year), v.licensePlate, StrOr(v.vin, ""), StrOr(v.color, ""), v.status,
      StrOr(v.fuelType, "gasoline"), Number(if v.mileage.Some? then v.mileage.value else 0),
      StrOr(v.registrationDate, ""), StrOr(v.notes, ""), StrOr(v.imageUrl, ""))
  }

  // -------------------------------------------------------------- validation

  /** A key is present only when that field has an error. */
  datatype FormErrors = FormErrors(
    make: Option<string>, model: Option<string>, licensePlate: Option<string>, year: Option<string>, mileage: Option<string>)

  const NoErrors := FormErrors(None, None, None, None, None)

  /** What `validateForm` accepts. */
  predicate FormValid(f: VehicleForm, currentYear: int)
  {
    f.make != "" && f.model != "" && f.licensePlate.Some? && f.licensePlate.value != "" &&
    !EntryBelow(f.year, 1900) && !EntryAbove(f.year, currentYear + 1) && !EntryBelow(f.mileage, 0)
  }

  /** The messages `validateForm` records, one per failing field. */
  function FormErrorsOf(f: VehicleForm, currentYear: int): (e: FormErrors)
    ensures e == NoErrors <==> FormValid(f, currentYear)
    ensures e.make.Some? <==> f.make == ""
    ensures e.model.Some? <==> f.model == ""
    ensures e.licensePlate.Some? <==> f.licensePlate.None? || f.licensePlate.value == ""
    ensures e.year.Some? <==> EntryBelow(f.year, 1900) || EntryAbove(f.year, currentYear + 1)
    ensures e.mileage.Some? <==> EntryBelow(f.mileage, 0)
  {
    FormErrors(
      if f.make == "" then Some("Make is required") else None,
      if f.model == "" then Some("Model is required") else None,
      if f.licensePlate.None? || f.licensePlate.value == "" then Some("License plate is required") else None,
      if EntryBelow(f.year, 1900) || EntryAbove(f.year, currentYear + 1) then Some("Please enter a valid year") else None,
      if EntryBelow(f.mileage, 0) then Some("Mileage cannot be negative") else None)
  }

  /**
   * `validateForm`: make, model and plate are required, the year must lie in
   * [1900, currentYear + 1] and the mileage must not be negative; the form is
   * valid exactly when no error was recorded.
   */
  method ValidateForm(f: VehicleForm, currentYear: int) returns (errors: FormErrors, isValid: bool)
    ensures isValid <==> FormValid(f, currentYear)
    ensures errors == FormErrorsOf(f, currentYear)
  {
    errors := NoErrors;
    if f.make == "" {
      errors := errors.(make := Some("Make is required"));
    }
    if f.model == "" {
      errors := errors.(model := Some("Model is required"));
    }
    if f.licensePlate.None? || f.licensePlate.value == "" {
      errors := errors.(licensePlate := Some("License plate is required"));
    }
    if EntryBelow(f.year, 1900) || EntryAbove(f.year, currentYear + 1) {
      errors := errors.(year := Some("Please enter a valid year"));
    }
    if EntryBelow(f.mileage, 0) {
      errors := errors.(mileage := Some("Mileage cannot be negative"));
    }
    isValid := errors == NoErrors;
  }

  /** The fresh add form passes validation except for the empty make, model and plate. */
  lemma InitialFormNeedsText(currentYear: int)
    requires currentYear >= 1900
    ensures !FormValid(InitialForm(currentYear), currentYear)
    ensures var f := InitialForm(currentYear);
      FormValid(f.(make := "a", model := "b", licensePlate := Some("c")), currentYear)
  {
  }

  // ------------------------------------------------------------------ search

  /**
   * One vehicle's search test, in the order the disjuncts are evaluated: the
   * plate is lower-cased only after make and model failed to match, and a
   * record without a plate then throws.
   */
  function MatchesSearch(v: Vehicle, query: string): (r: Result<bool>)
    ensures query == "" ==> r == Ok(true)
    ensures r.Err? <==> (query != "" && !Includes(Lower(v.make), Lower(query)) &&
                         !Includes(Lower(v.model), Lower(query)) && v.licensePlate.None?)
    ensures r.Ok? && r.value && query != "" ==>
      Includes(Lower(v.make), Lower(query)) || Includes(Lower(v.model), Lower(query)) ||
      Includes(Lower(v.licensePlate.value), Lower(query)) || Includes(IntToString(v.year), query)
  {
    var q := Lower(query);
    if query == "" then Ok(true)
    else if Includes(Lower(v.make), q) || Includes(Lower(v.model), q) then Ok(true)
    else if v.licensePlate.None? then Err("TypeError: Cannot read properties of undefined (reading 'toLowerCase')")
    else Ok(Includes(Lower(v.licensePlate.value), q) || Includes(IntToString(v.year), query))
  }

  /** The search and status tests together, where the search does not throw. */
  function Kept(query: string, statusFilter: string): Vehicle -> bool
  {
    (v: Vehicle) => MatchesSearch(v, query) == Ok(true) && (statusFilter == "all" || v.status == Some(statusFilter))
  }

  /**
   * `filteredVehicles`: the first record whose search test throws aborts the
   * whole filter; otherwise the vehicles kept, in list order.
   */
  function FilteredVehicles(vs: seq<Vehicle>, query: string, statusFilter: string): (r: Result<seq<Vehicle>>)
    ensures r.Ok? ==> r.value == Filter(vs, Kept(query, statusFilter))
    ensures r.Ok? ==> forall i :: 0 <= i < |vs| ==> MatchesSearch(vs[i], query).Ok?
  {
    if vs == [] then Ok([])
    else
      var head := MatchesSearch(vs[0], query);
      if head.Err? then Err(head.message)
      else
        var rest := FilteredVehicles(vs[1..], query, statusFilter);
        if rest.Err? then rest
        else
          assert forall i :: 1 <= i < |vs| ==> vs[i] == vs[1..][i - 1];
          if Kept(query, statusFilter)(vs[0]) then Ok([vs[0]] + rest.value) else Ok(rest.value)
  }

  /** The filter throws exactly when some record's search test throws. */
  lemma {:induction false} FilterThrowsIff(vs: seq<Vehicle>, query: string, statusFilter: string)
    ensures FilteredVehicles(vs, query, statusFilter).Err? <==> exists i :: 0 <= i < |vs| && MatchesSearch(vs[i], query).Err?
  {
    if vs != [] {
      FilterThrowsIff(vs[1..], query, statusFilter);
      if MatchesSearch(vs[0], query).Ok? && FilteredVehicles(vs[1..], query, statusFilter).Err? {
        var i :| 0 <= i < |vs[1..]| && MatchesSearch(vs[1..][i], query).Err?;
        assert MatchesSearch(vs[i + 1], query).Err?;
      }
    }
  }

  /** When every record has a plate the filter cannot throw. */
  lemma PlatesNeverThrow(vs: seq<Vehicle>, query: string, statusFilter: string)
    requires forall i :: 0 <= i < |vs| ==> vs[i].licensePlate.Some?
    ensures FilteredVehicles(vs, query, statusFilter).Ok?
  {
    FilterThrowsIff(vs, query, statusFilter);
  }

  /** An empty query with the 'all' tab keeps every vehicle, whatever the records hold. */
  lemma {:induction false} EmptyQueryKeepsAll(vs: seq<Vehicle>)
    ensures FilteredVehicles(vs, "", "all") == Ok(vs)
  {
    if vs != [] {
      EmptyQueryKeepsAll(vs[1..]);
      assert MatchesSearch(vs[0], "") == Ok(true) && Kept("", "all")(vs[0]);
      assert FilteredVehicles(vs, "", "all") == Ok([vs[0]] + vs[1..]);
      assert vs == [vs[0]] + vs[1..];
    }
  }

  // -------------------------------------------------------------------- page

  /** What submit or delete asks of the store. */
  datatype StoreCall =
    | NoCall
    | AddCall(form: VehicleForm, id: string)
    | UpdateCall(id: string, form: VehicleForm)
    | DeleteCall(id: string)

  /** The form's fields that `handleFormChange` can set, by input name. */
  datatype FieldName = MakeName | ModelName | YearName | PlateName | VinName | ColorName
                     | StatusName | FuelName | MileageName | RegistrationName | NotesName

  /** `{ ...prev, [name]: value }` with the input's text. */
  function SetField(f: VehicleForm, name: FieldName, value: string): (r: VehicleForm)
    ensures name == YearName ==> r == f.(year := Text(value))
    ensures name == MileageName ==> r == f.(mileage := Text(value))
    ensures name == PlateName ==> r == f.(licensePlate := Some(value))
    ensures name == MakeName ==> r == f.(make := value)
    ensures name == ModelName ==> r == f.(model := value)
    ensures name == VinName ==> r == f.(vin := value)
    ensures name == ColorName ==> r == f.(color := value)
    ensures name == StatusName ==> r == f.(status := Some(value))
    ensures name == FuelName ==> r == f.(fuelType := value)
    ensures name == RegistrationName ==> r == f.(registrationDate := value)
    ensures name == NotesName ==> r == f.(notes := value)
  {
    match name
    case MakeName => f.(make := value)
    case ModelName => f.(model := value)
    case YearName => f.(year := Text(value))
    case PlateName => f.(licensePlate := Some(value))
    case VinName => f.(vin := value)
    case ColorName => f.(color := value)
    case StatusName => f.(status := Some(value))
    case FuelName => f.(fuelType := value)
    case MileageName => f.(mileage := Text(value))
    case RegistrationName => f.(registrationDate := value)
    case NotesName => f.(notes := value)
  }

  class Screen {
    var searchQuery: string
    var statusFilter: string
    var openAdd: bool
    var openEdit: bool
    var openDelete: bool
    var form: VehicleForm
    var errors: FormErrors
    var selected: Option<string>
    var submitting: bool

    /** The initial state; `openAddQuery` is whether the address carries `add=true`. */
    constructor (currentYear: int, openAddQuery: bool)
      ensures searchQuery == "" && statusFilter == "all" && openAdd == openAddQuery
      ensures !openEdit && !openDelete && form == InitialForm(currentYear) && errors == NoErrors
      ensures selected.None? && !submitting
    {
      searchQuery, statusFilter := "", "all";
      openAdd, openEdit, openDelete := openAddQuery, false, false;
      form, errors, selected, submitting := InitialForm(currentYear), NoErrors, None, false;
    }

    /** `handleAddClick`. */
    method AddClick(currentYear: int)
      modifies this`form, this`errors, this`openAdd
      ensures form == InitialForm(currentYear) && errors == NoErrors && openAdd
    {
      form := InitialForm(currentYear);
      errors := NoErrors;
      openAdd := true;
    }

    /** `handleEditClick`: only a vehicle that is in the list opens the edit dialog. */
    method EditClick(vehicles: seq<Vehicle>, id: string)
      modifies this`form, this`errors, this`selected, this`openEdit
      ensures FindVehicle(vehicles, id).None? ==>
        form == old(form) && errors == old(errors) && selected == old(selected) && openEdit == old(openEdit)
      ensures FindVehicle(vehicles, id).Some? ==>
        form == Prefill(FindVehicle(vehicles, id).value) && errors == NoErrors && selected == Some(id) && openEdit
    {
      var v := FindVehicle(vehicles, id);
      if v.Some? {
        form := Prefill(v.value);
        errors := NoErrors;
        selected := Some(id);
        openEdit := true;
      }
    }

    /** `handleDeleteClick`. */
    method DeleteClick(id: string)
      modifies this`selected, this`openDelete
      ensures selected == Some(id) && openDelete
    {
      selected := Some(id);
      openDelete := true;
    }

    /** `handleFormChange`: an input without a name changes nothing. */
    method FormChange(name: Option<FieldName>, value: string)
      modifies this`form
      ensures form == if name.Some? then SetField(old(form), name.value, value) else old(form)
    {
      if name.Some? {
        form := SetField(form, name.value, value);
      }
    }

    /** `handleCloseDialog`: every dialog closes and the selection is dropped; the form stays. */
    method CloseDialog()
      modifies this`openAdd, this`openEdit, this`openDelete, this`selected
      ensures !openAdd && !openEdit && !openDelete && selected.None?
    {
      openAdd, openEdit, openDelete := false, false, false;
      selected := None;
    }

    /**
     * `handleSubmit`: an invalid form only records its errors. A valid one is
     * added (with id 'v-' followed by the timestamp) when the add dialog is
     * open, or written over the selected vehicle when the edit dialog is, and
     * the dialogs close.
     */
    method Submit(currentYear: int, now: nat) returns (call: StoreCall)
      modifies this`errors, this`submitting, this`openAdd, this`openEdit, this`openDelete, this`selected
      ensures !FormValid(old(form), currentYear) ==>
        call == NoCall && openAdd == old(openAdd) && openEdit == old(openEdit) && openDelete == old(openDelete) &&
        selected == old(selected)
      ensures FormValid(old(form), currentYear) && old(openAdd) ==> call == AddCall(old(form), "v-" + NatToString(now))
      ensures FormValid(old(form), currentYear) && !old(openAdd) && old(openEdit) && old(selected).Some? && old(selected).value != "" ==>
        call == UpdateCall(old(selected).value, old(form))
      ensures FormValid(old(form), currentYear) && !old(openAdd) && !(old(openEdit) && old(selected).Some? && old(selected).value != "") ==>
        call == NoCall
      ensures call.UpdateCall? ==> old(openEdit) && !old(openAdd)
      ensures FormValid(old(form), currentYear) ==> !openAdd && !openEdit && !openDelete && selected.None?
      ensures errors == FormErrorsOf(old(form), currentYear)
      ensures submitting == (old(submitting) && !FormValid(old(form), currentYear))
      ensures form == old(form) && searchQuery == old(searchQuery) && statusFilter == old(statusFilter)
    {
      var e, ok := ValidateForm(form, currentYear);
      errors := e;
      if !ok {
        assert !FormValid(old(form), currentYear);
        return NoCall;
      }
      assert FormValid(old(form), currentYear);
      call := Dispatch(now);
    }

    /** The valid-form half of `handleSubmit`: the store call, then the dialogs close. */
    method Dispatch(now: nat) returns (call: StoreCall)
      modifies this`submitting, this`openAdd, this`openEdit, this`openDelete, this`selected
      ensures old(openAdd) ==> call == AddCall(form, "v-" + NatToString(now))
      ensures !old(openAdd) && old(openEdit) && old(selected).Some? && old(selected).value != "" ==>
        call == UpdateCall(old(selected).value, form)
      ensures !old(openAdd) && !(old(openEdit) && old(selected).Some? && old(selected).value != "") ==> call == NoCall
      ensures call.UpdateCall? ==> old(openEdit) && !old(openAdd)
      ensures !openAdd && !openEdit && !openDelete && selected.None? && !submitting
    {
      submitting := true;
      if openAdd {
        call := AddCall(form, "v-" + NatToString(now));
      } else if openEdit && selected.Some? && selected.value != "" {
        call := UpdateCall(selected.value, form);
      } else {
        call := NoCall;
      }
      CloseDialog();
      submitting := false;
    }

    /** `handleDelete`: nothing without a selected vehicle. */
    method Delete() returns (call: StoreCall)
      modifies this`openAdd, this`openEdit, this`openDelete, this`selected, this`submitting
      ensures old(selected).None? || old(selected).value == "" ==>
        call == NoCall && selected == old(selected) && openDelete == old(openDelete) &&
        openAdd == old(openAdd) && openEdit == old(openEdit) && submitting == old(submitting)
      ensures old(selected).Some? && old(selected).value != "" ==>
        call == DeleteCall(old(selected).value) && !openAdd && !openEdit && !openDelete && selected.None? && !submitting
    {
      if selected.None? || selected.value == "" {
        return NoCall;
      }
      submitting := true;
      call := DeleteCall(selected.value);
      CloseDialog();
      submitting := false;
    }
  }
}
