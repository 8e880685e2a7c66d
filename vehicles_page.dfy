/**
 * The vehicle list page of the older front-end: the add-vehicle dialog with
 * its validator, adding and deleting records held in page state, the search
 * over make, model and registration, and the status chip colour.
 */
module VehiclesPage {
  import opened Js
  import opened Lists

  datatype Status = Passed | Failed | Pending | NotInspected

  /** A record on this page; the year is whatever the form held when it was added. */
  datatype Vehicle = Vehicle(
    id: string,
    make: string,
    model: string,
    year: Entry,
    registrationNumber: string,
    color: string,
    lastInspectionDate: Option<string>,
    status: Status)

  /** The add dialog's form: a vehicle without id and status. */
  datatype Draft = Draft(make: string, model: string, year: Entry, registrationNumber: string, color: string)

  /** The empty form, with the year it was reset in. */
  function EmptyDraft(currentYear: int): (d: Draft)
    ensures d.make == "" && d.model == "" && d.registrationNumber == "" && d.color == ""
    ensures d.year == Number(currentYear)
  {
    Draft("", "", Number(currentYear), "", "")
  }

  /** The four records the page loads. */
  const Initial := [
    Vehicle("1", "Toyota", "Camry", Number(2020), "ABC123", "Silver", Some("2023-01-15"), Passed),
    Vehicle("2", "Honda", "Civic", Number(2019), "XYZ789", "Blue", Some("2023-03-10"), Failed),
    Vehicle("3", "Ford", "Focus", Number(2021), "DEF456", "Red", None, NotInspected),
    Vehicle("4", "Nissan", "Altima", Number(2018), "GHI789", "Black", Some("2023-05-05"), Pending)]

  // -------------------------------------------------------------- validation

  datatype DraftErrors = DraftErrors(
    make: Option<string>, model: Option<string>, registrationNumber: Option<string>, year: Option<string>, color: Option<string>)

  const NoErrors := DraftErrors(None, None, None, None, None)

  /** A year the form accepts: a number between 1900 and next year. */
  predicate YearOk(y: Entry, currentYear: int)
  {
    EntryValue(y).Some? && 1900 <= EntryValue(y).value <= currentYear + 1
  }

  /** What `validateForm` accepts: four fields with more than whitespace, and a plausible year. */
  predicate DraftValid(d: Draft, currentYear: int)
  {
    !IsBlank(d.make) && !IsBlank(d.model) && !IsBlank(d.registrationNumber) &&
    YearOk(d.year, currentYear) && !IsBlank(d.color)
  }

  /** The messages `validateForm` records, one per failing field. */
  function DraftErrorsOf(d: Draft, currentYear: int): (e: DraftErrors)
    ensures e == NoErrors <==> DraftValid(d, currentYear)
    ensures e.make.Some? <==> IsBlank(d.make)
    ensures e.model.Some? <==> IsBlank(d.model)
    ensures e.registrationNumber.Some? <==> IsBlank(d.registrationNumber)
    ensures e.year.Some? <==> !YearOk(d.year, currentYear)
    ensures e.color.Some? <==> IsBlank(d.color)
  {
    DraftErrors(
      if IsBlank(d.make) then Some("Make is required") else None,
      if IsBlank(d.model) then Some("Model is required") else None,
      if IsBlank(d.registrationNumber) then Some("Registration number is required") else None,
      if !YearOk(d.year, currentYear) then Some("Please enter a valid year") else None,
      if IsBlank(d.color) then Some("Color is required") else None)
  }

  /** `validateForm`: one message per failing field; valid exactly when there is none. */
  method ValidateDraft(d: Draft, currentYear: int) returns (errors: DraftErrors, isValid: bool)
    ensures isValid <==> DraftValid(d, currentYear)
    ensures errors == DraftErrorsOf(d, currentYear)
  {
    var expected := DraftErrorsOf(d, currentYear);
    errors := NoErrors;
    isValid := true;
    BlankIffTrimEmpty(d.make);
    BlankIffTrimEmpty(d.model);
    BlankIffTrimEmpty(d.registrationNumber);
    BlankIffTrimEmpty(d.color);
    if Trim(d.make) == "" {
      errors := errors.(make := Some("Make is required"));
      isValid := false;
    }
    assert errors == NoErrors.(make := expected.make) && (isValid <==> expected.make.None?);
    if Trim(d.model) == "" {
      errors := errors.(model := Some("Model is required"));
      isValid := false;
    }
    assert errors == NoErrors.(make := expected.make, model := expected.model);
    assert isValid <==> expected.make.None? && expected.model.None?;
    if Trim(d.registrationNumber) == "" {
      errors := errors.(registrationNumber := Some("Registration number is required"));
      isValid := false;
    }
    assert errors == expected.(year := None, color := None);
    assert isValid <==> expected.make.None? && expected.model.None? && expected.registrationNumber.None?;
    var yearNum := EntryValue(d.year);
    if yearNum.None? || yearNum.value < 1900 || yearNum.value > currentYear + 1 {
      errors := errors.(year := Some("Please enter a valid year"));
      isValid := false;
    }
    assert errors == expected.(color := None);
    assert isValid <==> expected.(color := None) == NoErrors;
    if Trim(d.color) == "" {
      errors := errors.(color := Some("Color is required"));
      isValid := false;
    }
  }

  /** The year input left empty reads as 0, so a cleared year is refused rather than ignored. */
  lemma ClearedYearRefused(d: Draft, currentYear: int)
    requires d.year == Text("")
    ensures !DraftValid(d, currentYear)
  {
    assert Trim("") == "";
  }

  // -------------------------------------------------------------------- ids

  /** Ids are unique within the list. */
  predicate UniqueIds(vs: seq<Vehicle>)
  {
    forall i, j :: 0 <= i < j < |vs| ==> vs[i].id != vs[j].id
  }

  /** `(vehicles.length + 1).toString()`, the id the page gives a new record. */
  function LengthId(vs: seq<Vehicle>): (id: string)
    ensures StringToNumber(id) == Some(|vs| + 1)
  {
    NumberOfString(|vs| + 1);
    NatToString(|vs| + 1)
  }

  /** The loaded records are four, with ids '1' to '4' in order, as `Page.DeleteThenAddRepeatsId` asks. */
  lemma InitialIds()
    ensures |Initial| == 4
    ensures Initial[0].id == "1" && Initial[1].id == "2" && Initial[2].id == "3" && Initial[3].id == "4"
  {
  }

  /** A record added to a list of three gets id '4'. */
  lemma AddedToThree(vs: seq<Vehicle>, d: Draft)
    requires |vs| == 3
    ensures Added(vs, d).id == "4"
  {
    assert NatToString(4) == [DigitChar(4)];
  }

  /** Deleting '1' from records with ids '1' to '4' keeps the other three, in order. */
  lemma DeleteOneOfFour(a: Vehicle, b: Vehicle, c: Vehicle, e: Vehicle)
    requires a.id == "1" && b.id == "2" && c.id == "3" && e.id == "4"
    ensures Filter([a, b, c, e], OtherId("1")) == [b, c, e]
  {
    assert [a, b, c, e][1..] == [b, c, e];
    FilterAllOrNone([b, c, e], OtherId("1"));
  }

  /**
   * Four records with ids '1' to '4': deleting '1' and then adding a record
   * gives the new record id '4', which the last record still has; deleting
   * '4' afterwards takes both away.
   */
  lemma LengthIdRepeatsAfterDelete(a: Vehicle, b: Vehicle, c: Vehicle, e: Vehicle, d: Draft)
    requires a.id == "1" && b.id == "2" && c.id == "3" && e.id == "4"
    ensures UniqueIds([a, b, c, e])
    ensures Filter([a, b, c, e], OtherId("1")) == [b, c, e]
    ensures Added([b, c, e], d).id == "4"
    ensures !UniqueIds([b, c, e, Added([b, c, e], d)])
    ensures Filter([b, c, e, Added([b, c, e], d)], OtherId("4")) == [b, c]
  {
    FourDistinct(a, b, c, e);
    DeleteOneOfFour(a, b, c, e);
    var v := Added([b, c, e], d);
    AddedToThree([b, c, e], d);
    assert [b, c, e, v][2].id == [b, c, e, v][3].id;
    FilterDropsLastTwo(b, c, e, v, OtherId("4"));
  }

  /** Deleting '1' from a list of records '1' to '4' and adding one: the new record repeats id '4'. */
  lemma DeleteFirstThenAdd(before: seq<Vehicle>, d: Draft)
    requires |before| == 4
    requires before[0].id == "1" && before[1].id == "2" && before[2].id == "3" && before[3].id == "4"
    ensures Filter(before, OtherId("1")) == before[1..]
    ensures var after := before[1..] + [Added(before[1..], d)];
      |after| == 4 && after[..3] == before[1..] && after[3].id == after[2].id == "4" && !UniqueIds(after)
  {
    var a, b, c, e := before[0], before[1], before[2], before[3];
    assert before == [a, b, c, e];
    assert before[1..] == [b, c, e];
    DeleteOneOfFour(a, b, c, e);
    AddedToThree([b, c, e], d);
    var after := [b, c, e] + [Added([b, c, e], d)];
    assert after[..3] == [b, c, e];
    assert after[2].id == after[3].id;
  }

  /** Records with ids '1' to '4' have distinct ids. */
  lemma FourDistinct(a: Vehicle, b: Vehicle, c: Vehicle, e: Vehicle)
    requires a.id == "1" && b.id == "2" && c.id == "3" && e.id == "4"
    ensures UniqueIds([a, b, c, e])
  {
  }

  /** Filtering four records of which the last two fail keeps the first two. */
  lemma FilterDropsLastTwo(a: Vehicle, b: Vehicle, c: Vehicle, e: Vehicle, p: Vehicle -> bool)
    requires p(a) && p(b) && !p(c) && !p(e)
    ensures Filter([a, b, c, e], p) == [a, b]
  {
    assert [a, b, c, e][1..] == [b, c, e];
    assert [b, c, e][1..] == [c, e];
    assert [c, e][1..] == [e];
    assert [e][1..] == [];
  }

  /** The id read as a number, or 0 when it is not one. */
  function IdNumber(id: string): int
  {
    var n := StringToNumber(id);
    if n.Some? then n.value else 0
  }

  /** The largest of some numbers, at least 0. */
  function MaxOf(ns: seq<int>): (m: nat)
    ensures forall i :: 0 <= i < |ns| ==> ns[i] <= m
  {
    if ns == [] then 0
    else
      var rest := MaxOf(ns[1..]);
      assert forall i :: 1 <= i < |ns| ==> ns[i] == ns[1..][i - 1];
      if ns[0] > rest then ns[0] else rest
  }

  /** The largest numeric value among the ids, at least 0. */
  function MaxIdNumber(vs: seq<Vehicle>): (m: nat)
    ensures forall i :: 0 <= i < |vs| ==> IdNumber(vs[i].id) <= m
  {
    var ns := seq(|vs|, i requires 0 <= i < |vs| => IdNumber(vs[i].id));
    assert forall i :: 0 <= i < |vs| ==> ns[i] == IdNumber(vs[i].id);
    MaxOf(ns)
  }

  /** One more than the largest numeric id: never the id of a record in the list. */
  function FreshId(vs: seq<Vehicle>): (id: string)
    ensures forall i :: 0 <= i < |vs| ==> vs[i].id != id
    ensures IdNumber(id) > MaxIdNumber(vs)
  {
    NumberOfString(MaxIdNumber(vs) + 1);
    NatToString(MaxIdNumber(vs) + 1)
  }

  function OtherId(id: string): Vehicle -> bool
  {
    (v: Vehicle) => v.id != id
  }

  function Matches(term: string): Vehicle -> bool
  {
    (v: Vehicle) => Includes(Lower(v.make), Lower(term)) || Includes(Lower(v.model), Lower(term)) ||
                    Includes(Lower(v.registrationNumber), Lower(term))
  }

  /** The ids after the first record are unique and differ from the first record's. */
  lemma UniqueTail(vs: seq<Vehicle>)
    requires vs != [] && UniqueIds(vs)
    ensures UniqueIds(vs[1..])
    ensures forall w :: w in vs[1..] ==> w.id != vs[0].id
  {
    forall i, j | 0 <= i < j < |vs[1..]| ensures vs[1..][i].id != vs[1..][j].id {
      assert vs[1..][i] == vs[i + 1] && vs[1..][j] == vs[j + 1];
    }
  }

  /** A record whose id no other record has can head a list of unique ids. */
  lemma UniqueCons(v: Vehicle, rest: seq<Vehicle>)
    requires UniqueIds(rest) && forall w :: w in rest ==> w.id != v.id
    ensures UniqueIds([v] + rest)
  {
    var r := [v] + rest;
    forall i, j | 0 <= i < j < |r| ensures r[i].id != r[j].id {
      assert r[j] == rest[j - 1];
      if i > 0 {
        assert r[i] == rest[i - 1];
      }
    }
  }

  /** Removing records keeps the remaining ids unique. */
  lemma {:induction false} FilterKeepsUnique(vs: seq<Vehicle>, p: Vehicle -> bool)
    requires UniqueIds(vs)
    ensures UniqueIds(Filter(vs, p))
  {
    if vs != [] {
      UniqueTail(vs);
      FilterKeepsUnique(vs[1..], p);
      if p(vs[0]) {
        UniqueCons(vs[0], Filter(vs[1..], p));
      }
    }
  }

  // ------------------------------------------------------------------ search

  /** `filteredVehicles`: a case-insensitive substring search over make, model and registration. */
  function Filtered(vs: seq<Vehicle>, term: string): (r: seq<Vehicle>)
    ensures IsSubsequence(r, vs)
    ensures forall i :: 0 <= i < |vs| ==> (vs[i] in r <==> Matches(term)(vs[i]))
  {
    Filter(vs, Matches(term))
  }

  /** An empty search term matches every record. */
  lemma EmptySearchKeepsAll(vs: seq<Vehicle>)
    ensures Filtered(vs, "") == vs
  {
    forall i | 0 <= i < |vs| ensures Matches("")(vs[i]) {
      assert Lower("") == "";
      assert OccursAt(Lower(vs[i].make), "", 0);
    }
    FilterAllOrNone(vs, Matches(""));
  }

  /** `getStatusColor`. */
  function StatusColor(s: Status): (c: string)
    ensures c == "success" <==> s == Passed
    ensures c == "error" <==> s == Failed
    ensures c == "warning" <==> s == Pending
    ensures c == "default" <==> s == NotInspected
  {
    match s
    case Passed => "success"
    case Failed => "error"
    case Pending => "warning"
    case NotInspected => "default"
  }

  // -------------------------------------------------------------------- page

  datatype DraftField = MakeField | ModelField | YearField | RegistrationField | ColorField

  /** `{ ...prev, [name]: value }`: every input stores its text, the year included. */
  function SetDraftField(d: Draft, field: DraftField, value: string): (r: Draft)
    ensures field == YearField ==> r.year == Text(value) && EntryValue(r.year) == StringToNumber(value)
    ensures field != YearField ==> r.year == d.year
  {
    match field
    case MakeField => d.(make := value)
    case ModelField => d.(model := value)
    case YearField => d.(year := Text(value))
    case RegistrationField => d.(registrationNumber := value)
    case ColorField => d.(color := value)
  }

  /** The record an accepted form becomes: `(vehicles.length + 1).toString()` is its id. */
  function Added(vs: seq<Vehicle>, d: Draft): (v: Vehicle)
    ensures StringToNumber(v.id) == Some(|vs| + 1)
    ensures v.status == NotInspected && v.lastInspectionDate.None?
    ensures v.make == d.make && v.model == d.model && v.year == d.year
    ensures v.registrationNumber == d.registrationNumber && v.color == d.color
  {
    Vehicle(LengthId(vs), d.make, d.model, d.year, d.registrationNumber, d.color, None, NotInspected)
  }

  /** The record an accepted form should become: its id is one no record in the list has. */
  function AddedFresh(vs: seq<Vehicle>, d: Draft): (v: Vehicle)
    ensures v.id !in (set w | w in vs :: w.id)
    ensures v.status == NotInspected && v.lastInspectionDate.None?
    ensures v == Added(vs, d).(id := v.id)
  {
    Vehicle(FreshId(vs), d.make, d.model, d.year, d.registrationNumber, d.color, None, NotInspected)
  }

  class Page {
    var vehicles: seq<Vehicle>
    var searchTerm: string
    var openDialog: bool
    var draft: Draft
    var errors: DraftErrors

    /** The page once the records are loaded. */
    constructor (currentYear: int)
      ensures UniqueIds(vehicles)
      ensures vehicles == Initial && searchTerm == "" && !openDialog
      ensures draft == EmptyDraft(currentYear) && errors == NoErrors
    {
      vehicles := Initial;
      searchTerm := "";
      openDialog := false;
      draft := EmptyDraft(currentYear);
      errors := NoErrors;
    }

    /** `handleOpenDialog`: the form keeps what it held, the errors are cleared. */
    method OpenDialog()
      modifies this`openDialog, this`errors
      ensures openDialog && errors == NoErrors
    {
      openDialog := true;
      errors := NoErrors;
    }

    /** `handleCloseDialog`: the form is reset, the year to the current one; errors stay. */
    method CloseDialog(currentYear: int)
      modifies this`openDialog, this`draft
      ensures !openDialog && draft == EmptyDraft(currentYear)
    {
      openDialog := false;
      draft := EmptyDraft(currentYear);
    }

    /** `handleInputChange`. */
    method InputChange(field: DraftField, value: string)
      modifies this`draft
      ensures draft == SetDraftField(old(draft), field, value)
    {
      draft := SetDraftField(draft, field, value);
    }

    /** Every field of the form typed in, one `handleInputChange` per input. */
    method TypeDraft(make: string, model: string, year: string, registration: string, color: string)
      modifies this`draft
      ensures draft == Draft(make, model, Text(year), registration, color)
    {
      InputChange(MakeField, make);
      InputChange(ModelField, model);
      InputChange(YearField, year);
      InputChange(RegistrationField, registration);
      InputChange(ColorField, color);
    }

    /**
     * `handleAddVehicle`: an invalid form only records its errors; a valid one
     * is appended as a new record whose id is the list's length plus one, and
     * the dialog closes. The records already there are untouched.
     */
    method AddVehicle(currentYear: int) returns (added: bool)
      modifies this`vehicles, this`errors, this`openDialog, this`draft
      ensures added <==> DraftValid(old(draft), currentYear)
      ensures errors == DraftErrorsOf(old(draft), currentYear)
      ensures added ==> vehicles == old(vehicles) + [Added(old(vehicles), old(draft))]
      ensures added ==> !openDialog && draft == EmptyDraft(currentYear)
      ensures !added ==> vehicles == old(vehicles) && openDialog == old(openDialog) && draft == old(draft)
    {
      var e;
      e, added := ValidateDraft(draft, currentYear);
      errors := e;
      if !added {
        return;
      }
      var v := Added(vehicles, draft);
      vehicles := vehicles + [v];
      CloseDialog(currentYear);
    }

    /**
     * The page's own handlers in turn, on a page holding records '1' to '4'
     * as the loaded page does: delete record '1', type a valid form, add it.
     * The new record gets id '4', which the old record '4' still has.
     */
    method DeleteThenAddRepeatsId(currentYear: int, make: string, model: string, year: string, registration: string, color: string)
      returns (added: bool)
      requires |vehicles| == 4
      requires vehicles[0].id == "1" && vehicles[1].id == "2" && vehicles[2].id == "3" && vehicles[3].id == "4"
      requires DraftValid(Draft(make, model, Text(year), registration, color), currentYear)
      modifies this`vehicles, this`errors, this`openDialog, this`draft
      ensures added
      ensures |vehicles| == 4 && vehicles[..3] == old(vehicles[1..])
      ensures vehicles[3].id == vehicles[2].id == "4"
      ensures !UniqueIds(vehicles)
    {
      DeleteFirstThenAdd(vehicles, Draft(make, model, Text(year), registration, color));
      DeleteVehicle("1", true);
      TypeDraft(make, model, year, registration, color);
      added := AddVehicle(currentYear);
    }

    /**
     * `handleAddVehicle` with the id taken past the largest numeric id rather
     * than from the length: the ids stay distinct whatever was deleted before.
     */
    method AddVehicleFresh(currentYear: int) returns (added: bool)
      requires UniqueIds(vehicles)
      modifies this`vehicles, this`errors, this`openDialog, this`draft
      ensures UniqueIds(vehicles)
      ensures added <==> DraftValid(old(draft), currentYear)
      ensures errors == DraftErrorsOf(old(draft), currentYear)
      ensures added ==> vehicles == old(vehicles) + [AddedFresh(old(vehicles), old(draft))]
      ensures added ==> !openDialog && draft == EmptyDraft(currentYear)
      ensures !added ==> vehicles == old(vehicles) && openDialog == old(openDialog) && draft == old(draft)
    {
      var e;
      e, added := ValidateDraft(draft, currentYear);
      errors := e;
      if !added {
        return;
      }
      var v := AddedFresh(vehicles, draft);
      vehicles := vehicles + [v];
      CloseDialog(currentYear);
    }

    /**
     * `handleDeleteVehicle`: after the user confirms, every record with that id
     * goes and the others keep their order; ids that were distinct stay so.
     */
    method DeleteVehicle(id: string, confirmed: bool)
      modifies this`vehicles
      ensures !confirmed ==> vehicles == old(vehicles)
      ensures confirmed ==> vehicles == Filter(old(vehicles), OtherId(id))
      ensures confirmed ==> forall i :: 0 <= i < |vehicles| ==> vehicles[i].id != id
      ensures confirmed ==> forall i :: 0 <= i < |old(vehicles)| && old(vehicles)[i].id != id ==> old(vehicles)[i] in vehicles
      ensures UniqueIds(old(vehicles)) ==> UniqueIds(vehicles)
    {
      if confirmed {
        if UniqueIds(vehicles) {
          FilterKeepsUnique(vehicles, OtherId(id));
        }
        vehicles := Filter(vehicles, OtherId(id));
      }
    }
  }
}
