/**
 * The vehicle store: the `vehicles` table, the record opened last
 * (`currentVehicle`), and the `loading`/`error` flags. Record ids and ISO
 * timestamps are parameters.
 */
module VehicleStore {
  import opened Js
  import Lists

  /**
   * A vehicle record. Besides the declared properties it carries the optional
   * ones the pages read or write (`licensePlate`, `fuelType`, `registrationDate`,
   * `notes`, `imageUrl`); `registrationNumber` is optional because records made
   * by the vehicle form carry a licence plate instead. `null` and a missing
   * property are both `None`; `status` is free text ('active', 'inactive',
   * 'pending', 'maintenance').
   */
  datatype Vehicle = Vehicle(
    id: string,
    make: string,
    model: string,
    year: int,
    registrationNumber: Option<string>,
    color: Option<string>,
    vin: Option<string>,
    mileage: Option<int>,
    lastInspectionDate: Option<string>,
    nextInspectionDate: Option<string>,
    status: Option<string>,
    createdAt: Option<string>,
    updatedAt: Option<string>,
    licensePlate: Option<string>,
    fuelType: Option<string>,
    registrationDate: Option<string>,
    notes: Option<string>,
    imageUrl: Option<string>)

  /** A `Partial<Vehicle>`. */
  datatype VehiclePatch = VehiclePatch(
    id: Field<string>,
    make: Field<string>,
    model: Field<string>,
    year: Field<int>,
    registrationNumber: Field<Option<string>>,
    color: Field<Option<string>>,
    vin: Field<Option<string>>,
    mileage: Field<Option<int>>,
    lastInspectionDate: Field<Option<string>>,
    nextInspectionDate: Field<Option<string>>,
    status: Field<Option<string>>,
    createdAt: Field<Option<string>>,
    licensePlate: Field<Option<string>>,
    fuelType: Field<Option<string>>,
    registrationDate: Field<Option<string>>,
    notes: Field<Option<string>>,
    imageUrl: Field<Option<string>>)

  const EmptyPatch := VehiclePatch(Keep, Keep, Keep, Keep, Keep, Keep, Keep, Keep, Keep, Keep, Keep, Keep, Keep, Keep, Keep, Keep, Keep)

  /** `{ ...x, ...p, updatedAt: now }`. */
  function Overlay(x: Vehicle, p: VehiclePatch, now: string): Vehicle
  {
    Vehicle(
      Apply(p.id, x.id), Apply(p.make, x.make), Apply(p.model, x.model), Apply(p.year, x.year),
      Apply(p.registrationNumber, x.registrationNumber), Apply(p.color, x.color), Apply(p.vin, x.vin),
      Apply(p.mileage, x.mileage), Apply(p.lastInspectionDate, x.lastInspectionDate),
      Apply(p.nextInspectionDate, x.nextInspectionDate), Apply(p.status, x.status),
      Apply(p.createdAt, x.createdAt), Some(now), Apply(p.licensePlate, x.licensePlate),
      Apply(p.fuelType, x.fuelType), Apply(p.registrationDate, x.registrationDate),
      Apply(p.notes, x.notes), Apply(p.imageUrl, x.imageUrl))
  }

  /** Applying the same patch twice is applying it once; an empty patch only refreshes `updatedAt`. */
  lemma OverlayLaws(x: Vehicle, p: VehiclePatch, now: string)
    ensures Overlay(Overlay(x, p, now), p, now) == Overlay(x, p, now)
    ensures Overlay(x, EmptyPatch, now) == x.(updatedAt := Some(now))
  {
  }

  function HasId(id: string): Vehicle -> bool
  {
    (v: Vehicle) => v.id == id
  }

  function OtherId(id: string): Vehicle -> bool
  {
    (v: Vehicle) => v.id != id
  }

  /** `vehicles.find(v => v.id === id)`. */
  function FindVehicle(s: seq<Vehicle>, id: string): (r: Option<Vehicle>)
    ensures r.Some? ==> r.value in s && r.value.id == id
    ensures r.None? <==> forall k :: 0 <= k < |s| ==> s[k].id != id
    ensures r.Some? ==> exists k :: 0 <= k < |s| && s[k] == r.value && forall j :: 0 <= j < k ==> s[j].id != id
  {
    var k := Lists.FindIndex(s, HasId(id));
    if k.Some? then
      assert forall j :: 0 <= j < k.value ==> !HasId(id)(s[j]);
      Some(s[k.value])
    else None
  }

  /** The record `addVehicle` builds: the input with a fresh id, status 'active' and both timestamps. */
  function NewVehicle(data: Vehicle, id: string, now: string): Vehicle
  {
    data.(id := id, status := Some("active"), createdAt := Some(now), updatedAt := Some(now))
  }

  /**
   * `vehicles.filter(v => v.id !== id)` removes every record with that id, keeps
   * the others in order, and is the identity when no record has the id.
   */
  lemma {:induction false} DeleteFacts(s: seq<Vehicle>, id: string)
    ensures var r := Lists.Filter(s, OtherId(id));
      (forall k :: 0 <= k < |r| ==> r[k].id != id) &&
      (forall k :: 0 <= k < |s| && s[k].id != id ==> s[k] in r) &&
      Lists.IsSubsequence(r, s) &&
      |r| + Lists.Count(s, HasId(id)) == |s|
    ensures (forall k :: 0 <= k < |s| ==> s[k].id != id) ==> Lists.Filter(s, OtherId(id)) == s
  {
    var r := Lists.Filter(s, OtherId(id));
    forall k | 0 <= k < |r| ensures r[k].id != id {
      assert OtherId(id)(r[k]);
    }
    forall k | 0 <= k < |s| && s[k].id != id ensures s[k] in r {
      assert OtherId(id)(s[k]);
    }
    Lists.CountSplit(s, OtherId(id), HasId(id));
    Lists.FilterAllOrNone(s, OtherId(id));
  }

  class Store {
    var vehicles: seq<Vehicle>
    var currentVehicle: Option<Vehicle>
    var loading: bool
    var error: Option<string>

    /** The initial state. */
    constructor ()
      ensures vehicles == [] && currentVehicle == None && !loading && error == None
    {
      vehicles, currentVehicle, loading, error := [], None, false, None;
    }

    /** `fetchVehicle`: the first record with that id becomes current; otherwise the error is recorded, not thrown. */
    method FetchVehicle(id: string)
      modifies this
      ensures vehicles == old(vehicles) && !loading
      ensures var found := FindVehicle(old(vehicles), id);
        if found.Some? then currentVehicle == found && error == None
        else currentVehicle == old(currentVehicle) && error == Some("Vehicle not found")
    {
      loading, error := true, None;
      var found := FindVehicle(vehicles, id);
      if found.None? {
        error, loading := Some("Vehicle not found"), false;
        return;
      }
      currentVehicle, loading := found, false;
    }

    /** `addVehicle`: one record is appended and returned; the earlier records are untouched. */
    method AddVehicle(data: Vehicle, id: string, now: string) returns (v: Vehicle)
      modifies this
      ensures v == NewVehicle(data, id, now)
      ensures vehicles == old(vehicles) + [v]
      ensures currentVehicle == old(currentVehicle) && !loading && error == None
    {
      loading, error := true, None;
      v := NewVehicle(data, id, now);
      vehicles := vehicles + [v];
      loading := false;
    }

    /**
     * `updateVehicle`: the first record with that id is replaced by itself
     * overlaid with the patch; an unknown id is an error, recorded and thrown.
     */
    method UpdateVehicle(id: string, patch: VehiclePatch, now: string) returns (r: Result<Vehicle>)
      modifies this
      ensures !loading
      ensures var k := Lists.FindIndex(old(vehicles), HasId(id));
        if k.None? then
          r == Err("Vehicle not found") && vehicles == old(vehicles) &&
          currentVehicle == old(currentVehicle) && error == Some("Vehicle not found")
        else
          r == Ok(Overlay(old(vehicles)[k.value], patch, now)) &&
          vehicles == old(vehicles)[k.value := r.value] &&
          currentVehicle == Some(r.value) && error == None
    {
      loading, error := true, None;
      var k := Lists.FindIndex(vehicles, HasId(id));
      if k.None? {
        error, loading := Some("Vehicle not found"), false;
        return Err("Vehicle not found");
      }
      var updated := Overlay(vehicles[k.value], patch, now);
      vehicles := vehicles[k.value := updated];
      currentVehicle, loading := Some(updated), false;
      r := Ok(updated);
    }

    /** `deleteVehicle`: every record with that id goes; the current vehicle is cleared exactly when it has that id. */
    method DeleteVehicle(id: string)
      modifies this
      ensures vehicles == Lists.Filter(old(vehicles), OtherId(id))
      ensures currentVehicle == if old(currentVehicle).Some? && old(currentVehicle).value.id == id then None else old(currentVehicle)
      ensures !loading && error == None
    {
      loading, error := true, None;
      vehicles := Lists.Filter(vehicles, OtherId(id));
      if currentVehicle.Some? && currentVehicle.value.id == id {
        currentVehicle := None;
      }
      loading := false;
    }

    /** `clearError`. */
    method ClearError()
      modifies this
      ensures error == None
      ensures vehicles == old(vehicles) && currentVehicle == old(currentVehicle) && loading == old(loading)
    {
      error := None;
    }

    /** `resetState`. */
    method ResetState()
      modifies this
      ensures vehicles == [] && currentVehicle == None && !loading && error == None
    {
      vehicles, currentVehicle, loading, error := [], None, false, None;
    }
  }
}
