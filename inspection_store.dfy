/**
 * The inspection store: two tables, `inspections` and `bookings`, the record
 * opened last (`currentInspection`), and the `loading`/`error` flags every
 * action updates. Each action is modelled from its first `set` to its last;
 * record ids and ISO timestamps are parameters.
 */
module InspectionStore {
  import opened Js
  import Lists

  datatype ItemStatus = Pass | Fail | NotChecked
  {
    function Name(): string
    {
      match this
      case Pass => "pass"
      case Fail => "fail"
      case NotChecked => "not_checked"
    }
  }

  datatype InspectionItem = InspectionItem(id: string, name: string, status: ItemStatus, notes: Option<string>)

  datatype InspectionStatus = Pending | Passed | Failed
  {
    function Name(): string
    {
      match this
      case Pending => "pending"
      case Passed => "passed"
      case Failed => "failed"
    }
  }

  datatype BookingStatus = Scheduled | Completed | Cancelled
  {
    function Name(): string
    {
      match this
      case Scheduled => "scheduled"
      case Completed => "completed"
      case Cancelled => "cancelled"
    }
  }

  /**
   * An inspection record. `bookingId` and `completedDate` are not declared on the
   * store's type but are read by the pages, so they are optional here.
   */
  datatype Inspection = Inspection(
    id: string,
    vehicleId: string,
    vehicleMake: Option<string>,
    vehicleModel: Option<string>,
    vehicleRegistration: Option<string>,
    date: string,
    status: InspectionStatus,
    notes: Option<string>,
    inspectorName: Option<string>,
    items: Option<seq<InspectionItem>>,
    createdAt: Option<string>,
    updatedAt: Option<string>,
    bookingId: Option<string>,
    completedDate: Option<string>)

  /** A booking; `inspectorName` arrives through the spread of the booking request. */
  datatype Booking = Booking(
    id: string,
    vehicleId: string,
    date: string,
    notes: Option<string>,
    status: BookingStatus,
    createdAt: Option<string>,
    updatedAt: Option<string>,
    inspectorName: Option<string>)

  /** What `bookInspection` is given: a booking without id, status and timestamps. */
  datatype BookingRequest = BookingRequest(vehicleId: string, date: string, notes: Option<string>, inspectorName: Option<string>)

  /** A `Partial<Inspection>`: the properties an update sets. */
  datatype InspectionPatch = InspectionPatch(
    id: Field<string>,
    vehicleId: Field<string>,
    vehicleMake: Field<Option<string>>,
    vehicleModel: Field<Option<string>>,
    vehicleRegistration: Field<Option<string>>,
    date: Field<string>,
    status: Field<InspectionStatus>,
    notes: Field<Option<string>>,
    inspectorName: Field<Option<string>>,
    items: Field<Option<seq<InspectionItem>>>,
    createdAt: Field<Option<string>>,
    bookingId: Field<Option<string>>,
    completedDate: Field<Option<string>>)

  const EmptyPatch := InspectionPatch(Keep, Keep, Keep, Keep, Keep, Keep, Keep, Keep, Keep, Keep, Keep, Keep, Keep)

  /** `{ notes }`, the patch the details page sends. */
  function NotesPatch(notes: string): InspectionPatch
  {
    EmptyPatch.(notes := Set(Some(notes)))
  }

  /** `{ ...x, ...p, updatedAt: now }`. */
  function Overlay(x: Inspection, p: InspectionPatch, now: string): Inspection
  {
    Inspection(
      Apply(p.id, x.id), Apply(p.vehicleId, x.vehicleId), Apply(p.vehicleMake, x.vehicleMake),
      Apply(p.vehicleModel, x.vehicleModel), Apply(p.vehicleRegistration, x.vehicleRegistration),
      Apply(p.date, x.date), Apply(p.status, x.status), Apply(p.notes, x.notes),
      Apply(p.inspectorName, x.inspectorName), Apply(p.items, x.items), Apply(p.createdAt, x.createdAt),
      Some(now), Apply(p.bookingId, x.bookingId), Apply(p.completedDate, x.completedDate))
  }

  /** Applying the same patch twice is applying it once. */
  lemma OverlayIdempotent(x: Inspection, p: InspectionPatch, now: string)
    ensures Overlay(Overlay(x, p, now), p, now) == Overlay(x, p, now)
  {
  }

  /** An empty patch only refreshes `updatedAt`; a notes patch changes only the notes. */
  lemma OverlayEmptyAndNotes(x: Inspection, notes: string, now: string)
    ensures Overlay(x, EmptyPatch, now) == x.(updatedAt := Some(now))
    ensures Overlay(x, NotesPatch(notes), now) == x.(notes := Some(notes), updatedAt := Some(now))
  {
  }

  function HasId(id: string): Inspection -> bool
  {
    (i: Inspection) => i.id == id
  }

  function BookingHasId(id: string): Booking -> bool
  {
    (b: Booking) => b.id == id
  }

  /** `bookings.find(b => b.id === inspection.bookingId)`: an inspection without a booking id finds none. */
  function BookingOf(bookings: seq<Booking>, i: Inspection): (r: Option<Booking>)
    ensures i.bookingId.None? ==> r.None?
    ensures r.Some? ==> r.value in bookings && Some(r.value.id) == i.bookingId
    ensures i.bookingId.Some? && (exists k :: 0 <= k < |bookings| && bookings[k].id == i.bookingId.value) ==> r.Some?
  {
    if i.bookingId.None? then None
    else
      var r := Lists.Find(bookings, BookingHasId(i.bookingId.value));
      assert r.Some? ==> BookingHasId(i.bookingId.value)(r.value);
      r
  }

  /** Some inspection refers to this booking. */
  predicate Referenced(inspections: seq<Inspection>, bookingId: string)
  {
    exists k :: 0 <= k < |inspections| && inspections[k].bookingId == Some(bookingId)
  }

  function PendingFor(vehicleId: string): Inspection -> bool
  {
    (i: Inspection) => i.vehicleId == vehicleId && i.status == Pending
  }

  /** `inspections.find(i => i.id === id)`. */
  function FindInspection(s: seq<Inspection>, id: string): (r: Option<Inspection>)
    ensures r.Some? ==> r.value in s && r.value.id == id
    ensures r.None? <==> forall k :: 0 <= k < |s| ==> s[k].id != id
    ensures r.Some? ==> exists k :: 0 <= k < |s| && s[k] == r.value && forall j :: 0 <= j < k ==> s[j].id != id
  {
    var k := Lists.FindIndex(s, HasId(id));
    if k.Some? then
      assert forall j :: 0 <= j < k.value ==> !HasId(id)(s[j]);
      Some(s[k.value])
    else None
  }

  /** The inspection list after a cancel: the first pending inspection of the vehicle removed, if there is one. */
  function WithoutFirstPending(s: seq<Inspection>, vehicleId: string): (r: seq<Inspection>)
  {
    match Lists.FindIndex(s, PendingFor(vehicleId))
    case None => s
    case Some(k) => Lists.RemoveAt(s, k)
  }

  /**
   * A cancel removes at most one inspection, and it is a pending one of that
   * vehicle: with none the list is unchanged; otherwise the pending count of the
   * vehicle drops by one and every other inspection stays, in order.
   */
  lemma {:induction false} WithoutFirstPendingRemovesOne(s: seq<Inspection>, vehicleId: string)
    ensures var r := WithoutFirstPending(s, vehicleId);
      multiset(r) <= multiset(s) && |s| - 1 <= |r| <= |s|
    ensures (forall k :: 0 <= k < |s| ==> !(s[k].vehicleId == vehicleId && s[k].status == Pending)) ==>
      WithoutFirstPending(s, vehicleId) == s
    ensures (exists k :: 0 <= k < |s| && s[k].vehicleId == vehicleId && s[k].status == Pending) ==>
      Lists.Count(WithoutFirstPending(s, vehicleId), PendingFor(vehicleId)) == Lists.Count(s, PendingFor(vehicleId)) - 1
    ensures forall p :: Lists.Count(WithoutFirstPending(s, vehicleId), p) >= Lists.Count(s, p) - 1
  {
    var p := PendingFor(vehicleId);
    match Lists.FindIndex(s, p)
    case None =>
    case Some(k) =>
      Lists.CountRemoveAt(s, k, p);
      forall q ensures Lists.Count(Lists.RemoveAt(s, k), q) >= Lists.Count(s, q) - 1 {
        Lists.CountRemoveAt(s, k, q);
      }
  }

  /** The bookings after `cancelBooking(id)`: the first booking with the id alone is marked cancelled. */
  function CancelledBookings(bookings: seq<Booking>, id: string, now: string): (r: seq<Booking>)
    ensures |r| == |bookings|
    ensures Lists.FindIndex(bookings, BookingHasId(id)).None? ==> r == bookings
    ensures Lists.FindIndex(bookings, BookingHasId(id)).Some? ==>
      var k := Lists.FindIndex(bookings, BookingHasId(id)).value;
      && r[k] == bookings[k].(status := Cancelled, updatedAt := Some(now))
      && r[k].id == id && r[k].status == Cancelled
      && forall j :: 0 <= j < |r| && j != k ==> r[j] == bookings[j]
  {
    match Lists.FindIndex(bookings, BookingHasId(id))
    case None => bookings
    case Some(k) => bookings[k := bookings[k].(status := Cancelled, updatedAt := Some(now))]
  }

  /** The inspections after `cancelBooking(id)`: the first pending one of the booking's vehicle goes. */
  function InspectionsAfterCancel(bookings: seq<Booking>, inspections: seq<Inspection>, id: string): seq<Inspection>
  {
    match Lists.FindIndex(bookings, BookingHasId(id))
    case None => inspections
    case Some(k) => WithoutFirstPending(inspections, bookings[k].vehicleId)
  }

  class Store {
    var inspections: seq<Inspection>
    var currentInspection: Option<Inspection>
    var bookings: seq<Booking>
    var loading: bool
    var error: Option<string>

    /** The initial state. */
    constructor ()
      ensures inspections == [] && bookings == [] && currentInspection == None
      ensures !loading && error == None
    {
      inspections := [];
      currentInspection := None;
      bookings := [];
      loading := false;
      error := None;
    }

    /** `fetchInspection`: the first record with that id becomes current; otherwise the error is recorded, not thrown. */
    method FetchInspection(id: string)
      modifies this
      ensures inspections == old(inspections) && bookings == old(bookings) && !loading
      ensures var found := FindInspection(old(inspections), id);
        if found.Some? then currentInspection == found && error == None
        else currentInspection == old(currentInspection) && error == Some("Inspection not found")
    {
      loading, error := true, None;
      var found := FindInspection(inspections, id);
      if found.None? {
        error, loading := Some("Inspection not found"), false;
        return;
      }
      currentInspection, loading := found, false;
    }

    /** `bookInspection`: one scheduled booking and one pending inspection are appended; the booking is returned. */
    method BookInspection(req: BookingRequest, bookingId: string, inspectionId: string, now: string) returns (b: Booking)
      modifies this
      ensures b == Booking(bookingId, req.vehicleId, req.date, req.notes, Scheduled, Some(now), Some(now), req.inspectorName)
      ensures bookings == old(bookings) + [b]
      ensures inspections == old(inspections) + [Inspection(inspectionId, req.vehicleId, None, None, None, req.date,
        Pending, req.notes, None, None, Some(now), Some(now), None, None)]
      ensures currentInspection == old(currentInspection) && !loading && error == None
    {
      loading, error := true, None;
      b := Booking(bookingId, req.vehicleId, req.date, req.notes, Scheduled, Some(now), Some(now), req.inspectorName);
      var pending := Inspection(inspectionId, req.vehicleId, None, None, None, req.date,
        Pending, req.notes, None, None, Some(now), Some(now), None, None);
      bookings := bookings + [b];
      inspections := inspections + [pending];
      loading := false;
    }

    /**
     * `updateInspection`: the first record with that id is replaced by itself
     * overlaid with the patch; an unknown id is an error, recorded and thrown.
     */
    method UpdateInspection(id: string, patch: InspectionPatch, now: string) returns (r: Result<Inspection>)
      modifies this
      ensures bookings == old(bookings) && !loading
      ensures var k := Lists.FindIndex(old(inspections), HasId(id));
        if k.None? then
          r == Err("Inspection not found") && inspections == old(inspections) &&
          currentInspection == old(currentInspection) && error == Some("Inspection not found")
        else
          r == Ok(Overlay(old(inspections)[k.value], patch, now)) &&
          inspections == old(inspections)[k.value := r.value] &&
          currentInspection == Some(r.value) && error == None
    {
      loading, error := true, None;
      var k := Lists.FindIndex(inspections, HasId(id));
      if k.None? {
        error, loading := Some("Inspection not found"), false;
        return Err("Inspection not found");
      }
      var updated := Overlay(inspections[k.value], patch, now);
      inspections := inspections[k.value := updated];
      currentInspection, loading := Some(updated), false;
      r := Ok(updated);
    }

    /**
     * `cancelBooking`: the first booking with that id is marked cancelled, and the
     * first pending inspection of its vehicle is removed; an unknown id is an
     * error, recorded and thrown, and changes neither table.
     */
    method CancelBooking(id: string, now: string) returns (r: Result<()>)
      modifies this
      ensures currentInspection == old(currentInspection) && !loading
      ensures var k := Lists.FindIndex(old(bookings), BookingHasId(id));
        if k.None? then
          r == Err("Booking not found") && bookings == old(bookings) && inspections == old(inspections) &&
          error == Some("Booking not found")
        else
          var cancelled := old(bookings)[k.value].(status := Cancelled, updatedAt := Some(now));
          r == Ok(()) && bookings == old(bookings)[k.value := cancelled] &&
          inspections == WithoutFirstPending(old(inspections), cancelled.vehicleId) && error == None
      ensures bookings == CancelledBookings(old(bookings), id, now)
      ensures inspections == InspectionsAfterCancel(old(bookings), old(inspections), id)
    {
      loading, error := true, None;
      var k := Lists.FindIndex(bookings, BookingHasId(id));
      if k.None? {
        error, loading := Some("Booking not found"), false;
        return Err("Booking not found");
      }
      var cancelled := bookings[k.value].(status := Cancelled, updatedAt := Some(now));
      bookings := bookings[k.value := cancelled];
      inspections := WithoutFirstPending(inspections, cancelled.vehicleId);
      loading := false;
      r := Ok(());
    }

    /** `clearError`. */
    method ClearError()
      modifies this
      ensures error == None
      ensures inspections == old(inspections) && bookings == old(bookings)
      ensures currentInspection == old(currentInspection) && loading == old(loading)
    {
      error := None;
    }

    /** `resetState`. */
    method ResetState()
      modifies this
      ensures inspections == [] && bookings == [] && currentInspection == None
      ensures !loading && error == None
    {
      inspections, currentInspection, bookings, loading, error := [], None, [], false, None;
    }
  }
}
