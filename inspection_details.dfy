/**
 * The inspection details page of the newer front-end: which inspection or
 * booking a route id names, whether the page shows a scheduled booking or a
 * report, the summary it shows with its fallbacks, the checklist counts, and
 * saving notes and cancelling through the store.
 */
module InspectionDetails {
  import opened Js
  import opened Lists
  import opened InspectionStore
  import VehicleStore

  const BookingPrefix := "booking-"

  /** `` `booking-${i.bookingId}` ``: a missing booking id is spelled 'undefined'. */
  function BookingTag(i: Inspection): (t: string)
    ensures i.bookingId.Some? ==> t == BookingPrefix + i.bookingId.value
    ensures i.bookingId.None? ==> t == "booking-undefined"
  {
    BookingPrefix + (if i.bookingId.Some? then i.bookingId.value else "undefined")
  }

  function RouteMatches(id: string): Inspection -> bool
  {
    (i: Inspection) => i.id == id || BookingTag(i) == id
  }

  /** `inspections.find(i => i.id === id || `booking-${i.bookingId}` === id)`, nothing for an empty id. */
  function InspectionFor(inspections: seq<Inspection>, id: string): (r: Option<Inspection>)
    ensures r.Some? ==> r.value in inspections && (r.value.id == id || BookingTag(r.value) == id)
    ensures r.None? <==> id == "" || forall k :: 0 <= k < |inspections| ==> !RouteMatches(id)(inspections[k])
  {
    if id == "" then None else Find(inspections, RouteMatches(id))
  }

  /** `id.startsWith('booking-')`. */
  predicate IsBooking(id: string)
  {
    StartsWith(id, BookingPrefix)
  }

  /** The booking id: the route id without its prefix for a booking route, else the inspection's. */
  function RouteBookingId(id: string, inspection: Option<Inspection>): (r: Option<string>)
    ensures IsBooking(id) ==> r.Some? && BookingPrefix + r.value == id
    ensures !IsBooking(id) ==> r == (if inspection.Some? then inspection.value.bookingId else None)
  {
    if IsBooking(id) then
      assert id == id[..8] + id[8..];
      Some(id[8..])
    else if inspection.Some? then inspection.value.bookingId
    else None
  }

  /** The route of a booking's card leads back to that booking's id. */
  lemma BookingRouteRoundTrip(bookingId: string, inspection: Option<Inspection>)
    ensures IsBooking(BookingPrefix + bookingId)
    ensures RouteBookingId(BookingPrefix + bookingId, inspection) == Some(bookingId)
  {
    var id := BookingPrefix + bookingId;
    assert id[..8] == BookingPrefix;
    assert id[8..] == bookingId;
  }

  /** `bookingId ? bookings.find(b => b.id === bookingId) : null`. */
  function BookingFor(bookings: seq<Booking>, bookingId: Option<string>): (r: Option<Booking>)
    ensures r.Some? ==> r.value in bookings && bookingId == Some(r.value.id)
    ensures bookingId.None? || bookingId.value == "" ==> r.None?
  {
    if bookingId.None? || bookingId.value == "" then None
    else
      var r := Find(bookings, BookingHasId(bookingId.value));
      assert r.Some? ==> BookingHasId(bookingId.value)(r.value);
      r
  }

  /** The vehicle card: missing details shown as 'N/A', a missing mileage as 0. */
  datatype VehicleCard = VehicleCard(
    id: string, make: string, model: string, year: int, licensePlate: Option<string>, vin: string, color: string,
    status: Option<string>, fuelType: string, mileage: int, registrationDate: string, lastInspectionDate: string)

  function CardOf(v: VehicleStore.Vehicle): (c: VehicleCard)
    ensures c.id == v.id && c.make == v.make && c.model == v.model && c.year == v.year
    ensures c.vin == StrOr(v.vin, "N/A") && c.color == StrOr(v.color, "N/A") && c.fuelType == StrOr(v.fuelType, "N/A")
    ensures c.mileage == (if v.mileage.Some? then v.mileage.value else 0)
    ensures c.registrationDate == StrOr(v.registrationDate, "N/A") && c.lastInspectionDate == StrOr(v.lastInspectionDate, "N/A")
  {
    VehicleCard(v.id, v.make, v.model, v.year, v.licensePlate, StrOr(v.vin, "N/A"), StrOr(v.color, "N/A"), v.status,
      StrOr(v.fuelType, "N/A"), if v.mileage.Some? then v.mileage.value else 0,
      StrOr(v.registrationDate, "N/A"), StrOr(v.lastInspectionDate, "N/A"))
  }

  /** `inspectionData`. */
  datatype Summary = Summary(
    id: string,
    status: string,
    date: string,
    completedDate: Option<string>,
    inspectorName: string,
    notes: string,
    items: seq<InspectionItem>,
    vehicle: Option<VehicleCard>)

  /** What the page renders: the not-found state, or a scheduled booking or a report with its summary. */
  datatype View = NotFound | Shown(isScheduled: bool, summary: Summary)

  /** Each field falls back from the inspection to the booking to a default. */
  function SummaryOf(inspection: Option<Inspection>, booking: Option<Booking>, vehicle: Option<VehicleStore.Vehicle>): (s: Summary)
    ensures inspection.Some? && inspection.value.id != "" ==> s.id == inspection.value.id
    ensures inspection.None? && booking.Some? ==> s.id == BookingPrefix + booking.value.id
    ensures s.status == if inspection.Some? then inspection.value.status.Name() else "scheduled"
    ensures s.date == if booking.Some? then booking.value.date else ""
    ensures s.inspectorName ==
      if inspection.Some? && inspection.value.inspectorName.Some? && inspection.value.inspectorName.value != "" then inspection.value.inspectorName.value
      else if booking.Some? && booking.value.inspectorName.Some? && booking.value.inspectorName.value != "" then booking.value.inspectorName.value
      else "Not assigned"
    ensures s.notes ==
      if inspection.Some? && inspection.value.notes.Some? && inspection.value.notes.value != "" then inspection.value.notes.value
      else if booking.Some? && booking.value.notes.Some? && booking.value.notes.value != "" then booking.value.notes.value
      else ""
    ensures s.items == if inspection.Some? && inspection.value.items.Some? then inspection.value.items.value else []
    ensures s.vehicle.Some? <==> vehicle.Some?
  {
    var fromInspection := if inspection.Some? then inspection.value.id else "";
    var bookingTag := BookingPrefix + (if booking.Some? then booking.value.id else "undefined");
    Summary(
      if fromInspection != "" then fromInspection else bookingTag,
      if inspection.Some? then inspection.value.status.Name() else "scheduled",
      if booking.Some? then booking.value.date else "",
      if inspection.Some? then inspection.value.completedDate else None,
      StrOr(if inspection.Some? then inspection.value.inspectorName else None,
        StrOr(if booking.Some? then booking.value.inspectorName else None, "Not assigned")),
      StrOr(if inspection.Some? then inspection.value.notes else None,
        StrOr(if booking.Some? then booking.value.notes else None, "")),
      if inspection.Some? && inspection.value.items.Some? then inspection.value.items.value else [],
      if vehicle.Some? then Some(CardOf(vehicle.value)) else None)
  }

  /**
   * The page for a route id once loaded: not found when neither an inspection
   * nor a booking answers to it; otherwise scheduled for a booking route or an
   * inspection without a completion date.
   */
  function ViewFor(id: string, inspections: seq<Inspection>, bookings: seq<Booking>, vehicles: seq<VehicleStore.Vehicle>): (v: View)
    ensures v.NotFound? <==>
      (InspectionFor(inspections, id).None? && BookingFor(bookings, RouteBookingId(id, InspectionFor(inspections, id))).None?)
    ensures v.Shown? ==>
      (v.isScheduled <==>
        (IsBooking(id) ||
         var i := InspectionFor(inspections, id); i.Some? && (i.value.completedDate.None? || i.value.completedDate.value == "")))
  {
    var inspection := InspectionFor(inspections, id);
    var booking := BookingFor(bookings, RouteBookingId(id, inspection));
    var vehicleId := if booking.Some? then booking.value.vehicleId else "";
    var vehicle := if vehicleId != "" then VehicleStore.FindVehicle(vehicles, vehicleId) else None;
    if inspection.None? && booking.None? then NotFound
    else
      var completed := inspection.Some? && inspection.value.completedDate.Some? && inspection.value.completedDate.value != "";
      Shown(IsBooking(id) || !completed, SummaryOf(inspection, booking, vehicle))
  }

  /** A route that is neither an inspection's nor a booking's shows no report: only booking routes can be shown without an inspection. */
  lemma ShownWithoutInspectionIsBookingRoute(id: string, inspections: seq<Inspection>, bookings: seq<Booking>, vehicles: seq<VehicleStore.Vehicle>)
    requires ViewFor(id, inspections, bookings, vehicles).Shown?
    requires InspectionFor(inspections, id).None?
    ensures IsBooking(id) && ViewFor(id, inspections, bookings, vehicles).isScheduled
  {
  }

  // ------------------------------------------------------------ item counts

  /** `items.filter(item => item.status === label).length`. */
  function CountLabelled(items: seq<InspectionItem>, name: string): nat
  {
    Count(items, (it: InspectionItem) => it.status.Name() == name)
  }

  /** The summary's passed, failed and pending counts as the page computes them, by the labels 'passed', 'failed' and 'pending'. */
  function ItemCountsAsWritten(items: seq<InspectionItem>): (c: (nat, nat, nat))
  {
    (CountLabelled(items, "passed"), CountLabelled(items, "failed"), CountLabelled(items, "pending"))
  }

  /** No item carries a label other than the three item statuses. */
  lemma NoItemLabelled(items: seq<InspectionItem>, name: string)
    requires name != "pass" && name != "fail" && name != "not_checked"
    ensures CountLabelled(items, name) == 0
  {
    FilterAllOrNone(items, (it: InspectionItem) => it.status.Name() == name);
  }

  /** Items are labelled 'pass', 'fail' and 'not_checked', so those labels never match and every count is 0. */
  lemma ItemCountsAsWrittenAlwaysZero(items: seq<InspectionItem>)
    ensures ItemCountsAsWritten(items) == (0, 0, 0)
  {
    NoItemLabelled(items, "passed");
    NoItemLabelled(items, "failed");
    NoItemLabelled(items, "pending");
  }

  /** A checklist of five passing items, as the sample report has, shows 0 passed. */
  lemma SampleReportShowsNoPasses()
    ensures var items := [InspectionItem("1-1", "Brakes", Pass, None), InspectionItem("1-2", "Lights", Pass, None),
                  InspectionItem("1-3", "Tires", Pass, None), InspectionItem("1-4", "Suspension", Pass, None),
                  InspectionItem("1-5", "Exhaust", Pass, None)];
      |Filter(items, (it: InspectionItem) => it.status == Pass)| == 5 && ItemCountsAsWritten(items).0 == 0
  {
    var items := [InspectionItem("1-1", "Brakes", Pass, None), InspectionItem("1-2", "Lights", Pass, None),
                 InspectionItem("1-3", "Tires", Pass, None), InspectionItem("1-4", "Suspension", Pass, None),
                 InspectionItem("1-5", "Exhaust", Pass, None)];
    FilterAllOrNone(items, (it: InspectionItem) => it.status == Pass);
    ItemCountsAsWrittenAlwaysZero(items);
  }

  function HasStatus(s: ItemStatus): InspectionItem -> bool
  {
    (it: InspectionItem) => it.status == s
  }

  /** The counts by the item statuses the store uses: pass, fail and not checked. */
  function ItemCounts(items: seq<InspectionItem>): (c: (nat, nat, nat))
    ensures c.0 + c.1 + c.2 == |items|
  {
    ItemCountsPartition(items);
    (Count(items, HasStatus(Pass)), Count(items, HasStatus(Fail)), Count(items, HasStatus(NotChecked)))
  }

  /** Every item is counted exactly once. */
  lemma {:induction false} ItemCountsPartition(items: seq<InspectionItem>)
    ensures Count(items, HasStatus(Pass)) + Count(items, HasStatus(Fail)) + Count(items, HasStatus(NotChecked)) == |items|
  {
    if items != [] {
      ItemCountsPartition(items[1..]);
    }
  }

  // -------------------------------------------------------------------- page

  const NotesSavedMessage := "Inspection notes updated successfully"
  const CancelledMessage := "Inspection booking cancelled successfully"

  class Page {
    var notes: string
    var openCancelDialog: bool
    var openEditDialog: bool
    var submitting: bool

    /** The page once the inspection (if any) is known: the notes box starts from its notes. */
    constructor (inspection: Option<Inspection>)
      ensures notes == (if inspection.Some? then StrOr(inspection.value.notes, "") else "")
      ensures !openCancelDialog && !openEditDialog && !submitting
    {
      notes := if inspection.Some? then StrOr(inspection.value.notes, "") else "";
      openCancelDialog, openEditDialog, submitting := false, false, false;
    }

    method NotesChange(value: string)
      modifies this`notes
      ensures notes == value
    {
      notes := value;
    }

    /** `handleCloseDialog`. */
    method CloseDialog()
      modifies this`openCancelDialog, this`openEditDialog
      ensures !openCancelDialog && !openEditDialog
    {
      openCancelDialog, openEditDialog := false, false;
    }

    /**
     * `handleSaveNotes`: the store's update is not awaited, so the success
     * message and closing the dialogs follow whether or not it succeeded; the
     * store itself replaces only that inspection's notes.
     */
    method SaveNotes(store: Store, inspection: Option<Inspection>, now: string) returns (message: Option<string>)
      modifies this`openCancelDialog, this`openEditDialog, this`submitting, store
      ensures inspection.None? ==> message.None? && unchanged(store) && unchanged(this)
      ensures inspection.Some? ==> message == Some(NotesSavedMessage) && !openCancelDialog && !openEditDialog && !submitting
      ensures inspection.Some? ==>
        var k := FindIndex(old(store.inspections), HasId(inspection.value.id));
        && store.bookings == old(store.bookings)
        && (k.Some? ==> store.inspections == old(store.inspections)[k.value := old(store.inspections)[k.value].(notes := Some(notes), updatedAt := Some(now))])
        && (k.None? ==> store.inspections == old(store.inspections))
        && !store.loading
        && (k.Some? ==> store.currentInspection == Some(store.inspections[k.value]) && store.error == None)
        && (k.None? ==> store.currentInspection == old(store.currentInspection) && store.error == Some("Inspection not found"))
    {
      if inspection.None? {
        return None;
      }
      submitting := true;
      var r := store.UpdateInspection(inspection.value.id, NotesPatch(notes), now);
      var k := FindIndex(old(store.inspections), HasId(inspection.value.id));
      if k.Some? {
        OverlayEmptyAndNotes(old(store.inspections)[k.value], notes, now);
      }
      message := Some(NotesSavedMessage);
      CloseDialog();
      submitting := false;
    }

    /**
     * `handleConfirmCancel`: with a booking id the store cancels that booking,
     * the success message is shown and the page returns to the list (the
     * call is not awaited, so a failure does not stop either).
     */
    method ConfirmCancel(store: Store, bookingId: Option<string>, now: string) returns (message: Option<string>, navigateTo: Option<string>)
      modifies this`submitting, store
      ensures bookingId.None? || bookingId.value == "" ==> message.None? && navigateTo.None? && unchanged(store) && submitting == old(submitting)
      ensures bookingId.Some? && bookingId.value != "" ==>
        && message == Some(CancelledMessage) && navigateTo == Some("/inspections") && !submitting
        && ((exists k :: 0 <= k < |old(store.bookings)| && old(store.bookings)[k].id == bookingId.value) ==>
              exists k :: 0 <= k < |store.bookings| && store.bookings[k].id == bookingId.value && store.bookings[k].status == InspectionStore.Cancelled)
        && store.bookings == CancelledBookings(old(store.bookings), bookingId.value, now)
        && store.inspections == InspectionsAfterCancel(old(store.bookings), old(store.inspections), bookingId.value)
        && store.currentInspection == old(store.currentInspection) && !store.loading
        && store.error == (if FindIndex(old(store.bookings), BookingHasId(bookingId.value)).None? then Some("Booking not found") else None)
    {
      if bookingId.None? || bookingId.value == "" {
        return None, None;
      }
      submitting := true;
      var r := store.CancelBooking(bookingId.value, now);
      var k := FindIndex(old(store.bookings), BookingHasId(bookingId.value));
      if k.Some? {
        assert store.bookings[k.value].id == bookingId.value;
      }
      message, navigateTo := Some(CancelledMessage), Some("/inspections");
      submitting := false;
    }
  }
}
