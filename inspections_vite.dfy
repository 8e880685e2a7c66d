/**
 * The inspections list of the newer front-end: one card per inspection and
 * per booking not yet inspected, a search over vehicle, plate and inspector,
 * a status tab, newest first, and cancelling a booking through the store.
 */
module InspectionsList {
  import opened Js
  import opened Lists
  import opened Sorting
  import opened InspectionStore
  import VehicleStore

  /** One card. */
  datatype Row = Row(
    id: string,
    bookingId: Option<string>,
    date: string,
    vehicleId: string,
    vehicleName: string,
    licensePlate: string,
    status: string,
    inspectorName: string,
    completedDate: Option<string>,
    notes: Option<string>,
    isCompleted: bool)

  /** `${year} ${make} ${model}`, or 'Unknown Vehicle'. */
  function VehicleName(v: Option<VehicleStore.Vehicle>): (r: string)
    ensures v.None? ==> r == "Unknown Vehicle"
    ensures v.Some? ==> r == IntToString(v.value.year) + " " + v.value.make + " " + v.value.model
  {
    if v.None? then "Unknown Vehicle" else IntToString(v.value.year) + " " + v.value.make + " " + v.value.model
  }

  function PlateOf(v: Option<VehicleStore.Vehicle>): string
  {
    if v.Some? then StrOr(v.value.licensePlate, "") else ""
  }

  /** The card of an inspection, with what its booking and that booking's vehicle supply. */
  function InspectionRow(vehicles: seq<VehicleStore.Vehicle>, bookings: seq<Booking>): Inspection -> Row
  {
    (i: Inspection) =>
      var b := BookingOf(bookings, i);
      var v := if b.Some? then VehicleStore.FindVehicle(vehicles, b.value.vehicleId) else None;
      Row(i.id, i.bookingId, if b.Some? then b.value.date else "", if b.Some? then b.value.vehicleId else "",
        VehicleName(v), PlateOf(v), i.status.Name(), StrOr(i.inspectorName, "Not assigned"),
        i.completedDate, i.notes, i.completedDate.Some? && i.completedDate.value != "")
  }

  /** The card of a booking not yet inspected. */
  function BookingRow(vehicles: seq<VehicleStore.Vehicle>): Booking -> Row
  {
    (b: Booking) =>
      var v := VehicleStore.FindVehicle(vehicles, b.vehicleId);
      Row("booking-" + b.id, Some(b.id), b.date, b.vehicleId, VehicleName(v), PlateOf(v), "scheduled",
        StrOr(b.inspectorName, "Not assigned"), None, None, false)
  }

  function Unreferenced(inspections: seq<Inspection>): Booking -> bool
  {
    (b: Booking) => !Referenced(inspections, b.id)
  }

  /** `allInspections`. */
  function AllRows(inspections: seq<Inspection>, bookings: seq<Booking>, vehicles: seq<VehicleStore.Vehicle>): seq<Row>
  {
    Map(inspections, InspectionRow(vehicles, bookings)) + Map(Filter(bookings, Unreferenced(inspections)), BookingRow(vehicles))
  }

  /**
   * Every inspection has its card, in store order, with its own id and status
   * name; after them comes one 'scheduled' card per booking no inspection
   * refers to, and no other card.
   */
  lemma AllRowsCover(inspections: seq<Inspection>, bookings: seq<Booking>, vehicles: seq<VehicleStore.Vehicle>)
    ensures var rows := AllRows(inspections, bookings, vehicles);
      && |rows| == |inspections| + Count(bookings, Unreferenced(inspections))
      && (forall k :: 0 <= k < |inspections| ==>
            rows[k].id == inspections[k].id && rows[k].status == inspections[k].status.Name())
      && (forall k :: 0 <= k < |bookings| && !Referenced(inspections, bookings[k].id) ==>
            BookingRow(vehicles)(bookings[k]) in rows[|inspections|..])
      && (forall k :: |inspections| <= k < |rows| ==>
            rows[k].status == "scheduled" && !rows[k].isCompleted && rows[k].bookingId.Some? &&
            !Referenced(inspections, rows[k].bookingId.value))
  {
    var rows := AllRows(inspections, bookings, vehicles);
    var a := Map(inspections, InspectionRow(vehicles, bookings));
    var open := Filter(bookings, Unreferenced(inspections));
    var b := Map(open, BookingRow(vehicles));
    assert rows == a + b;
    assert rows[|inspections|..] == b;
    forall k | 0 <= k < |bookings| && !Referenced(inspections, bookings[k].id)
      ensures BookingRow(vehicles)(bookings[k]) in rows[|inspections|..]
    {
      assert Unreferenced(inspections)(bookings[k]);
      MapFilterHas(bookings, Unreferenced(inspections), BookingRow(vehicles), k);
    }
    forall k | |inspections| <= k < |rows|
      ensures rows[k].status == "scheduled" && !rows[k].isCompleted && rows[k].bookingId.Some? &&
              !Referenced(inspections, rows[k].bookingId.value)
    {
      var m := k - |inspections|;
      assert rows[k] == b[m] == BookingRow(vehicles)(open[m]);
      assert Unreferenced(inspections)(open[m]);
    }
  }

  // ------------------------------------------------------------------ filter

  /** The search and status tests of `filteredInspections`. */
  function RowMatches(query: string, statusFilter: string): Row -> bool
  {
    (r: Row) =>
      (query == "" || Includes(Lower(r.vehicleName), Lower(query)) || Includes(Lower(r.licensePlate), Lower(query)) ||
       Includes(Lower(r.inspectorName), Lower(query))) &&
      (statusFilter == "all" || r.status == statusFilter)
  }

  function Filtered(rows: seq<Row>, query: string, statusFilter: string): (r: seq<Row>)
    ensures IsSubsequence(r, rows)
    ensures forall i :: 0 <= i < |rows| ==> (rows[i] in r <==> RowMatches(query, statusFilter)(rows[i]))
  {
    Filter(rows, RowMatches(query, statusFilter))
  }

  /** No search and the 'All' tab show every card. */
  lemma NoFilterShowsAll(rows: seq<Row>)
    ensures Filtered(rows, "", "all") == rows
  {
    FilterAllOrNone(rows, RowMatches("", "all"));
  }

  /** No inspection's card has the status 'scheduled'. */
  lemma InspectionCardsNotScheduled(inspections: seq<Inspection>, bookings: seq<Booking>, vehicles: seq<VehicleStore.Vehicle>)
    ensures var rows := AllRows(inspections, bookings, vehicles);
      forall k :: 0 <= k < |inspections| ==> rows[k].status != "scheduled"
  {
    var rows := AllRows(inspections, bookings, vehicles);
    forall k | 0 <= k < |inspections| ensures rows[k].status != "scheduled" {
      assert rows[k] == InspectionRow(vehicles, bookings)(inspections[k]);
    }
  }

  /** A 'scheduled' card is one of the booking cards after the inspection cards. */
  lemma ScheduledCardIsBookingCard(inspections: seq<Inspection>, bookings: seq<Booking>, vehicles: seq<VehicleStore.Vehicle>, x: Row)
    requires x in AllRows(inspections, bookings, vehicles) && x.status == "scheduled"
    ensures x in AllRows(inspections, bookings, vehicles)[|inspections|..]
  {
    InspectionCardsNotScheduled(inspections, bookings, vehicles);
    var rows := AllRows(inspections, bookings, vehicles);
    var k :| 0 <= k < |rows| && rows[k] == x;
    assert k >= |inspections|;
    assert rows[|inspections|..][k - |inspections|] == x;
  }

  /** The 'Scheduled' tab shows only the cards of bookings still to be inspected. */
  lemma ScheduledTabShowsBookings(inspections: seq<Inspection>, bookings: seq<Booking>, vehicles: seq<VehicleStore.Vehicle>, query: string)
    ensures var rows := AllRows(inspections, bookings, vehicles);
      var f := Filtered(rows, query, "scheduled");
      forall j :: 0 <= j < |f| ==> f[j].status == "scheduled" && f[j] in rows[|inspections|..]
  {
    var rows := AllRows(inspections, bookings, vehicles);
    var f := Filter(rows, RowMatches(query, "scheduled"));
    forall j | 0 <= j < |f| ensures f[j].status == "scheduled" && f[j] in rows[|inspections|..] {
      assert RowMatches(query, "scheduled")(f[j]);
      ScheduledCardIsBookingCard(inspections, bookings, vehicles, f[j]);
    }
  }

  // ------------------------------------------------------------------- order

  /** A card's instant: its completion date, else its date; `timeOf` stands for `new Date(s).getTime()`. */
  function RowTime(timeOf: string -> int): Row -> int
  {
    (r: Row) => timeOf(StrOr(r.completedDate, r.date))
  }

  /** `sortedInspections`. */
  function Sorted(rows: seq<Row>, timeOf: string -> int): seq<Row>
  {
    Sort(rows, DescendingBy(RowTime(timeOf)))
  }

  /** The sorted cards are the filtered cards, most recent first. */
  lemma SortedNewestFirst(rows: seq<Row>, timeOf: string -> int)
    ensures var r := Sorted(rows, timeOf);
      multiset(r) == multiset(rows) &&
      forall i, j :: 0 <= i <= j < |r| ==> RowTime(timeOf)(r[i]) >= RowTime(timeOf)(r[j])
  {
    SortDescendingBy(rows, RowTime(timeOf));
    assert var r := Sort(rows, DescendingBy(RowTime(timeOf)));
      forall i, j :: 0 <= i <= j < |r| ==> RowTime(timeOf)(r[i]) >= RowTime(timeOf)(r[j]);
  }

  // ------------------------------------------------------------------- cards

  /**
   * The callbacks the page passes to a card: a cancel callback (carrying the
   * booking id it will use) until completed, a print callback once completed.
   * Whether the card shows a menu item for them is `CardMenu`.
   */
  datatype CardActions = CardActions(onCancel: Option<Option<string>>, onPrint: Option<string>)

  function Actions(r: Row): (a: CardActions)
    ensures a.onCancel.Some? <==> !r.isCompleted
    ensures a.onCancel.Some? ==> a.onCancel.value == r.bookingId
    ensures a.onPrint.Some? <==> r.isCompleted
    ensures a.onPrint.Some? ==> a.onPrint.value == r.id
  {
    if r.isCompleted then CardActions(None, Some(r.id)) else CardActions(Some(r.bookingId), None)
  }

  /** Every card of a booking not yet inspected is passed a cancel callback with its booking's id, and no print callback. */
  lemma BookingCardsCancellable(vehicles: seq<VehicleStore.Vehicle>, b: Booking)
    ensures Actions(BookingRow(vehicles)(b)) == CardActions(Some(Some(b.id)), None)
  {
  }

  /**
   * What the card's menu lets the user trigger: the Cancel item is shown only
   * for status 'pending' and then calls the page's cancel callback; the Print
   * item is shown for 'passed' and 'failed' but calls the card's `onPrint`
   * prop, which the page never sets (it passes `onPrintReport`).
   */
  datatype CardMenu = CardMenu(cancel: Option<Option<string>>, report: Option<string>)

  /** The card's menu as written. */
  function MenuAsWritten(r: Row): (m: CardMenu)
    ensures m.cancel.Some? <==> r.status == "pending" && Actions(r).onCancel.Some?
    ensures m.cancel.Some? ==> m.cancel == Actions(r).onCancel
    ensures m.report.None?
  {
    CardMenu(if r.status == "pending" then Actions(r).onCancel else None, None)
  }

  /**
   * As written, a booking's card is passed a cancel callback that no menu item
   * calls, and a completed card is passed a print callback that no menu item
   * calls either.
   */
  lemma CardCallbacksUnreachable(vehicles: seq<VehicleStore.Vehicle>, b: Booking, r: Row)
    ensures Actions(BookingRow(vehicles)(b)).onCancel.Some? && MenuAsWritten(BookingRow(vehicles)(b)).cancel.None?
    ensures r.isCompleted ==> Actions(r).onPrint.Some? && MenuAsWritten(r).report.None?
  {
  }

  /** The menu as evidently intended: Cancel also for 'scheduled' bookings, Print wired to the page's print callback. */
  function Menu(r: Row): (m: CardMenu)
    ensures m.cancel.Some? <==> (r.status == "pending" || r.status == "scheduled") && Actions(r).onCancel.Some?
    ensures m.cancel.Some? ==> m.cancel == Actions(r).onCancel
    ensures m.report.Some? <==> (r.status == "passed" || r.status == "failed") && Actions(r).onPrint.Some?
    ensures m.report.Some? ==> m.report == Actions(r).onPrint
  {
    CardMenu(
      if r.status == "pending" || r.status == "scheduled" then Actions(r).onCancel else None,
      if r.status == "passed" || r.status == "failed" then Actions(r).onPrint else None)
  }

  /**
   * With the corrected menu every open booking's card can be cancelled with
   * its booking's id, and a completed inspection's card, which is 'passed' or
   * 'failed', can print its report.
   */
  lemma MenuReachesCallbacks(vehicles: seq<VehicleStore.Vehicle>, bookings: seq<Booking>, b: Booking, i: Inspection)
    ensures Menu(BookingRow(vehicles)(b)).cancel == Some(Some(b.id))
    ensures var r := InspectionRow(vehicles, bookings)(i);
      r.isCompleted && i.status != Pending ==> Menu(r).report == Some(i.id)
  {
  }

  const CancelledMessage := "Inspection booking cancelled successfully"

  class Page {
    var searchQuery: string
    var statusFilter: string
    var openCancelDialog: bool
    var selectedBookingId: Option<string>
    var submitting: bool

    constructor ()
      ensures searchQuery == "" && statusFilter == "all" && !openCancelDialog && selectedBookingId.None? && !submitting
    {
      searchQuery, statusFilter := "", "all";
      openCancelDialog, selectedBookingId, submitting := false, None, false;
    }

    /** `handleCancelInspection`: the card's booking id (possibly missing) is selected and the dialog opens. */
    method CancelInspection(bookingId: Option<string>)
      modifies this`selectedBookingId, this`openCancelDialog
      ensures selectedBookingId == bookingId && openCancelDialog
    {
      selectedBookingId := bookingId;
      openCancelDialog := true;
    }

    /** `handleCloseDialog`. */
    method CloseDialog()
      modifies this`selectedBookingId, this`openCancelDialog
      ensures selectedBookingId.None? && !openCancelDialog
    {
      openCancelDialog := false;
      selectedBookingId := None;
    }

    /**
     * `handleConfirmCancel`: without a selection nothing happens. Otherwise the
     * store is asked to cancel the booking, and since that call is not awaited
     * its rejection is never caught: the success message is shown and the
     * dialog closes whether or not the store knew the booking.
     */
    method ConfirmCancel(store: Store, now: string) returns (message: Option<string>)
      modifies this`selectedBookingId, this`openCancelDialog, this`submitting, store
      ensures old(selectedBookingId).None? || old(selectedBookingId).value == "" ==>
        message.None? && unchanged(store) && selectedBookingId == old(selectedBookingId) &&
        openCancelDialog == old(openCancelDialog) && submitting == old(submitting)
      ensures old(selectedBookingId).Some? && old(selectedBookingId).value != "" ==>
        var id := old(selectedBookingId).value;
        && message == Some(CancelledMessage) && selectedBookingId.None? && !openCancelDialog && !submitting
        && ((exists k :: 0 <= k < |old(store.bookings)| && old(store.bookings)[k].id == id) ==>
              exists k :: 0 <= k < |store.bookings| && store.bookings[k].id == id && store.bookings[k].status == InspectionStore.Cancelled)
        && store.bookings == CancelledBookings(old(store.bookings), id, now)
        && store.inspections == InspectionsAfterCancel(old(store.bookings), old(store.inspections), id)
        && store.currentInspection == old(store.currentInspection) && !store.loading
        && store.error == (if FindIndex(old(store.bookings), BookingHasId(id)).None? then Some("Booking not found") else None)
        && ((forall k :: 0 <= k < |old(store.bookings)| ==> old(store.bookings)[k].id != id) ==>
              (store.bookings == old(store.bookings) && store.inspections == old(store.inspections) &&
               store.error == Some("Booking not found")))
    {
      if selectedBookingId.None? || selectedBookingId.value == "" {
        return None;
      }
      var id := selectedBookingId.value;
      submitting := true;
      var r := store.CancelBooking(id, now);
      var k := FindIndex(old(store.bookings), BookingHasId(id));
      if k.Some? {
        assert store.bookings[k.value].id == id;
      }
      message := Some(CancelledMessage);
      CloseDialog();
      submitting := false;
    }
  }
}
