/**
 * The vehicle details page backed by the stores: the inspection history that
 * joins this vehicle's inspections (through their bookings) with its bookings
 * not yet inspected, newest first; the edit form's validator; and when the
 * history tab is offered.
 */
module VehicleDetails {
  import opened Js
  import opened Lists
  import opened Sorting
  import opened InspectionStore
  import Vehicles

  /** One row of the history: an inspection, or a booking still to be inspected. */
  datatype HistoryEntry = HistoryEntry(
    id: string,
    bookingId: Option<string>,
    date: string,
    status: string,
    inspectorName: string,
    completedDate: Option<string>,
    isCompleted: bool)

  /** The inspection's booking exists and is for this vehicle. */
  function BookedFor(bookings: seq<Booking>, vehicleId: string): Inspection -> bool
  {
    (i: Inspection) => BookingOf(bookings, i).Some? && BookingOf(bookings, i).value.vehicleId == vehicleId
  }

  /** This vehicle's booking that no inspection refers to yet. */
  function Upcoming(inspections: seq<Inspection>, vehicleId: string): Booking -> bool
  {
    (b: Booking) => b.vehicleId == vehicleId && !Referenced(inspections, b.id)
  }

  /** The row for an inspection: the booking's date, 'Not assigned' without an inspector. */
  function FromInspection(bookings: seq<Booking>): Inspection -> HistoryEntry
  {
    (i: Inspection) =>
      var b := BookingOf(bookings, i);
      HistoryEntry(i.id, i.bookingId, if b.Some? then b.value.date else "", i.status.Name(),
        StrOr(i.inspectorName, "Not assigned"), i.completedDate, i.completedDate.Some? && i.completedDate.value != "")
  }

  /** The row for a booking not yet inspected. */
  function FromBooking(b: Booking): (e: HistoryEntry)
    ensures e.id == "booking-" + b.id && e.bookingId == Some(b.id) && e.date == b.date
    ensures e.status == "scheduled" && !e.isCompleted && e.completedDate.None?
  {
    HistoryEntry("booking-" + b.id, Some(b.id), b.date, "scheduled", StrOr(b.inspectorName, "Not assigned"), None, false)
  }

  /** `vehicleInspections`, given whether the route's vehicle was found. */
  function History(found: bool, vehicleId: string, inspections: seq<Inspection>, bookings: seq<Booking>): seq<HistoryEntry>
  {
    if !found then []
    else Map(Filter(inspections, BookedFor(bookings, vehicleId)), FromInspection(bookings)) +
         Map(Filter(bookings, Upcoming(inspections, vehicleId)), FromBooking)
  }

  /** An inspection booked for the vehicle has its row among the inspection rows. */
  lemma InspectionRowsCover(vehicleId: string, inspections: seq<Inspection>, bookings: seq<Booking>)
    ensures forall k :: 0 <= k < |inspections| && BookedFor(bookings, vehicleId)(inspections[k]) ==>
      FromInspection(bookings)(inspections[k]) in Map(Filter(inspections, BookedFor(bookings, vehicleId)), FromInspection(bookings))
  {
    var ins := Filter(inspections, BookedFor(bookings, vehicleId));
    var a := Map(ins, FromInspection(bookings));
    forall k | 0 <= k < |inspections| && BookedFor(bookings, vehicleId)(inspections[k])
      ensures FromInspection(bookings)(inspections[k]) in a
    {
      MapFilterHas(inspections, BookedFor(bookings, vehicleId), FromInspection(bookings), k);
    }
  }

  /** A booking of the vehicle that no inspection refers to has its row among the booking rows. */
  lemma BookingRowsCover(vehicleId: string, inspections: seq<Inspection>, bookings: seq<Booking>)
    ensures forall k :: 0 <= k < |bookings| && bookings[k].vehicleId == vehicleId && !Referenced(inspections, bookings[k].id) ==>
      FromBooking(bookings[k]) in Map(Filter(bookings, Upcoming(inspections, vehicleId)), FromBooking)
  {
    var bks := Filter(bookings, Upcoming(inspections, vehicleId));
    var b := Map(bks, FromBooking);
    forall k | 0 <= k < |bookings| && bookings[k].vehicleId == vehicleId && !Referenced(inspections, bookings[k].id)
      ensures FromBooking(bookings[k]) in b
    {
      assert Upcoming(inspections, vehicleId)(bookings[k]);
      MapFilterHas(bookings, Upcoming(inspections, vehicleId), FromBooking, k);
    }
  }

  /**
   * Without the vehicle the history is empty. With it, every inspection booked
   * for the vehicle and every booking of it not yet inspected has its row, an
   * inspection booked for another vehicle or for no booking has none, and
   * there is exactly one row per such inspection or booking.
   */
  lemma HistoryRows(found: bool, vehicleId: string, inspections: seq<Inspection>, bookings: seq<Booking>)
    ensures var h := History(found, vehicleId, inspections, bookings);
      && (!found ==> h == [])
      && (found ==> |h| == Count(inspections, BookedFor(bookings, vehicleId)) + Count(bookings, Upcoming(inspections, vehicleId)))
      && (found ==> forall k :: 0 <= k < |inspections| && BookedFor(bookings, vehicleId)(inspections[k]) ==>
            FromInspection(bookings)(inspections[k]) in h)
      && (found ==> forall k :: 0 <= k < |bookings| && bookings[k].vehicleId == vehicleId && !Referenced(inspections, bookings[k].id) ==>
            FromBooking(bookings[k]) in h)
  {
    if found {
      var a := Map(Filter(inspections, BookedFor(bookings, vehicleId)), FromInspection(bookings));
      var b := Map(Filter(bookings, Upcoming(inspections, vehicleId)), FromBooking);
      assert History(found, vehicleId, inspections, bookings) == a + b;
      InspectionRowsCover(vehicleId, inspections, bookings);
      BookingRowsCover(vehicleId, inspections, bookings);
    }
  }

  /** An inspection's row appears only when its booking is this vehicle's. */
  lemma InspectionRowsBookedFor(found: bool, vehicleId: string, inspections: seq<Inspection>, bookings: seq<Booking>)
    requires found
    ensures var h := History(found, vehicleId, inspections, bookings);
      var n := Count(inspections, BookedFor(bookings, vehicleId));
      forall k :: 0 <= k < n ==>
        exists j :: (0 <= j < |inspections| && BookedFor(bookings, vehicleId)(inspections[j]) &&
                     h[k] == FromInspection(bookings)(inspections[j]))
  {
    var ins := Filter(inspections, BookedFor(bookings, vehicleId));
    var h := History(found, vehicleId, inspections, bookings);
    var a := Map(ins, FromInspection(bookings));
    forall k | 0 <= k < |ins|
      ensures exists j :: (0 <= j < |inspections| && BookedFor(bookings, vehicleId)(inspections[j]) &&
                           h[k] == FromInspection(bookings)(inspections[j]))
    {
      assert h[k] == a[k];
      var j :| 0 <= j < |inspections| && inspections[j] == ins[k];
    }
  }

  // ------------------------------------------------------------------ order

  /** The instant a row is sorted by: its completion date, else its date; `timeOf` stands for `new Date(s).getTime()`. */
  function RowTime(timeOf: string -> int): HistoryEntry -> int
  {
    (e: HistoryEntry) => timeOf(StrOr(e.completedDate, e.date))
  }

  /** `sortedInspections`. */
  function SortedHistory(h: seq<HistoryEntry>, timeOf: string -> int): seq<HistoryEntry>
  {
    Sort(h, DescendingBy(RowTime(timeOf)))
  }

  /** The sorted history holds the same rows, most recent first. */
  lemma SortedHistoryNewestFirst(h: seq<HistoryEntry>, timeOf: string -> int)
    ensures var r := SortedHistory(h, timeOf);
      multiset(r) == multiset(h) &&
      forall i, j :: 0 <= i <= j < |r| ==> RowTime(timeOf)(r[i]) >= RowTime(timeOf)(r[j])
  {
    SortDescendingBy(h, RowTime(timeOf));
    assert var r := Sort(h, DescendingBy(RowTime(timeOf)));
      forall i, j :: 0 <= i <= j < |r| ==> RowTime(timeOf)(r[i]) >= RowTime(timeOf)(r[j]);
  }

  /** The history tab is disabled exactly when the vehicle is missing or has neither a booked inspection nor an open booking. */
  lemma HistoryTabDisabledIff(found: bool, vehicleId: string, inspections: seq<Inspection>, bookings: seq<Booking>, timeOf: string -> int)
    ensures |SortedHistory(History(found, vehicleId, inspections, bookings), timeOf)| == 0 <==>
      !found ||
      ((forall k :: 0 <= k < |inspections| ==> !BookedFor(bookings, vehicleId)(inspections[k])) &&
       (forall k :: 0 <= k < |bookings| ==> !Upcoming(inspections, vehicleId)(bookings[k])))
  {
    FilterAllOrNone(inspections, BookedFor(bookings, vehicleId));
    FilterAllOrNone(bookings, Upcoming(inspections, vehicleId));
  }

  // -------------------------------------------------------------- edit form

  /**
   * `validateForm`: without form data the form is invalid and the errors are
   * left alone (`None`); otherwise the newer screen's rules apply.
   */
  method ValidateForm(form: Option<Vehicles.VehicleForm>, currentYear: int) returns (errors: Option<Vehicles.FormErrors>, isValid: bool)
    ensures form.None? ==> !isValid && errors.None?
    ensures form.Some? ==> errors == Some(Vehicles.FormErrorsOf(form.value, currentYear))
    ensures form.Some? ==> (isValid <==> Vehicles.FormValid(form.value, currentYear))
  {
    if form.None? {
      return None, false;
    }
    var e;
    e, isValid := Vehicles.ValidateForm(form.value, currentYear);
    errors := Some(e);
  }
}
