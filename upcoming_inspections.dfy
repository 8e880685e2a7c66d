/**
 * The dashboard's upcoming-inspections card: the first few bookings, a label
 * and an urgency colour from the days remaining, and a "View All" link when
 * some are hidden.
 */
module UpcomingInspections {
  import opened Js

  datatype UpcomingInspection = UpcomingInspection(
    id: string,
    date: string,
    vehicleId: string,
    vehicleName: string,
    licensePlate: string,
    daysUntil: int)

  const DefaultMaxItems := 5

  /** `inspections.slice(0, maxItems)`. */
  function Displayed(items: seq<UpcomingInspection>, maxItems: int): (r: seq<UpcomingInspection>)
    ensures 0 <= maxItems <= |items| ==> r == items[..maxItems]
    ensures maxItems > |items| ==> r == items
    ensures 0 <= maxItems ==> |r| == if maxItems < |items| then maxItems else |items|
  {
    SliceFirst(items, if maxItems < 0 then 0 else maxItems);
    Slice(items, 0, maxItems)
  }

  /** `getDaysLabel`. */
  function DaysLabel(days: int): (r: string)
    ensures days == 0 ==> r == "Today"
    ensures days == 1 ==> r == "Tomorrow"
    ensures days != 0 && days != 1 ==> r == "In " + IntToString(days) + " days"
  {
    if days == 0 then "Today"
    else if days == 1 then "Tomorrow"
    else "In " + IntToString(days) + " days"
  }

  /** Different day counts never share a label. */
  lemma DaysLabelInjective(a: int, b: int)
    requires DaysLabel(a) == DaysLabel(b)
    ensures a == b
  {
    var x, y := DaysLabel(a), DaysLabel(b);
    if a != 0 && a != 1 && b != 0 && b != 1 {
      var sa, sb := IntToString(a), IntToString(b);
      assert x[3..|x| - 5] == sa;
      assert y[3..|y| - 5] == sb;
      NumberOfString(a);
      NumberOfString(b);
    } else if a == 0 || a == 1 || b == 0 || b == 1 {
      assert x[0] != 'I' || y[0] != 'I' || (a == b);
    }
  }

  datatype Urgency = UrgencyError | UrgencyWarning | UrgencyDefault

  /** `getUrgencyColor`: today is urgent, anything up to two days (or overdue) is a warning. */
  function UrgencyColor(days: int): (r: Urgency)
    ensures r == UrgencyError <==> days == 0
    ensures r == UrgencyWarning <==> days != 0 && days <= 2
    ensures r == UrgencyDefault <==> days > 2
  {
    if days == 0 then UrgencyError else if days <= 2 then UrgencyWarning else UrgencyDefault
  }

  /** The "View All" link is shown when enabled and the list is longer than `maxItems`. */
  predicate ShowViewAll(showViewAll: bool, count: nat, maxItems: int)
  {
    showViewAll && count > maxItems
  }

  /** With the link enabled, it is shown exactly when some items are left out of the card. */
  lemma ViewAllWhenHidden(items: seq<UpcomingInspection>, maxItems: int)
    requires maxItems >= 0
    ensures ShowViewAll(true, |items|, maxItems) <==> |Displayed(items, maxItems)| < |items|
    ensures !ShowViewAll(true, |items|, maxItems) ==> Displayed(items, maxItems) == items
  {
  }
}
