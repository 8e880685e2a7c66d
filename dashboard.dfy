/**
 * The dashboard of the newer front-end: the inspection and vehicle statistics
 * it hands to its cards (the per-make tally included), the upcoming bookings
 * soonest first, the first vehicles shown, and the activity feed newest first.
 * Calendar arithmetic and date parsing are parameters: `daysUntil` stands for
 * `calculateDaysUntil`, `timeOf` for `new Date(s).getTime()`, `now` for
 * `new Date().toISOString()`.
 */
module Dashboard {
  import opened Js
  import opened Lists
  import opened Sorting
  import opened InspectionStore
  import opened VehicleStore
  import VehicleStats

  // ------------------------------------------------------ inspection statistics

  function HasStatus(s: InspectionStatus): Inspection -> bool
  {
    (i: Inspection) => i.status == s
  }

  /** A booking no inspection refers to through its `bookingId`. */
  function Unreferenced(inspections: seq<Inspection>): Booking -> bool
  {
    (b: Booking) => !Referenced(inspections, b.id)
  }

  /** Every inspection has exactly one of the three statuses. */
  lemma {:induction false} StatusCountsPartition(inspections: seq<Inspection>)
    ensures Count(inspections, HasStatus(Passed)) + Count(inspections, HasStatus(Failed)) +
            Count(inspections, HasStatus(Pending)) == |inspections|
  {
    if inspections != [] {
      StatusCountsPartition(inspections[1..]);
      var s := inspections[0].status;
      assert HasStatus(Passed)(inspections[0]) == (s == Passed);
      assert HasStatus(Failed)(inspections[0]) == (s == Failed);
      assert HasStatus(Pending)(inspections[0]) == (s == Pending);
    }
  }

  datatype InspectionStatsData = InspectionStatsData(passed: nat, failed: nat, pending: nat, scheduled: nat, passRate: int)

  /** `passRate`: the passed share in whole percent, 0 without inspections. */
  function PassRate(passed: nat, total: nat): (r: int)
    requires passed <= total
    ensures 0 <= r <= 100
    ensures total == 0 ==> r == 0
    ensures total > 0 && passed == total ==> r == 100
    ensures 2 * total * r - total <= 200 * passed < 2 * total * r + total || total == 0
  {
    if total > 0 then Percent(passed, total) else 0
  }

  /** `inspectionStats`. */
  function InspectionStatsOf(inspections: seq<Inspection>, bookings: seq<Booking>): (r: InspectionStatsData)
    ensures r.passed == Count(inspections, HasStatus(Passed))
    ensures r.failed == Count(inspections, HasStatus(Failed))
    ensures r.pending == Count(inspections, HasStatus(Pending))
    ensures r.passed + r.failed + r.pending == |inspections|
    ensures r.scheduled == Count(bookings, Unreferenced(inspections)) && r.scheduled <= |bookings|
    ensures 0 <= r.passRate <= 100
    ensures |inspections| == 0 ==> r.passRate == 0
    ensures |inspections| > 0 && r.failed == 0 && r.pending == 0 ==> r.passRate == 100
    ensures r.passRate == PassRate(r.passed, |inspections|)
  {
    StatusCountsPartition(inspections);
    var passed := Count(inspections, HasStatus(Passed));
    InspectionStatsData(
      passed,
      Count(inspections, HasStatus(Failed)),
      Count(inspections, HasStatus(Pending)),
      Count(bookings, Unreferenced(inspections)),
      PassRate(passed, |inspections|))
  }

  /** A booking counts as scheduled exactly until an inspection names it. */
  lemma {:induction false} ScheduledAfterInspection(inspections: seq<Inspection>, bookings: seq<Booking>, i: Inspection)
    requires i.bookingId.Some?
    requires forall k :: 0 <= k < |bookings| ==> bookings[k].id == i.bookingId.value
    ensures InspectionStatsOf(inspections + [i], bookings).scheduled == 0
  {
    var ins := inspections + [i];
    forall k | 0 <= k < |bookings| ensures !Unreferenced(ins)(bookings[k]) {
      assert ins[|inspections|].bookingId == Some(bookings[k].id);
    }
    FilterAllOrNone(bookings, Unreferenced(ins));
  }

  /** The bookings with that id that no inspection names yet. */
  function UnreferencedWithId(inspections: seq<Inspection>, id: string): Booking -> bool
  {
    (b: Booking) => b.id == id && !Referenced(inspections, b.id)
  }

  /** An appended inspection names an id exactly when an earlier one did or it does. */
  lemma ReferencedAppend(inspections: seq<Inspection>, i: Inspection, id: string)
    ensures Referenced(inspections + [i], id) <==> Referenced(inspections, id) || i.bookingId == Some(id)
  {
    var ins := inspections + [i];
    if Referenced(inspections, id) {
      var k :| 0 <= k < |inspections| && inspections[k].bookingId == Some(id);
      assert ins[k] == inspections[k];
    }
    if i.bookingId == Some(id) {
      assert ins[|inspections|] == i;
    }
    if Referenced(ins, id) {
      var k :| 0 <= k < |ins| && ins[k].bookingId == Some(id);
      if k < |inspections| {
        assert ins[k] == inspections[k];
      }
    }
  }

  /**
   * Appending an inspection that names booking id `bid` lowers the scheduled
   * count by the number of bookings with that id that were still unnamed, and
   * leaves every other booking's part of the count alone.
   */
  lemma {:induction false} ScheduledDropsByBooking(inspections: seq<Inspection>, bookings: seq<Booking>, i: Inspection)
    requires i.bookingId.Some?
    ensures InspectionStatsOf(inspections + [i], bookings).scheduled ==
      InspectionStatsOf(inspections, bookings).scheduled - Count(bookings, UnreferencedWithId(inspections, i.bookingId.value))
  {
    UnreferencedSplit(inspections, bookings, i);
  }

  lemma {:induction false} UnreferencedSplit(inspections: seq<Inspection>, bookings: seq<Booking>, i: Inspection)
    requires i.bookingId.Some?
    ensures Count(bookings, Unreferenced(inspections)) ==
      Count(bookings, Unreferenced(inspections + [i])) + Count(bookings, UnreferencedWithId(inspections, i.bookingId.value))
  {
    if bookings != [] {
      UnreferencedSplit(inspections, bookings[1..], i);
      ReferencedAppend(inspections, i, bookings[0].id);
    }
  }

  // --------------------------------------------------------- vehicle statistics

  function HasVehicleStatus(s: string): Vehicle -> bool
  {
    (v: Vehicle) => v.status == Some(s)
  }

  function HasMake(make: string): Vehicle -> bool
  {
    (v: Vehicle) => v.make == make
  }

  /** Some entry of the tally is for `make`: the map has the key. */
  predicate Listed(tally: seq<VehicleStats.MakeCount>, make: string)
  {
    FindIndex(tally, SameMake(make)).Some?
  }

  /** The entry `Listed` finds is for that make. */
  function EntryOf(tally: seq<VehicleStats.MakeCount>, make: string): (q: nat)
    requires Listed(tally, make)
    ensures q < |tally| && tally[q].make == make
  {
    var q := FindIndex(tally, SameMake(make)).value;
    assert SameMake(make)(tally[q]);
    q
  }

  /** An entry for the make means the make is listed. */
  lemma ListedAt(tally: seq<VehicleStats.MakeCount>, q: nat, make: string)
    requires q < |tally| && tally[q].make == make
    ensures Listed(tally, make)
  {
    assert SameMake(make)(tally[q]);
  }

  /** The sum of a tally's counts. */
  function TotalCount(tally: seq<VehicleStats.MakeCount>): int
  {
    if tally == [] then 0 else tally[0].count + TotalCount(tally[1..])
  }

  lemma {:induction false} TotalCountAppend(tally: seq<VehicleStats.MakeCount>, m: VehicleStats.MakeCount)
    ensures TotalCount(tally + [m]) == TotalCount(tally) + m.count
  {
    if tally != [] {
      assert (tally + [m])[1..] == tally[1..] + [m];
      TotalCountAppend(tally[1..], m);
    }
  }

  lemma {:induction false} TotalCountUpdate(tally: seq<VehicleStats.MakeCount>, k: nat, m: VehicleStats.MakeCount)
    requires k < |tally|
    ensures TotalCount(tally[k := m]) == TotalCount(tally) - tally[k].count + m.count
  {
    if k > 0 {
      assert tally[k := m][1..] == tally[1..][k - 1 := m];
      TotalCountUpdate(tally[1..], k - 1, m);
    }
  }

  /** Counting over one more vehicle. */
  lemma CountSnoc(vs: seq<Vehicle>, v: Vehicle, p: Vehicle -> bool)
    ensures Count(vs + [v], p) == Count(vs, p) + (if p(v) then 1 else 0)
  {
    FilterAppend(vs, [v], p);
    assert Filter([v], p) == if p(v) then [v] else [];
  }

  /** The position of the first vehicle of this make, when there is one. */
  function FirstSeen(vehicles: seq<Vehicle>, make: string): (r: Option<nat>)
    ensures r.Some? ==> r.value < |vehicles| && vehicles[r.value].make == make
    ensures r.Some? ==> forall j :: 0 <= j < r.value ==> vehicles[j].make != make
    ensures r.None? ==> forall j :: 0 <= j < |vehicles| ==> vehicles[j].make != make
    ensures forall j :: 0 <= j < |vehicles| && vehicles[j].make == make ==> r.Some?
  {
    var r := FindIndex(vehicles, HasMake(make));
    assert forall j :: 0 <= j < |vehicles| ==> (HasMake(make)(vehicles[j]) <==> vehicles[j].make == make);
    r
  }

  /** Each entry counts the vehicles of its make among the first `i`, and at least one. */
  predicate CountsMatch(vs: seq<Vehicle>, i: nat, tally: seq<VehicleStats.MakeCount>)
    requires i <= |vs|
  {
    forall k :: 0 <= k < |tally| ==> tally[k].count == Count(vs[..i], HasMake(tally[k].make)) && tally[k].count >= 1
  }

  predicate DistinctMakes(tally: seq<VehicleStats.MakeCount>)
  {
    forall a, b :: 0 <= a < b < |tally| ==> tally[a].make != tally[b].make
  }

  /** Every make among the first `i` vehicles has an entry. */
  predicate Covers(vs: seq<Vehicle>, i: nat, tally: seq<VehicleStats.MakeCount>)
    requires i <= |vs|
  {
    forall j :: 0 <= j < i ==> Listed(tally, vs[j].make)
  }

  /** Every entry's make first appears among the first `i` vehicles, and the entries follow those first appearances. */
  predicate FirstSeenOrder(vs: seq<Vehicle>, i: nat, tally: seq<VehicleStats.MakeCount>)
  {
    (forall k :: 0 <= k < |tally| ==> FirstSeen(vs, tally[k].make).Some? && FirstSeen(vs, tally[k].make).value < i) &&
    (forall a, b :: 0 <= a < b < |tally| ==>
      FirstSeen(vs, tally[a].make).Some? && FirstSeen(vs, tally[b].make).Some? &&
      FirstSeen(vs, tally[a].make).value < FirstSeen(vs, tally[b].make).value)
  }

  /** The tally after the first `i` vehicles. */
  predicate TallyAfter(vs: seq<Vehicle>, i: nat, tally: seq<VehicleStats.MakeCount>)
  {
    i <= |vs| && CountsMatch(vs, i, tally) && DistinctMakes(tally) && Covers(vs, i, tally) &&
    FirstSeenOrder(vs, i, tally) && TotalCount(tally) == i
  }

  function SameMake(make: string): VehicleStats.MakeCount -> bool
  {
    (m: VehicleStats.MakeCount) => m.make == make
  }

  /** `acc.set(make, (acc.get(make) || 0) + 1)` on an insertion-ordered map. */
  function Bump(tally: seq<VehicleStats.MakeCount>, make: string): seq<VehicleStats.MakeCount>
  {
    var at := FindIndex(tally, SameMake(make));
    if at.Some? then tally[at.value := VehicleStats.MakeCount(make, tally[at.value].count + 1)]
    else tally + [VehicleStats.MakeCount(make, 1)]
  }

  /**
   * `t` is `tally` after one more vehicle of `make`: that make's entry grows by
   * one, or, when it has none, a new entry of 1 is added at the end.
   */
  predicate Stepped(tally: seq<VehicleStats.MakeCount>, t: seq<VehicleStats.MakeCount>, make: string)
  {
    (Listed(tally, make) ==> |t| == |tally|) &&
    (!Listed(tally, make) ==> |t| == |tally| + 1 && t[|tally|] == VehicleStats.MakeCount(make, 1)) &&
    (forall q :: 0 <= q < |tally| ==> t[q].make == tally[q].make) &&
    (forall q :: 0 <= q < |tally| ==> t[q].count == tally[q].count + (if tally[q].make == make then 1 else 0))
  }

  lemma BumpSteps(tally: seq<VehicleStats.MakeCount>, make: string)
    requires DistinctMakes(tally)
    ensures var t := Bump(tally, make);
      Stepped(tally, t, make) && DistinctMakes(t) && TotalCount(t) == TotalCount(tally) + 1
  {
    var at := FindIndex(tally, SameMake(make));
    var t := Bump(tally, make);
    if at.Some? {
      var k := at.value;
      assert tally[k].make == make;
      TotalCountUpdate(tally, k, t[k]);
    } else {
      assert forall q :: 0 <= q < |tally| ==> tally[q].make != make by {
        forall q | 0 <= q < |tally| ensures tally[q].make != make {
          assert !SameMake(make)(tally[q]);
        }
      }
      TotalCountAppend(tally, t[|tally|]);
    }
  }

  lemma {:induction false} CountsStep(vs: seq<Vehicle>, i: nat, tally: seq<VehicleStats.MakeCount>, t: seq<VehicleStats.MakeCount>)
    requires i < |vs| && CountsMatch(vs, i, tally) && Covers(vs, i, tally) && Stepped(tally, t, vs[i].make)
    ensures CountsMatch(vs, i + 1, t)
  {
    var v := vs[i];
    assert Listed(tally, v.make) ==> |t| == |tally|;
    if !Listed(tally, v.make) {
      UnlistedUncounted(vs, i, tally, v.make);
    }
    forall q | 0 <= q < |t| ensures t[q].count == Count(vs[..i + 1], HasMake(t[q].make)) && t[q].count >= 1 {
      EntryAfterStep(vs, i, tally, t, q);
    }
  }

  /** One entry of the tally after one more vehicle. */
  lemma EntryAfterStep(vs: seq<Vehicle>, i: nat, tally: seq<VehicleStats.MakeCount>, t: seq<VehicleStats.MakeCount>, q: nat)
    requires i < |vs|
    requires forall k :: 0 <= k < |tally| ==> tally[k].count == Count(vs[..i], HasMake(tally[k].make)) && tally[k].count >= 1
    requires Stepped(tally, t, vs[i].make) && q < |t|
    requires q >= |tally| ==> Count(vs[..i], HasMake(vs[i].make)) == 0
    ensures t[q].count == Count(vs[..i + 1], HasMake(t[q].make)) && t[q].count >= 1
  {
    CountPrefixStep(vs, i, HasMake(t[q].make));
    if q < |tally| {
      assert t[q].make == tally[q].make;
    }
  }

  /** Counting over a prefix one vehicle longer. */
  lemma CountPrefixStep(vs: seq<Vehicle>, i: nat, p: Vehicle -> bool)
    requires i < |vs|
    ensures Count(vs[..i + 1], p) == Count(vs[..i], p) + (if p(vs[i]) then 1 else 0)
  {
    assert vs[..i + 1] == vs[..i] + [vs[i]];
    CountSnoc(vs[..i], vs[i], p);
  }

  /** A make with no entry yet has no vehicle among the first `i`. */
  lemma UnlistedUncounted(vs: seq<Vehicle>, i: nat, tally: seq<VehicleStats.MakeCount>, make: string)
    requires i <= |vs| && Covers(vs, i, tally) && !Listed(tally, make)
    ensures Count(vs[..i], HasMake(make)) == 0
  {
    forall j | 0 <= j < i ensures !HasMake(make)(vs[..i][j]) {
      var q := EntryOf(tally, vs[j].make);
    }
    FilterAllOrNone(vs[..i], HasMake(make));
  }

  lemma {:induction false} CoversStep(vs: seq<Vehicle>, i: nat, tally: seq<VehicleStats.MakeCount>, t: seq<VehicleStats.MakeCount>)
    requires i < |vs| && Covers(vs, i, tally) && Stepped(tally, t, vs[i].make)
    ensures Covers(vs, i + 1, t)
  {
    forall j | 0 <= j < i + 1 ensures Listed(t, vs[j].make) {
      if j < i {
        var q := EntryOf(tally, vs[j].make);
        ListedAt(t, q, vs[j].make);
      } else if Listed(tally, vs[i].make) {
        var q := EntryOf(tally, vs[i].make);
        ListedAt(t, q, vs[j].make);
      } else {
        ListedAt(t, |tally|, vs[j].make);
      }
    }
  }

  /** A make not among the first `i` vehicles is first seen at `i`. */
  lemma FirstSeenAt(vs: seq<Vehicle>, i: nat)
    requires i < |vs| && forall j :: 0 <= j < i ==> vs[j].make != vs[i].make
    ensures FirstSeen(vs, vs[i].make) == Some(i)
  {
  }

  /** A vehicle of a listed make renames nothing, so the order carries over. */
  lemma {:induction false} OrderStepListed(vs: seq<Vehicle>, i: nat, tally: seq<VehicleStats.MakeCount>, t: seq<VehicleStats.MakeCount>)
    requires i < |vs| && FirstSeenOrder(vs, i, tally) && Stepped(tally, t, vs[i].make) && Listed(tally, vs[i].make)
    ensures FirstSeenOrder(vs, i + 1, t)
  {
    forall k | 0 <= k < |t| ensures FirstSeen(vs, t[k].make).Some? && FirstSeen(vs, t[k].make).value < i + 1 {
      assert t[k].make == tally[k].make;
    }
    forall a, b | 0 <= a < b < |t|
      ensures FirstSeen(vs, t[a].make).Some? && FirstSeen(vs, t[b].make).Some? &&
              FirstSeen(vs, t[a].make).value < FirstSeen(vs, t[b].make).value
    {
      assert t[a].make == tally[a].make && t[b].make == tally[b].make;
    }
  }

  /** A vehicle of a new make adds the last entry, first seen after every earlier one. */
  lemma {:induction false} OrderStepNew(vs: seq<Vehicle>, i: nat, tally: seq<VehicleStats.MakeCount>, t: seq<VehicleStats.MakeCount>)
    requires i < |vs| && FirstSeenOrder(vs, i, tally) && Stepped(tally, t, vs[i].make) && !Listed(tally, vs[i].make)
    requires FirstSeen(vs, vs[i].make) == Some(i)
    ensures FirstSeenOrder(vs, i + 1, t)
  {
    assert t[|tally|].make == vs[i].make;
    forall k | 0 <= k < |t| ensures FirstSeen(vs, t[k].make).Some? && FirstSeen(vs, t[k].make).value < i + 1 {
      if k < |tally| {
        assert t[k].make == tally[k].make;
      }
    }
    forall a, b | 0 <= a < b < |t|
      ensures FirstSeen(vs, t[a].make).Some? && FirstSeen(vs, t[b].make).Some? &&
              FirstSeen(vs, t[a].make).value < FirstSeen(vs, t[b].make).value
    {
      assert t[a].make == tally[a].make;
      if b < |tally| {
        assert t[b].make == tally[b].make;
      }
    }
  }

  lemma {:induction false} OrderStep(vs: seq<Vehicle>, i: nat, tally: seq<VehicleStats.MakeCount>, t: seq<VehicleStats.MakeCount>)
    requires i < |vs| && Covers(vs, i, tally) && FirstSeenOrder(vs, i, tally) && Stepped(tally, t, vs[i].make)
    ensures FirstSeenOrder(vs, i + 1, t)
  {
    if Listed(tally, vs[i].make) {
      OrderStepListed(vs, i, tally, t);
    } else {
      forall j | 0 <= j < i ensures vs[j].make != vs[i].make {
        var q := EntryOf(tally, vs[j].make);
      }
      FirstSeenAt(vs, i);
      OrderStepNew(vs, i, tally, t);
    }
  }

  /** One more vehicle keeps the tally's invariant. */
  lemma TallyStep(vs: seq<Vehicle>, i: nat, tally: seq<VehicleStats.MakeCount>)
    requires i < |vs| && TallyAfter(vs, i, tally)
    ensures TallyAfter(vs, i + 1, Bump(tally, vs[i].make))
  {
    var t := Bump(tally, vs[i].make);
    BumpSteps(tally, vs[i].make);
    CountsStep(vs, i, tally, t);
    CoversStep(vs, i, tally, t);
    OrderStep(vs, i, tally, t);
  }

  /**
   * What the tally of all the vehicles is: one entry per make, in the order the
   * makes first appear, each counting the vehicles of that make, and the counts
   * add up to the number of vehicles.
   */
  predicate MakeTally(vs: seq<Vehicle>, tally: seq<VehicleStats.MakeCount>)
  {
    && (forall k :: 0 <= k < |tally| ==> tally[k].count == Count(vs, HasMake(tally[k].make)) && tally[k].count >= 1)
    && (forall a, b :: 0 <= a < b < |tally| ==> tally[a].make != tally[b].make)
    && (forall j :: 0 <= j < |vs| ==> Listed(tally, vs[j].make))
    && (forall a, b :: 0 <= a < b < |tally| ==>
          FirstSeen(vs, tally[a].make).Some? && FirstSeen(vs, tally[b].make).Some? &&
          FirstSeen(vs, tally[a].make).value < FirstSeen(vs, tally[b].make).value)
    && TotalCount(tally) == |vs|
  }

  /** The invariant over all the vehicles is the whole tally's description. */
  lemma TallyDone(vs: seq<Vehicle>, tally: seq<VehicleStats.MakeCount>)
    requires TallyAfter(vs, |vs|, tally)
    ensures MakeTally(vs, tally)
  {
    assert vs[..|vs|] == vs;
  }

  /**
   * `byMake`: the `reduce` that counts into a `Map`, read back in the map's
   * insertion order. One entry per make, in the order the makes first
   * appear, each with the number of vehicles of that make; the counts add up
   * to the number of vehicles.
   */
  method ByMake(vehicles: seq<Vehicle>) returns (tally: seq<VehicleStats.MakeCount>)
    ensures MakeTally(vehicles, tally)
  {
    tally := [];
    var i := 0;
    while i < |vehicles|
      invariant TallyAfter(vehicles, i, tally)
    {
      TallyStep(vehicles, i, tally);
      tally := Bump(tally, vehicles[i].make);
      i := i + 1;
    }
    TallyDone(vehicles, tally);
  }

  /** `vehicleStats`: the total, the three status counts and the per-make tally. */
  method VehicleStatsOf(vehicles: seq<Vehicle>) returns (stats: VehicleStats.VehicleStatsData)
    ensures stats.total == |vehicles|
    ensures stats.active == Count(vehicles, HasVehicleStatus("active"))
    ensures stats.maintenance == Count(vehicles, HasVehicleStatus("maintenance"))
    ensures stats.inactive == Count(vehicles, HasVehicleStatus("inactive"))
    ensures stats.active + stats.maintenance + stats.inactive <= stats.total
    ensures TotalCount(stats.byMake) == stats.total
    ensures forall k :: 0 <= k < |stats.byMake| ==> stats.byMake[k].count == Count(vehicles, HasMake(stats.byMake[k].make))
    ensures forall j :: 0 <= j < |vehicles| ==> Listed(stats.byMake, vehicles[j].make)
    ensures MakeTally(vehicles, stats.byMake)
  {
    CountDisjoint3(vehicles, HasVehicleStatus("active"), HasVehicleStatus("maintenance"), HasVehicleStatus("inactive"));
    var byMake := ByMake(vehicles);
    stats := VehicleStats.VehicleStatsData(
      |vehicles|,
      Count(vehicles, HasVehicleStatus("active")),
      Count(vehicles, HasVehicleStatus("maintenance")),
      Count(vehicles, HasVehicleStatus("inactive")),
      byMake);
  }

  // ------------------------------------------------------------------ upcoming

  function HasId(id: string): Vehicle -> bool
  {
    (v: Vehicle) => v.id == id
  }

  /** `vehicles.find(v => v.id === id)`. */
  function VehicleById(vehicles: seq<Vehicle>, id: string): (r: Option<Vehicle>)
    ensures r.Some? ==> r.value in vehicles && r.value.id == id
    ensures r.None? <==> forall k :: 0 <= k < |vehicles| ==> vehicles[k].id != id
  {
    var r := Find(vehicles, HasId(id));
    assert r.Some? ==> HasId(id)(r.value);
    assert forall k :: 0 <= k < |vehicles| ==> (HasId(id)(vehicles[k]) <==> vehicles[k].id == id);
    r
  }

  /** `${vehicle.year} ${vehicle.make} ${vehicle.model}`. */
  function VehicleTitle(v: Vehicle): string
  {
    IntToString(v.year) + " " + v.make + " " + v.model
  }

  datatype UpcomingRow = UpcomingRow(id: string, date: string, vehicleId: string, vehicleName: string, licensePlate: string, daysUntil: int)

  /** The row for a booking: the vehicle's title and plate, or 'Unknown Vehicle' and 'Unknown'. */
  function UpcomingRowOf(vehicles: seq<Vehicle>, daysUntil: string -> int, b: Booking): (r: UpcomingRow)
    ensures r.id == b.id && r.date == b.date && r.vehicleId == b.vehicleId && r.daysUntil == daysUntil(b.date)
    ensures VehicleById(vehicles, b.vehicleId).None? ==> r.vehicleName == "Unknown Vehicle" && r.licensePlate == "Unknown"
    ensures VehicleById(vehicles, b.vehicleId).Some? ==>
      r.vehicleName == VehicleTitle(VehicleById(vehicles, b.vehicleId).value) &&
      r.licensePlate == StrOr(VehicleById(vehicles, b.vehicleId).value.licensePlate, "Unknown")
  {
    var v := VehicleById(vehicles, b.vehicleId);
    UpcomingRow(b.id, b.date, b.vehicleId,
      if v.Some? then VehicleTitle(v.value) else "Unknown Vehicle",
      if v.Some? then StrOr(v.value.licensePlate, "Unknown") else "Unknown",
      daysUntil(b.date))
  }

  function NotPast(daysUntil: string -> int): Booking -> bool
  {
    (b: Booking) => daysUntil(b.date) >= 0
  }

  function RowOf(vehicles: seq<Vehicle>, daysUntil: string -> int): Booking -> UpcomingRow
  {
    (b: Booking) => UpcomingRowOf(vehicles, daysUntil, b)
  }

  function DaysKey(): UpcomingRow -> int
  {
    (r: UpcomingRow) => r.daysUntil
  }

  /** `upcomingInspections`. */
  function Upcoming(bookings: seq<Booking>, vehicles: seq<Vehicle>, daysUntil: string -> int): seq<UpcomingRow>
  {
    Sort(Map(Filter(bookings, NotPast(daysUntil)), RowOf(vehicles, daysUntil)), AscendingBy(DaysKey()))
  }

  /**
   * The upcoming list holds one row per booking dated today or later and no
   * other, soonest first.
   */
  lemma {:induction false} UpcomingSoonestFirst(bookings: seq<Booking>, vehicles: seq<Vehicle>, daysUntil: string -> int)
    ensures var r := Upcoming(bookings, vehicles, daysUntil);
      && multiset(r) == multiset(Map(Filter(bookings, NotPast(daysUntil)), RowOf(vehicles, daysUntil)))
      && |r| == Count(bookings, NotPast(daysUntil))
      && (forall k :: 0 <= k < |r| ==> r[k].daysUntil >= 0)
      && (forall i, j :: 0 <= i <= j < |r| ==> r[i].daysUntil <= r[j].daysUntil)
      && (forall k :: 0 <= k < |bookings| && daysUntil(bookings[k].date) >= 0 ==> UpcomingRowOf(vehicles, daysUntil, bookings[k]) in r)
  {
    UpcomingOrdered(bookings, vehicles, daysUntil);
    UpcomingNotPast(bookings, vehicles, daysUntil);
    SortSameMembers(Map(Filter(bookings, NotPast(daysUntil)), RowOf(vehicles, daysUntil)), AscendingBy(DaysKey()));
    UpcomingRowsCover(bookings, vehicles, daysUntil);
  }

  lemma UpcomingOrdered(bookings: seq<Booking>, vehicles: seq<Vehicle>, daysUntil: string -> int)
    ensures var r := Upcoming(bookings, vehicles, daysUntil);
      forall i, j :: 0 <= i <= j < |r| ==> r[i].daysUntil <= r[j].daysUntil
  {
    var rows := Map(Filter(bookings, NotPast(daysUntil)), RowOf(vehicles, daysUntil));
    SortAscendingBy(rows, DaysKey());
    assert var s := Sort(rows, AscendingBy(DaysKey())); forall i, j :: 0 <= i <= j < |s| ==> DaysKey()(s[i]) <= DaysKey()(s[j]);
  }

  lemma UpcomingNotPast(bookings: seq<Booking>, vehicles: seq<Vehicle>, daysUntil: string -> int)
    ensures var r := Upcoming(bookings, vehicles, daysUntil);
      forall k :: 0 <= k < |r| ==> r[k].daysUntil >= 0
  {
    var rows := Map(Filter(bookings, NotPast(daysUntil)), RowOf(vehicles, daysUntil));
    var r := Upcoming(bookings, vehicles, daysUntil);
    SortSameMembers(rows, AscendingBy(DaysKey()));
    UpcomingRowsNotPast(bookings, vehicles, daysUntil);
    forall k | 0 <= k < |r| ensures r[k].daysUntil >= 0 {
      assert r[k] in rows;
    }
  }

  lemma {:induction false} UpcomingRowsNotPast(bookings: seq<Booking>, vehicles: seq<Vehicle>, daysUntil: string -> int)
    ensures forall x :: x in Map(Filter(bookings, NotPast(daysUntil)), RowOf(vehicles, daysUntil)) ==> x.daysUntil >= 0
  {
    var kept := Filter(bookings, NotPast(daysUntil));
    var rows := Map(kept, RowOf(vehicles, daysUntil));
    forall x | x in rows ensures x.daysUntil >= 0 {
      var m :| 0 <= m < |rows| && rows[m] == x;
      assert NotPast(daysUntil)(kept[m]);
    }
  }

  lemma {:induction false} UpcomingRowsCover(bookings: seq<Booking>, vehicles: seq<Vehicle>, daysUntil: string -> int)
    ensures forall k :: 0 <= k < |bookings| && daysUntil(bookings[k].date) >= 0 ==>
      UpcomingRowOf(vehicles, daysUntil, bookings[k]) in Map(Filter(bookings, NotPast(daysUntil)), RowOf(vehicles, daysUntil))
  {
    var kept := Filter(bookings, NotPast(daysUntil));
    var rows := Map(kept, RowOf(vehicles, daysUntil));
    forall k | 0 <= k < |bookings| && daysUntil(bookings[k].date) >= 0
      ensures UpcomingRowOf(vehicles, daysUntil, bookings[k]) in rows
    {
      assert NotPast(daysUntil)(bookings[k]);
      MapFilterHas(bookings, NotPast(daysUntil), RowOf(vehicles, daysUntil), k);
    }
  }

  // ------------------------------------------------------------ recent vehicles

  datatype RecentVehicle = RecentVehicle(
    id: string,
    make: string,
    model: string,
    year: int,
    licensePlate: Option<string>,
    status: Option<string>,
    lastInspection: Option<string>,
    imageUrl: Option<string>)

  function RecentOf(v: Vehicle): RecentVehicle
  {
    RecentVehicle(v.id, v.make, v.model, v.year, v.licensePlate, v.status, v.lastInspectionDate, v.imageUrl)
  }

  /** `recentVehicles`: the first eight vehicles, in store order. */
  function RecentVehicles(vehicles: seq<Vehicle>): (r: seq<RecentVehicle>)
    ensures |r| == if |vehicles| < 8 then |vehicles| else 8
    ensures forall k :: 0 <= k < |r| ==> (r[k].id == vehicles[k].id && r[k].make == vehicles[k].make &&
      r[k].model == vehicles[k].model && r[k].year == vehicles[k].year && r[k].status == vehicles[k].status &&
      r[k].lastInspection == vehicles[k].lastInspectionDate &&
      r[k].licensePlate == vehicles[k].licensePlate && r[k].imageUrl == vehicles[k].imageUrl)
  {
    SliceFirst(vehicles, 8);
    Map(Slice(vehicles, 0, 8), RecentOf)
  }

  // ------------------------------------------------------------ recent activity

  datatype ActivityType = VehicleAdded | InspectionBooked | InspectionPassed | InspectionFailed | InspectionPending

  datatype Activity = Activity(
    id: string,
    kind: ActivityType,
    title: string,
    description: string,
    timestamp: string,
    entityId: string,
    entityType: string)

  /** A vehicle's entry; it carries the moment the dashboard was drawn. */
  function VehicleActivity(now: string): Vehicle -> Activity
  {
    (v: Vehicle) => Activity("vehicle-" + v.id, VehicleAdded, "Vehicle Added", VehicleTitle(v), now, v.id, "vehicle")
  }

  /** A booking's entry, dated by the booking. */
  function BookingActivity(vehicles: seq<Vehicle>): Booking -> Activity
  {
    (b: Booking) =>
      var v := VehicleById(vehicles, b.vehicleId);
      Activity("booking-" + b.id, InspectionBooked, "Inspection Booked",
        if v.Some? then VehicleTitle(v.value) else "Vehicle #" + b.vehicleId, b.date, b.id, "inspection")
  }

  /** `charAt(0).toUpperCase() + slice(1)`. */
  function Capitalized(s: string): (r: string)
    ensures |r| == |s|
    ensures s != [] ==> r[0] == UpperChar(s[0]) && r[1..] == s[1..]
  {
    if s == [] then "" else [UpperChar(s[0])] + s[1..]
  }

  function KindOf(s: InspectionStatus): (k: ActivityType)
    ensures k == InspectionPassed <==> s == Passed
    ensures k == InspectionFailed <==> s == Failed
    ensures k == InspectionPending <==> s == Pending
  {
    match s
    case Passed => InspectionPassed
    case Failed => InspectionFailed
    case Pending => InspectionPending
  }

  /** `Inspection ${status.charAt(0).toUpperCase() + status.slice(1)}`. */
  function TitleOf(s: InspectionStatus): (t: string)
    ensures s == Passed ==> t == "Inspection Passed"
    ensures s == Failed ==> t == "Inspection Failed"
    ensures s == Pending ==> t == "Inspection Pending"
  {
    var name := s.Name();
    assert name[1..] == match s case Passed => "assed" case Failed => "ailed" case Pending => "ending";
    "Inspection " + Capitalized(name)
  }

  /** `inspection.completedDate || booking?.date || now`. */
  function StampOf(completedDate: Option<string>, b: Option<Booking>, now: string): (t: string)
    ensures completedDate.Some? && completedDate.value != "" ==> t == completedDate.value
    ensures (completedDate.None? || completedDate.value == "") && b.Some? && b.value.date != "" ==> t == b.value.date
    ensures (completedDate.None? || completedDate.value == "") && (b.None? || b.value.date == "") ==> t == now
  {
    StrOr(completedDate, StrOr(if b.Some? then Some(b.value.date) else None, now))
  }

  /**
   * An inspection's entry: its kind and title follow its status; it is dated
   * by its completion date, else its booking's date, else the moment the
   * dashboard was drawn (empty strings count as missing).
   */
  function InspectionActivityOf(vehicles: seq<Vehicle>, bookings: seq<Booking>, now: string, i: Inspection): (a: Activity)
    ensures a.id == "inspection-" + i.id && a.entityId == i.id
    ensures a.kind == KindOf(i.status) && a.title == TitleOf(i.status)
    ensures a.timestamp == StampOf(i.completedDate, BookingOf(bookings, i), now)
    ensures a.entityType == "inspection"
    ensures BookingOf(bookings, i).None? ==> a.description == "Unknown Vehicle"
    ensures BookingOf(bookings, i).Some? ==>
      var v := VehicleById(vehicles, BookingOf(bookings, i).value.vehicleId);
      a.description == if v.Some? then VehicleTitle(v.value) else "Unknown Vehicle"
  {
    var b := BookingOf(bookings, i);
    var v := if b.Some? then VehicleById(vehicles, b.value.vehicleId) else None;
    Activity("inspection-" + i.id, KindOf(i.status), TitleOf(i.status),
      if v.Some? then VehicleTitle(v.value) else "Unknown Vehicle",
      StampOf(i.completedDate, b, now), i.id, "inspection")
  }

  function InspectionActivity(vehicles: seq<Vehicle>, bookings: seq<Booking>, now: string): Inspection -> Activity
  {
    (i: Inspection) => InspectionActivityOf(vehicles, bookings, now, i)
  }

  function ActivityTime(timeOf: string -> int): Activity -> int
  {
    (a: Activity) => timeOf(a.timestamp)
  }

  /** The feed before ordering: vehicles, then bookings, then inspections. */
  function ActivityEntries(vehicles: seq<Vehicle>, bookings: seq<Booking>, inspections: seq<Inspection>, now: string): seq<Activity>
  {
    Map(vehicles, VehicleActivity(now)) + Map(bookings, BookingActivity(vehicles)) +
    Map(inspections, InspectionActivity(vehicles, bookings, now))
  }

  /** `recentActivity`. */
  function RecentActivity(vehicles: seq<Vehicle>, bookings: seq<Booking>, inspections: seq<Inspection>, now: string, timeOf: string -> int): seq<Activity>
  {
    Sort(ActivityEntries(vehicles, bookings, inspections, now), DescendingBy(ActivityTime(timeOf)))
  }

  /**
   * The feed has one entry per vehicle, booking and inspection, each entry
   * appears as often as before ordering, and the most recent comes first.
   */
  lemma {:induction false} RecentActivityNewestFirst(vehicles: seq<Vehicle>, bookings: seq<Booking>, inspections: seq<Inspection>, now: string, timeOf: string -> int)
    ensures var r := RecentActivity(vehicles, bookings, inspections, now, timeOf);
      && |r| == |vehicles| + |bookings| + |inspections|
      && multiset(r) == multiset(ActivityEntries(vehicles, bookings, inspections, now))
      && (forall i, j :: 0 <= i <= j < |r| ==> timeOf(r[i].timestamp) >= timeOf(r[j].timestamp))
      && (forall k :: 0 <= k < |inspections| ==> InspectionActivityOf(vehicles, bookings, now, inspections[k]) in r)
  {
    var e := ActivityEntries(vehicles, bookings, inspections, now);
    var key := ActivityTime(timeOf);
    SortDescendingBy(e, key);
    assert var s := Sort(e, DescendingBy(key)); forall i, j :: 0 <= i <= j < |s| ==> key(s[i]) >= key(s[j]);
    SortSameMembers(e, DescendingBy(key));
    InspectionEntriesListed(vehicles, bookings, inspections, now);
  }

  lemma {:induction false} InspectionEntriesListed(vehicles: seq<Vehicle>, bookings: seq<Booking>, inspections: seq<Inspection>, now: string)
    ensures forall k :: 0 <= k < |inspections| ==>
      InspectionActivityOf(vehicles, bookings, now, inspections[k]) in ActivityEntries(vehicles, bookings, inspections, now)
  {
    var front := Map(vehicles, VehicleActivity(now)) + Map(bookings, BookingActivity(vehicles));
    forall k | 0 <= k < |inspections|
      ensures InspectionActivityOf(vehicles, bookings, now, inspections[k]) in ActivityEntries(vehicles, bookings, inspections, now)
    {
      MappedInSuffix(front, inspections, InspectionActivity(vehicles, bookings, now), k);
    }
  }
}
