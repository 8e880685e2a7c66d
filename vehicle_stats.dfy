/**
 * The dashboard's vehicle statistics card: the status items in fixed order,
 * the makes sorted by count on a copy, the top five, and the percentages.
 */
module VehicleStats {
  import opened Js
  import opened Sorting

  datatype MakeCount = MakeCount(make: string, count: int)

  datatype VehicleStatsData = VehicleStatsData(
    total: int,
    active: int,
    maintenance: int,
    inactive: int,
    byMake: seq<MakeCount>)

  datatype StatusItem = StatusItem(caption: string, value: int)

  /** The status items: Active, Maintenance, Inactive. */
  function StatusItems(stats: VehicleStatsData): (r: seq<StatusItem>)
    ensures |r| == 3
    ensures r[0] == StatusItem("Active", stats.active)
    ensures r[1] == StatusItem("Maintenance", stats.maintenance)
    ensures r[2] == StatusItem("Inactive", stats.inactive)
  {
    [StatusItem("Active", stats.active), StatusItem("Maintenance", stats.maintenance), StatusItem("Inactive", stats.inactive)]
  }

  function ByCount(): MakeCount -> int
  {
    (m: MakeCount) => m.count
  }

  /** `[...stats.byMake].sort((a, b) => b.count - a.count)`: a reordering, largest counts first. */
  function SortedMakes(byMake: seq<MakeCount>): (r: seq<MakeCount>)
    ensures multiset(r) == multiset(byMake)
    ensures forall i, j :: 0 <= i <= j < |r| ==> r[i].count >= r[j].count
  {
    var key := ByCount();
    SortDescendingBy(byMake, key);
    assert var s := Sort(byMake, DescendingBy(key)); forall i, j :: 0 <= i <= j < |s| ==> key(s[i]) >= key(s[j]);
    var r := Sort(byMake, DescendingBy(key));
    assert forall i :: 0 <= i < |r| ==> key(r[i]) == r[i].count;
    r
  }

  /** `sortedMakes.slice(0, 5)`. */
  function TopMakes(byMake: seq<MakeCount>): (r: seq<MakeCount>)
    ensures |r| == if |byMake| < 5 then |byMake| else 5
    ensures r == SortedMakes(byMake)[..|r|]
  {
    var sorted := SortedMakes(byMake);
    SliceFirst(sorted, 5);
    Slice(sorted, 0, 5)
  }

  /** No make left out of the top five has a larger count than one shown. */
  lemma TopMakesDominate(byMake: seq<MakeCount>)
    ensures var top := TopMakes(byMake);
      forall i, m :: 0 <= i < |top| && m in byMake && m !in top ==> top[i].count >= m.count
  {
    var sorted := SortedMakes(byMake);
    var top := TopMakes(byMake);
    forall i, m | 0 <= i < |top| && m in byMake && m !in top ensures top[i].count >= m.count {
      assert m in multiset(sorted);
      var j :| 0 <= j < |sorted| && sorted[j] == m;
      assert top[i] == sorted[i];
    }
  }

  /** A status share is shown only when the total is positive, rounded to the nearest percent. */
  function StatusPercent(value: int, total: int): (r: Option<int>)
    ensures r.Some? <==> total > 0
    ensures r.Some? ==> 2 * total * r.value - total <= 200 * value < 2 * total * r.value + total
    ensures r.Some? && 0 <= value <= total ==> 0 <= r.value <= 100
  {
    if total > 0 then Some(Percent(value, total)) else None
  }

  /**
   * A make's share is computed without a guard. With a total of 0 the division
   * gives NaN for a count of 0 and Infinity for a positive count; the model
   * keeps neither and returns `None`. Otherwise it is rounded to the nearest percent.
   */
  function MakePercent(count: int, total: int): (r: Option<int>)
    ensures r.None? <==> total <= 0
    ensures r.Some? ==> 2 * total * r.value - total <= 200 * count < 2 * total * r.value + total
    ensures r.Some? && 0 <= count <= total ==> 0 <= r.value <= 100
  {
    if total > 0 then Some(Percent(count, total)) else None
  }
}
