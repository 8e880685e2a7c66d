/**
 * The dashboard's inspection statistics card: the pass-rate colour, the four
 * stat items in fixed order, their total, and each item's rounded share.
 */
module InspectionStats {
  import opened Js

  datatype StatsData = StatsData(passed: int, failed: int, pending: int, scheduled: int, passRate: int)

  datatype Tone = SuccessTone | ErrorTone | WarningTone | InfoTone

  /** `getPassRateColor`: success from 90, warning from 70, error below. */
  function PassRateColor(rate: int): (r: Tone)
    ensures r == SuccessTone <==> rate >= 90
    ensures r == WarningTone <==> 70 <= rate < 90
    ensures r == ErrorTone <==> rate < 70
  {
    if rate >= 90 then SuccessTone else if rate >= 70 then WarningTone else ErrorTone
  }

  datatype StatItem = StatItem(caption: string, value: int, tone: Tone)

  /** The stat items: Passed, Failed, Pending, Scheduled. */
  function StatItems(stats: StatsData): (r: seq<StatItem>)
    ensures |r| == 4
    ensures r[0].caption == "Passed" && r[0].value == stats.passed
    ensures r[1].caption == "Failed" && r[1].value == stats.failed
    ensures r[2].caption == "Pending" && r[2].value == stats.pending
    ensures r[3].caption == "Scheduled" && r[3].value == stats.scheduled
  {
    [StatItem("Passed", stats.passed, SuccessTone), StatItem("Failed", stats.failed, ErrorTone),
     StatItem("Pending", stats.pending, WarningTone), StatItem("Scheduled", stats.scheduled, InfoTone)]
  }

  /** `totalInspections`. */
  function Total(stats: StatsData): (t: int)
    ensures var items := StatItems(stats); t == items[0].value + items[1].value + items[2].value + items[3].value
  {
    stats.passed + stats.failed + stats.pending + stats.scheduled
  }

  /** The percentage shown beside an item: only when the total is positive. */
  function ItemPercent(value: int, total: int): (r: Option<int>)
    ensures r.Some? <==> total > 0
    ensures r.Some? ==> 2 * total * r.value - total <= 200 * value < 2 * total * r.value + total
    ensures r.Some? && 0 <= value <= total ==> 0 <= r.value <= 100
  {
    if total > 0 then Some(Percent(value, total)) else None
  }

  /** Rounding each of the four shares separately keeps their sum within 98 < sum <= 102. */
  lemma SharesSumNearHundred(stats: StatsData)
    requires stats.passed >= 0 && stats.failed >= 0 && stats.pending >= 0 && stats.scheduled >= 0
    requires Total(stats) > 0
    ensures var t := Total(stats);
      var s := ItemPercent(stats.passed, t).value + ItemPercent(stats.failed, t).value
             + ItemPercent(stats.pending, t).value + ItemPercent(stats.scheduled, t).value;
      98 < s <= 102
  {
    var t := Total(stats);
    SumBounds(t, stats.passed, stats.failed, stats.pending, stats.scheduled,
      ItemPercent(stats.passed, t).value, ItemPercent(stats.failed, t).value,
      ItemPercent(stats.pending, t).value, ItemPercent(stats.scheduled, t).value);
  }

  lemma Distribute(t: int, a: int, b: int, c: int, d: int)
    ensures t * (a + b + c + d) == t * a + t * b + t * c + t * d
  {
  }

  lemma SumBounds(t: int, p: int, q: int, u: int, v: int, a: int, b: int, c: int, d: int)
    requires t > 0 && t == p + q + u + v
    requires 2 * t * a - t <= 200 * p < 2 * t * a + t
    requires 2 * t * b - t <= 200 * q < 2 * t * b + t
    requires 2 * t * c - t <= 200 * u < 2 * t * c + t
    requires 2 * t * d - t <= 200 * v < 2 * t * d + t
    ensures 98 < a + b + c + d <= 102
  {
    var s := a + b + c + d;
    Distribute(2 * t, a, b, c, d);
    assert 2 * t * s - 4 * t <= 200 * t < 2 * t * s + 4 * t;
    assert t * (2 * s - 4) == 2 * t * s - 4 * t;
    assert t * (2 * s + 4) == 2 * t * s + 4 * t;
    assert t * 200 == 200 * t;
    MulCancel(t, 2 * s - 4, 200);
    MulCancel(t, 200, 2 * s + 4);
  }
}
