/**
 * The counting behind the KPI service (app/services/kpi_service.py): the
 * query windows as filters over the order rows, the per-hour histogram,
 * the rates with their zero-denominator guards, the 1-to-5 satisfaction
 * score and the percentage change between two periods.
 *
 * Times are whole seconds since the epoch (UTC); the current time and the
 * start of today are parameters. Rates are exact reals: `round(…, 1)` is
 * not modelled.
 */
module KpiService {
  import opened Wrappers
  import opened Seqs

  /** The columns of an order row the KPI queries read. */
  datatype Row = Row(businessId: int, createdAt: int, status: string, responseTimeSeconds: Option<int>, totalAmount: int)

  /** `business_id == b`, `created_at >= start` and, when given, `created_at < end`. */
  datatype Window = Window(businessId: int, start: int, end: Option<int>)

  predicate InWindow(w: Window, o: Row) {
    o.businessId == w.businessId && o.createdAt >= w.start && (w.end.None? || o.createdAt < w.end.value)
  }

  /** The rows a windowed query returns, in table order. */
  function Select(orders: seq<Row>, w: Window): (r: seq<Row>)
    ensures |r| <= |orders|
    ensures forall o :: o in r <==> o in orders && InWindow(w, o)
    decreases |orders|
  {
    if orders == [] then []
    else
      var init := orders[..|orders| - 1];
      var last := orders[|orders| - 1];
      assert orders == init + [last];
      if InWindow(w, last) then Select(init, w) + [last] else Select(init, w)
  }

  /**
   * The windowed query keeps exactly the rows in the window: in table order,
   * each as many times as the table holds it.
   */
  lemma {:induction false} SelectExactly(orders: seq<Row>, w: Window)
    ensures Subsequence(Select(orders, w), orders)
    ensures forall o :: multiset(Select(orders, w))[o] == if InWindow(w, o) then multiset(orders)[o] else 0
    decreases |orders|
  {
    if orders != [] {
      var init := orders[..|orders| - 1];
      var last := orders[|orders| - 1];
      assert orders == init + [last];
      SelectExactly(init, w);
      var r := Select(orders, w);
      if InWindow(w, last) {
        assert r[..|r| - 1] == Select(init, w);
      }
    }
  }

  /** The extra conditions some counts add to the window. */
  datatype Condition = Any | Completed | Cancelled | Automated | NotCancelled

  predicate Holds(c: Condition, o: Row) {
    match c
    case Any => true
    case Completed => o.status == "closed" || o.status == "paid"
    case Cancelled => o.status == "cancelled"
    // SQL: a NULL response time is not `< 60`
    case Automated => o.responseTimeSeconds.Some? && o.responseTimeSeconds.value < 60
    case NotCancelled => o.status != "cancelled"
  }

  /** `.count()` of the rows meeting the condition. */
  function CountWhere(rows: seq<Row>, c: Condition): (n: nat)
    decreases |rows|
  {
    if rows == [] then 0
    else CountWhere(rows[..|rows| - 1], c) + (if Holds(c, rows[|rows| - 1]) then 1 else 0)
  }

  /** A count with an extra condition is a sub-count of the plain one. */
  lemma {:induction false} SubCount(rows: seq<Row>, c: Condition)
    ensures CountWhere(rows, c) <= CountWhere(rows, Any) == |rows|
    decreases |rows|
  {
    if rows != [] {
      SubCount(rows[..|rows| - 1], c);
    }
  }

  /** No row is both completed and cancelled. */
  lemma {:induction false} CompletedAndCancelledDisjoint(rows: seq<Row>)
    ensures CountWhere(rows, Completed) + CountWhere(rows, Cancelled) <= |rows|
    ensures CountWhere(rows, Cancelled) + CountWhere(rows, NotCancelled) == |rows|
    decreases |rows|
  {
    if rows != [] {
      CompletedAndCancelledDisjoint(rows[..|rows| - 1]);
    }
  }

  /** Two adjacent windows count exactly the rows of their union. */
  lemma {:induction false} AdjacentWindows(orders: seq<Row>, b: int, s0: int, s1: int, s2: int)
    requires s0 <= s1 <= s2
    ensures |Select(orders, Window(b, s0, Some(s1)))| + |Select(orders, Window(b, s1, Some(s2)))|
         == |Select(orders, Window(b, s0, Some(s2)))|
    decreases |orders|
  {
    if orders != [] {
      var init := orders[..|orders| - 1];
      var last := orders[|orders| - 1];
      AdjacentWindows(init, b, s0, s1, s2);
      assert |Select(orders, Window(b, s0, Some(s2)))|
          == |Select(init, Window(b, s0, Some(s2)))| + (if InWindow(Window(b, s0, Some(s2)), last) then 1 else 0);
      assert |Select(orders, Window(b, s0, Some(s1)))|
          == |Select(init, Window(b, s0, Some(s1)))| + (if InWindow(Window(b, s0, Some(s1)), last) then 1 else 0);
      assert |Select(orders, Window(b, s1, Some(s2)))|
          == |Select(init, Window(b, s1, Some(s2)))| + (if InWindow(Window(b, s1, Some(s2)), last) then 1 else 0);
    }
  }

  // ---------------------------------------------------------------- orders by hour

  const HOURS := 24
  const SECONDS_PER_HOUR := 3600

  /** `created_at.hour`: the hour of day, also for times before the epoch. */
  function HourOf(t: int): (h: int)
    ensures 0 <= h < HOURS
  {
    (t / SECONDS_PER_HOUR) % HOURS
  }

  /** The number of rows created in hour `h`. */
  function CountHour(rows: seq<Row>, h: int): (n: nat)
    decreases |rows|
  {
    if rows == [] then 0
    else CountHour(rows[..|rows| - 1], h) + (if HourOf(rows[|rows| - 1].createdAt) == h then 1 else 0)
  }

  /** The histogram's values for the hours below `n`, added up. */
  function SumHours(rows: seq<Row>, n: nat): nat
  {
    if n == 0 then 0 else SumHours(rows, n - 1) + CountHour(rows, n - 1)
  }

  /** Adding a row adds one to the sum of the hours below `n` exactly when its hour is one of them. */
  lemma {:induction false} SumHoursSnoc(rows: seq<Row>, o: Row, n: nat)
    ensures SumHours(rows + [o], n) == SumHours(rows, n) + (if HourOf(o.createdAt) < n then 1 else 0)
  {
    assert (rows + [o])[..|rows + [o]| - 1] == rows;
    if n > 0 {
      SumHoursSnoc(rows, o, n - 1);
    }
  }

  /** Every row falls into exactly one of the 24 buckets. */
  lemma {:induction false} HoursAddUp(rows: seq<Row>)
    ensures SumHours(rows, HOURS) == |rows|
    decreases |rows|
  {
    if rows == [] {
      SumHoursEmpty(HOURS);
    } else {
      var init := rows[..|rows| - 1];
      HoursAddUp(init);
      assert rows == init + [rows[|rows| - 1]];
      SumHoursSnoc(init, rows[|rows| - 1], HOURS);
    }
  }

  lemma {:induction false} SumHoursEmpty(n: nat)
    ensures SumHours([], n) == 0
  {
    if n > 0 {
      SumHoursEmpty(n - 1);
    }
  }

  /** `{hour: 0 for hour in range(n)}`. */
  function ZeroBuckets(n: nat): (m: map<int, nat>)
    ensures forall h :: h in m <==> 0 <= h < n
    ensures forall h :: h in m ==> m[h] == 0
  {
    if n == 0 then map[] else ZeroBuckets(n - 1)[n - 1 := 0]
  }

  /**
   * `get_orders_by_hour`: a bucket for every hour 0..23, each holding the
   * number of rows of the window created in that hour.
   */
  method OrdersByHour(orders: seq<Row>, businessId: int, periodStart: int) returns (histogram: map<int, nat>)
    ensures forall h :: h in histogram <==> 0 <= h < HOURS
    ensures forall h :: 0 <= h < HOURS ==> histogram[h] == CountHour(Select(orders, Window(businessId, periodStart, None)), h)
  {
    var rows := Select(orders, Window(businessId, periodStart, None));
    histogram := ZeroBuckets(HOURS);
    var i := 0;
    while i < |rows|
      invariant 0 <= i <= |rows|
      invariant forall h :: h in histogram <==> 0 <= h < HOURS
      invariant forall h :: 0 <= h < HOURS ==> histogram[h] == CountHour(rows[..i], h)
    {
      assert rows[..i + 1][..i] == rows[..i];
      var hour := HourOf(rows[i].createdAt);
      histogram := histogram[hour := histogram[hour] + 1];
      i := i + 1;
    }
    assert rows[..i] == rows;
  }

  /** The buckets add up to the number of rows in the window. */
  lemma HistogramTotal(orders: seq<Row>, businessId: int, periodStart: int)
    ensures SumHours(Select(orders, Window(businessId, periodStart, None)), HOURS)
         == |Select(orders, Window(businessId, periodStart, None))|
  {
    HoursAddUp(Select(orders, Window(businessId, periodStart, None)));
  }

  // ---------------------------------------------------------------- rates and scores

  /** `part / total * 100 if total > 0 else 0`. */
  function Rate(part: nat, total: nat): (r: real)
    ensures total == 0 ==> r == 0.0
    ensures total > 0 ==> r * (total as real) == (part as real) * 100.0
    ensures part <= total ==> 0.0 <= r <= 100.0
  {
    if total > 0 then (part as real) / (total as real) * 100.0 else 0.0
  }

  /** `_get_satisfaction_score` before rounding: 1 plus four times the completed share, else 1. */
  function SatisfactionScore(completed: nat, total: nat): (r: real)
    ensures total == 0 ==> r == 1.0
    ensures completed <= total ==> 1.0 <= r <= 5.0
    ensures total > 0 && completed == total ==> r == 5.0
  {
    var conversion := if total > 0 then (completed as real) / (total as real) else 0.0;
    1.0 + conversion * 4.0
  }

  /** The sum and the number of the non-NULL response times. */
  function SumResponse(rows: seq<Row>): int
    decreases |rows|
  {
    if rows == [] then 0
    else
      var last := rows[|rows| - 1];
      SumResponse(rows[..|rows| - 1]) + (if last.responseTimeSeconds.Some? then last.responseTimeSeconds.value else 0)
  }

  function CountResponded(rows: seq<Row>): nat
    decreases |rows|
  {
    if rows == [] then 0
    else CountResponded(rows[..|rows| - 1]) + (if rows[|rows| - 1].responseTimeSeconds.Some? then 1 else 0)
  }

  /**
   * `_get_avg_response_time` before rounding: the SQL average of the
   * non-NULL response times in minutes, 0 when there are none (AVG is NULL)
   * or the average is 0.
   */
  function AvgResponseMinutes(rows: seq<Row>): (r: real)
    ensures CountResponded(rows) == 0 ==> r == 0.0
    ensures CountResponded(rows) > 0 ==> r * 60.0 * (CountResponded(rows) as real) == SumResponse(rows) as real
  {
    var n := CountResponded(rows);
    var sum := SumResponse(rows);
    if n > 0 && sum != 0 then (sum as real) / (n as real) / 60.0 else 0.0
  }

  /** Response times that are never negative average to a non-negative figure. */
  lemma {:induction false} AvgResponseNonNegative(rows: seq<Row>)
    requires forall i :: 0 <= i < |rows| && rows[i].responseTimeSeconds.Some? ==> rows[i].responseTimeSeconds.value >= 0
    ensures SumResponse(rows) >= 0
    ensures AvgResponseMinutes(rows) >= 0.0
    decreases |rows|
  {
    if rows != [] {
      AvgResponseNonNegative(rows[..|rows| - 1]);
    }
  }

  /** `_get_conversion_rate` before rounding. */
  function ConversionRate(rows: seq<Row>): (r: real)
    ensures r == Rate(CountWhere(rows, Completed), |rows|)
    ensures |rows| == 0 ==> r == 0.0
    ensures |rows| > 0 ==> r * (|rows| as real) == (CountWhere(rows, Completed) as real) * 100.0
    ensures 0.0 <= r <= 100.0
  {
    SubCount(rows, Completed);
    Rate(CountWhere(rows, Completed), |rows|)
  }

  // ---------------------------------------------------------------- percentage change

  /**
   * `_calculate_percentage_change` as written: with an old value of 0 it
   * answers 100 or 0 and never applies `inverse`.
   */
  function PercentageChangeAsWritten(oldValue: real, newValue: real, inverse: bool): (r: real)
    ensures oldValue == 0.0 ==> r == (if newValue > 0.0 then 100.0 else 0.0)
    ensures oldValue != 0.0 ==> r * oldValue == (if inverse then -1.0 else 1.0) * (newValue - oldValue) * 100.0
  {
    if oldValue == 0.0 then (if newValue > 0.0 then 100.0 else 0.0)
    else
      var change := (newValue - oldValue) / oldValue * 100.0;
      if inverse then -change else change
  }

  /** A response time that rises from 0 is reported as a 100% improvement. */
  lemma InverseIgnoredFromZero()
    ensures PercentageChangeAsWritten(0.0, 5.0, true) == 100.0
    ensures PercentageChangeAsWritten(0.0, 5.0, true) != -PercentageChangeAsWritten(0.0, 5.0, false)
  {
  }

  /** The percentage change with `inverse` negating every case, including the one from 0. */
  function PercentageChange(oldValue: real, newValue: real, inverse: bool): (r: real)
    ensures oldValue == 0.0 ==> r == (if inverse then -1.0 else 1.0) * (if newValue > 0.0 then 100.0 else 0.0)
    ensures !inverse ==> r == PercentageChangeAsWritten(oldValue, newValue, false)
  {
    var change := PercentageChangeAsWritten(oldValue, newValue, false);
    if inverse then -change else change
  }

  /** `inverse` negates the change for every pair of values. */
  lemma InverseNegates(oldValue: real, newValue: real)
    ensures PercentageChange(oldValue, newValue, true) == -PercentageChange(oldValue, newValue, false)
    ensures oldValue != 0.0 ==> PercentageChange(oldValue, newValue, true) == PercentageChangeAsWritten(oldValue, newValue, true)
  {
  }

  /** Growth from a positive value is a positive change, and a fall a negative one. */
  lemma ChangeSign(oldValue: real, newValue: real)
    requires oldValue > 0.0
    ensures PercentageChange(oldValue, newValue, false) > 0.0 <==> newValue > oldValue
    ensures PercentageChange(oldValue, newValue, true) > 0.0 <==> newValue < oldValue
  {
    var c := PercentageChange(oldValue, newValue, false);
    assert c * oldValue == (newValue - oldValue) * 100.0;
  }

  // ---------------------------------------------------------------- reports

  /** One entry of `get_kpi_comparisons`. */
  datatype Comparison = Comparison(current: real, previous: real, change: real, improved: bool)

  /**
   * One entry of `get_kpi_comparisons`, with the change computed by
   * `_calculate_percentage_change` as the endpoint calls it.
   */
  function Compare(current: real, previous: real, inverse: bool): (c: Comparison)
    ensures c.current == current && c.previous == previous
    ensures previous == 0.0 ==> c.change == (if current > 0.0 then 100.0 else 0.0)
    ensures previous != 0.0 ==> c.change * previous == (if inverse then -1.0 else 1.0) * (current - previous) * 100.0
    ensures c.improved <==> c.change > 0.0
  {
    var change := PercentageChangeAsWritten(previous, current, inverse);
    Comparison(current, previous, change, change > 0.0)
  }

  /** The endpoint reports a response time that rises from 0 as an improvement. */
  lemma RiseFromZeroReportedImproved(current: real)
    requires current > 0.0
    ensures Compare(current, 0.0, true).improved
    ensures !Compare(current, 1.0, true).improved || current < 1.0
  {
  }

  datatype Comparisons = Comparisons(responseTime: Comparison, ordersProcessed: Comparison,
                                     conversionRate: Comparison, satisfaction: Comparison)

  const SECONDS_PER_DAY := 86400

  /** The rows of the current period `[now - d, now)` and of the one before it. */
  function Periods(orders: seq<Row>, businessId: int, now: int, periodDays: int): (seq<Row>, seq<Row>)
  {
    var currentStart := now - periodDays * SECONDS_PER_DAY;
    (Select(orders, Window(businessId, currentStart, Some(now))),
     Select(orders, Window(businessId, currentStart - periodDays * SECONDS_PER_DAY, Some(currentStart))))
  }

  /**
   * `get_kpi_comparisons`: the current period `[now - d, now)` against the
   * one before it; a fall in response time counts as an improvement.
   */
  function KpiComparisons(orders: seq<Row>, businessId: int, now: int, periodDays: int): (r: Comparisons)
    ensures var (cur, prev) := Periods(orders, businessId, now, periodDays);
            && r.responseTime.current == AvgResponseMinutes(cur) && r.responseTime.previous == AvgResponseMinutes(prev)
            && r.ordersProcessed.current == |cur| as real && r.ordersProcessed.previous == |prev| as real
            && r.conversionRate.current == ConversionRate(cur) && r.conversionRate.previous == ConversionRate(prev)
            && r.satisfaction.current == SatisfactionScore(CountWhere(cur, Completed), |cur|)
            && r.satisfaction.previous == SatisfactionScore(CountWhere(prev, Completed), |prev|)
    ensures r.responseTime.change == PercentageChangeAsWritten(r.responseTime.previous, r.responseTime.current, true)
    ensures r.ordersProcessed.change == PercentageChangeAsWritten(r.ordersProcessed.previous, r.ordersProcessed.current, false)
    ensures r.conversionRate.change == PercentageChangeAsWritten(r.conversionRate.previous, r.conversionRate.current, false)
    ensures r.satisfaction.change == PercentageChangeAsWritten(r.satisfaction.previous, r.satisfaction.current, false)
    ensures r.responseTime.improved <==> r.responseTime.change > 0.0
    ensures r.ordersProcessed.improved <==> r.ordersProcessed.change > 0.0
    ensures r.conversionRate.improved <==> r.conversionRate.change > 0.0
    ensures r.satisfaction.improved <==> r.satisfaction.change > 0.0
    ensures 0.0 <= r.conversionRate.current <= 100.0 && 0.0 <= r.conversionRate.previous <= 100.0
    ensures 1.0 <= r.satisfaction.current <= 5.0 && 1.0 <= r.satisfaction.previous <= 5.0
  {
    var (cur, prev) := Periods(orders, businessId, now, periodDays);
    SubCount(cur, Completed);
    SubCount(prev, Completed);
    Comparisons(
      Compare(AvgResponseMinutes(cur), AvgResponseMinutes(prev), true),
      Compare(|cur| as real, |prev| as real, false),
      Compare(ConversionRate(cur), ConversionRate(prev), false),
      Compare(SatisfactionScore(CountWhere(cur, Completed), |cur|),
              SatisfactionScore(CountWhere(prev, Completed), |prev|), false))
  }

  /** For `periodDays >= 0` the two periods' rows add up to the rows of both periods together. */
  lemma PeriodsAddUp(orders: seq<Row>, businessId: int, now: int, periodDays: int)
    requires periodDays >= 0
    ensures |Periods(orders, businessId, now, periodDays).0| + |Periods(orders, businessId, now, periodDays).1|
         == |Select(orders, Window(businessId, now - 2 * periodDays * SECONDS_PER_DAY, Some(now)))|
  {
    var d := periodDays * SECONDS_PER_DAY;
    var currentStart := now - d;
    assert now - 2 * periodDays * SECONDS_PER_DAY == currentStart - d;
    AdjacentWindows(orders, businessId, currentStart - d, currentStart, now);
  }

  /** What `get_dashboard_metrics` reports for today. */
  datatype Dashboard = Dashboard(ordersToday: nat, avgResponseTime: real, salesToday: int, satisfaction: real)

  function SumSales(rows: seq<Row>): int
    decreases |rows|
  {
    if rows == [] then 0
    else SumSales(rows[..|rows| - 1]) + (if rows[|rows| - 1].status != "cancelled" then rows[|rows| - 1].totalAmount else 0)
  }

  /** Sales of rows with non-negative amounts are non-negative, and cancelled rows add nothing. */
  lemma {:induction false} SalesBounds(rows: seq<Row>)
    requires forall i :: 0 <= i < |rows| ==> rows[i].totalAmount >= 0
    ensures SumSales(rows) >= 0
    ensures (forall i :: 0 <= i < |rows| ==> rows[i].status == "cancelled") ==> SumSales(rows) == 0
    decreases |rows|
  {
    if rows != [] {
      SalesBounds(rows[..|rows| - 1]);
    }
  }

  /**
   * `get_dashboard_metrics`: today's rows, their average response time,
   * the sales of those not cancelled, and the completed share as the
   * satisfaction percentage.
   */
  function DashboardMetrics(orders: seq<Row>, businessId: int, todayStart: int): (d: Dashboard)
    ensures var rows := Select(orders, Window(businessId, todayStart, None));
            && d.ordersToday == |rows|
            && d.avgResponseTime == AvgResponseMinutes(rows)
            && d.salesToday == SumSales(rows)
            && d.satisfaction == Rate(CountWhere(rows, Completed), |rows|)
    ensures d.ordersToday == 0 ==> d.avgResponseTime == 0.0 && d.salesToday == 0 && d.satisfaction == 0.0
    ensures 0.0 <= d.satisfaction <= 100.0
  {
    var rows := Select(orders, Window(businessId, todayStart, None));
    SubCount(rows, Completed);
    Dashboard(|rows|, AvgResponseMinutes(rows), SumSales(rows), Rate(CountWhere(rows, Completed), |rows|))
  }

  /** What `get_operational_metrics` reports, without the time-saved estimate. */
  datatype Operational = Operational(automationRate: real, aiAccuracy: real, errorRate: real)

  /**
   * The figures `get_operational_metrics` reports for the period's rows:
   * the automated, the completed and the cancelled share, each 0 without
   * rows.
   */
  function OperationalShares(rows: seq<Row>): (m: Operational)
    ensures m.automationRate == Rate(CountWhere(rows, Automated), |rows|)
    ensures m.aiAccuracy == Rate(CountWhere(rows, Completed), |rows|)
    ensures m.errorRate == Rate(CountWhere(rows, Cancelled), |rows|)
    ensures 0.0 <= m.automationRate <= 100.0 && 0.0 <= m.aiAccuracy <= 100.0 && 0.0 <= m.errorRate <= 100.0
    ensures m.aiAccuracy + m.errorRate <= 100.0
    ensures |rows| == 0 ==> m.automationRate == 0.0 && m.aiAccuracy == 0.0 && m.errorRate == 0.0
  {
    var total := |rows|;
    SubCount(rows, Automated);
    SubCount(rows, Completed);
    SubCount(rows, Cancelled);
    CompletedAndCancelledDisjoint(rows);
    RatesAddUp(CountWhere(rows, Completed), CountWhere(rows, Cancelled), total);
    Operational(Rate(CountWhere(rows, Automated), total), Rate(CountWhere(rows, Completed), total),
                Rate(CountWhere(rows, Cancelled), total))
  }

  /**
   * `get_operational_metrics` over the rows created since `period_days`
   * days before `now`. None where the time-saved estimate's
   * `total_orders / period_days` raises ZeroDivisionError, that is for
   * `period_days == 0`; the route then answers 500.
   */
  function OperationalMetrics(orders: seq<Row>, businessId: int, now: int, periodDays: int): (m: Option<Operational>)
    ensures m.None? <==> periodDays == 0
    ensures m.Some? ==> m.value == OperationalShares(Select(orders, Window(businessId, now - periodDays * SECONDS_PER_DAY, None)))
    ensures m.Some? ==> m.value.aiAccuracy + m.value.errorRate <= 100.0
  {
    if periodDays == 0 then None
    else Some(OperationalShares(Select(orders, Window(businessId, now - periodDays * SECONDS_PER_DAY, None))))
  }

  /** The rates of two disjoint parts add up to at most 100. */
  lemma RatesAddUp(a: nat, b: nat, total: nat)
    requires a + b <= total
    ensures Rate(a, total) + Rate(b, total) <= 100.0
  {
    if total > 0 {
      assert Rate(a, total) + Rate(b, total) == ((a + b) as real) / (total as real) * 100.0;
      assert Rate(a + b, total) <= 100.0;
    }
  }
}
