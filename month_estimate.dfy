/**
 * `process_usage_data` of the Playwright script: every bill becomes a period, and the
 * estimate is the last period whose start date begins with the current local year and month.
 */
module MonthEstimate {
  import opened Wrappers
  import opened Text
  import opened Calendar
  import opened UsageAggregation

  /** `datetime.now().strftime('%Y-%m')` for a local clock reading in seconds since 0001-01-01T00:00. */
  function MonthPrefix(nowLocal: int): (prefix: string)
    requires nowLocal >= 0
    ensures |prefix| >= 7
  {
    FormatYearMonth(DateOfLocal(nowLocal))
  }

  /** `start_date and start_date.startswith(current_month)` */
  predicate InMonth(p: Period, prefix: string) {
    p.startDate.Some? && p.startDate.value != "" && StartsWith(p.startDate.value, prefix)
  }

  /** The position of the last period of the current month, or -1 when there is none. */
  function LastInMonthIndex(periods: seq<Period>, prefix: string): (k: int)
    ensures -1 <= k < |periods|
    ensures k >= 0 ==> InMonth(periods[k], prefix)
    ensures forall j :: k < j < |periods| ==> !InMonth(periods[j], prefix)
  {
    if periods == [] then -1
    else
      var n := |periods| - 1;
      if InMonth(periods[n], prefix) then n
      else
        var k := LastInMonthIndex(periods[..n], prefix);
        assert forall j :: k < j < n ==> periods[..n][j] == periods[j];
        k
  }

  /** `current_month_data` after the loop: the last period of the current month, if any. */
  function LastInMonth(periods: seq<Period>, prefix: string): Option<Period> {
    var k := LastInMonthIndex(periods, prefix);
    if k < 0 then None else Some(periods[k])
  }

  /** A later period of the current month replaces the one found so far. */
  lemma LastInMonthStep(periods: seq<Period>, p: Period, prefix: string)
    ensures LastInMonth(periods + [p], prefix) == if InMonth(p, prefix) then Some(p) else LastInMonth(periods, prefix)
  {
    assert (periods + [p])[..|periods|] == periods;
  }

  /** `current_month_estimate` */
  function MonthEstimateOf(periods: seq<Period>, prefix: string): (e: Option<Estimate>)
    ensures e.None? <==> LastInMonth(periods, prefix).None?
    ensures e.Some? ==>
      var p := LastInMonth(periods, prefix).value;
      && e.value.CurrentMonth? && e.value.billingPeriod == p
      && e.value.partialUsage == p.usageAmount && e.value.partialCost == p.costAmount
  {
    match LastInMonth(periods, prefix)
    case None => None
    case Some(p) => Some(CurrentMonth(p.usageAmount, p.costAmount, p))
  }

  /** A period counts for the current month only when its start text begins with this year and month, zero-padded. */
  lemma MonthMatchIsSameMonth(p: Period, nowLocal: int, d: Date)
    requires nowLocal >= 0 && ValidDate(d)
    requires p.startDate.Some? && StartsWith(p.startDate.value, FormatYearMonth(d))
    requires |FormatYearMonth(d)| == |MonthPrefix(nowLocal)|
    ensures InMonth(p, MonthPrefix(nowLocal)) <==>
      d.year == DateOfLocal(nowLocal).year && d.month == DateOfLocal(nowLocal).month
  {
    var a, b := FormatYearMonth(d), MonthPrefix(nowLocal);
    FormatYearMonthInjective(d, DateOfLocal(nowLocal));
    assert p.startDate.value[..|a|] == a;
    if InMonth(p, b) {
      assert p.startDate.value[..|b|] == b;
    }
  }

  /** What `process_usage_data` returns for `response`: every bill's period and the totals, or why there are none. */
  predicate MonthOutcome(response: UsageResponse, nowLocal: int, r: UsageOutcome)
    requires nowLocal >= 0
  {
    && (LookupBills(response).ShapeError? ==> r == ProcessingFailed)
    && (LookupBills(response).NoBills? ==>
          r == NoBillsFound(LookupBills(response).hasData, LookupBills(response).hasBillingAccount, 0))
    && (LookupBills(response).Bills? ==>
          var bills := LookupBills(response).bills;
          && (r.ProcessingFailed? <==> !AllProcessable(bills))
          && (!r.ProcessingFailed? ==>
                var periods := PeriodsOf(bills);
                r == Processed(periods, periods, MonthEstimateOf(periods, MonthPrefix(nowLocal)), SummaryOf(periods))))
  }

  /** What the bill loop holds after the first `i` bills: their periods, the totals, the last unit and the month's last period. */
  predicate Scanned(bills: seq<Bill>, i: int, currentMonth: string, done: seq<Period>,
                    totalUsage: real, totalCost: real, usageUnit: string, currentMonthData: Option<Period>)
    requires 0 <= i <= |bills|
  {
    && AllProcessable(bills[..i])
    && done == PeriodsOf(bills[..i])
    && totalUsage == TotalUsage(done) && totalCost == TotalCost(done)
    && currentMonthData == LastInMonth(done, currentMonth)
    && (i > 0 ==> usageUnit == done[i - 1].usageUnit)
  }

  lemma ScannedStep(bills: seq<Bill>, i: int, currentMonth: string, done: seq<Period>,
                    totalUsage: real, totalCost: real, usageUnit: string, currentMonthData: Option<Period>, p: Period)
    requires 0 <= i < |bills| && Scanned(bills, i, currentMonth, done, totalUsage, totalCost, usageUnit, currentMonthData)
    requires BillProcessable(bills[i]) && p == PeriodOf(bills[i])
    ensures Scanned(bills, i + 1, currentMonth, done + [p], totalUsage + p.usageAmount, totalCost + p.costAmount, p.usageUnit,
                    if InMonth(p, currentMonth) then Some(p) else currentMonthData)
  {
    PeriodsStep(bills, i, done, p);
    LastInMonthStep(done, p, currentMonth);
  }

  /**
   * The bill loop: one period per bill, the running totals, the last bill's usage unit and the
   * last period of the current month; None when a bill raises.
   */
  method SummarizeBills(bills: seq<Bill>, currentMonth: string)
    returns (periods: Option<seq<Period>>, totalUsage: real, totalCost: real, usageUnit: string, currentMonthData: Option<Period>)
    requires |bills| > 0
    ensures periods.Some? <==> AllProcessable(bills)
    ensures periods.Some? ==>
      && periods.value == PeriodsOf(bills)
      && totalUsage == TotalUsage(periods.value) && totalCost == TotalCost(periods.value)
      && usageUnit == periods.value[|bills| - 1].usageUnit
      && currentMonthData == LastInMonth(periods.value, currentMonth)
  {
    var done: seq<Period> := [];
    totalUsage, totalCost := 0.0, 0.0;
    currentMonthData := None;
    usageUnit := "therms";
    for i := 0 to |bills|
      invariant Scanned(bills, i, currentMonth, done, totalUsage, totalCost, usageUnit, currentMonthData)
    {
      var period := SummarizeBill(bills[i]);
      if period.None? {
        FailingBill(bills, i);
        return None, totalUsage, totalCost, usageUnit, currentMonthData;
      }
      ScannedStep(bills, i, currentMonth, done, totalUsage, totalCost, usageUnit, currentMonthData, period.value);
      done := done + [period.value];
      totalUsage := totalUsage + period.value.usageAmount;
      totalCost := totalCost + period.value.costAmount;
      usageUnit := period.value.usageUnit;
      if InMonth(period.value, currentMonth) {
        currentMonthData := Some(period.value);
      }
    }
    assert bills[..|bills|] == bills;
    periods := Some(done);
  }

  /** The Playwright script's `process_usage_data`. */
  method ProcessUsageData(response: UsageResponse, nowLocal: int) returns (r: UsageOutcome)
    requires nowLocal >= 0
    ensures MonthOutcome(response, nowLocal, r)
  {
    var lookup := LookupBills(response);
    match lookup {
      case ShapeError => return ProcessingFailed;
      case NoBills(hasData, hasAccount) => return NoBillsFound(hasData, hasAccount, 0);
      case Bills(bills) =>
        var currentMonth := FormatYearMonth(DateOfLocal(nowLocal));
        var periods, totalUsage, totalCost, usageUnit, currentMonthData := SummarizeBills(bills, currentMonth);
        if periods.None? {
          return ProcessingFailed;
        }
        var estimate: Option<Estimate> := None;
        if currentMonthData.Some? {
          var p := currentMonthData.value;
          estimate := Some(CurrentMonth(p.usageAmount, p.costAmount, p));
        }
        var summary := Summary(totalUsage, totalCost, |bills|, usageUnit, "USD");
        return Processed(periods.value, periods.value, estimate, summary);
    }
  }
}
