/**
 * `process_usage_data` of the Selenium script: every bill becomes a period, and the
 * estimate prorates the most recent period by whole days when the local clock falls inside it.
 */
module WindowEstimate {
  import opened Wrappers
  import opened Calendar
  import opened UsageAggregation

  /**
   * `datetime.fromisoformat` followed by `replace(tzinfo=None)`: the wall-clock reading of the
   * text in seconds since 0001-01-01T00:00, the offset dropped, or None when the text does not parse.
   */
  type IsoParser = string -> Option<int>

  /** Both ends of the period are present and parse. */
  predicate EndsParse(latest: Period, parse: IsoParser) {
    && latest.startDate.Some? && parse(latest.startDate.value).Some?
    && latest.endDate.Some? && parse(latest.endDate.value).Some?
  }

  function StartOf(latest: Period, parse: IsoParser): int
    requires EndsParse(latest, parse)
  {
    parse(latest.startDate.value).value
  }

  function EndOf(latest: Period, parse: IsoParser): int
    requires EndsParse(latest, parse)
  {
    parse(latest.endDate.value).value
  }

  /** `start_dt <= current_dt <= end_dt` */
  predicate NowInside(latest: Period, nowLocal: int, parse: IsoParser)
    requires EndsParse(latest, parse)
  {
    StartOf(latest, parse) <= nowLocal <= EndOf(latest, parse)
  }

  /** The estimate built from the latest period; None when the period is shorter than one whole day. */
  function LatestPeriodEstimate(latest: Period, nowLocal: int, parse: IsoParser): (e: Option<Estimate>)
    ensures e == Some(DateParseError(latest)) <==> !EndsParse(latest, parse)
    ensures e == Some(OutsidePeriod(latest)) <==> EndsParse(latest, parse) && !NowInside(latest, nowLocal, parse)
    ensures e.None? <==>
      EndsParse(latest, parse) && NowInside(latest, nowLocal, parse)
      && EndOf(latest, parse) - StartOf(latest, parse) < SecondsPerDay
    ensures e.Some? && e.value.InPeriod? ==>
      var p := e.value;
      && p.periodStart == latest.startDate && p.periodEnd == latest.endDate
      && 1 <= p.totalPeriodDays && 0 <= p.elapsedDays <= p.totalPeriodDays
      && p.totalPeriodDays == (EndOf(latest, parse) - StartOf(latest, parse)) / SecondsPerDay
      && p.elapsedDays == (nowLocal - StartOf(latest, parse)) / SecondsPerDay
      && p.actualUsage == latest.usageAmount && p.actualCost == latest.costAmount
      && p.usageUnit == latest.usageUnit && p.costUnit == latest.costUnit
  {
    if latest.startDate.None? || parse(latest.startDate.value).None? then Some(DateParseError(latest))
    else if latest.endDate.None? || parse(latest.endDate.value).None? then Some(DateParseError(latest))
    else
      var start := parse(latest.startDate.value).value;
      var end := parse(latest.endDate.value).value;
      if start <= nowLocal <= end then
        var totalPeriodDays := (end - start) / SecondsPerDay;
        var elapsedDays := (nowLocal - start) / SecondsPerDay;
        if totalPeriodDays > 0 && elapsedDays >= 0 then
          var usageRate := latest.usageAmount / totalPeriodDays as real;
          var costRate := latest.costAmount / totalPeriodDays as real;
          Some(InPeriod(
            latest.startDate, latest.endDate, totalPeriodDays, elapsedDays,
            usageRate * elapsedDays as real, costRate * elapsedDays as real,
            usageRate * totalPeriodDays as real, costRate * totalPeriodDays as real,
            latest.usageAmount, latest.costAmount, latest.usageUnit, latest.costUnit))
        else None
      else Some(OutsidePeriod(latest))
  }

  /** Prorating by whole days: the amount so far is the elapsed share of the period's amount. */
  lemma {:induction false} Prorated(amount: real, total: int, elapsed: int)
    requires 0 <= elapsed <= total && 0 < total
    ensures (amount / total as real) * total as real == amount
    ensures (amount / total as real) * elapsed as real * total as real == amount * elapsed as real
    ensures amount >= 0.0 ==> 0.0 <= (amount / total as real) * elapsed as real <= amount
  {
    var rate := amount / total as real;
    assert rate * total as real == amount;
    if amount >= 0.0 {
      assert rate >= 0.0;
      assert rate * elapsed as real <= rate * total as real;
    }
  }

  /**
   * The projection for the whole period equals the period's actual amounts, and the
   * amounts so far are the elapsed share of them, never above them when they are not negative.
   */
  lemma EstimateIsProportional(latest: Period, nowLocal: int, parse: IsoParser)
    requires LatestPeriodEstimate(latest, nowLocal, parse).Some?
    requires LatestPeriodEstimate(latest, nowLocal, parse).value.InPeriod?
    ensures var p := LatestPeriodEstimate(latest, nowLocal, parse).value;
      && p.projectedUsage == p.actualUsage && p.projectedCost == p.actualCost
      && p.estimatedUsageSoFar * p.totalPeriodDays as real == p.actualUsage * p.elapsedDays as real
      && p.estimatedCostSoFar * p.totalPeriodDays as real == p.actualCost * p.elapsedDays as real
      && (p.actualUsage >= 0.0 ==> 0.0 <= p.estimatedUsageSoFar <= p.actualUsage)
      && (p.actualCost >= 0.0 ==> 0.0 <= p.estimatedCostSoFar <= p.actualCost)
  {
    var p := LatestPeriodEstimate(latest, nowLocal, parse).value;
    Prorated(latest.usageAmount, p.totalPeriodDays, p.elapsedDays);
    Prorated(latest.costAmount, p.totalPeriodDays, p.elapsedDays);
  }

  /** The bill loop: one period per bill and the running totals, or None when a bill raises. */
  method SummarizeBills(bills: seq<Bill>) returns (periods: Option<seq<Period>>, totalUsage: real, totalCost: real)
    ensures periods.Some? <==> AllProcessable(bills)
    ensures periods.Some? ==>
      periods.value == PeriodsOf(bills) && totalUsage == TotalUsage(periods.value) && totalCost == TotalCost(periods.value)
  {
    var done: seq<Period> := [];
    totalUsage, totalCost := 0.0, 0.0;
    for i := 0 to |bills|
      invariant AllProcessable(bills[..i])
      invariant done == PeriodsOf(bills[..i])
      invariant totalUsage == TotalUsage(done) && totalCost == TotalCost(done)
    {
      var period := SummarizeBill(bills[i]);
      if period.None? {
        FailingBill(bills, i);
        return None, totalUsage, totalCost;
      }
      PeriodsStep(bills, i, done, period.value);
      done := done + [period.value];
      totalUsage := totalUsage + period.value.usageAmount;
      totalCost := totalCost + period.value.costAmount;
    }
    assert bills[..|bills|] == bills;
    periods := Some(done);
  }

  /** What `process_usage_data` returns for `response`: every bill's period and the totals, or why there are none. */
  predicate WindowOutcome(response: UsageResponse, nowLocal: int, parse: IsoParser, r: UsageOutcome)
  {
    && (LookupBills(response).ShapeError? ==> r == ProcessingFailed)
    && (LookupBills(response).NoBills? ==>
          r == NoBillsFound(LookupBills(response).hasData, LookupBills(response).hasBillingAccount, 0))
    && (LookupBills(response).Bills? ==>
          var bills := LookupBills(response).bills;
          && (r.ProcessingFailed? <==> !AllProcessable(bills))
          && (!r.ProcessingFailed? ==>
                var periods := PeriodsOf(bills);
                r == Processed(periods, periods, LatestPeriodEstimate(periods[|periods| - 1], nowLocal, parse), SummaryOf(periods))))
  }

  /** The Selenium script's `process_usage_data`. */
  method ProcessUsageData(response: UsageResponse, nowLocal: int, parse: IsoParser) returns (r: UsageOutcome)
    ensures WindowOutcome(response, nowLocal, parse, r)
  {
    var lookup := LookupBills(response);
    match lookup {
      case ShapeError => return ProcessingFailed;
      case NoBills(hasData, hasAccount) => return NoBillsFound(hasData, hasAccount, 0);
      case Bills(bills) =>
        var periods, totalUsage, totalCost := SummarizeBills(bills);
        if periods.None? {
          return ProcessingFailed;
        }
        var all := periods.value;
        var latest := all[|all| - 1];
        var estimate := LatestPeriodEstimate(latest, nowLocal, parse);
        var summary := Summary(totalUsage, totalCost, |bills|, latest.usageUnit, "USD");
        return Processed(all, all, estimate, summary);
    }
  }
}
