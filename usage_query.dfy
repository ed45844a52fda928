/**
 * The request side of `get_usage_and_cost_data`: the two-year `timeInterval` and the variables of
 * the GraphQL bill query. The HTTP exchange itself is an input of the client.
 */
module UsageQuery {
  import opened Wrappers
  import opened Text
  import opened Calendar

  /** `timedelta(days=730)` */
  const WindowDays: int := 730
  /** The fixed UTC offset written into both ends of the interval. */
  const StartOfDay: string := "T00:00:00-04:00"
  const EndOfDay: string := "T23:59:59-04:00"
  /** `last`: the number of bills requested. */
  const BillsRequested: int := 78

  /** The variables of the `WDB_GetCostUsageReadsForBills` query that depend on the client. */
  datatype UsageRequest = UsageRequest(customerUrn: string, timeInterval: string)

  /**
   * The first and last calendar days of the window ending at local time `nowLocal`, or None
   * when the start would fall before 0001-01-01 (Python's datetime raises there).
   */
  function WindowDates(nowLocal: int): (r: Option<(Date, Date)>)
    requires nowLocal >= 0
    ensures r.Some? <==> nowLocal / SecondsPerDay + 1 > WindowDays
    ensures r.Some? ==>
      && ValidDate(r.value.0) && ValidDate(r.value.1)
      && r.value.1 == DateOfLocal(nowLocal)
      && Ordinal(r.value.0) + WindowDays == Ordinal(r.value.1)
  {
    var today := nowLocal / SecondsPerDay + 1;
    if today - WindowDays < 1 then None
    else Some((FromOrdinal(today - WindowDays), DateOfLocal(nowLocal)))
  }

  /**
   * `f"{start:%Y-%m-%d}T00:00:00-04:00/{end:%Y-%m-%d}T23:59:59-04:00"`: there is an interval
   * exactly when the window's first day exists; `QueryIntervalHalves` gives its shape.
   */
  function QueryInterval(nowLocal: int): (r: Option<string>)
    requires nowLocal >= 0
    ensures r.Some? <==> nowLocal / SecondsPerDay + 1 > WindowDays
  {
    match WindowDates(nowLocal)
    case None => None
    case Some((start, end)) => Some(FormatDate(start) + StartOfDay + "/" + FormatDate(end) + EndOfDay)
  }

  /** A date followed by a slash-free time suffix holds no '/'. */
  lemma NoSlashInStamp(d: Date, suffix: string)
    requires ValidDate(d) && '/' !in suffix
    ensures '/' !in FormatDate(d) + suffix
  {
    var a := FormatDate(d) + suffix;
    forall i | 0 <= i < |a| ensures a[i] != '/' {
      if i >= |FormatDate(d)| {
        assert a[i] == suffix[i - |FormatDate(d)|];
      }
    }
  }

  /**
   * The interval has exactly one '/', and its halves are the start day at midnight and the end
   * day at 23:59:59, both at offset -04:00, 730 days apart.
   */
  lemma QueryIntervalHalves(nowLocal: int)
    requires nowLocal >= 0 && QueryInterval(nowLocal).Some?
    ensures var (start, end) := WindowDates(nowLocal).value;
      && Count(QueryInterval(nowLocal).value, '/') == 1
      && Split(QueryInterval(nowLocal).value, '/') == [FormatDate(start) + StartOfDay, FormatDate(end) + EndOfDay]
      && Ordinal(start) + WindowDays == Ordinal(end)
  {
    var (start, end) := WindowDates(nowLocal).value;
    var a, b := FormatDate(start) + StartOfDay, FormatDate(end) + EndOfDay;
    NoSlashInStamp(start, StartOfDay);
    NoSlashInStamp(end, EndOfDay);
    assert Join([a, b], '/') == QueryInterval(nowLocal).value;
    SplitJoin([a, b], '/');
  }
}
