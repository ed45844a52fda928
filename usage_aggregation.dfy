/**
 * The part of `process_usage_data` that both scripts share: the shape of the GraphQL reply,
 * per-bill interval splitting, unit-priority usage sums, summed costs, and the running totals.
 * Amounts are exact reals; Python's float summation and `round` are not modelled.
 */
module UsageAggregation {
  import opened Wrappers
  import opened Text

  /** One `serviceQuantities` entry. Absent or null `unit`/`identifier` read as "", an absent or null value as 0. */
  datatype ServiceQuantity = ServiceQuantity(unit: string, identifier: string, value: real)

  /** `usageCharges` or `currentAmount` of a segment. */
  datatype Charge =
    | NoCharge             // absent, null, empty, or without a `value` member: adds nothing
    | ChargeValue(amount: real)
    | ChargeNull           // `{"value": null}`: adding None raises
  
  datatype Segment = Segment(quantities: seq<ServiceQuantity>, usageCharges: Charge, currentAmount: Charge)

  /** One bill; an absent `timeInterval` reads as "" and absent `segments` as []. */
  datatype Bill = Bill(timeInterval: string, segments: seq<Segment>)

  datatype BillsField = BillsAbsent | BillsNull | BillsArray(bills: seq<Bill>)
  datatype AccountField =
    | AccountAbsent
    | AccountNotObject
    | AccountObject(bills: BillsField, otherMembers: bool)  // otherMembers: it has keys besides `bills`
  datatype DataField = DataAbsent | DataNotObject | DataObject(account: AccountField)

  /** The parsed GraphQL reply, down to `data.billingAccountByAuthContext.bills`. */
  datatype UsageResponse = ResponseNotObject | ResponseObject(data: DataField)

  /** What the `.get` chain at the start of `process_usage_data` finds. */
  datatype BillsLookup =
    | ShapeError                                      // a `.get` or `len` on a non-object raises
    | NoBills(hasData: bool, hasBillingAccount: bool) // "No bills data found"
    | Bills(bills: seq<Bill>)

  /** The reply holds `data`, and `data` is an object. */
  predicate HasDataObject(response: UsageResponse) {
    response.ResponseObject? && response.data.DataObject?
  }

  /** The reply holds a `billingAccountByAuthContext` object. */
  predicate HasAccountObject(response: UsageResponse) {
    HasDataObject(response) && response.data.account.AccountObject?
  }

  /**
   * `bills` is a list exactly when every link of the chain is an object and the account holds a
   * `bills` array. "No bills data found" comes from a missing `data`, a missing account, a missing
   * `bills` or an empty array; every other shape raises. `has_billing_account` is the truthiness
   * of the account object: it holds `bills`, or it holds some other member.
   */
  function LookupBills(response: UsageResponse): (r: BillsLookup)
    ensures r.Bills? <==>
      HasAccountObject(response) && response.data.account.bills.BillsArray? && |response.data.account.bills.bills| > 0
    ensures r.Bills? ==> r.bills == response.data.account.bills.bills
    ensures r.NoBills? <==>
      || response == ResponseObject(DataAbsent)
      || response == ResponseObject(DataObject(AccountAbsent))
      || (HasAccountObject(response) &&
          (response.data.account.bills == BillsAbsent || response.data.account.bills == BillsArray([])))
    ensures r.NoBills? ==> (r.hasData <==> HasDataObject(response))
    ensures r.NoBills? ==>
      (r.hasBillingAccount <==>
        HasAccountObject(response) && (response.data.account.bills.BillsArray? || response.data.account.otherMembers))
  {
    match response
    case ResponseNotObject => ShapeError
    case ResponseObject(DataAbsent) => NoBills(false, false)
    case ResponseObject(DataNotObject) => ShapeError
    case ResponseObject(DataObject(AccountAbsent)) => NoBills(true, false)
    case ResponseObject(DataObject(AccountNotObject)) => ShapeError
    case ResponseObject(DataObject(AccountObject(BillsAbsent, other))) => NoBills(true, other)
    case ResponseObject(DataObject(AccountObject(BillsNull, _))) => ShapeError
    case ResponseObject(DataObject(AccountObject(BillsArray(bills), _))) =>
      if |bills| == 0 then NoBills(true, true) else Bills(bills)
  }

  // ---------------------------------------------------------------- interval splitting

  /** `start_date, end_date = time_interval.split('/')` when the interval holds a '/'; None when it raises. */
  function IntervalEnds(interval: string): (r: Option<(Option<string>, Option<string>)>)
    ensures r.None? <==> Count(interval, '/') > 1
    ensures Count(interval, '/') == 0 ==> r == Some((None, None))
    ensures Count(interval, '/') == 1 ==>
      && r.Some? && r.value.0.Some? && r.value.1.Some?
      && interval == r.value.0.value + "/" + r.value.1.value
      && '/' !in r.value.0.value && '/' !in r.value.1.value
  {
    if '/' !in interval then
      CountZero(interval, '/');
      Some((None, None))
    else
      CountZero(interval, '/');
      var parts := Split(interval, '/');
      if |parts| != 2 then None
      else
        JoinSplit(interval, '/');
        assert Join(parts[1..], '/') == parts[1];
        Some((Some(parts[0]), Some(parts[1])))
  }

  // ---------------------------------------------------------------- usage

  /** The three unit rules, tried in this order. */
  predicate ThermUnit(unit: string) {
    unit != "" && (Upper(unit) == "TH" || Contains(Lower(unit), "therm"))
  }

  /** `NET_USAGE` is matched case-sensitively, "therm" case-insensitively. */
  predicate ThermIdentifier(identifier: string) {
    identifier != "" && (Contains(identifier, "NET_USAGE") || Contains(Lower(identifier), "therm"))
  }

  predicate GasUnit(unit: string) {
    unit != "" && (Contains(Lower(unit), "gas") || Contains(Lower(unit), "cubic"))
  }

  /** The unit name a quantity counts under, or None when it adds nothing to the bill's usage. */
  function CountedUnit(q: ServiceQuantity): Option<string> {
    if ThermUnit(q.unit) then Some("therms")
    else if ThermIdentifier(q.identifier) then Some("therms")
    else if GasUnit(q.unit) then Some(q.unit)
    else None
  }

  /** All quantities of the segments, in the order the nested loops visit them. */
  function Quantities(segments: seq<Segment>): seq<ServiceQuantity> {
    if segments == [] then []
    else
      var n := |segments| - 1;
      Quantities(segments[..n]) + segments[n].quantities
  }

  /** The sum of the values of the quantities that count. */
  function UsageOf(qs: seq<ServiceQuantity>): real {
    if qs == [] then 0.0
    else
      var n := |qs| - 1;
      UsageOf(qs[..n]) + (if CountedUnit(qs[n]).Some? then qs[n].value else 0.0)
  }

  /** The unit of the last quantity that counts, "therms" when none does. */
  function UnitOf(qs: seq<ServiceQuantity>): string {
    if qs == [] then "therms"
    else
      var n := |qs| - 1;
      if CountedUnit(qs[n]).Some? then CountedUnit(qs[n]).value else UnitOf(qs[..n])
  }

  /** One more quantity adds its value and sets the unit exactly when it counts. */
  lemma QuantityStep(qs: seq<ServiceQuantity>, q: ServiceQuantity)
    ensures UsageOf(qs + [q]) == UsageOf(qs) + (if CountedUnit(q).Some? then q.value else 0.0)
    ensures UnitOf(qs + [q]) == if CountedUnit(q).Some? then CountedUnit(q).value else UnitOf(qs)
  {
    assert (qs + [q])[..|qs|] == qs;
  }

  lemma {:induction false} UsageOfAppend(a: seq<ServiceQuantity>, b: seq<ServiceQuantity>)
    ensures UsageOf(a + b) == UsageOf(a) + UsageOf(b)
    decreases |b|
  {
    if b != [] {
      var n := |b| - 1;
      var last := if CountedUnit(b[n]).Some? then b[n].value else 0.0;
      calc {
        UsageOf(a + b);
        { assert (a + b[..n]) + [b[n]] == a + b; }
        UsageOf((a + b[..n]) + [b[n]]);
        { QuantityStep(a + b[..n], b[n]); }
        UsageOf(a + b[..n]) + last;
        { UsageOfAppend(a, b[..n]); }
        UsageOf(a) + UsageOf(b[..n]) + last;
        { QuantityStep(b[..n], b[n]); assert b[..n] + [b[n]] == b; }
        UsageOf(a) + UsageOf(b);
      }
    } else {
      assert a + b == a;
    }
  }

  /** Only the quantities that count contribute; with no negative value the usage is non-negative. */
  lemma {:induction false} UsageBounds(qs: seq<ServiceQuantity>)
    ensures (forall i :: 0 <= i < |qs| ==> CountedUnit(qs[i]).None?) ==> UsageOf(qs) == 0.0 && UnitOf(qs) == "therms"
    ensures (forall i :: 0 <= i < |qs| ==> qs[i].value >= 0.0) ==> UsageOf(qs) >= 0.0
  {
    if qs != [] {
      UsageBounds(qs[..|qs| - 1]);
    }
  }

  // ---------------------------------------------------------------- cost

  function ChargeAmount(c: Charge): real {
    if c.ChargeValue? then c.amount else 0.0
  }

  /** Both `usageCharges.value` and `currentAmount.value` of every segment, added up. */
  function CostOf(segments: seq<Segment>): real {
    if segments == [] then 0.0
    else
      var n := |segments| - 1;
      CostOf(segments[..n]) + ChargeAmount(segments[n].usageCharges) + ChargeAmount(segments[n].currentAmount)
  }

  predicate ChargesNumeric(segments: seq<Segment>) {
    forall i :: 0 <= i < |segments| ==> segments[i].usageCharges != ChargeNull && segments[i].currentAmount != ChargeNull
  }

  // ---------------------------------------------------------------- periods

  /** One element of `usage_over_time` (and of `cost_over_time`, which holds the same objects). */
  datatype Period = Period(
    startDate: Option<string>, endDate: Option<string>,
    usageAmount: real, usageUnit: string,
    costAmount: real, costUnit: string,
    timeInterval: string)

  /** A bill `process_usage_data` can get through without raising. */
  predicate BillProcessable(b: Bill) {
    Count(b.timeInterval, '/') <= 1 && ChargesNumeric(b.segments)
  }

  /**
   * The period a processable bill becomes: dates exactly when the interval holds a '/', and then
   * the two sides of it; the usage and unit of all its quantities and the cost of all its
   * segments, in dollars.
   */
  function PeriodOf(b: Bill): (p: Period)
    requires BillProcessable(b)
    ensures p.startDate.Some? <==> '/' in b.timeInterval
    ensures p.endDate.Some? <==> '/' in b.timeInterval
    ensures p.startDate.Some? ==>
      b.timeInterval == p.startDate.value + "/" + p.endDate.value && '/' !in p.startDate.value && '/' !in p.endDate.value
    ensures p.timeInterval == b.timeInterval && p.costUnit == "USD"
    ensures p.usageAmount == UsageOf(Quantities(b.segments)) && p.usageUnit == UnitOf(Quantities(b.segments))
    ensures p.costAmount == CostOf(b.segments)
  {
    CountZero(b.timeInterval, '/');
    var ends := IntervalEnds(b.timeInterval).value;
    var qs := Quantities(b.segments);
    Period(ends.0, ends.1, UsageOf(qs), UnitOf(qs), CostOf(b.segments), "USD", b.timeInterval)
  }

  /** The body of the quantity loop: the three unit rules, tried in order. */
  method CountQuantity(q: ServiceQuantity, usage0: real, unit0: string) returns (usage: real, unit: string)
    ensures CountedUnit(q).Some? ==> usage == usage0 + q.value && unit == CountedUnit(q).value
    ensures CountedUnit(q).None? ==> usage == usage0 && unit == unit0
  {
    usage, unit := usage0, unit0;
    if ThermUnit(q.unit) {
      usage := usage + q.value;
      unit := "therms";
    } else if ThermIdentifier(q.identifier) {
      usage := usage + q.value;
      unit := "therms";
    } else if GasUnit(q.unit) {
      usage := usage + q.value;
      unit := q.unit;
    }
  }

  lemma AppendSlice<T>(a: seq<T>, b: seq<T>, j: int)
    requires 0 <= j < |b|
    ensures (a + b[..j]) + [b[j]] == a + b[..j + 1]
  {
    assert b[..j + 1] == b[..j] + [b[j]];
  }

  /** The quantity loop of one segment, run on the usage and unit gathered so far. */
  method AddQuantities(ghost before: seq<ServiceQuantity>, quantities: seq<ServiceQuantity>, usage0: real, unit0: string)
    returns (usage: real, unit: string)
    requires usage0 == UsageOf(before) && unit0 == UnitOf(before)
    ensures usage == UsageOf(before + quantities) && unit == UnitOf(before + quantities)
  {
    usage, unit := usage0, unit0;
    ghost var seen := before;
    for j := 0 to |quantities|
      invariant seen == before + quantities[..j]
      invariant usage == UsageOf(seen) && unit == UnitOf(seen)
    {
      QuantityStep(seen, quantities[j]);
      usage, unit := CountQuantity(quantities[j], usage, unit);
      AppendSlice(before, quantities, j);
      seen := seen + [quantities[j]];
    }
    assert quantities[..|quantities|] == quantities;
  }

  /** One more segment appends its quantities and adds both its charges. */
  lemma SegmentStep(segments: seq<Segment>, i: int)
    requires 0 <= i < |segments|
    ensures Quantities(segments[..i + 1]) == Quantities(segments[..i]) + segments[i].quantities
    ensures CostOf(segments[..i + 1]) == CostOf(segments[..i]) + ChargeAmount(segments[i].usageCharges) + ChargeAmount(segments[i].currentAmount)
    ensures ChargesNumeric(segments[..i + 1]) <==>
      ChargesNumeric(segments[..i]) && segments[i].usageCharges != ChargeNull && segments[i].currentAmount != ChargeNull
  {
    assert segments[..i + 1][..i] == segments[..i];
  }

  /** The segment loop of one bill: its usage, unit and cost, or `numeric` false when a charge value is null. */
  method SumSegments(segments: seq<Segment>) returns (usage: real, unit: string, cost: real, numeric: bool)
    ensures numeric <==> ChargesNumeric(segments)
    ensures numeric ==>
      usage == UsageOf(Quantities(segments)) && unit == UnitOf(Quantities(segments)) && cost == CostOf(segments)
  {
    usage, cost := 0.0, 0.0;
    unit := "therms";
    for i := 0 to |segments|
      invariant usage == UsageOf(Quantities(segments[..i]))
      invariant unit == UnitOf(Quantities(segments[..i]))
      invariant cost == CostOf(segments[..i])
      invariant ChargesNumeric(segments[..i])
    {
      SegmentStep(segments, i);
      usage, unit := AddQuantities(Quantities(segments[..i]), segments[i].quantities, usage, unit);
      match segments[i].usageCharges {
        case ChargeNull => return usage, unit, cost, false;
        case ChargeValue(a) => cost := cost + a;
        case NoCharge =>
      }
      match segments[i].currentAmount {
        case ChargeNull => return usage, unit, cost, false;
        case ChargeValue(a) => cost := cost + a;
        case NoCharge =>
      }
    }
    assert segments[..|segments|] == segments;
    numeric := true;
  }

  /** The body of the per-bill loop: interval split, then the segment and quantity loops. */
  method SummarizeBill(b: Bill) returns (p: Option<Period>)
    ensures p.Some? <==> BillProcessable(b)
    ensures p.Some? ==> p.value == PeriodOf(b)
  {
    var interval := b.timeInterval;
    var startDate: Option<string> := None;
    var endDate: Option<string> := None;
    CountZero(interval, '/');
    if '/' in interval {
      var parts := Split(interval, '/');
      if |parts| != 2 {
        return None;
      }
      startDate, endDate := Some(parts[0]), Some(parts[1]);
    }
    var usage, unit, cost, numeric := SumSegments(b.segments);
    if !numeric {
      return None;
    }
    p := Some(Period(startDate, endDate, usage, unit, cost, "USD", interval));
  }

  /** No bill makes `process_usage_data` raise. */
  predicate AllProcessable(bills: seq<Bill>) {
    bills == [] || (AllProcessable(bills[..|bills| - 1]) && BillProcessable(bills[|bills| - 1]))
  }

  /** The same, bill by bill. */
  lemma {:induction false} AllProcessableEach(bills: seq<Bill>)
    ensures AllProcessable(bills) <==> forall i :: 0 <= i < |bills| ==> BillProcessable(bills[i])
  {
    if bills != [] {
      var n := |bills| - 1;
      AllProcessableEach(bills[..n]);
      assert forall i :: 0 <= i < n ==> bills[..n][i] == bills[i];
    }
  }

  /** One bill that raises makes the whole list fail. */
  lemma FailingBill(bills: seq<Bill>, i: int)
    requires 0 <= i < |bills| && !BillProcessable(bills[i])
    ensures !AllProcessable(bills)
  {
    AllProcessableEach(bills);
  }

  /** `usage_over_time`: one period per bill, in the order of the bills. */
  function PeriodsOf(bills: seq<Bill>): (periods: seq<Period>)
    requires AllProcessable(bills)
    ensures |periods| == |bills|
  {
    if bills == [] then []
    else PeriodsOf(bills[..|bills| - 1]) + [PeriodOf(bills[|bills| - 1])]
  }

  /** Period `i` is the period of bill `i`. */
  lemma {:induction false} PeriodsOfEach(bills: seq<Bill>)
    requires AllProcessable(bills)
    ensures forall i :: 0 <= i < |bills| ==> BillProcessable(bills[i]) && PeriodsOf(bills)[i] == PeriodOf(bills[i])
  {
    if bills != [] {
      var n := |bills| - 1;
      var front := bills[..n];
      PeriodsOfEach(front);
      forall i | 0 <= i < |bills|
        ensures BillProcessable(bills[i]) && PeriodsOf(bills)[i] == PeriodOf(bills[i])
      {
        if i < n {
          assert front[i] == bills[i];
        }
      }
    }
  }

  // ---------------------------------------------------------------- totals

  function TotalUsage(periods: seq<Period>): real {
    if periods == [] then 0.0 else TotalUsage(periods[..|periods| - 1]) + periods[|periods| - 1].usageAmount
  }

  function TotalCost(periods: seq<Period>): real {
    if periods == [] then 0.0 else TotalCost(periods[..|periods| - 1]) + periods[|periods| - 1].costAmount
  }

  /** One more bill through the loop extends the periods by its own period and the totals by its amounts. */
  lemma PeriodsStep(bills: seq<Bill>, i: int, done: seq<Period>, p: Period)
    requires 0 <= i < |bills| && AllProcessable(bills[..i]) && done == PeriodsOf(bills[..i])
    requires BillProcessable(bills[i]) && p == PeriodOf(bills[i])
    ensures AllProcessable(bills[..i + 1]) && PeriodsOf(bills[..i + 1]) == done + [p]
    ensures TotalUsage(done + [p]) == TotalUsage(done) + p.usageAmount
    ensures TotalCost(done + [p]) == TotalCost(done) + p.costAmount
  {
    assert bills[..i + 1][..i] == bills[..i];
    assert (done + [p])[..|done|] == done;
  }

  /** `summary` */
  datatype Summary = Summary(totalUsage: real, totalCost: real, numberOfBills: nat, usageUnit: string, costUnit: string)

  /** `current_month_estimate`, in the two forms the two scripts build. */
  datatype Estimate =
    | InPeriod(                       // now lies inside the latest period (window script)
        periodStart: Option<string>, periodEnd: Option<string>,
        totalPeriodDays: int, elapsedDays: int,
        estimatedUsageSoFar: real, estimatedCostSoFar: real,
        projectedUsage: real, projectedCost: real,
        actualUsage: real, actualCost: real,
        usageUnit: string, costUnit: string)
    | OutsidePeriod(latest: Period)   // "Current date is outside the latest billing period"
    | DateParseError(latest: Period)  // "Date parsing error: ..."
    | CurrentMonth(partialUsage: real, partialCost: real, billingPeriod: Period)  // month-prefix script

  /** What `process_usage_data` returns. */
  datatype UsageOutcome =
    | Processed(usageOverTime: seq<Period>, costOverTime: seq<Period>, currentMonthEstimate: Option<Estimate>, summary: Summary)
    | NoBillsFound(hasData: bool, hasBillingAccount: bool, billsCount: nat)
    | ProcessingFailed  // "Failed to process usage data: ..."

  /** The summary of a list of periods as both scripts compute it. */
  function SummaryOf(periods: seq<Period>): Summary
    requires |periods| > 0
  {
    Summary(TotalUsage(periods), TotalCost(periods), |periods|, periods[|periods| - 1].usageUnit, "USD")
  }

  /** Every slice of a run of bills that all go through goes through. */
  lemma ProcessableSlices(bills: seq<Bill>, k: int)
    requires AllProcessable(bills) && 0 <= k <= |bills|
    ensures AllProcessable(bills[..k]) && AllProcessable(bills[k..])
  {
    AllProcessableEach(bills);
    AllProcessableEach(bills[..k]);
    AllProcessableEach(bills[k..]);
  }

  /** The periods of a run of bills split where the bills do. */
  lemma {:induction false} PeriodsOfSplit(bills: seq<Bill>, k: int)
    requires AllProcessable(bills) && 0 <= k <= |bills|
    ensures AllProcessable(bills[..k]) && AllProcessable(bills[k..])
    ensures PeriodsOf(bills) == PeriodsOf(bills[..k]) + PeriodsOf(bills[k..])
  {
    ProcessableSlices(bills, k);
    if k == |bills| {
      assert bills[..k] == bills && bills[k..] == [];
    } else {
      var n := |bills| - 1;
      var front, rest := bills[..n], bills[k..];
      var m := |rest| - 1;
      assert front[..k] == bills[..k];
      assert front[k..] == rest[..m];
      assert rest[m] == bills[n];
      PeriodsOfSplit(front, k);
      calc {
        PeriodsOf(bills);
        PeriodsOf(front) + [PeriodOf(bills[n])];
        PeriodsOf(bills[..k]) + PeriodsOf(rest[..m]) + [PeriodOf(rest[m])];
        { assert PeriodsOf(rest) == PeriodsOf(rest[..m]) + [PeriodOf(rest[m])]; }
        PeriodsOf(bills[..k]) + PeriodsOf(rest);
      }
    }
  }

  /**
   * The summary of the periods of a run of bills: one count per bill, the last bill's usage unit,
   * dollars, and totals that are additive over any split of the bills.
   */
  lemma SummaryOfBills(bills: seq<Bill>, k: int)
    requires AllProcessable(bills) && |bills| > 0 && 0 <= k <= |bills|
    ensures AllProcessable(bills[..k]) && AllProcessable(bills[k..])
    ensures var s := SummaryOf(PeriodsOf(bills));
      && s.numberOfBills == |bills|
      && s.usageUnit == UnitOf(Quantities(bills[|bills| - 1].segments))
      && s.costUnit == "USD"
      && s.totalUsage == TotalUsage(PeriodsOf(bills[..k])) + TotalUsage(PeriodsOf(bills[k..]))
      && s.totalCost == TotalCost(PeriodsOf(bills[..k])) + TotalCost(PeriodsOf(bills[k..]))
  {
    PeriodsOfSplit(bills, k);
    TotalsSplit(PeriodsOf(bills[..k]), PeriodsOf(bills[k..]));
  }

  /**
   * A bill of one segment with a `TH` quantity of 50, a usage charge of 40 and a current amount
   * of 5 gives a usage of 50 therms and a cost of 45 dollars, which are also the totals.
   */
  lemma OneBillExample()
    ensures var start, end := "2024-06-01T00:00:00-04:00", "2024-06-28T23:59:59-04:00";
      var b := Bill(start + "/" + end, [Segment([ServiceQuantity("TH", "", 50.0)], ChargeValue(40.0), ChargeValue(5.0))]);
      && AllProcessable([b])
      && PeriodsOf([b]) == [Period(Some(start), Some(end), 50.0, "therms", 45.0, "USD", start + "/" + end)]
      && SummaryOf(PeriodsOf([b])) == Summary(50.0, 45.0, 1, "therms", "USD")
  {
    var start, end := "2024-06-01T00:00:00-04:00", "2024-06-28T23:59:59-04:00";
    var q := ServiceQuantity("TH", "", 50.0);
    var seg := Segment([q], ChargeValue(40.0), ChargeValue(5.0));
    var b := Bill(start + "/" + end, [seg]);
    ExampleSegment();
    assert '/' !in start && '/' !in end;
    SlashedBill(start, end, [seg]);
    SingleBill(b);
  }

  /** A run of one processable bill gives its period and a summary of that period alone. */
  lemma SingleBill(b: Bill)
    requires BillProcessable(b)
    ensures AllProcessable([b]) && PeriodsOf([b]) == [PeriodOf(b)]
    ensures SummaryOf([PeriodOf(b)]) == Summary(PeriodOf(b).usageAmount, PeriodOf(b).costAmount, 1, PeriodOf(b).usageUnit, "USD")
  {
    assert [b][..0] == [];
    assert AllProcessable([b]);
    var p := PeriodOf(b);
    assert PeriodsOf([b]) == PeriodsOf([]) + [p];
    assert TotalUsage([p]) == TotalUsage([]) + p.usageAmount by { assert [p][..0] == []; }
    assert TotalCost([p]) == TotalCost([]) + p.costAmount by { assert [p][..0] == []; }
  }

  /** The example's one segment: 50 therms and 45 dollars. */
  lemma ExampleSegment()
    ensures var seg := Segment([ServiceQuantity("TH", "", 50.0)], ChargeValue(40.0), ChargeValue(5.0));
      && ChargesNumeric([seg])
      && UsageOf(Quantities([seg])) == 50.0 && UnitOf(Quantities([seg])) == "therms"
      && CostOf([seg]) == 45.0
  {
    var q := ServiceQuantity("TH", "", 50.0);
    var seg := Segment([q], ChargeValue(40.0), ChargeValue(5.0));
    assert Upper("TH") == "TH";
    assert Quantities([seg]) == [q] by { assert [seg][..0] == []; }
    assert UsageOf([q]) == 50.0 && UnitOf([q]) == "therms" by { assert [q][..0] == []; }
    assert CostOf([seg]) == 45.0 by { assert [seg][..0] == []; }
  }

  /** A bill whose interval is two slash-free halves joined by '/' has those halves as its dates. */
  lemma SlashedBill(start: string, end: string, segments: seq<Segment>)
    requires '/' !in start && '/' !in end && ChargesNumeric(segments)
    ensures BillProcessable(Bill(start + "/" + end, segments))
    ensures PeriodOf(Bill(start + "/" + end, segments)) ==
      Period(Some(start), Some(end), UsageOf(Quantities(segments)), UnitOf(Quantities(segments)),
             CostOf(segments), "USD", start + "/" + end)
  {
    SplitAtSlash(start, end);
  }

  /** Two slash-free halves joined by one '/' split back into themselves. */
  lemma SplitAtSlash(start: string, end: string)
    requires '/' !in start && '/' !in end
    ensures Count(start + "/" + end, '/') == 1
    ensures Split(start + "/" + end, '/') == [start, end]
  {
    CountZero(start, '/');
    CountZero(end, '/');
    CountAppend(start, "/", '/');
    CountAppend(start + "/", end, '/');
    SplitNoSeparator(end, '/');
    SplitAfterPiece(start, end, '/');
    assert start + "/" + end == start + ['/'] + end;
  }

  /** The totals of two runs of periods put together are the sums of their totals. */
  lemma {:induction false} TotalsSplit(a: seq<Period>, b: seq<Period>)
    ensures TotalUsage(a + b) == TotalUsage(a) + TotalUsage(b)
    ensures TotalCost(a + b) == TotalCost(a) + TotalCost(b)
    decreases |b|
  {
    if b != [] {
      var n := |b| - 1;
      assert (a + b)[..|a| + n] == a + b[..n];
      TotalsSplit(a, b[..n]);
    } else {
      assert a + b == a;
    }
  }

  /** A bill with an interval of more than one '/' makes the whole call fail; no '/' gives no dates. */
  lemma IntervalCases(b: Bill)
    ensures Count(b.timeInterval, '/') > 1 ==> !BillProcessable(b)
    ensures BillProcessable(b) && '/' !in b.timeInterval ==> PeriodOf(b).startDate.None? && PeriodOf(b).endDate.None?
  {
    CountZero(b.timeInterval, '/');
  }
}
