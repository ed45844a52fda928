/**
 * The proleptic Gregorian calendar as Python's `datetime` module uses it: day ordinals
 * (`date.toordinal()`, 0001-01-01 is day 1), the inverse `date.fromordinal()`, and the
 * `%Y-%m-%d` / `%Y-%m` renderings of `strftime`.
 *
 * A naive local date-time is represented by its number of seconds since 0001-01-01T00:00:00.
 */
module Calendar {

  const SecondsPerDay: int := 86400

  datatype Date = Date(year: int, month: int, day: int)

  predicate IsLeapYear(y: int) {
    y % 4 == 0 && (y % 100 != 0 || y % 400 == 0)
  }

  function DaysInYear(y: int): int {
    if IsLeapYear(y) then 366 else 365
  }

  function DaysInMonth(y: int, m: int): int
    requires 1 <= m <= 12
  {
    if m == 2 then (if IsLeapYear(y) then 29 else 28)
    else if m == 4 || m == 6 || m == 9 || m == 11 then 30
    else 31
  }

  /** Days of year `y` that precede the first of month `m`. */
  function DaysBeforeMonth(y: int, m: int): int
    requires 1 <= m <= 12
  {
    [0, 31, 59, 90, 120, 151, 181, 212, 243, 273, 304, 334][m - 1]
      + (if m > 2 && IsLeapYear(y) then 1 else 0)
  }

  lemma MonthStep(y: int, m: int)
    requires 1 <= m < 12
    ensures DaysBeforeMonth(y, m + 1) == DaysBeforeMonth(y, m) + DaysInMonth(y, m)
  {
  }

  lemma MonthsFillYear(y: int)
    ensures DaysBeforeMonth(y, 12) + DaysInMonth(y, 12) == DaysInYear(y)
  {
  }

  /** Days of all the years before year `y` (year 1 is the first). */
  function DaysBeforeYear(y: int): (days: int)
    requires y >= 1
    ensures days >= 365 * (y - 1)
  {
    if y == 1 then 0 else DaysBeforeYear(y - 1) + DaysInYear(y - 1)
  }

  predicate ValidDate(d: Date) {
    d.year >= 1 && 1 <= d.month <= 12 && 1 <= d.day <= DaysInMonth(d.year, d.month)
  }

  /** `date.toordinal()` */
  function Ordinal(d: Date): int
    requires ValidDate(d)
  {
    DaysBeforeYear(d.year) + DaysBeforeMonth(d.year, d.month) + d.day
  }

  /** Finds the year holding day `n` counted from the first day of year `y`, and the day's number in that year. */
  function LocateYear(n: int, y: int): (r: (int, int))
    requires n >= 1 && y >= 1
    ensures r.0 >= y && 1 <= r.1 <= DaysInYear(r.0)
    ensures DaysBeforeYear(r.0) + r.1 == DaysBeforeYear(y) + n
    decreases n
  {
    if n > DaysInYear(y) then LocateYear(n - DaysInYear(y), y + 1) else (y, n)
  }

  /** Finds the month holding day `k` of year `y` counted from the first of month `m`, and the day of that month. */
  function LocateMonth(k: int, y: int, m: int): (r: (int, int))
    requires 1 <= m <= 12
    requires 1 <= k <= DaysInYear(y) - DaysBeforeMonth(y, m)
    ensures m <= r.0 <= 12 && 1 <= r.1 <= DaysInMonth(y, r.0)
    ensures DaysBeforeMonth(y, r.0) + r.1 == DaysBeforeMonth(y, m) + k
    decreases 12 - m
  {
    if m == 12 then
      MonthsFillYear(y);
      (m, k)
    else if k > DaysInMonth(y, m) then
      MonthStep(y, m);
      LocateMonth(k - DaysInMonth(y, m), y, m + 1)
    else
      (m, k)
  }

  /** `date.fromordinal(n)`: the date whose ordinal is `n`. */
  function FromOrdinal(n: int): (d: Date)
    requires n >= 1
    ensures ValidDate(d) && Ordinal(d) == n
  {
    var (y, k) := LocateYear(n, 1);
    var (m, day) := LocateMonth(k, y, 1);
    Date(y, m, day)
  }

  lemma {:induction false} YearsAscend(a: int, b: int)
    requires 1 <= a < b
    ensures DaysBeforeYear(a) + DaysInYear(a) <= DaysBeforeYear(b)
    decreases b - a
  {
    if a + 1 < b {
      YearsAscend(a + 1, b);
    }
  }

  lemma MonthsAscend(y: int, m: int, m': int)
    requires 1 <= m < m' <= 12
    ensures DaysBeforeMonth(y, m) + DaysInMonth(y, m) <= DaysBeforeMonth(y, m')
  {
  }

  lemma WithinYear(d: Date)
    requires ValidDate(d)
    ensures DaysBeforeYear(d.year) < Ordinal(d) <= DaysBeforeYear(d.year) + DaysInYear(d.year)
  {
    if d.month < 12 {
      MonthsAscend(d.year, d.month, 12);
    }
    MonthsFillYear(d.year);
  }

  /** Distinct valid dates have distinct ordinals. */
  lemma OrdinalInjective(d1: Date, d2: Date)
    requires ValidDate(d1) && ValidDate(d2) && Ordinal(d1) == Ordinal(d2)
    ensures d1 == d2
  {
    WithinYear(d1);
    WithinYear(d2);
    if d1.year < d2.year {
      YearsAscend(d1.year, d2.year);
    } else if d2.year < d1.year {
      YearsAscend(d2.year, d1.year);
    }
    assert d1.year == d2.year;
    if d1.month < d2.month {
      MonthsAscend(d1.year, d1.month, d2.month);
    } else if d2.month < d1.month {
      MonthsAscend(d1.year, d2.month, d1.month);
    }
  }

  /** `fromordinal` and `toordinal` are inverse to each other on valid dates. */
  lemma FromOrdinalOfOrdinal(d: Date)
    requires ValidDate(d)
    ensures Ordinal(d) >= 1 && FromOrdinal(Ordinal(d)) == d
  {
    WithinYear(d);
    OrdinalInjective(d, FromOrdinal(Ordinal(d)));
  }

  /** The calendar date of a naive local date-time given in seconds since 0001-01-01T00:00:00. */
  function DateOfLocal(seconds: int): (d: Date)
    requires seconds >= 0
    ensures ValidDate(d) && Ordinal(d) == seconds / SecondsPerDay + 1
  {
    FromOrdinal(seconds / SecondsPerDay + 1)
  }

  predicate IsDigit(c: char) {
    '0' <= c <= '9'
  }

  function DigitChar(k: int): (c: char)
    requires 0 <= k <= 9
    ensures IsDigit(c)
  {
    ('0' as int + k) as char
  }

  /** The decimal numeral of `n`, without leading zeros. */
  function Decimal(n: nat): (s: string)
    ensures |s| >= 1 && forall i :: 0 <= i < |s| ==> IsDigit(s[i])
  {
    if n < 10 then [DigitChar(n)] else Decimal(n / 10) + [DigitChar(n % 10)]
  }

  /** Left-pads a numeral with zeros to `width` characters, as `%Y`, `%m` and `%d` do. */
  function ZeroPad(s: string, width: nat): (r: string)
    requires forall i :: 0 <= i < |s| ==> IsDigit(s[i])
    ensures |r| == if |s| >= width then |s| else width
    ensures forall i :: 0 <= i < |r| ==> IsDigit(r[i])
    decreases width - |s|
  {
    if |s| >= width then s else ZeroPad(['0'] + s, width)
  }

  /** `strftime('%Y-%m')` */
  function FormatYearMonth(d: Date): (s: string)
    requires ValidDate(d)
    ensures |s| >= 7 && s[|s| - 3] == '-'
    ensures forall i :: 0 <= i < |s| ==> IsDigit(s[i]) || s[i] == '-'
  {
    ZeroPad(Decimal(d.year), 4) + "-" + ZeroPad(Decimal(d.month), 2)
  }

  /** `strftime('%Y-%m-%d')` */
  function FormatDate(d: Date): (s: string)
    requires ValidDate(d)
    ensures |s| >= 10
    ensures forall i :: 0 <= i < |s| ==> IsDigit(s[i]) || s[i] == '-'
  {
    FormatYearMonth(d) + "-" + ZeroPad(Decimal(d.day), 2)
  }

  /** The number a string of decimal digits denotes; leading zeros add nothing. */
  function DigitsValue(s: string): nat
    requires forall i :: 0 <= i < |s| ==> IsDigit(s[i])
  {
    if s == [] then 0
    else
      assert IsDigit(s[|s| - 1]);
      10 * DigitsValue(s[..|s| - 1]) + (s[|s| - 1] as int - '0' as int)
  }

  lemma {:induction false} DecimalValue(n: nat)
    ensures DigitsValue(Decimal(n)) == n
  {
    if n >= 10 {
      DecimalValue(n / 10);
      var s := Decimal(n);
      assert s[..|s| - 1] == Decimal(n / 10);
    }
  }

  lemma {:induction false} LeadingZeroValue(s: string)
    requires forall i :: 0 <= i < |s| ==> IsDigit(s[i])
    ensures DigitsValue(['0'] + s) == DigitsValue(s)
    decreases |s|
  {
    if s != [] {
      var t := ['0'] + s;
      assert t[..|t| - 1] == ['0'] + s[..|s| - 1];
      LeadingZeroValue(s[..|s| - 1]);
    }
  }

  lemma {:induction false} ZeroPadValue(s: string, width: nat)
    requires forall i :: 0 <= i < |s| ==> IsDigit(s[i])
    ensures DigitsValue(ZeroPad(s, width)) == DigitsValue(s)
    decreases width - |s|
  {
    if |s| < width {
      LeadingZeroValue(s);
      ZeroPadValue(['0'] + s, width);
    }
  }

  /** The year-month text names exactly one month: two dates share it if and only if they share year and month. */
  lemma FormatYearMonthInjective(d1: Date, d2: Date)
    requires ValidDate(d1) && ValidDate(d2)
    ensures FormatYearMonth(d1) == FormatYearMonth(d2) <==> d1.year == d2.year && d1.month == d2.month
  {
    if FormatYearMonth(d1) == FormatYearMonth(d2) {
      var y1, m1 := ZeroPad(Decimal(d1.year), 4), ZeroPad(Decimal(d1.month), 2);
      var y2, m2 := ZeroPad(Decimal(d2.year), 4), ZeroPad(Decimal(d2.month), 2);
      var s := FormatYearMonth(d1);
      assert s == y1 + "-" + m1 && s == y2 + "-" + m2;
      assert |m1| == 2 && |m2| == 2;
      assert y1 == s[..|s| - 3] == y2;
      assert m1 == s[|s| - 2..] == m2;
      ZeroPadValue(Decimal(d1.year), 4);
      ZeroPadValue(Decimal(d2.year), 4);
      ZeroPadValue(Decimal(d1.month), 2);
      ZeroPadValue(Decimal(d2.month), 2);
      DecimalValue(d1.year);
      DecimalValue(d2.year);
      DecimalValue(d1.month);
      DecimalValue(d2.month);
    }
  }
}
