/** The proleptic Gregorian calendar of `java.time.LocalDate`, for years from 1
    on. A date is a (year, month, day) triple; `Ord` numbers the days from
    0001-01-01, which is a Monday, and `FromOrd` is its inverse. The adjusters
    the expense service uses (`with(DayOfWeek.MONDAY)`, `withDayOfMonth(1)`,
    `withDayOfYear(1)`, `plusDays`) and its two date renderings (`MMM d` and
    the upper-case month name) are defined on top. */
module Calendar {
  import opened Text

  datatype Date = Date(year: int, month: int, day: int)

  predicate Leap(y: int)
  {
    y % 4 == 0 && (y % 100 != 0 || y % 400 == 0)
  }

  function DaysIn(y: int, m: int): int
  {
    if m == 2 then (if Leap(y) then 29 else 28)
    else if m == 4 || m == 6 || m == 9 || m == 11 then 30
    else 31
  }

  function YearLen(y: int): int
  {
    if Leap(y) then 366 else 365
  }

  /** A date `LocalDate.of` accepts (restricted to positive years). */
  predicate Valid(d: Date)
  {
    d.year >= 1 && 1 <= d.month <= 12 && 1 <= d.day <= DaysIn(d.year, d.month)
  }

  /** Days from 0001-01-01 to January 1 of year `y`. */
  function DaysBeforeYear(y: int): int
    requires y >= 1
  {
    365 * (y - 1) + (y - 1) / 4 - (y - 1) / 100 + (y - 1) / 400
  }

  /** Days from January 1 to the first of month `m` of year `y`. */
  function DaysBeforeMonth(y: int, m: int): int
    requires 1 <= m <= 12
  {
    [0, 31, 59, 90, 120, 151, 181, 212, 243, 273, 304, 334][m - 1]
    + (if m > 2 && Leap(y) then 1 else 0)
  }

  /** The day number of `d`, counted from 0001-01-01 = 0. */
  function Ord(d: Date): int
    requires d.year >= 1 && 1 <= d.month <= 12
  {
    DaysBeforeYear(d.year) + DaysBeforeMonth(d.year, d.month) + d.day - 1
  }

  lemma DivIsUnique(y: int, k: int, q: int, r: int)
    requires k > 0 && 0 <= r < k && y == k * q + r
    ensures y / k == q && y % k == r
  {
    var q', r' := y / k, y % k;
    assert k * (q - q') == r' - r;
    if q > q' {
      MulMonotone(k, q - q');
    } else if q < q' {
      MulMonotone(k, q' - q);
    }
  }

  lemma MulMonotone(k: int, a: int)
    requires k > 0 && a >= 1
    ensures k * a >= k
  {
    assert k * a == k * (a - 1) + k;
    assert k * (a - 1) >= 0;
  }

  /** Stepping `y` by one raises `y / k` exactly when `k` divides `y`. */
  lemma DivStep(y: int, k: int)
    requires k > 0
    ensures y / k - (y - 1) / k == if y % k == 0 then 1 else 0
  {
    var q, r := (y - 1) / k, (y - 1) % k;
    assert y - 1 == k * q + r;
    if r + 1 < k {
      DivIsUnique(y, k, q, r + 1);
    } else {
      DivIsUnique(y, k, q + 1, 0);
    }
  }

  lemma {:induction false} YearStep(y: int)
    requires y >= 1
    ensures DaysBeforeYear(y + 1) == DaysBeforeYear(y) + YearLen(y)
  {
    DivStep(y, 4);
    DivStep(y, 100);
    DivStep(y, 400);
    if y % 100 == 0 {
      DivIsUnique(y, 4, 25 * (y / 100), 0);
    }
    if y % 400 == 0 {
      DivIsUnique(y, 100, 4 * (y / 400), 0);
    }
  }

  lemma {:induction false} DaysBeforeYearMono(x: int, z: int)
    requires 1 <= x <= z
    ensures DaysBeforeYear(x) + (if x < z then YearLen(x) else 0) <= DaysBeforeYear(z)
    decreases z - x
  {
    if x < z {
      YearStep(x);
      DaysBeforeYearMono(x + 1, z);
    }
  }

  lemma MonthStep(y: int, m: int)
    requires 1 <= m <= 12
    ensures DaysBeforeMonth(y, m) + DaysIn(y, m) == if m < 12 then DaysBeforeMonth(y, m + 1) else YearLen(y)
  {
  }

  lemma {:induction false} MonthsMono(y: int, m1: int, m2: int)
    requires 1 <= m1 < m2 <= 12
    ensures DaysBeforeMonth(y, m1) + DaysIn(y, m1) <= DaysBeforeMonth(y, m2)
    decreases m2 - m1
  {
    MonthStep(y, m1);
    if m1 + 1 < m2 {
      MonthsMono(y, m1 + 1, m2);
      MonthStep(y, m1 + 1);
    }
  }

  /** The year that holds day `r` counted from January 1 of year `y`, and the
      day of that year. */
  function WalkYears(r: int, y: int): (res: (int, int))
    requires r >= 0 && y >= 1
    ensures res.0 >= y && 0 <= res.1 < YearLen(res.0)
    ensures DaysBeforeYear(res.0) + res.1 == DaysBeforeYear(y) + r
    decreases r
  {
    if r < YearLen(y) then (y, r)
    else
      YearStep(y);
      WalkYears(r - YearLen(y), y + 1)
  }

  /** The month of year `y` that holds day `r` counted from the first of
      month `m`, and the day of that month (from 0). */
  function WalkMonths(r: int, y: int, m: int): (res: (int, int))
    requires 0 <= r && 1 <= m <= 12 && DaysBeforeMonth(y, m) + r < YearLen(y)
    ensures m <= res.0 <= 12 && 0 <= res.1 < DaysIn(y, res.0)
    ensures DaysBeforeMonth(y, res.0) + res.1 == DaysBeforeMonth(y, m) + r
    decreases 12 - m
  {
    MonthStep(y, m);
    if r < DaysIn(y, m) then (m, r)
    else WalkMonths(r - DaysIn(y, m), y, m + 1)
  }

  /** The date whose day number is `n`. */
  function FromOrd(n: int): (d: Date)
    requires n >= 0
    ensures Valid(d) && Ord(d) == n
  {
    var yr := WalkYears(n, 1);
    var md := WalkMonths(yr.1, yr.0, 1);
    Date(yr.0, md.0, md.1 + 1)
  }

  /** Day numbers of valid dates are non-negative and stay inside their year. */
  lemma OrdBounds(d: Date)
    requires Valid(d)
    ensures 0 <= DaysBeforeYear(d.year) <= Ord(d) < DaysBeforeYear(d.year) + YearLen(d.year)
  {
    DaysBeforeYearMono(1, d.year);
    MonthStep(d.year, d.month);
    if d.month < 12 {
      MonthsMono(d.year, d.month, 12);
      MonthStep(d.year, 12);
    }
  }

  /** Distinct valid dates have distinct day numbers. */
  lemma OrdInjective(a: Date, b: Date)
    requires Valid(a) && Valid(b) && Ord(a) == Ord(b)
    ensures a == b
  {
    OrdBounds(a);
    OrdBounds(b);
    if a.year < b.year {
      DaysBeforeYearMono(a.year, b.year);
    } else if b.year < a.year {
      DaysBeforeYearMono(b.year, a.year);
    } else if a.month < b.month {
      MonthsMono(a.year, a.month, b.month);
    } else if b.month < a.month {
      MonthsMono(a.year, b.month, a.month);
    }
  }

  /** A `LocalDate`: a valid date. */
  type Day = d: Date | Valid(d) witness Date(1, 1, 1)

  /** Day numbers order valid dates as year, then month, then day do. */
  lemma OrdOrder(a: Date, b: Date)
    requires Valid(a) && Valid(b)
    ensures Ord(a) < Ord(b) <==>
      a.year < b.year || (a.year == b.year && (a.month < b.month || (a.month == b.month && a.day < b.day)))
  {
    OrdBounds(a);
    OrdBounds(b);
    if a.year < b.year {
      DaysBeforeYearMono(a.year, b.year);
    } else if b.year < a.year {
      DaysBeforeYearMono(b.year, a.year);
    } else if a.month < b.month {
      MonthsMono(a.year, a.month, b.month);
    } else if b.month < a.month {
      MonthsMono(a.year, b.month, a.month);
    }
  }

  /** `FromOrd` undoes `Ord`: every valid date is recovered from its number. */
  lemma FromOrdOrd(d: Date)
    requires Valid(d)
    ensures Ord(d) >= 0 && FromOrd(Ord(d)) == d
  {
    OrdBounds(d);
    OrdInjective(FromOrd(Ord(d)), d);
  }

  /** ISO day of the week, 0 for Monday through 6 for Sunday. */
  function Weekday(d: Date): int
    requires d.year >= 1 && 1 <= d.month <= 12
  {
    Ord(d) % 7
  }

  /** `d.plusDays(k)` for a step of at most four weeks, which carries into the
      next month or the next year at most once. */
  function PlusDays(d: Date, k: int): (r: Date)
    requires Valid(d) && 0 <= k <= 28
    ensures Valid(r) && Ord(r) == Ord(d) + k
  {
    if d.day + k <= DaysIn(d.year, d.month) then Date(d.year, d.month, d.day + k)
    else if d.month < 12 then
      MonthStep(d.year, d.month);
      Date(d.year, d.month + 1, d.day + k - DaysIn(d.year, d.month))
    else
      YearStep(d.year);
      Date(d.year + 1, 1, d.day + k - 31)
  }

  /** `d.with(DayOfWeek.MONDAY)`: the Monday of the Monday-to-Sunday week of `d`. */
  function WeekStart(d: Date): (r: Date)
    requires Valid(d)
    ensures Valid(r) && Weekday(r) == 0
    ensures Ord(r) <= Ord(d) < Ord(r) + 7
  {
    OrdBounds(d);
    var n := Ord(d);
    DivIsUnique(n - n % 7, 7, n / 7, 0);
    FromOrd(n - n % 7)
  }

  /** Every day of one Monday-to-Sunday week has the same Monday. */
  lemma SameWeekStart(a: Date, b: Date)
    requires Valid(a) && Valid(b)
    ensures WeekStart(a) == WeekStart(b) <==> Ord(a) / 7 == Ord(b) / 7
  {
    var wa, wb := WeekStart(a), WeekStart(b);
    OrdBounds(wa);
    OrdBounds(wb);
    DivIsUnique(Ord(a), 7, Ord(wa) / 7, Ord(a) - Ord(wa));
    DivIsUnique(Ord(b), 7, Ord(wb) / 7, Ord(b) - Ord(wb));
    if Ord(a) / 7 == Ord(b) / 7 {
      OrdInjective(wa, wb);
    }
  }

  /** `d.withDayOfMonth(1)`. */
  function MonthStart(d: Date): (r: Date)
    requires Valid(d)
    ensures Valid(r) && Ord(r) <= Ord(d)
    ensures r.year == d.year && r.month == d.month
    ensures forall x :: Valid(x) && x.year == d.year && x.month == d.month ==> Ord(r) <= Ord(x)
  {
    Date(d.year, d.month, 1)
  }

  /** `d.withDayOfYear(1)`. */
  function YearStart(d: Date): (r: Date)
    requires Valid(d)
    ensures Valid(r) && Ord(r) <= Ord(d) && r.year == d.year
    ensures forall x :: Valid(x) && x.year == d.year ==> Ord(r) <= Ord(x)
  {
    Date(d.year, 1, 1)
  }

  /** `Month.toString()`: the enum constant's name. */
  function MonthName(m: int): (s: string)
    requires 1 <= m <= 12
    ensures |s| >= 3
  {
    ["JANUARY", "FEBRUARY", "MARCH", "APRIL", "MAY", "JUNE", "JULY",
     "AUGUST", "SEPTEMBER", "OCTOBER", "NOVEMBER", "DECEMBER"][m - 1]
  }

  /** `getMonth().toString().substring(0, 3)`, the key of the monthly breakdown. */
  function MonthKey(m: int): string
    requires 1 <= m <= 12
  {
    MonthName(m)[..3]
  }

  /** Twelve months, twelve different keys. */
  lemma MonthKeyInjective(a: int, b: int)
    requires 1 <= a <= 12 && 1 <= b <= 12
    ensures MonthKey(a) == MonthKey(b) <==> a == b
  {
    var keys := ["JAN", "FEB", "MAR", "APR", "MAY", "JUN", "JUL", "AUG", "SEP", "OCT", "NOV", "DEC"];
    assert MonthKey(a) == keys[a - 1] && MonthKey(b) == keys[b - 1];
  }

  /** The `MMM` field in English: the short month name. */
  function MonthShort(m: int): string
    requires 1 <= m <= 12
  {
    ["Jan", "Feb", "Mar", "Apr", "May", "Jun", "Jul", "Aug", "Sep", "Oct", "Nov", "Dec"][m - 1]
  }

  /** `DateTimeFormatter.ofPattern("MMM d")`. */
  function FormatMonthDay(d: Date): string
    requires Valid(d)
  {
    MonthShort(d.month) + " " + Digits(d.day)
  }

  /** The weekly breakdown's bucket label: the week's Monday and the Monday
      plus 6 days, joined by an en dash. */
  function WeekLabel(d: Date): string
    requires Valid(d)
  {
    var start := WeekStart(d);
    FormatMonthDay(start) + " \U{2013} " + FormatMonthDay(PlusDays(start, 6))
  }

  /** Dates of the same Monday-to-Sunday week share a label. */
  lemma SameWeekSameLabel(a: Date, b: Date)
    requires Valid(a) && Valid(b) && Ord(a) / 7 == Ord(b) / 7
    ensures WeekLabel(a) == WeekLabel(b)
  {
    SameWeekStart(a, b);
  }

  /** The label of a date, read off the Monday and the Sunday of its week. */
  lemma WeekLabelFrom(d: Date, monday: Date, sunday: Date)
    requires Valid(d) && Valid(monday) && Valid(sunday)
    requires Ord(monday) % 7 == 0 && Ord(monday) <= Ord(d) < Ord(monday) + 7
    requires Ord(sunday) == Ord(monday) + 6
    ensures WeekStart(d) == monday
    ensures WeekLabel(d) == FormatMonthDay(monday) + " \U{2013} " + FormatMonthDay(sunday)
  {
    OrdBounds(monday);
    var q := Ord(monday) / 7;
    DivIsUnique(Ord(d), 7, q, Ord(d) - Ord(monday));
    OrdInjective(WeekStart(d), monday);
    OrdInjective(PlusDays(monday, 6), sunday);
  }
}
