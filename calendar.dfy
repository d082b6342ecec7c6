/**
 * The proleptic Gregorian calendar of Python's `datetime.date`: a date is a
 * (year, month, day) triple; `ToOrdinal` numbers days from 0001-01-01 = 1
 * exactly as `date.toordinal()` does, `FromOrdinal` is its inverse, and
 * `date + timedelta(days=k)` and `(b - a).days` are defined through them.
 */
module Calendar {
  import opened Text
  import opened Wrappers
  import Numeric

  datatype Date = Date(year: int, month: int, day: int)

  predicate IsLeap(y: int) {
    y % 4 == 0 && (y % 100 != 0 || y % 400 == 0)
  }

  function DaysInYear(y: int): (n: int)
    ensures n == 365 || n == 366
  {
    if IsLeap(y) then 366 else 365
  }

  function DaysInMonth(y: int, m: int): (n: int)
    requires 1 <= m <= 12
    ensures 28 <= n <= 31
    ensures n == 29 <==> m == 2 && IsLeap(y)
  {
    if m == 2 then (if IsLeap(y) then 29 else 28)
    else if m == 4 || m == 6 || m == 9 || m == 11 then 30
    else 31
  }

  predicate ValidDate(d: Date) {
    1 <= d.year && 1 <= d.month <= 12 && 1 <= d.day <= DaysInMonth(d.year, d.month)
  }

  /** Days in the years before `y`. */
  function DaysBeforeYear(y: int): (n: int)
    requires y >= 1
    ensures n >= 0
  {
    var x := y - 1;
    365 * x + x / 4 - x / 100 + x / 400
  }

  /** Days in the months of year `y` before month `m` (`m` = 13 gives the whole year). */
  function DaysBeforeMonth(y: int, m: int): (n: int)
    requires 1 <= m <= 13
  {
    var base := [0, 0, 31, 59, 90, 120, 151, 181, 212, 243, 273, 304, 334, 365][m];
    if m > 2 && IsLeap(y) then base + 1 else base
  }

  /** `date.toordinal()`: 0001-01-01 is day 1. */
  function ToOrdinal(d: Date): (n: int)
    requires ValidDate(d)
    ensures n >= 1
  {
    DaysBeforeYear(d.year) + DaysBeforeMonth(d.year, d.month) + d.day
  }

  lemma DivStep4(x: int)
    requires x >= 0
    ensures (x + 1) / 4 == x / 4 + (if (x + 1) % 4 == 0 then 1 else 0)
  {
  }

  lemma DivStep100(x: int)
    requires x >= 0
    ensures (x + 1) / 100 == x / 100 + (if (x + 1) % 100 == 0 then 1 else 0)
  {
  }

  lemma DivStep400(x: int)
    requires x >= 0
    ensures (x + 1) / 400 == x / 400 + (if (x + 1) % 400 == 0 then 1 else 0)
  {
  }

  lemma DaysBeforeYearStep(y: int)
    requires y >= 1
    ensures DaysBeforeYear(y + 1) == DaysBeforeYear(y) + DaysInYear(y)
  {
    var x := y - 1;
    DivStep4(x);
    DivStep100(x);
    DivStep400(x);
    if y % 400 == 0 {
      Centuries(y);
    } else if y % 100 == 0 {
      Leap100(y);
    }
  }

  lemma Centuries(y: int)
    requires y % 400 == 0
    ensures y % 100 == 0 && y % 4 == 0
  {
    var q := y / 400;
    assert y == 100 * (4 * q) && y == 4 * (100 * q);
  }

  lemma Leap100(y: int)
    requires y % 100 == 0
    ensures y % 4 == 0
  {
    var q := y / 100;
    assert y == 4 * (25 * q);
  }

  lemma DaysBeforeMonthStep(y: int, m: int)
    requires 1 <= m <= 12
    ensures DaysBeforeMonth(y, m + 1) == DaysBeforeMonth(y, m) + DaysInMonth(y, m)
  {
  }

  lemma {:induction false} DaysBeforeYearGrows(a: int, b: int)
    requires 1 <= a < b
    ensures DaysBeforeYear(a) + DaysInYear(a) <= DaysBeforeYear(b)
    decreases b - a
  {
    DaysBeforeYearStep(a);
    if a + 1 < b {
      DaysBeforeYearGrows(a + 1, b);
    }
  }

  /** The year containing ordinal day `n`, searched upward from year `y`. */
  function YearOf(n: int, y: int): (r: int)
    requires y >= 1 && DaysBeforeYear(y) < n
    ensures r >= y && DaysBeforeYear(r) < n <= DaysBeforeYear(r) + DaysInYear(r)
    decreases n - DaysBeforeYear(y)
  {
    DaysBeforeYearStep(y);
    if n <= DaysBeforeYear(y) + DaysInYear(y) then y else YearOf(n, y + 1)
  }

  /** The month of year `y` containing day `r` of that year, searched upward from `m`. */
  function MonthOf(y: int, r: int, m: int): (res: int)
    requires 1 <= m <= 12 && DaysBeforeMonth(y, m) < r <= DaysInYear(y)
    ensures m <= res <= 12
    ensures DaysBeforeMonth(y, res) < r <= DaysBeforeMonth(y, res) + DaysInMonth(y, res)
    decreases 12 - m
  {
    DaysBeforeMonthStep(y, m);
    if m == 12 || r <= DaysBeforeMonth(y, m + 1) then m else MonthOf(y, r, m + 1)
  }

  /** `date.fromordinal(n)`. */
  function FromOrdinal(n: int): (d: Date)
    requires n >= 1
    ensures ValidDate(d) && ToOrdinal(d) == n
  {
    var y := YearOf(n, 1);
    var r := n - DaysBeforeYear(y);
    var m := MonthOf(y, r, 1);
    DaysBeforeMonthStep(y, m);
    Date(y, m, r - DaysBeforeMonth(y, m))
  }

  lemma YearUnique(n: int, y: int, z: int)
    requires 1 <= y && 1 <= z
    requires DaysBeforeYear(y) < n <= DaysBeforeYear(y) + DaysInYear(y)
    requires DaysBeforeYear(z) < n <= DaysBeforeYear(z) + DaysInYear(z)
    ensures y == z
  {
    if y < z {
      DaysBeforeYearGrows(y, z);
    } else if z < y {
      DaysBeforeYearGrows(z, y);
    }
  }

  lemma {:induction false} MonthUnique(y: int, r: int, m: int, k: int)
    requires 1 <= m <= 12 && 1 <= k <= 12
    requires DaysBeforeMonth(y, m) < r <= DaysBeforeMonth(y, m) + DaysInMonth(y, m)
    requires DaysBeforeMonth(y, k) < r <= DaysBeforeMonth(y, k) + DaysInMonth(y, k)
    ensures m == k
  {
    if m < k {
      DaysBeforeMonthStep(y, m);
      MonthsGrow(y, m + 1, k);
    } else if k < m {
      DaysBeforeMonthStep(y, k);
      MonthsGrow(y, k + 1, m);
    }
  }

  lemma {:induction false} MonthsGrow(y: int, a: int, b: int)
    requires 1 <= a <= b <= 13
    ensures DaysBeforeMonth(y, a) <= DaysBeforeMonth(y, b)
    decreases b - a
  {
    if a < b {
      DaysBeforeMonthStep(y, a);
      MonthsGrow(y, a + 1, b);
    }
  }

  /** The ordinal numbering is a bijection: going to an ordinal and back is the identity. */
  lemma FromToOrdinal(d: Date)
    requires ValidDate(d)
    ensures FromOrdinal(ToOrdinal(d)) == d
  {
    var n := ToOrdinal(d);
    var e := FromOrdinal(n);
    DaysBeforeMonthStep(d.year, d.month);
    MonthsGrow(d.year, d.month + 1, 13);
    YearUnique(n, d.year, e.year);
    DaysBeforeMonthStep(e.year, e.month);
    MonthUnique(d.year, n - DaysBeforeYear(d.year), d.month, e.month);
  }

  lemma OrdinalInjective(a: Date, b: Date)
    requires ValidDate(a) && ValidDate(b) && ToOrdinal(a) == ToOrdinal(b)
    ensures a == b
  {
    FromToOrdinal(a);
    FromToOrdinal(b);
  }

  /** `d + timedelta(days=k)`. */
  function AddDays(d: Date, k: int): (r: Date)
    requires ValidDate(d) && ToOrdinal(d) + k >= 1
    ensures ValidDate(r) && ToOrdinal(r) == ToOrdinal(d) + k
  {
    FromOrdinal(ToOrdinal(d) + k)
  }

  /** `(b - a).days`. */
  function DaysBetween(a: Date, b: Date): int
    requires ValidDate(a) && ValidDate(b)
  {
    ToOrdinal(b) - ToOrdinal(a)
  }

  /** Chronological order of dates, as Python compares them. */
  predicate Before(a: Date, b: Date)
    requires ValidDate(a) && ValidDate(b)
  {
    ToOrdinal(a) < ToOrdinal(b)
  }

  predicate NotAfter(a: Date, b: Date)
    requires ValidDate(a) && ValidDate(b)
  {
    ToOrdinal(a) <= ToOrdinal(b)
  }

  /** The last day of month `m` is followed by the first day of the next month. */
  lemma EndOfMonthStep(y: int, m: int)
    requires 1 <= y && 1 <= m <= 12
    ensures ToOrdinal(Date(y, m, DaysInMonth(y, m))) + 1
         == (if m == 12 then ToOrdinal(Date(y + 1, 1, 1)) else ToOrdinal(Date(y, m + 1, 1)))
  {
    DaysBeforeMonthStep(y, m);
    if m == 12 {
      DaysBeforeYearStep(y);
    }
  }

  /** Chronological order within one year agrees with (month, day) order. */
  lemma SameYearOrder(a: Date, b: Date)
    requires ValidDate(a) && ValidDate(b) && a.year == b.year
    ensures NotAfter(a, b) <==> (a.month < b.month || (a.month == b.month && a.day <= b.day))
  {
    if a.month < b.month {
      DaysBeforeMonthStep(a.year, a.month);
      MonthsGrow(a.year, a.month + 1, b.month);
    } else if b.month < a.month {
      DaysBeforeMonthStep(b.year, b.month);
      MonthsGrow(b.year, b.month + 1, a.month);
    }
  }

  /** Dates of an earlier year come first. */
  lemma EarlierYearFirst(a: Date, b: Date)
    requires ValidDate(a) && ValidDate(b) && a.year < b.year
    ensures Before(a, b)
  {
    DaysBeforeYearGrows(a.year, b.year);
    DaysBeforeMonthStep(a.year, a.month);
    MonthsGrow(a.year, a.month + 1, 13);
  }

  lemma {:induction false} NatToStringShort(n: nat, w: nat, bound: nat)
    requires w >= 1 && n < bound && bound == Numeric.Pow10(w)
    ensures |NatToString(n)| <= w
  {
    if n >= 10 {
      assert w >= 2;
      NatToStringShort(n / 10, w - 1, Numeric.Pow10(w - 1));
    }
  }

  /** A `datetime` to the minute: its date and the minutes since midnight. */
  datatype Moment = Moment(date: Date, minuteOfDay: int)

  predicate ValidMoment(m: Moment) {
    ValidDate(m.date) && 0 <= m.minuteOfDay < 1440
  }

  /** Minutes elapsed since 0001-01-01 00:00. */
  function MinuteStamp(m: Moment): (t: int)
    requires ValidMoment(m)
    ensures t >= 0
  {
    (ToOrdinal(m.date) - 1) * 1440 + m.minuteOfDay
  }

  /** `m + timedelta(minutes=k)`. */
  function AddMinutes(m: Moment, k: int): (r: Moment)
    requires ValidMoment(m) && MinuteStamp(m) + k >= 0
    ensures ValidMoment(r) && MinuteStamp(r) == MinuteStamp(m) + k
  {
    var t := MinuteStamp(m) + k;
    Moment(FromOrdinal(t / 1440 + 1), t % 1440)
  }

  /** `m + timedelta(minutes=k)`, held at 0001-01-01 00:00 where Python would overflow. */
  function AddMinutesFrom(m: Moment, k: int): (r: Moment)
    requires ValidMoment(m)
    ensures ValidMoment(r)
    ensures MinuteStamp(m) + k >= 0 ==> MinuteStamp(r) == MinuteStamp(m) + k
  {
    if MinuteStamp(m) + k >= 0 then AddMinutes(m, k) else Moment(Date(1, 1, 1), 0)
  }

  /** `d.strftime("%Y-%m-%d")` for a four-digit year. */
  function FormatIso(d: Date): (s: String)
    requires ValidDate(d) && d.year <= 9999
    ensures |s| == 10 && s[4] == '-' && s[7] == '-'
  {
    NatToStringShort(d.year, 4, 10000);
    NatToStringShort(d.month, 2, 100);
    NatToStringShort(d.day, 2, 100);
    ZeroPad(d.year, 4) + "-" + ZeroPad(d.month, 2) + "-" + ZeroPad(d.day, 2)
  }

  /** `datetime.strptime(s, "%Y-%m-%d")` on the ten-character form; `None` where it raises. */
  function ParseIso(s: String): (r: Option<Date>)
    ensures r.Some? ==> ValidDate(r.value)
  {
    if |s| == 10 && s[4] == '-' && s[7] == '-'
       && AllDigits(s[..4]) && AllDigits(s[5..7]) && AllDigits(s[8..])
    then
      var d := Date(DigitsValue(s[..4]), DigitsValue(s[5..7]), DigitsValue(s[8..]));
      if ValidDate(d) then Some(d) else None
    else None
  }

  /** Formatting a date and parsing it back gives the same date. */
  lemma ParseFormatIso(d: Date)
    requires ValidDate(d) && d.year <= 9999
    ensures ParseIso(FormatIso(d)) == Some(d)
  {
    var y, m, dd := ZeroPad(d.year, 4), ZeroPad(d.month, 2), ZeroPad(d.day, 2);
    var s := FormatIso(d);
    assert s[..4] == y && s[5..7] == m && s[8..] == dd;
    ZeroPadValue(d.year, 4);
    ZeroPadValue(d.month, 2);
    ZeroPadValue(d.day, 2);
  }

  /** A calendar month, as `datetime(year, month, 1)` names it. */
  datatype Month = Month(year: int, month: int)

  type YearMonth = mo: Month | 1 <= mo.year && 1 <= mo.month <= 12 witness Month(1, 1)

  function FirstDay(mo: YearMonth): (d: Date)
    ensures ValidDate(d) && d.day == 1
  {
    Date(mo.year, mo.month, 1)
  }

  function LastDay(mo: YearMonth): (d: Date)
    ensures ValidDate(d) && ToOrdinal(d) == ToOrdinal(FirstDay(mo)) + DaysInMonth(mo.year, mo.month) - 1
  {
    Date(mo.year, mo.month, DaysInMonth(mo.year, mo.month))
  }

  /** `d.replace(day=1)`, as a month. */
  function MonthContaining(d: Date): (mo: YearMonth)
    requires ValidDate(d)
    ensures FirstDay(mo) == Date(d.year, d.month, 1)
  {
    Month(d.year, d.month)
  }

  /** The month after `mo`; December rolls over to January of the next year. */
  function NextMonth(mo: YearMonth): YearMonth
  {
    if mo.month == 12 then Month(mo.year + 1, 1) else Month(mo.year, mo.month + 1)
  }

  /** The first day of the next month is the day after the last day of `mo`. */
  lemma NextMonthFollows(mo: YearMonth)
    ensures ToOrdinal(FirstDay(NextMonth(mo))) == ToOrdinal(LastDay(mo)) + 1
  {
    EndOfMonthStep(mo.year, mo.month);
  }

  /** Months counted from year 0, so that consecutive months differ by one. */
  function MonthIndex(mo: YearMonth): int
  {
    mo.year * 12 + mo.month
  }

  lemma NextMonthIndex(mo: YearMonth)
    ensures MonthIndex(NextMonth(mo)) == MonthIndex(mo) + 1
  {
  }

  /** The first of month `mo` is not after `d` exactly when `mo` is not after the month of `d`. */
  lemma FirstDayNotAfter(mo: YearMonth, d: Date)
    requires ValidDate(d)
    ensures NotAfter(FirstDay(mo), d) <==> MonthIndex(mo) <= MonthIndex(MonthContaining(d))
  {
    if mo.year == d.year {
      SameYearOrder(FirstDay(mo), d);
    } else if mo.year < d.year {
      EarlierYearFirst(FirstDay(mo), d);
    } else {
      EarlierYearFirst(d, FirstDay(mo));
    }
  }

  /** Python's largest `datetime` year. */
  const MaxYear: int := 9999

  /** A `datetime` value: a calendar date no later than year 9999. */
  predicate PyDate(d: Date) {
    ValidDate(d) && d.year <= MaxYear
  }

  const LastPyDate: Date := Date(MaxYear, 12, 31)
}
