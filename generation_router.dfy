/**
 * The data-generation endpoints: the catalogue of the nine data types, the
 * validation of requested types, the period of a month, year or custom
 * request, the record-count preview, the archive and file names, and the
 * listing of the hidden scenarios. The generator itself is a parameter
 * standing for `generate_csv_for_period` run in a worker thread; HTTP
 * transport is not modelled, an endpoint returns its response or the
 * `HTTPException` it raises.
 */
module GenerationRouter {
  import opened Wrappers
  import opened Text
  import opened Calendar
  import Numeric
  import Scenarios
  import Catalog
  import Manufacturing
  import Environmental
  import AllData

  /** One entry of `DATA_TYPE_INFO`. */
  datatype DataTypeInfo = DataTypeInfo(name: String, displayName: String, description: String,
                                       approximateColumns: int)

  /** `DATA_TYPE_INFO`, in key order. */
  const DataTypeInfos: seq<DataTypeInfo> := [
    DataTypeInfo("manufacturing", "Manufacturing Batch Records",
                 "Comprehensive manufacturing data with CPPs, IPCs, yields, and equipment tracking", 45),
    DataTypeInfo("qc", "QC Lab Results",
                 "Quality control testing data: assay, dissolution, impurities, microbial", 35),
    DataTypeInfo("complaints", "Customer Complaints",
                 "Customer complaint records with categories, severity, and investigations", 17),
    DataTypeInfo("capa", "CAPA Records",
                 "Corrective and Preventive Action records with root cause analysis", 18),
    DataTypeInfo("environmental", "Environmental Monitoring",
                 "Cleanroom environmental data: particles, viable counts, temperature/humidity", 18),
    DataTypeInfo("equipment", "Equipment Calibration",
                 "Calibration and maintenance records for manufacturing and lab equipment", 17),
    DataTypeInfo("stability", "Stability Studies",
                 "ICH stability testing data: long-term, accelerated, intermediate conditions", 14),
    DataTypeInfo("raw_materials", "Raw Materials",
                 "Material receipt and testing data with supplier information", 15),
    DataTypeInfo("batch_release", "Batch Release",
                 "Batch disposition and QP release decisions", 16)
  ]

  /**
   * `list_data_types`: the nine entries, keyed by exactly the tables the
   * generator produces, in the same order, each named once.
   */
  function ListDataTypes(): (r: seq<DataTypeInfo>)
    ensures |r| == |AllData.DataTypes| == 9
    ensures forall i :: 0 <= i < |r| ==> r[i].name == AllData.DataTypes[i]
    ensures forall i, j :: 0 <= i < j < |r| ==> r[i].name != r[j].name
    ensures forall i :: 0 <= i < |r| ==> r[i].approximateColumns > 0
  {
    DataTypeInfos
  }

  /** `t in DATA_TYPE_INFO`. */
  predicate Known(t: String) {
    t in AllData.DataTypes
  }

  /** What an `HTTPException` raised by these endpoints says. */
  datatype Detail =
    | InvalidTypes(invalid: seq<String>, valid: seq<String>)
    | InvalidType(dataType: String, valid: seq<String>)
    | EndBeforeStart
    | GenerationFailed(cause: Cause)

  /** Why generation failed: the generator raised, or the requested table was missing. */
  datatype Cause = Raised(error: PyError) | MissingBuffer

  datatype HttpException = HttpException(status: int, detail: Detail)

  /** `[t for t in data_types if t not in DATA_TYPE_INFO]`, in request order. */
  function Unknown(ts: seq<String>): (r: seq<String>)
    ensures forall t :: t in r <==> t in ts && !Known(t)
    ensures |r| <= |ts|
    ensures r == [] <==> forall t :: t in ts ==> Known(t)
  {
    if ts == [] then [] else (if Known(ts[0]) then [] else [ts[0]]) + Unknown(ts[1..])
  }

  /**
   * The type check every download and preview endpoint starts with: a 400
   * exactly when some requested type is unknown, listing those types and the
   * valid ones.
   */
  function ValidateTypes(dataTypes: Option<seq<String>>): (r: Option<HttpException>)
    ensures r.Some? <==> dataTypes.Some? && exists t :: t in dataTypes.value && !Known(t)
    ensures r.Some? ==> (&& r.value.status == 400 && r.value.detail.InvalidTypes?
                         && r.value.detail.valid == AllData.DataTypes
                         && (forall t :: t in r.value.detail.invalid <==> t in dataTypes.value && !Known(t)))
  {
    if dataTypes.Some? && dataTypes.value != [] then
      var invalid := Unknown(dataTypes.value);
      if invalid != [] then Some(HttpException(400, InvalidTypes(invalid, AllData.DataTypes))) else None
    else None
  }

  // ---------------------------------------------------------------- periods

  /**
   * `datetime(year, month, 1)` to the day before the first of the next month
   * (January of the next year for December): the whole month.
   */
  function MonthRange(y: int, m: int): (r: (Date, Date))
    requires 1 <= y && 1 <= m <= 12
    ensures r.0 == FirstDay(Month(y, m)) && r.1 == LastDay(Month(y, m))
    ensures r.0.year == r.1.year == y && r.0.month == r.1.month == m
  {
    (Date(y, m, 1), AllData.LastOfMonth(y, m))
  }

  /** Every day from the first to the last of a month lies in that month. */
  lemma MonthRangeDays(y: int, m: int)
    requires 1 <= y && 1 <= m <= 12
    ensures var (start, end) := MonthRange(y, m);
            forall o :: ToOrdinal(start) <= o <= ToOrdinal(end) ==>
              FromOrdinal(o).year == y && FromOrdinal(o).month == m
  {
    var (start, end) := MonthRange(y, m);
    forall o | ToOrdinal(start) <= o <= ToOrdinal(end)
      ensures FromOrdinal(o).year == y && FromOrdinal(o).month == m
    {
      DayOfMonth(Month(y, m), FromOrdinal(o));
    }
  }

  /** The dates from the first to the last day of `mo` are the dates of month `mo`. */
  lemma DayOfMonth(mo: YearMonth, d: Date)
    requires ValidDate(d) && NotAfter(FirstDay(mo), d) && NotAfter(d, LastDay(mo))
    ensures d.year == mo.year && d.month == mo.month
  {
    FirstDayNotAfter(mo, d);
    NextMonthFollows(mo);
    FirstDayNotAfter(NextMonth(mo), d);
    NextMonthIndex(mo);
  }

  /** `datetime(year, 1, 1)` to `datetime(year, 12, 31)`: the whole year. */
  function YearRange(y: int): (r: (Date, Date))
    requires 1 <= y
    ensures r.0 == FirstDay(Month(y, 1)) && r.1 == LastDay(Month(y, 12))
    ensures DaysBetween(r.0, r.1) + 1 == DaysInYear(y)
  {
    (Date(y, 1, 1), Date(y, 12, 31))
  }

  /** The period of a custom request: refused with a 400 when the end comes before the start. */
  function CustomRange(start: Date, end: Date): (r: Result<(Date, Date), HttpException>)
    requires ValidDate(start) && ValidDate(end)
    ensures r.Failure? <==> Before(end, start)
    ensures r.Failure? ==> r.error == HttpException(400, EndBeforeStart)
    ensures r.Success? ==> r.value == (start, end) && NotAfter(r.value.0, r.value.1)
  {
    if Before(end, start) then Failure(HttpException(400, EndBeforeStart)) else Success((start, end))
  }

  /** `datetime.combine(end_date, time(23, 59, 59))`, to the minute. */
  function EndOfDay(d: Date): (m: Moment)
    requires ValidDate(d)
    ensures ValidMoment(m) && m.date == d
  {
    Moment(d, 23 * 60 + 59)
  }

  /**
   * Moving the end to the last minute of its day keeps in the period exactly
   * the days not after the end date: the generators step whole days from
   * midnight, so they visit the same days.
   */
  lemma EndOfDayKeepsDays(d: Date, end: Date)
    requires ValidDate(d) && ValidDate(end)
    ensures MinuteStamp(Moment(d, 0)) <= MinuteStamp(EndOfDay(end)) <==> NotAfter(d, end)
  {
  }

  // ------------------------------------------------------------------ names

  /** `f"{year}_{month:02d}"`. */
  function MonthPrefix(y: nat, m: nat): String
  {
    IntToString(y) + "_" + ZeroPad(m, 2)
  }

  /** `f"{year}_full_year"`. */
  function YearPrefix(y: nat): String
  {
    IntToString(y) + "_full_year"
  }

  /** `f"{start_date}_to_{end_date}"`, where `str` of a date is its ISO form. */
  function CustomPrefix(start: Date, end: Date): (p: String)
    requires PyDate(start) && PyDate(end)
    ensures |p| == 24
  {
    FormatIso(start) + "_to_" + FormatIso(end)
  }

  /** `f"apr_data_{prefix}.zip"`. */
  function ArchiveName(prefix: String): String
  {
    "apr_data_" + prefix + ".zip"
  }

  /** `f"{year}_{month:02d}_{data_type}.csv"`. */
  function SingleFileName(y: nat, m: nat, dataType: String): String
  {
    MonthPrefix(y, m) + "_" + dataType + ".csv"
  }

  /** A lone file is named as its entry in the month's archive would be. */
  lemma SingleFileIsArchiveEntry(y: nat, m: nat, dataType: String)
    ensures SingleFileName(y, m, dataType) == AllData.EntryName(MonthPrefix(y, m), dataType)
  {
  }

  /** `s` cut at the end of its leading digits: the digits, the character there, the rest. */
  function Parts(s: String): (String, char, String)
    requires DigitRun(s) < |s|
  {
    var n := DigitRun(s);
    (s[..n], s[n], s[n + 1..])
  }

  /** Digits followed by a non-digit are cut back at that character. */
  lemma {:induction false} PartsOf(a: String, x: char, b: String)
    requires AllDigits(a) && !IsDigit(x)
    ensures DigitRun(a + [x] + b) == |a|
    ensures Parts(a + [x] + b) == (a, x, b)
    decreases |a|
  {
    var s := a + [x] + b;
    if a != [] {
      assert s[1..] == a[1..] + [x] + b;
      PartsOf(a[1..], x, b);
    }
    assert s[..|a|] == a && s[|a| + 1..] == b;
  }

  /** Different months of different years never share an archive prefix. */
  lemma MonthPrefixInjective(y1: nat, m1: nat, y2: nat, m2: nat)
    requires MonthPrefix(y1, m1) == MonthPrefix(y2, m2)
    ensures y1 == y2 && m1 == m2
  {
    assert MonthPrefix(y1, m1) == NatToString(y1) + ['_'] + ZeroPad(m1, 2);
    assert MonthPrefix(y2, m2) == NatToString(y2) + ['_'] + ZeroPad(m2, 2);
    PartsOf(NatToString(y1), '_', ZeroPad(m1, 2));
    PartsOf(NatToString(y2), '_', ZeroPad(m2, 2));
    NatToStringValue(y1);
    NatToStringValue(y2);
    ZeroPadInjective(m1, m2, 2);
  }

  /** A month's prefix is never a year's: what follows the year is digits in one, a word in the other. */
  lemma MonthYearPrefixesDiffer(y1: nat, m: nat, y2: nat)
    ensures MonthPrefix(y1, m) != YearPrefix(y2)
  {
    assert MonthPrefix(y1, m) == NatToString(y1) + ['_'] + ZeroPad(m, 2);
    assert YearPrefix(y2) == NatToString(y2) + ['_'] + "full_year";
    PartsOf(NatToString(y1), '_', ZeroPad(m, 2));
    PartsOf(NatToString(y2), '_', "full_year");
    assert !IsDigit("full_year"[0]);
  }

  /** A custom range's prefix is never a month's or a year's: its leading digits end at a '-'. */
  lemma CustomPrefixDiffers(start: Date, end: Date, y: nat, m: nat)
    requires PyDate(start) && PyDate(end)
    ensures CustomPrefix(start, end) != MonthPrefix(y, m)
    ensures CustomPrefix(start, end) != YearPrefix(y)
  {
    var rest := ZeroPad(start.month, 2) + "-" + ZeroPad(start.day, 2) + "_to_" + FormatIso(end);
    assert CustomPrefix(start, end) == ZeroPad(start.year, 4) + ['-'] + rest;
    assert MonthPrefix(y, m) == NatToString(y) + ['_'] + ZeroPad(m, 2);
    assert YearPrefix(y) == NatToString(y) + ['_'] + "full_year";
    PartsOf(ZeroPad(start.year, 4), '-', rest);
    PartsOf(NatToString(y), '_', ZeroPad(m, 2));
    PartsOf(NatToString(y), '_', "full_year");
  }

  /** The custom prefix reads back as the two dates it was made from. */
  lemma CustomPrefixReadsBack(start: Date, end: Date)
    requires PyDate(start) && PyDate(end)
    ensures ParseIso(CustomPrefix(start, end)[..10]) == Some(start)
    ensures ParseIso(CustomPrefix(start, end)[14..]) == Some(end)
  {
    var p := CustomPrefix(start, end);
    assert p[..10] == FormatIso(start);
    assert p[14..] == FormatIso(end);
    ParseFormatIso(start);
    ParseFormatIso(end);
  }

  /** Different prefixes give different archive names. */
  lemma ArchiveNameInjective(p: String, q: String)
    requires ArchiveName(p) == ArchiveName(q)
    ensures p == q
  {
    var a := ArchiveName(p);
    assert p == a[9..|a| - 4];
    assert q == a[9..|a| - 4];
  }

  /** Different (year, month, type) requests download differently named files. */
  lemma SingleFileNameInjective(y1: nat, m1: nat, t1: String, y2: nat, m2: nat, t2: String)
    requires 1 <= m1 <= 12 && 1 <= m2 <= 12
    requires SingleFileName(y1, m1, t1) == SingleFileName(y2, m2, t2)
    ensures y1 == y2 && m1 == m2 && t1 == t2
  {
    var s1, s2 := "_" + t1 + ".csv", "_" + t2 + ".csv";
    var r1, r2 := ZeroPad(m1, 2) + s1, ZeroPad(m2, 2) + s2;
    SingleFileNameShape(y1, m1, t1);
    SingleFileNameShape(y2, m2, t2);
    PartsOf(NatToString(y1), '_', r1);
    PartsOf(NatToString(y2), '_', r2);
    NatToStringValue(y1);
    NatToStringValue(y2);
    NatToStringShort(m1, 2, 100);
    NatToStringShort(m2, 2, 100);
    SplitAt(ZeroPad(m1, 2), s1, ZeroPad(m2, 2), s2);
    ZeroPadInjective(m1, m2, 2);
    assert t1 == s1[1..|s1| - 4];
    assert t2 == s2[1..|s2| - 4];
  }

  lemma SingleFileNameShape(y: nat, m: nat, t: String)
    ensures SingleFileName(y, m, t) == NatToString(y) + ['_'] + (ZeroPad(m, 2) + ("_" + t + ".csv"))
  {
  }

  /** Two equal concatenations with equally long heads have equal heads and tails. */
  lemma SplitAt(a: String, b: String, c: String, d: String)
    requires |a| == |c| && a + b == c + d
    ensures a == c && b == d
  {
    assert a == (a + b)[..|a|];
    assert c == (c + d)[..|c|];
    assert b == (a + b)[|a|..];
    assert d == (c + d)[|c|..];
  }

  // ---------------------------------------------------------------- preview

  /**
   * The estimate `preview_month_generation` gives for one type over
   * `days` days; `None` for a name none of its branches tests.
   */
  function Estimate(dataType: String, days: int, batchesPerDay: int): (r: Option<int>)
    ensures r.Some? <==> Known(dataType)
  {
    if dataType == "manufacturing" then Some(days * batchesPerDay)
    else if dataType == "qc" then Some(days * batchesPerDay)
    else if dataType == "complaints" then Some(Numeric.Trunc((days * batchesPerDay) as real * 0.008))
    else if dataType == "capa" then Some(Numeric.Trunc(days as real / 30.0 * 10.0))
    else if dataType == "environmental" then Some(days * 6 * 3)
    else if dataType == "equipment" then Some(Numeric.Trunc(days as real / 30.0 * 13.0))
    else if dataType == "stability" then Some(Numeric.Trunc((days * batchesPerDay) as real / 20.0 * 3.0 * 8.0))
    else if dataType == "raw_materials" then Some(Numeric.Trunc(days as real / 7.0 * 5.0))
    else if dataType == "batch_release" then Some(days * batchesPerDay)
    else None
  }

  /** Truncating an exact quotient of naturals is integer division. */
  lemma TruncQuotient(p: nat, q: nat)
    requires q > 0
    ensures Numeric.Trunc(p as real / q as real) == p / q
  {
    var k := p / q;
    assert k * q <= p < (k + 1) * q;
    CastMul(k, q);
    CastMul(k + 1, q);
    Numeric.DivMonotone(k as real * q as real, p as real, q as real);
    DivStrict(p as real, (k + 1) as real * q as real, q as real);
    assert k as real * q as real / q as real == k as real;
    assert (k + 1) as real * q as real / q as real == (k + 1) as real;
    FloorIs(p as real / q as real, k);
  }

  lemma CastMul(a: int, b: int)
    ensures (a * b) as real == a as real * b as real
  {
  }

  lemma DivStrict(a: real, b: real, p: real)
    requires a < b && p > 0.0
    ensures a / p < b / p
  {
    assert b / p - a / p == (b - a) / p;
  }

  /** An integer `k` with `k <= x < k + 1` is what `int(x)` gives for `x >= 0`. */
  lemma FloorIs(x: real, k: nat)
    requires k as real <= x < k as real + 1.0
    ensures Numeric.Trunc(x) == k
  {
  }

  /** The truncated estimates, as integer divisions of natural numbers. */
  lemma EstimateClosedForm(days: nat, batchesPerDay: nat)
    ensures Estimate("complaints", days, batchesPerDay) == Some(days * batchesPerDay * 8 / 1000)
    ensures Estimate("capa", days, batchesPerDay) == Some(days * 10 / 30)
    ensures Estimate("equipment", days, batchesPerDay) == Some(days * 13 / 30)
    ensures Estimate("stability", days, batchesPerDay) == Some(days * batchesPerDay * 24 / 20)
    ensures Estimate("raw_materials", days, batchesPerDay) == Some(days * 5 / 7)
  {
    ComplaintsEstimate(days, batchesPerDay);
    CapaEstimate(days, batchesPerDay);
    EquipmentEstimate(days, batchesPerDay);
    StabilityEstimate(days, batchesPerDay);
    RawMaterialsEstimate(days, batchesPerDay);
  }

  lemma ComplaintsEstimate(days: nat, batchesPerDay: nat)
    ensures Estimate("complaints", days, batchesPerDay) == Some(days * batchesPerDay * 8 / 1000)
  {
    var n := days * batchesPerDay;
    TruncScaled(n, 8, 1000, n as real * 0.008);
  }

  lemma CapaEstimate(days: nat, batchesPerDay: nat)
    ensures Estimate("capa", days, batchesPerDay) == Some(days * 10 / 30)
  {
    TruncScaled(days, 10, 30, days as real / 30.0 * 10.0);
  }

  lemma EquipmentEstimate(days: nat, batchesPerDay: nat)
    ensures Estimate("equipment", days, batchesPerDay) == Some(days * 13 / 30)
  {
    TruncScaled(days, 13, 30, days as real / 30.0 * 13.0);
  }

  lemma StabilityEstimate(days: nat, batchesPerDay: nat)
    ensures Estimate("stability", days, batchesPerDay) == Some(days * batchesPerDay * 24 / 20)
  {
    var n := days * batchesPerDay;
    TruncScaled(n, 24, 20, n as real / 20.0 * 3.0 * 8.0);
  }

  lemma RawMaterialsEstimate(days: nat, batchesPerDay: nat)
    ensures Estimate("raw_materials", days, batchesPerDay) == Some(days * 5 / 7)
  {
    TruncScaled(days, 5, 7, days as real / 7.0 * 5.0);
  }

  /** `int(x)` of a value `x` equal to `n * c / d` in exact arithmetic. */
  lemma TruncScaled(n: nat, c: nat, d: nat, x: real)
    requires d > 0 && x == (n * c) as real / d as real
    ensures Numeric.Trunc(x) == n * c / d
  {
    TruncQuotient(n * c, d);
  }

  /**
   * Away from the COVID window the manufacturing (and QC, and release)
   * estimate of a month is the size of the production plan the generator
   * follows for it.
   */
  lemma ManufacturingEstimateExact(y: int, m: int, start: Date, end: Date, batchesPerDay: nat, dayDraw: nat -> nat)
    requires 1 <= y && 1 <= m <= 12 && !Scenarios.CovidWindow(Date(y, m, 1))
    requires (start, end) == MonthRange(y, m)
    ensures ValidDate(start) && ValidDate(end)
    ensures Estimate("manufacturing", DaysBetween(start, end) + 1, batchesPerDay)
              == Some(|Manufacturing.Schedule(start, end, batchesPerDay, dayDraw)|)
  {
    NoCovidDayInMonth(y, m);
    PlanEstimate(start, end, DaysBetween(start, end) + 1, batchesPerDay, dayDraw);
  }

  /** Away from the COVID window the manufacturing estimate of `days` days is the plan's size. */
  lemma PlanEstimate(start: Date, end: Date, days: nat, batchesPerDay: nat, dayDraw: nat -> nat)
    requires ValidDate(start) && ValidDate(end) && Manufacturing.NoCovidDay(start, end)
    requires days == DaysBetween(start, end) + 1
    ensures Estimate("manufacturing", days, batchesPerDay) == Some(|Manufacturing.Schedule(start, end, batchesPerDay, dayDraw)|)
  {
    PlanOfDays(start, end, days, batchesPerDay, dayDraw);
    EstimatePerDay(days, batchesPerDay);
  }

  /** A plan of `days` days away from the COVID window has `days` times the daily batches. */
  lemma PlanOfDays(start: Date, end: Date, days: nat, batchesPerDay: nat, dayDraw: nat -> nat)
    requires ValidDate(start) && ValidDate(end) && Manufacturing.NoCovidDay(start, end)
    requires days == DaysBetween(start, end) + 1
    ensures |Manufacturing.Schedule(start, end, batchesPerDay, dayDraw)| == days * batchesPerDay
  {
    Manufacturing.ScheduleSize(start, end, batchesPerDay, dayDraw);
    var n := Manufacturing.DayTotal(start, end);
    assert n == days;
    SameProduct(n, days, batchesPerDay);
  }

  lemma SameProduct(a: int, b: int, c: int)
    requires a == b
    ensures a * c == b * c
  {
  }

  /** The COVID window is made of whole months, so a month outside it has no day in it. */
  lemma NoCovidDayInMonth(y: int, m: int)
    requires 1 <= y && 1 <= m <= 12 && !Scenarios.CovidWindow(Date(y, m, 1))
    ensures var (start, end) := MonthRange(y, m);
            Manufacturing.NoCovidDay(start, end)
  {
    var (start, end) := MonthRange(y, m);
    MonthRangeDays(y, m);
    forall o | ToOrdinal(start) <= o <= ToOrdinal(end)
      ensures !Scenarios.CovidWindow(FromOrdinal(o))
    {
      assert FromOrdinal(o).year == y && FromOrdinal(o).month == m;
    }
  }

  /** The branches that estimate a fixed number of records a day. */
  lemma EstimatePerDay(days: int, batchesPerDay: int)
    ensures Estimate("manufacturing", days, batchesPerDay) == Some(days * batchesPerDay)
    ensures Estimate("environmental", days, batchesPerDay) == Some(days * 18)
  {
  }

  /** The environmental estimate is the number of readings the generator plans, in every month. */
  lemma EnvironmentalEstimateExact(y: int, m: int, start: Date, end: Date, batchesPerDay: int)
    requires 1 <= y && 1 <= m <= 12
    requires (start, end) == MonthRange(y, m)
    ensures ValidDate(start) && ValidDate(end)
    ensures Estimate("environmental", DaysBetween(start, end) + 1, batchesPerDay)
              == Some(|Environmental.EnvPlan(ToOrdinal(start), Manufacturing.DayTotal(start, end),
                                             Environmental.Readings(AllData.ReadingsPerDay))|)
  {
    MonthRangeOrdered(y, m);
    EnvEstimate(start, end, batchesPerDay);
  }

  /** A month's first day comes no later than its last. */
  lemma MonthRangeOrdered(y: int, m: int)
    requires 1 <= y && 1 <= m <= 12
    ensures var (start, end) := MonthRange(y, m);
            ValidDate(start) && ValidDate(end) && !Before(end, start)
  {
    var (start, end) := MonthRange(y, m);
    assert DaysInMonth(y, m) >= 28;
  }

  /** The environmental estimate of a period that does not end before it starts is the plan's size. */
  lemma EnvEstimate(start: Date, end: Date, batchesPerDay: int)
    requires ValidDate(start) && ValidDate(end) && !Before(end, start)
    ensures Estimate("environmental", DaysBetween(start, end) + 1, batchesPerDay)
              == Some(|Environmental.EnvPlan(ToOrdinal(start), Manufacturing.DayTotal(start, end),
                                             Environmental.Readings(AllData.ReadingsPerDay))|)
  {
    var days := Manufacturing.DayTotal(start, end);
    ReadingsOfDays(ToOrdinal(start), days);
    EstimatePerDay(days, batchesPerDay);
  }

  /** The environmental plan has eighteen readings a day: three in each of six rooms. */
  lemma ReadingsOfDays(o0: Manufacturing.Ordinal, days: nat)
    ensures |Environmental.EnvPlan(o0, days, Environmental.Readings(AllData.ReadingsPerDay))| == days * 18
  {
    assert |Catalog.Cleanrooms| == 6;
    assert Environmental.PerDay(Environmental.Readings(AllData.ReadingsPerDay)) == 18;
  }

  /** The types a preview covers: the requested ones, or all nine when none (or an empty list) is given. */
  function PreviewTypes(dataTypes: Option<seq<String>>): (r: seq<String>)
    ensures dataTypes.Some? && dataTypes.value != [] ==> r == dataTypes.value
    ensures dataTypes.None? || dataTypes.value == [] ==> r == AllData.DataTypes
  {
    if dataTypes.Some? && dataTypes.value != [] then dataTypes.value else AllData.DataTypes
  }

  /** The `total_records` loop: each type with an estimate gets one; a repeated type is set again. */
  method PreviewCounts(types: seq<String>, days: int, batchesPerDay: int) returns (counts: map<String, int>)
    ensures forall t :: t in counts <==> t in types && Known(t)
    ensures forall t :: t in counts ==> Some(counts[t]) == Estimate(t, days, batchesPerDay)
  {
    counts := map[];
    var i := 0;
    while i < |types|
      invariant 0 <= i <= |types|
      invariant forall t :: t in counts <==> t in types[..i] && Known(t)
      invariant forall t :: t in counts ==> Some(counts[t]) == Estimate(t, days, batchesPerDay)
    {
      var e := Estimate(types[i], days, batchesPerDay);
      if e.Some? {
        counts := counts[types[i] := e.value];
      }
      assert types[..i + 1] == types[..i] + [types[i]];
      i := i + 1;
    }
    assert types[..i] == types;
  }

  /** `f"{dt}.csv"` for every previewed type, in order. */
  function PreviewFiles(types: seq<String>): (files: seq<String>)
    ensures |files| == |types|
    ensures forall i :: 0 <= i < |types| ==> files[i] == types[i] + ".csv"
  {
    seq(|types|, i requires 0 <= i < |types| => types[i] + ".csv")
  }

  /** A month or year request, as the request model admits it. */
  datatype MonthRequest = MonthRequest(year: int, month: int, batchesPerDay: int, dataTypes: Option<seq<String>>)
  datatype YearRequest = YearRequest(year: int, batchesPerDay: int, dataTypes: Option<seq<String>>)
  datatype CustomRequest = CustomRequest(startDate: Date, endDate: Date, batchesPerDay: int,
                                         dataTypes: Option<seq<String>>)

  predicate ValidMonthRequest(r: MonthRequest) {
    2020 <= r.year <= 2030 && 1 <= r.month <= 12 && 1 <= r.batchesPerDay <= 100
  }

  predicate ValidYearRequest(r: YearRequest) {
    2020 <= r.year <= 2030 && 1 <= r.batchesPerDay <= 100
  }

  predicate ValidCustomRequest(r: CustomRequest) {
    PyDate(r.startDate) && PyDate(r.endDate) && 1 <= r.batchesPerDay <= 100
  }

  /** The ISO texts of a month's bounds read back as its first and last day. */
  lemma MonthRangeIso(y: int, m: int, start: Date, end: Date)
    requires 1 <= y <= 9999 && 1 <= m <= 12
    requires (start, end) == MonthRange(y, m)
    ensures ValidDate(start) && ValidDate(end) && start.year <= 9999 && end.year <= 9999
    ensures ParseIso(FormatIso(start)) == Some(FirstDay(Month(y, m)))
    ensures ParseIso(FormatIso(end)) == Some(LastDay(Month(y, m)))
  {
    ParseFormatIso(start);
    ParseFormatIso(end);
  }

  /** The `GenerationResponse` of a preview; `success` is always true. */
  datatype Preview = Preview(message: String, filesGenerated: seq<String>, totalRecords: map<String, int>,
                             periodStart: String, periodEnd: String)

  /**
   * `preview_month_generation`: refused as the downloads are, otherwise one
   * file and one estimate per covered type, over the days of the month.
   */
  method PreviewMonth(req: MonthRequest) returns (r: Result<Preview, HttpException>)
    requires ValidMonthRequest(req)
    ensures r.Failure? <==> ValidateTypes(req.dataTypes).Some?
    ensures r.Failure? ==> r.error == ValidateTypes(req.dataTypes).value
    ensures r.Success? ==>
      var types := PreviewTypes(req.dataTypes);
      var days := DaysInMonth(req.year, req.month);
      && r.value.filesGenerated == PreviewFiles(types)
      && (forall t :: t in r.value.totalRecords <==> t in types)
      && (forall t :: t in r.value.totalRecords ==> Some(r.value.totalRecords[t]) == Estimate(t, days, req.batchesPerDay))
      && ParseIso(r.value.periodStart) == Some(FirstDay(Month(req.year, req.month)))
      && ParseIso(r.value.periodEnd) == Some(LastDay(Month(req.year, req.month)))
      && r.value.message == "Preview for " + IntToString(req.month) + "/" + IntToString(req.year)
  {
    var invalid := ValidateTypes(req.dataTypes);
    if invalid.Some? {
      return Failure(invalid.value);
    }
    var (start, end) := MonthRange(req.year, req.month);
    var days := DaysBetween(start, end) + 1;
    var types := PreviewTypes(req.dataTypes);
    var counts := PreviewCounts(types, days, req.batchesPerDay);
    MonthRangeIso(req.year, req.month, start, end);
    r := Success(Preview("Preview for " + IntToString(req.month) + "/" + IntToString(req.year),
                         PreviewFiles(types), counts, FormatIso(start), FormatIso(end)));
  }

  // -------------------------------------------------------------- downloads

  /** `generate_csv_for_period(start, end, data_types, batches_per_day)` run in a worker. */
  type Generator = (Date, Date, int, Option<seq<String>>) -> Result<seq<(String, AllData.Table)>, PyError>

  /** A ZIP download: its file name and its entries. */
  datatype Archive = Archive(fileName: String, entries: seq<(String, AllData.Table)>)

  /** A single CSV download: its file name and its table. */
  datatype CsvFile = CsvFile(fileName: String, table: AllData.Table)

  /** `entries` are the buffers under the archive's entry names, in order. */
  predicate Packed(entries: seq<(String, AllData.Table)>, buffers: seq<(String, AllData.Table)>, prefix: String) {
    && |entries| == |buffers|
    && forall i :: 0 <= i < |buffers| ==> entries[i] == (AllData.EntryName(prefix, buffers[i].0), buffers[i].1)
  }

  /** The response to a generator outcome: a 500 naming the error, or the archive under `prefix`. */
  predicate Served(r: Result<Archive, HttpException>, g: Result<seq<(String, AllData.Table)>, PyError>, prefix: String) {
    && (g.Failure? ==> r == Failure(HttpException(500, GenerationFailed(Raised(g.error)))))
    && (g.Success? ==> r.Success? && r.value.fileName == ArchiveName(prefix) && Packed(r.value.entries, g.value, prefix))
  }

  /** The `try` block every download endpoint shares. */
  method Download(start: Date, end: Date, batchesPerDay: int, dataTypes: Option<seq<String>>, prefix: String,
                  generate: Generator)
    returns (r: Result<Archive, HttpException>)
    ensures Served(r, generate(start, end, batchesPerDay, dataTypes), prefix)
  {
    var buffers := generate(start, end, batchesPerDay, dataTypes);
    if buffers.Failure? {
      return Failure(HttpException(500, GenerationFailed(Raised(buffers.error))));
    }
    var entries := AllData.CreateZipArchive(buffers.value, prefix);
    r := Success(Archive(ArchiveName(prefix), entries));
  }

  /** `generate_and_download_month`. */
  method DownloadMonth(req: MonthRequest, generate: Generator) returns (r: Result<Archive, HttpException>)
    requires ValidMonthRequest(req)
    ensures ValidateTypes(req.dataTypes).Some? ==> r == Failure(ValidateTypes(req.dataTypes).value)
    ensures ValidateTypes(req.dataTypes).None? ==>
      var (start, end) := MonthRange(req.year, req.month);
      Served(r, generate(start, end, req.batchesPerDay, req.dataTypes), MonthPrefix(req.year, req.month))
  {
    var invalid := ValidateTypes(req.dataTypes);
    if invalid.Some? {
      return Failure(invalid.value);
    }
    var (start, end) := MonthRange(req.year, req.month);
    r := Download(start, end, req.batchesPerDay, req.dataTypes, MonthPrefix(req.year, req.month), generate);
  }

  /** `generate_and_download_year`. */
  method DownloadYear(req: YearRequest, generate: Generator) returns (r: Result<Archive, HttpException>)
    requires ValidYearRequest(req)
    ensures ValidateTypes(req.dataTypes).Some? ==> r == Failure(ValidateTypes(req.dataTypes).value)
    ensures ValidateTypes(req.dataTypes).None? ==>
      var (start, end) := YearRange(req.year);
      Served(r, generate(start, end, req.batchesPerDay, req.dataTypes), YearPrefix(req.year))
  {
    var invalid := ValidateTypes(req.dataTypes);
    if invalid.Some? {
      return Failure(invalid.value);
    }
    var (start, end) := YearRange(req.year);
    r := Download(start, end, req.batchesPerDay, req.dataTypes, YearPrefix(req.year), generate);
  }

  /** `generate_and_download_custom`: the dates are checked before the types. */
  method DownloadCustom(req: CustomRequest, generate: Generator) returns (r: Result<Archive, HttpException>)
    requires ValidCustomRequest(req)
    ensures Before(req.endDate, req.startDate) ==> r == Failure(HttpException(400, EndBeforeStart))
    ensures !Before(req.endDate, req.startDate) && ValidateTypes(req.dataTypes).Some? ==>
              r == Failure(ValidateTypes(req.dataTypes).value)
    ensures !Before(req.endDate, req.startDate) && ValidateTypes(req.dataTypes).None? ==>
              Served(r, generate(req.startDate, req.endDate, req.batchesPerDay, req.dataTypes),
                     CustomPrefix(req.startDate, req.endDate))
  {
    var range := CustomRange(req.startDate, req.endDate);
    if range.Failure? {
      return Failure(range.error);
    }
    var invalid := ValidateTypes(req.dataTypes);
    if invalid.Some? {
      return Failure(invalid.value);
    }
    r := Download(req.startDate, req.endDate, req.batchesPerDay, req.dataTypes,
                  CustomPrefix(req.startDate, req.endDate), generate);
  }

  /** `csv_buffers.get(key)` on the buffers held as a list of items. */
  function Lookup(buffers: seq<(String, AllData.Table)>, key: String): (r: Option<AllData.Table>)
    ensures r.Some? <==> exists i :: 0 <= i < |buffers| && buffers[i].0 == key
    ensures r.Some? ==> exists i :: 0 <= i < |buffers| && buffers[i] == (key, r.value)
  {
    if buffers == [] then None
    else if buffers[0].0 == key then Some(buffers[0].1)
    else
      var rest := Lookup(buffers[1..], key);
      assert forall i :: 1 <= i < |buffers| ==> buffers[i] == buffers[1..][i - 1];
      rest
  }

  /**
   * `generate_single_data_type`: an unknown type is refused with a 400
   * before anything is generated; a generator error, or no table for the
   * type, is a 500; otherwise the one table under its file name.
   */
  method DownloadSingle(dataType: String, year: int, month: int, batchesPerDay: int, generate: Generator)
    returns (r: Result<CsvFile, HttpException>)
    requires 2020 <= year <= 2030 && 1 <= month <= 12 && 1 <= batchesPerDay <= 100
    ensures !Known(dataType) ==> r == Failure(HttpException(400, InvalidType(dataType, AllData.DataTypes)))
    ensures Known(dataType) ==>
      var (start, end) := MonthRange(year, month);
      var g := generate(start, end, batchesPerDay, Some([dataType]));
      && (g.Failure? ==> r == Failure(HttpException(500, GenerationFailed(Raised(g.error)))))
      && (g.Success? && Lookup(g.value, dataType).None? ==> r == Failure(HttpException(500, GenerationFailed(MissingBuffer))))
      && (g.Success? && Lookup(g.value, dataType).Some? ==>
            r == Success(CsvFile(SingleFileName(year, month, dataType), Lookup(g.value, dataType).value)))
  {
    if !Known(dataType) {
      return Failure(HttpException(400, InvalidType(dataType, AllData.DataTypes)));
    }
    var (start, end) := MonthRange(year, month);
    var buffers := generate(start, end, batchesPerDay, Some([dataType]));
    if buffers.Failure? {
      return Failure(HttpException(500, GenerationFailed(Raised(buffers.error))));
    }
    var buffer := Lookup(buffers.value, dataType);
    if buffer.None? {
      return Failure(HttpException(500, GenerationFailed(MissingBuffer)));
    }
    r := Success(CsvFile(SingleFileName(year, month, dataType), buffer.value));
  }

  /**
   * Asking the generator's full output for one known type keeps that
   * type's table, so the single download never reports a missing buffer
   * when generation succeeds.
   */
  lemma SingleTypeKept(t: seq<(String, AllData.Table)>, dataType: String)
    requires AllData.Keys(t) == AllData.DataTypes && Known(dataType)
    ensures Lookup(AllData.Select(t, Some([dataType])), dataType).Some?
  {
    var i :| 0 <= i < |AllData.DataTypes| && AllData.DataTypes[i] == dataType;
    assert t[i].0 == AllData.Keys(t)[i] == dataType;
    AllData.SelectedKeys(t, Some([dataType]));
    SelectKeeps(t, Some([dataType]), i);
  }

  /** A wanted table survives selection. */
  lemma {:induction false} SelectKeeps(t: seq<(String, AllData.Table)>, dataTypes: Option<seq<String>>, i: int)
    requires 0 <= i < |t| && AllData.Wanted(t[i].0, dataTypes)
    ensures t[i] in AllData.Select(t, dataTypes)
    decreases |t|
  {
    if i > 0 {
      SelectKeeps(t[1..], dataTypes, i - 1);
      assert t[1..][i - 1] == t[i];
    }
  }

  // -------------------------------------------------------------- scenarios

  /** One entry of the hidden-scenario listing. */
  datatype ScenarioInfo = ScenarioInfo(period: String, scenario: String, effects: seq<String>,
                                       dataTypesAffected: seq<String>)

  datatype ScenarioListing = ScenarioListing(totalScenarios: int, scenarios: seq<ScenarioInfo>, note: String)

  const ListedScenarios: seq<ScenarioInfo> := [
    ScenarioInfo("March-May 2020", "COVID-19 Disruption",
                 ["Reduced batch production (10-15/day)", "Lower yields (-2%)", "Staffing challenges"],
                 ["manufacturing", "complaints"]),
    ScenarioInfo("September-November 2021", "Press-A Degradation",
                 ["Gradual hardness drift", "Compression force variation", "Increased friability"],
                 ["manufacturing", "qc"]),
    ScenarioInfo("June 2022", "MCC Excipient Issue",
                 ["Dissolution drop (-5%)", "50% more complaints", "Supplier investigation"],
                 ["qc", "complaints", "capa"]),
    ScenarioInfo("Q2 2023", "Lab Method Transition",
                 ["Assay bias (+1.5%)", "Method validation period", "Increased variability"],
                 ["qc"]),
    ScenarioInfo("July-August 2024", "Summer Heat Effect",
                 ["Elevated inlet air temps", "Humidity excursions", "Environmental alerts"],
                 ["manufacturing", "environmental"]),
    ScenarioInfo("August 2025 (days 1-15)", "Press-B Drift",
                 ["Hardness increase (+1.5N)", "Dissolution drop (-8%)", "OOS investigations"],
                 ["manufacturing", "qc", "capa"]),
    ScenarioInfo("November-December 2025", "New API Supplier",
                 ["Yield adjustment (-1%)", "30% more CAPAs", "Process optimization needed"],
                 ["manufacturing", "capa"])
  ]

  const ScenarioNote: String :=
    "These scenarios are embedded deterministically based on the seed. Same date range will always produce same anomalies."

  /**
   * `list_hidden_scenarios`: seven distinct scenarios, counted by
   * `total_scenarios`, each with three effects and only known data types.
   */
  function ListScenarios(): (r: ScenarioListing)
    ensures r.totalScenarios == |r.scenarios| == 7
    ensures forall i, j :: 0 <= i < j < |r.scenarios| ==> r.scenarios[i].scenario != r.scenarios[j].scenario
    ensures forall s :: s in r.scenarios ==> |s.effects| == 3 && s.dataTypesAffected != []
    ensures forall s, t :: s in r.scenarios && t in s.dataTypesAffected ==> Known(t)
  {
    ScenarioListing(|ListedScenarios|, ListedScenarios, ScenarioNote)
  }

  /** The months each listed period names: (year, first month, last month). */
  const ListedMonths: seq<(int, int, int)> :=
    [(2020, 3, 5), (2021, 9, 11), (2022, 6, 6), (2023, 4, 6), (2024, 7, 8), (2025, 8, 8), (2025, 11, 12)]

  /** The generator's window for listed scenario `k`. */
  predicate Window(k: int, d: Date)
    requires 0 <= k < 7
  {
    match k
    case 0 => Scenarios.CovidWindow(d)
    case 1 => Scenarios.PressAWindow(d)
    case 2 => Scenarios.MccWindow(d)
    case 3 => Scenarios.MethodWindow(d)
    case 4 => Scenarios.SummerWindow(d)
    case 5 => Scenarios.PressBWindow(d)
    case _ => Scenarios.SupplierWindow(d)
  }

  /**
   * Every listed period is exactly the months in which the generator applies that
   * scenario's label. For the Press-B drift the label covers all of August 2025,
   * while its hardness and dissolution effects apply to Press-B on days 1 to 15 only.
   */
  lemma ListedPeriodsAreWindows(k: int, d: Date)
    requires 0 <= k < 7
    ensures var (y, lo, hi) := ListedMonths[k];
            (d.year == y && lo <= d.month <= hi) <==> Window(k, d)
  {
  }
}
