/**
 * `generate_capa_data`: month by month from the first of the start month
 * while that first day is not after the end date, `int(base_count *
 * capa_rate_modifier)` records per month, with a CAPA counter that runs
 * across the whole call. CAPA number `i` takes its draws from `draw(i)`;
 * "now" is a parameter.
 */
module Capa {
  import opened Wrappers
  import opened Numeric
  import opened Text
  import opened Calendar
  import opened Scenarios
  import opened Catalog

  /** The draws one CAPA consumes; the two Faker sentences enter as text. */
  datatype CapaDraw = CapaDraw(
    openDay: nat, source: nat, sourceNumber: nat, capaType: nat,
    problemCategory: nat, problemStatement: String,
    rootCauseCategory: nat, rootCauseDescription: String,
    rcaMethod: nat, risk: nat, department: nat, owner: nat,
    targetDays: nat, status: nat, completionShift: nat, actions: nat)

  /** One row of the CAPA table. */
  datatype CapaRecord = CapaRecord(
    capaId: String, capaType: String, source: String, sourceReference: String,
    openDate: Date, problemStatement: String, problemCategory: String,
    riskScore: String, rcaMethod: String,
    rootCauseCategory: String, rootCauseDescription: String,
    responsibleDepartment: String, capaOwner: String,
    targetDate: Date, actualCompletionDate: Option<Date>, daysToClose: Option<int>,
    status: String, effectivenessVerified: String, numActions: int)

  const CapaTypes: seq<String> := ["Corrective", "Preventive", "Corrective & Preventive"]
  const ProblemCategories: seq<String> := [
    "Process deviation", "Equipment failure", "Documentation error",
    "Training gap", "Supplier issue", "Environmental excursion"]
  const RcaMethods: seq<String> := ["5 Whys", "Fishbone Diagram", "Fault Tree Analysis", "FMEA"]
  const RiskScores: seq<String> := ["Critical", "High", "Medium", "Low"]
  const Departments: seq<String> := [
    "Manufacturing", "Quality Control", "Quality Assurance", "Warehouse", "Engineering", "Packaging"]

  /** The CAPA id `CAPA-{year}-{index:04d}`. */
  function CapaId(year: int, index: nat): String
  {
    "CAPA-" + IntToString(year) + "-" + ZeroPad(index, 4)
  }

  /** The reference of the record that raised the CAPA, in that record's own id format. */
  function SourceReference(source: String, year: int, u: nat): String
  {
    var y := IntToString(year);
    if source == "Deviation" then "DEV-" + y + "-" + ZeroPad(RandInt(u, 1, 500), 4)
    else if source == "Customer Complaint" then "CMP-" + y + "-" + ZeroPad(RandInt(u, 1, 200), 5)
    else if source == "OOS Investigation" then "OOS-" + y + "-" + ZeroPad(RandInt(u, 1, 100), 3)
    else "REF-" + y + "-" + ZeroPad(RandInt(u, 1, 50), 3)
  }

  /** The statuses of a CAPA closed after more than 120 days. */
  const LateStatuses: seq<String> := ["Closed - Effective", "Closed - Not Effective"]
  /** The statuses after 61 to 120 days. */
  const MiddleStatuses: seq<String> := ["Closed - Effective", "Implementation", "Verification"]
  /** The statuses in the first 60 days. */
  const EarlyStatuses: seq<String> := ["Open", "Implementation", "Root Cause Analysis"]

  /** Every late status is closed (`"Closed" in status`). */
  lemma LateStatusClosed(u: nat)
    ensures Contains(Choice(u, LateStatuses), "Closed")
  {
    if u % 2 == 0 {
      ContainsAt("Closed - Effective", "Closed", 0);
    } else {
      ContainsAt("Closed - Not Effective", "Closed", 0);
    }
  }

  /** Of the middle statuses only the first is closed. */
  lemma MiddleStatusClosed(u: nat)
    ensures Contains(Choice(u, MiddleStatuses), "Closed") <==> u % 3 == 0
  {
    if u % 3 == 0 {
      ContainsAt("Closed - Effective", "Closed", 0);
    } else if u % 3 == 1 {
      NotContains("Implementation", "Closed", 0);
    } else {
      NotContains("Verification", "Closed", 0);
    }
  }

  /** No early status is closed. */
  lemma EarlyStatusOpen(u: nat)
    ensures !Contains(Choice(u, EarlyStatuses), "Closed")
  {
    if u % 3 == 0 {
      NotContains("Open", "Closed", 0);
    } else if u % 3 == 1 {
      NotContains("Implementation", "Closed", 0);
    } else {
      NotContains("Root Cause Analysis", "Closed", 5);
    }
  }

  /** The progress part of a CAPA: status, completion, days to close and verification. */
  datatype Progress = Progress(status: String, completion: Option<Date>, daysToClose: Option<int>,
                               effectivenessVerified: String)

  /** Whatever the status, a completion date exactly for the closed ones, with the days it took. */
  predicate ProgressFacts(p: Progress, open: Date, target: Date)
    requires ValidDate(open) && ValidDate(target)
  {
    && (p.completion.Some? <==> Contains(p.status, "Closed"))
    && (p.daysToClose.Some? <==> p.completion.Some?)
    && (p.completion.Some? ==>
          (ValidDate(p.completion.value)
           && p.daysToClose.value == DaysBetween(open, p.completion.value)
           && -10 <= DaysBetween(target, p.completion.value) <= 30))
    && (p.effectivenessVerified == "Yes" <==> Contains(p.status, "Closed"))
    && (p.effectivenessVerified == "Yes" || p.effectivenessVerified == "Pending")
  }

  /** The status rules, from the days since the CAPA was opened. */
  function ProgressOf(open: Date, target: Date, daysSince: int, d: CapaDraw): (p: Progress)
    requires ValidDate(open) && ValidDate(target) && ToOrdinal(target) > 10
    ensures ProgressFacts(p, open, target)
    ensures daysSince > 120 ==> Contains(p.status, "Closed")
    ensures daysSince <= 60 ==> !Contains(p.status, "Closed")
  {
    if daysSince > 120 then LateProgress(open, target, d)
    else if daysSince > 60 then MiddleProgress(open, target, d)
    else EarlyProgress(d)
  }

  /** More than 120 days open: closed, on a date 10 days before to 30 days after the target. */
  function LateProgress(open: Date, target: Date, d: CapaDraw): (p: Progress)
    requires ValidDate(open) && ValidDate(target) && ToOrdinal(target) > 10
    ensures ProgressFacts(p, open, target) && Contains(p.status, "Closed")
  {
    LateStatusClosed(d.status);
    var done := AddDays(target, RandInt(d.completionShift, -10, 30));
    Progress(Choice(d.status, LateStatuses), Some(done), Some(DaysBetween(open, done)), "Yes")
  }

  /** 61 to 120 days open: closed effective (within 20 days of the target), in implementation or in verification. */
  function MiddleProgress(open: Date, target: Date, d: CapaDraw): (p: Progress)
    requires ValidDate(open) && ValidDate(target) && ToOrdinal(target) > 10
    ensures ProgressFacts(p, open, target)
  {
    MiddleStatusClosed(d.status);
    var status := Choice(d.status, MiddleStatuses);
    if Contains(status, "Closed") then
      var done := AddDays(target, RandInt(d.completionShift, -10, 20));
      Progress(status, Some(done), Some(DaysBetween(open, done)), "Yes")
    else Progress(status, None, None, "Pending")
  }

  /** At most 60 days open: open, in implementation or in root cause analysis. */
  function EarlyProgress(d: CapaDraw): (p: Progress)
    ensures p.completion.None? && p.daysToClose.None? && p.effectivenessVerified == "Pending"
    ensures !Contains(p.status, "Closed")
  {
    EarlyStatusOpen(d.status);
    Progress(Choice(d.status, EarlyStatuses), None, None, "Pending")
  }

  /** CAPA number `index`, opened in month `mo`. */
  datatype CapaSlot = CapaSlot(month: YearMonth, index: nat)

  /** What the source promises of every CAPA record. */
  predicate CapaFacts(c: CapaRecord, s: CapaSlot, now: Date) {
    && ValidDate(c.openDate) && ValidDate(c.targetDate) && ValidDate(now)
    && c.openDate.year == s.month.year && c.openDate.month == s.month.month && 1 <= c.openDate.day <= 28
    && c.capaId == CapaId(s.month.year, s.index)
    && 30 <= DaysBetween(c.openDate, c.targetDate) <= 90
    && ProgressFacts(Progress(c.status, c.actualCompletionDate, c.daysToClose, c.effectivenessVerified),
                     c.openDate, c.targetDate)
    && (DaysBetween(c.openDate, now) > 120 ==> Contains(c.status, "Closed"))
    && (DaysBetween(c.openDate, now) <= 60 ==> !Contains(c.status, "Closed"))
    && 1 <= c.numActions <= 5
  }

  /** One iteration of the inner loop: the CAPA of slot `s`. */
  function Capa(s: CapaSlot, d: CapaDraw, now: Date): (c: CapaRecord)
    requires ValidDate(now)
    ensures CapaFacts(c, s, now)
  {
    var year := s.month.year;
    var open := Date(year, s.month.month, RandInt(d.openDay, 1, 28));
    var target := AddDays(open, RandInt(d.targetDays, 30, 90));
    var source := Choice(d.source, CapaSources);
    var p := ProgressOf(open, target, DaysBetween(open, now), d);
    CapaRecord(
      capaId := CapaId(year, s.index), capaType := Choice(d.capaType, CapaTypes),
      source := source, sourceReference := SourceReference(source, year, d.sourceNumber),
      openDate := open, problemStatement := d.problemStatement,
      problemCategory := Choice(d.problemCategory, ProblemCategories),
      riskScore := Choice(d.risk, RiskScores), rcaMethod := Choice(d.rcaMethod, RcaMethods),
      rootCauseCategory := Choice(d.rootCauseCategory, RootCauseCategories),
      rootCauseDescription := d.rootCauseDescription,
      responsibleDepartment := Choice(d.department, Departments),
      capaOwner := Choice(d.owner, FirstN(Operators, 20)),
      targetDate := target, actualCompletionDate := p.completion, daysToClose := p.daysToClose,
      status := p.status, effectivenessVerified := p.effectivenessVerified,
      numActions := RandInt(d.actions, 1, 5))
  }

  /** `int(base_count * capa_rate_modifier)`, the number of CAPAs opened in `mo` (`range` of a negative is empty). */
  function MonthCount(mo: YearMonth, baseCount: int): nat
  {
    var c := Trunc(baseCount as real * ScenarioAdjustments(FirstDay(mo), None).capaRateModifier);
    if c < 0 then 0 else c
  }

  function MonthCounts(baseCount: int): YearMonth -> nat
  {
    (mo: YearMonth) => MonthCount(mo, baseCount)
  }

  /** `count` gives the number of CAPAs of every month as `MonthCount` does. */
  ghost predicate CountsMonths(count: YearMonth -> nat, baseCount: int) {
    forall mo: YearMonth {:trigger MonthCount(mo, baseCount)} :: count(mo) == MonthCount(mo, baseCount)
  }

  lemma MonthCountsCount(baseCount: int)
    ensures CountsMonths(MonthCounts(baseCount), baseCount)
  {
    forall mo: YearMonth
      ensures MonthCounts(baseCount)(mo) == MonthCount(mo, baseCount)
    {
    }
  }

  /** The slots of one month: CAPA numbers `first` to `first + n - 1`. */
  function MonthSlots(mo: YearMonth, first: nat, n: nat): (slots: seq<CapaSlot>)
    ensures |slots| == n
    ensures forall k :: 0 <= k < n ==> slots[k] == CapaSlot(mo, first + k)
  {
    seq(n, k requires 0 <= k < n => CapaSlot(mo, first + k))
  }

  /**
   * The slots of the months from `mo` to `last`, `count(m)` of them in
   * month `m`, numbered from `first`.
   */
  function CapaPlan(mo: YearMonth, last: YearMonth, count: YearMonth -> nat, first: nat): seq<CapaSlot>
    decreases MonthIndex(last) - MonthIndex(mo)
  {
    if MonthIndex(last) < MonthIndex(mo) then []
    else
      NextMonthIndex(mo);
      MonthSlots(mo, first, count(mo)) + CapaPlan(NextMonth(mo), last, count, first + count(mo))
  }

  /** `make` builds every CAPA as `Capa` does. */
  ghost predicate MakesCapas(make: CapaSlot -> CapaRecord, draw: nat -> CapaDraw, now: Date)
    requires ValidDate(now)
  {
    forall s: CapaSlot {:trigger Capa(s, draw(s.index), now)} :: make(s) == Capa(s, draw(s.index), now)
  }

  function CapaMaker(draw: nat -> CapaDraw, now: Date): CapaSlot -> CapaRecord
    requires ValidDate(now)
  {
    (s: CapaSlot) => Capa(s, draw(s.index), now)
  }

  lemma CapaMakerMakes(draw: nat -> CapaDraw, now: Date)
    requires ValidDate(now)
    ensures MakesCapas(CapaMaker(draw, now), draw, now)
  {
    forall s: CapaSlot
      ensures CapaMaker(draw, now)(s) == Capa(s, draw(s.index), now)
    {
    }
  }

  /**
   * `generate_capa_data(start_date, end_date, base_count)`: the months from
   * the month of `start` to the month of `end`.
   */
  method GenerateCapa(start: Date, end: Date, baseCount: int, draw: nat -> CapaDraw, now: Date)
    returns (records: seq<CapaRecord>)
    requires ValidDate(start) && ValidDate(end) && ValidDate(now)
    ensures records == Rows(CapaMaker(draw, now),
                                CapaPlan(MonthContaining(start), MonthContaining(end), MonthCounts(baseCount), 1))
  {
    CapaMakerMakes(draw, now);
    MonthCountsCount(baseCount);
    records := CapaMonths(MonthContaining(start), end, baseCount, draw, now,
                          MonthCounts(baseCount), CapaMaker(draw, now));
  }

  /**
   * The month loop `while current <= end_date`, for any `count` and `make`
   * that count and build CAPAs as the source does.
   */
  method CapaMonths(start: YearMonth, end: Date, baseCount: int, draw: nat -> CapaDraw, now: Date,
                    ghost count: YearMonth -> nat, ghost make: CapaSlot -> CapaRecord)
    returns (records: seq<CapaRecord>)
    requires ValidDate(end) && ValidDate(now)
    requires CountsMonths(count, baseCount) && MakesCapas(make, draw, now)
    ensures records == Rows(make, CapaPlan(start, MonthContaining(end), count, 1))
  {
    records := [];
    var capaIndex: nat := 1;
    var current := start;
    ghost var last := MonthContaining(end);
    FirstDayNotAfter(current, end);
    while NotAfter(FirstDay(current), end)
      invariant PlanRest(make, start, current, last, count, capaIndex, records)
      invariant NotAfter(FirstDay(current), end) <==> MonthIndex(current) <= MonthIndex(last)
      decreases MonthIndex(last) - MonthIndex(current)
    {
      records, capaIndex, current := OneMonth(start, current, last, baseCount, draw, now, count, make,
                                              records, capaIndex);
      FirstDayNotAfter(current, end);
    }
    PlanDone(make, start, current, last, count, capaIndex, records);
  }

  /** The body of the month loop: the CAPAs of `current`, then the next month. */
  method OneMonth(ghost start: YearMonth, current: YearMonth, ghost last: YearMonth, baseCount: int,
                  draw: nat -> CapaDraw, now: Date, ghost count: YearMonth -> nat, ghost make: CapaSlot -> CapaRecord,
                  records: seq<CapaRecord>, capaIndex: nat)
    returns (records': seq<CapaRecord>, capaIndex': nat, next: YearMonth)
    requires ValidDate(now) && MonthIndex(current) <= MonthIndex(last)
    requires CountsMonths(count, baseCount) && MakesCapas(make, draw, now)
    requires PlanRest(make, start, current, last, count, capaIndex, records)
    ensures PlanRest(make, start, next, last, count, capaIndex', records')
    ensures MonthIndex(next) == MonthIndex(current) + 1
  {
    var monthCapas := MonthCapas(current, baseCount, count);
    var rows := CapaMonth(current, capaIndex, monthCapas, draw, now, make);
    records' := records + rows;
    capaIndex' := capaIndex + monthCapas;
    next := NextMonth(current);
    PlanStep(make, start, current, last, count, capaIndex, records, rows, next, capaIndex');
    NextMonthIndex(current);
  }

  /** The month loop's invariant: the records so far followed by the rest of the plan are the whole table. */
  ghost predicate PlanRest(make: CapaSlot -> CapaRecord, start: YearMonth, mo: YearMonth, last: YearMonth,
                           count: YearMonth -> nat, first: nat, records: seq<CapaRecord>)
  {
    records + Rows(make, CapaPlan(mo, last, count, first)) == Rows(make, CapaPlan(start, last, count, 1))
  }

  lemma PlanDone(make: CapaSlot -> CapaRecord, start: YearMonth, mo: YearMonth, last: YearMonth,
                 count: YearMonth -> nat, first: nat, records: seq<CapaRecord>)
    requires MonthIndex(last) < MonthIndex(mo)
    requires PlanRest(make, start, mo, last, count, first, records)
    ensures records == Rows(make, CapaPlan(start, last, count, 1))
  {
    assert CapaPlan(mo, last, count, first) == [];
    assert records + Rows(make, []) == records;
  }

  /** `int(base_count * adjustments["capa_rate_modifier"])` for the month. */
  method MonthCapas(mo: YearMonth, baseCount: int, ghost count: YearMonth -> nat) returns (n: nat)
    requires CountsMonths(count, baseCount)
    ensures n == count(mo)
  {
    n := MonthCount(mo, baseCount);
  }

  /** One month of the plan followed by the rest: the month loop's invariant is kept. */
  lemma PlanStep(make: CapaSlot -> CapaRecord, start: YearMonth, mo: YearMonth, last: YearMonth,
                 count: YearMonth -> nat, first: nat, records: seq<CapaRecord>,
                 rows: seq<CapaRecord>, next: YearMonth, nextFirst: nat)
    requires MonthIndex(mo) <= MonthIndex(last)
    requires PlanRest(make, start, mo, last, count, first, records)
    requires rows == Rows(make, MonthSlots(mo, first, count(mo)))
    requires next == NextMonth(mo) && nextFirst == first + count(mo)
    ensures PlanRest(make, start, next, last, count, nextFirst, records + rows)
  {
    var a := MonthSlots(mo, first, count(mo));
    var b := CapaPlan(next, last, count, nextFirst);
    PlanUnfold(mo, last, count, first);
    RowsAppend(make, a, b);
    AppendAssoc(records, rows, Rows(make, b));
  }

  lemma AppendAssoc<T>(a: seq<T>, b: seq<T>, c: seq<T>)
    ensures (a + b) + c == a + (b + c)
  {
  }

  lemma PlanUnfold(mo: YearMonth, last: YearMonth, count: YearMonth -> nat, first: nat)
    requires MonthIndex(mo) <= MonthIndex(last)
    ensures CapaPlan(mo, last, count, first)
         == MonthSlots(mo, first, count(mo)) + CapaPlan(NextMonth(mo), last, count, first + count(mo))
  {
  }

  lemma RowsAppend(make: CapaSlot -> CapaRecord, a: seq<CapaSlot>, b: seq<CapaSlot>)
    ensures Rows(make, a + b) == Rows(make, a) + Rows(make, b)
  {
    var l, r := Rows(make, a + b), Rows(make, a) + Rows(make, b);
    assert |l| == |r|;
    forall i | 0 <= i < |l|
      ensures l[i] == r[i]
    {
      if i >= |a| {
        assert (a + b)[i] == b[i - |a|];
      }
    }
  }

  /** The `for _ in range(month_capas)` loop of one month. */
  method CapaMonth(mo: YearMonth, first: nat, n: nat, draw: nat -> CapaDraw, now: Date,
                   ghost make: CapaSlot -> CapaRecord)
    returns (rows: seq<CapaRecord>)
    requires ValidDate(now) && MakesCapas(make, draw, now)
    ensures rows == Rows(make, MonthSlots(mo, first, n))
  {
    rows := [];
    var k := 0;
    while k < n
      invariant 0 <= k <= n
      invariant rows == Rows(make, MonthSlots(mo, first, k))
    {
      var capa := BuildCapa(CapaSlot(mo, first + k), draw, now, make);
      assert MonthSlots(mo, first, k + 1) == MonthSlots(mo, first, k) + [CapaSlot(mo, first + k)];
      rows := rows + [capa];
      k := k + 1;
    }
  }

  /** The body of the inner loop: one CAPA. */
  method BuildCapa(s: CapaSlot, draw: nat -> CapaDraw, now: Date, ghost make: CapaSlot -> CapaRecord)
    returns (capa: CapaRecord)
    requires ValidDate(now) && MakesCapas(make, draw, now)
    ensures capa == make(s)
  {
    capa := Capa(s, draw(s.index), now);
  }

  /**
   * The plan numbers CAPAs consecutively from `first`, and every CAPA opens
   * in a month from `mo` to `last`.
   */
  lemma {:induction false} PlanNumbered(mo: YearMonth, last: YearMonth, count: YearMonth -> nat, first: nat)
    ensures forall k :: 0 <= k < |CapaPlan(mo, last, count, first)| ==>
      CapaPlan(mo, last, count, first)[k].index == first + k
      && MonthIndex(mo) <= MonthIndex(CapaPlan(mo, last, count, first)[k].month) <= MonthIndex(last)
    decreases MonthIndex(last) - MonthIndex(mo)
  {
    if MonthIndex(mo) <= MonthIndex(last) {
      var a: seq<CapaSlot> := MonthSlots(mo, first, count(mo));
      var b: seq<CapaSlot> := CapaPlan(NextMonth(mo), last, count, first + count(mo));
      NextMonthIndex(mo);
      PlanNumbered(NextMonth(mo), last, count, first + count(mo));
      PlanUnfold(mo, last, count, first);
      forall k | 0 <= k < |a + b|
        ensures (a + b)[k].index == first + k
          && MonthIndex(mo) <= MonthIndex((a + b)[k].month) <= MonthIndex(last)
      {
        if k >= |a| {
          assert (a + b)[k] == b[k - |a|];
        }
      }
    }
  }

  /** The number after the last '-' of CAPA id number `index` reads back as `index`. */
  lemma CapaIdNumber(year: int, index: nat)
    ensures IdNumber(CapaId(year, index)) == index
  {
    PaddedIdNumber("CAPA-" + IntToString(year), index, 4);
  }

  /**
   * Every CAPA of the table keeps the per-record promises, and CAPA `k`
   * (from 0) carries number `k + 1`, so no two CAPA ids are equal.
   */
  lemma CapaTable(make: CapaSlot -> CapaRecord, draw: nat -> CapaDraw, now: Date, start: YearMonth, last: YearMonth,
                   count: YearMonth -> nat)
    requires ValidDate(now) && MakesCapas(make, draw, now)
    ensures forall k :: 0 <= k < |CapaPlan(start, last, count, 1)| ==>
      CapaFacts(Rows(make, CapaPlan(start, last, count, 1))[k], CapaPlan(start, last, count, 1)[k], now)
      && IdNumber(Rows(make, CapaPlan(start, last, count, 1))[k].capaId) == k + 1
  {
    var plan := CapaPlan(start, last, count, 1);
    var rows := Rows(make, plan);
    PlanNumbered(start, last, count, 1);
    forall k | 0 <= k < |plan|
      ensures CapaFacts(rows[k], plan[k], now) && IdNumber(rows[k].capaId) == k + 1
    {
      var c := Capa(plan[k], draw(plan[k].index), now);
      assert rows[k] == c;
      CapaIdNumber(plan[k].month.year, plan[k].index);
    }
  }
}
