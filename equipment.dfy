/**
 * `generate_equipment_data`: for every instrument of the equipment list in
 * order, one calibration on the start date and then every `freq_days` days
 * while the scheduled date is not after the end date, numbered by a running
 * `cal_index` across all instruments. Calibration number `i` takes its draws
 * from `draw(i)`.
 */
module Equipment {
  import opened Wrappers
  import opened Numeric
  import opened Text
  import opened Calendar
  import opened Catalog
  import opened Manufacturing

  /** A calibration period in days. */
  type Period = n: nat | n >= 1 witness 1

  /** One entry of the equipment list. */
  datatype Instrument = Instrument(id: String, name: String, kind: String, freqDays: Period, criticality: String)

  const Instruments: seq<Instrument> := [
    Instrument("BAL-001", "Analytical Balance 1", "Balance", 30, "High"),
    Instrument("BAL-002", "Analytical Balance 2", "Balance", 30, "High"),
    Instrument("BAL-003", "Floor Scale", "Balance", 90, "Medium"),
    Instrument("HPLC-01", "HPLC System 1", "Chromatography", 180, "High"),
    Instrument("HPLC-02", "HPLC System 2", "Chromatography", 180, "High"),
    Instrument("DISS-01", "Dissolution Apparatus 1", "Dissolution", 90, "High"),
    Instrument("DISS-02", "Dissolution Apparatus 2", "Dissolution", 90, "High"),
    Instrument("HARD-01", "Hardness Tester 1", "Physical Testing", 30, "Medium"),
    Instrument("HARD-02", "Hardness Tester 2", "Physical Testing", 30, "Medium"),
    Instrument("PH-001", "pH Meter 1", "Electrochemistry", 30, "Medium"),
    Instrument("TEMP-01", "Temperature Probe 1", "Temperature", 365, "High"),
    Instrument("PRESS-A", "Tablet Press A", "Manufacturing", 90, "Critical"),
    Instrument("PRESS-B", "Tablet Press B", "Manufacturing", 90, "Critical")
  ]

  /** Every instrument of the list is calibrated at least every 30 days and at most every 365. */
  lemma FrequenciesPositive()
    ensures forall i :: 0 <= i < |Instruments| ==> 30 <= Instruments[i].freqDays <= 365
  {
  }

  /** The possible delays, in days, of a calibration after its scheduled date. */
  const Delays: seq<int> := [0, 1, 2, 3, 5, 10]

  /** The draws one calibration consumes. */
  datatype CalDraw = CalDraw(delay: nat, found: real, left: real, fail: UnitReal, calibrator: nat, reviewer: nat)

  /** One row of the calibration table. */
  datatype CalRecord = CalRecord(
    calibrationId: String, equipmentId: String, equipmentName: String, equipmentType: String,
    criticality: String, parameter: String,
    scheduledDate: Date, actualDate: Date, nextDueDate: Date,
    asFoundValue: real, asLeftValue: real, deviation: real, tolerance: real,
    outOfTolerance: String, result: String, calibratedBy: String, reviewedBy: String)

  /** The calibration id `CAL-{year}-{index:05d}`. */
  function CalId(year: int, index: nat): String
  {
    "CAL-" + IntToString(year) + "-" + ZeroPad(index, 5)
  }

  /** The analysts who calibrate (`QC_ANALYSTS[:10]`) and those who review (`QC_ANALYSTS[10:20]`). */
  function Calibrators(): seq<String> { QcAnalysts[..10] }
  function Reviewers(): seq<String> { QcAnalysts[10..20] }

  /** The analyst who calibrates and the one who reviews. */
  function Staff(d: CalDraw): (p: (String, String))
    ensures p.0 in Calibrators() && p.1 in Reviewers()
  {
    (Choice(d.calibrator, Calibrators()), Choice(d.reviewer, Reviewers()))
  }

  /** The measured parameter, the two readings and the tolerance of one calibration. */
  datatype Setting = Setting(parameter: String, asFound: real, asLeft: real, tolerance: real)

  /**
   * The parameter and tolerance of a calibration by instrument type: mass
   * accuracy within 0.01 for balances, temperature within 0.5 for
   * temperature probes, a performance check within 5.0 for everything else.
   */
  predicate SettingFor(kind: String, parameter: String, tolerance: real) {
    && (kind == "Balance" ==> parameter == "Mass accuracy" && tolerance == 0.01)
    && (kind == "Temperature" ==> parameter == "Temperature" && tolerance == 0.5)
    && (kind != "Balance" && kind != "Temperature" ==> parameter == "Performance check" && tolerance == 5.0)
  }

  /** Balances read to four decimals, everything else to two. */
  function Places(kind: String): nat
  {
    if kind == "Balance" then 4 else 2
  }

  /** The calibration setting of an instrument type, its readings rounded to the type's decimals. */
  function Setup(kind: String, d: CalDraw): (s: Setting)
    ensures SettingFor(kind, s.parameter, s.tolerance)
    ensures Round(s.asFound, Places(kind)) == s.asFound && Round(s.asLeft, Places(kind)) == s.asLeft
  {
    var raw :=
      if kind == "Balance" then Setting("Mass accuracy", Normal(100.0, 0.005, d.found), Normal(100.0, 0.002, d.left), 0.01)
      else if kind == "Temperature" then Setting("Temperature", Normal(25.0, 0.3, d.found), Normal(25.0, 0.1, d.left), 0.5)
      else Setting("Performance check", Normal(100.0, 2.0, d.found), Normal(100.0, 1.0, d.left), 5.0);
    RoundIdempotent(raw.asFound, Places(kind));
    RoundIdempotent(raw.asLeft, Places(kind));
    raw.(asFound := Round(raw.asFound, Places(kind)), asLeft := Round(raw.asLeft, Places(kind)))
  }

  /** The scheduled, actual and next due dates of one calibration. */
  datatype CalDates = CalDates(scheduled: Date, actual: Date, nextDue: Date)

  /**
   * The dates of a calibration scheduled on ordinal `o`: the actual date is
   * one of the delays after it, the next due date `f` days after that.
   */
  predicate DatesFor(scheduled: Date, actual: Date, nextDue: Date, o: int, f: int) {
    && ValidDate(scheduled) && ToOrdinal(scheduled) == o
    && ValidDate(actual) && ToOrdinal(actual) - o in Delays
    && ValidDate(nextDue) && ToOrdinal(nextDue) == ToOrdinal(actual) + f
  }

  /** The dates of a calibration scheduled on ordinal `o` of an instrument with period `f`. */
  function Timing(o: Ordinal, u: nat, f: Period): (t: CalDates)
    ensures DatesFor(t.scheduled, t.actual, t.nextDue, o, f)
  {
    var scheduled := FromOrdinal(o);
    var actual := AddDays(scheduled, Choice(u, Delays));
    CalDates(scheduled, actual, AddDays(actual, f))
  }

  /** One calibration: the instrument, the ordinal of its scheduled date and its running number. */
  datatype CalSlot = CalSlot(instrument: Instrument, scheduled: Ordinal, index: nat)

  /** What the source promises of every calibration about the slot it was made for. */
  predicate CalFacts(r: CalRecord, s: CalSlot) {
    && DatesFor(r.scheduledDate, r.actualDate, r.nextDueDate, s.scheduled, s.instrument.freqDays)
    && r.calibrationId == CalId(r.scheduledDate.year, s.index)
    && r.equipmentId == s.instrument.id && r.equipmentName == s.instrument.name
    && r.equipmentType == s.instrument.kind && r.criticality == s.instrument.criticality
    && VerdictFor(r.deviation, r.outOfTolerance, r.result, r.asFoundValue, r.asLeftValue, r.tolerance)
    && SettingFor(s.instrument.kind, r.parameter, r.tolerance)
    && r.calibratedBy in Calibrators() && r.reviewedBy in Reviewers()
  }

  /** The record of one calibration; it fails only out of tolerance and on a draw below 0.05. */
  function CalRow(s: CalSlot, d: CalDraw): (r: CalRecord)
    ensures CalFacts(r, s)
    ensures r.result == "Fail" <==> r.outOfTolerance == "Yes" && d.fail < 0.05
  {
    var setting := Setup(s.instrument.kind, d);
    Judged(s, Timing(s.scheduled, d.delay, s.instrument.freqDays), setting, Judge(setting, d.fail), Staff(d))
  }

  /** The deviation of a calibration and its two verdicts. */
  datatype Verdict = Verdict(deviation: real, outOfTolerance: String, result: String)

  /**
   * The verdicts of a calibration with readings `asFound` and `asLeft`: out
   * of tolerance exactly when they differ by more than the tolerance, and
   * failed only when out of tolerance.
   */
  predicate VerdictFor(deviation: real, outOfTolerance: String, result: String, asFound: real, asLeft: real, tolerance: real) {
    && deviation == Round(Abs(asFound - asLeft), 4)
    && (outOfTolerance == "Yes" <==> Abs(asFound - asLeft) > tolerance)
    && (outOfTolerance == "Yes" || outOfTolerance == "No")
    && (result == "Pass" || result == "Fail")
    && (result == "Fail" ==> outOfTolerance == "Yes")
  }

  /** The verdicts of a setting: a failure needs a draw below 0.05 besides being out of tolerance. */
  function Judge(setting: Setting, fail: UnitReal): (v: Verdict)
    ensures VerdictFor(v.deviation, v.outOfTolerance, v.result, setting.asFound, setting.asLeft, setting.tolerance)
    ensures v.result == "Fail" <==> v.outOfTolerance == "Yes" && fail < 0.05
  {
    var deviation := Abs(setting.asFound - setting.asLeft);
    var outOfTolerance := deviation > setting.tolerance;
    Verdict(Round(deviation, 4), if outOfTolerance then "Yes" else "No",
            if outOfTolerance && fail < 0.05 then "Fail" else "Pass")
  }

  /** The record of a calibration from its dates, its setting, its verdicts and its staff. */
  function Judged(s: CalSlot, dates: CalDates, setting: Setting, v: Verdict, staff: (String, String)): (r: CalRecord)
    requires DatesFor(dates.scheduled, dates.actual, dates.nextDue, s.scheduled, s.instrument.freqDays)
    requires SettingFor(s.instrument.kind, setting.parameter, setting.tolerance)
    requires VerdictFor(v.deviation, v.outOfTolerance, v.result, setting.asFound, setting.asLeft, setting.tolerance)
    requires staff.0 in Calibrators() && staff.1 in Reviewers()
    ensures CalFacts(r, s)
    ensures r.result == v.result && r.outOfTolerance == v.outOfTolerance
  {
    CalRecord(
      calibrationId := CalId(dates.scheduled.year, s.index),
      equipmentId := s.instrument.id, equipmentName := s.instrument.name,
      equipmentType := s.instrument.kind, criticality := s.instrument.criticality,
      parameter := setting.parameter,
      scheduledDate := dates.scheduled, actualDate := dates.actual, nextDueDate := dates.nextDue,
      asFoundValue := setting.asFound, asLeftValue := setting.asLeft,
      deviation := v.deviation, tolerance := setting.tolerance,
      outOfTolerance := v.outOfTolerance, result := v.result,
      calibratedBy := staff.0, reviewedBy := staff.1)
  }

  /**
   * The calibrations of one instrument scheduled from ordinal `o` while not
   * after `last`, `freq_days` apart, numbered from `first`.
   */
  function InstrumentSlots(e: Instrument, o: Ordinal, last: int, first: nat): seq<CalSlot>
    decreases last - o
  {
    if o > last then [] else [CalSlot(e, o, first)] + InstrumentSlots(e, o + e.freqDays, last, first + 1)
  }

  /** The calibrations of the first `items` instruments from `o0` to `last`, numbered from 1. */
  function CalPlan(o0: Ordinal, last: int, items: nat): seq<CalSlot>
    requires items <= |Instruments|
  {
    if items == 0 then []
    else
      var before := CalPlan(o0, last, items - 1);
      before + InstrumentSlots(Instruments[items - 1], o0, last, 1 + |before|)
  }

  /** `make` builds every calibration as `CalRow` does. */
  ghost predicate MakesCalibrations(make: CalSlot -> CalRecord, draw: nat -> CalDraw) {
    forall s: CalSlot {:trigger CalRow(s, draw(s.index))} :: make(s) == CalRow(s, draw(s.index))
  }

  function CalMaker(draw: nat -> CalDraw): CalSlot -> CalRecord
  {
    (s: CalSlot) => CalRow(s, draw(s.index))
  }

  lemma CalMakerMakes(draw: nat -> CalDraw)
    ensures MakesCalibrations(CalMaker(draw), draw)
  {
    forall s: CalSlot
      ensures CalMaker(draw)(s) == CalRow(s, draw(s.index))
    {
    }
  }

  /** `generate_equipment_data(start, end)`: the table of the plan. */
  method GenerateEquipment(start: Date, end: Date, draw: nat -> CalDraw) returns (records: seq<CalRecord>)
    requires ValidDate(start) && ValidDate(end)
    ensures records == Rows(CalMaker(draw), CalPlan(ToOrdinal(start), ToOrdinal(end), |Instruments|))
  {
    CalMakerMakes(draw);
    var o0: Ordinal := ToOrdinal(start);
    var last := ToOrdinal(end);
    ghost var make := CalMaker(draw);
    records := [];
    var calIndex := 1;
    var i := 0;
    while i < |Instruments|
      invariant 0 <= i <= |Instruments|
      invariant calIndex == 1 + |records|
      invariant records == Rows(make, CalPlan(o0, last, i))
    {
      var rows, next := CalibrateInstrument(Instruments[i], o0, last, calIndex, draw, make);
      InstrumentStep(make, o0, last, i, records, rows);
      records, calIndex := records + rows, next;
      i := i + 1;
    }
  }

  /** The `while current <= end_date` loop of one instrument, the date held as its ordinal. */
  method CalibrateInstrument(e: Instrument, o0: Ordinal, last: int, first: nat, draw: nat -> CalDraw,
                             ghost make: CalSlot -> CalRecord)
    returns (rows: seq<CalRecord>, next: nat)
    requires MakesCalibrations(make, draw)
    ensures rows == Rows(make, InstrumentSlots(e, o0, last, first))
    ensures next == first + |rows|
  {
    rows := [];
    var calIndex := first;
    var current: Ordinal := o0;
    while current <= last
      invariant calIndex == first + |rows|
      invariant rows + Rows(make, InstrumentSlots(e, current, last, calIndex))
             == Rows(make, InstrumentSlots(e, o0, last, first))
      decreases last - current
    {
      var s := CalSlot(e, current, calIndex);
      var record := Calibrate(s, draw, make);
      CalSlotsStep(make, e, current, last, calIndex, rows);
      rows := rows + [record];
      calIndex := calIndex + 1;
      current := current + e.freqDays;
    }
    next := calIndex;
  }

  /** The body of the inner loop: one calibration. */
  method Calibrate(s: CalSlot, draw: nat -> CalDraw, ghost make: CalSlot -> CalRecord) returns (record: CalRecord)
    requires MakesCalibrations(make, draw)
    ensures record == make(s)
  {
    record := CalRow(s, draw(s.index));
  }

  lemma RowsAppend(make: CalSlot -> CalRecord, a: seq<CalSlot>, b: seq<CalSlot>)
    ensures Rows(make, a + b) == Rows(make, a) + Rows(make, b)
  {
    var l, r := Rows(make, a + b), Rows(make, a) + Rows(make, b);
    forall i | 0 <= i < |l|
      ensures l[i] == r[i]
    {
      if i >= |a| {
        assert (a + b)[i] == b[i - |a|];
      }
    }
  }

  /** Taking the calibration due on `o` moves its record from the rest of the plan to the rows. */
  lemma CalSlotsStep(make: CalSlot -> CalRecord, e: Instrument, o: Ordinal, last: int, index: nat, rows: seq<CalRecord>)
    requires o <= last
    ensures rows + Rows(make, InstrumentSlots(e, o, last, index))
         == (rows + [make(CalSlot(e, o, index))]) + Rows(make, InstrumentSlots(e, o + e.freqDays, last, index + 1))
  {
    var s := CalSlot(e, o, index);
    RowsAppend(make, [s], InstrumentSlots(e, o + e.freqDays, last, index + 1));
  }

  /** One more instrument appends its calibrations. */
  lemma InstrumentStep(make: CalSlot -> CalRecord, o0: Ordinal, last: int, i: nat,
                       records: seq<CalRecord>, rows: seq<CalRecord>)
    requires i < |Instruments|
    requires records == Rows(make, CalPlan(o0, last, i))
    requires rows == Rows(make, InstrumentSlots(Instruments[i], o0, last, 1 + |records|))
    ensures records + rows == Rows(make, CalPlan(o0, last, i + 1))
  {
    RowsAppend(make, CalPlan(o0, last, i), InstrumentSlots(Instruments[i], o0, last, 1 + |records|));
  }

  /**
   * The calibrations of one instrument are numbered consecutively from
   * `first`, all scheduled from `o` to `last`, the first on `o`, each
   * `freq_days` after the one before, and the last less than `freq_days`
   * before `last` is passed: none is skipped.
   */
  lemma {:induction false} InstrumentSchedule(e: Instrument, o: Ordinal, last: int, first: nat)
    ensures |InstrumentSlots(e, o, last, first)| == 0 <==> o > last
    ensures |InstrumentSlots(e, o, last, first)| > 0 ==> InstrumentSlots(e, o, last, first)[0].scheduled == o
    ensures forall k :: 0 <= k < |InstrumentSlots(e, o, last, first)| ==>
      InstrumentSlots(e, o, last, first)[k].index == first + k
      && InstrumentSlots(e, o, last, first)[k].instrument == e
      && o <= InstrumentSlots(e, o, last, first)[k].scheduled <= last
    ensures forall k :: 0 <= k < |InstrumentSlots(e, o, last, first)| - 1 ==>
      InstrumentSlots(e, o, last, first)[k + 1].scheduled == InstrumentSlots(e, o, last, first)[k].scheduled + e.freqDays
    ensures |InstrumentSlots(e, o, last, first)| > 0 ==>
      InstrumentSlots(e, o, last, first)[|InstrumentSlots(e, o, last, first)| - 1].scheduled + e.freqDays > last
    decreases last - o
  {
    if o <= last {
      var rest: seq<CalSlot> := InstrumentSlots(e, o + e.freqDays, last, first + 1);
      InstrumentSchedule(e, o + e.freqDays, last, first + 1);
      var all: seq<CalSlot> := [CalSlot(e, o, first)] + rest;
      assert InstrumentSlots(e, o, last, first) == all;
      forall k | 1 <= k < |all|
        ensures all[k] == rest[k - 1]
      {
      }
    }
  }

  /**
   * Calibration `k` (from 0) of a plan carries number `k + 1`, is one of the
   * list's instruments and is scheduled on a day from `o0` to `last`.
   */
  lemma {:induction false} PlanNumbered(o0: Ordinal, last: int, items: nat)
    requires items <= |Instruments|
    ensures forall k :: 0 <= k < |CalPlan(o0, last, items)| ==>
      CalPlan(o0, last, items)[k].index == k + 1
      && CalPlan(o0, last, items)[k].instrument in Instruments
      && o0 <= CalPlan(o0, last, items)[k].scheduled <= last
  {
    if items > 0 {
      PlanNumbered(o0, last, items - 1);
      var a: seq<CalSlot> := CalPlan(o0, last, items - 1);
      var b: seq<CalSlot> := InstrumentSlots(Instruments[items - 1], o0, last, 1 + |a|);
      InstrumentSchedule(Instruments[items - 1], o0, last, 1 + |a|);
      assert CalPlan(o0, last, items) == a + b;
      forall k | 0 <= k < |a + b|
        ensures (a + b)[k].index == k + 1 && (a + b)[k].instrument in Instruments
          && o0 <= (a + b)[k].scheduled <= last
      {
        if k >= |a| {
          assert (a + b)[k] == b[k - |a|];
        }
      }
    }
  }

  /** The number after the last '-' of calibration id number `index` reads back as `index`. */
  lemma CalIdNumber(year: int, index: nat)
    ensures IdNumber(CalId(year, index)) == index
  {
    PaddedIdNumber("CAL-" + IntToString(year), index, 5);
  }

  /** No calibration is reviewed by the analyst who performed it. */
  lemma CalibratorNotReviewer(r: CalRecord, s: CalSlot)
    requires CalFacts(r, s)
    ensures r.calibratedBy != r.reviewedBy
  {
    NumberedIdsDistinct("QC", 30, 3);
    var i :| 0 <= i < 10 && Calibrators()[i] == r.calibratedBy;
    var j :| 0 <= j < 10 && Reviewers()[j] == r.reviewedBy;
    assert QcAnalysts[i] == r.calibratedBy && QcAnalysts[10 + j] == r.reviewedBy;
  }

  /**
   * Every calibration of the table keeps the per-calibration promises, is
   * scheduled on a day of the call, and calibration `k` (from 0) carries
   * number `k + 1`, so no two calibration ids are equal.
   */
  lemma CalTable(make: CalSlot -> CalRecord, draw: nat -> CalDraw, o0: Ordinal, last: int)
    requires MakesCalibrations(make, draw)
    ensures forall k :: 0 <= k < |CalPlan(o0, last, |Instruments|)| ==>
      CalFacts(Rows(make, CalPlan(o0, last, |Instruments|))[k], CalPlan(o0, last, |Instruments|)[k])
      && o0 <= ToOrdinal(Rows(make, CalPlan(o0, last, |Instruments|))[k].scheduledDate) <= last
      && IdNumber(Rows(make, CalPlan(o0, last, |Instruments|))[k].calibrationId) == k + 1
  {
    var plan := CalPlan(o0, last, |Instruments|);
    var rows := Rows(make, plan);
    PlanNumbered(o0, last, |Instruments|);
    forall k | 0 <= k < |plan|
      ensures CalFacts(rows[k], plan[k]) && o0 <= ToOrdinal(rows[k].scheduledDate) <= last
        && IdNumber(rows[k].calibrationId) == k + 1
    {
      var r := CalRow(plan[k], draw(plan[k].index));
      assert rows[k] == r;
      CalIdNumber(r.scheduledDate.year, plan[k].index);
    }
  }
}
