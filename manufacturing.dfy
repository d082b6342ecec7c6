/**
 * `generate_manufacturing_data`: one record per batch, day by day from the
 * start date to the end date, with a batch counter that runs across the
 * whole call. Every random draw of a batch comes from `draw(batchIndex)`,
 * and the COVID-period daily count from `dayDraw(dayNumber)`.
 */
module Manufacturing {
  import opened Wrappers
  import opened Numeric
  import opened Text
  import opened Calendar
  import opened Scenarios
  import opened Catalog

  /** The draws one batch consumes: choice indexes, integer draws and standard normal / exponential / uniform values. */
  datatype BatchDraw = BatchDraw(
    shift: nat, startHour: nat, startMinute: nat,
    press: nat, granulator: nat, dryer: nat, blender: nat,
    operatorPrimary: nat, operatorSecondary: nat,
    api: real, excipient: real,
    mixingTime: real, binderVolume: real, granulationTemp: real,
    inletAir: real, outletAir: real, dryingTime: real, moisture: real,
    inletAirSummer: real, outletAirSummer: real,
    compressionMain: real, compressionPre: real, turretSpeed: real,
    tabletWeight: real, tabletThickness: real, tabletHardness: real,
    friability: NonNegReal, disintegration: real,
    yieldPct: real, rejects: NonNegReal, rejectReason: nat,
    deviation: UnitReal, deviationNumber: nat, deviationType: nat,
    roomTemp: real, roomHumidity: real, diffPressure: real, processTime: real)

  /** One row of the manufacturing table (45 columns). */
  datatype BatchRecord = BatchRecord(
    batchId: String, productName: String, productCode: String, batchSizeKg: real,
    manufacturingDate: Date, manufacturingStart: Moment, manufacturingEnd: Moment,
    shift: String, processTimeHours: real,
    operatorPrimary: String, operatorSecondary: String,
    tabletPressId: String, granulatorId: String, dryerId: String, blenderId: String,
    apiWeightKg: real, excipientWeightKg: real,
    granulationMixingTimeMin: real, binderVolumeMl: real, granulationTempC: real,
    inletAirTempC: real, outletAirTempC: real, dryingTimeMin: real, moistureContentPct: real,
    compressionForceMainKn: real, compressionForcePreKn: real, turretSpeedRpm: real,
    tabletWeightMg: real, tabletThicknessMm: real, tabletHardnessN: real,
    friabilityPct: real, disintegrationTimeMin: real,
    theoreticalYieldTablets: int, actualYieldTablets: int, yieldPercent: real,
    rejectCount: int, rejectReason: String,
    hasDeviation: String, deviationId: String, deviationType: String,
    roomTempC: real, roomHumidityPct: real, differentialPressurePa: real,
    batchStatus: String, releaseStatus: String)

  const Shifts: seq<String> := ["Day", "Evening", "Night"]
  const RejectReasons: seq<String> := ["Weight", "Capping", "Sticking", "Chipping", "None"]
  const DeviationTypes: seq<String> := ["Process", "Equipment", "Material", "Documentation"]

  /** `f"{prefix}-{str(year)[-2:]}-{index:05d}"`. */
  function BatchId(prefix: String, year: int, index: nat): String
  {
    prefix + "-" + LastN(IntToString(year), 2) + "-" + ZeroPad(index, 5)
  }

  /** The start hour of a shift: `randint(*shift_hours[shift]) % 24`. */
  function ShiftStartHour(shift: String, u: nat): (h: int)
    ensures 0 <= h < 24
  {
    var lo := if shift == "Day" then 6 else if shift == "Evening" then 14 else 22;
    RandInt(u, lo, lo + 7) % 24
  }

  /** Python's `max(90.0, min(100.0, y))`. */
  function ClampYield(y: real): (r: real)
    ensures 90.0 <= r <= 100.0
    ensures 90.0 <= y <= 100.0 ==> r == y
  {
    if y > 100.0 then 100.0 else if y < 90.0 then 90.0 else y
  }

  /** `int(theoretical * pct / 100)`. */
  function ActualYield(theoretical: int, pct: real): (n: int)
    requires 90.0 <= pct <= 100.0
    ensures theoretical >= 0 ==> 0 <= n <= theoretical
  {
    var t := theoretical as real;
    if theoretical >= 0 then
      YieldFraction(t, pct);
      Trunc(t * pct / 100.0)
    else Trunc(t * pct / 100.0)
  }

  lemma YieldFraction(t: real, pct: real)
    requires t >= 0.0 && 0.0 <= pct <= 100.0
    ensures 0.0 <= t * pct / 100.0 <= t
  {
    var f := pct / 100.0;
    assert t * pct / 100.0 == t * f;
    if t > 0.0 {
      MulMonotone(0.0, f, t);
      MulMonotone(f, 1.0, t);
    }
  }

  /** `random.choice(OPERATORS)`. */
  function PickOperator(u: nat): (op: String)
    ensures op in Operators
  {
    Choice(u, Operators)
  }

  /** `random.choice([op for op in OPERATORS if op != primary])`. */
  function OtherOperator(primary: String, u: nat): (op: String)
    ensures op in Operators && op != primary
  {
    OperatorsDistinctHead();
    WithoutNonEmpty(Operators, primary);
    Choice(u, Without(Operators, primary))
  }

  /** What the source promises of every manufacturing row. */
  predicate BatchFacts(r: BatchRecord) {
    && 90.0 <= r.yieldPercent <= 100.0
    && r.operatorPrimary in Operators && r.operatorSecondary in Operators
    && r.operatorSecondary != r.operatorPrimary
    && r.batchSizeKg == r.apiWeightKg + r.excipientWeightKg
    && (r.hasDeviation == "Yes" || r.hasDeviation == "No")
    && (r.hasDeviation == "Yes" <==> r.deviationId != "")
    && (r.hasDeviation == "Yes" <==> r.deviationType != "")
    && r.rejectCount >= 0
    && (r.rejectCount <= 10 ==> r.rejectReason == "None")
    && (r.theoreticalYieldTablets >= 0 ==> 0 <= r.actualYieldTablets <= r.theoreticalYieldTablets)
    && r.tabletPressId in TabletPresses
    && r.batchStatus == "Complete" && r.releaseStatus == "Pending QC"
  }

  /** `api_weight_kg`, `excipient_weight_kg` and `batch_size_kg = round(api + excipient, 3)`. */
  function Weights(zApi: real, zExcipient: real): (w: (real, real, real))
    ensures w.2 == w.0 + w.1
  {
    var api := Round(Normal(50.0, 0.5, zApi), 3);
    var excipient := Round(Normal(45.0, 0.4, zExcipient), 3);
    RoundSumOfRounded(Normal(50.0, 0.5, zApi), Normal(45.0, 0.4, zExcipient), 3);
    (api, excipient, Round(api + excipient, 3))
  }

  /** `reject_count = int(exponential(50))` and its reason, "None" unless more than 10 were rejected. */
  function Rejects(e: NonNegReal, u: nat): (rj: (int, String))
    ensures rj.0 >= 0
    ensures rj.0 <= 10 ==> rj.1 == "None"
  {
    var count := Trunc(Exponential(50.0, e));
    (count, if count > 10 then Choice(u, RejectReasons) else "None")
  }

  /** `has_deviation`, `deviation_id` and `deviation_type`: the last two are empty exactly when there is no deviation. */
  function Deviation(year: int, u: UnitReal, number: nat, kind: nat): (dv: (String, String, String))
    ensures dv.0 == "Yes" || dv.0 == "No"
    ensures dv.0 == "Yes" <==> dv.1 != ""
    ensures dv.0 == "Yes" <==> dv.2 != ""
  {
    if u < 0.02 then ("Yes", "DEV-" + IntToString(year) + "-" + ZeroPad(RandInt(number, 1, 999), 3),
                      Choice(kind, DeviationTypes))
    else ("No", "", "")
  }

  /** `theoretical_yield_tablets`, `yield_percent` (clamped to [90, 100]) and `actual_yield_tablets`. */
  function Yields(api: real, yieldModifier: real, z: real): (y: (int, real, int))
    ensures 90.0 <= y.1 <= 100.0
    ensures y.0 >= 0 ==> 0 <= y.2 <= y.0
  {
    var theoretical := Trunc(api * 1000.0 / 0.5 * 1000.0);
    var pct := ClampYield(Round(Normal(98.5 + yieldModifier, 1.0, z), 2));
    (theoretical, pct, ActualYield(theoretical, pct))
  }

  /** One loop iteration of the inner `for`: the record of batch number `index` made on day `d`. */
  function MakeBatch(p: Product, d: Date, index: nat, b: BatchDraw): (r: BatchRecord)
    requires ValidDate(d)
    ensures BatchFacts(r)
    ensures r.batchId == BatchId(p.batchPrefix, d.year, index)
    ensures r.manufacturingDate == d
    ensures r.productName == p.name && r.productCode == p.code
  {
    var shift := Choice(b.shift, Shifts);
    var start := Moment(d, ShiftStartHour(shift, b.startHour) * 60 + RandInt(b.startMinute, 0, 59));
    var press := Choice(b.press, TabletPresses);
    var adj := ScenarioAdjustments(d, Some(press));
    var primary := PickOperator(b.operatorPrimary);
    var secondary := OtherOperator(primary, b.operatorSecondary);
    var w := Weights(b.api, b.excipient);
    var summer := adj.description == Some(SummerHeatLabel);
    var y := Yields(w.0, adj.yieldModifier, b.yieldPct);
    var rj := Rejects(b.rejects, b.rejectReason);
    var dv := Deviation(d.year, b.deviation, b.deviationNumber, b.deviationType);
    var processTime := Round(Normal(8.0, 1.0, b.processTime), 2);
    BatchRecord(
      batchId := BatchId(p.batchPrefix, d.year, index),
      productName := p.name, productCode := p.code,
      batchSizeKg := w.2,
      manufacturingDate := d,
      manufacturingStart := start,
      manufacturingEnd := AddMinutesFrom(start, (processTime * 60.0).Floor),
      shift := shift, processTimeHours := processTime,
      operatorPrimary := primary, operatorSecondary := secondary,
      tabletPressId := press,
      granulatorId := Choice(b.granulator, Granulators),
      dryerId := Choice(b.dryer, Dryers),
      blenderId := Choice(b.blender, Blenders),
      apiWeightKg := w.0, excipientWeightKg := w.1,
      granulationMixingTimeMin := Round(Normal(15.0, 1.0, b.mixingTime), 2),
      binderVolumeMl := Round(Normal(2500.0, 100.0, b.binderVolume), 1),
      granulationTempC := Round(Normal(28.0, 2.0, b.granulationTemp), 1),
      inletAirTempC := if summer then Round(Normal(63.0, 3.0, b.inletAirSummer), 1)
                       else Round(Normal(60.0, 2.0, b.inletAir), 1),
      outletAirTempC := if summer then Round(Normal(43.0, 2.0, b.outletAirSummer), 1)
                        else Round(Normal(40.0, 2.0, b.outletAir), 1),
      dryingTimeMin := Round(Normal(45.0, 5.0, b.dryingTime), 1),
      moistureContentPct := Round(Normal(2.0, 0.3, b.moisture), 2),
      compressionForceMainKn := Round(Normal(18.0, 1.5, b.compressionMain) + adj.hardnessModifier, 2),
      compressionForcePreKn := Round(Normal(3.0, 0.3, b.compressionPre), 2),
      turretSpeedRpm := Round(Normal(45.0, 3.0, b.turretSpeed), 1),
      tabletWeightMg := Round(Normal(500.0, 5.0, b.tabletWeight), 1),
      tabletThicknessMm := Round(Normal(4.5, 0.1, b.tabletThickness), 2),
      tabletHardnessN := Round(Normal(120.0 + adj.hardnessModifier * 5.0, 10.0, b.tabletHardness), 1),
      friabilityPct := Round(Exponential(0.3, b.friability), 3),
      disintegrationTimeMin := Round(Normal(8.0, 2.0, b.disintegration), 1),
      theoreticalYieldTablets := y.0, actualYieldTablets := y.2, yieldPercent := y.1,
      rejectCount := rj.0, rejectReason := rj.1,
      hasDeviation := dv.0, deviationId := dv.1, deviationType := dv.2,
      roomTempC := Round(Normal(22.0, 1.0, b.roomTemp), 1),
      roomHumidityPct := Round(Normal(45.0, 5.0, b.roomHumidity), 1),
      differentialPressurePa := Round(Normal(15.0, 2.0, b.diffPressure), 1),
      batchStatus := "Complete", releaseStatus := "Pending QC")
  }

  /**
   * The number of batches made on day `d`: `randint(10, 15)` in the COVID
   * window, else `batches_per_day` (none if that is not positive). The source
   * tests the scenario's description; `DayCountFollowsScenario` shows the two agree.
   */
  function DayCount(d: Date, batchesPerDay: int, u: nat): (n: nat)
    ensures CovidWindow(d) ==> 10 <= n <= 15
    ensures !CovidWindow(d) ==> n == if batchesPerDay > 0 then batchesPerDay else 0
  {
    var daily := if CovidWindow(d) then RandInt(u, 10, 15) else batchesPerDay;
    if daily > 0 then daily else 0
  }

  /** Testing the COVID window is testing the scenario's COVID description. */
  lemma DayCountFollowsScenario(d: Date, batchesPerDay: int, u: nat)
    requires ValidDate(d)
    ensures var daily := if ScenarioAdjustments(d, None).description == Some(CovidLabel)
                         then RandInt(u, 10, 15) else batchesPerDay;
            DayCount(d, batchesPerDay, u) == if daily > 0 then daily else 0
  {
    AdjustmentLabel(d, None);
  }

  /** A day number as `date.toordinal()` gives it. */
  type Ordinal = n: int | n >= 1 witness 1

  /** A batch slot of the production plan: the ordinal of the day it is made on and its running number. */
  datatype Slot = Slot(day: Ordinal, index: nat)

  /** The slots of one day: batches `first`, `first + 1`, …, `first + n - 1`. */
  function DaySlots(day: Ordinal, n: nat, first: nat): (slots: seq<Slot>)
    ensures |slots| == n
    ensures forall k :: 0 <= k < n ==> slots[k] == Slot(day, first + k)
  {
    seq(n, k requires 0 <= k < n => Slot(day, first + k))
  }

  /**
   * The production plan of the first `n` days from ordinal `o0`: day number
   * `k` makes `count(k)` batches, and the counter runs across days from 1.
   */
  function Plan(o0: Ordinal, n: nat, count: nat -> nat): (slots: seq<Slot>)
    ensures |slots| == Total(n, count)
  {
    if n == 0 then []
    else Plan(o0, n - 1, count) + DaySlots(o0 + n - 1, count(n - 1), 1 + Total(n - 1, count))
  }

  /** The batches of the first `n` days. */
  function Total(n: nat, count: nat -> nat): nat
  {
    if n == 0 then 0 else Total(n - 1, count) + count(n - 1)
  }

  /** The daily batch counts of a call starting on `start`. */
  function DailyCounts(start: Date, batchesPerDay: int, dayDraw: nat -> nat): nat -> nat
    requires ValidDate(start)
  {
    k => DrawnCount(ToOrdinal(start), k, batchesPerDay, dayDraw)
  }

  /** `count` gives, for every day number, the batches made on that day of a call from ordinal `o0`. */
  ghost predicate CountsDrawn(count: nat -> nat, o0: Ordinal, batchesPerDay: int, dayDraw: nat -> nat)
  {
    forall k: nat {:trigger DrawnCount(o0, k, batchesPerDay, dayDraw)} :: count(k) == DrawnCount(o0, k, batchesPerDay, dayDraw)
  }

  /** The batches of day number `k` of a call from ordinal `o0`. */
  function DrawnCount(o0: Ordinal, k: nat, batchesPerDay: int, dayDraw: nat -> nat): nat
  {
    DayCount(FromOrdinal(o0 + k), batchesPerDay, dayDraw(k))
  }

  lemma DailyCountsDrawn(start: Date, batchesPerDay: int, dayDraw: nat -> nat)
    requires ValidDate(start)
    ensures CountsDrawn(DailyCounts(start, batchesPerDay, dayDraw), ToOrdinal(start), batchesPerDay, dayDraw)
  {
    forall k: nat
      ensures DailyCounts(start, batchesPerDay, dayDraw)(k) == DrawnCount(ToOrdinal(start), k, batchesPerDay, dayDraw)
    {
    }
  }

  /** The days from `start` to `end` are the ordinals from the one to the other. */
  lemma DayTotalSpan(start: Date, end: Date)
    requires ValidDate(start) && ValidDate(end)
    ensures DayTotal(start, end) == DaySpan(ToOrdinal(start), ToOrdinal(end))
  {
  }

  /** The number of days from ordinal `o0` to ordinal `last`, both included. */
  function DaySpan(o0: int, last: int): nat
  {
    if last < o0 then 0 else last - o0 + 1
  }

  /** The number of days the `while current_date <= end_date` loop visits. */
  function DayTotal(start: Date, end: Date): (n: nat)
    requires ValidDate(start) && ValidDate(end)
    ensures n == if Before(end, start) then 0 else DaysBetween(start, end) + 1
  {
    if Before(end, start) then 0 else DaysBetween(start, end) + 1
  }

  /** The whole plan of a call: every day from `start` to `end`. */
  function Schedule(start: Date, end: Date, batchesPerDay: int, dayDraw: nat -> nat): seq<Slot>
    requires ValidDate(start) && ValidDate(end)
  {
    Plan(ToOrdinal(start), DayTotal(start, end), DailyCounts(start, batchesPerDay, dayDraw))
  }

  /** The record the inner loop builds for a slot. */
  function Maker(p: Product, draw: nat -> BatchDraw): Slot -> BatchRecord
  {
    (s: Slot) => MakeBatch(p, FromOrdinal(s.day), s.index, draw(s.index))
  }

  /** `make` is the inner loop's record for every slot. */
  ghost predicate MakesBatches(make: Slot -> BatchRecord, p: Product, draw: nat -> BatchDraw) {
    forall s: Slot {:trigger MakeBatch(p, FromOrdinal(s.day), s.index, draw(s.index))} ::
      make(s) == MakeBatch(p, FromOrdinal(s.day), s.index, draw(s.index))
  }

  lemma MakerMakes(p: Product, draw: nat -> BatchDraw)
    ensures MakesBatches(Maker(p, draw), p, draw)
  {
    forall s: Slot
      ensures Maker(p, draw)(s) == MakeBatch(p, FromOrdinal(s.day), s.index, draw(s.index))
    {
    }
  }

  /** What every manufacturing row promises about the slot it was made for. */
  predicate GoodRow(r: BatchRecord, p: Product, s: Slot) {
    && BatchFacts(r)
    && r.manufacturingDate == FromOrdinal(s.day)
    && r.batchId == BatchId(p.batchPrefix, r.manufacturingDate.year, s.index)
    && r.productName == p.name && r.productCode == p.code
  }

  /** The inner loop body keeps the per-row promises. */
  lemma MakerGood(p: Product, draw: nat -> BatchDraw)
    ensures forall s :: GoodRow(Maker(p, draw)(s), p, s)
  {
    forall s
      ensures GoodRow(Maker(p, draw)(s), p, s)
    {
      var r := MakeBatch(p, FromOrdinal(s.day), s.index, draw(s.index));
      assert Maker(p, draw)(s) == r;
    }
  }

  /** One more day appends that day's slots. */
  lemma PlanStep(o0: Ordinal, n: nat, count: nat -> nat)
    ensures Plan(o0, n + 1, count)
         == Plan(o0, n, count) + DaySlots(o0 + n, count(n), 1 + Total(n, count))
  {
  }

  /** Slot `i` carries batch number `i + 1` and a day between `o0` and `o0 + n - 1`. */
  predicate Numbered(slots: seq<Slot>, o0: int, n: nat) {
    forall i :: 0 <= i < |slots| ==> slots[i].index == i + 1 && o0 <= slots[i].day < o0 + n
  }

  /** The slots run in day order. */
  predicate DayOrdered(slots: seq<Slot>) {
    forall i, j :: 0 <= i <= j < |slots| ==> slots[i].day <= slots[j].day
  }

  /** A plan numbers its batches 1, 2, 3, … and keeps to its days. */
  lemma {:induction false} PlanNumbered(o0: Ordinal, n: nat, count: nat -> nat)
    ensures Numbered(Plan(o0, n, count), o0, n)
  {
    if n > 0 {
      PlanNumbered(o0, n - 1, count);
      var before := Plan(o0, n - 1, count);
      var today := DaySlots(o0 + n - 1, count(n - 1), 1 + Total(n - 1, count));
      var slots := Plan(o0, n, count);
      forall i | 0 <= i < |slots|
        ensures slots[i].index == i + 1 && o0 <= slots[i].day < o0 + n
      {
        if i < |before| {
          assert slots[i] == before[i];
        } else {
          assert slots[i] == today[i - |before|];
        }
      }
    }
  }

  /** A plan runs in day order. */
  lemma {:induction false} PlanOrdered(o0: Ordinal, n: nat, count: nat -> nat)
    ensures DayOrdered(Plan(o0, n, count))
  {
    if n > 0 {
      PlanOrdered(o0, n - 1, count);
      PlanNumbered(o0, n - 1, count);
      var before := Plan(o0, n - 1, count);
      var today := DaySlots(o0 + n - 1, count(n - 1), 1 + Total(n - 1, count));
      var slots := Plan(o0, n, count);
      forall i, j | 0 <= i <= j < |slots|
        ensures slots[i].day <= slots[j].day
      {
        if j < |before| {
          assert slots[i] == before[i] && slots[j] == before[j];
        } else if i < |before| {
          assert slots[i] == before[i] && slots[j] == today[j - |before|];
        } else {
          assert slots[i] == today[i - |before|] && slots[j] == today[j - |before|];
        }
      }
    }
  }

  /** With `b` batches on each of the `n` days, the days make `n * b` batches. */
  lemma {:induction false} TotalOfConstant(n: nat, count: nat -> nat, b: nat)
    requires forall k: nat :: k < n ==> count(k) == b
    ensures Total(n, count) == n * b
  {
    if n > 0 {
      TotalOfConstant(n - 1, count, b);
    }
  }

  /** The records of two plans laid end to end. */
  lemma RowsAppend(make: Slot -> BatchRecord, a: seq<Slot>, b: seq<Slot>)
    ensures Rows(make, a + b) == Rows(make, a) + Rows(make, b)
  {
  }

  /** One more batch of the day appends its record. */
  lemma DaySlotsStep(make: Slot -> BatchRecord, o: Ordinal, first: nat, k: nat)
    ensures Rows(make, DaySlots(o, k + 1, first)) == Rows(make, DaySlots(o, k, first)) + [make(Slot(o, first + k))]
  {
    assert DaySlots(o, k + 1, first) == DaySlots(o, k, first) + [Slot(o, first + k)];
    RowsAppend(make, DaySlots(o, k, first), [Slot(o, first + k)]);
  }

  /** The inner `for` loop of one day: `n` batches numbered from `first`, all made on the day of ordinal `o`. */
  method MakeDay(p: Product, o: Ordinal, first: nat, n: nat, draw: nat -> BatchDraw,
                 ghost make: Slot -> BatchRecord)
    returns (rows: seq<BatchRecord>)
    requires MakesBatches(make, p, draw)
    ensures rows == Rows(make, DaySlots(o, n, first))
  {
    rows := [];
    var k := 0;
    while k < n
      invariant 0 <= k <= n
      invariant rows == Rows(make, DaySlots(o, k, first))
    {
      DaySlotsStep(make, o, first, k);
      var batch := BuildBatch(p, o, first + k, draw, make);
      rows := rows + [batch];
      k := k + 1;
    }
  }

  /** The body of the inner `for` loop: the record of batch `i`, made on the day of ordinal `o`. */
  method BuildBatch(p: Product, o: Ordinal, i: nat, draw: nat -> BatchDraw, ghost make: Slot -> BatchRecord)
    returns (batch: BatchRecord)
    requires MakesBatches(make, p, draw)
    ensures batch == make(Slot(o, i))
  {
    var s := Slot(o, i);
    batch := MakeBatch(p, FromOrdinal(s.day), s.index, draw(s.index));
  }

  /** `generate_manufacturing_data(start, end, batches_per_day, product_index)`. */
  method GenerateManufacturing(start: Date, end: Date, batchesPerDay: int, productIndex: int,
                               dayDraw: nat -> nat, draw: nat -> BatchDraw)
    returns (result: Result<seq<BatchRecord>, PyError>)
    requires ValidDate(start) && ValidDate(end)
    ensures PyIndex(|Products|, productIndex).None? ==> result == Failure(IndexError)
    ensures PyIndex(|Products|, productIndex).Some? ==>
      result == Success(Rows(Maker(Products[PyIndex(|Products|, productIndex).value], draw),
                             Schedule(start, end, batchesPerDay, dayDraw)))
  {
    var ix := PyIndex(|Products|, productIndex);
    if ix.None? {
      return Failure(IndexError);
    }
    DailyCountsDrawn(start, batchesPerDay, dayDraw);
    DayTotalSpan(start, end);
    MakerMakes(Products[ix.value], draw);
    var records := GenerateDays(Products[ix.value], ToOrdinal(start), ToOrdinal(end), batchesPerDay, dayDraw, draw,
                                DailyCounts(start, batchesPerDay, dayDraw), Maker(Products[ix.value], draw));
    return Success(records);
  }

  /**
   * The `while current_date <= end_date` loop of `generate_manufacturing_data` for one product,
   * with `current_date` held as its ordinal (`date.toordinal()`), which is what date comparison
   * and `+ timedelta(days=1)` act on: the loop runs from ordinal `o0` to ordinal `last`.
   */
  method GenerateDays(product: Product, o0: Ordinal, last: int, batchesPerDay: int,
                      dayDraw: nat -> nat, draw: nat -> BatchDraw,
                      ghost count: nat -> nat, ghost make: Slot -> BatchRecord)
    returns (records: seq<BatchRecord>)
    requires CountsDrawn(count, o0, batchesPerDay, dayDraw) && MakesBatches(make, product, draw)
    ensures records == Rows(make, Plan(o0, DaySpan(o0, last), count))
  {
    records := [];
    var batchIndex: nat := 1;
    var dayNo: nat := 0;
    while o0 + dayNo <= last
      invariant dayNo == 0 || o0 + dayNo <= last + 1
      invariant batchIndex == 1 + Total(dayNo, count)
      invariant records == Rows(make, Plan(o0, dayNo, count))
      decreases last - dayNo
    {
      records, batchIndex := GenerateDay(product, o0, dayNo, batchIndex, batchesPerDay,
                                         dayDraw, draw, count, make, records);
      dayNo := dayNo + 1;
    }
  }

  /** One pass of the outer loop: the day's batches appended to the table so far. */
  method GenerateDay(product: Product, o0: Ordinal, dayNo: nat, batchIndex: nat,
                     batchesPerDay: int, dayDraw: nat -> nat, draw: nat -> BatchDraw,
                     ghost count: nat -> nat, ghost make: Slot -> BatchRecord, records: seq<BatchRecord>)
    returns (extended: seq<BatchRecord>, next: nat)
    requires CountsDrawn(count, o0, batchesPerDay, dayDraw) && MakesBatches(make, product, draw)
    requires batchIndex == 1 + Total(dayNo, count)
    requires records == Rows(make, Plan(o0, dayNo, count))
    ensures next == 1 + Total(dayNo + 1, count)
    ensures extended == Rows(make, Plan(o0, dayNo + 1, count))
  {
    var dailyBatches := DayBatches(o0, dayNo, batchesPerDay, dayDraw, count);
    var day := MakeDay(product, o0 + dayNo, batchIndex, dailyBatches, draw, make);
    NextDay(make, o0, dayNo, count, records, day, o0 + dayNo, dailyBatches, batchIndex);
    extended := records + day;
    next := batchIndex + dailyBatches;
  }

  /** The day's `daily_batches`: the COVID draw inside the window, `batches_per_day` elsewhere. */
  method DayBatches(o0: Ordinal, dayNo: nat, batchesPerDay: int, dayDraw: nat -> nat, ghost count: nat -> nat)
    returns (n: nat)
    requires CountsDrawn(count, o0, batchesPerDay, dayDraw)
    ensures n == count(dayNo)
  {
    n := DayCount(FromOrdinal(o0 + dayNo), batchesPerDay, dayDraw(dayNo));
    assert n == DrawnCount(o0, dayNo, batchesPerDay, dayDraw);
  }

  /** The outer loop body: the day's records extend the table as the day's slots extend the plan. */
  lemma NextDay(make: Slot -> BatchRecord, o0: Ordinal, dayNo: nat, count: nat -> nat,
                records: seq<BatchRecord>, day: seq<BatchRecord>, o: Ordinal, n: nat, first: nat)
    requires records == Rows(make, Plan(o0, dayNo, count))
    requires o == o0 + dayNo && n == count(dayNo) && first == 1 + Total(dayNo, count)
    requires day == Rows(make, DaySlots(o, n, first))
    ensures records + day == Rows(make, Plan(o0, dayNo + 1, count))
  {
    PlanStep(o0, dayNo, count);
    RowsAppend(make, Plan(o0, dayNo, count), DaySlots(o, n, first));
  }

  /** No day from `start` to `end` lies in the COVID window. */
  predicate NoCovidDay(start: Date, end: Date)
    requires ValidDate(start) && ValidDate(end)
  {
    forall o :: ToOrdinal(start) <= o <= ToOrdinal(end) ==> !CovidWindow(FromOrdinal(o))
  }

  /** Away from the COVID window every day makes exactly `batches_per_day` batches. */
  lemma ScheduleSize(start: Date, end: Date, batchesPerDay: nat, dayDraw: nat -> nat)
    requires ValidDate(start) && ValidDate(end) && NoCovidDay(start, end)
    ensures |Schedule(start, end, batchesPerDay, dayDraw)| == DayTotal(start, end) * batchesPerDay
  {
    var o0 := ToOrdinal(start);
    var count := DailyCounts(start, batchesPerDay, dayDraw);
    DayTotalSpan(start, end);
    forall k: nat | k < DayTotal(start, end)
      ensures count(k) == batchesPerDay
    {
      assert !CovidWindow(FromOrdinal(o0 + k));
      CountAway(o0, k, batchesPerDay, dayDraw);
    }
    TotalOfConstant(DayTotal(start, end), count, batchesPerDay);
  }

  /** Away from the COVID window a day makes `batches_per_day` batches. */
  lemma CountAway(o0: Ordinal, k: nat, batchesPerDay: nat, dayDraw: nat -> nat)
    requires !CovidWindow(FromOrdinal(o0 + k))
    ensures DrawnCount(o0, k, batchesPerDay, dayDraw) == batchesPerDay
  {
  }

  /** Row `i` of a table: a well-formed batch made between `start` and `end`, numbered `i + 1`. */
  predicate TableRow(rows: seq<BatchRecord>, p: Product, start: Date, end: Date, i: int)
    requires ValidDate(start) && ValidDate(end)
  {
    && 0 <= i < |rows|
    && BatchFacts(rows[i])
    && ValidDate(rows[i].manufacturingDate)
    && NotAfter(start, rows[i].manufacturingDate) && NotAfter(rows[i].manufacturingDate, end)
    && rows[i].productName == p.name && rows[i].productCode == p.code
    && rows[i].batchId == BatchId(p.batchPrefix, rows[i].manufacturingDate.year, i + 1)
  }

  /** The rows run in date order. */
  predicate DateOrdered(rows: seq<BatchRecord>) {
    forall i, j :: 0 <= i <= j < |rows| ==>
      ValidDate(rows[i].manufacturingDate) && ValidDate(rows[j].manufacturingDate) &&
      NotAfter(rows[i].manufacturingDate, rows[j].manufacturingDate)
  }

  /**
   * What the source promises of a whole manufacturing table, for any row
   * builder that keeps the per-row promises (`MakerGood` shows the inner loop
   * body does): every row is a well-formed batch of the period, row `i` is
   * batch number `i + 1`, and the rows run in date order.
   */
  lemma ManufacturingTable(make: Slot -> BatchRecord, p: Product, start: Date, end: Date,
                           batchesPerDay: int, dayDraw: nat -> nat)
    requires ValidDate(start) && ValidDate(end)
    requires forall s :: GoodRow(make(s), p, s)
    ensures forall i :: 0 <= i < |Schedule(start, end, batchesPerDay, dayDraw)| ==>
      TableRow(Rows(make, Schedule(start, end, batchesPerDay, dayDraw)), p, start, end, i)
    ensures DateOrdered(Rows(make, Schedule(start, end, batchesPerDay, dayDraw)))
  {
    var o0 := ToOrdinal(start);
    var n := DayTotal(start, end);
    var count := DailyCounts(start, batchesPerDay, dayDraw);
    var slots := Schedule(start, end, batchesPerDay, dayDraw);
    PlanNumbered(o0, n, count);
    PlanOrdered(o0, n, count);
    var rows := Rows(make, slots);
    forall i | 0 <= i < |slots|
      ensures TableRow(rows, p, start, end, i)
    {
      RowDay(rows[i], p, slots[i]);
    }
    forall i, j | 0 <= i <= j < |slots|
      ensures ValidDate(rows[i].manufacturingDate) && ValidDate(rows[j].manufacturingDate)
      ensures NotAfter(rows[i].manufacturingDate, rows[j].manufacturingDate)
    {
      RowDay(rows[i], p, slots[i]);
      RowDay(rows[j], p, slots[j]);
    }
  }

  /** A good row is dated on its slot's day. */
  lemma RowDay(r: BatchRecord, p: Product, s: Slot)
    requires GoodRow(r, p, s)
    ensures ValidDate(r.manufacturingDate) && ToOrdinal(r.manufacturingDate) == s.day
  {
  }

  /** The number after the last '-' of row `i`'s id is `i + 1`, so no two batch ids of a table are equal. */
  lemma BatchIdsUnique(make: Slot -> BatchRecord, p: Product, start: Date, end: Date,
                       batchesPerDay: int, dayDraw: nat -> nat)
    requires ValidDate(start) && ValidDate(end)
    requires forall s :: GoodRow(make(s), p, s)
    ensures forall i, j :: 0 <= i < j < |Schedule(start, end, batchesPerDay, dayDraw)| ==>
      Rows(make, Schedule(start, end, batchesPerDay, dayDraw))[i].batchId
        != Rows(make, Schedule(start, end, batchesPerDay, dayDraw))[j].batchId
  {
    ManufacturingTable(make, p, start, end, batchesPerDay, dayDraw);
    var slots := Schedule(start, end, batchesPerDay, dayDraw);
    var rows := Rows(make, slots);
    forall i | 0 <= i < |rows|
      ensures rows[i].batchId == BatchId(p.batchPrefix, rows[i].manufacturingDate.year, i + 1)
    {
      assert TableRow(rows, p, start, end, i);
    }
    RowIdsDiffer(rows, p.batchPrefix);
  }

  /** Rows whose ids carry their own row numbers never repeat an id. */
  lemma RowIdsDiffer(rows: seq<BatchRecord>, prefix: String)
    requires forall i :: 0 <= i < |rows| ==>
      rows[i].batchId == BatchId(prefix, rows[i].manufacturingDate.year, i + 1)
    ensures forall i, j :: 0 <= i < j < |rows| ==> rows[i].batchId != rows[j].batchId
  {
    forall i, j | 0 <= i < j < |rows|
      ensures rows[i].batchId != rows[j].batchId
    {
      IdsDiffer(rows[i], rows[j], prefix, i + 1, j + 1);
    }
  }

  /** Rows with different numbers have different ids. */
  lemma IdsDiffer(a: BatchRecord, b: BatchRecord, prefix: String, m: nat, n: nat)
    requires a.batchId == BatchId(prefix, a.manufacturingDate.year, m)
    requires b.batchId == BatchId(prefix, b.manufacturingDate.year, n)
    requires m != n
    ensures a.batchId != b.batchId
  {
    if a.batchId == b.batchId {
      BatchIdInjective(prefix, a.manufacturingDate.year, b.manufacturingDate.year, m, n);
    }
  }

  /** Two batch ids of one product that are equal carry the same number. */
  lemma BatchIdInjective(prefix: String, y1: int, y2: int, m: nat, n: nat)
    requires BatchId(prefix, y1, m) == BatchId(prefix, y2, n)
    ensures m == n
  {
    PaddedIdInjective(prefix + "-" + LastN(IntToString(y1), 2), prefix + "-" + LastN(IntToString(y2), 2), m, n, 5);
  }

  /** The last field of a batch id reads back as its number. */
  lemma BatchIdNumber(prefix: String, year: int, index: nat)
    ensures AllDigits(LastField(BatchId(prefix, year, index)))
    ensures DigitsValue(LastField(BatchId(prefix, year, index))) == index
  {
    LastFieldOfDigits(prefix + "-" + LastN(IntToString(year), 2), ZeroPad(index, 5));
    ZeroPadValue(index, 5);
  }

  /** `m` itself when its date parses; otherwise `m` dated 1970-01-01, so that per-row builders can be total. */
  function Parsed(m: BatchRecord): (p: BatchRecord)
    ensures ValidDate(p.manufacturingDate)
    ensures ValidDate(m.manufacturingDate) ==> p == m
  {
    if ValidDate(m.manufacturingDate) then m else m.(manufacturingDate := Date(1970, 1, 1))
  }
}
