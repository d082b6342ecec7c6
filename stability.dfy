/**
 * `generate_stability_data`: picks every `step`-th distinct batch id of the
 * manufacturing table, at most `4 * batches_per_study` of them, and for each
 * runs the three storage conditions over their time points: 18 tests per
 * batch. `study_index` rises by one per (batch, condition); test number `i`
 * of the call takes its draws from `draw(i)`.
 */
module Stability {
  import opened Wrappers
  import opened Numeric
  import opened Text
  import opened Calendar
  import opened Catalog
  import opened Manufacturing
  import opened Complaints
  import Frames

  /** A storage condition: name, temperature, relative humidity and time points in months. */
  datatype Condition = Condition(name: String, temp: int, rh: int, timepoints: seq<nat>)

  const Conditions: seq<Condition> := [
    Condition("Long-term", 25, 60, [0, 3, 6, 9, 12, 18, 24, 36]),
    Condition("Accelerated", 40, 75, [0, 1, 2, 3, 6]),
    Condition("Intermediate", 30, 65, [0, 3, 6, 9, 12])
  ]

  /** Every studied batch is tested 18 times: 8 long-term, 5 accelerated and 5 intermediate points. */
  const TestsPerBatch: nat := 18

  /** The draws one test consumes. */
  datatype StabDraw = StabDraw(assay: real, dissolution: real, impurities: NonNegReal, water: real, analyst: nat)

  /** One row of the stability table. */
  datatype StabRecord = StabRecord(
    studyId: String, batchId: String, condition: String, storageTempC: int, storageRhPct: int,
    timepointMonths: int, testDate: Date,
    assayPercent: real, dissolutionPct: real, totalImpuritiesPct: real, waterContentPct: real,
    appearance: String, overallResult: String, analyst: String)

  /** The study id `STAB-{year}-{index:04d}`. */
  function StudyId(year: int, index: nat): String
  {
    "STAB-" + IntToString(year) + "-" + ZeroPad(index, 4)
  }

  /* ---------- choosing the batches ---------- */

  /** `manufacturing_df["batch_id"]`. */
  function BatchIds(mfg: seq<BatchRecord>): (ids: seq<String>)
    ensures |ids| == |mfg|
    ensures forall i :: 0 <= i < |mfg| ==> ids[i] == mfg[i].batchId
  {
    seq(|mfg|, i requires 0 <= i < |mfg| => mfg[i].batchId)
  }

  /** `max(1, n // (batches_per_study * 4))`, with Python's floor division. */
  function Stride(n: nat, batchesPerStudy: int): (step: nat)
    requires batchesPerStudy != 0
    ensures step >= 1
  {
    var q := FloorDiv(n, batchesPerStudy * 4);
    if q > 1 then q else 1
  }

  /** `[xs[i] for i in range(0, len(xs), step)]`. */
  function Strided(xs: seq<String>, step: nat): (r: seq<String>)
    requires step >= 1
    ensures |r| <= |xs|
    ensures |xs| > 0 ==> |r| > 0
    decreases |xs|
  {
    if xs == [] then [] else [xs[0]] + Strided(xs[if step < |xs| then step else |xs|..], step)
  }

  /** Python `xs[:k]`, where a negative `k` drops the last `-k` elements. */
  function PyTake(xs: seq<String>, k: int): (r: seq<String>)
    ensures k >= 0 ==> r == FirstN(xs, k)
    ensures k < 0 ==> r == xs[..if |xs| + k > 0 then |xs| + k else 0]
  {
    if k >= 0 then FirstN(xs, k) else xs[..if |xs| + k > 0 then |xs| + k else 0]
  }

  /** Every `step`-th id of `ids`, at most `4 * batches_per_study` of them. */
  function Pick(ids: seq<String>, batchesPerStudy: int): seq<String>
    requires batchesPerStudy != 0
  {
    PyTake(Strided(ids, Stride(|ids|, batchesPerStudy)), batchesPerStudy * 4)
  }

  /** The batch ids the study picks. */
  function Selection(mfg: seq<BatchRecord>, batchesPerStudy: int): seq<String>
    requires batchesPerStudy != 0
  {
    Pick(Frames.Unique(BatchIds(mfg)), batchesPerStudy)
  }

  /** Element `k` of a strided list is element `k * step` of the list. */
  lemma {:induction false} StridedAt(xs: seq<String>, step: nat, k: nat)
    requires step >= 1 && k < |Strided(xs, step)|
    ensures k * step < |xs| && Strided(xs, step)[k] == xs[k * step]
    decreases |xs|
  {
    if k > 0 {
      var r: seq<String> := Strided(xs, step);
      var skip := if step < |xs| then step else |xs|;
      var rest: seq<String> := xs[skip..];
      assert r == [xs[0]] + Strided(rest, step);
      StridedAt(rest, step, k - 1);
      var m: nat := (k - 1) * step;
      ShiftMul(k, step);
      assert skip == step;
      assert r[k] == rest[m] == xs[skip + m];
    }
  }

  lemma ShiftMul(k: nat, step: nat)
    requires k >= 1
    ensures step + (k - 1) * step == k * step
  {
  }

  /** A strided list of distinct ids has distinct ids, all taken from the list. */
  lemma StridedDistinct(xs: seq<String>, step: nat)
    requires step >= 1
    requires forall i, j :: 0 <= i < j < |xs| ==> xs[i] != xs[j]
    ensures forall x :: x in Strided(xs, step) ==> x in xs
    ensures forall i, j :: 0 <= i < j < |Strided(xs, step)| ==> Strided(xs, step)[i] != Strided(xs, step)[j]
  {
    var r := Strided(xs, step);
    forall x | x in r
      ensures x in xs
    {
      var k :| 0 <= k < |r| && r[k] == x;
      StridedAt(xs, step, k);
    }
    forall i, j | 0 <= i < j < |r|
      ensures r[i] != r[j]
    {
      StridedAt(xs, step, i);
      StridedAt(xs, step, j);
      MulLess(i, j, step);
    }
  }

  lemma MulLess(a: nat, b: nat, f: nat)
    requires a < b && f >= 1
    ensures a * f < b * f
  {
    assert b * f == a * f + (b - a) * f;
  }

  /** With stride 1 nothing is skipped. */
  lemma {:induction false} StridedOne(xs: seq<String>)
    ensures Strided(xs, 1) == xs
    decreases |xs|
  {
    if xs != [] {
      StridedOne(xs[1..]);
    }
  }

  /**
   * The selection: at most `4 * batches_per_study` distinct ids of the
   * table, and, when the table has no more distinct ids than that, all of
   * them in order of first appearance.
   */
  lemma SelectionFacts(mfg: seq<BatchRecord>, batchesPerStudy: int)
    requires batchesPerStudy > 0
    ensures |Selection(mfg, batchesPerStudy)| <= 4 * batchesPerStudy
    ensures forall x :: x in Selection(mfg, batchesPerStudy) ==> x in BatchIds(mfg)
    ensures forall i, j :: 0 <= i < j < |Selection(mfg, batchesPerStudy)| ==>
      Selection(mfg, batchesPerStudy)[i] != Selection(mfg, batchesPerStudy)[j]
    ensures |Frames.Unique(BatchIds(mfg))| <= 4 * batchesPerStudy ==> Selection(mfg, batchesPerStudy) == Frames.Unique(BatchIds(mfg))
  {
    PickFacts(Frames.Unique(BatchIds(mfg)), batchesPerStudy);
  }

  /** The same on any list of distinct ids. */
  lemma PickFacts(ids: seq<String>, batchesPerStudy: int)
    requires batchesPerStudy > 0
    requires forall i, j :: 0 <= i < j < |ids| ==> ids[i] != ids[j]
    ensures |Pick(ids, batchesPerStudy)| <= 4 * batchesPerStudy
    ensures forall x :: x in Pick(ids, batchesPerStudy) ==> x in ids
    ensures forall i, j :: 0 <= i < j < |Pick(ids, batchesPerStudy)| ==> Pick(ids, batchesPerStudy)[i] != Pick(ids, batchesPerStudy)[j]
    ensures |ids| <= 4 * batchesPerStudy ==> Pick(ids, batchesPerStudy) == ids
  {
    var step := Stride(|ids|, batchesPerStudy);
    StridedDistinct(ids, step);
    var s: seq<String> := Strided(ids, step);
    var p: seq<String> := FirstN(s, batchesPerStudy * 4);
    assert Pick(ids, batchesPerStudy) == p;
    assert p == s[..|p|];
    forall x | x in p
      ensures x in ids
    {
      var k :| 0 <= k < |p| && p[k] == x;
      assert s[k] == x;
    }
    if |ids| <= 4 * batchesPerStudy {
      StrideOne(|ids|, batchesPerStudy);
      StridedOne(ids);
    }
  }

  /** No more ids than `4 * batches_per_study` means every id is taken. */
  lemma StrideOne(n: nat, batchesPerStudy: int)
    requires batchesPerStudy > 0 && n <= 4 * batchesPerStudy
    ensures Stride(n, batchesPerStudy) == 1
  {
  }

  /* ---------- looking up the batches ---------- */

  /** `manufacturing_df[manufacturing_df["batch_id"] == id].iloc[0]` for an id of the table. */
  function Lookup(mfg: seq<BatchRecord>, id: String): (r: BatchRecord)
    requires id in BatchIds(mfg)
    ensures r in mfg && r.batchId == id
  {
    assert exists i :: 0 <= i < |mfg| && mfg[i].batchId == id;
    FirstWithId(mfg, id)
  }

  /** The first `n` chosen ids are ids of the table whose dates `strptime` accepts. */
  predicate ChosenParse(mfg: seq<BatchRecord>, chosen: seq<String>, n: nat)
    requires n <= |chosen|
  {
    forall j :: 0 <= j < n ==> chosen[j] in BatchIds(mfg) && ValidDate(Lookup(mfg, chosen[j]).manufacturingDate)
  }

  /** A chosen batch with the day it was made. */
  datatype Study = Study(batchId: String, made: Ordinal)

  /** The first `n` chosen batches with the days they were made. */
  function Studies(mfg: seq<BatchRecord>, chosen: seq<String>, n: nat): (bs: seq<Study>)
    requires n <= |chosen| && ChosenParse(mfg, chosen, n)
    ensures |bs| == n
    ensures forall j :: 0 <= j < n ==> bs[j].batchId == chosen[j]
  {
    seq(n, j requires 0 <= j < n => Study(chosen[j], ToOrdinal(Lookup(mfg, chosen[j]).manufacturingDate)))
  }

  /** One more chosen batch that parses. */
  lemma StudiesStep(mfg: seq<BatchRecord>, chosen: seq<String>, i: nat)
    requires i < |chosen| && ChosenParse(mfg, chosen, i)
    requires chosen[i] in BatchIds(mfg) && ValidDate(Lookup(mfg, chosen[i]).manufacturingDate)
    ensures ChosenParse(mfg, chosen, i + 1)
    ensures Studies(mfg, chosen, i + 1)
      == Studies(mfg, chosen, i) + [Study(chosen[i], ToOrdinal(Lookup(mfg, chosen[i]).manufacturingDate))]
  {
    assert ChosenParse(mfg, chosen, i + 1);
    var l: seq<Study> := Studies(mfg, chosen, i + 1);
    var r: seq<Study> := Studies(mfg, chosen, i) + [Study(chosen[i], ToOrdinal(Lookup(mfg, chosen[i]).manufacturingDate))];
    assert forall j :: 0 <= j < i + 1 ==> l[j] == r[j];
  }

  /* ---------- one test ---------- */

  /** One test: the batch, its manufacturing day, the condition, the time point, the study and the test number. */
  datatype StabSlot = StabSlot(batchId: String, made: Ordinal, condition: Condition, timepoint: nat, study: nat, row: nat)

  /** The degradation rate per month of a storage condition. */
  function DegRate(name: String): real
  {
    if name == "Accelerated" then 0.08 else if name == "Intermediate" then 0.04 else 0.015
  }

  /** The assay the degradation alone leaves after `t` months. */
  function ExpectedAssay(name: String, t: nat): real
  {
    100.0 - DegRate(name) * t as real
  }

  /** The expected assay falls with time, fastest under accelerated storage and slowest long-term. */
  lemma DegradationOrder(t: nat, u: nat)
    requires t <= u
    ensures ExpectedAssay("Long-term", u) <= ExpectedAssay("Long-term", t)
    ensures ExpectedAssay("Accelerated", u) <= ExpectedAssay("Accelerated", t)
    ensures ExpectedAssay("Intermediate", u) <= ExpectedAssay("Intermediate", t)
    ensures ExpectedAssay("Accelerated", t) <= ExpectedAssay("Intermediate", t) <= ExpectedAssay("Long-term", t)
  {
    assert "Intermediate" != "Accelerated" && "Long-term" != "Accelerated" && "Long-term" != "Intermediate";
  }

  /** The four measured values of one test. */
  datatype Assays = Assays(assay: real, dissolution: real, impurities: real, water: real)

  /** The measured values; total impurities never fall below the initial 0.1 %. */
  function Measure(name: String, t: nat, d: StabDraw): (m: Assays)
    ensures m.impurities >= 0.1
  {
    var rate := DegRate(name);
    var impurities := 0.1 + rate * t as real * 0.3 + Exponential(0.02, d.impurities);
    assert rate * t as real * 0.3 >= 0.0;
    RoundMonotone(0.1, impurities, 3);
    RoundTenth();
    Assays(
      Round(100.0 - rate * t as real + Normal(0.0, 0.5, d.assay), 2),
      Round(92.0 - rate * t as real * 0.5 + Normal(0.0, 1.0, d.dissolution), 1),
      Round(impurities, 3),
      Round(2.0 + rate * t as real * 0.1 + Normal(0.0, 0.1, d.water), 2))
  }

  lemma RoundTenth()
    ensures Round(0.1, 3) == 0.1
  {
    assert Pow10(3) == 1000;
  }

  /** What the source promises of every test about the slot it was made for. */
  predicate StabFacts(r: StabRecord, s: StabSlot) {
    && r.studyId == StudyId(FromOrdinal(s.made).year, s.study)
    && r.batchId == s.batchId
    && r.condition == s.condition.name && r.storageTempC == s.condition.temp && r.storageRhPct == s.condition.rh
    && r.timepointMonths == s.timepoint
    && ValidDate(r.testDate) && ToOrdinal(r.testDate) == s.made + 30 * s.timepoint
    && r.totalImpuritiesPct >= 0.1
    && (r.overallResult == "Pass" <==>
          95.0 <= r.assayPercent <= 105.0 && r.dissolutionPct >= 80.0 && r.totalImpuritiesPct <= 1.0)
    && (r.overallResult == "Pass" || r.overallResult == "Fail")
    && (r.assayPercent > 95.0 ==> r.appearance == "White, round tablets")
    && (r.assayPercent <= 95.0 ==> r.appearance == "Slight yellowing observed")
    && r.analyst in QcAnalysts
  }

  /** The record of one test. */
  function StabRow(s: StabSlot, d: StabDraw): (r: StabRecord)
    ensures StabFacts(r, s)
  {
    var made := FromOrdinal(s.made);
    Judged(s, made.year, AddDays(made, 30 * s.timepoint),
           Measure(s.condition.name, s.timepoint, d), Choice(d.analyst, QcAnalysts))
  }

  /** The record of a test from its dates, its measured values and its analyst, judged against the limits. */
  function Judged(s: StabSlot, year: int, testDate: Date, m: Assays, analyst: String): (r: StabRecord)
    requires year == FromOrdinal(s.made).year
    requires ValidDate(testDate) && ToOrdinal(testDate) == s.made + 30 * s.timepoint
    requires m.impurities >= 0.1 && analyst in QcAnalysts
    ensures StabFacts(r, s)
  {
    var inSpec := 95.0 <= m.assay <= 105.0 && m.dissolution >= 80.0 && m.impurities <= 1.0;
    StabRecord(
      studyId := StudyId(year, s.study), batchId := s.batchId,
      condition := s.condition.name, storageTempC := s.condition.temp, storageRhPct := s.condition.rh,
      timepointMonths := s.timepoint, testDate := testDate,
      assayPercent := m.assay, dissolutionPct := m.dissolution,
      totalImpuritiesPct := m.impurities, waterContentPct := m.water,
      appearance := if m.assay > 95.0 then "White, round tablets" else "Slight yellowing observed",
      overallResult := if inSpec then "Pass" else "Fail",
      analyst := analyst)
  }

  /* ---------- the plan ---------- */

  /** The tests of one batch under one condition, one per time point, numbered from `first`. */
  function ConditionSlots(b: String, made: Ordinal, c: Condition, study: nat, first: nat): (slots: seq<StabSlot>)
    ensures |slots| == |c.timepoints|
    ensures forall j :: 0 <= j < |slots| ==> slots[j] == StabSlot(b, made, c, c.timepoints[j], study, first + j)
  {
    seq(|c.timepoints|, j requires 0 <= j < |c.timepoints| => StabSlot(b, made, c, c.timepoints[j], study, first + j))
  }

  /** The number of tests of the first `k` conditions. */
  function TestsBefore(k: nat): nat
    requires k <= |Conditions|
  {
    if k == 0 then 0 else TestsBefore(k - 1) + |Conditions[k - 1].timepoints|
  }

  /** The tests of one batch under the first `k` conditions: condition `c` is study `study + c`. */
  function BatchSlots(b: String, made: Ordinal, k: nat, study: nat, first: nat): (slots: seq<StabSlot>)
    requires k <= |Conditions|
    ensures |slots| == TestsBefore(k)
  {
    if k == 0 then []
    else BatchSlots(b, made, k - 1, study, first)
         + ConditionSlots(b, made, Conditions[k - 1], study + k - 1, first + TestsBefore(k - 1))
  }

  /** The tests of the studied batches; batch `j` holds studies `3j + 1` to `3j + 3`. */
  function StabPlan(bs: seq<Study>): (slots: seq<StabSlot>)
    ensures |slots| == TestsPerBatch * |bs|
  {
    if bs == [] then []
    else
      var n := |bs|;
      assert TestsBefore(3) == TestsPerBatch;
      StabPlan(bs[..n - 1])
        + BatchSlots(bs[n - 1].batchId, bs[n - 1].made, |Conditions|, 1 + 3 * (n - 1), 1 + TestsPerBatch * (n - 1))
  }

  /** `make` builds every test as `StabRow` does. */
  ghost predicate MakesTests(make: StabSlot -> StabRecord, draw: nat -> StabDraw) {
    forall s: StabSlot {:trigger StabRow(s, draw(s.row))} :: make(s) == StabRow(s, draw(s.row))
  }

  function StabMaker(draw: nat -> StabDraw): StabSlot -> StabRecord
  {
    (s: StabSlot) => StabRow(s, draw(s.row))
  }

  lemma StabMakerMakes(draw: nat -> StabDraw)
    ensures MakesTests(StabMaker(draw), draw)
  {
    forall s: StabSlot
      ensures StabMaker(draw)(s) == StabRow(s, draw(s.row))
    {
    }
  }

  /* ---------- the loops ---------- */

  /**
   * `generate_stability_data(manufacturing_df, batches_per_study)`: a
   * `KeyError` on a table with no `batch_id` column (the empty table), a
   * `ZeroDivisionError` when `batches_per_study` is 0, a `ValueError` when
   * the date of a chosen batch does not parse, otherwise the table of the plan.
   */
  method GenerateStability(mfg: seq<BatchRecord>, batchesPerStudy: int, draw: nat -> StabDraw)
    returns (result: Result<seq<StabRecord>, PyError>)
    ensures mfg == [] ==> result == Failure(KeyError("batch_id"))
    ensures mfg != [] && batchesPerStudy == 0 ==> result == Failure(ZeroDivisionError)
    ensures mfg != [] && batchesPerStudy != 0 ==>
      var chosen := Selection(mfg, batchesPerStudy);
      && (result.Success? <==> ChosenParse(mfg, chosen, |chosen|))
      && (result.Failure? ==> result.error.ValueError?)
      && (result.Success? ==> result.value == Rows(StabMaker(draw), StabPlan(Studies(mfg, chosen, |chosen|))))
  {
    if mfg == [] {
      return Failure(KeyError("batch_id"));
    }
    if batchesPerStudy == 0 {
      return Failure(ZeroDivisionError);
    }
    var chosen := Selection(mfg, batchesPerStudy);
    ChosenInTable(mfg, batchesPerStudy);
    StabMakerMakes(draw);
    result := StudyBatches(mfg, chosen, draw, StabMaker(draw));
  }

  /** Every chosen id is an id of the table. */
  lemma ChosenInTable(mfg: seq<BatchRecord>, batchesPerStudy: int)
    requires batchesPerStudy != 0
    ensures forall x :: x in Selection(mfg, batchesPerStudy) ==> x in BatchIds(mfg)
  {
    var ids := Frames.Unique(BatchIds(mfg));
    var step := Stride(|ids|, batchesPerStudy);
    StridedDistinct(ids, step);
  }

  /** The `for batch_id in selected_batches` loop. */
  method StudyBatches(mfg: seq<BatchRecord>, chosen: seq<String>, draw: nat -> StabDraw,
                      ghost make: StabSlot -> StabRecord)
    returns (result: Result<seq<StabRecord>, PyError>)
    requires forall x :: x in chosen ==> x in BatchIds(mfg)
    requires MakesTests(make, draw)
    ensures result.Success? <==> ChosenParse(mfg, chosen, |chosen|)
    ensures result.Failure? ==> result.error.ValueError?
    ensures result.Success? ==> result.value == Rows(make, StabPlan(Studies(mfg, chosen, |chosen|)))
  {
    var records: seq<StabRecord> := [];
    var studyIndex: nat := 1;
    var row: nat := 1;
    var i := 0;
    while i < |chosen|
      invariant 0 <= i <= |chosen| && ChosenParse(mfg, chosen, i)
      invariant studyIndex == 1 + 3 * i && row == 1 + TestsPerBatch * i
      invariant records == Rows(make, StabPlan(Studies(mfg, chosen, i)))
    {
      var m := Lookup(mfg, chosen[i]);
      if !ValidDate(m.manufacturingDate) {
        return Failure(ValueError("time data does not match format '%Y-%m-%d'"));
      }
      StudiesStep(mfg, chosen, i);
      records := StudyStep(Studies(mfg, chosen, i), Study(chosen[i], ToOrdinal(m.manufacturingDate)), draw, make, records);
      studyIndex, row := studyIndex + 3, row + TestsPerBatch;
      i := i + 1;
    }
    return Success(records);
  }

  /** One pass of the batch loop: the batch's 18 tests appended to the table so far. */
  method StudyStep(bs: seq<Study>, b: Study, draw: nat -> StabDraw, ghost make: StabSlot -> StabRecord,
                   records: seq<StabRecord>)
    returns (extended: seq<StabRecord>)
    requires MakesTests(make, draw)
    requires records == Rows(make, StabPlan(bs))
    ensures extended == Rows(make, StabPlan(bs + [b]))
  {
    ghost var slots := BatchSlots(b.batchId, b.made, |Conditions|, 1 + 3 * |bs|, 1 + TestsPerBatch * |bs|);
    var rows := StudyBatch(b.batchId, b.made, 1 + 3 * |bs|, 1 + TestsPerBatch * |bs|, draw, make);
    assert rows == Rows(make, slots);
    PlanRowsStep(bs, b, make);
    extended := records + rows;
  }

  /** The `for condition in conditions` loop of one batch. */
  method StudyBatch(b: String, made: Ordinal, study: nat, first: nat, draw: nat -> StabDraw,
                    ghost make: StabSlot -> StabRecord)
    returns (rows: seq<StabRecord>)
    requires MakesTests(make, draw)
    ensures rows == Rows(make, BatchSlots(b, made, |Conditions|, study, first))
  {
    rows := [];
    var studyIndex := study;
    var k := 0;
    while k < |Conditions|
      invariant 0 <= k <= |Conditions| && studyIndex == study + k
      invariant rows == Rows(make, BatchSlots(b, made, k, study, first))
    {
      rows := ConditionStep(b, made, k, study, first, draw, make, rows);
      studyIndex := studyIndex + 1;
      k := k + 1;
    }
  }

  /** One pass of the condition loop: the tests of condition `k` appended. */
  method ConditionStep(b: String, made: Ordinal, k: nat, study: nat, first: nat, draw: nat -> StabDraw,
                       ghost make: StabSlot -> StabRecord, rows: seq<StabRecord>)
    returns (extended: seq<StabRecord>)
    requires k < |Conditions| && MakesTests(make, draw)
    requires rows == Rows(make, BatchSlots(b, made, k, study, first))
    ensures extended == Rows(make, BatchSlots(b, made, k + 1, study, first))
  {
    var c := Conditions[k];
    var start := first + TestsBefore(k);
    var tests := StudyCondition(b, made, c, study + k, start, draw, make);
    RowsAppend(make, BatchSlots(b, made, k, study, first), ConditionSlots(b, made, c, study + k, start));
    extended := rows + tests;
  }

  /** The `for timepoint in condition["timepoints"]` loop of one study. */
  method StudyCondition(b: String, made: Ordinal, c: Condition, study: nat, first: nat, draw: nat -> StabDraw,
                        ghost make: StabSlot -> StabRecord)
    returns (rows: seq<StabRecord>)
    requires MakesTests(make, draw)
    ensures rows == Rows(make, ConditionSlots(b, made, c, study, first))
  {
    rows := [];
    var j := 0;
    while j < |c.timepoints|
      invariant 0 <= j <= |c.timepoints|
      invariant rows == Rows(make, ConditionSlots(b, made, c, study, first)[..j])
    {
      var s := StabSlot(b, made, c, c.timepoints[j], study, first + j);
      var record := Test(s, draw, make);
      assert ConditionSlots(b, made, c, study, first)[..j + 1] == ConditionSlots(b, made, c, study, first)[..j] + [s];
      RowsAppend(make, ConditionSlots(b, made, c, study, first)[..j], [s]);
      rows := rows + [record];
      j := j + 1;
    }
    assert ConditionSlots(b, made, c, study, first)[..j] == ConditionSlots(b, made, c, study, first);
  }

  /** The body of the innermost loop: one test. */
  method Test(s: StabSlot, draw: nat -> StabDraw, ghost make: StabSlot -> StabRecord) returns (record: StabRecord)
    requires MakesTests(make, draw)
    ensures record == make(s)
  {
    record := StabRow(s, draw(s.row));
  }

  lemma RowsAppend(make: StabSlot -> StabRecord, a: seq<StabSlot>, b: seq<StabSlot>)
    ensures Rows(make, a + b) == Rows(make, a) + Rows(make, b)
  {
    var l, r := Rows(make, a + b), Rows(make, a) + Rows(make, b);
    forall i | 0 <= i < |l|
      ensures l[i] == r[i]
    {
      if i >= |a| {
        assert (a + b)[i] == b[i - |a|];
      }
    }
  }

  /* ---------- properties of the plan ---------- */

  /** A test of batch `b` made on `made`, under a listed condition at one of its time points, in a study from `lo` to `hi`. */
  predicate TestOf(s: StabSlot, b: String, made: Ordinal, lo: nat, hi: nat) {
    && s.batchId == b && s.made == made && s.condition in Conditions
    && s.timepoint in s.condition.timepoints && lo <= s.study <= hi
  }

  /** The tests of one batch are numbered consecutively and belong to the batch's three studies. */
  lemma {:induction false} BatchSlotsShape(b: String, made: Ordinal, k: nat, study: nat, first: nat)
    requires k <= |Conditions|
    ensures forall j :: 0 <= j < |BatchSlots(b, made, k, study, first)| ==>
      BatchSlots(b, made, k, study, first)[j].row == first + j
      && TestOf(BatchSlots(b, made, k, study, first)[j], b, made, study, study + 2)
  {
    if k > 0 {
      BatchSlotsShape(b, made, k - 1, study, first);
      var x: seq<StabSlot> := BatchSlots(b, made, k - 1, study, first);
      var y: seq<StabSlot> := ConditionSlots(b, made, Conditions[k - 1], study + k - 1, first + TestsBefore(k - 1));
      assert BatchSlots(b, made, k, study, first) == x + y;
      forall j | 0 <= j < |x + y|
        ensures (x + y)[j].row == first + j && TestOf((x + y)[j], b, made, study, study + 2)
      {
        if j >= |x| {
          assert (x + y)[j] == y[j - |x|];
        }
      }
    }
  }

  /** The plan grown by one batch. */
  lemma {:induction false} PlanGrow(bs: seq<Study>, b: Study)
    ensures StabPlan(bs + [b]) == StabPlan(bs) + BatchSlots(b.batchId, b.made, |Conditions|, 1 + 3 * |bs|, 1 + TestsPerBatch * |bs|)
  {
    var c: seq<Study> := bs + [b];
    assert c[..|bs|] == bs && c[|bs|] == b;
  }

  /** The records of the plan grown by one batch. */
  lemma PlanRowsStep(bs: seq<Study>, b: Study, make: StabSlot -> StabRecord)
    ensures Rows(make, StabPlan(bs + [b])) == Rows(make, StabPlan(bs))
      + Rows(make, BatchSlots(b.batchId, b.made, |Conditions|, 1 + 3 * |bs|, 1 + TestsPerBatch * |bs|))
  {
    PlanGrow(bs, b);
    RowsAppend(make, StabPlan(bs), BatchSlots(b.batchId, b.made, |Conditions|, 1 + 3 * |bs|, 1 + TestsPerBatch * |bs|));
  }

  lemma BatchOfTest(k: nat, n: nat)
    requires TestsPerBatch * n <= k < TestsPerBatch * n + TestsPerBatch
    ensures k / TestsPerBatch == n
  {
  }

  /**
   * Test `k` (from 0) of a plan carries number `k + 1` and belongs to studied
   * batch `k / 18`, in one of that batch's studies `3 (k / 18) + 1` to `3 (k / 18) + 3`.
   */
  lemma {:induction false} PlanAt(bs: seq<Study>, k: nat)
    requires k < TestsPerBatch * |bs|
    ensures k / TestsPerBatch < |bs|
    ensures StabPlan(bs)[k].row == k + 1
    ensures TestOf(StabPlan(bs)[k], bs[k / TestsPerBatch].batchId, bs[k / TestsPerBatch].made,
                   3 * (k / TestsPerBatch) + 1, 3 * (k / TestsPerBatch) + 3)
  {
    var n := |bs|;
    var init: seq<Study> := bs[..n - 1];
    var x: seq<StabSlot> := StabPlan(init);
    var y: seq<StabSlot> := BatchSlots(bs[n - 1].batchId, bs[n - 1].made, |Conditions|, 1 + 3 * (n - 1), 1 + TestsPerBatch * (n - 1));
    assert StabPlan(bs) == x + y;
    if k < |x| {
      PlanAt(init, k);
      assert (x + y)[k] == x[k];
      assert init[k / TestsPerBatch] == bs[k / TestsPerBatch];
    } else {
      BatchOfTest(k, n - 1);
      BatchSlotsShape(bs[n - 1].batchId, bs[n - 1].made, |Conditions|, 1 + 3 * (n - 1), 1 + TestsPerBatch * (n - 1));
      assert (x + y)[k] == y[k - |x|];
    }
  }

  /** The number after the last '-' of study id number `index` reads back as `index`. */
  lemma StudyIdNumber(year: int, index: nat)
    ensures IdNumber(StudyId(year, index)) == index
  {
    PaddedIdNumber("STAB-" + IntToString(year), index, 4);
  }

  /**
   * Every test of the table keeps the per-test promises, is dated 30 days
   * per month of its time point after its batch was made, and test `k`
   * (from 0) belongs to studied batch `k / 18` and one of its three studies.
   */
  lemma StabTable(make: StabSlot -> StabRecord, draw: nat -> StabDraw, bs: seq<Study>)
    requires MakesTests(make, draw)
    ensures |Rows(make, StabPlan(bs))| == TestsPerBatch * |bs|
    ensures forall k :: 0 <= k < |StabPlan(bs)| ==>
      StabFacts(Rows(make, StabPlan(bs))[k], StabPlan(bs)[k])
      && k / TestsPerBatch < |bs|
      && StabPlan(bs)[k].batchId == bs[k / TestsPerBatch].batchId
      && StabPlan(bs)[k].made == bs[k / TestsPerBatch].made
      && (IdNumber(Rows(make, StabPlan(bs))[k].studyId) - 1) / 3 == k / TestsPerBatch
  {
    forall k | 0 <= k < |StabPlan(bs)|
      ensures StabFacts(Rows(make, StabPlan(bs))[k], StabPlan(bs)[k])
        && k / TestsPerBatch < |bs|
        && StabPlan(bs)[k].batchId == bs[k / TestsPerBatch].batchId
        && StabPlan(bs)[k].made == bs[k / TestsPerBatch].made
        && (IdNumber(Rows(make, StabPlan(bs))[k].studyId) - 1) / 3 == k / TestsPerBatch
    {
      TableAt(make, draw, bs, k);
    }
  }

  lemma TableAt(make: StabSlot -> StabRecord, draw: nat -> StabDraw, bs: seq<Study>, k: nat)
    requires MakesTests(make, draw) && k < |StabPlan(bs)|
    ensures StabFacts(Rows(make, StabPlan(bs))[k], StabPlan(bs)[k])
    ensures k / TestsPerBatch < |bs|
    ensures StabPlan(bs)[k].batchId == bs[k / TestsPerBatch].batchId
    ensures StabPlan(bs)[k].made == bs[k / TestsPerBatch].made
    ensures (IdNumber(Rows(make, StabPlan(bs))[k].studyId) - 1) / 3 == k / TestsPerBatch
  {
    var s := StabPlan(bs)[k];
    PlanAt(bs, k);
    var r := StabRow(s, draw(s.row));
    assert Rows(make, StabPlan(bs))[k] == r;
    StudyIdNumber(FromOrdinal(s.made).year, s.study);
    StudyOfBatch(s.study, k / TestsPerBatch);
  }

  lemma StudyOfBatch(study: nat, j: nat)
    requires 3 * j + 1 <= study <= 3 * j + 3
    ensures (study - 1) / 3 == j
  {
  }
}
