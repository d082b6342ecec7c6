/**
 * `generate_qc_data`: one laboratory record per manufacturing record, in the
 * same order. The sample is tested one to three days after manufacture, and
 * the overall result is "Pass" exactly when every individual test passes.
 * Row `i` takes its draws from `draw(i)`.
 */
module Qc {
  import opened Wrappers
  import opened Numeric
  import opened Text
  import opened Calendar
  import opened Scenarios
  import opened Catalog
  import opened Manufacturing

  /**
   * The draws one QC record consumes. `vessel(k)` and `cu(k)` are the standard
   * normal draws of dissolution vessel `k` and content-uniformity value `k`;
   * `cuStd` is the population standard deviation of the ten rounded values,
   * which needs a square root and so enters as a value of its own.
   */
  datatype QcDraw = QcDraw(
    testDelay: nat, analystChemical: nat, analystPhysical: nat, hplc: nat, apparatus: nat,
    irConforms: UnitReal, hplcRt: real, assay: real,
    vessel: nat -> real, cu: nat -> real, cuStd: NonNegReal,
    impurityA: NonNegReal, impurityB: NonNegReal, impurityOther: NonNegReal,
    hardness: real, friability: NonNegReal, disintegration: real,
    weight: real, weightRsd: NonNegReal, tamc: NonNegReal, tymc: NonNegReal)

  /** One row of the QC table; the six dissolution vessel columns are `dissolutionVessels[0..6]`. */
  datatype QcRecord = QcRecord(
    sampleId: String, batchId: String, testDate: Date,
    productName: String, productCode: String,
    analystChemical: String, analystPhysical: String,
    hplcSystem: String, dissolutionApparatus: String,
    idIrResult: String, idHplcRtMin: real,
    assayPercent: real, assayResult: String,
    dissolutionVessels: seq<real>, dissolutionMean: real, dissolutionMin: real, dissolutionResult: String,
    cuAcceptanceValue: real, cuResult: String,
    impurityAPct: real, impurityBPct: real, totalImpuritiesPct: real, impuritiesResult: String,
    hardnessMeanKp: real, friabilityPct: real, disintegrationMaxMin: real,
    weightMeanMg: real, weightRsdPct: real,
    tamcCfuG: int, tymcCfuG: int, microResult: String,
    overallResult: String, comments: String)

  /** `"Pass" if ok else "Fail"`. */
  function PassFail(ok: bool): (r: String)
    ensures r == "Pass" || r == "Fail"
    ensures r == "Pass" <==> ok
  {
    if ok then "Pass" else "Fail"
  }

  /** `"" if overall_result == "Pass" else "Investigation required"`. */
  function Comments(pass: bool): (c: String)
    ensures c == "" <==> pass
  {
    if pass then "" else "Investigation required"
  }

  /** The test date, one to three days after manufacture. */
  function TestDate(d: Date, u: nat): (t: Date)
    requires ValidDate(d)
    ensures ValidDate(t) && 1 <= DaysBetween(d, t) <= 3
  {
    AddDays(d, RandInt(u, 1, 3))
  }

  /** `random.choice([a for a in QC_ANALYSTS if a != chemical])`. */
  function OtherAnalyst(chemical: String, u: nat): (a: String)
    ensures a in QcAnalysts && a != chemical
  {
    OperatorsDistinctHead();
    WithoutNonEmpty(QcAnalysts, chemical);
    Choice(u, Without(QcAnalysts, chemical))
  }

  /** The assay target: 101.5 % during the method transition, 100 % otherwise. */
  function AssayBase(adj: Adjustments): real
  {
    if adj.description == Some(MethodTransitionLabel) then 101.5 else 100.0
  }

  /** The six dissolution results, each rounded to one decimal. */
  function Vessels(base: real, z: nat -> real): (v: seq<real>)
    ensures |v| == 6
    ensures forall k :: 0 <= k < 6 ==> v[k] == Round(Normal(base, 3.0, z(k)), 1)
  {
    seq(6, k requires 0 <= k < 6 => Round(Normal(base, 3.0, z(k)), 1))
  }

  /** The ten content-uniformity results, each rounded to one decimal. */
  function CuValues(z: nat -> real): (v: seq<real>)
    ensures |v| == 10
  {
    seq(10, k requires 0 <= k < 10 => Round(Normal(100.0, 2.0, z(k)), 1))
  }

  /** What the source promises of every QC record about its own test results. */
  predicate QcFacts(r: QcRecord) {
    && |r.dissolutionVessels| == 6
    && r.dissolutionMin == MinOf(r.dissolutionVessels)
    && r.dissolutionMean == Round(Mean(r.dissolutionVessels), 1)
    && r.dissolutionMin <= r.dissolutionMean <= MaxOf(r.dissolutionVessels)
    && (r.assayResult == "Pass" <==> 95.0 <= r.assayPercent <= 105.0)
    && (r.dissolutionResult == "Pass" <==> r.dissolutionMin >= 75.0)
    && (r.cuResult == "Pass" <==> r.cuAcceptanceValue <= 15.0)
    && (r.impuritiesResult == "Pass" <==> r.totalImpuritiesPct <= 1.0)
    && (r.microResult == "Pass" <==> r.tamcCfuG < 1000 && r.tymcCfuG < 100)
    && (r.overallResult == "Pass" <==>
          && 95.0 <= r.assayPercent <= 105.0
          && r.dissolutionMin >= 75.0
          && r.cuAcceptanceValue <= 15.0
          && r.totalImpuritiesPct <= 1.0
          && r.tamcCfuG < 1000 && r.tymcCfuG < 100
          && r.friabilityPct < 1.0
          && r.disintegrationMaxMin < 15.0)
    && (r.overallResult == "Pass" || r.overallResult == "Fail")
    && (r.comments == "" <==> r.overallResult == "Pass")
    && r.tamcCfuG >= 0 && r.tymcCfuG >= 0
    && r.analystChemical in QcAnalysts && r.analystPhysical in QcAnalysts
    && r.analystChemical != r.analystPhysical
  }

  /** The result of the dissolution test: the mean and the minimum of the six vessels. */
  function Dissolution(v: seq<real>): (r: (real, real))
    requires |v| == 6
    requires forall k :: 0 <= k < 6 ==> v[k] == Round(v[k], 1)
    ensures r.0 == Round(Mean(v), 1) && r.1 == MinOf(v)
    ensures MinOf(v) <= r.0 <= MaxOf(v)
  {
    MeanBetweenMinMax(v);
    RoundMonotone(MinOf(v), Mean(v), 1);
    RoundMonotone(Mean(v), MaxOf(v), 1);
    RoundedIsRounded(v, MinOf(v));
    RoundedIsRounded(v, MaxOf(v));
    (Round(Mean(v), 1), MinOf(v))
  }

  /** The six vessels drawn around `base`, with their rounded mean and their minimum. */
  function DissolutionTest(base: real, z: nat -> real): (r: (seq<real>, real, real))
    ensures r.0 == Vessels(base, z)
    ensures r.1 == Round(Mean(r.0), 1) && r.2 == MinOf(r.0) && MinOf(r.0) <= r.1 <= MaxOf(r.0)
  {
    var vessels := Vessels(base, z);
    VesselsRounded(base, z);
    var diss := Dissolution(vessels);
    (vessels, diss.0, diss.1)
  }

  lemma RoundedIsRounded(v: seq<real>, x: real)
    requires forall k :: 0 <= k < |v| ==> v[k] == Round(v[k], 1)
    requires x in v
    ensures Round(x, 1) == x
  {
    var k :| 0 <= k < |v| && v[k] == x;
    RoundIdempotent(v[k], 1);
  }

  /** The numeric results of one sample, before they are judged. */
  datatype Measurements = Measurements(
    hplcRt: real, assay: real, vessels: seq<real>, dissolutionMean: real, dissolutionMin: real,
    cuAv: real, impurityA: real, impurityB: real, totalImpurities: real,
    hardness: real, friability: real, disintegration: real, weight: real, weightRsd: real,
    tamc: int, tymc: int)

  /** The measurements of a sample tested under `adj`. */
  function Measure(adj: Adjustments, d: QcDraw): (x: Measurements)
    ensures |x.vessels| == 6
    ensures x.dissolutionMin == MinOf(x.vessels) && x.dissolutionMin <= x.dissolutionMean <= MaxOf(x.vessels)
    ensures x.dissolutionMean == Round(Mean(x.vessels), 1)
    ensures x.tamc >= 0 && x.tymc >= 0
  {
    var dissolution := DissolutionTest(92.0 + adj.dissolutionModifier, d.vessel);
    var impA := Round(Exponential(0.05, d.impurityA), 3);
    var impB := Round(Exponential(0.03, d.impurityB), 3);
    Measurements(
      hplcRt := Round(Normal(8.5, 0.1, d.hplcRt), 3),
      assay := Round(Normal(AssayBase(adj), 1.5, d.assay), 2),
      vessels := dissolution.0, dissolutionMean := dissolution.1, dissolutionMin := dissolution.2,
      cuAv := Round(Abs(Mean(CuValues(d.cu)) - 100.0) + 2.4 * d.cuStd, 1),
      impurityA := impA, impurityB := impB,
      totalImpurities := Round(impA + impB + Exponential(0.02, d.impurityOther), 3),
      hardness := Round(Normal(12.0 + adj.hardnessModifier * 0.5, 1.0, d.hardness), 1),
      friability := Round(Exponential(0.3, d.friability), 2),
      disintegration := Round(Normal(8.0, 2.0, d.disintegration), 1),
      weight := Round(Normal(500.0, 3.0, d.weight), 1),
      weightRsd := Round(Exponential(1.0, d.weightRsd), 2),
      tamc := Trunc(Exponential(50.0, d.tamc)),
      tymc := Trunc(Exponential(20.0, d.tymc)))
  }

  /** Every test passes its limit. */
  predicate AllPass(x: Measurements) {
    && 95.0 <= x.assay <= 105.0
    && x.dissolutionMin >= 75.0
    && x.cuAv <= 15.0
    && x.totalImpurities <= 1.0
    && x.tamc < 1000 && x.tymc < 100
    && x.friability < 1.0
    && x.disintegration < 15.0
  }

  /** The record of sample `m` with its measurements judged against the limits. */
  function Judged(m: BatchRecord, testDate: Date, chemical: String, physical: String, d: QcDraw,
                  x: Measurements): (r: QcRecord)
    requires |x.vessels| == 6
    requires x.dissolutionMin == MinOf(x.vessels) && x.dissolutionMin <= x.dissolutionMean <= MaxOf(x.vessels)
    requires x.dissolutionMean == Round(Mean(x.vessels), 1)
    requires x.tamc >= 0 && x.tymc >= 0
    requires chemical in QcAnalysts && physical in QcAnalysts && chemical != physical
    ensures QcFacts(r)
    ensures r.sampleId == "QC-" + m.batchId && r.batchId == m.batchId
    ensures r.productName == m.productName && r.productCode == m.productCode && r.testDate == testDate
  {
    QcRecord(
      sampleId := "QC-" + m.batchId, batchId := m.batchId, testDate := testDate,
      productName := m.productName, productCode := m.productCode,
      analystChemical := chemical, analystPhysical := physical,
      hplcSystem := Choice(d.hplc, HplcSystems),
      dissolutionApparatus := Choice(d.apparatus, DissolutionApparatus),
      idIrResult := if d.irConforms > 0.001 then "Conforms" else "Does Not Conform",
      idHplcRtMin := x.hplcRt,
      assayPercent := x.assay, assayResult := PassFail(95.0 <= x.assay <= 105.0),
      dissolutionVessels := x.vessels, dissolutionMean := x.dissolutionMean, dissolutionMin := x.dissolutionMin,
      dissolutionResult := PassFail(x.dissolutionMin >= 75.0),
      cuAcceptanceValue := x.cuAv, cuResult := PassFail(x.cuAv <= 15.0),
      impurityAPct := x.impurityA, impurityBPct := x.impurityB, totalImpuritiesPct := x.totalImpurities,
      impuritiesResult := PassFail(x.totalImpurities <= 1.0),
      hardnessMeanKp := x.hardness,
      friabilityPct := x.friability, disintegrationMaxMin := x.disintegration,
      weightMeanMg := x.weight, weightRsdPct := x.weightRsd,
      tamcCfuG := x.tamc, tymcCfuG := x.tymc, microResult := PassFail(x.tamc < 1000 && x.tymc < 100),
      overallResult := PassFail(AllPass(x)),
      comments := Comments(AllPass(x)))
  }

  /** One iteration of the loop over the manufacturing rows: the QC record of `m`. */
  function QcRow(m: BatchRecord, d: QcDraw): (r: QcRecord)
    requires ValidDate(m.manufacturingDate)
    ensures QcFacts(r)
    ensures r.sampleId == "QC-" + m.batchId && r.batchId == m.batchId
    ensures r.productName == m.productName && r.productCode == m.productCode
    ensures ValidDate(r.testDate) && 1 <= DaysBetween(m.manufacturingDate, r.testDate) <= 3
  {
    var testDate := TestDate(m.manufacturingDate, d.testDelay);
    var adj := ScenarioAdjustments(testDate, Some(m.tabletPressId));
    var chemical := Choice(d.analystChemical, QcAnalysts);
    Judged(m, testDate, chemical, OtherAnalyst(chemical, d.analystPhysical), d, Measure(adj, d))
  }

  lemma VesselsRounded(base: real, z: nat -> real)
    ensures forall k :: 0 <= k < 6 ==> Vessels(base, z)[k] == Round(Vessels(base, z)[k], 1)
  {
    var v := Vessels(base, z);
    forall k | 0 <= k < 6
      ensures v[k] == Round(v[k], 1)
    {
      RoundIdempotent(Normal(base, 3.0, z(k)), 1);
    }
  }

  /** The manufacturing dates `strptime` accepts: every row's date is a real calendar date. */
  predicate DatesParse(mfg: seq<BatchRecord>) {
    forall i :: 0 <= i < |mfg| ==> ValidDate(mfg[i].manufacturingDate)
  }

  /**
   * `generate_qc_data(manufacturing_df)`: a `ValueError` from `strptime` when
   * a manufacturing date is not a calendar date, otherwise one record per
   * manufacturing row, in the same order.
   */
  method GenerateQc(mfg: seq<BatchRecord>, draw: nat -> QcDraw) returns (result: Result<seq<QcRecord>, PyError>)
    ensures result.Success? <==> DatesParse(mfg)
    ensures result.Failure? ==> result.error.ValueError?
    ensures result.Success? ==> |result.value| == |mfg|
    ensures result.Success? ==> forall i :: 0 <= i < |mfg| ==>
      ValidDate(mfg[i].manufacturingDate) && result.value[i] == QcRow(mfg[i], draw(i))
  {
    TesterTests();
    result := TestRows(mfg, draw, Tester());
  }

  /**
   * The loop over the manufacturing rows, for any `test` that agrees with
   * `QcRow` on rows with a calendar date; the loop never looks inside a record.
   */
  method TestRows(mfg: seq<BatchRecord>, draw: nat -> QcDraw, ghost test: (BatchRecord, QcDraw) -> QcRecord)
    returns (result: Result<seq<QcRecord>, PyError>)
    requires TestsSamples(test)
    ensures result.Success? <==> DatesParse(mfg)
    ensures result.Failure? ==> result.error.ValueError?
    ensures result.Success? ==> |result.value| == |mfg|
    ensures result.Success? ==> forall i :: 0 <= i < |mfg| ==>
      ValidDate(mfg[i].manufacturingDate) && result.value[i] == test(mfg[i], draw(i))
  {
    var records: seq<QcRecord> := [];
    var i := 0;
    while i < |mfg|
      invariant 0 <= i <= |mfg| && |records| == i
      invariant forall j :: 0 <= j < i ==> ValidDate(mfg[j].manufacturingDate) && records[j] == test(mfg[j], draw(j))
    {
      if !ValidDate(mfg[i].manufacturingDate) {
        return Failure(ValueError("time data does not match format '%Y-%m-%d'"));
      }
      var row := TestSample(mfg[i], draw(i), test);
      records := records + [row];
      i := i + 1;
    }
    return Success(records);
  }

  /** `test` builds the QC record of every row whose date parses. */
  ghost predicate TestsSamples(test: (BatchRecord, QcDraw) -> QcRecord) {
    forall m: BatchRecord, d: QcDraw {:trigger QcRow(m, d)} ::
      ValidDate(m.manufacturingDate) ==> test(m, d) == QcRow(m, d)
  }

  /** `QcRow` made total: a row whose date does not parse is given the epoch as its date. */
  function Tester(): (BatchRecord, QcDraw) -> QcRecord
  {
    (m: BatchRecord, d: QcDraw) => QcRow(Parsed(m), d)
  }

  lemma TesterTests()
    ensures TestsSamples(Tester())
  {
    forall m: BatchRecord, d: QcDraw | ValidDate(m.manufacturingDate)
      ensures Tester()(m, d) == QcRow(m, d)
    {
      assert Parsed(m) == m;
    }
  }

  /** The body of the loop: the record of one manufacturing row. */
  method TestSample(m: BatchRecord, d: QcDraw, ghost test: (BatchRecord, QcDraw) -> QcRecord) returns (r: QcRecord)
    requires ValidDate(m.manufacturingDate) && TestsSamples(test)
    ensures r == test(m, d)
  {
    r := QcRow(m, d);
  }

  /** A QC table as `GenerateQc` returns it for `mfg`. */
  ghost predicate QcTable(qc: seq<QcRecord>, mfg: seq<BatchRecord>, draw: nat -> QcDraw) {
    && |qc| == |mfg|
    && forall i :: 0 <= i < |mfg| ==> ValidDate(mfg[i].manufacturingDate) && qc[i] == QcRow(mfg[i], draw(i))
  }

  /** `r` is the QC record of batch `m`: it names the batch and was tested after it was made. */
  predicate SampleOf(r: QcRecord, m: BatchRecord) {
    && r.sampleId == "QC-" + m.batchId && r.batchId == m.batchId
    && ValidDate(m.manufacturingDate) && ValidDate(r.testDate)
    && Before(m.manufacturingDate, r.testDate)
  }

  lemma QcTableSamples(qc: seq<QcRecord>, mfg: seq<BatchRecord>, draw: nat -> QcDraw)
    requires QcTable(qc, mfg, draw)
    ensures forall i :: 0 <= i < |qc| ==> SampleOf(qc[i], mfg[i]) && QcFacts(qc[i])
  {
    forall i | 0 <= i < |qc|
      ensures SampleOf(qc[i], mfg[i]) && QcFacts(qc[i])
    {
      QcRowSample(mfg[i], draw(i), qc[i]);
    }
  }

  lemma QcRowSample(m: BatchRecord, d: QcDraw, r: QcRecord)
    requires ValidDate(m.manufacturingDate) && r == QcRow(m, d)
    ensures SampleOf(r, m) && QcFacts(r)
  {
  }

  /**
   * Row `i` of the QC table tests batch `i`, so distinct batch ids give
   * distinct sample ids.
   */
  lemma QcSampleIdsUnique(qc: seq<QcRecord>, mfg: seq<BatchRecord>)
    requires |qc| == |mfg| && forall i :: 0 <= i < |qc| ==> SampleOf(qc[i], mfg[i])
    requires forall i, j :: 0 <= i < j < |mfg| ==> mfg[i].batchId != mfg[j].batchId
    ensures forall i, j :: 0 <= i < j < |qc| ==> qc[i].sampleId != qc[j].sampleId
  {
    forall i, j | 0 <= i < j < |qc|
      ensures qc[i].sampleId != qc[j].sampleId
    {
      if qc[i].sampleId == qc[j].sampleId {
        PrefixCancels("QC-", mfg[i].batchId, mfg[j].batchId);
      }
    }
  }

  lemma PrefixCancels(p: String, a: String, b: String)
    requires p + a == p + b
    ensures a == b
  {
    assert a == (p + a)[|p|..];
    assert b == (p + b)[|p|..];
  }
}
