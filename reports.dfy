/**
 * The report hierarchy's deterministic parts: anomaly rules over an uploaded
 * table, the reporting period a table covers, the monthly roll-up of file
 * reports, the month-over-month trend, the annual QC pass rate, the yearly
 * status board and the regenerate-everything loop.
 */
module Reports {
  import opened Wrappers
  import opened Text
  import opened Frames
  import Calendar
  import Numeric

  // ------------------------------------------------------------------
  // Anomaly rules
  // ------------------------------------------------------------------

  /** The row identifiers an anomaly lists, under the key the rule uses. */
  datatype Affected = NoList | Batches(batches: seq<Cell>) | EquipmentIds(equipment: seq<Cell>)

  datatype Anomaly = Anomaly(kind: String, severity: String, count: nat, description: String, affected: Affected)

  /** A rule fires when its columns exist and at least one row matches. */
  predicate Found(f: Frame, needs: set<String>, keep: Row -> bool) {
    needs <= f.columns && exists i :: 0 <= i < |f.rows| && keep(f.rows[i])
  }

  /** One rule: the rows passing `keep`, reported when every column of `needs` exists. */
  function Detect(f: Frame, needs: set<String>, keep: Row -> bool, kind: String,
                  severity: nat -> String, what: String, listing: seq<Row> -> Affected): (r: Option<Anomaly>)
    ensures r.Some? <==> Found(f, needs, keep)
    ensures r.Some? ==> r.value.kind == kind && r.value.count == Count(f.rows, keep) > 0
    ensures r.Some? ==> r.value.severity == severity(r.value.count)
    ensures r.Some? ==> r.value.description == IntToString(r.value.count) + what
    ensures r.Some? ==> r.value.affected == listing(Filter(f.rows, keep))
  {
    FilterCount(f.rows, keep);
    CountPositive(f.rows, keep);
    if needs <= f.columns then
      var hits := Filter(f.rows, keep);
      if |hits| > 0 then Some(Anomaly(kind, severity(|hits|), |hits|, IntToString(|hits|) + what, listing(hits)))
      else None
    else None
  }

  /** A numeric cell below / above a bound; text and missing cells never compare. */
  predicate Below(c: Cell, bound: real) {
    (c.Int? || c.Float?) && NumberOf(c) < bound
  }

  predicate Above(c: Cell, bound: real) {
    (c.Int? || c.Float?) && NumberOf(c) > bound
  }

  /** `series.str.lower()` compared with one of several words. */
  predicate LowerIn(c: Cell, words: seq<String>) {
    c.Str? && Lower(c.s) in words
  }

  predicate LowYield(row: Row) {
    Below(Get(row, "yield_percent"), 95.0)
  }

  /** `notna() & (!= "")`: any number counts, and any non-empty string. */
  predicate Deviation(row: Row) {
    var c := Get(row, "deviation_id");
    !c.Missing? && c != Str("")
  }

  predicate OosResult(row: Row) {
    LowerIn(Get(row, "overall_result"), ["fail", "oos"])
  }

  predicate OosAssay(row: Row) {
    Below(Get(row, "assay_percent"), 95.0) || Above(Get(row, "assay_percent"), 105.0)
  }

  predicate CriticalComplaint(row: Row) {
    LowerIn(Get(row, "severity"), ["critical", "high"])
  }

  predicate Reportable(row: Row) {
    LowerIn(Get(row, "regulatory_reportable"), ["yes"])
  }

  /**
   * A target date that parses and lies before `now`, on a CAPA whose status does
   * not contain "closed" (a status that is not text counts as not closed).
   */
  predicate Overdue(now: Calendar.Moment, row: Row) {
    var t := Get(row, "target_date");
    var s := Get(row, "status");
    && t.Str? && Calendar.ParseIso(t.s).Some?
    && Calendar.ValidMoment(now)
    && Calendar.MinuteStamp(Calendar.Moment(Calendar.ParseIso(t.s).value, 0)) < Calendar.MinuteStamp(now)
    && !(s.Str? && Contains(Lower(s.s), "closed"))
  }

  predicate CriticalCapa(row: Row) {
    LowerIn(Get(row, "risk_score"), ["critical"])
  }

  predicate CalibrationFailure(row: Row) {
    LowerIn(Get(row, "result"), ["fail"])
  }

  /** `hits["batch_id"].tolist()[:10]`, or `[]` when the table has no `batch_id` column. */
  function BatchList(f: Frame, hits: seq<Row>): Affected {
    Batches(if "batch_id" in f.columns then FirstN(Column(hits, "batch_id"), 10) else [])
  }

  function LowYieldCheck(f: Frame): (r: Option<Anomaly>)
    ensures r.Some? <==> "yield_percent" in f.columns && exists i :: 0 <= i < |f.rows| && LowYield(f.rows[i])
    ensures r.Some? ==> r.value.count == Count(f.rows, LowYield) > 0
    ensures r.Some? ==> r.value.severity == if r.value.count < 5 then "warning" else "critical"
    ensures r.Some? ==> r.value.affected.Batches?
    ensures r.Some? ==> |r.value.affected.batches| == if "batch_id" in f.columns then (if r.value.count < 10 then r.value.count else 10) else 0
    ensures r.Some? ==> r.value.affected.batches <= Column(Filter(f.rows, LowYield), "batch_id")
  {
    FilterCount(f.rows, LowYield);
    Detect(f, {"yield_percent"}, LowYield, "low_yield", n => if n < 5 then "warning" else "critical",
           " batches with yield below 95%", hits => BatchList(f, hits))
  }

  function DeviationCheck(f: Frame): (r: Option<Anomaly>)
    ensures r.Some? <==> "deviation_id" in f.columns && exists i :: 0 <= i < |f.rows| && Deviation(f.rows[i])
    ensures r.Some? ==> r.value.count == Count(f.rows, Deviation) && r.value.severity == "info"
    ensures r.Some? ==> r.value.affected == NoList
  {
    Detect(f, {"deviation_id"}, Deviation, "deviations", n => "info",
           " batches with deviations recorded", hits => NoList)
  }

  function OosResultCheck(f: Frame): (r: Option<Anomaly>)
    ensures r.Some? <==> "overall_result" in f.columns && exists i :: 0 <= i < |f.rows| && OosResult(f.rows[i])
    ensures r.Some? ==> r.value.count == Count(f.rows, OosResult) && r.value.severity == "critical"
    ensures r.Some? ==> r.value.affected.Batches? && |r.value.affected.batches| <= 10
    ensures r.Some? ==> r.value.affected.batches <= Column(Filter(f.rows, OosResult), "batch_id")
  {
    Detect(f, {"overall_result"}, OosResult, "oos_results", n => "critical",
           " OOS/Fail results detected", hits => BatchList(f, hits))
  }

  function OosAssayCheck(f: Frame): (r: Option<Anomaly>)
    ensures r.Some? <==> "assay_percent" in f.columns && exists i :: 0 <= i < |f.rows| && OosAssay(f.rows[i])
    ensures r.Some? ==> r.value.count == Count(f.rows, OosAssay) && r.value.severity == "critical"
  {
    Detect(f, {"assay_percent"}, OosAssay, "oos_assay", n => "critical",
           " results with assay outside 95-105% specification", hits => NoList)
  }

  function CriticalComplaintCheck(f: Frame): (r: Option<Anomaly>)
    ensures r.Some? <==> "severity" in f.columns && exists i :: 0 <= i < |f.rows| && CriticalComplaint(f.rows[i])
    ensures r.Some? ==> r.value.count == Count(f.rows, CriticalComplaint) && r.value.severity == "critical"
  {
    Detect(f, {"severity"}, CriticalComplaint, "critical_complaints", n => "critical",
           " critical/high severity complaints", hits => NoList)
  }

  function ReportableCheck(f: Frame): (r: Option<Anomaly>)
    ensures r.Some? <==> "regulatory_reportable" in f.columns && exists i :: 0 <= i < |f.rows| && Reportable(f.rows[i])
    ensures r.Some? ==> r.value.count == Count(f.rows, Reportable) && r.value.severity == "critical"
  {
    Detect(f, {"regulatory_reportable"}, Reportable, "regulatory_reportable", n => "critical",
           " regulatory reportable complaints", hits => NoList)
  }

  function OverdueCheck(f: Frame, now: Calendar.Moment): (r: Option<Anomaly>)
    ensures r.Some? <==> {"target_date", "status"} <= f.columns && exists i :: 0 <= i < |f.rows| && Overdue(now, f.rows[i])
    ensures r.Some? ==> r.value.count == Count(f.rows, row => Overdue(now, row)) && r.value.severity == "warning"
  {
    Detect(f, {"target_date", "status"}, row => Overdue(now, row), "overdue_capas", n => "warning",
           " overdue CAPAs not closed", hits => NoList)
  }

  function CriticalCapaCheck(f: Frame): (r: Option<Anomaly>)
    ensures r.Some? <==> "risk_score" in f.columns && exists i :: 0 <= i < |f.rows| && CriticalCapa(f.rows[i])
    ensures r.Some? ==> r.value.count == Count(f.rows, CriticalCapa) && r.value.severity == "critical"
  {
    Detect(f, {"risk_score"}, CriticalCapa, "critical_capas", n => "critical",
           " critical risk CAPAs", hits => NoList)
  }

  /** `hits["equipment_id"].unique().tolist()[:10]`. */
  function EquipmentList(f: Frame, hits: seq<Row>): Affected {
    EquipmentIds(if "equipment_id" in f.columns then FirstN(Unique(Column(hits, "equipment_id")), 10) else [])
  }

  function CalibrationFailureCheck(f: Frame): (r: Option<Anomaly>)
    ensures r.Some? <==> "result" in f.columns && exists i :: 0 <= i < |f.rows| && CalibrationFailure(f.rows[i])
    ensures r.Some? ==> r.value.count == Count(f.rows, CalibrationFailure) && r.value.severity == "warning"
    ensures r.Some? ==> r.value.affected.EquipmentIds? && |r.value.affected.equipment| <= 10
    ensures r.Some? ==> forall i, j :: 0 <= i < j < |r.value.affected.equipment| ==>
                          r.value.affected.equipment[i] != r.value.affected.equipment[j]
    ensures r.Some? ==> forall c :: c in r.value.affected.equipment ==>
                          exists k :: 0 <= k < |f.rows| && CalibrationFailure(f.rows[k]) && Get(f.rows[k], "equipment_id") == c
  {
    ColumnOfFilter(f.rows, CalibrationFailure, "equipment_id");
    var ids := Unique(Column(Filter(f.rows, CalibrationFailure), "equipment_id"));
    assert forall c :: c in FirstN(ids, 10) ==> c in ids;
    Detect(f, {"result"}, CalibrationFailure, "calibration_failures", n => "warning",
           " calibration failures", hits => EquipmentList(f, hits))
  }

  function Present(o: Option<Anomaly>): (r: seq<Anomaly>)
    ensures |r| <= 1
  {
    if o.Some? then [o.value] else []
  }

  function Kinds(anomalies: seq<Anomaly>): (ks: seq<String>)
    ensures |ks| == |anomalies|
  {
    seq(|anomalies|, i requires 0 <= i < |anomalies| => anomalies[i].kind)
  }

  function Flag(found: bool, kind: String): seq<String> {
    if found then [kind] else []
  }

  /** The anomalies of two rules, in order, and which kinds occur. */
  lemma PairKinds(o1: Option<Anomaly>, k1: String, o2: Option<Anomaly>, k2: String)
    requires o1.Some? ==> o1.value.kind == k1
    requires o2.Some? ==> o2.value.kind == k2
    ensures Kinds(Present(o1) + Present(o2)) == Flag(o1.Some?, k1) + Flag(o2.Some?, k2)
  {
  }

  function BatchAnomalies(f: Frame): (r: seq<Anomaly>)
    ensures forall i :: 0 <= i < |r| ==> r[i].count > 0
    ensures Kinds(r) == Flag(Found(f, {"yield_percent"}, LowYield), "low_yield")
                        + Flag(Found(f, {"deviation_id"}, Deviation), "deviations")
  {
    PairKinds(LowYieldCheck(f), "low_yield", DeviationCheck(f), "deviations");
    Present(LowYieldCheck(f)) + Present(DeviationCheck(f))
  }

  function QcAnomalies(f: Frame): (r: seq<Anomaly>)
    ensures forall i :: 0 <= i < |r| ==> r[i].count > 0
    ensures Kinds(r) == Flag(Found(f, {"overall_result"}, OosResult), "oos_results")
                        + Flag(Found(f, {"assay_percent"}, OosAssay), "oos_assay")
  {
    PairKinds(OosResultCheck(f), "oos_results", OosAssayCheck(f), "oos_assay");
    Present(OosResultCheck(f)) + Present(OosAssayCheck(f))
  }

  function ComplaintAnomalies(f: Frame): (r: seq<Anomaly>)
    ensures forall i :: 0 <= i < |r| ==> r[i].count > 0
    ensures Kinds(r) == Flag(Found(f, {"severity"}, CriticalComplaint), "critical_complaints")
                        + Flag(Found(f, {"regulatory_reportable"}, Reportable), "regulatory_reportable")
  {
    PairKinds(CriticalComplaintCheck(f), "critical_complaints", ReportableCheck(f), "regulatory_reportable");
    Present(CriticalComplaintCheck(f)) + Present(ReportableCheck(f))
  }

  function CapaAnomalies(f: Frame, now: Calendar.Moment): (r: seq<Anomaly>)
    ensures forall i :: 0 <= i < |r| ==> r[i].count > 0
    ensures Kinds(r) == Flag(Found(f, {"target_date", "status"}, row => Overdue(now, row)), "overdue_capas")
                        + Flag(Found(f, {"risk_score"}, CriticalCapa), "critical_capas")
  {
    PairKinds(OverdueCheck(f, now), "overdue_capas", CriticalCapaCheck(f), "critical_capas");
    Present(OverdueCheck(f, now)) + Present(CriticalCapaCheck(f))
  }

  function EquipmentAnomalies(f: Frame): (r: seq<Anomaly>)
    ensures forall i :: 0 <= i < |r| ==> r[i].count > 0
    ensures Kinds(r) == Flag(Found(f, {"result"}, CalibrationFailure), "calibration_failures")
  {
    PairKinds(CalibrationFailureCheck(f), "calibration_failures", None, "");
    Present(CalibrationFailureCheck(f))
  }

  /** `detect_anomalies(df, data_type)` with `datetime.now()` as `now`: only five types have rules. */
  function DetectAnomalies(f: Frame, dataType: String, now: Calendar.Moment): (r: seq<Anomaly>)
    ensures dataType == "batch" ==> r == BatchAnomalies(f)
    ensures dataType == "qc" ==> r == QcAnomalies(f)
    ensures dataType == "complaint" ==> r == ComplaintAnomalies(f)
    ensures dataType == "capa" ==> r == CapaAnomalies(f, now)
    ensures dataType == "equipment" ==> r == EquipmentAnomalies(f)
    ensures dataType !in ["batch", "qc", "complaint", "capa", "equipment"] ==> r == []
  {
    if dataType == "batch" then BatchAnomalies(f)
    else if dataType == "qc" then QcAnomalies(f)
    else if dataType == "complaint" then ComplaintAnomalies(f)
    else if dataType == "capa" then CapaAnomalies(f, now)
    else if dataType == "equipment" then EquipmentAnomalies(f)
    else []
  }

  // ------------------------------------------------------------------
  // Reporting period of a table
  // ------------------------------------------------------------------

  /** The date column each data type's period is read from. */
  const DateColumns: map<String, String> := map[
    "batch" := "manufacturing_date",
    "qc" := "test_date",
    "complaint" := "complaint_date",
    "capa" := "open_date",
    "equipment" := "actual_date",
    "environmental" := "monitoring_date",
    "stability" := "test_date",
    "raw_material" := "receipt_date",
    "batch_release" := "release_date"
  ]

  /** `pd.to_datetime(cells, errors="coerce").dropna()` on ISO date strings. */
  function ParsedDates(cells: seq<Cell>): (ds: seq<Calendar.Date>)
    ensures |ds| <= |cells|
    ensures forall d :: d in ds ==> Calendar.ValidDate(d)
    ensures forall d :: d in ds <==> exists i :: 0 <= i < |cells| && cells[i].Str? && Calendar.ParseIso(cells[i].s) == Some(d)
  {
    if cells == [] then []
    else
      var init := cells[..|cells| - 1];
      var c := cells[|cells| - 1];
      var ds := ParsedDates(init);
      assert forall i :: 0 <= i < |init| ==> cells[i] == init[i];
      if c.Str? && Calendar.ParseIso(c.s).Some? then ds + [Calendar.ParseIso(c.s).value] else ds
  }

  /** The dates a table's period is computed from; none when its date column is absent. */
  function PeriodDates(f: Frame, dataType: String): seq<Calendar.Date> {
    if dataType in DateColumns && DateColumns[dataType] in f.columns
    then ParsedDates(Column(f.rows, DateColumns[dataType]))
    else []
  }

  function Years(ds: seq<Calendar.Date>): (ys: seq<int>)
    ensures |ys| == |ds| && forall i :: 0 <= i < |ds| ==> ys[i] == ds[i].year
  {
    seq(|ds|, i requires 0 <= i < |ds| => ds[i].year)
  }

  /** How often `y` occurs in `xs`. */
  function Occ(xs: seq<int>, y: int): nat {
    multiset(xs)[y]
  }

  /**
   * The position in `cands` of the candidate occurring most often in `xs`: the
   * first such position, so every earlier candidate occurs strictly less often.
   */
  function LeaderIndex(xs: seq<int>, cands: seq<int>): (k: nat)
    requires |cands| > 0
    ensures k < |cands|
    ensures forall j :: 0 <= j < |cands| ==> Occ(xs, cands[j]) <= Occ(xs, cands[k])
    ensures forall j :: 0 <= j < k ==> Occ(xs, cands[j]) < Occ(xs, cands[k])
  {
    if |cands| == 1 then 0
    else
      var init := cands[..|cands| - 1];
      var k := LeaderIndex(xs, init);
      assert forall j :: 0 <= j < |init| ==> init[j] == cands[j];
      if Occ(xs, cands[|cands| - 1]) > Occ(xs, cands[k]) then |cands| - 1 else k
  }

  /** `series.value_counts().index[0]`: a most frequent value. */
  function MostCommon(xs: seq<int>): (r: int)
    requires |xs| > 0
    ensures r in xs
    ensures forall y :: Occ(xs, y) <= Occ(xs, r)
  {
    var k := LeaderIndex(xs, xs);
    assert forall y :: y !in xs ==> Occ(xs, y) == 0;
    assert forall y :: y in xs ==> exists j :: 0 <= j < |xs| && xs[j] == y;
    xs[k]
  }

  /** `extract_period_from_data`: the most frequent year, and the month when only one occurs. */
  function ExtractPeriod(f: Frame, dataType: String): (r: (Option<int>, Option<int>))
    ensures r.0.Some? <==> PeriodDates(f, dataType) != []
    ensures r.1.Some? ==> r.0.Some?
    ensures r.0.Some? ==> r.0.value in Years(PeriodDates(f, dataType))
    ensures r.0.Some? ==> forall y :: Occ(Years(PeriodDates(f, dataType)), y) <= Occ(Years(PeriodDates(f, dataType)), r.0.value)
    ensures r.1.Some? <==> r.0.Some? && forall a, b :: a in PeriodDates(f, dataType) && b in PeriodDates(f, dataType) ==> a.month == b.month
    ensures r.1.Some? ==> forall d :: d in PeriodDates(f, dataType) ==> d.month == r.1.value
  {
    var ds := PeriodDates(f, dataType);
    if ds == [] then (None, None)
    else
      var oneMonth := forall d :: d in ds ==> d.month == ds[0].month;
      (Some(MostCommon(Years(ds))), if oneMonth then Some(ds[0].month) else None)
  }

  // ------------------------------------------------------------------
  // Monthly reports
  // ------------------------------------------------------------------

  /** The previous month: January goes back to December of the year before. */
  function PreviousMonth(year: int, month: int): (r: (int, int))
    ensures 1 <= month <= 12 ==> 1 <= r.1 <= 12
    ensures month > 1 ==> r == (year, month - 1)
    ensures month <= 1 ==> r == (year - 1, 12)
  {
    if month > 1 then (year, month - 1) else (year - 1, 12)
  }

  /** The month after the previous month is the month itself. */
  lemma PreviousMonthInverse(year: int, month: int)
    requires 1 <= month <= 12 && (month == 1 ==> year >= 2) && year >= 1
    ensures (var p := PreviousMonth(year, month);
             1 <= p.0 && Calendar.NextMonth(Calendar.Month(p.0, p.1)) == Calendar.Month(year, month)
             && Calendar.MonthIndex(Calendar.Month(p.0, p.1)) + 1 == Calendar.MonthIndex(Calendar.Month(year, month)))
  {
  }

  /** The key metrics a file report carries: an optional `data_type` entry and the rest. */
  datatype Metrics = Metrics(dataType: Option<String>, values: map<String, Cell>)

  datatype FileReport = FileReport(
    id: nat, filename: String, dataType: String,
    periodYear: Option<int>, periodMonth: Option<int>, status: String,
    keyMetrics: Option<Metrics>, anomalies: seq<Anomaly>)

  /** An anomaly copied into a monthly report, with the file it came from. */
  datatype Tagged = Tagged(anomaly: Anomaly, sourceFile: String)

  datatype Trend = Trend(kind: String, description: String, status: String)

  datatype MonthlyReport = MonthlyReport(
    id: nat, year: int, month: int, fileReportIds: seq<nat>,
    keyMetrics: Option<map<String, seq<Metrics>>>, issues: seq<Tagged>, trends: seq<Trend>,
    status: String, generatedAt: Option<Calendar.Moment>)

  /** A completed file report of `year` whose month is `month` or unknown. */
  predicate Included(fr: FileReport, year: int, month: int) {
    fr.periodYear == Some(year) && fr.status == "completed"
    && (fr.periodMonth == Some(month) || fr.periodMonth.None?)
  }

  /** The group a file report's metrics go to: their own `data_type`, else the report's. */
  function TypeKey(fr: FileReport): String
    requires fr.keyMetrics.Some?
  {
    fr.keyMetrics.value.dataType.GetOr(fr.dataType)
  }

  predicate Grouped(fr: FileReport, key: String) {
    fr.keyMetrics.Some? && TypeKey(fr) == key
  }

  /** The metrics grouped by type, as the roll-up loop builds them, one report at a time. */
  function GroupOf(files: seq<FileReport>): map<String, seq<Metrics>> {
    if files == [] then map[]
    else
      var g := GroupOf(files[..|files| - 1]);
      var fr := files[|files| - 1];
      if fr.keyMetrics.Some? then
        var k := TypeKey(fr);
        g[k := (if k in g then g[k] else []) + [fr.keyMetrics.value]]
      else g
  }

  /** The metrics of the reports grouped under `key`, in report order. */
  function SelectType(files: seq<FileReport>, key: String): seq<Metrics> {
    if files == [] then []
    else (if Grouped(files[0], key) then [files[0].keyMetrics.value] else []) + SelectType(files[1..], key)
  }

  lemma {:induction false} SelectTypeSnoc(files: seq<FileReport>, fr: FileReport, key: String)
    ensures SelectType(files + [fr], key) == SelectType(files, key) + (if Grouped(fr, key) then [fr.keyMetrics.value] else [])
    decreases |files|
  {
    if files != [] {
      assert (files + [fr])[1..] == files[1..] + [fr];
      SelectTypeSnoc(files[1..], fr, key);
    }
  }

  /** Each group holds exactly the metrics of the reports of its type, in order, and no group is empty. */
  lemma {:induction false} GroupOfSelects(files: seq<FileReport>, key: String)
    ensures key in GroupOf(files) <==> SelectType(files, key) != []
    ensures key in GroupOf(files) ==> GroupOf(files)[key] == SelectType(files, key)
    decreases |files|
  {
    if files != [] {
      var init := files[..|files| - 1];
      var fr := files[|files| - 1];
      GroupOfSelects(init, key);
      SelectTypeSnoc(init, fr, key);
      assert init + [fr] == files;
    }
  }

  /** `a["source_file"] = fr.filename` for each anomaly of one report. */
  function Tag(fr: FileReport): (ts: seq<Tagged>)
    ensures |ts| == |fr.anomalies|
  {
    seq(|fr.anomalies|, i requires 0 <= i < |fr.anomalies| => Tagged(fr.anomalies[i], fr.filename))
  }

  /** All anomalies of the reports, in order, each tagged with its file. */
  function TaggedOf(files: seq<FileReport>): (ts: seq<Tagged>)
    ensures forall t :: t in ts ==> exists j :: 0 <= j < |files| && t.anomaly in files[j].anomalies && t.sourceFile == files[j].filename
    ensures forall j, a :: 0 <= j < |files| && a in files[j].anomalies ==> Tagged(a, files[j].filename) in ts
  {
    if files == [] then []
    else
      var init := files[..|files| - 1];
      var fr := files[|files| - 1];
      var ts := TaggedOf(init);
      assert forall j :: 0 <= j < |init| ==> files[j] == init[j];
      assert forall a :: a in fr.anomalies ==> Tagged(a, fr.filename) in Tag(fr) by {
        forall a | a in fr.anomalies ensures Tagged(a, fr.filename) in Tag(fr) {
          var i :| 0 <= i < |fr.anomalies| && fr.anomalies[i] == a;
          assert Tag(fr)[i] == Tagged(a, fr.filename);
        }
      }
      ts + Tag(fr)
  }

  function Ids(files: seq<FileReport>): (ids: seq<nat>)
    ensures |ids| == |files| && forall i :: 0 <= i < |files| ==> ids[i] == files[i].id
  {
    seq(|files|, i requires 0 <= i < |files| => files[i].id)
  }

  /** The roll-up loop: report ids, metrics grouped by type, and tagged anomalies. */
  method Aggregate(files: seq<FileReport>) returns (ids: seq<nat>, metrics: map<String, seq<Metrics>>, tagged: seq<Tagged>)
    ensures ids == Ids(files)
    ensures metrics == GroupOf(files)
    ensures tagged == TaggedOf(files)
  {
    ids, metrics, tagged := [], map[], [];
    var i := 0;
    while i < |files|
      invariant 0 <= i <= |files|
      invariant ids == Ids(files[..i])
      invariant metrics == GroupOf(files[..i])
      invariant tagged == TaggedOf(files[..i])
    {
      var fr := files[i];
      assert files[..i + 1][..i] == files[..i];
      ids := ids + [fr.id];
      if fr.keyMetrics.Some? {
        var key := fr.keyMetrics.value.dataType.GetOr(fr.dataType);
        if key !in metrics {
          metrics := metrics[key := []];
        }
        metrics := metrics[key := metrics[key] + [fr.keyMetrics.value]];
      }
      var j := 0;
      while j < |fr.anomalies|
        invariant 0 <= j <= |fr.anomalies|
        invariant tagged == TaggedOf(files[..i]) + Tag(fr)[..j]
      {
        tagged := tagged + [Tagged(fr.anomalies[j], fr.filename)];
        assert Tag(fr)[..j + 1] == Tag(fr)[..j] + [Tag(fr)[j]];
        j := j + 1;
      }
      assert Tag(fr)[..j] == Tag(fr);
      i := i + 1;
    }
    assert files[..i] == files;
  }

  /** The first stored monthly report of a month, as `.first()` returns it. */
  function FirstOfMonth(stored: seq<MonthlyReport>, year: int, month: int): (r: Option<MonthlyReport>)
    ensures r.Some? <==> exists i :: 0 <= i < |stored| && stored[i].year == year && stored[i].month == month
    ensures r.Some? ==> exists i :: 0 <= i < |stored| && stored[i] == r.value && r.value.year == year && r.value.month == month
                                    && forall j :: 0 <= j < i ==> !(stored[j].year == year && stored[j].month == month)
  {
    if stored == [] then None
    else if stored[0].year == year && stored[0].month == month then Some(stored[0])
    else
      var r := FirstOfMonth(stored[1..], year, month);
      assert forall i :: 0 <= i < |stored[1..]| ==> stored[1..][i] == stored[i + 1];
      r
  }

  /** The trend entries for a previous month's report, if there is one. */
  function Trends(previous: Option<MonthlyReport>): (ts: seq<Trend>)
    ensures |ts| <= 1
    ensures ts != [] <==> previous.Some? && previous.value.keyMetrics.Some? && "batch" in previous.value.keyMetrics.value
    ensures ts != [] ==> ts[0] == Trend("yield_comparison", "Yield trend vs previous month", "stable")
  {
    if previous.Some? && previous.value.keyMetrics.Some? && "batch" in previous.value.keyMetrics.value
    then [Trend("yield_comparison", "Yield trend vs previous month", "stable")]
    else []
  }

  /** `detect_monthly_trends`: the stored report of the month before decides the trend list. */
  function DetectTrends(stored: seq<MonthlyReport>, year: int, month: int): (ts: seq<Trend>)
    ensures |ts| <= 1
    ensures ts != [] <==>
      var p := PreviousMonth(year, month);
      var prev := FirstOfMonth(stored, p.0, p.1);
      prev.Some? && prev.value.keyMetrics.Some? && "batch" in prev.value.keyMetrics.value
    ensures ts != [] ==> ts[0] == Trend("yield_comparison", "Yield trend vs previous month", "stable")
  {
    var p := PreviousMonth(year, month);
    Trends(FirstOfMonth(stored, p.0, p.1))
  }

  /** January's trends come from December of the year before. */
  lemma JanuaryLooksAtDecember(stored: seq<MonthlyReport>, year: int)
    ensures DetectTrends(stored, year, 1) == Trends(FirstOfMonth(stored, year - 1, 12))
  {
  }

  function NoFilesMessage(year: int, month: nat): String {
    "No file reports found for " + IntToString(year) + "-" + ZeroPad(month, 2)
  }

  /**
   * `generate_monthly_report`: the stored report of the month when it exists and no
   * regeneration is forced; otherwise the roll-up of the selected file reports, into
   * the existing report (whose file report ids stay as they were) or into a new one.
   */
  method GenerateMonthlyReport(stored: seq<MonthlyReport>, force: bool, fileReports: seq<FileReport>,
                               year: int, month: int, newId: nat, now: Calendar.Moment)
    returns (r: Result<MonthlyReport, PyError>)
    requires 1 <= month <= 12
    ensures var existing := FirstOfMonth(stored, year, month);
      existing.Some? && !force ==> r == Success(existing.value)
    ensures var existing := FirstOfMonth(stored, year, month);
      !(existing.Some? && !force) ==>
      (r.Failure? <==> forall i :: 0 <= i < |fileReports| ==> !Included(fileReports[i], year, month))
    ensures r.Failure? ==> r.error == ValueError(NoFilesMessage(year, month))
    ensures var existing := FirstOfMonth(stored, year, month);
      !(existing.Some? && !force) && r.Success? ==>
      var selected := Filter(fileReports, fr => Included(fr, year, month));
      && r.value.keyMetrics == Some(GroupOf(selected))
      && r.value.issues == TaggedOf(selected)
      && r.value.trends == DetectTrends(stored, year, month)
      && r.value.status == "completed"
      && (existing.Some? ==> r.value == existing.value.(keyMetrics := r.value.keyMetrics, issues := r.value.issues,
                                                          trends := r.value.trends, status := "completed"))
      && (existing.None? ==> r.value.id == newId && r.value.year == year && r.value.month == month
                             && r.value.fileReportIds == Ids(selected) && r.value.generatedAt == Some(now))
  {
    var existing := FirstOfMonth(stored, year, month);
    if existing.Some? && !force {
      return Success(existing.value);
    }
    var selected := Filter(fileReports, fr => Included(fr, year, month));
    if selected == [] {
      assert forall i :: 0 <= i < |fileReports| ==> !Included(fileReports[i], year, month) by {
        forall i | 0 <= i < |fileReports| ensures !Included(fileReports[i], year, month) {
          assert fileReports[i] in fileReports;
        }
      }
      return Failure(ValueError(NoFilesMessage(year, month)));
    }
    assert selected[0] in fileReports;
    var ids, metrics, tagged := Aggregate(selected);
    var report: MonthlyReport;
    if existing.Some? {
      report := existing.value.(status := "processing");
    } else {
      report := MonthlyReport(newId, year, month, ids, None, [], [], "processing", Some(now));
    }
    report := report.(keyMetrics := Some(metrics), issues := tagged);
    report := report.(trends := DetectTrends(stored, year, month));
    report := report.(status := "completed");
    return Success(report);
  }

  // ------------------------------------------------------------------
  // Annual QC pass rate
  // ------------------------------------------------------------------

  datatype QcRecord = QcRecord(testDate: Option<Calendar.Date>, overallResult: Option<String>)

  predicate InYear(year: int, q: QcRecord) {
    q.testDate.Some? && q.testDate.value.year == year
  }

  predicate PassedInYear(year: int, q: QcRecord) {
    InYear(year, q) && q.overallResult == Some("Pass")
  }

  /** Two counts under tests the second implies agree exactly when no element passes only the second. */
  lemma {:induction false} CountsAgree<T>(xs: seq<T>, p: T -> bool, q: T -> bool)
    requires forall i :: 0 <= i < |xs| ==> p(xs[i]) ==> q(xs[i])
    ensures Count(xs, p) == Count(xs, q) <==> forall i :: 0 <= i < |xs| ==> q(xs[i]) ==> p(xs[i])
    decreases |xs|
  {
    if xs != [] {
      CountsAgree(xs[1..], p, q);
      CountImplies(xs[1..], p, q);
      if forall i :: 0 <= i < |xs| ==> q(xs[i]) ==> p(xs[i]) {
        assert forall i :: 0 <= i < |xs[1..]| ==> q(xs[1..][i]) ==> p(xs[1..][i]) by {
          forall i | 0 <= i < |xs[1..]| ensures q(xs[1..][i]) ==> p(xs[1..][i]) {
            assert xs[1..][i] == xs[i + 1];
          }
        }
      }
      if Count(xs, p) == Count(xs, q) {
        forall i | 0 <= i < |xs| ensures q(xs[i]) ==> p(xs[i]) {
          if i > 0 {
            assert xs[i] == xs[1..][i - 1];
          }
        }
      }
    }
  }

  /** `qc_pass / qc_total * 100` over the year's QC results, 0 when there are none. */
  function QcPassRate(records: seq<QcRecord>, year: int): (rate: real)
    ensures 0.0 <= rate <= 100.0
    ensures Count(records, q => InYear(year, q)) == 0 ==> rate == 0.0
    ensures rate == 100.0 <==> Count(records, q => InYear(year, q)) > 0
                               && forall i :: 0 <= i < |records| && InYear(year, records[i]) ==> PassedInYear(year, records[i])
  {
    var total := Count(records, q => InYear(year, q));
    var passed := Count(records, q => PassedInYear(year, q));
    CountImplies(records, q => PassedInYear(year, q), q => InYear(year, q));
    CountsAgree(records, q => PassedInYear(year, q), q => InYear(year, q));
    if total > 0 then
      Numeric.RatioPercent(passed, total);
      passed as real / total as real * 100.0
    else 0.0
  }

  /** `round(qc_pass_rate, 2)`, the figure stored on the annual review. */
  function OverallQcPassRate(records: seq<QcRecord>, year: int): (rate: real)
    ensures 0.0 <= rate <= 100.0
    ensures QcPassRate(records, year) == 100.0 ==> rate == 100.0
    ensures QcPassRate(records, year) == 0.0 ==> rate == 0.0
  {
    var x := QcPassRate(records, year);
    Numeric.RoundMonotone(0.0, x, 2);
    Numeric.RoundMonotone(x, 100.0, 2);
    Numeric.RoundScaledOfExact(0.0, Numeric.Pow10(2) as real);
    Numeric.RoundScaledOfExact(100.0, Numeric.Pow10(2) as real);
    Numeric.Round(x, 2)
  }

  // ------------------------------------------------------------------
  // The yearly status board
  // ------------------------------------------------------------------

  datatype MonthStatus = MonthStatus(id: nat, status: String, generatedAt: Option<Calendar.Moment>)

  datatype FileCounts = FileCounts(total: nat, completed: nat, pending: nat, failed: nat)

  datatype AprReport = AprReport(id: nat, year: int, status: String, generatedAt: Option<Calendar.Moment>)

  datatype AprStatus = AprStatus(present: bool, id: Option<nat>, status: Option<String>, generatedAt: Option<Calendar.Moment>)

  datatype Hierarchy = Hierarchy(year: int, fileReports: FileCounts, monthly: map<int, Option<MonthStatus>>, apr: AprStatus)

  function StatusOf(mr: MonthlyReport): MonthStatus {
    MonthStatus(mr.id, mr.status, mr.generatedAt)
  }

  /**
   * The position of the last report of month `m` in `reports`, -1 when there is
   * none: no later report has that month.
   */
  function LastIndex(reports: seq<MonthlyReport>, m: int): (k: int)
    ensures -1 <= k < |reports|
    ensures k >= 0 ==> reports[k].month == m
    ensures forall j :: k < j < |reports| ==> reports[j].month != m
  {
    if reports == [] then -1
    else if reports[|reports| - 1].month == m then |reports| - 1
    else
      var init := reports[..|reports| - 1];
      assert forall i :: 0 <= i < |init| ==> init[i] == reports[i];
      LastIndex(init, m)
  }

  /** The first annual review of the year, as `.first()` returns it. */
  function FirstApr(aprs: seq<AprReport>, year: int): (r: Option<AprReport>)
    ensures r.Some? <==> exists i :: 0 <= i < |aprs| && aprs[i].year == year
    ensures r.Some? ==> exists i :: 0 <= i < |aprs| && aprs[i] == r.value && r.value.year == year
                                    && forall j :: 0 <= j < i ==> aprs[j].year != year
  {
    if aprs == [] then None
    else if aprs[0].year == year then Some(aprs[0])
    else
      var r := FirstApr(aprs[1..], year);
      assert forall i :: 0 <= i < |aprs[1..]| ==> aprs[1..][i] == aprs[i + 1];
      r
  }

  /** The file reports of a year, as `period_year == year` selects them. */
  function ReportsOfYear(fileReports: seq<FileReport>, year: int): seq<FileReport> {
    Filter(fileReports, (fr: FileReport) => fr.periodYear == Some(year))
  }

  function MonthlyOfYear(monthlyReports: seq<MonthlyReport>, year: int): seq<MonthlyReport> {
    Filter(monthlyReports, (mr: MonthlyReport) => mr.year == year)
  }

  predicate Completed(fr: FileReport) { fr.status == "completed" }

  predicate Pending(fr: FileReport) { fr.status == "pending" }

  predicate FailedReport(fr: FileReport) { fr.status == "failed" }

  predicate CompletedOrPending(fr: FileReport) { Completed(fr) || Pending(fr) }

  predicate Settled(fr: FileReport) { CompletedOrPending(fr) || FailedReport(fr) }

  /** `{i: None for i in range(1, 13)}`. */
  const EmptyBoard: map<int, Option<MonthStatus>> := map[
    1 := None, 2 := None, 3 := None, 4 := None, 5 := None, 6 := None,
    7 := None, 8 := None, 9 := None, 10 := None, 11 := None, 12 := None]

  /**
   * `get_report_hierarchy_status`: file report counts of the year, a status slot per
   * month 1..12 (filled by the last report of that month), and the annual review.
   */
  method HierarchyStatus(year: Option<int>, now: Calendar.Moment, fileReports: seq<FileReport>,
                         monthlyReports: seq<MonthlyReport>, aprs: seq<AprReport>)
    returns (h: Hierarchy)
    ensures h.year == year.GetOr(now.date.year)
    ensures var ofYear := ReportsOfYear(fileReports, h.year);
      && h.fileReports.total == |ofYear|
      && h.fileReports.completed == Count(ofYear, Completed)
      && h.fileReports.pending == Count(ofYear, Pending)
      && h.fileReports.failed == Count(ofYear, FailedReport)
    ensures h.fileReports.completed + h.fileReports.pending + h.fileReports.failed <= h.fileReports.total
    ensures var months := MonthlyOfYear(monthlyReports, h.year);
      && (forall k :: k in h.monthly <==> 1 <= k <= 12 || exists i :: 0 <= i < |months| && months[i].month == k)
      && (forall k :: k in h.monthly ==> h.monthly[k] == (if LastIndex(months, k) >= 0 then Some(StatusOf(months[LastIndex(months, k)])) else None))
    ensures h.apr.present <==> exists i :: 0 <= i < |aprs| && aprs[i].year == h.year
    ensures h.apr.present ==> var a := FirstApr(aprs, h.year).value;
      h.apr.id == Some(a.id) && h.apr.status == Some(a.status) && h.apr.generatedAt == a.generatedAt
    ensures !h.apr.present ==> h.apr == AprStatus(false, None, None, None)
  {
    var y := year.GetOr(now.date.year);
    var ofYear := ReportsOfYear(fileReports, y);
    var months := MonthlyOfYear(monthlyReports, y);
    var apr := FirstApr(aprs, y);

    var monthly := EmptyBoard;
    var i := 0;
    while i < |months|
      invariant 0 <= i <= |months|
      invariant forall k :: k in monthly <==> 1 <= k <= 12 || exists j :: 0 <= j < i && months[j].month == k
      invariant forall k :: k in monthly ==> monthly[k] == (if LastIndex(months[..i], k) >= 0 then Some(StatusOf(months[LastIndex(months[..i], k)])) else None)
    {
      var mr := months[i];
      assert months[..i + 1][..i] == months[..i];
      monthly := monthly[mr.month := Some(StatusOf(mr))];
      i := i + 1;
    }
    assert months[..i] == months;

    var completed := Count(ofYear, Completed);
    var pending := Count(ofYear, Pending);
    var failed := Count(ofYear, FailedReport);
    CountDisjoint(ofYear, Completed, Pending, CompletedOrPending);
    CountDisjoint(ofYear, CompletedOrPending, FailedReport, Settled);

    var aprStatus := if apr.Some? then AprStatus(true, Some(apr.value.id), Some(apr.value.status), apr.value.generatedAt)
                     else AprStatus(false, None, None, None);
    h := Hierarchy(y, FileCounts(|ofYear|, completed, pending, failed), monthly, aprStatus);
  }

  // ------------------------------------------------------------------
  // Regenerating a year
  // ------------------------------------------------------------------

  datatype MonthOutcome = Generated(month: int, id: nat) | Skipped(month: int, reason: String) | Failed(month: int, error: PyError)

  datatype AprOutcome = AprGenerated(id: nat) | AprFailed(error: PyError)

  /** One month's entry: its id on success, the message of a `ValueError`, any other error. */
  function Classify(month: int, outcome: Result<nat, PyError>): (r: MonthOutcome)
    ensures r.month == month
    ensures r.Generated? <==> outcome.Success?
    ensures r.Skipped? <==> outcome.Failure? && outcome.error.ValueError?
    ensures r.Generated? ==> r.id == outcome.value
    ensures r.Skipped? ==> r.reason == outcome.error.message
  {
    match outcome
    case Success(id) => Generated(month, id)
    case Failure(e) => if e.ValueError? then Skipped(month, e.message) else Failed(month, e)
  }

  /**
   * `regenerate_all_reports`: months 1 to 12 regenerated in order, each entry
   * classified from that month's outcome, then the annual review.
   */
  method RegenerateAll(monthly: int -> Result<nat, PyError>, apr: Result<nat, PyError>)
    returns (months: seq<MonthOutcome>, aprOutcome: AprOutcome)
    ensures |months| == 12
    ensures forall i :: 0 <= i < 12 ==> months[i] == Classify(i + 1, monthly(i + 1))
    ensures aprOutcome.AprGenerated? <==> apr.Success?
    ensures apr.Success? ==> aprOutcome == AprGenerated(apr.value)
    ensures apr.Failure? ==> aprOutcome == AprFailed(apr.error)
  {
    months := [];
    var month := 1;
    while month <= 12
      invariant 1 <= month <= 13
      invariant |months| == month - 1
      invariant forall i :: 0 <= i < |months| ==> months[i] == Classify(i + 1, monthly(i + 1))
    {
      months := months + [Classify(month, monthly(month))];
      month := month + 1;
    }
    aprOutcome := if apr.Success? then AprGenerated(apr.value) else AprFailed(apr.error);
  }
}
