/**
 * `generate_all_data`, `generate_csv_for_period` and `create_zip_archive`:
 * the nine generators run in dependency order over one period, the tables
 * are kept for the requested data types, and each surviving table becomes a
 * `{prefix}_{name}.csv` archive entry. CSV text and ZIP bytes are not
 * modelled: a buffer or an archive entry holds the table itself.
 */
module AllData {
  import opened Wrappers
  import opened Text
  import opened Calendar
  import Catalog
  import Numeric
  import Manufacturing
  import Qc
  import Complaints
  import Capa
  import Environmental
  import Equipment
  import Stability
  import RawMaterials
  import BatchRelease

  /** One draw stream per generator; every generator reseeds, so the streams are independent. */
  datatype Draws = Draws(
    day: nat -> nat, batch: nat -> Manufacturing.BatchDraw, qc: nat -> Qc.QcDraw,
    complaint: nat -> Complaints.ComplaintDraw, capa: nat -> Capa.CapaDraw,
    env: nat -> Environmental.EnvDraw, cal: nat -> Equipment.CalDraw,
    stab: nat -> Stability.StabDraw, weekly: nat -> nat, raw: nat -> RawMaterials.RawDraw,
    release: nat -> BatchRelease.ReleaseDraw)

  /** A generated table, one constructor per data type. */
  datatype Table =
    | ManufacturingData(mfg: seq<Manufacturing.BatchRecord>)
    | QcData(qc: seq<Qc.QcRecord>)
    | ComplaintsData(complaints: seq<Complaints.ComplaintRecord>)
    | CapaData(capa: seq<Capa.CapaRecord>)
    | EnvironmentalData(env: seq<Environmental.EnvRecord>)
    | EquipmentData(cal: seq<Equipment.CalRecord>)
    | StabilityData(stab: seq<Stability.StabRecord>)
    | RawMaterialsData(raw: seq<RawMaterials.RawRecord>)
    | BatchReleaseData(release: seq<BatchRelease.ReleaseRecord>)

  /** The keys of the dictionary `generate_all_data` returns, in insertion order. */
  const DataTypes: seq<String> := ["manufacturing", "qc", "complaints", "capa", "environmental",
                                   "equipment", "stability", "raw_materials", "batch_release"]

  /** The defaults `generate_all_data` leaves in place for the generators it calls. */
  const ProductIndex: int := 0
  const BaseCapaCount: int := 10
  const ReadingsPerDay: int := 3
  const BatchesPerStudy: int := 3
  const ReceiptsPerWeek: int := 5

  /** The keys of a dictionary held as its list of items. */
  function Keys(t: seq<(String, Table)>): (ks: seq<String>)
    ensures |ks| == |t|
  {
    seq(|t|, i requires 0 <= i < |t| => t[i].0)
  }

  /** The manufacturing table of the period, as `generate_manufacturing_data` makes it for product 0. */
  function Mfg(start: Date, end: Date, batchesPerDay: int, d: Draws): seq<Manufacturing.BatchRecord>
    requires ValidDate(start) && ValidDate(end)
  {
    Numeric.Rows(Manufacturing.Maker(Catalog.Products[0], d.batch),
                       Manufacturing.Schedule(start, end, batchesPerDay, d.day))
  }

  /** The complaints table `generate_complaints_data` makes from `mfg` at the default rate. */
  function ComplaintsTable(mfg: seq<Manufacturing.BatchRecord>, now: Date, d: Draws): seq<Complaints.ComplaintRecord>
    requires ValidDate(now)
  {
    Complaints.Filed(Complaints.Filer(now, Complaints.DefaultComplaintRate), mfg, d.complaint, |mfg|)
  }

  /** The CAPA table `generate_capa_data` makes for the months of the period. */
  function CapaTable(start: Date, end: Date, now: Date, d: Draws): seq<Capa.CapaRecord>
    requires ValidDate(start) && ValidDate(end) && ValidDate(now)
  {
    Numeric.Rows(Capa.CapaMaker(d.capa, now),
                  Capa.CapaPlan(MonthContaining(start), MonthContaining(end), Capa.MonthCounts(BaseCapaCount), 1))
  }

  /** The environmental table `generate_environmental_data` makes, three readings a day. */
  function EnvironmentalTable(start: Date, end: Date, d: Draws): seq<Environmental.EnvRecord>
    requires ValidDate(start) && ValidDate(end)
  {
    Numeric.Rows(Environmental.EnvMaker(d.env),
                          Environmental.EnvPlan(ToOrdinal(start), Manufacturing.DayTotal(start, end),
                                                Environmental.Readings(ReadingsPerDay)))
  }

  /** The calibration table `generate_equipment_data` makes. */
  function EquipmentTable(start: Date, end: Date, d: Draws): seq<Equipment.CalRecord>
    requires ValidDate(start) && ValidDate(end)
  {
    Numeric.Rows(Equipment.CalMaker(d.cal), Equipment.CalPlan(ToOrdinal(start), ToOrdinal(end), |Equipment.Instruments|))
  }

  /** The stability table `generate_stability_data` makes from `mfg`, three batches per study. */
  function StabilityTable(mfg: seq<Manufacturing.BatchRecord>, d: Draws): seq<Stability.StabRecord>
    requires Qc.DatesParse(mfg)
  {
    ChosenParse(mfg);
    var chosen := Stability.Selection(mfg, BatchesPerStudy);
    Numeric.Rows(Stability.StabMaker(d.stab), Stability.StabPlan(Stability.Studies(mfg, chosen, |chosen|)))
  }

  /** The raw-material table `generate_raw_materials_data` makes, five receipts a week. */
  function RawMaterialsTable(start: Date, end: Date, d: Draws): seq<RawMaterials.RawRecord>
    requires ValidDate(start) && ValidDate(end)
  {
    Numeric.Rows(RawMaterials.RawMaker(d.raw),
                         RawMaterials.WeekPlan(ToOrdinal(start), ToOrdinal(end), ReceiptsPerWeek, d.weekly, 0, 1))
  }

  /** The batch-release table `generate_batch_release_data` makes from `mfg` and `qc`. */
  function ReleaseTable(mfg: seq<Manufacturing.BatchRecord>, qc: seq<Qc.QcRecord>, d: Draws): seq<BatchRelease.ReleaseRecord>
  {
    BatchRelease.Releases(BatchRelease.Releaser(), mfg, qc, d.release, |mfg|)
  }

  /** The dictionary `generate_all_data` returns, built from its nine tables. */
  function Assemble(mfg: seq<Manufacturing.BatchRecord>, qc: seq<Qc.QcRecord>,
                    complaints: seq<Complaints.ComplaintRecord>, capa: seq<Capa.CapaRecord>,
                    env: seq<Environmental.EnvRecord>, cal: seq<Equipment.CalRecord>,
                    stab: seq<Stability.StabRecord>, raw: seq<RawMaterials.RawRecord>,
                    rel: seq<BatchRelease.ReleaseRecord>): (t: seq<(String, Table)>)
    ensures Keys(t) == DataTypes
    ensures |t| == 9
    ensures t[0].1 == ManufacturingData(mfg) && t[1].1 == QcData(qc) && t[2].1 == ComplaintsData(complaints)
    ensures t[3].1 == CapaData(capa) && t[4].1 == EnvironmentalData(env) && t[5].1 == EquipmentData(cal)
    ensures t[6].1 == StabilityData(stab) && t[7].1 == RawMaterialsData(raw) && t[8].1 == BatchReleaseData(rel)
  {
    var t := [
      ("manufacturing", ManufacturingData(mfg)), ("qc", QcData(qc)),
      ("complaints", ComplaintsData(complaints)), ("capa", CapaData(capa)),
      ("environmental", EnvironmentalData(env)), ("equipment", EquipmentData(cal)),
      ("stability", StabilityData(stab)), ("raw_materials", RawMaterialsData(raw)),
      ("batch_release", BatchReleaseData(rel))];
    assert Keys(t) == DataTypes;
    t
  }

  /** The QC table `generate_qc_data` makes from `mfg`: one record per row, in order. */
  function QcOf(mfg: seq<Manufacturing.BatchRecord>, draw: nat -> Qc.QcDraw): (qc: seq<Qc.QcRecord>)
    ensures Qc.DatesParse(mfg) ==> Qc.QcTable(qc, mfg, draw)
  {
    seq(|mfg|, i requires 0 <= i < |mfg| => Qc.QcRow(Manufacturing.Parsed(mfg[i]), draw(i)))
  }

  /** The QC table of `mfg` is the one `QcOf` gives. */
  lemma QcOfTable(qc: seq<Qc.QcRecord>, mfg: seq<Manufacturing.BatchRecord>, draw: nat -> Qc.QcDraw)
    requires Qc.QcTable(qc, mfg, draw)
    ensures qc == QcOf(mfg, draw)
  {
    forall i | 0 <= i < |mfg|
      ensures qc[i] == QcOf(mfg, draw)[i]
    {
      assert Manufacturing.Parsed(mfg[i]) == mfg[i];
    }
  }

  /** The nine tables of the period, in the order `generate_all_data` makes them. */
  function AllTables(start: Date, end: Date, batchesPerDay: int, now: Date, d: Draws): (t: seq<(String, Table)>)
    requires ValidDate(start) && ValidDate(end) && ValidDate(now)
    ensures Keys(t) == DataTypes
  {
    var mfg := Mfg(start, end, batchesPerDay, d);
    GeneratedDatesParse(start, end, batchesPerDay, d);
    var qc := QcOf(mfg, d.qc);
    Assemble(mfg, qc, ComplaintsTable(mfg, now, d), CapaTable(start, end, now, d),
             EnvironmentalTable(start, end, d), EquipmentTable(start, end, d),
             StabilityTable(mfg, d), RawMaterialsTable(start, end, d), ReleaseTable(mfg, qc, d))
  }

  /**
   * The tables of the period as each generator's own contract describes them:
   * the QC table has one record per batch, in order, and the batch-release
   * table is built from the manufacturing and QC tables in the first two slots.
   */
  lemma AllTablesGenerated(start: Date, end: Date, batchesPerDay: int, now: Date, d: Draws)
    requires ValidDate(start) && ValidDate(end) && ValidDate(now)
    ensures var t := AllTables(start, end, batchesPerDay, now, d);
      var mfg := Mfg(start, end, batchesPerDay, d);
      && |t| == 9 && Qc.DatesParse(mfg)
      && t[0].1 == ManufacturingData(mfg)
      && t[1].1.QcData? && Qc.QcTable(t[1].1.qc, mfg, d.qc)
      && t[2].1 == ComplaintsData(ComplaintsTable(mfg, now, d))
      && t[6].1 == StabilityData(StabilityTable(mfg, d))
      && t[8].1 == BatchReleaseData(ReleaseTable(mfg, t[1].1.qc, d))
  {
    GeneratedDatesParse(start, end, batchesPerDay, d);
  }

  /**
   * `generate_all_data(start_date, end_date, batches_per_day)`. Every date of
   * the generated manufacturing table parses, so nothing downstream raises a
   * `ValueError`; but a period that yields no batch leaves an empty table
   * without a `batch_id` column, and the complaints generator then raises a
   * `KeyError`.
   */
  method GenerateAll(start: Date, end: Date, batchesPerDay: int, now: Date, d: Draws)
    returns (result: Result<seq<(String, Table)>, PyError>)
    requires ValidDate(start) && ValidDate(end) && ValidDate(now)
    ensures result.Success? <==> Mfg(start, end, batchesPerDay, d) != []
    ensures result.Failure? ==> result.error == KeyError("batch_id")
    ensures result.Success? ==> result.value == AllTables(start, end, batchesPerDay, now, d)
  {
    var mfg, qc := Sample(start, end, batchesPerDay, d);
    var c := DrawComplaints(mfg, now, d);
    if c.Failure? {
      return Failure(c.error);
    }
    var capa, env, cal, raw := PeriodTables(start, end, now, d);
    var stab, rel := BatchTables(mfg, qc, d);
    result := Success(Assemble(mfg, qc, c.value, capa, env, cal, stab, raw, rel));
  }

  /** The manufacturing and QC steps: neither raises, and every manufacturing date parses. */
  method Sample(start: Date, end: Date, batchesPerDay: int, d: Draws)
    returns (mfg: seq<Manufacturing.BatchRecord>, qc: seq<Qc.QcRecord>)
    requires ValidDate(start) && ValidDate(end)
    ensures mfg == Mfg(start, end, batchesPerDay, d) && Qc.DatesParse(mfg) && qc == QcOf(mfg, d.qc)
  {
    var m := Manufacturing.GenerateManufacturing(start, end, batchesPerDay, ProductIndex, d.day, d.batch);
    mfg := m.value;
    GeneratedDatesParse(start, end, batchesPerDay, d);
    var q := Qc.GenerateQc(mfg, d.qc);
    qc := q.value;
    QcOfTable(qc, mfg, d.qc);
  }

  /** The complaints step: it raises only on the empty table. */
  method DrawComplaints(mfg: seq<Manufacturing.BatchRecord>, now: Date, d: Draws)
    returns (result: Result<seq<Complaints.ComplaintRecord>, PyError>)
    requires Qc.DatesParse(mfg) && ValidDate(now)
    ensures mfg == [] ==> result == Failure(KeyError("batch_id"))
    ensures mfg != [] ==> result == Success(ComplaintsTable(mfg, now, d))
  {
    LookupsParse(mfg);
    result := Complaints.GenerateComplaints(mfg, d.complaint, now, Complaints.DefaultComplaintRate);
  }

  /** The steps that depend on the period alone; none of them raises. */
  method PeriodTables(start: Date, end: Date, now: Date, d: Draws)
    returns (capa: seq<Capa.CapaRecord>, env: seq<Environmental.EnvRecord>,
             cal: seq<Equipment.CalRecord>, raw: seq<RawMaterials.RawRecord>)
    requires ValidDate(start) && ValidDate(end) && ValidDate(now)
    ensures capa == CapaTable(start, end, now, d) && env == EnvironmentalTable(start, end, d)
    ensures cal == EquipmentTable(start, end, d) && raw == RawMaterialsTable(start, end, d)
  {
    capa := Capa.GenerateCapa(start, end, BaseCapaCount, d.capa, now);
    var r := Environmental.GenerateEnvironmental(start, end, ReadingsPerDay, d.env);
    env := r.value;
    cal := Equipment.GenerateEquipment(start, end, d.cal);
    raw := RawMaterials.GenerateRawMaterials(start, end, ReceiptsPerWeek, d.weekly, d.raw);
  }

  /** The stability and release steps, which do not raise on a non-empty table whose dates parse. */
  method BatchTables(mfg: seq<Manufacturing.BatchRecord>, qc: seq<Qc.QcRecord>, d: Draws)
    returns (stab: seq<Stability.StabRecord>, rel: seq<BatchRelease.ReleaseRecord>)
    requires Qc.DatesParse(mfg) && qc == QcOf(mfg, d.qc) && mfg != []
    ensures stab == StabilityTable(mfg, d) && rel == ReleaseTable(mfg, qc, d)
  {
    ChosenParse(mfg);
    var s := Stability.GenerateStability(mfg, BatchesPerStudy, d.stab);
    stab := s.value;
    ReleaseParses(mfg, qc, d.qc);
    var r := BatchRelease.GenerateBatchRelease(mfg, qc, d.release);
    rel := r.value;
  }

  /** Every row of the generated manufacturing table is dated on a calendar date. */
  lemma GeneratedDatesParse(start: Date, end: Date, batchesPerDay: int, d: Draws)
    requires ValidDate(start) && ValidDate(end)
    ensures Qc.DatesParse(Mfg(start, end, batchesPerDay, d))
  {
    Manufacturing.MakerGood(Catalog.Products[0], d.batch);
    Manufacturing.ManufacturingTable(Manufacturing.Maker(Catalog.Products[0], d.batch), Catalog.Products[0],
                                     start, end, batchesPerDay, d.day);
  }

  /** With every date parsing, each batch id the complaints loop looks up has a date that parses. */
  lemma LookupsParse(mfg: seq<Manufacturing.BatchRecord>)
    requires Qc.DatesParse(mfg)
    ensures Complaints.LookupsParse(mfg, |mfg|)
  {
    forall j | 0 <= j < |mfg|
      ensures ValidDate(Complaints.LookedUp(mfg, j).manufacturingDate)
    {
      var r := Complaints.LookedUp(mfg, j);
      var k :| 0 <= k < |mfg| && mfg[k] == r;
    }
  }

  /** With every date parsing, each stability batch has a date that parses. */
  lemma ChosenParse(mfg: seq<Manufacturing.BatchRecord>)
    requires Qc.DatesParse(mfg)
    ensures Stability.ChosenParse(mfg, Stability.Selection(mfg, BatchesPerStudy), |Stability.Selection(mfg, BatchesPerStudy)|)
  {
    var chosen := Stability.Selection(mfg, BatchesPerStudy);
    Stability.SelectionFacts(mfg, BatchesPerStudy);
    forall j | 0 <= j < |chosen|
      ensures chosen[j] in Stability.BatchIds(mfg) && ValidDate(Stability.Lookup(mfg, chosen[j]).manufacturingDate)
    {
      assert chosen[j] in chosen;
      var r := Stability.Lookup(mfg, chosen[j]);
      var k :| 0 <= k < |mfg| && mfg[k] == r;
    }
  }

  /** With every date parsing and the QC table of `mfg`, the release loop parses every date it meets. */
  lemma ReleaseParses(mfg: seq<Manufacturing.BatchRecord>, qc: seq<Qc.QcRecord>, draw: nat -> Qc.QcDraw)
    requires Qc.DatesParse(mfg) && Qc.QcTable(qc, mfg, draw)
    ensures BatchRelease.ReleaseParses(mfg, qc, |mfg|)
  {
    Qc.QcTableSamples(qc, mfg, draw);
    forall j | 0 <= j < |mfg| && BatchRelease.QcFor(qc, mfg[j].batchId).Some?
      ensures ValidDate(BatchRelease.QcFor(qc, mfg[j].batchId).value.testDate)
    {
      var r := BatchRelease.QcFor(qc, mfg[j].batchId).value;
      var k :| 0 <= k < |qc| && qc[k] == r;
    }
  }

  /** `datetime(y, m + 1, 1) - timedelta(days=1)`, or `datetime(y + 1, 1, 1) - …` for December. */
  function LastOfMonth(y: int, m: int): (d: Date)
    requires 1 <= y && 1 <= m <= 12
    ensures d == LastDay(Month(y, m))
  {
    var next := if m == 12 then Date(y + 1, 1, 1) else Date(y, m + 1, 1);
    EndOfMonthStep(y, m);
    var d := AddDays(next, -1);
    OrdinalInjective(d, LastDay(Month(y, m)));
    d
  }

  /** The error `datetime(year, ...)` raises for a year outside 1..9999. */
  function YearOutOfRange(y: int): PyError
  {
    ValueError("year " + IntToString(y) + " is out of range")
  }

  /**
   * The period of `generate_csv_for_period`, or the error `datetime` raises
   * for it; `PeriodRangeCases` says which.
   */
  function PeriodRange(year: Option<int>, month: Option<int>, start: Option<Date>, end: Option<Date>, now: Date)
    : (r: Result<(Date, Date), PyError>)
    requires PyDate(now)
    requires start.Some? ==> PyDate(start.value)
    requires end.Some? ==> PyDate(end.value)
    ensures r.Success? ==> PyDate(r.value.0) && PyDate(r.value.1)
  {
    if start.None? then
      var y := year.GetOr(now.year);
      if !(1 <= y <= MaxYear) then Failure(YearOutOfRange(y))
      else if month.Some? then
        var m := month.value;
        if !(1 <= m <= 12) then Failure(ValueError("month must be in 1..12"))
        else if m == 12 && y == MaxYear then Failure(YearOutOfRange(y + 1))
        else Success((Date(y, m, 1), LastOfMonth(y, m)))
      else Success((Date(y, 1, 1), Date(y, 12, 31)))
    else if end.Some? then Success((start.value, end.value))
    else
      var o := ToOrdinal(start.value) + 30;
      if o > ToOrdinal(LastPyDate) then Failure(OverflowError("date value out of range"))
      else
        var e := FromOrdinal(o);
        NotPastLastYear(e);
        Success((start.value, e))
  }

  /**
   * Without a start date the year (by default the current one) and month
   * give a whole month, or without a month a whole year, and any end date
   * given is overwritten; a given start date without an end date gets an end
   * 30 days later. `datetime` raises `ValueError` for a year or month out of
   * range, naming the year it was given (10000 for December 9999, whose end
   * is computed from the first of the next year), and `OverflowError` past
   * the year 9999.
   */
  lemma PeriodRangeCases(year: Option<int>, month: Option<int>, start: Option<Date>, end: Option<Date>, now: Date)
    requires PyDate(now)
    requires start.Some? ==> PyDate(start.value)
    requires end.Some? ==> PyDate(end.value)
    ensures var r := PeriodRange(year, month, start, end, now);
      && (start.Some? && end.Some? ==> r == Success((start.value, end.value)))
      && (start.Some? && end.None? ==>
        && (r.Success? <==> ToOrdinal(start.value) + 30 <= ToOrdinal(LastPyDate))
        && (r.Success? ==> r.value.0 == start.value && ValidDate(r.value.1) && DaysBetween(start.value, r.value.1) == 30)
        && (r.Failure? ==> r == Failure(OverflowError("date value out of range"))))
      && (start.None? && month.Some? ==>
        var y := year.GetOr(now.year);
        var m := month.value;
        && (r.Success? <==> 1 <= y <= MaxYear && 1 <= m <= 12 && !(y == MaxYear && m == 12))
        && (r.Success? ==> r.value == (FirstDay(Month(y, m)), LastDay(Month(y, m))))
        && (!(1 <= y <= MaxYear) ==> r == Failure(ValueError("year " + IntToString(y) + " is out of range")))
        && (1 <= y <= MaxYear && !(1 <= m <= 12) ==> r == Failure(ValueError("month must be in 1..12")))
        && (y == MaxYear && m == 12 ==> r == Failure(YearOutOfRange(y + 1))))
      && (start.None? && month.None? ==>
        var y := year.GetOr(now.year);
        && (r.Success? <==> 1 <= y <= MaxYear)
        && (r.Success? ==> r.value == (Date(y, 1, 1), Date(y, 12, 31)))
        && (r.Failure? ==> r == Failure(ValueError("year " + IntToString(y) + " is out of range"))))
  {
  }

  /** The year `datetime(year + 1, 1, 1)` names for December 9999 is written "10000". */
  lemma YearAfterLastText()
    ensures IntToString(MaxYear + 1) == "10000"
  {
    assert NatToString(1) == "1";
    assert NatToString(10) == "10";
    assert NatToString(100) == "100";
    assert NatToString(1000) == "1000";
  }

  /** A date at or before 9999-12-31 lies in a year Python can represent. */
  lemma NotPastLastYear(e: Date)
    requires ValidDate(e) && ToOrdinal(e) <= ToOrdinal(LastPyDate)
    ensures e.year <= MaxYear
  {
    if e.year > MaxYear {
      EarlierYearFirst(LastPyDate, e);
    }
  }

  /** `if data_types:` fails for `None` and for the empty list, and then every type is kept. */
  predicate Wanted(name: String, dataTypes: Option<seq<String>>) {
    dataTypes.None? || dataTypes.value == [] || name in dataTypes.value
  }

  /** `{k: v for k, v in all_data.items() if k in data_types}` when `data_types` is truthy. */
  function Select(tables: seq<(String, Table)>, dataTypes: Option<seq<String>>): (r: seq<(String, Table)>)
    ensures forall e :: e in r <==> e in tables && Wanted(e.0, dataTypes)
    ensures |r| <= |tables|
    ensures dataTypes.None? || dataTypes.value == [] ==> r == tables
  {
    if tables == [] then []
    else
      var rest := Select(tables[1..], dataTypes);
      assert forall e :: e in tables <==> e == tables[0] || e in tables[1..];
      if Wanted(tables[0].0, dataTypes) then [tables[0]] + rest else rest
  }

  /** No key is repeated. */
  predicate DistinctKeys(t: seq<(String, Table)>) {
    forall i, j :: 0 <= i < j < |t| ==> t[i].0 != t[j].0
  }

  /** Selecting keeps the items in dictionary order and so keeps the keys distinct. */
  lemma {:induction false} SelectDistinct(tables: seq<(String, Table)>, dataTypes: Option<seq<String>>)
    requires DistinctKeys(tables)
    ensures DistinctKeys(Select(tables, dataTypes))
  {
    if tables != [] {
      var rest := Select(tables[1..], dataTypes);
      assert DistinctKeys(tables[1..]) by {
        forall i, j | 0 <= i < j < |tables[1..]|
          ensures tables[1..][i].0 != tables[1..][j].0
        {
          assert tables[1..][i] == tables[i + 1] && tables[1..][j] == tables[j + 1];
        }
      }
      SelectDistinct(tables[1..], dataTypes);
      if Wanted(tables[0].0, dataTypes) {
        var r := [tables[0]] + rest;
        forall i, j | 0 <= i < j < |r|
          ensures r[i].0 != r[j].0
        {
          if i == 0 {
            assert r[j] in tables[1..];
            var k :| 0 <= k < |tables[1..]| && tables[1..][k] == r[j];
            assert tables[k + 1] == r[j];
          } else {
            assert r[i] == rest[i - 1] && r[j] == rest[j - 1];
          }
        }
      }
    }
  }

  /** A dictionary keyed by the nine data types has no repeated key and no other key. */
  lemma TypedKeys(t: seq<(String, Table)>)
    requires Keys(t) == DataTypes
    ensures DistinctKeys(t)
    ensures forall e :: e in t ==> e.0 in DataTypes
  {
    forall i, j | 0 <= i < j < |t|
      ensures t[i].0 != t[j].0
    {
      assert t[i].0 == Keys(t)[i] && t[j].0 == Keys(t)[j];
    }
    forall e | e in t
      ensures e.0 in DataTypes
    {
      var k :| 0 <= k < |t| && t[k] == e;
      assert Keys(t)[k] == e.0;
    }
  }

  /**
   * The tables `generate_csv_for_period` returns once the period is `start`
   * to `end`: a failure exactly when the period yields no batch, and
   * otherwise the requested tables of the period, each under its own key.
   */
  ghost predicate CsvFor(result: Result<seq<(String, Table)>, PyError>, start: Date, end: Date,
                         dataTypes: Option<seq<String>>, batchesPerDay: int, now: Date, d: Draws)
    requires ValidDate(start) && ValidDate(end) && ValidDate(now)
  {
    && (result.Success? <==> Mfg(start, end, batchesPerDay, d) != [])
    && (result.Failure? ==> result.error == KeyError("batch_id"))
    && (result.Success? ==> result.value == Select(AllTables(start, end, batchesPerDay, now, d), dataTypes))
  }

  /**
   * `generate_csv_for_period(year, month, start_date, end_date, data_types,
   * batches_per_day)`: the period, the nine tables of that period, and the
   * tables of the requested types; `SelectedKeys` gives their keys.
   */
  method GenerateCsvForPeriod(year: Option<int>, month: Option<int>, start: Option<Date>, end: Option<Date>,
                              dataTypes: Option<seq<String>>, batchesPerDay: int, now: Date, d: Draws)
    returns (result: Result<seq<(String, Table)>, PyError>)
    requires PyDate(now)
    requires start.Some? ==> PyDate(start.value)
    requires end.Some? ==> PyDate(end.value)
    ensures PeriodRange(year, month, start, end, now).Failure? ==>
      result == Failure(PeriodRange(year, month, start, end, now).error)
    ensures PeriodRange(year, month, start, end, now).Success? ==>
      CsvFor(result, PeriodRange(year, month, start, end, now).value.0,
             PeriodRange(year, month, start, end, now).value.1, dataTypes, batchesPerDay, now, d)
  {
    var range := PeriodRange(year, month, start, end, now);
    if range.Failure? {
      return Failure(range.error);
    }
    var all := GenerateAll(range.value.0, range.value.1, batchesPerDay, now, d);
    if all.Failure? {
      return Failure(all.error);
    }
    result := Success(Select(all.value, dataTypes));
  }

  /**
   * The tables selected from a dictionary keyed by the nine data types have
   * distinct keys, each a data type that was asked for.
   */
  lemma SelectedKeys(t: seq<(String, Table)>, dataTypes: Option<seq<String>>)
    requires Keys(t) == DataTypes
    ensures DistinctKeys(Select(t, dataTypes))
    ensures forall e :: e in Select(t, dataTypes) ==> e.0 in DataTypes && Wanted(e.0, dataTypes)
  {
    TypedKeys(t);
    SelectDistinct(t, dataTypes);
  }

  /** The default prefix of `create_zip_archive`. */
  const DefaultPrefix: String := "apr_data"

  /** `f"{prefix}_{name}.csv"`. */
  function EntryName(prefix: String, name: String): String
  {
    prefix + "_" + name + ".csv"
  }

  /** The data type an entry of an archive with this prefix was written for. */
  function EntryKey(prefix: String, file: String): (name: String)
    requires |file| >= |prefix| + 5
  {
    file[|prefix| + 1..|file| - 4]
  }

  /** The entry name reads back as the data type it was made from. */
  lemma EntryNameReadsBack(prefix: String, name: String)
    ensures EntryKey(prefix, EntryName(prefix, name)) == name
  {
    var f := EntryName(prefix, name);
    assert f[|prefix| + 1..|f| - 4] == name;
  }

  /** Different data types give different entry names under one prefix. */
  lemma EntryNamesDiffer(prefix: String, a: String, b: String)
    requires a != b
    ensures EntryName(prefix, a) != EntryName(prefix, b)
  {
    EntryNameReadsBack(prefix, a);
    EntryNameReadsBack(prefix, b);
  }

  /**
   * `create_zip_archive(csv_buffers, prefix)`: one entry per buffer, in
   * dictionary order, named `{prefix}_{name}.csv` and holding that buffer.
   */
  method CreateZipArchive(buffers: seq<(String, Table)>, prefix: String) returns (entries: seq<(String, Table)>)
    ensures |entries| == |buffers|
    ensures forall i :: 0 <= i < |buffers| ==> entries[i] == (EntryName(prefix, buffers[i].0), buffers[i].1)
    ensures DistinctKeys(buffers) ==> DistinctKeys(entries)
  {
    entries := [];
    for i := 0 to |buffers|
      invariant |entries| == i
      invariant forall k :: 0 <= k < i ==> entries[k] == (EntryName(prefix, buffers[k].0), buffers[k].1)
    {
      entries := entries + [(EntryName(prefix, buffers[i].0), buffers[i].1)];
    }
    if DistinctKeys(buffers) {
      forall i, j | 0 <= i < j < |entries|
        ensures entries[i].0 != entries[j].0
      {
        EntryNamesDiffer(prefix, buffers[i].0, buffers[j].0);
      }
    }
  }
}
