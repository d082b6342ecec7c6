/**
 * The CSV upload endpoint: the `safe_*` cell conversions, the mapping of one CSV
 * row onto the columns of each table (column fallbacks, defaults, the newton to
 * kilopond conversion of hardness, the dissolution mean worked out from the
 * vessels), the upsert of batches, complaints and CAPAs by their business key,
 * the insertion of every other kind of row, and the upload record that closes
 * the request. The database is a value the upload returns updated; rows are
 * already parsed into cells.
 */
module Upload {
  import opened Wrappers
  import opened Text
  import opened Numeric
  import opened Calendar
  import opened Frames

  // ------------------------------------------------------------------
  // The safe_* conversions
  // ------------------------------------------------------------------

  /** Digits with at most one decimal point and at least one digit, read as a number. */
  function ParseUnsigned(body: String): Option<real> {
    var n := DigitRun(body);
    var whole := DigitsValue(body[..n]) as real;
    if n == |body| then (if n > 0 then Some(whole) else None)
    else if body[n] == '.' && AllDigits(body[n + 1..]) && (n > 0 || n + 1 < |body|) then
      Some(whole + DigitsValue(body[n + 1..]) as real / Pow10(|body| - n - 1) as real)
    else None
  }

  /**
   * Python `float()` on text: surrounding whitespace, an optional sign, then an
   * unsigned decimal.
   */
  function ParseDecimal(s: String): (r: Option<real>) {
    var t := Strip(s);
    if t != [] && (t[0] == '-' || t[0] == '+') then
      match ParseUnsigned(t[1..])
      case Some(x) => Some(if t[0] == '-' then -x else x)
      case None => None
    else ParseUnsigned(t)
  }

  /** `float(val)` on a cell that is not missing; `None` where it raises. */
  function FloatOf(c: Cell): Option<real> {
    match c
    case Int(i) => Some(i as real)
    case Float(x, _) => Some(x)
    case Str(s) => ParseDecimal(s)
    case Missing => None
  }

  /** `safe_float`: missing or unreadable cells give the default. */
  function SafeFloat(c: Cell, default: real): (r: real)
    ensures c.Missing? ==> r == default
    ensures c.Int? ==> r == c.i as real
    ensures c.Float? ==> r == c.x
    ensures c.Str? ==> r == ParseDecimal(c.s).GetOr(default)
  {
    if c.Missing? then default else FloatOf(c).GetOr(default)
  }

  /** `safe_int`: `int(float(val))`, which truncates toward zero. */
  function SafeInt(c: Cell, default: int): (r: int) {
    if c.Missing? then default
    else match FloatOf(c)
      case Some(x) => Trunc(x)
      case None => default
  }

  /** `safe_str`: the text `str()` prints, the default for a missing cell. */
  function SafeStr(c: Cell, default: String): (r: String)
    ensures c.Missing? ==> r == default
    ensures c.Str? ==> r == c.s
  {
    match c
    case Int(i) => IntToString(i)
    case Float(_, repr) => repr
    case Str(s) => s
    case Missing => default
  }

  /** `safe_int` keeps the whole part of a readable value and falls back otherwise. */
  lemma SafeIntTruncates(c: Cell, default: int)
    ensures c.Missing? || FloatOf(c).None? ==> SafeInt(c, default) == default
    ensures !c.Missing? && FloatOf(c).Some? ==>
              var x := FloatOf(c).value;
              && Abs(SafeInt(c, default) as real) <= Abs(x) < Abs(SafeInt(c, default) as real) + 1.0
              && (SafeInt(c, default) > 0 ==> x > 0.0)
              && (SafeInt(c, default) < 0 ==> x < 0.0)
    ensures c.Int? ==> SafeInt(c, default) == c.i
  {
  }

  /** A run of digits reads as the number it spells. */
  lemma ParseDigits(s: String)
    requires s != [] && AllDigits(s)
    ensures ParseUnsigned(s) == Some(DigitsValue(s) as real)
  {
    DigitRunOfDigits(s);
    assert s[..|s|] == s;
  }

  /** `str(n)` reads back as `n`. */
  lemma ParseNatText(n: nat)
    ensures ParseDecimal(NatToString(n)) == Some(n as real)
  {
    var s := NatToString(n);
    assert !IsSpace(s[0]) && !IsSpace(s[|s| - 1]);
    StripUnchanged(s);
    ParseDigits(s);
    NatToStringValue(n);
  }

  /** `str(-n)` reads back as `-n`. */
  lemma ParseNegativeText(n: nat)
    requires n > 0
    ensures ParseDecimal("-" + NatToString(n)) == Some(-(n as real))
  {
    var s := NatToString(n);
    var t := "-" + s;
    assert !IsSpace(t[0]) && !IsSpace(t[|t| - 1]);
    StripUnchanged(t);
    assert t[1..] == s;
    ParseDigits(s);
    NatToStringValue(n);
  }

  /** `str(i)` reads back as `i`, a minus sign included. */
  lemma ParseIntText(i: int)
    ensures ParseDecimal(IntToString(i)) == Some(i as real)
  {
    if i < 0 {
      ParseNegativeText(-i);
    } else {
      ParseNatText(i);
    }
  }

  /** The text `safe_str` writes for an integer cell reads back as the same integer. */
  lemma SafeStrOfIntReadsBack(i: int, default: int)
    ensures SafeInt(Str(SafeStr(Int(i), "")), default) == i
    ensures SafeFloat(Str(SafeStr(Int(i), "")), 0.0) == i as real
  {
    ParseIntText(i);
  }

  /** Nanoseconds in a day, the unit pandas reads a number as. */
  const NanosPerDay: int := 86_400_000_000_000

  const Epoch: Date := Date(1970, 1, 1)

  /** A date written `YYYY-MM-DD`, alone or followed by a time. */
  function DateText(s: String): (r: Option<Date>)
    ensures r.Some? ==> ValidDate(r.value)
  {
    if |s| > 10 && (s[10] == ' ' || s[10] == 'T') then ParseIso(s[..10]) else ParseIso(s)
  }

  /** `safe_date`: `pd.to_datetime` of the cell, `now` where it is missing or raises. */
  function SafeDate(c: Cell, now: Date): (r: Date)
    requires ValidDate(now)
    ensures ValidDate(r)
    ensures c.Missing? ==> r == now
    ensures c.Str? ==> r == DateText(c.s).GetOr(now)
  {
    match c
    case Missing => now
    case Str(s) => DateText(s).GetOr(now)
    case Int(i) => NanosDate(i, now)
    case Float(x, _) => NanosDate(Trunc(x), now)
  }

  /** A number of nanoseconds since 1970 as a date, within the 64-bit range pandas accepts. */
  function NanosDate(ns: int, now: Date): (r: Date)
    requires ValidDate(now)
    ensures ValidDate(r)
  {
    if -0x8000_0000_0000_0000 <= ns < 0x8000_0000_0000_0000 then
      assert ToOrdinal(Epoch) == 719163;
      AddDays(Epoch, FloorDiv(ns, NanosPerDay))
    else now
  }

  // ------------------------------------------------------------------
  // Mapping a row onto a table
  // ------------------------------------------------------------------

  /** A value stored in a column. */
  datatype Value = Text(s: String) | Number(x: real) | Whole(i: int) | When(d: Date) | Null

  type Record = map<String, Value>

  /** How one column is filled from the chosen cell. */
  datatype Conversion =
    | AsText(default: String)
    | AsFloat
    | AsInt
    | AsDate
    | AsOptionalDate

  /**
   * A column of a table: `row.get(cols[0], row.get(cols[1], ... last))` converted
   * by `conv`.
   */
  datatype Field = Field(name: String, cols: seq<String>, last: Cell, conv: Conversion)

  /** The nested `row.get` chain: the first column the row has, else the last default. */
  function Pick(row: Row, cols: seq<String>, last: Cell): (c: Cell)
    ensures (forall i :: 0 <= i < |cols| ==> cols[i] !in row) ==> c == last
    ensures forall i :: 0 <= i < |cols| && cols[i] in row && (forall j :: 0 <= j < i ==> cols[j] !in row) ==> c == row[cols[i]]
  {
    if cols == [] then last else GetOr(row, cols[0], Pick(row, cols[1..], last))
  }

  function Convert(f: Field, row: Row, now: Date): Value
    requires ValidDate(now)
  {
    var c := Pick(row, f.cols, f.last);
    match f.conv
    case AsText(default) => Text(SafeStr(c, default))
    case AsFloat => Number(SafeFloat(c, 0.0))
    case AsInt => Whole(SafeInt(c, 0))
    case AsDate => When(SafeDate(c, now))
    case AsOptionalDate => if c.Missing? then Null else When(SafeDate(c, now))
  }

  /** The `data` dict of one row: every field, the later of two with one name winning. */
  function RecordOf(fields: seq<Field>, row: Row, now: Date): (r: Record)
    requires ValidDate(now)
  {
    if fields == [] then map[]
    else
      var f := fields[|fields| - 1];
      RecordOf(fields[..|fields| - 1], row, now)[f.name := Convert(f, row, now)]
  }

  /** The record has a column for each field name and no other. */
  lemma {:induction false} RecordOfNames(fields: seq<Field>, row: Row, now: Date)
    requires ValidDate(now)
    ensures forall n :: n in RecordOf(fields, row, now) <==> n in Names(fields)
    decreases |fields|
  {
    if fields != [] {
      RecordOfNames(fields[..|fields| - 1], row, now);
      assert Names(fields) == Names(fields[..|fields| - 1]) + [fields[|fields| - 1].name];
    }
  }

  /** A column holds the conversion of the last field of that name. */
  lemma {:induction false} RecordOfLast(fields: seq<Field>, row: Row, now: Date, i: nat)
    requires ValidDate(now)
    requires i < |fields|
    requires forall j :: i < j < |fields| ==> fields[j].name != fields[i].name
    ensures fields[i].name in RecordOf(fields, row, now)
    ensures RecordOf(fields, row, now)[fields[i].name] == Convert(fields[i], row, now)
    decreases |fields|
  {
    var n := |fields| - 1;
    if i < n {
      var init := fields[..n];
      assert init[i] == fields[i];
      assert forall j :: i < j < n ==> init[j] == fields[j];
      RecordOfLast(init, row, now, i);
    }
  }

  function Names(fields: seq<Field>): (ns: seq<String>)
    ensures |ns| == |fields| && forall i :: 0 <= i < |fields| ==> ns[i] == fields[i].name
  {
    seq(|fields|, i requires 0 <= i < |fields| => fields[i].name)
  }

  function TextField(name: String): Field { Field(name, [name], Missing, AsText("")) }
  function TextFrom(name: String, cols: seq<String>, default: String): Field { Field(name, cols, Missing, AsText(default)) }
  function FloatFrom(name: String, cols: seq<String>, last: Cell): Field { Field(name, cols, last, AsFloat) }
  function IntFrom(name: String, cols: seq<String>): Field { Field(name, cols, Missing, AsInt) }
  function DateFrom(name: String, cols: seq<String>): Field { Field(name, cols, Missing, AsDate) }
  function OptionalDate(name: String): Field { Field(name, [name], Missing, AsOptionalDate) }

  /** The batch columns besides `batch_id` and `hardness`. */
  function BatchFields(): seq<Field> {
    [ TextFrom("product_name", ["product_name"], "Paracetamol 500mg"),
      TextField("product_code"),
      FloatFrom("batch_size_kg", ["batch_size_kg"], Missing),
      DateFrom("manufacturing_date", ["manufacturing_date"]),
      TextField("shift"),
      TextField("operator_primary"),
      TextField("operator_secondary"),
      TextField("tablet_press_id"),
      TextField("granulator_id"),
      TextField("dryer_id"),
      TextField("blender_id"),
      FloatFrom("compression_force", ["compression_force_main_kn", "main_compression_force_kn", "compression_force"], Int(0)),
      FloatFrom("pre_compression_force", ["compression_force_pre_kn", "pre_compression_force_kn"], Int(0)),
      FloatFrom("turret_speed", ["turret_speed_rpm"], Missing),
      FloatFrom("weight", ["tablet_weight_mg", "ipc_weight_mean", "weight"], Int(0)),
      FloatFrom("thickness", ["tablet_thickness_mm", "ipc_thickness_mean", "thickness"], Int(0)),
      FloatFrom("friability", ["friability_percent", "ipc_friability_percent"], Int(0)),
      FloatFrom("granulation_temp", ["granulation_temperature_c"], Missing),
      FloatFrom("drying_temp_inlet", ["inlet_air_temp_c"], Missing),
      FloatFrom("drying_temp_outlet", ["outlet_air_temp_c"], Missing),
      FloatFrom("moisture_content", ["final_moisture_content_percent"], Missing),
      FloatFrom("yield_percent", ["yield_percent", "actual_yield_pct", "yield_percentage"], Int(98)),
      IntFrom("tablets_theoretical", ["theoretical_yield_tablets", "tablets_theoretical"]),
      IntFrom("tablets_actual", ["actual_yield_tablets", "tablets_actual"]),
      TextFrom("status", ["status"], "released"),
      TextField("deviation_id"),
      TextField("comments") ]
  }

  /** The QC columns besides `sample_id`, `hardness` and `dissolution_mean`. */
  function QcFields(): seq<Field> {
    [ TextField("batch_id"),
      DateFrom("test_date", ["test_date", "testing_date"]),
      TextFrom("id_result", ["id_ir_result", "id_hplc_result"], ""),
      FloatFrom("assay_percent", ["assay_percent", "assay_mean"], Missing),
      TextField("assay_result"),
      FloatFrom("dissolution_min", ["dissolution_30min_min", "dissolution_min"], Missing),
      TextField("dissolution_result"),
      FloatFrom("cu_av", ["cu_acceptance_value", "cu_av"], Missing),
      TextField("cu_result"),
      FloatFrom("impurity_a", ["impurity_a_percent"], Missing),
      FloatFrom("impurity_total", ["total_impurities_percent"], Missing),
      TextFrom("impurity_result", ["impurities_result", "impurity_result"], ""),
      FloatFrom("friability", ["friability_percent"], Missing),
      FloatFrom("disintegration", ["disintegration_max_min", "disintegration_min"], Missing),
      FloatFrom("weight_mean", ["weight_mean_mg"], Missing),
      IntFrom("tamc", ["tamc_cfu_g"]),
      IntFrom("tymc", ["tymc_cfu_g"]),
      TextFrom("microbial_result", ["micro_result", "microbial_result"], ""),
      TextFrom("overall_result", ["overall_result"], "Pass"),
      TextFrom("analyst", ["analyst_chemical"], "") ]
  }

  /** The complaint columns besides `complaint_id`. */
  function ComplaintFields(): seq<Field> {
    [ DateFrom("complaint_date", ["complaint_date", "date"]),
      TextField("batch_id"),
      TextField("category"),
      TextField("description"),
      TextFrom("severity", ["severity"], "low"),
      TextField("market"),
      TextField("reporter_type"),
      TextField("investigation_required"),
      TextField("root_cause"),
      TextField("investigation_outcome"),
      TextField("regulatory_reportable"),
      TextField("capa_reference"),
      TextFrom("status", ["complaint_status", "status"], "open") ]
  }

  /** The CAPA columns besides `capa_id`. */
  function CapaFields(): seq<Field> {
    [ TextFrom("capa_type", ["capa_type", "type"], ""),
      TextField("source"),
      TextField("source_reference"),
      DateFrom("open_date", ["open_date", "date", "initiation_date"]),
      TextField("problem_statement"),
      TextField("problem_category"),
      TextField("risk_score"),
      TextField("rca_method"),
      TextField("root_cause_category"),
      TextFrom("root_cause_description", ["root_cause_description", "root_cause"], ""),
      TextField("responsible_department"),
      TextField("capa_owner"),
      OptionalDate("target_date"),
      OptionalDate("actual_completion_date"),
      IntFrom("days_to_close", ["days_to_close"]),
      TextFrom("status", ["status"], "open"),
      TextField("effectiveness_verified"),
      IntFrom("num_actions", ["num_actions"]) ]
  }

  /** The calibration columns besides `calibration_id`. */
  function EquipmentFields(): seq<Field> {
    [ TextField("equipment_id"),
      TextFrom("equipment_name", ["equipment_name", "name"], ""),
      TextField("equipment_type"),
      TextField("location"),
      TextField("criticality"),
      TextField("parameter"),
      DateFrom("scheduled_date", ["scheduled_date"]),
      DateFrom("actual_date", ["actual_date", "calibration_date"]),
      DateFrom("next_due_date", ["next_due_date", "next_calibration"]),
      FloatFrom("as_found_value", ["as_found_value"], Missing),
      FloatFrom("as_left_value", ["as_left_value"], Missing),
      FloatFrom("deviation", ["deviation"], Missing),
      TextFrom("result", ["result", "status"], "Pass"),
      TextField("out_of_tolerance"),
      TextField("calibrated_by") ]
  }

  /** The environmental monitoring columns besides `record_id`. */
  function EnvironmentalFields(): seq<Field> {
    [ DateFrom("monitoring_date", ["monitoring_date"]),
      TextField("room_code"),
      TextField("room_name"),
      TextField("room_classification"),
      TextField("sampling_point"),
      IntFrom("particles_05um", ["particles_05um_per_m3"]),
      IntFrom("particles_50um", ["particles_50um_per_m3"]),
      IntFrom("viable_active_air", ["viable_active_air_cfu_m3"]),
      FloatFrom("temperature", ["temperature_c"], Missing),
      FloatFrom("humidity", ["humidity_percent_rh"], Missing),
      FloatFrom("diff_pressure", ["diff_pressure_pa"], Missing),
      TextField("overall_result") ]
  }

  /** The stability columns besides `study_id`. */
  function StabilityFields(): seq<Field> {
    [ TextField("batch_id"),
      TextField("stability_condition"),
      IntFrom("storage_temp", ["storage_temp_c"]),
      IntFrom("storage_rh", ["storage_rh_percent"]),
      IntFrom("timepoint_months", ["timepoint_months"]),
      DateFrom("test_date", ["test_date"]),
      FloatFrom("assay_percent", ["assay_percent"], Missing),
      FloatFrom("dissolution_percent", ["dissolution_30min_percent"], Missing),
      FloatFrom("impurity_total", ["total_impurities_percent"], Missing),
      FloatFrom("water_content", ["water_content_percent"], Missing),
      TextField("overall_result") ]
  }

  /** The goods receipt columns besides `grn_number`. */
  function RawMaterialFields(): seq<Field> {
    [ TextField("material_code"),
      TextField("material_name"),
      TextField("supplier_id"),
      TextField("supplier_name"),
      DateFrom("receipt_date", ["receipt_date"]),
      FloatFrom("quantity", ["quantity_received"], Missing),
      TextField("unit"),
      TextField("coa_received"),
      TextField("test_status"),
      TextField("disposition") ]
  }

  /** The batch release columns; a release has no default key. */
  function BatchReleaseFields(): seq<Field> {
    [ TextField("batch_id"),
      TextField("qp_id"),
      TextField("qp_name"),
      DateFrom("review_start_date", ["review_start_date"]),
      DateFrom("qc_complete_date", ["qc_complete_date"]),
      OptionalDate("release_date"),
      TextField("disposition"),
      IntFrom("days_to_release", ["days_to_release"]),
      TextField("has_deviation"),
      TextField("has_oos"),
      TextField("market_destination"),
      FloatFrom("yield_percent", ["actual_yield_pct"], Missing) ]
  }

  // ------------------------------------------------------------------
  // The special columns
  // ------------------------------------------------------------------

  /** Newtons per kilopond. */
  const Newton: real := 9.81

  /**
   * Batch hardness: `tablet_hardness_n` is in newtons and is converted; without it
   * the kilopond columns are used as they are.
   */
  function BatchHardness(row: Row): (h: real)
    ensures !Get(row, "tablet_hardness_n").Missing? ==> h == SafeFloat(Get(row, "tablet_hardness_n"), 0.0) / Newton
    ensures Get(row, "tablet_hardness_n").Missing? ==>
              h == SafeFloat(Pick(row, ["ipc_hardness_mean", "hardness"], Int(0)), 0.0)
  {
    var newtons := Get(row, "tablet_hardness_n");
    if !newtons.Missing? then SafeFloat(newtons, 0.0) / Newton
    else SafeFloat(Pick(row, ["ipc_hardness_mean", "hardness"], Int(0)), 0.0)
  }

  /** The QC hardness as read, before the unit rule. */
  function QcHardnessRead(row: Row): real {
    SafeFloat(Pick(row, ["hardness_mean_n", "hardness_kp", "hardness_mean"], Missing), 0.0)
  }

  /** QC hardness above 50 is taken to be in newtons and converted. */
  function QcHardness(row: Row): (h: real)
    ensures QcHardnessRead(row) > 50.0 ==> h == QcHardnessRead(row) / Newton
    ensures QcHardnessRead(row) <= 50.0 ==> h == QcHardnessRead(row)
  {
    var h := QcHardnessRead(row);
    if h > 50.0 then h / Newton else h
  }

  /** A converted value stays positive and shrinks by the factor; a kilopond value is kept. */
  lemma NewtonReading(row: Row)
    ensures QcHardnessRead(row) > 50.0 ==> 0.0 < QcHardness(row) < QcHardnessRead(row)
    ensures QcHardnessRead(row) > 50.0 ==> QcHardness(row) * Newton == QcHardnessRead(row)
  {
  }

  /** The "dissolution_vessel_<i>" column. */
  function VesselColumn(i: nat): String {
    "dissolution_vessel_" + NatToString(i)
  }

  /** The positive vessel values among vessels 1 to k, in vessel order. */
  function PositiveVessels(row: Row, k: nat): (vs: seq<real>)
    ensures |vs| <= k
    ensures forall v :: v in vs ==> v > 0.0
  {
    if k == 0 then []
    else
      var v := SafeFloat(Get(row, VesselColumn(k)), 0.0);
      PositiveVessels(row, k - 1) + (if v > 0.0 then [v] else [])
  }

  /** The dissolution mean as provided by the file. */
  function ProvidedDissolution(row: Row): real {
    SafeFloat(Pick(row, ["dissolution_30min_mean", "dissolution_mean"], Missing), 0.0)
  }

  /** A provided mean of 0 is replaced by the mean of the positive vessels 1 to 6, if any. */
  function QcDissolution(row: Row): real {
    var provided := ProvidedDissolution(row);
    if provided == 0.0 && PositiveVessels(row, 6) != [] then Mean(PositiveVessels(row, 6)) else provided
  }

  /** The fallback keeps a provided mean, and otherwise lies between the smallest and largest positive vessel. */
  lemma DissolutionFallback(row: Row)
    ensures ProvidedDissolution(row) != 0.0 ==> QcDissolution(row) == ProvidedDissolution(row)
    ensures ProvidedDissolution(row) == 0.0 && PositiveVessels(row, 6) == [] ==> QcDissolution(row) == 0.0
    ensures ProvidedDissolution(row) == 0.0 && PositiveVessels(row, 6) != [] ==>
              && 0.0 < MinOf(PositiveVessels(row, 6)) <= QcDissolution(row) <= MaxOf(PositiveVessels(row, 6))
  {
    var vs := PositiveVessels(row, 6);
    if ProvidedDissolution(row) == 0.0 && vs != [] {
      MeanBetweenMinMax(vs);
      assert MinOf(vs) in vs;
    }
  }

  /** The loop over vessels 1 to 6, collecting the positive values and averaging them. */
  method DissolutionMean(row: Row) returns (mean: real)
    ensures mean == QcDissolution(row)
  {
    mean := ProvidedDissolution(row);
    if mean == 0.0 {
      var vesselVals: seq<real> := [];
      for i := 1 to 7
        invariant vesselVals == PositiveVessels(row, i - 1)
      {
        var v := SafeFloat(Get(row, VesselColumn(i)), 0.0);
        if v > 0.0 {
          vesselVals := vesselVals + [v];
        }
      }
      if vesselVals != [] {
        mean := Sum(vesselVals) / |vesselVals| as real;
      }
    }
  }

  // ------------------------------------------------------------------
  // Records per kind of data
  // ------------------------------------------------------------------

  datatype Kind =
    | Batches | QcResults | Complaints | Capas | Equipment
    | Environmental | Stability | RawMaterials | BatchReleases

  /** The `data_type` query parameter; `None` for an unknown type. */
  function KindOf(dataType: String): (k: Option<Kind>)
    ensures k == Some(Batches) <==> dataType == "batch"
    ensures k == Some(QcResults) <==> dataType == "qc"
  {
    if dataType == "batch" then Some(Batches)
    else if dataType == "qc" then Some(QcResults)
    else if dataType == "complaint" then Some(Complaints)
    else if dataType == "capa" then Some(Capas)
    else if dataType == "equipment" then Some(Equipment)
    else if dataType == "environmental" then Some(Environmental)
    else if dataType == "stability" then Some(Stability)
    else if dataType == "raw_material" then Some(RawMaterials)
    else if dataType == "batch_release" then Some(BatchReleases)
    else None
  }

  /** Exactly the nine known data types are accepted. */
  lemma KnownTypes(dataType: String)
    ensures KindOf(dataType).None? <==>
              dataType !in {"batch", "qc", "complaint", "capa", "equipment", "environmental", "stability", "raw_material", "batch_release"}
  {
  }

  /** The columns a kind works out by rule rather than through a field. */
  datatype Rule = Plain | BatchRule | QcRule

  /**
   * How the rows of one kind become records: the fields, the key column with
   * the prefix of its default, and the rule for the worked-out columns.
   */
  datatype Table = Table(fields: seq<Field>, key: Option<(String, String)>, rule: Rule)

  /** The key column of a kind and the prefix of the key a row without one gets. */
  function KeyColumn(k: Kind): (key: Option<(String, String)>)
    ensures key.None? <==> k == BatchReleases
    ensures KeyApart(key)
    ensures k == Batches ==> key == Some(("batch_id", "BATCH-"))
    ensures k == QcResults ==> key == Some(("sample_id", "QC-"))
    ensures k == Complaints ==> key == Some(("complaint_id", "CMP-"))
    ensures k == Capas ==> key == Some(("capa_id", "CAPA-"))
  {
    match k
    case Batches => Some(("batch_id", "BATCH-"))
    case QcResults => Some(("sample_id", "QC-"))
    case Complaints => Some(("complaint_id", "CMP-"))
    case Capas => Some(("capa_id", "CAPA-"))
    case Equipment => Some(("calibration_id", "CAL-"))
    case Environmental => Some(("record_id", "EM-"))
    case Stability => Some(("study_id", "STAB-"))
    case RawMaterials => Some(("grn_number", "GRN-"))
    case BatchReleases => None
  }

  /** Only batches and QC results have worked-out columns. */
  function RuleOf(k: Kind): (rule: Rule)
    ensures rule == BatchRule <==> k == Batches
    ensures rule == QcRule <==> k == QcResults
  {
    match k
    case Batches => BatchRule
    case QcResults => QcRule
    case _ => Plain
  }

  function FieldsOf(k: Kind): seq<Field> {
    match k
    case Batches => BatchFields()
    case QcResults => QcFields()
    case Complaints => ComplaintFields()
    case Capas => CapaFields()
    case Equipment => EquipmentFields()
    case Environmental => EnvironmentalFields()
    case Stability => StabilityFields()
    case RawMaterials => RawMaterialFields()
    case BatchReleases => BatchReleaseFields()
  }

  function TableOf(k: Kind): Table {
    Table(FieldsOf(k), KeyColumn(k), RuleOf(k))
  }

  /** The key of row number `count`: its own key cell, else the prefix and the count. */
  function KeyOf(t: Table, row: Row, count: nat): (key: String)
    requires t.key.Some?
    ensures Get(row, t.key.value.0).Missing? ==> key == t.key.value.1 + NatToString(count)
    ensures Get(row, t.key.value.0).Str? ==> key == Get(row, t.key.value.0).s
  {
    SafeStr(Get(row, t.key.value.0), t.key.value.1 + NatToString(count))
  }

  /** The record one row makes, given the dissolution mean worked out for it. */
  function RecordWith(t: Table, row: Row, count: nat, now: Date, dissolution: real): (r: Record)
    requires ValidDate(now)
  {
    var base := RecordOf(t.fields, row, now);
    var keyed := if t.key.Some? then base[t.key.value.0 := Text(KeyOf(t, row, count))] else base;
    match t.rule
    case Plain => keyed
    case BatchRule => keyed["hardness" := Number(BatchHardness(row))]
    case QcRule => keyed["hardness" := Number(QcHardness(row))]["dissolution_mean" := Number(dissolution)]
  }

  /** The record row number `count` makes. */
  function RecordFor(t: Table, row: Row, count: nat, now: Date): (r: Record)
    requires ValidDate(now)
  {
    RecordWith(t, row, count, now, QcDissolution(row))
  }

  /** A key column is never one of the worked-out columns. */
  predicate KeyApart(key: Option<(String, String)>) {
    key.Some? ==> key.value.0 != "hardness" && key.value.0 != "dissolution_mean"
  }

  /** The key column of a record holds the key of its row. */
  lemma RecordKey(t: Table, row: Row, count: nat, now: Date)
    requires ValidDate(now) && KeyApart(t.key) && t.key.Some?
    ensures RecordFor(t, row, count, now)[t.key.value.0] == Text(KeyOf(t, row, count))
  {
  }

  /** A record holds a column for every field of its table. */
  lemma RecordHasFields(t: Table, row: Row, count: nat, now: Date)
    requires ValidDate(now)
    ensures forall n :: n in Names(t.fields) ==> n in RecordFor(t, row, count, now)
  {
    RecordOfNames(t.fields, row, now);
    var base := RecordOf(t.fields, row, now);
    var keyed := if t.key.Some? then base[t.key.value.0 := Text(KeyOf(t, row, count))] else base;
    assert base.Keys <= keyed.Keys;
    assert keyed.Keys <= RecordFor(t, row, count, now).Keys;
  }

  /** Under the batch and QC rules a record holds the converted hardness and the worked-out dissolution mean. */
  lemma RecordWorkedOut(t: Table, row: Row, count: nat, now: Date)
    requires ValidDate(now)
    ensures t.rule == BatchRule ==> RecordFor(t, row, count, now)["hardness"] == Number(BatchHardness(row))
    ensures t.rule == QcRule ==> RecordFor(t, row, count, now)["hardness"] == Number(QcHardness(row))
    ensures t.rule == QcRule ==> RecordFor(t, row, count, now)["dissolution_mean"] == Number(QcDissolution(row))
  {
  }

  /** Row number `count` as a record, working out the dissolution mean for a QC row. */
  method MakeRecord(t: Table, row: Row, count: nat, now: Date) returns (r: Record)
    requires ValidDate(now)
    ensures r == RecordFor(t, row, count, now)
  {
    var dissolution := 0.0;
    if t.rule == QcRule {
      dissolution := DissolutionMean(row);
    }
    r := RecordWith(t, row, count, now, dissolution);
  }

  // ------------------------------------------------------------------
  // Upserting and inserting rows
  // ------------------------------------------------------------------

  /** A keyed table after writing each record under its key in turn. */
  function Upserted(table: map<String, Record>, keys: seq<String>, recs: seq<Record>): map<String, Record>
    requires |keys| == |recs|
    decreases |keys|
  {
    if keys == [] then table
    else
      var n := |keys| - 1;
      Upserted(table, keys[..n], recs[..n])[keys[n] := recs[n]]
  }

  lemma {:induction false} UpsertedKeys(table: map<String, Record>, keys: seq<String>, recs: seq<Record>)
    requires |keys| == |recs|
    ensures forall key :: key in Upserted(table, keys, recs) <==> key in table || key in keys
    ensures forall key :: key in table && key !in keys ==> Upserted(table, keys, recs)[key] == table[key]
    decreases |keys|
  {
    if keys != [] {
      var n := |keys| - 1;
      UpsertedKeys(table, keys[..n], recs[..n]);
      assert keys == keys[..n] + [keys[n]];
    }
  }

  lemma {:induction false} UpsertedLastWins(table: map<String, Record>, keys: seq<String>, recs: seq<Record>, i: nat)
    requires |keys| == |recs| && i < |keys|
    requires forall j :: i < j < |keys| ==> keys[j] != keys[i]
    ensures keys[i] in Upserted(table, keys, recs)
    ensures Upserted(table, keys, recs)[keys[i]] == recs[i]
    decreases |keys|
  {
    var n := |keys| - 1;
    if i < n {
      assert keys[..n][i] == keys[i] && recs[..n][i] == recs[i];
      assert forall j :: i < j < n ==> keys[..n][j] == keys[j];
      UpsertedLastWins(table, keys[..n], recs[..n], i);
    }
  }

  /** The keyed table after the rows: each row overwrites or adds the record of its key. */
  function UpsertAll(table: map<String, Record>, t: Table, rows: seq<Row>, now: Date): map<String, Record>
    requires ValidDate(now) && t.key.Some?
  {
    Upserted(table, RowKeys(t, rows), InsertAll(t, rows, now))
  }

  /** Writing one more row writes its record under its key. */
  lemma UpsertAllStep(table: map<String, Record>, t: Table, rows: seq<Row>, now: Date, i: nat)
    requires ValidDate(now) && t.key.Some? && i < |rows|
    ensures UpsertAll(table, t, rows[..i + 1], now) ==
            UpsertAll(table, t, rows[..i], now)[KeyOf(t, rows[i], i) := RecordFor(t, rows[i], i, now)]
  {
    var ks, rs := RowKeys(t, rows[..i + 1]), InsertAll(t, rows[..i + 1], now);
    assert ks[..i] == RowKeys(t, rows[..i]);
    assert rs[..i] == InsertAll(t, rows[..i], now);
  }

  /** The keys afterwards are the old keys and the keys of the rows; keys no row uses keep their record. */
  lemma UpsertAllKeys(table: map<String, Record>, t: Table, rows: seq<Row>, now: Date)
    requires ValidDate(now) && t.key.Some?
    ensures forall key :: key in UpsertAll(table, t, rows, now) <==> key in table || key in RowKeys(t, rows)
    ensures forall key :: key in table && key !in RowKeys(t, rows) ==> UpsertAll(table, t, rows, now)[key] == table[key]
  {
    UpsertedKeys(table, RowKeys(t, rows), InsertAll(t, rows, now));
  }

  /** The key of every row, in file order. */
  function RowKeys(t: Table, rows: seq<Row>): (ks: seq<String>)
    requires t.key.Some?
    ensures |ks| == |rows| && forall i :: 0 <= i < |rows| ==> ks[i] == KeyOf(t, rows[i], i)
  {
    seq(|rows|, i requires 0 <= i < |rows| => KeyOf(t, rows[i], i))
  }

  /** The record stored under a key is the one the last row with that key made. */
  lemma UpsertLastWins(table: map<String, Record>, t: Table, rows: seq<Row>, now: Date, i: nat)
    requires ValidDate(now) && t.key.Some?
    requires i < |rows|
    requires forall j :: i < j < |rows| ==> KeyOf(t, rows[j], j) != KeyOf(t, rows[i], i)
    ensures KeyOf(t, rows[i], i) in UpsertAll(table, t, rows, now)
    ensures UpsertAll(table, t, rows, now)[KeyOf(t, rows[i], i)] == RecordFor(t, rows[i], i, now)
  {
    UpsertedLastWins(table, RowKeys(t, rows), InsertAll(t, rows, now), i);
  }

  /** The loop of a keyed kind: look the key up, overwrite or add, count the row. */
  method UpsertRows(table: map<String, Record>, t: Table, rows: seq<Row>, now: Date)
    returns (table': map<String, Record>, recordsCount: nat)
    requires ValidDate(now) && t.key.Some?
    ensures table' == UpsertAll(table, t, rows, now)
    ensures recordsCount == |rows|
  {
    table' := table;
    recordsCount := 0;
    for i := 0 to |rows|
      invariant recordsCount == i
      invariant table' == UpsertAll(table, t, rows[..i], now)
    {
      UpsertAllStep(table, t, rows, now, i);
      var key := KeyOf(t, rows[i], recordsCount);
      var data := MakeRecord(t, rows[i], recordsCount, now);
      // `setattr` of every column of an existing record, or `db.add` of a new one
      table' := table'[key := data];
      recordsCount := recordsCount + 1;
    }
    assert rows[..|rows|] == rows;
  }

  /** The records of the rows of an insert-only kind, in file order. */
  function InsertAll(t: Table, rows: seq<Row>, now: Date): (rs: seq<Record>)
    requires ValidDate(now)
    ensures |rs| == |rows|
    ensures forall i :: 0 <= i < |rows| ==> rs[i] == RecordFor(t, rows[i], i, now)
  {
    seq(|rows|, i requires 0 <= i < |rows| => RecordFor(t, rows[i], i, now))
  }

  /** The loop of an insert-only kind: one new record per row, counted. */
  method InsertRows(table: seq<Record>, t: Table, rows: seq<Row>, now: Date)
    returns (table': seq<Record>, recordsCount: nat)
    requires ValidDate(now)
    ensures table' == table + InsertAll(t, rows, now)
    ensures recordsCount == |rows|
  {
    table' := table;
    recordsCount := 0;
    for i := 0 to |rows|
      invariant recordsCount == i
      invariant table' == table + InsertAll(t, rows[..i], now)
    {
      var data := MakeRecord(t, rows[i], recordsCount, now);
      table' := table' + [data];
      recordsCount := recordsCount + 1;
    }
    assert rows[..|rows|] == rows;
  }

  // ------------------------------------------------------------------
  // The upload
  // ------------------------------------------------------------------

  /** A row of `uploaded_files`. */
  datatype UploadedFile = UploadedFile(filename: String, dataType: String, recordsCount: nat)

  /** The tables an upload writes to. */
  datatype Store = Store(
    batches: map<String, Record>, qcResults: seq<Record>, complaints: map<String, Record>,
    capas: map<String, Record>, equipment: seq<Record>, environmental: seq<Record>,
    stability: seq<Record>, rawMaterials: seq<Record>, batchReleases: seq<Record>,
    uploads: seq<UploadedFile>)

  datatype UploadResponse = UploadResponse(filename: String, recordsImported: nat, dataType: String)

  predicate EndsWith(s: String, suffix: String) {
    |suffix| <= |s| && s[|s| - |suffix|..] == suffix
  }

  /** The store once the rows of one kind are written with these fields, before the upload record. */
  function ImportedWith(s: Store, k: Kind, fields: seq<Field>, rows: seq<Row>, now: Date): (s': Store)
    requires ValidDate(now)
    ensures s'.uploads == s.uploads
  {
    var t := Table(fields, KeyColumn(k), RuleOf(k));
    match k
    case Batches => s.(batches := UpsertAll(s.batches, t, rows, now))
    case Complaints => s.(complaints := UpsertAll(s.complaints, t, rows, now))
    case Capas => s.(capas := UpsertAll(s.capas, t, rows, now))
    case QcResults => s.(qcResults := s.qcResults + InsertAll(t, rows, now))
    case Equipment => s.(equipment := s.equipment + InsertAll(t, rows, now))
    case Environmental => s.(environmental := s.environmental + InsertAll(t, rows, now))
    case Stability => s.(stability := s.stability + InsertAll(t, rows, now))
    case RawMaterials => s.(rawMaterials := s.rawMaterials + InsertAll(t, rows, now))
    case BatchReleases => s.(batchReleases := s.batchReleases + InsertAll(t, rows, now))
  }

  function Imported(s: Store, k: Kind, rows: seq<Row>, now: Date): Store
    requires ValidDate(now)
  {
    ImportedWith(s, k, FieldsOf(k), rows, now)
  }

  /** Importing batches upserts the batch table and leaves every other table as it was. */
  lemma BatchImportTouchesOnlyBatches(s: Store, rows: seq<Row>, now: Date)
    requires ValidDate(now)
    ensures Imported(s, Batches, rows, now) == s.(batches := UpsertAll(s.batches, TableOf(Batches), rows, now))
  {
  }

  /**
   * `upload_data`: a file whose name does not end in ".csv" and an unknown data
   * type are refused with status 400 and nothing written; otherwise every row
   * is written and one upload record counting all of them is added.
   */
  method UploadData(s: Store, filename: String, dataType: String, rows: seq<Row>, now: Date)
    returns (r: Result<(Store, UploadResponse), PyError>)
    requires ValidDate(now)
    ensures !EndsWith(filename, ".csv") ==> r == Failure(HttpError(400, "Seuls les fichiers CSV sont acceptés"))
    ensures EndsWith(filename, ".csv") && KindOf(dataType).None? ==>
              r == Failure(HttpError(400, "Type de données inconnu: " + dataType))
    ensures EndsWith(filename, ".csv") && KindOf(dataType).Some? ==>
              && r.Success?
              && r.value.0 == Imported(s, KindOf(dataType).value, rows, now).(uploads := s.uploads + [UploadedFile(filename, dataType, |rows|)])
              && r.value.1 == UploadResponse(filename, |rows|, dataType)
  {
    if !EndsWith(filename, ".csv") {
      return Failure(HttpError(400, "Seuls les fichiers CSV sont acceptés"));
    }
    var kind := KindOf(dataType);
    if kind.None? {
      return Failure(HttpError(400, "Type de données inconnu: " + dataType));
    }
    var k := kind.value;
    var s', recordsCount := ImportRows(s, k, FieldsOf(k), rows, now);
    assert s' == Imported(s, k, rows, now);
    s' := s'.(uploads := s.uploads + [UploadedFile(filename, dataType, recordsCount)]);
    r := Success((s', UploadResponse(filename, recordsCount, dataType)));
  }

  /** The branch of `upload_data` for one kind of data. */
  method ImportRows(s: Store, k: Kind, fields: seq<Field>, rows: seq<Row>, now: Date) returns (s': Store, recordsCount: nat)
    requires ValidDate(now)
    ensures s' == ImportedWith(s, k, fields, rows, now)
    ensures recordsCount == |rows|
  {
    var t := Table(fields, KeyColumn(k), RuleOf(k));
    match k {
      case Batches =>
        var table, c := UpsertRows(s.batches, t, rows, now);
        s', recordsCount := s.(batches := table), c;
      case Complaints =>
        var table, c := UpsertRows(s.complaints, t, rows, now);
        s', recordsCount := s.(complaints := table), c;
      case Capas =>
        var table, c := UpsertRows(s.capas, t, rows, now);
        s', recordsCount := s.(capas := table), c;
      case QcResults =>
        var table, c := InsertRows(s.qcResults, t, rows, now);
        s', recordsCount := s.(qcResults := table), c;
      case Equipment =>
        var table, c := InsertRows(s.equipment, t, rows, now);
        s', recordsCount := s.(equipment := table), c;
      case Environmental =>
        var table, c := InsertRows(s.environmental, t, rows, now);
        s', recordsCount := s.(environmental := table), c;
      case Stability =>
        var table, c := InsertRows(s.stability, t, rows, now);
        s', recordsCount := s.(stability := table), c;
      case RawMaterials =>
        var table, c := InsertRows(s.rawMaterials, t, rows, now);
        s', recordsCount := s.(rawMaterials := table), c;
      case BatchReleases =>
        var table, c := InsertRows(s.batchReleases, t, rows, now);
        s', recordsCount := s.(batchReleases := table), c;
    }
  }
}
