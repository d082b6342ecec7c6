/**
 * The numeric side of the assistant service: `analyze_trends`, which follows one
 * batch parameter over the last `days` days of production and calls the trend
 * from the two halves of the series, and `get_full_stats`, which counts and
 * averages the stored batches, QC results, complaints, CAPAs and calibrations.
 * The stored rows are given in query order; the database itself is not modelled.
 */
module Gemini {
  import opened Wrappers
  import opened Numeric
  import opened Calendar
  import opened Text
  import opened Frames

  type Day = d: Date | ValidDate(d) witness Date(1, 1, 1)

  /** `d.toordinal()` of a valid day. */
  function DayNumber(d: Day): int {
    ToOrdinal(d)
  }

  /**
   * A stored batch: its manufacturing date, its tablet press and the numeric
   * columns that hold a value (a column holding NULL is absent from `values`).
   */
  datatype Batch = Batch(date: Option<Day>, pressId: Option<String>, values: map<String, real>)

  /** `getattr(b, parameter, None)`: an unknown column and a NULL read alike. */
  function Attr(b: Batch, parameter: String): (r: Option<real>)
    ensures r.Some? <==> parameter in b.values
    ensures r.Some? ==> r.value == b.values[parameter]
  {
    if parameter in b.values then Some(b.values[parameter]) else None
  }

  // ------------------------------------------------------------------
  // analyze_trends
  // ------------------------------------------------------------------

  /** The latest manufacturing date, `None` when no batch has one. */
  function Latest(bs: seq<Batch>): Option<Day> {
    if bs == [] then None
    else
      var rest := Latest(bs[..|bs| - 1]);
      var d := bs[|bs| - 1].date;
      if d.None? then rest
      else if rest.None? || ToOrdinal(rest.value) < ToOrdinal(d.value) then d
      else rest
  }

  /** `max(b.manufacturing_date for b in batches if b.manufacturing_date)`. */
  lemma {:induction false} LatestIsMax(bs: seq<Batch>)
    ensures Latest(bs).None? <==> forall i :: 0 <= i < |bs| ==> bs[i].date.None?
    ensures Latest(bs).Some? ==> exists i :: 0 <= i < |bs| && bs[i].date == Latest(bs)
    ensures Latest(bs).Some? ==>
              forall i :: 0 <= i < |bs| && bs[i].date.Some? ==> ToOrdinal(bs[i].date.value) <= ToOrdinal(Latest(bs).value)
    decreases |bs|
  {
    if bs != [] {
      var init := bs[..|bs| - 1];
      LatestIsMax(init);
      assert forall i :: 0 <= i < |init| ==> init[i] == bs[i];
    }
  }

  /** Made on or after the cutoff day, given as an ordinal. */
  predicate InWindow(b: Batch, cutoff: int) {
    b.date.Some? && ToOrdinal(b.date.value) >= cutoff
  }

  function Window(bs: seq<Batch>, cutoff: int): seq<Batch> {
    Filter(bs, (b: Batch) => InWindow(b, cutoff))
  }

  /** The batches of the window that hold a value for the parameter. */
  function Hits(ws: seq<Batch>, parameter: String): seq<Batch> {
    Filter(ws, (b: Batch) => Attr(b, parameter).Some?)
  }

  /** `[getattr(b, parameter, 0) for b in hits]`. */
  function ValuesOf(hs: seq<Batch>, parameter: String): (vs: seq<real>)
    ensures |vs| == |hs|
    ensures forall i :: 0 <= i < |hs| ==> vs[i] == Attr(hs[i], parameter).GetOr(0.0)
  {
    seq(|hs|, i requires 0 <= i < |hs| => Attr(hs[i], parameter).GetOr(0.0))
  }

  /** The manufacturing dates of the hits, in the same order as their values. */
  function DatesOf(hs: seq<Batch>): (ds: seq<Day>)
    ensures |ds| == |hs|
    ensures forall i :: 0 <= i < |hs| ==> ds[i] == hs[i].date.GetOr(Date(1, 1, 1))
  {
    seq(|hs|, i requires 0 <= i < |hs| => hs[i].date.GetOr(Date(1, 1, 1)))
  }

  /** The relative change, in percent, from the mean of the first half to the mean of the second. */
  function Change(values: seq<real>): real
    requires |values| >= 2
  {
    var mid := |values| / 2;
    var firstAvg := Mean(values[..mid]);
    var lastAvg := Mean(values[mid..]);
    if firstAvg != 0.0 then (lastAvg - firstAvg) / firstAvg * 100.0 else 0.0
  }

  /** The trend direction and the alert flag. */
  function Direction(values: seq<real>): (r: (String, bool))
    ensures |values| < 5 ==> r == ("stable", false)
    ensures r.0 == "stable" || r.0 == "up" || r.0 == "down"
    ensures r.1 <==> r.0 != "stable"
    ensures |values| >= 5 ==> (r.0 == "up" <==> Change(values) > 5.0)
    ensures |values| >= 5 ==> (r.0 == "down" <==> Change(values) < -5.0)
  {
    if |values| >= 5 then
      var change := Change(values);
      if change > 5.0 then ("up", true)
      else if change < -5.0 then ("down", true)
      else ("stable", false)
    else ("stable", false)
  }

  /** A flat series never raises an alert, whatever its level, zero included. */
  lemma FlatSeriesIsStable(values: seq<real>, c: real)
    requires forall i :: 0 <= i < |values| ==> values[i] == c
    ensures Direction(values) == ("stable", false)
  {
    if |values| >= 5 {
      var mid := |values| / 2;
      MeanWithin(values[..mid], c, c);
      MeanWithin(values[mid..], c, c);
    }
  }

  /** A series whose second half averages more than 5 % above a positive first half trends up. */
  lemma RisingHalvesTrendUp(values: seq<real>)
    requires |values| >= 5
    requires Mean(values[..|values| / 2]) > 0.0
    requires Mean(values[|values| / 2..]) > 1.05 * Mean(values[..|values| / 2])
    ensures Direction(values) == ("up", true)
  {
    var f := Mean(values[..|values| / 2]);
    var l := Mean(values[|values| / 2..]);
    assert l - f > 0.05 * f;
    var q := (l - f) / f;
    assert q * f == l - f;
    assert q > 0.05 by {
      if q <= 0.05 {
        MulMonotone(q, 0.05, f);
      }
    }
    assert Change(values) == q * 100.0;
    assert q * 100.0 > 5.0;
  }

  datatype Trend = Trend(
    dates: seq<Day>, values: seq<real>, parameter: String, direction: String, alert: bool,
    average: real, min: real, max: real, count: nat)

  /** The reply of `analyze_trends`: an error message with empty lists, or the trend. */
  datatype TrendReply = NotEnough(error: String) | Found(trend: Trend)

  /** The series summary of at least two values. */
  function Summary(ds: seq<Day>, vs: seq<real>, parameter: String): (t: Trend)
    requires |vs| >= 2 && |ds| == |vs|
    ensures t.dates == ds && t.values == vs && t.count == |vs| && t.parameter == parameter
    ensures (t.direction, t.alert) == Direction(vs)
    ensures t.min <= t.average <= t.max
    ensures t.min == Round(MinOf(vs), 2) && t.max == Round(MaxOf(vs), 2)
  {
    MeanBetweenMinMax(vs);
    RoundMonotone(MinOf(vs), Mean(vs), 2);
    RoundMonotone(Mean(vs), MaxOf(vs), 2);
    var (direction, alert) := Direction(vs);
    Trend(ds, vs, parameter, direction, alert, Round(Mean(vs), 2), Round(MinOf(vs), 2), Round(MaxOf(vs), 2), |vs|)
  }

  /** The part of `analyze_trends` after the cutoff day is known. */
  function TrendFrom(batches: seq<Batch>, parameter: String, cutoff: int): (r: TrendReply)
    ensures |Window(batches, cutoff)| < 2 ==> r == NotEnough("Not enough data for this period")
    ensures |Window(batches, cutoff)| >= 2 && |Hits(Window(batches, cutoff), parameter)| < 2 ==>
              r == NotEnough("Not enough data")
    ensures |Window(batches, cutoff)| >= 2 && |Hits(Window(batches, cutoff), parameter)| >= 2 ==>
              var hits := Hits(Window(batches, cutoff), parameter);
              && r.Found?
              && r.trend.values == ValuesOf(hits, parameter)
              && r.trend.dates == DatesOf(hits)
              && r.trend.count == |hits|
              && r.trend.parameter == parameter
              && r.trend.min <= r.trend.average <= r.trend.max
              && (r.trend.direction, r.trend.alert) == Direction(r.trend.values)
  {
    var window := Window(batches, cutoff);
    if |window| < 2 then NotEnough("Not enough data for this period")
    else
      var hits := Hits(window, parameter);
      if |hits| < 2 then NotEnough("Not enough data")
      else Found(Summary(DatesOf(hits), ValuesOf(hits, parameter), parameter))
  }

  /**
   * `analyze_trends`: no batch is "not enough data"; no dated batch makes `max()`
   * raise; a cutoff before the first or after the last representable day (a
   * negative `days`) makes the date subtraction overflow; otherwise the window
   * decides.
   */
  function AnalyzeTrends(batches: seq<Batch>, parameter: String, days: int): (r: Result<TrendReply, PyError>)
    ensures batches == [] ==> r == Success(NotEnough("Not enough data"))
    ensures batches != [] && Latest(batches).None? ==> r == Failure(ValueError("max() arg is an empty sequence"))
    ensures batches != [] && Latest(batches).Some? ==>
              var cutoff := DayNumber(Latest(batches).value) - days;
              && (!(1 <= cutoff <= ToOrdinal(LastPyDate)) ==> r == Failure(OverflowError("date value out of range")))
              && (1 <= cutoff <= ToOrdinal(LastPyDate) ==> r == Success(TrendFrom(batches, parameter, cutoff)))
  {
    if batches == [] then Success(NotEnough("Not enough data"))
    else
      var latest := Latest(batches);
      if latest.None? then Failure(ValueError("max() arg is an empty sequence"))
      else
        var cutoff := DayNumber(latest.value) - days;
        if !(1 <= cutoff <= ToOrdinal(LastPyDate)) then Failure(OverflowError("date value out of range"))
        else Success(TrendFrom(batches, parameter, cutoff))
  }

  /**
   * Every point of a trend is a batch made between the cutoff and the latest
   * batch, and its value is that batch's value of the parameter.
   */
  lemma TrendPointsInWindow(batches: seq<Batch>, parameter: String, days: int, latest: Day, k: nat)
    requires Latest(batches) == Some(latest)
    requires k < |Hits(Window(batches, ToOrdinal(latest) - days), parameter)|
    ensures var hits := Hits(Window(batches, ToOrdinal(latest) - days), parameter);
      && ToOrdinal(latest) - days <= ToOrdinal(DatesOf(hits)[k]) <= ToOrdinal(latest)
      && exists b :: b in batches && b.date == Some(DatesOf(hits)[k]) && Attr(b, parameter) == Some(ValuesOf(hits, parameter)[k])
  {
    var cutoff := ToOrdinal(latest) - days;
    var hits := Hits(Window(batches, cutoff), parameter);
    HitsInWindow(batches, cutoff, parameter, k);
    var h := hits[k];
    assert DatesOf(hits)[k] == h.date.value;
    var i :| 0 <= i < |batches| && batches[i] == h;
    LatestIsMax(batches);
  }

  lemma HitsInWindow(bs: seq<Batch>, cutoff: int, parameter: String, k: nat)
    requires k < |Hits(Window(bs, cutoff), parameter)|
    ensures Hits(Window(bs, cutoff), parameter)[k] in bs
    ensures InWindow(Hits(Window(bs, cutoff), parameter)[k], cutoff)
    ensures Attr(Hits(Window(bs, cutoff), parameter)[k], parameter).Some?
  {
    var h := Hits(Window(bs, cutoff), parameter)[k];
    assert h in Hits(Window(bs, cutoff), parameter);
  }

  // ------------------------------------------------------------------
  // get_full_stats: the counts
  // ------------------------------------------------------------------

  datatype QcResult = QcResult(testDate: Option<Day>, assayPercent: Option<real>, dissolutionMean: Option<real>)
  datatype Complaint = Complaint(complaintDate: Option<Day>, status: Option<String>, category: Option<String>)
  datatype Capa = Capa(openDate: Option<Day>, status: Option<String>)
  datatype Calibration = Calibration(actualDate: Option<Day>, result: Option<String>)

  /** The stored rows of the five tables, in query order. */
  datatype Store = Store(
    batches: seq<Batch>, qcResults: seq<QcResult>, complaints: seq<Complaint>,
    capas: seq<Capa>, equipment: seq<Calibration>)

  /** The optional `>= start` and `<= end` filters; a NULL date passes neither. */
  predicate InRange(d: Option<Day>, start: Option<Day>, end: Option<Day>) {
    && (start.Some? ==> d.Some? && ToOrdinal(start.value) <= ToOrdinal(d.value))
    && (end.Some? ==> d.Some? && ToOrdinal(d.value) <= ToOrdinal(end.value))
  }

  function BatchesIn(s: Store, start: Option<Day>, end: Option<Day>): seq<Batch> {
    Filter(s.batches, (b: Batch) => InRange(b.date, start, end))
  }

  function QcIn(s: Store, start: Option<Day>, end: Option<Day>): seq<QcResult> {
    Filter(s.qcResults, (q: QcResult) => InRange(q.testDate, start, end))
  }

  function ComplaintsIn(s: Store, start: Option<Day>, end: Option<Day>): seq<Complaint> {
    Filter(s.complaints, (c: Complaint) => InRange(c.complaintDate, start, end))
  }

  function CapasIn(s: Store, start: Option<Day>, end: Option<Day>): seq<Capa> {
    Filter(s.capas, (c: Capa) => InRange(c.openDate, start, end))
  }

  function EquipmentIn(s: Store, start: Option<Day>, end: Option<Day>): seq<Calibration> {
    Filter(s.equipment, (e: Calibration) => InRange(e.actualDate, start, end))
  }

  /** Python truthiness of a nullable number: present and non-zero. */
  predicate Truthy(x: Option<real>) {
    x.Some? && x.value != 0.0
  }

  /** Python truthiness of a nullable text: present and non-empty. */
  predicate Filled(s: Option<String>) {
    s.Some? && s.value != []
  }

  /** The QC specification the statistics use: assay 95-105 % and dissolution at least 80 %. */
  predicate QcPasses(q: QcResult) {
    && Truthy(q.assayPercent) && Truthy(q.dissolutionMean)
    && 95.0 <= q.assayPercent.value <= 105.0
    && q.dissolutionMean.value >= 80.0
  }

  predicate ComplaintOpen(c: Complaint) { Filled(c.status) && Lower(c.status.value) == "open" }
  predicate ComplaintClosed(c: Complaint) { Filled(c.status) && Lower(c.status.value) == "closed" }
  predicate ComplaintOpenOrClosed(c: Complaint) { ComplaintOpen(c) || ComplaintClosed(c) }

  predicate CapaClosed(c: Capa) { Filled(c.status) && Contains(Lower(c.status.value), "closed") }
  predicate CapaOpen(c: Capa) { Filled(c.status) && !Contains(Lower(c.status.value), "closed") }
  predicate CapaHasStatus(c: Capa) { Filled(c.status) }

  predicate CalibrationFailed(e: Calibration) { e.result == Some("Fail") }

  /** Open and closed complaints are told apart by exact status, so together they are at most all of them. */
  lemma ComplaintsOpenClosed(cs: seq<Complaint>)
    ensures Count(cs, ComplaintOpen) + Count(cs, ComplaintClosed) == Count(cs, ComplaintOpenOrClosed) <= |cs|
  {
    CountDisjoint(cs, ComplaintOpen, ComplaintClosed, ComplaintOpenOrClosed);
  }

  /** Every CAPA with a status is open or closed, never both. */
  lemma CapasPartition(cs: seq<Capa>)
    ensures Count(cs, CapaOpen) + Count(cs, CapaClosed) == Count(cs, CapaHasStatus)
  {
    CountDisjoint(cs, CapaOpen, CapaClosed, CapaHasStatus);
  }

  /** `round(pass / max(total, 1) * 100, 1) if total else 0`. */
  function PassRate(pass: nat, total: nat): (rate: real)
    requires pass <= total
    ensures 0.0 <= rate <= 100.0
    ensures total == 0 || pass == 0 ==> rate == 0.0
    ensures total > 0 && pass == total ==> rate == 100.0
  {
    if total == 0 then 0.0
    else
      RatioPercent(pass, total);
      RoundPercent(pass as real / total as real * 100.0, 1);
      Round(pass as real / total as real * 100.0, 1)
  }

  /** The truthy values of one batch column. */
  function TruthyValues(bs: seq<Batch>, column: String): (vs: seq<real>)
    ensures |vs| <= |bs|
    ensures forall v :: v in vs ==> v != 0.0
  {
    if bs == [] then []
    else
      var init := TruthyValues(bs[..|bs| - 1], column);
      var x := Attr(bs[|bs| - 1], column);
      if Truthy(x) then init + [x.value] else init
  }

  /** `round(sum of truthy values / max(their number, 1), 2) if batches else 0`. */
  function ColumnAverage(bs: seq<Batch>, column: String): (avg: real)
    ensures TruthyValues(bs, column) == [] ==> avg == 0.0
    ensures TruthyValues(bs, column) != [] ==>
              Round(MinOf(TruthyValues(bs, column)), 2) <= avg <= Round(MaxOf(TruthyValues(bs, column)), 2)
  {
    var vs := TruthyValues(bs, column);
    if bs == [] || vs == [] then
      RoundScaledOfExact(0.0, Pow10(2) as real);
      Round(Sum(vs) / 1.0, 2)
    else
      MeanBetweenMinMax(vs);
      RoundMonotone(MinOf(vs), Mean(vs), 2);
      RoundMonotone(Mean(vs), MaxOf(vs), 2);
      Round(Sum(vs) / |vs| as real, 2)
  }

  // ------------------------------------------------------------------
  // get_full_stats: the per-machine and per-category tallies
  // ------------------------------------------------------------------

  /** `b.tablet_press_id or "Unknown"`. */
  function MachineOf(b: Batch): String {
    if Filled(b.pressId) then b.pressId.value else "Unknown"
  }

  /** `c.category or "Unknown"`. */
  function CategoryOf(c: Complaint): String {
    if Filled(c.category) then c.category.value else "Unknown"
  }

  function Machines(bs: seq<Batch>): (ms: seq<String>)
    ensures |ms| == |bs| && forall i :: 0 <= i < |bs| ==> ms[i] == MachineOf(bs[i])
  {
    seq(|bs|, i requires 0 <= i < |bs| => MachineOf(bs[i]))
  }

  function Categories(cs: seq<Complaint>): (ks: seq<String>)
    ensures |ks| == |cs| && forall i :: 0 <= i < |cs| ==> ks[i] == CategoryOf(cs[i])
  {
    seq(|cs|, i requires 0 <= i < |cs| => CategoryOf(cs[i]))
  }

  /** `b.hardness or 0` and `b.yield_percent or 0`. */
  function HardnessOrZero(b: Batch): real { Attr(b, "hardness").GetOr(0.0) }
  function YieldOrZero(b: Batch): real { Attr(b, "yield_percent").GetOr(0.0) }

  /** The sum of `f` over the batches of machine `m`. */
  function SumOn(bs: seq<Batch>, m: String, f: Batch -> real): real {
    if bs == [] then 0.0
    else SumOn(bs[..|bs| - 1], m, f) + (if MachineOf(bs[|bs| - 1]) == m then f(bs[|bs| - 1]) else 0.0)
  }

  /** One entry of `stats["machines"]` while the sums are gathered. */
  datatype Tally = Tally(count: nat, hardnessSum: real, yieldSum: real)

  /** One batch counted into its machine's tally. */
  function AddBatch(t: map<String, Tally>, b: Batch): (t': map<String, Tally>)
    ensures t'.Keys == t.Keys + {MachineOf(b)}
    ensures forall m :: m in t && m != MachineOf(b) ==> t'[m] == t[m]
  {
    var m := MachineOf(b);
    var prior := TallyAt(t, m);
    t[m := Tally(prior.count + 1, prior.hardnessSum + HardnessOrZero(b), prior.yieldSum + YieldOrZero(b))]
  }

  /** The tallies of the batches, one batch at a time in order. */
  function TallyOf(bs: seq<Batch>): map<String, Tally> {
    if bs == [] then map[] else AddBatch(TallyOf(bs[..|bs| - 1]), bs[|bs| - 1])
  }

  /** The machines with a tally are exactly the machines of the batches. */
  lemma {:induction false} TallyOfKeys(bs: seq<Batch>)
    ensures forall m :: m in TallyOf(bs) <==> m in Machines(bs)
    decreases |bs|
  {
    if bs != [] {
      var init := bs[..|bs| - 1];
      TallyOfKeys(init);
      assert Machines(bs) == Machines(init) + [MachineOf(bs[|bs| - 1])];
    }
  }

  /** The tally of machine `m`, zero when it has none yet. */
  function TallyAt(t: map<String, Tally>, m: String): Tally {
    if m in t then t[m] else Tally(0, 0.0, 0.0)
  }

  /** A machine's tally counts, and sums the hardness and yield of, exactly its own batches. */
  lemma {:induction false} TallyOfMachine(bs: seq<Batch>, m: String)
    ensures TallyAt(TallyOf(bs), m).count == multiset(Machines(bs))[m]
    ensures TallyAt(TallyOf(bs), m).hardnessSum == SumOn(bs, m, HardnessOrZero)
    ensures TallyAt(TallyOf(bs), m).yieldSum == SumOn(bs, m, YieldOrZero)
    decreases |bs|
  {
    if bs != [] {
      var init := bs[..|bs| - 1];
      TallyOfMachine(init, m);
      TallyStep(TallyOf(init), bs[|bs| - 1], m);
      assert Machines(bs) == Machines(init) + [MachineOf(bs[|bs| - 1])];
    }
  }

  /** Adding a batch changes only its own machine's tally. */
  lemma TallyStep(t: map<String, Tally>, b: Batch, m: String)
    ensures MachineOf(b) == m ==>
              var p := TallyAt(t, m);
              TallyAt(AddBatch(t, b), m) == Tally(p.count + 1, p.hardnessSum + HardnessOrZero(b), p.yieldSum + YieldOrZero(b))
    ensures MachineOf(b) != m ==> TallyAt(AddBatch(t, b), m) == TallyAt(t, m)
  {
  }

  /** One step of the first loop: `count += 1`, then the two sums. */
  method CountBatch(totals: map<String, Tally>, b: Batch) returns (totals': map<String, Tally>)
    ensures totals' == AddBatch(totals, b)
  {
    totals' := totals;
    var m := MachineOf(b);
    if m !in totals' {
      totals' := totals'[m := Tally(0, 0.0, 0.0)];
    }
    totals' := totals'[m := totals'[m].(count := totals'[m].count + 1)];
    totals' := totals'[m := totals'[m].(hardnessSum := totals'[m].hardnessSum + HardnessOrZero(b))];
    totals' := totals'[m := totals'[m].(yieldSum := totals'[m].yieldSum + YieldOrZero(b))];
  }

  /** The first loop over the batches, adding each one to its machine's entry. */
  method MachineTotals(bs: seq<Batch>) returns (totals: map<String, Tally>)
    ensures totals == TallyOf(bs)
  {
    totals := map[];
    var i := 0;
    while i < |bs|
      invariant 0 <= i <= |bs|
      invariant totals == TallyOf(bs[..i])
    {
      assert bs[..i + 1][..i] == bs[..i];
      totals := CountBatch(totals, bs[i]);
      i := i + 1;
    }
    assert bs[..i] == bs;
  }

  /** A finished entry of `stats["machines"]`: the sums with their averages. */
  datatype Machine = Machine(count: nat, hardnessSum: real, yieldSum: real, avgHardness: Option<real>, avgYield: Option<real>)

  function Finish(t: Tally): Machine {
    if t.count > 0 then
      Machine(t.count, t.hardnessSum, t.yieldSum,
              Some(Round(t.hardnessSum / t.count as real, 2)), Some(Round(t.yieldSum / t.count as real, 2)))
    else Machine(t.count, t.hardnessSum, t.yieldSum, None, None)
  }

  /** The second loop, over `stats["machines"].items()`, adding the averages to every entry. */
  method AddAverages(totals: map<String, Tally>) returns (machines: map<String, Machine>)
    ensures machines.Keys == totals.Keys
    ensures forall m :: m in totals ==> machines[m] == Finish(totals[m])
  {
    machines := map[];
    var todo := totals.Keys;
    while todo != {}
      invariant todo <= totals.Keys
      invariant machines.Keys == totals.Keys - todo
      invariant forall m :: m in machines ==> machines[m] == Finish(totals[m])
      decreases |todo|
    {
      var m :| m in todo;
      machines := machines[m := Finish(totals[m])];
      todo := todo - {m};
    }
  }

  /** `stats["complaints_by_category"]` built one complaint at a time. */
  function CategoryCounts(ks: seq<String>): map<String, nat> {
    if ks == [] then map[]
    else
      var t := CategoryCounts(ks[..|ks| - 1]);
      var k := ks[|ks| - 1];
      t[k := (if k in t then t[k] else 0) + 1]
  }

  /** Every category seen is a key, counted as often as it occurs. */
  lemma {:induction false} CategoryCountsAreOccurrences(ks: seq<String>)
    ensures forall k :: k in CategoryCounts(ks) <==> k in ks
    ensures forall k :: k in CategoryCounts(ks) ==> CategoryCounts(ks)[k] == multiset(ks)[k]
    decreases |ks|
  {
    if ks != [] {
      var init := ks[..|ks| - 1];
      CategoryCountsAreOccurrences(init);
      assert ks == init + [ks[|ks| - 1]];
    }
  }

  /** The loop over the complaints: `counts[cat] = counts.get(cat, 0) + 1`. */
  method ComplaintsByCategory(cs: seq<Complaint>) returns (counts: map<String, nat>)
    ensures counts == CategoryCounts(Categories(cs))
  {
    counts := map[];
    var i := 0;
    while i < |cs|
      invariant 0 <= i <= |cs|
      invariant counts == CategoryCounts(Categories(cs)[..i])
    {
      assert Categories(cs)[..i + 1][..i] == Categories(cs)[..i];
      var cat := CategoryOf(cs[i]);
      counts := counts[cat := (if cat in counts then counts[cat] else 0) + 1];
      i := i + 1;
    }
    assert Categories(cs)[..i] == Categories(cs);
  }

  // ------------------------------------------------------------------
  // Counts over distinct keys add up to the whole
  // ------------------------------------------------------------------

  predicate Distinct(keys: seq<String>) {
    forall i, j :: 0 <= i < j < |keys| ==> keys[i] != keys[j]
  }

  /** The occurrences in `ks` of the keys of `keys`, added up. */
  function CountsOver(keys: seq<String>, ks: seq<String>): nat {
    if keys == [] then 0 else multiset(ks)[keys[0]] + CountsOver(keys[1..], ks)
  }

  lemma {:induction false} CountsOverAppend(keys: seq<String>, a: seq<String>, b: seq<String>)
    ensures CountsOver(keys, a + b) == CountsOver(keys, a) + CountsOver(keys, b)
    decreases |keys|
  {
    if keys != [] {
      assert multiset(a + b) == multiset(a) + multiset(b);
      CountsOverAppend(keys[1..], a, b);
    }
  }

  lemma {:induction false} CountsOverOne(keys: seq<String>, x: String)
    requires Distinct(keys)
    ensures CountsOver(keys, [x]) == if x in keys then 1 else 0
    decreases |keys|
  {
    if keys != [] {
      CountsOverOne(keys[1..], x);
      if keys[0] == x {
        assert x !in keys[1..] by {
          forall j | 0 <= j < |keys[1..]| ensures keys[1..][j] != x {
            assert keys[1..][j] == keys[j + 1];
          }
        }
      } else {
        assert x in keys ==> x in keys[1..];
      }
    }
  }

  /** Over distinct keys covering every element, the occurrence counts add up to the length. */
  lemma {:induction false} CountsPartition(keys: seq<String>, ks: seq<String>)
    requires Distinct(keys)
    requires forall k :: k in ks ==> k in keys
    ensures CountsOver(keys, ks) == |ks|
    decreases |ks|
  {
    if ks == [] {
      CountsOverEmpty(keys);
    } else {
      var init := ks[..|ks| - 1];
      var x := ks[|ks| - 1];
      assert ks == init + [x];
      CountsPartition(keys, init);
      CountsOverAppend(keys, init, [x]);
      CountsOverOne(keys, x);
    }
  }

  lemma {:induction false} CountsOverEmpty(keys: seq<String>)
    ensures CountsOver(keys, []) == 0
    decreases |keys|
  {
    if keys != [] {
      CountsOverEmpty(keys[1..]);
    }
  }

  /** The batch counts of the tallies of `keys`, added up. */
  function TallyTotal(t: map<String, Tally>, keys: seq<String>): nat {
    if keys == [] then 0 else TallyAt(t, keys[0]).count + TallyTotal(t, keys[1..])
  }

  /** The complaint counts of the categories of `keys`, added up. */
  function CategoryTotal(counts: map<String, nat>, keys: seq<String>): nat {
    if keys == [] then 0 else (if keys[0] in counts then counts[keys[0]] else 0) + CategoryTotal(counts, keys[1..])
  }

  lemma {:induction false} TallyTotalIsCounts(bs: seq<Batch>, keys: seq<String>)
    ensures TallyTotal(TallyOf(bs), keys) == CountsOver(keys, Machines(bs))
    decreases |keys|
  {
    if keys != [] {
      TallyOfMachine(bs, keys[0]);
      TallyTotalIsCounts(bs, keys[1..]);
    }
  }

  lemma {:induction false} CategoryTotalIsCounts(ks: seq<String>, keys: seq<String>)
    ensures CategoryTotal(CategoryCounts(ks), keys) == CountsOver(keys, ks)
    decreases |keys|
  {
    if keys != [] {
      CategoryCountsAreOccurrences(ks);
      CategoryTotalIsCounts(ks, keys[1..]);
    }
  }

  /** The machines of `stats["machines"]`, once each, and their batch counts add up to the number of batches. */
  lemma MachineCountsAddUp(bs: seq<Batch>)
    ensures forall m :: m in TallyOf(bs) <==> m in Unique(Machines(bs))
    ensures TallyTotal(TallyOf(bs), Unique(Machines(bs))) == |bs|
  {
    TallyOfKeys(bs);
    TallyTotalIsCounts(bs, Unique(Machines(bs)));
    CountsPartition(Unique(Machines(bs)), Machines(bs));
  }

  /** The categories of `complaints_by_category`, once each, and their counts add up to the number of complaints. */
  lemma CategoryCountsAddUp(cs: seq<Complaint>)
    ensures forall k :: k in CategoryCounts(Categories(cs)) <==> k in Unique(Categories(cs))
    ensures CategoryTotal(CategoryCounts(Categories(cs)), Unique(Categories(cs))) == |cs|
  {
    CategoryCountsAreOccurrences(Categories(cs));
    CategoryTotalIsCounts(Categories(cs), Unique(Categories(cs)));
    CountsPartition(Unique(Categories(cs)), Categories(cs));
  }

  // ------------------------------------------------------------------
  // get_full_stats
  // ------------------------------------------------------------------

  datatype Stats = Stats(
    totalBatches: nat, avgHardness: real, avgYield: real, machines: map<String, Machine>,
    qcPassRate: real, qcTotal: nat, qcFailed: nat,
    complaintsByCategory: map<String, nat>, complaintsTotal: nat, complaintsOpen: nat, complaintsClosed: nat,
    capasTotal: nat, capasOpen: nat, capasClosed: nat, equipmentDue: nat, equipmentTotal: nat)

  /** `get_full_stats` over the rows inside the optional date range. */
  method GetFullStats(s: Store, start: Option<Day>, end: Option<Day>) returns (stats: Stats)
    ensures var bs := BatchesIn(s, start, end);
      && stats.totalBatches == |bs|
      && stats.avgHardness == ColumnAverage(bs, "hardness")
      && stats.avgYield == ColumnAverage(bs, "yield_percent")
      && stats.machines.Keys == TallyOf(bs).Keys
      && (forall m :: m in stats.machines ==> stats.machines[m] == Finish(TallyOf(bs)[m]))
    ensures var qc := QcIn(s, start, end);
      && stats.qcTotal == |qc|
      && stats.qcFailed == |qc| - Count(qc, QcPasses)
      && stats.qcPassRate == PassRate(Count(qc, QcPasses), |qc|)
    ensures var cs := ComplaintsIn(s, start, end);
      && stats.complaintsTotal == |cs|
      && stats.complaintsOpen == Count(cs, ComplaintOpen)
      && stats.complaintsClosed == Count(cs, ComplaintClosed)
      && stats.complaintsByCategory == CategoryCounts(Categories(cs))
    ensures var ps := CapasIn(s, start, end);
      && stats.capasTotal == |ps|
      && stats.capasOpen == Count(ps, CapaOpen)
      && stats.capasClosed == Count(ps, CapaClosed)
    ensures var es := EquipmentIn(s, start, end);
      stats.equipmentTotal == |es| && stats.equipmentDue == Count(es, CalibrationFailed)
  {
    var bs := BatchesIn(s, start, end);
    var qc := QcIn(s, start, end);
    var cs := ComplaintsIn(s, start, end);
    var ps := CapasIn(s, start, end);
    var es := EquipmentIn(s, start, end);
    var qcPass := Count(qc, QcPasses);
    var totals := MachineTotals(bs);
    var machines := AddAverages(totals);
    var byCategory := ComplaintsByCategory(cs);
    stats := Stats(
      |bs|, ColumnAverage(bs, "hardness"), ColumnAverage(bs, "yield_percent"), machines,
      PassRate(qcPass, |qc|), |qc|, |qc| - qcPass,
      byCategory, |cs|, Count(cs, ComplaintOpen), Count(cs, ComplaintClosed),
      |ps|, Count(ps, CapaOpen), Count(ps, CapaClosed), Count(es, CalibrationFailed), |es|);
  }

  /** Each machine's figures are those of its own batches: the count, the sums, and averages of them. */
  lemma MachineFigures(bs: seq<Batch>, m: String)
    requires m in TallyOf(bs)
    ensures var f := Finish(TallyOf(bs)[m]);
      && f.count == multiset(Machines(bs))[m] > 0
      && f.hardnessSum == SumOn(bs, m, HardnessOrZero)
      && f.avgHardness == Some(Round(SumOn(bs, m, HardnessOrZero) / f.count as real, 2))
      && f.avgYield == Some(Round(SumOn(bs, m, YieldOrZero) / f.count as real, 2))
  {
    TallyOfKeys(bs);
    TallyOfMachine(bs, m);
  }
}
