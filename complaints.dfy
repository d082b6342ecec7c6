/**
 * `generate_complaints_data`: walks the batch ids of the manufacturing table
 * in order and files a complaint for a batch when its draw falls under the
 * complaint rate. The complaint counter numbers only the complaints filed.
 * Batch `i` takes its draws from `draw(i)`; "now" is a parameter.
 */
module Complaints {
  import opened Wrappers
  import opened Numeric
  import opened Text
  import opened Calendar
  import opened Scenarios
  import opened Catalog
  import opened Manufacturing

  /** The draws one batch may consume; all but `occurs` are used only when a complaint is filed. */
  datatype ComplaintDraw = ComplaintDraw(
    occurs: UnitReal, delay: nat, category: nat, description: nat,
    severity: nat, adverseSeverity: nat, market: nat, reporter: nat,
    investigate: nat, rootCause: nat, outcome: nat, capaNumber: nat,
    status: nat, daysToClose: nat)

  /** One row of the complaints table. */
  datatype ComplaintRecord = ComplaintRecord(
    complaintId: String, complaintDate: Date, batchId: String,
    productName: String, productCode: String,
    category: String, description: String, severity: String,
    market: String, reporterType: String,
    investigationRequired: String, rootCause: String, investigationOutcome: String,
    regulatoryReportable: String, capaReference: String,
    status: String, daysToClose: Option<int>)

  const DefaultComplaintRate: real := 0.008

  const AdverseEvent: String := "Adverse Event"

  const ReporterTypes: seq<String> := ["Patient", "Healthcare Professional", "Pharmacist", "Distributor"]

  const ComplaintRootCauses: seq<String> := [
    "Manufacturing process variation", "Storage condition issue", "Packaging defect",
    "User handling error", "No issue confirmed", "Transportation damage"]

  const InvestigationOutcomes: seq<String> := [
    "Confirmed - CAPA initiated", "Not confirmed - No action required",
    "Confirmed - Process adjustment made", "Under investigation"]

  /** The severity: any of the three levels, but only Critical or Major for an adverse event. */
  function Severity(category: String, d: ComplaintDraw): (s: String)
    ensures s == "Critical" || s == "Major" || s == "Minor"
    ensures category == AdverseEvent ==> s == "Critical" || s == "Major"
  {
    if category == AdverseEvent then Choice(d.adverseSeverity, ["Critical", "Major"])
    else Choice(d.severity, ["Critical", "Major", "Minor"])
  }

  /** `"Yes" if severity in ["Critical", "Major"] else random.choice(["Yes", "No"])`. */
  function InvestigationRequired(severity: String, u: nat): (r: String)
    ensures r == "Yes" || r == "No"
    ensures (severity == "Critical" || severity == "Major") ==> r == "Yes"
  {
    if severity == "Critical" || severity == "Major" then "Yes" else Choice(u, ["Yes", "No"])
  }

  /** A CAPA reference `CAPA-{year}-{n:03d}` exactly when the outcome mentions a CAPA. */
  function CapaReference(year: int, outcome: String, u: nat): (r: String)
    ensures r != [] <==> Contains(outcome, "CAPA")
  {
    if Contains(outcome, "CAPA") then "CAPA-" + IntToString(year) + "-" + ZeroPad(RandInt(u, 1, 200), 3) else ""
  }

  /** The status from the days since the complaint: closed after 60 days, never closed within 30. */
  function ComplaintStatus(daysSince: int, u: nat): (s: String)
    ensures daysSince > 60 ==> s == "Closed"
    ensures 30 < daysSince <= 60 ==> s == "Closed" || s == "Under Investigation"
    ensures daysSince <= 30 ==> s == "Open" || s == "Under Investigation"
  {
    if daysSince > 60 then "Closed"
    else if daysSince > 30 then Choice(u, ["Closed", "Under Investigation"])
    else Choice(u, ["Open", "Under Investigation"])
  }

  /** What the source promises of every complaint record, given the day it was generated. */
  predicate ComplaintFacts(c: ComplaintRecord, now: Date) {
    && ValidDate(c.complaintDate) && ValidDate(now)
    && (c.category == AdverseEvent ==> c.severity == "Critical" || c.severity == "Major")
    && ((c.severity == "Critical" || c.severity == "Major") ==> c.investigationRequired == "Yes")
    && (c.investigationRequired == "No" ==> c.rootCause == [] && c.investigationOutcome == "Not investigated")
    && (c.regulatoryReportable == "Yes" <==> c.category == AdverseEvent && c.severity == "Critical")
    && (c.regulatoryReportable == "Yes" || c.regulatoryReportable == "No")
    && (c.capaReference != [] <==> Contains(c.investigationOutcome, "CAPA"))
    && (DaysBetween(c.complaintDate, now) > 60 ==> c.status == "Closed")
    && (DaysBetween(c.complaintDate, now) <= 30 ==> c.status != "Closed")
    && (c.daysToClose.Some? <==> c.status == "Closed")
    && (c.daysToClose.Some? ==> 5 <= c.daysToClose.value <= 45)
  }

  /** The complaint id `CMP-{year}-{index:05d}`. */
  function ComplaintId(year: int, index: nat): String
  {
    "CMP-" + IntToString(year) + "-" + ZeroPad(index, 5)
  }

  /** The investigation part of a complaint. */
  datatype Triage = Triage(severity: String, investigationRequired: String, rootCause: String,
                           investigationOutcome: String, regulatoryReportable: String)

  /** Severity, investigation and reportability of a complaint in `category`. */
  function TriageOf(category: String, d: ComplaintDraw): (t: Triage)
    ensures category == AdverseEvent ==> t.severity == "Critical" || t.severity == "Major"
    ensures (t.severity == "Critical" || t.severity == "Major") ==> t.investigationRequired == "Yes"
    ensures t.investigationRequired == "No" ==> t.rootCause == [] && t.investigationOutcome == "Not investigated"
    ensures t.regulatoryReportable == "Yes" <==> category == AdverseEvent && t.severity == "Critical"
    ensures t.regulatoryReportable == "Yes" || t.regulatoryReportable == "No"
  {
    var severity := Severity(category, d);
    var investigate := InvestigationRequired(severity, d.investigate);
    Triage(
      severity, investigate,
      if investigate == "Yes" then Choice(d.rootCause, ComplaintRootCauses) else "",
      if investigate == "Yes" then Choice(d.outcome, InvestigationOutcomes) else "Not investigated",
      if category == AdverseEvent && severity == "Critical" then "Yes" else "No")
  }

  /** The status and, for a closed complaint only, the days it took to close. */
  function Closure(daysSince: int, d: ComplaintDraw): (c: (String, Option<int>))
    ensures daysSince > 60 ==> c.0 == "Closed"
    ensures daysSince <= 30 ==> c.0 != "Closed"
    ensures c.1.Some? <==> c.0 == "Closed"
    ensures c.1.Some? ==> 5 <= c.1.value <= 45
  {
    var status := ComplaintStatus(daysSince, d.status);
    (status, if status == "Closed" then Some(RandInt(d.daysToClose, 5, 45)) else None)
  }

  /** The complaint record for batch `m`, received `date`, as complaint number `index`. */
  function ComplaintOn(m: BatchRecord, date: Date, index: nat, d: ComplaintDraw, now: Date): (c: ComplaintRecord)
    requires ValidDate(date) && ValidDate(now)
    ensures ComplaintFacts(c, now)
    ensures c.complaintId == ComplaintId(date.year, index) && c.complaintDate == date
    ensures c.batchId == m.batchId && c.productName == m.productName && c.productCode == m.productCode
  {
    var k := d.category % |ComplaintCategories|;
    var category := ComplaintCategories[k].0;
    var t := TriageOf(category, d);
    var closure := Closure(DaysBetween(date, now), d);
    ComplaintRecord(
      complaintId := ComplaintId(date.year, index), complaintDate := date, batchId := m.batchId,
      productName := m.productName, productCode := m.productCode,
      category := category, description := Choice(d.description, ComplaintCategories[k].1),
      severity := t.severity, market := Choice(d.market, Markets),
      reporterType := Choice(d.reporter, ReporterTypes),
      investigationRequired := t.investigationRequired, rootCause := t.rootCause,
      investigationOutcome := t.investigationOutcome,
      regulatoryReportable := t.regulatoryReportable,
      capaReference := CapaReference(date.year, t.investigationOutcome, d.capaNumber),
      status := closure.0, daysToClose := closure.1)
  }

  /** `complaint_rate * adjustments["complaint_rate_modifier"]` on the manufacturing date. */
  function EffectiveRate(d: Date, rate: real): real
    requires ValidDate(d)
  {
    rate * ScenarioAdjustments(d, None).complaintRateModifier
  }

  /**
   * One iteration of the loop: the complaint filed against batch `m` as
   * complaint number `index`, or `None` when the draw is not under the rate.
   */
  function Complaint(m: BatchRecord, index: nat, d: ComplaintDraw, now: Date, rate: real): (r: Option<ComplaintRecord>)
    requires ValidDate(m.manufacturingDate) && ValidDate(now)
    ensures r.Some? <==> d.occurs < EffectiveRate(m.manufacturingDate, rate)
    ensures r.Some? ==> ComplaintFacts(r.value, now)
    ensures r.Some? ==> r.value.complaintId == ComplaintId(r.value.complaintDate.year, index)
    ensures r.Some? ==> (r.value.batchId == m.batchId
      && r.value.productName == m.productName && r.value.productCode == m.productCode)
    ensures r.Some? ==> 2 <= DaysBetween(m.manufacturingDate, r.value.complaintDate) <= 90
  {
    if d.occurs < EffectiveRate(m.manufacturingDate, rate) then
      Some(ComplaintOn(m, AddDays(m.manufacturingDate, RandInt(d.delay, 2, 90)), index, d, now))
    else None
  }

  /** `manufacturing_df[manufacturing_df["batch_id"] == id].iloc[0]`: the first row with that id. */
  function FirstWithId(rows: seq<BatchRecord>, id: String): (r: BatchRecord)
    requires exists i :: 0 <= i < |rows| && rows[i].batchId == id
    ensures r in rows && r.batchId == id
    ensures exists k :: 0 <= k < |rows| && rows[k] == r && forall j :: 0 <= j < k ==> rows[j].batchId != id
  {
    if rows[0].batchId == id then rows[0]
    else
      var rest := FirstWithId(rows[1..], id);
      assert exists k :: 0 <= k < |rows| && rows[k] == rest && forall j :: 0 <= j < k ==> rows[j].batchId != id by {
        var k :| 0 <= k < |rows[1..]| && rows[1..][k] == rest && forall j :: 0 <= j < k ==> rows[1..][j].batchId != id;
        forall j | 0 <= j < k + 1
          ensures rows[j].batchId != id
        {
          if j > 0 {
            assert rows[j] == rows[1..][j - 1];
          }
        }
      }
      rest
  }

  /** The row the loop looks up for the `i`-th batch id. */
  function LookedUp(mfg: seq<BatchRecord>, i: nat): (r: BatchRecord)
    requires i < |mfg|
    ensures r in mfg && r.batchId == mfg[i].batchId
  {
    FirstWithId(mfg, mfg[i].batchId)
  }

  /** With unique batch ids the lookup finds the row itself. */
  lemma {:induction false} FirstWithIdUnique(rows: seq<BatchRecord>, i: nat)
    requires i < |rows|
    requires forall a, b :: 0 <= a < b < |rows| ==> rows[a].batchId != rows[b].batchId
    ensures FirstWithId(rows, rows[i].batchId) == rows[i]
  {
    if i > 0 {
      assert rows[0].batchId != rows[i].batchId;
      assert rows[1..][i - 1] == rows[i];
      FirstWithIdUnique(rows[1..], i - 1);
    }
  }

  /** The complaints filed for the first `n` batch ids, numbering them from 1 as they are filed. */
  function Filed(file: (BatchRecord, nat, ComplaintDraw) -> Option<ComplaintRecord>,
                 mfg: seq<BatchRecord>, draw: nat -> ComplaintDraw, n: nat): (cs: seq<ComplaintRecord>)
    requires n <= |mfg|
    ensures |cs| <= n
  {
    if n == 0 then []
    else
      var prev := Filed(file, mfg, draw, n - 1);
      match file(LookedUp(mfg, n - 1), |prev| + 1, draw(n - 1))
      case Some(c) => prev + [c]
      case None => prev
  }

  /** `file` files complaints as `Complaint` does for every row whose date parses. */
  ghost predicate Files(file: (BatchRecord, nat, ComplaintDraw) -> Option<ComplaintRecord>, now: Date, rate: real)
    requires ValidDate(now)
  {
    forall m: BatchRecord, i: nat, d: ComplaintDraw {:trigger Complaint(m, i, d, now, rate)} ::
      ValidDate(m.manufacturingDate) ==> file(m, i, d) == Complaint(m, i, d, now, rate)
  }

  function Filer(now: Date, rate: real): (BatchRecord, nat, ComplaintDraw) -> Option<ComplaintRecord>
    requires ValidDate(now)
  {
    (m: BatchRecord, i: nat, d: ComplaintDraw) => Complaint(Parsed(m), i, d, now, rate)
  }

  lemma FilerFiles(now: Date, rate: real)
    requires ValidDate(now)
    ensures Files(Filer(now, rate), now, rate)
  {
    forall m: BatchRecord, i: nat, d: ComplaintDraw | ValidDate(m.manufacturingDate)
      ensures Filer(now, rate)(m, i, d) == Complaint(m, i, d, now, rate)
    {
      assert Parsed(m) == m;
    }
  }

  /** Every looked-up row of the first `n` batch ids has a date that parses. */
  predicate LookupsParse(mfg: seq<BatchRecord>, n: nat)
    requires n <= |mfg|
  {
    forall j :: 0 <= j < n ==> ValidDate(LookedUp(mfg, j).manufacturingDate)
  }

  /**
   * `generate_complaints_data(manufacturing_df, complaint_rate)`: a `KeyError`
   * on a table with no `batch_id` column (the empty table), a `ValueError`
   * when a looked-up date does not parse, otherwise the complaints filed.
   */
  method GenerateComplaints(mfg: seq<BatchRecord>, draw: nat -> ComplaintDraw, now: Date, rate: real)
    returns (result: Result<seq<ComplaintRecord>, PyError>)
    requires ValidDate(now)
    ensures mfg == [] ==> result == Failure(KeyError("batch_id"))
    ensures mfg != [] ==> (result.Success? <==> LookupsParse(mfg, |mfg|))
    ensures mfg != [] && result.Failure? ==> result.error.ValueError?
    ensures result.Success? ==> result.value == Filed(Filer(now, rate), mfg, draw, |mfg|)
  {
    if mfg == [] {
      return Failure(KeyError("batch_id"));
    }
    FilerFiles(now, rate);
    result := FileComplaints(mfg, draw, now, rate, Filer(now, rate));
  }

  /** The loop over the batch ids, for any `file` that files as `Complaint` does. */
  method FileComplaints(mfg: seq<BatchRecord>, draw: nat -> ComplaintDraw, now: Date, rate: real,
                        ghost file: (BatchRecord, nat, ComplaintDraw) -> Option<ComplaintRecord>)
    returns (result: Result<seq<ComplaintRecord>, PyError>)
    requires ValidDate(now) && Files(file, now, rate)
    ensures result.Success? <==> LookupsParse(mfg, |mfg|)
    ensures result.Failure? ==> result.error.ValueError?
    ensures result.Success? ==> result.value == Filed(file, mfg, draw, |mfg|)
  {
    var records: seq<ComplaintRecord> := [];
    var complaintIndex: nat := 1;
    var i := 0;
    while i < |mfg|
      invariant 0 <= i <= |mfg| && LookupsParse(mfg, i)
      invariant records == Filed(file, mfg, draw, i)
      invariant complaintIndex == |records| + 1
    {
      var row := LookedUp(mfg, i);
      if !ValidDate(row.manufacturingDate) {
        return Failure(ValueError("time data does not match format '%Y-%m-%d'"));
      }
      records, complaintIndex := FileOne(mfg, i, records, complaintIndex, draw, now, rate, file);
      i := i + 1;
    }
    return Success(records);
  }

  /** The body of the loop for batch id `i`: file its complaint, if any, and advance the counter. */
  method FileOne(mfg: seq<BatchRecord>, i: nat, records: seq<ComplaintRecord>, complaintIndex: nat,
                 draw: nat -> ComplaintDraw, now: Date, rate: real,
                 ghost file: (BatchRecord, nat, ComplaintDraw) -> Option<ComplaintRecord>)
    returns (extended: seq<ComplaintRecord>, next: nat)
    requires i < |mfg| && ValidDate(LookedUp(mfg, i).manufacturingDate)
    requires ValidDate(now) && Files(file, now, rate)
    requires records == Filed(file, mfg, draw, i) && complaintIndex == |records| + 1
    ensures extended == Filed(file, mfg, draw, i + 1)
    ensures next == |extended| + 1
  {
    var m := LookedUp(mfg, i);
    var c := Complaint(m, complaintIndex, draw(i), now, rate);
    assert c == file(m, complaintIndex, draw(i));
    if c.Some? {
      extended, next := records + [c.value], complaintIndex + 1;
    } else {
      extended, next := records, complaintIndex;
    }
  }

  /**
   * Complaint `k` (from 0) of the first `n` batch ids is what `file` gave for
   * batch position `FiledFrom(…, k)` as complaint number `k + 1`.
   */
  lemma {:induction false} FiledOrigin(file: (BatchRecord, nat, ComplaintDraw) -> Option<ComplaintRecord>,
                                       mfg: seq<BatchRecord>, draw: nat -> ComplaintDraw, n: nat)
    requires n <= |mfg|
    ensures forall k :: 0 <= k < |Filed(file, mfg, draw, n)| ==>
      FiledFrom(file, mfg, draw, n, k) < n &&
      file(LookedUp(mfg, FiledFrom(file, mfg, draw, n, k)), k + 1, draw(FiledFrom(file, mfg, draw, n, k)))
        == Some(Filed(file, mfg, draw, n)[k])
  {
    if n > 0 {
      FiledOrigin(file, mfg, draw, n - 1);
      var prev := Filed(file, mfg, draw, n - 1);
      var cs := Filed(file, mfg, draw, n);
      forall k | 0 <= k < |cs|
        ensures FiledFrom(file, mfg, draw, n, k) < n &&
          file(LookedUp(mfg, FiledFrom(file, mfg, draw, n, k)), k + 1, draw(FiledFrom(file, mfg, draw, n, k))) == Some(cs[k])
      {
        if k < |prev| {
          assert cs[k] == prev[k];
        }
      }
    }
  }

  /** The complaints follow the batches they were filed for, in order. */
  lemma {:induction false} FiledInOrder(file: (BatchRecord, nat, ComplaintDraw) -> Option<ComplaintRecord>,
                                        mfg: seq<BatchRecord>, draw: nat -> ComplaintDraw, n: nat)
    requires n <= |mfg|
    ensures forall j, k :: 0 <= j < k < |Filed(file, mfg, draw, n)| ==>
      FiledFrom(file, mfg, draw, n, j) < FiledFrom(file, mfg, draw, n, k)
  {
    if n > 0 {
      FiledInOrder(file, mfg, draw, n - 1);
    }
  }

  /** The batch position complaint `k` of the first `n` was filed for. */
  function FiledFrom(file: (BatchRecord, nat, ComplaintDraw) -> Option<ComplaintRecord>,
                     mfg: seq<BatchRecord>, draw: nat -> ComplaintDraw, n: nat, k: nat): (j: nat)
    requires n <= |mfg|
    ensures k < |Filed(file, mfg, draw, n)| ==> j < n
  {
    if n == 0 then 0
    else if k < |Filed(file, mfg, draw, n - 1)| then FiledFrom(file, mfg, draw, n - 1, k)
    else n - 1
  }

  /**
   * Every complaint filed keeps the per-complaint promises and names the
   * batch it was filed for.
   */
  lemma FiledFacts(file: (BatchRecord, nat, ComplaintDraw) -> Option<ComplaintRecord>,
                   now: Date, rate: real, mfg: seq<BatchRecord>, draw: nat -> ComplaintDraw)
    requires ValidDate(now) && Files(file, now, rate) && LookupsParse(mfg, |mfg|)
    ensures forall k :: 0 <= k < |Filed(file, mfg, draw, |mfg|)| ==>
      ComplaintFacts(Filed(file, mfg, draw, |mfg|)[k], now)
      && Filed(file, mfg, draw, |mfg|)[k].batchId == LookedUp(mfg, FiledFrom(file, mfg, draw, |mfg|, k)).batchId
  {
    var cs := Filed(file, mfg, draw, |mfg|);
    FiledOrigin(file, mfg, draw, |mfg|);
    forall k | 0 <= k < |cs|
      ensures ComplaintFacts(cs[k], now) && cs[k].batchId == LookedUp(mfg, FiledFrom(file, mfg, draw, |mfg|, k)).batchId
    {
      var j := FiledFrom(file, mfg, draw, |mfg|, k);
      FiledComplaint(file, now, rate, LookedUp(mfg, j), k + 1, draw(j), cs[k]);
    }
  }

  /** Complaint `k` (from 0) carries the id of complaint number `k + 1`. */
  lemma FiledIds(file: (BatchRecord, nat, ComplaintDraw) -> Option<ComplaintRecord>,
                 now: Date, rate: real, mfg: seq<BatchRecord>, draw: nat -> ComplaintDraw)
    requires ValidDate(now) && Files(file, now, rate) && LookupsParse(mfg, |mfg|)
    ensures forall k :: 0 <= k < |Filed(file, mfg, draw, |mfg|)| ==>
      Filed(file, mfg, draw, |mfg|)[k].complaintId == ComplaintId(Filed(file, mfg, draw, |mfg|)[k].complaintDate.year, k + 1)
  {
    var cs := Filed(file, mfg, draw, |mfg|);
    FiledOrigin(file, mfg, draw, |mfg|);
    forall k | 0 <= k < |cs|
      ensures cs[k].complaintId == ComplaintId(cs[k].complaintDate.year, k + 1)
    {
      var j := FiledFrom(file, mfg, draw, |mfg|, k);
      FiledComplaint(file, now, rate, LookedUp(mfg, j), k + 1, draw(j), cs[k]);
    }
  }

  /** What a filer gives for a row whose date parses is a complaint as `Complaint` promises it. */
  lemma FiledComplaint(file: (BatchRecord, nat, ComplaintDraw) -> Option<ComplaintRecord>,
                       now: Date, rate: real, m: BatchRecord, index: nat, d: ComplaintDraw, c: ComplaintRecord)
    requires ValidDate(now) && Files(file, now, rate) && ValidDate(m.manufacturingDate)
    requires file(m, index, d) == Some(c)
    ensures ComplaintFacts(c, now) && c.batchId == m.batchId
    ensures c.complaintId == ComplaintId(c.complaintDate.year, index)
  {
    assert Complaint(m, index, d, now, rate) == Some(c);
  }

  /** The number after the last '-' of complaint id number `index` reads back as `index`. */
  lemma ComplaintIdNumber(year: int, index: nat)
    ensures IdNumber(ComplaintId(year, index)) == index
  {
    PaddedIdNumber("CMP-" + IntToString(year), index, 5);
  }

  /** Complaint ids number the filed complaints 1, 2, 3, … so no two of them are equal. */
  lemma ComplaintIdsUnique(file: (BatchRecord, nat, ComplaintDraw) -> Option<ComplaintRecord>,
                           now: Date, rate: real, mfg: seq<BatchRecord>, draw: nat -> ComplaintDraw)
    requires ValidDate(now) && Files(file, now, rate) && LookupsParse(mfg, |mfg|)
    ensures forall k :: 0 <= k < |Filed(file, mfg, draw, |mfg|)| ==>
      IdNumber(Filed(file, mfg, draw, |mfg|)[k].complaintId) == k + 1
    ensures forall j, k :: 0 <= j < k < |Filed(file, mfg, draw, |mfg|)| ==>
      Filed(file, mfg, draw, |mfg|)[j].complaintId != Filed(file, mfg, draw, |mfg|)[k].complaintId
  {
    var cs := Filed(file, mfg, draw, |mfg|);
    FiledIds(file, now, rate, mfg, draw);
    forall k | 0 <= k < |cs|
      ensures IdNumber(cs[k].complaintId) == k + 1
    {
      ComplaintIdNumber(cs[k].complaintDate.year, k + 1);
    }
  }
}
