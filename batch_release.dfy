/**
 * `generate_batch_release_data`: one release decision per manufacturing
 * record that has a QC record, in manufacturing order. A batch with no QC
 * record is skipped. The random stream only advances for emitted rows, so
 * row `k` of the output takes its draws from `draw(k)`.
 */
module BatchRelease {
  import opened Wrappers
  import opened Numeric
  import opened Text
  import opened Calendar
  import opened Catalog
  import opened Manufacturing
  import opened Qc

  /** The draws one release record consumes; `qpName` stands for the Faker name. */
  datatype ReleaseDraw = ReleaseDraw(
    review: nat, complete: nat, decision: nat, release: nat,
    qp: nat, qpName: String, market: nat)

  /**
   * One row of the batch-release table. An empty `release_date` and a missing
   * `days_to_release` are `None`.
   */
  datatype ReleaseRecord = ReleaseRecord(
    batchId: String, productName: String, productCode: String, manufacturingDate: Date,
    qpId: String, qpName: String,
    reviewStartDate: Date, qcCompleteDate: Date, releaseDate: Option<Date>,
    disposition: String, daysToRelease: Option<int>,
    hasDeviation: String, hasOos: String, yieldPercent: real,
    marketDestination: String, batchSizeKg: real)

  const Released: String := "Released"
  const Rejected: String := "Rejected"
  const ReleasedWithDeviation: String := "Released with deviation"

  /**
   * The release decision: an out-of-specification batch is rejected or
   * released with deviation, a batch with a deviation is released with or
   * without one, and any other batch is released.
   */
  function Disposition(hasOos: bool, hasDeviation: bool, u: nat): (r: String)
    ensures r == Released || r == Rejected || r == ReleasedWithDeviation
    ensures r == Rejected ==> hasOos
    ensures hasOos ==> r != Released
    ensures !hasOos && !hasDeviation ==> r == Released
  {
    if hasOos then Choice(u, [Rejected, ReleasedWithDeviation])
    else if hasDeviation then Choice(u, [Released, ReleasedWithDeviation])
    else Released
  }

  /** The review window: it starts 1 to 3 days after the QC test and ends 1 to 2 days later. */
  function Review(qcDate: Date, d: ReleaseDraw): (w: (Date, Date))
    requires ValidDate(qcDate)
    ensures ValidDate(w.0) && 1 <= DaysBetween(qcDate, w.0) <= 3
    ensures ValidDate(w.1) && 1 <= DaysBetween(w.0, w.1) <= 2
  {
    var start := AddDays(qcDate, RandInt(d.review, 1, 3));
    (start, AddDays(start, RandInt(d.complete, 1, 2)))
  }

  /**
   * The release date, 1 to 5 days after the QC review is complete, and the
   * days from manufacture to release; neither exists for a rejected batch.
   */
  function ReleaseOf(mfgDate: Date, qcComplete: Date, disposition: String, u: nat): (r: (Option<Date>, Option<int>))
    requires ValidDate(mfgDate) && ValidDate(qcComplete)
    ensures r.0.None? <==> disposition == Rejected
    ensures r.1.None? <==> disposition == Rejected
    ensures r.0.Some? ==> ValidDate(r.0.value) && 1 <= DaysBetween(qcComplete, r.0.value) <= 5
    ensures r.0.Some? && r.1.Some? ==> r.1.value == DaysBetween(mfgDate, r.0.value)
  {
    if disposition != Rejected then
      var release := AddDays(qcComplete, RandInt(u, 1, 5));
      (Some(release), Some(DaysBetween(mfgDate, release)))
    else (None, None)
  }

  /** What a release record promises about the batch `m` and its QC record `q`. */
  predicate ReleaseFacts(r: ReleaseRecord, m: BatchRecord, q: QcRecord)
    requires ValidDate(m.manufacturingDate) && ValidDate(q.testDate)
  {
    && r.batchId == m.batchId && r.productName == m.productName && r.productCode == m.productCode
    && r.manufacturingDate == m.manufacturingDate && r.hasDeviation == m.hasDeviation
    && r.yieldPercent == m.yieldPercent && r.batchSizeKg == m.batchSizeKg
    && (r.hasOos == "Yes" <==> q.overallResult == "Fail")
    && (r.hasOos == "Yes" || r.hasOos == "No")
    && (r.disposition == Rejected ==> q.overallResult == "Fail")
    && (m.hasDeviation != "Yes" && q.overallResult != "Fail" ==> r.disposition == Released)
    && (r.releaseDate.None? <==> r.disposition == Rejected)
    && (r.daysToRelease.None? <==> r.disposition == Rejected)
    && ValidDate(r.reviewStartDate) && 1 <= DaysBetween(q.testDate, r.reviewStartDate) <= 3
    && ValidDate(r.qcCompleteDate) && 1 <= DaysBetween(r.reviewStartDate, r.qcCompleteDate) <= 2
    && (r.releaseDate.Some? ==>
          ValidDate(r.releaseDate.value) && 1 <= DaysBetween(r.qcCompleteDate, r.releaseDate.value) <= 5)
    && (r.releaseDate.Some? && r.daysToRelease.Some? ==>
          r.daysToRelease.value == DaysBetween(m.manufacturingDate, r.releaseDate.value))
    && r.qpId in QpList && r.marketDestination in Markets
  }

  /** The release record of batch `m`, whose QC record is `q`. */
  function ReleaseRow(m: BatchRecord, q: QcRecord, d: ReleaseDraw): (r: ReleaseRecord)
    requires ValidDate(m.manufacturingDate) && ValidDate(q.testDate)
    ensures ReleaseFacts(r, m, q)
  {
    var hasOos := q.overallResult == "Fail";
    var disposition := Disposition(hasOos, m.hasDeviation == "Yes", d.decision);
    var w := Review(q.testDate, d);
    var rel := ReleaseOf(m.manufacturingDate, w.1, disposition, d.release);
    ReleaseRecord(
      batchId := m.batchId, productName := m.productName, productCode := m.productCode,
      manufacturingDate := m.manufacturingDate,
      qpId := Choice(d.qp, QpList), qpName := d.qpName,
      reviewStartDate := w.0, qcCompleteDate := w.1, releaseDate := rel.0,
      disposition := disposition, daysToRelease := rel.1,
      hasDeviation := m.hasDeviation, hasOos := if hasOos then "Yes" else "No",
      yieldPercent := m.yieldPercent, marketDestination := Choice(d.market, Markets),
      batchSizeKg := m.batchSizeKg)
  }

  /** `qc_df[qc_df["batch_id"] == id].iloc[0]` when that selection is not empty. */
  function QcFor(qc: seq<QcRecord>, id: String): (r: Option<QcRecord>)
    ensures r.Some? ==> r.value in qc && r.value.batchId == id
    ensures r.None? <==> forall k :: 0 <= k < |qc| ==> qc[k].batchId != id
  {
    if qc == [] then None
    else if qc[0].batchId == id then Some(qc[0])
    else
      var rest := QcFor(qc[1..], id);
      assert forall k :: 1 <= k < |qc| ==> qc[k] == qc[1..][k - 1];
      rest
  }

  /** The record `QcFor` finds is the first one with that id, as `.iloc[0]` takes it. */
  lemma {:induction false} QcForFirst(qc: seq<QcRecord>, id: String)
    ensures QcFor(qc, id).Some? ==>
      exists k :: 0 <= k < |qc| && qc[k] == QcFor(qc, id).value && forall j :: 0 <= j < k ==> qc[j].batchId != id
  {
    if qc != [] && qc[0].batchId != id && QcFor(qc, id).Some? {
      QcForFirst(qc[1..], id);
      var k :| 0 <= k < |qc[1..]| && qc[1..][k] == QcFor(qc[1..], id).value
               && forall j :: 0 <= j < k ==> qc[1..][j].batchId != id;
      forall j | 0 <= j < k + 1
        ensures qc[j].batchId != id
      {
        if j > 0 {
          assert qc[j] == qc[1..][j - 1];
        }
      }
      assert qc[k + 1] == QcFor(qc, id).value;
    }
  }

  /** The dates of the first `n` manufacturing rows and of the QC records found for them parse. */
  predicate ReleaseParses(mfg: seq<BatchRecord>, qc: seq<QcRecord>, n: nat)
    requires n <= |mfg|
  {
    forall j :: 0 <= j < n ==>
      ValidDate(mfg[j].manufacturingDate)
      && (QcFor(qc, mfg[j].batchId).Some? ==> ValidDate(QcFor(qc, mfg[j].batchId).value.testDate))
  }

  /**
   * The release records of the first `n` manufacturing rows: a row without a
   * QC record adds nothing, any other the record `release` makes with the
   * next draw.
   */
  function Releases(release: (BatchRecord, QcRecord, ReleaseDraw) -> ReleaseRecord,
                    mfg: seq<BatchRecord>, qc: seq<QcRecord>, draw: nat -> ReleaseDraw, n: nat): (rs: seq<ReleaseRecord>)
    requires n <= |mfg|
    ensures |rs| <= n
  {
    if n == 0 then []
    else
      var prev := Releases(release, mfg, qc, draw, n - 1);
      match QcFor(qc, mfg[n - 1].batchId)
      case Some(q) => prev + [release(mfg[n - 1], q, draw(|prev|))]
      case None => prev
  }

  /** `release` makes release records as `ReleaseRow` does for every pair whose dates parse. */
  ghost predicate MakesReleases(release: (BatchRecord, QcRecord, ReleaseDraw) -> ReleaseRecord) {
    forall m: BatchRecord, q: QcRecord, d: ReleaseDraw {:trigger ReleaseRow(m, q, d)} ::
      ValidDate(m.manufacturingDate) && ValidDate(q.testDate) ==> release(m, q, d) == ReleaseRow(m, q, d)
  }

  /** A QC record whose test date does not parse given the epoch as its date, as `Parsed` does for manufacturing records. */
  function QcParsed(q: QcRecord): (p: QcRecord)
    ensures ValidDate(p.testDate)
    ensures ValidDate(q.testDate) ==> p == q
  {
    if ValidDate(q.testDate) then q else q.(testDate := Date(1970, 1, 1))
  }

  /** `ReleaseRow` made total. */
  function Releaser(): (BatchRecord, QcRecord, ReleaseDraw) -> ReleaseRecord
  {
    (m: BatchRecord, q: QcRecord, d: ReleaseDraw) => ReleaseRow(Parsed(m), QcParsed(q), d)
  }

  lemma ReleaserMakes()
    ensures MakesReleases(Releaser())
  {
    forall m: BatchRecord, q: QcRecord, d: ReleaseDraw | ValidDate(m.manufacturingDate) && ValidDate(q.testDate)
      ensures Releaser()(m, q, d) == ReleaseRow(m, q, d)
    {
      assert Parsed(m) == m;
    }
  }

  const DateFormatError: String := "time data does not match format '%Y-%m-%d'"

  /**
   * `generate_batch_release_data(manufacturing_df, qc_df)`. An empty QC table
   * has no `batch_id` column, so the first manufacturing row raises a
   * `KeyError` once its own date has parsed; a date that does not parse raises
   * a `ValueError`; otherwise the release records.
   */
  method GenerateBatchRelease(mfg: seq<BatchRecord>, qc: seq<QcRecord>, draw: nat -> ReleaseDraw)
    returns (result: Result<seq<ReleaseRecord>, PyError>)
    ensures mfg == [] ==> result == Success([])
    ensures mfg != [] && qc == [] ==>
      result == Failure(if ValidDate(mfg[0].manufacturingDate) then KeyError("batch_id") else ValueError(DateFormatError))
    ensures qc != [] ==> (result.Success? <==> ReleaseParses(mfg, qc, |mfg|))
    ensures qc != [] && result.Failure? ==> result.error.ValueError?
    ensures result.Success? ==> result.value == Releases(Releaser(), mfg, qc, draw, |mfg|)
  {
    ReleaserMakes();
    result := ReleaseAll(mfg, qc, draw, Releaser());
  }

  /** The loop over the manufacturing rows, for any `release` that agrees with `ReleaseRow`. */
  method ReleaseAll(mfg: seq<BatchRecord>, qc: seq<QcRecord>, draw: nat -> ReleaseDraw,
                    ghost release: (BatchRecord, QcRecord, ReleaseDraw) -> ReleaseRecord)
    returns (result: Result<seq<ReleaseRecord>, PyError>)
    requires MakesReleases(release)
    ensures mfg == [] ==> result == Success([])
    ensures mfg != [] && qc == [] ==>
      result == Failure(if ValidDate(mfg[0].manufacturingDate) then KeyError("batch_id") else ValueError(DateFormatError))
    ensures qc != [] ==> (result.Success? <==> ReleaseParses(mfg, qc, |mfg|))
    ensures qc != [] && result.Failure? ==> result.error.ValueError?
    ensures result.Success? ==> result.value == Releases(release, mfg, qc, draw, |mfg|)
  {
    var records: seq<ReleaseRecord> := [];
    var i := 0;
    while i < |mfg|
      invariant 0 <= i <= |mfg| && ReleaseParses(mfg, qc, i)
      invariant records == Releases(release, mfg, qc, draw, i)
      invariant qc == [] ==> i == 0
    {
      var m := mfg[i];
      if !ValidDate(m.manufacturingDate) {
        return Failure(ValueError(DateFormatError));
      }
      if qc == [] {
        return Failure(KeyError("batch_id"));
      }
      var found := QcFor(qc, m.batchId);
      if found.Some? && !ValidDate(found.value.testDate) {
        return Failure(ValueError(DateFormatError));
      }
      records := ReleaseOne(mfg, qc, i, records, draw, release);
      i := i + 1;
    }
    return Success(records);
  }

  /** The body of the loop for manufacturing row `i`. */
  method ReleaseOne(mfg: seq<BatchRecord>, qc: seq<QcRecord>, i: nat, records: seq<ReleaseRecord>,
                    draw: nat -> ReleaseDraw, ghost release: (BatchRecord, QcRecord, ReleaseDraw) -> ReleaseRecord)
    returns (extended: seq<ReleaseRecord>)
    requires i < |mfg| && ReleaseParses(mfg, qc, i + 1) && MakesReleases(release)
    requires records == Releases(release, mfg, qc, draw, i)
    ensures extended == Releases(release, mfg, qc, draw, i + 1)
  {
    assert ValidDate(mfg[i].manufacturingDate);
    var found := QcFor(qc, mfg[i].batchId);
    if found.Some? {
      var r := ReleaseRow(mfg[i], found.value, draw(|records|));
      assert r == release(mfg[i], found.value, draw(|records|));
      extended := records + [r];
    } else {
      extended := records;
    }
  }

  /** The manufacturing position release record `k` of the first `n` rows was made for. */
  function ReleasedFrom(release: (BatchRecord, QcRecord, ReleaseDraw) -> ReleaseRecord,
                        mfg: seq<BatchRecord>, qc: seq<QcRecord>, draw: nat -> ReleaseDraw, n: nat, k: nat): (j: nat)
    requires n <= |mfg|
    ensures k < |Releases(release, mfg, qc, draw, n)| ==> j < n
  {
    if n == 0 then 0
    else if k < |Releases(release, mfg, qc, draw, n - 1)| then ReleasedFrom(release, mfg, qc, draw, n - 1, k)
    else n - 1
  }

  /**
   * Release record `k` of the first `n` rows is what `release` made, with draw
   * `k`, for manufacturing row `ReleasedFrom(…, k)` and the QC record found for it.
   */
  lemma {:induction false} ReleasedOrigin(release: (BatchRecord, QcRecord, ReleaseDraw) -> ReleaseRecord,
                                          mfg: seq<BatchRecord>, qc: seq<QcRecord>, draw: nat -> ReleaseDraw, n: nat)
    requires n <= |mfg|
    ensures forall k :: 0 <= k < |Releases(release, mfg, qc, draw, n)| ==>
      var j := ReleasedFrom(release, mfg, qc, draw, n, k);
      j < n && QcFor(qc, mfg[j].batchId).Some?
      && Releases(release, mfg, qc, draw, n)[k] == release(mfg[j], QcFor(qc, mfg[j].batchId).value, draw(k))
  {
    forall k | 0 <= k < |Releases(release, mfg, qc, draw, n)|
      ensures var j := ReleasedFrom(release, mfg, qc, draw, n, k);
        j < n && QcFor(qc, mfg[j].batchId).Some?
        && Releases(release, mfg, qc, draw, n)[k] == release(mfg[j], QcFor(qc, mfg[j].batchId).value, draw(k))
    {
      OriginAt(release, mfg, qc, draw, n, k);
    }
  }

  lemma {:induction false} OriginAt(release: (BatchRecord, QcRecord, ReleaseDraw) -> ReleaseRecord,
                                    mfg: seq<BatchRecord>, qc: seq<QcRecord>, draw: nat -> ReleaseDraw, n: nat, k: nat)
    requires n <= |mfg| && k < |Releases(release, mfg, qc, draw, n)|
    ensures var j := ReleasedFrom(release, mfg, qc, draw, n, k);
      j < n && QcFor(qc, mfg[j].batchId).Some?
      && Releases(release, mfg, qc, draw, n)[k] == release(mfg[j], QcFor(qc, mfg[j].batchId).value, draw(k))
  {
    var prev := Releases(release, mfg, qc, draw, n - 1);
    if k < |prev| {
      OriginAt(release, mfg, qc, draw, n - 1, k);
      assert Releases(release, mfg, qc, draw, n)[k] == prev[k];
    }
  }

  /** The release records follow the manufacturing order of their batches. */
  lemma {:induction false} ReleasedInOrder(release: (BatchRecord, QcRecord, ReleaseDraw) -> ReleaseRecord,
                                           mfg: seq<BatchRecord>, qc: seq<QcRecord>, draw: nat -> ReleaseDraw, n: nat)
    requires n <= |mfg|
    ensures forall j, k :: 0 <= j < k < |Releases(release, mfg, qc, draw, n)| ==>
      ReleasedFrom(release, mfg, qc, draw, n, j) < ReleasedFrom(release, mfg, qc, draw, n, k)
  {
    if n > 0 {
      ReleasedInOrder(release, mfg, qc, draw, n - 1);
    }
  }

  /**
   * Only batches without a QC record are skipped: manufacturing row `j` of the
   * first `n`, having one, is the origin of release record `k`.
   */
  lemma {:induction false} ReleasedCovers(release: (BatchRecord, QcRecord, ReleaseDraw) -> ReleaseRecord,
                                    mfg: seq<BatchRecord>, qc: seq<QcRecord>, draw: nat -> ReleaseDraw, n: nat, j: nat)
    returns (k: nat)
    requires j < n <= |mfg| && QcFor(qc, mfg[j].batchId).Some?
    ensures k < |Releases(release, mfg, qc, draw, n)| && ReleasedFrom(release, mfg, qc, draw, n, k) == j
  {
    if j == n - 1 {
      k := |Releases(release, mfg, qc, draw, n - 1)|;
    } else {
      k := ReleasedCovers(release, mfg, qc, draw, n - 1, j);
    }
  }

  /** When every batch has a QC record, as `generate_all_data` arranges, no batch is skipped. */
  lemma {:induction false} NoneSkipped(release: (BatchRecord, QcRecord, ReleaseDraw) -> ReleaseRecord,
                                       mfg: seq<BatchRecord>, qc: seq<QcRecord>, draw: nat -> ReleaseDraw, n: nat)
    requires n <= |mfg|
    requires forall j :: 0 <= j < n ==> QcFor(qc, mfg[j].batchId).Some?
    ensures |Releases(release, mfg, qc, draw, n)| == n
  {
    if n > 0 {
      NoneSkipped(release, mfg, qc, draw, n - 1);
    }
  }

  /**
   * Every release record keeps the release rules for the batch it names and
   * the QC record found for that batch.
   */
  lemma {:induction false} ReleaseTable(release: (BatchRecord, QcRecord, ReleaseDraw) -> ReleaseRecord,
                     mfg: seq<BatchRecord>, qc: seq<QcRecord>, draw: nat -> ReleaseDraw)
    requires MakesReleases(release) && ReleaseParses(mfg, qc, |mfg|)
    ensures forall k :: 0 <= k < |Releases(release, mfg, qc, draw, |mfg|)| ==>
      var j := ReleasedFrom(release, mfg, qc, draw, |mfg|, k);
      j < |mfg| && QcFor(qc, mfg[j].batchId).Some?
      && ValidDate(mfg[j].manufacturingDate) && ValidDate(QcFor(qc, mfg[j].batchId).value.testDate)
      && ReleaseFacts(Releases(release, mfg, qc, draw, |mfg|)[k], mfg[j], QcFor(qc, mfg[j].batchId).value)
  {
    var rs := Releases(release, mfg, qc, draw, |mfg|);
    ReleasedOrigin(release, mfg, qc, draw, |mfg|);
    forall k | 0 <= k < |rs|
      ensures var j := ReleasedFrom(release, mfg, qc, draw, |mfg|, k);
        j < |mfg| && QcFor(qc, mfg[j].batchId).Some?
        && ValidDate(mfg[j].manufacturingDate) && ValidDate(QcFor(qc, mfg[j].batchId).value.testDate)
        && ReleaseFacts(rs[k], mfg[j], QcFor(qc, mfg[j].batchId).value)
    {
      var j := ReleasedFrom(release, mfg, qc, draw, |mfg|, k);
      var q := QcFor(qc, mfg[j].batchId).value;
      assert rs[k] == release(mfg[j], q, draw(k));
      assert rs[k] == ReleaseRow(mfg[j], q, draw(k));
    }
  }
}
