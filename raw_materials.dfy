/**
 * `generate_raw_materials_data`: one week at a time from the start date
 * while the week's first day is not after the end date, a random number of
 * goods receipts around `receipts_per_week`, numbered by a running
 * `grn_index` across all weeks. Week `w` (from 0) takes its receipt count
 * from `weekly(w)`, receipt number `i` its other draws from `draw(i)`.
 */
module RawMaterials {
  import opened Numeric
  import opened Text
  import opened Calendar
  import opened Catalog
  import opened Manufacturing

  const Materials: seq<String> := [
    "Paracetamol API", "Ibuprofen API", "Aspirin API",
    "MCC (Microcrystalline Cellulose)", "Lactose Monohydrate", "Pregelatinized Starch",
    "PVP K30 (Povidone)", "HPMC (Hypromellose)", "Magnesium Stearate",
    "Colloidal Silicon Dioxide", "Croscarmellose Sodium", "Opadry Coating"
  ]

  /** Four passes in six draws, one failure and one pending test. */
  const TestStatuses: seq<String> := ["Pass", "Pass", "Pass", "Pass", "Fail", "Pending"]

  const Racks: seq<String> := ["A", "B", "C"]

  /** The draws one receipt consumes. */
  datatype RawDraw = RawDraw(offset: nat, material: nat, supplier: nat, code: nat, quantity: real, coa: nat,
                             status: nat, lot: nat, shelf: nat, receiver: nat, rack: nat, bin: nat)

  /** One row of the raw materials table. */
  datatype RawRecord = RawRecord(
    grnNumber: String, receiptDate: Date, materialCode: String, materialName: String,
    supplierId: String, supplierName: String, quantity: real, unit: String, batchLotNumber: String,
    expiryDate: Date, coaReceived: String, testStatus: String, disposition: String,
    receivedBy: String, storageLocation: String)

  /** The goods receipt number `GRN-{year}-{index:06d}`. */
  function GrnNumber(year: int, index: nat): String
  {
    "GRN-" + IntToString(year) + "-" + ZeroPad(index, 6)
  }

  /** `receipts_per_week + randint(-2, 2)`, and no receipts at all when that is negative (`range` of a negative count). */
  function Receipts(receiptsPerWeek: int, u: nat): (n: nat)
    ensures (if receiptsPerWeek >= 2 then receiptsPerWeek - 2 else 0) <= n
    ensures n <= (if receiptsPerWeek >= -2 then receiptsPerWeek + 2 else 0)
  {
    var k := RandInt(u, receiptsPerWeek - 2, receiptsPerWeek + 2);
    if k > 0 then k else 0
  }

  /** `"API" in material`: active ingredients come in lots around 100 kg, excipients around 500 kg. */
  predicate IsApi(material: String) {
    Contains(material, "API")
  }

  /** `strftime('%y%m')`. */
  function YearMonth2(d: Date): String
    requires ValidDate(d)
  {
    ZeroPad(d.year % 100, 2) + ZeroPad(d.month, 2)
  }

  /** Disposition by test status: released on a pass, rejected on a failure, quarantined while pending. */
  function Disposition(status: String): (r: String)
    ensures r == "Released" <==> status == "Pass"
    ensures r == "Rejected" <==> status == "Fail"
    ensures r == "Quarantine" <==> status != "Pass" && status != "Fail"
  {
    if status == "Pass" then "Released" else if status == "Fail" then "Rejected" else "Quarantine"
  }

  /** The operators who receive goods (`OPERATORS[:10]`). */
  function Receivers(): seq<String> { Operators[..10] }

  function Receiver(u: nat): (r: String)
    ensures r in Receivers()
  {
    Choice(u, Receivers())
  }

  /* ---------- one receipt ---------- */

  /** One receipt: the first day of its week (as an ordinal) and its running number. */
  datatype RawSlot = RawSlot(week: Ordinal, index: nat)

  /** The receipt date at most six days into the week and the expiry one to two years after receipt. */
  predicate DatesFor(receipt: Date, expiry: Date, week: Ordinal) {
    && ValidDate(receipt) && 0 <= ToOrdinal(receipt) - week <= 6
    && ValidDate(expiry) && 365 <= ToOrdinal(expiry) - ToOrdinal(receipt) <= 730
  }

  datatype RawDates = RawDates(receipt: Date, expiry: Date)

  function Timing(week: Ordinal, offset: nat, shelf: nat): (t: RawDates)
    ensures DatesFor(t.receipt, t.expiry, week)
  {
    var receipt := AddDays(FromOrdinal(week), RandInt(offset, 0, 6));
    RawDates(receipt, AddDays(receipt, RandInt(shelf, 365, 730)))
  }

  /** The material, its supplier, code and quantity. */
  datatype Goods = Goods(material: String, supplier: Supplier, code: String, quantity: real)

  /** A listed material from a listed supplier (drawn independently of the material), coded `MAT-XXX-nnn`, its quantity to 0.1 kg. */
  predicate GoodsFor(material: String, supplier: Supplier, code: String, quantity: real) {
    && material in Materials && supplier in Suppliers
    && StartsWith(code, "MAT-" + Upper(FirstN(material, 3)) + "-")
    && Round(quantity, 1) == quantity
  }

  function Pick(d: RawDraw): (g: Goods)
    ensures GoodsFor(g.material, g.supplier, g.code, g.quantity)
  {
    var material := Choice(d.material, Materials);
    var prefix := "MAT-" + Upper(FirstN(material, 3)) + "-";
    var code := prefix + IntToString(RandInt(d.code, 100, 999));
    assert code[..|prefix|] == prefix;
    var q := if IsApi(material) then Normal(100.0, 20.0, d.quantity) else Normal(500.0, 100.0, d.quantity);
    RoundIdempotent(q, 1);
    Goods(material, Choice(d.supplier, Suppliers), code, Round(q, 1))
  }

  /** `id` and `name` belong to one supplier of the list. */
  predicate Supplied(id: String, name: String) {
    exists j :: 0 <= j < |Suppliers| && Suppliers[j].id == id && Suppliers[j].name == name
  }

  lemma SuppliedBy(sup: Supplier)
    requires sup in Suppliers
    ensures Supplied(sup.id, sup.name)
  {
    var j :| 0 <= j < |Suppliers| && Suppliers[j] == sup;
  }

  /** The lot number `{supplier id[-3:]}-{yymm}-{nn}` and the storage location `WH-{rack}-{nn}`. */
  datatype Labels = Labels(lot: String, location: String)

  function Label(supplierId: String, receipt: Date, d: RawDraw): (l: Labels)
    requires ValidDate(receipt)
    ensures StartsWith(l.lot, LastN(supplierId, 3) + "-" + YearMonth2(receipt) + "-")
    ensures StartsWith(l.location, "WH-")
  {
    var lotPrefix := LastN(supplierId, 3) + "-" + YearMonth2(receipt) + "-";
    var lot := lotPrefix + ZeroPad(RandInt(d.lot, 1, 99), 2);
    assert lot[..|lotPrefix|] == lotPrefix;
    var location := "WH-" + Choice(d.rack, Racks) + "-" + ZeroPad(RandInt(d.bin, 1, 50), 2);
    assert location[..3] == "WH-";
    Labels(lot, location)
  }

  /** What the source promises of every receipt about the slot it was made for. */
  predicate RawFacts(r: RawRecord, s: RawSlot) {
    && r.grnNumber == GrnNumber(FromOrdinal(s.week).year, s.index)
    && DatesFor(r.receiptDate, r.expiryDate, s.week)
    && r.materialName in Materials
    && Supplied(r.supplierId, r.supplierName)
    && StartsWith(r.materialCode, "MAT-" + Upper(FirstN(r.materialName, 3)) + "-")
    && Round(r.quantity, 1) == r.quantity && r.unit == "kg"
    && (r.coaReceived == "Yes" || r.coaReceived == "No")
    && r.testStatus in TestStatuses
    && r.disposition == Disposition(r.testStatus)
    && StartsWith(r.batchLotNumber, LastN(r.supplierId, 3) + "-" + YearMonth2(r.receiptDate) + "-")
    && r.receivedBy in Receivers()
    && StartsWith(r.storageLocation, "WH-")
  }

  /** The record of one receipt. */
  function RawRow(s: RawSlot, d: RawDraw): (r: RawRecord)
    ensures RawFacts(r, s)
  {
    var t := Timing(s.week, d.offset, d.shelf);
    var g := Pick(d);
    SuppliedBy(g.supplier);
    Assembled(s, FromOrdinal(s.week).year, t.receipt, t.expiry, g, Choice(d.status, TestStatuses),
              Receiver(d.receiver), Label(g.supplier.id, t.receipt, d), Choice(d.coa, ["Yes", "No"]))
  }

  /** The record of a receipt from its dates, its goods, its test status and its receiver. */
  function Assembled(s: RawSlot, year: int, receipt: Date, expiry: Date, g: Goods, status: String,
                     receiver: String, labels: Labels, coa: String): (r: RawRecord)
    requires year == FromOrdinal(s.week).year && DatesFor(receipt, expiry, s.week)
    requires GoodsFor(g.material, g.supplier, g.code, g.quantity) && Supplied(g.supplier.id, g.supplier.name)
    requires status in TestStatuses && receiver in Receivers() && (coa == "Yes" || coa == "No")
    requires StartsWith(labels.lot, LastN(g.supplier.id, 3) + "-" + YearMonth2(receipt) + "-")
    requires StartsWith(labels.location, "WH-")
    ensures RawFacts(r, s)
  {
    RawRecord(
      grnNumber := GrnNumber(year, s.index), receiptDate := receipt, materialCode := g.code,
      materialName := g.material, supplierId := g.supplier.id, supplierName := g.supplier.name,
      quantity := g.quantity, unit := "kg", batchLotNumber := labels.lot, expiryDate := expiry,
      coaReceived := coa, testStatus := status, disposition := Disposition(status),
      receivedBy := receiver, storageLocation := labels.location)
  }

  /* ---------- the plan ---------- */

  /** The `n` receipts of the week starting on `o`, numbered from `first`. */
  function WeekSlots(o: Ordinal, first: nat, n: nat): (slots: seq<RawSlot>)
    ensures |slots| == n
  {
    seq(n, j requires 0 <= j < n => RawSlot(o, first + j))
  }

  /** The receipts of week `week` (starting on `o`) and of every later week up to `last`, numbered from `first`. */
  function WeekPlan(o: Ordinal, last: int, receiptsPerWeek: int, weekly: nat -> nat, week: nat, first: nat)
    : (slots: seq<RawSlot>)
    decreases last - o
  {
    if o > last then []
    else
      var n := Receipts(receiptsPerWeek, weekly(week));
      WeekSlots(o, first, n) + WeekPlan(o + 7, last, receiptsPerWeek, weekly, week + 1, first + n)
  }

  /** The number of weeks the loop runs: one for each of `o`, `o + 7`, ... not after `last`. */
  function Weeks(o: int, last: int): nat
    decreases last - o
  {
    if o > last then 0 else 1 + Weeks(o + 7, last)
  }

  /** `make` builds every receipt as `RawRow` does. */
  ghost predicate MakesReceipts(make: RawSlot -> RawRecord, draw: nat -> RawDraw) {
    forall s: RawSlot {:trigger RawRow(s, draw(s.index))} :: make(s) == RawRow(s, draw(s.index))
  }

  function RawMaker(draw: nat -> RawDraw): RawSlot -> RawRecord
  {
    (s: RawSlot) => RawRow(s, draw(s.index))
  }

  lemma RawMakerMakes(draw: nat -> RawDraw)
    ensures MakesReceipts(RawMaker(draw), draw)
  {
    forall s: RawSlot
      ensures RawMaker(draw)(s) == RawRow(s, draw(s.index))
    {
    }
  }

  /* ---------- the loops ---------- */

  /** `generate_raw_materials_data(start, end, receipts_per_week)`: the table of the plan. */
  method GenerateRawMaterials(start: Date, end: Date, receiptsPerWeek: int, weekly: nat -> nat, draw: nat -> RawDraw)
    returns (records: seq<RawRecord>)
    requires ValidDate(start) && ValidDate(end)
    ensures records == Rows(RawMaker(draw), WeekPlan(ToOrdinal(start), ToOrdinal(end), receiptsPerWeek, weekly, 0, 1))
  {
    RawMakerMakes(draw);
    ghost var make := RawMaker(draw);
    var o0: Ordinal := ToOrdinal(start);
    var last := ToOrdinal(end);
    records := [];
    var grnIndex := 1;
    var week := 0;
    var current: Ordinal := o0;
    while current <= last
      invariant grnIndex == 1 + |records|
      invariant records + Rows(make, WeekPlan(current, last, receiptsPerWeek, weekly, week, grnIndex))
             == Rows(make, WeekPlan(o0, last, receiptsPerWeek, weekly, 0, 1))
      decreases last - current
    {
      records, grnIndex := WeekStepM(current, last, receiptsPerWeek, weekly, week, grnIndex, draw, make, records);
      week := week + 1;
      current := current + 7;
    }
  }

  /** One pass of the week loop: the week's receipts moved from the rest of the plan to the table. */
  method WeekStepM(o: Ordinal, last: int, receiptsPerWeek: int, weekly: nat -> nat, week: nat, first: nat,
                   draw: nat -> RawDraw, ghost make: RawSlot -> RawRecord, records: seq<RawRecord>)
    returns (extended: seq<RawRecord>, next: nat)
    requires o <= last && MakesReceipts(make, draw)
    ensures next == first + |extended| - |records|
    ensures extended + Rows(make, WeekPlan(o + 7, last, receiptsPerWeek, weekly, week + 1, next))
         == records + Rows(make, WeekPlan(o, last, receiptsPerWeek, weekly, week, first))
  {
    var n := Receipts(receiptsPerWeek, weekly(week));
    var rows := ReceiveWeek(o, first, n, draw, make);
    WeekStep(make, o, last, receiptsPerWeek, weekly, week, first, records, rows);
    extended, next := records + rows, first + n;
  }

  /** The `for _ in range(weekly_receipts)` loop of one week. */
  method ReceiveWeek(o: Ordinal, first: nat, n: nat, draw: nat -> RawDraw, ghost make: RawSlot -> RawRecord)
    returns (rows: seq<RawRecord>)
    requires MakesReceipts(make, draw)
    ensures rows == Rows(make, WeekSlots(o, first, n))
  {
    rows := [];
    var j := 0;
    while j < n
      invariant 0 <= j <= n
      invariant rows == Rows(make, WeekSlots(o, first, j))
    {
      var record := Receive(RawSlot(o, first + j), draw, make);
      ReceiptStep(make, o, first, j);
      rows := rows + [record];
      j := j + 1;
    }
  }

  /** The body of the inner loop: one receipt. */
  method Receive(s: RawSlot, draw: nat -> RawDraw, ghost make: RawSlot -> RawRecord) returns (record: RawRecord)
    requires MakesReceipts(make, draw)
    ensures record == make(s)
  {
    record := RawRow(s, draw(s.index));
  }

  lemma ReceiptStep(make: RawSlot -> RawRecord, o: Ordinal, first: nat, j: nat)
    ensures Rows(make, WeekSlots(o, first, j + 1)) == Rows(make, WeekSlots(o, first, j)) + [make(RawSlot(o, first + j))]
  {
    var l: seq<RawRecord> := Rows(make, WeekSlots(o, first, j + 1));
    var r: seq<RawRecord> := Rows(make, WeekSlots(o, first, j)) + [make(RawSlot(o, first + j))];
    assert forall i :: 0 <= i < j + 1 ==> l[i] == r[i];
  }

  lemma RowsAppend(make: RawSlot -> RawRecord, a: seq<RawSlot>, b: seq<RawSlot>)
    ensures Rows(make, a + b) == Rows(make, a) + Rows(make, b)
  {
    var l, r := Rows(make, a + b), Rows(make, a) + Rows(make, b);
    forall i | 0 <= i < |l|
      ensures l[i] == r[i]
    {
      if i >= |a| {
        assert (a + b)[i] == b[i - |a|];
      }
    }
  }

  /** Taking the week starting on `o` moves its receipts from the rest of the plan to the table. */
  lemma WeekStep(make: RawSlot -> RawRecord, o: Ordinal, last: int, receiptsPerWeek: int, weekly: nat -> nat,
                 week: nat, first: nat, records: seq<RawRecord>, rows: seq<RawRecord>)
    requires o <= last
    requires rows == Rows(make, WeekSlots(o, first, Receipts(receiptsPerWeek, weekly(week))))
    ensures records + Rows(make, WeekPlan(o, last, receiptsPerWeek, weekly, week, first))
         == (records + rows)
          + Rows(make, WeekPlan(o + 7, last, receiptsPerWeek, weekly, week + 1, first + |rows|))
  {
    var n := Receipts(receiptsPerWeek, weekly(week));
    RowsAppend(make, WeekSlots(o, first, n), WeekPlan(o + 7, last, receiptsPerWeek, weekly, week + 1, first + n));
  }

  /* ---------- properties of the plan ---------- */

  /**
   * Receipt `k` (from 0) of the plan from week `week` on carries number
   * `first + k` and belongs to a week that starts a whole number of weeks
   * after `o` and not after `last`.
   */
  lemma {:induction false} PlanNumbered(o: Ordinal, last: int, receiptsPerWeek: int, weekly: nat -> nat, week: nat, first: nat)
    ensures forall k :: 0 <= k < |WeekPlan(o, last, receiptsPerWeek, weekly, week, first)| ==>
      WeekPlan(o, last, receiptsPerWeek, weekly, week, first)[k].index == first + k
      && o <= WeekPlan(o, last, receiptsPerWeek, weekly, week, first)[k].week <= last
      && (WeekPlan(o, last, receiptsPerWeek, weekly, week, first)[k].week - o) % 7 == 0
    decreases last - o
  {
    if o <= last {
      var n := Receipts(receiptsPerWeek, weekly(week));
      PlanNumbered(o + 7, last, receiptsPerWeek, weekly, week + 1, first + n);
      var x: seq<RawSlot> := WeekSlots(o, first, n);
      var y: seq<RawSlot> := WeekPlan(o + 7, last, receiptsPerWeek, weekly, week + 1, first + n);
      assert WeekPlan(o, last, receiptsPerWeek, weekly, week, first) == x + y;
      forall k | 0 <= k < |x + y|
        ensures (x + y)[k].index == first + k && o <= (x + y)[k].week <= last && ((x + y)[k].week - o) % 7 == 0
      {
        if k >= |x| {
          assert (x + y)[k] == y[k - |x|];
          ShiftWeek(o, y[k - |x|].week);
        }
      }
    }
  }

  lemma ShiftWeek(o: int, w: int)
    requires (w - (o + 7)) % 7 == 0
    ensures (w - o) % 7 == 0
  {
    assert w - o == (w - (o + 7)) + 7;
  }

  /**
   * Every week brings between `receipts_per_week - 2` and
   * `receipts_per_week + 2` receipts (none when that bound is negative), so
   * the plan holds between `W * max(0, rpw - 2)` and `W * max(0, rpw + 2)`
   * receipts over its `W` weeks.
   */
  lemma {:induction false} PlanSize(o: Ordinal, last: int, receiptsPerWeek: int, weekly: nat -> nat, week: nat, first: nat)
    ensures var lo := if receiptsPerWeek >= 2 then receiptsPerWeek - 2 else 0;
            var hi := if receiptsPerWeek >= -2 then receiptsPerWeek + 2 else 0;
            lo * Weeks(o, last) <= |WeekPlan(o, last, receiptsPerWeek, weekly, week, first)| <= hi * Weeks(o, last)
    decreases last - o
  {
    if o <= last {
      var n := Receipts(receiptsPerWeek, weekly(week));
      PlanSize(o + 7, last, receiptsPerWeek, weekly, week + 1, first + n);
      var lo := if receiptsPerWeek >= 2 then receiptsPerWeek - 2 else 0;
      var hi := if receiptsPerWeek >= -2 then receiptsPerWeek + 2 else 0;
      var w := Weeks(o + 7, last);
      assert Weeks(o, last) == 1 + w;
      assert lo * (1 + w) == lo + lo * w && hi * (1 + w) == hi + hi * w;
    }
  }

  /** The number after the last '-' of receipt number `index` reads back as `index`. */
  lemma GrnNumberReadsBack(year: int, index: nat)
    ensures IdNumber(GrnNumber(year, index)) == index
  {
    PaddedIdNumber("GRN-" + IntToString(year), index, 6);
  }

  /**
   * Every receipt of the table keeps the per-receipt promises and its GRN
   * number reads back as its position plus one.
   */
  lemma {:induction false} RawTable(make: RawSlot -> RawRecord, draw: nat -> RawDraw, o0: Ordinal, last: int,
                                    receiptsPerWeek: int, weekly: nat -> nat)
    requires MakesReceipts(make, draw)
    ensures forall k :: 0 <= k < |WeekPlan(o0, last, receiptsPerWeek, weekly, 0, 1)| ==>
      RawFacts(Rows(make, WeekPlan(o0, last, receiptsPerWeek, weekly, 0, 1))[k], WeekPlan(o0, last, receiptsPerWeek, weekly, 0, 1)[k])
      && IdNumber(Rows(make, WeekPlan(o0, last, receiptsPerWeek, weekly, 0, 1))[k].grnNumber) == k + 1
  {
    var plan := WeekPlan(o0, last, receiptsPerWeek, weekly, 0, 1);
    PlanNumbered(o0, last, receiptsPerWeek, weekly, 0, 1);
    forall k | 0 <= k < |plan|
      ensures RawFacts(Rows(make, plan)[k], plan[k]) && IdNumber(Rows(make, plan)[k].grnNumber) == k + 1
    {
      TableAt(make, draw, plan, k);
    }
  }

  lemma TableAt(make: RawSlot -> RawRecord, draw: nat -> RawDraw, plan: seq<RawSlot>, k: nat)
    requires MakesReceipts(make, draw) && k < |plan| && plan[k].index == k + 1
    ensures RawFacts(Rows(make, plan)[k], plan[k]) && IdNumber(Rows(make, plan)[k].grnNumber) == k + 1
  {
    var r := RawRow(plan[k], draw(plan[k].index));
    assert Rows(make, plan)[k] == r;
    GrnNumberReadsBack(FromOrdinal(plan[k].week).year, plan[k].index);
  }
}
