/**
 * `generate_environmental_data`: for every day from the start date to the end
 * date, for every clean room in order, `readings_per_day` readings at 08:00,
 * 14:00 and 20:00, numbered by a running `record_index` across the whole call.
 * Reading number `i` takes its draws from `draw(i)`. A fourth reading of a
 * day has no sampling hour and raises IndexError.
 */
module Environmental {
  import opened Wrappers
  import opened Numeric
  import opened Text
  import opened Calendar
  import opened Catalog
  import opened Manufacturing

  /** The draws one reading consumes. */
  datatype EnvDraw = EnvDraw(
    minute: nat, particles05: real, particles50: NonNegReal,
    viableAir: NonNegReal, viableSurface: NonNegReal,
    temperature: real, humidity: real, pressure: real,
    summerTemperature: real, summerHumidity: real, monitor: nat)

  /** One row of the environmental monitoring table. */
  datatype EnvRecord = EnvRecord(
    recordId: String, monitoringDate: Date, hour: int, minute: int,
    roomCode: String, roomName: String, roomClassification: String,
    particles05: int, particles50: int, viableAir: int, viableSurface: int,
    temperature: real, humidity: real, differentialPressure: real,
    temperatureInSpec: String, humidityInSpec: String, pressureInSpec: String,
    overallResult: String, monitoredBy: String)

  /** The sampling hours, by reading number. */
  const Hours: seq<int> := [8, 14, 20]

  /** The record id `EM-{year}-{index:06d}`. */
  function EnvId(year: int, index: nat): String
  {
    "EM-" + IntToString(year) + "-" + ZeroPad(index, 6)
  }

  /** `"Yes" if ok else "No"`. */
  function YesNo(ok: bool): (r: String)
    ensures r == "Yes" <==> ok
    ensures r == "Yes" || r == "No"
  {
    if ok then "Yes" else "No"
  }

  /** July and August are the summer months. */
  predicate Summer(d: Date) {
    d.month == 7 || d.month == 8
  }

  /** One reading: the day (an ordinal), the room, the sampling hour and its running number. */
  datatype EnvSlot = EnvSlot(day: Ordinal, room: Cleanroom, hour: int, index: nat)

  /** What the source promises of every reading about the slot it was taken for. */
  predicate EnvFacts(r: EnvRecord, s: EnvSlot) {
    && r.monitoringDate == FromOrdinal(s.day)
    && r.recordId == EnvId(r.monitoringDate.year, s.index)
    && r.hour == s.hour && 0 <= r.minute <= 30
    && r.roomCode == s.room.code && r.roomName == s.room.name && r.roomClassification == s.room.classification
    && (r.temperatureInSpec == "Yes" <==> 18.0 <= r.temperature <= 25.0)
    && (r.humidityInSpec == "Yes" <==> 30.0 <= r.humidity <= 60.0)
    && (r.pressureInSpec == "Yes" <==> r.differentialPressure >= 10.0)
    && (r.overallResult == "Pass" <==>
          r.temperatureInSpec == "Yes" && r.humidityInSpec == "Yes" && r.pressureInSpec == "Yes")
    && (r.overallResult == "Pass" || r.overallResult == "Fail")
    && r.viableAir >= 0 && r.viableSurface >= 0 && r.particles50 >= 0
    && r.monitoredBy in FirstN(Operators, 10)
  }

  /** The temperature and humidity of a reading: the summer distributions in July and August. */
  function Climate(date: Date, d: EnvDraw): (c: (real, real))
    ensures Summer(date) ==> c == (Round(Normal(23.0, 1.5, d.summerTemperature), 1),
                                  Round(Normal(50.0, 7.0, d.summerHumidity), 1))
    ensures !Summer(date) ==> c == (Round(Normal(21.0, 1.0, d.temperature), 1),
                                   Round(Normal(45.0, 5.0, d.humidity), 1))
  {
    if Summer(date) then
      (Round(Normal(23.0, 1.5, d.summerTemperature), 1), Round(Normal(50.0, 7.0, d.summerHumidity), 1))
    else
      (Round(Normal(21.0, 1.0, d.temperature), 1), Round(Normal(45.0, 5.0, d.humidity), 1))
  }

  /** The particle counts of a room: ISO 7 rooms are cleaner than ISO 8 ones. */
  function Particles(room: Cleanroom, d: EnvDraw): (p: (int, int))
    ensures p.1 >= 0
  {
    if room.classification == "ISO 7" then
      (Trunc(Normal(150000.0, 30000.0, d.particles05)), Trunc(Exponential(200.0, d.particles50)))
    else
      (Trunc(Normal(2500000.0, 500000.0, d.particles05)), Trunc(Exponential(10000.0, d.particles50)))
  }

  /** The record of one reading, judged against the room limits. */
  function EnvRow(s: EnvSlot, d: EnvDraw): (r: EnvRecord)
    ensures EnvFacts(r, s)
  {
    var date := FromOrdinal(s.day);
    var climate := Climate(date, d);
    var pressure := Round(Normal(15.0, 2.0, d.pressure), 1);
    var particles := Particles(s.room, d);
    var tempOk := 18.0 <= climate.0 <= 25.0;
    var humidityOk := 30.0 <= climate.1 <= 60.0;
    var pressureOk := pressure >= 10.0;
    EnvRecord(
      recordId := EnvId(date.year, s.index), monitoringDate := date,
      hour := s.hour, minute := RandInt(d.minute, 0, 30),
      roomCode := s.room.code, roomName := s.room.name, roomClassification := s.room.classification,
      particles05 := particles.0, particles50 := particles.1,
      viableAir := Trunc(Exponential(5.0, d.viableAir)),
      viableSurface := Trunc(Exponential(3.0, d.viableSurface)),
      temperature := climate.0, humidity := climate.1, differentialPressure := pressure,
      temperatureInSpec := YesNo(tempOk), humidityInSpec := YesNo(humidityOk), pressureInSpec := YesNo(pressureOk),
      overallResult := if tempOk && humidityOk && pressureOk then "Pass" else "Fail",
      monitoredBy := Choice(d.monitor, FirstN(Operators, 10)))
  }

  /** `range(readings_per_day)` has no element for a count that is not positive. */
  function Readings(readingsPerDay: int): nat
  {
    if readingsPerDay > 0 then readingsPerDay else 0
  }

  /** The readings of one room on one day, numbered from `first`. */
  function RoomSlots(o: Ordinal, room: Cleanroom, n: nat, first: nat): (slots: seq<EnvSlot>)
    requires n <= 3
    ensures |slots| == n
    ensures forall k :: 0 <= k < n ==> slots[k] == EnvSlot(o, room, Hours[k], first + k)
  {
    seq(n, k requires 0 <= k < n => EnvSlot(o, room, Hours[k], first + k))
  }

  /** The number of the first reading of room number `k` of a day whose readings start at `first`. */
  function RoomStart(first: nat, k: nat, n: nat): nat
  {
    first + k * n
  }

  /** The readings of the first `rooms` clean rooms on one day, `n` per room, numbered from `first`. */
  function DaySlots(o: Ordinal, rooms: nat, n: nat, first: nat): (slots: seq<EnvSlot>)
    requires rooms <= |Cleanrooms| && n <= 3
    ensures |slots| == rooms * n
  {
    if rooms == 0 then []
    else DaySlots(o, rooms - 1, n, first) + RoomSlots(o, Cleanrooms[rooms - 1], n, RoomStart(first, rooms - 1, n))
  }

  /** The readings of one day: `n` in every clean room. */
  function PerDay(n: nat): nat
  {
    |Cleanrooms| * n
  }

  /** The readings of the first `days` days from ordinal `o0`, `n` per room and day, numbered from 1. */
  function EnvPlan(o0: Ordinal, days: nat, n: nat): (slots: seq<EnvSlot>)
    requires n <= 3
    ensures |slots| == days * PerDay(n)
  {
    if days == 0 then []
    else EnvPlan(o0, days - 1, n) + DaySlots(o0 + days - 1, |Cleanrooms|, n, 1 + (days - 1) * PerDay(n))
  }

  /** `make` builds every reading as `EnvRow` does. */
  ghost predicate MakesReadings(make: EnvSlot -> EnvRecord, draw: nat -> EnvDraw) {
    forall s: EnvSlot {:trigger EnvRow(s, draw(s.index))} :: make(s) == EnvRow(s, draw(s.index))
  }

  function EnvMaker(draw: nat -> EnvDraw): EnvSlot -> EnvRecord
  {
    (s: EnvSlot) => EnvRow(s, draw(s.index))
  }

  lemma EnvMakerMakes(draw: nat -> EnvDraw)
    ensures MakesReadings(EnvMaker(draw), draw)
  {
    forall s: EnvSlot
      ensures EnvMaker(draw)(s) == EnvRow(s, draw(s.index))
    {
    }
  }

  /**
   * `generate_environmental_data(start, end, readings_per_day)`: IndexError
   * when some day is visited and more than three readings are asked for,
   * else the table of the plan.
   */
  method GenerateEnvironmental(start: Date, end: Date, readingsPerDay: int, draw: nat -> EnvDraw)
    returns (result: Result<seq<EnvRecord>, PyError>)
    requires ValidDate(start) && ValidDate(end)
    ensures DayTotal(start, end) == 0 ==> result == Success([])
    ensures DayTotal(start, end) > 0 && readingsPerDay > 3 ==> result == Failure(IndexError)
    ensures readingsPerDay <= 3 ==>
      result == Success(Rows(EnvMaker(draw), EnvPlan(ToOrdinal(start), DayTotal(start, end), Readings(readingsPerDay))))
  {
    EnvMakerMakes(draw);
    DayTotalSpan(start, end);
    var n := Readings(readingsPerDay);
    if DayTotal(start, end) == 0 {
      return Success([]);
    }
    result := EnvDays(ToOrdinal(start), ToOrdinal(end), n, draw, EnvMaker(draw));
  }

  /** The `while current_date <= end_date` loop, the date held as its ordinal, for at least one day. */
  method EnvDays(o0: Ordinal, last: int, n: nat, draw: nat -> EnvDraw, ghost make: EnvSlot -> EnvRecord)
    returns (result: Result<seq<EnvRecord>, PyError>)
    requires o0 <= last && MakesReadings(make, draw)
    ensures n > 3 ==> result == Failure(IndexError)
    ensures n <= 3 ==> result == Success(Rows(make, EnvPlan(o0, DaySpan(o0, last), n)))
  {
    var records: seq<EnvRecord> := [];
    var recordIndex: nat := 1;
    var dayNo: nat := 0;
    while o0 + dayNo <= last
      invariant dayNo == 0 || o0 + dayNo <= last + 1
      invariant n > 3 ==> dayNo == 0
      invariant n <= 3 ==> recordIndex == 1 + dayNo * PerDay(n)
      invariant n <= 3 ==> records == Rows(make, EnvPlan(o0, dayNo, n))
      decreases last - dayNo
    {
      var extended, next := EnvDayStep(o0, dayNo, recordIndex, n, draw, make, records);
      if extended.Failure? {
        return Failure(extended.error);
      }
      records, recordIndex := extended.value, next;
      dayNo := dayNo + 1;
    }
    return Success(records);
  }

  /** One pass of the day loop: the day's readings appended to the table so far. */
  method EnvDayStep(o0: Ordinal, dayNo: nat, recordIndex: nat, n: nat, draw: nat -> EnvDraw,
                    ghost make: EnvSlot -> EnvRecord, records: seq<EnvRecord>)
    returns (extended: Result<seq<EnvRecord>, PyError>, next: nat)
    requires MakesReadings(make, draw)
    requires n <= 3 ==> recordIndex == 1 + dayNo * PerDay(n) && records == Rows(make, EnvPlan(o0, dayNo, n))
    ensures n > 3 ==> extended == Failure(IndexError)
    ensures n <= 3 ==> extended == Success(Rows(make, EnvPlan(o0, dayNo + 1, n)))
    ensures n <= 3 ==> next == 1 + (dayNo + 1) * PerDay(n)
  {
    var day := EnvDay(o0 + dayNo, recordIndex, n, draw, make);
    if day.Failure? {
      return Failure(day.error), recordIndex;
    }
    EnvPlanStep(make, o0, dayNo, n, records, day.value);
    extended, next := Success(records + day.value), recordIndex + |day.value|;
  }

  /** The day's rooms, `for room in CLEANROOMS`, numbered from `first`. */
  method EnvDay(o: Ordinal, first: nat, n: nat, draw: nat -> EnvDraw, ghost make: EnvSlot -> EnvRecord)
    returns (result: Result<seq<EnvRecord>, PyError>)
    requires MakesReadings(make, draw)
    ensures n > 3 ==> result == Failure(IndexError)
    ensures n <= 3 ==> result == Success(Rows(make, DaySlots(o, |Cleanrooms|, n, first)))
  {
    var rows: seq<EnvRecord> := [];
    var k := 0;
    while k < |Cleanrooms|
      invariant 0 <= k <= |Cleanrooms|
      invariant n > 3 ==> k == 0
      invariant n <= 3 ==> rows == Rows(make, DaySlots(o, k, n, first))
    {
      var extended := EnvRoomStep(o, k, first, n, draw, make, rows);
      if extended.Failure? {
        return Failure(extended.error);
      }
      rows := extended.value;
      k := k + 1;
    }
    return Success(rows);
  }

  /** One pass of the room loop: room number `k`'s readings appended to the day so far. */
  method EnvRoomStep(o: Ordinal, k: nat, first: nat, n: nat, draw: nat -> EnvDraw,
                     ghost make: EnvSlot -> EnvRecord, rows: seq<EnvRecord>)
    returns (extended: Result<seq<EnvRecord>, PyError>)
    requires k < |Cleanrooms| && MakesReadings(make, draw)
    requires n <= 3 ==> rows == Rows(make, DaySlots(o, k, n, first))
    ensures n > 3 ==> extended == Failure(IndexError)
    ensures n <= 3 ==> extended == Success(Rows(make, DaySlots(o, k + 1, n, first)))
  {
    var room := EnvRoom(o, Cleanrooms[k], RoomStart(first, k, n), n, draw, make);
    if room.Failure? {
      return Failure(room.error);
    }
    DaySlotsStep(make, o, k, n, first, rows, room.value);
    extended := Success(rows + room.value);
  }

  /** The readings of one room, `for reading in range(readings_per_day)`. */
  method EnvRoom(o: Ordinal, room: Cleanroom, first: nat, n: nat, draw: nat -> EnvDraw,
                 ghost make: EnvSlot -> EnvRecord)
    returns (result: Result<seq<EnvRecord>, PyError>)
    requires MakesReadings(make, draw)
    ensures n > 3 ==> result == Failure(IndexError)
    ensures n <= 3 ==> result == Success(Rows(make, RoomSlots(o, room, n, first)))
  {
    var rows: seq<EnvRecord> := [];
    var reading := 0;
    while reading < n
      invariant 0 <= reading <= n && reading <= 3
      invariant rows == Rows(make, RoomSlots(o, room, reading, first))
    {
      if reading >= |Hours| {
        return Failure(IndexError);
      }
      var s := EnvSlot(o, room, Hours[reading], first + reading);
      var record := TakeReading(s, draw, make);
      assert RoomSlots(o, room, reading + 1, first) == RoomSlots(o, room, reading, first) + [s];
      RowsAppend(make, RoomSlots(o, room, reading, first), [s]);
      rows := rows + [record];
      reading := reading + 1;
    }
    return Success(rows);
  }

  /** The body of the innermost loop: one reading. */
  method TakeReading(s: EnvSlot, draw: nat -> EnvDraw, ghost make: EnvSlot -> EnvRecord) returns (record: EnvRecord)
    requires MakesReadings(make, draw)
    ensures record == make(s)
  {
    record := EnvRow(s, draw(s.index));
  }

  lemma RowsAppend(make: EnvSlot -> EnvRecord, a: seq<EnvSlot>, b: seq<EnvSlot>)
    ensures Rows(make, a + b) == Rows(make, a) + Rows(make, b)
  {
    var l, r := Rows(make, a + b), Rows(make, a) + Rows(make, b);
    forall i | 0 <= i < |l|
      ensures l[i] == r[i]
    {
      if i >= |a| {
        assert (a + b)[i] == b[i - |a|];
      }
    }
  }

  /** One more room appends that room's readings. */
  lemma DaySlotsStep(make: EnvSlot -> EnvRecord, o: Ordinal, k: nat, n: nat, first: nat,
                     rows: seq<EnvRecord>, room: seq<EnvRecord>)
    requires k < |Cleanrooms| && n <= 3
    requires rows == Rows(make, DaySlots(o, k, n, first))
    requires room == Rows(make, RoomSlots(o, Cleanrooms[k], n, RoomStart(first, k, n)))
    ensures rows + room == Rows(make, DaySlots(o, k + 1, n, first))
  {
    RowsAppend(make, DaySlots(o, k, n, first), RoomSlots(o, Cleanrooms[k], n, RoomStart(first, k, n)));
  }

  /** One more day appends that day's readings. */
  lemma EnvPlanStep(make: EnvSlot -> EnvRecord, o0: Ordinal, dayNo: nat, n: nat,
                    records: seq<EnvRecord>, day: seq<EnvRecord>)
    requires n <= 3
    requires records == Rows(make, EnvPlan(o0, dayNo, n))
    requires day == Rows(make, DaySlots(o0 + dayNo, |Cleanrooms|, n, 1 + dayNo * PerDay(n)))
    ensures records + day == Rows(make, EnvPlan(o0, dayNo + 1, n))
    ensures |day| == PerDay(n)
  {
    RowsAppend(make, EnvPlan(o0, dayNo, n), DaySlots(o0 + dayNo, |Cleanrooms|, n, 1 + dayNo * PerDay(n)));
  }

  /** A reading slot of day `o`: a clean room of the list at one of the sampling hours. */
  predicate SlotOn(s: EnvSlot, o: Ordinal) {
    s.day == o && s.room in Cleanrooms && s.hour in Hours
  }

  /** The readings of a day are numbered consecutively from `first`. */
  lemma {:induction false} DaySlotsNumbered(o: Ordinal, rooms: nat, n: nat, first: nat)
    requires rooms <= |Cleanrooms| && n <= 3
    ensures forall j :: 0 <= j < |DaySlots(o, rooms, n, first)| ==>
      DaySlots(o, rooms, n, first)[j].index == first + j && SlotOn(DaySlots(o, rooms, n, first)[j], o)
  {
    if rooms > 0 {
      DaySlotsNumbered(o, rooms - 1, n, first);
      var a: seq<EnvSlot> := DaySlots(o, rooms - 1, n, first);
      var b: seq<EnvSlot> := RoomSlots(o, Cleanrooms[rooms - 1], n, RoomStart(first, rooms - 1, n));
      assert DaySlots(o, rooms, n, first) == a + b;
      forall j | 0 <= j < |a + b|
        ensures (a + b)[j].index == first + j && SlotOn((a + b)[j], o)
      {
        if j >= |a| {
          assert (a + b)[j] == b[j - |a|];
        }
      }
    }
  }

  /** Reading `k` of a plan (from 0) carries number `k + 1` and falls on one of the plan's days. */
  lemma {:induction false} PlanNumbered(o0: Ordinal, days: nat, n: nat)
    requires n <= 3
    ensures forall k :: 0 <= k < |EnvPlan(o0, days, n)| ==>
      EnvPlan(o0, days, n)[k].index == k + 1
      && o0 <= EnvPlan(o0, days, n)[k].day < o0 + days
      && SlotOn(EnvPlan(o0, days, n)[k], EnvPlan(o0, days, n)[k].day)
  {
    if days > 0 {
      PlanNumbered(o0, days - 1, n);
      var o := o0 + days - 1;
      var a: seq<EnvSlot> := EnvPlan(o0, days - 1, n);
      var b: seq<EnvSlot> := DaySlots(o, |Cleanrooms|, n, 1 + (days - 1) * PerDay(n));
      DaySlotsNumbered(o, |Cleanrooms|, n, 1 + (days - 1) * PerDay(n));
      assert EnvPlan(o0, days, n) == a + b;
      forall k | 0 <= k < |a + b|
        ensures (a + b)[k].index == k + 1 && o0 <= (a + b)[k].day < o0 + days && SlotOn((a + b)[k], (a + b)[k].day)
      {
        if k >= |a| {
          assert (a + b)[k] == b[k - |a|];
        }
      }
    }
  }

  /** The number after the last '-' of reading id number `index` reads back as `index`. */
  lemma EnvIdNumber(year: int, index: nat)
    ensures IdNumber(EnvId(year, index)) == index
  {
    PaddedIdNumber("EM-" + IntToString(year), index, 6);
  }

  /**
   * Every reading of the table keeps the per-reading promises, is taken on
   * one of the days of the call, and reading `k` (from 0) carries number
   * `k + 1`, so no two record ids are equal.
   */
  lemma EnvTable(make: EnvSlot -> EnvRecord, draw: nat -> EnvDraw, o0: Ordinal, days: nat, n: nat)
    requires n <= 3 && MakesReadings(make, draw)
    ensures forall k :: 0 <= k < |EnvPlan(o0, days, n)| ==>
      EnvFacts(Rows(make, EnvPlan(o0, days, n))[k], EnvPlan(o0, days, n)[k])
      && o0 <= ToOrdinal(Rows(make, EnvPlan(o0, days, n))[k].monitoringDate) < o0 + days
      && IdNumber(Rows(make, EnvPlan(o0, days, n))[k].recordId) == k + 1
  {
    var plan := EnvPlan(o0, days, n);
    var rows := Rows(make, plan);
    PlanNumbered(o0, days, n);
    forall k | 0 <= k < |plan|
      ensures EnvFacts(rows[k], plan[k]) && o0 <= ToOrdinal(rows[k].monitoringDate) < o0 + days
        && IdNumber(rows[k].recordId) == k + 1
    {
      var r := EnvRow(plan[k], draw(plan[k].index));
      assert rows[k] == r;
      EnvIdNumber(r.monitoringDate.year, plan[k].index);
    }
  }
}
