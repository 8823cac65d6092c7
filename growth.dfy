/**
 * The growth screen: the trend between the newest and the oldest measurement of the selected
 * period, the periods themselves, and the view model that adds, updates and deletes records and
 * reloads after each change. Measurements are reals; the `Float` rounding is not modelled.
 */
module Growth {
  import opened Wrappers
  import opened Numbers
  import opened Entities
  import opened ErrorHandler
  import opened Query
  import opened Tables
  import opened Calendar
  import opened GrowthRecordDao

  datatype GrowthPeriod = Month3 | Month6 | Year1

  datatype GrowthTrends = GrowthTrends(heightGrowth: real, weightGain: real, headGrowth: real, period: int)

  /** `GrowthTrends()`: no growth over the default three months. */
  const NoTrends: GrowthTrends := GrowthTrends(0.0, 0.0, 0.0, 3)

  /** What the screen shows of a record: its key, its date as text and the three measurements. */
  datatype GrowthRecordUI = GrowthRecordUI(
    id: int,
    time: string,
    height: Option<real>,
    weight: Option<real>,
    headCircumference: Option<real>)

  datatype GrowthViewState = GrowthViewState(
    selectedBabyId: Option<int>,
    selectedPeriod: GrowthPeriod,
    latestRecord: Option<GrowthRecordUI>,
    growthRecords: seq<GrowthRecordUI>,
    growthTrends: GrowthTrends,
    isLoading: bool,
    error: Option<string>)

  const InitViewState: GrowthViewState := GrowthViewState(None, Month3, None, [], NoTrends, false, None)

  /** `toPeriodMonths()` */
  function ToPeriodMonths(period: GrowthPeriod): (months: int)
    ensures months == 3 <==> period == Month3
    ensures months == 6 <==> period == Month6
    ensures months == 12 <==> period == Year1
  {
    match period
    case Month3 => 3
    case Month6 => 6
    case Year1 => 12
  }

  function HeightOf(r: GrowthRecord): real { r.height.GetOr(0.0) }
  function WeightOf(r: GrowthRecord): real { r.weight.GetOr(0.0) }
  function HeadOf(r: GrowthRecord): real { r.headCircumference.GetOr(0.0) }

  /**
   * `calculateGrowthTrends` on a newest-first list: each delta is the first record's measurement
   * minus the last one's, a missing value counting as 0, over the selected period's months. With
   * fewer than two records it is `GrowthTrends()`, whatever the period.
   */
  function CalculateGrowthTrends(records: seq<GrowthRecord>, selected: GrowthPeriod): (t: GrowthTrends)
    ensures |records| < 2 ==> t == NoTrends
    ensures |records| >= 2 ==> && t.period == ToPeriodMonths(selected)
                               && t.heightGrowth == HeightOf(records[0]) - HeightOf(records[|records| - 1])
                               && t.weightGain == WeightOf(records[0]) - WeightOf(records[|records| - 1])
                               && t.headGrowth == HeadOf(records[0]) - HeadOf(records[|records| - 1])
  {
    if |records| < 2 then NoTrends
    else
      var latest := records[0];
      var oldest := records[|records| - 1];
      GrowthTrends(
        HeightOf(latest) - HeightOf(oldest),
        WeightOf(latest) - WeightOf(oldest),
        HeadOf(latest) - HeadOf(oldest),
        ToPeriodMonths(selected))
  }

  /** `getTimeRange`: back three months, six months or a year from `now`. */
  function GetTimeRange(period: GrowthPeriod, now: int, months: Months): (range: (int, int))
    ensures range.1 == now
    ensures range.0 == months.minus(now, ToPeriodMonths(period))
    ensures Lawful(months) ==> range.0 <= range.1
  {
    (months.minus(now, ToPeriodMonths(period)), now)
  }

  /** A longer period starts no later: a year before six months before three. */
  lemma GrowthPeriodsNest(now: int, months: Months)
    requires Lawful(months)
    ensures GetTimeRange(Year1, now, months).0 <= GetTimeRange(Month6, now, months).0 <= GetTimeRange(Month3, now, months).0
  {
  }

  /** The records of the selected period, newest first, as `loadGrowthData` sorts them. */
  function PeriodRecords(rows: seq<GrowthRecord>, babyId: int, period: GrowthPeriod, now: int, months: Months): seq<GrowthRecord> {
    var range := GetTimeRange(period, now, months);
    SortDesc(GetGrowthRecordsByDateRange(rows, babyId, range.0, range.1), GrowthTime)
  }

  /** In the range query's answer, the first record is a newest and the last an oldest of the baby's records in range. */
  lemma RangeEnds(rows: seq<GrowthRecord>, babyId: int, startTime: int, endTime: int)
    requires GetGrowthRecordsByDateRange(rows, babyId, startTime, endTime) != []
    ensures var found := GetGrowthRecordsByDateRange(rows, babyId, startTime, endTime);
            forall i :: 0 <= i < |rows| && rows[i].babyId == babyId && startTime <= rows[i].time <= endTime ==>
              found[|found| - 1].time <= rows[i].time <= found[0].time
  {
    var found := GetGrowthRecordsByDateRange(rows, babyId, startTime, endTime);
    SortedBetweenEnds(found, GrowthTime);
    forall i | 0 <= i < |rows| && rows[i].babyId == babyId && startTime <= rows[i].time <= endTime
      ensures found[|found| - 1].time <= rows[i].time <= found[0].time
    {
      var j :| 0 <= j < |found| && found[j] == rows[i];
      assert GrowthTime(found[j]) == rows[i].time;
    }
  }

  /**
   * The trend spans the whole range: re-sorting the range query changes nothing, and the deltas
   * go from a newest to an oldest record of the baby within the range.
   */
  lemma TrendSpansRange(rows: seq<GrowthRecord>, babyId: int, startTime: int, endTime: int, selected: GrowthPeriod)
    requires |GetGrowthRecordsByDateRange(rows, babyId, startTime, endTime)| >= 2
    ensures var found := GetGrowthRecordsByDateRange(rows, babyId, startTime, endTime);
            var latest, oldest := found[0], found[|found| - 1];
            var t := CalculateGrowthTrends(SortDesc(found, GrowthTime), selected);
            && SortDesc(found, GrowthTime) == found
            && latest in rows && oldest in rows && latest.babyId == babyId && oldest.babyId == babyId
            && (forall i :: 0 <= i < |rows| && rows[i].babyId == babyId && startTime <= rows[i].time <= endTime ==>
                  oldest.time <= rows[i].time <= latest.time)
            && t.heightGrowth == HeightOf(latest) - HeightOf(oldest)
            && t.weightGain == WeightOf(latest) - WeightOf(oldest)
            && t.headGrowth == HeadOf(latest) - HeadOf(oldest)
            && t.period == ToPeriodMonths(selected)
  {
    var found := GetGrowthRecordsByDateRange(rows, babyId, startTime, endTime);
    SortDescOfSorted(found, GrowthTime);
    RangeEnds(rows, babyId, startTime, endTime);
  }

  /** `toUI()`: the date text of the record's second (`formatDate` is the `yyyy-MM-dd` formatter). */
  function ToUI(r: GrowthRecord, formatDate: int -> string): (ui: GrowthRecordUI)
    ensures ui.id == r.id && ui.height == r.height && ui.weight == r.weight && ui.headCircumference == r.headCircumference
  {
    GrowthRecordUI(r.id, formatDate(Quot(r.time, 1000)), r.height, r.weight, r.headCircumference)
  }

  /**
   * The state after `loadGrowthData` has run with the table `rows`: for a selected baby, its latest
   * record, the period's records newest first and their trend; nothing happens without a baby.
   */
  function Loaded(s: GrowthViewState, rows: seq<GrowthRecord>, now: int, months: Months, formatDate: int -> string): GrowthViewState
  {
    match s.selectedBabyId
    case None => s
    case Some(babyId) =>
      var sorted := PeriodRecords(rows, babyId, s.selectedPeriod, now, months);
      s.(latestRecord := LatestUI(rows, babyId, formatDate),
         growthRecords := ToUIs(sorted, formatDate),
         growthTrends := CalculateGrowthTrends(sorted, s.selectedPeriod),
         isLoading := false)
  }

  /** The screen form of the baby's latest record, if it has one. */
  function LatestUI(rows: seq<GrowthRecord>, babyId: int, formatDate: int -> string): Option<GrowthRecordUI> {
    var latest := GetLatestGrowthRecord(rows, babyId);
    if latest.Some? then Some(ToUI(latest.value, formatDate)) else None
  }

  /** `map { it.toUI() }` */
  function ToUIs(records: seq<GrowthRecord>, formatDate: int -> string): (uis: seq<GrowthRecordUI>)
    ensures |uis| == |records|
  {
    seq(|records|, i requires 0 <= i < |records| => ToUI(records[i], formatDate))
  }

  /**
   * Without a baby nothing changes. With one, loading ends and the error is kept; as many records
   * are shown as the period holds, the trend is that of the period's records, and the latest record
   * is absent exactly when the baby has none.
   */
  lemma LoadedFacts(s: GrowthViewState, rows: seq<GrowthRecord>, now: int, months: Months, formatDate: int -> string)
    ensures var r := Loaded(s, rows, now, months, formatDate);
            && (s.selectedBabyId.None? ==> r == s)
            && r.selectedBabyId == s.selectedBabyId && r.selectedPeriod == s.selectedPeriod && r.error == s.error
            && (s.selectedBabyId.Some? ==>
                  && !r.isLoading
                  && |r.growthRecords| == |PeriodRecords(rows, s.selectedBabyId.value, s.selectedPeriod, now, months)|
                  && (r.latestRecord.None? <==> forall i :: 0 <= i < |rows| ==> rows[i].babyId != s.selectedBabyId.value)
                  && r.growthTrends == CalculateGrowthTrends(PeriodRecords(rows, s.selectedBabyId.value, s.selectedPeriod, now, months), s.selectedPeriod))
  {
  }

  datatype GrowthEvent =
    | SelectBaby(babyId: int)
    | SelectPeriod(period: GrowthPeriod)
    | AddGrowthRecord(height: Option<real>, weight: Option<real>, headCircumference: Option<real>)
    | UpdateGrowthRecord(record: GrowthRecordUI)
    | DeleteGrowthRecord(recordId: int)

  /**
   * The platform services a handler uses: the wall-clock `now` (seconds) for the period, the
   * millisecond clock for new rows, the month arithmetic, the date formatter and its parser, and
   * the keys of the `babies` table that the foreign key checks against.
   */
  datatype Env = Env(
    now: int,
    nowMillis: int,
    months: Months,
    formatDate: int -> string,
    parseDate: string -> Result<int, Throwable>,
    babyIds: set<int>)

  class GrowthViewModel {
    var state: GrowthViewState
    /** The `growth_records` table behind the repository. */
    const records: Table<GrowthRecord>

    ghost predicate Valid()
      reads this, records
    {
      records.Valid() && records.idOf == GrowthId && records.ownerOf == GrowthOwner && records.withId == WithId
    }

    /** `init { handleEvent(SelectBaby(1L)) }` */
    constructor(records: Table<GrowthRecord>, env: Env)
      requires records.Valid() && records.idOf == GrowthId && records.ownerOf == GrowthOwner && records.withId == WithId
      ensures Valid() && this.records == records
      ensures state == Loaded(InitViewState.(selectedBabyId := Some(1)), records.rows, env.now, env.months, env.formatDate)
    {
      this.records := records;
      state := Loaded(InitViewState.(selectedBabyId := Some(1)), records.rows, env.now, env.months, env.formatDate);
    }

    method LoadGrowthData(env: Env)
      modifies this
      ensures state == Loaded(old(state), records.rows, env.now, env.months, env.formatDate)
    {
      if state.selectedBabyId.None? {
        return;
      }
      state := state.(isLoading := true);
      state := Loaded(state, records.rows, env.now, env.months, env.formatDate);
    }

    /** `insertGrowthRecord` of a new row: it goes in under a fresh key unless its baby is unknown. */
    method InsertRecord(record: GrowthRecord, babyIds: set<int>) returns (res: Result<int, Throwable>)
      requires Valid() && record.id == 0
      modifies records
      ensures Valid()
      ensures res.Failure? <==> record.babyId !in babyIds
      ensures res.Failure? ==> res.error == ForeignKeyViolation && records.rows == old(records.rows)
      ensures res.Success? ==> records.rows == old(records.rows) + [record.(id := res.value)]
    {
      res := records.Insert(record, babyIds);
      assert GrowthId(record) == 0 && GrowthOwner(record) == record.babyId;
      if res.Success? {
        assert WithId(record, res.value) == record.(id := res.value);
      }
    }

    /**
     * `addGrowthRecord`: without a selected baby nothing happens. Otherwise one record of that baby
     * with the given measurements is inserted and the data reloaded; a failed insert only sets
     * `error`.
     */
    method AddGrowth(height: Option<real>, weight: Option<real>, headCircumference: Option<real>, env: Env)
      requires Valid()
      modifies this, records
      ensures Valid()
      ensures old(state.selectedBabyId).None? ==> state == old(state) && records.rows == old(records.rows)
      ensures old(state.selectedBabyId).Some? ==>
                var babyId := old(state.selectedBabyId).value;
                var record := GrowthRecord(0, babyId, env.nowMillis, height, weight, headCircumference, None, None, env.nowMillis);
                if babyId in env.babyIds then
                  && |records.rows| == |old(records.rows)| + 1
                  && records.rows == old(records.rows) + [record.(id := records.rows[|records.rows| - 1].id)]
                  && state == Loaded(old(state), records.rows, env.now, env.months, env.formatDate)
                else
                  records.rows == old(records.rows) && state == old(state).(error := ForeignKeyViolation.message)
    {
      if state.selectedBabyId.None? {
        return;
      }
      var babyId := state.selectedBabyId.value;
      var record := GrowthRecord(0, babyId, env.nowMillis, height, weight, headCircumference, None, None, env.nowMillis);
      ghost var before := state;
      var inserted := InsertRecord(record, env.babyIds);
      if inserted.Failure? {
        state := state.(error := inserted.error.message);
        return;
      }
      assert records.rows == old(records.rows) + [record.(id := inserted.value)];
      LoadGrowthData(env);
      assert state == Loaded(before, records.rows, env.now, env.months, env.formatDate);
    }

    /** `toEntity(babyId)`: the record rebuilt from the screen's fields; milestone and note are not carried. */
    static function ToEntity(ui: GrowthRecordUI, babyId: int, env: Env): (r: Result<GrowthRecord, Throwable>)
      ensures r.Failure? <==> env.parseDate(ui.time).Failure?
      ensures r.Success? ==> && r.value.id == ui.id && r.value.babyId == babyId
                             && r.value.time == env.parseDate(ui.time).value * 1000
                             && r.value.height == ui.height && r.value.weight == ui.weight
                             && r.value.headCircumference == ui.headCircumference
                             && r.value.milestone.None? && r.value.note.None?
    {
      match env.parseDate(ui.time)
      case Failure(e) => Failure(e)
      case Success(sec) =>
        Success(GrowthRecord(ui.id, babyId, sec * 1000, ui.height, ui.weight, ui.headCircumference, None, None, env.nowMillis))
    }

    /**
     * `updateGrowthRecord`: without a selected baby nothing happens. Otherwise the rebuilt record
     * replaces the row with its key and the data is reloaded; an exception only sets `error`.
     */
    method UpdateGrowth(ui: GrowthRecordUI, env: Env)
      requires Valid()
      modifies this, records
      ensures Valid()
      ensures old(state.selectedBabyId).None? ==> state == old(state) && records.rows == old(records.rows)
      ensures old(state.selectedBabyId).Some? ==>
                var entity := ToEntity(ui, old(state.selectedBabyId).value, env);
                if entity.Failure? then
                  records.rows == old(records.rows) && state == old(state).(error := entity.error.message)
                else if entity.value.id in Ids(old(records.rows), GrowthId) && entity.value.babyId !in env.babyIds then
                  records.rows == old(records.rows) && state == old(state).(error := ForeignKeyViolation.message)
                else
                  && records.rows == ReplaceById(old(records.rows), entity.value, GrowthId)
                  && state == Loaded(old(state), records.rows, env.now, env.months, env.formatDate)
    {
      if state.selectedBabyId.None? {
        return;
      }
      var entity := ToEntity(ui, state.selectedBabyId.value, env);
      if entity.Failure? {
        state := state.(error := entity.error.message);
        return;
      }
      var updated := records.Update(entity.value, env.babyIds);
      if updated.Failure? {
        state := state.(error := updated.error.message);
        return;
      }
      LoadGrowthData(env);
    }

    /** `deleteGrowthRecord`: without a selected baby no delete is issued; otherwise the row goes and the data is reloaded. */
    method DeleteGrowth(recordId: int, env: Env)
      requires Valid()
      modifies this, records
      ensures Valid()
      ensures old(state.selectedBabyId).None? ==> state == old(state) && records.rows == old(records.rows)
      ensures old(state.selectedBabyId).Some? ==>
                && records.rows == RemoveById(old(records.rows), recordId, GrowthId)
                && state == Loaded(old(state), records.rows, env.now, env.months, env.formatDate)
    {
      if state.selectedBabyId.None? {
        return;
      }
      var key := GrowthRecord(recordId, state.selectedBabyId.value, 0, None, None, None, None, None, env.nowMillis);
      records.Delete(key);
      LoadGrowthData(env);
    }

    /** `handleEvent`: a selection is stored and then loaded; the record events go to their handlers. */
    method HandleEvent(event: GrowthEvent, env: Env)
      requires Valid()
      modifies this, records
      ensures Valid()
      ensures event.SelectBaby? ==>
                records.rows == old(records.rows) &&
                state == Loaded(old(state).(selectedBabyId := Some(event.babyId)), records.rows, env.now, env.months, env.formatDate)
      ensures event.SelectPeriod? ==>
                records.rows == old(records.rows) &&
                state == Loaded(old(state).(selectedPeriod := event.period), records.rows, env.now, env.months, env.formatDate)
      ensures old(state.selectedBabyId).None? && !event.SelectBaby? && !event.SelectPeriod? ==>
                state == old(state) && records.rows == old(records.rows)
    {
      match event
      case SelectBaby(babyId) =>
        state := state.(selectedBabyId := Some(babyId));
        LoadGrowthData(env);
      case SelectPeriod(period) =>
        state := state.(selectedPeriod := period);
        LoadGrowthData(env);
      case AddGrowthRecord(h, w, c) => AddGrowth(h, w, c, env);
      case UpdateGrowthRecord(ui) => UpdateGrowth(ui, env);
      case DeleteGrowthRecord(id) => DeleteGrowth(id, env);
    }
  }
}
