/**
 * The statistics screen: the feeding aggregates (`calculateFeedingStats`), the reporting periods
 * and the one before them, and the view model that stores the selection and reloads the charts.
 */
module Statistics {
  import opened Wrappers
  import opened Numbers
  import opened Entities
  import opened ErrorHandler
  import opened Query
  import opened Calendar
  import opened Charts
  import opened FeedingRecordDao

  datatype StatisticsPeriod = Today | Week | Month

  datatype FeedingStats = FeedingStats(totalCount: int, totalAmount: int, averageDuration: int)
  datatype SleepStats = SleepStats(totalDuration: int, count: int, averageDuration: real)
  datatype DiaperStats = DiaperStats(totalCount: int, wetCount: int, dirtyCount: int)
  datatype WaterStats = WaterStats(totalAmount: int, count: int, averageAmount: real)

  const NoFeedingStats: FeedingStats := FeedingStats(0, 0, 0)

  datatype StatisticsViewState = StatisticsViewState(
    selectedBabyId: Option<int>,
    selectedPeriod: StatisticsPeriod,
    feedingStats: FeedingStats,
    sleepStats: SleepStats,
    diaperStats: DiaperStats,
    waterStats: WaterStats,
    isLoading: bool,
    error: Option<string>,
    feedingTimeDistribution: Option<Bitmap>,
    feedingAccumulation: Option<Bitmap>,
    periodComparison: Option<Bitmap>)

  /** `initViewState()`: nothing selected, today, all statistics zero, no charts. */
  const InitViewState: StatisticsViewState := StatisticsViewState(
    None, Today, NoFeedingStats, SleepStats(0, 0, 0.0), DiaperStats(0, 0, 0), WaterStats(0, 0, 0.0),
    false, None, None, None, None)

  // ---------------------------------------------------------------------------------------------
  // Feeding aggregates

  /** `sumOf` with an `Int` selector: a running sum that wraps at 32 bits. */
  function IntSumOf<T>(s: seq<T>, f: T -> int): (r: int)
    ensures IsInt(r)
  {
    if s == [] then 0 else WrapInt(IntSumOf(s[..|s| - 1], f) + f(s[|s| - 1]))
  }

  /** Wrapping at every step is wrapping the exact sum once. */
  lemma {:induction false} IntSumWraps<T>(s: seq<T>, f: T -> int)
    ensures IntSumOf(s, f) == WrapInt(SumOf(s, f))
  {
    if s != [] {
      var prefix, last := s[..|s| - 1], s[|s| - 1];
      IntSumWraps(prefix, f);
      WrapAdd(SumOf(prefix, f), f(last));
      assert s == prefix + [last];
      SumOfAppend(prefix, [last], f);
      assert SumOf([last], f) == f(last) + SumOf([last][1..], f);
    }
  }

  /** `it.amount ?: 0` */
  function AmountOrZero(r: FeedingRecord): int {
    r.amount.GetOr(0)
  }

  /** `(endTime - startTime).toInt()` for a closed record, 0 for an open one. */
  function DurationOrZero(r: FeedingRecord): int {
    if r.endTime.Some? then WrapInt(r.endTime.value - r.startTime) else 0
  }

  /**
   * The body of `calculateFeedingStats` for one emitted list: the count, the total amount with
   * `null` as 0, and the total duration divided by the count (0 for an empty list), all in `Int`.
   */
  function FeedingStatsOf(records: seq<FeedingRecord>): (st: FeedingStats)
    ensures st.totalCount == |records|
    ensures st.totalAmount == WrapInt(SumOf(records, AmountOrZero))
    ensures records == [] ==> st.averageDuration == 0
    ensures records != [] ==> st.averageDuration == Quot(WrapInt(SumOf(records, DurationOrZero)), |records|)
  {
    IntSumWraps(records, AmountOrZero);
    IntSumWraps(records, DurationOrZero);
    var totalCount := |records|;
    var totalAmount := IntSumOf(records, AmountOrZero);
    var totalDuration := IntSumOf(records, DurationOrZero);
    FeedingStats(totalCount, totalAmount, if totalCount > 0 then Quot(totalDuration, totalCount) else 0)
  }

  /**
   * `calculateFeedingStats(babyId, startTime, endTime)` over the table: the statistics of the
   * baby's records that started in the range, which do not depend on the query's order.
   */
  function CalculateFeedingStats(rows: seq<FeedingRecord>, babyId: int, startTime: int, endTime: int): (st: FeedingStats)
    ensures st.totalCount == Count(rows, StartedBetween(babyId, startTime, endTime))
    ensures st.totalAmount == WrapInt(SumOf(Filter(rows, StartedBetween(babyId, startTime, endTime)), AmountOrZero))
    ensures st == FeedingStatsOf(Filter(rows, StartedBetween(babyId, startTime, endTime)))
  {
    var matching := Filter(rows, StartedBetween(babyId, startTime, endTime));
    var records := GetFeedingRecordsByDateRange(rows, babyId, startTime, endTime);
    assert multiset(records) == multiset(matching);
    SumOfPermutation(records, matching, AmountOrZero);
    SumOfPermutation(records, matching, DurationOrZero);
    FeedingStatsOf(records)
  }

  /** An open record adds to the count but not to the total duration. */
  lemma OpenFeedingAddsNoDuration(records: seq<FeedingRecord>, r: FeedingRecord)
    requires r.endTime.None?
    ensures SumOf(records + [r], DurationOrZero) == SumOf(records, DurationOrZero)
    ensures FeedingStatsOf(records + [r]).totalCount == FeedingStatsOf(records).totalCount + 1
  {
    SumOfAppend(records, [r], DurationOrZero);
    assert SumOf([r], DurationOrZero) == 0 + SumOf([r][1..], DurationOrZero);
  }

  /**
   * When every closed record lasted between 0 and `longest` and the totals fit an `Int`, the
   * average lies between 0 and `longest`.
   */
  lemma AverageWithinLongest(records: seq<FeedingRecord>, longest: int)
    requires records != [] && 0 <= longest && IsInt(|records| * longest)
    requires forall i :: 0 <= i < |records| && records[i].endTime.Some? ==>
               0 <= records[i].endTime.value - records[i].startTime <= longest
    ensures 0 <= FeedingStatsOf(records).averageDuration <= longest
  {
    var n := |records|;
    MulAtLeast(n, longest);
    forall i | 0 <= i < n ensures 0 <= DurationOrZero(records[i]) <= longest {
    }
    SumBounds(records, DurationOrZero, longest);
    DivAtMost(SumOf(records, DurationOrZero), n, longest);
  }

  lemma MulAtLeast(n: int, m: int)
    requires n >= 1 && m >= 0
    ensures n * m >= m
  {
    assert n * m == (n - 1) * m + m;
    MulNonNegative(n - 1, m);
  }

  lemma MulNonNegative(a: int, b: int)
    requires a >= 0 && b >= 0
    ensures a * b >= 0
  {
  }

  /** A non-negative total of at most `n m` averages to at most `m` over `n`. */
  lemma DivAtMost(total: int, n: int, m: int)
    requires n >= 1 && 0 <= total <= n * m
    ensures 0 <= total / n <= m
  {
    var q := total / n;
    assert q * n <= total;
    MulBounds(q - m, n);
    assert q * n == (q - m) * n + m * n;
  }

  /** A sum of terms in `[0, m]` lies in `[0, |s| m]`. */
  lemma {:induction false} SumBounds<T>(s: seq<T>, f: T -> int, m: int)
    requires forall i :: 0 <= i < |s| ==> 0 <= f(s[i]) <= m
    ensures 0 <= SumOf(s, f) <= |s| * m
  {
    if s != [] {
      assert forall i :: 0 <= i < |s[1..]| ==> s[1..][i] == s[i + 1];
      SumBounds(s[1..], f, m);
      assert |s| * m == m + (|s| - 1) * m;
    }
  }

  // ---------------------------------------------------------------------------------------------
  // Reporting periods

  /** `getTimeRange`: from today's midnight, or a week or a month before it, up to `now`. */
  function GetTimeRange(period: StatisticsPeriod, now: int, months: Months): (range: (int, int))
    ensures range.1 == now
    ensures period == Today ==> range.0 == Midnight(now)
    ensures period == Week ==> range.0 == Midnight(now) - SECONDS_PER_WEEK
    ensures period == Month ==> range.0 == months.minus(Midnight(now), 1)
    ensures Lawful(months) ==> range.0 <= range.1
    ensures Lawful(months) && period == Month ==>
              now - range.0 >= 28 * SECONDS_PER_DAY && now - range.0 < 32 * SECONDS_PER_DAY
  {
    var midnight := Midnight(now);
    var start := match period
      case Today => midnight
      case Week => midnight - SECONDS_PER_WEEK
      case Month => months.minus(midnight, 1);
    (start, now)
  }

  /** A longer period starts earlier: month before week before today. */
  lemma PeriodsNest(now: int, months: Months)
    requires Lawful(months)
    ensures GetTimeRange(Month, now, months).0 <= GetTimeRange(Week, now, months).0
    ensures GetTimeRange(Week, now, months).0 <= GetTimeRange(Today, now, months).0
  {
  }

  /** `getPreviousPeriodRange`: the period of the same length that ends where the current one starts. */
  function GetPreviousPeriodRange(period: StatisticsPeriod, now: int, months: Months): (range: (int, int))
    ensures range.1 == GetTimeRange(period, now, months).0
    ensures range.1 - range.0 == GetTimeRange(period, now, months).1 - GetTimeRange(period, now, months).0
    ensures Lawful(months) ==> range.0 <= range.1
  {
    var (start, end) := GetTimeRange(period, now, months);
    (start - (end - start), start)
  }

  /**
   * `loadStatistics` reads the clock once per range. When both readings fall on the same day the
   * previous period ends exactly where the current one starts, and it is no shorter.
   */
  lemma PreviousPeriodAdjoins(period: StatisticsPeriod, now: int, later: int, months: Months)
    requires SameDay(now, later) && now <= later
    ensures GetPreviousPeriodRange(period, later, months).1 == GetTimeRange(period, now, months).0
    ensures GetPreviousPeriodRange(period, later, months).1 - GetPreviousPeriodRange(period, later, months).0
            >= GetTimeRange(period, now, months).1 - GetTimeRange(period, now, months).0
  {
  }

  // ---------------------------------------------------------------------------------------------
  // The view model

  /**
   * The state after `loadStatistics` has run with the table `rows`: for a selected baby, the
   * charts of the current and previous periods' feeding records, or the first exception a
   * renderer threw. `now` and `later` are the clock readings of the two range computations.
   */
  function Loaded(s: StatisticsViewState, rows: seq<FeedingRecord>, now: int, later: int, months: Months,
                  charts: ChartGenerator): (r: StatisticsViewState)
    ensures s.selectedBabyId.None? ==> r == s
    ensures r.selectedBabyId == s.selectedBabyId && r.selectedPeriod == s.selectedPeriod
    ensures r.feedingStats == s.feedingStats && r.sleepStats == s.sleepStats
    ensures r.diaperStats == s.diaperStats && r.waterStats == s.waterStats
    ensures s.selectedBabyId.Some? ==> !r.isLoading
    ensures r.error != s.error ==> r.feedingTimeDistribution == s.feedingTimeDistribution
  {
    match s.selectedBabyId
    case None => s
    case Some(babyId) =>
      var (startTime, endTime) := GetTimeRange(s.selectedPeriod, now, months);
      var (previousStart, previousEnd) := GetPreviousPeriodRange(s.selectedPeriod, later, months);
      var current := GetFeedingRecordsByDateRange(rows, babyId, startTime, endTime);
      var previous := GetFeedingRecordsByDateRange(rows, babyId, previousStart, previousEnd);
      var loading := s.(isLoading := true);
      match charts.feedingScatter(current)
      case Failure(e) => loading.(error := e.message, isLoading := false)
      case Success(timeDistribution) =>
        match charts.feedingArea(current)
        case Failure(e) => loading.(error := e.message, isLoading := false)
        case Success(accumulation) =>
          match charts.periodComparison(current, previous)
          case Failure(e) => loading.(error := e.message, isLoading := false)
          case Success(comparison) =>
            loading.(feedingTimeDistribution := Some(timeDistribution), feedingAccumulation := Some(accumulation),
                     periodComparison := Some(comparison), isLoading := false)
  }

  /** With no renderer failing, every chart is drawn from the records of the current period. */
  lemma ChartsShowCurrentPeriod(s: StatisticsViewState, rows: seq<FeedingRecord>, now: int, later: int,
                                months: Months, charts: ChartGenerator)
    requires s.selectedBabyId.Some?
    requires forall records :: charts.feedingScatter(records).Success? && charts.feedingArea(records).Success?
    requires forall a, b :: charts.periodComparison(a, b).Success?
    ensures var r := Loaded(s, rows, now, later, months, charts);
            var range := GetTimeRange(s.selectedPeriod, now, months);
            var current := GetFeedingRecordsByDateRange(rows, s.selectedBabyId.value, range.0, range.1);
            && r.feedingTimeDistribution == Some(charts.feedingScatter(current).value)
            && r.feedingAccumulation == Some(charts.feedingArea(current).value)
            && r.error == s.error
  {
  }

  datatype StatisticsEvent =
    | SelectBaby(babyId: int)
    | SelectPeriod(period: StatisticsPeriod)
    | UpdatePeriodComparison

  class StatisticsViewModel {
    var state: StatisticsViewState
    /** The `feeding_records` table the repository reads. */
    var feedings: seq<FeedingRecord>

    /** `init { handleEvent(SelectBaby(1L)) }` */
    constructor(feedings: seq<FeedingRecord>, now: int, later: int, months: Months, charts: ChartGenerator)
      ensures this.feedings == feedings
      ensures state == Loaded(InitViewState.(selectedBabyId := Some(1)), feedings, now, later, months, charts)
    {
      this.feedings := feedings;
      state := Loaded(InitViewState.(selectedBabyId := Some(1)), feedings, now, later, months, charts);
    }

    method LoadStatistics(now: int, later: int, months: Months, charts: ChartGenerator)
      modifies this
      ensures feedings == old(feedings)
      ensures state == Loaded(old(state), feedings, now, later, months, charts)
    {
      if state.selectedBabyId.None? {
        return;
      }
      state := Loaded(state, feedings, now, later, months, charts);
    }

    /** `handleEvent`: store the selection, then reload; the comparison event does nothing. */
    method HandleEvent(event: StatisticsEvent, now: int, later: int, months: Months, charts: ChartGenerator)
      modifies this
      ensures feedings == old(feedings)
      ensures event.SelectBaby? ==>
                state == Loaded(old(state).(selectedBabyId := Some(event.babyId)), feedings, now, later, months, charts)
      ensures event.SelectPeriod? ==>
                state == Loaded(old(state).(selectedPeriod := event.period), feedings, now, later, months, charts)
      ensures event.UpdatePeriodComparison? ==> state == old(state)
    {
      match event
      case SelectBaby(babyId) =>
        state := state.(selectedBabyId := Some(babyId));
        LoadStatistics(now, later, months, charts);
      case SelectPeriod(period) =>
        state := state.(selectedPeriod := period);
        LoadStatistics(now, later, months, charts);
      case UpdatePeriodComparison =>
    }
  }
}
