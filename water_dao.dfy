/**
 * The `water_records` queries, each a function of the rows it reads; the writes
 * (`insertWaterRecord`, `updateWaterRecord`, `deleteWaterRecord`) are those of `Tables.Table`,
 * instantiated by `NewTable`.
 */
module WaterRecordDao {
  import opened Wrappers
  import opened Entities
  import opened Numbers
  import opened Query
  import opened Tables

  function WithId(r: WaterRecord, k: int): WaterRecord { r.(id := k) }
  function WaterOwner(r: WaterRecord): int { r.babyId }
  function WaterAmount(r: WaterRecord): int { r.amount }

  method NewTable() returns (t: Table<WaterRecord>)
    ensures fresh(t) && t.Valid() && t.rows == []
    ensures t.idOf == WaterId && t.ownerOf == WaterOwner && t.withId == WithId
  {
    t := new Table(WaterId, WaterOwner, WithId);
  }

  function OwnedBy(babyId: int): WaterRecord -> bool {
    (r: WaterRecord) => r.babyId == babyId
  }

  function TimedBetween(babyId: int, startTime: int, endTime: int): WaterRecord -> bool {
    (r: WaterRecord) => r.babyId == babyId && startTime <= r.time <= endTime
  }

  /** `WHERE babyId = :babyId ORDER BY time DESC` */
  function GetWaterRecordsByBabyId(rows: seq<WaterRecord>, babyId: int): (r: seq<WaterRecord>)
    ensures forall i :: 0 <= i < |r| ==> r[i] in rows && r[i].babyId == babyId
    ensures forall i :: 0 <= i < |rows| && rows[i].babyId == babyId ==> rows[i] in r
    ensures |r| == Count(rows, OwnedBy(babyId))
    ensures SortedDesc(r, WaterTime)
  {
    Select(rows, OwnedBy(babyId), WaterTime)
  }

  /** `WHERE babyId = :babyId AND time BETWEEN :startTime AND :endTime ORDER BY time DESC` */
  function GetWaterRecordsByDateRange(rows: seq<WaterRecord>, babyId: int, startTime: int, endTime: int): (r: seq<WaterRecord>)
    ensures forall i :: 0 <= i < |r| ==> r[i] in rows && r[i].babyId == babyId && startTime <= r[i].time <= endTime
    ensures forall i :: 0 <= i < |rows| && rows[i].babyId == babyId && startTime <= rows[i].time <= endTime ==> rows[i] in r
    ensures |r| == Count(rows, TimedBetween(babyId, startTime, endTime))
    ensures SortedDesc(r, WaterTime)
    ensures startTime > endTime ==> r == []
  {
    Select(rows, TimedBetween(babyId, startTime, endTime), WaterTime)
  }

  /**
   * `SELECT SUM(amount) ... BETWEEN` read as `Int?`: `null` when no row is in range, otherwise
   * the sum narrowed to 32 bits as the cursor's `getInt` does.
   */
  function GetTotalWaterAmount(rows: seq<WaterRecord>, babyId: int, startTime: int, endTime: int): (r: Option<int>)
    ensures r.None? <==> forall i :: 0 <= i < |rows| ==> !(rows[i].babyId == babyId && startTime <= rows[i].time <= endTime)
    ensures r.Some? ==> IsInt(r.value)
    ensures r.Some? && IsInt(SumOf(GetWaterRecordsByDateRange(rows, babyId, startTime, endTime), WaterAmount))
            ==> r.value == SumOf(GetWaterRecordsByDateRange(rows, babyId, startTime, endTime), WaterAmount)
  {
    var f := Filter(rows, TimedBetween(babyId, startTime, endTime));
    FilterEmpty(rows, TimedBetween(babyId, startTime, endTime));
    if f == [] then None
    else
      SumOfPermutation(f, SortDesc(f, WaterTime), WaterAmount);
      Some(WrapInt(SumOf(f, WaterAmount)))
  }
}
