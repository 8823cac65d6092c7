/**
 * The `growth_records` queries, each a function of the rows it reads; the writes
 * (`insertGrowthRecord`, `updateGrowthRecord`, `deleteGrowthRecord`) are those of `Tables.Table`,
 * instantiated by `NewTable`.
 */
module GrowthRecordDao {
  import opened Wrappers
  import opened Entities
  import opened Query
  import opened Tables

  function WithId(r: GrowthRecord, k: int): GrowthRecord { r.(id := k) }
  function GrowthOwner(r: GrowthRecord): int { r.babyId }

  method NewTable() returns (t: Table<GrowthRecord>)
    ensures fresh(t) && t.Valid() && t.rows == []
    ensures t.idOf == GrowthId && t.ownerOf == GrowthOwner && t.withId == WithId
  {
    t := new Table(GrowthId, GrowthOwner, WithId);
  }

  function OwnedBy(babyId: int): GrowthRecord -> bool {
    (r: GrowthRecord) => r.babyId == babyId
  }

  function TimedBetween(babyId: int, startTime: int, endTime: int): GrowthRecord -> bool {
    (r: GrowthRecord) => r.babyId == babyId && startTime <= r.time <= endTime
  }

  /** `WHERE babyId = :babyId ORDER BY time DESC` */
  function GetGrowthRecordsByBabyId(rows: seq<GrowthRecord>, babyId: int): (r: seq<GrowthRecord>)
    ensures forall i :: 0 <= i < |r| ==> r[i] in rows && r[i].babyId == babyId
    ensures forall i :: 0 <= i < |rows| && rows[i].babyId == babyId ==> rows[i] in r
    ensures |r| == Count(rows, OwnedBy(babyId))
    ensures SortedDesc(r, GrowthTime)
  {
    Select(rows, OwnedBy(babyId), GrowthTime)
  }

  /** `WHERE babyId = :babyId AND time BETWEEN :startTime AND :endTime ORDER BY time DESC` */
  function GetGrowthRecordsByDateRange(rows: seq<GrowthRecord>, babyId: int, startTime: int, endTime: int): (r: seq<GrowthRecord>)
    ensures forall i :: 0 <= i < |r| ==> r[i] in rows && r[i].babyId == babyId && startTime <= r[i].time <= endTime
    ensures forall i :: 0 <= i < |rows| && rows[i].babyId == babyId && startTime <= rows[i].time <= endTime ==> rows[i] in r
    ensures |r| == Count(rows, TimedBetween(babyId, startTime, endTime))
    ensures SortedDesc(r, GrowthTime)
    ensures startTime > endTime ==> r == []
  {
    Select(rows, TimedBetween(babyId, startTime, endTime), GrowthTime)
  }

  /** `ORDER BY time DESC LIMIT 1` read as `GrowthRecord?`: a latest record of the baby, `null` if it has none. */
  function GetLatestGrowthRecord(rows: seq<GrowthRecord>, babyId: int): (r: Option<GrowthRecord>)
    ensures r.None? <==> forall i :: 0 <= i < |rows| ==> rows[i].babyId != babyId
    ensures r.Some? ==> r.value in rows && r.value.babyId == babyId
    ensures r.Some? ==> forall i :: 0 <= i < |rows| && rows[i].babyId == babyId ==> rows[i].time <= r.value.time
    ensures r.Some? ==> GetGrowthRecordsByBabyId(rows, babyId) != []
                        && r.value.time == GetGrowthRecordsByBabyId(rows, babyId)[0].time
  {
    var all := GetGrowthRecordsByBabyId(rows, babyId);
    FilterEmpty(rows, OwnedBy(babyId));
    if all == [] then None
    else
      assert forall i :: 0 <= i < |rows| && rows[i].babyId == babyId ==> rows[i].time <= all[0].time by {
        forall i | 0 <= i < |rows| && rows[i].babyId == babyId ensures rows[i].time <= all[0].time {
          var j :| 0 <= j < |all| && all[j] == rows[i];
          assert j == 0 || GrowthTime(all[0]) >= GrowthTime(all[j]);
        }
      }
      Some(all[0])
  }
}
