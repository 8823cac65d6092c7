/**
 * The `feeding_records` queries, each a function of the rows it reads. The writes (`insert`,
 * `update`, `delete`, `deleteAllByBaby`) are those of `Tables.Table`, instantiated by `NewTable`.
 * Range bounds are whatever integers the caller passes.
 */
module FeedingRecordDao {
  import opened Wrappers
  import opened Entities
  import opened ErrorHandler
  import opened Query
  import opened Tables

  function WithId(r: FeedingRecord, k: int): FeedingRecord { r.(id := k) }
  function FeedingOwner(r: FeedingRecord): int { r.babyId }

  method NewTable() returns (t: Table<FeedingRecord>)
    ensures fresh(t) && t.Valid() && t.rows == []
    ensures t.idOf == FeedingId && t.ownerOf == FeedingOwner && t.withId == WithId
  {
    t := new Table(FeedingId, FeedingOwner, WithId);
  }

  function OwnedBy(babyId: int): FeedingRecord -> bool {
    (r: FeedingRecord) => r.babyId == babyId
  }

  function StartedBetween(babyId: int, startTime: int, endTime: int): FeedingRecord -> bool {
    (r: FeedingRecord) => r.babyId == babyId && startTime <= r.startTime <= endTime
  }

  function StartedSince(babyId: int, startTime: int): FeedingRecord -> bool {
    (r: FeedingRecord) => r.babyId == babyId && r.startTime >= startTime
  }

  /** `WHERE babyId = :babyId ORDER BY startTime DESC` */
  function GetFeedingRecordsByBaby(rows: seq<FeedingRecord>, babyId: int): (r: seq<FeedingRecord>)
    ensures forall i :: 0 <= i < |r| ==> r[i] in rows && r[i].babyId == babyId
    ensures forall i :: 0 <= i < |rows| && rows[i].babyId == babyId ==> rows[i] in r
    ensures |r| == Count(rows, OwnedBy(babyId))
    ensures SortedDesc(r, FeedingStart)
  {
    Select(rows, OwnedBy(babyId), FeedingStart)
  }

  /** `WHERE babyId = :babyId AND startTime BETWEEN :startTime AND :endTime ORDER BY startTime DESC` */
  function GetFeedingRecordsByDateRange(rows: seq<FeedingRecord>, babyId: int, startTime: int, endTime: int): (r: seq<FeedingRecord>)
    ensures forall i :: 0 <= i < |r| ==> r[i] in rows && r[i].babyId == babyId && startTime <= r[i].startTime <= endTime
    ensures forall i :: 0 <= i < |rows| && rows[i].babyId == babyId && startTime <= rows[i].startTime <= endTime ==> rows[i] in r
    ensures |r| == Count(rows, StartedBetween(babyId, startTime, endTime))
    ensures SortedDesc(r, FeedingStart)
    ensures startTime > endTime ==> r == []
  {
    Select(rows, StartedBetween(babyId, startTime, endTime), FeedingStart)
  }

  /** The range query returns a sub-multiset of the by-baby query. */
  lemma RangeWithinByBaby(rows: seq<FeedingRecord>, babyId: int, startTime: int, endTime: int)
    ensures multiset(GetFeedingRecordsByDateRange(rows, babyId, startTime, endTime))
            <= multiset(GetFeedingRecordsByBaby(rows, babyId))
  {
    SelectNarrow(rows, OwnedBy(babyId), StartedBetween(babyId, startTime, endTime), FeedingStart);
  }

  /** `SELECT COUNT(*) ... WHERE babyId = :babyId AND startTime >= :startTime` */
  function GetTodayFeedingCount(rows: seq<FeedingRecord>, babyId: int, startTime: int): (n: nat)
    ensures n <= |GetFeedingRecordsByBaby(rows, babyId)|
    ensures n == 0 <==> forall i :: 0 <= i < |rows| ==> !(rows[i].babyId == babyId && rows[i].startTime >= startTime)
  {
    FilterNarrow(rows, OwnedBy(babyId), StartedSince(babyId, startTime));
    Count(rows, StartedSince(babyId, startTime))
  }
}
