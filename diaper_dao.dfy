/**
 * The `diaper_records` queries, each a function of the rows it reads; the writes are those of
 * `Tables.Table`, instantiated by `NewTable`. The `type` column is 0 wet, 1 dirty, 2 both.
 */
module DiaperRecordDao {
  import opened Wrappers
  import opened Entities
  import opened Query
  import opened Tables

  function WithId(r: DiaperRecord, k: int): DiaperRecord { r.(id := k) }
  function DiaperOwner(r: DiaperRecord): int { r.babyId }

  method NewTable() returns (t: Table<DiaperRecord>)
    ensures fresh(t) && t.Valid() && t.rows == []
    ensures t.idOf == DiaperId && t.ownerOf == DiaperOwner && t.withId == WithId
  {
    t := new Table(DiaperId, DiaperOwner, WithId);
  }

  function OwnedBy(babyId: int): DiaperRecord -> bool {
    (r: DiaperRecord) => r.babyId == babyId
  }

  function TimedBetween(babyId: int, startTime: int, endTime: int): DiaperRecord -> bool {
    (r: DiaperRecord) => r.babyId == babyId && startTime <= r.time <= endTime
  }

  /** `AND type IN (0, 2)` */
  predicate IsWet(r: DiaperRecord) { r.diaperType == 0 || r.diaperType == 2 }
  /** `AND type IN (1, 2)` */
  predicate IsDirty(r: DiaperRecord) { r.diaperType == 1 || r.diaperType == 2 }

  function Since(babyId: int, startTime: int): DiaperRecord -> bool {
    (r: DiaperRecord) => r.babyId == babyId && r.time >= startTime
  }
  function WetSince(babyId: int, startTime: int): DiaperRecord -> bool {
    (r: DiaperRecord) => r.babyId == babyId && r.time >= startTime && IsWet(r)
  }
  function DirtySince(babyId: int, startTime: int): DiaperRecord -> bool {
    (r: DiaperRecord) => r.babyId == babyId && r.time >= startTime && IsDirty(r)
  }
  function BothSince(babyId: int, startTime: int): DiaperRecord -> bool {
    (r: DiaperRecord) => r.babyId == babyId && r.time >= startTime && r.diaperType == 2
  }

  /** `WHERE babyId = :babyId ORDER BY time DESC` */
  function GetDiaperRecordsByBaby(rows: seq<DiaperRecord>, babyId: int): (r: seq<DiaperRecord>)
    ensures forall i :: 0 <= i < |r| ==> r[i] in rows && r[i].babyId == babyId
    ensures forall i :: 0 <= i < |rows| && rows[i].babyId == babyId ==> rows[i] in r
    ensures |r| == Count(rows, OwnedBy(babyId))
    ensures SortedDesc(r, DiaperTime)
  {
    Select(rows, OwnedBy(babyId), DiaperTime)
  }

  /** `WHERE babyId = :babyId AND time BETWEEN :startTime AND :endTime ORDER BY time DESC` */
  function GetDiaperRecordsByDateRange(rows: seq<DiaperRecord>, babyId: int, startTime: int, endTime: int): (r: seq<DiaperRecord>)
    ensures forall i :: 0 <= i < |r| ==> r[i] in rows && r[i].babyId == babyId && startTime <= r[i].time <= endTime
    ensures forall i :: 0 <= i < |rows| && rows[i].babyId == babyId && startTime <= rows[i].time <= endTime ==> rows[i] in r
    ensures |r| == Count(rows, TimedBetween(babyId, startTime, endTime))
    ensures SortedDesc(r, DiaperTime)
    ensures startTime > endTime ==> r == []
  {
    Select(rows, TimedBetween(babyId, startTime, endTime), DiaperTime)
  }

  /** `COUNT(*)` of the baby's wet diapers (types 0 and 2) since `startTime`. */
  function GetTodayWetCount(rows: seq<DiaperRecord>, babyId: int, startTime: int): (n: nat)
    ensures n <= Count(rows, Since(babyId, startTime))
    ensures n == 0 <==> forall i :: 0 <= i < |rows| ==> !(rows[i].babyId == babyId && rows[i].time >= startTime && IsWet(rows[i]))
  {
    FilterNarrow(rows, Since(babyId, startTime), WetSince(babyId, startTime));
    Count(rows, WetSince(babyId, startTime))
  }

  /** `COUNT(*)` of the baby's dirty diapers (types 1 and 2) since `startTime`. */
  function GetTodayDirtyCount(rows: seq<DiaperRecord>, babyId: int, startTime: int): (n: nat)
    ensures n <= Count(rows, Since(babyId, startTime))
    ensures n == 0 <==> forall i :: 0 <= i < |rows| ==> !(rows[i].babyId == babyId && rows[i].time >= startTime && IsDirty(rows[i]))
  {
    FilterNarrow(rows, Since(babyId, startTime), DirtySince(babyId, startTime));
    Count(rows, DirtySince(babyId, startTime))
  }

  /**
   * A "both" diaper is counted as wet and as dirty: when every type is 0, 1 or 2, the two counts add
   * up to the number of diapers plus the number of "both" diapers.
   */
  lemma {:induction false} WetPlusDirty(rows: seq<DiaperRecord>, babyId: int, startTime: int)
    requires forall i :: 0 <= i < |rows| ==> 0 <= rows[i].diaperType <= 2
    ensures GetTodayWetCount(rows, babyId, startTime) + GetTodayDirtyCount(rows, babyId, startTime)
            == Count(rows, Since(babyId, startTime)) + Count(rows, BothSince(babyId, startTime))
  {
    WetDirtyCounts(rows, babyId, startTime);
  }

  lemma {:induction false} WetDirtyCounts(rows: seq<DiaperRecord>, babyId: int, startTime: int)
    requires forall i :: 0 <= i < |rows| ==> 0 <= rows[i].diaperType <= 2
    ensures Count(rows, WetSince(babyId, startTime)) + Count(rows, DirtySince(babyId, startTime))
            == Count(rows, Since(babyId, startTime)) + Count(rows, BothSince(babyId, startTime))
  {
    if rows != [] {
      assert forall i :: 0 <= i < |rows[1..]| ==> rows[1..][i] == rows[i + 1];
      WetDirtyCounts(rows[1..], babyId, startTime);
      CountCons(rows, WetSince(babyId, startTime));
      CountCons(rows, DirtySince(babyId, startTime));
      CountCons(rows, Since(babyId, startTime));
      CountCons(rows, BothSince(babyId, startTime));
      RowCounts(rows[0], babyId, startTime);
    }
  }

  /** One diaper adds as much to the wet and dirty counts together as to the total and the "both" count. */
  lemma RowCounts(r: DiaperRecord, babyId: int, startTime: int)
    requires 0 <= r.diaperType <= 2
    ensures (if WetSince(babyId, startTime)(r) then 1 else 0) + (if DirtySince(babyId, startTime)(r) then 1 else 0)
            == (if Since(babyId, startTime)(r) then 1 else 0) + (if BothSince(babyId, startTime)(r) then 1 else 0)
  {
  }
}
