/**
 * The `medicine_records` queries, each a function of the rows it reads; the writes
 * (`insertMedicineRecord`, `updateMedicineRecord`, `deleteMedicineRecord`) are those of
 * `Tables.Table`, instantiated by `NewTable`.
 */
module MedicineRecordDao {
  import opened Wrappers
  import opened Entities
  import opened Query
  import opened Tables

  function WithId(r: MedicineRecord, k: int): MedicineRecord { r.(id := k) }
  function MedicineOwner(r: MedicineRecord): int { r.babyId }

  method NewTable() returns (t: Table<MedicineRecord>)
    ensures fresh(t) && t.Valid() && t.rows == []
    ensures t.idOf == MedicineId && t.ownerOf == MedicineOwner && t.withId == WithId
  {
    t := new Table(MedicineId, MedicineOwner, WithId);
  }

  function OwnedBy(babyId: int): MedicineRecord -> bool {
    (r: MedicineRecord) => r.babyId == babyId
  }

  function TimedBetween(babyId: int, startTime: int, endTime: int): MedicineRecord -> bool {
    (r: MedicineRecord) => r.babyId == babyId && startTime <= r.time <= endTime
  }

  /** `reminderTime IS NOT NULL AND reminderTime > :now` */
  function DueAfter(now: int): MedicineRecord -> bool {
    (r: MedicineRecord) => r.reminderTime.Some? && r.reminderTime.value > now
  }

  /** `WHERE babyId = :babyId ORDER BY time DESC` */
  function GetMedicineRecordsByBabyId(rows: seq<MedicineRecord>, babyId: int): (r: seq<MedicineRecord>)
    ensures forall i :: 0 <= i < |r| ==> r[i] in rows && r[i].babyId == babyId
    ensures forall i :: 0 <= i < |rows| && rows[i].babyId == babyId ==> rows[i] in r
    ensures |r| == Count(rows, OwnedBy(babyId))
    ensures SortedDesc(r, MedicineTime)
  {
    Select(rows, OwnedBy(babyId), MedicineTime)
  }

  /** `WHERE babyId = :babyId AND time BETWEEN :startTime AND :endTime ORDER BY time DESC` */
  function GetMedicineRecordsByDateRange(rows: seq<MedicineRecord>, babyId: int, startTime: int, endTime: int): (r: seq<MedicineRecord>)
    ensures forall i :: 0 <= i < |r| ==> r[i] in rows && r[i].babyId == babyId && startTime <= r[i].time <= endTime
    ensures forall i :: 0 <= i < |rows| && rows[i].babyId == babyId && startTime <= rows[i].time <= endTime ==> rows[i] in r
    ensures |r| == Count(rows, TimedBetween(babyId, startTime, endTime))
    ensures SortedDesc(r, MedicineTime)
    ensures startTime > endTime ==> r == []
  {
    Select(rows, TimedBetween(babyId, startTime, endTime), MedicineTime)
  }

  /**
   * Every record, of any baby, with a reminder strictly after `now`. The query has no `ORDER BY`; the
   * model returns table order.
   */
  function GetUpcomingReminders(rows: seq<MedicineRecord>, now: int): (r: seq<MedicineRecord>)
    ensures forall i :: 0 <= i < |r| ==> r[i] in rows && r[i].reminderTime.Some? && r[i].reminderTime.value > now
    ensures forall i :: 0 <= i < |rows| && rows[i].reminderTime.Some? && rows[i].reminderTime.value > now ==> rows[i] in r
    ensures multiset(r) <= multiset(rows)
  {
    Filter(rows, DueAfter(now))
  }

  /** A later `now` never brings a reminder back. */
  lemma UpcomingShrinks(rows: seq<MedicineRecord>, now: int, later: int)
    requires now <= later
    ensures GetUpcomingReminders(rows, later) == Filter(GetUpcomingReminders(rows, now), DueAfter(later))
  {
    FilterNarrow(rows, DueAfter(now), DueAfter(later));
  }
}
