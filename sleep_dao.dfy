/**
 * The `sleep_records` queries, each a function of the rows it reads; the writes are those of
 * `Tables.Table`, instantiated by `NewTable`.
 */
module SleepRecordDao {
  import opened Wrappers
  import opened Entities
  import opened Query
  import opened Tables

  function WithId(r: SleepRecord, k: int): SleepRecord { r.(id := k) }
  function SleepOwner(r: SleepRecord): int { r.babyId }

  method NewTable() returns (t: Table<SleepRecord>)
    ensures fresh(t) && t.Valid() && t.rows == []
    ensures t.idOf == SleepId && t.ownerOf == SleepOwner && t.withId == WithId
  {
    t := new Table(SleepId, SleepOwner, WithId);
  }

  function OwnedBy(babyId: int): SleepRecord -> bool {
    (r: SleepRecord) => r.babyId == babyId
  }

  function StartedBetween(babyId: int, startTime: int, endTime: int): SleepRecord -> bool {
    (r: SleepRecord) => r.babyId == babyId && startTime <= r.startTime <= endTime
  }

  function StartedSince(babyId: int, startTime: int): SleepRecord -> bool {
    (r: SleepRecord) => r.babyId == babyId && r.startTime >= startTime
  }

  /** `CASE WHEN endTime IS NOT NULL THEN endTime - startTime ELSE 0 END` */
  function SessionLength(r: SleepRecord): int {
    match r.endTime
    case Some(e) => e - r.startTime
    case None => 0
  }

  /** `WHERE babyId = :babyId ORDER BY startTime DESC` */
  function GetSleepRecordsByBaby(rows: seq<SleepRecord>, babyId: int): (r: seq<SleepRecord>)
    ensures forall i :: 0 <= i < |r| ==> r[i] in rows && r[i].babyId == babyId
    ensures forall i :: 0 <= i < |rows| && rows[i].babyId == babyId ==> rows[i] in r
    ensures |r| == Count(rows, OwnedBy(babyId))
    ensures SortedDesc(r, SleepStart)
  {
    Select(rows, OwnedBy(babyId), SleepStart)
  }

  /** `WHERE babyId = :babyId AND startTime BETWEEN :startTime AND :endTime ORDER BY startTime DESC` */
  function GetSleepRecordsByDateRange(rows: seq<SleepRecord>, babyId: int, startTime: int, endTime: int): (r: seq<SleepRecord>)
    ensures forall i :: 0 <= i < |r| ==> r[i] in rows && r[i].babyId == babyId && startTime <= r[i].startTime <= endTime
    ensures forall i :: 0 <= i < |rows| && rows[i].babyId == babyId && startTime <= rows[i].startTime <= endTime ==> rows[i] in r
    ensures |r| == Count(rows, StartedBetween(babyId, startTime, endTime))
    ensures SortedDesc(r, SleepStart)
    ensures startTime > endTime ==> r == []
  {
    Select(rows, StartedBetween(babyId, startTime, endTime), SleepStart)
  }

  lemma RangeWithinByBaby(rows: seq<SleepRecord>, babyId: int, startTime: int, endTime: int)
    ensures multiset(GetSleepRecordsByDateRange(rows, babyId, startTime, endTime))
            <= multiset(GetSleepRecordsByBaby(rows, babyId))
  {
    SelectNarrow(rows, OwnedBy(babyId), StartedBetween(babyId, startTime, endTime), SleepStart);
  }

  /**
   * `SELECT SUM(...) ... WHERE babyId = :babyId AND startTime >= :startTime` read as a non-null
   * `Long`: the total length of the baby's closed sessions since `startTime`, 0 when there are none.
   */
  function GetTodaySleepDuration(rows: seq<SleepRecord>, babyId: int, startTime: int): (total: int)
    ensures (forall i :: 0 <= i < |rows| && rows[i].babyId == babyId && rows[i].startTime >= startTime ==> rows[i].endTime.None?)
            ==> total == 0
    ensures (forall i :: 0 <= i < |rows| && rows[i].babyId == babyId && rows[i].startTime >= startTime ==> SessionLength(rows[i]) >= 0)
            ==> total >= 0
  {
    var f := Filter(rows, StartedSince(babyId, startTime));
    SumFacts(f);
    SumOf(f, SessionLength)
  }

  lemma {:induction false} SumFacts(s: seq<SleepRecord>)
    ensures (forall i :: 0 <= i < |s| ==> SessionLength(s[i]) >= 0) ==> SumOf(s, SessionLength) >= 0
    ensures (forall i :: 0 <= i < |s| ==> s[i].endTime.None?) ==> SumOf(s, SessionLength) == 0
  {
    if s != [] {
      SumFacts(s[1..]);
      assert forall i :: 1 <= i < |s| ==> s[1..][i - 1] == s[i];
    }
  }

  /** A session still in progress adds nothing to the day's sleep total. */
  lemma OpenSessionAddsNothing(rows: seq<SleepRecord>, babyId: int, startTime: int, r: SleepRecord)
    requires r.endTime.None?
    ensures GetTodaySleepDuration(rows + [r], babyId, startTime) == GetTodaySleepDuration(rows, babyId, startTime)
  {
    var p := StartedSince(babyId, startTime);
    FilterAppend(rows, [r], p);
    SumOfAppend(Filter(rows, p), Filter([r], p), SessionLength);
    SumOfZeros(Filter([r], p), SessionLength);
  }

  /** A closed session of the baby since `startTime` adds exactly its length. */
  lemma ClosedSessionAddsItsLength(rows: seq<SleepRecord>, babyId: int, startTime: int, r: SleepRecord)
    requires r.babyId == babyId && r.startTime >= startTime && r.endTime.Some?
    ensures GetTodaySleepDuration(rows + [r], babyId, startTime)
            == GetTodaySleepDuration(rows, babyId, startTime) + (r.endTime.value - r.startTime)
  {
    var p := StartedSince(babyId, startTime);
    FilterAppend(rows, [r], p);
    assert Filter([r], p) == [r];
    SumOfAppend(Filter(rows, p), [r], SessionLength);
  }

  /** A session of another baby, or one that started before `startTime`, adds nothing to the total. */
  lemma OtherSessionAddsNothing(rows: seq<SleepRecord>, babyId: int, startTime: int, r: SleepRecord)
    requires !(r.babyId == babyId && r.startTime >= startTime)
    ensures GetTodaySleepDuration(rows + [r], babyId, startTime) == GetTodaySleepDuration(rows, babyId, startTime)
  {
    var p := StartedSince(babyId, startTime);
    FilterAppend(rows, [r], p);
    assert Filter([r], p) == [];
    assert Filter(rows, p) + [] == Filter(rows, p);
  }
}
