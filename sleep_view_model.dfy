/**
 * The sleep screen's view model: it starts a sleep (an open record without quality), stops the one
 * it holds (end time and quality are written), and passes edits and deletions to the
 * `sleep_records` table. Each handler is one `launchCoroutine` block run to completion;
 * `System.currentTimeMillis()` is the parameter `nowMillis` and the foreign key checks against `babyIds`.
 */
module SleepViewModel {
  import opened Wrappers
  import opened Entities
  import opened ErrorHandler
  import opened Query
  import opened Tables
  import opened SleepRecordDao
  import opened BaseViewModel

  datatype SleepViewState = SleepViewState(
    currentSleep: Option<SleepRecord>,
    isSleeping: bool,
    isLoading: bool,
    error: Option<string>)

  const InitViewState := SleepViewState(None, false, false, None)

  datatype SleepEvent =
    | StartSleep(babyId: int)
    | StopSleep(quality: Option<int>)
    | UpdateSleep(record: SleepRecord)
    | DeleteSleep(record: SleepRecord)

  /** The override of `handleError`: the message is shown and loading ends; the sleep session is untouched. */
  function HandleError(s: SleepViewState, e: Throwable): (r: SleepViewState)
    ensures r.error == e.message && !r.isLoading
    ensures r.currentSleep == s.currentSleep && r.isSleeping == s.isSleeping
  {
    s.(error := e.message, isLoading := false)
  }

  /**
   * Between handlers nothing is loading, `isSleeping` says exactly whether a sleep is held, and a
   * held sleep is a stored (nonzero key) record that is still open.
   */
  predicate Settled(s: SleepViewState) {
    && !s.isLoading
    && (s.isSleeping <==> s.currentSleep.Some?)
    && (s.currentSleep.Some? ==> s.currentSleep.value.endTime.None? && s.currentSleep.value.id != 0)
  }

  /** The record `startSleep` builds: no key yet, no end, no quality, no note. */
  function NewSleep(babyId: int, nowMillis: int): (r: SleepRecord)
    ensures r.id == 0 && r.babyId == babyId && r.startTime == nowMillis
    ensures r.endTime.None? && r.quality.None? && r.note.None?
  {
    SleepRecord(0, babyId, nowMillis, None, None, None, nowMillis)
  }

  /** The record `stopSleep` writes back: the end time set and the quality replaced, even by `null`. */
  function Stopped(r: SleepRecord, quality: Option<int>, nowMillis: int): (u: SleepRecord)
    ensures u.endTime == Some(nowMillis) && u.quality == quality
    ensures u == r.(endTime := u.endTime, quality := u.quality)
  {
    r.(endTime := Some(nowMillis), quality := quality)
  }

  /** A failure in any handler leaves a settled state settled. */
  lemma ErrorKeepsSettled(s: SleepViewState, e: Throwable)
    requires Settled(s)
    ensures Settled(Settle(Outcome(s.(isLoading := true), Some(e)), HandleError))
  {
  }

  class SleepViewModel {
    var state: SleepViewState
    /** The `sleep_records` table behind the repository. */
    const records: Table<SleepRecord>

    ghost predicate Valid()
      reads this, records
    {
      && records.Valid() && records.idOf == SleepId && records.ownerOf == SleepOwner && records.withId == WithId
      && Settled(state)
    }

    constructor(records: Table<SleepRecord>)
      requires records.Valid() && records.idOf == SleepId && records.ownerOf == SleepOwner && records.withId == WithId
      ensures Valid() && state == InitViewState && this.records == records
    {
      this.records := records;
      state := InitViewState;
    }

    /**
     * `startSleep`: one open record is appended and becomes the current sleep under its new key;
     * a sleep already held stays open in the table. An unknown baby makes the insert throw: only
     * `error` changes.
     */
    method StartSleep(babyId: int, nowMillis: int, babyIds: set<int>)
      requires Valid()
      modifies this, records
      ensures Valid()
      ensures babyId in babyIds ==>
                && |records.rows| == |old(records.rows)| + 1
                && var stored := records.rows[|records.rows| - 1];
                && records.rows == old(records.rows) + [stored]
                && stored == NewSleep(babyId, nowMillis).(id := stored.id)
                && stored.id !in Ids(old(records.rows), SleepId)
                && state == old(state).(isLoading := false, isSleeping := true, currentSleep := Some(stored))
      ensures babyId !in babyIds ==>
                && records.rows == old(records.rows)
                && state == old(state).(error := ForeignKeyViolation.message)
    {
      var loading := state.(isLoading := true);
      var record := NewSleep(babyId, nowMillis);
      var id := records.Insert(record, babyIds);
      if id.Failure? {
        state := Settle(Outcome(loading, Some(id.error)), HandleError);
      } else {
        state := Settle(Outcome(loading.(isLoading := false, isSleeping := true, currentSleep := Some(record.(id := id.value))), None), HandleError);
      }
    }

    /**
     * `stopSleep`: without a current sleep nothing happens. Otherwise the `Stopped` record replaces
     * the stored row and the session ends; if the update throws, the session stays and `error` is set.
     */
    method StopSleep(quality: Option<int>, nowMillis: int, babyIds: set<int>)
      requires Valid()
      modifies this, records
      ensures Valid()
      ensures old(state.currentSleep).None? ==> state == old(state) && records.rows == old(records.rows)
      ensures old(state.currentSleep).Some? ==>
                var updated := Stopped(old(state.currentSleep).value, quality, nowMillis);
                if updated.babyId in babyIds || updated.id !in Ids(old(records.rows), SleepId) then
                  && records.rows == ReplaceById(old(records.rows), updated, SleepId)
                  && state == old(state).(isSleeping := false, currentSleep := None)
                else
                  && records.rows == old(records.rows)
                  && state == old(state).(error := ForeignKeyViolation.message)
    {
      if state.currentSleep.None? {
        return;
      }
      var loading := state.(isLoading := true);
      var updated := Stopped(state.currentSleep.value, quality, nowMillis);
      var done := records.Update(updated, babyIds);
      if done.Failure? {
        state := Settle(Outcome(loading, Some(done.error)), HandleError);
      } else {
        state := Settle(Outcome(loading.(isLoading := false, isSleeping := false, currentSleep := None), None), HandleError);
      }
    }

    /** `updateSleep`: the record goes to the table unchanged; only a thrown update touches the state. */
    method UpdateSleep(record: SleepRecord, babyIds: set<int>)
      requires Valid()
      modifies this, records
      ensures Valid()
      ensures record.babyId in babyIds || record.id !in Ids(old(records.rows), SleepId) ==>
                records.rows == ReplaceById(old(records.rows), record, SleepId) && state == old(state)
      ensures record.babyId !in babyIds && record.id in Ids(old(records.rows), SleepId) ==>
                records.rows == old(records.rows) && state == old(state).(error := ForeignKeyViolation.message)
    {
      var loading := state.(isLoading := true);
      var done := records.Update(record, babyIds);
      if done.Failure? {
        state := Settle(Outcome(loading, Some(done.error)), HandleError);
      } else {
        state := Settle(Outcome(loading.(isLoading := false), None), HandleError);
      }
    }

    /** `deleteSleep`: the row with the record's key goes; the state, the current sleep included, stays. */
    method DeleteSleep(record: SleepRecord)
      requires Valid()
      modifies this, records
      ensures Valid()
      ensures records.rows == RemoveById(old(records.rows), record.id, SleepId) && state == old(state)
    {
      var loading := state.(isLoading := true);
      records.Delete(record);
      state := Settle(Outcome(loading.(isLoading := false), None), HandleError);
    }

    /** `handleEvent`: each event goes to its handler. */
    method HandleEvent(event: SleepEvent, nowMillis: int, babyIds: set<int>)
      requires Valid()
      modifies this, records
      ensures Valid()
    {
      match event
      case StartSleep(babyId) => StartSleep(babyId, nowMillis, babyIds);
      case StopSleep(quality) => StopSleep(quality, nowMillis, babyIds);
      case UpdateSleep(record) => UpdateSleep(record, babyIds);
      case DeleteSleep(record) => DeleteSleep(record);
    }
  }
}
