/**
 * The feeding screen's view model: it starts a feeding (an open record), stops the one it holds
 * (its end time is filled in), and passes edits and deletions to the `feeding_records` table.
 * Each handler is one `launchCoroutine` block run to completion; `System.currentTimeMillis()` is
 * the parameter `nowMillis`, read once per handler, and the foreign key checks against `babyIds`.
 */
module FeedingViewModel {
  import opened Wrappers
  import opened Entities
  import opened ErrorHandler
  import opened Query
  import opened Tables
  import opened FeedingRecordDao
  import opened BaseViewModel

  datatype FeedingViewState = FeedingViewState(
    currentFeeding: Option<FeedingRecord>,
    isFeeding: bool,
    isLoading: bool,
    error: Option<string>)

  const InitViewState := FeedingViewState(None, false, false, None)

  datatype FeedingEvent =
    | StartFeeding(babyId: int, feedingType: int, amount: Option<int>)
    | StopFeeding
    | UpdateFeeding(record: FeedingRecord)
    | DeleteFeeding(record: FeedingRecord)

  /** The override of `handleError`: the message is shown and loading ends; the feeding session is untouched. */
  function HandleError(s: FeedingViewState, e: Throwable): (r: FeedingViewState)
    ensures r.error == e.message && !r.isLoading
    ensures r.currentFeeding == s.currentFeeding && r.isFeeding == s.isFeeding
  {
    s.(error := e.message, isLoading := false)
  }

  /**
   * Between handlers nothing is loading, `isFeeding` says exactly whether a feeding is held, and a
   * held feeding is a stored (nonzero key) record that is still open.
   */
  predicate Settled(s: FeedingViewState) {
    && !s.isLoading
    && (s.isFeeding <==> s.currentFeeding.Some?)
    && (s.currentFeeding.Some? ==> s.currentFeeding.value.endTime.None? && s.currentFeeding.value.id != 0)
  }

  /** The record `startFeeding` builds: no key yet, no end, and the defaults for side, note and `createdAt`. */
  function NewFeeding(babyId: int, feedingType: int, amount: Option<int>, nowMillis: int): (r: FeedingRecord)
    ensures r.id == 0 && r.babyId == babyId && r.feedingType == feedingType && r.amount == amount
    ensures r.startTime == nowMillis && r.endTime.None? && r.side.None? && r.note.None?
  {
    FeedingRecord(0, babyId, nowMillis, None, feedingType, amount, None, None, nowMillis)
  }

  /** A failure in any handler leaves a settled state settled. */
  lemma ErrorKeepsSettled(s: FeedingViewState, e: Throwable)
    requires Settled(s)
    ensures Settled(Settle(Outcome(s.(isLoading := true), Some(e)), HandleError))
  {
  }

  class FeedingViewModel {
    var state: FeedingViewState
    /** The `feeding_records` table behind the repository. */
    const records: Table<FeedingRecord>

    ghost predicate Valid()
      reads this, records
    {
      && records.Valid() && records.idOf == FeedingId && records.ownerOf == FeedingOwner && records.withId == WithId
      && Settled(state)
    }

    constructor(records: Table<FeedingRecord>)
      requires records.Valid() && records.idOf == FeedingId && records.ownerOf == FeedingOwner && records.withId == WithId
      ensures Valid() && state == InitViewState && this.records == records
    {
      this.records := records;
      state := InitViewState;
    }

    /**
     * `startFeeding`: one open record is appended and becomes the current feeding under its new key.
     * A feeding already held is dropped from the state but stays open in the table. An unknown baby
     * makes the insert throw: only `error` changes.
     */
    method StartFeeding(babyId: int, feedingType: int, amount: Option<int>, nowMillis: int, babyIds: set<int>)
      requires Valid()
      modifies this, records
      ensures Valid()
      ensures babyId in babyIds ==>
                && |records.rows| == |old(records.rows)| + 1
                && var stored := records.rows[|records.rows| - 1];
                && records.rows == old(records.rows) + [stored]
                && stored == NewFeeding(babyId, feedingType, amount, nowMillis).(id := stored.id)
                && stored.id !in Ids(old(records.rows), FeedingId)
                && state == old(state).(isLoading := false, isFeeding := true, currentFeeding := Some(stored))
      ensures babyId !in babyIds ==>
                && records.rows == old(records.rows)
                && state == old(state).(error := ForeignKeyViolation.message)
    {
      var loading := state.(isLoading := true);
      var record := NewFeeding(babyId, feedingType, amount, nowMillis);
      var id := records.Insert(record, babyIds);
      if id.Failure? {
        state := Settle(Outcome(loading, Some(id.error)), HandleError);
      } else {
        state := Settle(Outcome(loading.(isLoading := false, isFeeding := true, currentFeeding := Some(record.(id := id.value))), None), HandleError);
      }
    }

    /**
     * `stopFeeding`: without a current feeding nothing happens. Otherwise the current record, with
     * only its end time set, replaces the stored row and the session ends; if the update throws,
     * the session stays as it was and `error` is set.
     */
    method StopFeeding(nowMillis: int, babyIds: set<int>)
      requires Valid()
      modifies this, records
      ensures Valid()
      ensures old(state.currentFeeding).None? ==> state == old(state) && records.rows == old(records.rows)
      ensures old(state.currentFeeding).Some? ==>
                var updated := old(state.currentFeeding).value.(endTime := Some(nowMillis));
                if updated.babyId in babyIds || updated.id !in Ids(old(records.rows), FeedingId) then
                  && records.rows == ReplaceById(old(records.rows), updated, FeedingId)
                  && state == old(state).(isFeeding := false, currentFeeding := None)
                else
                  && records.rows == old(records.rows)
                  && state == old(state).(error := ForeignKeyViolation.message)
    {
      if state.currentFeeding.None? {
        return;
      }
      var loading := state.(isLoading := true);
      var updated := state.currentFeeding.value.(endTime := Some(nowMillis));
      var done := records.Update(updated, babyIds);
      if done.Failure? {
        state := Settle(Outcome(loading, Some(done.error)), HandleError);
      } else {
        state := Settle(Outcome(loading.(isLoading := false, isFeeding := false, currentFeeding := None), None), HandleError);
      }
    }

    /** `updateFeeding`: the record goes to the table unchanged; only a thrown update touches the state. */
    method UpdateFeeding(record: FeedingRecord, babyIds: set<int>)
      requires Valid()
      modifies this, records
      ensures Valid()
      ensures record.babyId in babyIds || record.id !in Ids(old(records.rows), FeedingId) ==>
                records.rows == ReplaceById(old(records.rows), record, FeedingId) && state == old(state)
      ensures record.babyId !in babyIds && record.id in Ids(old(records.rows), FeedingId) ==>
                records.rows == old(records.rows) && state == old(state).(error := ForeignKeyViolation.message)
    {
      var loading := state.(isLoading := true);
      var done := records.Update(record, babyIds);
      if done.Failure? {
        state := Settle(Outcome(loading, Some(done.error)), HandleError);
      } else {
        state := Settle(Outcome(loading.(isLoading := false), None), HandleError);
      }
    }

    /** `deleteFeeding`: the row with the record's key goes; the state, the current feeding included, stays. */
    method DeleteFeeding(record: FeedingRecord)
      requires Valid()
      modifies this, records
      ensures Valid()
      ensures records.rows == RemoveById(old(records.rows), record.id, FeedingId) && state == old(state)
    {
      var loading := state.(isLoading := true);
      records.Delete(record);
      state := Settle(Outcome(loading.(isLoading := false), None), HandleError);
    }

    /** `handleEvent`: each event goes to its handler. */
    method HandleEvent(event: FeedingEvent, nowMillis: int, babyIds: set<int>)
      requires Valid()
      modifies this, records
      ensures Valid()
    {
      match event
      case StartFeeding(babyId, feedingType, amount) => StartFeeding(babyId, feedingType, amount, nowMillis, babyIds);
      case StopFeeding => StopFeeding(nowMillis, babyIds);
      case UpdateFeeding(record) => UpdateFeeding(record, babyIds);
      case DeleteFeeding(record) => DeleteFeeding(record);
    }
  }
}
