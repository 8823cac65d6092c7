/**
 * The settings screen's view model: appearance and reminder preferences, each persisted before
 * the screen shows it, and the data export and import runs. The preference store is the field
 * `stored`; whether writing it throws is the parameter `fault`.
 */
module SettingsViewModel {
  import opened Wrappers
  import opened Entities
  import opened ErrorHandler
  import opened Query
  import opened Tables
  import opened Charts
  import DataExportImport
  import PdfExporter

  /** A `LocalTime` of the quiet hours, to the minute. */
  datatype LocalTime = LocalTime(hour: int, minute: int)

  datatype ReminderType = Feeding | Sleep | Diaper | Medicine

  datatype RecordType = FeedingRecords | SleepRecords | DiaperRecords | MedicineRecords | WaterRecords | GrowthRecords

  datatype ReminderSettings = ReminderSettings(
    feedingInterval: int,
    feedingEnabled: bool,
    sleepEnabled: bool,
    diaperEnabled: bool,
    medicineEnabled: bool,
    quietHoursEnabled: bool,
    quietHoursStart: LocalTime,
    quietHoursEnd: LocalTime)

  /** A progress report `done / total`, which the screen receives as a `Float`. */
  datatype Fraction = Fraction(done: int, total: int)

  datatype SettingsViewState = SettingsViewState(
    darkMode: bool,
    notificationsEnabled: bool,
    reminderSettings: ReminderSettings,
    exportProgress: Option<Fraction>,
    importProgress: Option<Fraction>,
    showExportTypeDialog: bool,
    showImportDialog: bool,
    isLoading: bool,
    error: Option<string>)

  /** What the preference store holds. */
  datatype Preferences = Preferences(darkMode: bool, notificationsEnabled: bool, reminderSettings: ReminderSettings)

  datatype SettingsEvent =
    | UpdateDarkMode(enabled: bool)
    | UpdateNotifications(enabled: bool)
    | UpdateFeedingInterval(minutes: int)
    | UpdateReminderEnabled(reminder: ReminderType, enabled: bool)
    | UpdateQuietHours(start: LocalTime, end: LocalTime)
    | ExportData
    | ImportData
    | ClearData
    | SelectExportTypes(types: set<RecordType>)

  /** `ReminderSettings()`: a feeding reminder every 180 minutes, every reminder on, quiet from 22:00 to 06:00. */
  function DefaultReminders(): (r: ReminderSettings)
    ensures r.feedingInterval == 180
    ensures forall t :: ReminderEnabled(r, t)
    ensures r.quietHoursEnabled && r.quietHoursStart == LocalTime(22, 0) && r.quietHoursEnd == LocalTime(6, 0)
  {
    ReminderSettings(180, true, true, true, true, true, LocalTime(22, 0), LocalTime(6, 0))
  }

  /** `SettingsViewState()`: light mode, notifications on, the default reminders, nothing in progress. */
  function InitViewState(): (s: SettingsViewState)
    ensures !s.darkMode && s.notificationsEnabled && s.reminderSettings == DefaultReminders()
    ensures s.exportProgress.None? && s.importProgress.None?
    ensures !s.showExportTypeDialog && !s.showImportDialog && !s.isLoading && s.error.None?
  {
    SettingsViewState(false, true, DefaultReminders(), None, None, false, false, false, None)
  }

  /** The flag that reminder type `t` reads. */
  function ReminderEnabled(r: ReminderSettings, t: ReminderType): bool {
    match t
    case Feeding => r.feedingEnabled
    case Sleep => r.sleepEnabled
    case Diaper => r.diaperEnabled
    case Medicine => r.medicineEnabled
  }

  /** Everything but the four flags: the interval and the quiet hours. */
  predicate SameSchedule(a: ReminderSettings, b: ReminderSettings) {
    && a.feedingInterval == b.feedingInterval
    && a.quietHoursEnabled == b.quietHoursEnabled
    && a.quietHoursStart == b.quietHoursStart
    && a.quietHoursEnd == b.quietHoursEnd
  }

  /** `updateReminderEnabled`'s new settings: exactly the flag of `t` changes. */
  function WithReminder(r: ReminderSettings, t: ReminderType, enabled: bool): (n: ReminderSettings)
    ensures ReminderEnabled(n, t) == enabled
    ensures forall u :: u != t ==> ReminderEnabled(n, u) == ReminderEnabled(r, u)
    ensures SameSchedule(n, r)
  {
    match t
    case Feeding => r.(feedingEnabled := enabled)
    case Sleep => r.(sleepEnabled := enabled)
    case Diaper => r.(diaperEnabled := enabled)
    case Medicine => r.(medicineEnabled := enabled)
  }

  /** Setting a flag to what it already says changes nothing, and setting it twice keeps the last. */
  lemma WithReminderLaws(r: ReminderSettings, t: ReminderType, a: bool, b: bool)
    ensures WithReminder(r, t, ReminderEnabled(r, t)) == r
    ensures WithReminder(WithReminder(r, t, a), t, b) == WithReminder(r, t, b)
  {
  }

  /** `updateQuietHours`'s new settings: the quiet hours are switched on and set; nothing else changes. */
  function WithQuietHours(r: ReminderSettings, start: LocalTime, end: LocalTime): (n: ReminderSettings)
    ensures n.quietHoursEnabled && n.quietHoursStart == start && n.quietHoursEnd == end
    ensures n.feedingInterval == r.feedingInterval
    ensures forall t :: ReminderEnabled(n, t) == ReminderEnabled(r, t)
  {
    r.(quietHoursEnabled := true, quietHoursStart := start, quietHoursEnd := end)
  }

  /** `updateFeedingInterval`'s new settings: only the interval changes. */
  function WithFeedingInterval(r: ReminderSettings, minutes: int): (n: ReminderSettings)
    ensures n.feedingInterval == minutes
    ensures forall t :: ReminderEnabled(n, t) == ReminderEnabled(r, t)
    ensures n.quietHoursEnabled == r.quietHoursEnabled
    ensures n.quietHoursStart == r.quietHoursStart && n.quietHoursEnd == r.quietHoursEnd
  {
    r.(feedingInterval := minutes)
  }

  /** Where an export run ends: loading stops, the progress bar goes, and `error` reports the outcome. */
  function ExportFinished(s: SettingsViewState, outcome: Result<(), Throwable>): (r: SettingsViewState)
    ensures !r.isLoading && r.exportProgress.None?
    ensures r.error == (if outcome.Success? then None else outcome.error.message)
  {
    s.(isLoading := false, exportProgress := None, error := if outcome.Success? then None else outcome.error.message)
  }

  /** Where an import run ends: as for an export, with the import's progress bar. */
  function ImportFinished(s: SettingsViewState, outcome: Result<(), Throwable>): (r: SettingsViewState)
    ensures !r.isLoading && r.importProgress.None?
    ensures r.error == (if outcome.Success? then None else outcome.error.message)
  {
    s.(isLoading := false, importProgress := None, error := if outcome.Success? then None else outcome.error.message)
  }

  /** A finished run clears an earlier error exactly when it succeeds. */
  lemma FinishedRunReportsOutcome(s: SettingsViewState, outcome: Result<(), Throwable>)
    ensures ExportFinished(s, outcome).error.None? <==> outcome.Success? || outcome.error.message.None?
    ensures ImportFinished(s, outcome).error.None? <==> outcome.Success? || outcome.error.message.None?
  {
  }

  /** How an export ends does not depend on the loading flag or the progress shown while it ran. */
  lemma ExportFinishedIgnoresProgress(s: SettingsViewState, t: SettingsViewState)
    requires t == s.(isLoading := t.isLoading, exportProgress := t.exportProgress)
    ensures forall outcome :: ExportFinished(t, outcome) == ExportFinished(s, outcome)
  {
  }

  /** How an import ends does not depend on the loading flag or the progress shown while it ran. */
  lemma ImportFinishedIgnoresProgress(s: SettingsViewState, t: SettingsViewState)
    requires t == s.(isLoading := t.isLoading, importProgress := t.importProgress)
    ensures forall outcome :: ImportFinished(t, outcome) == ImportFinished(s, outcome)
  {
  }

  /** The rows after `before` are the first items, in order, each under the key the table gave it. */
  ghost predicate Appended<T(!new)>(t: Table<T>, before: seq<T>, items: seq<T>)
    reads t
  {
    && |before| <= |t.rows| <= |before| + |items|
    && t.rows[..|before|] == before
    && forall j :: 0 <= j < |t.rows| - |before| ==> t.rows[|before| + j] == t.withId(items[j], t.idOf(t.rows[|before| + j]))
  }

  /**
   * `forEach { repository.insert(it) }`: the items are inserted in order until one throws. `k` is
   * how many went in; they are the new rows, each under the key the table gave it, and the run
   * succeeds exactly when all of them did. The first item that did not go in is one the insert
   * refuses: an unknown owner or a key already used.
   */
  method InsertAll<T(!new)>(t: Table<T>, items: seq<T>, babyIds: set<int>)
    returns (res: Result<(), Throwable>, ghost k: nat)
    requires t.Valid()
    modifies t
    ensures t.Valid()
    ensures k <= |items| && (res.Success? <==> k == |items|)
    ensures |t.rows| == |old(t.rows)| + k && t.rows[..|old(t.rows)|] == old(t.rows)
    ensures forall j :: 0 <= j < k ==>
              t.ownerOf(items[j]) in babyIds && t.rows[|old(t.rows)| + j] == t.withId(items[j], t.idOf(t.rows[|old(t.rows)| + j]))
    ensures Appended(t, old(t.rows), items)
    ensures res.Failure? ==>
              t.ownerOf(items[k]) !in babyIds || (t.idOf(items[k]) != 0 && t.idOf(items[k]) in Ids(t.rows, t.idOf))
    ensures res.Failure? ==> res == Failure(ForeignKeyViolation) || res == Failure(PrimaryKeyViolation)
  {
    ghost var before := t.rows;
    var i := 0;
    while i < |items|
      invariant t.Valid() && i <= |items|
      invariant |t.rows| == |before| + i && t.rows[..|before|] == before
      invariant forall j :: 0 <= j < i ==>
                  t.ownerOf(items[j]) in babyIds && t.rows[|before| + j] == t.withId(items[j], t.idOf(t.rows[|before| + j]))
    {
      ghost var prev := t.rows;
      var inserted := t.Insert(items[i], babyIds);
      if inserted.Failure? {
        return Failure(inserted.error), i;
      }
      assert t.rows == prev + [t.withId(items[i], inserted.value)];
      assert t.rows[..|before|] == prev[..|before|];
      i := i + 1;
    }
    k := i;
    res := Success(());
  }

  /**
   * What saving an import leaves: the feeding rows and then the sleep rows appended in order, the
   * sleeps not attempted once a feeding failed, and the state finished as a success exactly when
   * every record went in, as a constraint failure otherwise.
   */
  ghost predicate SavedAll(feedings: Table<FeedingRecord>, feedingsBefore: seq<FeedingRecord>,
                           sleeps: Table<SleepRecord>, sleepsBefore: seq<SleepRecord>,
                           data: DataExportImport.ImportData, s: SettingsViewState, before: SettingsViewState)
    reads feedings, sleeps
  {
    var fedAll := |feedings.rows| == |feedingsBefore| + |data.feedingRecords|;
    var sleptAll := |sleeps.rows| == |sleepsBefore| + |data.sleepRecords|;
    && Appended(feedings, feedingsBefore, data.feedingRecords)
    && Appended(sleeps, sleepsBefore, data.sleepRecords)
    && (!fedAll ==> sleeps.rows == sleepsBefore)
    && (fedAll && sleptAll ==> s == ImportFinished(before, Success(())))
    && (!(fedAll && sleptAll) ==>
          || s == ImportFinished(before, Failure(ForeignKeyViolation))
          || s == ImportFinished(before, Failure(PrimaryKeyViolation)))
  }

  /** The `onSuccess` block of `importData(uri)`: feedings first, then sleeps, stopping at the first insert that throws. */
  method SaveImported(data: DataExportImport.ImportData, babyIds: set<int>,
                      feedings: Table<FeedingRecord>, sleeps: Table<SleepRecord>, ghost s: SettingsViewState)
    returns (outcome: Result<(), Throwable>)
    requires feedings.Valid() && sleeps.Valid()
    modifies feedings, sleeps
    ensures feedings.Valid() && sleeps.Valid()
    ensures SavedAll(feedings, old(feedings.rows), sleeps, old(sleeps.rows), data, ImportFinished(s, outcome), s)
  {
    var fed, k := InsertAll(feedings, data.feedingRecords, babyIds);
    if fed.Failure? {
      return fed;
    }
    outcome, k := InsertAll(sleeps, data.sleepRecords, babyIds);
  }

  class SettingsViewModel {
    var state: SettingsViewState
    /** The preference store. */
    var stored: Preferences

    /** Every handler runs to completion, so between them nothing is loading. */
    ghost predicate Valid()
      reads this
    {
      !state.isLoading
    }

    /**
     * `init { loadSettings() }`: the three stored preferences are shown; if reading them throws,
     * the defaults stay and `error` is set.
     */
    constructor(stored: Preferences, fault: Option<Throwable>)
      ensures Valid() && this.stored == stored
      ensures fault.None? ==>
                state == InitViewState().(darkMode := stored.darkMode, notificationsEnabled := stored.notificationsEnabled,
                                          reminderSettings := stored.reminderSettings)
      ensures fault.Some? ==> state == InitViewState().(error := fault.value.message)
    {
      this.stored := stored;
      var loading := InitViewState().(isLoading := true);
      if fault.None? {
        state := loading.(darkMode := stored.darkMode, notificationsEnabled := stored.notificationsEnabled,
                          reminderSettings := stored.reminderSettings, isLoading := false);
      } else {
        state := loading.(error := fault.value.message, isLoading := false);
      }
    }

    /** `updateDarkMode`: the screen shows the new mode only once the store took it; a fault only sets `error`. */
    method UpdateDarkMode(enabled: bool, fault: Option<Throwable>)
      requires Valid()
      modifies this
      ensures Valid()
      ensures fault.None? ==> stored == old(stored).(darkMode := enabled) && state == old(state).(darkMode := enabled)
      ensures fault.Some? ==> stored == old(stored) && state == old(state).(error := fault.value.message)
    {
      if fault.Some? {
        state := state.(error := fault.value.message);
        return;
      }
      stored := stored.(darkMode := enabled);
      state := state.(darkMode := enabled);
    }

    /** `updateNotifications`: as `UpdateDarkMode`, for `notificationsEnabled`. */
    method UpdateNotifications(enabled: bool, fault: Option<Throwable>)
      requires Valid()
      modifies this
      ensures Valid()
      ensures fault.None? ==>
                stored == old(stored).(notificationsEnabled := enabled) && state == old(state).(notificationsEnabled := enabled)
      ensures fault.Some? ==> stored == old(stored) && state == old(state).(error := fault.value.message)
    {
      if fault.Some? {
        state := state.(error := fault.value.message);
        return;
      }
      stored := stored.(notificationsEnabled := enabled);
      state := state.(notificationsEnabled := enabled);
    }

    /** `setReminderSettings(newSettings)`, then `newSettings` on screen; a fault only sets `error`. */
    method PersistReminders(newSettings: ReminderSettings, fault: Option<Throwable>)
      requires Valid()
      modifies this
      ensures Valid()
      ensures fault.None? ==>
                stored == old(stored).(reminderSettings := newSettings) && state == old(state).(reminderSettings := newSettings)
      ensures fault.Some? ==> stored == old(stored) && state == old(state).(error := fault.value.message)
    {
      if fault.Some? {
        state := state.(error := fault.value.message);
        return;
      }
      stored := stored.(reminderSettings := newSettings);
      state := state.(reminderSettings := newSettings);
    }

    method UpdateFeedingInterval(minutes: int, fault: Option<Throwable>)
      requires Valid()
      modifies this
      ensures Valid()
      ensures fault.None? ==>
                && stored == old(stored).(reminderSettings := WithFeedingInterval(old(state.reminderSettings), minutes))
                && state == old(state).(reminderSettings := WithFeedingInterval(old(state.reminderSettings), minutes))
      ensures fault.Some? ==> stored == old(stored) && state == old(state).(error := fault.value.message)
    {
      PersistReminders(WithFeedingInterval(state.reminderSettings, minutes), fault);
    }

    method UpdateReminderEnabled(reminder: ReminderType, enabled: bool, fault: Option<Throwable>)
      requires Valid()
      modifies this
      ensures Valid()
      ensures fault.None? ==>
                && stored == old(stored).(reminderSettings := WithReminder(old(state.reminderSettings), reminder, enabled))
                && state == old(state).(reminderSettings := WithReminder(old(state.reminderSettings), reminder, enabled))
      ensures fault.Some? ==> stored == old(stored) && state == old(state).(error := fault.value.message)
    {
      PersistReminders(WithReminder(state.reminderSettings, reminder, enabled), fault);
    }

    method UpdateQuietHours(start: LocalTime, end: LocalTime, fault: Option<Throwable>)
      requires Valid()
      modifies this
      ensures Valid()
      ensures fault.None? ==>
                && stored == old(stored).(reminderSettings := WithQuietHours(old(state.reminderSettings), start, end))
                && state == old(state).(reminderSettings := WithQuietHours(old(state.reminderSettings), start, end))
      ensures fault.Some? ==> stored == old(stored) && state == old(state).(error := fault.value.message)
    {
      PersistReminders(WithQuietHours(state.reminderSettings, start, end), fault);
    }

    /** `exportData()`, `importData()` and `clearData()` are placeholders: loading starts and stops, nothing else. */
    method Placeholder()
      requires Valid()
      modifies this
      ensures Valid() && state == old(state) && stored == old(stored)
    {
      state := state.(isLoading := true);
      state := state.(isLoading := false);
    }

    /**
     * `exportData(uri)`: the CSV exporter runs on the selected records and the run's result
     * settles the state. Which records are selected is the parameter `data`.
     */
    method ExportToFile(sink: DataExportImport.Sink, data: DataExportImport.ExportData, tt: DataExportImport.TimeText,
                        sleepRow: SleepRecord -> DataExportImport.Row)
      requires Valid()
      modifies this
      ensures Valid() && stored == old(stored)
      ensures sink.Unopenable? ==> state == ExportFinished(old(state), Failure(DataExportImport.FileNotFound))
      ensures sink.Missing? ==> state == ExportFinished(old(state), Success(()))
      ensures sink.Open? ==> state == ExportFinished(old(state), DataExportImport.Closing(sink.closeFault))
    {
      state := state.(isLoading := true);
      var written, progress, result := DataExportImport.ExportToCsv(sink, data, tt, sleepRow);
      if |progress| > 0 {
        state := state.(exportProgress := Some(Fraction(progress[|progress| - 1], DataExportImport.GetTotalCount(data))));
      }
      ExportFinishedIgnoresProgress(old(state), state);
      state := ExportFinished(state, result);
    }

    /**
     * `exportToPdf(uri, types, includeCharts)`: the charts are generated only when asked for, the
     * PDF exporter runs, and its result settles the state.
     */
    method ExportToPdf(sink: DataExportImport.Sink, data: DataExportImport.ExportData, includeCharts: bool,
                       generated: seq<Bitmap>, tt: DataExportImport.TimeText)
      requires Valid()
      modifies this
      ensures Valid() && stored == old(stored)
      ensures sink.Unopenable? ==> state == ExportFinished(old(state), Failure(DataExportImport.FileNotFound))
      ensures sink.Missing? ==> state == ExportFinished(old(state), Success(()))
      ensures sink.Open? ==> state == ExportFinished(old(state), DataExportImport.Closing(sink.closeFault))
    {
      state := state.(isLoading := true);
      var charts := if includeCharts then Some(generated) else None;
      var items, progress, totalSections, result := PdfExporter.ExportToPdf(sink, data, charts, tt);
      if |progress| > 0 {
        state := state.(exportProgress := Some(Fraction(progress[|progress| - 1], totalSections)));
      }
      ExportFinishedIgnoresProgress(old(state), state);
      state := ExportFinished(state, result);
    }

    /**
     * The `onSuccess` / `onFailure` blocks of `importData(uri)`: a parse failure ends the run with
     * its message and writes nothing; parsed data is saved as `SaveImported` says.
     */
    method SettleImport(result: Result<DataExportImport.ImportData, Throwable>, babyIds: set<int>,
                        feedings: Table<FeedingRecord>, sleeps: Table<SleepRecord>, ghost before: SettingsViewState)
      requires feedings.Valid() && sleeps.Valid()
      requires state == before.(isLoading := state.isLoading, importProgress := state.importProgress)
      modifies this, feedings, sleeps
      ensures Valid() && feedings.Valid() && sleeps.Valid() && stored == old(stored)
      ensures result.Failure? ==>
                && feedings.rows == old(feedings.rows) && sleeps.rows == old(sleeps.rows)
                && state == ImportFinished(before, Failure(result.error))
      ensures result.Success? ==>
                SavedAll(feedings, old(feedings.rows), sleeps, old(sleeps.rows), result.value, state, before)
    {
      ImportFinishedIgnoresProgress(before, state);
      if result.Failure? {
        state := ImportFinished(state, Failure(result.error));
        return;
      }
      var saved := SaveImported(result.value, babyIds, feedings, sleeps, before);
      state := ImportFinished(state, saved);
    }

    /**
     * `importData(uri)`: the CSV is parsed; on success its feeding records and then its sleep
     * records are inserted one by one, and an insert that throws ends the run with its message,
     * leaving the rows inserted before it. The other record kinds are not saved.
     */
    method ImportFromFile(source: DataExportImport.Source, dec: DataExportImport.Decoders, babyIds: set<int>,
                          feedings: Table<FeedingRecord>, sleeps: Table<SleepRecord>)
      requires Valid() && feedings.Valid() && sleeps.Valid()
      modifies this, feedings, sleeps
      ensures Valid() && feedings.Valid() && sleeps.Valid() && stored == old(stored)
      ensures DataExportImport.ParseSource(source, dec).Failure? ==>
                && feedings.rows == old(feedings.rows) && sleeps.rows == old(sleeps.rows)
                && state == ImportFinished(old(state), Failure(DataExportImport.ParseSource(source, dec).error))
      ensures DataExportImport.ParseSource(source, dec).Success? ==>
                SavedAll(feedings, old(feedings.rows), sleeps, old(sleeps.rows),
                         DataExportImport.ParseSource(source, dec).value, state, old(state))
      ensures source.Absent? ==> state == ImportFinished(old(state), Success(()))
    {
      state := state.(isLoading := true);
      var result, progress, totalLines := DataExportImport.ImportFromCsv(source, dec);
      if |progress| > 0 {
        state := state.(importProgress := Some(Fraction(progress[|progress| - 1], totalLines)));
      }
      assert result == DataExportImport.ParseSource(source, dec);
      assert feedings.rows == old(feedings.rows) && sleeps.rows == old(sleeps.rows);
      SettleImport(result, babyIds, feedings, sleeps, old(state));
    }

    /** `handleEvent` for the events that need no file: the rest are `ExportToFile`, `ExportToPdf` and `ImportFromFile`. */
    method HandleEvent(event: SettingsEvent, fault: Option<Throwable>)
      requires Valid()
      modifies this
      ensures Valid()
      ensures event.SelectExportTypes? || event.ExportData? || event.ImportData? || event.ClearData? ==>
                state == old(state) && stored == old(stored)
    {
      match event
      case UpdateDarkMode(enabled) => UpdateDarkMode(enabled, fault);
      case UpdateNotifications(enabled) => UpdateNotifications(enabled, fault);
      case UpdateFeedingInterval(minutes) => UpdateFeedingInterval(minutes, fault);
      case UpdateReminderEnabled(reminder, enabled) => UpdateReminderEnabled(reminder, enabled, fault);
      case UpdateQuietHours(start, end) => UpdateQuietHours(start, end, fault);
      case ExportData => Placeholder();
      case ImportData => Placeholder();
      case ClearData => Placeholder();
      case SelectExportTypes(_) =>
    }
  }
}
