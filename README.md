# Baby care app: a Dafny model of its data layer, codecs and view models

This project models the core of an Android baby care app, written in Kotlin. The app records
feedings, sleeps, diapers, medicine, water and growth for one or more babies. It also shows
statistics and growth trends, and it exports the records to CSV and PDF and imports them back
from CSV.

The model covers:

- **Rows and tables** (`entities.dfy`, `tables.dfy`, `baby_dao.dfy`, one `*_dao.dfy` per record
  table):
  - Each Room entity is a datatype.
  - Each table is a class holding its rows and its autoincrement counter.
  - Each DAO query is a function of the rows: `WHERE`, `COUNT`, `SUM`, `ORDER BY ... DESC`.
  - The writes are `@Insert`, `@Update`, `@Delete` and `DELETE ... WHERE babyId`, with the foreign
    key check and the primary key check.
  - Deleting a baby cascades (`ON DELETE CASCADE`) to the six record tables.
- **JVM number semantics** (`numbers.dfy`): 32-bit `Int` narrowing, `/` and `%` that truncate
  toward zero, `toString()` and `toIntOrNull()`, with the round trip between the last two.
- **The CSV codec** (`data_export_import.dfy`):
  - the feeding row encoder and decoder, with their round trip;
  - the export layout and its progress reports;
  - the section-tracking import parser, with the property that importing a feeding-only export
    gives back the decoded records.
- **The PDF report** (`pdf_exporter.dfy`): the items added to the document in order, the feeding
  table's cells (checked against the CSV cells), and the progress reports.
- **Statistics and growth** (`statistics.dfy`, `growth.dfy`, with `calendar.dfy` and `charts.dfy`):
  - the feeding aggregates, computed with `Int` wrap-around;
  - the reporting periods, the period before them, and growth trends;
  - the statistics and growth view models.
- **View models** (`base_view_model.dfy`, `feeding_view_model.dfy`, `sleep_view_model.dfy`,
  `baby_manage_view_model.dfy`, `baby_view_model.dfy`, `settings_view_model.dfy`):
  - `launchCoroutine` together with `handleError`;
  - each screen's state machine, distilled through the tables it writes.
- **Screen helpers** (`baby_manage_screen.dfy`, `baby_edit_dialog.dfy`, `extensions.dfy`,
  `error_handler.dfy`):
  - grouping babies by initial;
  - highlighting the current baby;
  - the gender label;
  - the edit dialog's change, save and exit-confirmation rules;
  - `toDurationString`;
  - `ErrorHandler.getErrorMessage`.

The program's environment appears as parameters:

- **Clocks:** `nowMillis`, `now` and `later`.
- **Month arithmetic:** `Calendar.Months`, with the laws it obeys.
- **Date formatting:** the `yyyy-MM-dd HH:mm:ss` formatter is `TimeText`; growth uses `formatDate`
  and `parseDate`.
- **Chart rendering:** `Charts.ChartGenerator`.
- **The avatar copy:** `saveImage`.
- **The preference store's faults:** `fault`.
- **The foreign key's set of baby keys:** `babyIds`.
- **Where an export or import goes:** `Sink` and `Source`, each of which may be missing, unopenable
  or open.

A coroutine block runs to completion and is represented by how it ended (`BaseViewModel.Outcome`).
The storage layer's constraint errors come from the table model itself.

Where the documented behaviour and the code disagree, the model follows the code:

- The export's last progress value is `(feedingRecords.size + sleepRecords.size) / getTotalCount()`.
  It is not 1.0 when other record lists are non-empty (`ExportProgressEnds`, `PdfProgressEnds`).
- The CSV import skips only a header whose first cell is exactly `时间` (the feeding header). The
  sleep header row is handed to the sleep decoder (`SleepHeaderIsDecoded`).
- `loadStatistics` never fills `feedingStats`, because `calculateFeedingStats` is never called.
  The aggregate is still modelled and proved on its own.
- `BabyViewModel` calls repository methods that `BabyRepository` does not declare (`getById`,
  `insert`, `update`, `delete`). It also builds `Baby(birthDate = ...)`, but the entity's field is
  `birthday`. The model takes the declared `getBabyById`, `insertBaby`, `updateBaby` and
  `deleteBaby`, and the field `birthday`.
- `FeedingRecordRepository` and `DiaperRecordRepository` call DAO methods that their DAOs do not
  declare (`getFeedingRecordsByBabyId`, `insertFeedingRecord`, `updateFeedingRecord`,
  `deleteFeedingRecord`, and the diaper counterparts). The model works on the DAOs' declared
  queries and the tables' insert, update and delete.
- `AppDatabase` lists neither `MedicineRecord` nor `WaterRecord` among its entities. Their tables
  are modelled from their entity annotations (foreign key with cascade), like the other four.
- `toDurationString` on a negative span shorter than an hour prints `0小时-30分钟` style text: the
  minus sign appears only in the minutes (`NegativeHours`, `DurationExamples`).

## Model

Source paths are relative to the repository root.

| member | source | states |
|---|---|---|
| Numbers.WrapInt | app/src/main/java/com/example/babycare/ui/statistics/StatisticsViewModel.kt:169-172 | The narrowed value fits an `Int`, differs from the exact value by a multiple of 2^32, and equals it when it already fits. |
| Numbers.Quot | app/src/main/java/com/example/babycare/utils/Extensions.kt:18 | JVM `/` by a positive divisor. A non-negative dividend gives the floor quotient. A negative dividend gives the quotient rounded toward zero (`q*b - b < a <= q*b`). |
| Numbers.Rem | app/src/main/java/com/example/babycare/utils/Extensions.kt:19 | JVM `%`: `a == Quot(a,b)*b + r`. The remainder lies in `[0,b)` for a non-negative dividend and in `(-b,0]` for a negative one. |
| Numbers.IntToString | app/src/main/java/com/example/babycare/utils/DataExportImport.kt:163-164 | `toString()` is never empty and starts with `-` exactly for negative numbers. |
| Numbers.ParseInt | app/src/main/java/com/example/babycare/utils/DataExportImport.kt:171 | `toIntOrNull()` only ever yields values that fit an `Int`. The empty cell yields `null`. |
| Numbers.IntRoundTrip | app/src/main/java/com/example/babycare/utils/DataExportImport.kt:179 | `toIntOrNull()` reads back every `Int` printed by `toString()`. |
| Numbers.ParseOutOfRange | app/src/main/java/com/example/babycare/utils/DataExportImport.kt:164 | A printed `Long` outside the `Int` range reads back as `null`, so such a duration is lost on import. |
| Query.Filter | app/src/main/java/com/example/babycare/data/dao/FeedingRecordDao.kt:13-14 | `WHERE`: every result row is a table row satisfying the condition, every such row is in the result, and the result is a sub-multiset of the table. |
| Query.Count | app/src/main/java/com/example/babycare/data/dao/FeedingRecordDao.kt:28-33 | `COUNT(*)` is at most the table size, and 0 exactly when no row matches. |
| Query.SortDesc | app/src/main/java/com/example/babycare/data/dao/BabyDao.kt:12-13 | `ORDER BY ... DESC`: the result is sorted by descending key and is a permutation of the input. |
| Query.SortDescOfSorted | app/src/main/java/com/example/babycare/ui/growth/GrowthViewModel.kt:109 | The sort is stable: re-sorting an already descending list returns it unchanged. |
| Query.SumOfPermutation | app/src/main/java/com/example/babycare/ui/statistics/StatisticsViewModel.kt:169-174 | A `SUM` does not depend on the order of the rows it adds. |
| Query.Select | app/src/main/java/com/example/babycare/data/dao/FeedingRecordDao.kt:16-26 | `SELECT * WHERE p ORDER BY key DESC` returns exactly the matching rows: as many as `COUNT`, in descending key order. |
| Query.SelectNarrow | app/src/main/java/com/example/babycare/data/dao/SleepRecordDao.kt:15-25 | A stricter condition selects a sub-multiset of what a looser one selects. |
| Query.ReplaceById | app/src/main/java/com/example/babycare/data/dao/FeedingRecordDao.kt:38-39 | `@Update` on rows: same length. The row with the given key becomes the new value, every other row is unchanged, and keys stay where they were. |
| Query.RemoveById | app/src/main/java/com/example/babycare/data/dao/FeedingRecordDao.kt:41-42 | `@Delete` on rows: exactly the rows with a different key remain, and unique keys stay unique. |
| Query.IdsAfterRemove | app/src/main/java/com/example/babycare/data/dao/BabyDao.kt:27-28 | Deleting by key removes exactly that key from the table's key set. |
| ErrorHandler.GetErrorMessage | app/src/main/java/com/example/babycare/utils/ErrorHandler.kt:10-17 | The network, database and validation exception classes each get their own message, and only they do. Only the validation message carries the exception's message as its format argument. |
| ErrorHandler.AppExceptionsAreUnknown | app/src/main/java/com/example/babycare/exception/AppException.kt:1-5 | The nested `AppException` classes are not the handler's classes, so each of them reads as an unknown error. |
| Tables.CascadeKeepsReferences | app/src/main/java/com/example/babycare/data/entity/FeedingRecord.kt:23-27 | After the cascade removes a baby's records, every remaining record refers to a remaining baby. |
| Tables.Table.constructor | app/src/main/java/com/example/babycare/data/entity/FeedingRecord.kt:20-34 | A new record table is empty, and its key, owner and key-setter are those given. |
| Tables.Table.Insert | app/src/main/java/com/example/babycare/data/dao/FeedingRecordDao.kt:35-36 | The insert fails exactly when the owner is not a known baby (foreign key error) or the nonzero key is taken (primary key error), and a failure changes nothing. On success the record is appended under a fresh nonzero key, or under its own key when nonzero, and that key is returned. The foreign key invariant is kept. |
| Tables.Table.Update | app/src/main/java/com/example/babycare/data/dao/FeedingRecordDao.kt:38-39 | The update fails (foreign key) exactly when a row has the key and the new owner is unknown, and then nothing changes. Otherwise `ReplaceById` is applied. The foreign key invariant is kept. |
| Tables.Table.Delete | app/src/main/java/com/example/babycare/data/dao/FeedingRecordDao.kt:41-42 | Removes the row with the record's key, whatever its other fields. |
| Tables.Table.DeleteAllByBaby | app/src/main/java/com/example/babycare/data/dao/FeedingRecordDao.kt:44-45 | Exactly the baby's rows go and the rest keep their order. No remaining row refers to that baby. |
| BabyDao.GetAllBabies | app/src/main/java/com/example/babycare/data/dao/BabyDao.kt:12-13 | All babies, newest `createdAt` first: a permutation of the table. |
| BabyDao.GetCurrentBaby | app/src/main/java/com/example/babycare/data/dao/BabyDao.kt:15-16 | `null` exactly when no baby is selected. Otherwise a selected baby of the table. |
| BabyDao.GetBabyById | app/src/main/java/com/example/babycare/data/dao/BabyDao.kt:18-19 | `null` exactly for an unknown key. Otherwise the table's baby with that key. |
| BabyDao.GetBabyByIdAt | app/src/main/java/com/example/babycare/data/dao/BabyDao.kt:18-19 | With unique keys, the lookup of a row's key finds exactly that row. |
| BabyDao.SelectOnly | app/src/main/java/com/example/babycare/data/dao/BabyDao.kt:30-36 | After `setCurrentBaby`, each baby is selected exactly when it has the given key, and nothing else about it changes. |
| BabyDao.SelectOnlySelectsOne | app/src/main/java/com/example/babycare/data/dao/BabyDao.kt:30-36 | With unique keys, the current baby afterwards is the named baby, marked selected, or `null` exactly when the key is unknown. No two babies are selected. |
| BabyDao.SelectOnlyIdempotent | app/src/main/java/com/example/babycare/data/dao/BabyDao.kt:30-36 | Making the same baby current twice is the same as doing it once. |
| BabyDao.BabyTable.constructor | app/src/main/java/com/example/babycare/data/entity/Baby.kt:17-27 | A new `babies` table is empty and valid. |
| BabyDao.BabyTable.Insert | app/src/main/java/com/example/babycare/data/dao/BabyDao.kt:21-22 | The insert fails exactly when the nonzero key is taken, and a failure changes nothing. On success the baby is appended under a fresh nonzero key (its own when nonzero), and no key is lost. |
| BabyDao.BabyTable.Update | app/src/main/java/com/example/babycare/data/dao/BabyDao.kt:24-25 | The row with the baby's key becomes the baby, and the key set is unchanged. |
| BabyDao.BabyTable.UpdateAllBabiesSelection | app/src/main/java/com/example/babycare/data/dao/BabyDao.kt:38-39 | Every baby gets the given `isSelected`, and nothing else changes. |
| BabyDao.BabyTable.UpdateBabySelection | app/src/main/java/com/example/babycare/data/dao/BabyDao.kt:41-42 | Only babies with the key get the given `isSelected`. |
| BabyDao.BabyTable.SetCurrentBaby | app/src/main/java/com/example/babycare/data/dao/BabyDao.kt:30-36 | The transaction (clear all, then select one) leaves `SelectOnly` of the old rows. |
| BabyDao.BabyTable.Delete | app/src/main/java/com/example/babycare/data/dao/BabyDao.kt:27-28 | The row with the baby's key goes, and exactly that key leaves the key set. |
| BabyDao.DeleteBaby | app/src/main/java/com/example/babycare/data/dao/BabyDao.kt:27-28 | The baby's row and, through `ON DELETE CASCADE`, every record of that baby in all six record tables are removed. The other rows keep their order. |
| BabyDao.Cascade | app/src/main/java/com/example/babycare/data/entity/SleepRecord.kt:20-24 | `ON DELETE CASCADE` on one record table: the baby's rows go when it existed, and the table is untouched otherwise. |
| FeedingRecordDao.NewTable | app/src/main/java/com/example/babycare/data/dao/FeedingRecordDao.kt:35-45 | The feeding table starts empty, keyed by `id` and owned through `babyId`. |
| FeedingRecordDao.GetFeedingRecordsByBaby | app/src/main/java/com/example/babycare/data/dao/FeedingRecordDao.kt:13-14 | Exactly the baby's feedings, as many as `COUNT`, latest start first. |
| FeedingRecordDao.GetFeedingRecordsByDateRange | app/src/main/java/com/example/babycare/data/dao/FeedingRecordDao.kt:16-26 | Exactly the baby's feedings that started within the inclusive range, latest first. A reversed range is empty. |
| FeedingRecordDao.RangeWithinByBaby | app/src/main/java/com/example/babycare/data/dao/FeedingRecordDao.kt:13-26 | The range query returns a sub-multiset of the by-baby query. |
| FeedingRecordDao.GetTodayFeedingCount | app/src/main/java/com/example/babycare/data/dao/FeedingRecordDao.kt:28-33 | The count never exceeds the baby's feedings, and is 0 exactly when none of them started at or after the bound. |
| SleepRecordDao.NewTable | app/src/main/java/com/example/babycare/data/dao/SleepRecordDao.kt:38-48 | The sleep table starts empty, keyed by `id` and owned through `babyId`. |
| SleepRecordDao.GetSleepRecordsByBaby | app/src/main/java/com/example/babycare/data/dao/SleepRecordDao.kt:12-13 | Exactly the baby's sleeps, latest start first. |
| SleepRecordDao.GetSleepRecordsByDateRange | app/src/main/java/com/example/babycare/data/dao/SleepRecordDao.kt:15-25 | Exactly the baby's sleeps that started within the inclusive range, latest first. A reversed range is empty. |
| SleepRecordDao.RangeWithinByBaby | app/src/main/java/com/example/babycare/data/dao/SleepRecordDao.kt:12-25 | The range query returns a sub-multiset of the by-baby query. |
| SleepRecordDao.GetTodaySleepDuration | app/src/main/java/com/example/babycare/data/dao/SleepRecordDao.kt:27-36 | The day's total is 0 when every session since the bound is still open. It is non-negative when every closed session has a non-negative length. |
| SleepRecordDao.SumFacts | app/src/main/java/com/example/babycare/data/dao/SleepRecordDao.kt:27-36 | Sums of non-negative session lengths are non-negative, and sums of open sessions are 0. |
| SleepRecordDao.OpenSessionAddsNothing | app/src/main/java/com/example/babycare/data/dao/SleepRecordDao.kt:27-36 | A session still in progress adds nothing to the day's sleep total. |
| SleepRecordDao.ClosedSessionAddsItsLength | app/src/main/java/com/example/babycare/data/dao/SleepRecordDao.kt:27-36 | A closed session of the baby since the bound adds exactly `endTime - startTime`. |
| SleepRecordDao.OtherSessionAddsNothing | app/src/main/java/com/example/babycare/data/dao/SleepRecordDao.kt:27-36 | A session of another baby, or one that started before the bound, adds nothing to the total. |
| DiaperRecordDao.NewTable | app/src/main/java/com/example/babycare/data/dao/DiaperRecordDao.kt:43-53 | The diaper table starts empty, keyed by `id` and owned through `babyId`. |
| DiaperRecordDao.GetDiaperRecordsByBaby | app/src/main/java/com/example/babycare/data/dao/DiaperRecordDao.kt:12-13 | Exactly the baby's diapers, latest first. |
| DiaperRecordDao.GetDiaperRecordsByDateRange | app/src/main/java/com/example/babycare/data/dao/DiaperRecordDao.kt:15-25 | Exactly the baby's diapers within the inclusive range, latest first. A reversed range is empty. |
| DiaperRecordDao.GetTodayWetCount | app/src/main/java/com/example/babycare/data/dao/DiaperRecordDao.kt:27-33 | Counts types 0 and 2 since the bound. It is at most the diapers since then, and 0 exactly when none of them is wet. |
| DiaperRecordDao.GetTodayDirtyCount | app/src/main/java/com/example/babycare/data/dao/DiaperRecordDao.kt:35-41 | Counts types 1 and 2 since the bound. It is at most the diapers since then, and 0 exactly when none of them is dirty. |
| DiaperRecordDao.WetPlusDirty | app/src/main/java/com/example/babycare/data/dao/DiaperRecordDao.kt:27-41 | With types in 0..2, wet plus dirty equals all diapers since the bound plus the "both" ones, which are counted twice. |
| DiaperRecordDao.WetDirtyCounts | app/src/main/java/com/example/babycare/data/dao/DiaperRecordDao.kt:27-41 | With types in 0..2, the wet count plus the dirty count equals the count of all diapers since the bound plus the count of "both" diapers. |
| WaterRecordDao.NewTable | app/src/main/java/com/example/babycare/data/dao/WaterRecordDao.kt:30-37 | The water table starts empty, keyed by `id` and owned through `babyId`. |
| WaterRecordDao.GetWaterRecordsByBabyId | app/src/main/java/com/example/babycare/data/dao/WaterRecordDao.kt:12-13 | Exactly the baby's water records, latest first. |
| WaterRecordDao.GetWaterRecordsByDateRange | app/src/main/java/com/example/babycare/data/dao/WaterRecordDao.kt:15-25 | Exactly the baby's water records within the inclusive range, latest first. A reversed range is empty. |
| WaterRecordDao.GetTotalWaterAmount | app/src/main/java/com/example/babycare/data/dao/WaterRecordDao.kt:27-28 | `null` exactly when no record is in range. Otherwise an `Int`, equal to the exact sum of the range query's amounts when that sum fits. |
| MedicineRecordDao.NewTable | app/src/main/java/com/example/babycare/data/dao/MedicineRecordDao.kt:30-37 | The medicine table starts empty, keyed by `id` and owned through `babyId`. |
| MedicineRecordDao.GetMedicineRecordsByBabyId | app/src/main/java/com/example/babycare/data/dao/MedicineRecordDao.kt:12-13 | Exactly the baby's medicine records, latest first. |
| MedicineRecordDao.GetMedicineRecordsByDateRange | app/src/main/java/com/example/babycare/data/dao/MedicineRecordDao.kt:15-25 | Exactly the baby's medicine records within the inclusive range, latest first. A reversed range is empty. |
| MedicineRecordDao.GetUpcomingReminders | app/src/main/java/com/example/babycare/data/dao/MedicineRecordDao.kt:27-28 | Exactly the records of any baby whose reminder is set and strictly after `now`. |
| MedicineRecordDao.UpcomingShrinks | app/src/main/java/com/example/babycare/data/dao/MedicineRecordDao.kt:27-28 | Asking later gives the earlier answer minus the reminders that have passed. |
| GrowthRecordDao.NewTable | app/src/main/java/com/example/babycare/data/dao/GrowthRecordDao.kt:30-37 | The growth table starts empty, keyed by `id` and owned through `babyId`. |
| GrowthRecordDao.GetGrowthRecordsByBabyId | app/src/main/java/com/example/babycare/data/dao/GrowthRecordDao.kt:12-13 | Exactly the baby's growth records, latest first. |
| GrowthRecordDao.GetGrowthRecordsByDateRange | app/src/main/java/com/example/babycare/data/dao/GrowthRecordDao.kt:15-25 | Exactly the baby's growth records within the inclusive range, latest first. A reversed range is empty. |
| GrowthRecordDao.GetLatestGrowthRecord | app/src/main/java/com/example/babycare/data/dao/GrowthRecordDao.kt:27-28 | `null` exactly when the baby has no record. Otherwise one of its records with the greatest time. |
| DataExportImport.ToCsvRow | app/src/main/java/com/example/babycare/utils/DataExportImport.kt:159-166 | Five cells. The time is the formatted epoch second, truncated. The type label is `瓶喂` exactly for type 1, and `亲喂` otherwise. The amount, duration and note cells are empty exactly when the value is absent (an empty note also gives an empty cell). |
| DataExportImport.ToFeedingRecord | app/src/main/java/com/example/babycare/utils/DataExportImport.kt:169-182 | Decoding fails exactly when the row is short or the time does not parse. A decoded record has key 0, baby 1 and no side. |
| DataExportImport.FeedingRowRoundTrip | app/src/main/java/com/example/babycare/utils/DataExportImport.kt:159-182 | Decoding an encoded record gives it back, up to the fields the file does not carry: the record has whole seconds in a four-digit year, a known type, a non-empty note, an `Int` amount and a whole-minute duration. |
| DataExportImport.PartialMinuteIsLost | app/src/main/java/com/example/babycare/utils/DataExportImport.kt:164 | A 90-second feeding comes back as 60 seconds, because the duration is written in whole minutes. |
| DataExportImport.FeedingRows | app/src/main/java/com/example/babycare/utils/DataExportImport.kt:42-46 | One CSV row per feeding record. |
| DataExportImport.SleepRows | app/src/main/java/com/example/babycare/utils/DataExportImport.kt:53-57 | One CSV row per sleep record. |
| DataExportImport.ExportLayout | app/src/main/java/com/example/babycare/utils/DataExportImport.kt:39-58 | The feeding section takes 2 + the number of feedings rows when feedings exist, and likewise the sleep section. The file is empty exactly when both lists are. |
| DataExportImport.ExportSections | app/src/main/java/com/example/babycare/utils/DataExportImport.kt:39-58 | Each section is its marker row, then its header row, then one row per record in list order. The feeding section comes first. |
| DataExportImport.Counting | app/src/main/java/com/example/babycare/utils/DataExportImport.kt:44-45 | The progress numerators are 1, 2, ..., n. |
| DataExportImport.Closing | app/src/main/java/com/example/babycare/utils/DataExportImport.kt:33-64 | Closing the stream succeeds exactly when it throws nothing, and otherwise fails with what it threw. |
| DataExportImport.ExportToCsv | app/src/main/java/com/example/babycare/utils/DataExportImport.kt:27-67 | An unopenable destination fails and writes nothing. A `null` stream writes nothing and succeeds. An open one writes `ExportLayout` and reports one progress value per feeding and sleep record. It then succeeds, or fails with what closing the stream threw. |
| DataExportImport.WriteFeedingRows | app/src/main/java/com/example/babycare/utils/DataExportImport.kt:39-47 | The feeding section goes after what was written, one row per record in order, and the progress count rises by one per record. |
| DataExportImport.WriteSleepRows | app/src/main/java/com/example/babycare/utils/DataExportImport.kt:50-58 | The sleep section goes after what was written, one row per record in order, and the progress count rises by one per record. |
| DataExportImport.ExportProgressEnds | app/src/main/java/com/example/babycare/utils/DataExportImport.kt:35-57 | Progress rises by one per record, never passes `getTotalCount()`, and ends at it exactly when the other four lists are empty. |
| DataExportImport.ImportStep | app/src/main/java/com/example/babycare/utils/DataExportImport.kt:85-104 | One row: an empty row throws. A marker row switches the section. Only the feeding and sleep lists can grow, and the section is either kept or becomes the row's first cell. |
| DataExportImport.FailureSticks | app/src/main/java/com/example/babycare/utils/DataExportImport.kt:76-111 | After a row throws, no later row is read, and the run ends with that exception. |
| DataExportImport.MarkerSetsSection | app/src/main/java/com/example/babycare/utils/DataExportImport.kt:88-90 | A row starting with `===` sets the current section and leaves the lists unchanged. |
| DataExportImport.SleepHeaderIsDecoded | app/src/main/java/com/example/babycare/utils/DataExportImport.kt:91-97 | In the sleep section the feeding header is skipped. The sleep header is passed to the sleep decoder, and it is added or thrown as that decoder says. |
| DataExportImport.RowOutsideSectionDropped | app/src/main/java/com/example/babycare/utils/DataExportImport.kt:94-99 | Outside the two known sections, a data row changes nothing. |
| DataExportImport.NoMarkersNoRecords | app/src/main/java/com/example/babycare/utils/DataExportImport.kt:77-108 | A file without marker rows imports as empty data, without error. |
| DataExportImport.CountLines | app/src/main/java/com/example/babycare/utils/DataExportImport.kt:114-122 | The number of rows. A `null` stream counts 0. An unopenable file, or a reader that throws, fails with that exception. |
| DataExportImport.ImportFromCsv | app/src/main/java/com/example/babycare/utils/DataExportImport.kt:72-112 | A readable file yields the parser's result over its rows, out of the line count. It reports one progress value per row read, and on a failure exactly the rows before the failing one. A missing stream yields empty data. An unopenable one fails, and so does a file whose reader throws, with no progress. |
| DataExportImport.ParseSource | app/src/main/java/com/example/babycare/utils/DataExportImport.kt:72-112 | No stream gives an empty import. A stream that cannot be opened, or whose reader throws, gives that failure. Otherwise the file gives exactly its rows' import: its data on success, its first error otherwise. |
| DataExportImport.TimeCellIsData | app/src/main/java/com/example/babycare/utils/DataExportImport.kt:88-91 | An exported time cell is never taken for a marker or the feeding header. |
| DataExportImport.FeedingSectionHead | app/src/main/java/com/example/babycare/utils/DataExportImport.kt:40-41 | The feeding marker and header rows open an empty feeding section. |
| DataExportImport.FeedingRowStep | app/src/main/java/com/example/babycare/utils/DataExportImport.kt:96 | In the feeding section, an exported row appends its decoded record. |
| DataExportImport.FeedingSectionImports | app/src/main/java/com/example/babycare/utils/DataExportImport.kt:39-47 | Importing the first k rows of an exported feeding section gives back the first k decoded records, in order. |
| DataExportImport.FeedingExportRoundTrip | app/src/main/java/com/example/babycare/utils/DataExportImport.kt:27-112 | Importing an export with no sleep records gives back exactly the decoded feedings in their original order, with every other list empty. |
| PdfExporter.Document.constructor | app/src/main/java/com/example/babycare/utils/PdfExporter.kt:42 | A new document has no items. |
| PdfExporter.Document.Add | app/src/main/java/com/example/babycare/utils/PdfExporter.kt:91 | `document.add` appends exactly one item. |
| PdfExporter.PdfCells | app/src/main/java/com/example/babycare/utils/PdfExporter.kt:131-140 | Five cells: the time, and the `瓶喂`/`亲喂` label exactly as the type says. An absent amount, duration or note shows `-`. A present amount reads back as itself when it fits an `Int`, and a present note is shown as is. |
| PdfExporter.AmountCell | app/src/main/java/com/example/babycare/utils/PdfExporter.kt:134 | `-` exactly for an absent amount. A printed amount is never `-` and reads back as itself when it fits an `Int`. |
| PdfExporter.DurationCell | app/src/main/java/com/example/babycare/utils/PdfExporter.kt:135-139 | `-` exactly for an open feeding. Otherwise the whole minutes, truncated toward zero. |
| PdfExporter.NumberCell | app/src/main/java/com/example/babycare/utils/PdfExporter.kt:134-139 | A printed number is never the absent marker. It reads back as itself exactly when it fits an `Int`. |
| PdfExporter.PdfAndCsvCellsAgree | app/src/main/java/com/example/babycare/utils/PdfExporter.kt:131-140 | A record's PDF cells and CSV cells agree on time, type and duration, and on amount and note when present. The PDF shows `-` where the CSV is empty. |
| PdfExporter.FeedingCells | app/src/main/java/com/example/babycare/utils/PdfExporter.kt:130-142 | Five body cells per record. |
| PdfExporter.FeedingCellsAt | app/src/main/java/com/example/babycare/utils/PdfExporter.kt:130-142 | Cell j of record i is body cell 5i+j. |
| PdfExporter.Ticks | app/src/main/java/com/example/babycare/utils/PdfExporter.kt:59-62 | The progress numerators continue from the given value, one per record. |
| PdfExporter.AddFeedingRecords | app/src/main/java/com/example/babycare/utils/PdfExporter.kt:112-145 | Exactly one item is added, the finished table. Progress is reported once per record, rising by one. |
| PdfExporter.HeaderCells | app/src/main/java/com/example/babycare/utils/PdfExporter.kt:121-127 | The header row holds the five column titles, in order. |
| PdfExporter.AddRowCells | app/src/main/java/com/example/babycare/utils/PdfExporter.kt:131-141 | One record's five cells go after the cells already in the table: time, type, amount or "-", whole minutes or "-", note or "-". |
| PdfExporter.AddCharts | app/src/main/java/com/example/babycare/utils/PdfExporter.kt:49-53 | Each chart is appended to the document as an image, in order, with one progress value per chart: 1, 2, ..., n. |
| PdfExporter.AddSleepRecords | app/src/main/java/com/example/babycare/utils/PdfExporter.kt:147-153 | Nothing is reported, and the document is not touched. |
| PdfExporter.PdfLayout | app/src/main/java/com/example/babycare/utils/PdfExporter.kt:44-72 | The item count is the title, plus the charts, plus two for a non-empty feeding list, plus one for a non-empty sleep list. |
| PdfExporter.PdfOrder | app/src/main/java/com/example/babycare/utils/PdfExporter.kt:44-72 | The title is first, then every chart in order, before any section. The feeding heading and table appear just for a non-empty list, before the sleep heading. |
| PdfExporter.ExportToPdf | app/src/main/java/com/example/babycare/utils/PdfExporter.kt:32-83 | An unopenable destination fails with nothing added. A `null` stream succeeds with nothing added. An open one adds `PdfLayout` and reports progress after each chart and feeding record, out of the record total plus the charts. It then succeeds, or fails with what closing the document threw. |
| PdfExporter.PdfProgressEnds | app/src/main/java/com/example/babycare/utils/PdfExporter.kt:46-72 | Progress rises by one per chart and feeding record and never passes the total. Sleep records never move it, so it reaches the total only when the last five lists are empty. |
| Calendar.Midnight | app/src/main/java/com/example/babycare/ui/statistics/StatisticsViewModel.kt:148 | `with(LocalTime.MIN)`: the start of the day containing t, a whole number of days from the epoch. |
| Statistics.IntSumOf | app/src/main/java/com/example/babycare/ui/statistics/StatisticsViewModel.kt:169-174 | `sumOf` with an `Int` selector always yields an `Int`. |
| Statistics.IntSumWraps | app/src/main/java/com/example/babycare/ui/statistics/StatisticsViewModel.kt:169-174 | Wrapping at every step equals wrapping the exact sum once. |
| Statistics.FeedingStatsOf | app/src/main/java/com/example/babycare/ui/statistics/StatisticsViewModel.kt:168-181 | The count is the list size. The total amount is the wrapped sum with `null` as 0. The average is the wrapped total duration divided, truncating, by the count, or 0 for an empty list. |
| Statistics.CalculateFeedingStats | app/src/main/java/com/example/babycare/ui/statistics/StatisticsViewModel.kt:161-183 | Over the table: the count equals the range `COUNT`, and the statistics are those of the records in range, whatever order the query returns. |
| Statistics.OpenFeedingAddsNoDuration | app/src/main/java/com/example/babycare/ui/statistics/StatisticsViewModel.kt:170-174 | An open feeding adds one to the count but nothing to the total duration. |
| Statistics.AverageWithinLongest | app/src/main/java/com/example/babycare/ui/statistics/StatisticsViewModel.kt:175 | When every closed feeding lasted between 0 and `longest`, and the total fits, the average lies between 0 and `longest`. |
| Statistics.SumBounds | app/src/main/java/com/example/babycare/ui/statistics/StatisticsViewModel.kt:170-174 | A sum of terms in [0,m] lies in [0, n*m]. |
| Statistics.GetTimeRange | app/src/main/java/com/example/babycare/ui/statistics/StatisticsViewModel.kt:145-153 | The range ends now. It starts at today's midnight, or one week before it, or one month before it, and never after its end. |
| Statistics.PeriodsNest | app/src/main/java/com/example/babycare/ui/statistics/StatisticsViewModel.kt:147-151 | The month starts no later than the week, and the week no later than today. |
| Statistics.GetPreviousPeriodRange | app/src/main/java/com/example/babycare/ui/statistics/StatisticsViewModel.kt:155-159 | The previous period ends where the current one starts, and it has the same length. |
| Statistics.PreviousPeriodAdjoins | app/src/main/java/com/example/babycare/ui/statistics/StatisticsViewModel.kt:103-104 | With two clock readings on the same day, the previous period ends exactly where the current one starts, and it is no shorter. |
| Statistics.Loaded | app/src/main/java/com/example/babycare/ui/statistics/StatisticsViewModel.kt:101-143 | Without a baby nothing changes. With one, loading ends, and the selection and the four statistics are kept. When the error changes, the time-distribution chart is left as it was. |
| Statistics.ChartsShowCurrentPeriod | app/src/main/java/com/example/babycare/ui/statistics/StatisticsViewModel.kt:111-135 | When no renderer fails, the scatter and area charts are drawn from the current period's feedings, and no error is set. |
| Statistics.StatisticsViewModel.constructor | app/src/main/java/com/example/babycare/ui/statistics/StatisticsViewModel.kt:78-83 | The screen starts with baby 1 selected and loaded. |
| Statistics.StatisticsViewModel.LoadStatistics | app/src/main/java/com/example/babycare/ui/statistics/StatisticsViewModel.kt:101-143 | The state becomes `Loaded` of the old state, and the table is untouched. |
| Statistics.StatisticsViewModel.HandleEvent | app/src/main/java/com/example/babycare/ui/statistics/StatisticsViewModel.kt:85-99 | Selecting a baby or a period stores it and reloads. The comparison event changes nothing. |
| Growth.ToPeriodMonths | app/src/main/java/com/example/babycare/ui/growth/GrowthViewModel.kt:218-222 | 3, 6 and 12 months, one per period, each for exactly that period. |
| Growth.CalculateGrowthTrends | app/src/main/java/com/example/babycare/ui/growth/GrowthViewModel.kt:175-187 | Fewer than two records give `GrowthTrends()`. Otherwise each delta is the newest minus the oldest measurement, with a missing value as 0, over the selected period's months. |
| Growth.GetTimeRange | app/src/main/java/com/example/babycare/ui/growth/GrowthViewModel.kt:189-197 | The range ends now and starts the period's months earlier, never after its end. |
| Growth.GrowthPeriodsNest | app/src/main/java/com/example/babycare/ui/growth/GrowthViewModel.kt:191-195 | A year starts no later than six months, and six months no later than three. |
| Growth.TrendSpansRange | app/src/main/java/com/example/babycare/ui/growth/GrowthViewModel.kt:107-110 | Re-sorting the range query changes nothing. The trend goes from a newest to an oldest record of the baby in range: every record of the baby in range lies between the two. |
| Growth.ToUI | app/src/main/java/com/example/babycare/ui/growth/GrowthViewModel.kt:199-206 | The screen's record keeps the key and the three measurements. |
| Growth.LoadedFacts | app/src/main/java/com/example/babycare/ui/growth/GrowthViewModel.kt:96-127 | Without a baby nothing changes. With one, loading ends and the error is kept. As many records are shown as the period holds, and the trend is computed from the period's records. The latest record is `null` exactly when the baby has no record. |
| Growth.GrowthViewModel.ToEntity | app/src/main/java/com/example/babycare/ui/growth/GrowthViewModel.kt:208-216 | Fails exactly when the date text does not parse. Otherwise the record has the screen's key, the selected baby, the parsed time in milliseconds and the same measurements. |
| Growth.GrowthViewModel.constructor | app/src/main/java/com/example/babycare/ui/growth/GrowthViewModel.kt:76-78 | The screen starts with baby 1 selected and loaded. |
| Growth.GrowthViewModel.LoadGrowthData | app/src/main/java/com/example/babycare/ui/growth/GrowthViewModel.kt:96-127 | The state becomes `Loaded` of the old state over the current rows. |
| Growth.GrowthViewModel.AddGrowth | app/src/main/java/com/example/babycare/ui/growth/GrowthViewModel.kt:129-147 | Without a baby nothing happens. Otherwise exactly one record is appended, with that baby, the clock time and the given measurements, and the data is reloaded. A failed insert only sets the error. |
| Growth.GrowthViewModel.InsertRecord | app/src/main/java/com/example/babycare/ui/growth/GrowthViewModel.kt:143 | The insert fails, with the foreign key error and no change, exactly when the baby is unknown. Otherwise the row is appended under the key the table gives it. |
| Growth.GrowthViewModel.UpdateGrowth | app/src/main/java/com/example/babycare/ui/growth/GrowthViewModel.kt:149-158 | Without a baby nothing happens. An unparseable date or a foreign key error only sets the error. Otherwise the rebuilt record replaces its row and the data is reloaded. |
| Growth.GrowthViewModel.DeleteGrowth | app/src/main/java/com/example/babycare/ui/growth/GrowthViewModel.kt:160-173 | Without a baby no delete is issued. Otherwise the row with the key goes and the data is reloaded. |
| Growth.GrowthViewModel.HandleEvent | app/src/main/java/com/example/babycare/ui/growth/GrowthViewModel.kt:80-94 | Selecting a baby or a period stores it and reloads, with the rows untouched. Without a selected baby, the record events change nothing. |
| BaseViewModel.Settle | app/src/main/java/com/example/babycare/ui/base/BaseViewModel.kt:41-49 | A block that returns leaves the state it reached. A block that throws hands that state and the exception to `handleError`. |
| BaseViewModel.DefaultSwallows | app/src/main/java/com/example/babycare/ui/base/BaseViewModel.kt:54-56 | With the default `handleError`, an exception leaves the state where the block left it. |
| BaseViewModel.ViewModel.constructor | app/src/main/java/com/example/babycare/ui/base/BaseViewModel.kt:18-19 | The state starts as `initViewState()`, with no errors handled yet. |
| BaseViewModel.ViewModel.UpdateState | app/src/main/java/com/example/babycare/ui/base/BaseViewModel.kt:34-36 | The state becomes the update of the current one. |
| BaseViewModel.ViewModel.LaunchCoroutine | app/src/main/java/com/example/babycare/ui/base/BaseViewModel.kt:41-49 | The state is settled by the block's outcome. `handleError` runs exactly once when the block throws, and never otherwise. |
| FeedingViewModel.HandleError | app/src/main/java/com/example/babycare/ui/feeding/FeedingViewModel.kt:119-121 | The message is shown and loading ends. The feeding session is untouched. |
| FeedingViewModel.NewFeeding | app/src/main/java/com/example/babycare/ui/feeding/FeedingViewModel.kt:68-73 | The new record has key 0, the baby, type and amount given, starts now and is open, with no side or note. |
| FeedingViewModel.ErrorKeepsSettled | app/src/main/java/com/example/babycare/ui/feeding/FeedingViewModel.kt:119-121 | A failure in any handler leaves a settled state settled. |
| FeedingViewModel.FeedingViewModel.constructor | app/src/main/java/com/example/babycare/ui/feeding/FeedingViewModel.kt:44 | The screen starts from the initial state, over the feeding table. |
| FeedingViewModel.FeedingViewModel.StartFeeding | app/src/main/java/com/example/babycare/ui/feeding/FeedingViewModel.kt:65-83 | For a known baby, exactly one open record is appended under a fresh key, and it becomes the current feeding. For an unknown one, the table is unchanged and the foreign key error is shown. |
| FeedingViewModel.FeedingViewModel.StopFeeding | app/src/main/java/com/example/babycare/ui/feeding/FeedingViewModel.kt:85-101 | Without a current feeding nothing happens. Otherwise the record, with only its end time set, replaces its row and the session ends. A failed update keeps the session and shows the error. |
| FeedingViewModel.FeedingViewModel.UpdateFeeding | app/src/main/java/com/example/babycare/ui/feeding/FeedingViewModel.kt:103-109 | The record replaces its row and the state is unchanged. A foreign key failure changes only the error. |
| FeedingViewModel.FeedingViewModel.DeleteFeeding | app/src/main/java/com/example/babycare/ui/feeding/FeedingViewModel.kt:111-117 | The row with the record's key goes. The state, including the current feeding, stays. |
| FeedingViewModel.FeedingViewModel.HandleEvent | app/src/main/java/com/example/babycare/ui/feeding/FeedingViewModel.kt:56-63 | Every event, dispatched to its handler, leaves the screen settled: nothing is loading, and the session flag matches the current feeding. |
| SleepViewModel.HandleError | app/src/main/java/com/example/babycare/ui/sleep/SleepViewModel.kt:113-115 | The message is shown and loading ends. The sleep session is untouched. |
| SleepViewModel.NewSleep | app/src/main/java/com/example/babycare/ui/sleep/SleepViewModel.kt:63-66 | The new record has key 0 and the given baby, and starts now, open, with no quality and no note. |
| SleepViewModel.Stopped | app/src/main/java/com/example/babycare/ui/sleep/SleepViewModel.kt:82-85 | Only the end time, now, and the quality change; a `null` quality replaces the old one. |
| SleepViewModel.ErrorKeepsSettled | app/src/main/java/com/example/babycare/ui/sleep/SleepViewModel.kt:113-115 | A failure in any handler leaves a settled state settled. |
| SleepViewModel.SleepViewModel.constructor | app/src/main/java/com/example/babycare/ui/sleep/SleepViewModel.kt:14-19 | The screen starts from the initial state, over the sleep table. |
| SleepViewModel.SleepViewModel.StartSleep | app/src/main/java/com/example/babycare/ui/sleep/SleepViewModel.kt:60-76 | For a known baby, exactly one open record is appended under a fresh key, and it becomes the current sleep. For an unknown one, only the error changes. |
| SleepViewModel.SleepViewModel.StopSleep | app/src/main/java/com/example/babycare/ui/sleep/SleepViewModel.kt:78-95 | Without a current sleep nothing happens. Otherwise the `Stopped` record replaces its row and the session ends. A failed update keeps the session and shows the error. |
| SleepViewModel.SleepViewModel.UpdateSleep | app/src/main/java/com/example/babycare/ui/sleep/SleepViewModel.kt:97-103 | The record replaces its row and the state is unchanged. A foreign key failure changes only the error. |
| SleepViewModel.SleepViewModel.DeleteSleep | app/src/main/java/com/example/babycare/ui/sleep/SleepViewModel.kt:105-111 | The row with the record's key goes, and the state stays. |
| SleepViewModel.SleepViewModel.HandleEvent | app/src/main/java/com/example/babycare/ui/sleep/SleepViewModel.kt:51-58 | Every event, dispatched to its handler, leaves the screen settled: nothing is loading, and the session flag matches the current sleep. |
| SettingsViewModel.DefaultReminders | app/src/main/java/com/example/babycare/ui/settings/SettingsViewModel.kt:40-49 | A feeding reminder every 180 minutes, every reminder on, quiet hours on from 22:00 to 06:00. |
| SettingsViewModel.InitViewState | app/src/main/java/com/example/babycare/ui/settings/SettingsViewModel.kt:25-35 | Light mode, notifications on, the default reminders, no progress, no dialog, not loading, no error. |
| SettingsViewModel.WithReminder | app/src/main/java/com/example/babycare/ui/settings/SettingsViewModel.kt:190-195 | Exactly the named reminder's flag takes the new value. The other flags, the interval and the quiet hours are kept. |
| SettingsViewModel.WithReminderLaws | app/src/main/java/com/example/babycare/ui/settings/SettingsViewModel.kt:190-195 | Setting a flag to its current value changes nothing. Of two settings of the same flag, the last one wins. |
| SettingsViewModel.WithQuietHours | app/src/main/java/com/example/babycare/ui/settings/SettingsViewModel.kt:207-212 | Quiet hours are switched on with the given start and end. The interval and the flags are kept. |
| SettingsViewModel.WithFeedingInterval | app/src/main/java/com/example/babycare/ui/settings/SettingsViewModel.kt:176-177 | Only the interval changes. |
| SettingsViewModel.ExportFinished | app/src/main/java/com/example/babycare/ui/settings/SettingsViewModel.kt:285-299 | Loading stops and the export progress goes. The error is cleared on success and set to the failure's message. |
| SettingsViewModel.ImportFinished | app/src/main/java/com/example/babycare/ui/settings/SettingsViewModel.kt:316-335 | Loading stops and the import progress goes. The error is cleared on success and set to the failure's message. |
| SettingsViewModel.ExportFinishedIgnoresProgress | app/src/main/java/com/example/babycare/ui/settings/SettingsViewModel.kt:285-299 | How an export ends does not depend on the loading flag or on the progress shown while it ran. |
| SettingsViewModel.ImportFinishedIgnoresProgress | app/src/main/java/com/example/babycare/ui/settings/SettingsViewModel.kt:326-337 | How an import ends does not depend on the loading flag or on the progress shown while it ran. |
| SettingsViewModel.FinishedRunReportsOutcome | app/src/main/java/com/example/babycare/ui/settings/SettingsViewModel.kt:286-297 | A finished run leaves no error exactly when it succeeded, or failed without a message. |
| SettingsViewModel.InsertAll | app/src/main/java/com/example/babycare/ui/settings/SettingsViewModel.kt:319-320 | The items are inserted in order until one throws. The inserted prefix is appended, each under its key, and the run succeeds exactly when every item went in. A failure is a constraint error. |
| SettingsViewModel.SaveImported | app/src/main/java/com/example/babycare/ui/settings/SettingsViewModel.kt:317-327 | Feedings are appended first, then sleeps; the sleeps are not attempted after a feeding failed. The run reports success exactly when everything went in. |
| SettingsViewModel.SettingsViewModel.constructor | app/src/main/java/com/example/babycare/ui/settings/SettingsViewModel.kt:103-132 | The stored preferences are shown. If reading them throws, the defaults stay and the error is set. |
| SettingsViewModel.SettingsViewModel.UpdateDarkMode | app/src/main/java/com/example/babycare/ui/settings/SettingsViewModel.kt:151-160 | The store and the screen both take the new mode, in that order. A fault leaves both and sets only the error. |
| SettingsViewModel.SettingsViewModel.UpdateNotifications | app/src/main/java/com/example/babycare/ui/settings/SettingsViewModel.kt:162-171 | The store and the screen both take the new flag. A fault leaves both and sets only the error. |
| SettingsViewModel.SettingsViewModel.PersistReminders | app/src/main/java/com/example/babycare/ui/settings/SettingsViewModel.kt:178-179 | The new reminder settings go to the store and then to the screen. A fault leaves both and sets only the error. |
| SettingsViewModel.SettingsViewModel.UpdateFeedingInterval | app/src/main/java/com/example/babycare/ui/settings/SettingsViewModel.kt:173-184 | The stored settings and the screen's settings both become `WithFeedingInterval`. A fault sets only the error. |
| SettingsViewModel.SettingsViewModel.UpdateReminderEnabled | app/src/main/java/com/example/babycare/ui/settings/SettingsViewModel.kt:186-202 | The stored settings and the screen's settings both become `WithReminder`. A fault sets only the error. |
| SettingsViewModel.SettingsViewModel.UpdateQuietHours | app/src/main/java/com/example/babycare/ui/settings/SettingsViewModel.kt:204-219 | The stored settings and the screen's settings both become `WithQuietHours`. A fault sets only the error. |
| SettingsViewModel.SettingsViewModel.Placeholder | app/src/main/java/com/example/babycare/ui/settings/SettingsViewModel.kt:221-263 | The three placeholder actions change neither the screen nor the store. |
| SettingsViewModel.SettingsViewModel.ExportToFile | app/src/main/java/com/example/babycare/ui/settings/SettingsViewModel.kt:269-308 | The run ends as `ExportFinished`. It fails for an unopenable file, succeeds for a `null` stream, and otherwise takes the closing's result. The store is untouched. |
| SettingsViewModel.SettingsViewModel.ExportToPdf | app/src/main/java/com/example/babycare/ui/settings/SettingsViewModel.kt:346-390 | The run ends as `ExportFinished`. It fails for an unopenable file, succeeds for a `null` stream, and otherwise takes the closing's result. The store is untouched. |
| SettingsViewModel.SettingsViewModel.ImportFromFile | app/src/main/java/com/example/babycare/ui/settings/SettingsViewModel.kt:310-344 | An unreadable or unparseable file writes nothing and ends with its error. A parsed file is saved as `SaveImported` says. |
| SettingsViewModel.SettingsViewModel.SettleImport | app/src/main/java/com/example/babycare/ui/settings/SettingsViewModel.kt:318-337 | A failed parse writes nothing and ends the run with its error. A parsed file is saved as `SaveImported` says. Either way the run ends from the state before it, whatever progress was shown. |
| SettingsViewModel.SettingsViewModel.HandleEvent | app/src/main/java/com/example/babycare/ui/settings/SettingsViewModel.kt:134-149 | The placeholder and type-selection events change neither the screen nor the store. No event leaves the screen loading. |
| Extensions.DurationParts | app/src/main/java/com/example/babycare/utils/Extensions.kt:17-19 | For a non-negative span: whole hours, then minutes 0..59, covering the span to within a minute. For a negative span: non-positive hours and minutes -59..0, both truncated toward zero. |
| Extensions.ToDurationString | app/src/main/java/com/example/babycare/utils/Extensions.kt:20 | The text ends in `分钟`, and it starts with `-` exactly when the span is at least one hour below zero. |
| Extensions.NegativeHours | app/src/main/java/com/example/babycare/utils/Extensions.kt:18 | The hours are negative exactly from one whole hour below zero. |
| Extensions.DurationPartsUnique | app/src/main/java/com/example/babycare/utils/Extensions.kt:18-19 | For a non-negative span, the parts are the only hours and minutes (under 60) that pin the span to within a minute. |
| Extensions.DurationExamples | app/src/main/java/com/example/babycare/utils/Extensions.kt:17-21 | 90 minutes is 1 h 30 min, and 59 999 ms is 0 min. Minus 90 minutes is -1 h -30 min, and minus 30 minutes is 0 h -30 min. |
| BabyManageScreen.Initials | app/src/main/java/com/example/babycare/ui/baby/BabyManageScreen.kt:122-125 | The sorted map's keys: ascending, distinct, and exactly the babies' initials. |
| BabyManageScreen.GroupByInitial | app/src/main/java/com/example/babycare/ui/baby/BabyManageScreen.kt:122-125 | An empty name throws (`None`), and only then. Otherwise the keys ascend and no group is empty. A baby is in a group exactly when its initial is the key, every baby has its group, and each group keeps list order. |
| BabyManageScreen.GroupsArePermutation | app/src/main/java/com/example/babycare/ui/baby/BabyManageScreen.kt:122-125 | Reading the groups one after another gives every baby exactly as often as the list has it. |
| BabyManageScreen.IsHighlighted | app/src/main/java/com/example/babycare/ui/baby/BabyManageScreen.kt:151 | No baby is highlighted without a current baby. Otherwise a baby is highlighted exactly when it has the current baby's key. |
| BabyManageScreen.AtMostOneHighlighted | app/src/main/java/com/example/babycare/ui/baby/BabyManageScreen.kt:151 | With unique keys, at most one row is highlighted, and it is the current baby's. |
| BabyManageScreen.GenderLabel | app/src/main/java/com/example/babycare/ui/baby/BabyManageScreen.kt:205 | `女` exactly for gender 0, `男` for anything else. |
| BabyEditDialog.IsBlank | app/src/main/java/com/example/babycare/ui/baby/BabyEditDialog.kt:164 | `isBlank()`: every character is Kotlin whitespace (true for empty text). |
| BabyEditDialog.BlankConcat | app/src/main/java/com/example/babycare/ui/baby/BabyEditDialog.kt:164 | A text is blank exactly when both of its parts are. |
| BabyEditDialog.SaveEnabled | app/src/main/java/com/example/babycare/ui/baby/BabyEditDialog.kt:164 | The save button is enabled exactly when some character is not whitespace. |
| BabyEditDialog.ShowsNameError | app/src/main/java/com/example/babycare/ui/baby/BabyEditDialog.kt:103-107 | The name error and hint show exactly when saving is disabled, and always for an empty name. |
| BabyEditDialog.HasChanges | app/src/main/java/com/example/babycare/ui/baby/BabyEditDialog.kt:36-39 | Adding a baby always has changes. An edit has none exactly when name, gender and birthday are the originals and no image was picked. |
| BabyEditDialog.EditDialog.constructor | app/src/main/java/com/example/babycare/ui/baby/BabyEditDialog.kt:31-35 | The fields start from the baby (or blank, girl, now), with no image and no confirmation. A fresh dialog has no changes exactly when it edits a baby. |
| BabyEditDialog.EditDialog.SetName | app/src/main/java/com/example/babycare/ui/baby/BabyEditDialog.kt:97-102 | Only the name changes. |
| BabyEditDialog.EditDialog.SelectGender | app/src/main/java/com/example/babycare/ui/baby/BabyEditDialog.kt:124-147 | "女" sets 0 and "男" sets 1; nothing else changes. |
| BabyEditDialog.EditDialog.SetBirthday | app/src/main/java/com/example/babycare/ui/baby/BabyEditDialog.kt:153-156 | Only the birthday changes. |
| BabyEditDialog.EditDialog.PickImage | app/src/main/java/com/example/babycare/ui/baby/BabyEditDialog.kt:46-48 | A picked image replaces the choice. A cancelled pick changes nothing. |
| BabyEditDialog.EditDialog.DismissRequest | app/src/main/java/com/example/babycare/ui/baby/BabyEditDialog.kt:51-57 | With unsaved changes the exit confirmation opens and the dialog stays. Without, the dialog is dismissed. The fields are kept. |
| BabyEditDialog.EditDialog.Discard | app/src/main/java/com/example/babycare/ui/baby/BabyEditDialog.kt:183-187 | The confirmation closes and the dialog is dismissed. |
| BabyEditDialog.EditDialog.ContinueEditing | app/src/main/java/com/example/babycare/ui/baby/BabyEditDialog.kt:177-199 | Only the confirmation closes. |
| BabyEditDialog.EditDialog.Cancel | app/src/main/java/com/example/babycare/ui/baby/BabyEditDialog.kt:169-173 | The dialog is dismissed at once, even with unsaved changes. |
| BabyEditDialog.EditDialog.Save | app/src/main/java/com/example/babycare/ui/baby/BabyEditDialog.kt:159-167 | A request is sent exactly when saving is enabled, and it carries the four edited values. |
| BabyManageViewModel.SavedBaby | app/src/main/java/com/example/babycare/ui/baby/BabyManageViewModel.kt:111-160 | The four new values, with the saved avatar path. An edit keeps the baby's key, creation time and selection. A new baby has key 0, is created now and is not selected. |
| BabyManageViewModel.AvatarFilesAreAvatar | app/src/main/java/com/example/babycare/ui/baby/BabyManageViewModel.kt:168-170 | At most one file is deleted with a baby, and a path is deleted exactly when it is the baby's avatar. |
| BabyManageViewModel.Closed | app/src/main/java/com/example/babycare/ui/baby/BabyManageViewModel.kt:111-160 | Both dialogs are closed, nothing is being edited and loading has ended. The list, current baby and error are kept. |
| BabyManageViewModel.BabyManageViewModel.constructor | app/src/main/java/com/example/babycare/ui/baby/BabyManageViewModel.kt:18-26 | The screen starts from the initial state, over the seven tables, with no image deleted. |
| BabyManageViewModel.BabyManageViewModel.Collect | app/src/main/java/com/example/babycare/ui/baby/BabyManageViewModel.kt:53-70 | One emission shows all babies newest first and the current baby, and loading ends. |
| BabyManageViewModel.BabyManageViewModel.OpenAddDialog | app/src/main/java/com/example/babycare/ui/baby/BabyManageViewModel.kt:74-76 | Only the add dialog opens. |
| BabyManageViewModel.BabyManageViewModel.OpenEditDialog | app/src/main/java/com/example/babycare/ui/baby/BabyManageViewModel.kt:77-84 | The edit dialog opens on the given baby. |
| BabyManageViewModel.BabyManageViewModel.Dismiss | app/src/main/java/com/example/babycare/ui/baby/BabyManageViewModel.kt:99-107 | Both dialogs close, and the baby being edited is forgotten. |
| BabyManageViewModel.BabyManageViewModel.Save | app/src/main/java/com/example/babycare/ui/baby/BabyManageViewModel.kt:111-160 | A failed image save writes nothing and sets the error, with the dialogs as they were. Otherwise the dialogs close, and the `SavedBaby` is either appended under a fresh key (new baby) or replaces its row (edit, keys unchanged). |
| BabyManageViewModel.BabyManageViewModel.Delete | app/src/main/java/com/example/babycare/ui/baby/BabyManageViewModel.kt:162-181 | The row and all of the baby's records go. Its avatar file, if any, is deleted, and the view state is unchanged. |
| BabyManageViewModel.BabyManageViewModel.Select | app/src/main/java/com/example/babycare/ui/baby/BabyManageViewModel.kt:183-198 | The rows become `SelectOnly`. A known baby becomes the one current baby, and an unknown key leaves none current. |
| BabyManageViewModel.BabyManageViewModel.HandleEvent | app/src/main/java/com/example/babycare/ui/baby/BabyManageViewModel.kt:72-109 | Every event, dispatched to its handler, leaves the screen settled: nothing loading, and the edit dialog open exactly while a baby is being edited. The tables stay valid. |
| BabyViewModel.HandleError | app/src/main/java/com/example/babycare/ui/baby/BabyViewModel.kt:99-101 | The message is shown and loading ends. The list and selection stay. |
| BabyViewModel.ErrorEndsLoading | app/src/main/java/com/example/babycare/ui/baby/BabyViewModel.kt:99-101 | A failure in any block ends loading. |
| BabyViewModel.AfterDelete | app/src/main/java/com/example/babycare/ui/baby/BabyViewModel.kt:86-97 | The selection is cleared exactly when it is the deleted baby, by key. |
| BabyViewModel.NewBaby | app/src/main/java/com/example/babycare/ui/baby/BabyViewModel.kt:64-76 | The given name, birthday, gender and avatar, key 0, created now, not selected. |
| BabyViewModel.BabyViewModel.constructor | app/src/main/java/com/example/babycare/ui/baby/BabyViewModel.kt:14-19 | The screen starts from the initial state, over the seven tables. |
| BabyViewModel.BabyViewModel.Select | app/src/main/java/com/example/babycare/ui/baby/BabyViewModel.kt:57-62 | The selection becomes the baby with the key, and `null` exactly for an unknown key. |
| BabyViewModel.BabyViewModel.Add | app/src/main/java/com/example/babycare/ui/baby/BabyViewModel.kt:64-76 | Exactly one `NewBaby` is appended under a fresh key. |
| BabyViewModel.BabyViewModel.Update | app/src/main/java/com/example/babycare/ui/baby/BabyViewModel.kt:78-84 | The baby replaces its row, and the keys are unchanged. |
| BabyViewModel.BabyViewModel.Delete | app/src/main/java/com/example/babycare/ui/baby/BabyViewModel.kt:86-97 | The row and all of the baby's records go, and the selection follows `AfterDelete`. |
| BabyViewModel.BabyViewModel.HandleEvent | app/src/main/java/com/example/babycare/ui/baby/BabyViewModel.kt:48-55 | Every event, dispatched to its handler, leaves the tables valid and nothing loading. |

## Left out

- **Flows:** Room's and DataStore's `Flow`s re-emit on every change. The model shows one emission,
  at the end of the handler that reads it (`Collect`, `Loaded`), and a later emission is a new call.
- **Concurrency:** coroutines run one at a time, each to completion. Interleavings of handlers are
  not modelled.
- **`Float` rounding:** growth measurements and the derived averages are reals, and progress
  fractions are numerator/denominator pairs.
- **IO and rendering:** the CSV writer's quoting, iText fonts, colours, page size and image
  encoding, and the chart pixels are not modelled.
- **Resource text and locale:** `Context.getString` is represented by the message key. The locale
  of `SimpleDateFormat` and the PNG encoding are not modelled.
- **Image files:** `ImageManager` is the `saveImage` parameter together with the `deletedImages`
  log. A throwing `deleteImage` is not modelled.
- DataExportImport.ExportToCsv: there is no sleep encoder in the source (`SleepRecord.toCSVRow` is
  never declared), so it is a parameter. For the same reason the import's sleep decoder is a
  parameter.
- DataExportImport.ExportToCsv: the intermediate progress values are the integer numerators `k`.
  Their denominator is `getTotalCount()`, which may be 0 for a `Float` division (giving NaN); that
  case is not modelled.
- DataExportImport.ImportFromCsv: `countLines` opens the file a second time; the model takes both
  openings see the same rows, and the same `readNext` exception after them.
- DataExportImport.ExportToCsv: an exception from the open stream is modelled as thrown when it
  closes, after every row is written. A write that throws part way through the file is not
  modelled, so a failed run's rows are always the whole layout.
- PdfExporter.ExportToPdf: likewise, a fault is thrown when the document closes, after every item
  is added.
- SettingsViewModel.SettingsViewModel.ExportToFile: inherits the CSV exporter's single closing
  fault.
- SettingsViewModel.SettingsViewModel.ExportToPdf: inherits the PDF exporter's single closing
  fault.
- SleepRecordDao.GetTodaySleepDuration: SQL `SUM` over no rows is `NULL`, which the declared
  `Flow<Long>` cannot carry. The model reads it as 0.
- **Time text:** the `yyyy-MM-dd HH:mm:ss` law holds only for years 1 to 9999. Outside them the
  pattern prints a sign or drops the era, so the round-trip lemmas require four-digit years.
- **Import clock:** every imported record's `createdAt` is one clock reading `now`. The
  source reads `System.currentTimeMillis()` afresh for each record.
- **SettingsViewModel record selection:** `exportData(uri)` and `exportToPdf` read a `types` set
  that is not in scope for `exportData(uri)`, and then `getAllFeedingRecords().first()`. The model
  takes the selected `ExportData` as a parameter, and `selectExportTypes` does nothing, as in the
  source.
- SettingsViewModel.SettingsViewModel.ImportFromFile: only feedings and sleeps are saved, as in
  the source. Imported feedings all belong to baby 1, so `babyIds` decides whether they go in.
- **Statistics charts:** `ChartGenerator` is not part of this model; its renderers are parameters
  that may throw. `generateCharts` for the PDF is a parameter too.
- **Statistics' `feedingStats`:** `calculateFeedingStats` is never called by `loadStatistics`, so
  `feedingStats` keeps its default. The view model does the same.
- **Clocks:** `loadStatistics` reads `LocalDateTime.now()` once per range (`now`, `later`). The
  model relates the two ranges only for readings on the same day (`PreviousPeriodAdjoins`).
- **Time units:** the screens' `LocalDateTime` ranges are passed to DAO queries on millisecond
  columns. The model keeps the same integers throughout and does not convert between seconds and
  milliseconds.
- Growth.GrowthViewModel.ToEntity: it parses a `yyyy-MM-dd` text as a `LocalDateTime`, which
  throws in `java.time`. The parse is the `parseDate` parameter, so that failure is whatever the
  parameter says.
- **Repository errors in the baby view models:** in the model the `babies` table's insert with key 0,
  its update and its delete cannot throw, so those `handleError` paths are unreachable.
- BabyManageScreen.GroupByInitial: `Char.toUpperCase()` is the parameter `upper`. Keys compare
  by code point, as a sorted map of `Char` keys does, for names that start in the Basic
  Multilingual Plane. A Kotlin `Char` is a UTF-16 code unit, so a name that starts with a
  surrogate pair is keyed by its high surrogate there and by the whole character here.
- **Vaccine records:** the vaccine table, its entity and its cascade are not part of this model.
- **Other screens:** notifications, permissions and navigation are not modelled. `MedicineViewModel`,
  `WaterViewModel`, `DiaperViewModel` and `RecordsViewModel` are not part of this model.
