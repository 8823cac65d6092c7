/**
 * The rows of the app's tables. Kotlin `Long` and `Int` fields are unbounded integers here
 * (`Numbers` narrows explicitly where the app does), `Float` measurements are reals, and a
 * nullable field is an `Option`. `id == 0` means "not inserted yet": the table assigns the key.
 */
module Entities {
  import opened Wrappers

  /** A baby profile; `gender` is 0 for a girl and 1 for a boy. */
  datatype Baby = Baby(
    id: int,
    name: string,
    gender: int,
    birthday: int,
    avatar: Option<string>,
    createdAt: int,
    isSelected: bool)

  /**
   * A feeding; `feedingType` is the entity's `type` column (0 breast, 1 bottle),
   * which the export and the view model call `feedingType`.
   */
  datatype FeedingRecord = FeedingRecord(
    id: int,
    babyId: int,
    startTime: int,
    endTime: Option<int>,
    feedingType: int,
    amount: Option<int>,
    side: Option<int>,
    note: Option<string>,
    createdAt: int)

  /** A sleep session; `quality` is 0 poor, 1 fair, 2 good. */
  datatype SleepRecord = SleepRecord(
    id: int,
    babyId: int,
    startTime: int,
    endTime: Option<int>,
    quality: Option<int>,
    note: Option<string>,
    createdAt: int)

  /** A diaper change; `diaperType` is the `type` column: 0 wet, 1 dirty, 2 both. */
  datatype DiaperRecord = DiaperRecord(
    id: int,
    babyId: int,
    time: int,
    diaperType: int,
    color: Option<int>,
    amount: Option<int>,
    note: Option<string>,
    createdAt: int)

  datatype MedicineRecord = MedicineRecord(
    id: int,
    babyId: int,
    time: int,
    medicineName: string,
    dosage: real,
    unit: string,
    note: Option<string>,
    reminderTime: Option<int>)

  datatype WaterRecord = WaterRecord(
    id: int,
    babyId: int,
    time: int,
    amount: int,
    temperature: int,
    note: Option<string>)

  datatype GrowthRecord = GrowthRecord(
    id: int,
    babyId: int,
    time: int,
    height: Option<real>,
    weight: Option<real>,
    headCircumference: Option<real>,
    milestone: Option<string>,
    note: Option<string>,
    createdAt: int)

  // Primary keys, owners and sort keys, as functions the queries can be parameterised by.
  function BabyId(b: Baby): int { b.id }
  function BabyCreatedAt(b: Baby): int { b.createdAt }
  function FeedingId(r: FeedingRecord): int { r.id }
  function FeedingStart(r: FeedingRecord): int { r.startTime }
  function SleepId(r: SleepRecord): int { r.id }
  function SleepStart(r: SleepRecord): int { r.startTime }
  function DiaperId(r: DiaperRecord): int { r.id }
  function DiaperTime(r: DiaperRecord): int { r.time }
  function MedicineId(r: MedicineRecord): int { r.id }
  function MedicineTime(r: MedicineRecord): int { r.time }
  function WaterId(r: WaterRecord): int { r.id }
  function WaterTime(r: WaterRecord): int { r.time }
  function GrowthId(r: GrowthRecord): int { r.id }
  function GrowthTime(r: GrowthRecord): int { r.time }
}
