/**
 * The second baby view model: selecting a baby by key, adding, updating and deleting babies, each
 * in one `launchCoroutine` block whose exception goes to the `handleError` override. The
 * repository calls are taken as the repository's `getBabyById`, `insertBaby`, `updateBaby` and
 * `deleteBaby`, and the added baby's birth date as its `birthday` in milliseconds.
 */
module BabyViewModel {
  import opened Wrappers
  import opened Entities
  import opened ErrorHandler
  import opened Query
  import opened Tables
  import opened BabyDao
  import opened BaseViewModel

  datatype BabyViewState = BabyViewState(
    babies: seq<Baby>,
    selectedBaby: Option<Baby>,
    isLoading: bool,
    error: Option<string>)

  const InitViewState := BabyViewState([], None, false, None)

  datatype BabyEvent =
    | SelectBaby(babyId: int)
    | AddBaby(name: string, birthday: int, gender: int, avatar: Option<string>)
    | UpdateBaby(baby: Baby)
    | DeleteBaby(baby: Baby)

  /** The override of `handleError`: the message is shown and loading ends; the selection stays. */
  function HandleError(s: BabyViewState, e: Throwable): (r: BabyViewState)
    ensures r.error == e.message && !r.isLoading
    ensures r.selectedBaby == s.selectedBaby && r.babies == s.babies
  {
    s.(error := e.message, isLoading := false)
  }

  /** A failure in any block ends loading. */
  lemma ErrorEndsLoading(s: BabyViewState, e: Throwable)
    ensures !Settle(Outcome(s.(isLoading := true), Some(e)), HandleError).isLoading
  {
  }

  /** The selection after `baby` was deleted: cleared exactly when it has the deleted baby's key. */
  function AfterDelete(selected: Option<Baby>, baby: Baby): (r: Option<Baby>)
    ensures selected.Some? && selected.value.id == baby.id ==> r.None?
    ensures !(selected.Some? && selected.value.id == baby.id) ==> r == selected
  {
    if selected.Some? && selected.value.id == baby.id then None else selected
  }

  /** The baby `addBaby` builds: key 0, created now, not selected. */
  function NewBaby(name: string, birthday: int, gender: int, avatar: Option<string>, nowMillis: int): (b: Baby)
    ensures b.id == 0 && b.name == name && b.birthday == birthday && b.gender == gender && b.avatar == avatar
    ensures b.createdAt == nowMillis && !b.isSelected
  {
    Baby(0, name, gender, birthday, avatar, nowMillis, false)
  }

  class BabyViewModel {
    var state: BabyViewState
    const babies: BabyTable
    const feedings: Table<FeedingRecord>
    const sleeps: Table<SleepRecord>
    const diapers: Table<DiaperRecord>
    const growths: Table<GrowthRecord>
    const medicines: Table<MedicineRecord>
    const waters: Table<WaterRecord>

    ghost predicate Valid()
      reads this, babies, feedings, sleeps, diapers, growths, medicines, waters
    {
      && babies.Valid() && feedings.Valid() && sleeps.Valid() && diapers.Valid()
      && growths.Valid() && medicines.Valid() && waters.Valid()
      && feedings as object != sleeps as object && diapers as object != growths as object
      && medicines as object != waters as object
      && {feedings as object, sleeps} !! {diapers as object, growths} !! {medicines as object, waters}
      && !state.isLoading
    }

    constructor(babies: BabyTable, feedings: Table<FeedingRecord>, sleeps: Table<SleepRecord>,
                diapers: Table<DiaperRecord>, growths: Table<GrowthRecord>,
                medicines: Table<MedicineRecord>, waters: Table<WaterRecord>)
      requires babies.Valid() && feedings.Valid() && sleeps.Valid() && diapers.Valid()
      requires growths.Valid() && medicines.Valid() && waters.Valid()
      requires feedings as object != sleeps as object && diapers as object != growths as object
      requires medicines as object != waters as object
      requires {feedings as object, sleeps} !! {diapers as object, growths} !! {medicines as object, waters}
      ensures Valid() && state == InitViewState
      ensures this.babies == babies && this.feedings == feedings && this.sleeps == sleeps && this.diapers == diapers
      ensures this.growths == growths && this.medicines == medicines && this.waters == waters
    {
      this.babies := babies;
      this.feedings := feedings;
      this.sleeps := sleeps;
      this.diapers := diapers;
      this.growths := growths;
      this.medicines := medicines;
      this.waters := waters;
      state := InitViewState;
    }

    /** `selectBaby`: the selection becomes the lookup's result, `None` for an unknown key. */
    method Select(babyId: int)
      requires Valid()
      modifies this
      ensures Valid()
      ensures state == old(state).(selectedBaby := GetBabyById(babies.rows, babyId))
      ensures state.selectedBaby.None? <==> babyId !in babies.Keys()
      ensures state.selectedBaby.Some? ==> state.selectedBaby.value in babies.rows && state.selectedBaby.value.id == babyId
    {
      state := Settle(Outcome(state.(selectedBaby := GetBabyById(babies.rows, babyId)), None), HandleError);
    }

    /** `addBaby`: exactly one new baby with the given fields is appended under a fresh key. */
    method Add(name: string, birthday: int, gender: int, avatar: Option<string>, nowMillis: int)
      requires Valid()
      modifies this, babies
      ensures Valid() && state == old(state)
      ensures |babies.rows| == |old(babies.rows)| + 1
      ensures var stored := babies.rows[|babies.rows| - 1];
              && babies.rows == old(babies.rows) + [stored]
              && stored == NewBaby(name, birthday, gender, avatar, nowMillis).(id := stored.id)
              && stored.id != 0 && stored.id !in old(babies.Keys())
    {
      var loading := state.(isLoading := true);
      var id := babies.Insert(NewBaby(name, birthday, gender, avatar, nowMillis));
      assert id.Success?;
      state := Settle(Outcome(loading.(isLoading := false), None), HandleError);
    }

    /** `updateBaby`: the baby goes to the table as given. */
    method Update(baby: Baby)
      requires Valid()
      modifies this, babies
      ensures Valid() && state == old(state)
      ensures babies.rows == ReplaceById(old(babies.rows), baby, BabyId) && babies.Keys() == old(babies.Keys())
    {
      var loading := state.(isLoading := true);
      babies.Update(baby);
      state := Settle(Outcome(loading.(isLoading := false), None), HandleError);
    }

    /** `deleteBaby`: the row and (cascade) its records go; a selection of that baby is cleared. */
    method Delete(baby: Baby)
      requires Valid()
      modifies this, babies, feedings, sleeps, diapers, growths, medicines, waters
      ensures Valid()
      ensures state == old(state).(selectedBaby := AfterDelete(old(state.selectedBaby), baby))
      ensures babies.rows == RemoveById(old(babies.rows), baby.id, BabyId)
      ensures AllCascaded(feedings, old(feedings.rows), sleeps, old(sleeps.rows), diapers, old(diapers.rows),
                          growths, old(growths.rows), medicines, old(medicines.rows), waters, old(waters.rows),
                          baby.id, old(babies.Keys()))
    {
      var loading := state.(isLoading := true);
      BabyDao.DeleteBaby(babies, baby, feedings, sleeps, diapers, growths, medicines, waters);
      state := Settle(Outcome(loading.(isLoading := false, selectedBaby := AfterDelete(loading.selectedBaby, baby)), None), HandleError);
    }

    /** `handleEvent`: each event goes to its handler. */
    method HandleEvent(event: BabyEvent, nowMillis: int)
      requires Valid()
      modifies this, babies, feedings, sleeps, diapers, growths, medicines, waters
      ensures Valid()
    {
      match event
      case SelectBaby(babyId) => Select(babyId);
      case AddBaby(name, birthday, gender, avatar) => Add(name, birthday, gender, avatar, nowMillis);
      case UpdateBaby(baby) => Update(baby);
      case DeleteBaby(baby) => Delete(baby);
    }
  }
}
