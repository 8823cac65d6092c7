/**
 * The baby management screen's view model: the add/edit dialog flags, saving a baby (insert for
 * a new one, update for the one being edited), deleting a baby with its avatar file, and making a
 * baby current. The avatar copy `imageManager.saveImage` is the parameter `saveImage`; the file
 * deletions `imageManager.deleteImage` are recorded in `deletedImages`. The combined list and
 * current baby flows are read by `Collect`.
 */
module BabyManageViewModel {
  import opened Wrappers
  import opened Entities
  import opened ErrorHandler
  import opened Query
  import opened Tables
  import opened BabyDao

  datatype BabyManageViewState = BabyManageViewState(
    babies: seq<Baby>,
    currentBaby: Option<Baby>,
    isLoading: bool,
    error: Option<string>,
    showAddDialog: bool,
    showEditDialog: bool,
    editingBaby: Option<Baby>)

  const InitViewState := BabyManageViewState([], None, false, None, false, false, None)

  datatype BabyManageEvent =
    | AddBaby
    | EditBaby(baby: Baby)
    | DeleteBaby(baby: Baby)
    | SelectBaby(baby: Baby)
    | SaveBaby(name: string, gender: int, birthday: int, avatarUri: Option<string>)
    | DismissDialog

  /** Between handlers nothing is loading, and the edit dialog is open exactly while a baby is being edited. */
  predicate Settled(s: BabyManageViewState) {
    !s.isLoading && (s.showEditDialog <==> s.editingBaby.Some?)
  }

  /**
   * The baby `saveBaby` writes: the edited baby with the four new values, keeping its key,
   * `createdAt` and selection; or a new baby (key 0, created now, not selected). The avatar is
   * always the newly saved path, so an edit without a picked image clears the old avatar.
   */
  function SavedBaby(editing: Option<Baby>, name: string, gender: int, birthday: int, avatarPath: Option<string>,
                     nowMillis: int): (b: Baby)
    ensures b.name == name && b.gender == gender && b.birthday == birthday && b.avatar == avatarPath
    ensures editing.Some? ==>
              b.id == editing.value.id && b.createdAt == editing.value.createdAt && b.isSelected == editing.value.isSelected
    ensures editing.None? ==> b.id == 0 && b.createdAt == nowMillis && !b.isSelected
  {
    match editing
    case Some(e) => e.(name := name, gender := gender, birthday := birthday, avatar := avatarPath)
    case None => Baby(0, name, gender, birthday, avatarPath, nowMillis, false)
  }

  /** The dialog state after a successful save: both dialogs closed, nothing being edited. */
  function Closed(s: BabyManageViewState): (r: BabyManageViewState)
    ensures !r.showAddDialog && !r.showEditDialog && r.editingBaby.None? && !r.isLoading
    ensures r.babies == s.babies && r.currentBaby == s.currentBaby && r.error == s.error
  {
    s.(showAddDialog := false, showEditDialog := false, editingBaby := None, isLoading := false)
  }

  /** The file `deleteBaby` removes with the baby: its avatar path, if it has one. */
  function AvatarFiles(b: Baby): seq<string> {
    if b.avatar.Some? then [b.avatar.value] else []
  }

  /** At most one file goes with a baby, and a path goes exactly when it is the baby's avatar. */
  lemma AvatarFilesAreAvatar(b: Baby)
    ensures |AvatarFiles(b)| <= 1
    ensures forall path :: path in AvatarFiles(b) <==> b.avatar == Some(path)
  {
  }

  class BabyManageViewModel {
    var state: BabyManageViewState
    /** The paths handed to `imageManager.deleteImage`, oldest first. */
    var deletedImages: seq<string>
    const babies: BabyTable
    const feedings: Table<FeedingRecord>
    const sleeps: Table<SleepRecord>
    const diapers: Table<DiaperRecord>
    const growths: Table<GrowthRecord>
    const medicines: Table<MedicineRecord>
    const waters: Table<WaterRecord>

    ghost predicate TablesValid()
      reads babies, feedings, sleeps, diapers, growths, medicines, waters
    {
      && babies.Valid() && feedings.Valid() && sleeps.Valid() && diapers.Valid()
      && growths.Valid() && medicines.Valid() && waters.Valid()
      && feedings as object != sleeps as object && diapers as object != growths as object
      && medicines as object != waters as object
      && {feedings as object, sleeps} !! {diapers as object, growths} !! {medicines as object, waters}
    }

    ghost predicate Valid()
      reads this, babies, feedings, sleeps, diapers, growths, medicines, waters
    {
      TablesValid() && Settled(state)
    }

    constructor(babies: BabyTable, feedings: Table<FeedingRecord>, sleeps: Table<SleepRecord>,
                diapers: Table<DiaperRecord>, growths: Table<GrowthRecord>,
                medicines: Table<MedicineRecord>, waters: Table<WaterRecord>)
      requires babies.Valid() && feedings.Valid() && sleeps.Valid() && diapers.Valid()
      requires growths.Valid() && medicines.Valid() && waters.Valid()
      requires feedings as object != sleeps as object && diapers as object != growths as object
      requires medicines as object != waters as object
      requires {feedings as object, sleeps} !! {diapers as object, growths} !! {medicines as object, waters}
      ensures Valid() && state == InitViewState && deletedImages == []
      ensures this.babies == babies && this.feedings == feedings && this.sleeps == sleeps && this.diapers == diapers
      ensures this.growths == growths && this.medicines == medicines && this.waters == waters
    {
      this.babies := babies;
      this.feedings := feedings;
      this.sleeps := sleeps;
      this.diapers := diapers;
      this.growths := growths;
      this.medicines := medicines;
      this.waters := waters;
      state := InitViewState;
      deletedImages := [];
    }

    /** One emission of the combined flows: the list (newest first) and the current baby, and loading ends. */
    method Collect()
      requires Valid()
      modifies this
      ensures Valid() && deletedImages == old(deletedImages)
      ensures state == old(state).(babies := GetAllBabies(babies.rows), currentBaby := GetCurrentBaby(babies.rows), isLoading := false)
    {
      state := state.(babies := GetAllBabies(babies.rows), currentBaby := GetCurrentBaby(babies.rows), isLoading := false);
    }

    /** `AddBaby` only opens the add dialog. */
    method OpenAddDialog()
      requires Valid()
      modifies this
      ensures Valid() && deletedImages == old(deletedImages)
      ensures state == old(state).(showAddDialog := true)
    {
      state := state.(showAddDialog := true);
    }

    /** `EditBaby` opens the edit dialog on the given baby. */
    method OpenEditDialog(baby: Baby)
      requires Valid()
      modifies this
      ensures Valid() && deletedImages == old(deletedImages)
      ensures state == old(state).(showEditDialog := true, editingBaby := Some(baby))
    {
      state := state.(showEditDialog := true, editingBaby := Some(baby));
    }

    /** `DismissDialog` closes both dialogs and forgets the baby being edited. */
    method Dismiss()
      requires Valid()
      modifies this
      ensures Valid() && deletedImages == old(deletedImages)
      ensures state == old(state).(showAddDialog := false, showEditDialog := false, editingBaby := None)
    {
      state := state.(showAddDialog := false, showEditDialog := false, editingBaby := None);
    }

    /**
     * `saveBaby`. A picked image is saved first; if that throws, nothing is written, the error is
     * shown and the dialogs stay as they were. Otherwise the `SavedBaby` is inserted when its key
     * is 0 (it gets a fresh key) and updated in place otherwise, and the dialogs close.
     */
    method Save(name: string, gender: int, birthday: int, avatarUri: Option<string>,
                saveImage: string -> Result<string, Throwable>, nowMillis: int)
      requires Valid()
      modifies this, babies
      ensures Valid() && deletedImages == old(deletedImages)
      ensures avatarUri.Some? && saveImage(avatarUri.value).Failure? ==>
                && babies.rows == old(babies.rows)
                && state == old(state).(error := saveImage(avatarUri.value).error.message, isLoading := false)
      ensures !(avatarUri.Some? && saveImage(avatarUri.value).Failure?) ==>
                var avatarPath := if avatarUri.Some? then Some(saveImage(avatarUri.value).value) else None;
                var b := SavedBaby(old(state.editingBaby), name, gender, birthday, avatarPath, nowMillis);
                && state == Closed(old(state))
                && (b.id == 0 ==>
                      && |babies.rows| == |old(babies.rows)| + 1
                      && babies.rows == old(babies.rows) + [b.(id := babies.rows[|babies.rows| - 1].id)]
                      && babies.rows[|babies.rows| - 1].id != 0
                      && babies.rows[|babies.rows| - 1].id !in old(babies.Keys()))
                && (b.id != 0 ==> babies.rows == ReplaceById(old(babies.rows), b, BabyId) && babies.Keys() == old(babies.Keys()))
    {
      var loading := state.(isLoading := true);
      var avatarPath: Option<string> := None;
      if avatarUri.Some? {
        var saved := saveImage(avatarUri.value);
        if saved.Failure? {
          state := loading.(error := saved.error.message, isLoading := false);
          return;
        }
        avatarPath := Some(saved.value);
      }
      var b := SavedBaby(loading.editingBaby, name, gender, birthday, avatarPath, nowMillis);
      if b.id == 0 {
        var id := babies.Insert(b);
        assert id.Success?;
      } else {
        babies.Update(b);
      }
      state := Closed(loading);
    }

    /**
     * `deleteBaby`: the row goes, and with it (cascade) every record of that baby; then its avatar
     * file, if it has one, is deleted. The view state is as before.
     */
    method Delete(b: Baby)
      requires Valid()
      modifies this, babies, feedings, sleeps, diapers, growths, medicines, waters
      ensures Valid() && state == old(state)
      ensures babies.rows == RemoveById(old(babies.rows), b.id, BabyId)
      ensures AllCascaded(feedings, old(feedings.rows), sleeps, old(sleeps.rows), diapers, old(diapers.rows),
                          growths, old(growths.rows), medicines, old(medicines.rows), waters, old(waters.rows),
                          b.id, old(babies.Keys()))
      ensures deletedImages == old(deletedImages) + AvatarFiles(b)
    {
      var loading := state.(isLoading := true);
      BabyDao.DeleteBaby(babies, b, feedings, sleeps, diapers, growths, medicines, waters);
      DeletedAvatar(b, loading.(isLoading := false));
    }

    /** The tail of `deleteBaby`: `imageManager.deleteImage` on the avatar, if any, and the state update. */
    method DeletedAvatar(b: Baby, next: BabyManageViewState)
      modifies this
      ensures deletedImages == old(deletedImages) + AvatarFiles(b) && state == next
    {
      deletedImages, state := deletedImages + AvatarFiles(b), next;
    }

    /**
     * `selectBaby`: `setCurrentBaby(baby.id)`. Afterwards a known baby is the one current baby the
     * next emission shows; an unknown key leaves no baby current.
     */
    method Select(b: Baby)
      requires Valid()
      modifies this, babies
      ensures Valid() && state == old(state) && deletedImages == old(deletedImages)
      ensures babies.rows == SelectOnly(old(babies.rows), b.id)
      ensures b.id in old(babies.Keys()) ==>
                && GetCurrentBaby(babies.rows).Some? && GetCurrentBaby(babies.rows).value.id == b.id
                && GetCurrentBaby(babies.rows).value == GetBabyById(old(babies.rows), b.id).value.(isSelected := true)
      ensures b.id !in old(babies.Keys()) ==> GetCurrentBaby(babies.rows).None?
    {
      var loading := state.(isLoading := true);
      SelectOnlySelectsOne(babies.rows, b.id);
      babies.SetCurrentBaby(b.id);
      state := loading.(isLoading := false);
    }

    /** `handleEvent`: each event goes to its handler. */
    method HandleEvent(event: BabyManageEvent, saveImage: string -> Result<string, Throwable>, nowMillis: int)
      requires Valid()
      modifies this, babies, feedings, sleeps, diapers, growths, medicines, waters
      ensures Valid()
    {
      match event
      case AddBaby => OpenAddDialog();
      case EditBaby(baby) => OpenEditDialog(baby);
      case DeleteBaby(baby) => Delete(baby);
      case SelectBaby(baby) => Select(baby);
      case SaveBaby(name, gender, birthday, avatarUri) => Save(name, gender, birthday, avatarUri, saveImage, nowMillis);
      case DismissDialog => Dismiss();
    }
  }
}
