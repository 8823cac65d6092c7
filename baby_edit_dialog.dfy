/**
 * The add/edit baby dialog: its remembered fields, the "unsaved changes" rule, the save button's
 * enabled rule and the exit confirmation. An image `Uri` is its string; `System.currentTimeMillis()`
 * is the parameter `nowMillis`; `onDismiss` is recorded in `dismissed` and `onSave` is the value
 * `Save` returns.
 */
module BabyEditDialog {
  import opened Wrappers
  import opened Entities

  /** Kotlin's `Char.isWhitespace()`: Java whitespace together with the Unicode space separators. */
  predicate IsWhitespace(c: char) {
    || ('\U{9}' <= c <= '\U{D}')
    || ('\U{1C}' <= c <= '\U{20}')
    || c == '\U{A0}' || c == '\U{1680}'
    || ('\U{2000}' <= c <= '\U{200A}')
    || c == '\U{2028}' || c == '\U{2029}' || c == '\U{202F}' || c == '\U{205F}' || c == '\U{3000}'
  }

  /** `isBlank()`: empty, or whitespace only. */
  function IsBlank(s: string): (r: bool)
    ensures r <==> forall i :: 0 <= i < |s| ==> IsWhitespace(s[i])
  {
    if s == [] then true
    else
      assert forall i :: 1 <= i < |s| ==> s[i] == s[1..][i - 1];
      IsWhitespace(s[0]) && IsBlank(s[1..])
  }

  /** Text is blank exactly when both of its parts are. */
  lemma BlankConcat(a: string, b: string)
    ensures IsBlank(a + b) <==> IsBlank(a) && IsBlank(b)
  {
    var s := a + b;
    assert forall i :: 0 <= i < |a| ==> s[i] == a[i];
    assert forall i :: 0 <= i < |b| ==> s[|a| + i] == b[i];
  }

  /** The save button is enabled (`isNotBlank()`) exactly when some character is not whitespace. */
  function SaveEnabled(name: string): (e: bool)
    ensures e <==> exists i :: 0 <= i < |name| && !IsWhitespace(name[i])
  {
    !IsBlank(name)
  }

  /** The name field is in error, with its hint, exactly when saving is disabled. */
  function ShowsNameError(name: string): (e: bool)
    ensures e <==> !SaveEnabled(name)
    ensures name == [] ==> e
  {
    IsBlank(name)
  }

  /**
   * `hasChanges`: compared with `baby?.name` and friends, so a new baby (no original) always has
   * changes; an existing one has none exactly when name, gender and birthday are the originals and
   * no image was picked.
   */
  function HasChanges(name: string, gender: int, birthday: int, avatarUri: Option<string>, baby: Option<Baby>): (r: bool)
    ensures baby.None? ==> r
    ensures baby.Some? ==>
              (!r <==> name == baby.value.name && gender == baby.value.gender && birthday == baby.value.birthday && avatarUri.None?)
  {
    match baby
    case None => true
    case Some(b) => name != b.name || gender != b.gender || birthday != b.birthday || avatarUri.Some?
  }

  /** What `onSave` receives. */
  datatype SaveRequest = SaveRequest(name: string, gender: int, birthday: int, avatarUri: Option<string>)

  class EditDialog {
    /** The baby being edited, or `None` when adding. */
    const baby: Option<Baby>
    var name: string
    var gender: int
    var birthday: int
    var avatarUri: Option<string>
    var showExitConfirm: bool
    /** Whether `onDismiss` has been called. */
    var dismissed: bool

    /** The dialog opens on the baby's values (or blank name, girl, now), with no image picked. */
    constructor(baby: Option<Baby>, nowMillis: int)
      ensures this.baby == baby && avatarUri.None? && !showExitConfirm && !dismissed
      ensures baby.Some? ==> name == baby.value.name && gender == baby.value.gender && birthday == baby.value.birthday
      ensures baby.None? ==> name == "" && gender == 0 && birthday == nowMillis
      ensures baby.Some? <==> !Changed()
    {
      this.baby := baby;
      name := if baby.Some? then baby.value.name else "";
      gender := if baby.Some? then baby.value.gender else 0;
      birthday := if baby.Some? then baby.value.birthday else nowMillis;
      avatarUri := None;
      showExitConfirm := false;
      dismissed := false;
    }

    function Changed(): bool
      reads this
    {
      HasChanges(name, gender, birthday, avatarUri, baby)
    }

    /** The name field's `onValueChange`. */
    method SetName(text: string)
      modifies this
      ensures name == text
      ensures gender == old(gender) && birthday == old(birthday) && avatarUri == old(avatarUri)
      ensures showExitConfirm == old(showExitConfirm) && dismissed == old(dismissed)
    {
      name := text;
    }

    /** The two gender chips: "女" sets 0, "男" sets 1. */
    method SelectGender(male: bool)
      modifies this
      ensures gender == (if male then 1 else 0)
      ensures name == old(name) && birthday == old(birthday) && avatarUri == old(avatarUri)
      ensures showExitConfirm == old(showExitConfirm) && dismissed == old(dismissed)
    {
      gender := if male then 1 else 0;
    }

    /** The date picker's `onValueChange`. */
    method SetBirthday(millis: int)
      modifies this
      ensures birthday == millis
      ensures name == old(name) && gender == old(gender) && avatarUri == old(avatarUri)
      ensures showExitConfirm == old(showExitConfirm) && dismissed == old(dismissed)
    {
      birthday := millis;
    }

    /** The image picker's result: a picked image replaces the choice; a cancelled pick (`null`) changes nothing. */
    method PickImage(uri: Option<string>)
      modifies this
      ensures uri.Some? ==> avatarUri == uri
      ensures uri.None? ==> avatarUri == old(avatarUri)
      ensures name == old(name) && gender == old(gender) && birthday == old(birthday)
      ensures showExitConfirm == old(showExitConfirm) && dismissed == old(dismissed)
    {
      if uri.Some? {
        avatarUri := uri;
      }
    }

    /**
     * The dialog's `onDismissRequest` (back or outside tap): with unsaved changes the exit
     * confirmation opens and the dialog stays; without, the dialog is dismissed.
     */
    method DismissRequest()
      modifies this
      ensures old(Changed()) ==> showExitConfirm && dismissed == old(dismissed)
      ensures !old(Changed()) ==> dismissed && showExitConfirm == old(showExitConfirm)
      ensures name == old(name) && gender == old(gender) && birthday == old(birthday) && avatarUri == old(avatarUri)
    {
      if Changed() {
        showExitConfirm := true;
      } else {
        dismissed := true;
      }
    }

    /** "放弃": the confirmation closes and the dialog is dismissed, changes and all. */
    method Discard()
      modifies this
      ensures !showExitConfirm && dismissed
      ensures name == old(name) && gender == old(gender) && birthday == old(birthday) && avatarUri == old(avatarUri)
    {
      showExitConfirm := false;
      dismissed := true;
    }

    /** "继续编辑", or dismissing the confirmation itself: only the confirmation closes. */
    method ContinueEditing()
      modifies this
      ensures !showExitConfirm && dismissed == old(dismissed)
      ensures name == old(name) && gender == old(gender) && birthday == old(birthday) && avatarUri == old(avatarUri)
    {
      showExitConfirm := false;
    }

    /** "取消": dismisses at once, without asking even when there are unsaved changes. */
    method Cancel()
      modifies this
      ensures dismissed && showExitConfirm == old(showExitConfirm)
      ensures name == old(name) && gender == old(gender) && birthday == old(birthday) && avatarUri == old(avatarUri)
    {
      dismissed := true;
    }

    /**
     * "保存": when enabled, `onSave` receives the four edited values; the dialog itself stays open
     * (its owner closes it). A blank name disables the button: nothing is sent.
     */
    method Save() returns (request: Option<SaveRequest>)
      ensures request.Some? <==> SaveEnabled(name)
      ensures request.Some? ==> request.value == SaveRequest(name, gender, birthday, avatarUri)
    {
      if SaveEnabled(name) {
        request := Some(SaveRequest(name, gender, birthday, avatarUri));
      } else {
        request := None;
      }
    }
  }
}
