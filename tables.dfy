/**
 * A Room table of child records: its rows and the autoincrement counter, with the three write
 * operations every record DAO declares (`@Insert`, `@Update`, `@Delete`) and the
 * `DELETE ... WHERE babyId = :babyId` that the foreign key's `ON DELETE CASCADE` performs and some
 * DAOs also declare. The entity is abstracted by its key, its owner and a way to set the key.
 */
module Tables {
  import opened Wrappers
  import opened ErrorHandler
  import opened Query

  function OwnedBy<T>(ownerOf: T -> int, babyId: int): T -> bool {
    (r: T) => ownerOf(r) == babyId
  }

  function NotOwnedBy<T>(ownerOf: T -> int, babyId: int): T -> bool {
    (r: T) => ownerOf(r) != babyId
  }

  /** Every row's owner is one of `babyIds`: the foreign key holds. */
  predicate OwnersAmong<T>(rows: seq<T>, ownerOf: T -> int, babyIds: set<int>) {
    forall i :: 0 <= i < |rows| ==> ownerOf(rows[i]) in babyIds
  }

  /** What `ON DELETE CASCADE` leaves when baby `babyId` goes: a table that no longer refers to it. */
  lemma CascadeKeepsReferences<T>(rows: seq<T>, ownerOf: T -> int, babyIds: set<int>, babyId: int)
    requires OwnersAmong(rows, ownerOf, babyIds)
    ensures OwnersAmong(Filter(rows, NotOwnedBy(ownerOf, babyId)), ownerOf, babyIds - {babyId})
  {
  }

  class Table<T(!new)> {
    var rows: seq<T>
    var nextId: int
    /** The primary key `id`, the foreign key `babyId`, and `copy(id = k)`. */
    const idOf: T -> int
    const ownerOf: T -> int
    const withId: (T, int) -> T

    /** `withId` sets the key and nothing the table looks at besides. */
    ghost predicate KeyLaws()
      reads this
    {
      forall r, k :: idOf(withId(r, k)) == k && ownerOf(withId(r, k)) == ownerOf(r)
    }

    /** Keys are unique, never 0 and below the autoincrement counter. */
    ghost predicate Valid()
      reads this
    {
      && KeyLaws()
      && UniqueIds(rows, idOf)
      && nextId >= 1
      && forall i :: 0 <= i < |rows| ==> idOf(rows[i]) != 0 && idOf(rows[i]) < nextId
    }

    /** Every row belongs to one of the given babies. */
    ghost predicate OwnersIn(babyIds: set<int>)
      reads this
    {
      OwnersAmong(rows, ownerOf, babyIds)
    }

    constructor (idOf: T -> int, ownerOf: T -> int, withId: (T, int) -> T)
      requires forall r, k :: idOf(withId(r, k)) == k && ownerOf(withId(r, k)) == ownerOf(r)
      ensures Valid() && rows == []
      ensures this.idOf == idOf && this.ownerOf == ownerOf && this.withId == withId
    {
      rows := [];
      nextId := 1;
      this.idOf := idOf;
      this.ownerOf := ownerOf;
      this.withId := withId;
    }

    /**
     * `@Insert`: a record with key 0 gets the next key, any other key is kept; a key already in
     * use, or an owner that is not one of `babyIds` (the foreign key), throws and changes nothing.
     * The result is the new row's key.
     */
    method Insert(r: T, babyIds: set<int>) returns (res: Result<int, Throwable>)
      requires Valid()
      modifies this
      ensures Valid()
      ensures res.Failure? <==> ownerOf(r) !in babyIds || (idOf(r) != 0 && idOf(r) in Ids(old(rows), idOf))
      ensures res.Failure? ==> rows == old(rows) && nextId == old(nextId)
      ensures ownerOf(r) !in babyIds ==> res == Failure(ForeignKeyViolation)
      ensures ownerOf(r) in babyIds && res.Failure? ==> res == Failure(PrimaryKeyViolation)
      ensures res.Success? ==> && rows == old(rows) + [withId(r, res.value)]
                               && res.value != 0 && res.value !in Ids(old(rows), idOf)
                               && (idOf(r) != 0 ==> res.value == idOf(r))
      ensures old(OwnersIn(babyIds)) ==> OwnersIn(babyIds)
    {
      if ownerOf(r) !in babyIds {
        return Failure(ForeignKeyViolation);
      }
      if idOf(r) != 0 && idOf(r) in Ids(rows, idOf) {
        return Failure(PrimaryKeyViolation);
      }
      var id := if idOf(r) == 0 then nextId else idOf(r);
      rows := rows + [withId(r, id)];
      if id >= nextId {
        nextId := id + 1;
      }
      res := Success(id);
    }

    /** `@Update`: the row with `r`'s key becomes `r`; if one matches and its new owner is unknown, it throws. */
    method Update(r: T, babyIds: set<int>) returns (res: Result<(), Throwable>)
      requires Valid()
      modifies this
      ensures Valid() && nextId == old(nextId)
      ensures res.Failure? <==> idOf(r) in Ids(old(rows), idOf) && ownerOf(r) !in babyIds
      ensures res.Failure? ==> rows == old(rows) && res == Failure(ForeignKeyViolation)
      ensures res.Success? ==> rows == ReplaceById(old(rows), r, idOf)
      ensures old(OwnersIn(babyIds)) ==> OwnersIn(babyIds)
    {
      if idOf(r) in Ids(rows, idOf) && ownerOf(r) !in babyIds {
        return Failure(ForeignKeyViolation);
      }
      rows := ReplaceById(rows, r, idOf);
      res := Success(());
    }

    /** `@Delete`: removes the row with `r`'s key, whatever `r`'s other fields say. */
    method Delete(r: T)
      requires Valid()
      modifies this
      ensures Valid() && nextId == old(nextId)
      ensures rows == RemoveById(old(rows), idOf(r), idOf)
      ensures forall b :: old(OwnersIn(b)) ==> OwnersIn(b)
    {
      rows := RemoveById(rows, idOf(r), idOf);
    }

    /** `DELETE ... WHERE babyId = :babyId`: every row of that baby goes, the others stay in order. */
    method DeleteAllByBaby(babyId: int)
      requires Valid()
      modifies this
      ensures Valid() && nextId == old(nextId)
      ensures rows == Filter(old(rows), NotOwnedBy(ownerOf, babyId))
      ensures forall b :: old(OwnersIn(b)) ==> OwnersIn(b - {babyId})
    {
      FilterUnique(rows, NotOwnedBy(ownerOf, babyId), idOf);
      rows := Filter(rows, NotOwnedBy(ownerOf, babyId));
    }
  }
}
