/**
 * The `babies` table. Its queries are functions of the rows; the table is a class whose methods
 * change the rows as `insert`, `update`, `delete`, `updateAllBabiesSelection`,
 * `updateBabySelection` and the `setCurrentBaby` transaction do. Deleting a baby cascades to
 * every record table whose foreign key names it.
 */
module BabyDao {
  import opened Wrappers
  import opened Entities
  import opened ErrorHandler
  import opened Query
  import opened Tables

  /** `SELECT * FROM babies ORDER BY createdAt DESC` */
  function GetAllBabies(rows: seq<Baby>): (r: seq<Baby>)
    ensures multiset(r) == multiset(rows)
    ensures SortedDesc(r, BabyCreatedAt)
  {
    SortDesc(rows, BabyCreatedAt)
  }

  /** `WHERE isSelected = 1 LIMIT 1`: the first selected baby in table order, `null` if none is. */
  function GetCurrentBaby(rows: seq<Baby>): (r: Option<Baby>)
    ensures r.None? <==> forall i :: 0 <= i < |rows| ==> !rows[i].isSelected
    ensures r.Some? ==> exists i :: 0 <= i < |rows| && rows[i] == r.value && rows[i].isSelected
                                     && forall j :: 0 <= j < i ==> !rows[j].isSelected
  {
    if rows == [] then None
    else if rows[0].isSelected then Some(rows[0])
    else
      var r := GetCurrentBaby(rows[1..]);
      assert forall i :: 1 <= i < |rows| ==> rows[i] == rows[1..][i - 1];
      if r.Some? then
        var i :| 0 <= i < |rows[1..]| && rows[1..][i] == r.value && rows[1..][i].isSelected
                 && forall j :: 0 <= j < i ==> !rows[1..][j].isSelected;
        assert rows[i + 1] == r.value;
        r
      else r
  }

  /** `WHERE id = :id`: the baby with that key, `null` if there is none. */
  function GetBabyById(rows: seq<Baby>, id: int): (r: Option<Baby>)
    ensures r.None? <==> id !in Ids(rows, BabyId)
    ensures r.Some? ==> r.value in rows && r.value.id == id
  {
    if rows == [] then None
    else if rows[0].id == id then Some(rows[0])
    else
      var r := GetBabyById(rows[1..], id);
      assert forall i :: 1 <= i < |rows| ==> rows[i] == rows[1..][i - 1];
      assert Ids(rows, BabyId) == {rows[0].id} + Ids(rows[1..], BabyId);
      r
  }

  /** The state `setCurrentBaby(babyId)` leaves: the baby with that key selected, every other one not. */
  function SelectOnly(rows: seq<Baby>, babyId: int): (r: seq<Baby>)
    ensures |r| == |rows|
    ensures forall i :: 0 <= i < |rows| ==> r[i] == rows[i].(isSelected := rows[i].id == babyId)
  {
    seq(|rows|, i requires 0 <= i < |rows| => rows[i].(isSelected := rows[i].id == babyId))
  }

  /** With unique keys, at most one baby is selected after `setCurrentBaby`, and it is the one named. */
  lemma SelectOnlySelectsOne(rows: seq<Baby>, babyId: int)
    requires UniqueIds(rows, BabyId)
    ensures GetCurrentBaby(SelectOnly(rows, babyId)).None? <==> babyId !in Ids(rows, BabyId)
    ensures GetCurrentBaby(SelectOnly(rows, babyId)).Some? ==>
              && GetBabyById(rows, babyId).Some?
              && GetCurrentBaby(SelectOnly(rows, babyId)).value == GetBabyById(rows, babyId).value.(isSelected := true)
    ensures forall i, j :: 0 <= i < j < |rows| ==> !(SelectOnly(rows, babyId)[i].isSelected && SelectOnly(rows, babyId)[j].isSelected)
  {
    var s := SelectOnly(rows, babyId);
    var c := GetCurrentBaby(s);
    if c.Some? {
      var i :| 0 <= i < |s| && s[i] == c.value && s[i].isSelected;
      GetBabyByIdAt(rows, i, babyId);
    }
  }

  /** With unique keys, the lookup finds the row that has the key. */
  lemma {:induction false} GetBabyByIdAt(rows: seq<Baby>, j: int, id: int)
    requires UniqueIds(rows, BabyId)
    requires 0 <= j < |rows| && rows[j].id == id
    ensures GetBabyById(rows, id) == Some(rows[j])
  {
    if j > 0 {
      assert rows[0].id != id;
      assert UniqueIds(rows[1..], BabyId) by {
        forall a, b | 0 <= a < b < |rows| - 1 ensures rows[1..][a].id != rows[1..][b].id {
          assert rows[1..][a] == rows[a + 1] && rows[1..][b] == rows[b + 1];
        }
      }
      assert rows[1..][j - 1] == rows[j];
      GetBabyByIdAt(rows[1..], j - 1, id);
    }
  }

  /** Selecting the same baby twice is selecting it once. */
  lemma SelectOnlyIdempotent(rows: seq<Baby>, babyId: int)
    ensures SelectOnly(SelectOnly(rows, babyId), babyId) == SelectOnly(rows, babyId)
  {
  }

  class BabyTable {
    var rows: seq<Baby>
    var nextId: int

    /** Keys are unique, never 0 and below the autoincrement counter. */
    ghost predicate Valid()
      reads this
    {
      && UniqueIds(rows, BabyId)
      && nextId >= 1
      && forall i :: 0 <= i < |rows| ==> rows[i].id != 0 && rows[i].id < nextId
    }

    ghost function Keys(): set<int>
      reads this
    {
      Ids(rows, BabyId)
    }

    constructor ()
      ensures Valid() && rows == []
    {
      rows := [];
      nextId := 1;
    }

    /** `@Insert`: key 0 gets the next key, any other key is kept; a key in use throws and changes nothing. */
    method Insert(b: Baby) returns (res: Result<int, Throwable>)
      requires Valid()
      modifies this
      ensures Valid()
      ensures res.Failure? <==> b.id != 0 && b.id in old(Keys())
      ensures res.Failure? ==> rows == old(rows) && nextId == old(nextId)
      ensures res.Success? ==> && rows == old(rows) + [b.(id := res.value)]
                               && res.value != 0 && res.value !in old(Keys())
                               && (b.id != 0 ==> res.value == b.id)
      ensures old(Keys()) <= Keys()
    {
      if b.id != 0 && b.id in Ids(rows, BabyId) {
        return Failure(PrimaryKeyViolation);
      }
      var id := if b.id == 0 then nextId else b.id;
      ghost var before := rows;
      rows := rows + [b.(id := id)];
      forall k | k in Ids(before, BabyId) ensures k in Ids(rows, BabyId) {
        var i :| 0 <= i < |before| && before[i].id == k;
        assert rows[i] == before[i];
      }
      if id >= nextId {
        nextId := id + 1;
      }
      res := Success(id);
    }

    /** `@Update`: the row with `b`'s key becomes `b`; the set of keys does not change. */
    method Update(b: Baby)
      requires Valid()
      modifies this
      ensures Valid() && nextId == old(nextId)
      ensures rows == ReplaceById(old(rows), b, BabyId)
      ensures Keys() == old(Keys())
    {
      rows := ReplaceById(rows, b, BabyId);
      assert Ids(rows, BabyId) == Ids(old(rows), BabyId) by {
        forall k | k in Ids(rows, BabyId) ensures k in Ids(old(rows), BabyId) {
          var i :| 0 <= i < |rows| && rows[i].id == k;
          assert old(rows)[i].id == k;
        }
      }
    }

    /** `UPDATE babies SET isSelected = :isSelected` */
    method UpdateAllBabiesSelection(isSelected: bool)
      requires Valid()
      modifies this
      ensures Valid() && nextId == old(nextId) && |rows| == |old(rows)|
      ensures forall i :: 0 <= i < |rows| ==> rows[i] == old(rows)[i].(isSelected := isSelected)
    {
      rows := seq(|rows|, i requires 0 <= i < |rows| reads this => rows[i].(isSelected := isSelected));
    }

    /** `UPDATE babies SET isSelected = :isSelected WHERE id = :babyId` */
    method UpdateBabySelection(babyId: int, isSelected: bool)
      requires Valid()
      modifies this
      ensures Valid() && nextId == old(nextId) && |rows| == |old(rows)|
      ensures forall i :: 0 <= i < |rows| ==>
                rows[i] == if old(rows)[i].id == babyId then old(rows)[i].(isSelected := isSelected) else old(rows)[i]
    {
      rows := seq(|rows|, i requires 0 <= i < |rows| reads this =>
                if rows[i].id == babyId then rows[i].(isSelected := isSelected) else rows[i]);
    }

    /** The `setCurrentBaby` transaction: clear every selection, then select `babyId`. */
    method SetCurrentBaby(babyId: int)
      requires Valid()
      modifies this
      ensures Valid() && nextId == old(nextId)
      ensures rows == SelectOnly(old(rows), babyId)
    {
      UpdateAllBabiesSelection(false);
      UpdateBabySelection(babyId, true);
    }

    /** `@Delete` by key: the row with `b`'s key goes, whatever `b`'s other fields say. */
    method Delete(b: Baby)
      requires Valid()
      modifies this
      ensures Valid() && nextId == old(nextId)
      ensures rows == RemoveById(old(rows), b.id, BabyId) && Keys() == old(Keys()) - {b.id}
    {
      IdsAfterRemove(rows, b.id, BabyId);
      rows := RemoveById(rows, b.id, BabyId);
    }
  }

  /**
   * Deleting a baby. Because every record table declares `ON DELETE CASCADE` on `babyId`,
   * removing an existing baby also removes all of its records and keeps the others in order
   * (`Cascaded`); `CascadeKeepsReferences` shows that no record is left pointing at it.
   */
  method DeleteBaby(babies: BabyTable, b: Baby, feedings: Table<FeedingRecord>, sleeps: Table<SleepRecord>,
                    diapers: Table<DiaperRecord>, growths: Table<GrowthRecord>,
                    medicines: Table<MedicineRecord>, waters: Table<WaterRecord>)
    requires babies.Valid() && feedings.Valid() && sleeps.Valid() && diapers.Valid()
    requires growths.Valid() && medicines.Valid() && waters.Valid()
    requires feedings as object != sleeps as object && diapers as object != growths as object
    requires medicines as object != waters as object
    requires {feedings as object, sleeps} !! {diapers as object, growths} !! {medicines as object, waters}
    modifies babies, feedings, sleeps, diapers, growths, medicines, waters
    ensures babies.Valid() && babies.rows == RemoveById(old(babies.rows), b.id, BabyId)
    ensures babies.Keys() == old(babies.Keys()) - {b.id}
    ensures AllCascaded(feedings, old(feedings.rows), sleeps, old(sleeps.rows), diapers, old(diapers.rows),
                        growths, old(growths.rows), medicines, old(medicines.rows), waters, old(waters.rows),
                        b.id, old(babies.Keys()))
  {
    var keys := Ids(babies.rows, BabyId);
    babies.Delete(b);
    CascadeAll(b.id, keys, feedings, sleeps, diapers, growths, medicines, waters);
  }

  /** A record table after baby `babyId` left the key set `keys`: its rows go only if it was there. */
  ghost predicate Cascaded<T(!new)>(t: Table<T>, before: seq<T>, babyId: int, keys: set<int>)
    reads t
  {
    && t.Valid()
    && t.rows == if babyId in keys then Filter(before, NotOwnedBy(t.ownerOf, babyId)) else before
  }

  /** The six record tables after baby `babyId` left the key set `keys`, each from its rows before. */
  ghost predicate AllCascaded(feedings: Table<FeedingRecord>, feedingsBefore: seq<FeedingRecord>,
                              sleeps: Table<SleepRecord>, sleepsBefore: seq<SleepRecord>,
                              diapers: Table<DiaperRecord>, diapersBefore: seq<DiaperRecord>,
                              growths: Table<GrowthRecord>, growthsBefore: seq<GrowthRecord>,
                              medicines: Table<MedicineRecord>, medicinesBefore: seq<MedicineRecord>,
                              waters: Table<WaterRecord>, watersBefore: seq<WaterRecord>,
                              babyId: int, keys: set<int>)
    reads feedings, sleeps, diapers, growths, medicines, waters
  {
    && Cascaded(feedings, feedingsBefore, babyId, keys)
    && Cascaded(sleeps, sleepsBefore, babyId, keys)
    && Cascaded(diapers, diapersBefore, babyId, keys)
    && Cascaded(growths, growthsBefore, babyId, keys)
    && Cascaded(medicines, medicinesBefore, babyId, keys)
    && Cascaded(waters, watersBefore, babyId, keys)
  }

  /** The cascade over the six record tables, two by two. */
  method CascadeAll(babyId: int, keys: set<int>, feedings: Table<FeedingRecord>, sleeps: Table<SleepRecord>,
                    diapers: Table<DiaperRecord>, growths: Table<GrowthRecord>,
                    medicines: Table<MedicineRecord>, waters: Table<WaterRecord>)
    requires feedings.Valid() && sleeps.Valid() && diapers.Valid()
    requires growths.Valid() && medicines.Valid() && waters.Valid()
    requires feedings as object != sleeps as object && diapers as object != growths as object
    requires medicines as object != waters as object
    requires {feedings as object, sleeps} !! {diapers as object, growths} !! {medicines as object, waters}
    modifies feedings, sleeps, diapers, growths, medicines, waters
    ensures AllCascaded(feedings, old(feedings.rows), sleeps, old(sleeps.rows), diapers, old(diapers.rows),
                        growths, old(growths.rows), medicines, old(medicines.rows), waters, old(waters.rows),
                        babyId, keys)
  {
    CascadeTwo(feedings, sleeps, babyId, keys);
    CascadeTwo(diapers, growths, babyId, keys);
    CascadeTwo(medicines, waters, babyId, keys);
  }

  /** The cascade over two different record tables. */
  method CascadeTwo<A(!new), B(!new)>(ta: Table<A>, tb: Table<B>, babyId: int, keys: set<int>)
    requires ta.Valid() && tb.Valid() && ta as object != tb as object
    modifies ta, tb
    ensures Cascaded(ta, old(ta.rows), babyId, keys) && Cascaded(tb, old(tb.rows), babyId, keys)
  {
    Cascade(ta, babyId, keys);
    Cascade(tb, babyId, keys);
  }

  /** `ON DELETE CASCADE` on one record table. */
  method Cascade<T(!new)>(t: Table<T>, babyId: int, keys: set<int>)
    requires t.Valid()
    modifies t
    ensures Cascaded(t, old(t.rows), babyId, keys)
  {
    if babyId in keys {
      t.DeleteAllByBaby(babyId);
    }
  }
}
