/**
 * The rules of the baby list: babies grouped under the upper-cased first character of their name
 * with the groups in ascending key order, the current baby highlighted, and the gender label.
 * `Char.toUpperCase()` is the parameter `upper`; keys compare as characters, as a sorted map of
 * `Char` keys does.
 */
module BabyManageScreen {
  import opened Wrappers
  import opened Entities
  import opened Query

  /** One sticky header and the babies under it. */
  datatype Group = Group(initial: char, babies: seq<Baby>)

  /** Every name has a first character; `first()` throws on an empty name. */
  predicate Named(babies: seq<Baby>) {
    forall i :: 0 <= i < |babies| ==> |babies[i].name| > 0
  }

  function Initial(b: Baby, upper: char -> char): char
    requires |b.name| > 0
  {
    upper(b.name[0])
  }

  function HasInitial(c: char, upper: char -> char): Baby -> bool {
    (b: Baby) => |b.name| > 0 && upper(b.name[0]) == c
  }

  predicate Ascending(keys: seq<char>) {
    forall i, j :: 0 <= i < j < |keys| ==> keys[i] < keys[j]
  }

  /** `c` added to an ascending list of distinct keys, once and in its place. */
  function InsertKey(keys: seq<char>, c: char): (r: seq<char>)
    requires Ascending(keys)
    ensures Ascending(r)
    ensures forall x :: x in r <==> x in keys || x == c
  {
    if keys == [] then [c]
    else if c < keys[0] then [c] + keys
    else if c == keys[0] then keys
    else
      var rest := InsertKey(keys[1..], c);
      assert forall x :: x in rest ==> keys[0] < x by {
        forall x | x in rest ensures keys[0] < x {
          if x != c {
            var i :| 0 <= i < |keys[1..]| && keys[1..][i] == x;
            assert keys[i + 1] == x;
          }
        }
      }
      [keys[0]] + rest
  }

  /** The distinct initials in ascending order: the keys of the sorted map. */
  function Initials(babies: seq<Baby>, upper: char -> char): (keys: seq<char>)
    requires Named(babies)
    ensures Ascending(keys)
    ensures forall i :: 0 <= i < |babies| ==> Initial(babies[i], upper) in keys
    ensures forall c :: c in keys ==> exists i :: 0 <= i < |babies| && Initial(babies[i], upper) == c
  {
    if babies == [] then []
    else
      var rest := Initials(babies[1..], upper);
      var keys := InsertKey(rest, Initial(babies[0], upper));
      assert forall i :: 1 <= i < |babies| ==> babies[i] == babies[1..][i - 1];
      keys
  }

  function GroupsOf(babies: seq<Baby>, keys: seq<char>, upper: char -> char): seq<Group> {
    if keys == [] then []
    else [Group(keys[0], Filter(babies, HasInitial(keys[0], upper)))] + GroupsOf(babies, keys[1..], upper)
  }

  lemma {:induction false} GroupsOfAt(babies: seq<Baby>, keys: seq<char>, upper: char -> char, j: int)
    requires 0 <= j < |keys|
    ensures |GroupsOf(babies, keys, upper)| == |keys|
    ensures GroupsOf(babies, keys, upper)[j] == Group(keys[j], Filter(babies, HasInitial(keys[j], upper)))
  {
    if j > 0 {
      GroupsOfAt(babies, keys[1..], upper, j - 1);
    } else if |keys| > 1 {
      GroupsOfAt(babies, keys[1..], upper, 0);
    }
  }

  /**
   * `groupBy { it.name.first().toUpperCase() }.toSortedMap()`. An empty name makes it throw (`None`).
   * Otherwise the keys ascend, no group is empty, a baby is in a group exactly when the group's key
   * is its initial, some group has that key, and each group keeps the babies in list order.
   */
  function GroupByInitial(babies: seq<Baby>, upper: char -> char): (r: Option<seq<Group>>)
    ensures r.None? <==> !Named(babies)
    ensures r.Some? ==> forall i, j :: 0 <= i < j < |r.value| ==> r.value[i].initial < r.value[j].initial
    ensures r.Some? ==> forall j :: 0 <= j < |r.value| ==> r.value[j].babies != []
    ensures r.Some? ==>
              forall i, j :: 0 <= i < |babies| && 0 <= j < |r.value| ==>
                (babies[i] in r.value[j].babies <==> Initial(babies[i], upper) == r.value[j].initial)
    ensures r.Some? ==>
              forall i :: 0 <= i < |babies| ==> exists j :: 0 <= j < |r.value| && r.value[j].initial == Initial(babies[i], upper)
    ensures r.Some? ==>
              forall j :: 0 <= j < |r.value| ==> r.value[j].babies == Filter(babies, HasInitial(r.value[j].initial, upper))
  {
    if !Named(babies) then None
    else
      var keys := Initials(babies, upper);
      var g := GroupsOf(babies, keys, upper);
      GroupsFacts(babies, keys, upper);
      Some(g)
  }

  lemma GroupsFacts(babies: seq<Baby>, keys: seq<char>, upper: char -> char)
    requires Named(babies) && keys == Initials(babies, upper)
    ensures |GroupsOf(babies, keys, upper)| == |keys|
    ensures forall j :: 0 <= j < |keys| ==> GroupsOf(babies, keys, upper)[j] == Group(keys[j], Filter(babies, HasInitial(keys[j], upper)))
    ensures forall j :: 0 <= j < |keys| ==> GroupsOf(babies, keys, upper)[j].babies != []
  {
    GroupsLength(babies, keys, upper);
    forall j | 0 <= j < |keys|
      ensures GroupsOf(babies, keys, upper)[j] == Group(keys[j], Filter(babies, HasInitial(keys[j], upper)))
      ensures GroupsOf(babies, keys, upper)[j].babies != []
    {
      GroupsOfAt(babies, keys, upper, j);
      KeyHasMember(babies, keys[j], upper);
    }
  }

  lemma {:induction false} GroupsLength(babies: seq<Baby>, keys: seq<char>, upper: char -> char)
    ensures |GroupsOf(babies, keys, upper)| == |keys|
  {
    if keys != [] {
      GroupsLength(babies, keys[1..], upper);
    }
  }

  lemma KeyHasMember(babies: seq<Baby>, c: char, upper: char -> char)
    requires Named(babies) && c in Initials(babies, upper)
    ensures Filter(babies, HasInitial(c, upper)) != []
  {
    var i :| 0 <= i < |babies| && Initial(babies[i], upper) == c;
    assert HasInitial(c, upper)(babies[i]);
  }

  function Flatten(groups: seq<Group>): seq<Baby> {
    if groups == [] then [] else groups[0].babies + Flatten(groups[1..])
  }

  lemma FlattenStep(babies: seq<Baby>, keys: seq<char>, upper: char -> char)
    requires keys != []
    ensures Flatten(GroupsOf(babies, keys, upper))
         == Filter(babies, HasInitial(keys[0], upper)) + Flatten(GroupsOf(babies, keys[1..], upper))
  {
    var g := GroupsOf(babies, keys, upper);
    assert g[1..] == GroupsOf(babies, keys[1..], upper);
  }

  lemma FilterCons(b: Baby, babies: seq<Baby>, p: Baby -> bool)
    ensures Filter([b] + babies, p) == (if p(b) then [b] else []) + Filter(babies, p)
  {
    assert ([b] + babies)[1..] == babies;
  }

  /** One more baby in front adds it to exactly the group of its initial, if that key is there. */
  lemma {:induction false} FlattenCons(b: Baby, babies: seq<Baby>, keys: seq<char>, upper: char -> char)
    requires |b.name| > 0 && Ascending(keys)
    ensures multiset(Flatten(GroupsOf([b] + babies, keys, upper)))
         == multiset(Flatten(GroupsOf(babies, keys, upper))) + Once(b, Initial(b, upper) in keys)
  {
    if keys != [] {
      var tail := keys[1..];
      assert Ascending(tail);
      FlattenCons(b, babies, tail, upper);
      KeySplit(keys, Initial(b, upper));
      FlattenConsStep(b, babies, keys, upper);
    }
  }

  /** The step of `FlattenCons`: the first group takes `b` exactly when its key is `b`'s initial. */
  lemma FlattenConsStep(b: Baby, babies: seq<Baby>, keys: seq<char>, upper: char -> char)
    requires |b.name| > 0 && keys != []
    requires Initial(b, upper) in keys <==> Initial(b, upper) == keys[0] || Initial(b, upper) in keys[1..]
    requires Initial(b, upper) == keys[0] ==> Initial(b, upper) !in keys[1..]
    requires multiset(Flatten(GroupsOf([b] + babies, keys[1..], upper)))
          == multiset(Flatten(GroupsOf(babies, keys[1..], upper))) + Once(b, Initial(b, upper) in keys[1..])
    ensures multiset(Flatten(GroupsOf([b] + babies, keys, upper)))
         == multiset(Flatten(GroupsOf(babies, keys, upper))) + Once(b, Initial(b, upper) in keys)
  {
    var c := Initial(b, upper);
    var tail := keys[1..];
    var p := HasInitial(keys[0], upper);
    var withB := Flatten(GroupsOf([b] + babies, tail, upper));
    var without := Flatten(GroupsOf(babies, tail, upper));
    var f := Filter(babies, p);
    var before := Flatten(GroupsOf(babies, keys, upper));
    var after := Flatten(GroupsOf([b] + babies, keys, upper));
    var head := Filter([b] + babies, p);
    FlattenStep([b] + babies, keys, upper);
    FlattenStep(babies, keys, upper);
    FilterCons(b, babies, p);
    if c == keys[0] {
      assert Once(b, c in tail) == multiset{};
      JoinedWith(b, after, before, f, withB, without);
    } else {
      assert Once(b, c in keys) == Once(b, c in tail);
      JoinedBeside(after, before, f, withB, without, Once(b, c in tail));
    }
  }

  /** A row put in front of the first part of a split list adds it to the list's multiset. */
  lemma JoinedWith(b: Baby, after: seq<Baby>, before: seq<Baby>, f: seq<Baby>, withB: seq<Baby>, without: seq<Baby>)
    requires before == f + without && after == [b] + f + withB
    requires multiset(withB) == multiset(without) + multiset{}
    ensures multiset(after) == multiset(before) + Once(b, true)
  {
  }

  /** Rows added to the second part of a split list are added to the whole list's multiset. */
  lemma JoinedBeside(after: seq<Baby>, before: seq<Baby>, f: seq<Baby>, withB: seq<Baby>, without: seq<Baby>,
                     added: multiset<Baby>)
    requires before == f + without && after == f + withB
    requires multiset(withB) == multiset(without) + added
    ensures multiset(after) == multiset(before) + added
  {
  }

  /** `b` once if `present`, otherwise nothing. */
  function Once(b: Baby, present: bool): multiset<Baby> {
    if present then multiset{b} else multiset{}
  }

  lemma KeySplit(keys: seq<char>, c: char)
    requires keys != [] && Ascending(keys)
    ensures c in keys <==> c == keys[0] || c in keys[1..]
    ensures c == keys[0] ==> c !in keys[1..]
  {
    assert keys == [keys[0]] + keys[1..];
  }

  lemma {:induction false} FlattenNone(keys: seq<char>, upper: char -> char)
    ensures Flatten(GroupsOf([], keys, upper)) == []
  {
    if keys != [] {
      FlattenNone(keys[1..], upper);
    }
  }

  lemma {:induction false} FlattenAll(babies: seq<Baby>, keys: seq<char>, upper: char -> char)
    requires Named(babies) && Ascending(keys)
    requires forall i :: 0 <= i < |babies| ==> Initial(babies[i], upper) in keys
    ensures multiset(Flatten(GroupsOf(babies, keys, upper))) == multiset(babies)
  {
    if babies == [] {
      FlattenNone(keys, upper);
    } else {
      var rest := babies[1..];
      assert babies == [babies[0]] + rest;
      assert forall i :: 0 <= i < |rest| ==> rest[i] == babies[i + 1];
      FlattenAll(rest, keys, upper);
      FlattenCons(babies[0], rest, keys, upper);
    }
  }

  /** The groups, read one after another, hold every baby exactly as often as the list does. */
  lemma GroupsArePermutation(babies: seq<Baby>, upper: char -> char)
    requires Named(babies)
    ensures multiset(Flatten(GroupByInitial(babies, upper).value)) == multiset(babies)
  {
    FlattenAll(babies, Initials(babies, upper), upper);
  }

  /** `isSelected = baby.id == currentBaby?.id` */
  function IsHighlighted(b: Baby, currentBaby: Option<Baby>): (h: bool)
    ensures currentBaby.None? ==> !h
    ensures currentBaby.Some? ==> (h <==> b.id == currentBaby.value.id)
  {
    currentBaby.Some? && b.id == currentBaby.value.id
  }

  /** With unique keys at most one baby of the list is highlighted, and it is the current baby's row. */
  lemma AtMostOneHighlighted(babies: seq<Baby>, currentBaby: Option<Baby>, i: int, j: int)
    requires UniqueIds(babies, BabyId) && 0 <= i < |babies| && 0 <= j < |babies|
    requires IsHighlighted(babies[i], currentBaby) && IsHighlighted(babies[j], currentBaby)
    ensures i == j && currentBaby.Some? && babies[i].id == currentBaby.value.id
  {
  }

  /** The text before the birthday: "女" for gender 0, "男" for anything else. */
  function GenderLabel(gender: int): (text: string)
    ensures text == "女" <==> gender == 0
    ensures text == "女" || text == "男"
  {
    if gender == 0 then "女" else "男"
  }
}
