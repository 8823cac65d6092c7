/**
 * The relational building blocks the DAO queries are made of: `WHERE` (Filter), `COUNT(*)`,
 * `SUM(...)`, `ORDER BY key DESC`, and row-level update and delete by primary key.
 * Tables are sequences of rows; a query result is a sequence too.
 */
module Query {
  import opened Wrappers
  import opened ErrorHandler

  /** The storage engine's constraint errors, as the table methods throw them. */
  const ForeignKeyViolation: Throwable := Throwable(Constraint, Some("FOREIGN KEY constraint failed"))
  const PrimaryKeyViolation: Throwable := Throwable(Constraint, Some("UNIQUE constraint failed"))

  /** `WHERE p`, keeping table order. */
  function Filter<T>(s: seq<T>, p: T -> bool): (r: seq<T>)
    ensures |r| <= |s|
    ensures forall i :: 0 <= i < |r| ==> r[i] in s && p(r[i])
    ensures forall i :: 0 <= i < |s| && p(s[i]) ==> s[i] in r
    ensures multiset(r) <= multiset(s)
  {
    if s == [] then []
    else
      assert s == [s[0]] + s[1..];
      if p(s[0]) then [s[0]] + Filter(s[1..], p) else Filter(s[1..], p)
  }

  lemma {:induction false} FilterAppend<T>(a: seq<T>, b: seq<T>, p: T -> bool)
    ensures Filter(a + b, p) == Filter(a, p) + Filter(b, p)
  {
    if a == [] {
      assert a + b == b;
    } else {
      assert (a + b)[1..] == a[1..] + b;
      FilterAppend(a[1..], b, p);
    }
  }

  /** Filtering twice with the first predicate implied by the second is filtering once. */
  lemma {:induction false} FilterNarrow<T>(s: seq<T>, p: T -> bool, q: T -> bool)
    requires forall x :: q(x) ==> p(x)
    ensures Filter(Filter(s, p), q) == Filter(s, q)
  {
    if s != [] {
      FilterNarrow(s[1..], p, q);
    }
  }

  /** `SELECT COUNT(*) ... WHERE p` */
  function Count<T>(s: seq<T>, p: T -> bool): (n: nat)
    ensures n <= |s|
    ensures n == 0 <==> forall i :: 0 <= i < |s| ==> !p(s[i])
  {
    FilterEmpty(s, p);
    |Filter(s, p)|
  }

  /** The count splits into the first row and the rest. */
  lemma CountCons<T>(s: seq<T>, p: T -> bool)
    requires s != []
    ensures Count(s, p) == (if p(s[0]) then 1 else 0) + Count(s[1..], p)
  {
  }

  lemma {:induction false} FilterEmpty<T>(s: seq<T>, p: T -> bool)
    ensures Filter(s, p) == [] <==> forall i :: 0 <= i < |s| ==> !p(s[i])
  {
    if s != [] {
      FilterEmpty(s[1..], p);
      assert forall i :: 1 <= i < |s| ==> s[i] == s[1..][i - 1];
    }
  }

  /** Filtering keeps primary keys unique. */
  lemma {:induction false} FilterUnique<T>(s: seq<T>, p: T -> bool, idOf: T -> int)
    requires UniqueIds(s, idOf)
    ensures UniqueIds(Filter(s, p), idOf)
  {
    if s != [] {
      FilterUnique(s[1..], p, idOf);
      if p(s[0]) {
        var t := Filter(s[1..], p);
        forall j | 0 <= j < |t| ensures idOf(t[j]) != idOf(s[0]) {
          var k :| 0 <= k < |s[1..]| && s[1..][k] == t[j];
          assert s[k + 1] == t[j];
        }
      }
    }
  }

  /** `SUM(f)` over every row (an empty table sums to 0). */
  function SumOf<T>(s: seq<T>, f: T -> int): int
  {
    if s == [] then 0 else f(s[0]) + SumOf(s[1..], f)
  }

  lemma {:induction false} SumOfAppend<T>(a: seq<T>, b: seq<T>, f: T -> int)
    ensures SumOf(a + b, f) == SumOf(a, f) + SumOf(b, f)
  {
    if a == [] {
      assert a + b == b;
    } else {
      assert (a + b)[1..] == a[1..] + b;
      SumOfAppend(a[1..], b, f);
    }
  }

  /** Rows whose summand is 0 do not change a sum. */
  lemma {:induction false} SumOfZeros<T>(s: seq<T>, f: T -> int)
    requires forall i :: 0 <= i < |s| ==> f(s[i]) == 0
    ensures SumOf(s, f) == 0
  {
    if s != [] {
      SumOfZeros(s[1..], f);
    }
  }

  /** The tail of a sequence is its multiset less one occurrence of the head. */
  lemma MultisetTail<T>(s: seq<T>)
    requires s != []
    ensures multiset(s[1..]) == multiset(s) - multiset{s[0]}
  {
    assert s == [s[0]] + s[1..];
  }

  /** Taking out the row at `k` takes one occurrence of it out of the multiset. */
  lemma MultisetWithout<T>(s: seq<T>, k: int)
    requires 0 <= k < |s|
    ensures multiset(s[..k] + s[k + 1..]) == multiset(s) - multiset{s[k]}
  {
    assert s == s[..k] + [s[k]] + s[k + 1..];
  }

  /** A row of the multiset sits at some index of the sequence. */
  lemma IndexIn<T>(x: T, s: seq<T>) returns (k: int)
    requires x in multiset(s)
    ensures 0 <= k < |s| && s[k] == x
  {
    assert x in s;
    k :| 0 <= k < |s| && s[k] == x;
  }

  /** Taking out the row at `k` takes its summand out of the sum. */
  lemma SumWithout<T>(s: seq<T>, k: int, f: T -> int)
    requires 0 <= k < |s|
    ensures SumOf(s, f) == f(s[k]) + SumOf(s[..k] + s[k + 1..], f)
  {
    assert s == s[..k] + [s[k]] + s[k + 1..];
    SumOfAppend(s[..k] + [s[k]], s[k + 1..], f);
    SumOfAppend(s[..k], [s[k]], f);
    SumOfAppend(s[..k], s[k + 1..], f);
  }

  /** A sum does not depend on the order of its rows. */
  lemma {:induction false} SumOfPermutation<T>(a: seq<T>, b: seq<T>, f: T -> int)
    requires multiset(a) == multiset(b)
    ensures SumOf(a, f) == SumOf(b, f)
    decreases |a|
  {
    if a != [] {
      var k := IndexIn(a[0], b);
      var rest := b[..k] + b[k + 1..];
      MultisetTail(a);
      MultisetWithout(b, k);
      SumOfPermutation(a[1..], rest, f);
      SumWithout(b, k, f);
    }
  }

  /** Every key is at least as large as every key after it. */
  predicate SortedDesc<T>(s: seq<T>, key: T -> int) {
    forall i, j :: 0 <= i < j < |s| ==> key(s[i]) >= key(s[j])
  }

  /** A row no smaller than the head of a sorted list can go in front of it. */
  lemma ConsSorted<T>(h: T, t: seq<T>, key: T -> int)
    requires SortedDesc(t, key)
    requires t != [] ==> key(h) >= key(t[0])
    ensures SortedDesc([h] + t, key)
  {
    var r := [h] + t;
    forall i, j | 0 <= i < j < |r| ensures key(r[i]) >= key(r[j]) {
      assert r[j] == t[j - 1];
      if i > 0 {
        assert r[i] == t[i - 1];
      } else {
        assert key(t[0]) >= key(t[j - 1]);
      }
    }
  }

  /** Inserts `x` in front of the first row whose key is not larger, so equal keys keep their order. */
  function InsertDesc<T>(x: T, s: seq<T>, key: T -> int): (r: seq<T>)
    ensures |r| == |s| + 1
    ensures multiset(r) == multiset(s) + multiset{x}
  {
    if s == [] then [x]
    else if key(x) >= key(s[0]) then [x] + s
    else
      assert s == [s[0]] + s[1..];
      [s[0]] + InsertDesc(x, s[1..], key)
  }

  /** Inserting into a sorted list keeps it sorted; the new head is the larger of `x` and the old head. */
  lemma {:induction false} InsertDescSorted<T>(x: T, s: seq<T>, key: T -> int)
    requires SortedDesc(s, key)
    ensures key(InsertDesc(x, s, key)[0]) == if s != [] && key(x) < key(s[0]) then key(s[0]) else key(x)
    ensures SortedDesc(InsertDesc(x, s, key), key)
  {
    if s == [] {
    } else if key(x) >= key(s[0]) {
      ConsSorted(x, s, key);
    } else {
      assert SortedDesc(s[1..], key);
      InsertDescSorted(x, s[1..], key);
      ConsSorted(s[0], InsertDesc(x, s[1..], key), key);
    }
  }

  /** Whatever is in a multiset built from a sequence is an element of it. */
  lemma SameElements<T>(a: seq<T>, b: seq<T>)
    requires multiset(a) == multiset(b)
    ensures forall i :: 0 <= i < |a| ==> a[i] in b
  {
    forall i | 0 <= i < |a| ensures a[i] in b {
      assert a[i] in multiset(a);
    }
  }

  /** `ORDER BY key DESC`: a stable insertion sort. */
  function SortDesc<T>(s: seq<T>, key: T -> int): (r: seq<T>)
    ensures SortedDesc(r, key)
    ensures multiset(r) == multiset(s)
    ensures |r| == |s|
    ensures forall i :: 0 <= i < |r| ==> r[i] in s
    ensures forall i :: 0 <= i < |s| ==> s[i] in r
  {
    if s == [] then []
    else
      assert s == [s[0]] + s[1..];
      var r := InsertDesc(s[0], SortDesc(s[1..], key), key);
      InsertDescSorted(s[0], SortDesc(s[1..], key), key);
      SameElements(r, s);
      SameElements(s, r);
      r
  }

  /** In a list sorted in descending order, every key lies between the last key and the first. */
  lemma SortedBetweenEnds<T>(s: seq<T>, key: T -> int)
    requires SortedDesc(s, key) && s != []
    ensures forall j :: 0 <= j < |s| ==> key(s[|s| - 1]) <= key(s[j]) <= key(s[0])
  {
    forall j | 0 <= j < |s| ensures key(s[|s| - 1]) <= key(s[j]) <= key(s[0]) {
      assert j == 0 || key(s[0]) >= key(s[j]);
      assert j == |s| - 1 || key(s[j]) >= key(s[|s| - 1]);
    }
  }

  /** The sort is stable: a list already in order comes back unchanged. */
  lemma {:induction false} SortDescOfSorted<T>(s: seq<T>, key: T -> int)
    requires SortedDesc(s, key)
    ensures SortDesc(s, key) == s
  {
    if s != [] {
      assert SortedDesc(s[1..], key);
      SortDescOfSorted(s[1..], key);
      assert s == [s[0]] + s[1..];
    }
  }

  /** `SELECT * ... WHERE p ORDER BY key DESC` */
  function Select<T>(s: seq<T>, p: T -> bool, key: T -> int): (r: seq<T>)
    ensures forall i :: 0 <= i < |r| ==> r[i] in s && p(r[i])
    ensures forall i :: 0 <= i < |s| && p(s[i]) ==> s[i] in r
    ensures |r| == Count(s, p)
    ensures SortedDesc(r, key)
  {
    var f := Filter(s, p);
    var r := SortDesc(f, key);
    assert forall i :: 0 <= i < |r| ==> r[i] in s && p(r[i]) by {
      forall i | 0 <= i < |r| ensures r[i] in s && p(r[i]) {
        var j :| 0 <= j < |f| && f[j] == r[i];
      }
    }
    r
  }

  /** Narrowing the condition selects a sub-multiset. */
  lemma SelectNarrow<T>(s: seq<T>, p: T -> bool, q: T -> bool, key: T -> int)
    requires forall x :: q(x) ==> p(x)
    ensures multiset(Select(s, q, key)) <= multiset(Select(s, p, key))
  {
    FilterNarrow(s, p, q);
    assert multiset(Filter(Filter(s, p), q)) <= multiset(Filter(s, p));
  }

  /** No two rows share a primary key. */
  predicate UniqueIds<T>(s: seq<T>, idOf: T -> int) {
    forall i, j :: 0 <= i < j < |s| ==> idOf(s[i]) != idOf(s[j])
  }

  function Ids<T>(s: seq<T>, idOf: T -> int): (r: set<int>)
    ensures forall i :: 0 <= i < |s| ==> idOf(s[i]) in r
    ensures forall k :: k in r ==> exists i :: 0 <= i < |s| && idOf(s[i]) == k
  {
    set i | 0 <= i < |s| :: idOf(s[i])
  }

  /** `UPDATE ... WHERE id = x.id`: the row with `x`'s key becomes `x`; no row matches, nothing changes. */
  function ReplaceById<T>(s: seq<T>, x: T, idOf: T -> int): (r: seq<T>)
    ensures |r| == |s|
    ensures forall i :: 0 <= i < |s| ==> r[i] == if idOf(s[i]) == idOf(x) then x else s[i]
    ensures forall i :: 0 <= i < |s| ==> idOf(r[i]) == idOf(s[i])
  {
    seq(|s|, i requires 0 <= i < |s| => if idOf(s[i]) == idOf(x) then x else s[i])
  }

  /** `DELETE ... WHERE id = k` */
  function RemoveById<T>(s: seq<T>, k: int, idOf: T -> int): (r: seq<T>)
    ensures forall i :: 0 <= i < |r| ==> r[i] in s && idOf(r[i]) != k
    ensures forall i :: 0 <= i < |s| && idOf(s[i]) != k ==> s[i] in r
    ensures UniqueIds(s, idOf) ==> UniqueIds(r, idOf)
  {
    var keep := y => idOf(y) != k;
    if UniqueIds(s, idOf) then FilterUnique(s, keep, idOf); Filter(s, keep) else Filter(s, keep)
  }

  /** Deleting by key removes exactly that key from the table's key set. */
  lemma IdsAfterRemove<T>(s: seq<T>, k: int, idOf: T -> int)
    ensures Ids(RemoveById(s, k, idOf), idOf) == Ids(s, idOf) - {k}
  {
    var r := RemoveById(s, k, idOf);
    forall x | x in Ids(r, idOf) ensures x in Ids(s, idOf) - {k} {
      var i :| 0 <= i < |r| && idOf(r[i]) == x;
      var j :| 0 <= j < |s| && s[j] == r[i];
    }
    forall x | x in Ids(s, idOf) - {k} ensures x in Ids(r, idOf) {
      var i :| 0 <= i < |s| && idOf(s[i]) == x;
      var j :| 0 <= j < |r| && r[j] == s[i];
    }
  }
}
