/**
 * Tables of the relational store, as sequences of rows in storage order,
 * and the query shapes the repositories use on them: first match, filter,
 * order by a time column, and offset/limit pages.
 */
module Tables {
  import opened Common

  /**
   * The storage operations of the repositories. A repository fails an
   * operation listed in its `failing` set with a storage error, standing
   * for a database that is unreachable or rejects the statement.
   */
  datatype Op =
    | FindById | FindByEmail | FindByName | FindByDono | FindByPetshop | FindByPet
    | FindFuture | FindCity | Insert | Save | SaveStatus | Remove | ListPage

  /** Position of the first row satisfying `p`, or `|rows|` when none does. */
  function IndexWhere<T>(rows: seq<T>, p: T -> bool): (k: nat)
    ensures k <= |rows|
    ensures k < |rows| ==> p(rows[k])
    ensures forall j | 0 <= j < k :: !p(rows[j])
  {
    if rows == [] then 0
    else if p(rows[0]) then 0
    else 1 + IndexWhere(rows[1..], p)
  }

  /** The first row satisfying `p` (the `First` of a query). */
  function FirstWhere<T>(rows: seq<T>, p: T -> bool): (r: Option<T>)
    ensures r.Some? ==> p(r.value) && r.value in rows
    ensures r.None? <==> forall j | 0 <= j < |rows| :: !p(rows[j])
  {
    var k := IndexWhere(rows, p);
    if k < |rows| then Some(rows[k]) else None
  }

  /** No two rows share a key: the primary-key or unique-index constraint. */
  predicate Distinct<T>(rows: seq<T>, key: T -> string)
  {
    forall i, j | 0 <= i < |rows| && 0 <= j < |rows| && key(rows[i]) == key(rows[j]) :: i == j
  }

  /** Position of the first row whose key is `v`, or `|rows|` when there is none. */
  function IndexOfKey<T>(rows: seq<T>, key: T -> string, v: string): (k: nat)
    ensures k <= |rows|
    ensures k < |rows| ==> key(rows[k]) == v
    ensures forall j | 0 <= j < k :: key(rows[j]) != v
  {
    IndexWhere(rows, (x: T) => key(x) == v)
  }

  /** The first row whose key is `v` (`First(&row, "key = ?", v)`). */
  function FindKey<T>(rows: seq<T>, key: T -> string, v: string): (r: Option<T>)
    ensures r.Some? ==> key(r.value) == v && r.value in rows
    ensures r.None? <==> forall j | 0 <= j < |rows| :: key(rows[j]) != v
  {
    var k := IndexOfKey(rows, key, v);
    if k < |rows| then Some(rows[k]) else None
  }

  /** When keys are distinct, the row holding a key is the one found for it. */
  lemma DistinctFind<T>(rows: seq<T>, key: T -> string, j: nat)
    requires Distinct(rows, key) && j < |rows|
    ensures IndexOfKey(rows, key, key(rows[j])) == j
    ensures FindKey(rows, key, key(rows[j])) == Some(rows[j])
  {
    var k := IndexOfKey(rows, key, key(rows[j]));
    assert !(k < j);
  }

  lemma DistinctSnoc<T>(rows: seq<T>, key: T -> string, x: T)
    requires Distinct(rows, key)
    requires forall j | 0 <= j < |rows| :: key(rows[j]) != key(x)
    ensures Distinct(rows + [x], key)
  {
  }

  lemma DistinctUpdate<T>(rows: seq<T>, key: T -> string, k: nat, x: T)
    requires Distinct(rows, key) && k < |rows|
    requires forall j | 0 <= j < |rows| && j != k :: key(rows[j]) != key(x)
    ensures Distinct(rows[k := x], key)
  {
  }

  /** The rows without the one at position `k`. */
  function RemoveAt<T>(rows: seq<T>, k: nat): (r: seq<T>)
    requires k < |rows|
    ensures |r| == |rows| - 1
    ensures forall j | 0 <= j < k :: r[j] == rows[j]
    ensures forall j | k <= j < |r| :: r[j] == rows[j + 1]
  {
    rows[..k] + rows[k + 1..]
  }

  /** Removing the row with a key keeps the others and leaves no row with that key. */
  lemma DistinctRemove<T>(rows: seq<T>, key: T -> string, k: nat)
    requires Distinct(rows, key) && k < |rows|
    ensures Distinct(RemoveAt(rows, k), key)
    ensures forall j | 0 <= j < |rows| - 1 :: key(RemoveAt(rows, k)[j]) != key(rows[k])
    ensures forall x | x in rows && key(x) != key(rows[k]) :: x in RemoveAt(rows, k)
  {
    var r := RemoveAt(rows, k);
    forall i, j | 0 <= i < |r| && 0 <= j < |r| && key(r[i]) == key(r[j])
      ensures i == j
    {
      var i' := if i < k then i else i + 1;
      var j' := if j < k then j else j + 1;
      assert r[i] == rows[i'] && r[j] == rows[j'];
    }
    forall j | 0 <= j < |r| ensures key(r[j]) != key(rows[k]) {
      var j' := if j < k then j else j + 1;
      assert r[j] == rows[j'];
    }
    forall x | x in rows && key(x) != key(rows[k]) ensures x in r {
      var i :| 0 <= i < |rows| && rows[i] == x;
      if i < k { assert r[i] == x; } else { assert r[i - 1] == x; }
    }
  }

  /** The rows satisfying `p`, in storage order (a `WHERE` clause). */
  function Filter<T>(rows: seq<T>, p: T -> bool): (r: seq<T>)
    ensures |r| <= |rows|
    ensures forall x | x in r :: x in rows && p(x)
    ensures forall x | x in rows && p(x) :: x in r
    ensures multiset(r) <= multiset(rows)
  {
    if rows == [] then []
    else
      assert rows == [rows[0]] + rows[1..];
      (if p(rows[0]) then [rows[0]] else []) + Filter(rows[1..], p)
  }

  /** Ordered from the latest to the earliest value of `key` (`ORDER BY ... DESC`). */
  predicate SortedDesc<T>(s: seq<T>, key: T -> int)
  {
    forall i, j | 0 <= i < j < |s| :: key(s[i]) >= key(s[j])
  }

  /** A list sorted latest first is so without its last element, which is its earliest. */
  lemma SortedDescSplit<T>(s: seq<T>, key: T -> int)
    requires SortedDesc(s, key) && |s| > 0
    ensures SortedDesc(s[..|s| - 1], key)
    ensures forall x | x in s[..|s| - 1] :: key(x) >= key(s[|s| - 1])
  {
  }

  /** Ordered from the earliest to the latest value of `key` (`ORDER BY ... ASC`). */
  predicate SortedAsc<T>(s: seq<T>, key: T -> int)
  {
    forall i, j | 0 <= i < j < |s| :: key(s[i]) <= key(s[j])
  }

  /** A row no later than the head of a latest-first list can precede it. */
  lemma SortedDescCons<T>(h: T, t: seq<T>, key: T -> int)
    requires SortedDesc(t, key)
    requires t == [] || key(h) >= key(t[0])
    ensures SortedDesc([h] + t, key)
  {
    var r := [h] + t;
    forall i, j | 0 <= i < j < |r| ensures key(r[i]) >= key(r[j]) {
      if i == 0 {
        assert key(t[0]) >= key(t[j - 1]) || j == 1;
      } else {
        assert r[i] == t[i - 1] && r[j] == t[j - 1];
      }
    }
  }

  /** `x` inserted into a latest-first list before the first row that is no later than it. */
  function InsertDesc<T>(x: T, s: seq<T>, key: T -> int): (r: seq<T>)
    ensures |r| == |s| + 1
  {
    if s == [] || key(x) >= key(s[0]) then [x] + s
    else [s[0]] + InsertDesc(x, s[1..], key)
  }

  /** Inserting into a latest-first list keeps it latest first. */
  lemma {:induction false} InsertDescSorted<T>(x: T, s: seq<T>, key: T -> int)
    requires SortedDesc(s, key)
    ensures SortedDesc(InsertDesc(x, s, key), key)
    ensures InsertDesc(x, s, key)[0] == x || (|s| > 0 && InsertDesc(x, s, key)[0] == s[0])
  {
    if s == [] || key(x) >= key(s[0]) {
      SortedDescCons(x, s, key);
    } else {
      InsertDescSorted(x, s[1..], key);
      assert |s| > 1 ==> key(s[0]) >= key(s[1]);
      SortedDescCons(s[0], InsertDesc(x, s[1..], key), key);
    }
  }

  /** Inserting adds exactly the one row. */
  lemma {:induction false} InsertDescPermutes<T>(x: T, s: seq<T>, key: T -> int)
    ensures multiset(InsertDesc(x, s, key)) == multiset(s) + multiset{x}
  {
    if !(s == [] || key(x) >= key(s[0])) {
      InsertDescPermutes(x, s[1..], key);
      assert s == [s[0]] + s[1..];
    }
  }

  /** A permutation has the same members. */
  lemma SameMembers<T>(a: seq<T>, b: seq<T>)
    requires multiset(a) == multiset(b)
    ensures forall x | x in a :: x in b
  {
    forall x | x in a ensures x in b {
      assert x in multiset(a);
    }
  }

  /** The rows ordered from the latest to the earliest `key`: a permutation, sorted. */
  function SortDesc<T>(s: seq<T>, key: T -> int): (r: seq<T>)
    ensures SortedDesc(r, key)
    ensures multiset(r) == multiset(s)
    ensures forall x | x in r :: x in s
    ensures forall x | x in s :: x in r
  {
    if s == [] then []
    else
      assert s == [s[0]] + s[1..];
      var t := SortDesc(s[1..], key);
      InsertDescSorted(s[0], t, key);
      InsertDescPermutes(s[0], t, key);
      var r := InsertDesc(s[0], t, key);
      SameMembers(r, s);
      SameMembers(s, r);
      r
  }

  /** The rows ordered from the earliest to the latest `key`: a permutation, sorted. */
  function SortAsc<T>(s: seq<T>, key: T -> int): (r: seq<T>)
    ensures SortedAsc(r, key)
    ensures multiset(r) == multiset(s)
    ensures forall x | x in r :: x in s
    ensures forall x | x in s :: x in r
  {
    var neg := (x: T) => -key(x);
    var r := SortDesc(s, neg);
    assert forall i, j | 0 <= i < j < |r| :: neg(r[i]) >= neg(r[j]);
    r
  }

  function Min(a: int, b: int): int
  {
    if a <= b then a else b
  }

  /** The page number a list query uses: anything below one means the first page. */
  function NormalizePage(page: int): (p: int)
    ensures p >= 1
    ensures page >= 1 ==> p == page
    ensures page < 1 ==> p == 1
  {
    if page <= 0 then 1 else page
  }

  /** The page size a list query uses: outside 1..100 it falls back to ten. */
  function NormalizeLimit(limit: int): (l: int)
    ensures 1 <= l <= 100
    ensures 1 <= limit <= 100 ==> l == limit
    ensures !(1 <= limit <= 100) ==> l == 10
  {
    if limit <= 0 || limit > 100 then 10 else limit
  }

  /** The rows skipped before page `page` of size `limit`: `(page - 1) * limit`. */
  function PageOffset(page: int, limit: int): (offset: nat)
    requires page >= 1 && limit >= 1
    ensures offset + limit == page * limit
  {
    var n: nat := page - 1;
    var l: nat := limit;
    n * l
  }

  /** `OFFSET offset LIMIT limit` over the rows in storage order. */
  function Window<T>(rows: seq<T>, offset: nat, limit: nat): (r: seq<T>)
    ensures |r| <= limit
    ensures offset >= |rows| ==> r == []
    ensures forall k | 0 <= k < |r| :: offset + k < |rows| && r[k] == rows[offset + k]
    ensures forall x | x in r :: x in rows
  {
    rows[Min(offset, |rows|)..Min(offset + limit, |rows|)]
  }

  /** Pages 1 to n of size `limit`, one after the other. */
  function Pages<T>(rows: seq<T>, limit: nat, n: nat): seq<T>
  {
    if n == 0 then [] else Pages(rows, limit, n - 1) + Window(rows, (n - 1) * limit, limit)
  }

  /**
   * Walking the pages in order visits the table's rows in storage order,
   * each exactly once: the first n pages are exactly its first n*limit rows.
   */
  lemma {:induction false} PagesTileTable<T>(rows: seq<T>, limit: nat, n: nat)
    ensures Pages(rows, limit, n) == rows[..Min(n * limit, |rows|)]
  {
    if n > 0 {
      PagesTileTable(rows, limit, n - 1);
      var lo := Min((n - 1) * limit, |rows|);
      var hi := Min(n * limit, |rows|);
      assert (n - 1) * limit + limit == n * limit;
      assert Window(rows, (n - 1) * limit, limit) == rows[lo..hi];
      assert rows[..lo] + rows[lo..hi] == rows[..hi];
    }
  }
}
