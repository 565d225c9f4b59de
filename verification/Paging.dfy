/**
 The pagination queries around a filtered select: rows before the cursor, backwards, and rows from the
 cursor on, each cut at the limit, put together in id order.
 */
module Paging {
  import opened Sorting

  /** `LIMIT n`: a negative number means no limit. */
  function Limit<T>(rows: seq<T>, n: int): seq<T> {
    if 0 <= n < |rows| then rows[..n] else rows
  }

  /** `WHERE id < after`. */
  function Below<T>(rows: seq<T>, after: int, key: T -> int): seq<T> {
    if rows == [] then []
    else if key(rows[0]) < after then [rows[0]] + Below(rows[1..], after, key)
    else Below(rows[1..], after, key)
  }

  /** `WHERE id >= after`. */
  function From<T>(rows: seq<T>, after: int, key: T -> int): seq<T> {
    if rows == [] then []
    else if key(rows[0]) >= after then [rows[0]] + From(rows[1..], after, key)
    else From(rows[1..], after, key)
  }

  function Prior<T>(rows: seq<T>, after: int, limit: int, key: T -> int): seq<T> {
    Limit(Reverse(SortBy(Below(rows, after, key), key)), limit)
  }

  function After<T>(rows: seq<T>, after: int, limit: int, key: T -> int): seq<T> {
    Limit(SortBy(From(rows, after, key), key), limit)
  }

  /** The whole query over `rows`, the result of the inner select in whatever order it comes. */
  function Page<T>(rows: seq<T>, after: int, limit: int, key: T -> int): seq<T> {
    SortBy(Prior(rows, after, limit, key) + After(rows, after, limit, key), key)
  }

  /** How many rows lie below the cursor. */
  function Rank<T>(rows: seq<T>, after: int, key: T -> int): nat {
    |Below(rows, after, key)|
  }

  function Lo(k: int, limit: int): int {
    if limit < 0 || k < limit then 0 else k - limit
  }

  function Hi(k: int, limit: int, n: int): int {
    if limit < 0 || k + limit > n then n else k + limit
  }

  lemma {:induction false} PartsHave<T(!new)>(rows: seq<T>, after: int, key: T -> int)
    ensures forall x :: x in Below(rows, after, key) <==> x in rows && key(x) < after
    ensures forall x :: x in From(rows, after, key) <==> x in rows && key(x) >= after
    decreases |rows|
  {
    if rows != [] {
      PartsHave(rows[1..], after, key);
      assert rows == [rows[0]] + rows[1..];
    }
  }

  lemma {:induction false} NothingBelow<T>(rows: seq<T>, after: int, key: T -> int)
    requires forall i :: 0 <= i < |rows| ==> key(rows[i]) >= after
    ensures Below(rows, after, key) == []
    decreases |rows|
  {
    if rows != [] {
      NothingBelow(rows[1..], after, key);
    }
  }

  lemma {:induction false} PartsKeepDistinct<T(!new)>(rows: seq<T>, after: int, key: T -> int)
    requires DistinctKeys(rows, key)
    ensures DistinctKeys(Below(rows, after, key), key) && DistinctKeys(From(rows, after, key), key)
    decreases |rows|
  {
    if rows != [] {
      PartsKeepDistinct(rows[1..], after, key);
      PartsHave(rows[1..], after, key);
      DistinctCons(rows[0], Below(rows[1..], after, key), rows, key);
      DistinctCons(rows[0], From(rows[1..], after, key), rows, key);
    }
  }

  lemma DistinctCons<T(!new)>(row: T, rest: seq<T>, rows: seq<T>, key: T -> int)
    requires rows != [] && row == rows[0] && DistinctKeys(rows, key) && DistinctKeys(rest, key)
    requires forall x :: x in rest ==> x in rows[1..]
    ensures DistinctKeys([row] + rest, key)
  {
    forall j | 0 <= j < |rest|
      ensures key(rest[j]) != key(row)
    {
      assert rest[j] in rows[1..];
    }
  }

  /** Both parts sorted, one after the other, are ascending. */
  lemma PartsAscend<T(!new)>(rows: seq<T>, after: int, key: T -> int)
    requires DistinctKeys(rows, key)
    ensures var below, above := SortBy(Below(rows, after, key), key), SortBy(From(rows, after, key), key);
            && (forall i :: 0 <= i < |below| ==> key(below[i]) < after)
            && (forall i :: 0 <= i < |above| ==> key(above[i]) >= after)
            && Ascending(below + above, key)
  {
    PartsKeepDistinct(rows, after, key);
    SortAscends(Below(rows, after, key), key);
    SortAscends(From(rows, after, key), key);
    PartsHave(rows, after, key);
    SortHas(Below(rows, after, key), key);
    SortHas(From(rows, after, key), key);
    var below, above := SortBy(Below(rows, after, key), key), SortBy(From(rows, after, key), key);
    assert forall i :: 0 <= i < |below| ==> below[i] in below;
    assert forall i :: 0 <= i < |above| ==> above[i] in above;
  }

  /** And they hold all rows. */
  lemma PartsHoldAll<T(!new)>(rows: seq<T>, after: int, key: T -> int)
    ensures forall x :: x in SortBy(rows, key) <==>
                        x in SortBy(Below(rows, after, key), key) + SortBy(From(rows, after, key), key)
  {
    PartsHave(rows, after, key);
    SortHas(rows, key);
    SortHas(Below(rows, after, key), key);
    SortHas(From(rows, after, key), key);
  }

  /** The cursor cuts the sorted rows in two: those below, sorted, and the rest, sorted. */
  lemma CursorSplits<T(!new)>(rows: seq<T>, after: int, key: T -> int)
    requires DistinctKeys(rows, key)
    ensures var all, k := SortBy(rows, key), Rank(rows, after, key);
            && k <= |all|
            && SortBy(Below(rows, after, key), key) == all[..k]
            && SortBy(From(rows, after, key), key) == all[k..]
            && (forall j :: 0 <= j < k ==> key(all[j]) < after)
            && (forall j :: k <= j < |all| ==> key(all[j]) >= after)
  {
    var below, above := SortBy(Below(rows, after, key), key), SortBy(From(rows, after, key), key);
    PartsAscend(rows, after, key);
    PartsHoldAll(rows, after, key);
    SortAscends(rows, key);
    AscendingIsUnique(SortBy(rows, key), below + above, key);
    assert below == (below + above)[..|below|] && above == (below + above)[|below|..];
  }

  lemma ReverseHasSame<T(!new)>(rows: seq<T>)
    ensures forall x :: x in Reverse(rows) <==> x in rows
  {
    forall x | x in rows
      ensures x in Reverse(rows)
    {
      var i :| 0 <= i < |rows| && rows[i] == x;
      assert Reverse(rows)[|rows| - 1 - i] == x;
    }
  }

  /** Turning the first part of ascending rows around leaves the keys distinct. */
  lemma TurnedIsDistinct<T(!new)>(front: seq<T>, back: seq<T>, key: T -> int)
    requires Ascending(front + back, key)
    ensures DistinctKeys(Reverse(front) + back, key)
  {
    var all, turned := front + back, Reverse(front) + back;
    forall i, j | 0 <= i < j < |turned|
      ensures key(turned[i]) != key(turned[j])
    {
      var a := if i < |front| then |front| - 1 - i else i;
      var b := if j < |front| then |front| - 1 - j else j;
      assert turned[i] == all[a] && turned[j] == all[b];
    }
  }

  /** What comes back when both halves of a page are sorted together. */
  lemma TurnedSortsBack<T(!new)>(front: seq<T>, back: seq<T>, key: T -> int)
    requires Ascending(front + back, key)
    ensures SortBy(Reverse(front) + back, key) == front + back
  {
    TurnedIsDistinct(front, back, key);
    SortAscends(Reverse(front) + back, key);
    ReverseHasSame(front);
    SortHas(Reverse(front) + back, key);
    AscendingIsUnique(SortBy(Reverse(front) + back, key), front + back, key);
  }

  lemma LimitOfReverse<T(!new)>(rows: seq<T>, limit: int)
    ensures Limit(Reverse(rows), limit) == Reverse(rows[Lo(|rows|, limit)..])
  {
    var r, kept := Reverse(rows), rows[Lo(|rows|, limit)..];
    assert |Limit(r, limit)| == |kept|;
    forall i | 0 <= i < |kept|
      ensures r[i] == Reverse(kept)[i]
    {
      assert kept[|kept| - 1 - i] == rows[|rows| - 1 - i];
    }
  }

  lemma HalvesMeet<T>(all: seq<T>, k: int, limit: int)
    requires 0 <= k <= |all|
    ensures 0 <= Lo(k, limit) <= k <= Hi(k, limit, |all|) <= |all|
    ensures all[..k][Lo(k, limit)..] + Limit(all[k..], limit) == all[Lo(k, limit)..Hi(k, limit, |all|)]
  {
  }

  lemma SliceAscends<T>(all: seq<T>, lo: int, hi: int, key: T -> int)
    requires Ascending(all, key) && 0 <= lo <= hi <= |all|
    ensures Ascending(all[lo..hi], key)
  {
  }

  /** A page is one slice of the rows in id order: at most `limit` on either side of the cursor. */
  lemma PageIsSlice<T(!new)>(rows: seq<T>, after: int, limit: int, key: T -> int)
    requires DistinctKeys(rows, key)
    ensures var all, k := SortBy(rows, key), Rank(rows, after, key);
            && 0 <= Lo(k, limit) <= k <= Hi(k, limit, |all|) <= |all|
            && Page(rows, after, limit, key) == all[Lo(k, limit)..Hi(k, limit, |all|)]
  {
    var all, k := SortBy(rows, key), Rank(rows, after, key);
    CursorSplits(rows, after, key);
    HalvesMeet(all, k, limit);
    LimitOfReverse(all[..k], limit);
    var front, back := all[..k][Lo(k, limit)..], Limit(all[k..], limit);
    assert Ascending(front + back, key) by {
      SortAscends(rows, key);
      SliceAscends(all, Lo(k, limit), Hi(k, limit, |all|), key);
    }
    TurnedSortsBack(front, back, key);
  }

  /** The rank of a row's own id is the row's place. */
  lemma RankOfRow<T(!new)>(rows: seq<T>, i: int, key: T -> int)
    requires DistinctKeys(rows, key) && 0 <= i < |rows|
    ensures Rank(rows, key(SortBy(rows, key)[i]), key) == i
  {
    SortAscends(rows, key);
    CursorSplits(rows, key(SortBy(rows, key)[i]), key);
    CutAt(SortBy(rows, key), Rank(rows, key(SortBy(rows, key)[i]), key), i, key);
  }

  lemma CutAt<T>(all: seq<T>, k: int, i: int, key: T -> int)
    requires Ascending(all, key) && 0 <= k <= |all| && 0 <= i < |all|
    requires forall j :: 0 <= j < k ==> key(all[j]) < key(all[i])
    requires forall j :: k <= j < |all| ==> key(all[j]) >= key(all[i])
    ensures k == i
  {
    var pivot := key(all[i]);
    assert forall j :: 0 <= j < i ==> key(all[j]) < pivot;
    assert k <= i && key(all[k]) >= pivot;
  }
}
