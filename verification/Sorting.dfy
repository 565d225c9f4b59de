/** ORDER BY a key no two rows share, and why its result is the only one there is. */
module Sorting {
  ghost predicate DistinctKeys<T>(rows: seq<T>, key: T -> int) {
    forall i, j :: 0 <= i < j < |rows| ==> key(rows[i]) != key(rows[j])
  }

  ghost predicate Ascending<T>(rows: seq<T>, key: T -> int) {
    forall i, j :: 0 <= i < j < |rows| ==> key(rows[i]) < key(rows[j])
  }

  function Insert<T>(row: T, rows: seq<T>, key: T -> int): (r: seq<T>)
    ensures |r| == |rows| + 1
  {
    if rows == [] || key(row) <= key(rows[0]) then [row] + rows else [rows[0]] + Insert(row, rows[1..], key)
  }

  /** `ORDER BY key ASC`. */
  function SortBy<T>(rows: seq<T>, key: T -> int): (r: seq<T>)
    ensures |r| == |rows|
  {
    if rows == [] then [] else Insert(rows[0], SortBy(rows[1..], key), key)
  }

  function Reverse<T>(rows: seq<T>): (r: seq<T>)
    ensures |r| == |rows| && forall i :: 0 <= i < |r| ==> r[i] == rows[|rows| - 1 - i]
  {
    seq(|rows|, i requires 0 <= i < |rows| => rows[|rows| - 1 - i])
  }

  lemma {:induction false} InsertHas<T(!new)>(row: T, rows: seq<T>, key: T -> int)
    ensures forall x :: x in Insert(row, rows, key) <==> x in rows || x == row
    decreases |rows|
  {
    if rows != [] {
      InsertHas(row, rows[1..], key);
      assert rows == [rows[0]] + rows[1..];
    }
  }

  /** Sorting neither loses nor adds rows. */
  lemma {:induction false} SortHas<T(!new)>(rows: seq<T>, key: T -> int)
    ensures forall x :: x in SortBy(rows, key) <==> x in rows
    decreases |rows|
  {
    if rows != [] {
      SortHas(rows[1..], key);
      InsertHas(rows[0], SortBy(rows[1..], key), key);
      assert rows == [rows[0]] + rows[1..];
    }
  }

  lemma {:induction false} InsertAscends<T(!new)>(row: T, rows: seq<T>, key: T -> int)
    requires Ascending(rows, key) && forall x <- rows :: key(x) != key(row)
    ensures Ascending(Insert(row, rows, key), key)
    decreases |rows|
  {
    if rows != [] && key(row) > key(rows[0]) {
      assert forall x <- rows[1..] :: x in rows;
      InsertAscends(row, rows[1..], key);
      InsertHas(row, rows[1..], key);
      var rest := Insert(row, rows[1..], key);
      forall i | 0 <= i < |rest|
        ensures key(rows[0]) < key(rest[i])
      {
        assert rest[i] in rest;
      }
    } else if rows != [] {
      assert rows[0] in rows;
    }
  }

  lemma {:induction false} SortAscends<T(!new)>(rows: seq<T>, key: T -> int)
    requires DistinctKeys(rows, key)
    ensures Ascending(SortBy(rows, key), key)
    decreases |rows|
  {
    if rows != [] {
      SortAscends(rows[1..], key);
      SortHas(rows[1..], key);
      forall x <- SortBy(rows[1..], key)
        ensures key(x) != key(rows[0])
      {
        assert x in rows[1..];
      }
      InsertAscends(rows[0], SortBy(rows[1..], key), key);
    }
  }

  /** Two ascending sequences of the same rows are one and the same. */
  lemma {:induction false} AscendingIsUnique<T(!new)>(xs: seq<T>, ys: seq<T>, key: T -> int)
    requires Ascending(xs, key) && Ascending(ys, key) && forall x :: x in xs <==> x in ys
    ensures xs == ys
    decreases |xs|
  {
    if xs == [] {
      assert forall i :: 0 <= i < |ys| ==> ys[i] in ys;
    } else {
      assert xs[0] in ys;
      assert ys[0] in xs;
      assert xs[0] == ys[0];
      forall x
        ensures x in xs[1..] <==> x in ys[1..]
      {
        assert x in xs[1..] <==> x in xs && x != xs[0];
        assert x in ys[1..] <==> x in ys && x != ys[0];
      }
      AscendingIsUnique(xs[1..], ys[1..], key);
    }
  }
}
