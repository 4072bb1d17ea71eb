/** Rows of a database table as a sequence in insertion order: lookups and sums over the rows. */
module Tables {
  import opened Common

  /** The most recent row with a property. */
  function LastWhere<T>(rows: seq<T>, p: T -> bool): (r: Option<nat>)
    ensures r.None? <==> forall i :: 0 <= i < |rows| ==> !p(rows[i])
    ensures r.Some? ==> r.value < |rows| && p(rows[r.value])
    ensures r.Some? ==> forall i :: r.value < i < |rows| ==> !p(rows[i])
  {
    if |rows| == 0 then None
    else if p(rows[|rows| - 1]) then Some(|rows| - 1)
    else LastWhere(rows[..|rows| - 1], p)
  }

  predicate AnyWhere<T>(rows: seq<T>, p: T -> bool) {
    exists i :: 0 <= i < |rows| && p(rows[i])
  }

  /** The rows with a property, in their order. */
  function Where<T>(rows: seq<T>, p: T -> bool): (r: seq<T>)
    ensures forall i :: 0 <= i < |r| ==> r[i] in rows && p(r[i])
    ensures forall i :: 0 <= i < |rows| && p(rows[i]) ==> rows[i] in r
  {
    if |rows| == 0 then []
    else Where(rows[..|rows| - 1], p) + (if p(rows[|rows| - 1]) then [rows[|rows| - 1]] else [])
  }

  /** The sum of a column over all rows. */
  function Total<T>(rows: seq<T>, f: T -> int): int {
    if |rows| == 0 then 0 else Total(rows[..|rows| - 1], f) + f(rows[|rows| - 1])
  }

  lemma {:induction false} TotalSnoc<T>(rows: seq<T>, row: T, f: T -> int)
    ensures Total(rows + [row], f) == Total(rows, f) + f(row)
  {
    assert (rows + [row])[..|rows|] == rows;
  }

  lemma {:induction false} TotalUpdate<T>(rows: seq<T>, i: nat, row: T, f: T -> int)
    requires i < |rows|
    ensures Total(rows[i := row], f) == Total(rows, f) - f(rows[i]) + f(row)
  {
    var last := |rows| - 1;
    if i == last {
      assert rows[i := row][..last] == rows[..last];
    } else {
      assert rows[i := row][..last] == rows[..last][i := row];
      TotalUpdate(rows[..last], i, row, f);
    }
  }

  lemma {:induction false} TotalAgree<T>(rows: seq<T>, f: T -> int, g: T -> int)
    requires forall i :: 0 <= i < |rows| ==> f(rows[i]) == g(rows[i])
    ensures Total(rows, f) == Total(rows, g)
  {
    if |rows| != 0 { TotalAgree(rows[..|rows| - 1], f, g); }
  }

  /** Columns that add up row by row add up in total. */
  lemma {:induction false} TotalPlus<T>(rows: seq<T>, f: T -> int, g: T -> int, h: T -> int)
    requires forall i :: 0 <= i < |rows| ==> h(rows[i]) == f(rows[i]) + g(rows[i])
    ensures Total(rows, h) == Total(rows, f) + Total(rows, g)
  {
    if |rows| != 0 { TotalPlus(rows[..|rows| - 1], f, g, h); }
  }

  lemma {:induction false} TotalMinus<T>(rows: seq<T>, f: T -> int, g: T -> int, h: T -> int)
    requires forall i :: 0 <= i < |rows| ==> h(rows[i]) == f(rows[i]) - g(rows[i])
    ensures Total(rows, h) == Total(rows, f) - Total(rows, g)
  {
    if |rows| != 0 { TotalMinus(rows[..|rows| - 1], f, g, h); }
  }

  lemma {:induction false} TotalNonnegative<T>(rows: seq<T>, f: T -> int)
    requires forall i :: 0 <= i < |rows| ==> f(rows[i]) >= 0
    ensures Total(rows, f) >= 0
  {
    if |rows| != 0 { TotalNonnegative(rows[..|rows| - 1], f); }
  }

  lemma {:induction false} TotalZero<T>(rows: seq<T>, f: T -> int)
    requires forall i :: 0 <= i < |rows| ==> f(rows[i]) == 0
    ensures Total(rows, f) == 0
  {
    if |rows| != 0 { TotalZero(rows[..|rows| - 1], f); }
  }
}
