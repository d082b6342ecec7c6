/**
 * Tables as the services read them from uploaded CSV files: a set of column
 * names and a list of rows, each row mapping a column to one cell.
 */
module Frames {
  import opened Text

  /**
   * One cell of a parsed CSV file: an integer, a float (with the text Python's
   * `str()` prints for it, since float formatting is not modelled), a string,
   * or a missing value (`NaN` / `None`, which `pd.isna` recognises).
   */
  datatype Cell = Int(i: int) | Float(x: real, repr: String) | Str(s: String) | Missing

  type Row = map<String, Cell>

  datatype Frame = Frame(columns: set<String>, rows: seq<Row>)

  /** `row[col]` for a column the table may lack: a missing cell. */
  function Get(row: Row, col: String): Cell {
    if col in row then row[col] else Missing
  }

  /** `row.get(col, default)`: the default only when the column is absent. */
  function GetOr(row: Row, col: String, default: Cell): (c: Cell)
    ensures col !in row ==> c == default
    ensures col in row ==> c == row[col]
  {
    if col in row then row[col] else default
  }

  /** The numeric value of a numeric cell. */
  function NumberOf(c: Cell): (r: real)
    requires c.Int? || c.Float?
  {
    if c.Int? then c.i as real else c.x
  }

  /** `series.str.lower()`: strings are lowered, every other cell becomes missing. */
  function LowerText(c: Cell): (r: Cell)
    ensures r.Str? <==> c.Str?
    ensures r.Str? ==> r.s == Lower(c.s)
  {
    if c.Str? then Str(Lower(c.s)) else Missing
  }

  /** `df[mask]`: the elements that pass `p`, in their original order. */
  function Filter<T(!new)>(xs: seq<T>, p: T -> bool): (r: seq<T>)
    ensures |r| <= |xs|
    ensures forall x :: x in r <==> x in xs && p(x)
  {
    if xs == [] then []
    else
      var init := Filter(xs[..|xs| - 1], p);
      assert forall x :: x in xs <==> x in xs[..|xs| - 1] || x == xs[|xs| - 1];
      if p(xs[|xs| - 1]) then init + [xs[|xs| - 1]] else init
  }

  /** The number of elements that pass `p`, counted one element at a time. */
  function Count<T>(xs: seq<T>, p: T -> bool): (n: nat)
    ensures n <= |xs|
  {
    if xs == [] then 0 else (if p(xs[0]) then 1 else 0) + Count(xs[1..], p)
  }

  /** Filtering keeps exactly the counted elements. */
  lemma {:induction false} FilterCount<T(!new)>(xs: seq<T>, p: T -> bool)
    ensures |Filter(xs, p)| == Count(xs, p)
    decreases |xs|
  {
    if xs != [] {
      var init := xs[..|xs| - 1];
      FilterCount(init, p);
      CountSnoc(init, xs[|xs| - 1], p);
      assert init + [xs[|xs| - 1]] == xs;
    }
  }

  /** Counting over a list extended by one element. */
  lemma {:induction false} CountSnoc<T>(xs: seq<T>, x: T, p: T -> bool)
    ensures Count(xs + [x], p) == Count(xs, p) + (if p(x) then 1 else 0)
    decreases |xs|
  {
    if xs != [] {
      assert (xs + [x])[1..] == xs[1..] + [x];
      CountSnoc(xs[1..], x, p);
    }
  }

  /** Some element passes exactly when the count is positive. */
  lemma {:induction false} CountPositive<T>(xs: seq<T>, p: T -> bool)
    ensures Count(xs, p) > 0 <==> exists i :: 0 <= i < |xs| && p(xs[i])
    decreases |xs|
  {
    if xs != [] {
      CountPositive(xs[1..], p);
      if Count(xs, p) > 0 && !p(xs[0]) {
        var i :| 0 <= i < |xs[1..]| && p(xs[1..][i]);
        assert p(xs[i + 1]);
      }
      if exists i :: 0 <= i < |xs| && p(xs[i]) {
        var i :| 0 <= i < |xs| && p(xs[i]);
        if i > 0 {
          assert p(xs[1..][i - 1]);
        }
      }
    }
  }

  /** Counts of two tests no element passes together add up to the count of either. */
  lemma {:induction false} CountDisjoint<T>(xs: seq<T>, p: T -> bool, q: T -> bool, either: T -> bool)
    requires forall i :: 0 <= i < |xs| ==> !(p(xs[i]) && q(xs[i]))
    requires forall i :: 0 <= i < |xs| ==> either(xs[i]) == (p(xs[i]) || q(xs[i]))
    ensures Count(xs, p) + Count(xs, q) == Count(xs, either)
    decreases |xs|
  {
    if xs != [] {
      CountDisjoint(xs[1..], p, q, either);
    }
  }

  /** Every element of a column of filtered rows comes from a row that passes the filter. */
  lemma ColumnOfFilter(rows: seq<Row>, p: Row -> bool, col: String)
    ensures forall c :: c in Column(Filter(rows, p), col) ==>
              exists k :: 0 <= k < |rows| && p(rows[k]) && Get(rows[k], col) == c
  {
    var hits := Filter(rows, p);
    forall c | c in Column(hits, col)
      ensures exists k :: 0 <= k < |rows| && p(rows[k]) && Get(rows[k], col) == c
    {
      var j :| 0 <= j < |hits| && Column(hits, col)[j] == c;
      assert hits[j] in rows;
      var k :| 0 <= k < |rows| && rows[k] == hits[j];
    }
  }

  /** A test implied by another counts at least as many elements. */
  lemma {:induction false} CountImplies<T>(xs: seq<T>, p: T -> bool, q: T -> bool)
    requires forall i :: 0 <= i < |xs| ==> p(xs[i]) ==> q(xs[i])
    ensures Count(xs, p) <= Count(xs, q)
    decreases |xs|
  {
    if xs != [] {
      CountImplies(xs[1..], p, q);
    }
  }

  /** `series.unique()`: each value once, in order of first appearance. */
  function Unique<T(==,!new)>(xs: seq<T>): (r: seq<T>)
    ensures |r| <= |xs|
    ensures forall x :: x in r <==> x in xs
    ensures forall i, j :: 0 <= i < j < |r| ==> r[i] != r[j]
  {
    if xs == [] then []
    else
      var u := Unique(xs[..|xs| - 1]);
      var x := xs[|xs| - 1];
      assert forall y :: y in xs <==> y in xs[..|xs| - 1] || y == x;
      if x in u then u else u + [x]
  }

  /** The first occurrences come first: a value seen before another stays before it. */
  lemma {:induction false} UniqueKeepsFirst<T(!new)>(xs: seq<T>, k: nat)
    requires k <= |xs|
    ensures Unique(xs[..k]) <= Unique(xs)
    decreases |xs|
  {
    if k < |xs| {
      var init := xs[..|xs| - 1];
      assert init[..k] == xs[..k];
      UniqueKeepsFirst(init, k);
    } else {
      assert xs[..k] == xs;
    }
  }

  /** `df[col].tolist()` over the given rows. */
  function Column(rows: seq<Row>, col: String): (cs: seq<Cell>)
    ensures |cs| == |rows|
  {
    seq(|rows|, i requires 0 <= i < |rows| => Get(rows[i], col))
  }
}
