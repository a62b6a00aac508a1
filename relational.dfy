/**
 * Relational building blocks shared by every SQL statement of the pipeline:
 * SQL NULL, rows carrying an engine-assigned surrogate key, `SELECT DISTINCT`,
 * `LEFT JOIN` padding and the NULL-aware `SUM` / `COALESCE` aggregates.
 *
 * A table is a `seq` of rows. SQL tables are unordered; the model fixes one
 * order (the order in which rows are produced) and every property stated about
 * a table is about its rows, their number or their multiplicities, never about
 * that order.
 */
module Relational {

  /** SQL NULL: `None` is NULL, `Some(v)` a present value. */
  datatype Option<+T> = None | Some(value: T)

  /** A row together with the surrogate key (a SERIAL value) the engine assigned on insert. */
  datatype Keyed<+T> = Keyed(key: nat, row: T)

  // ---------------------------------------------------------------------------
  // SELECT DISTINCT
  // ---------------------------------------------------------------------------

  predicate NoDuplicates<T(==)>(s: seq<T>) {
    forall i, j :: 0 <= i < j < |s| ==> s[i] != s[j]
  }

  /**
   * `SELECT DISTINCT`: every row of `s` once, at the place of its first
   * occurrence. Rows are collapsed only when they are equal in every column.
   */
  function Distinct<T(==,!new)>(s: seq<T>): (r: seq<T>)
    ensures forall x :: x in r <==> x in s
    ensures NoDuplicates(r)
    ensures |r| <= |s|
  {
    if |s| == 0 then []
    else
      var prefix := Distinct(s[..|s| - 1]);
      var last := s[|s| - 1];
      assert s == s[..|s| - 1] + [last];
      if last in prefix then prefix else prefix + [last]
  }

  /** Appending rows that are all already present leaves `DISTINCT` unchanged. */
  lemma {:induction false} DistinctAbsorbs<T(!new)>(s: seq<T>, t: seq<T>)
    requires forall i :: 0 <= i < |t| ==> t[i] in s
    ensures Distinct(s + t) == Distinct(s)
  {
    if |t| > 0 {
      var t' := t[..|t| - 1];
      assert (s + t)[..|s + t| - 1] == s + t';
      assert (s + t)[|s + t| - 1] == t[|t| - 1];
      DistinctAbsorbs(s, t');
    } else {
      assert s + t == s;
    }
  }

  /** A duplicate-free sequence has as many elements as the set of its elements. */
  lemma {:induction false} NoDuplicatesCardinality<T>(s: seq<T>)
    requires NoDuplicates(s)
    ensures |set x | x in s| == |s|
  {
    if |s| > 0 {
      var t := s[1..];
      NoDuplicatesCardinality(t);
      assert (set x | x in s) == (set x | x in t) + {s[0]};
      forall k | 0 <= k < |t| ensures t[k] != s[0] {
        assert t[k] == s[k + 1];
      }
    } else {
      assert (set x | x in s) == {};
    }
  }

  lemma NoDuplicatesPrepend<T>(x: T, t: seq<T>)
    requires x !in t && NoDuplicates(t)
    ensures NoDuplicates([x] + t)
  {
    var s := [x] + t;
    forall i, j | 0 <= i < j < |s| ensures s[i] != s[j] {
      assert s[j] == t[j - 1];
      if i > 0 {
        assert s[i] == t[i - 1];
      }
    }
  }

  /** The number of rows `SELECT DISTINCT` keeps is the number of distinct rows. */
  lemma DistinctCount<T(!new)>(s: seq<T>)
    ensures |Distinct(s)| == |set x | x in s|
  {
    NoDuplicatesCardinality(Distinct(s));
    assert (set x | x in Distinct(s)) == (set x | x in s);
  }

  // ---------------------------------------------------------------------------
  // Surrogate keys
  // ---------------------------------------------------------------------------

  /** The rows of a keyed table, without their keys. */
  function Rows<T>(t: seq<Keyed<T>>): (r: seq<T>)
    ensures |r| == |t|
    ensures forall i :: 0 <= i < |t| ==> r[i] == t[i].row
  {
    seq(|t|, i requires 0 <= i < |t| => t[i].row)
  }

  predicate KeysUnique<T>(t: seq<Keyed<T>>) {
    forall i, j :: 0 <= i < j < |t| ==> t[i].key != t[j].key
  }

  predicate KeysBelow<T>(t: seq<Keyed<T>>, bound: nat) {
    forall i :: 0 <= i < |t| ==> t[i].key < bound
  }

  predicate HasKey<T>(t: seq<Keyed<T>>, k: nat) {
    exists i :: 0 <= i < |t| && t[i].key == k
  }

  /**
   * `INSERT` into a table with a SERIAL key: the rows receive the consecutive
   * values `next`, `next + 1`, ... of the key sequence, so every key is fresh.
   */
  function AssignKeys<T>(rows: seq<T>, next: nat): (t: seq<Keyed<T>>)
    ensures Rows(t) == rows
    ensures KeysUnique(t) && KeysBelow(t, next + |rows|)
    ensures forall i :: 0 <= i < |t| ==> next <= t[i].key
  {
    seq(|rows|, i requires 0 <= i < |rows| => Keyed(next + i, rows[i]))
  }

  // ---------------------------------------------------------------------------
  // LEFT JOIN padding
  // ---------------------------------------------------------------------------

  /** Lifts matched values to nullable ones. */
  function Present<T>(xs: seq<T>): (r: seq<Option<T>>)
    ensures |r| == |xs|
    ensures forall i :: 0 <= i < |xs| ==> r[i] == Some(xs[i])
  {
    seq(|xs|, i requires 0 <= i < |xs| => Some(xs[i]))
  }

  /** The right-hand side of a LEFT JOIN: the matches, or a single NULL row when there are none. */
  function OrNull<T>(xs: seq<Option<T>>): (r: seq<Option<T>>)
    ensures |r| >= 1
    ensures xs == [] ==> r == [None]
    ensures xs != [] ==> r == xs
  {
    if xs == [] then [None] else xs
  }

  // ---------------------------------------------------------------------------
  // SUM and COALESCE
  // ---------------------------------------------------------------------------

  /** The step of SQL `SUM`: NULL inputs are skipped; the sum of no values is NULL. */
  function AddNullable(a: Option<int>, b: Option<int>): (r: Option<int>)
    ensures r.None? <==> a.None? && b.None?
    ensures r.Some? ==> r.value == (if a.Some? then a.value else 0) + (if b.Some? then b.value else 0)
  {
    match (a, b)
    case (None, _) => b
    case (_, None) => a
    case (Some(x), Some(y)) => Some(x + y)
  }

  /** SQL `SUM` over a column: NULL exactly when every value is NULL. */
  function Sum(s: seq<Option<int>>): (r: Option<int>)
    ensures r.None? <==> forall i :: 0 <= i < |s| ==> s[i].None?
  {
    if s == [] then None else AddNullable(s[0], Sum(s[1..]))
  }

  lemma {:induction false} SumConcat(a: seq<Option<int>>, b: seq<Option<int>>)
    ensures Sum(a + b) == AddNullable(Sum(a), Sum(b))
  {
    if a != [] {
      assert (a + b)[1..] == a[1..] + b;
      SumConcat(a[1..], b);
    } else {
      assert a + b == b;
    }
  }

  /** `COALESCE(x, d)`. */
  function Coalesce(x: Option<int>, d: int): (r: int)
    ensures x.None? ==> r == d
    ensures x.Some? ==> r == x.value
  {
    if x.Some? then x.value else d
  }

  /** An association list in insertion order: the `results` dictionaries the loaders return. */
  datatype Entry = Entry(name: string, rows: nat)

  /** `sum(results.values())`. */
  function TotalRows(results: seq<Entry>): nat
  {
    if results == [] then 0 else results[0].rows + TotalRows(results[1..])
  }

  /** The total of concatenated results is the sum of their totals. */
  lemma {:induction false} TotalRowsConcat(a: seq<Entry>, b: seq<Entry>)
    ensures TotalRows(a + b) == TotalRows(a) + TotalRows(b)
  {
    if a == [] {
      assert a + b == b;
    } else {
      assert (a + b)[0] == a[0];
      assert (a + b)[1..] == a[1..] + b;
      TotalRowsConcat(a[1..], b);
    }
  }

  lemma TotalRowsSingle(e: Entry)
    ensures TotalRows([e]) == e.rows
  {
    assert [e][1..] == [];
  }

  function Names(results: seq<Entry>): (r: seq<string>)
    ensures |r| == |results|
    ensures forall i :: 0 <= i < |results| ==> r[i] == results[i].name
  {
    seq(|results|, i requires 0 <= i < |results| => results[i].name)
  }
}
