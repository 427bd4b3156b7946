/** Dropping incomplete rows: the all-or-nothing removal of rows that have a missing cell. */
module Cleaning {
  import opened Tables

  /** The rows with no missing cell, in their original order. */
  function CompleteRows(rows: seq<Row>): (kept: seq<Row>)
    ensures |kept| <= |rows|
    ensures AllComplete(kept)
  {
    if rows == [] then []
    else
      var rest := CompleteRows(rows[1..]);
      if Complete(rows[0]) then [rows[0]] + rest else rest
  }

  /** The number of rows that have at least one missing cell. */
  function IncompleteCount(rows: seq<Row>): nat {
    if rows == [] then 0 else (if Complete(rows[0]) then 0 else 1) + IncompleteCount(rows[1..])
  }

  /** Filtering distributes over concatenation: the kept rows keep their relative order. */
  lemma {:induction false} CompleteRowsAppend(a: seq<Row>, b: seq<Row>)
    ensures CompleteRows(a + b) == CompleteRows(a) + CompleteRows(b)
  {
    if a == [] {
      assert a + b == b;
    } else {
      assert (a + b)[0] == a[0];
      assert (a + b)[1..] == a[1..] + b;
      CompleteRowsAppend(a[1..], b);
    }
  }

  /** A row survives exactly when it is complete, as often as it occurred. */
  lemma {:induction false} CompleteRowsMultiplicity(rows: seq<Row>, row: Row)
    ensures multiset(CompleteRows(rows))[row] == if Complete(row) then multiset(rows)[row] else 0
  {
    if rows != [] {
      CompleteRowsMultiplicity(rows[1..], row);
      assert rows == [rows[0]] + rows[1..];
    }
  }

  /** Every kept row is a row of the input. */
  lemma CompleteRowsSubset(rows: seq<Row>)
    ensures forall r | r in CompleteRows(rows) :: r in rows && Complete(r)
  {
    forall r | r in CompleteRows(rows) ensures r in rows && Complete(r) {
      CompleteRowsMultiplicity(rows, r);
      assert r in multiset(CompleteRows(rows));
    }
  }

  /** Exactly the incomplete rows are dropped. */
  lemma {:induction false} CompleteRowsCount(rows: seq<Row>)
    ensures |CompleteRows(rows)| == |rows| - IncompleteCount(rows)
  {
    if rows != [] {
      CompleteRowsCount(rows[1..]);
    }
  }

  /** A table with no missing cell is left as it is. */
  lemma {:induction false} CompleteRowsOfComplete(rows: seq<Row>)
    requires AllComplete(rows)
    ensures CompleteRows(rows) == rows
  {
    if rows != [] {
      assert Complete(rows[0]);
      CompleteRowsOfComplete(rows[1..]);
      assert rows == [rows[0]] + rows[1..];
    }
  }

  /** Dropping rows keeps the table well-formed. */
  lemma CompleteRowsWellFormed(schema: Schema, rows: seq<Row>)
    requires WellFormed(schema, rows)
    ensures WellFormed(schema, CompleteRows(rows))
  {
    var kept := CompleteRows(rows);
    CompleteRowsSubset(rows);
    forall i | 0 <= i < |kept| ensures FitsSchema(schema, kept[i]) {
      assert kept[i] in kept;
      var j :| 0 <= j < |rows| && rows[j] == kept[i];
    }
  }
}
