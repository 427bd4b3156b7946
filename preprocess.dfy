/** `preprocess_data`: drop incomplete rows, then order the rows by `Date` when there is one. */
module Preprocess {
  import opened Dates
  import opened Tables
  import opened Cleaning
  import opened Sorting
  import opened DataFrames

  /** The rows `preprocess_data` leaves in the frame. */
  function Preprocessed(schema: Schema, rows: seq<Row>): seq<Row> {
    if DateColumn in schema then SortRowsByDate(CompleteRows(rows)) else CompleteRows(rows)
  }

  /** The model of `preprocess_data` after `pd.read_csv`; the EDA report it prints is not modelled. */
  method PreprocessData(df: DataFrame)
    requires df.Valid()
    modifies df
    ensures df.Valid()
    ensures df.schema == old(df.schema)
    ensures df.rows == Preprocessed(old(df.schema), old(df.rows))
  {
    df.DropNa();
    if DateColumn in df.schema {
      df.SortValuesByDate();
    }
  }

  /** After preprocessing no row has a missing cell, and with a `Date` column the rows are in date order. */
  lemma PreprocessedClean(schema: Schema, rows: seq<Row>)
    ensures AllComplete(Preprocessed(schema, rows))
    ensures DateColumn in schema ==> SortedByDate(Preprocessed(schema, rows))
  {
    var kept := CompleteRows(rows);
    if DateColumn in schema {
      var s := SortRowsByDate(kept);
      forall i | 0 <= i < |s| ensures Complete(s[i]) {
        assert s[i] in multiset(kept);
        var j :| 0 <= j < |kept| && kept[j] == s[i];
      }
    }
  }

  /**
   * A row survives preprocessing exactly when all its cells are present (as many times as it occurs),
   * so the output never has more rows than the input: exactly the incomplete rows are dropped.
   */
  lemma PreprocessedSurvivors(schema: Schema, rows: seq<Row>, row: Row)
    ensures multiset(Preprocessed(schema, rows))[row] == if Complete(row) then multiset(rows)[row] else 0
    ensures |Preprocessed(schema, rows)| == |rows| - IncompleteCount(rows)
    ensures |Preprocessed(schema, rows)| <= |rows|
  {
    CompleteRowsMultiplicity(rows, row);
    CompleteRowsCount(rows);
    if DateColumn in schema {
      var kept := CompleteRows(rows);
      assert |SortRowsByDate(kept)| == |multiset(SortRowsByDate(kept))| == |multiset(kept)| == |kept|;
    }
  }

  /** Without a `Date` column the output is the input with incomplete rows removed, in the same order. */
  lemma PreprocessedWithoutDate(schema: Schema, rows: seq<Row>)
    requires DateColumn !in schema
    ensures Preprocessed(schema, rows) == CompleteRows(rows)
    ensures forall a, b :: Preprocessed(schema, a + b) == Preprocessed(schema, a) + Preprocessed(schema, b)
    ensures AllComplete(rows) ==> Preprocessed(schema, rows) == rows
  {
    forall a, b ensures Preprocessed(schema, a + b) == Preprocessed(schema, a) + Preprocessed(schema, b) {
      CompleteRowsAppend(a, b);
    }
    if AllComplete(rows) {
      CompleteRowsOfComplete(rows);
    }
  }

  /** With a `Date` column the output is in date order and a permutation of the complete rows. */
  lemma PreprocessedWithDate(schema: Schema, rows: seq<Row>)
    requires DateColumn in schema
    ensures SortedByDate(Preprocessed(schema, rows))
    ensures multiset(Preprocessed(schema, rows)) == multiset(CompleteRows(rows))
    ensures AllComplete(rows) ==> multiset(Preprocessed(schema, rows)) == multiset(rows)
  {
    if AllComplete(rows) {
      CompleteRowsOfComplete(rows);
    }
  }

  /**
   * Running preprocessing on its own output changes nothing without a `Date` column; with one the
   * rows come back as the same multiset, again in date order (rows with equal dates may move,
   * because the sort is not stable).
   */
  lemma PreprocessedRerun(schema: Schema, rows: seq<Row>)
    ensures var once := Preprocessed(schema, rows);
      var twice := Preprocessed(schema, once);
      && (DateColumn !in schema ==> twice == once)
      && multiset(twice) == multiset(once)
      && (DateColumn in schema ==> SortedByDate(twice))
  {
    var once := Preprocessed(schema, rows);
    PreprocessedClean(schema, rows);
    CompleteRowsOfComplete(once);
  }
}
