/** The one-row table the app hands to the classifier: a record of named
    feature values, reindexed against the classifier's expected column list
    (pandas' `DataFrame.reindex(columns=..., fill_value=0)`). */
module Frames {
  import opened Seqs

  /** A cell of the feature table: a Python int or a Python float. */
  datatype Value = IntVal(i: int) | FloatVal(x: real)

  /** The reindex fill value, `fill_value=0` (an int). */
  const Fill: Value := IntVal(0)

  /** A feature record: column name to value (the dictionary `input_data`). */
  type Record = map<string, Value>

  /** The set of names in a column list. */
  function ColumnSet(columns: seq<string>): set<string> {
    set c | c in columns
  }

  /** The single row of `DataFrame([rec]).reindex(columns=columns, fill_value=0)`:
      one cell per expected column, in the expected order, taken from the
      record when it has that column and the fill value when it does not. */
  function Reindex(rec: Record, columns: seq<string>): (row: seq<Value>)
    ensures |row| == |columns|
    ensures forall i :: 0 <= i < |columns| && columns[i] in rec ==> row[i] == rec[columns[i]]
    ensures forall i :: 0 <= i < |columns| && columns[i] !in rec ==> row[i] == Fill
  {
    if columns == [] then []
    else [if columns[0] in rec then rec[columns[0]] else Fill] + Reindex(rec, columns[1..])
  }

  /** A row under distinct column names, read back as a record. */
  function ToRecord(columns: seq<string>, row: seq<Value>): (rec: Record)
    requires |row| == |columns| && Distinct(columns)
    ensures rec.Keys == ColumnSet(columns)
    ensures forall i :: 0 <= i < |columns| ==> rec[columns[i]] == row[i]
  {
    if columns == [] then map[]
    else ToRecord(columns[1..], row[1..])[columns[0] := row[0]]
  }

  /** Keys of the record that are not expected columns leave no trace in the row. */
  lemma ReindexIgnoresUnlisted(rec: Record, columns: seq<string>, extra: set<string>)
    requires extra !! ColumnSet(columns)
    ensures Reindex(rec - extra, columns) == Reindex(rec, columns)
  {
  }

  /** Only the expected columns of the record matter: restricting the record to them changes nothing. */
  lemma ReindexSeesOnlyListed(rec: Record, columns: seq<string>)
    ensures Reindex(rec, columns) == Reindex(map k | k in rec && k in ColumnSet(columns) :: rec[k], columns)
  {
  }

  /** A record that already has exactly the expected columns comes through
      reindexing with every value unchanged and nothing filled. */
  lemma ReindexExact(rec: Record, columns: seq<string>)
    requires Distinct(columns) && rec.Keys == ColumnSet(columns)
    ensures ToRecord(columns, Reindex(rec, columns)) == rec
  {
  }

  /** Reindexing an already reindexed row changes nothing. */
  lemma ReindexIdempotent(rec: Record, columns: seq<string>)
    requires Distinct(columns)
    ensures Reindex(ToRecord(columns, Reindex(rec, columns)), columns) == Reindex(rec, columns)
  {
  }
}
