/**
 * The row loop both CSV importers share (`import_qualtrics_csv` in
 * backend/surveys/views.py and `Command.handle` in
 * backend/surveys/management/commands/import_survey_data.py): rows are
 * taken in order, each is skipped, written, or fails; a failure is recorded
 * with the label `index + 3` and the loop carries on, and only writes that
 * create a response are counted.
 */
module Batch {
  import opened Base
  import opened Frame
  import opened Storage

  /** What one row came to. */
  datatype RowResult =
    | Skipped                             // `continue` before any write
    | Written(store: Store, created: bool) // `update_or_create` returned `(obj, created)`
    | Failed(cause: Cause)                // the row raised; the table is as before

  /** One recorded failure: the row label `index + 3` and what was raised. */
  datatype RowError = RowError(row: int, cause: Cause)

  /** The loop's state: the table, `imported_count` and the errors recorded so far. */
  datatype Progress = Progress(store: Store, imported: nat, errors: seq<RowError>)

  /** A row importer: what a row does to the table it is applied to. */
  type Importer = (Store, Row) -> RowResult

  /** One iteration for the row at `index`. */
  function Step(importRow: Importer, p: Progress, row: Row, index: nat): Progress {
    match importRow(p.store, row)
    case Skipped => p
    case Written(s, created) => Progress(s, p.imported + (if created then 1 else 0), p.errors)
    case Failed(c) => Progress(p.store, p.imported, p.errors + [RowError(index + 3, c)])
  }

  /** The state after the loop has run over `rows`, starting from the table `store`. */
  function Run(importRow: Importer, store: Store, rows: seq<Row>): Progress
    decreases |rows|
  {
    if rows == [] then Progress(store, 0, [])
    else Step(importRow, Run(importRow, store, rows[..|rows| - 1]), rows[|rows| - 1], |rows| - 1)
  }

  /**
   * `for index, row in df.iterrows()`: the table, the counter and the error
   * list are updated row by row, as `Run` describes.
   */
  method ImportRows(importRow: Importer, store: Store, rows: seq<Row>) returns (p: Progress)
    ensures p == Run(importRow, store, rows)
  {
    var current := store;
    var importedCount := 0;
    var errors: seq<RowError> := [];
    var index := 0;
    while index < |rows|
      invariant 0 <= index <= |rows|
      invariant Progress(current, importedCount, errors) == Run(importRow, store, rows[..index])
    {
      assert rows[..index + 1][..index] == rows[..index];
      match importRow(current, rows[index]) {
        case Skipped =>
        case Written(s, created) =>
          current := s;
          if created {
            importedCount := importedCount + 1;
          }
        case Failed(c) =>
          errors := errors + [RowError(index + 3, c)];
      }
      index := index + 1;
    }
    assert rows[..index] == rows;
    return Progress(current, importedCount, errors);
  }

  // ---------------------------------------------------------------------------
  // Properties of the loop
  // ---------------------------------------------------------------------------

  /** A write adds at most its own row: it keeps every key and adds one exactly when it reports a creation. */
  predicate WritesOneRow(store: Store, r: RowResult) {
    r.Written? ==>
      && store.Keys <= r.store.Keys
      && |r.store.Keys - store.Keys| == (if r.created then 1 else 0)
  }

  /** An importer all of whose writes add at most their own row. */
  ghost predicate WritesOneRowEach(importRow: Importer) {
    forall s, row :: WritesOneRow(s, importRow(s, row))
  }

  /**
   * `imported_count` counts creations only: it is the number of response ids
   * the loop added, no row is removed, and every count or error belongs to a
   * distinct row.
   */
  lemma {:induction false} RunCountsCreations(importRow: Importer, store: Store, rows: seq<Row>)
    requires WritesOneRowEach(importRow)
    ensures store.Keys <= Run(importRow, store, rows).store.Keys
    ensures Run(importRow, store, rows).imported == |Run(importRow, store, rows).store.Keys - store.Keys|
    ensures Run(importRow, store, rows).imported + |Run(importRow, store, rows).errors| <= |rows|
  {
    if rows != [] {
      var init := rows[..|rows| - 1];
      RunCountsCreations(importRow, store, init);
      var p := Run(importRow, store, init);
      assert WritesOneRow(p.store, importRow(p.store, rows[|rows| - 1]));
      StepCounts(importRow, store, p, rows[|rows| - 1], |rows| - 1);
    }
  }

  /** One iteration keeps the counter equal to the number of added keys. */
  lemma StepCounts(importRow: Importer, store: Store, p: Progress, row: Row, index: nat)
    requires WritesOneRow(p.store, importRow(p.store, row))
    requires store.Keys <= p.store.Keys && p.imported == |p.store.Keys - store.Keys|
    ensures store.Keys <= Step(importRow, p, row, index).store.Keys
    ensures Step(importRow, p, row, index).imported == |Step(importRow, p, row, index).store.Keys - store.Keys|
    ensures Step(importRow, p, row, index).imported + |Step(importRow, p, row, index).errors|
      <= p.imported + |p.errors| + 1
  {
    match importRow(p.store, row)
    case Skipped =>
    case Written(s, created) =>
      AddedKeys(store.Keys, p.store.Keys, s.Keys);
    case Failed(_) =>
  }

  /** Keys added in two steps are the keys of the first step plus those of the second. */
  lemma AddedKeys(s: set<string>, b: set<string>, a: set<string>)
    requires s <= b <= a
    ensures |a - s| == |b - s| + |a - b|
  {
    assert a - s == (b - s) + (a - b);
    assert (b - s) * (a - b) == {};
  }

  /**
   * The errors name rows in increasing order, each the label `index + 3` of
   * one of the rows, so no row is reported twice.
   */
  lemma {:induction false} RunErrorRows(importRow: Importer, store: Store, rows: seq<Row>)
    ensures forall k :: 0 <= k < |Run(importRow, store, rows).errors| ==>
      3 <= Run(importRow, store, rows).errors[k].row < |rows| + 3
    ensures forall j, k :: 0 <= j < k < |Run(importRow, store, rows).errors| ==>
      Run(importRow, store, rows).errors[j].row < Run(importRow, store, rows).errors[k].row
  {
    if rows != [] {
      RunErrorRows(importRow, store, rows[..|rows| - 1]);
    }
  }

  /**
   * A failing row is recorded once and leaves the table and the counter as
   * they were, so the rows after it are imported as if it were absent.
   */
  lemma RunAfterFailure(importRow: Importer, store: Store, rows: seq<Row>, row: Row)
    requires importRow(Run(importRow, store, rows).store, row).Failed?
    ensures Run(importRow, store, rows + [row]).store == Run(importRow, store, rows).store
    ensures Run(importRow, store, rows + [row]).imported == Run(importRow, store, rows).imported
    ensures Run(importRow, store, rows + [row]).errors ==
      Run(importRow, store, rows).errors + [RowError(|rows| + 3, importRow(Run(importRow, store, rows).store, row).cause)]
  {
    assert (rows + [row])[..|rows|] == rows;
  }

  /** A skipped row changes nothing: not the table, not the counter, not the errors. */
  lemma RunAfterSkip(importRow: Importer, store: Store, rows: seq<Row>, row: Row)
    requires importRow(Run(importRow, store, rows).store, row).Skipped?
    ensures Run(importRow, store, rows + [row]) == Run(importRow, store, rows)
  {
    assert (rows + [row])[..|rows|] == rows;
  }
}
