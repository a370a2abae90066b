/**
 * One row of a Qualtrics CSV export as pandas hands it over: a map from
 * column header to cell, where every cell is text or NaN (an empty cell).
 * The readers below are the cell conversions the two CSV importers apply,
 * each failing the way the Python expression it models raises.
 */
module Frame {
  import opened Base
  import opened Text

  /** A cell: its text, or None for NaN. */
  type Row = map<string, Option<string>>

  /** Why a row could not be imported. */
  datatype Cause =
    | KeyError(column: string)    // `row[column]` on a column the file does not have
    | ValueError(column: string)  // `int()` or `float()` rejected the cell's text
    | IntegrityError              // the write put NULL into a NOT NULL column

  /** `row[column]`. */
  function Cell(row: Row, column: string): Result<Option<string>, Cause> {
    if column in row then Ok(row[column]) else Err(KeyError(column))
  }

  /** `int(row[c]) if pd.notna(row[c]) else None`. */
  function IntCell(row: Row, column: string): (r: Result<Option<int>, Cause>)
    ensures r.Ok? <==> column in row && (row[column].None? || ParseInt(row[column].value).Some?)
    ensures r.Ok? ==> r.value == (if row[column].None? then None else ParseInt(row[column].value))
    ensures r.Err? ==> r.error == (if column in row then ValueError(column) else KeyError(column))
  {
    var cell :- Cell(row, column);
    match cell
    case None => Ok(None)
    case Some(s) =>
      match ParseInt(s)
      case Some(n) => Ok(Some(n))
      case None => Err(ValueError(column))
  }

  /** `bool(int(row[c])) if pd.notna(row[c]) else absent`: any integer but 0 is True. */
  function BoolCell(row: Row, column: string, absent: Option<bool>): (r: Result<Option<bool>, Cause>)
    ensures r.Ok? <==> IntCell(row, column).Ok?
    ensures r.Ok? ==> r.value == (match IntCell(row, column).value
                                  case None => absent
                                  case Some(n) => Some(n != 0))
  {
    var n :- IntCell(row, column);
    Ok(match n case None => absent case Some(k) => Some(k != 0))
  }

  /** `float(row[c]) if pd.notna(row[c]) else None`. */
  function FloatCell(row: Row, column: string): (r: Result<Option<real>, Cause>)
    ensures r.Ok? <==> column in row && (row[column].None? || ParseDecimal(row[column].value).Some?)
    ensures r.Ok? ==> r.value == (if row[column].None? then None else ParseDecimal(row[column].value))
    ensures r.Err? ==> r.error == (if column in row then ValueError(column) else KeyError(column))
  {
    var cell :- Cell(row, column);
    match cell
    case None => Ok(None)
    case Some(s) =>
      match ParseDecimal(s)
      case Some(x) => Ok(Some(x))
      case None => Err(ValueError(column))
  }

  /** `row[c] if pd.notna(row[c]) else ''`. */
  function TextCell(row: Row, column: string): Result<string, Cause> {
    var cell :- Cell(row, column);
    Ok(cell.GetOr(""))
  }

  /** `row[c]` stored in a text column as it is: NaN becomes the text "nan". */
  function RawText(row: Row, column: string): Result<string, Cause> {
    var cell :- Cell(row, column);
    Ok(cell.GetOr("nan"))
  }

  /** `pd.to_datetime(row[c])`: NaN is NaT, stored as NULL; a text is kept as the time it denotes. */
  function StampCell(row: Row, column: string): (r: Result<Option<string>, Cause>)
    ensures r.Ok? <==> column in row
    ensures r.Ok? ==> r.value == row[column]
  {
    Cell(row, column)
  }

  // ---------------------------------------------------------------------------
  // Properties of the readers
  // ---------------------------------------------------------------------------

  /** Every reader raises `KeyError` on a column the file does not have. */
  lemma MissingColumnRaises(row: Row, column: string, absent: Option<bool>)
    requires column !in row
    ensures Cell(row, column) == Err(KeyError(column))
    ensures IntCell(row, column) == Err(KeyError(column))
    ensures BoolCell(row, column, absent) == Err(KeyError(column))
    ensures FloatCell(row, column) == Err(KeyError(column))
    ensures TextCell(row, column) == Err(KeyError(column))
    ensures RawText(row, column) == Err(KeyError(column))
    ensures StampCell(row, column) == Err(KeyError(column))
  {
  }

  /**
   * An empty (NaN) cell never raises: the numeric readers give NULL, the
   * boolean reader its fallback, the text reader the empty text, and the
   * raw text reader the text "nan".
   */
  lemma EmptyCellReads(row: Row, column: string, absent: Option<bool>)
    requires column in row && row[column].None?
    ensures IntCell(row, column) == Ok(None)
    ensures BoolCell(row, column, absent) == Ok(absent)
    ensures FloatCell(row, column) == Ok(None)
    ensures TextCell(row, column) == Ok("")
    ensures RawText(row, column) == Ok("nan")
    ensures StampCell(row, column) == Ok(None)
  {
  }

  /** A filled cell reaches both text readers as it is. */
  lemma FilledCellReads(row: Row, column: string)
    requires column in row && row[column].Some?
    ensures TextCell(row, column) == Ok(row[column].value)
    ensures RawText(row, column) == Ok(row[column].value)
    ensures StampCell(row, column) == Ok(row[column])
  {
  }
}
