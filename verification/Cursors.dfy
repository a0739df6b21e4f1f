/** Reading the rows of a query, as every storage does it. */
module Cursors {
  import opened Wrappers
  import opened Ordering

  /** How reading the rows of a query ends. */
  datatype Cursor =
    | AllRows
    | QueryFails                // QueryRows itself returns an error
    | ScanFails(row: nat)       // row.Scan returns an error, which is returned
    | ConnectionLost(row: nat)  // rows.Next returns false early; rows.Err is never consulted

  datatype QueryError = NotQueried | BadRow

  /** How many of `count` rows arrive before the loop over them ends. */
  function Delivered(cursor: Cursor, count: nat): nat {
    if cursor.AllRows? || cursor.QueryFails? then count else Min(cursor.row, count)
  }

  /** The error that is returned, if any. */
  function CursorError(cursor: Cursor, count: nat): Option<QueryError> {
    if cursor.QueryFails? then Some(NotQueried)
    else if cursor.ScanFails? && cursor.row < count then Some(BadRow)
    else None
  }

  /** Rows are missing, and nobody is told. */
  predicate SilentlyCut(cursor: Cursor, count: nat) {
    cursor.ConnectionLost? && cursor.row < count
  }
}
