/**
 * The rows of the earthquake dataset (docs/js/visualization.js) and the table view over them.
 * Rows come from a CSV parser with dynamic typing or from the sample generator, so a field
 * is a number, a date-time string, or anything else.
 */
module Records {

  /** A field of a row as JavaScript sees it: `typeof v === 'number'` holds exactly for Num;
      Instant is a date-time string denoting that many milliseconds since the epoch. */
  datatype Value = Num(n: real) | Instant(ms: int) | Other

  datatype Quake = Quake(time: Value, magnitude: Value, latitude: Value, longitude: Value, depth: Value)

  /** The table shows at most this many rows. */
  const TableLimit := 50

  /** `slice(0, 50)`: the leading rows, in input order. */
  function TableRows(records: seq<Quake>): (rows: seq<Quake>)
    ensures |rows| <= TableLimit
    ensures rows <= records
    ensures |rows| == TableLimit || rows == records
  {
    records[..if |records| < TableLimit then |records| else TableLimit]
  }
}
