/**
 * A worksheet as the journal sees it: an ordered sequence of rows of cells,
 * row 1 (index 0) holding the column names. Reading it "as records" pairs
 * every later row with those names, as the spreadsheet client's
 * `get_all_records` does.
 */
module Sheet {
  import opened Wrappers

  /**
   * A stored cell once read back. The client turns numeric-looking cells into
   * numbers; everything else (including the empty cell) stays text.
   */
  datatype Cell = Text(s: string) | Number(x: real)

  type Row = seq<Cell>
  type Rows = seq<Row>

  /** The column names: row 1, or nothing for an empty sheet. */
  function HeaderOf(rows: Rows): Row {
    if rows == [] then [] else rows[0]
  }

  /** The records: every row below row 1. */
  function Records(rows: Rows): (records: Rows)
    ensures |records| == if |rows| <= 1 then 0 else |rows| - 1
    ensures forall i :: 0 <= i < |records| ==> records[i] == rows[i + 1]
  {
    if |rows| <= 1 then [] else rows[1..]
  }

  /**
   * The column a record's key `name` takes its value from. Building a record
   * by pairing names with cells lets a later column of the same name win, so
   * this is the LAST column whose header is `name`.
   */
  function ColumnIndex(header: Row, name: string): (r: Option<nat>)
    ensures r.Some? ==> r.value < |header|
  {
    if header == [] then None
    else if header[|header| - 1] == Text(name) then Some(|header| - 1)
    else ColumnIndex(header[..|header| - 1], name)
  }

  /** The lookup finds a column of that name exactly when there is one, and it finds the last. */
  lemma {:induction false} ColumnIndexFindsLast(header: Row, name: string)
    ensures ColumnIndex(header, name).None? <==> forall j :: 0 <= j < |header| ==> header[j] != Text(name)
    ensures ColumnIndex(header, name).Some? ==> LastColumn(header, name, ColumnIndex(header, name).value)
  {
    if header != [] && header[|header| - 1] != Text(name) {
      var init := header[..|header| - 1];
      ColumnIndexFindsLast(init, name);
      assert forall j :: 0 <= j < |init| ==> init[j] == header[j];
    }
  }

  /** `k` is the column of `name` when it is named so and no later column is. */
  lemma ColumnAt(header: Row, name: string, k: nat)
    requires k < |header| && header[k] == Text(name)
    requires Text(name) !in header[k + 1..]
    ensures ColumnIndex(header, name) == Some(k)
  {
    ColumnIndexFindsLast(header, name);
    forall j | k < j < |header|
      ensures header[j] != Text(name)
    {
      assert header[j] == header[k + 1..][j - k - 1];
    }
  }

  /** Column `k` is named `name` and no later column is. */
  predicate LastColumn(header: Row, name: string, k: nat) {
    k < |header| && header[k] == Text(name) && forall j :: k < j < |header| ==> header[j] != Text(name)
  }

  /**
   * The value of key `name` in the record built from `row`: None when the
   * header has no such column; a row shorter than the header reads as blank.
   */
  function Field(header: Row, row: Row, name: string): (r: Option<Cell>)
    ensures r.None? <==> forall j :: 0 <= j < |header| ==> header[j] != Text(name)
    ensures r.Some? ==> exists k: nat :: LastColumn(header, name, k) && r.value == (if k < |row| then row[k] else Text(""))
  {
    ColumnIndexFindsLast(header, name);
    match ColumnIndex(header, name)
    case None => None
    case Some(k) =>
      assert LastColumn(header, name, k);
      Some(if k < |row| then row[k] else Text(""))
  }

  /** Numeric coercion where unparseable text becomes 0. */
  function NumberOrZero(c: Cell): real {
    match c
    case Number(x) => x
    case Text(_) => 0.0
  }
}
