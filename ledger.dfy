/**
 * The trade ledger: the journal worksheet whose row 1 is the fixed 17-column
 * header and whose later rows are trades, and the account equity derived
 * from it by summing the stored P/L column.
 */
module Ledger {
  import opened Wrappers
  import opened Sheet
  import opened ProfitLoss

  /** The ledger's column names, in the order every appended row follows. */
  const HeaderRow: Row := [
    Text("ID"), Text("Pair"), Text("Jam"), Text("Tanggal"), Text("Buy/Sell"), Text("Entry"),
    Text("Exit"), Text("Lot"), Text("SL"), Text("TP1"), Text("TP2"), Text("Status"),
    Text("P/L"), Text("Note"), Text("SS Before"), Text("SS After"), Text("Equity")]

  predicate HasHeader(rows: Rows) {
    rows != [] && rows[0] == HeaderRow
  }

  // ---------------------------------------------------------------- header check

  /**
   * The sheet after the header check: unchanged when row 1 already is the
   * header, otherwise the header inserted above every existing row.
   */
  function WithHeader(rows: Rows): (r: Rows)
    ensures HasHeader(r)
    ensures HasHeader(rows) ==> r == rows
    ensures |rows| <= |r| <= |rows| + 1 && r[|r| - |rows|..] == rows
  {
    if HasHeader(rows) then rows else [HeaderRow] + rows
  }

  /** Running the header check twice changes nothing the first run did not. */
  lemma WithHeaderIdempotent(rows: Rows)
    ensures WithHeader(WithHeader(rows)) == WithHeader(rows)
  {
  }

  /** Where the header check inserts, each original row moves down by exactly one. */
  lemma WithHeaderShiftsRows(rows: Rows)
    requires !HasHeader(rows)
    ensures |WithHeader(rows)| == |rows| + 1
    ensures forall i :: 0 <= i < |rows| ==> WithHeader(rows)[i + 1] == rows[i]
  {
  }

  /** Every header cell is a name, and no name appears twice. */
  lemma HeaderNamesDistinct()
    ensures forall i :: 0 <= i < |HeaderRow| ==> HeaderRow[i].Text?
    ensures forall i, j :: 0 <= i < j < |HeaderRow| ==> HeaderRow[i] != HeaderRow[j]
  {
  }

  /** Each header name is looked up at its own position. */
  lemma HeaderColumn(k: nat)
    requires k < |HeaderRow|
    ensures HeaderRow[k].Text? && ColumnIndex(HeaderRow, HeaderRow[k].s) == Some(k)
  {
    HeaderNamesDistinct();
    ColumnAt(HeaderRow, HeaderRow[k].s, k);
  }

  /** The columns the equity and ID logic rely on sit where the header puts them. */
  lemma KeyColumns()
    ensures ColumnIndex(HeaderRow, "ID") == Some(0)
    ensures ColumnIndex(HeaderRow, "P/L") == Some(12)
    ensures ColumnIndex(HeaderRow, "Equity") == Some(16)
  {
    HeaderColumn(0);
    HeaderColumn(12);
    HeaderColumn(16);
  }

  /** The header has no legacy `Profit` column. */
  lemma NoProfitColumn()
    ensures ColumnIndex(HeaderRow, "Profit") == None
  {
    ColumnIndexFindsLast(HeaderRow, "Profit");
  }

  // ---------------------------------------------------------------- P/L column and equity

  /**
   * The cell a record's P/L is read from: the `P/L` column, else the legacy
   * `Profit` column; None when the header has neither.
   */
  function PLCell(header: Row, row: Row): (r: Option<Cell>)
    ensures r.None? <==> forall j :: 0 <= j < |header| ==> header[j] != Text("P/L") && header[j] != Text("Profit")
    ensures ColumnIndex(header, "P/L").Some? ==> r == Field(header, row, "P/L")
  {
    var pl := Field(header, row, "P/L");
    if pl.Some? then pl else Field(header, row, "Profit")
  }

  /** Whether a record has no P/L cell, or one that does not parse as a number. */
  predicate UnparseablePL(header: Row, row: Row) {
    PLCell(header, row).None? || PLCell(header, row).value.Text?
  }

  /** A record's P/L as a number: unparseable or absent values count as 0. */
  function PLValue(header: Row, row: Row): (r: real)
    ensures UnparseablePL(header, row) ==> r == 0.0
    ensures !UnparseablePL(header, row) ==> PLCell(header, row) == Some(Number(r))
  {
    match PLCell(header, row)
    case Some(c) => NumberOrZero(c)
    case None => 0.0
  }

  /** The coerced P/L column, one figure per record. */
  function PLValues(header: Row, records: Rows): (vs: seq<real>)
    ensures |vs| == |records|
  {
    seq(|records|, i requires 0 <= i < |records| => PLValue(header, records[i]))
  }

  function Sum(xs: seq<real>): real {
    if xs == [] then 0.0 else xs[0] + Sum(xs[1..])
  }

  lemma {:induction false} SumConcat(a: seq<real>, b: seq<real>)
    ensures Sum(a + b) == Sum(a) + Sum(b)
  {
    if a == [] {
      assert a + b == b;
    } else {
      assert (a + b)[1..] == a[1..] + b;
      SumConcat(a[1..], b);
    }
  }

  /** Sum of the P/L column over all stored trades. */
  function ExistingPLSum(rows: Rows): real {
    Sum(PLValues(HeaderOf(rows), Records(rows)))
  }

  /** Current equity: starting equity plus every stored trade's P/L. */
  function CurrentEquity(start: real, rows: Rows): (e: real)
    ensures |Records(rows)| == 0 ==> e == start
  {
    start + ExistingPLSum(rows)
  }

  /** A sum of zeros is zero. */
  lemma {:induction false} SumOfZeros(xs: seq<real>)
    requires forall i :: 0 <= i < |xs| ==> xs[i] == 0.0
    ensures Sum(xs) == 0.0
  {
    if xs != [] {
      assert forall i :: 0 <= i < |xs[1..]| ==> xs[1..][i] == xs[i + 1];
      SumOfZeros(xs[1..]);
    }
  }

  /** A ledger none of whose P/L cells parses as a number is worth the starting equity. */
  lemma NothingParsedKeepsStart(start: real, rows: Rows)
    requires forall i :: 0 <= i < |Records(rows)| ==> UnparseablePL(HeaderOf(rows), Records(rows)[i])
    ensures CurrentEquity(start, rows) == start
  {
    SumOfZeros(PLValues(HeaderOf(rows), Records(rows)));
  }

  /** The P/L column of records split in two is the two columns joined. */
  lemma PLValuesConcat(header: Row, a: Rows, b: Rows)
    ensures PLValues(header, a + b) == PLValues(header, a) + PLValues(header, b)
  {
  }

  /** Appending one row below a header adds exactly that row's P/L to the equity. */
  lemma EquityAfterAppend(start: real, rows: Rows, row: Row)
    requires rows != []
    ensures CurrentEquity(start, rows + [row]) == CurrentEquity(start, rows) + PLValue(HeaderOf(rows), row)
  {
    var header := HeaderOf(rows);
    assert HeaderOf(rows + [row]) == header;
    assert Records(rows + [row]) == Records(rows) + [row];
    PLValuesConcat(header, Records(rows), [row]);
    assert PLValues(header, [row]) == [PLValue(header, row)];
    SumConcat(PLValues(header, Records(rows)), [PLValue(header, row)]);
  }

  /**
   * A record whose P/L is unparseable or missing, inserted anywhere below the
   * header, leaves the equity exactly as the other records make it.
   */
  lemma UnparseableRowAddsNothing(start: real, rows: Rows, i: nat, bad: Row)
    requires 1 <= i <= |rows|
    requires UnparseablePL(HeaderOf(rows), bad)
    ensures CurrentEquity(start, rows[..i] + [bad] + rows[i..]) == CurrentEquity(start, rows)
  {
    var header := HeaderOf(rows);
    var grown := rows[..i] + [bad] + rows[i..];
    var before, after := rows[1..i], rows[i..];
    assert HeaderOf(grown) == header;
    assert Records(rows) == before + after;
    assert Records(grown) == before + [bad] + after;
    PLValuesConcat(header, before, after);
    PLValuesConcat(header, before + [bad], after);
    PLValuesConcat(header, before, [bad]);
    assert PLValues(header, [bad]) == [0.0];
    var pb, pa := PLValues(header, before), PLValues(header, after);
    SumConcat(pb, pa);
    SumConcat(pb + [0.0], pa);
    SumConcat(pb, [0.0]);
  }

  /** A header without `P/L` but with `Profit` reads the legacy column. */
  lemma LegacyProfitFallback(header: Row, row: Row)
    requires ColumnIndex(header, "P/L").None?
    requires ColumnIndex(header, "Profit").Some?
    ensures PLCell(header, row) == Field(header, row, "Profit")
  {
  }

  /**
   * Once the header check has run, the P/L is always read from column 12 and
   * the legacy `Profit` fallback can never be taken.
   */
  lemma HeaderFixesPLColumn(rows: Rows, row: Row)
    requires HasHeader(rows)
    ensures PLCell(HeaderOf(rows), row) == Some(if 12 < |row| then row[12] else Text(""))
  {
    KeyColumns();
  }

  // ---------------------------------------------------------------- new rows

  /** The ID a new trade gets: one more than the number of stored records. */
  function NewId(rows: Rows): (id: nat)
    ensures id >= 1
    ensures id == |Records(rows)| + 1
  {
    (if |rows| - 1 > 0 then |rows| - 1 else 0) + 1
  }

  /** A new ledger row, laid out in header order. */
  function BuildRow(id: nat, f: TradeForm, pl: real, equity: real): (row: Row)
    ensures |row| == |HeaderRow|
  {
    [ Number(id as real), Text(f.pair), Text(f.time), Text(f.date), Text(f.buySell),
      Number(f.entry), Number(f.exit), Number(f.lot), Number(f.stopLoss),
      Number(f.takeProfit1), Number(f.takeProfit2), Text(f.status), Number(pl),
      Text(f.note), Text(f.shotBefore), Text(f.shotAfter), Number(equity) ]
  }

  // One lemma per column: each looks up a single header name, which keeps its proof small.

  /** Read back under the header by the name "ID", a new row gives its ID. */
  lemma IdReadsBack(id: nat, f: TradeForm, pl: real, equity: real)
    ensures Field(HeaderRow, BuildRow(id, f, pl, equity), "ID") == Some(Number(id as real))
  {
    HeaderColumn(0);
  }

  /** Read back under the header by the name "Pair", a new row gives the pair entered. */
  lemma PairReadsBack(id: nat, f: TradeForm, pl: real, equity: real)
    ensures Field(HeaderRow, BuildRow(id, f, pl, equity), "Pair") == Some(Text(f.pair))
  {
    HeaderColumn(1);
  }

  /** Read back under the header by the name "Jam", a new row gives the time entered. */
  lemma TimeReadsBack(id: nat, f: TradeForm, pl: real, equity: real)
    ensures Field(HeaderRow, BuildRow(id, f, pl, equity), "Jam") == Some(Text(f.time))
  {
    HeaderColumn(2);
  }

  /** Read back under the header by the name "Tanggal", a new row gives the date entered. */
  lemma DateReadsBack(id: nat, f: TradeForm, pl: real, equity: real)
    ensures Field(HeaderRow, BuildRow(id, f, pl, equity), "Tanggal") == Some(Text(f.date))
  {
    HeaderColumn(3);
  }

  /** Read back under the header by the name "Buy/Sell", a new row gives the Buy/Sell choice entered. */
  lemma DirectionReadsBack(id: nat, f: TradeForm, pl: real, equity: real)
    ensures Field(HeaderRow, BuildRow(id, f, pl, equity), "Buy/Sell") == Some(Text(f.buySell))
  {
    HeaderColumn(4);
  }

  /** Read back under the header by the name "Entry", a new row gives the entry price entered. */
  lemma EntryReadsBack(id: nat, f: TradeForm, pl: real, equity: real)
    ensures Field(HeaderRow, BuildRow(id, f, pl, equity), "Entry") == Some(Number(f.entry))
  {
    HeaderColumn(5);
  }

  /** Read back under the header by the name "Exit", a new row gives the exit price entered. */
  lemma ExitReadsBack(id: nat, f: TradeForm, pl: real, equity: real)
    ensures Field(HeaderRow, BuildRow(id, f, pl, equity), "Exit") == Some(Number(f.exit))
  {
    HeaderColumn(6);
  }

  /** Read back under the header by the name "Lot", a new row gives the lot entered. */
  lemma LotReadsBack(id: nat, f: TradeForm, pl: real, equity: real)
    ensures Field(HeaderRow, BuildRow(id, f, pl, equity), "Lot") == Some(Number(f.lot))
  {
    HeaderColumn(7);
  }

  /** Read back under the header by the name "SL", a new row gives the stop loss entered. */
  lemma StopLossReadsBack(id: nat, f: TradeForm, pl: real, equity: real)
    ensures Field(HeaderRow, BuildRow(id, f, pl, equity), "SL") == Some(Number(f.stopLoss))
  {
    HeaderColumn(8);
  }

  /** Read back under the header by the name "TP1", a new row gives the first take-profit level entered. */
  lemma TakeProfit1ReadsBack(id: nat, f: TradeForm, pl: real, equity: real)
    ensures Field(HeaderRow, BuildRow(id, f, pl, equity), "TP1") == Some(Number(f.takeProfit1))
  {
    HeaderColumn(9);
  }

  /** Read back under the header by the name "TP2", a new row gives the second take-profit level entered. */
  lemma TakeProfit2ReadsBack(id: nat, f: TradeForm, pl: real, equity: real)
    ensures Field(HeaderRow, BuildRow(id, f, pl, equity), "TP2") == Some(Number(f.takeProfit2))
  {
    HeaderColumn(10);
  }

  /** Read back under the header by the name "Status", a new row gives the status entered. */
  lemma StatusReadsBack(id: nat, f: TradeForm, pl: real, equity: real)
    ensures Field(HeaderRow, BuildRow(id, f, pl, equity), "Status") == Some(Text(f.status))
  {
    HeaderColumn(11);
  }

  /** Read back under the header by the name "P/L", a new row gives its P/L. */
  lemma PLReadsBack(id: nat, f: TradeForm, pl: real, equity: real)
    ensures Field(HeaderRow, BuildRow(id, f, pl, equity), "P/L") == Some(Number(pl))
  {
    HeaderColumn(12);
  }

  /** Read back under the header by the name "Note", a new row gives the note entered. */
  lemma NoteReadsBack(id: nat, f: TradeForm, pl: real, equity: real)
    ensures Field(HeaderRow, BuildRow(id, f, pl, equity), "Note") == Some(Text(f.note))
  {
    HeaderColumn(13);
  }

  /** Read back under the header by the name "SS Before", a new row gives the screenshot link taken before. */
  lemma ShotBeforeReadsBack(id: nat, f: TradeForm, pl: real, equity: real)
    ensures Field(HeaderRow, BuildRow(id, f, pl, equity), "SS Before") == Some(Text(f.shotBefore))
  {
    HeaderColumn(14);
  }

  /** Read back under the header by the name "SS After", a new row gives the screenshot link taken after. */
  lemma ShotAfterReadsBack(id: nat, f: TradeForm, pl: real, equity: real)
    ensures Field(HeaderRow, BuildRow(id, f, pl, equity), "SS After") == Some(Text(f.shotAfter))
  {
    HeaderColumn(15);
  }

  /** Read back under the header by the name "Equity", a new row gives its equity snapshot. */
  lemma EquityReadsBack(id: nat, f: TradeForm, pl: real, equity: real)
    ensures Field(HeaderRow, BuildRow(id, f, pl, equity), "Equity") == Some(Number(equity))
  {
    HeaderColumn(16);
  }

  /** Read back under the header, a new row gives its ID, P/L and equity snapshot. */
  lemma KeyFieldsReadBack(id: nat, f: TradeForm, pl: real, equity: real)
    ensures Field(HeaderRow, BuildRow(id, f, pl, equity), "ID") == Some(Number(id as real))
    ensures Field(HeaderRow, BuildRow(id, f, pl, equity), "P/L") == Some(Number(pl))
    ensures Field(HeaderRow, BuildRow(id, f, pl, equity), "Equity") == Some(Number(equity))
  {
    IdReadsBack(id, f, pl, equity);
    PLReadsBack(id, f, pl, equity);
    EquityReadsBack(id, f, pl, equity);
  }

  /** Read back under the header, a new row gives the pair, direction and status entered. */
  lemma LabelsReadBack(id: nat, f: TradeForm, pl: real, equity: real)
    ensures Field(HeaderRow, BuildRow(id, f, pl, equity), "Pair") == Some(Text(f.pair))
    ensures Field(HeaderRow, BuildRow(id, f, pl, equity), "Buy/Sell") == Some(Text(f.buySell))
    ensures Field(HeaderRow, BuildRow(id, f, pl, equity), "Status") == Some(Text(f.status))
  {
    PairReadsBack(id, f, pl, equity);
    DirectionReadsBack(id, f, pl, equity);
    StatusReadsBack(id, f, pl, equity);
  }

  /** Read back under the header, a new row gives the entry and exit prices and the lot entered. */
  lemma PricesReadBack(id: nat, f: TradeForm, pl: real, equity: real)
    ensures Field(HeaderRow, BuildRow(id, f, pl, equity), "Entry") == Some(Number(f.entry))
    ensures Field(HeaderRow, BuildRow(id, f, pl, equity), "Exit") == Some(Number(f.exit))
    ensures Field(HeaderRow, BuildRow(id, f, pl, equity), "Lot") == Some(Number(f.lot))
  {
    EntryReadsBack(id, f, pl, equity);
    ExitReadsBack(id, f, pl, equity);
    LotReadsBack(id, f, pl, equity);
  }

  /** Read back under the header, a new row gives the time, date and note entered. */
  lemma EntryDetailsReadBack(id: nat, f: TradeForm, pl: real, equity: real)
    ensures Field(HeaderRow, BuildRow(id, f, pl, equity), "Jam") == Some(Text(f.time))
    ensures Field(HeaderRow, BuildRow(id, f, pl, equity), "Tanggal") == Some(Text(f.date))
    ensures Field(HeaderRow, BuildRow(id, f, pl, equity), "Note") == Some(Text(f.note))
  {
    TimeReadsBack(id, f, pl, equity);
    DateReadsBack(id, f, pl, equity);
    NoteReadsBack(id, f, pl, equity);
  }

  /** Read back under the header, a new row gives the stop loss and both take-profit levels entered. */
  lemma LevelsReadBack(id: nat, f: TradeForm, pl: real, equity: real)
    ensures Field(HeaderRow, BuildRow(id, f, pl, equity), "SL") == Some(Number(f.stopLoss))
    ensures Field(HeaderRow, BuildRow(id, f, pl, equity), "TP1") == Some(Number(f.takeProfit1))
    ensures Field(HeaderRow, BuildRow(id, f, pl, equity), "TP2") == Some(Number(f.takeProfit2))
  {
    StopLossReadsBack(id, f, pl, equity);
    TakeProfit1ReadsBack(id, f, pl, equity);
    TakeProfit2ReadsBack(id, f, pl, equity);
  }

  /** Read back under the header, a new row gives the two screenshot links entered. */
  lemma ScreenshotsReadBack(id: nat, f: TradeForm, pl: real, equity: real)
    ensures Field(HeaderRow, BuildRow(id, f, pl, equity), "SS Before") == Some(Text(f.shotBefore))
    ensures Field(HeaderRow, BuildRow(id, f, pl, equity), "SS After") == Some(Text(f.shotAfter))
  {
    ShotBeforeReadsBack(id, f, pl, equity);
    ShotAfterReadsBack(id, f, pl, equity);
  }

  /** Read back under the header, every column of a new row gives the value laid out at its position. */
  lemma RowReadsBack(id: nat, f: TradeForm, pl: real, equity: real)
    ensures forall k :: 0 <= k < |HeaderRow| ==>
      HeaderRow[k].Text? && Field(HeaderRow, BuildRow(id, f, pl, equity), HeaderRow[k].s) == Some(BuildRow(id, f, pl, equity)[k])
  {
    forall k | 0 <= k < |HeaderRow|
      ensures HeaderRow[k].Text? && Field(HeaderRow, BuildRow(id, f, pl, equity), HeaderRow[k].s) == Some(BuildRow(id, f, pl, equity)[k])
    {
      HeaderColumn(k);
    }
  }

  /**
   * The row the page appends for form `f`: P/L resolved with the saved
   * multiplier, the next ID, and the equity snapshot after this trade.
   */
  function NextRow(rows: Rows, f: TradeForm, start: real, multiplier: real): (row: Row)
    ensures |row| == |HeaderRow|
    ensures row[0] == Number((|Records(rows)| + 1) as real)
    ensures row[12] == Number(ResolvePL(f, multiplier))
    ensures row[16] == Number(CurrentEquity(start, rows) + ResolvePL(f, multiplier))
  {
    var pl := ResolvePL(f, multiplier);
    BuildRow(NewId(rows), f, pl, CurrentEquity(start, rows) + pl)
  }

  /**
   * The equity snapshot written on a new row is what the equity fold gives
   * over the ledger with that row appended.
   */
  lemma SnapshotMatchesFold(rows: Rows, f: TradeForm, start: real, multiplier: real)
    requires HasHeader(rows)
    ensures CurrentEquity(start, rows + [NextRow(rows, f, start, multiplier)])
         == CurrentEquity(start, rows) + ResolvePL(f, multiplier)
  {
    var row := NextRow(rows, f, start, multiplier);
    EquityAfterAppend(start, rows, row);
    HeaderFixesPLColumn(rows, row);
  }

  /** Every stored record carries its position (1-based) as its ID. */
  predicate IdsSequential(rows: Rows) {
    forall i :: 1 <= i < |rows| ==> rows[i] != [] && rows[i][0] == Number(i as real)
  }

  lemma AppendKeepsIdsSequential(rows: Rows, f: TradeForm, start: real, multiplier: real)
    requires rows != [] && IdsSequential(rows)
    ensures IdsSequential(rows + [NextRow(rows, f, start, multiplier)])
  {
    var grown := rows + [NextRow(rows, f, start, multiplier)];
    forall i | 1 <= i < |grown|
      ensures grown[i] != [] && grown[i][0] == Number(i as real)
    {
      if i < |rows| {
        assert grown[i] == rows[i];
      }
    }
  }

  /** The ledger after the forms are submitted one after another, every write succeeding. */
  function Submitted(rows: Rows, forms: seq<TradeForm>, start: real, multiplier: real): Rows
    decreases |forms|
  {
    if forms == [] then rows
    else Submitted(rows + [NextRow(rows, forms[0], start, multiplier)], forms[1..], start, multiplier)
  }

  /** The P/L of each form, in order. */
  function ResolvedPLs(forms: seq<TradeForm>, multiplier: real): (pls: seq<real>)
    ensures |pls| == |forms|
  {
    seq(|forms|, i requires 0 <= i < |forms| => ResolvePL(forms[i], multiplier))
  }

  /** The P/L of a run of forms sums to the first form's P/L plus the rest's. */
  lemma SumResolvedPLs(forms: seq<TradeForm>, multiplier: real)
    requires forms != []
    ensures Sum(ResolvedPLs(forms, multiplier)) == ResolvePL(forms[0], multiplier) + Sum(ResolvedPLs(forms[1..], multiplier))
  {
    assert ResolvedPLs(forms, multiplier)[1..] == ResolvedPLs(forms[1..], multiplier);
  }

  /** A run of submissions keeps the header and adds one row per form. */
  lemma {:induction false} SubmittedShape(rows: Rows, forms: seq<TradeForm>, start: real, multiplier: real)
    requires HasHeader(rows)
    ensures HasHeader(Submitted(rows, forms, start, multiplier))
    ensures |Submitted(rows, forms, start, multiplier)| == |rows| + |forms|
    decreases |forms|
  {
    if forms != [] {
      SubmittedShape(rows + [NextRow(rows, forms[0], start, multiplier)], forms[1..], start, multiplier);
    }
  }

  /**
   * After a run of submissions the equity over the grown ledger is the prior
   * equity plus the sum of the new trades' P/L.
   */
  lemma {:induction false} SubmittedEquity(rows: Rows, forms: seq<TradeForm>, start: real, multiplier: real)
    requires HasHeader(rows)
    ensures CurrentEquity(start, Submitted(rows, forms, start, multiplier))
         == CurrentEquity(start, rows) + Sum(ResolvedPLs(forms, multiplier))
    decreases |forms|
  {
    if forms != [] {
      var next := rows + [NextRow(rows, forms[0], start, multiplier)];
      SnapshotMatchesFold(rows, forms[0], start, multiplier);
      assert HasHeader(next);
      SubmittedEquity(next, forms[1..], start, multiplier);
      assert Submitted(rows, forms, start, multiplier) == Submitted(next, forms[1..], start, multiplier);
      SumResolvedPLs(forms, multiplier);
    }
  }

  /** After a run of submissions the IDs keep counting 1, 2, 3, ... in append order. */
  lemma {:induction false} SubmittedIds(rows: Rows, forms: seq<TradeForm>, start: real, multiplier: real)
    requires rows != [] && IdsSequential(rows)
    ensures IdsSequential(Submitted(rows, forms, start, multiplier))
    decreases |forms|
  {
    if forms != [] {
      AppendKeepsIdsSequential(rows, forms[0], start, multiplier);
      SubmittedIds(rows + [NextRow(rows, forms[0], start, multiplier)], forms[1..], start, multiplier);
    }
  }

  /** Reading back a ledger kept by this page, record i carries ID i + 1. */
  lemma IdsReadBack(rows: Rows, i: nat)
    requires HasHeader(rows) && IdsSequential(rows)
    requires i < |Records(rows)|
    ensures Field(HeaderOf(rows), Records(rows)[i], "ID") == Some(Number((i + 1) as real))
  {
    KeyColumns();
  }
}
