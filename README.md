# Trading journal: P/L resolution, equity ledger and settings sync

This project models the bookkeeping core of a one-page trading journal.
The page is a Streamlit form wired to a Google Sheets spreadsheet, and the model covers:

- the rule that turns a submitted trade into a realised profit/loss (P/L);
- the ledger worksheet and the account equity derived from it by summing the stored P/L column;
- the numbering of new trades and the 17-column layout of the row they are stored as;
- the check that puts the header in row 1;
- the account settings (type, starting equity, per-lot multiplier): how they are read, and how they are written back when the sidebar changes them.

A worksheet is a sequence of rows of cells (`Sheet.Rows`).
Row 1 holds the column names.
Reading the sheet "as records" pairs each later row with those names.
A cell is either a number or text, because the spreadsheet client turns numeric-looking cells into numbers.
In the ledger's P/L column, text where a number is expected counts as unparseable and is read as 0.
In the settings, a text starting equity or multiplier makes the read fail, because converting it to a float raises an error (`Settings.ReadSettings` returns None).
Figures are `real`.
The page's `1e-9` tolerance is the constant `ProfitLoss.Epsilon`.

Modules:

- `Sheet`: cells, rows, and the record view (column lookup, field access).
- `ProfitLoss`: the trade form, the first-match-wins P/L rule and its properties.
- `Ledger`: the ledger header, the header check, the P/L column with its legacy `Profit` fallback, the equity fold, new IDs and rows, and runs of submissions.
- `Settings`: the settings record, its defaults, the A2:C2 write and the change test.
- `Journal`: the class `JournalPage`, which holds the two worksheets and the saved settings.
  Its methods are the page's state-changing steps: header check, settings load, settings sync and trade submission.
  A failed remote call is a boolean parameter.

Three behaviours of the code are worth knowing, and the model keeps each as the code has it:

- Trade IDs are "number of records + 1" (`Ledger.NewId`).
  An ID is meant to name one trade for good, but the code counts rows.
  After a row is deleted by hand, the next ID can repeat one already stored.
- The page keeps no running equity variable.
  It recomputes equity from the sheet on every run, and a failed append leaves the sheet unchanged (`Journal.JournalPage.Submit`).
  The append and the re-read of the sheet after it share one error handler, though.
  When the append succeeds and the re-read fails, the page reports an error although the trade is stored.
  Submitting the trade again then stores it twice, and the equity counts it twice.
- Once the header check has run, row 1 always has a `P/L` column.
  The page's own path therefore never takes the legacy `Profit` fallback.
  `Ledger.HeaderFixesPLColumn` states this, and `Ledger.LegacyProfitFallback` covers a sheet read without the check.

## Model

| member | source | states |
|---|---|---|
| ProfitLoss.DirectionSign | trading_journal_gsheet.py:209 | the direction factor is +1 exactly for "BUY"; every other choice is -1 |
| ProfitLoss.ResolvePL | trading_journal_gsheet.py:204-213 | the P/L is 0, the manual figure or the price-move figure, and it is non-zero only when the status is not "BE" and a manual figure or both prices are set |
| ProfitLoss.BreakEvenIsZero | trading_journal_gsheet.py:204-205 | status "BE" gives P/L 0 whatever the manual figure, prices, lot or multiplier |
| ProfitLoss.ManualOverrideWins | trading_journal_gsheet.py:206-207 | when status is not "BE" and the manual figure exceeds 1e-9 in magnitude, P/L is that figure whatever the prices |
| ProfitLoss.ComputedFromPrices | trading_journal_gsheet.py:208-211 | with no override and both prices set, P/L is (exit - entry) x lot x multiplier x direction |
| ProfitLoss.UnsetPriceIsZero | trading_journal_gsheet.py:212-213 | with no override and entry or exit unset (0), P/L is 0 |
| ProfitLoss.SellNegatesBuy | trading_journal_gsheet.py:208-213 | with no override in force, a SELL books exactly the negation of the same trade as a BUY |
| ProfitLoss.OverrideIgnoresPrices | trading_journal_gsheet.py:204-207 | under break-even or a manual figure, the P/L does not depend on prices, lot, direction or multiplier |
| ProfitLoss.FirstMatch | trading_journal_gsheet.py:193-198 | when no rule fires the result is the fallback; otherwise it is the value of the first rule that fires |
| ProfitLoss.ResolveIsFirstMatch | trading_journal_gsheet.py:193-213 | the P/L chain is the first-match-wins reading of the priority list break-even, manual, computed, with 0 as the fallback |
| ProfitLoss.BuyExample | trading_journal_gsheet.py:208-211 | BUY 0.10 lot from 1900 to 1910 with multiplier 100 books 100 |
| ProfitLoss.SellExample | trading_journal_gsheet.py:208-211 | the same trade as a SELL books -100 |
| Sheet.ColumnIndexFindsLast | trading_journal_gsheet.py:148-153 | a record key is found iff some header cell has that name, and then it is the last such column |
| Sheet.Field | trading_journal_gsheet.py:94-96 | a key is missing exactly when no header cell has that name; otherwise its value is the cell under the last column of that name, blank for a short row |
| Ledger.WithHeader | trading_journal_gsheet.py:62-70 | after the header check row 1 is the header; a sheet that had it is unchanged; otherwise every original row is kept, in order, below it |
| Ledger.WithHeaderIdempotent | trading_journal_gsheet.py:62-70 | a second header check changes nothing |
| Ledger.WithHeaderShiftsRows | trading_journal_gsheet.py:68-70 | where the header is inserted, each original row moves down by exactly one |
| Ledger.HeaderNamesDistinct | trading_journal_gsheet.py:56-59 | the header is 17 distinct names |
| Ledger.HeaderColumn | trading_journal_gsheet.py:56-59 | every header name is looked up at its own position |
| Ledger.KeyColumns | trading_journal_gsheet.py:56-59 | the header puts ID in column 0, P/L in column 12 and Equity in column 16 |
| Ledger.NoProfitColumn | trading_journal_gsheet.py:56-59 | the header has no legacy Profit column |
| Ledger.PLCell | trading_journal_gsheet.py:148-153 | a record has no P/L cell exactly when the header has neither a P/L nor a Profit column; when a P/L column exists, the cell is the record's P/L field, so P/L wins over Profit |
| Ledger.PLValue | trading_journal_gsheet.py:149-153 | a missing or unparseable P/L counts as 0; otherwise the value is the number stored in the P/L (or Profit) cell |
| Ledger.LegacyProfitFallback | trading_journal_gsheet.py:150-151 | a header without P/L but with Profit reads the P/L from the Profit column |
| Ledger.HeaderFixesPLColumn | trading_journal_gsheet.py:148-149 | after the header check the P/L is always read from column 12, so the Profit fallback is never taken |
| Ledger.CurrentEquity | trading_journal_gsheet.py:156-158 | a ledger with no trade rows is worth exactly the starting equity |
| Ledger.NothingParsedKeepsStart | trading_journal_gsheet.py:149-158 | a ledger none of whose P/L cells parses as a number is worth the starting equity |
| Ledger.EquityAfterAppend | trading_journal_gsheet.py:149-158 | appending a row adds exactly that row's coerced P/L to the equity |
| Ledger.UnparseableRowAddsNothing | trading_journal_gsheet.py:149-154 | a record whose P/L is unparseable or missing, inserted anywhere below the header, leaves the equity the other records give unchanged |
| Ledger.NewId | trading_journal_gsheet.py:217-219 | the new ID is at least 1 and one more than the number of stored records |
| Ledger.BuildRow | trading_journal_gsheet.py:224-242 | a new row has as many fields as the header |
| Ledger.KeyFieldsReadBack | trading_journal_gsheet.py:224-242 | read back under the header by name, a new row gives its ID, P/L and equity snapshot |
| Ledger.LabelsReadBack | trading_journal_gsheet.py:224-242 | read back by name, a new row gives the pair, the Buy/Sell choice and the status entered |
| Ledger.PricesReadBack | trading_journal_gsheet.py:224-242 | read back by name, a new row gives the entry price, exit price and lot entered |
| Ledger.EntryDetailsReadBack | trading_journal_gsheet.py:224-242 | read back by name (Jam, Tanggal, Note), a new row gives the time, date and note entered |
| Ledger.LevelsReadBack | trading_journal_gsheet.py:224-242 | read back by name (SL, TP1, TP2), a new row gives the stop loss and both take-profit levels entered |
| Ledger.ScreenshotsReadBack | trading_journal_gsheet.py:224-242 | read back by name (SS Before, SS After), a new row gives the two screenshot links entered |
| Ledger.RowReadsBack | trading_journal_gsheet.py:224-242 | read back under the header, every column of a new row gives the value laid out at its position (the six lemmas above name each of the 17 columns and its form field) |
| Ledger.NextRow | trading_journal_gsheet.py:217-242 | the appended row has the header's width; its ID column holds records + 1, its P/L column the resolved P/L and its Equity column current equity plus that P/L |
| Ledger.SnapshotMatchesFold | trading_journal_gsheet.py:156-221 | the equity written on a new row equals the equity fold over the ledger with that row appended |
| Ledger.AppendKeepsIdsSequential | trading_journal_gsheet.py:217-245 | if every record's ID is its position, this stays true after an append |
| Ledger.SubmittedShape | trading_journal_gsheet.py:244-245 | a run of successful submissions keeps the header and adds one row per trade |
| Ledger.SubmittedEquity | trading_journal_gsheet.py:154-245 | after a run of submissions, equity is the prior equity plus the sum of the new trades' P/L |
| Ledger.SubmittedIds | trading_journal_gsheet.py:217-245 | after a run of submissions the IDs still count 1, 2, 3, ... in append order |
| Ledger.IdsReadBack | trading_journal_gsheet.py:217-219 | in a ledger kept by the page, record i reads back ID i + 1 |
| Settings.NumberOrDefault | trading_journal_gsheet.py:95-96 | an absent setting takes its default, a stored number is taken as it is, and conversion fails exactly for a stored text value |
| Settings.ReadSettings | trading_journal_gsheet.py:92-100 | with no settings record the values are ("Micro", 1000, 100); otherwise the read fails exactly when the first record's EquityAwal or Multiplier is text, and on success the type is the stored TipeAkun cell or "Micro", and each figure is the stored number or its default when the key is absent |
| Settings.FreshSheetReadsDefaults | trading_journal_gsheet.py:83-107 | the record a new settings worksheet is created with reads back as the same defaults, which the sidebar can show |
| Settings.SettingsColumns | trading_journal_gsheet.py:85 | the settings header puts TipeAkun, EquityAwal and Multiplier in columns 0, 1 and 2 |
| Settings.WriteSettingsRow | trading_journal_gsheet.py:125 | writing A2:C2 replaces exactly the first three cells of row 2, keeps its later cells and every other row, and creates the missing rows (an empty row 1 on an empty sheet) |
| Settings.WriteThenRead | trading_journal_gsheet.py:125-129 | under the settings header, the settings written are exactly the settings read back |
| Settings.Changed | trading_journal_gsheet.py:123 | a different account type, or a starting equity or multiplier more than 1e-9 away from the saved one, is a change; settings equal to the saved ones never are |
| Settings.SmallDriftIsUnchanged | trading_journal_gsheet.py:123 | same type and figures within 1e-9 of the saved ones do not trigger a write |
| Journal.JournalPage.constructor | trading_journal_gsheet.py:44-51 | the page starts from the two worksheets as they are stored; until the settings are read, the defaults stand in for the saved values |
| Journal.JournalPage.EnsureHeader | trading_journal_gsheet.py:62-70 | the ledger becomes WithHeader of what it was, so row 1 is the header |
| Journal.JournalPage.LoadSettings | trading_journal_gsheet.py:92-107 | saved settings become the values read; the load succeeds exactly when the read succeeds and the sidebar can show the values (type Micro, Mini or Standard, starting equity at least 0); when a stored figure is not numeric nothing changes |
| Journal.JournalPage.SyncSettings | trading_journal_gsheet.py:123-131 | a write happens iff the input differs and the write does not fail; only then do sheet and saved values change; after a non-failing sync the saved values match the input; a sheet that agreed with the saved values still agrees |
| Journal.JournalPage.Submit | trading_journal_gsheet.py:199-253 | P/L resolved with the saved multiplier, ID = records + 1, equity = current equity + P/L; the row is appended only if the append succeeds; an error is shown when the append or the re-read after it fails, so an error can follow a stored row; the fold over the new ledger equals the snapshot written; sequential IDs are kept |

## Left out

- Presentation: the page layout, sidebar widgets, form, metrics and caption, and the data table (lines 160-190, 256-274); of the re-read after a save (lines 248-251) only its failure is modelled.
  The reset form (lines 111-120) is also left out, because its rerun control flow belongs to the UI framework.
- Authentication and opening the spreadsheet (lines 18-51).
  Looking up or creating the settings worksheet (lines 79-89) is left out too.
  Only the content a new settings worksheet is given is modelled (`Settings.FreshSettingsSheet`).
- Remote-call failures other than the three below: a failed read, or a failed header insertion, stops the page and is not modelled.
  A failed trade append, a failed re-read after it and a failed settings update are boolean parameters.
- How the spreadsheet client builds records and how pandas parses numbers.
  A record key takes the last column of that name. This last-wins reading of a repeated name is the model's choice.
  Recent versions of the client refuse a header with repeated names, and two blank header cells count as a repeat; the ledger read at line 137 would then stop the page.
  A short row reads as blank.
  Numeric-looking text is taken to arrive as a number.
- Floating point: figures are `real`, so rounding in the P/L product and the equity sum is not modelled.
- Date and time formatting.
- How the spreadsheet service parses the appended row: it is sent with USER_ENTERED (line 245), so the service reads the text fields (pair, time, date, note, screenshot links) as if typed in, and may turn them into numbers, dates or formulas.
  `Ledger.BuildRow` keeps them as text cells, and the read-back lemmas hold only for values the service stores unchanged.
- The `try`/`except` around reading the multiplier (lines 199-202): the saved multiplier is always a float, so the fallback branch cannot run, and `Submit` uses the saved multiplier.
- The sidebar widgets themselves (lines 105-108) are UI.
  Their two ways of stopping the page are modelled by `Settings.SidebarAccepts`, which `Journal.JournalPage.LoadSettings` checks: a stored type other than Micro, Mini or Standard (line 106), and a stored starting equity below the equity field's minimum of 0 (line 107).
- Concurrent submissions from several sessions: the sheet state read at line 137 and at line 217 is taken to be the same.
