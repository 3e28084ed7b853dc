/**
 * One run of the journal page: the ledger worksheet and the settings
 * worksheet it is wired to, and the settings it holds as "saved" while the
 * page runs. Each method is one step of the page; a failed remote call is
 * a boolean parameter, since the spreadsheet service lies outside the model.
 */
module Journal {
  import opened Wrappers
  import opened Sheet
  import opened ProfitLoss
  import opened Ledger
  import opened Settings

  class JournalPage {
    /** The ledger worksheet, row 1 first. */
    var rows: Rows
    /** The "Settings" worksheet. */
    var settingsRows: Rows
    /** The account type, starting equity and multiplier the page currently holds as saved. */
    var saved: AccountSettings

    /** The page with both worksheets opened, before anything is read from them. */
    constructor (rows: Rows, settingsRows: Rows)
      ensures this.rows == rows && this.settingsRows == settingsRows
      ensures saved == Defaults
    {
      this.rows := rows;
      this.settingsRows := settingsRows;
      saved := Defaults;
    }

    /** Equity as the page shows it: saved starting equity plus every stored P/L. */
    function Equity(): real
      reads this
    {
      CurrentEquity(saved.startingEquity, rows)
    }

    /** Puts the header in row 1 unless it is already there. */
    method EnsureHeader()
      modifies this`rows
      ensures rows == WithHeader(old(rows))
      ensures HasHeader(rows)
    {
      if rows == [] {
        rows := [HeaderRow] + rows;
      } else if rows[0] != HeaderRow {
        rows := [HeaderRow] + rows;
      }
    }

    /**
     * Reads the saved settings from the worksheet. `ok` is false when a stored
     * figure is not a number, where the page stops with an error and holds
     * nothing new, and also when the values read are ones the sidebar cannot
     * show (an account type outside its three choices, a negative starting
     * equity), where the page stops as well.
     */
    method LoadSettings() returns (ok: bool)
      modifies this`saved
      ensures ok == (ReadSettings(settingsRows).Some? && SidebarAccepts(ReadSettings(settingsRows).value))
      ensures saved == if ReadSettings(settingsRows).Some? then ReadSettings(settingsRows).value else old(saved)
      ensures ok ==> ReadSettings(settingsRows) == Some(saved) && SidebarAccepts(saved)
    {
      var read := ReadSettings(settingsRows);
      ok := false;
      if read.Some? {
        saved := read.value;
        ok := SidebarAccepts(saved);
      }
    }

    /**
     * Writes the sidebar's settings to the worksheet when they differ from the
     * saved ones; only a write that succeeds updates what the page holds as
     * saved. `wrote` tells whether a write took place.
     */
    method SyncSettings(input: AccountSettings, writeFails: bool) returns (wrote: bool)
      modifies this`settingsRows, this`saved
      ensures wrote == (Changed(old(saved), input) && !writeFails)
      ensures saved == if wrote then input else old(saved)
      ensures settingsRows == if wrote then WriteSettingsRow(old(settingsRows), input) else old(settingsRows)
      ensures !writeFails ==> !Changed(saved, input)
      ensures old(settingsRows) != [] && old(settingsRows)[0] == SettingsHeaderRow
              && old(ReadSettings(settingsRows)) == Some(old(saved))
              ==> ReadSettings(settingsRows) == Some(saved)
    {
      ghost var before := settingsRows;
      wrote := false;
      if Changed(saved, input) {
        if !writeFails {
          settingsRows := WriteSettingsRow(settingsRows, input);
          saved := input;
          wrote := true;
        }
      }
      if wrote {
        if before != [] && before[0] == SettingsHeaderRow {
          WriteThenRead(before, input);
        }
      }
    }

    /**
     * Submits the trade form: resolves its P/L with the saved multiplier,
     * numbers it, computes the equity snapshot and appends the row unless the
     * append fails. The append and the re-read of the sheet after it share
     * one error handler, so `errorShown` is set when either fails: a failed
     * re-read reports an error although the row is stored.
     */
    method Submit(form: TradeForm, appendFails: bool, rereadFails: bool)
      returns (pl: real, id: nat, equity: real, errorShown: bool)
      modifies this`rows
      ensures pl == ResolvePL(form, saved.multiplier)
      ensures id == NewId(old(rows)) && id == |Records(old(rows))| + 1
      ensures equity == old(Equity()) + pl
      ensures rows == if appendFails then old(rows)
                      else old(rows) + [NextRow(old(rows), form, saved.startingEquity, saved.multiplier)]
      ensures errorShown == (appendFails || rereadFails)
      ensures errorShown && !appendFails ==> |rows| == |old(rows)| + 1
      ensures HasHeader(old(rows)) && !appendFails ==> Equity() == equity
      ensures old(rows) != [] && IdsSequential(old(rows)) ==> IdsSequential(rows)
    {
      pl := ResolvePL(form, saved.multiplier);
      id := NewId(rows);
      equity := Equity() + pl;
      var row := NextRow(rows, form, saved.startingEquity, saved.multiplier);
      errorShown := appendFails;
      if !appendFails {
        ghost var before := rows;
        rows := rows + [row];
        errorShown := rereadFails;
        if HasHeader(before) {
          SnapshotMatchesFold(before, form, saved.startingEquity, saved.multiplier);
        }
        if before != [] && IdsSequential(before) {
          AppendKeepsIdsSequential(before, form, saved.startingEquity, saved.multiplier);
        }
      }
    }
  }
}
