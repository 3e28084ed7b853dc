/**
 * The account settings kept on the "Settings" worksheet: account type,
 * starting equity and the per-lot P/L multiplier, stored as the first record
 * under the header TipeAkun | EquityAwal | Multiplier.
 */
module Settings {
  import opened Wrappers
  import opened Sheet
  import opened ProfitLoss

  const SettingsHeaderRow: Row := [Text("TipeAkun"), Text("EquityAwal"), Text("Multiplier")]

  datatype AccountSettings = AccountSettings(accountType: Cell, startingEquity: real, multiplier: real)

  /** The values used when the worksheet holds no settings record. */
  const Defaults: AccountSettings := AccountSettings(Text("Micro"), 1000.0, 100.0)

  /** Whether a stored setting holds text, which cannot be converted to a figure. */
  predicate HoldsText(field: Option<Cell>) {
    field.Some? && field.value.Text?
  }

  /**
   * A stored setting converted to a number: an absent key gives the default,
   * a number is taken as it is, and text cannot be converted (a failure).
   */
  function NumberOrDefault(field: Option<Cell>, default: real): (r: Option<real>)
    ensures field.None? ==> r == Some(default)
    ensures r.None? <==> HoldsText(field)
    ensures field.Some? && field.value.Number? ==> r == Some(field.value.x)
  {
    match field
    case None => Some(default)
    case Some(Number(x)) => Some(x)
    case Some(Text(_)) => None
  }

  /** A figure that is the stored number, or the default when the key is absent. */
  predicate StoredOrDefault(field: Option<Cell>, default: real, x: real) {
    field == Some(Number(x)) || (field.None? && x == default)
  }

  /**
   * The saved settings: the defaults when there is no record, otherwise the
   * first record's values, each key falling back to its default; None when a
   * stored equity or multiplier is not a number.
   */
  function ReadSettings(rows: Rows): (r: Option<AccountSettings>)
    ensures Records(rows) == [] ==> r == Some(Defaults)
    ensures r.None? ==> Records(rows) != []
    ensures Records(rows) != [] ==>
      var header, first := HeaderOf(rows), Records(rows)[0];
      && (r.None? <==> HoldsText(Field(header, first, "EquityAwal")) || HoldsText(Field(header, first, "Multiplier")))
      && (r.Some? ==>
            && r.value.accountType == Field(header, first, "TipeAkun").GetOr(Text("Micro"))
            && StoredOrDefault(Field(header, first, "EquityAwal"), 1000.0, r.value.startingEquity)
            && StoredOrDefault(Field(header, first, "Multiplier"), 100.0, r.value.multiplier))
  {
    var records := Records(rows);
    if records == [] then Some(Defaults)
    else
      var header, first := HeaderOf(rows), records[0];
      var kind := Field(header, first, "TipeAkun").GetOr(Defaults.accountType);
      var equity := NumberOrDefault(Field(header, first, "EquityAwal"), Defaults.startingEquity);
      var multiplier := NumberOrDefault(Field(header, first, "Multiplier"), Defaults.multiplier);
      if equity.Some? && multiplier.Some? then Some(AccountSettings(kind, equity.value, multiplier.value))
      else None
  }

  /** The worksheet as first created: the header and a default record. */
  function FreshSettingsSheet(): Rows {
    [SettingsHeaderRow, [Text("Micro"), Number(1000.0), Number(100.0)]]
  }

  /**
   * Whether the sidebar can show `s`: the account type must be one of its
   * three choices and the starting equity must not be below the equity
   * field's minimum of 0. The page stops on settings it cannot show.
   */
  predicate SidebarAccepts(s: AccountSettings) {
    && (s.accountType == Text("Micro") || s.accountType == Text("Mini") || s.accountType == Text("Standard"))
    && s.startingEquity >= 0.0
  }

  /** The record a new worksheet is created with reads back as the defaults. */
  lemma FreshSheetReadsDefaults()
    ensures ReadSettings(FreshSettingsSheet()) == Some(Defaults)
    ensures SidebarAccepts(Defaults)
  {
    SettingsColumns();
  }

  lemma SettingsColumns()
    ensures ColumnIndex(SettingsHeaderRow, "TipeAkun") == Some(0)
    ensures ColumnIndex(SettingsHeaderRow, "EquityAwal") == Some(1)
    ensures ColumnIndex(SettingsHeaderRow, "Multiplier") == Some(2)
  {
    ColumnAt(SettingsHeaderRow, "TipeAkun", 0);
    ColumnAt(SettingsHeaderRow, "EquityAwal", 1);
  }

  function SettingsCells(s: AccountSettings): Row {
    [s.accountType, Number(s.startingEquity), Number(s.multiplier)]
  }

  /**
   * The worksheet after writing `s` into the range A2:C2: the first three
   * cells of row 2 are replaced, any later cells of that row and every other
   * row are kept, and missing rows are created.
   */
  function WriteSettingsRow(rows: Rows, s: AccountSettings): (r: Rows)
    ensures |r| == if |rows| >= 2 then |rows| else 2
    ensures |r[1]| >= 3 && r[1][..3] == SettingsCells(s)
    ensures |rows| >= 2 && |rows[1]| > 3 ==> r[1][3..] == rows[1][3..]
    ensures forall i :: 0 <= i < |rows| && i != 1 ==> r[i] == rows[i]
    ensures |r[1]| == if |rows| >= 2 && |rows[1]| > 3 then |rows[1]| else 3
    ensures rows == [] ==> r[0] == []
  {
    var kept := if |rows| >= 2 && |rows[1]| > 3 then rows[1][3..] else [];
    var row2 := SettingsCells(s) + kept;
    if |rows| >= 2 then rows[1 := row2]
    else if |rows| == 1 then rows + [row2]
    else [[], row2]
  }

  /** Under the settings header, writing `s` and reading the settings back gives `s`. */
  lemma WriteThenRead(rows: Rows, s: AccountSettings)
    requires rows != [] && rows[0] == SettingsHeaderRow
    ensures ReadSettings(WriteSettingsRow(rows, s)) == Some(s)
  {
    var written := WriteSettingsRow(rows, s);
    SettingsColumns();
    assert HeaderOf(written) == SettingsHeaderRow;
    assert Records(written)[0] == written[1];
  }

  /**
   * Whether the sidebar values differ from the saved ones: the account type
   * by equality, the two figures by more than the tolerance.
   */
  function Changed(saved: AccountSettings, input: AccountSettings): (r: bool)
    ensures saved.accountType != input.accountType ==> r
    ensures Abs(input.startingEquity - saved.startingEquity) > Epsilon ==> r
    ensures Abs(input.multiplier - saved.multiplier) > Epsilon ==> r
    ensures saved == input ==> !r
  {
    || saved.accountType != input.accountType
    || Abs(input.startingEquity - saved.startingEquity) > Epsilon
    || Abs(input.multiplier - saved.multiplier) > Epsilon
  }

  /** Figures within the tolerance of the saved ones do not trigger a write. */
  lemma SmallDriftIsUnchanged(saved: AccountSettings, input: AccountSettings)
    requires input.accountType == saved.accountType
    requires Abs(input.startingEquity - saved.startingEquity) <= Epsilon
    requires Abs(input.multiplier - saved.multiplier) <= Epsilon
    ensures !Changed(saved, input)
  {
  }
}
