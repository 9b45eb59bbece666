/** The connection of a sheet: which columns it reads and writes, and the checks that keep the
    columns of the connection apart from the fixed ones. */
module SheetConnection {
  import opened Prelude
  import opened Cells
  import Columns
  import Text

  datatype PriceMode =
    | BestBidPercent | BestBidCleanRub | BestBidFullRub
    | BestOfferPercent | BestOfferCleanRub | BestOfferFullRub

  predicate OfferMode(mode: PriceMode) {
    mode == BestOfferPercent || mode == BestOfferCleanRub || mode == BestOfferFullRub
  }

  datatype Config = Config(
    headerRow: int, isinColumn: Column, priceColumn: Column,
    updatedAtColumn: Option<Column>, statusColumn: Option<Column>, priceMode: PriceMode)

  datatype ConfigError = BadColumn | NoWorksheet | ColumnsCoincide | ColumnsReserved

  function Optional<T>(c: Option<T>): seq<T> {
    match c case Some(column) => [column] case None => []
  }

  predicate Distinct<T(==)>(columns: seq<T>) {
    forall i, j :: 0 <= i < j < |columns| ==> columns[i] != columns[j]
  }

  function UsedColumns(config: Config): seq<Column> {
    [config.isinColumn, config.priceColumn] + Optional(config.updatedAtColumn) + Optional(config.statusColumn)
  }

  /** The columns of the connection are distinct and none of them is a fixed column. */
  predicate ValidConfig(config: Config) {
    && Distinct(UsedColumns(config))
    && forall c :: c in UsedColumns(config) ==> !Reserved(c)
  }

  // ---------- Configuration by column names ----------

  const RESERVED_NAMES: set<string> :=
    {"E", "H", "I", "J", "L", "V", "AD", "AE", "AF", "AG", "AH", "AI", "AJ", "AK", "AL"}

  datatype ColumnNames = ColumnNames(isin: string, price: string, updatedAt: Option<string>, status: Option<string>)

  function UsedNames(names: ColumnNames): seq<string> {
    [names.isin, names.price] + Optional(names.updatedAt) + Optional(names.status)
  }

  /** The canonical names of the four columns that the user enters. */
  function Normalized(isin: string, price: string, updatedAt: Option<string>, status: Option<string>)
    : Result<ColumnNames, ConfigError>
  {
    match (Columns.Normalize(Some(isin), true), Columns.Normalize(Some(price), true),
           Columns.Normalize(updatedAt, false), Columns.Normalize(status, false))
    case (Ok(Some(i)), Ok(Some(p)), Ok(u), Ok(s)) => Ok(ColumnNames(i, p, u, s))
    case _ => Err(BadColumn)
  }

  /** The checks of a connection, on names. */
  function Configure(worksheet: string, isin: string, price: string, updatedAt: Option<string>, status: Option<string>)
    : Result<ColumnNames, ConfigError>
  {
    match Normalized(isin, price, updatedAt, status)
    case Err(e) => Err(e)
    case Ok(names) =>
      if Text.Strip(worksheet) == "" then Err(NoWorksheet)
      else if !Distinct(UsedNames(names)) then Err(ColumnsCoincide)
      else if exists name :: name in UsedNames(names) && name in RESERVED_NAMES then Err(ColumnsReserved)
      else Ok(names)
  }

  predicate IsColumn(name: string) {
    Columns.IsName(name) && 1 <= Columns.Number(name) <= Columns.LAST_COLUMN
  }

  predicate AreColumns(names: ColumnNames) {
    && IsColumn(names.isin) && IsColumn(names.price)
    && (names.updatedAt.Some? ==> IsColumn(names.updatedAt.value))
    && (names.status.Some? ==> IsColumn(names.status.value))
  }

  /** The same connection with its columns as numbers. */
  function ByNumber(names: ColumnNames, headerRow: int, mode: PriceMode): Config
    requires AreColumns(names)
  {
    Config(headerRow, Columns.Number(names.isin), Columns.Number(names.price),
           if names.updatedAt.Some? then Some(Columns.Number(names.updatedAt.value)) else None,
           if names.status.Some? then Some(Columns.Number(names.status.value)) else None, mode)
  }

  /** An accepted connection keeps each column that the user entered in its place: trimmed and in
      capitals, and by its number. */
  lemma ColumnsInPlace(
    worksheet: string, isin: string, price: string, updatedAt: Option<string>, status: Option<string>,
    headerRow: int, mode: PriceMode)
    requires Configure(worksheet, isin, price, updatedAt, status).Ok?
    ensures var names := Configure(worksheet, isin, price, updatedAt, status).value;
            && Columns.Normalize(Some(isin), true) == Ok(Some(names.isin))
            && Columns.Normalize(Some(price), true) == Ok(Some(names.price))
            && Columns.Normalize(updatedAt, false) == Ok(names.updatedAt)
            && Columns.Normalize(status, false) == Ok(names.status)
            && AreColumns(names)
    ensures var names := Configure(worksheet, isin, price, updatedAt, status).value;
            var config := ByNumber(names, headerRow, mode);
            && config.isinColumn == Columns.Number(names.isin) && config.priceColumn == Columns.Number(names.price)
            && config.headerRow == headerRow && config.priceMode == mode
            && (names.updatedAt.Some? <==> config.updatedAtColumn.Some?)
            && (names.updatedAt.Some? ==> config.updatedAtColumn.value == Columns.Number(names.updatedAt.value))
            && (names.status.Some? <==> config.statusColumn.Some?)
            && (names.status.Some? ==> config.statusColumn.value == Columns.Number(names.status.value))
  {
    hide Columns.Normalize, Columns.Number, Columns.IsName, Text.Strip, UsedNames;
    NormalizedNames(isin, price, updatedAt, status);
  }

  /** Why a connection is refused. */
  lemma ConfigureErrors(
    worksheet: string, isin: string, price: string, updatedAt: Option<string>, status: Option<string>)
    requires Normalized(isin, price, updatedAt, status).Ok?
    ensures var r, used := Configure(worksheet, isin, price, updatedAt, status),
                           UsedNames(Normalized(isin, price, updatedAt, status).value);
            && (r == Err(NoWorksheet) <==> Text.Strip(worksheet) == "")
            && (r == Err(ColumnsCoincide) <==>
                  Text.Strip(worksheet) != "" && exists i, j :: 0 <= i < j < |used| && used[i] == used[j])
            && r != Err(BadColumn)
  {
    hide Normalized, Text.Strip, UsedNames, RESERVED_NAMES;
  }

  lemma NormalizedNames(isin: string, price: string, updatedAt: Option<string>, status: Option<string>)
    requires Normalized(isin, price, updatedAt, status).Ok?
    ensures AreColumns(Normalized(isin, price, updatedAt, status).value)
  {
    hide Columns.Normalize, Columns.IsName, Columns.Number;
    Columns.NormalizedNumber(Some(isin), true);
    Columns.NormalizedNumber(Some(price), true);
    if Columns.Normalize(updatedAt, false).value.Some? {
      Columns.NormalizedNumber(updatedAt, false);
    }
    if Columns.Normalize(status, false).value.Some? {
      Columns.NormalizedNumber(status, false);
    }
  }

  const FIXED_COLUMNS: set<Column> :=
    {E_DATE, H_QUANTITY, I_PRICE, J_ACCRUED, L_COMMISSION, V_PLAN, AD_ACCRUED, AE_COUNT, AF_COUPONS, AG_EXIT, AH_BEFORE,
     AI_AFTER, AJ_ANNUAL, AK_DELTA, AL_STATUS}

  lemma FixedColumns(c: Column)
    ensures c in FIXED_COLUMNS <==> Reserved(c)
  {
  }

  lemma FixedNames()
    ensures RESERVED_NAMES == set c | c in FIXED_COLUMNS :: Columns.Name(c)
  {
    hide Columns.Name;
    ColumnNumbers();
    var names := set c | c in FIXED_COLUMNS :: Columns.Name(c);
    assert forall c :: c in FIXED_COLUMNS ==> Columns.Name(c) in RESERVED_NAMES;
    assert Columns.Name(E_DATE) in names && Columns.Name(H_QUANTITY) in names && Columns.Name(I_PRICE) in names
      && Columns.Name(J_ACCRUED) in names && Columns.Name(L_COMMISSION) in names && Columns.Name(V_PLAN) in names;
    assert Columns.Name(AD_ACCRUED) in names && Columns.Name(AE_COUNT) in names && Columns.Name(AF_COUPONS) in names
      && Columns.Name(AG_EXIT) in names && Columns.Name(AH_BEFORE) in names && Columns.Name(AI_AFTER) in names
      && Columns.Name(AJ_ANNUAL) in names && Columns.Name(AK_DELTA) in names && Columns.Name(AL_STATUS) in names;
  }

  /** A name is reserved exactly when its number is a fixed column. */
  lemma ReservedByNumber(name: string)
    requires IsColumn(name)
    ensures name in RESERVED_NAMES <==> Reserved(Columns.Number(name))
  {
    hide Columns.Name, Columns.Number, Reserved, FIXED_COLUMNS, RESERVED_NAMES;
    FixedNames();
    FixedColumns(Columns.Number(name));
    Columns.NameOfNumber(name);
    if name in RESERVED_NAMES {
      var c :| c in FIXED_COLUMNS && Columns.Name(c) == name;
      Columns.NumberOfName(c);
    }
  }

  lemma UsedByNumber(names: ColumnNames, headerRow: int, mode: PriceMode)
    requires AreColumns(names)
    ensures var used, columns := UsedNames(names), UsedColumns(ByNumber(names, headerRow, mode));
            && |used| == |columns|
            && forall i :: 0 <= i < |used| ==> IsColumn(used[i]) && columns[i] == Columns.Number(used[i])
  {
    hide Columns.Number, IsColumn;
  }

  /** Names are accepted exactly when they are names of distinct columns outside the fixed
      ones and the worksheet has a name; an accepted connection is valid by number. */
  lemma ConfigureAcceptsExactlyTheValid(
    worksheet: string, isin: string, price: string, updatedAt: Option<string>, status: Option<string>,
    headerRow: int, mode: PriceMode)
    requires Normalized(isin, price, updatedAt, status).Ok?
    ensures var names := Normalized(isin, price, updatedAt, status).value;
            && AreColumns(names)
            && (Configure(worksheet, isin, price, updatedAt, status).Ok?
                <==> Text.Strip(worksheet) != "" && ValidConfig(ByNumber(names, headerRow, mode)))
  {
    hide Columns.Normalize, Columns.Number, Columns.IsName, AreColumns, Reserved, RESERVED_NAMES, Text.Strip,
      UsedNames, UsedColumns,
      ByNumber, Normalized;
    NormalizedNames(isin, price, updatedAt, status);
    var names := Normalized(isin, price, updatedAt, status).value;
    var used, columns := UsedNames(names), UsedColumns(ByNumber(names, headerRow, mode));
    UsedByNumber(names, headerRow, mode);
    forall i, j | 0 <= i < |used| && 0 <= j < |used|
      ensures columns[i] == columns[j] <==> used[i] == used[j]
    {
      Columns.NameOfNumber(used[i]);
      Columns.NameOfNumber(used[j]);
    }
    forall i | 0 <= i < |used|
      ensures used[i] in RESERVED_NAMES <==> Reserved(columns[i])
    {
      ReservedByNumber(used[i]);
    }
  }
}
