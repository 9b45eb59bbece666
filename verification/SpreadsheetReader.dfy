/** Reading a portfolio block from a loaded spreadsheet: the header, the rows below it up to
    the first empty one, and for each of them either a parsed row or an error. */
module SpreadsheetReader {
  import opened Prelude
  import opened Cells
  import Isin
  import Text

  datatype SheetCell = SheetCell(value: Value, isFormula: bool)

  type Line = seq<SheetCell>

  datatype Worksheet = Worksheet(title: string, rows: seq<Line>)

  /** How values are shown as text, and text read as a number or an ISO date. */
  datatype Formats = Formats(show: Value -> string, decimalOf: string -> Option<real>, isoDateOf: string -> Option<int>)

  const EMPTY_CELL := SheetCell(Blank, false)

  function CellOf(sheet: Worksheet, row: int, column: int): SheetCell {
    if row <= 0 || column <= 0 || row > |sheet.rows| then EMPTY_CELL
    else if column > |sheet.rows[row - 1]| then EMPTY_CELL
    else sheet.rows[row - 1][column - 1]
  }

  function Shown(v: Value, formats: Formats): string {
    match v
    case Blank => ""
    case Text(s) => s
    case _ => formats.show(v)
  }

  // ---------- The header and the block ----------

  predicate Falsy(v: Value) {
    v == Blank || v == Value.Text("") || v == Num(0.0) || v == Flag(false)
  }

  predicate IsHeaderCell(cell: SheetCell, formats: Formats) {
    !Falsy(cell.value) && Text.Upper(Text.Strip(Shown(cell.value, formats))) == "ISIN"
  }

  predicate IsEmptyLine(line: Line, formats: Formats) {
    forall i :: 0 <= i < |line| ==> Text.Strip(Shown(line[i].value, formats)) == ""
  }

  /** Row by row, and from left to right in a row. */
  predicate Earlier(row: int, column: int, otherRow: int, otherColumn: int) {
    row < otherRow || (row == otherRow && column < otherColumn)
  }

  predicate HeaderAt(sheet: Worksheet, formats: Formats, row: int, column: int) {
    && 1 <= row <= |sheet.rows| && 1 <= column <= |sheet.rows[row - 1]|
    && IsHeaderCell(sheet.rows[row - 1][column - 1], formats)
  }

  datatype ReadError = NoHeader

  /** The header is the first ISIN cell of the sheet. */
  method FindHeader(sheet: Worksheet, formats: Formats) returns (r: Result<(int, int), ReadError>)
    ensures r.Ok? ==> HeaderAt(sheet, formats, r.value.0, r.value.1)
    ensures r.Ok? ==> forall row, column ::
              Earlier(row, column, r.value.0, r.value.1) ==> !HeaderAt(sheet, formats, row, column)
    ensures r.Err? ==> forall row, column :: !HeaderAt(sheet, formats, row, column)
  {
    hide IsHeaderCell;
    for i := 0 to |sheet.rows|
      invariant forall row, column :: row <= i ==> !HeaderAt(sheet, formats, row, column)
    {
      for j := 0 to |sheet.rows[i]|
        invariant forall row, column ::
                    row <= i || (row == i + 1 && column <= j) ==> !HeaderAt(sheet, formats, row, column)
      {
        if IsHeaderCell(sheet.rows[i][j], formats) {
          return Ok((i + 1, j + 1));
        }
      }
    }
    return Err(NoHeader);
  }

  // ---------- One row ----------

  datatype EventType = Maturity | Offer

  datatype ImportRow = ImportRow(
    number: int, sourceIsin: string, isin: string, name: Option<string>, event: EventType, purchaseDate: int,
    eventDate: int, quantity: real, price: real, accrued: real, commission: real, redemption: Option<real>,
    saleCommission: real, plan: Option<real>, offerPeriod: Option<string>)

  datatype Reason =
    | FormulaNotAllowed | MissingValue | InvalidIsin(isin: Isin.IsinError) | UnknownEvent | InvalidDate
    | MissingNumber | InvalidNumber | MustBePositive | MustNotBeNegative

  datatype RowFault = RowFault(field: string, reason: Reason)

  function TextOf(v: Value, formats: Formats): Option<string> {
    if v == Blank then None
    else
      var text := Text.Strip(Shown(v, formats));
      if text == "" then None else Some(text)
  }

  predicate IsFormula(cell: SheetCell) {
    cell.isFormula || (cell.value.Text? && cell.value.s != "" && cell.value.s[0] == '=')
  }

  function RequiredText(cell: SheetCell, field: string, formats: Formats): Result<string, RowFault> {
    if IsFormula(cell) then Err(RowFault(field, FormulaNotAllowed))
    else if TextOf(cell.value, formats).None? then Err(RowFault(field, MissingValue))
    else Ok(TextOf(cell.value, formats).value)
  }

  function ManualDate(cell: SheetCell, field: string, formats: Formats): Result<int, RowFault> {
    if IsFormula(cell) then Err(RowFault(field, FormulaNotAllowed))
    else match cell.value
      case Day(d) => Ok(d)
      case Text(s) =>
        (match formats.isoDateOf(Text.Strip(s))
         case Some(d) => Ok(d)
         case None => Err(RowFault(field, InvalidDate)))
      case _ => Err(RowFault(field, InvalidDate))
  }

  function DecimalOf(v: Value, field: string, formats: Formats): Result<real, RowFault> {
    if IsBlank(v) then Err(RowFault(field, MissingNumber))
    else match v
      case Num(n) => Ok(n)
      case _ =>
        (match formats.decimalOf(Shown(v, formats))
         case Some(n) => Ok(n)
         case None => Err(RowFault(field, InvalidNumber)))
  }

  function ManualDecimal(cell: SheetCell, field: string, positive: bool, formats: Formats): Result<real, RowFault> {
    if IsFormula(cell) then Err(RowFault(field, FormulaNotAllowed))
    else
      var value :- DecimalOf(cell.value, field, formats);
      if positive && value <= 0.0 then Err(RowFault(field, MustBePositive))
      else if !positive && value < 0.0 then Err(RowFault(field, MustNotBeNegative))
      else Ok(value)
  }

  function OptionalDecimal(cell: SheetCell, formats: Formats): Result<Option<real>, RowFault> {
    if IsBlank(cell.value) || cell.isFormula then Ok(None)
    else
      var value :- DecimalOf(cell.value, "optional_decimal", formats);
      Ok(Some(value))
  }

  function EventTypeOf(text: string): Result<EventType, RowFault> {
    var normalized := LowerText(Text.Strip(text));
    if normalized == "погашение" || normalized == "maturity" then Ok(Maturity)
    else if normalized == "оферта" || normalized == "offer" then Ok(Offer)
    else Err(RowFault("target_event_type", UnknownEvent))
  }

  /** Lower case of Latin and Russian letters. */
  function LowerLetter(c: char): char {
    if 'A' <= c <= 'Z' then c - 'A' + 'a'
    else if 'А' <= c <= 'Я' then c - 'А' + 'а'
    else if c == 'Ё' then 'ё' else c
  }

  function LowerText(s: string): string {
    seq(|s|, i requires 0 <= i < |s| => LowerLetter(s[i]))
  }

  function IsinOfText(text: string): Result<string, RowFault> {
    match Isin.NormalizeIsin(text)
    case Ok(isin) => Ok(isin)
    case Err(e) => Err(RowFault("isin", InvalidIsin(e)))
  }

  function ParseRow(sheet: Worksheet, row: int, isinColumn: int, formats: Formats): Result<ImportRow, RowFault> {
    var source :- RequiredText(CellOf(sheet, row, isinColumn), "isin", formats);
    var isin :- IsinOfText(source);
    var kind :- RequiredText(CellOf(sheet, row, 4), "target_event_type", formats);
    var event :- EventTypeOf(kind);
    var purchased :- ManualDate(CellOf(sheet, row, 5), "purchase_date", formats);
    var due :- ManualDate(CellOf(sheet, row, 7), "target_event_date", formats);
    var quantity :- ManualDecimal(CellOf(sheet, row, 8), "quantity", true, formats);
    var price :- ManualDecimal(CellOf(sheet, row, 9), "purchase_clean_price_rub_per_bond", false, formats);
    var accrued :- ManualDecimal(CellOf(sheet, row, 10), "purchase_accrued_interest_rub_per_bond", false, formats);
    var commission :- ManualDecimal(CellOf(sheet, row, 12), "purchase_commission_rub_per_bond", false, formats);
    var redemption :- OptionalDecimal(CellOf(sheet, row, 14), formats);
    var sale :- OptionalDecimal(CellOf(sheet, row, 18), formats);
    var plan :- OptionalDecimal(CellOf(sheet, row, 22), formats);
    Ok(ImportRow(
      row, source, isin, TextOf(CellOf(sheet, row, 3).value, formats), event, purchased, due, quantity, price, accrued,
      commission, redemption, if sale.Some? then sale.value else 0.0, plan,
      TextOf(CellOf(sheet, row, 6).value, formats)))
  }

  /** The columns that people fill in. */
  predicate ManualColumn(c: int, isinColumn: int) {
    c == isinColumn || c in {4, 5, 7, 8, 9, 10, 12}
  }

  /** A row that is accepted holds a valid ISIN, a positive quantity, a price, an accrued interest
      and a commission that are not negative, and no formula in a manual field. */
  lemma AcceptedRowIsSound(sheet: Worksheet, row: int, isinColumn: int, formats: Formats)
    requires ParseRow(sheet, row, isinColumn, formats).Ok?
    ensures var r := ParseRow(sheet, row, isinColumn, formats).value;
            && r.number == row && Isin.ValidIsin(r.isin) && Isin.NormalizeIsin(r.sourceIsin) == Ok(r.isin)
            && r.quantity > 0.0 && r.price >= 0.0 && r.accrued >= 0.0 && r.commission >= 0.0
    ensures forall c :: ManualColumn(c, isinColumn) ==> !IsFormula(CellOf(sheet, row, c))
  {
    hide DecimalOf, TextOf, EventTypeOf, Isin.NormalizeIsin, Isin.ValidIsin, CellOf;
    var source := RequiredText(CellOf(sheet, row, isinColumn), "isin", formats).value;
    Isin.NormalizeIsinFixed(source);
  }

  /** The optional amounts are taken as they are, negative ones included: any numbers in their
      columns leave an accepted row accepted. */
  lemma OptionalAmountsAreFree(
    sheet: Worksheet, other: Worksheet, row: int, isinColumn: int, formats: Formats, redemption: real, sale: real,
    plan: real)
    requires ParseRow(sheet, row, isinColumn, formats).Ok? && isinColumn !in {14, 18, 22}
    requires forall c :: c !in {14, 18, 22} ==> CellOf(other, row, c) == CellOf(sheet, row, c)
    requires CellOf(other, row, 14) == SheetCell(Num(redemption), false)
    requires CellOf(other, row, 18) == SheetCell(Num(sale), false)
    requires CellOf(other, row, 22) == SheetCell(Num(plan), false)
    ensures ParseRow(other, row, isinColumn, formats)
            == Ok(ParseRow(sheet, row, isinColumn, formats).value.(
                    redemption := Some(redemption), saleCommission := sale, plan := Some(plan)))
  {
    hide RequiredText, ManualDate, ManualDecimal, EventTypeOf, IsinOfText, TextOf, CellOf, OptionalDecimal;
    OptionalNumber(redemption, formats);
    OptionalNumber(sale, formats);
    OptionalNumber(plan, formats);
  }

  /** The cell gives no amount, or one that is not negative. */
  predicate NotNegative(cell: SheetCell, formats: Formats) {
    || IsBlank(cell.value) || cell.isFormula
    || match DecimalOf(cell.value, "optional_decimal", formats)
       case Ok(n) => n >= 0.0
       case Err(_) => false
  }

  /** The optional amounts of an accepted row are not negative exactly if each of their cells is
      blank, a formula, or reads as a number that is not negative; one that is blank or a formula
      gives no amount, and no sale commission. */
  lemma OptionalAmountsNotNegativeIff(sheet: Worksheet, row: int, isinColumn: int, formats: Formats)
    requires ParseRow(sheet, row, isinColumn, formats).Ok?
    ensures var r := ParseRow(sheet, row, isinColumn, formats).value;
            && ((r.redemption.Some? ==> r.redemption.value >= 0.0) <==> NotNegative(CellOf(sheet, row, 14), formats))
            && (r.saleCommission >= 0.0 <==> NotNegative(CellOf(sheet, row, 18), formats))
            && ((r.plan.Some? ==> r.plan.value >= 0.0) <==> NotNegative(CellOf(sheet, row, 22), formats))
            && (r.redemption.None? <==> IsBlank(CellOf(sheet, row, 14).value) || CellOf(sheet, row, 14).isFormula)
            && (r.plan.None? <==> IsBlank(CellOf(sheet, row, 22).value) || CellOf(sheet, row, 22).isFormula)
  {
    hide RequiredText, ManualDate, ManualDecimal, EventTypeOf, IsinOfText, TextOf, CellOf, OptionalDecimal, NotNegative;
    OptionalAmount(CellOf(sheet, row, 14), formats);
    OptionalAmount(CellOf(sheet, row, 18), formats);
    OptionalAmount(CellOf(sheet, row, 22), formats);
  }

  lemma OptionalAmount(cell: SheetCell, formats: Formats)
    ensures OptionalDecimal(cell, formats).Ok? ==>
              var amount := OptionalDecimal(cell, formats).value;
              && ((amount.Some? ==> amount.value >= 0.0) <==> NotNegative(cell, formats))
              && (amount.None? <==> IsBlank(cell.value) || cell.isFormula)
  {
  }

  lemma OptionalNumber(n: real, formats: Formats)
    ensures OptionalDecimal(SheetCell(Num(n), false), formats) == Ok(Some(n))
  {
  }

  // ---------- The preview ----------

  datatype RowError = RowError(number: int, fault: RowFault)

  datatype Preview = Preview(
    sheetName: string, checksum: string, headerRow: int, rowsRead: nat, rows: seq<ImportRow>, errors: seq<RowError>)

  predicate Reported(n: int, rows: seq<ImportRow>, errors: seq<RowError>) {
    (exists row :: row in rows && row.number == n) || (exists e :: e in errors && e.number == n)
  }

  /** The lines header + 1 to header + count are read: each gives one row or one error. */
  ghost predicate Reads(
    sheet: Worksheet, formats: Formats, header: int, column: int, count: nat, rows: seq<ImportRow>,
    errors: seq<RowError>)
  {
    && |rows| + |errors| == count
    && (forall i, j :: 0 <= i < j < |rows| ==> rows[i].number < rows[j].number)
    && (forall i, j :: 0 <= i < j < |errors| ==> errors[i].number < errors[j].number)
    && (forall row :: row in rows ==> header < row.number <= header + count
                                      && ParseRow(sheet, row.number, column, formats) == Ok(row))
    && (forall e :: e in errors ==> header < e.number <= header + count
                                    && ParseRow(sheet, e.number, column, formats) == Err(e.fault))
    && (forall n :: header < n <= header + count ==> Reported(n, rows, errors))
  }

  lemma ReadsRow(
    sheet: Worksheet, formats: Formats, header: int, column: int, count: nat, rows: seq<ImportRow>,
    errors: seq<RowError>,
    row: ImportRow)
    requires Reads(sheet, formats, header, column, count, rows, errors)
    requires ParseRow(sheet, header + count + 1, column, formats) == Ok(row)
    ensures Reads(sheet, formats, header, column, count + 1, rows + [row], errors)
  {
    RowNumberOf(sheet, header + count + 1, column, formats);
    hide ParseRow, Reported;
    assert forall i :: 0 <= i < |rows| ==> rows[i] in rows;
    OneRow(row);
    forall n | Reported(n, rows, errors) || n == row.number
      ensures Reported(n, rows + [row], errors)
    {
      ReportedGrows(n, rows, errors, [row], []);
      assert errors + [] == errors;
    }
  }

  lemma ReadsError(
    sheet: Worksheet, formats: Formats, header: int, column: int, count: nat, rows: seq<ImportRow>,
    errors: seq<RowError>,
    fault: RowFault)
    requires Reads(sheet, formats, header, column, count, rows, errors)
    requires ParseRow(sheet, header + count + 1, column, formats) == Err(fault)
    ensures Reads(sheet, formats, header, column, count + 1, rows, errors + [RowError(header + count + 1, fault)])
  {
    hide ParseRow, Reported;
    var e := RowError(header + count + 1, fault);
    assert forall i :: 0 <= i < |errors| ==> errors[i] in errors;
    OneError(e);
    forall n | Reported(n, rows, errors) || n == e.number
      ensures Reported(n, rows, errors + [e])
    {
      ReportedGrows(n, rows, errors, [], [e]);
      assert rows + [] == rows;
    }
  }

  lemma OneRow(row: ImportRow)
    ensures Reported(row.number, [row], [])
  {
    assert row in [row];
  }

  lemma OneError(e: RowError)
    ensures Reported(e.number, [], [e])
  {
    assert e in [e];
  }

  lemma ReportedGrows(n: int, rows: seq<ImportRow>, errors: seq<RowError>, moreRows: seq<ImportRow>,
      moreErrors: seq<RowError>)
    requires Reported(n, rows, errors) || Reported(n, moreRows, moreErrors)
    ensures Reported(n, rows + moreRows, errors + moreErrors)
  {
    assert forall row :: row in rows || row in moreRows ==> row in rows + moreRows;
    assert forall e :: e in errors || e in moreErrors ==> e in errors + moreErrors;
  }

  lemma RowNumberOf(sheet: Worksheet, n: int, column: int, formats: Formats)
    ensures ParseRow(sheet, n, column, formats).Ok? ==> ParseRow(sheet, n, column, formats).value.number == n
  {
    hide RequiredText, ManualDate, ManualDecimal, OptionalDecimal, EventTypeOf, IsinOfText, TextOf, CellOf;
  }

  ghost predicate HasHeader(sheet: Worksheet, formats: Formats, header: int, column: int) {
    && HeaderAt(sheet, formats, header, column)
    && (forall y, x :: Earlier(y, x, header, column) ==> !HeaderAt(sheet, formats, y, x))
  }

  /** The preview of a sheet: the lines below the first header up to the first empty one. */
  ghost predicate Previews(sheet: Worksheet, checksum: string, formats: Formats, p: Preview) {
    && p.sheetName == sheet.title && p.checksum == checksum
    && (exists column :: && HasHeader(sheet, formats, p.headerRow, column)
                         && Reads(sheet, formats, p.headerRow, column, p.rowsRead, p.rows, p.errors))
    && 1 <= p.headerRow && p.headerRow + p.rowsRead <= |sheet.rows|
    && (forall k :: p.headerRow <= k < p.headerRow + p.rowsRead ==> !IsEmptyLine(sheet.rows[k], formats))
    && (p.headerRow + p.rowsRead < |sheet.rows| ==> IsEmptyLine(sheet.rows[p.headerRow + p.rowsRead], formats))
  }

  /** The block below the header ends at the first empty line or with the sheet; every line of
      it is reported once, as a row or as an error. */
  method ReadPreview(sheet: Worksheet, checksum: string, formats: Formats) returns (r: Result<Preview, ReadError>)
    ensures r.Err? ==> forall row, column :: !HeaderAt(sheet, formats, row, column)
    ensures r.Ok? ==> Previews(sheet, checksum, formats, r.value)
  {
    hide ParseRow, Reads, IsHeaderCell, IsEmptyLine;
    var found := FindHeader(sheet, formats);
    if found.Err? {
      return Err(NoHeader);
    }
    var (header, column) := found.value;
    var rows: seq<ImportRow>, errors: seq<RowError>, count := [], [], 0;
    NothingRead(sheet, formats, header, column);
    for n := header + 1 to |sheet.rows| + 1
      invariant n == header + 1 + count
      invariant Reads(sheet, formats, header, column, count, rows, errors)
      invariant forall k :: header <= k < n - 1 ==> !IsEmptyLine(sheet.rows[k], formats)
    {
      if IsEmptyLine(sheet.rows[n - 1], formats) {
        break;
      }
      match ParseRow(sheet, n, column, formats)
      case Ok(row) =>
        ReadsRow(sheet, formats, header, column, count, rows, errors, row);
        rows, count := rows + [row], count + 1;
      case Err(fault) =>
        ReadsError(sheet, formats, header, column, count, rows, errors, fault);
        errors, count := errors + [RowError(n, fault)], count + 1;
    }
    return Ok(Preview(sheet.title, checksum, header, count, rows, errors));
  }

  lemma NothingRead(sheet: Worksheet, formats: Formats, header: int, column: int)
    ensures Reads(sheet, formats, header, column, 0, [], [])
  {
  }

  /** Rows and errors share no line number. */
  lemma RowsAndErrorsDisjoint(
    sheet: Worksheet, formats: Formats, header: int, column: int, count: nat, rows: seq<ImportRow>,
    errors: seq<RowError>)
    requires Reads(sheet, formats, header, column, count, rows, errors)
    ensures forall row, e :: row in rows && e in errors ==> row.number != e.number
  {
    hide ParseRow;
  }
}
