/** Rows that are written into a sheet are read back: each field has its own column. */
module PreviewRoundTrip {
  import opened Prelude
  import opened Cells
  import opened SpreadsheetReader
  import Isin
  import Text

  // ---------- A line that holds a row ----------

  /** What a cell shows. */
  function Words(v: Value, formats: Formats): string {
    match v
    case Blank => ""
    case Text(s) => s
    case _ => formats.show(v)
  }

  predicate HoldsText(cell: SheetCell, text: Option<string>, formats: Formats) {
    var words := Text.Strip(Words(cell.value, formats));
    text == if words == "" then None else Some(words)
  }

  /** Manual fields must not hold a formula, not even as text. */
  predicate NoFormula(cell: SheetCell) {
    !cell.isFormula && (cell.value.Text? ==> !("=" <= cell.value.s))
  }

  /** The words for an event, in both languages and in any case. */
  predicate EventWord(word: string, event: EventType) {
    LowerText(word) in if event.Maturity? then {"погашение", "maturity"} else {"оферта", "offer"}
  }

  predicate HoldsEvent(cell: SheetCell, event: EventType, formats: Formats) {
    NoFormula(cell) && EventWord(Text.Strip(Words(cell.value, formats)), event)
  }

  /** A date, or a text that reads as one. */
  predicate HoldsDate(cell: SheetCell, date: int, formats: Formats) {
    && NoFormula(cell)
    && (|| cell.value == Day(date)
        || (cell.value.Text? && formats.isoDateOf(Text.Strip(cell.value.s)) == Some(date)))
  }

  /** A number, or something else that is not blank and reads as one. */
  predicate Amount(v: Value, n: real, formats: Formats) {
    v == Num(n) || (!v.Num? && v != Blank && v != Value.Text("") && formats.decimalOf(Words(v, formats)) == Some(n))
  }

  predicate HoldsNumber(cell: SheetCell, n: real, formats: Formats) {
    NoFormula(cell) && Amount(cell.value, n, formats)
  }

  /** A formula in an optional field counts as nothing. */
  predicate HoldsOptional(cell: SheetCell, n: Option<real>, formats: Formats) {
    if cell.isFormula || cell.value == Blank || cell.value == Value.Text("") then n == None
    else n.Some? && Amount(cell.value, n.value, formats)
  }

  /** The line n holds the fields of the row in the columns of the profile. */
  predicate Holds(sheet: Worksheet, isinColumn: int, row: ImportRow, formats: Formats) {
    var n := row.number;
    && HoldsText(CellOf(sheet, n, isinColumn), Some(row.sourceIsin), formats)
    && NoFormula(CellOf(sheet, n, isinColumn))
    && HoldsText(CellOf(sheet, n, 3), row.name, formats)
    && HoldsEvent(CellOf(sheet, n, 4), row.event, formats)
    && HoldsDate(CellOf(sheet, n, 5), row.purchaseDate, formats)
    && HoldsText(CellOf(sheet, n, 6), row.offerPeriod, formats)
    && HoldsDate(CellOf(sheet, n, 7), row.eventDate, formats)
    && HoldsNumber(CellOf(sheet, n, 8), row.quantity, formats)
    && HoldsNumber(CellOf(sheet, n, 9), row.price, formats)
    && HoldsNumber(CellOf(sheet, n, 10), row.accrued, formats)
    && HoldsNumber(CellOf(sheet, n, 12), row.commission, formats)
    && HoldsOptional(CellOf(sheet, n, 14), row.redemption, formats)
    && HoldsSale(CellOf(sheet, n, 18), row.saleCommission, formats)
    && HoldsOptional(CellOf(sheet, n, 22), row.plan, formats)
  }

  /** Without a sale commission there is none to pay. */
  predicate HoldsSale(cell: SheetCell, sale: real, formats: Formats) {
    HoldsOptional(cell, Some(sale), formats) || (HoldsOptional(cell, None, formats) && sale == 0.0)
  }

  /** The fields are what the reader permits. */
  predicate Permitted(row: ImportRow) {
    && Isin.NormalizeIsin(row.sourceIsin) == Ok(row.isin)
    && row.quantity > 0.0 && row.price >= 0.0 && row.accrued >= 0.0 && row.commission >= 0.0
  }

  // ---------- Reading a field ----------

  lemma TextIff(cell: SheetCell, text: Option<string>, formats: Formats)
    ensures TextOf(cell.value, formats) == text <==> HoldsText(cell, text, formats)
  {
    assert Text.Strip("") == "";
  }

  lemma RequiredIff(cell: SheetCell, text: string, field: string, formats: Formats)
    ensures RequiredText(cell, field, formats) == Ok(text)
            <==> NoFormula(cell) && HoldsText(cell, Some(text), formats)
  {
    TextIff(cell, Some(text), formats);
    FormulaIff(cell);
    hide TextOf, HoldsText, IsFormula, NoFormula;
  }

  lemma FormulaIff(cell: SheetCell)
    ensures IsFormula(cell) <==> !NoFormula(cell)
  {
  }

  lemma StripTwice(s: string)
    ensures Text.Strip(Text.Strip(s)) == Text.Strip(s)
  {
    var before, after := Text.StripMeaning(s);
    Text.StripFixed(Text.Strip(s));
  }

  lemma EventIff(cell: SheetCell, event: EventType, formats: Formats)
    ensures HoldsEvent(cell, event, formats)
            <==> && RequiredText(cell, "target_event_type", formats).Ok?
                 && EventTypeOf(RequiredText(cell, "target_event_type", formats).value) == Ok(event)
  {
    var words := Text.Strip(Words(cell.value, formats));
    StripTwice(Words(cell.value, formats));
    FormulaIff(cell);
    assert words == "" ==> LowerText(words) == "";
    RequiredIff(cell, words, "target_event_type", formats);
    hide Text.Strip, LowerText, IsFormula, NoFormula;
  }

  lemma DateIff(cell: SheetCell, date: int, field: string, formats: Formats)
    ensures ManualDate(cell, field, formats) == Ok(date) <==> HoldsDate(cell, date, formats)
  {
    FormulaIff(cell);
    hide Text.Strip, IsFormula, NoFormula;
  }

  lemma AmountIff(v: Value, n: real, field: string, formats: Formats)
    ensures DecimalOf(v, field, formats) == Ok(n) <==> Amount(v, n, formats)
  {
  }

  lemma NumberIff(cell: SheetCell, n: real, field: string, positive: bool, formats: Formats)
    ensures ManualDecimal(cell, field, positive, formats) == Ok(n)
            <==> HoldsNumber(cell, n, formats) && if positive then n > 0.0 else n >= 0.0
  {
    FormulaIff(cell);
    AmountIff(cell.value, n, field, formats);
    hide DecimalOf, Amount, IsFormula, NoFormula;
  }

  lemma OptionalIff(cell: SheetCell, n: Option<real>, formats: Formats)
    ensures OptionalDecimal(cell, formats) == Ok(n) <==> HoldsOptional(cell, n, formats)
  {
    if n.Some? {
      AmountIff(cell.value, n.value, "optional_decimal", formats);
    }
    hide DecimalOf, Amount;
  }

  lemma SaleIff(cell: SheetCell, sale: real, formats: Formats)
    ensures HoldsSale(cell, sale, formats)
            <==> && OptionalDecimal(cell, formats).Ok?
                 && var amount := OptionalDecimal(cell, formats).value;
                    sale == if amount.Some? then amount.value else 0.0
  {
    OptionalIff(cell, Some(sale), formats);
    OptionalIff(cell, None, formats);
    hide OptionalDecimal, HoldsOptional;
  }

  /** A line is read as a row exactly if it holds the fields of that row, each in its own column, and
      the row is permitted. */
  lemma RowIff(sheet: Worksheet, isinColumn: int, row: ImportRow, formats: Formats)
    ensures ParseRow(sheet, row.number, isinColumn, formats) == Ok(row)
            <==> Holds(sheet, isinColumn, row, formats) && Permitted(row)
  {
    hide CellOf, HoldsText, HoldsNumber, HoldsEvent, HoldsDate, HoldsOptional, HoldsSale, RequiredText, EventTypeOf,
      ManualDate, ManualDecimal, OptionalDecimal, TextOf, Isin.NormalizeIsin, NoFormula;
    var n := row.number;
    RequiredIff(CellOf(sheet, n, isinColumn), row.sourceIsin, "isin", formats);
    TextIff(CellOf(sheet, n, 3), row.name, formats);
    EventIff(CellOf(sheet, n, 4), row.event, formats);
    DateIff(CellOf(sheet, n, 5), row.purchaseDate, "purchase_date", formats);
    TextIff(CellOf(sheet, n, 6), row.offerPeriod, formats);
    DateIff(CellOf(sheet, n, 7), row.eventDate, "target_event_date", formats);
    NumberIff(CellOf(sheet, n, 8), row.quantity, "quantity", true, formats);
    NumberIff(CellOf(sheet, n, 9), row.price, "purchase_clean_price_rub_per_bond", false, formats);
    NumberIff(CellOf(sheet, n, 10), row.accrued, "purchase_accrued_interest_rub_per_bond", false, formats);
    NumberIff(CellOf(sheet, n, 12), row.commission, "purchase_commission_rub_per_bond", false, formats);
    OptionalIff(CellOf(sheet, n, 14), row.redemption, formats);
    SaleIff(CellOf(sheet, n, 18), row.saleCommission, formats);
    OptionalIff(CellOf(sheet, n, 22), row.plan, formats);
  }

  /** Both languages, and the case does not matter. */
  lemma MaturityWords()
    ensures EventWord("погашение", Maturity) && EventWord("Погашение", Maturity) && EventWord("ПОГАШЕНИЕ", Maturity)
    ensures EventWord("maturity", Maturity) && EventWord("Maturity", Maturity)
  {
    assert LowerText("Погашение") == "погашение" && LowerText("ПОГАШЕНИЕ") == "погашение";
    assert LowerText("погашение") == "погашение";
    assert LowerText("maturity") == "maturity" && LowerText("Maturity") == "maturity";
  }

  lemma OfferWords()
    ensures EventWord("оферта", Offer) && EventWord("Оферта", Offer) && EventWord("ОФЕРТА", Offer)
    ensures EventWord("offer", Offer) && EventWord("OFFER", Offer)
  {
    assert LowerText("оферта") == "оферта" && LowerText("Оферта") == "оферта" && LowerText("ОФЕРТА") == "оферта";
    assert LowerText("offer") == "offer" && LowerText("OFFER") == "offer";
  }

  // ---------- A whole sheet ----------

  /** What the line of a row has in one column. */
  function Written(row: ImportRow, isinColumn: int, c: int): Value {
    if c == isinColumn then Value.Text(row.sourceIsin)
    else match c
      case 3 => if row.name.Some? then Value.Text(row.name.value) else Blank
      case 4 => Value.Text(if row.event.Maturity? then "погашение" else "оферта")
      case 5 => Day(row.purchaseDate)
      case 6 => if row.offerPeriod.Some? then Value.Text(row.offerPeriod.value) else Blank
      case 7 => Day(row.eventDate)
      case 8 => Num(row.quantity)
      case 9 => Num(row.price)
      case 10 => Num(row.accrued)
      case 12 => Num(row.commission)
      case 14 => if row.redemption.Some? then Num(row.redemption.value) else Blank
      case 18 => Num(row.saleCommission)
      case 22 => if row.plan.Some? then Num(row.plan.value) else Blank
      case _ => Blank
  }

  function LineOf(row: ImportRow, isinColumn: int): Line {
    var width := if isinColumn > 22 then isinColumn else 22;
    seq(width, i requires 0 <= i => SheetCell(Written(row, isinColumn, i + 1), false))
  }

  /** A column outside the profile. */
  predicate FreeColumn(c: int) {
    c >= 1 && c !in {3, 4, 5, 6, 7, 8, 9, 10, 12, 14, 18, 22}
  }

  function HeaderLine(isinColumn: int): Line
    requires isinColumn >= 1
  {
    seq(isinColumn, i => SheetCell(if i + 1 == isinColumn then Value.Text("ISIN") else Blank, false))
  }

  function SheetOf(title: string, isinColumn: int, rows: seq<ImportRow>): Worksheet
    requires isinColumn >= 1
  {
    Worksheet(title, [HeaderLine(isinColumn)]
                     + seq(|rows|, i requires 0 <= i < |rows| => LineOf(rows[i], isinColumn)))
  }

  /** A text that survives trimming. */
  predicate Trimmed(s: string) {
    s != "" && Text.Strip(s) == s
  }

  /** The texts of the row survive trimming. */
  predicate TextsFit(row: ImportRow) {
    && Trimmed(row.sourceIsin)
    && (row.name.Some? ==> Trimmed(row.name.value)) && (row.offerPeriod.Some? ==> Trimmed(row.offerPeriod.value))
  }

  /** The rows are permitted and stand on the lines from the second on. */
  predicate Listed(rows: seq<ImportRow>) {
    forall i :: 0 <= i < |rows| ==> rows[i].number == i + 2 && Permitted(rows[i]) && TextsFit(rows[i])
  }

  /** No formula is taken for an ISIN. */
  lemma IsinIsNoFormula(text: string)
    requires Isin.NormalizeIsin(text).Ok? && Trimmed(text)
    ensures !("=" <= text)
  {
    hide Isin.CheckDigitOk;
    if "=" <= text {
      UpperEquals(text);
    }
  }

  lemma UpperEquals(s: string)
    requires s != "" && s[0] == '='
    ensures Text.Upper(s) != "" && Text.Upper(s)[0] == '='
  {
  }

  lemma CellWritten(title: string, isinColumn: int, rows: seq<ImportRow>, i: int, c: int)
    requires FreeColumn(isinColumn) && 0 <= i < |rows| && 1 <= c && (c <= 22 || c == isinColumn)
    ensures CellOf(SheetOf(title, isinColumn, rows), i + 2, c) == SheetCell(Written(rows[i], isinColumn, c), false)
  {
    hide Written;
    var sheet := SheetOf(title, isinColumn, rows);
    assert sheet.rows[i + 1] == LineOf(rows[i], isinColumn);
  }

  lemma WrittenWords(event: EventType)
    ensures var word := if event.Maturity? then "погашение" else "оферта";
            !("=" <= word) && Text.Strip(word) == word && EventWord(word, event)
  {
    MaturityWords();
    OfferWords();
    Text.StripFixed("погашение");
    Text.StripFixed("оферта");
    hide EventWord;
  }

  lemma NothingTrimmed()
    ensures Text.Strip("") == ""
  {
  }

  lemma SheetHolds(title: string, isinColumn: int, rows: seq<ImportRow>, i: int, formats: Formats)
    requires FreeColumn(isinColumn) && Listed(rows) && 0 <= i < |rows|
    ensures Holds(SheetOf(title, isinColumn, rows), isinColumn, rows[i], formats)
  {
    hide CellOf, SheetOf, EventWord, Isin.NormalizeIsin, Text.Strip;
    assert rows[i].number == i + 2;
    NothingTrimmed();
    WrittenWords(rows[i].event);
    IsinIsNoFormula(rows[i].sourceIsin);
    CellWritten(title, isinColumn, rows, i, isinColumn);
    CellWritten(title, isinColumn, rows, i, 3);
    CellWritten(title, isinColumn, rows, i, 4);
    CellWritten(title, isinColumn, rows, i, 5);
    CellWritten(title, isinColumn, rows, i, 6);
    CellWritten(title, isinColumn, rows, i, 7);
    CellWritten(title, isinColumn, rows, i, 8);
    CellWritten(title, isinColumn, rows, i, 9);
    CellWritten(title, isinColumn, rows, i, 10);
    CellWritten(title, isinColumn, rows, i, 12);
    CellWritten(title, isinColumn, rows, i, 14);
    CellWritten(title, isinColumn, rows, i, 18);
    CellWritten(title, isinColumn, rows, i, 22);
  }

  lemma HeaderWritten(title: string, isinColumn: int, rows: seq<ImportRow>, formats: Formats)
    requires FreeColumn(isinColumn)
    ensures HasHeader(SheetOf(title, isinColumn, rows), formats, 1, isinColumn)
  {
    HeaderText();
    hide Text.Strip, Text.Upper;
    var sheet := SheetOf(title, isinColumn, rows);
    assert sheet.rows[0] == HeaderLine(isinColumn);
    assert !Falsy(Value.Text("ISIN"));
  }

  lemma HeaderText()
    ensures Text.Upper(Text.Strip("ISIN")) == "ISIN"
  {
    Text.StripFixed("ISIN");
    Text.UpperFixed("ISIN");
  }

  /** The case of the header and the blanks around it do not matter. */
  lemma HeaderInAnyCase(formats: Formats, formula: bool)
    ensures IsHeaderCell(SheetCell(Value.Text(" Isin "), formula), formats)
    ensures IsHeaderCell(SheetCell(Value.Text("ISIN"), formula), formats)
  {
    hide Text.Strip, Text.Upper;
    HeaderText();
    IsinTrimmed();
    IsinInCapitals();
  }

  lemma IsinTrimmed()
    ensures Text.Strip(" Isin ") == "Isin"
  {
    hide Text.Strip;
    assert Text.AllSpace(" ") && !Text.IsSpace('I') && !Text.IsSpace('n');
    Text.StripAround(" ", "Isin", " ");
    assert " " + "Isin" + " " == " Isin ";
  }

  lemma IsinInCapitals()
    ensures Text.Upper("Isin") == "ISIN"
  {
    assert "Isin"[1..] == "sin" && "sin"[1..] == "in" && "in"[1..] == "n" && "n"[1..] == "";
    assert Text.Upper("n") == "N" && Text.Upper("in") == "IN" && Text.Upper("sin") == "SIN";
  }

  lemma LineNotEmpty(title: string, isinColumn: int, rows: seq<ImportRow>, i: int, formats: Formats)
    requires FreeColumn(isinColumn) && Listed(rows) && 0 <= i < |rows|
    ensures !IsEmptyLine(SheetOf(title, isinColumn, rows).rows[i + 1], formats)
  {
    hide Text.Strip, Isin.NormalizeIsin;
    var line := SheetOf(title, isinColumn, rows).rows[i + 1];
    assert line == LineOf(rows[i], isinColumn);
    assert line[isinColumn - 1].value == Value.Text(rows[i].sourceIsin);
  }

  lemma OneHeader(sheet: Worksheet, formats: Formats, header: int, column: int, other: int, otherColumn: int)
    requires HasHeader(sheet, formats, header, column) && HasHeader(sheet, formats, other, otherColumn)
    ensures header == other && column == otherColumn
  {
    hide IsHeaderCell;
    assert || (header == other && column == otherColumn)
           || Earlier(header, column, other, otherColumn) || Earlier(other, otherColumn, header, column);
  }

  /** The rows read from a block whose lines hold these rows are these rows, and there is no error. */
  lemma BlockRoundTrip(
    sheet: Worksheet, formats: Formats, header: int, column: int, count: nat, rows: seq<ImportRow>,
    errors: seq<RowError>, held: seq<ImportRow>)
    requires Reads(sheet, formats, header, column, count, rows, errors) && |held| == count
    requires forall i :: 0 <= i < count ==> held[i].number == header + 1 + i
    requires forall i :: 0 <= i < count ==> ParseRow(sheet, held[i].number, column, formats) == Ok(held[i])
    ensures rows == held && errors == []
  {
    hide ParseRow, Reported;
    assert errors != [] ==> errors[0] in errors;
    forall n | header < n <= header + count
      ensures ParseRow(sheet, n, column, formats).Ok?
    {
      assert held[n - header - 1].number == n;
    }
    SameNumbers(rows, header, count);
    forall i | 0 <= i < count
      ensures rows[i] == held[i]
    {
      assert rows[i] in rows;
    }
  }

  /** As many increasing numbers as there are lines are all of them. */
  lemma {:induction false} SameNumbers(rows: seq<ImportRow>, header: int, count: nat)
    requires |rows| == count
    requires forall i, j :: 0 <= i < j < |rows| ==> rows[i].number < rows[j].number
    requires forall i :: 0 <= i < |rows| ==> header < rows[i].number <= header + count
    ensures forall i :: 0 <= i < |rows| ==> rows[i].number == header + 1 + i
  {
    if count > 0 {
      Above(rows, header, count - 1);
      assert rows[count - 1].number == header + count;
      SameNumbers(rows[..count - 1], header, count - 1);
    }
  }

  lemma {:induction false} Above(rows: seq<ImportRow>, header: int, i: nat)
    requires i < |rows|
    requires forall i, j :: 0 <= i < j < |rows| ==> rows[i].number < rows[j].number
    requires forall i :: 0 <= i < |rows| ==> header < rows[i].number
    ensures rows[i].number > header + i
  {
    if i > 0 {
      Above(rows, header, i - 1);
    }
  }

  /** Any permitted rows that are written into a sheet are what its preview shows, in their order and
      without an error. */
  lemma SheetRoundTrip(
    title: string, checksum: string, isinColumn: int, rows: seq<ImportRow>, formats: Formats, p: Preview)
    requires FreeColumn(isinColumn) && Listed(rows)
    requires Previews(SheetOf(title, isinColumn, rows), checksum, formats, p)
    ensures p == Preview(title, checksum, 1, |rows|, rows, [])
  {
    hide HasHeader, Reads, IsEmptyLine, ParseRow, Holds, Permitted, TextsFit, LineOf, HeaderLine;
    var sheet := SheetOf(title, isinColumn, rows);
    var column :| HasHeader(sheet, formats, p.headerRow, column)
      && Reads(sheet, formats, p.headerRow, column, p.rowsRead, p.rows, p.errors);
    HeaderWritten(title, isinColumn, rows, formats);
    OneHeader(sheet, formats, p.headerRow, column, 1, isinColumn);
    if 1 + p.rowsRead < |sheet.rows| {
      LineNotEmpty(title, isinColumn, rows, p.rowsRead, formats);
    }
    forall i | 0 <= i < |rows|
      ensures ParseRow(sheet, rows[i].number, isinColumn, formats) == Ok(rows[i])
    {
      SheetHolds(title, isinColumn, rows, i, formats);
      RowIff(sheet, isinColumn, rows[i], formats);
    }
    BlockRoundTrip(sheet, formats, 1, isinColumn, p.rowsRead, p.rows, p.errors, rows);
  }
}
