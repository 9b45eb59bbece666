/** Reading rows through the values API: one rectangular range from the least to the greatest
    requested column, whose rows come without trailing blanks, and an offset for each column. */
module GoogleRead {
  import opened Prelude
  import opened Cells
  import opened SheetCalculations
  import opened SheetGateway
  import Columns

  function CellAt(sheet: Sheet, k: Address): Value {
    if k in sheet then sheet[k] else Blank
  }

  /** Missing, null and empty cells are not told apart. */
  predicate SameValue(a: Value, b: Value) {
    a == b || (IsBlank(a) && IsBlank(b))
  }

  /** One row of the answer: the cells lo, lo + 1, ... up to the last one that is not blank. */
  ghost predicate IsAnswerRow(sheet: Sheet, number: int, lo: int, hi: int, raw: seq<Value>) {
    forall c: Column :: lo <= c <= hi ==>
      if c - lo < |raw| then SameValue(raw[c - lo], CellAt(sheet, (number, c))) else IsBlank(CellAt(sheet, (number, c)))
  }

  /** The answer of the API for a range that is open downwards: rows after the last one hold
      nothing. */
  ghost predicate IsAnswer(sheet: Sheet, first: int, lo: int, hi: int, raw: seq<seq<Value>>) {
    && (forall o :: 0 <= o < |raw| ==> IsAnswerRow(sheet, first + o, lo, hi, raw[o]))
    && (forall n: int, c: Column :: n >= first + |raw| && lo <= c <= hi ==> IsBlank(CellAt(sheet, (n, c))))
  }

  /** The API asked by column names, as in `D5:AC`. */
  type Api = (string, int, string) -> seq<seq<Value>>

  ghost predicate Serves(api: Api, sheet: Sheet) {
    forall start, first, end ::
      IsAnswer(sheet, first, Columns.Number(start), Columns.Number(end), api(start, first, end))
  }

  /** The requested columns of a row with something in at least one of them. */
  ghost predicate HasSomething(sheet: Sheet, columns: set<Column>, n: int) {
    exists c :: c in columns && !IsBlank(CellAt(sheet, (n, c)))
  }

  /** Rows in order, one for each row number with a requested cell that is not blank, holding
      the requested cells. */
  ghost predicate IsNonBlankReading(sheet: Sheet, columns: set<Column>, first: int, rows: seq<Row>) {
    && Increasing(Numbers(rows))
    && (forall n :: n in Numbers(rows) <==> n >= first && HasSomething(sheet, columns, n))
    && (forall i, c :: 0 <= i < |rows| && c in columns ==>
          SameValue(Cell(rows[i].values, c), CellAt(sheet, (rows[i].number, c))))
  }

  datatype ReadError = BadColumn | NoColumns

  lemma RequiredColumn(name: string)
    requires Columns.Normalize(Some(name), true).Ok?
    ensures var r := Columns.Normalize(Some(name), true).value;
            r.Some? && 1 <= Columns.Number(r.value) <= Columns.LAST_COLUMN
  {
    Columns.NormalizedNumber(Some(name), true);
  }

  method ColumnNumbersOf(names: seq<string>) returns (r: Result<seq<Column>, ReadError>)
    ensures r.Ok? <==> forall name :: name in names ==> Columns.Normalize(Some(name), true).Ok?
    ensures r.Ok? ==> |r.value| == |names|
    ensures r.Ok? ==> forall i :: 0 <= i < |names| ==>
              && Columns.Normalize(Some(names[i]), true).Ok? && Columns.Normalize(Some(names[i]), true).value.Some?
              && r.value[i] == Columns.Number(Columns.Normalize(Some(names[i]), true).value.value)
              && 1 <= r.value[i] <= Columns.LAST_COLUMN
  {
    hide Columns.Normalize, Columns.Number;
    var numbers: seq<Column> := [];
    for i := 0 to |names|
      invariant |numbers| == i
      invariant forall k :: 0 <= k < i ==>
                  && Columns.Normalize(Some(names[k]), true).Ok? && Columns.Normalize(Some(names[k]), true).value.Some?
                  && numbers[k] == Columns.Number(Columns.Normalize(Some(names[k]), true).value.value)
                  && 1 <= numbers[k] <= Columns.LAST_COLUMN
    {
      assert names[i] in names;
      match Columns.Normalize(Some(names[i]), true)
      case Err(_) => return Err(BadColumn);
      case Ok(name) =>
        RequiredColumn(names[i]);
        var number := Columns.ColumnNumber(name.value);
        numbers := numbers + [number];
    }
    return Ok(numbers);
  }

  method Bounds(numbers: seq<Column>) returns (lo: Column, hi: Column)
    requires numbers != []
    ensures lo in numbers && hi in numbers
    ensures forall n :: n in numbers ==> lo <= n <= hi
  {
    lo, hi := numbers[0], numbers[0];
    for i := 0 to |numbers|
      invariant lo in numbers && hi in numbers
      invariant forall n :: n in numbers[..i] ==> lo <= n <= hi
    {
      assert numbers[..i + 1] == numbers[..i] + [numbers[i]];
      if numbers[i] < lo {
        lo := numbers[i];
      }
      if numbers[i] > hi {
        hi := numbers[i];
      }
    }
    assert numbers[..|numbers|] == numbers;
  }

  /** The requested cells of one row of the answer. */
  function PickCells(raw: seq<Value>, columns: set<Column>, lo: Column): RowValues
    requires forall c :: c in columns ==> lo <= c
  {
    map c | c in columns && c - lo < |raw| :: raw[c - lo]
  }

  lemma PickedCells(sheet: Sheet, number: int, lo: Column, hi: Column, raw: seq<Value>, columns: set<Column>)
    requires IsAnswerRow(sheet, number, lo, hi, raw)
    requires forall c :: c in columns ==> lo <= c <= hi
    ensures forall c :: c in columns ==> SameValue(Cell(PickCells(raw, columns, lo), c), CellAt(sheet, (number, c)))
    ensures (exists c :: c in PickCells(raw, columns, lo) && !IsBlank(PickCells(raw, columns, lo)[c]))
            <==> HasSomething(sheet, columns, number)
  {
    var picked := PickCells(raw, columns, lo);
    forall c | c in columns
      ensures SameValue(Cell(picked, c), CellAt(sheet, (number, c)))
    {
    }
    if HasSomething(sheet, columns, number) {
      var c :| c in columns && !IsBlank(CellAt(sheet, (number, c)));
      assert SameValue(Cell(picked, c), CellAt(sheet, (number, c)));
      assert c in picked;
    }
  }

  /** The rows that the real gateway returns are those of the sheet: the offset of a column from
      the first requested one picks exactly its cell. */
  method GoogleReadRows(api: Api, ghost sheet: Sheet, names: seq<string>, first: int)
    returns (r: Result<seq<Row>, ReadError>, columns: seq<Column>)
    requires Serves(api, sheet)
    ensures r.Ok? <==> names != [] && forall name :: name in names ==> Columns.Normalize(Some(name), true).Ok?
    ensures r.Ok? ==> |columns| == |names|
    ensures r.Ok? ==> forall i :: 0 <= i < |names| ==>
              && Columns.Normalize(Some(names[i]), true).value.Some?
              && columns[i] == Columns.Number(Columns.Normalize(Some(names[i]), true).value.value)
    ensures r.Ok? ==> IsNonBlankReading(sheet, (set c | c in columns), first, r.value)
  {
    columns := [];
    var numbers := ColumnNumbersOf(names);
    if numbers.Err? {
      return Err(BadColumn), [];
    }
    columns := numbers.value;
    if columns == [] {
      return Err(NoColumns), [];
    }
    var requested := set c | c in columns;
    var lo, hi := Bounds(columns);
    var start := Columns.ColumnName(lo);
    var end := Columns.ColumnName(hi);
    Columns.NumberOfName(lo);
    Columns.NumberOfName(hi);
    var raw := api(start.value, first, end.value);
    assert IsAnswer(sheet, first, lo, hi, raw);
    var rows := PickRows(sheet, raw, requested, lo, hi, first);
    return Ok(rows), columns;
  }

  method PickRows(ghost sheet: Sheet, raw: seq<seq<Value>>, columns: set<Column>, lo: Column, ghost hi: Column,
      first: int)
    returns (rows: seq<Row>)
    requires IsAnswer(sheet, first, lo, hi, raw)
    requires forall c :: c in columns ==> lo <= c <= hi
    ensures IsNonBlankReading(sheet, columns, first, rows)
  {
    hide IsAnswerRow, HasSomething;
    rows := [];
    for o := 0 to |raw|
      invariant Increasing(Numbers(rows))
      invariant forall n :: n in Numbers(rows) <==> first <= n < first + o && HasSomething(sheet, columns, n)
      invariant forall i, c :: 0 <= i < |rows| && c in columns ==>
                  SameValue(Cell(rows[i].values, c), CellAt(sheet, (rows[i].number, c)))
    {
      var values := PickCells(raw[o], columns, lo);
      PickedCells(sheet, first + o, lo, hi, raw[o], columns);
      if exists c :: c in values && !IsBlank(values[c]) {
        assert forall k :: 0 <= k < |rows| ==> Numbers(rows)[k] in Numbers(rows);
        assert Numbers(rows + [Row(first + o, values)]) == Numbers(rows) + [first + o];
        rows := rows + [Row(first + o, values)];
      }
    }
    forall n | n >= first + |raw|
      ensures !HasSomething(sheet, columns, n)
    {
      NothingBelow(sheet, first, lo, hi, raw, columns, n);
    }
  }

  lemma NothingBelow(sheet: Sheet, first: int, lo: int, hi: int, raw: seq<seq<Value>>, columns: set<Column>, n: int)
    requires IsAnswer(sheet, first, lo, hi, raw) && n >= first + |raw|
    requires forall c :: c in columns ==> lo <= c <= hi
    ensures !HasSomething(sheet, columns, n)
  {
  }

  /** Both gateways read the same: a row that the real gateway returns is in the reading of the
      in-memory one and shows the same cells, and the rows it drops are blank throughout. */
  lemma GatewaysAgree(sheet: Sheet, columns: set<Column>, first: int, remote: seq<Row>, memory: seq<Row>)
    requires IsNonBlankReading(sheet, columns, first, remote) && IsReading(sheet, columns, first, memory)
    ensures forall i :: 0 <= i < |memory| ==>
              (memory[i].number in Numbers(remote) <==> exists c :: c in columns && !IsBlank(Cell(memory[i].values, c)))
    ensures forall i :: 0 <= i < |remote| ==> remote[i].number in Numbers(memory)
    ensures forall i, j, c ::
              0 <= i < |remote| && 0 <= j < |memory| && remote[i].number == memory[j].number && c in columns ==>
              SameValue(Cell(remote[i].values, c), Cell(memory[j].values, c))
  {
    forall j, c | 0 <= j < |memory| && c in columns
      ensures Cell(memory[j].values, c) == CellAt(sheet, (memory[j].number, c))
    {
      assert memory[j] == RowAt(sheet, columns, memory[j].number);
    }
    forall j | 0 <= j < |memory|
      ensures memory[j].number >= first
    {
      assert Numbers(memory)[j] in Numbers(memory);
    }
    forall i | 0 <= i < |remote|
      ensures remote[i].number in Numbers(memory)
    {
      assert Numbers(remote)[i] in Numbers(remote);
      var c :| c in columns && !IsBlank(CellAt(sheet, (remote[i].number, c)));
      assert (remote[i].number, c) in sheet;
      assert remote[i].number in RowNumbers(sheet, columns, first);
    }
  }
}
