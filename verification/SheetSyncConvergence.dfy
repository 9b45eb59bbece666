/** Repeated passes with the same answers of the exchange: the inputs settle after one pass,
    so the third pass never changes anything, and the second one only through rounding. */
module SheetSyncConvergence {
  import opened Prelude
  import opened Cells
  import opened Rounding
  import opened SheetCalculations
  import opened SheetConnection
  import opened SheetGateway
  import opened SheetSync
  import opened SheetSyncRows
  import opened SheetSyncBatch
  import Isin

  // ---------- The row after a pass ----------

  function FillCommission(world: World, isin: string, values: RowValues): RowValues {
    if FillsCommission(world, isin, values) then values[L_COMMISSION := Num(DEFAULT_COMMISSION)] else values
  }

  ghost function FillAccrued(world: World, isin: string, values: RowValues, filled: RowValues): RowValues {
    if FillsAccrued(world, isin, values)
    then filled[J_ACCRUED := Num(Money(HistoryOf(world, world.refresh(isin).value, values).value))]
    else filled
  }

  ghost function FilledValues(world: World, isin: string, values: RowValues): RowValues {
    FillAccrued(world, isin, values, FillCommission(world, isin, values))
  }

  /** The row as the next pass reads it. */
  ghost function Filled(config: Config, world: World, row: Row): Row {
    if Accepted(row, config) then Row(row.number, FilledValues(world, IsinOf(row, config).value, row.values)) else row
  }

  ghost function FilledRows(config: Config, world: World, rows: seq<Row>): (filled: seq<Row>)
    ensures |filled| == |rows|
  {
    seq(|rows|, i requires 0 <= i < |rows| => Filled(config, world, rows[i]))
  }

  lemma SameCommission(world: World, isin: string, values: RowValues)
    requires world.refresh(isin).Ok?
    ensures Commission(FillCommission(world, isin, values), world) == Commission(values, world)
    ensures !IsBlank(Cell(FillCommission(world, isin, values), L_COMMISSION))
    ensures forall c: Column :: c != L_COMMISSION ==> Cell(FillCommission(world, isin, values), c) == Cell(values, c)
  {
  }

  lemma FilledCells(world: World, isin: string, values: RowValues)
    requires world.refresh(isin).Ok?
    ensures var filled := FilledValues(world, isin, values);
            && Commission(filled, world) == Commission(values, world)
            && !IsBlank(Cell(filled, L_COMMISSION))
            && (forall c: Column :: c != L_COMMISSION && c != J_ACCRUED ==> Cell(filled, c) == Cell(values, c))
            && Cell(filled, J_ACCRUED)
               == if FillsAccrued(world, isin, values)
                  then Num(Money(HistoryOf(world, world.refresh(isin).value, values).value))
                  else Cell(values, J_ACCRUED)
  {
    hide FillsAccrued, HistoryOf, Money, FillCommission;
    SameCommission(world, isin, values);
  }

  /** A filled row asks for nothing that the exchange could answer. */
  lemma FilledIsSettled(world: World, isin: string, values: RowValues)
    ensures !FillsCommission(world, isin, FilledValues(world, isin, values))
    ensures !FillsAccrued(world, isin, FilledValues(world, isin, values))
  {
    hide FilledValues, Money, Commission;
    if world.refresh(isin).Ok? {
      FilledCells(world, isin, values);
    }
  }

  lemma SameIsin(config: Config, world: World, row: Row)
    requires ValidConfig(config)
    ensures HasIsin(Filled(config, world, row), config) == HasIsin(row, config)
    ensures IsinOf(Filled(config, world, row), config) == IsinOf(row, config)
    ensures Accepted(Filled(config, world, row), config) == Accepted(row, config)
    ensures Rejected(Filled(config, world, row), config) == Rejected(row, config)
  {
    hide Isin.NormalizeIsin, FillsCommission, FillsAccrued, HistoryOf, Money;
    assert config.isinColumn in UsedColumns(config);
    assert Cell(Filled(config, world, row).values, config.isinColumn) == Cell(row.values, config.isinColumn);
  }

  /** Filling twice is filling once. */
  lemma FilledTwice(config: Config, world: World, row: Row)
    requires ValidConfig(config)
    ensures Filled(config, world, Filled(config, world, row)) == Filled(config, world, row)
  {
    hide Accepted, IsinOf, FillsCommission, FillsAccrued;
    SameIsin(config, world, row);
    if Accepted(row, config) {
      AcceptedIsin(config, row);
      FilledIsSettled(world, IsinOf(row, config).value, row.values);
    }
  }

  lemma AcceptedIsin(config: Config, row: Row)
    requires Accepted(row, config)
    ensures IsinOf(row, config).Ok?
  {
  }

  // ---------- What the next pass reads ----------

  lemma RequestedNotWritten(config: Config, c: Column)
    requires ValidConfig(config) && c in Requested(config)
    ensures !OutputColumn(config, c)
    ensures c != AL_STATUS && config.statusColumn != Some(c)
  {
    NotReserved(config);
    assert config.isinColumn in UsedColumns(config);
  }

  /** The pass fills this requested cell, which its reading has blank. */
  ghost predicate FillsCell(config: Config, world: World, row: Row, c: Column) {
    && Accepted(row, config)
    && (|| (c == L_COMMISSION && FillsCommission(world, IsinOf(row, config).value, row.values))
        || (c == J_ACCRUED && FillsAccrued(world, IsinOf(row, config).value, row.values)))
  }

  /** A requested cell of a data row is written exactly if the pass fills it. */
  lemma RequestedWrites(config: Config, world: World, rows: seq<Row>, i: int, c: Column)
    requires ValidConfig(config) && DataRows(config, rows) && 0 <= i < |rows| && c in Requested(config)
    ensures Writes(NaiveBatch(config, world, rows), (rows[i].number, c)) <==> FillsCell(config, world, rows[i], c)
  {
    hide Writes, NaiveBatch, At, RowCells, FillsAccrued, Requested, OutputColumn, Rejected, NumberAccepted, IsinOf;
    var k := (rows[i].number, c);
    RequestedNotWritten(config, c);
    BatchWrites(config, world, rows, k);
    assert forall j :: 0 <= j < |rows| && MarkWrites(config, rows, rows[j], k) ==> false;
    assert forall j :: 0 <= j < |rows| && rows[j].number == k.0 ==> j == i;
    if Accepted(rows[i], config) {
      AcceptedIsin(config, rows[i]);
      RowCellsFresh(config, world, IsinOf(rows[i], config).value, rows[i].values);
      assert RowWrites(config, world, rows[i], k) <==> At(CellsOf(config, world, rows[i]), c).Some?;
    }
  }

  lemma {:induction false} CellsPersist(sheet: Sheet, updates: seq<CellUpdate>, k: Address)
    requires k in sheet
    ensures k in ApplyBatch(sheet, updates)
  {
    if updates != [] {
      CellsPersist(sheet, updates[..|updates| - 1], k);
    }
  }

  /** The value of a requested cell after the pass. */
  lemma RequestedAfter(config: Config, world: World, sheet: Sheet, rows: seq<Row>, i: int, c: Column)
    requires ValidConfig(config) && ReadsRows(config, sheet, rows) && 0 <= i < |rows| && c in Requested(config)
    ensures var after := ApplyBatch(sheet, NaiveBatch(config, world, rows));
            var values := Filled(config, world, rows[i]).values;
            && (c in values <==> (rows[i].number, c) in after)
            && (c in values ==> values[c] == after[(rows[i].number, c)])
  {
    hide Writes, NaiveBatch, At, RowCells, FillsAccrued, Requested, IsinOf, ApplyBatch, DataRows, HistoryOf, Money,
      Accepted;
    var k := (rows[i].number, c);
    ReadRowsAreData(config, sheet, rows);
    RequestedWrites(config, world, rows, i, c);
    assert c in rows[i].values <==> k in sheet;
    if !Writes(NaiveBatch(config, world, rows), k) {
      Unwritten(sheet, NaiveBatch(config, world, rows), k);
    } else {
      SheetShowsRowCells(config, world, sheet, rows, i, c);
      AcceptedIsin(config, rows[i]);
      RowCellsFresh(config, world, IsinOf(rows[i], config).value, rows[i].values);
    }
  }

  /** What users enter between the reading and the writing of a pass stays in a requested cell of a
      data row, exactly if the pass does not fill that cell: a J or L that was blank when it was read
      is filled even if it is not blank any more. */
  lemma LateEntryKeptIff(config: Config, world: World, rows: seq<Row>, i: int, c: Column)
    requires ValidConfig(config) && DataRows(config, rows) && 0 <= i < |rows| && c in Requested(config)
    ensures (forall late: Sheet ::
               SameCell(late, ApplyBatch(late, NaiveBatch(config, world, rows)), (rows[i].number, c)))
            <==> !FillsCell(config, world, rows[i], c)
  {
    hide Writes, NaiveBatch, RowCells, Requested, FillsCell, DataRows, Accepted, ApplyBatch, At;
    var k := (rows[i].number, c);
    RequestedWrites(config, world, rows, i, c);
    if Writes(NaiveBatch(config, world, rows), k) {
      FilledCellShown(config, world, rows, i, c);
      var v := At(CellsOf(config, world, rows[i]), c).value;
      var late: Sheet := map[k := if v == Blank then Flag(true) else Blank];
      SheetShowsRowCells(config, world, late, rows, i, c);
      assert !SameCell(late, ApplyBatch(late, NaiveBatch(config, world, rows)), k);
    } else {
      forall late: Sheet
        ensures SameCell(late, ApplyBatch(late, NaiveBatch(config, world, rows)), k)
      {
        Unwritten(late, NaiveBatch(config, world, rows), k);
      }
    }
  }

  lemma FilledCellShown(config: Config, world: World, rows: seq<Row>, i: int, c: Column)
    requires ValidConfig(config) && 0 <= i < |rows| && FillsCell(config, world, rows[i], c)
    ensures Accepted(rows[i], config) && At(CellsOf(config, world, rows[i]), c).Some?
  {
    hide NaiveBatch, At, RowCells, FillsAccrued, IsinOf;
    AcceptedIsin(config, rows[i]);
    RowCellsFresh(config, world, IsinOf(rows[i], config).value, rows[i].values);
  }

  lemma SameRowNumbers(config: Config, world: World, sheet: Sheet, rows: seq<Row>)
    requires ValidConfig(config) && ReadsRows(config, sheet, rows)
    ensures RowNumbers(ApplyBatch(sheet, NaiveBatch(config, world, rows)), Requested(config), config.headerRow + 1)
            == RowNumbers(sheet, Requested(config), config.headerRow + 1)
  {
    hide NaiveBatch, ApplyBatch, Requested, HasIsin, OutputColumn;
    var after := ApplyBatch(sheet, NaiveBatch(config, world, rows));
    forall k: Address | k in sheet
      ensures k in after
    {
      CellsPersist(sheet, NaiveBatch(config, world, rows), k);
    }
    forall k: Address | k in after && k !in sheet && k.0 > config.headerRow
      ensures k.0 in RowNumbers(sheet, Requested(config), config.headerRow + 1)
    {
      Frame(config, world, sheet, rows, k);
      var i :| 0 <= i < |rows| && rows[i].number == k.0;
      assert Numbers(rows)[i] in Numbers(rows);
    }
  }

  /** The next pass reads the filled rows. */
  lemma NextReading(config: Config, world: World, sheet: Sheet, rows: seq<Row>)
    requires ValidConfig(config) && ReadsRows(config, sheet, rows)
    ensures ReadsRows(config, ApplyBatch(sheet, NaiveBatch(config, world, rows)), FilledRows(config, world, rows))
  {
    hide NaiveBatch, ApplyBatch, Requested, Filled, RowNumbers;
    var after := ApplyBatch(sheet, NaiveBatch(config, world, rows));
    var filled := FilledRows(config, world, rows);
    SameRowNumbers(config, world, sheet, rows);
    forall i | 0 <= i < |rows|
      ensures filled[i].number == rows[i].number
      ensures filled[i] == RowAt(after, Requested(config), rows[i].number)
    {
      FilledNumber(config, world, rows[i]);
      FilledKeys(config, world, sheet, rows, i);
      forall c: Column | c in Requested(config)
        ensures (c in filled[i].values <==> (rows[i].number, c) in after)
        ensures c in filled[i].values ==> filled[i].values[c] == after[(rows[i].number, c)]
      {
        RequestedAfter(config, world, sheet, rows, i, c);
      }
    }
    assert Numbers(filled) == Numbers(rows);
  }

  lemma FilledNumber(config: Config, world: World, row: Row)
    ensures Filled(config, world, row).number == row.number
  {
  }

  lemma FilledKeys(config: Config, world: World, sheet: Sheet, rows: seq<Row>, i: int)
    requires ReadsRows(config, sheet, rows) && 0 <= i < |rows|
    ensures forall c :: c in Filled(config, world, rows[i]).values ==> c in Requested(config)
  {
    hide FillsAccrued, FillsCommission, HistoryOf, Accepted, IsinOf;
    assert rows[i] == RowAt(sheet, Requested(config), rows[i].number);
    if Accepted(rows[i], config) {
      AcceptedIsin(config, rows[i]);
    }
  }

  // ---------- Three passes ----------

  lemma FilledRowsTwice(config: Config, world: World, rows: seq<Row>)
    requires ValidConfig(config)
    ensures FilledRows(config, world, FilledRows(config, world, rows)) == FilledRows(config, world, rows)
  {
    hide Filled;
    forall i | 0 <= i < |rows|
      ensures FilledRows(config, world, FilledRows(config, world, rows))[i] == FilledRows(config, world, rows)[i]
    {
      FilledTwice(config, world, rows[i]);
    }
  }

  /** After a pass over a sheet that reads as `rows`, the next pass reads the filled rows, and
      so does every later one. */
  lemma PassOver(config: Config, world: World, before: Sheet, after: Sheet, rows: seq<Row>)
    requires ValidConfig(config) && ReadsRows(config, before, rows) && Syncs(config, world, before, after)
    ensures after == ApplyBatch(before, NaiveBatch(config, world, rows))
    ensures ReadsRows(config, after, FilledRows(config, world, rows))
  {
    hide NaiveBatch, ApplyBatch, Requested, IsReading, FilledRows;
    var read :| ReadsRows(config, before, read) && after == ApplyBatch(before, NaiveBatch(config, world, read));
    ReadingUnique(before, Requested(config), config.headerRow + 1, rows, read);
    NextReading(config, world, before, rows);
  }

  /** The third pass leaves the sheet as the second one left it. */
  lemma ThirdPassChangesNothing(config: Config, world: World, s0: Sheet, s1: Sheet, s2: Sheet, s3: Sheet)
    requires ValidConfig(config)
    requires Syncs(config, world, s0, s1) && Syncs(config, world, s1, s2) && Syncs(config, world, s2, s3)
    ensures s3 == s2
  {
    var rows :| ReadsRows(config, s0, rows) && s1 == ApplyBatch(s0, NaiveBatch(config, world, rows));
    hide NaiveBatch, ApplyBatch, Requested, IsReading, FilledRows, Syncs, DataRows;
    var filled := FilledRows(config, world, rows);
    PassOver(config, world, s0, s1, rows);
    PassOver(config, world, s1, s2, filled);
    FilledRowsTwice(config, world, rows);
    PassOver(config, world, s2, s3, filled);
    ReadRowsAreData(config, s1, filled);
    NoDoubleWrites(config, world, filled);
    BatchIdempotent(s1, NaiveBatch(config, world, filled));
  }
}
