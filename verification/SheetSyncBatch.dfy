/** The batch of a pass: no cell is written twice, and what the sheet holds afterwards. */
module SheetSyncBatch {
  import opened Prelude
  import opened Cells
  import opened SheetCalculations
  import opened SheetConnection
  import opened SheetGateway
  import opened SheetSync
  import opened SheetSyncRows
  import Isin

  // ---------- The updates of one row ----------

  lemma UpdatesOfDict(number: int, d: RowDict)
    ensures DistinctCells(CellUpdates(number, d))
    ensures forall a :: Writes(CellUpdates(number, d), a) <==> a.0 == number && At(d, a.1).Some?
    ensures forall u :: u in CellUpdates(number, d) <==> u.row == number && At(d, u.column) == Some(u.value)
  {
    var updates := CellUpdates(number, d);
    forall u
      ensures u in updates <==> u.row == number && At(d, u.column) == Some(u.value)
    {
      if u.row == number && At(d, u.column) == Some(u.value) {
        var i :| 0 <= i < |d.keys| && d.keys[i] == u.column;
        assert updates[i] == u;
      }
    }
    forall a
      ensures Writes(updates, a) <==> a.0 == number && At(d, a.1).Some?
    {
      if a.0 == number && At(d, a.1).Some? {
        var u := CellUpdate(number, a.1, d.values[a.1]);
        assert u in updates && AddressOf(u) == a;
      }
    }
  }

  lemma DistinctSum(a: seq<CellUpdate>, b: seq<CellUpdate>)
    requires DistinctCells(a) && DistinctCells(b)
    requires forall k :: !(Writes(a, k) && Writes(b, k))
    ensures DistinctCells(a + b)
  {
    var c := a + b;
    forall i, j | 0 <= i < j < |c|
      ensures AddressOf(c[i]) != AddressOf(c[j])
    {
      if i < |a| <= j {
        assert c[i] == a[i] && c[j] == b[j - |a|];
        assert Writes(a, AddressOf(a[i]));
        assert Writes(b, AddressOf(b[j - |a|]));
      }
    }
  }

  lemma WritesSum(a: seq<CellUpdate>, b: seq<CellUpdate>, k: Address)
    ensures Writes(a + b, k) <==> Writes(a, k) || Writes(b, k)
  {
    var c := a + b;
    if Writes(a, k) {
      var u :| u in a && AddressOf(u) == k;
      assert u in c;
    }
    if Writes(b, k) {
      var u :| u in b && AddressOf(u) == k;
      assert u in c;
    }
  }

  // ---------- The parts of the batch ----------

  ghost predicate RowsDistinct(rows: seq<Row>) {
    forall i, j :: 0 <= i < j < |rows| ==> rows[i].number != rows[j].number
  }

  ghost predicate RowWrites(config: Config, world: World, row: Row, k: Address) {
    && row.number == k.0 && Accepted(row, config)
    && At(CellsOf(config, world, row), k.1).Some?
  }

  lemma RowUpdatesWrites(config: Config, world: World, row: Row, k: Address)
    ensures Writes(RowUpdates(config, world, row), k) <==> RowWrites(config, world, row, k)
    ensures DistinctCells(RowUpdates(config, world, row))
  {
    hide At, CellsOf, CellUpdates;
    if Accepted(row, config) {
      UpdatesOfDict(row.number, CellsOf(config, world, row));
    }
  }

  lemma {:induction false} MainWrites(config: Config, world: World, rows: seq<Row>, k: Address)
    ensures Writes(MainUpdates(config, world, rows), k)
            <==> exists i :: 0 <= i < |rows| && RowWrites(config, world, rows[i], k)
  {
    hide RowWrites, RowUpdates, Writes;
    if rows == [] {
      assert !Writes([], k) by { NothingWritten(k); }
    } else {
      var front, last := rows[..|rows| - 1], rows[|rows| - 1];
      MainWrites(config, world, front, k);
      RowUpdatesWrites(config, world, last, k);
      WritesSum(MainUpdates(config, world, front), RowUpdates(config, world, last), k);
      if i :| 0 <= i < |rows| && RowWrites(config, world, rows[i], k) {
        assert i < |front| ==> front[i] == rows[i];
      }
      if i :| 0 <= i < |front| && RowWrites(config, world, front[i], k) {
        assert rows[i] == front[i];
      }
    }
  }

  lemma NothingWritten(k: Address)
    ensures !Writes([], k)
  {
  }

  lemma {:induction false} MainDistinct(config: Config, world: World, rows: seq<Row>)
    requires RowsDistinct(rows)
    ensures DistinctCells(MainUpdates(config, world, rows))
  {
    hide RowUpdates, Writes, DistinctCells;
    if rows == [] {
      assert DistinctCells([]) by { EmptyDistinct(); }
    } else {
      var front, last := rows[..|rows| - 1], rows[|rows| - 1];
      MainDistinct(config, world, front);
      forall k
        ensures !(Writes(MainUpdates(config, world, front), k) && Writes(RowUpdates(config, world, last), k))
      {
        MainWrites(config, world, front, k);
        RowUpdatesWrites(config, world, last, k);
        assert forall i :: 0 <= i < |front| ==> front[i].number != last.number;
      }
      RowUpdatesWrites(config, world, last, (0, 0));
      DistinctSum(MainUpdates(config, world, front), RowUpdates(config, world, last));
    }
  }

  lemma EmptyDistinct()
    ensures DistinctCells([])
  {
  }

  ghost predicate MarkWrites(config: Config, all: seq<Row>, row: Row, k: Address) {
    && row.number == k.0 && Rejected(row, config) && config.statusColumn.Some?
    && !NumberAccepted(row.number, all, config)
    && (k.1 == config.statusColumn.value || k.1 == AL_STATUS)
  }

  lemma RowMarksWrites(config: Config, all: seq<Row>, row: Row, k: Address)
    requires ValidConfig(config)
    ensures Writes(RowMarks(config, all, row), k) <==> MarkWrites(config, all, row, k)
    ensures DistinctCells(RowMarks(config, all, row))
  {
    hide Rejected, NumberAccepted, InvalidUpdates;
    if config.statusColumn.Some? {
      NotReserved(config);
      assert OwnColumn(config, config.statusColumn.value);
      MarkUpdates(row.number, config.statusColumn.value, k);
    }
  }

  lemma MarkUpdates(number: int, status: Column, k: Address)
    requires status != AL_STATUS
    ensures Writes(InvalidUpdates(number, status), k) <==> k.0 == number && (k.1 == status || k.1 == AL_STATUS)
    ensures DistinctCells(InvalidUpdates(number, status))
  {
    var updates := InvalidUpdates(number, status);
    assert updates[0] in updates && updates[1] in updates;
  }

  lemma {:induction false} MarksWrites(config: Config, all: seq<Row>, rows: seq<Row>, k: Address)
    requires ValidConfig(config)
    ensures Writes(InvalidMarks(config, all, rows), k)
            <==> exists i :: 0 <= i < |rows| && MarkWrites(config, all, rows[i], k)
  {
    hide MarkWrites, Writes, Rejected, NumberAccepted, InvalidUpdates;
    if rows == [] {
      NothingWritten(k);
    } else {
      var front, last := rows[..|rows| - 1], rows[|rows| - 1];
      MarksWrites(config, all, front, k);
      RowMarksWrites(config, all, last, k);
      WritesSum(InvalidMarks(config, all, front), RowMarks(config, all, last), k);
      if i :| 0 <= i < |rows| && MarkWrites(config, all, rows[i], k) {
        assert i < |front| ==> front[i] == rows[i];
      }
      if i :| 0 <= i < |front| && MarkWrites(config, all, front[i], k) {
        assert rows[i] == front[i];
      }
    }
  }

  lemma {:induction false} MarksDistinct(config: Config, all: seq<Row>, rows: seq<Row>)
    requires ValidConfig(config) && RowsDistinct(rows)
    ensures DistinctCells(InvalidMarks(config, all, rows))
  {
    hide Writes, DistinctCells, Rejected, NumberAccepted, InvalidUpdates;
    if rows == [] {
      EmptyDistinct();
    } else {
      var front, last := rows[..|rows| - 1], rows[|rows| - 1];
      MarksDistinct(config, all, front);
      forall k
        ensures !(Writes(InvalidMarks(config, all, front), k) && Writes(RowMarks(config, all, last), k))
      {
        MarksWrites(config, all, front, k);
        RowMarksWrites(config, all, last, k);
        assert forall i :: 0 <= i < |front| ==> front[i].number != last.number;
      }
      RowMarksWrites(config, all, last, (0, 0));
      DistinctSum(InvalidMarks(config, all, front), RowMarks(config, all, last));
    }
  }

  lemma HeaderWrites(config: Config, k: Address)
    ensures Writes(HeaderUpdates(config), k) <==> k.0 == config.headerRow && CalculationColumn(k.1)
    ensures DistinctCells(HeaderUpdates(config))
  {
    hide HeaderText;
    var updates := HeaderUpdates(config);
    if k.0 == config.headerRow && CalculationColumn(k.1) {
      assert updates[k.1 - AD_ACCRUED] in updates;
    }
  }

  // ---------- The whole batch ----------

  ghost predicate DataRows(config: Config, rows: seq<Row>) {
    RowsDistinct(rows) && forall i :: 0 <= i < |rows| ==> rows[i].number > config.headerRow
  }

  /** Which cells a pass writes. */
  ghost predicate PassWrites(config: Config, world: World, rows: seq<Row>, k: Address) {
    || (k.0 == config.headerRow && CalculationColumn(k.1))
    || (exists i :: 0 <= i < |rows| && RowWrites(config, world, rows[i], k))
    || (exists i :: 0 <= i < |rows| && MarkWrites(config, rows, rows[i], k))
  }

  lemma BatchWrites(config: Config, world: World, rows: seq<Row>, k: Address)
    requires ValidConfig(config)
    ensures Writes(NaiveBatch(config, world, rows), k) <==> PassWrites(config, world, rows, k)
  {
    hide Writes, RowWrites, MarkWrites, MainUpdates, InvalidMarks, HeaderUpdates;
    HeaderWrites(config, k);
    MainWrites(config, world, rows, k);
    MarksWrites(config, rows, rows, k);
    WritesSum(HeaderUpdates(config), MainUpdates(config, world, rows), k);
    WritesSum(HeaderUpdates(config) + MainUpdates(config, world, rows), InvalidMarks(config, rows, rows), k);
  }

  lemma PartsDisjoint(config: Config, world: World, rows: seq<Row>, k: Address, i: int, j: int)
    requires 0 <= i < |rows| && 0 <= j < |rows|
    ensures !(RowWrites(config, world, rows[i], k) && MarkWrites(config, rows, rows[j], k))
  {
    hide CellsOf, IsinOf;
  }

  /** No cell is written twice in one batch. */
  lemma NoDoubleWrites(config: Config, world: World, rows: seq<Row>)
    requires ValidConfig(config) && DataRows(config, rows)
    ensures DistinctCells(NaiveBatch(config, world, rows))
  {
    hide Writes, DistinctCells, RowWrites, MarkWrites, MainUpdates, InvalidMarks, HeaderUpdates;
    var header, main := HeaderUpdates(config), MainUpdates(config, world, rows);
    var marks := InvalidMarks(config, rows, rows);
    HeaderWrites(config, (0, 0));
    MainDistinct(config, world, rows);
    MarksDistinct(config, rows, rows);
    forall k
      ensures !(Writes(header, k) && Writes(main, k)) && !(Writes(header + main, k) && Writes(marks, k))
    {
      HeaderWrites(config, k);
      MainWrites(config, world, rows, k);
      MarksWrites(config, rows, rows, k);
      WritesSum(header, main, k);
      forall i, j | 0 <= i < |rows| && 0 <= j < |rows|
        ensures !(RowWrites(config, world, rows[i], k) && MarkWrites(config, rows, rows[j], k))
        ensures RowWrites(config, world, rows[i], k) ==> k.0 > config.headerRow
        ensures MarkWrites(config, rows, rows[j], k) ==> k.0 > config.headerRow
      {
        PartsDisjoint(config, world, rows, k, i, j);
        RowOf(config, world, rows, i, k);
        RowOf(config, world, rows, j, k);
      }
    }
    DistinctSum(header, main);
    DistinctSum(header + main, marks);
  }

  lemma RowOf(config: Config, world: World, rows: seq<Row>, i: int, k: Address)
    requires 0 <= i < |rows|
    ensures RowWrites(config, world, rows[i], k) ==> k.0 == rows[i].number
    ensures MarkWrites(config, rows, rows[i], k) ==> k.0 == rows[i].number
  {
  }

  lemma {:induction false} DistinctOnce(updates: seq<CellUpdate>, u: CellUpdate)
    requires DistinctCells(updates)
    ensures multiset(updates)[u] <= 1
  {
    if updates != [] {
      var front, last := updates[..|updates| - 1], updates[|updates| - 1];
      assert updates == front + [last];
      DistinctOnce(front, u);
      assert forall i :: 0 <= i < |front| ==> AddressOf(updates[i]) != AddressOf(updates[|updates| - 1]);
      assert last !in front;
    }
  }

  lemma CountedTwice(updates: seq<CellUpdate>, i: int, j: int)
    requires 0 <= i < j < |updates| && updates[i] == updates[j]
    ensures multiset(updates)[updates[i]] >= 2
  {
    assert updates == updates[..j] + [updates[j]] + updates[j + 1..];
    assert updates[i] in updates[..j];
  }

  lemma PermutedDistinct(a: seq<CellUpdate>, b: seq<CellUpdate>)
    requires DistinctCells(a) && multiset(a) == multiset(b)
    ensures DistinctCells(b)
  {
    forall i, j | 0 <= i < j < |b|
      ensures AddressOf(b[i]) != AddressOf(b[j])
    {
      if b[i] == b[j] {
        CountedTwice(b, i, j);
        DistinctOnce(a, b[i]);
      } else {
        assert b[i] in multiset(a) && b[j] in multiset(a);
        var k, m :| 0 <= k < |a| && 0 <= m < |a| && a[k] == b[i] && a[m] == b[j];
        assert k < m || m < k;
      }
    }
  }

  /** So the batch may be written in any order. */
  lemma AnyOrderGivesTheSameSheet(config: Config, world: World, sheet: Sheet, rows: seq<Row>,
      reordered: seq<CellUpdate>)
    requires ValidConfig(config) && DataRows(config, rows)
    requires multiset(reordered) == multiset(NaiveBatch(config, world, rows))
    ensures ApplyBatch(sheet, reordered) == ApplyBatch(sheet, NaiveBatch(config, world, rows))
  {
    hide DistinctCells, NaiveBatch, ApplyBatch, DataRows;
    var batch := NaiveBatch(config, world, rows);
    NoDoubleWrites(config, world, rows);
    PermutedDistinct(batch, reordered);
    forall u
      ensures u in batch <==> u in reordered
    {
      assert u in batch <==> u in multiset(batch);
      assert u in reordered <==> u in multiset(reordered);
    }
    BatchOrderIrrelevant(sheet, reordered, batch);
  }

  // ---------- The sheet after a pass ----------

  function Requested(config: Config): set<Column> {
    {config.isinColumn, E_DATE, H_QUANTITY, I_PRICE, J_ACCRUED, L_COMMISSION, V_PLAN}
  }

  ghost predicate ReadsRows(config: Config, sheet: Sheet, rows: seq<Row>) {
    IsReading(sheet, Requested(config), config.headerRow + 1, rows)
  }

  /** One pass turns the sheet `before` into the sheet `after`. */
  ghost predicate Syncs(config: Config, world: World, before: Sheet, after: Sheet) {
    exists rows :: ReadsRows(config, before, rows) && after == ApplyBatch(before, NaiveBatch(config, world, rows))
  }

  /** A pass is possible over every sheet, and its result is determined. */
  lemma PassIsDetermined(config: Config, world: World, before: Sheet) returns (after: Sheet)
    ensures Syncs(config, world, before, after)
    ensures forall other :: Syncs(config, world, before, other) ==> other == after
  {
    hide NaiveBatch, ApplyBatch, IsReading, Requested;
    var rows := ReadingExists(before, Requested(config), config.headerRow + 1);
    after := ApplyBatch(before, NaiveBatch(config, world, rows));
    forall other | Syncs(config, world, before, other)
      ensures other == after
    {
      var read :| ReadsRows(config, before, read) && other == ApplyBatch(before, NaiveBatch(config, world, read));
      ReadingUnique(before, Requested(config), config.headerRow + 1, rows, read);
    }
  }

  lemma ReadRowsAreData(config: Config, sheet: Sheet, rows: seq<Row>)
    requires ReadsRows(config, sheet, rows)
    ensures DataRows(config, rows)
  {
    forall i | 0 <= i < |rows|
      ensures rows[i].number > config.headerRow
    {
      assert Numbers(rows)[i] in Numbers(rows);
    }
    forall i, j | 0 <= i < j < |rows|
      ensures rows[i].number != rows[j].number
    {
      assert Numbers(rows)[i] < Numbers(rows)[j];
    }
  }

  lemma {:induction false} MainContains(config: Config, world: World, rows: seq<Row>, i: int, u: CellUpdate)
    requires 0 <= i < |rows| && u in RowUpdates(config, world, rows[i])
    ensures u in MainUpdates(config, world, rows)
  {
    hide RowUpdates;
    var front := rows[..|rows| - 1];
    if i < |front| {
      assert front[i] == rows[i];
      MainContains(config, world, front, i, u);
    }
  }

  /** After a pass the row shows exactly the cells computed for it. */
  lemma SheetShowsRowCells(config: Config, world: World, sheet: Sheet, rows: seq<Row>, i: int, c: Column)
    requires ValidConfig(config) && DataRows(config, rows) && 0 <= i < |rows| && Accepted(rows[i], config)
    ensures var cells := CellsOf(config, world, rows[i]);
            var after := ApplyBatch(sheet, NaiveBatch(config, world, rows));
            At(cells, c).Some? ==> (rows[i].number, c) in after && Some(after[(rows[i].number, c)]) == At(cells, c)
  {
    hide At, CellsOf, CellUpdates, MainUpdates, InvalidMarks, HeaderUpdates, DistinctCells, DataRows, Accepted;
    var cells := CellsOf(config, world, rows[i]);
    if At(cells, c).Some? {
      var u := CellUpdate(rows[i].number, c, At(cells, c).value);
      UpdatesOfDict(rows[i].number, cells);
      assert u in RowUpdates(config, world, rows[i]);
      MainContains(config, world, rows, i, u);
      NoDoubleWrites(config, world, rows);
      assert u in NaiveBatch(config, world, rows);
      Written(sheet, NaiveBatch(config, world, rows), u);
    }
  }

  predicate SameCell(a: Sheet, b: Sheet, k: Address) {
    (k in a <==> k in b) && (k in a && k in b ==> a[k] == b[k])
  }

  predicate BlankIn(sheet: Sheet, k: Address) {
    k !in sheet || IsBlank(sheet[k])
  }

  lemma ReadCell(config: Config, sheet: Sheet, rows: seq<Row>, i: int, c: Column)
    requires ReadsRows(config, sheet, rows) && 0 <= i < |rows| && c in Requested(config)
    ensures (rows[i].number, c) in sheet ==> Cell(rows[i].values, c) == sheet[(rows[i].number, c)]
    ensures (rows[i].number, c) !in sheet ==> Cell(rows[i].values, c) == Blank
  {
    assert rows[i] == RowAt(sheet, Requested(config), rows[i].number);
  }

  /** Every cell that a pass changes is a header cell of AD to AL or, on a data row with an
      ISIN, an own column of the connection, a calculation column, or a J or L that was blank. */
  lemma Frame(config: Config, world: World, sheet: Sheet, rows: seq<Row>, k: Address)
    requires ValidConfig(config) && ReadsRows(config, sheet, rows)
    requires !SameCell(sheet, ApplyBatch(sheet, NaiveBatch(config, world, rows)), k)
    ensures || (k.0 == config.headerRow && CalculationColumn(k.1))
            || (k.0 > config.headerRow
                && (exists i :: 0 <= i < |rows| && rows[i].number == k.0 && HasIsin(rows[i], config))
                && (OutputColumn(config, k.1) || ((k.1 == J_ACCRUED || k.1 == L_COMMISSION) && BlankIn(sheet, k))))
  {
    hide Writes, RowWrites, MarkWrites, NaiveBatch, ApplyBatch, ReadsRows, HasIsin, BlankIn, DataRows, OutputColumn;
    ReadRowsAreData(config, sheet, rows);
    DataRowsBelowHeader(config, rows);
    if !Writes(NaiveBatch(config, world, rows), k) {
      Unwritten(sheet, NaiveBatch(config, world, rows), k);
    }
    BatchWrites(config, world, rows, k);
    if i :| 0 <= i < |rows| && RowWrites(config, world, rows[i], k) {
      RowWritesWhere(config, world, sheet, rows, i, k);
    }
    if i :| 0 <= i < |rows| && MarkWrites(config, rows, rows[i], k) {
      MarkWritesWhere(config, rows, i, k);
    }
  }

  lemma DataRowsBelowHeader(config: Config, rows: seq<Row>)
    requires DataRows(config, rows)
    ensures forall i :: 0 <= i < |rows| ==> rows[i].number > config.headerRow
  {
  }

  lemma MarkWritesWhere(config: Config, rows: seq<Row>, i: int, k: Address)
    requires 0 <= i < |rows| && MarkWrites(config, rows, rows[i], k)
    ensures rows[i].number == k.0 && HasIsin(rows[i], config) && OutputColumn(config, k.1)
  {
  }

  lemma RowWritesWhere(config: Config, world: World, sheet: Sheet, rows: seq<Row>, i: int, k: Address)
    requires ValidConfig(config) && ReadsRows(config, sheet, rows) && 0 <= i < |rows|
    requires RowWrites(config, world, rows[i], k)
    ensures rows[i].number == k.0 && HasIsin(rows[i], config)
    ensures OutputColumn(config, k.1) || ((k.1 == J_ACCRUED || k.1 == L_COMMISSION) && BlankIn(sheet, k))
  {
    hide At, RowCells, ReadsRows, FillsAccrued, OutputColumn;
    var isin := IsinOf(rows[i], config).value;
    RowCellsFresh(config, world, isin, rows[i].values);
    ReadCell(config, sheet, rows, i, J_ACCRUED);
    ReadCell(config, sheet, rows, i, L_COMMISSION);
    if FillsAccrued(world, isin, rows[i].values) {
      AccruedFilledOnlyWhereBlank(world, isin, rows[i].values);
    }
  }

  /** The ISIN, the date, the quantity, the price and the plan are never changed, nor is a J or
      L that holds something. */
  lemma InputsKept(config: Config, world: World, sheet: Sheet, rows: seq<Row>, k: Address)
    requires ValidConfig(config) && ReadsRows(config, sheet, rows)
    requires k.1 == config.isinColumn || InputColumn(k.1)
    requires k.1 == J_ACCRUED || k.1 == L_COMMISSION ==> !BlankIn(sheet, k)
    ensures SameCell(sheet, ApplyBatch(sheet, NaiveBatch(config, world, rows)), k)
  {
    hide SameCell, NaiveBatch, ApplyBatch, ReadsRows, BlankIn;
    NotReserved(config);
    assert config.isinColumn in UsedColumns(config);
    if !SameCell(sheet, ApplyBatch(sheet, NaiveBatch(config, world, rows)), k) {
      Frame(config, world, sheet, rows, k);
    }
  }

  /** No stale result survives: after a pass a row with an accepted ISIN has a price, AD and all
      of AE to AL written, and reads as calculated exactly when AG to AJ are all non-blank. */
  lemma NoStaleResult(config: Config, world: World, sheet: Sheet, rows: seq<Row>, i: int)
    requires ValidConfig(config) && DataRows(config, rows) && 0 <= i < |rows| && Accepted(rows[i], config)
    ensures var n := rows[i].number;
            var after := ApplyBatch(sheet, NaiveBatch(config, world, rows));
            && (forall c: Column :: OutputColumn(config, c) ==> (n, c) in after)
            && (after[(n, AL_STATUS)] == Value.Text("РАССЧИТАНО")
                <==> !IsBlank(after[(n, AG_EXIT)]) && !IsBlank(after[(n, AH_BEFORE)])
                     && !IsBlank(after[(n, AI_AFTER)]) && !IsBlank(after[(n, AJ_ANNUAL)]))
            && (after[(n, AL_STATUS)] != Value.Text("РАССЧИТАНО") ==> after[(n, AK_DELTA)] == Blank)
  {
    hide At, CellsOf, NaiveBatch, ApplyBatch, DataRows, Accepted;
    CellsOfFresh(config, world, rows[i]);
    ResultsPresent(CellsOf(config, world, rows[i]));
    forall c: Column
      ensures At(CellsOf(config, world, rows[i]), c).Some? ==>
                && (rows[i].number, c) in ApplyBatch(sheet, NaiveBatch(config, world, rows))
                && Some(ApplyBatch(sheet, NaiveBatch(config, world, rows))[(rows[i].number, c)])
                   == At(CellsOf(config, world, rows[i]), c)
    {
      SheetShowsRowCells(config, world, sheet, rows, i, c);
    }
  }

  lemma CellsOfFresh(config: Config, world: World, row: Row)
    requires ValidConfig(config) && Accepted(row, config)
    ensures FreshResults(CellsOf(config, world, row))
    ensures forall c: Column :: OutputColumn(config, c) ==> At(CellsOf(config, world, row), c).Some?
  {
    hide At, RowCells, FreshResults, OutputColumn;
    RowCellsFresh(config, world, IsinOf(row, config).value, row.values);
  }

  // ---------- Rows with an invalid ISIN ----------

  lemma {:induction false} MarksContain(config: Config, all: seq<Row>, rows: seq<Row>, i: int, u: CellUpdate)
    requires 0 <= i < |rows| && u in RowMarks(config, all, rows[i])
    ensures u in InvalidMarks(config, all, rows)
  {
    hide RowMarks;
    var front := rows[..|rows| - 1];
    if i < |front| {
      assert front[i] == rows[i];
      MarksContain(config, all, front, i, u);
    }
  }

  lemma RejectedNumber(config: Config, rows: seq<Row>, i: int)
    requires RowsDistinct(rows) && 0 <= i < |rows| && Rejected(rows[i], config)
    ensures !NumberAccepted(rows[i].number, rows, config)
  {
  }

  /** A row whose ISIN is rejected is marked, if there is a status column, but its older results
      stay on the sheet; without a status column nothing of the row changes. */
  lemma RejectedRowKeepsResults(config: Config, world: World, sheet: Sheet, rows: seq<Row>, i: int, c: Column)
    requires ValidConfig(config) && DataRows(config, rows) && 0 <= i < |rows| && Rejected(rows[i], config)
    ensures var after := ApplyBatch(sheet, NaiveBatch(config, world, rows));
            var n := rows[i].number;
            && (config.statusColumn != Some(c) && (c != AL_STATUS || config.statusColumn.None?) ==>
                  SameCell(sheet, after, (n, c)))
            && (config.statusColumn.Some? ==>
                  && (n, AL_STATUS) in after && after[(n, AL_STATUS)] == Value.Text(INVALID_ISIN_LABEL)
                  && (n, config.statusColumn.value) in after
                  && after[(n, config.statusColumn.value)] == Value.Text("INVALID ISIN"))
  {
    hide RowCells, Isin.NormalizeIsin, ApplyBatch, DistinctCells, Writes, MainUpdates, InvalidMarks, HeaderUpdates,
      At, CellsOf,
      HasIsin, IsinOf, NumberAccepted;
    RejectedNumber(config, rows, i);
    var k := (rows[i].number, c);
    BatchWrites(config, world, rows, k);
    if !Writes(NaiveBatch(config, world, rows), k) {
      Unwritten(sheet, NaiveBatch(config, world, rows), k);
    }
    if config.statusColumn.Some? {
      NoDoubleWrites(config, world, rows);
      forall u | u in RowMarks(config, rows, rows[i])
        ensures AddressOf(u) in ApplyBatch(sheet, NaiveBatch(config, world, rows))
        ensures ApplyBatch(sheet, NaiveBatch(config, world, rows))[AddressOf(u)] == u.value
      {
        MarksContain(config, rows, rows, i, u);
        Written(sheet, NaiveBatch(config, world, rows), u);
      }
      var marks := RowMarks(config, rows, rows[i]);
      assert marks[0] in marks && marks[1] in marks;
    }
  }
}
