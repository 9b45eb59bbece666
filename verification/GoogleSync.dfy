/** The theorems about a pass speak of the in-memory reading of a sheet. The rows that the real
    gateway returns lead to the same batch. */
module GoogleSync {
  import opened Prelude
  import opened Cells
  import opened SheetCalculations
  import opened SheetConnection
  import opened SheetGateway
  import opened SheetSync
  import opened SheetSyncBatch
  import opened GoogleRead
  import Isin

  // ---------- Rows that show the same cells ----------

  /** The requested cells of two rows differ at most in how they are blank. */
  ghost predicate SameRow(config: Config, a: Row, b: Row) {
    a.number == b.number && forall c :: c in Requested(config) ==> SameValue(Cell(a.values, c), Cell(b.values, c))
  }

  lemma SameParsed(a: Value, b: Value, parser: Parser)
    requires SameValue(a, b)
    ensures IsBlank(a) == IsBlank(b)
    ensures ParseDecimal(a, parser) == ParseDecimal(b, parser) && ParseDate(a, parser) == ParseDate(b, parser)
  {
  }

  ghost predicate SameInputs(world: World, v: RowValues, w: RowValues) {
    && ParseDate(Cell(v, E_DATE), world.parser) == ParseDate(Cell(w, E_DATE), world.parser)
    && ParseDecimal(Cell(v, H_QUANTITY), world.parser) == ParseDecimal(Cell(w, H_QUANTITY), world.parser)
    && ParseDecimal(Cell(v, I_PRICE), world.parser) == ParseDecimal(Cell(w, I_PRICE), world.parser)
    && ParseDecimal(Cell(v, J_ACCRUED), world.parser) == ParseDecimal(Cell(w, J_ACCRUED), world.parser)
    && ParseDecimal(Cell(v, L_COMMISSION), world.parser) == ParseDecimal(Cell(w, L_COMMISSION), world.parser)
    && ParseDecimal(Cell(v, V_PLAN), world.parser) == ParseDecimal(Cell(w, V_PLAN), world.parser)
    && IsBlank(Cell(v, J_ACCRUED)) == IsBlank(Cell(w, J_ACCRUED))
    && IsBlank(Cell(v, L_COMMISSION)) == IsBlank(Cell(w, L_COMMISSION))
  }

  lemma SameRowInputs(config: Config, world: World, a: Row, b: Row)
    requires SameRow(config, a, b)
    ensures SameInputs(world, a.values, b.values)
  {
    hide ParseDate, ParseDecimal, SameValue, IsBlank;
    forall c | c in Requested(config)
      ensures IsBlank(Cell(a.values, c)) == IsBlank(Cell(b.values, c))
      ensures ParseDecimal(Cell(a.values, c), world.parser) == ParseDecimal(Cell(b.values, c), world.parser)
      ensures ParseDate(Cell(a.values, c), world.parser) == ParseDate(Cell(b.values, c), world.parser)
    {
      SameParsed(Cell(a.values, c), Cell(b.values, c), world.parser);
    }
  }

  lemma SameQuestion(world: World, r: Refreshed, v: RowValues, w: RowValues)
    requires SameInputs(world, v, w)
    ensures Commission(v, world) == Commission(w, world) && AsksHistory(v, world) == AsksHistory(w, world)
    ensures HistoryOf(world, r, v) == HistoryOf(world, r, w)
  {
    hide ParseDate, ParseDecimal, IsBlank, Answer;
  }

  lemma SamePurchaseRead(world: World, v: RowValues, w: RowValues, answer: Option<real>, commission: real)
    requires SameInputs(world, v, w) && AsksHistory(v, world) == AsksHistory(w, world)
    ensures PurchaseAccrued(v, world, answer) == PurchaseAccrued(w, world, answer)
    ensures ParsePurchase(v, PurchaseAccrued(v, world, answer), commission, world.parser)
            == ParsePurchase(w, PurchaseAccrued(w, world, answer), commission, world.parser)
  {
    hide ParseDate, ParseDecimal, IsBlank, AsksHistory;
  }

  lemma SameFills(world: World, v: RowValues, w: RowValues, d: RowDict, answer: Option<real>)
    requires SameInputs(world, v, w) && AsksHistory(v, world) == AsksHistory(w, world)
    ensures WithCommission(d, v) == WithCommission(d, w)
    ensures WithAccrued(d, v, world, answer) == WithAccrued(d, w, world, answer)
  {
    hide ParseDate, ParseDecimal, IsBlank, AsksHistory, Put;
  }

  lemma SameCells(config: Config, world: World, isin: string, v: RowValues, w: RowValues)
    requires SameInputs(world, v, w)
    ensures RowCells(config, world, isin, v) == RowCells(config, world, isin, w)
  {
    hide SameInputs, Put, PutBlanks, PutStatus, MarketCells, PurchaseCells, FailedRow, Commission, AsksHistory,
      HistoryOf,
      PurchaseAccrued, ParsePurchase, WithCommission, WithAccrued;
    match world.refresh(isin)
    case Err(_) =>
    case Ok(r) =>
      SameQuestion(world, r, v, w);
      var answer := HistoryOf(world, r, v);
      SameFills(world, v, w, MarketCells(config, world, r), answer);
      SameFills(world, v, w, WithCommission(MarketCells(config, world, r), v), answer);
      if Commission(v, world).Some? {
        SamePurchaseRead(world, v, w, answer, Commission(v, world).value);
      }
  }

  lemma SameIsinOf(config: Config, a: Row, b: Row)
    requires SameRow(config, a, b)
    ensures HasIsin(a, config) == HasIsin(b, config) && IsinOf(a, config) == IsinOf(b, config)
    ensures Accepted(a, config) == Accepted(b, config) && Rejected(a, config) == Rejected(b, config)
  {
    hide Isin.NormalizeIsin;
    assert SameValue(Cell(a.values, config.isinColumn), Cell(b.values, config.isinColumn));
  }

  lemma SameUpdates(config: Config, world: World, a: Row, b: Row)
    requires SameRow(config, a, b)
    ensures RowUpdates(config, world, a) == RowUpdates(config, world, b)
  {
    hide SameRow, RowCells, CellUpdates, SameInputs, IsinOf, HasIsin;
    SameIsinOf(config, a, b);
    if Accepted(a, config) {
      SameRowInputs(config, world, a, b);
      SameCells(config, world, IsinOf(a, config).value, a.values, b.values);
      assert a.number == b.number by { SameNumber(config, a, b); }
    }
  }

  lemma SameNumber(config: Config, a: Row, b: Row)
    requires SameRow(config, a, b)
    ensures a.number == b.number
  {
  }

  // ---------- Readings that differ in rows without an ISIN ----------

  /** `some` holds, in order, rows that show the same as those of `all`, leaving out only rows
      without an ISIN. */
  ghost predicate Thins(config: Config, some: seq<Row>, all: seq<Row>)
    decreases |all|
  {
    if all == [] then some == []
    else
      var front, last := all[..|all| - 1], all[|all| - 1];
      || (some != [] && SameRow(config, some[|some| - 1], last) && Thins(config, some[..|some| - 1], front))
      || (!HasIsin(last, config) && Thins(config, some, front))
  }

  lemma {:induction false} ThinnedMain(config: Config, world: World, some: seq<Row>, all: seq<Row>)
    requires Thins(config, some, all)
    ensures MainUpdates(config, world, some) == MainUpdates(config, world, all)
    decreases |all|
  {
    hide SameRow, RowUpdates, HasIsin;
    if all != [] {
      var front, last := all[..|all| - 1], all[|all| - 1];
      if some != [] && SameRow(config, some[|some| - 1], last) && Thins(config, some[..|some| - 1], front) {
        ThinnedMain(config, world, some[..|some| - 1], front);
        SameUpdates(config, world, some[|some| - 1], last);
      } else {
        ThinnedMain(config, world, some, front);
        NoIsinNoUpdates(config, world, last);
      }
    }
  }

  lemma NoIsinNoUpdates(config: Config, world: World, row: Row)
    requires !HasIsin(row, config)
    ensures RowUpdates(config, world, row) == []
  {
  }

  lemma NoIsin(config: Config, rows: seq<Row>, row: Row)
    requires !HasIsin(row, config)
    ensures !Accepted(row, config) && !Rejected(row, config) && RowMarks(config, rows, row) == []
  {
  }

  lemma {:induction false} ThinnedAccepted(config: Config, some: seq<Row>, all: seq<Row>, n: int)
    requires Thins(config, some, all)
    ensures NumberAccepted(n, some, config) == NumberAccepted(n, all, config)
    decreases |all|
  {
    hide SameRow, Accepted, HasIsin;
    if all != [] {
      var front, last := all[..|all| - 1], all[|all| - 1];
      AcceptedSnoc(config, front, last, n);
      assert all == front + [last];
      if some != [] && SameRow(config, some[|some| - 1], last) && Thins(config, some[..|some| - 1], front) {
        ThinnedAccepted(config, some[..|some| - 1], front, n);
        AcceptedSnoc(config, some[..|some| - 1], some[|some| - 1], n);
        assert some == some[..|some| - 1] + [some[|some| - 1]];
        SameIsinOf(config, some[|some| - 1], last);
        SameNumber(config, some[|some| - 1], last);
      } else {
        ThinnedAccepted(config, some, front, n);
        NoIsin(config, all, last);
      }
    }
  }

  lemma AcceptedSnoc(config: Config, front: seq<Row>, last: Row, n: int)
    ensures NumberAccepted(n, front + [last], config)
            <==> NumberAccepted(n, front, config) || (last.number == n && Accepted(last, config))
  {
    hide Accepted;
    var all := front + [last];
    assert all[|front|] == last && forall i :: 0 <= i < |front| ==> all[i] == front[i];
    if i :| 0 <= i < |front| && front[i].number == n && Accepted(front[i], config) {
      assert all[i].number == n && Accepted(all[i], config);
    }
  }

  lemma {:induction false} ThinnedMarks(config: Config, rows: seq<Row>, others: seq<Row>, some: seq<Row>, all: seq<Row>)
    requires Thins(config, some, all)
    requires forall n :: NumberAccepted(n, rows, config) == NumberAccepted(n, others, config)
    ensures InvalidMarks(config, rows, some) == InvalidMarks(config, others, all)
    decreases |all|
  {
    hide SameRow, NumberAccepted, HasIsin, Rejected, InvalidUpdates;
    if all != [] {
      var front, last := all[..|all| - 1], all[|all| - 1];
      if some != [] && SameRow(config, some[|some| - 1], last) && Thins(config, some[..|some| - 1], front) {
        ThinnedMarks(config, rows, others, some[..|some| - 1], front);
        SameIsinOf(config, some[|some| - 1], last);
        SameNumber(config, some[|some| - 1], last);
      } else {
        ThinnedMarks(config, rows, others, some, front);
        NoIsin(config, others, last);
      }
    }
  }

  lemma ThinnedBatch(config: Config, world: World, some: seq<Row>, all: seq<Row>)
    requires Thins(config, some, all)
    ensures NaiveBatch(config, world, some) == NaiveBatch(config, world, all)
  {
    hide Thins, MainUpdates, InvalidMarks, HeaderUpdates, NumberAccepted;
    ThinnedMain(config, world, some, all);
    forall n
      ensures NumberAccepted(n, some, config) == NumberAccepted(n, all, config)
    {
      ThinnedAccepted(config, some, all, n);
    }
    ThinnedMarks(config, some, all, some, all);
  }

  // ---------- Both readings of one sheet ----------

  predicate HasNumber(rows: seq<Row>, n: int) {
    exists i :: 0 <= i < |rows| && rows[i].number == n
  }

  /** What is known of the two readings, and what is kept when the last row is taken off. */
  ghost predicate Comparable(config: Config, remote: seq<Row>, memory: seq<Row>) {
    && Increasing(Numbers(remote)) && Increasing(Numbers(memory))
    && (forall i :: 0 <= i < |remote| ==> HasNumber(memory, remote[i].number))
    && (forall i, j :: 0 <= i < |remote| && 0 <= j < |memory| && remote[i].number == memory[j].number ==>
          SameRow(config, remote[i], memory[j]))
    && (forall j :: 0 <= j < |memory| && HasIsin(memory[j], config) ==> HasNumber(remote, memory[j].number))
  }

  lemma IncreasingRows(rows: seq<Row>)
    requires Increasing(Numbers(rows))
    ensures forall i, j :: 0 <= i < j < |rows| ==> rows[i].number < rows[j].number
  {
    forall i, j | 0 <= i < j < |rows|
      ensures rows[i].number < rows[j].number
    {
      assert Numbers(rows)[i] < Numbers(rows)[j];
    }
  }

  lemma SomethingInMemory(config: Config, remote: seq<Row>, memory: seq<Row>)
    requires Comparable(config, remote, memory)
    ensures remote != [] ==> memory != []
  {
    hide SameRow, HasIsin;
    if remote != [] {
      assert HasNumber(memory, remote[0].number);
    }
  }

  lemma {:induction false} ComparableThins(config: Config, remote: seq<Row>, memory: seq<Row>)
    requires Comparable(config, remote, memory)
    ensures Thins(config, remote, memory)
    decreases |memory|
  {
    hide SameRow, HasIsin;
    SomethingInMemory(config, remote, memory);
    if memory != [] {
      IncreasingRows(remote);
      IncreasingRows(memory);
      var front, last := memory[..|memory| - 1], memory[|memory| - 1];
      if remote != [] && remote[|remote| - 1].number == last.number {
        ComparableWithoutBoth(config, remote, memory);
        ComparableThins(config, remote[..|remote| - 1], front);
      } else {
        ComparableWithoutLast(config, remote, memory);
        ComparableThins(config, remote, front);
      }
    }
  }

  lemma ComparableWithoutBoth(config: Config, remote: seq<Row>, memory: seq<Row>)
    requires Comparable(config, remote, memory) && remote != [] && memory != []
    requires remote[|remote| - 1].number == memory[|memory| - 1].number
    ensures Comparable(config, remote[..|remote| - 1], memory[..|memory| - 1])
    ensures SameRow(config, remote[|remote| - 1], memory[|memory| - 1])
  {
    hide SameRow, HasIsin;
    IncreasingRows(remote);
    IncreasingRows(memory);
    var r, m := remote[..|remote| - 1], memory[..|memory| - 1];
    assert Numbers(r) == Numbers(remote)[..|r|] && Numbers(m) == Numbers(memory)[..|m|];
    forall i | 0 <= i < |r|
      ensures HasNumber(m, r[i].number)
    {
      var j :| 0 <= j < |memory| && memory[j].number == remote[i].number;
      assert m[j].number == r[i].number;
    }
    forall j | 0 <= j < |m| && HasIsin(m[j], config)
      ensures HasNumber(r, m[j].number)
    {
      var i :| 0 <= i < |remote| && remote[i].number == memory[j].number;
      assert r[i].number == m[j].number;
    }
  }

  lemma ComparableWithoutLast(config: Config, remote: seq<Row>, memory: seq<Row>)
    requires Comparable(config, remote, memory) && memory != []
    requires remote != [] ==> remote[|remote| - 1].number != memory[|memory| - 1].number
    ensures Comparable(config, remote, memory[..|memory| - 1])
    ensures !HasIsin(memory[|memory| - 1], config)
  {
    hide SameRow, HasIsin;
    IncreasingRows(remote);
    IncreasingRows(memory);
    var m := memory[..|memory| - 1];
    assert Numbers(m) == Numbers(memory)[..|m|];
    var last := memory[|memory| - 1];
    forall i | 0 <= i < |remote|
      ensures remote[i].number != last.number
      ensures HasNumber(m, remote[i].number)
    {
      NotBeyond(config, remote, memory, i);
    }
    assert forall j :: 0 <= j < |m| ==> m[j] == memory[j];
  }

  lemma NotBeyond(config: Config, remote: seq<Row>, memory: seq<Row>, i: int)
    requires Comparable(config, remote, memory) && memory != [] && 0 <= i < |remote|
    requires remote[|remote| - 1].number != memory[|memory| - 1].number
    ensures remote[i].number != memory[|memory| - 1].number
    ensures HasNumber(memory[..|memory| - 1], remote[i].number)
  {
    hide SameRow, HasIsin;
    IncreasingRows(remote);
    IncreasingRows(memory);
    var k :| 0 <= k < |memory| && memory[k].number == remote[|remote| - 1].number;
    var j :| 0 <= j < |memory| && memory[j].number == remote[i].number;
    assert remote[i].number <= remote[|remote| - 1].number < memory[|memory| - 1].number;
    assert memory[..|memory| - 1][j].number == remote[i].number;
  }

  lemma MatchingRows(config: Config, sheet: Sheet, remote: seq<Row>, memory: seq<Row>)
    requires IsNonBlankReading(sheet, Requested(config), config.headerRow + 1, remote)
    requires ReadsRows(config, sheet, memory)
    ensures forall i, j :: 0 <= i < |remote| && 0 <= j < |memory| && remote[i].number == memory[j].number ==>
              SameRow(config, remote[i], memory[j])
  {
    GatewaysAgree(sheet, Requested(config), config.headerRow + 1, remote, memory);
    hide IsNonBlankReading, IsReading, Requested, SameValue;
  }

  lemma RemoteInMemory(config: Config, sheet: Sheet, remote: seq<Row>, memory: seq<Row>)
    requires IsNonBlankReading(sheet, Requested(config), config.headerRow + 1, remote)
    requires ReadsRows(config, sheet, memory)
    ensures forall i :: 0 <= i < |remote| ==> HasNumber(memory, remote[i].number)
  {
    GatewaysAgree(sheet, Requested(config), config.headerRow + 1, remote, memory);
    hide IsNonBlankReading, IsReading, Requested, SameValue, IsBlank;
    forall i | 0 <= i < |remote|
      ensures HasNumber(memory, remote[i].number)
    {
      var j :| 0 <= j < |memory| && Numbers(memory)[j] == remote[i].number;
      assert memory[j].number == remote[i].number;
    }
  }

  lemma IsinsInRemote(config: Config, sheet: Sheet, remote: seq<Row>, memory: seq<Row>)
    requires IsNonBlankReading(sheet, Requested(config), config.headerRow + 1, remote)
    requires ReadsRows(config, sheet, memory)
    ensures forall j :: 0 <= j < |memory| && HasIsin(memory[j], config) ==> HasNumber(remote, memory[j].number)
  {
    assert config.isinColumn in Requested(config);
    GatewaysAgree(sheet, Requested(config), config.headerRow + 1, remote, memory);
    hide IsNonBlankReading, IsReading, Requested, SameValue, IsBlank;
    forall j | 0 <= j < |memory| && HasIsin(memory[j], config)
      ensures HasNumber(remote, memory[j].number)
    {
      assert memory[j].number in Numbers(remote);
      var i :| 0 <= i < |remote| && Numbers(remote)[i] == memory[j].number;
      assert remote[i].number == memory[j].number;
    }
  }

  lemma ReadingsComparable(config: Config, sheet: Sheet, remote: seq<Row>, memory: seq<Row>)
    requires IsNonBlankReading(sheet, Requested(config), config.headerRow + 1, remote)
    requires ReadsRows(config, sheet, memory)
    ensures Comparable(config, remote, memory)
  {
    MatchingRows(config, sheet, remote, memory);
    RemoteInMemory(config, sheet, remote, memory);
    IsinsInRemote(config, sheet, remote, memory);
    hide SameRow, HasIsin, Requested;
  }

  /** The real and the in-memory reading of one sheet lead to the same batch, so every theorem
      about a pass holds of the rows that the real gateway returns. */
  lemma GatewaysGiveTheSameBatch(config: Config, world: World, sheet: Sheet, remote: seq<Row>, memory: seq<Row>)
    requires IsNonBlankReading(sheet, Requested(config), config.headerRow + 1, remote)
    requires ReadsRows(config, sheet, memory)
    ensures NaiveBatch(config, world, remote) == NaiveBatch(config, world, memory)
  {
    hide Comparable, Thins, NaiveBatch, IsNonBlankReading, IsReading, Requested;
    ReadingsComparable(config, sheet, remote, memory);
    ComparableThins(config, remote, memory);
    ThinnedBatch(config, world, remote, memory);
  }
}
