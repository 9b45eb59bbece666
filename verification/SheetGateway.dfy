/** The spreadsheet as the gateways present it: reading rows of requested columns and writing
    a batch of cells. */
module SheetGateway {
  import opened Cells
  import opened SheetCalculations

  type Address = (int, Column)

  type Sheet = map<Address, Value>

  datatype Row = Row(number: int, values: RowValues)

  datatype CellUpdate = CellUpdate(row: int, column: Column, value: Value)

  function AddressOf(u: CellUpdate): Address {
    (u.row, u.column)
  }

  // ---------- Writing a batch ----------

  function ApplyBatch(sheet: Sheet, updates: seq<CellUpdate>): Sheet {
    if updates == [] then sheet
    else
      var last := updates[|updates| - 1];
      ApplyBatch(sheet, updates[..|updates| - 1])[AddressOf(last) := last.value]
  }

  predicate DistinctCells(updates: seq<CellUpdate>) {
    forall i, j :: 0 <= i < j < |updates| ==> AddressOf(updates[i]) != AddressOf(updates[j])
  }

  predicate Writes(updates: seq<CellUpdate>, a: Address) {
    exists u :: u in updates && AddressOf(u) == a
  }

  lemma {:induction false} Unwritten(sheet: Sheet, updates: seq<CellUpdate>, a: Address)
    requires !Writes(updates, a)
    ensures a in ApplyBatch(sheet, updates) <==> a in sheet
    ensures a in sheet ==> ApplyBatch(sheet, updates)[a] == sheet[a]
  {
    if updates != [] {
      var front := updates[..|updates| - 1];
      assert forall u :: u in front ==> u in updates;
      assert updates[|updates| - 1] in updates;
      Unwritten(sheet, front, a);
    }
  }

  lemma {:induction false} Written(sheet: Sheet, updates: seq<CellUpdate>, u: CellUpdate)
    requires DistinctCells(updates) && u in updates
    ensures AddressOf(u) in ApplyBatch(sheet, updates)
    ensures ApplyBatch(sheet, updates)[AddressOf(u)] == u.value
  {
    var front, last := updates[..|updates| - 1], updates[|updates| - 1];
    assert updates == front + [last];
    if u != last {
      Written(sheet, front, u);
      var i :| 0 <= i < |front| && front[i] == u;
      assert AddressOf(updates[i]) != AddressOf(updates[|updates| - 1]);
    }
  }

  /** When no cell is written twice, the order of the writes does not matter. */
  lemma BatchOrderIrrelevant(sheet: Sheet, a: seq<CellUpdate>, b: seq<CellUpdate>)
    requires DistinctCells(a) && DistinctCells(b)
    requires forall u :: u in a <==> u in b
    ensures ApplyBatch(sheet, a) == ApplyBatch(sheet, b)
  {
    var x, y := ApplyBatch(sheet, a), ApplyBatch(sheet, b);
    forall k
      ensures (k in x <==> k in y) && (k in x && k in y ==> x[k] == y[k])
    {
      if Writes(a, k) {
        var u :| u in a && AddressOf(u) == k;
        Written(sheet, a, u);
        Written(sheet, b, u);
      } else {
        Unwritten(sheet, a, k);
        Unwritten(sheet, b, k);
      }
    }
  }

  /** Writing the same batch again changes nothing. */
  lemma BatchIdempotent(sheet: Sheet, updates: seq<CellUpdate>)
    requires DistinctCells(updates)
    ensures ApplyBatch(ApplyBatch(sheet, updates), updates) == ApplyBatch(sheet, updates)
  {
    var x := ApplyBatch(sheet, updates);
    var y := ApplyBatch(x, updates);
    forall k
      ensures (k in x <==> k in y) && (k in x && k in y ==> x[k] == y[k])
    {
      if Writes(updates, k) {
        var u :| u in updates && AddressOf(u) == k;
        Written(sheet, updates, u);
        Written(x, updates, u);
      } else {
        Unwritten(x, updates, k);
      }
    }
  }

  // ---------- Reading rows ----------

  function RowNumbers(sheet: Sheet, columns: set<Column>, first: int): set<int> {
    set a | a in sheet && a.1 in columns && a.0 >= first :: a.0
  }

  function RowAt(sheet: Sheet, columns: set<Column>, number: int): Row {
    Row(number, map c | c in columns && (number, c) in sheet :: sheet[(number, c)])
  }

  function Numbers(rows: seq<Row>): (numbers: seq<int>)
    ensures |numbers| == |rows|
  {
    seq(|rows|, i requires 0 <= i < |rows| => rows[i].number)
  }

  predicate Increasing(numbers: seq<int>) {
    forall i, j :: 0 <= i < j < |numbers| ==> numbers[i] < numbers[j]
  }

  lemma LastIsGreatest(front: seq<int>, last: int)
    requires Increasing(front + [last])
    ensures Increasing(front) && last !in front
    ensures forall n :: n in front ==> n < last
  {
    var all := front + [last];
    forall n | n in front
      ensures n < last
    {
      var i :| 0 <= i < |front| && front[i] == n;
      assert all[i] < all[|front|];
    }
    assert forall i :: 0 <= i < |front| ==> all[i] == front[i];
  }

  lemma SameElementsUpToLast(fa: seq<int>, x: int, fb: seq<int>, y: int)
    requires Increasing(fa + [x]) && Increasing(fb + [y])
    requires forall n :: n in fa + [x] <==> n in fb + [y]
    ensures Increasing(fa) && Increasing(fb)
    ensures x == y && forall n :: n in fa <==> n in fb
  {
    LastIsGreatest(fa, x);
    LastIsGreatest(fb, y);
    hide Increasing;
    assert x in fa + [x] && y in fb + [y];
    forall n
      ensures n in fa <==> n in fb
    {
      assert n in fa + [x] <==> n in fb + [y];
    }
  }

  lemma EmptyTogether(a: seq<int>, b: seq<int>)
    requires forall n :: n in a <==> n in b
    ensures a == [] <==> b == []
  {
    Member(a);
    Member(b);
  }

  lemma Member(a: seq<int>)
    ensures a != [] ==> exists n :: n in a
  {
    if a != [] {
      var n := a[0];
      assert n in a;
    }
  }

  lemma {:induction false} IncreasingUnique(a: seq<int>, b: seq<int>)
    requires Increasing(a) && Increasing(b)
    requires forall n :: n in a <==> n in b
    ensures a == b
  {
    hide Increasing;
    EmptyTogether(a, b);
    if a != [] && b != [] {
      var fa, fb := a[..|a| - 1], b[..|b| - 1];
      var x, y := a[|a| - 1], b[|b| - 1];
      assert a == fa + [x] && b == fb + [y];
      SameElementsUpToLast(fa, x, fb, y);
      IncreasingUnique(fa, fb);
    }
  }

  /** Rows in increasing order, one for each row number that has a requested cell. */
  ghost predicate IsReading(sheet: Sheet, columns: set<Column>, first: int, rows: seq<Row>) {
    && Increasing(Numbers(rows))
    && (forall n :: n in Numbers(rows) <==> n in RowNumbers(sheet, columns, first))
    && (forall i :: 0 <= i < |rows| ==> rows[i] == RowAt(sheet, columns, rows[i].number))
  }

  /** A sheet has exactly one reading. */
  lemma ReadingUnique(sheet: Sheet, columns: set<Column>, first: int, a: seq<Row>, b: seq<Row>)
    requires IsReading(sheet, columns, first, a) && IsReading(sheet, columns, first, b)
    ensures a == b
  {
    IncreasingUnique(Numbers(a), Numbers(b));
    forall i | 0 <= i < |a|
      ensures a[i] == b[i]
    {
      assert Numbers(a)[i] == Numbers(b)[i];
    }
  }

  lemma NonEmpty(numbers: set<int>)
    requires numbers != {}
    ensures exists n :: n in numbers
  {
    assert (forall n: int :: n !in numbers) ==> |numbers| == 0 && numbers == {};
  }

  lemma {:induction false} Greatest(numbers: set<int>) returns (m: int)
    requires numbers != {}
    ensures m in numbers && forall n :: n in numbers ==> n <= m
    decreases |numbers|
  {
    NonEmpty(numbers);
    m :| m in numbers;
    var rest := numbers - {m};
    assert forall n :: n in numbers ==> n == m || n in rest;
    if rest != {} {
      var k := Greatest(rest);
      m := if k > m then k else m;
    }
  }

  lemma {:induction false} SortedNumbers(numbers: set<int>) returns (sorted: seq<int>)
    ensures Increasing(sorted)
    ensures forall n :: n in sorted <==> n in numbers
    decreases |numbers|
  {
    sorted := [];
    if numbers != {} {
      var m := Greatest(numbers);
      var front := SortedNumbers(numbers - {m});
      assert forall i :: 0 <= i < |front| ==> front[i] in front;
      sorted := front + [m];
    }
  }

  /** Every sheet has a reading. */
  lemma ReadingExists(sheet: Sheet, columns: set<Column>, first: int) returns (rows: seq<Row>)
    ensures IsReading(sheet, columns, first, rows)
  {
    var numbers := SortedNumbers(RowNumbers(sheet, columns, first));
    rows := seq(|numbers|, i requires 0 <= i < |numbers| => RowAt(sheet, columns, numbers[i]));
    assert Numbers(rows) == numbers;
  }

  method Minimum(numbers: set<int>) returns (least: int)
    requires numbers != {}
    ensures least in numbers && forall n :: n in numbers ==> least <= n
  {
    NonEmpty(numbers);
    least :| least in numbers;
    var rest := numbers - {least};
    while rest != {}
      invariant rest <= numbers && least in numbers
      invariant forall n :: n in numbers && n !in rest ==> least <= n
      decreases rest
    {
      NonEmpty(rest);
      var next :| next in rest;
      rest := rest - {next};
      if next < least {
        least := next;
      }
    }
  }

  method ReadRows(sheet: Sheet, columns: set<Column>, first: int) returns (rows: seq<Row>)
    ensures IsReading(sheet, columns, first, rows)
  {
    rows := [];
    var pending := RowNumbers(sheet, columns, first);
    while pending != {}
      invariant pending <= RowNumbers(sheet, columns, first)
      invariant Increasing(Numbers(rows))
      invariant forall n :: n in Numbers(rows) <==> n in RowNumbers(sheet, columns, first) && n !in pending
      invariant forall i :: 0 <= i < |rows| ==> rows[i] == RowAt(sheet, columns, rows[i].number)
      invariant forall i, n :: 0 <= i < |rows| && n in pending ==> rows[i].number < n
      decreases pending
    {
      var n := Minimum(pending);
      pending := pending - {n};
      assert Numbers(rows + [RowAt(sheet, columns, n)]) == Numbers(rows) + [n];
      rows := rows + [RowAt(sheet, columns, n)];
    }
  }
}
