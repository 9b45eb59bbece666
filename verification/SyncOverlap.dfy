/** Two workers that run passes of one connection at the same time: the slower one overwrites newer
    results, although the exchange gives the same answers to both. */
module SyncOverlap {
  import opened Prelude
  import opened Cells
  import opened SheetConnection
  import opened SheetGateway
  import opened SheetSync
  import opened SheetSyncRows
  import opened SheetSyncBatch
  import opened SyncSystem
  import C = SheetSyncConvergence
  import opened SheetCalculations
  import opened Text
  import Isin
  import Q = SyncQueue

  // ---------- The sheet and the exchange ----------

  /** An exchange that knows every bond but one, and quotes both sides of it. */
  function Exchange(unknown: string): World {
    var market := Market(Some(0.0), Some(1.0), Some(1.0), Some(1.0), Some(1.0), None, 0);
    World(
      (isin: string) =>
        if isin == unknown then Result<Refreshed, string>.Err("") else Ok(Refreshed("", None, market, [])),
      (secid: string, board: Option<string>, date: int) => NotFound,
      (time: int) => 0, (time: int) => "",
      Parser((text: string) => Option<real>.None, (text: string) => Option<int>.None))
  }

  predicate IsIsin(isin: string) {
    Isin.NormalizeIsin(isin) == Ok(isin)
  }

  lemma ValidIsIsin(isin: string)
    requires Isin.ValidIsin(isin)
    ensures IsIsin(isin)
  {
    hide Isin.CheckDigitOk;
    StripFixed(isin);
    UpperFixed(isin);
  }

  lemma TwoIsins() returns (a: string, b: string)
    ensures IsIsin(a) && IsIsin(b) && a != b
  {
    var x, y := "RU000000000", "SU000000000";
    var c := Isin.ExactlyOneCheckDigit(x);
    var d := Isin.ExactlyOneCheckDigit(y);
    a, b := x + [c], y + [d];
    hide Isin.ValidIsin, IsIsin;
    ValidIsIsin(a);
    ValidIsIsin(b);
    assert a[0] != b[0];
  }

  /** The ISIN cell of the first data row. */
  function FirstIsin(config: Config): Address {
    (config.headerRow + 1, config.isinColumn)
  }

  /** The sheet has this ISIN in its first data row. */
  predicate Starts(config: Config, sheet: Sheet, isin: string) {
    FirstIsin(config) in sheet && sheet[FirstIsin(config)] == Value.Text(isin)
  }

  lemma FirstRow(config: Config, sheet: Sheet, rows: seq<Row>, isin: string) returns (i: nat)
    requires ReadsRows(config, sheet, rows) && Starts(config, sheet, isin) && IsIsin(isin)
    ensures i < |rows| && rows[i].number == config.headerRow + 1
    ensures Accepted(rows[i], config) && IsinOf(rows[i], config) == Ok(isin)
  {
    hide Isin.NormalizeIsin;
    var n := config.headerRow + 1;
    assert n in RowNumbers(sheet, Requested(config), n) by {
      assert FirstIsin(config) in sheet && FirstIsin(config).1 in Requested(config);
    }
    assert n in Numbers(rows);
    i :| 0 <= i < |rows| && Numbers(rows)[i] == n;
    assert rows[i] == RowAt(sheet, Requested(config), n);
    assert Cell(rows[i].values, config.isinColumn) == Value.Text(isin);
    NotEmpty(isin);
    assert RawIsin(rows[i], config) == isin;
  }

  lemma NotEmpty(isin: string)
    requires IsIsin(isin)
    ensures isin != ""
  {
    Isin.NormalizeIsinFixed(isin);
  }

  /** A bond that the exchange does not know has no price. */
  lemma UnknownPrice(config: Config, isin: string, row: Row)
    requires ValidConfig(config) && Accepted(row, config) && IsinOf(row, config) == Ok(isin)
    ensures At(CellsOf(config, Exchange(isin), row), config.priceColumn) == Some(Blank)
  {
    hide At, FailedRow, FreshResults, RefreshedRow;
    FailedRowFresh(config);
  }

  lemma KnownPrice(config: Config, unknown: string, isin: string, row: Row)
    requires ValidConfig(config) && Accepted(row, config) && IsinOf(row, config) == Ok(isin) && isin != unknown
    ensures At(CellsOf(config, Exchange(unknown), row), config.priceColumn) == Some(Num(1.0))
  {
    hide At, FailedRow, FreshResults, RefreshedRow, MarketCells, HistoryOf;
    var world := Exchange(unknown);
    var r := world.refresh(isin).value;
    NotReserved(config);
    RefreshedRowFresh(config, world, r, row.values);
    MarketCellsAt(config, world, r, config.priceColumn);
    assert MarketPrice(r.market, config.priceMode) == Some(1.0);
    assert OwnColumn(config, config.priceColumn) && !Reserved(config.priceColumn);
    assert world.refresh(isin) == Ok(r);
  }

  /** The price of the first data row. */
  function FirstPrice(config: Config): Address {
    (config.headerRow + 1, config.priceColumn)
  }

  predicate PriceIs(config: Config, sheet: Sheet, price: Value) {
    FirstPrice(config) in sheet && sheet[FirstPrice(config)] == price
  }

  /** A batch from a reading with the unknown bond clears the price. */
  lemma UnknownWritten(config: Config, a: string, before: Sheet, rows: seq<Row>, sheet: Sheet)
    requires ValidConfig(config) && IsIsin(a) && ReadsRows(config, before, rows) && Starts(config, before, a)
    ensures PriceIs(config, ApplyBatch(sheet, NaiveBatch(config, Exchange(a), rows)), Blank)
  {
    hide IsIsin, ReadsRows, DataRows, Accepted, IsinOf, At, CellsOf, NaiveBatch, ApplyBatch, Exchange, Starts;
    var i := FirstRow(config, before, rows, a);
    ReadRowsAreData(config, before, rows);
    UnknownPrice(config, a, rows[i]);
    SheetShowsRowCells(config, Exchange(a), sheet, rows, i, config.priceColumn);
  }

  /** A sheet with the results of a reading with a known bond shows its price. */
  lemma KnownShown(config: Config, a: string, after: Sheet, r: Reading, b: string, sheet: Sheet)
    requires ValidConfig(config) && IsIsin(b) && a != b && r.world == Exchange(a)
    requires ReadsRows(config, after, r.rows) && Starts(config, after, b) && ShowsReading(config, sheet, r)
    ensures PriceIs(config, sheet, Num(1.0))
  {
    hide IsIsin, ReadsRows, Accepted, IsinOf, At, CellsOf, Exchange, Starts;
    var i := FirstRow(config, after, r.rows, b);
    KnownPrice(config, a, b, r.rows[i]);
    assert OutputColumn(config, config.priceColumn);
  }

  // ---------- The run ----------

  /** A user enters an ISIN in the first data row. */
  lemma EnterIsin(configs: Configs, s0: System, s: System, c: Q.ConnectionId, isin: string) returns (t: System)
    requires ValidConfigs(configs) && From(configs, s0, s) && c in s.sheets
    ensures From(configs, s0, t) && c in t.sheets && Starts(configs(c), t.sheets[c], isin)
    ensures t == s.(sheets := t.sheets)
  {
    var config := configs(c);
    C.RequestedNotWritten(config, config.isinColumn);
    var sheet := s.sheets[c][FirstIsin(config) := Value.Text(isin)];
    assert UserEdit(config, s.sheets[c], sheet);
    t := Take(configs, s0, s, Edit(c, sheet));
  }

  /** Worker w reads the sheet of its connection. */
  lemma ReadNow(configs: Configs, s0: System, s: System, w: nat, world: World) returns (t: System, r: Reading)
    requires From(configs, s0, s) && Works(s.queue, w) && w !in s.readings && ConnectionOf(s.queue, w) in s.sheets
    ensures From(configs, s0, t) && r.at == s.queue.now && r.world == world
    ensures var c := ConnectionOf(s.queue, w);
            && ReadsRows(configs(c), s.sheets[c], r.rows)
            && t == s.(readings := s.readings[w := r], made := s.made + [Made(c, r)])
  {
    var c := ConnectionOf(s.queue, w);
    var rows := ReadingExists(s.sheets[c], Requested(configs(c)), configs(c).headerRow + 1);
    r := Reading(s.queue.now, world, rows);
    t := Take(configs, s0, s, Read(w, world, rows));
  }

  lemma Step(configs: Configs, s0: System, s: System, step: Q.Step) returns (t: System)
    requires From(configs, s0, s) && Q.Allowed(s.queue, step) && (step.Succeed? ==> step.w in s.written)
    ensures From(configs, s0, t)
    ensures t == s.(queue := Q.Apply(s.queue, step), readings := s.readings - Forget(step),
                    written := s.written - Forget(step),
                    answered := if step.Enqueue? then s.answered[step.answer := s.queue.now] else s.answered)
  {
    t := Take(configs, s0, s, Queue(step));
  }

  lemma WriteNow(configs: Configs, s0: System, s: System, w: nat) returns (t: System)
    requires From(configs, s0, s) && Allowed(configs, s, Write(w))
    ensures From(configs, s0, t) && t == Apply(configs, s, Write(w))
  {
    t := Take(configs, s0, s, Write(w));
  }

  /** Worker 0 runs job 0 and has not read yet. */
  lemma FirstJobBegins(configs: Configs, s0: System, s: System) returns (t: System)
    requires From(configs, s0, s) && s.readings == map[] && s.written == {}
    requires s.queue == Q.Init(|s.queue.workers|, s.queue.maxAttempts, s.queue.now) && |s.queue.workers| >= 2
    ensures From(configs, s0, t) && t == s.(queue := t.queue, answered := t.answered)
    ensures t.queue.jobs.Keys == {0} && t.queue.jobs[0].connection == 0 && t.queue.jobs[0].status == Q.Running
    ensures 0 in t.queue.connections && t.queue.connections[0].enabled && t.queue.now == s.queue.now
    ensures |t.queue.workers| >= 2 && t.queue.workers[0] == Q.Executing(0, s.queue.now) && t.queue.workers[1] == Q.Idle
  {
    hide From, Allowed, Apply;
    var s1 := Step(configs, s0, s, Q.Configure(0, true, 60));
    assert Q.QueuedJobs(s1.queue, 0) == {};
    var s2 := Step(configs, s0, s1, Q.Enqueue(0, Q.Manual, 0));
    var s3 := Step(configs, s0, s2, Q.Claim(0, 0));
    t := Step(configs, s0, s3, Q.Begin(0));
  }

  /** Worker 0 has read the sheet with the ISIN a for job 0; then a user has entered b, and an event
      has been answered with job 1. */
  ghost predicate ReadThenChanged(configs: Configs, s: System, a: string, b: string, older: Reading, before: Sheet) {
    && s.queue.jobs.Keys == {0, 1} && s.queue.jobs[0].connection == 0
    && s.queue.jobs[1] == Q.NewJob(0, Q.Manual, s.queue.now)
    && 0 in s.queue.connections && |s.queue.workers| >= 2
    && s.queue.workers[0].Executing? && s.queue.workers[0].job == 0 && s.queue.workers[1] == Q.Idle
    && s.readings == map[0 := older] && s.written == {} && s.made == [Made(0, older)]
    && 1 in s.answered && s.answered[1] == s.queue.now && older.at < s.queue.now
    && older.world == Exchange(a) && ReadsRows(configs(0), before, older.rows) && Starts(configs(0), before, a)
    && 0 in s.sheets && Starts(configs(0), s.sheets[0], b)
  }

  lemma ReadAndChange(configs: Configs, s0: System, a: string, b: string)
    returns (t: System, older: Reading, before: Sheet)
    requires ValidConfigs(configs) && 0 in s0.sheets && |s0.queue.workers| >= 2
    requires s0 == Start(|s0.queue.workers|, s0.queue.maxAttempts, s0.queue.now, s0.sheets)
    ensures From(configs, s0, t) && ReadThenChanged(configs, t, a, b, older, before)
  {
    hide From, Allowed, Apply, Exchange, Starts, ReadsRows, ValidConfigs;
    FromItself(configs, s0);
    var s1 := EnterIsin(configs, s0, s0, 0, a);
    var s2 := FirstJobBegins(configs, s0, s1);
    before := s2.sheets[0];
    var s3;
    s3, older := ReadNow(configs, s0, s2, 0, Exchange(a));
    var s4 := EnterIsin(configs, s0, s3, 0, b);
    var s5 := Step(configs, s0, s4, Q.Tick(s4.queue.now + 10));
    assert Q.QueuedJobs(s5.queue, 0) == {};
    t := Step(configs, s0, s5, Q.Enqueue(0, Q.Manual, 1));
  }

  /** Both workers have read, each its own version of the sheet. */
  ghost predicate BothRead(
    configs: Configs, s: System, a: string, b: string, older: Reading, before: Sheet, newer: Reading)
  {
    && s.queue.jobs.Keys == {0, 1} && s.queue.jobs[0].connection == 0 && s.queue.jobs[1].connection == 0
    && 0 in s.queue.connections && |s.queue.workers| >= 2
    && s.queue.workers[0].Executing? && s.queue.workers[0].job == 0
    && s.queue.workers[1].Executing? && s.queue.workers[1].job == 1
    && s.readings == map[0 := older, 1 := newer] && s.written == {} && s.made == [Made(0, older), Made(0, newer)]
    && 1 in s.answered && older.at < s.answered[1] <= newer.at
    && older.world == newer.world == Exchange(a)
    && ReadsRows(configs(0), before, older.rows) && Starts(configs(0), before, a)
    && 0 in s.sheets && ReadsRows(configs(0), s.sheets[0], newer.rows) && Starts(configs(0), s.sheets[0], b)
  }

  lemma SecondJobReads(
    configs: Configs, s0: System, s: System, a: string, b: string, older: Reading, before: Sheet)
    returns (t: System, newer: Reading)
    requires From(configs, s0, s) && ReadThenChanged(configs, s, a, b, older, before)
    ensures From(configs, s0, t) && BothRead(configs, t, a, b, older, before, newer)
  {
    hide From, Allowed, Apply, Exchange, Starts, ReadsRows;
    var s1 := Step(configs, s0, s, Q.Claim(1, 1));
    var s2 := Step(configs, s0, s1, Q.Begin(1));
    t, newer := ReadNow(configs, s0, s2, 1, Exchange(a));
  }

  /** Worker 1 serves job 1 to its end. */
  lemma NewerWritten(
    configs: Configs, s0: System, s: System, a: string, b: string, older: Reading, before: Sheet, newer: Reading)
    returns (u: System)
    requires ValidConfigs(configs) && From(configs, s0, s) && BothRead(configs, s, a, b, older, before, newer)
    ensures From(configs, s0, u) && u.made == s.made && u.answered == s.answered
    ensures Q.Has(u.queue, 1, Q.Succeeded) && u.queue.jobs[1].connection == 0
    ensures Works(u.queue, 0) && ConnectionOf(u.queue, 0) == 0 && u.readings == map[0 := older] && u.written == {}
    ensures 0 in u.shown && u.shown[0] == newer && 0 in u.sheets && ShowsReading(configs(0), u.sheets[0], newer)
  {
    hide From, Exchange, Starts, ReadsRows, ShowsReading, ApplyBatch, NaiveBatch, DataRows, ValidConfig;
    ReadRowsAreData(configs(0), s.sheets[0], newer.rows);
    WriteShows(configs(0), newer, s.sheets[0]);
    var s1 := WriteNow(configs, s0, s, 1);
    u := Step(configs, s0, s1, Q.Succeed(1));
  }

  /** For every number of workers from two on and whatever the sheets are: a state u in which the job
      that answered an event has succeeded and the sheet shows the results of a reading made after
      the event, the only such reading, and a state s in which only the slower worker has written
      since and the sheet does not show these results any more: a price has been cleared. */
  lemma OlderResultsWrittenLast(
    configs: Configs, workers: nat, maxAttempts: nat, start: Q.Time, sheets: map<Q.ConnectionId, Sheet>)
    returns (u: System, s: System, j: Q.JobId)
    requires ValidConfigs(configs) && workers >= 2 && 0 in sheets
    ensures From(configs, Start(workers, maxAttempts, start, sheets), u)
    ensures From(configs, Start(workers, maxAttempts, start, sheets), s)
    ensures Allowed(configs, u, Write(0)) && s == Apply(configs, u, Write(0))
    ensures j in u.answered && Q.Has(u.queue, j, Q.Succeeded) && u.queue.jobs[j].connection == 0
    ensures 0 in u.shown && 0 in u.sheets && u.shown[0].at >= u.answered[j]
    ensures ShowsReading(configs(0), u.sheets[0], u.shown[0])
    ensures forall r :: Made(0, r) in s.made && r.at >= u.answered[j] ==> r == u.shown[0]
    ensures 0 in s.sheets && !ShowsReading(configs(0), s.sheets[0], u.shown[0])
    ensures PriceIs(configs(0), u.sheets[0], Num(1.0)) && PriceIs(configs(0), s.sheets[0], Blank)
  {
    hide From, Exchange, Starts, ReadsRows, ShowsReading, ApplyBatch, NaiveBatch, IsIsin;
    var s0 := Start(workers, maxAttempts, start, sheets);
    var a, b := TwoIsins();
    var s1, older, before := ReadAndChange(configs, s0, a, b);
    var s2, newer := SecondJobReads(configs, s0, s1, a, b, older, before);
    u := NewerWritten(configs, s0, s2, a, b, older, before, newer);
    s := WriteNow(configs, s0, u, 0);
    j := 1;
    KnownShown(configs(0), a, s2.sheets[0], newer, b, u.sheets[0]);
    UnknownWritten(configs(0), a, before, older.rows, u.sheets[0]);
    if ShowsReading(configs(0), s.sheets[0], newer) {
      KnownShown(configs(0), a, s2.sheets[0], newer, b, s.sheets[0]);
      assert false;
    }
  }

  /** The sheets show the results of readings no older than the events, in every run, exactly with at
      most one worker: two passes of one connection can overlap, and the slower one writes last. */
  lemma ResultsFollowEventsIff(
    configs: Configs, workers: nat, maxAttempts: nat, start: Q.Time, sheets: map<Q.ConnectionId, Sheet>)
    requires ValidConfigs(configs) && maxAttempts >= 1 && 0 in sheets
    ensures (forall s :: From(configs, Start(workers, maxAttempts, start, sheets), s) ==> EventsShown(configs, s))
            <==> workers <= 1
  {
    hide From, ShowsReading, Allowed;
    if workers <= 1 {
      forall s | From(configs, Start(workers, maxAttempts, start, sheets), s)
        ensures EventsShown(configs, s)
      {
        OneWorkerShows(configs, workers, maxAttempts, start, sheets, s);
      }
    } else {
      var u, s, j := OlderResultsWrittenLast(configs, workers, maxAttempts, start, sheets);
      assert !ShowsResultsSince(configs, s, 0, u.answered[j]);
      assert !EventsShown(configs, s);
    }
  }
}
