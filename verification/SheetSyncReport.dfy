/** What the report of a pass counts, and which errors it lists. */
module SheetSyncReport {
  import opened Prelude
  import opened Cells
  import opened YieldEngine
  import opened SheetCalculations
  import opened SheetConnection
  import opened SheetGateway
  import opened SheetSync
  import opened SheetSyncRows
  import opened SheetSyncExecute
  import opened SheetSyncPass
  import opened SheetSyncInputs

  // ---------- Counts ----------

  predicate IsinFilled(config: Config, row: Row) {
    config.isinColumn in row.values && row.values[config.isinColumn] != Blank
    && row.values[config.isinColumn] != Value.Text("")
  }

  function RowsWithIsin(config: Config, rows: seq<Row>): set<int> {
    set i | 0 <= i < |rows| && IsinFilled(config, rows[i])
  }

  function AcceptedRows(config: Config, rows: seq<Row>): set<int> {
    set i | 0 <= i < |rows| && Accepted(rows[i], config)
  }

  lemma FilledIsHas(config: Config, row: Row)
    ensures HasIsin(row, config) <==> IsinFilled(config, row)
  {
  }

  lemma FilledGrows(config: Config, rows: seq<Row>)
    requires rows != []
    ensures var n := |rows| - 1;
            && n !in RowsWithIsin(config, rows[..n])
            && RowsWithIsin(config, rows)
               == RowsWithIsin(config, rows[..n]) + if IsinFilled(config, rows[n]) then {n} else {}
  {
    hide IsinFilled;
  }

  lemma {:induction false} CountsFilled(config: Config, rows: seq<Row>)
    ensures |WithIsin(config, rows)| == |RowsWithIsin(config, rows)|
  {
    hide IsinFilled, HasIsin;
    if rows == [] {
      assert RowsWithIsin(config, rows) == {};
    } else {
      hide RowsWithIsin;
      CountsFilled(config, rows[..|rows| - 1]);
      FilledIsHas(config, rows[|rows| - 1]);
      FilledGrows(config, rows);
    }
  }

  lemma AcceptedGrows(config: Config, rows: seq<Row>)
    requires rows != []
    ensures var n := |rows| - 1;
            && n !in AcceptedRows(config, rows[..n])
            && AcceptedRows(config, rows)
               == AcceptedRows(config, rows[..n]) + if Accepted(rows[n], config) then {n} else {}
  {
    hide Accepted;
  }

  lemma {:induction false} CountsAccepted(config: Config, rows: seq<Row>)
    ensures |AcceptedPairs(config, rows)| == |AcceptedRows(config, rows)|
  {
    hide Accepted, IsinOf;
    if rows == [] {
      assert AcceptedRows(config, rows) == {};
    } else {
      hide AcceptedRows;
      CountsAccepted(config, rows[..|rows| - 1]);
      AcceptedGrows(config, rows);
    }
  }

  function RefreshedIsins(world: World, isins: seq<string>): set<string> {
    set isin | isin in isins && world.refresh(isin).Ok?
  }

  lemma {:induction false} CountsRefreshed(world: World, isins: seq<string>)
    requires Distinct(isins)
    ensures CountRefreshed(world, isins) == |RefreshedIsins(world, isins)|
  {
    if isins != [] {
      var n := |isins| - 1;
      var front, last := isins[..n], isins[n];
      CountsRefreshed(world, front);
      assert isins == front + [last];
      assert last !in front;
      assert RefreshedIsins(world, isins)
          == RefreshedIsins(world, front) + if world.refresh(last).Ok? then {last} else {};
    }
  }

  /** The report counts the rows with something in the ISIN column, the rows with an accepted ISIN
      and the different instruments that were refreshed. */
  lemma ReportCounts(config: Config, world: World, rows: seq<Row>)
    ensures var report := ReportOf(config, world, rows);
            && report.rowsRead == |RowsWithIsin(config, rows)| && report.rowsUpdated == |AcceptedRows(config, rows)|
            && report.instrumentsRefreshed == |RefreshedIsins(world, RefreshList(config, rows))|
    ensures forall isin :: isin in RefreshedIsins(world, RefreshList(config, rows))
                           <==> && world.refresh(isin).Ok?
                                && exists row :: row in rows && Accepted(row, config) && IsinOf(row, config) == Ok(isin)
  {
    hide Accepted, IsinOf, CountRefreshed, RefreshList, WithIsin, AcceptedPairs, AllErrors, RowsWithIsin, AcceptedRows;
    CountsFilled(config, rows);
    CountsAccepted(config, rows);
    forall isin: string
      ensures Distinct(RefreshList(config, rows))
      ensures isin in RefreshList(config, rows)
              <==> exists row :: row in rows && Accepted(row, config) && IsinOf(row, config) == Ok(isin)
    {
      EveryInstrumentOnce(config, rows, isin);
    }
    EveryInstrumentOnce(config, rows, "");
    CountsRefreshed(world, RefreshList(config, rows));
  }

  // ---------- Errors ----------

  lemma {:induction false} RejectedListed(config: Config, rows: seq<Row>, e: RowError)
    ensures e in RejectedErrors(config, rows)
            <==> && e.IsinRejected?
                 && exists row :: && row in rows && Rejected(row, config) && e.number == row.number
                                  && e.raw == RawIsin(row, config) && IsinOf(row, config) == Err(e.reason)
  {
    hide IsinOf, RawIsin, HasIsin;
    if rows != [] {
      var front, last := rows[..|rows| - 1], rows[|rows| - 1];
      assert rows == front + [last];
      RejectedListed(config, front, e);
    }
  }

  lemma {:induction false} RefusedListed(world: World, isins: seq<string>, e: RowError)
    ensures e in RefreshErrors(world, isins)
            <==> && e.RefreshRejected? && e.isin in isins && world.refresh(e.isin).Err?
                 && e.message == Clip(world.refresh(e.isin).error, 1000)
  {
    hide Clip;
    if isins != [] {
      var front, last := isins[..|isins| - 1], isins[|isins| - 1];
      assert isins == front + [last];
      RefusedListed(world, front, e);
    }
  }

  /** Row i of the accepted ones reports the error. */
  ghost predicate RowReports(config: Config, world: World, pairs: seq<Pair>, i: int, e: RowError)
    requires 0 <= i < |pairs|
  {
    e in RowErrors(config, world, pairs[i].0, pairs[i].1, KeySet(Asked(world, pairs[..i])))
  }

  lemma {:induction false} MainListed(config: Config, world: World, pairs: seq<Pair>, e: RowError)
    ensures e in MainErrors(config, world, pairs)
            <==> exists i :: 0 <= i < |pairs| && RowReports(config, world, pairs, i, e)
  {
    hide RowErrors, Asked;
    if pairs != [] {
      var n := |pairs| - 1;
      var front := pairs[..n];
      MainListed(config, world, front, e);
      forall i | 0 <= i < n
        ensures RowReports(config, world, pairs, i, e) == RowReports(config, world, front, i, e)
      {
        assert front[..i] == pairs[..i];
      }
      assert RowReports(config, world, pairs, n, e)
          <==> e in RowErrors(config, world, pairs[n].0, pairs[n].1, KeySet(Asked(world, front)));
    }
  }

  /** The question of a row: its instrument and purchase date, if J is blank and L can be read. */
  predicate AsksFor(world: World, pair: Pair, date: int) {
    && world.refresh(pair.1).Ok? && CommissionIn(world, pair.0.values).Some?
    && IsBlank(Cell(pair.0.values, J_ACCRUED)) && DateIn(world, pair.0.values) == Some(date)
  }

  lemma AsksForMeaning(world: World, pair: Pair, key: Key)
    ensures key in RowKeys(world, pair.0, pair.1) <==> key.0 == pair.1 && AsksFor(world, pair, key.1)
  {
  }

  /** The row asks first for its instrument and date, and the exchange fails to answer. */
  ghost predicate HistoryFails(world: World, pairs: seq<Pair>, i: int, message: string)
    requires 0 <= i < |pairs|
  {
    exists date ::
      && AsksFor(world, pairs[i], date)
      && (forall k :: 0 <= k < i ==> !(pairs[k].1 == pairs[i].1 && AsksFor(world, pairs[k], date)))
      && var r := world.refresh(pairs[i].1).value;
         world.history(r.secid, r.board, date).HistoryFailed?
         && message == Clip(world.history(r.secid, r.board, date).message, 900)
  }

  ghost predicate CalculationFails(config: Config, world: World, pair: Pair, failure: EngineError) {
    && world.refresh(pair.1).Ok?
    && var r := world.refresh(pair.1).value;
       && EffectivePurchase(world, r, pair.0.values).Ok? && Quoted(config, r)
       && CurrentOf(config, world, r, EffectivePurchase(world, r, pair.0.values).value) == Err(failure)
  }

  ghost predicate RowFails(config: Config, world: World, pairs: seq<Pair>, i: int, e: RowError)
    requires 0 <= i < |pairs|
  {
    match e
    case HistoryRejected(number, isin, message) =>
      number == pairs[i].0.number && isin == pairs[i].1 && HistoryFails(world, pairs, i, message)
    case CalculationRejected(number, isin, failure) =>
      number == pairs[i].0.number && isin == pairs[i].1 && CalculationFails(config, world, pairs[i], failure)
    case _ => false
  }

  lemma AskedBefore(world: World, pairs: seq<Pair>, i: int, key: Key)
    requires 0 <= i < |pairs|
    ensures key in KeySet(Asked(world, pairs[..i]))
            <==> exists k :: 0 <= k < i && pairs[k].1 == key.0 && AsksFor(world, pairs[k], key.1)
  {
    hide AsksFor, RowKeys, Asked;
    AskedExactly(world, pairs[..i], key);
    forall k | 0 <= k < |pairs|
      ensures key in RowKeys(world, pairs[k].0, pairs[k].1) <==> key.0 == pairs[k].1 && AsksFor(world, pairs[k], key.1)
    {
      AsksForMeaning(world, pairs[k], key);
    }
    if pair :| pair in pairs[..i] && key in RowKeys(world, pair.0, pair.1) {
      var k :| 0 <= k < i && pairs[k] == pair;
    }
    if k :| 0 <= k < i && pairs[k].1 == key.0 && AsksFor(world, pairs[k], key.1) {
      assert pairs[k] in pairs[..i];
    }
  }

  lemma HistoryListed(world: World, pairs: seq<Pair>, i: int, e: RowError)
    requires 0 <= i < |pairs|
    ensures e in HistoryErrors(world, pairs[i].0, pairs[i].1, KeySet(Asked(world, pairs[..i])))
            <==> && e.HistoryRejected? && e.number == pairs[i].0.number && e.isin == pairs[i].1
                 && HistoryFails(world, pairs, i, e.message)
  {
    hide Asked, KeySet, Clip, CommissionIn, DateIn, AsksFor, AsksHistory;
    var keys := RowKeys(world, pairs[i].0, pairs[i].1);
    forall date
      ensures AsksFor(world, pairs[i], date) <==> (pairs[i].1, date) in keys
    {
      AsksForMeaning(world, pairs[i], (pairs[i].1, date));
    }
    if keys != [] {
      AskedBefore(world, pairs, i, keys[0]);
    }
  }

  lemma CalculationListed(config: Config, world: World, r: Refreshed, pair: Pair, e: RowError)
    requires world.refresh(pair.1) == Ok(r) && EffectivePurchase(world, r, pair.0.values).Ok?
    ensures var p := EffectivePurchase(world, r, pair.0.values).value;
            e in CalculationErrors(config, world, r, p, pair.0.number, pair.1)
            <==> && e.CalculationRejected? && e.number == pair.0.number && e.isin == pair.1
                 && CalculationFails(config, world, pair, e.failure)
  {
    hide EffectivePurchase, CurrentOf;
  }

  lemma RowListed(config: Config, world: World, pairs: seq<Pair>, i: int, e: RowError)
    requires 0 <= i < |pairs|
    ensures RowReports(config, world, pairs, i, e) <==> RowFails(config, world, pairs, i, e)
  {
    hide HistoryErrors, CalculationErrors, EffectivePurchase, HistoryFails, CurrentOf, Asked, KeySet;
    HistoryListed(world, pairs, i, e);
    match world.refresh(pairs[i].1)
    case Err(_) => NothingAsked(world, pairs, i);
    case Ok(r) =>
      if EffectivePurchase(world, r, pairs[i].0.values).Ok? {
        CalculationListed(config, world, r, pairs[i], e);
      }
  }

  lemma NothingAsked(world: World, pairs: seq<Pair>, i: int)
    requires 0 <= i < |pairs| && world.refresh(pairs[i].1).Err?
    ensures forall message :: !HistoryFails(world, pairs, i, message)
  {
  }

  /** A pass reports exactly: the rows whose ISIN is rejected, the instruments that could not be
      refreshed, the first row for each instrument and date whose history failed, and the rows that
      could not be calculated. */
  lemma ReportErrors(config: Config, world: World, rows: seq<Row>, e: RowError)
    ensures e in ReportOf(config, world, rows).errors
            <==> var pairs := AcceptedPairs(config, rows);
                 match e
                 case IsinRejected(number, raw, reason) =>
                   exists row :: && row in rows && Rejected(row, config) && number == row.number
                                 && raw == RawIsin(row, config) && IsinOf(row, config) == Err(reason)
                 case RefreshRejected(isin, message) =>
                   && (exists row :: row in rows && Accepted(row, config) && IsinOf(row, config) == Ok(isin))
                   && world.refresh(isin).Err? && message == Clip(world.refresh(isin).error, 1000)
                 case _ => exists i :: 0 <= i < |pairs| && RowFails(config, world, pairs, i, e)
  {
    hide IsinOf, RawIsin, HasIsin, Accepted, Rejected, RejectedErrors, RefreshErrors, MainErrors, RefreshList, RowFails,
      RowReports, WithIsin, CountRefreshed, AcceptedPairs, Clip;
    var pairs := AcceptedPairs(config, rows);
    RejectedListed(config, rows, e);
    RefusedListed(world, RefreshList(config, rows), e);
    MainListed(config, world, pairs, e);
    forall i | 0 <= i < |pairs|
      ensures RowReports(config, world, pairs, i, e) <==> RowFails(config, world, pairs, i, e)
      ensures RowFails(config, world, pairs, i, e) ==> e.HistoryRejected? || e.CalculationRejected?
    {
      RowListed(config, world, pairs, i, e);
      OnlyRowErrors(config, world, pairs, i, e);
    }
    if e.RefreshRejected? {
      EveryInstrumentOnce(config, rows, e.isin);
    }
  }

  lemma OnlyRowErrors(config: Config, world: World, pairs: seq<Pair>, i: int, e: RowError)
    requires 0 <= i < |pairs|
    ensures RowFails(config, world, pairs, i, e) ==> e.HistoryRejected? || e.CalculationRejected?
  {
  }
}
