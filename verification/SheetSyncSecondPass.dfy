/** What the second pass can change: exactly the results that the rounding of a historical
    accrued interest changes. */
module SheetSyncSecondPass {
  import opened Prelude
  import opened Cells
  import opened Rounding
  import opened SheetCalculations
  import opened SheetConnection
  import opened SheetGateway
  import opened SheetSync
  import opened SheetSyncRows
  import opened SheetSyncBatch
  import opened SheetSyncConvergence
  import Isin

  // ---------- The results depend only on the purchase ----------

  /** Two dictionaries agree on the result columns of the connection. */
  ghost predicate SameResults(config: Config, a: RowDict, b: RowDict) {
    forall c: Column :: OutputColumn(config, c) ==> At(a, c) == At(b, c)
  }

  lemma SameStatus(config: Config, a: RowDict, b: RowDict, status: RowStatus)
    requires SameResults(config, a, b)
    ensures SameResults(config, PutStatus(a, status), PutStatus(b, status))
  {
    hide At, Put, Label, OutputColumn;
  }

  lemma SameSummary(config: Config, a: RowDict, b: RowDict, count: nat, coupons: real)
    requires SameResults(config, a, b)
    ensures SameResults(config, PutSummary(a, count, coupons), PutSummary(b, count, coupons))
  {
    hide At, Put, Money, OutputColumn;
  }

  lemma SameResult(config: Config, a: RowDict, b: RowDict, c: SheetCurrent)
    requires SameResults(config, a, b)
    ensures SameResults(config, PutResult(a, c), PutResult(b, c))
  {
    hide At, Put, Money, Label, OutputColumn, Rounded;
  }

  lemma SameResultsFrom(config: Config, world: World, r: Refreshed, p: SheetPurchase, a: RowDict, b: RowDict)
    requires p.quantity != 0.0 && SameResults(config, a, b)
    ensures SameResults(config, PurchaseCells(config, world, r, p, a), PurchaseCells(config, world, r, p, b))
  {
    hide SameResults, PutSummary, PutResult, PutStatus, CalculateCurrent, SummarizePaidCoupons;
    var date := world.localDate(QuoteTime(r.market));
    var summary := SummarizePaidCoupons(p.purchaseDate, date, p.quantity, r.cashflows);
    SameSummary(config, a, b, summary.0, summary.1);
    var x, y := PutSummary(a, summary.0, summary.1), PutSummary(b, summary.0, summary.1);
    var price := MarketRubPrice(r.market, config.priceMode);
    if price.None? {
      SameStatus(config, x, y, if OfferMode(config.priceMode) then NoOffer else NoBid);
    } else if r.market.accrued.None? {
      SameStatus(config, x, y, NoCurrentAccrued);
    } else {
      match CalculateCurrent(p, date, price.value, r.market.accrued.value, r.cashflows)
      case Err(e) => SameStatus(config, x, y, CalculationFailed(e));
      case Ok(c) => SameResult(config, x, y, c);
    }
  }

  /** The calculations of two purchases come to the same. */
  ghost predicate SameCalculation(config: Config, world: World, r: Refreshed, p: SheetPurchase, q: SheetPurchase) {
    && p.quantity == q.quantity != 0.0 && p.purchaseDate == q.purchaseDate
    && (Quoted(config, r) ==> CurrentOf(config, world, r, p) == CurrentOf(config, world, r, q))
  }

  lemma SameCalculationCells(config: Config, world: World, r: Refreshed, p: SheetPurchase, q: SheetPurchase, d: RowDict)
    requires SameCalculation(config, world, r, p, q)
    ensures PurchaseCells(config, world, r, p, d) == PurchaseCells(config, world, r, q, d)
  {
    hide CalculateCurrent, SummarizePaidCoupons, PutSummary, PutResult, PutStatus;
  }

  ghost predicate SamePurchase(
    config: Config, world: World, r: Refreshed, p: Result<SheetPurchase, RowStatus>,
    q: Result<SheetPurchase, RowStatus>)
  {
    p == q || (p.Ok? && q.Ok? && SameCalculation(config, world, r, p.value, q.value))
  }

  lemma SameStart(config: Config, world: World, r: Refreshed, v: RowValues, w: RowValues, av: Option<real>,
      aw: Option<real>)
    requires ValidConfig(config)
    ensures var a := PutBlanks(WithAccrued(WithCommission(MarketCells(config, world, r), v), v, world, av));
            var b := PutBlanks(WithAccrued(WithCommission(MarketCells(config, world, r), w), w, world, aw));
            SameResults(config, a, b)
    ensures SameResults(config, PutBlanks(WithCommission(MarketCells(config, world, r), v)),
                        PutBlanks(WithAccrued(WithCommission(MarketCells(config, world, r), w), w, world, aw)))
    ensures SameResults(config, PutBlanks(WithCommission(MarketCells(config, world, r), v)),
                        PutBlanks(WithCommission(MarketCells(config, world, r), w)))
  {
    hide At, Put, Money, MarketCells, AsksHistory, PutBlanks, WithAccrued, WithCommission;
    RequestedNotWritten(config, L_COMMISSION);
    RequestedNotWritten(config, J_ACCRUED);
  }

  /** What a row shows after the purchase is known. */
  lemma ResultsOfPurchase(config: Config, world: World, r: Refreshed, v: RowValues, w: RowValues)
    requires ValidConfig(config)
    requires SamePurchase(config, world, r, EffectivePurchase(world, r, v), EffectivePurchase(world, r, w))
    ensures SameResults(config, RefreshedRow(config, world, r, v, HistoryOf(world, r, v)),
                        RefreshedRow(config, world, r, w, HistoryOf(world, r, w)))
  {
    hide At, Put, PutBlanks, PutStatus, WithAccrued, WithCommission, MarketCells, PurchaseCells, SameResults,
      ParsePurchase,
      HistoryOf, AsksHistory, ParseDecimal, PurchaseAccrued, Commission, SameCalculation;
    var av, aw := HistoryOf(world, r, v), HistoryOf(world, r, w);
    SameStart(config, world, r, v, w, av, aw);
    SameStart(config, world, r, w, v, aw, av);
    var m := MarketCells(config, world, r);
    var a := PutBlanks(WithAccrued(WithCommission(m, v), v, world, av));
    var b := PutBlanks(WithAccrued(WithCommission(m, w), w, world, aw));
    var a0, b0 := PutBlanks(WithCommission(m, v)), PutBlanks(WithCommission(m, w));
    match EffectivePurchase(world, r, v)
    case Ok(p) =>
      SameResultsFrom(config, world, r, p, a, b);
      if EffectivePurchase(world, r, v) != EffectivePurchase(world, r, w) {
        SameCalculationCells(config, world, r, p, EffectivePurchase(world, r, w).value, b);
      }
    case Err(status) =>
      SameStatus(config, a, b, status);
      SameStatus(config, a0, b0, status);
      SameStatus(config, a0, b, status);
      SameResultsSymmetric(config, b0, a);
      SameStatus(config, a, b0, status);
  }

  lemma SameItself(config: Config, world: World, r: Refreshed, p: Result<SheetPurchase, RowStatus>)
    ensures SamePurchase(config, world, r, p, p)
  {
  }

  lemma SameResultsSymmetric(config: Config, a: RowDict, b: RowDict)
    requires SameResults(config, a, b)
    ensures SameResults(config, b, a)
  {
  }

  // ---------- The purchase after the fill ----------

  /** The purchase of a row if its accrued interest is `accrued`. */
  function PurchaseWith(world: World, values: RowValues, accrued: Option<real>): Result<SheetPurchase, RowStatus> {
    match Commission(values, world)
    case None => Err(BadCommission)
    case Some(commission) => ParsePurchase(values, accrued, commission, world.parser)
  }

  /** The second pass computes with the rounded accrued interest that the first one wrote. */
  lemma FilledPurchase(world: World, isin: string, values: RowValues)
    requires world.refresh(isin).Ok?
    ensures var r := world.refresh(isin).value;
            var filled := FilledValues(world, isin, values);
            && (FillsAccrued(world, isin, values) ==>
                  && EffectivePurchase(world, r, values) == PurchaseWith(world, values, HistoryOf(world, r, values))
                  && EffectivePurchase(world, r, filled)
                     == PurchaseWith(world, values, Some(Money(HistoryOf(world, r, values).value))))
            && (!FillsAccrued(world, isin, values) ==>
                  EffectivePurchase(world, r, filled) == EffectivePurchase(world, r, values))
  {
    hide FilledValues, Money, Commission;
    FilledCells(world, isin, values);
    FilledIsSettled(world, isin, values);
  }

  // ---------- When the second pass changes nothing ----------

  /** The row shows the same results when its filled inputs are read back. */
  ghost predicate Stable(config: Config, world: World, row: Row) {
    Accepted(row, config) ==>
      Accepted(Filled(config, world, row), config)
      && SameResults(config, CellsOf(config, world, Filled(config, world, row)), CellsOf(config, world, row))
  }

  ghost function FilledAccrued(world: World, isin: string, values: RowValues): real
    requires FillsAccrued(world, isin, values)
  {
    HistoryOf(world, world.refresh(isin).value, values).value
  }

  /** A row is stable when its purchase comes to the same with the rounded accrued interest. */
  lemma StableWhenSame(config: Config, world: World, row: Row)
    requires ValidConfig(config) && Accepted(row, config)
    requires var isin := IsinOf(row, config).value;
             FillsAccrued(world, isin, row.values) ==>
               SamePurchase(config, world, world.refresh(isin).value,
                            PurchaseWith(world, row.values, Some(Money(FilledAccrued(world, isin, row.values)))),
                            PurchaseWith(world, row.values, Some(FilledAccrued(world, isin, row.values))))
    ensures Stable(config, world, row)
  {
    hide HistoryOf, Money, EffectivePurchase, FilledValues, SameResults, RefreshedRow, FailedRow, PurchaseWith,
      FillsAccrued, Isin.NormalizeIsin, SameCalculation;
    SameIsin(config, world, row);
    var isin := IsinOf(row, config).value;
    match world.refresh(isin)
    case Err(_) => SameDict(config, FailedRow(config));
    case Ok(r) =>
      FilledPurchase(world, isin, row.values);
      if FillsAccrued(world, isin, row.values) {
        FilledAnswer(world, isin, row.values);
      }
      ResultsOfPurchase(config, world, r, FilledValues(world, isin, row.values), row.values);
  }

  lemma FilledAnswer(world: World, isin: string, values: RowValues)
    requires FillsAccrued(world, isin, values)
    ensures world.refresh(isin).Ok? && HistoryOf(world, world.refresh(isin).value, values).Some?
  {
  }

  lemma SameDict(config: Config, d: RowDict)
    ensures SameResults(config, d, d)
  {
  }

  lemma {:induction false} SameMarks(config: Config, world: World, all: seq<Row>, rows: seq<Row>)
    requires ValidConfig(config)
    requires forall n :: NumberAccepted(n, FilledRows(config, world, all), config) == NumberAccepted(n, all, config)
    ensures InvalidMarks(config, FilledRows(config, world, all), FilledRows(config, world, rows))
            == InvalidMarks(config, all, rows)
  {
    hide Filled, NumberAccepted, Rejected, InvalidUpdates;
    if rows != [] {
      var front, last := rows[..|rows| - 1], rows[|rows| - 1];
      SameMarks(config, world, all, front);
      assert FilledRows(config, world, rows)[..|rows| - 1] == FilledRows(config, world, front);
      SameIsin(config, world, last);
      FilledNumber(config, world, last);
    }
  }

  lemma SameNumbersAccepted(config: Config, world: World, rows: seq<Row>, n: int)
    requires ValidConfig(config)
    ensures NumberAccepted(n, FilledRows(config, world, rows), config) == NumberAccepted(n, rows, config)
  {
    hide Filled, Accepted;
    var filled := FilledRows(config, world, rows);
    forall i | 0 <= i < |rows|
      ensures filled[i].number == rows[i].number && Accepted(filled[i], config) == Accepted(rows[i], config)
    {
      SameIsin(config, world, rows[i]);
      FilledNumber(config, world, rows[i]);
    }
    if NumberAccepted(n, rows, config) {
      var i :| 0 <= i < |rows| && rows[i].number == n && Accepted(rows[i], config);
      assert filled[i].number == n && Accepted(filled[i], config);
    }
  }

  /** Header and marks are the same in both passes. */
  lemma SameFixedParts(config: Config, world: World, rows: seq<Row>)
    requires ValidConfig(config)
    ensures InvalidMarks(config, FilledRows(config, world, rows), FilledRows(config, world, rows))
            == InvalidMarks(config, rows, rows)
  {
    hide NumberAccepted, FilledRows, InvalidMarks;
    forall n
      ensures NumberAccepted(n, FilledRows(config, world, rows), config) == NumberAccepted(n, rows, config)
    {
      SameNumbersAccepted(config, world, rows, n);
    }
    SameMarks(config, world, rows, rows);
  }

  lemma SecondPassCell(config: Config, world: World, s0: Sheet, s1: Sheet, s2: Sheet, rows: seq<Row>, k: Address)
    requires ValidConfig(config) && ReadsRows(config, s0, rows)
    requires s1 == ApplyBatch(s0, NaiveBatch(config, world, rows))
    requires s2 == ApplyBatch(s1, NaiveBatch(config, world, FilledRows(config, world, rows)))
    requires forall i :: 0 <= i < |rows| ==> Stable(config, world, rows[i])
    ensures SameCell(s1, s2, k)
  {
    hide ApplyBatch, Requested, FilledRows, Stable, DataRows, Writes, RowWrites, MarkWrites, MainUpdates, InvalidMarks,
      HeaderUpdates, SameCell, IsReading;
    var filled := FilledRows(config, world, rows);
    NextReading(config, world, s0, rows);
    ReadRowsAreData(config, s0, rows);
    ReadRowsAreData(config, s1, filled);
    SameFixedParts(config, world, rows);
    var header, marks := HeaderUpdates(config), InvalidMarks(config, rows, rows);
    if !Writes(NaiveBatch(config, world, filled), k) {
      Unwritten(s1, NaiveBatch(config, world, filled), k);
      SameFrom(s1, s2, k);
    } else if Writes(header, k) || Writes(marks, k) {
      FixedWrite(config, world, s0, s1, s2, rows, k);
    } else {
      BatchWrites(config, world, filled, k);
      HeaderWrites(config, k);
      MarksWrites(config, filled, filled, k);
      MainWriteStable(config, world, s0, s1, s2, rows, k);
    }
  }

  lemma SameFrom(a: Sheet, b: Sheet, k: Address)
    requires (k in b <==> k in a) && (k in a ==> b[k] == a[k])
    ensures SameCell(a, b, k)
  {
  }

  lemma FixedWrite(config: Config, world: World, s0: Sheet, s1: Sheet, s2: Sheet, rows: seq<Row>, k: Address)
    requires ValidConfig(config) && DataRows(config, rows) && DataRows(config, FilledRows(config, world, rows))
    requires s1 == ApplyBatch(s0, NaiveBatch(config, world, rows))
    requires s2 == ApplyBatch(s1, NaiveBatch(config, world, FilledRows(config, world, rows)))
    requires Writes(HeaderUpdates(config), k) || Writes(InvalidMarks(config, rows, rows), k)
    ensures SameCell(s1, s2, k)
  {
    hide ApplyBatch, FilledRows, DataRows, MainUpdates, InvalidMarks, HeaderUpdates, DistinctCells;
    var filled := FilledRows(config, world, rows);
    SameFixedParts(config, world, rows);
    NoDoubleWrites(config, world, rows);
    NoDoubleWrites(config, world, filled);
    var u :| (u in HeaderUpdates(config) || u in InvalidMarks(config, rows, rows)) && AddressOf(u) == k;
    Written(s0, NaiveBatch(config, world, rows), u);
    Written(s1, NaiveBatch(config, world, filled), u);
  }

  lemma MainWriteStable(config: Config, world: World, s0: Sheet, s1: Sheet, s2: Sheet, rows: seq<Row>, k: Address)
    requires ValidConfig(config) && DataRows(config, rows) && DataRows(config, FilledRows(config, world, rows))
    requires s1 == ApplyBatch(s0, NaiveBatch(config, world, rows))
    requires s2 == ApplyBatch(s1, NaiveBatch(config, world, FilledRows(config, world, rows)))
    requires forall i :: 0 <= i < |rows| ==> Stable(config, world, rows[i])
    requires exists i :: 0 <= i < |rows| && RowWrites(config, world, FilledRows(config, world, rows)[i], k)
    ensures SameCell(s1, s2, k)
  {
    hide ApplyBatch, DataRows, NaiveBatch, At, Filled, OutputColumn, Accepted, CellsOf;
    var filled := FilledRows(config, world, rows);
    var i :| 0 <= i < |rows| && RowWrites(config, world, filled[i], k);
    assert filled[i] == Filled(config, world, rows[i]);
    SameIsin(config, world, rows[i]);
    FilledNumber(config, world, rows[i]);
    FilledWritesResults(config, world, rows[i], k.1);
    assert Stable(config, world, rows[i]);
    SheetShowsRowCells(config, world, s0, rows, i, k.1);
    SheetShowsRowCells(config, world, s1, filled, i, k.1);
  }

  /** The second pass writes result columns only. */
  lemma FilledWritesResults(config: Config, world: World, row: Row, c: Column)
    requires ValidConfig(config) && Accepted(row, config) && Accepted(Filled(config, world, row), config)
    requires At(CellsOf(config, world, Filled(config, world, row)), c).Some?
    ensures OutputColumn(config, c)
  {
    hide At, RowCells, FilledValues, FillsAccrued, FillsCommission, OutputColumn, Isin.NormalizeIsin;
    var isin := IsinOf(row, config).value;
    SameIsin(config, world, row);
    FilledIsSettled(world, isin, row.values);
    RowCellsFresh(config, world, isin, FilledValues(world, isin, row.values));
  }

  /** The second pass leaves the sheet as it is exactly when every row is stable. */
  lemma SecondPassChangesNothingIffStable(config: Config, world: World, s0: Sheet, s1: Sheet, s2: Sheet, rows: seq<Row>)
    requires ValidConfig(config) && ReadsRows(config, s0, rows)
    requires Syncs(config, world, s0, s1) && Syncs(config, world, s1, s2)
    ensures s2 == s1 <==> forall i :: 0 <= i < |rows| ==> Stable(config, world, rows[i])
  {
    hide NaiveBatch, ApplyBatch, Requested, IsReading, FilledRows, Syncs, Stable, DataRows;
    var filled := FilledRows(config, world, rows);
    PassOver(config, world, s0, s1, rows);
    PassOver(config, world, s1, s2, filled);
    if forall i :: 0 <= i < |rows| ==> Stable(config, world, rows[i]) {
      forall k: Address
        ensures SameCell(s1, s2, k)
      {
        SecondPassCell(config, world, s0, s1, s2, rows, k);
      }
      SameEverywhere(s1, s2);
    }
    if s2 == s1 {
      forall i | 0 <= i < |rows|
        ensures Stable(config, world, rows[i])
      {
        UnchangedIsStable(config, world, s0, s1, rows, i);
      }
    }
  }

  lemma SameEverywhere(a: Sheet, b: Sheet)
    requires forall k: Address :: SameCell(a, b, k)
    ensures b == a
  {
    assert forall k: Address :: k in a <==> k in b by {
      forall k: Address
        ensures k in a <==> k in b
      {
        assert SameCell(a, b, k);
      }
    }
    assert forall k: Address :: k in a ==> a[k] == b[k] by {
      forall k: Address | k in a
        ensures a[k] == b[k]
      {
        assert SameCell(a, b, k);
      }
    }
  }

  lemma UnchangedIsStable(config: Config, world: World, s0: Sheet, s1: Sheet, rows: seq<Row>, i: int)
    requires ValidConfig(config) && ReadsRows(config, s0, rows) && 0 <= i < |rows|
    requires s1 == ApplyBatch(s0, NaiveBatch(config, world, rows))
    requires s1 == ApplyBatch(s1, NaiveBatch(config, world, FilledRows(config, world, rows)))
    ensures Stable(config, world, rows[i])
  {
    hide ApplyBatch, DataRows, NaiveBatch, At, Filled, OutputColumn, Accepted, CellsOf, Requested, IsReading;
    var filled := FilledRows(config, world, rows);
    NextReading(config, world, s0, rows);
    ReadRowsAreData(config, s0, rows);
    ReadRowsAreData(config, s1, filled);
    assert filled[i] == Filled(config, world, rows[i]);
    SameIsin(config, world, rows[i]);
    FilledNumber(config, world, rows[i]);
    if Accepted(rows[i], config) {
      forall c: Column | OutputColumn(config, c)
        ensures At(CellsOf(config, world, filled[i]), c) == At(CellsOf(config, world, rows[i]), c)
      {
        CellsOfFresh(config, world, rows[i]);
        CellsOfFresh(config, world, filled[i]);
        SheetShowsRowCells(config, world, s0, rows, i, c);
        SheetShowsRowCells(config, world, s1, filled, i, c);
      }
    }
  }

  /** When every accrued interest that is filled in has two decimals, one pass is enough. */
  lemma SecondPassChangesNothingOnCents(config: Config, world: World, s0: Sheet, s1: Sheet, s2: Sheet, rows: seq<Row>)
    requires ValidConfig(config) && ReadsRows(config, s0, rows)
    requires Syncs(config, world, s0, s1) && Syncs(config, world, s1, s2)
    requires forall row :: && row in rows && Accepted(row, config)
                           && FillsAccrued(world, IsinOf(row, config).value, row.values) ==>
               IsCents(FilledAccrued(world, IsinOf(row, config).value, row.values))
    ensures s2 == s1
  {
    hide Syncs, ReadsRows, FillsAccrued, IsinOf, FilledAccrued, IsCents, SamePurchase, PurchaseWith, Money;
    forall i | 0 <= i < |rows|
      ensures Stable(config, world, rows[i])
    {
      assert rows[i] in rows;
      if Accepted(rows[i], config) {
        AcceptedIsin(config, rows[i]);
        var isin := IsinOf(rows[i], config).value;
        if FillsAccrued(world, isin, rows[i].values) {
          FilledAnswer(world, isin, rows[i].values);
          MoneyFixes(FilledAccrued(world, isin, rows[i].values));
          SameItself(config, world, world.refresh(isin).value, PurchaseWith(world, rows[i].values,
              Some(FilledAccrued(world, isin, rows[i].values))));
        }
        StableWhenSame(config, world, rows[i]);
      }
    }
    SecondPassChangesNothingIffStable(config, world, s0, s1, s2, rows);
  }
}
