/** What the cells of one row contain: every result is fresh, and the inputs are only filled
    where they are blank. */
module SheetSyncRows {
  import opened Prelude
  import opened Cells
  import opened YieldEngine
  import opened Rounding
  import opened SheetCalculations
  import opened SheetConnection
  import opened SheetSync

  /** The columns of the connection that a pass writes. */
  predicate OwnColumn(config: Config, c: Column) {
    || c == config.priceColumn
    || config.updatedAtColumn == Some(c)
    || config.statusColumn == Some(c)
  }

  /** The columns that every row with an accepted ISIN sets. */
  predicate OutputColumn(config: Config, c: Column) {
    OwnColumn(config, c) || CalculationColumn(c)
  }

  lemma NothingInEmpty()
    ensures forall k: Column :: At(EMPTY_DICT, k) == None
  {
  }

  /** The connection's own columns are disjoint from the fixed ones. */
  lemma NotReserved(config: Config)
    requires ValidConfig(config)
    ensures forall c: Column :: OwnColumn(config, c) ==> !Reserved(c) && c != config.isinColumn
  {
    assert UsedColumns(config)[0] == config.isinColumn && UsedColumns(config)[1] == config.priceColumn;
    assert config.updatedAtColumn.Some? ==> UsedColumns(config)[2] == config.updatedAtColumn.value;
    assert config.statusColumn.Some? ==> UsedColumns(config)[|UsedColumns(config)| - 1] == config.statusColumn.value;
  }

  lemma PriceColumnAlone(config: Config)
    requires ValidConfig(config)
    ensures OutputColumn(config, config.priceColumn) && !Reserved(config.priceColumn)
    ensures config.updatedAtColumn != Some(config.priceColumn) && config.statusColumn != Some(config.priceColumn)
  {
    assert config.priceColumn in UsedColumns(config);
    assert !Reserved(config.priceColumn);
    assert UsedColumns(config)[1] == config.priceColumn;
    assert config.updatedAtColumn.Some? ==> UsedColumns(config)[2] == config.updatedAtColumn.value;
    assert config.statusColumn.Some? ==> UsedColumns(config)[|UsedColumns(config)| - 1] == config.statusColumn.value;
  }

  predicate Shows(d: RowDict, status: RowStatus) {
    At(d, AL_STATUS) == Some(Value.Text(Label(status)))
  }

  predicate IsNum(v: Option<Value>) {
    v.Some? && v.value.Num?
  }

  /** All results are set: either the row is labelled as calculated and shows numbers, or it
      is not and shows nothing. */
  predicate FreshResults(d: RowDict) {
    && At(d, AD_ACCRUED).Some? && At(d, AE_COUNT).Some? && At(d, AF_COUPONS).Some?
    && At(d, AK_DELTA).Some? && At(d, AL_STATUS).Some?
    && if Shows(d, Calculated)
       then IsNum(At(d, AE_COUNT)) && IsNum(At(d, AF_COUPONS)) && IsNum(At(d, AG_EXIT)) && IsNum(At(d, AH_BEFORE))
            && IsNum(At(d, AI_AFTER)) && IsNum(At(d, AJ_ANNUAL))
       else At(d, AG_EXIT) == At(d, AH_BEFORE) == At(d, AI_AFTER) == At(d, AJ_ANNUAL) == At(d, AK_DELTA) == Some(Blank)
  }

  /** The results are blank so far. */
  predicate Cleared(d: RowDict) {
    && At(d, AD_ACCRUED).Some? && At(d, AE_COUNT).Some? && At(d, AF_COUPONS).Some?
    && At(d, AG_EXIT) == At(d, AH_BEFORE) == At(d, AI_AFTER) == At(d, AJ_ANNUAL) == At(d, AK_DELTA) == Some(Blank)
  }

  lemma StatusIsFresh(d: RowDict, status: RowStatus)
    requires Cleared(d) && status != Calculated
    ensures FreshResults(PutStatus(d, status)) && !Shows(PutStatus(d, status), Calculated)
  {
    hide At, Put, Label;
    LabelTellsCalculated(status);
  }

  lemma SummaryKeepsCleared(d: RowDict, count: nat, coupons: real)
    requires Cleared(d)
    ensures Cleared(PutSummary(d, count, coupons))
    ensures forall k: Column :: At(PutSummary(d, count, coupons), k) ==
              if k == AE_COUNT then Some(Num(count as real))
              else if k == AF_COUPONS then Some(Num(Money(coupons)))
              else At(d, k)
  {
    hide At, Put, Money;
  }

  lemma ResultIsFresh(d: RowDict, c: SheetCurrent)
    requires Cleared(d)
    ensures FreshResults(PutResult(d, c)) && Shows(PutResult(d, c), Calculated)
    ensures forall k: Column :: !CalculationColumn(k) ==> At(PutResult(d, c), k) == At(d, k)
  {
    hide At, Put, Money, Label, PutSummary;
    SummaryKeepsCleared(d, c.couponCount, c.coupons);
  }

  /** The keys that a calculation adds are calculation columns. */
  lemma PurchaseCellsFresh(config: Config, world: World, r: Refreshed, p: SheetPurchase, d: RowDict)
    requires p.quantity != 0.0 && Cleared(d)
    ensures FreshResults(PurchaseCells(config, world, r, p, d))
    ensures forall k: Column :: !CalculationColumn(k) ==> At(PurchaseCells(config, world, r, p, d), k) == At(d, k)
  {
    hide At, Put, Cleared, FreshResults, CalculateCurrent, SummarizePaidCoupons, PutResult, PutSummary, PutStatus;
    var date := world.localDate(QuoteTime(r.market));
    var summary := SummarizePaidCoupons(p.purchaseDate, date, p.quantity, r.cashflows);
    var summed := PutSummary(d, summary.0, summary.1);
    SummaryKeepsCleared(d, summary.0, summary.1);
    var price := MarketRubPrice(r.market, config.priceMode);
    if price.None? {
      StatusIsFresh(summed, if OfferMode(config.priceMode) then NoOffer else NoBid);
    } else if r.market.accrued.None? {
      StatusIsFresh(summed, NoCurrentAccrued);
    } else {
      match CalculateCurrent(p, date, price.value, r.market.accrued.value, r.cashflows)
      case Err(e) => StatusIsFresh(summed, CalculationFailed(e));
      case Ok(c) => ResultIsFresh(summed, c);
    }
  }

  lemma MarketCellsAt(config: Config, world: World, r: Refreshed, k: Column)
    requires ValidConfig(config)
    ensures At(MarketCells(config, world, r), k).Some?
            <==> k == AD_ACCRUED || OwnColumn(config, k)
    ensures At(MarketCells(config, world, r), config.priceColumn)
            == Some(SheetSync.Number(MarketPrice(r.market, config.priceMode)))
  {
    hide At, Put, PutOptional, MarketPrice, QuoteStatus;
    NothingInEmpty();
    NotReserved(config);
    PriceColumnAlone(config);
  }

  /** The row's own inputs that the pass completes. */
  predicate FillsCommission(world: World, isin: string, values: RowValues) {
    world.refresh(isin).Ok? && IsBlank(Cell(values, L_COMMISSION))
  }

  ghost predicate FillsAccrued(world: World, isin: string, values: RowValues) {
    world.refresh(isin).Ok? && HistoryOf(world, world.refresh(isin).value, values).Some?
  }

  lemma AccruedFilledOnlyWhereBlank(world: World, isin: string, values: RowValues)
    requires FillsAccrued(world, isin, values)
    ensures IsBlank(Cell(values, J_ACCRUED)) && AsksHistory(values, world)
  {
  }

  lemma FailedRowFresh(config: Config)
    requires ValidConfig(config)
    ensures FreshResults(FailedRow(config))
    ensures forall k: Column :: At(FailedRow(config), k).Some? <==> OutputColumn(config, k)
    ensures At(FailedRow(config), config.priceColumn) == Some(Blank)
  {
    hide At, Put, PutOptional, PutBlanks, Label;
    LabelTellsCalculated(RefreshFailed);
    NothingInEmpty();
    NotReserved(config);
    PriceColumnAlone(config);
    assert config.updatedAtColumn.Some? ==> OwnColumn(config, config.updatedAtColumn.value);
    assert config.statusColumn.Some? ==> OwnColumn(config, config.statusColumn.value);
    StatusIsFresh(PutBlanks(Put(Put(EMPTY_DICT, config.priceColumn, Blank), AD_ACCRUED, Blank)), RefreshFailed);
  }

  lemma RefreshedRowFresh(config: Config, world: World, r: Refreshed, values: RowValues)
    requires ValidConfig(config)
    ensures var d := RefreshedRow(config, world, r, values, HistoryOf(world, r, values));
            && FreshResults(d)
            && forall k: Column :: !CalculationColumn(k) ==>
                 At(d, k) ==
                 if k == L_COMMISSION && IsBlank(Cell(values, k)) then Some(Num(DEFAULT_COMMISSION))
                 else if k == J_ACCRUED && HistoryOf(world, r, values).Some?
                 then Some(Num(Money(HistoryOf(world, r, values).value)))
                 else At(MarketCells(config, world, r), k)
  {
    hide At, Put, PutBlanks, MarketCells, PurchaseCells, FreshResults, WithAccrued, WithCommission, PutStatus,
      ParsePurchase, ParseDecimal, ParseDate, Answer, Money, PurchaseAccrued;
    var answer := HistoryOf(world, r, values);
    var d := WithCommission(MarketCells(config, world, r), values);
    MarketCellsAt(config, world, r, AD_ACCRUED);
    if Commission(values, world).None? {
      StatusIsFresh(PutBlanks(d), BadCommission);
    } else {
      var blank := PutBlanks(WithAccrued(d, values, world, answer));
      match ParsePurchase(values, PurchaseAccrued(values, world, answer), Commission(values, world).value, world.parser)
      case Err(status) =>
        ParseNeverCalculated(values, PurchaseAccrued(values, world, answer), Commission(values, world).value,
                             world.parser);
        StatusIsFresh(blank, status);
      case Ok(p) => PurchaseCellsFresh(config, world, r, p, blank);
    }
  }

  lemma ParseNeverCalculated(values: RowValues, accrued: Option<real>, commission: real, parser: Parser)
    ensures ParsePurchase(values, accrued, commission, parser) != Err(Calculated)
  {
  }

  /** On every branch a row with an accepted ISIN sets the price, the time and status columns
      and all of AD to AL; it adds L exactly if it was blank, and J exactly if it was blank
      and the exchange knew the accrued interest of the purchase date; nothing else. */
  lemma RowCellsFresh(config: Config, world: World, isin: string, values: RowValues)
    requires ValidConfig(config)
    ensures FreshResults(RowCells(config, world, isin, values))
    ensures forall k: Column :: At(RowCells(config, world, isin, values), k).Some? <==>
              || OutputColumn(config, k)
              || (k == L_COMMISSION && FillsCommission(world, isin, values))
              || (k == J_ACCRUED && FillsAccrued(world, isin, values))
    ensures FillsCommission(world, isin, values) ==>
              At(RowCells(config, world, isin, values), L_COMMISSION) == Some(Num(DEFAULT_COMMISSION))
    ensures FillsAccrued(world, isin, values) ==>
              At(RowCells(config, world, isin, values), J_ACCRUED)
              == Some(Num(Money(HistoryOf(world, world.refresh(isin).value, values).value)))
  {
    hide At, FreshResults, FailedRow, RefreshedRow, MarketCells, HistoryOf, Money;
    FailedRowFresh(config);
    match world.refresh(isin)
    case Err(_) =>
    case Ok(r) =>
      RefreshedRowFresh(config, world, r, values);
      forall k: Column
        ensures At(MarketCells(config, world, r), k).Some?
                <==> k == AD_ACCRUED || OwnColumn(config, k)
      {
        MarketCellsAt(config, world, r, k);
      }
      ResultsPresent(RefreshedRow(config, world, r, values, HistoryOf(world, r, values)));
      NotReserved(config);
  }

  lemma ResultsPresent(d: RowDict)
    requires FreshResults(d)
    ensures forall k: Column :: CalculationColumn(k) ==> At(d, k).Some?
  {
    hide At, Label;
    forall k: Column | CalculationColumn(k)
      ensures At(d, k).Some?
    {
      assert k == AD_ACCRUED || k == AE_COUNT || k == AF_COUPONS || k == AG_EXIT || k == AH_BEFORE
        || k == AI_AFTER || k == AJ_ANNUAL || k == AK_DELTA || k == AL_STATUS;
    }
  }

  // ---------- What a calculated row shows ----------

  predicate ShowsResult(d: RowDict, c: SheetCurrent) {
    && At(d, AE_COUNT) == Some(Num(c.couponCount as real))
    && At(d, AF_COUPONS) == Some(Num(Money(c.coupons)))
    && At(d, AG_EXIT) == Some(Num(Money(c.exitTotal)))
    && At(d, AH_BEFORE) == Some(Num(Money(c.profitBeforeTax)))
    && At(d, AI_AFTER) == Some(Num(Money(c.profitAfterTax)))
    && At(d, AJ_ANNUAL) == Some(Num(Money(c.annualAfterTax)))
    && At(d, AK_DELTA) == Some(Rounded(c.planDelta))
  }

  lemma ResultShown(d: RowDict, c: SheetCurrent)
    requires Cleared(d)
    ensures ShowsResult(PutResult(d, c), c) && Shows(PutResult(d, c), Calculated)
  {
    hide At, Put, Money, Label, PutSummary, Rounded;
    SummaryKeepsCleared(d, c.couponCount, c.coupons);
  }

  /** The exchange quotes the chosen side and the accrued interest. */
  predicate Quoted(config: Config, r: Refreshed) {
    MarketRubPrice(r.market, config.priceMode).Some? && r.market.accrued.Some?
  }

  ghost function CurrentOf(config: Config, world: World, r: Refreshed, p: SheetPurchase): Result<SheetCurrent,
      EngineError>
    requires p.quantity != 0.0 && Quoted(config, r)
  {
    CalculateCurrent(p, world.localDate(QuoteTime(r.market)), MarketRubPrice(r.market, config.priceMode).value,
                     r.market.accrued.value, r.cashflows)
  }

  lemma PurchaseCellsMeaning(config: Config, world: World, r: Refreshed, p: SheetPurchase, d: RowDict)
    requires p.quantity != 0.0 && Cleared(d)
    ensures Shows(PurchaseCells(config, world, r, p, d), Calculated)
            <==> Quoted(config, r) && CurrentOf(config, world, r, p).Ok?
    ensures Quoted(config, r) && CurrentOf(config, world, r, p).Ok? ==>
              ShowsResult(PurchaseCells(config, world, r, p, d), CurrentOf(config, world, r, p).value)
  {
    hide At, Put, Cleared, FreshResults, CalculateCurrent, SummarizePaidCoupons, PutSummary, PutStatus, Shows,
      ShowsResult,
      PutResult, Money;
    var date := world.localDate(QuoteTime(r.market));
    var summary := SummarizePaidCoupons(p.purchaseDate, date, p.quantity, r.cashflows);
    var summed := PutSummary(d, summary.0, summary.1);
    SummaryKeepsCleared(d, summary.0, summary.1);
    var price := MarketRubPrice(r.market, config.priceMode);
    if price.None? {
      StatusIsFresh(summed, if OfferMode(config.priceMode) then NoOffer else NoBid);
    } else if r.market.accrued.None? {
      StatusIsFresh(summed, NoCurrentAccrued);
    } else {
      match CalculateCurrent(p, date, price.value, r.market.accrued.value, r.cashflows)
      case Err(e) => StatusIsFresh(summed, CalculationFailed(e));
      case Ok(c) => ResultShown(summed, c);
    }
  }

  /** The purchase that a row describes, with the inputs that the pass completes. */
  function EffectivePurchase(world: World, r: Refreshed, values: RowValues): (p: Result<SheetPurchase, RowStatus>)
    ensures p.Ok? ==> p.value.quantity > 0.0
  {
    match Commission(values, world)
    case None => Err(BadCommission)
    case Some(commission) =>
      ParsePurchase(values, PurchaseAccrued(values, world, HistoryOf(world, r, values)), commission, world.parser)
  }

  lemma RefreshedRowMeaning(config: Config, world: World, r: Refreshed, values: RowValues)
    requires ValidConfig(config)
    ensures var cells := RefreshedRow(config, world, r, values, HistoryOf(world, r, values));
            var p := EffectivePurchase(world, r, values);
            && (Shows(cells, Calculated) <==> p.Ok? && Quoted(config, r) && CurrentOf(config, world, r, p.value).Ok?)
            && (Shows(cells, Calculated) ==> ShowsResult(cells, CurrentOf(config, world, r, p.value).value))
  {
    hide At, Put, PutBlanks, MarketCells, PurchaseCells, FreshResults, WithAccrued, WithCommission, PutStatus,
      ParsePurchase, ParseDecimal, ParseDate, Answer, PurchaseAccrued, Shows, ShowsResult, CurrentOf, HistoryOf,
      Commission,
      Quoted;
    var answer := HistoryOf(world, r, values);
    var d := WithCommission(MarketCells(config, world, r), values);
    MarketCellsAt(config, world, r, AD_ACCRUED);
    if Commission(values, world).None? {
      StatusIsFresh(PutBlanks(d), BadCommission);
    } else {
      var commission := Commission(values, world).value;
      var accrued := PurchaseAccrued(values, world, answer);
      var blank := PutBlanks(WithAccrued(d, values, world, answer));
      match ParsePurchase(values, accrued, commission, world.parser)
      case Err(status) =>
        ParseNeverCalculated(values, accrued, commission, world.parser);
        StatusIsFresh(blank, status);
      case Ok(p) => PurchaseCellsMeaning(config, world, r, p, blank);
    }
  }

  lemma FailedRowNotCalculated(config: Config)
    requires ValidConfig(config)
    ensures !Shows(FailedRow(config), Calculated)
  {
    hide At, Put, PutOptional, PutBlanks, Label;
    LabelTellsCalculated(RefreshFailed);
    NotReserved(config);
    assert config.updatedAtColumn.Some? ==> OwnColumn(config, config.updatedAtColumn.value);
    assert config.statusColumn.Some? ==> OwnColumn(config, config.statusColumn.value);
  }

  /** Everything a calculated row needs. */
  ghost predicate RowCalculable(config: Config, world: World, isin: string, values: RowValues) {
    && world.refresh(isin).Ok?
    && var r := world.refresh(isin).value;
    && EffectivePurchase(world, r, values).Ok? && Quoted(config, r)
    && Calculable(EffectivePurchase(world, r, values).value, world.localDate(QuoteTime(r.market)),
                  MarketRubPrice(r.market, config.priceMode).value, r.market.accrued.value, r.cashflows)
  }

  /** A row is labelled as calculated exactly when its instrument was refreshed, the purchase
      can be read, the chosen side and the accrued interest are quoted and the figures exist.
      It then shows the reference figures, rounded. */
  lemma CalculatedRowMeaning(config: Config, world: World, isin: string, values: RowValues)
    requires ValidConfig(config)
    requires world.refresh(isin).Ok? ==> DistinctIdentities(world.refresh(isin).value.cashflows)
    ensures Shows(RowCells(config, world, isin, values), Calculated) <==> RowCalculable(config, world, isin, values)
    ensures RowCalculable(config, world, isin, values) ==>
              var r := world.refresh(isin).value;
              ShowsResult(
                RowCells(config, world, isin, values),
                ReferenceCurrent(EffectivePurchase(world, r, values).value, world.localDate(QuoteTime(r.market)),
                                 MarketRubPrice(r.market, config.priceMode).value, r.market.accrued.value, r.cashflows))
  {
    hide At, RefreshedRow, FailedRow, CalculateCurrent, EffectivePurchase, Shows, ShowsResult, HistoryOf,
      MarketRubPrice,
      Calculable, DistinctIdentities, ReferenceCurrent;
    FailedRowNotCalculated(config);
    match world.refresh(isin)
    case Err(_) =>
    case Ok(r) =>
      RefreshedRowMeaning(config, world, r, values);
      if EffectivePurchase(world, r, values).Ok? && Quoted(config, r) {
        CurrentMeaning(EffectivePurchase(world, r, values).value, world.localDate(QuoteTime(r.market)),
                       MarketRubPrice(r.market, config.priceMode).value, r.market.accrued.value, r.cashflows);
      }
  }
}
