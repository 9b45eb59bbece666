/** What a refreshed row shows of the market, in the fields of the quotes: the price of each mode,
    the accrued interest, the time and the status. */
module SheetSyncMarket {
  import opened Prelude
  import opened Cells
  import opened Rounding
  import opened SheetCalculations
  import opened SheetConnection
  import opened SheetSync
  import opened SheetSyncRows

  predicate ShowsQuote(cell: Option<Value>, quote: Option<real>) {
    match quote
    case Some(n) => cell == Some(Num(n))
    case None => cell == Some(Blank)
  }

  predicate BidMode(mode: PriceMode) {
    mode in {BestBidPercent, BestBidCleanRub, BestBidFullRub}
  }

  /** The rouble quote of the side that the mode looks at. */
  function SideRub(m: Market, mode: PriceMode): Option<real> {
    if BidMode(mode) then m.bidRub else m.offerRub
  }

  /** The calculation leaves the current accrued interest alone. */
  lemma PurchaseKeepsAccrued(config: Config, world: World, r: Refreshed, p: SheetPurchase, d: RowDict)
    requires p.quantity != 0.0
    ensures At(PurchaseCells(config, world, r, p, d), AD_ACCRUED) == At(d, AD_ACCRUED)
  {
    hide At, Put, Money, Label, CalculateCurrent, SummarizePaidCoupons, Rounded;
  }

  lemma AccruedKept(config: Config, world: World, r: Refreshed, values: RowValues, answer: Option<real>)
    ensures At(RefreshedRow(config, world, r, values, answer), AD_ACCRUED)
            == At(MarketCells(config, world, r), AD_ACCRUED)
  {
    hide At, Put, MarketCells, PurchaseCells, PutBlanks, WithAccrued, WithCommission, PutStatus, ParsePurchase,
      Commission, PurchaseAccrued;
    var d := WithCommission(MarketCells(config, world, r), values);
    if Commission(values, world).Some? {
      var blank := PutBlanks(WithAccrued(d, values, world, answer));
      match ParsePurchase(values, PurchaseAccrued(values, world, answer), Commission(values, world).value, world.parser)
      case Err(_) =>
      case Ok(p) => PurchaseKeepsAccrued(config, world, r, p, blank);
    }
  }

  /** The cells of the row that do not depend on its purchase. */
  lemma MarketCellShown(config: Config, world: World, isin: string, values: RowValues, k: Column)
    requires ValidConfig(config) && world.refresh(isin).Ok? && (k == AD_ACCRUED || OwnColumn(config, k))
    ensures At(RowCells(config, world, isin, values), k) == At(MarketCells(config, world, world.refresh(isin).value), k)
  {
    hide At, RefreshedRow, MarketCells, FreshResults, HistoryOf;
    NotReserved(config);
    var r := world.refresh(isin).value;
    RefreshedRowFresh(config, world, r, values);
    AccruedKept(config, world, r, values, HistoryOf(world, r, values));
  }

  /** The price cell, mode by mode, is the quote of that side; it is blank exactly if a quote that
      it needs is missing. */
  lemma PriceShown(config: Config, world: World, isin: string, values: RowValues)
    requires ValidConfig(config) && world.refresh(isin).Ok?
    ensures var m := world.refresh(isin).value.market;
            var price := At(RowCells(config, world, isin, values), config.priceColumn);
            && (config.priceMode == BestBidPercent ==> ShowsQuote(price, m.bidPercent))
            && (config.priceMode == BestOfferPercent ==> ShowsQuote(price, m.offerPercent))
            && (config.priceMode == BestBidCleanRub ==> ShowsQuote(price, m.bidRub))
            && (config.priceMode == BestOfferCleanRub ==> ShowsQuote(price, m.offerRub))
            && (config.priceMode in {BestBidFullRub, BestOfferFullRub} ==>
                  var clean := SideRub(m, config.priceMode);
                  && (price == Some(Blank) <==> clean.None? || m.accrued.None?)
                  && (clean.Some? && m.accrued.Some? ==> price == Some(Num(clean.value + m.accrued.value))))
  {
    hide At, RowCells, MarketCells;
    PriceColumnAlone(config);
    MarketCellShown(config, world, isin, values, config.priceColumn);
    MarketCellsAt(config, world, world.refresh(isin).value, config.priceColumn);
  }

  lemma MarketTexts(config: Config, world: World, r: Refreshed)
    requires ValidConfig(config)
    ensures At(MarketCells(config, world, r), AD_ACCRUED) == Some(Rounded(r.market.accrued))
    ensures config.updatedAtColumn.Some? ==>
              At(MarketCells(config, world, r), config.updatedAtColumn.value)
              == Some(Value.Text(world.timeText(QuoteTime(r.market))))
    ensures config.statusColumn.Some? ==>
              At(MarketCells(config, world, r), config.statusColumn.value)
              == Some(Value.Text(QuoteStatus(r.market, config.priceMode)))
  {
    hide At, Put, PutOptional, MarketPrice, QuoteStatus, QuoteTime, Rounded, SheetSync.Number;
    NotReserved(config);
    assert OwnColumn(config, config.priceColumn);
    if config.updatedAtColumn.Some? && config.statusColumn.Some? {
      assert UsedColumns(config)[2] == config.updatedAtColumn.value;
      assert UsedColumns(config)[3] == config.statusColumn.value;
    }
    assert config.updatedAtColumn.Some? ==> OwnColumn(config, config.updatedAtColumn.value);
    assert config.statusColumn.Some? ==> OwnColumn(config, config.statusColumn.value);
  }

  /** The other market cells: the accrued interest, rounded; the time of the quotes, or of their
      receipt if they carry none; and whether there is a price. */
  lemma MarketStateShown(config: Config, world: World, isin: string, values: RowValues)
    requires ValidConfig(config) && world.refresh(isin).Ok?
    ensures var m, d := world.refresh(isin).value.market, RowCells(config, world, isin, values);
            && (m.accrued.None? ==> At(d, AD_ACCRUED) == Some(Blank))
            && (m.accrued.Some? ==> At(d, AD_ACCRUED) == Some(Num(Money(m.accrued.value))))
            && (config.updatedAtColumn.Some? ==>
                  At(d, config.updatedAtColumn.value)
                  == Some(Value.Text(world.timeText(if m.marketTime.Some? then m.marketTime.value else m.receivedAt))))
            && (config.statusColumn.Some? ==>
                  At(d, config.statusColumn.value)
                  == Some(Value.Text(if At(d, config.priceColumn) != Some(Blank) then "FRESH"
                                     else if BidMode(config.priceMode) then "NO BID" else "NO OFFER")))
  {
    hide At, RowCells, MarketCells, MarketPrice;
    var r := world.refresh(isin).value;
    PriceColumnAlone(config);
    MarketCellShown(config, world, isin, values, AD_ACCRUED);
    MarketCellShown(config, world, isin, values, config.priceColumn);
    MarketCellsAt(config, world, r, config.priceColumn);
    MarketTexts(config, world, r);
    if config.updatedAtColumn.Some? {
      MarketCellShown(config, world, isin, values, config.updatedAtColumn.value);
    }
    if config.statusColumn.Some? {
      MarketCellShown(config, world, isin, values, config.statusColumn.value);
    }
  }

  // ---------- The other side of the book ----------

  /** The two answers differ only in quotes of the side that the mode does not look at. */
  predicate SameButOther(config: Config, r: Refreshed, t: Refreshed) {
    && t == r.(market := t.market)
    && t.market == if BidMode(config.priceMode)
                   then r.market.(offerPercent := t.market.offerPercent, offerRub := t.market.offerRub)
                   else r.market.(bidPercent := t.market.bidPercent, bidRub := t.market.bidRub)
  }

  lemma MarketIgnoresOther(config: Config, world: World, other: World, r: Refreshed, t: Refreshed)
    requires other == world.(refresh := other.refresh) && SameButOther(config, r, t)
    ensures MarketCells(config, other, t) == MarketCells(config, world, r)
  {
    hide Put, PutOptional, Rounded, SheetSync.Number;
  }

  lemma PurchaseIgnoresOther(
    config: Config, world: World, other: World, r: Refreshed, t: Refreshed, p: SheetPurchase, d: RowDict)
    requires p.quantity != 0.0 && other == world.(refresh := other.refresh) && SameButOther(config, r, t)
    ensures PurchaseCells(config, other, t, p, d) == PurchaseCells(config, world, r, p, d)
  {
    hide CalculateCurrent, SummarizePaidCoupons, PutSummary, PutResult, PutStatus;
  }

  lemma SameQuestion(config: Config, world: World, other: World, r: Refreshed, t: Refreshed, values: RowValues)
    requires other == world.(refresh := other.refresh) && SameButOther(config, r, t)
    ensures Commission(values, other) == Commission(values, world)
    ensures AsksHistory(values, other) == AsksHistory(values, world)
    ensures HistoryOf(other, t, values) == HistoryOf(world, r, values)
  {
  }

  lemma SameAnswer(world: World, other: World, values: RowValues, d: RowDict, answer: Option<real>)
    requires other == world.(refresh := other.refresh)
    ensures PurchaseAccrued(values, other, answer) == PurchaseAccrued(values, world, answer)
    ensures WithAccrued(d, values, other, answer) == WithAccrued(d, values, world, answer)
  {
    hide Put;
  }

  lemma RefreshedIgnoresOther(
    config: Config, world: World, other: World, r: Refreshed, t: Refreshed, values: RowValues, answer: Option<real>)
    requires other == world.(refresh := other.refresh) && SameButOther(config, r, t)
    ensures RefreshedRow(config, other, t, values, answer) == RefreshedRow(config, world, r, values, answer)
  {
    hide MarketCells, PurchaseCells, PutBlanks, PutStatus, ParsePurchase, WithAccrued, WithCommission, Commission,
      PurchaseAccrued, AsksHistory, SameButOther, At, Put;
    MarketIgnoresOther(config, world, other, r, t);
    SameQuestion(config, world, other, r, t, values);
    var d := WithCommission(MarketCells(config, world, r), values);
    SameAnswer(world, other, values, d, answer);
    if Commission(values, world).Some? {
      var blank := PutBlanks(WithAccrued(d, values, world, answer));
      match ParsePurchase(values, PurchaseAccrued(values, world, answer), Commission(values, world).value, world.parser)
      case Err(_) =>
      case Ok(p) => PurchaseIgnoresOther(config, world, other, r, t, p, blank);
    }
  }

  /** Every cell of a row ignores the other side of the book. */
  lemma OtherSideIgnored(config: Config, world: World, other: World, isin: string, values: RowValues)
    requires world.refresh(isin).Ok? && other.refresh(isin).Ok? && other == world.(refresh := other.refresh)
    requires SameButOther(config, world.refresh(isin).value, other.refresh(isin).value)
    ensures RowCells(config, other, isin, values) == RowCells(config, world, isin, values)
  {
    var r, t := world.refresh(isin).value, other.refresh(isin).value;
    SameQuestion(config, world, other, r, t, values);
    RefreshedIgnoresOther(config, world, other, r, t, values, HistoryOf(world, r, values));
    hide RefreshedRow, HistoryOf, SameButOther;
  }

  // ---------- The quote of the calculation ----------

  /** The connection with the clean mode of the same side. */
  function CleanMode(config: Config): Config {
    config.(priceMode := if BidMode(config.priceMode) then BestBidCleanRub else BestOfferCleanRub)
  }

  /** The calculation of a row uses the rouble quote of the side of its mode: the one that the clean
      mode of that side shows. */
  lemma CalculationQuote(config: Config, world: World, isin: string, values: RowValues)
    requires ValidConfig(config) && world.refresh(isin).Ok? && DistinctIdentities(world.refresh(isin).value.cashflows)
    requires Shows(RowCells(config, world, isin, values), Calculated)
    ensures var r := world.refresh(isin).value;
            && EffectivePurchase(world, r, values).Ok?
            && SideRub(r.market, config.priceMode).Some? && r.market.accrued.Some?
    ensures var r := world.refresh(isin).value;
            At(RowCells(CleanMode(config), world, isin, values), config.priceColumn)
            == Some(Num(SideRub(r.market, config.priceMode).value))
    ensures var r := world.refresh(isin).value;
            var date := world.localDate(if r.market.marketTime.Some? then r.market.marketTime.value
                                        else r.market.receivedAt);
            At(RowCells(config, world, isin, values), AG_EXIT)
            == Some(Num(Money(ExitTotal(EffectivePurchase(world, r, values).value, date,
                                        SideRub(r.market, config.priceMode).value, r.market.accrued.value,
                                        r.cashflows))))
  {
    hide At, RowCells, Calculable, EffectivePurchase, DistinctIdentities, ExitTotal, Shows;
    assert UsedColumns(CleanMode(config)) == UsedColumns(config);
    PriceShown(CleanMode(config), world, isin, values);
    CalculatedRowMeaning(config, world, isin, values);
  }
}
