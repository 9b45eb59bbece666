/** When one pass is enough for every sheet: a condition on the exchange alone. */
module SheetSyncOnePass {
  import opened Prelude
  import opened Cells
  import opened YieldEngine
  import opened Rounding
  import opened SheetCalculations
  import opened SheetConnection
  import opened SheetGateway
  import opened SheetSync
  import opened SheetSyncRows
  import opened SheetSyncBatch
  import opened SheetSyncConvergence
  import opened SheetSyncSecondPass
  import Isin

  /** The exchange quotes what a calculation needs, and the purchase date has passed. */
  ghost predicate Priced(config: Config, world: World, r: Refreshed, date: int) {
    && Quoted(config, r)
    && MarketRubPrice(r.market, config.priceMode).value >= 0.0 && r.market.accrued.value >= 0.0
    && (forall f :: f in r.cashflows ==> f.amount >= 0.0)
    && world.localDate(QuoteTime(r.market)) > date
  }

  /** The accrued interest on this date is not a whole number of cents, and a result can show
      it: a priced bond shows the profit, and a negative amount that rounds to zero turns an
      error into a result. */
  ghost predicate Sensitive(config: Config, world: World, isin: string, date: int) {
    && Isin.NormalizeIsin(isin) == Ok(isin)
    && world.refresh(isin).Ok?
    && var r := world.refresh(isin).value;
    && world.history(r.secid, r.board, date).Found?
    && var h := world.history(r.secid, r.board, date).accrued;
    && !IsCents(h)
    && if h < 0.0 then Money(h) >= 0.0 else Priced(config, world, r, date)
  }

  /** The calendars of the exchange are collected: one flow for each type and date. */
  ghost predicate CollectedFlows(world: World) {
    forall isin :: world.refresh(isin).Ok? ==> DistinctIdentities(world.refresh(isin).value.cashflows)
  }

  // ---------- Without a sensitive answer one pass is enough ----------

  lemma SameError(p: SheetPurchase, q: SheetPurchase, date: int, offer: real, accrued: real, flows: seq<CashFlow>)
    requires p.quantity == q.quantity > 0.0 && p.purchaseDate == q.purchaseDate
    requires p.price >= 0.0 && p.accrued >= 0.0 && p.commissionTotal >= 0.0
    requires q.price >= 0.0 && q.accrued >= 0.0 && q.commissionTotal >= 0.0
    requires !(offer >= 0.0 && accrued >= 0.0 && (forall f :: f in flows ==> f.amount >= 0.0) && date > p.purchaseDate)
    ensures CalculateCurrent(p, date, offer, accrued, flows) == CalculateCurrent(q, date, offer, accrued, flows)
  {
    EnginePurchaseMeaning(p);
    EnginePurchaseMeaning(q);
    hide CalculatePurchase, PaidTotal, CurrentExit, SummarizePaidCoupons, PurchaseTotal;
  }

  lemma ParsedAmounts(world: World, values: RowValues, a: real, b: real)
    requires (a >= 0.0 && b >= 0.0) || (a < 0.0 && b < 0.0)
    ensures var p, q := PurchaseWith(world, values, Some(a)), PurchaseWith(world, values, Some(b));
            && (p.Ok? <==> q.Ok?)
            && (p.Err? ==> p == q)
            && (p.Ok? ==> && q.value == p.value.(accrued := b) && p.value.accrued == a && a >= 0.0
                          && p.value.price >= 0.0 && p.value.commissionTotal >= 0.0
                          && p.value.quantity > 0.0
                          && ParseDate(Cell(values, E_DATE), world.parser) == Some(p.value.purchaseDate))
  {
    hide ParseDecimal, ParseDate, Commission;
  }

  lemma InsensitiveIsStable(config: Config, world: World, row: Row)
    requires ValidConfig(config) && Accepted(row, config)
    requires forall date :: !Sensitive(config, world, IsinOf(row, config).value, date)
    ensures Stable(config, world, row)
  {
    hide Stable, Money, ParseDate, PurchaseWith, IsCents, CalculateCurrent, Isin.NormalizeIsin, Commission;
    var isin := IsinOf(row, config).value;
    if FillsAccrued(world, isin, row.values) {
      FilledAnswer(world, isin, row.values);
      var r := world.refresh(isin).value;
      var date := PurchaseDate(row.values, world);
      var h := FilledAccrued(world, isin, row.values);
      assert world.history(r.secid, r.board, date) == Found(h);
      Isin.NormalizeIsinFixed(RawIsin(row, config));
      assert !Sensitive(config, world, isin, date);
      MoneySigns(h);
      if IsCents(h) {
        MoneyFixes(h);
        SameItself(config, world, r, PurchaseWith(world, row.values, Some(h)));
      } else {
        ParsedAmounts(world, row.values, Money(h), h);
        UnpricedSame(config, world, r, row.values, Money(h), h, date);
      }
    }
    StableWhenSame(config, world, row);
  }

  lemma MoneySigns(h: real)
    ensures h >= 0.0 ==> Money(h) >= 0.0
  {
    if h >= 0.0 {
      MoneyMonotone(0.0, h);
    }
  }

  lemma UnpricedSame(config: Config, world: World, r: Refreshed, values: RowValues, a: real, b: real, date: int)
    requires (a >= 0.0 && b >= 0.0) || (a < 0.0 && b < 0.0)
    requires b < 0.0 || !Priced(config, world, r, date)
    requires ParseDate(Cell(values, E_DATE), world.parser) == Some(date)
    ensures SamePurchase(config, world, r, PurchaseWith(world, values, Some(a)), PurchaseWith(world, values, Some(b)))
  {
    hide PurchaseWith, ParseDate, CalculateCurrent;
    ParsedAmounts(world, values, a, b);
    var p := PurchaseWith(world, values, Some(a));
    if p.Ok? && Quoted(config, r) {
      SameError(p.value, PurchaseWith(world, values, Some(b)).value, world.localDate(QuoteTime(r.market)),
                MarketRubPrice(r.market, config.priceMode).value, r.market.accrued.value, r.cashflows);
    }
  }

  // ---------- With a sensitive answer some sheet needs two passes ----------

  /** A purchase of q bonds at the price 1 without commission, on this date. */
  function ProbeValues(config: Config, isin: string, date: int, q: real): RowValues {
    map[E_DATE := Day(date), H_QUANTITY := Num(q), I_PRICE := Num(1.0), L_COMMISSION := Num(0.0),
        config.isinColumn := Value.Text(isin)]
  }

  function ProbeRow(config: Config, isin: string, date: int, q: real): Row {
    Row(config.headerRow + 1, ProbeValues(config, isin, date, q))
  }

  function SheetOf(row: Row): Sheet {
    map c | c in row.values :: (row.number, c) := row.values[c]
  }

  lemma ProbeReads(config: Config, isin: string, date: int, q: real)
    ensures ReadsRows(config, SheetOf(ProbeRow(config, isin, date, q)), [ProbeRow(config, isin, date, q)])
  {
    var row := ProbeRow(config, isin, date, q);
    var sheet := SheetOf(row);
    assert forall c :: c in row.values ==> (row.number, c) in sheet;
    assert E_DATE in row.values;
    assert (row.number, E_DATE) in sheet && E_DATE in Requested(config);
    assert RowNumbers(sheet, Requested(config), config.headerRow + 1) == {row.number};
    assert RowAt(sheet, Requested(config), row.number).values == row.values;
    assert Numbers([row]) == [row.number];
  }

  lemma ProbeCells(config: Config, isin: string, date: int, q: real, parser: Parser)
    requires ValidConfig(config)
    ensures var v := ProbeValues(config, isin, date, q);
            && Cell(v, config.isinColumn) == Value.Text(isin) && ParseDate(Cell(v, E_DATE), parser) == Some(date)
            && ParseDecimal(Cell(v, H_QUANTITY), parser) == Some(q)
            && ParseDecimal(Cell(v, I_PRICE), parser) == Some(1.0)
            && ParseDecimal(Cell(v, L_COMMISSION), parser) == Some(0.0) && !IsBlank(Cell(v, L_COMMISSION))
            && Cell(v, J_ACCRUED) == Blank && Cell(v, V_PLAN) == Blank
  {
    assert config.isinColumn in UsedColumns(config);
    assert !Reserved(config.isinColumn);
  }

  lemma ProbeAccepted(config: Config, isin: string, date: int, q: real, parser: Parser)
    requires ValidConfig(config) && Isin.NormalizeIsin(isin) == Ok(isin)
    ensures Accepted(ProbeRow(config, isin, date, q), config)
    ensures IsinOf(ProbeRow(config, isin, date, q), config) == Ok(isin)
  {
    hide ProbeValues;
    ProbeCells(config, isin, date, q, parser);
    Isin.NormalizeIsinFixed(isin);
    assert |isin| == 12;
  }

  function ProbePurchase(date: int, q: real, accrued: real): SheetPurchase {
    SheetPurchase(date, q, 1.0, accrued, 0.0, None)
  }

  lemma ProbeParsed(config: Config, world: World, isin: string, date: int, q: real, accrued: real)
    requires ValidConfig(config) && q > 0.0
    ensures var p := PurchaseWith(world, ProbeValues(config, isin, date, q), Some(accrued));
            p == if accrued < 0.0 then Err(NegativeAmount) else Ok(ProbePurchase(date, q, accrued))
  {
    hide ProbeValues, ParseDate, ParseDecimal;
    ProbeCells(config, isin, date, q, world.parser);
    var values := ProbeValues(config, isin, date, q);
    assert ParseDecimal(Cell(values, V_PLAN), world.parser) == None by { BlankNumber(world.parser); }
  }

  lemma BlankNumber(parser: Parser)
    ensures ParseDecimal(Blank, parser) == None
  {
  }

  /** Both passes over the probe, in terms of its purchase. */
  lemma ProbePurchases(config: Config, world: World, isin: string, date: int, q: real)
    requires ValidConfig(config) && q > 0.0 && Sensitive(config, world, isin, date)
    ensures var r := world.refresh(isin).value;
            var h := world.history(r.secid, r.board, date).accrued;
            var values := ProbeValues(config, isin, date, q);
            && EffectivePurchase(world, r, values) == PurchaseWith(world, values, Some(h))
            && EffectivePurchase(world, r, FilledValues(world, isin, values))
               == PurchaseWith(world, values, Some(Money(h)))
  {
    hide ProbeValues, ParseDate, ParseDecimal, Isin.NormalizeIsin, IsCents, Money, Priced, PurchaseWith,
      EffectivePurchase, FilledValues;
    var values := ProbeValues(config, isin, date, q);
    ProbeCells(config, isin, date, q, world.parser);
    FilledPurchase(world, isin, values);
  }

  lemma NegativeShown(config: Config, world: World, r: Refreshed, values: RowValues)
    requires ValidConfig(config)
    ensures Shows(RefreshedRow(config, world, r, values, HistoryOf(world, r, values)), NegativeAmount)
            <==> EffectivePurchase(world, r, values) == Err(NegativeAmount)
  {
    hide At, Put, PutBlanks, MarketCells, PurchaseCells, WithAccrued, WithCommission, Label,
      ParsePurchase, ParseDecimal, ParseDate, Answer, PurchaseAccrued, HistoryOf, Commission;
    var answer := HistoryOf(world, r, values);
    var blank := PutBlanks(WithAccrued(WithCommission(MarketCells(config, world, r), values), values, world, answer));
    LabelTellsNegativeAmount(BadCommission);
    if Commission(values, world).Some? {
      match ParsePurchase(values, PurchaseAccrued(values, world, answer), Commission(values, world).value, world.parser)
      case Err(status) => LabelTellsNegativeAmount(status);
      case Ok(p) => PurchaseNotNegative(config, world, r, p, blank);
    }
  }

  lemma PurchaseNotNegative(config: Config, world: World, r: Refreshed, p: SheetPurchase, d: RowDict)
    requires p.quantity != 0.0
    ensures !Shows(PurchaseCells(config, world, r, p, d), NegativeAmount)
  {
    hide At, Put, Label, CalculateCurrent, SummarizePaidCoupons, PutSummary, Money, Rounded;
    LabelTellsNegativeAmount(NoOffer);
    LabelTellsNegativeAmount(NoBid);
    LabelTellsNegativeAmount(NoCurrentAccrued);
    LabelTellsNegativeAmount(Calculated);
    if Quoted(config, r) && CurrentOf(config, world, r, p).Err? {
      LabelTellsNegativeAmount(CalculationFailed(CurrentOf(config, world, r, p).error));
    }
  }

  /** An unstable row that is alone on its sheet needs a second pass. */
  lemma UnstableNeedsTwo(config: Config, world: World, isin: string, date: int, q: real) returns (s0: Sheet,
      s1: Sheet, s2: Sheet)
    requires ValidConfig(config) && !Stable(config, world, ProbeRow(config, isin, date, q))
    ensures Syncs(config, world, s0, s1) && Syncs(config, world, s1, s2) && s2 != s1
  {
    hide Stable, NaiveBatch, ApplyBatch, Requested, IsReading, FilledRows, ProbeRow;
    var rows := [ProbeRow(config, isin, date, q)];
    s0 := SheetOf(rows[0]);
    ProbeReads(config, isin, date, q);
    s1 := ApplyBatch(s0, NaiveBatch(config, world, rows));
    NextReading(config, world, s0, rows);
    s2 := ApplyBatch(s1, NaiveBatch(config, world, FilledRows(config, world, rows)));
    SecondPassChangesNothingIffStable(config, world, s0, s1, s2, rows);
  }

  /** What a stable probe would have to show in both passes. */
  lemma StableProbe(config: Config, world: World, isin: string, date: int, q: real)
    requires ValidConfig(config) && Isin.NormalizeIsin(isin) == Ok(isin) && world.refresh(isin).Ok?
    requires Stable(config, world, ProbeRow(config, isin, date, q))
    ensures var r := world.refresh(isin).value;
            var values := ProbeValues(config, isin, date, q);
            var filled := FilledValues(world, isin, values);
            SameResults(config, RefreshedRow(config, world, r, filled, HistoryOf(world, r, filled)),
                        RefreshedRow(config, world, r, values, HistoryOf(world, r, values)))
  {
    hide Isin.NormalizeIsin, ProbeValues, FilledValues, RefreshedRow, HistoryOf, SameResults, Accepted, IsinOf;
    ProbeAccepted(config, isin, date, q, world.parser);
    SameIsin(config, world, ProbeRow(config, isin, date, q));
  }

  /** A negative accrued interest that rounds to zero is an error first and a result later. */
  lemma NegativeProbe(config: Config, world: World, isin: string, date: int)
    requires ValidConfig(config) && Sensitive(config, world, isin, date)
    requires var r := world.refresh(isin).value; world.history(r.secid, r.board, date).accrued < 0.0
    ensures !Stable(config, world, ProbeRow(config, isin, date, 1.0))
  {
    hide At, Isin.NormalizeIsin, ProbeValues, FilledValues, RefreshedRow, HistoryOf, Stable, IsCents, Money, Priced,
      PurchaseWith, EffectivePurchase, Label;
    var r := world.refresh(isin).value;
    var h := world.history(r.secid, r.board, date).accrued;
    var values := ProbeValues(config, isin, date, 1.0);
    ProbePurchases(config, world, isin, date, 1.0);
    ProbeParsed(config, world, isin, date, 1.0, h);
    ProbeParsed(config, world, isin, date, 1.0, Money(h));
    NegativeShown(config, world, r, values);
    NegativeShown(config, world, r, FilledValues(world, isin, values));
    if Stable(config, world, ProbeRow(config, isin, date, 1.0)) {
      StableProbe(config, world, isin, date, 1.0);
    }
  }

  /** The quantity for which the rounding moves the profit by one rouble. */
  ghost function ProbeQuantity(h: real): real
    requires !IsCents(h)
  {
    MoneyFixes(h);
    if Money(h) > h then 1.0 / (Money(h) - h) else 1.0 / (h - Money(h))
  }

  lemma ProbeGain(h: real)
    requires !IsCents(h)
    ensures Money(h) != h && ProbeQuantity(h) > 0.0
    ensures ProbeQuantity(h) * (Money(h) - h) == if Money(h) > h then 1.0 else -1.0
  {
    hide Money, IsCents;
    MoneyFixes(h);
    var d := Money(h) - h;
    if d > 0.0 {
      assert 1.0 / d * d == 1.0;
    } else {
      assert 1.0 / (-d) * (-d) == 1.0;
    }
  }

  lemma GainsDiffer(r: Refreshed, date: int, today: int, q: real, h: real, m: real, offer: real, accrued: real)
    requires q * (m - h) == 1.0 || q * (m - h) == -1.0
    ensures Money(ExitTotal(ProbePurchase(date, q, h), today, offer, accrued, r.cashflows)
                  - PurchaseTotal(ProbePurchase(date, q, h)))
            != Money(ExitTotal(ProbePurchase(date, q, m), today, offer, accrued, r.cashflows)
                     - PurchaseTotal(ProbePurchase(date, q, m)))
  {
    hide Money, PaidTotal, ExitTotal;
    SameExit(r, date, today, q, h, m, offer, accrued);
    var exit := ExitTotal(ProbePurchase(date, q, h), today, offer, accrued, r.cashflows);
    var a, b := exit - PurchaseTotal(ProbePurchase(date, q, h)), exit - PurchaseTotal(ProbePurchase(date, q, m));
    assert q * (m - h) == q * m - q * h;
    ProbeTotal(date, q, h);
    ProbeTotal(date, q, m);
    assert a - b == q * (m - h);
    FarApart(a, b);
  }

  lemma ProbeTotal(date: int, q: real, h: real)
    ensures PurchaseTotal(ProbePurchase(date, q, h)) == q + q * h
  {
  }

  lemma SameExit(r: Refreshed, date: int, today: int, q: real, h: real, m: real, offer: real, accrued: real)
    ensures ExitTotal(ProbePurchase(date, q, h), today, offer, accrued, r.cashflows)
            == ExitTotal(ProbePurchase(date, q, m), today, offer, accrued, r.cashflows)
  {
  }

  lemma FarApart(a: real, b: real)
    requires a - b == 1.0 || a - b == -1.0
    ensures Money(a) != Money(b)
  {
    MoneyIsNearest(a, 0);
    MoneyIsNearest(b, 0);
    hide Money;
  }

  /** A priced bond shows the rounding in its profit. */
  lemma PricedProbe(config: Config, world: World, isin: string, date: int)
    requires ValidConfig(config) && CollectedFlows(world) && Sensitive(config, world, isin, date)
    requires var r := world.refresh(isin).value; world.history(r.secid, r.board, date).accrued >= 0.0
    ensures var r := world.refresh(isin).value;
            var q := ProbeQuantity(world.history(r.secid, r.board, date).accrued);
            !Stable(config, world, ProbeRow(config, isin, date, q))
  {
    hide At, Isin.NormalizeIsin, ProbeValues, FilledValues, HistoryOf, Stable, IsCents, Money, PurchaseWith, ExitTotal,
      EffectivePurchase, Label, ProbeQuantity, DistinctIdentities, CurrentOf, RefreshedRow, PurchaseTotal, PaidTotal;
    var r := world.refresh(isin).value;
    var h := world.history(r.secid, r.board, date).accrued;
    var q := ProbeQuantity(h);
    ProbeGain(h);
    MoneySigns(h);
    var values := ProbeValues(config, isin, date, q);
    var filled := FilledValues(world, isin, values);
    ProbePurchases(config, world, isin, date, q);
    ProbeParsed(config, world, isin, date, q, h);
    ProbeParsed(config, world, isin, date, q, Money(h));
    ProfitShown(config, world, r, values, date, q, h);
    ProfitShown(config, world, r, filled, date, q, Money(h));
    var today := world.localDate(QuoteTime(r.market));
    GainsDiffer(r, date, today, q, h, Money(h), MarketRubPrice(r.market, config.priceMode).value,
                r.market.accrued.value);
    if Stable(config, world, ProbeRow(config, isin, date, q)) {
      StableProbe(config, world, isin, date, q);
    }
  }

  lemma ProbeCost(date: int, q: real, h: real)
    requires q > 0.0 && h >= 0.0
    ensures PurchaseTotal(ProbePurchase(date, q, h)) > 0.0
  {
    assert h * q >= 0.0;
  }

  lemma ProfitShown(config: Config, world: World, r: Refreshed, values: RowValues, date: int, q: real, h: real)
    requires ValidConfig(config) && DistinctIdentities(r.cashflows) && Priced(config, world, r, date)
    requires q > 0.0 && h >= 0.0 && EffectivePurchase(world, r, values) == Ok(ProbePurchase(date, q, h))
    ensures At(RefreshedRow(config, world, r, values, HistoryOf(world, r, values)), AH_BEFORE)
            == Some(Num(Money(
                 ExitTotal(ProbePurchase(date, q, h), world.localDate(QuoteTime(r.market)),
                           MarketRubPrice(r.market, config.priceMode).value, r.market.accrued.value, r.cashflows)
                 - PurchaseTotal(ProbePurchase(date, q, h)))))
  {
    hide At, HistoryOf, Money, ExitTotal, EffectivePurchase, Shows, DistinctIdentities, CalculateCurrent, RefreshedRow,
      PurchaseTotal, PaidTotal;
    ProbeCost(date, q, h);
    RefreshedRowMeaning(config, world, r, values);
    CurrentMeaning(ProbePurchase(date, q, h), world.localDate(QuoteTime(r.market)),
                   MarketRubPrice(r.market, config.priceMode).value, r.market.accrued.value, r.cashflows);
  }

  /** One pass is enough for every sheet exactly when no answer of the exchange is sensitive. */
  ghost predicate OnePassSuffices(config: Config, world: World) {
    forall s0, s1, s2 :: Syncs(config, world, s0, s1) && Syncs(config, world, s1, s2) ==> s2 == s1
  }

  lemma OnePassSufficesIff(config: Config, world: World)
    requires ValidConfig(config) && CollectedFlows(world)
    ensures OnePassSuffices(config, world) <==> forall isin, date :: !Sensitive(config, world, isin, date)
  {
    hide Syncs, Sensitive, Stable, CollectedFlows, Isin.NormalizeIsin, IsinOf, Accepted;
    if forall isin, date :: !Sensitive(config, world, isin, date) {
      forall s0, s1, s2 | Syncs(config, world, s0, s1) && Syncs(config, world, s1, s2)
        ensures s2 == s1
      {
        InsensitiveOnePass(config, world, s0, s1, s2);
      }
    }
    if isin, date :| Sensitive(config, world, isin, date) {
      var q := SensitiveProbe(config, world, isin, date);
      var s0, s1, s2 := UnstableNeedsTwo(config, world, isin, date, q);
      assert !OnePassSuffices(config, world);
    }
  }

  lemma SensitiveProbe(config: Config, world: World, isin: string, date: int) returns (q: real)
    requires ValidConfig(config) && CollectedFlows(world) && Sensitive(config, world, isin, date)
    ensures !Stable(config, world, ProbeRow(config, isin, date, q))
  {
    var r := world.refresh(isin).value;
    var h := world.history(r.secid, r.board, date).accrued;
    hide Stable, CollectedFlows, IsCents, Money, Isin.NormalizeIsin, Priced;
    if h < 0.0 {
      q := 1.0;
      NegativeProbe(config, world, isin, date);
    } else {
      q := ProbeQuantity(h);
      PricedProbe(config, world, isin, date);
    }
  }

  lemma InsensitiveOnePass(config: Config, world: World, s0: Sheet, s1: Sheet, s2: Sheet)
    requires ValidConfig(config) && Syncs(config, world, s0, s1) && Syncs(config, world, s1, s2)
    requires forall isin, date :: !Sensitive(config, world, isin, date)
    ensures s2 == s1
  {
    var rows :| ReadsRows(config, s0, rows) && s1 == ApplyBatch(s0, NaiveBatch(config, world, rows));
    hide Syncs, ReadsRows, NaiveBatch, ApplyBatch, Sensitive, Stable, IsinOf;
    forall i | 0 <= i < |rows|
      ensures Stable(config, world, rows[i])
    {
      if Accepted(rows[i], config) {
        InsensitiveIsStable(config, world, rows[i]);
      } else {
        RejectedIsStable(config, world, rows[i]);
      }
    }
    SecondPassChangesNothingIffStable(config, world, s0, s1, s2, rows);
  }

  lemma RejectedIsStable(config: Config, world: World, row: Row)
    requires !Accepted(row, config)
    ensures Stable(config, world, row)
  {
  }

  /** So two passes over one sheet can differ: for a bond whose historical accrued interest is
      half a kopeck, the second pass computes with 0.00 instead of 0.005. */
  lemma SecondPassCanChangeResults(config: Config, world: World, isin: string, date: int) returns (s0: Sheet,
      s1: Sheet, s2: Sheet)
    requires ValidConfig(config) && CollectedFlows(world)
    requires Isin.NormalizeIsin(isin) == Ok(isin) && world.refresh(isin).Ok?
    requires var r := world.refresh(isin).value;
             world.history(r.secid, r.board, date) == Found(0.005) && Priced(config, world, r, date)
    ensures Syncs(config, world, s0, s1) && Syncs(config, world, s1, s2) && s2 != s1
  {
    MoneyFixes(0.005);
    assert Cents(0.005) == 0;
    hide Stable, CollectedFlows, IsCents, Money, Isin.NormalizeIsin, Priced, Syncs;
    var q := SensitiveProbe(config, world, isin, date);
    s0, s1, s2 := UnstableNeedsTwo(config, world, isin, date, q);
  }
}
