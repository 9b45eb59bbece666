/** How the input cells of a row become its purchase, and what column AL says about them. */
module SheetSyncInputs {
  import opened Prelude
  import opened Cells
  import opened YieldEngine
  import opened Rounding
  import opened SheetCalculations
  import opened SheetConnection
  import opened SheetGateway
  import opened SheetSync
  import opened SheetSyncRows
  import opened SheetSyncBatch
  import opened SheetSyncMarket

  // ---------- What a pass reads ----------

  /** The ISIN column and the six input columns. */
  predicate ReadColumn(config: Config, c: Column) {
    c == config.isinColumn || c == E_DATE || c == H_QUANTITY || c == I_PRICE || c == J_ACCRUED || c == L_COMMISSION
    || c == V_PLAN
  }

  /** A pass reads every line below the header that has something in one of these columns, and of it
      exactly these cells. */
  lemma ReadingMeaning(config: Config, sheet: Sheet, rows: seq<Row>, n: int, c: Column)
    requires ReadsRows(config, sheet, rows)
    ensures (exists i :: 0 <= i < |rows| && rows[i].number == n)
            <==> n > config.headerRow && exists k: Column :: ReadColumn(config, k) && (n, k) in sheet
    ensures forall i :: 0 <= i < |rows| && rows[i].number == n ==>
              && (c in rows[i].values <==> ReadColumn(config, c) && (n, c) in sheet)
              && (c in rows[i].values ==> rows[i].values[c] == sheet[(n, c)])
  {
    var columns := Requested(config);
    assert forall k :: k in columns <==> ReadColumn(config, k);
    hide Requested, ReadColumn;
    assert n in Numbers(rows) <==> n in RowNumbers(sheet, columns, config.headerRow + 1);
    if k: Column :| k in columns && (n, k) in sheet {
      assert (n, k) in sheet;
    }
    if n in Numbers(rows) {
      var i :| 0 <= i < |rows| && Numbers(rows)[i] == n;
      assert rows[i].number == n;
    }
    assert forall i :: 0 <= i < |rows| && rows[i].number == n ==> Numbers(rows)[i] == n;
  }

  // ---------- The inputs of a row ----------

  function NumberIn(world: World, values: RowValues, c: Column): Option<real> {
    ParseDecimal(Cell(values, c), world.parser)
  }

  function DateIn(world: World, values: RowValues): Option<int> {
    ParseDate(Cell(values, E_DATE), world.parser)
  }

  /** A blank L stands for forty kopecks. */
  function CommissionIn(world: World, values: RowValues): Option<real> {
    if IsBlank(Cell(values, L_COMMISSION)) then Some(0.4) else NumberIn(world, values, L_COMMISSION)
  }

  /** A blank J stands for what the exchange knows of the purchase date. */
  function AccruedIn(world: World, r: Refreshed, values: RowValues): Option<real> {
    if !IsBlank(Cell(values, J_ACCRUED)) then NumberIn(world, values, J_ACCRUED)
    else if DateIn(world, values).None? then None
    else match world.history(r.secid, r.board, DateIn(world, values).value)
      case Found(accrued) => Some(accrued)
      case _ => None
  }

  predicate InputsRead(world: World, values: RowValues) {
    && DateIn(world, values).Some? && NumberIn(world, values, H_QUANTITY).Some?
    && NumberIn(world, values, I_PRICE).Some?
  }

  predicate AmountsFit(p: SheetPurchase) {
    p.quantity > 0.0 && p.price >= 0.0 && p.accrued >= 0.0 && p.commissionTotal >= 0.0
  }

  /** Each part of the purchase comes from its own column. */
  predicate Describes(world: World, r: Refreshed, values: RowValues, p: SheetPurchase) {
    && DateIn(world, values) == Some(p.purchaseDate)
    && NumberIn(world, values, H_QUANTITY) == Some(p.quantity)
    && NumberIn(world, values, I_PRICE) == Some(p.price)
    && AccruedIn(world, r, values) == Some(p.accrued)
    && CommissionIn(world, values) == Some(p.commissionTotal)
    && NumberIn(world, values, V_PLAN) == p.plan
  }

  lemma InputParts(world: World, r: Refreshed, values: RowValues)
    ensures Commission(values, world) == CommissionIn(world, values)
    ensures Commission(values, world).Some? ==>
              PurchaseAccrued(values, world, HistoryOf(world, r, values)) == AccruedIn(world, r, values)
  {
    assert IsBlank(Cell(values, J_ACCRUED)) ==> NumberIn(world, values, J_ACCRUED) == None;
    hide ParseDate;
  }

  /** A row has a purchase exactly if its columns describe one with a positive quantity and no
      negative amount, and then it is that one. */
  lemma PurchaseIff(world: World, r: Refreshed, values: RowValues, p: SheetPurchase)
    ensures EffectivePurchase(world, r, values) == Ok(p) <==> Describes(world, r, values, p) && AmountsFit(p)
  {
    InputParts(world, r, values);
    hide Commission, CommissionIn, AccruedIn, PurchaseAccrued, HistoryOf, ParseDate, ParseDecimal;
  }

  /** The cells of a purchase, in the columns of the profile. */
  function CellsOfPurchase(p: SheetPurchase): RowValues {
    var inputs: RowValues := map[
      E_DATE := Day(p.purchaseDate), H_QUANTITY := Num(p.quantity), I_PRICE := Num(p.price),
      J_ACCRUED := Num(p.accrued), L_COMMISSION := Num(p.commissionTotal)];
    if p.plan.Some? then inputs[V_PLAN := Num(p.plan.value)] else inputs
  }

  /** A purchase that is written into its columns is read back, whatever the exchange says. */
  lemma PurchaseRoundTrip(world: World, r: Refreshed, p: SheetPurchase)
    requires AmountsFit(p)
    ensures EffectivePurchase(world, r, CellsOfPurchase(p)) == Ok(p)
  {
    PurchaseIff(world, r, CellsOfPurchase(p), p);
  }

  /** The serial number of a day, with any time of the day, is read as that day; before the first
      day of the calendar of the sheet the time counts the other way. */
  lemma SerialDates(d: int, time: real, parser: Parser)
    requires 0.0 <= time < 1.0
    ensures 0 <= d <= LAST_DAY ==> ParseDate(Num(d as real + time), parser) == Some(d)
    ensures 0 <= d <= -FIRST_DAY ==> ParseDate(Num(-(d as real + time)), parser) == Some(-d)
  {
    assert (d as real + time).Floor == d;
  }

  // ---------- Column AL ----------

  function MissingText(world: World, values: RowValues): string {
    match (DateIn(world, values).None?, NumberIn(world, values, H_QUANTITY).None?,
           NumberIn(world, values, I_PRICE).None?)
    case (true, true, true) => "E, H, I"
    case (true, true, false) => "E, H"
    case (true, false, true) => "E, I"
    case (true, false, false) => "E"
    case (false, true, true) => "H, I"
    case (false, true, false) => "H"
    case (false, false, _) => "I"
  }

  lemma MissingNames(world: World, values: RowValues)
    requires !InputsRead(world, values)
    ensures Join(Missing(values, world.parser)) == MissingText(world, values)
  {
    hide ParseDate, ParseDecimal;
    assert Join(["E"]) == "E" && Join(["H"]) == "H" && Join(["I"]) == "I";
    assert ["E", "H", "I"][1..] == ["H", "I"] && ["H", "I"][1..] == ["I"];
    assert ["E", "H"][1..] == ["H"] && ["E", "I"][1..] == ["I"];
    assert Join(["H", "I"]) == "H, I" && Join(["E", "H"]) == "E, H" && Join(["E", "I"]) == "E, I";
    assert Join(["E", "H", "I"]) == "E, H, I";
  }

  /** Column AL names the first thing that a refreshed row lacks. */
  ghost predicate Explains(config: Config, world: World, r: Refreshed, values: RowValues, text: string) {
    if CommissionIn(world, values).None? then text == "НЕКОРРЕКТНАЯ КОМИССИЯ В L"
    else if !InputsRead(world, values) then text == "НЕТ ДАННЫХ: " + MissingText(world, values)
    else if AccruedIn(world, r, values).None? then text == "НКД НА ДАТУ ПОКУПКИ НЕ НАЙДЕН"
    else if NumberIn(world, values, H_QUANTITY).value <= 0.0 then text == "КОЛИЧЕСТВО ДОЛЖНО БЫТЬ БОЛЬШЕ НУЛЯ"
    else if NumberIn(world, values, I_PRICE).value < 0.0 || AccruedIn(world, r, values).value < 0.0
            || CommissionIn(world, values).value < 0.0
    then text == "ЦЕНА, НКД И КОМИССИЯ НЕ МОГУТ БЫТЬ ОТРИЦАТЕЛЬНЫМИ"
    else if SideRub(r.market, config.priceMode).None?
    then text == if BidMode(config.priceMode) then "НЕТ ЛУЧШЕЙ ЗАЯВКИ НА ПОКУПКУ" else "НЕТ ЛУЧШЕГО ПРЕДЛОЖЕНИЯ"
    else if r.market.accrued.None? then text == "MOEX НЕ ВЕРНУЛ ТЕКУЩИЙ НКД"
    else text == "РАССЧИТАНО" || "ОШИБКА РАСЧЁТА: " <= text
  }

  /** The outcome of a row whose purchase was read. */
  ghost function OutcomeOf(config: Config, world: World, r: Refreshed, p: SheetPurchase): RowStatus
    requires p.quantity != 0.0
  {
    if SideRub(r.market, config.priceMode).None? then (if BidMode(config.priceMode) then NoBid else NoOffer)
    else if r.market.accrued.None? then NoCurrentAccrued
    else match CurrentOf(config, world, r, p)
      case Err(e) => CalculationFailed(e)
      case Ok(_) => Calculated
  }

  lemma PurchaseOutcome(config: Config, world: World, r: Refreshed, p: SheetPurchase, d: RowDict)
    requires p.quantity != 0.0
    ensures Shows(PurchaseCells(config, world, r, p, d), OutcomeOf(config, world, r, p))
  {
    hide At, Put, Money, Label, CalculateCurrent, SummarizePaidCoupons, Rounded, PutSummary;
  }

  lemma RowOutcome(config: Config, world: World, r: Refreshed, values: RowValues)
    ensures var d := RefreshedRow(config, world, r, values, HistoryOf(world, r, values));
            match EffectivePurchase(world, r, values)
            case Err(status) => Shows(d, status)
            case Ok(p) => Shows(d, OutcomeOf(config, world, r, p))
  {
    hide At, Put, PutBlanks, MarketCells, PurchaseCells, WithAccrued, WithCommission, ParsePurchase, Commission,
      PurchaseAccrued, HistoryOf, Label, OutcomeOf;
    var answer := HistoryOf(world, r, values);
    var blank := PutBlanks(WithAccrued(WithCommission(MarketCells(config, world, r), values), values, world, answer));
    match EffectivePurchase(world, r, values)
    case Err(status) =>
    case Ok(p) => PurchaseOutcome(config, world, r, p, blank);
  }

  lemma InputOutcome(world: World, r: Refreshed, values: RowValues)
    ensures var outcome := EffectivePurchase(world, r, values);
            if CommissionIn(world, values).None? then outcome == Err(BadCommission)
            else if !InputsRead(world, values) then outcome == Err(MissingInputs(Missing(values, world.parser)))
            else if AccruedIn(world, r, values).None? then outcome == Err(NoPurchaseAccrued)
            else if NumberIn(world, values, H_QUANTITY).value <= 0.0 then outcome == Err(NonPositiveAmount)
            else if NumberIn(world, values, I_PRICE).value < 0.0 || AccruedIn(world, r, values).value < 0.0
                    || CommissionIn(world, values).value < 0.0 then outcome == Err(NegativeAmount)
            else outcome.Ok?
  {
    InputParts(world, r, values);
    hide Commission, CommissionIn, AccruedIn, PurchaseAccrued, HistoryOf, ParseDate, ParseDecimal, Missing;
  }

  lemma ComplaintTexts()
    ensures Label(BadCommission) == "НЕКОРРЕКТНАЯ КОМИССИЯ В L"
    ensures Label(NoPurchaseAccrued) == "НКД НА ДАТУ ПОКУПКИ НЕ НАЙДЕН"
    ensures Label(NonPositiveAmount) == "КОЛИЧЕСТВО ДОЛЖНО БЫТЬ БОЛЬШЕ НУЛЯ"
    ensures Label(NegativeAmount) == "ЦЕНА, НКД И КОМИССИЯ НЕ МОГУТ БЫТЬ ОТРИЦАТЕЛЬНЫМИ"
    ensures forall columns :: Label(MissingInputs(columns)) == "НЕТ ДАННЫХ: " + Join(columns)
  {
    hide Join;
  }

  lemma ResultTexts()
    ensures Label(NoBid) == "НЕТ ЛУЧШЕЙ ЗАЯВКИ НА ПОКУПКУ" && Label(NoOffer) == "НЕТ ЛУЧШЕГО ПРЕДЛОЖЕНИЯ"
    ensures Label(NoCurrentAccrued) == "MOEX НЕ ВЕРНУЛ ТЕКУЩИЙ НКД" && Label(Calculated) == "РАССЧИТАНО"
    ensures forall e :: "ОШИБКА РАСЧЁТА: " <= Label(CalculationFailed(e))
  {
    hide Message;
  }

  lemma ComplaintExplains(config: Config, world: World, r: Refreshed, values: RowValues)
    requires EffectivePurchase(world, r, values).Err?
    ensures Explains(config, world, r, values, Label(EffectivePurchase(world, r, values).error))
  {
    hide CommissionIn, AccruedIn, NumberIn, DateIn, InputsRead, EffectivePurchase, Missing, MissingText, Join, Label;
    InputOutcome(world, r, values);
    ComplaintTexts();
    if CommissionIn(world, values).Some? && !InputsRead(world, values) {
      MissingNames(world, values);
    }
  }

  lemma ResultExplains(config: Config, world: World, r: Refreshed, values: RowValues)
    requires EffectivePurchase(world, r, values).Ok?
    ensures var outcome := OutcomeOf(config, world, r, EffectivePurchase(world, r, values).value);
            Explains(config, world, r, values, Label(outcome))
  {
    hide CommissionIn, AccruedIn, NumberIn, DateIn, InputsRead, EffectivePurchase, Missing, MissingText,
      CurrentOf, Label;
    InputOutcome(world, r, values);
    ResultTexts();
  }

  /** What column AL says of every refreshed row. */
  lemma StatusShown(config: Config, world: World, isin: string, values: RowValues)
    requires world.refresh(isin).Ok?
    ensures exists text :: && At(RowCells(config, world, isin, values), AL_STATUS) == Some(Value.Text(text))
                           && Explains(config, world, world.refresh(isin).value, values, text)
  {
    hide At, RefreshedRow, EffectivePurchase, Label, Explains, OutcomeOf, HistoryOf;
    var r := world.refresh(isin).value;
    RowOutcome(config, world, r, values);
    if EffectivePurchase(world, r, values).Ok? {
      ResultExplains(config, world, r, values);
    } else {
      ComplaintExplains(config, world, r, values);
    }
    var status := match EffectivePurchase(world, r, values)
                  case Err(e) => e
                  case Ok(p) => OutcomeOf(config, world, r, p);
    assert Shows(RowCells(config, world, isin, values), status);
    assert Explains(config, world, r, values, Label(status));
  }

  // ---------- Coupons, failed rows and the header ----------

  lemma PurchaseSummary(config: Config, world: World, r: Refreshed, p: SheetPurchase, d: RowDict)
    requires p.quantity > 0.0 && DistinctIdentities(r.cashflows)
    ensures var cells, date := PurchaseCells(config, world, r, p, d), world.localDate(QuoteTime(r.market));
            && At(cells, AE_COUNT) == Some(Num(|Paid(r.cashflows, Coupon, p.purchaseDate, date)| as real))
            && At(cells, AF_COUPONS)
               == Some(Num(Money(PaidTotal(r.cashflows, Coupon, p.purchaseDate, date, p.quantity))))
  {
    var date := world.localDate(QuoteTime(r.market));
    SummaryMeaning(r.cashflows, p.purchaseDate, date, p.quantity);
    if Quoted(config, r) {
      CurrentMeaning(p, date, MarketRubPrice(r.market, config.priceMode).value, r.market.accrued.value, r.cashflows);
    }
    hide At, Put, Money, Label, CalculateCurrent, SummarizePaidCoupons, Rounded, DistinctIdentities, Calculable, Paid,
      PaidTotal;
  }

  /** The paid coupons of a purchase are shown even if the bond is not quoted. */
  lemma CouponsShown(config: Config, world: World, isin: string, values: RowValues)
    requires world.refresh(isin).Ok? && DistinctIdentities(world.refresh(isin).value.cashflows)
    requires EffectivePurchase(world, world.refresh(isin).value, values).Ok?
    ensures var r := world.refresh(isin).value;
            var p := EffectivePurchase(world, r, values).value;
            var date := world.localDate(if r.market.marketTime.Some? then r.market.marketTime.value
                                        else r.market.receivedAt);
            var cells := RowCells(config, world, isin, values);
            && At(cells, AE_COUNT) == Some(Num(|Paid(r.cashflows, Coupon, p.purchaseDate, date)| as real))
            && At(cells, AF_COUPONS)
               == Some(Num(Money(PaidTotal(r.cashflows, Coupon, p.purchaseDate, date, p.quantity))))
  {
    hide At, Put, PutBlanks, MarketCells, PurchaseCells, WithAccrued, WithCommission, ParsePurchase, Commission,
      PurchaseAccrued, HistoryOf, DistinctIdentities, Paid, PaidTotal;
    var r := world.refresh(isin).value;
    var answer := HistoryOf(world, r, values);
    var blank := PutBlanks(WithAccrued(WithCommission(MarketCells(config, world, r), values), values, world, answer));
    PurchaseSummary(config, world, r, EffectivePurchase(world, r, values).value, blank);
  }

  /** A row whose instrument could not be refreshed: the error is marked, everything else cleared. */
  lemma FailureShown(config: Config, world: World, isin: string, values: RowValues)
    requires ValidConfig(config) && world.refresh(isin).Err?
    ensures var d := RowCells(config, world, isin, values);
            && At(d, config.priceColumn) == Some(Blank)
            && (forall k: Column :: AD_ACCRUED <= k < AL_STATUS ==> At(d, k) == Some(Blank))
            && At(d, AL_STATUS) == Some(Value.Text("ОШИБКА ОБНОВЛЕНИЯ MOEX"))
            && (config.updatedAtColumn.Some? ==> At(d, config.updatedAtColumn.value) == Some(Value.Text("")))
            && (config.statusColumn.Some? ==> At(d, config.statusColumn.value) == Some(Value.Text("ERROR")))
  {
    hide At, Put, PutOptional, PutBlanks;
    NotReserved(config);
    assert OwnColumn(config, config.priceColumn);
    if config.updatedAtColumn.Some? && config.statusColumn.Some? {
      assert UsedColumns(config)[2] == config.updatedAtColumn.value;
      assert UsedColumns(config)[3] == config.statusColumn.value;
    }
    PriceColumnAlone(config);
    assert config.updatedAtColumn.Some? ==> OwnColumn(config, config.updatedAtColumn.value);
    assert config.statusColumn.Some? ==> OwnColumn(config, config.statusColumn.value);
  }

  /** The header row names the results. */
  lemma HeaderShown(config: Config, world: World, sheet: Sheet, rows: seq<Row>)
    requires ValidConfig(config) && DataRows(config, rows)
    ensures var after, h := ApplyBatch(sheet, NaiveBatch(config, world, rows)), config.headerRow;
            && (forall c: Column :: AD_ACCRUED <= c <= AL_STATUS ==> (h, c) in after)
            && after[(h, AD_ACCRUED)] == Value.Text("Текущий НКД MOEX, ₽/шт.")
            && after[(h, AE_COUNT)] == Value.Text("Выплачено купонов, шт.")
            && after[(h, AF_COUPONS)] == Value.Text("Получено купонов, ₽")
            && after[(h, AG_EXIT)] == Value.Text("Текущая стоимость с купонами, ₽")
            && after[(h, AH_BEFORE)] == Value.Text("Текущий доход до налога, ₽")
            && after[(h, AI_AFTER)] == Value.Text("Текущий чистый доход, ₽")
            && after[(h, AJ_ANNUAL)] == Value.Text("Годовой текущий %, после налога")
            && after[(h, AK_DELTA)] == Value.Text("Отклонение от плана, п.п.")
            && after[(h, AL_STATUS)] == Value.Text("Статус расчёта")
  {
    hide MainUpdates, InvalidMarks, DistinctCells, ApplyBatch, HeaderText, DataRows;
    NoDoubleWrites(config, world, rows);
    forall c: Column | AD_ACCRUED <= c <= AL_STATUS
      ensures (config.headerRow, c) in ApplyBatch(sheet, NaiveBatch(config, world, rows))
      ensures ApplyBatch(sheet, NaiveBatch(config, world, rows))[(config.headerRow, c)] == Value.Text(HeaderText(c))
    {
      var u := HeaderUpdates(config)[c - AD_ACCRUED];
      assert u in HeaderUpdates(config);
      Written(sheet, NaiveBatch(config, world, rows), u);
    }
    HeaderTexts();
  }

  lemma HeaderTexts()
    ensures HeaderText(AD_ACCRUED) == "Текущий НКД MOEX, ₽/шт." && HeaderText(AE_COUNT) == "Выплачено купонов, шт."
    ensures HeaderText(AF_COUPONS) == "Получено купонов, ₽" && HeaderText(AG_EXIT) == "Текущая стоимость с купонами, ₽"
    ensures HeaderText(AH_BEFORE) == "Текущий доход до налога, ₽" && HeaderText(AI_AFTER) == "Текущий чистый доход, ₽"
    ensures HeaderText(AJ_ANNUAL) == "Годовой текущий %, после налога"
    ensures HeaderText(AK_DELTA) == "Отклонение от плана, п.п." && HeaderText(AL_STATUS) == "Статус расчёта"
  {
  }
}
