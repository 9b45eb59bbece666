/** Laws of the yields: independence of the quantity, monotonicity in prices, and what tax
    may and may not do. */
module YieldLaws {
  import opened Prelude
  import opened YieldEngine

  // ---------- Real arithmetic ----------

  lemma MulMonotone(a: real, b: real, q: real)
    requires a <= b && q >= 0.0
    ensures a * q <= b * q
  {
  }

  lemma DivMonotone(a: real, b: real, d: real)
    requires a <= b && d > 0.0
    ensures a / d <= b / d
  {
    var x, y := a / d, b / d;
    assert x * d == a && y * d == b;
    assert (x - y) * d == a - b;
    assert x > y ==> (x - y) * d > 0.0;
  }

  lemma DivCancel(k: real, a: real, d: real)
    requires k != 0.0 && d != 0.0 && k * d != 0.0
    ensures (k * a) / (k * d) == a / d
  {
    var x := a / d;
    assert x * d == a;
    assert x * (k * d) == k * (x * d);
  }

  lemma DivSign(a: real, d: real)
    requires d > 0.0
    ensures (a / d > 0.0 <==> a > 0.0) && (a / d == 0.0 <==> a == 0.0)
  {
    var x := a / d;
    assert x * d == a;
    if x > 0.0 {
      assert x * d > 0.0;
    } else if x < 0.0 {
      assert x * d < 0.0;
    }
  }

  // ---------- Annualisation ----------

  lemma AnnualizeMonotone(p: real, p': real, total: real, from: int, to: int)
    requires p <= p' && Annualize(p, total, from, to).Ok?
    ensures Annualize(p', total, from, to).Ok?
    ensures Annualize(p, total, from, to).value <= Annualize(p', total, from, to).value
  {
    DivMonotone(p, p', total);
    DivMonotone(p / total * 365.0, p' / total * 365.0, (to - from) as real);
  }

  lemma AnnualizeSign(p: real, total: real, from: int, to: int)
    requires Annualize(p, total, from, to).Ok?
    ensures Annualize(p, total, from, to).value > 0.0 <==> p > 0.0
    ensures Annualize(p, total, from, to).value == 0.0 <==> p == 0.0
  {
    DivSign(p, total);
    DivSign(p / total * 365.0, (to - from) as real);
  }

  lemma PositiveProduct(k: real, d: real)
    requires k > 0.0
    ensures k * d > 0.0 <==> d > 0.0
    ensures k * d == 0.0 <==> d == 0.0
  {
    if d > 0.0 {
      assert k * d > 0.0;
    } else if d < 0.0 {
      assert k * (-d) > 0.0;
      assert k * (-d) == -(k * d);
    }
  }

  lemma AnnualizeScales(k: real, p: real, total: real, p': real, total': real, from: int, to: int)
    requires k > 0.0 && p' == k * p && total' == k * total
    ensures Annualize(p', total', from, to) == Annualize(p, total, from, to)
  {
    PositiveProduct(k, total);
    if total > 0.0 {
      DivCancel(k, p, total);
    }
  }

  // ---------- Tax ----------

  predicate TakesAll(tax: TaxPolicy) {
    tax.mode == FlatRate && tax.rate == 1.0
  }

  /** Tax never raises a profit, never touches a loss, never turns a gain into a loss, and
      leaves a gain positive exactly when the flat rate is below one. */
  lemma TaxKeepsSign(p: real, tax: TaxPolicy)
    requires ApplyTax(p, tax).Ok?
    ensures var q := ApplyTax(p, tax).value;
            && q <= p
            && (p <= 0.0 ==> q == p)
            && (p > 0.0 ==> q >= 0.0)
            && (q > 0.0 <==> p > 0.0 && !TakesAll(tax))
  {
    if p > 0.0 && tax.mode == FlatRate {
      PositiveProduct(p, 1.0 - tax.rate);
      MulMonotone(1.0 - tax.rate, 1.0, p);
      MulMonotone(0.0, 1.0 - tax.rate, p);
    } else if p > 0.0 {
      DivSign(p, 1.13);
      assert (p / 1.13) * 1.13 == p;
    }
  }

  lemma FlatTaxMonotone(p: real, p': real, rate: real)
    requires p <= p' && rate <= 1.0
    ensures AfterFlatTax(p, rate) <= AfterFlatTax(p', rate)
  {
    MulMonotone(p, p', 1.0 - rate);
  }

  lemma TaxMonotone(p: real, p': real, tax: TaxPolicy)
    requires p <= p' && ApplyTax(p', tax).Ok?
    ensures ApplyTax(p, tax).Ok?
    ensures ApplyTax(p, tax).value <= ApplyTax(p', tax).value
  {
    if p <= 0.0 {
      hide ApplyTax;
      TaxKeepsSign(p', tax);
      TaxKeepsLoss(p, tax);
    } else if tax.mode == FlatRate {
      hide AfterFlatTax;
      FlatTaxMonotone(p, p', tax.rate);
    } else if tax.mode == LegacyDivide {
      DivMonotone(p, p', 1.13);
    }
  }

  lemma TaxKeepsLoss(p: real, tax: TaxPolicy)
    requires p <= 0.0
    ensures ApplyTax(p, tax) == Ok(p)
  {
  }

  lemma TaxScales(k: real, p: real, p': real, tax: TaxPolicy)
    requires k > 0.0 && p' == k * p
    ensures ApplyTax(p, tax).Ok? <==> ApplyTax(p', tax).Ok?
    ensures ApplyTax(p, tax).Ok? ==> ApplyTax(p', tax).value == k * ApplyTax(p, tax).value
    ensures ApplyTax(p, tax).Err? ==> ApplyTax(p', tax) == ApplyTax(p, tax)
  {
    PositiveProduct(k, p);
    Associate(k, p, 1.0 - tax.rate);
    assert (k * p) / 1.13 == k * (p / 1.13);
  }

  // ---------- The common end of both scenarios ----------

  function ScaleP(k: real, p: PurchaseResult): PurchaseResult {
    PurchaseResult(k * p.cleanTotal, k * p.accruedTotal, k * p.commissionTotal, k * p.purchaseTotal)
  }

  function ScaleT(k: real, t: Totals): Totals {
    Totals(k * t.coupons, k * t.amortizations)
  }

  /** Both fail alike, or both succeed with the same yields over the same days. */
  predicate SameYields(r: Result<YieldResult, EngineError>, s: Result<YieldResult, EngineError>) {
    match (r, s)
    case (Err(e), Err(f)) => e == f
    case (Ok(x), Ok(y)) =>
      && x.annualBeforeTax == y.annualBeforeTax && x.annualAfterTax == y.annualAfterTax
      && x.holdingDays == y.holdingDays
    case _ => false
  }

  /** A profit over a purchase total counts the same as k times the profit over k times the
      total, before and after tax. */
  lemma ProfitsCountTheSame(k: real, exit: real, total: real, exit': real, total': real, from: int, to: int,
      tax: TaxPolicy)
    requires k > 0.0 && exit' == k * exit && total' == k * total
    ensures Annualize(exit' - total', total', from, to) == Annualize(exit - total, total, from, to)
    ensures ApplyTax(exit' - total', tax).Ok? <==> ApplyTax(exit - total, tax).Ok?
    ensures ApplyTax(exit - total, tax).Err? ==> ApplyTax(exit' - total', tax) == ApplyTax(exit - total, tax)
    ensures ApplyTax(exit - total, tax).Ok? ==>
              Annualize(ApplyTax(exit' - total', tax).value, total', from, to)
              == Annualize(ApplyTax(exit - total, tax).value, total, from, to)
  {
    hide *;
    var x, x' := exit - total, exit' - total';
    ProfitScales(k, exit, total);
    TaxScales(k, x, x', tax);
    AnnualizeScales(k, x, total, x', total', from, to);
    if ApplyTax(x, tax).Ok? {
      AnnualizeScales(k, ApplyTax(x, tax).value, total, ApplyTax(x', tax).value, total', from, to);
    }
  }

  lemma FinishScales(
    k: real, p: PurchaseResult, t: Totals, m: real, a: real, s: real, exit: real,
    p': PurchaseResult, t': Totals, m': real, a': real, s': real, exit': real,
    from: int, to: int, tax: TaxPolicy)
    requires k > 0.0 && exit' == k * exit && p'.purchaseTotal == k * p.purchaseTotal
    ensures SameYields(Finish(p, t, m, a, s, exit, from, to, tax),
                       Finish(p', t', m', a', s', exit', from, to, tax))
  {
    ProfitsCountTheSame(k, exit, p.purchaseTotal, exit', p'.purchaseTotal, from, to, tax);
  }

  lemma ProfitScales(k: real, exitTotal: real, purchaseTotal: real)
    ensures k * exitTotal - k * purchaseTotal == k * (exitTotal - purchaseTotal)
  {
  }

  lemma PurchaseTotalScales(k: real, p: PurchaseInput)
    ensures p.cleanPrice * (k * p.quantity) == k * (p.cleanPrice * p.quantity)
    ensures p.accruedInterest * (k * p.quantity) == k * (p.accruedInterest * p.quantity)
    ensures p.commission * (k * p.quantity) == k * (p.commission * p.quantity)
    ensures p.cleanPrice * (k * p.quantity) + p.accruedInterest * (k * p.quantity) + p.commission * (k * p.quantity)
            == k * (p.cleanPrice * p.quantity + p.accruedInterest * p.quantity + p.commission * p.quantity)
  {
  }

  lemma PurchaseScales(k: real, p: PurchaseInput)
    requires k > 0.0
    ensures var r, big := CalculatePurchase(p), CalculatePurchase(p.(quantity := k * p.quantity));
            && (r.Ok? <==> big.Ok?)
            && (r.Ok? ==> big.value == ScaleP(k, r.value))
            && (r.Err? ==> big.error == r.error)
  {
    PositiveProduct(k, p.quantity);
    PurchaseTotalScales(k, p);
  }

  lemma TotalsScale(k: real, flows: seq<CashFlow>, after: int, until: int, q: real, q': real)
    requires q' == k * q
    ensures var r, big := CashflowTotals(flows, after, until, q), CashflowTotals(flows, after, until, q');
            && (r.Ok? <==> big.Ok?)
            && (r.Ok? ==> big.value == ScaleT(k, r.value))
            && (r.Err? ==> big.error == r.error)
  {
    Associate(k, q, Sum(Paid(flows, Coupon, after, until)));
    Associate(k, q, Sum(Paid(flows, Amortization, after, until)));
  }

  lemma Associate(k: real, q: real, x: real)
    ensures k * q * x == k * (q * x)
  {
  }

  function MoreBonds(p: PurchaseInput, k: real): PurchaseInput {
    p.(quantity := k * p.quantity)
  }

  lemma CurrentExitScales(v: CurrentInput, k: real, t: Totals)
    ensures CurrentExit(v.(purchase := MoreBonds(v.purchase, k)), ScaleT(k, t)) == k * CurrentExit(v, t)
  {
  }

  lemma PlannedExitScales(v: PlannedInput, k: real, t: Totals)
    ensures PlannedExit(v.(purchase := MoreBonds(v.purchase, k)), ScaleT(k, t)) == k * PlannedExit(v, t)
  {
  }

  lemma CurrentFromScales(v: CurrentInput, w: CurrentInput, k: real, p: PurchaseResult, t: Totals,
      p': PurchaseResult, t': Totals)
    requires w.purchase.purchaseDate == v.purchase.purchaseDate && w.valuationDate == v.valuationDate && w.tax == v.tax
    requires k > 0.0 && p'.purchaseTotal == k * p.purchaseTotal && CurrentExit(w, t') == k * CurrentExit(v, t)
    ensures SameYields(CurrentFrom(v, p, t), CurrentFrom(w, p', t'))
  {
    var q, q' := v.purchase.quantity, w.purchase.quantity;
    FinishScales(k, p, t, v.bid * q, v.currentAccrued * q, v.saleCommission * q, CurrentExit(v, t),
                 p', t', w.bid * q', w.currentAccrued * q', w.saleCommission * q', CurrentExit(w, t'),
                 v.purchase.purchaseDate, v.valuationDate, v.tax);
  }

  lemma PlannedFromScales(v: PlannedInput, w: PlannedInput, k: real, p: PurchaseResult, t: Totals,
      p': PurchaseResult, t': Totals)
    requires w.purchase.purchaseDate == v.purchase.purchaseDate && w.targetDate == v.targetDate && w.tax == v.tax
    requires k > 0.0 && p'.purchaseTotal == k * p.purchaseTotal && PlannedExit(w, t') == k * PlannedExit(v, t)
    ensures SameYields(PlannedFrom(v, p, t), PlannedFrom(w, p', t'))
  {
    var q, q' := v.purchase.quantity, w.purchase.quantity;
    FinishScales(k, p, t, v.redemption * q, 0.0, v.saleCommission * q, PlannedExit(v, t),
                 p', t', w.redemption * q', 0.0, w.saleCommission * q', PlannedExit(w, t'),
                 v.purchase.purchaseDate, v.targetDate, v.tax);
  }

  /** Buying k times as many bonds changes no yield of the current scenario. */
  lemma CurrentYieldIgnoresQuantity(v: CurrentInput, k: real)
    requires k > 0.0
    ensures SameYields(CurrentYield(v), CurrentYield(v.(purchase := MoreBonds(v.purchase, k))))
  {
    hide CurrentFrom, CalculatePurchase, CashflowTotals, CurrentExit;
    var w := v.(purchase := MoreBonds(v.purchase, k));
    var q, q' := v.purchase.quantity, w.purchase.quantity;
    PurchaseScales(k, v.purchase);
    TotalsScale(k, v.cashflows, v.purchase.purchaseDate, v.valuationDate, q, q');
    assert w.purchase == v.purchase.(quantity := k * v.purchase.quantity);
    var p := CalculatePurchase(v.purchase);
    var t := CashflowTotals(v.cashflows, v.purchase.purchaseDate, v.valuationDate, q);
    var t' := CashflowTotals(w.cashflows, w.purchase.purchaseDate, w.valuationDate, q');
    if p.Ok? && t.Ok? {
      assert t'.value == ScaleT(k, t.value);
      CurrentExitScales(v, k, t.value);
      CurrentFromScales(v, w, k, p.value, t.value, ScaleP(k, p.value), ScaleT(k, t.value));
    }
  }

  /** The same for the planned scenario. */
  lemma PlannedYieldIgnoresQuantity(v: PlannedInput, k: real)
    requires k > 0.0
    ensures SameYields(PlannedYield(v), PlannedYield(v.(purchase := MoreBonds(v.purchase, k))))
  {
    hide PlannedFrom, CalculatePurchase, CashflowTotals, PlannedExit;
    var w := v.(purchase := MoreBonds(v.purchase, k));
    var q, q' := v.purchase.quantity, w.purchase.quantity;
    PurchaseScales(k, v.purchase);
    TotalsScale(k, v.cashflows, v.purchase.purchaseDate, v.targetDate, q, q');
    assert w.purchase == v.purchase.(quantity := k * v.purchase.quantity);
    var p := CalculatePurchase(v.purchase);
    var t := CashflowTotals(v.cashflows, v.purchase.purchaseDate, v.targetDate, q);
    var t' := CashflowTotals(w.cashflows, w.purchase.purchaseDate, w.targetDate, q');
    if p.Ok? && t.Ok? {
      assert t'.value == ScaleT(k, t.value);
      PlannedExitScales(v, k, t.value);
      PlannedFromScales(v, w, k, p.value, t.value, ScaleP(k, p.value), ScaleT(k, t.value));
    }
  }

  // ---------- Monotonicity ----------

  predicate YieldsAtMost(r: Result<YieldResult, EngineError>, better: Result<YieldResult, EngineError>) {
    r.Ok? && better.Ok? ==>
      && r.value.annualBeforeTax <= better.value.annualBeforeTax
      && r.value.annualAfterTax <= better.value.annualAfterTax
  }

  lemma FinishMonotone(
    purchase: PurchaseResult, totals: Totals, m: real, a: real, s: real, exit: real,
    m': real, a': real, s': real, exit': real, from: int, to: int, tax: TaxPolicy)
    requires exit <= exit'
    ensures YieldsAtMost(Finish(purchase, totals, m, a, s, exit, from, to, tax),
                         Finish(purchase, totals, m', a', s', exit', from, to, tax))
  {
    var p, p' := exit - purchase.purchaseTotal, exit' - purchase.purchaseTotal;
    if ApplyTax(p', tax).Ok? && Annualize(p, purchase.purchaseTotal, from, to).Ok? {
      TaxMonotone(p, p', tax);
      AnnualizeMonotone(p, p', purchase.purchaseTotal, from, to);
      AnnualizeMonotone(ApplyTax(p, tax).value, ApplyTax(p', tax).value, purchase.purchaseTotal, from, to);
    }
  }

  lemma CurrentExitMonotone(v: CurrentInput, bid: real, accrued: real, t: Totals)
    requires v.bid <= bid && v.currentAccrued <= accrued && v.purchase.quantity >= 0.0
    ensures CurrentExit(v, t) <= CurrentExit(v.(bid := bid, currentAccrued := accrued), t)
  {
    MulMonotone(v.bid, bid, v.purchase.quantity);
    MulMonotone(v.currentAccrued, accrued, v.purchase.quantity);
  }

  /** A higher bid or a higher current accrued interest never lowers a current yield. */
  lemma CurrentYieldMonotone(v: CurrentInput, bid: real, accrued: real)
    requires v.bid <= bid && v.currentAccrued <= accrued
    ensures YieldsAtMost(CurrentYield(v), CurrentYield(v.(bid := bid, currentAccrued := accrued)))
  {
    var q := v.purchase.quantity;
    var p := CalculatePurchase(v.purchase);
    var t := CashflowTotals(v.cashflows, v.purchase.purchaseDate, v.valuationDate, q);
    if p.Ok? && t.Ok? {
      var w := v.(bid := bid, currentAccrued := accrued);
      CurrentExitMonotone(v, bid, accrued, t.value);
      FinishMonotone(p.value, t.value,
                     v.bid * q, v.currentAccrued * q, v.saleCommission * q, CurrentExit(v, t.value),
                     bid * q, accrued * q, v.saleCommission * q, CurrentExit(w, t.value),
                     v.purchase.purchaseDate, v.valuationDate, v.tax);
    }
  }

  lemma PlannedExitMonotone(v: PlannedInput, redemption: real, t: Totals)
    requires v.redemption <= redemption && v.purchase.quantity >= 0.0
    ensures PlannedExit(v, t) <= PlannedExit(v.(redemption := redemption), t)
  {
    MulMonotone(v.redemption, redemption, v.purchase.quantity);
  }

  /** A higher redemption price never lowers a planned yield. */
  lemma PlannedYieldMonotone(v: PlannedInput, redemption: real)
    requires v.redemption <= redemption
    ensures YieldsAtMost(PlannedYield(v), PlannedYield(v.(redemption := redemption)))
  {
    var q := v.purchase.quantity;
    var p := CalculatePurchase(v.purchase);
    var t := CashflowTotals(v.cashflows, v.purchase.purchaseDate, v.targetDate, q);
    if p.Ok? && t.Ok? {
      PlannedExitMonotone(v, redemption, t.value);
      FinishMonotone(p.value, t.value,
                     v.redemption * q, 0.0, v.saleCommission * q, PlannedExit(v, t.value),
                     redemption * q, 0.0, v.saleCommission * q, PlannedExit(v.(redemption := redemption), t.value),
                     v.purchase.purchaseDate, v.targetDate, v.tax);
    }
  }

  /** A flat rate outside [0, 1] refuses a gain, and nothing else. */
  predicate TaxRefuses(profit: real, tax: TaxPolicy) {
    profit > 0.0 && tax.mode == FlatRate && !(0.0 <= tax.rate <= 1.0)
  }

  lemma TaxFails(profit: real, tax: TaxPolicy)
    ensures ApplyTax(profit, tax).Err? <==> TaxRefuses(profit, tax)
  {
  }

  lemma FinishExists(
    purchase: PurchaseResult, totals: Totals, m: real, a: real, s: real, exit: real,
    m': real, a': real, s': real, exit': real, from: int, to: int, tax: TaxPolicy)
    requires Finish(purchase, totals, m, a, s, exit, from, to, tax).Ok?
    ensures Finish(purchase, totals, m', a', s', exit', from, to, tax).Ok?
            <==> !TaxRefuses(exit' - purchase.purchaseTotal, tax)
  {
    TaxFails(exit' - purchase.purchaseTotal, tax);
    hide ApplyTax;
  }

  lemma CurrentExitShift(v: CurrentInput, bid: real, accrued: real, t: Totals)
    ensures CurrentExit(v.(bid := bid, currentAccrued := accrued), t)
            == CurrentExit(v, t)
               + (bid - v.bid) * v.purchase.quantity + (accrued - v.currentAccrued) * v.purchase.quantity
  {
  }

  /** A higher bid or current accrued interest keeps an existing result, unless a flat rate outside
      [0, 1] meets the gain that it leads to. */
  lemma CurrentResultKept(v: CurrentInput, bid: real, accrued: real)
    requires v.bid <= bid && v.currentAccrued <= accrued && CurrentYield(v).Ok?
    ensures var r := CurrentYield(v).value;
            var gain := r.profitBeforeTax
                        + (bid - v.bid) * v.purchase.quantity + (accrued - v.currentAccrued) * v.purchase.quantity;
            CurrentYield(v.(bid := bid, currentAccrued := accrued)).Ok? <==> !TaxRefuses(gain, v.tax)
  {
    var q := v.purchase.quantity;
    var p := CalculatePurchase(v.purchase).value;
    var t := CashflowTotals(v.cashflows, v.purchase.purchaseDate, v.valuationDate, q).value;
    var w := v.(bid := bid, currentAccrued := accrued);
    CurrentExitShift(v, bid, accrued, t);
    hide CurrentExit, TaxRefuses, ApplyTax, CashflowTotals, CalculatePurchase;
    FinishExists(p, t, v.bid * q, v.currentAccrued * q, v.saleCommission * q, CurrentExit(v, t),
                 bid * q, accrued * q, v.saleCommission * q, CurrentExit(w, t),
                 v.purchase.purchaseDate, v.valuationDate, v.tax);
  }

  /** The same for a higher redemption price. */
  lemma PlannedResultKept(v: PlannedInput, redemption: real)
    requires v.redemption <= redemption && PlannedYield(v).Ok?
    ensures var gain := PlannedYield(v).value.profitBeforeTax + (redemption - v.redemption) * v.purchase.quantity;
            PlannedYield(v.(redemption := redemption)).Ok? <==> !TaxRefuses(gain, v.tax)
  {
    var q := v.purchase.quantity;
    var p := CalculatePurchase(v.purchase).value;
    var t := CashflowTotals(v.cashflows, v.purchase.purchaseDate, v.targetDate, q).value;
    var w := v.(redemption := redemption);
    PlannedExitShift(v, redemption, t);
    hide PlannedExit, TaxRefuses, ApplyTax, CashflowTotals, CalculatePurchase;
    FinishExists(p, t, v.redemption * q, 0.0, v.saleCommission * q, PlannedExit(v, t),
                 redemption * q, 0.0, v.saleCommission * q, PlannedExit(w, t),
                 v.purchase.purchaseDate, v.targetDate, v.tax);
  }

  lemma PlannedExitShift(v: PlannedInput, redemption: real, t: Totals)
    ensures PlannedExit(v.(redemption := redemption), t)
            == PlannedExit(v, t) + (redemption - v.redemption) * v.purchase.quantity
  {
  }

  // ---------- Tax on yields ----------

  ghost predicate TaxOnlyShrinks(r: Result<YieldResult, EngineError>, tax: TaxPolicy) {
    r.Ok? ==>
      && r.value.annualAfterTax <= r.value.annualBeforeTax
      && (r.value.annualBeforeTax <= 0.0 ==> r.value.annualAfterTax == r.value.annualBeforeTax)
      && (r.value.annualBeforeTax > 0.0 ==> r.value.annualAfterTax >= 0.0)
      && (r.value.annualAfterTax > 0.0 <==> r.value.annualBeforeTax > 0.0 && !TakesAll(tax))
  }

  lemma FinishTax(
    purchase: PurchaseResult, totals: Totals, m: real, a: real, s: real, exit: real,
    from: int, to: int, tax: TaxPolicy)
    ensures TaxOnlyShrinks(Finish(purchase, totals, m, a, s, exit, from, to, tax), tax)
  {
    var r := Finish(purchase, totals, m, a, s, exit, from, to, tax);
    if r.Ok? {
      var p, q := r.value.profitBeforeTax, r.value.profitAfterTax;
      TaxKeepsSign(p, tax);
      AnnualizeMonotone(q, p, purchase.purchaseTotal, from, to);
      AnnualizeSign(p, purchase.purchaseTotal, from, to);
      AnnualizeSign(q, purchase.purchaseTotal, from, to);
    }
  }

  /** In every tax mode the yield after tax is at most the one before; a loss is untouched, a
      gain stays a gain unless a flat rate of one takes it all. */
  lemma TaxOnYields(v: CurrentInput, w: PlannedInput)
    ensures TaxOnlyShrinks(CurrentYield(v), v.tax)
    ensures TaxOnlyShrinks(PlannedYield(w), w.tax)
  {
    if CurrentYield(v).Ok? {
      var r := CurrentYield(v).value;
      FinishTax(r.purchase, Totals(r.coupons, r.amortizations), r.redemptionOrMarket, r.accruedInterest,
                r.saleCommission, r.exitTotal, v.purchase.purchaseDate, v.valuationDate, v.tax);
    }
    if PlannedYield(w).Ok? {
      var r := PlannedYield(w).value;
      FinishTax(r.purchase, Totals(r.coupons, r.amortizations), r.redemptionOrMarket, r.accruedInterest,
                r.saleCommission, r.exitTotal, w.purchase.purchaseDate, w.targetDate, w.tax);
    }
  }
}
