/** What the two scenarios of the engine compute, from the fields of their inputs. */
module YieldMeaning {
  import opened Prelude
  import opened YieldEngine

  /** What one bond costs, and all of them. */
  function BondCost(p: PurchaseInput): real {
    p.cleanPrice + p.accruedInterest + p.commission
  }

  function Cost(p: PurchaseInput): real {
    BondCost(p) * p.quantity
  }

  /** What one bond pays until the exit: the distinct coupons and amortizations. */
  ghost function BondIncome(flows: seq<CashFlow>, after: int, until: int): real {
    Sum(Paid(flows, Coupon, after, until)) + Sum(Paid(flows, Amortization, after, until))
  }

  /** The gain of selling at this value per bond. */
  ghost function Gain(p: PurchaseInput, flows: seq<CashFlow>, until: int, value: real): real {
    (value + BondIncome(flows, p.purchaseDate, until) - BondCost(p)) * p.quantity
  }

  function TaxedGain(gain: real, tax: TaxPolicy): real {
    if gain <= 0.0 then gain
    else match tax.mode
      case NoTax => gain
      case FlatRate => gain - gain * tax.rate
      case LegacyDivide => gain / 1.13
  }

  predicate TaxFits(gain: real, tax: TaxPolicy) {
    gain > 0.0 && tax.mode == FlatRate ==> 0.0 <= tax.rate <= 1.0
  }

  /** No amount is negative, the exit follows the purchase, which cost something, and the tax fits. */
  ghost predicate Computable(p: PurchaseInput, flows: seq<CashFlow>, until: int, gain: real, tax: TaxPolicy) {
    && p.quantity > 0.0 && p.cleanPrice >= 0.0 && p.accruedInterest >= 0.0 && p.commission >= 0.0
    && (forall f :: f in flows ==> f.amount >= 0.0)
    && until > p.purchaseDate && BondCost(p) > 0.0
    && TaxFits(gain, tax)
  }

  /** A gain in percent of the cost and for a year of 365 days. */
  function PerYear(gain: real, cost: real, days: int): real
    requires cost != 0.0 && days != 0
  {
    gain / cost * 365.0 / days as real * 100.0
  }

  /** The parts of a result that do not depend on the scenario. */
  ghost predicate Reports(
    r: YieldResult, p: PurchaseInput, flows: seq<CashFlow>, until: int, gain: real, tax: TaxPolicy)
  {
    var q, days := p.quantity, until - p.purchaseDate;
    && r.purchase == PurchaseResult(p.cleanPrice * q, p.accruedInterest * q, p.commission * q, Cost(p))
    && r.coupons == q * Sum(Paid(flows, Coupon, p.purchaseDate, until))
    && r.amortizations == q * Sum(Paid(flows, Amortization, p.purchaseDate, until))
    && r.exitTotal == Cost(p) + gain && r.profitBeforeTax == gain && r.profitAfterTax == TaxedGain(gain, tax)
    && r.holdingDays == days && days > 0 && Cost(p) > 0.0
    && r.annualBeforeTax == PerYear(gain, Cost(p), days)
    && r.annualAfterTax == PerYear(TaxedGain(gain, tax), Cost(p), days)
  }

  lemma TaxMeaning(gain: real, tax: TaxPolicy)
    ensures ApplyTax(gain, tax) == if TaxFits(gain, tax) then Ok(TaxedGain(gain, tax)) else Err(RateOutOfRange)
  {
    Distribute(gain, 1.0, -tax.rate);
    if gain > 0.0 {
      match tax.mode
      case NoTax =>
      case FlatRate => assert TaxedGain(gain, tax) == AfterFlatTax(gain, tax.rate);
      case LegacyDivide =>
    }
  }

  lemma CostMeaning(p: PurchaseInput)
    ensures CalculatePurchase(p).Ok?
            <==> p.quantity > 0.0 && p.cleanPrice >= 0.0 && p.accruedInterest >= 0.0 && p.commission >= 0.0
    ensures var q := p.quantity;
            CalculatePurchase(p).Ok? ==>
              CalculatePurchase(p).value
              == PurchaseResult(p.cleanPrice * q, p.accruedInterest * q, p.commission * q, Cost(p))
    ensures p.quantity > 0.0 ==> (Cost(p) > 0.0 <==> BondCost(p) > 0.0)
  {
    Distribute(p.quantity, p.cleanPrice, p.accruedInterest);
    Distribute(p.quantity, p.cleanPrice + p.accruedInterest, p.commission);
    if p.quantity > 0.0 {
      Sign(p.quantity, BondCost(p));
    }
  }

  lemma Sign(q: real, x: real)
    requires q > 0.0
    ensures x * q > 0.0 <==> x > 0.0
  {
    if x > 0.0 {
      assert x * q > 0.0;
    } else {
      assert -x * q >= 0.0;
    }
  }

  lemma FinishMeaning(
    purchase: PurchaseResult, totals: Totals, m: real, a: real, s: real, exit: real, from: int, to: int, tax: TaxPolicy)
    ensures var r, gain := Finish(purchase, totals, m, a, s, exit, from, to, tax), exit - purchase.purchaseTotal;
            && (r.Ok? <==> to > from && purchase.purchaseTotal > 0.0 && TaxFits(gain, tax))
            && (r.Ok? ==>
                  r.value == YieldResult(
                    purchase, totals.coupons, totals.amortizations, m, a, s, exit, gain, TaxedGain(gain, tax),
                    PerYear(gain, purchase.purchaseTotal, to - from),
                    PerYear(TaxedGain(gain, tax), purchase.purchaseTotal, to - from), to - from))
            && (r.Err? ==> r.error == if !TaxFits(gain, tax) then RateOutOfRange
                                      else if to <= from then ExitNotAfterPurchase else NonPositivePurchaseTotal)
  {
    TaxMeaning(exit - purchase.purchaseTotal, tax);
    hide ApplyTax, TaxFits, TaxedGain;
  }

  /** The exit total, bond by bond. */
  lemma ExitPerBond(p: PurchaseInput, flows: seq<CashFlow>, until: int, value: real, coupons: real, amortizations: real)
    requires coupons == PaidTotal(flows, Coupon, p.purchaseDate, until, p.quantity)
    requires amortizations == PaidTotal(flows, Amortization, p.purchaseDate, until, p.quantity)
    ensures value * p.quantity + coupons + amortizations - Cost(p) == Gain(p, flows, until, value)
  {
    var c, a := Sum(Paid(flows, Coupon, p.purchaseDate, until)), Sum(Paid(flows, Amortization, p.purchaseDate, until));
    hide Paid;
    Distribute(p.quantity, c, a);
    Distribute(p.quantity, value, c + a);
    Distribute(p.quantity, value + (c + a) - BondCost(p), BondCost(p));
  }

  /** The distinct flows paid until the exit, times the quantity. */
  ghost function TotalsOf(p: PurchaseInput, flows: seq<CashFlow>, until: int): Totals {
    Totals(PaidTotal(flows, Coupon, p.purchaseDate, until, p.quantity),
           PaidTotal(flows, Amortization, p.purchaseDate, until, p.quantity))
  }

  ghost function PlannedGain(v: PlannedInput): real {
    Gain(v.purchase, v.cashflows, v.targetDate, v.redemption - v.saleCommission)
  }

  lemma PlannedExitGain(v: PlannedInput)
    ensures PlannedExit(v, TotalsOf(v.purchase, v.cashflows, v.targetDate)) == Cost(v.purchase) + PlannedGain(v)
  {
    var p, q, t := v.purchase, v.purchase.quantity, TotalsOf(v.purchase, v.cashflows, v.targetDate);
    Distribute(q, v.redemption, -v.saleCommission);
    ExitPerBond(p, v.cashflows, v.targetDate, v.redemption - v.saleCommission, t.coupons, t.amortizations);
    hide Gain, Cost, PaidTotal;
  }

  lemma PlannedFromMeaning(v: PlannedInput, purchase: PurchaseResult, totals: Totals)
    ensures var r, gain := PlannedFrom(v, purchase, totals), PlannedExit(v, totals) - purchase.purchaseTotal;
            var q := v.purchase.quantity;
            var days := v.targetDate - v.purchase.purchaseDate;
            && (r.Ok? <==> days > 0 && purchase.purchaseTotal > 0.0 && TaxFits(gain, v.tax))
            && (r.Ok? ==>
                  r.value == YieldResult(
                    purchase, totals.coupons, totals.amortizations, v.redemption * q, 0.0, v.saleCommission * q,
                    PlannedExit(v, totals), gain, TaxedGain(gain, v.tax), PerYear(gain, purchase.purchaseTotal, days),
                    PerYear(TaxedGain(gain, v.tax), purchase.purchaseTotal, days), days))
    ensures var r, gain := PlannedFrom(v, purchase, totals), PlannedExit(v, totals) - purchase.purchaseTotal;
            r.Err? ==> r.error == if !TaxFits(gain, v.tax) then RateOutOfRange
                                  else if v.targetDate <= v.purchase.purchaseDate then ExitNotAfterPurchase
                                  else NonPositivePurchaseTotal
  {
    var q := v.purchase.quantity;
    FinishMeaning(purchase, totals, v.redemption * q, 0.0, v.saleCommission * q, PlannedExit(v, totals),
                  v.purchase.purchaseDate, v.targetDate, v.tax);
    hide PlannedExit, TaxFits, TaxedGain, PerYear;
  }

  /** The planned result exists exactly if no amount is negative, the target follows the purchase,
      which cost something, and the tax fits. Every bond then brings its redemption and all distinct
      coupons and amortizations paid until the target, less the sale commission. */
  lemma PlannedMeaning(v: PlannedInput)
    ensures PlannedYield(v).Ok?
            <==> && v.redemption >= 0.0 && v.saleCommission >= 0.0
                 && Computable(v.purchase, v.cashflows, v.targetDate, PlannedGain(v), v.tax)
    ensures PlannedYield(v).Ok? ==>
              var r, q := PlannedYield(v).value, v.purchase.quantity;
              && Reports(r, v.purchase, v.cashflows, v.targetDate, PlannedGain(v), v.tax)
              && r.redemptionOrMarket == v.redemption * q && r.accruedInterest == 0.0
              && r.saleCommission == v.saleCommission * q
  {
    hide Gain, Cost, BondCost, Paid, TaxedGain, TaxFits, CalculatePurchase, PlannedFrom, PlannedExit, PlannedGain,
      PerYear;
    var p, q := v.purchase, v.purchase.quantity;
    var totals := TotalsOf(p, v.cashflows, v.targetDate);
    CostMeaning(p);
    PlannedExitGain(v);
    if CalculatePurchase(p).Ok? {
      PlannedFromMeaning(v, CalculatePurchase(p).value, totals);
    }
  }

  ghost function CurrentGain(v: CurrentInput): real {
    Gain(v.purchase, v.cashflows, v.valuationDate, v.bid + v.currentAccrued - v.saleCommission)
  }

  lemma CurrentExitGain(v: CurrentInput)
    ensures CurrentExit(v, TotalsOf(v.purchase, v.cashflows, v.valuationDate)) == Cost(v.purchase) + CurrentGain(v)
  {
    var p, q, t := v.purchase, v.purchase.quantity, TotalsOf(v.purchase, v.cashflows, v.valuationDate);
    Distribute(q, v.bid, v.currentAccrued);
    Distribute(q, v.bid + v.currentAccrued, -v.saleCommission);
    ExitPerBond(p, v.cashflows, v.valuationDate, v.bid + v.currentAccrued - v.saleCommission, t.coupons,
                t.amortizations);
    hide Gain, Cost, PaidTotal;
  }

  lemma CurrentFromMeaning(v: CurrentInput, purchase: PurchaseResult, totals: Totals)
    ensures var r, gain := CurrentFrom(v, purchase, totals), CurrentExit(v, totals) - purchase.purchaseTotal;
            var q := v.purchase.quantity;
            var days := v.valuationDate - v.purchase.purchaseDate;
            && (r.Ok? <==> days > 0 && purchase.purchaseTotal > 0.0 && TaxFits(gain, v.tax))
            && (r.Ok? ==>
                  r.value == YieldResult(
                    purchase, totals.coupons, totals.amortizations, v.bid * q, v.currentAccrued * q,
                    v.saleCommission * q, CurrentExit(v, totals), gain, TaxedGain(gain, v.tax),
                    PerYear(gain, purchase.purchaseTotal, days),
                    PerYear(TaxedGain(gain, v.tax), purchase.purchaseTotal, days), days))
    ensures var r, gain := CurrentFrom(v, purchase, totals), CurrentExit(v, totals) - purchase.purchaseTotal;
            r.Err? ==> r.error == if !TaxFits(gain, v.tax) then RateOutOfRange
                                  else if v.valuationDate <= v.purchase.purchaseDate then ExitNotAfterPurchase
                                  else NonPositivePurchaseTotal
  {
    var q := v.purchase.quantity;
    FinishMeaning(purchase, totals, v.bid * q, v.currentAccrued * q, v.saleCommission * q, CurrentExit(v, totals),
                  v.purchase.purchaseDate, v.valuationDate, v.tax);
    hide CurrentExit, TaxFits, TaxedGain, PerYear;
  }

  /** The current result likewise, with the quote and the accrued interest instead of a redemption. */
  lemma CurrentYieldMeaning(v: CurrentInput)
    ensures CurrentYield(v).Ok?
            <==> && v.bid >= 0.0 && v.currentAccrued >= 0.0 && v.saleCommission >= 0.0
                 && Computable(v.purchase, v.cashflows, v.valuationDate, CurrentGain(v), v.tax)
    ensures CurrentYield(v).Ok? ==>
              var r, q := CurrentYield(v).value, v.purchase.quantity;
              && Reports(r, v.purchase, v.cashflows, v.valuationDate, CurrentGain(v), v.tax)
              && r.redemptionOrMarket == v.bid * q && r.accruedInterest == v.currentAccrued * q
              && r.saleCommission == v.saleCommission * q
  {
    hide Gain, Cost, BondCost, Paid, TaxedGain, TaxFits, CalculatePurchase, CurrentFrom, CurrentExit, CurrentGain,
      PerYear;
    var p, q := v.purchase, v.purchase.quantity;
    var totals := TotalsOf(p, v.cashflows, v.valuationDate);
    CostMeaning(p);
    CurrentExitGain(v);
    if CalculatePurchase(p).Ok? {
      CurrentFromMeaning(v, CalculatePurchase(p).value, totals);
    }
  }

  // ---------- Errors ----------

  /** The first thing that is wrong with the purchase, the flows, the tax or the dates. */
  ghost function FirstFault(p: PurchaseInput, flows: seq<CashFlow>, until: int, gain: real, tax: TaxPolicy)
    : Option<EngineError>
  {
    if p.quantity <= 0.0 then Some(NonPositiveQuantity)
    else if p.cleanPrice < 0.0 || p.accruedInterest < 0.0 || p.commission < 0.0 then Some(NegativePurchase)
    else if exists f :: f in flows && f.amount < 0.0 then Some(NegativeCashFlow)
    else if !TaxFits(gain, tax) then Some(RateOutOfRange)
    else if until <= p.purchaseDate then Some(ExitNotAfterPurchase)
    else if BondCost(p) == 0.0 then Some(NonPositivePurchaseTotal)
    else None
  }

  /** Which error a refused planned calculation reports. */
  lemma PlannedFault(v: PlannedInput)
    requires PlannedYield(v).Err?
    ensures if v.redemption < 0.0 || v.saleCommission < 0.0 then PlannedYield(v) == Err(NegativeExitAmount)
            else Some(PlannedYield(v).error)
                 == FirstFault(v.purchase, v.cashflows, v.targetDate, PlannedGain(v), v.tax)
  {
    hide Gain, Cost, Paid, TaxFits, CalculatePurchase, PlannedFrom, PlannedExit, PlannedGain,
      PerYear;
    var p := v.purchase;
    CostMeaning(p);
    PlannedExitGain(v);
    if CalculatePurchase(p).Err? {
      PurchaseFault(p);
    } else {
      PlannedFromMeaning(v, CalculatePurchase(p).value, TotalsOf(p, v.cashflows, v.targetDate));
    }
  }

  /** Which error a refused current calculation reports. */
  lemma CurrentFault(v: CurrentInput)
    requires CurrentYield(v).Err?
    ensures if v.bid < 0.0 || v.currentAccrued < 0.0 || v.saleCommission < 0.0
            then CurrentYield(v) == Err(NegativeCurrentExit)
            else Some(CurrentYield(v).error)
                 == FirstFault(v.purchase, v.cashflows, v.valuationDate, CurrentGain(v), v.tax)
  {
    hide Gain, Cost, Paid, TaxFits, CalculatePurchase, CurrentFrom, CurrentExit, CurrentGain,
      PerYear;
    var p := v.purchase;
    CostMeaning(p);
    CurrentExitGain(v);
    if CalculatePurchase(p).Err? {
      PurchaseFault(p);
    } else {
      CurrentFromMeaning(v, CalculatePurchase(p).value, TotalsOf(p, v.cashflows, v.valuationDate));
    }
  }

  lemma PurchaseFault(p: PurchaseInput)
    requires CalculatePurchase(p).Err?
    ensures CalculatePurchase(p).error == if p.quantity <= 0.0 then NonPositiveQuantity else NegativePurchase
  {
  }
}
