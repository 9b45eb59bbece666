/** The yield engine: purchase cost, paid cash flows, tax and annualised yields, on exact
    reals. Dates are day numbers. */
module YieldEngine {
  import opened Prelude

  datatype ActionType = Coupon | Amortization | Offer | Maturity

  datatype TaxMode = NoTax | FlatRate | LegacyDivide

  datatype TaxPolicy = TaxPolicy(mode: TaxMode, rate: real)

  datatype CashFlow = CashFlow(actionType: ActionType, eventDate: int, amount: real)

  datatype PurchaseInput = PurchaseInput(
    purchaseDate: int, quantity: real, cleanPrice: real, accruedInterest: real, commission: real)

  datatype PlannedInput = PlannedInput(
    purchase: PurchaseInput, targetDate: int, redemption: real, cashflows: seq<CashFlow>,
    saleCommission: real, tax: TaxPolicy)

  datatype CurrentInput = CurrentInput(
    purchase: PurchaseInput, valuationDate: int, bid: real, currentAccrued: real,
    cashflows: seq<CashFlow>, saleCommission: real, tax: TaxPolicy)

  datatype PurchaseResult = PurchaseResult(
    cleanTotal: real, accruedTotal: real, commissionTotal: real, purchaseTotal: real)

  datatype Totals = Totals(coupons: real, amortizations: real)

  datatype YieldResult = YieldResult(
    purchase: PurchaseResult, coupons: real, amortizations: real, redemptionOrMarket: real,
    accruedInterest: real, saleCommission: real, exitTotal: real, profitBeforeTax: real,
    profitAfterTax: real, annualBeforeTax: real, annualAfterTax: real, holdingDays: int)

  datatype EngineError =
    | NegativeExitAmount | NegativeCurrentExit | NegativeCashFlow | NonPositiveQuantity
    | NegativePurchase | RateOutOfRange | ExitNotAfterPurchase | NonPositivePurchaseTotal

  // ---------- Sums over sets of cash flows ----------

  ghost function Sum(flows: set<CashFlow>): real {
    if flows == {} then 0.0
    else
      var f :| f in flows;
      f.amount + Sum(flows - {f})
  }

  lemma {:induction false} SumRemove(flows: set<CashFlow>, f: CashFlow)
    requires f in flows
    ensures Sum(flows) == f.amount + Sum(flows - {f})
    decreases |flows|
  {
    var g :| g in flows && Sum(flows) == g.amount + Sum(flows - {g});
    if g != f {
      SumRemove(flows - {g}, f);
      SumRemove(flows - {f}, g);
      assert flows - {g} - {f} == flows - {f} - {g};
    }
  }

  lemma {:induction false} SumUnion(a: set<CashFlow>, b: set<CashFlow>)
    requires a !! b
    ensures Sum(a + b) == Sum(a) + Sum(b)
    decreases |a|
  {
    if a == {} {
      assert a + b == b;
    } else {
      var f :| f in a;
      SumRemove(a, f);
      SumRemove(a + b, f);
      SumUnion(a - {f}, b);
      assert a + b - {f} == (a - {f}) + b;
    }
  }

  lemma {:induction false} SumNonNegative(flows: set<CashFlow>)
    requires forall f :: f in flows ==> f.amount >= 0.0
    ensures Sum(flows) >= 0.0
    decreases |flows|
  {
    if f :| f in flows {
      SumRemove(flows, f);
      SumNonNegative(flows - {f});
    }
  }

  // ---------- Paid cash flows ----------

  predicate InWindow(f: CashFlow, kind: ActionType, after: int, until: int) {
    f.actionType == kind && after < f.eventDate <= until
  }

  /** The distinct flows of one kind in the half-open window (after, until]. */
  function Paid(flows: seq<CashFlow>, kind: ActionType, after: int, until: int): set<CashFlow> {
    set f | f in flows && InWindow(f, kind, after, until)
  }

  ghost function CashflowTotals(flows: seq<CashFlow>, after: int, until: int, quantity: real)
    : Result<Totals, EngineError>
  {
    if exists f :: f in flows && f.amount < 0.0 then Err(NegativeCashFlow)
    else Ok(Totals(PaidTotal(flows, Coupon, after, until, quantity),
                   PaidTotal(flows, Amortization, after, until, quantity)))
  }

  /** The de-duplicating loop over the cash flows computes quantity times the sum over the
      set of distinct flows in the window, and fails on any negative amount, in the window
      or not. */
  method ComputeCashflowTotals(flows: seq<CashFlow>, after: int, until: int, quantity: real)
    returns (r: Result<Totals, EngineError>)
    ensures r == CashflowTotals(flows, after, until, quantity)
  {
    var coupons, amortizations := 0.0, 0.0;
    var seen: set<CashFlow> := {};
    for i := 0 to |flows|
      invariant forall f :: f in flows[..i] ==> f.amount >= 0.0
      invariant seen == set f | f in flows[..i] && after < f.eventDate <= until
      invariant coupons == PaidTotal(flows[..i], Coupon, after, until, quantity)
      invariant amortizations == PaidTotal(flows[..i], Amortization, after, until, quantity)
    {
      var f := flows[i];
      if f.amount < 0.0 {
        return Err(NegativeCashFlow);
      }
      assert flows[..i + 1] == flows[..i] + [f];
      PaidTotalSnoc(flows[..i], f, Coupon, after, until, quantity);
      PaidTotalSnoc(flows[..i], f, Amortization, after, until, quantity);
      if !(after < f.eventDate <= until) {
        continue;
      }
      if f in seen {
        continue;
      }
      seen := seen + {f};
      if f.actionType == Coupon {
        coupons := coupons + f.amount * quantity;
      } else if f.actionType == Amortization {
        amortizations := amortizations + f.amount * quantity;
      }
    }
    assert flows[..|flows|] == flows;
    return Ok(Totals(coupons, amortizations));
  }

  ghost function PaidTotal(
    flows: seq<CashFlow>, kind: ActionType, after: int, until: int, quantity: real): real
  {
    quantity * Sum(Paid(flows, kind, after, until))
  }

  lemma Distribute(q: real, a: real, b: real)
    ensures q * (a + b) == q * a + q * b
    ensures q * a == a * q
  {
  }

  lemma PaidSnoc(flows: seq<CashFlow>, f: CashFlow, kind: ActionType, after: int, until: int)
    ensures Sum(Paid(flows + [f], kind, after, until))
            == Sum(Paid(flows, kind, after, until))
               + if InWindow(f, kind, after, until) && f !in flows then f.amount else 0.0
  {
    var before, now := Paid(flows, kind, after, until), Paid(flows + [f], kind, after, until);
    if InWindow(f, kind, after, until) && f !in flows {
      assert now - {f} == before;
      SumRemove(now, f);
    } else {
      assert now == before;
    }
  }

  lemma PaidTotalSnoc(
    flows: seq<CashFlow>, f: CashFlow, kind: ActionType, after: int, until: int, quantity: real)
    ensures PaidTotal(flows + [f], kind, after, until, quantity)
            == PaidTotal(flows, kind, after, until, quantity)
               + if InWindow(f, kind, after, until) && f !in flows then f.amount * quantity else 0.0
  {
    PaidSnoc(flows, f, kind, after, until);
    var sum := Sum(Paid(flows, kind, after, until));
    Distribute(quantity, sum, f.amount);
    Distribute(quantity, sum, 0.0);
  }

  /** Order and repetition of the flows do not matter. */
  lemma TotalsIgnoreOrderAndCopies(a: seq<CashFlow>, b: seq<CashFlow>, after: int, until: int, quantity: real)
    requires forall f :: f in a <==> f in b
    ensures CashflowTotals(a, after, until, quantity) == CashflowTotals(b, after, until, quantity)
  {
    assert Paid(a, Coupon, after, until) == Paid(b, Coupon, after, until);
    assert Paid(a, Amortization, after, until) == Paid(b, Amortization, after, until);
    if forall f :: f in a ==> f.amount >= 0.0 {
      assert forall f :: f in b ==> f in a;
      assert PaidTotal(a, Coupon, after, until, quantity) == PaidTotal(b, Coupon, after, until, quantity);
      assert PaidTotal(a, Amortization, after, until, quantity) == PaidTotal(b, Amortization, after, until, quantity);
    }
  }

  /** A flow on the day of the purchase is not received; one on the day of the exit is. */
  lemma WindowEnds(flows: seq<CashFlow>, f: CashFlow, before: int, after: int)
    requires f in flows && before < f.eventDate < after
    ensures f in Paid(flows, f.actionType, before, f.eventDate) && f !in Paid(flows, f.actionType, f.eventDate, after)
    ensures forall kind :: kind != f.actionType ==> f !in Paid(flows, kind, before, after)
  {
  }

  /** The totals of consecutive windows add up. */
  lemma TotalsAdditive(flows: seq<CashFlow>, a: int, b: int, c: int, quantity: real)
    requires a <= b <= c && CashflowTotals(flows, a, c, quantity).Ok?
    ensures CashflowTotals(flows, a, b, quantity).Ok? && CashflowTotals(flows, b, c, quantity).Ok?
    ensures var first := CashflowTotals(flows, a, b, quantity).value;
            var second := CashflowTotals(flows, b, c, quantity).value;
            CashflowTotals(flows, a, c, quantity).value
            == Totals(first.coupons + second.coupons, first.amortizations + second.amortizations)
  {
    WindowSplit(flows, Coupon, a, b, c, quantity);
    WindowSplit(flows, Amortization, a, b, c, quantity);
  }

  lemma WindowSplit(flows: seq<CashFlow>, kind: ActionType, a: int, b: int, c: int, quantity: real)
    requires a <= b <= c
    ensures PaidTotal(flows, kind, a, c, quantity)
            == PaidTotal(flows, kind, a, b, quantity) + PaidTotal(flows, kind, b, c, quantity)
  {
    SumWindowSplit(flows, kind, a, b, c);
    Distribute(quantity, Sum(Paid(flows, kind, a, b)), Sum(Paid(flows, kind, b, c)));
  }

  lemma SumWindowSplit(flows: seq<CashFlow>, kind: ActionType, a: int, b: int, c: int)
    requires a <= b <= c
    ensures Sum(Paid(flows, kind, a, c)) == Sum(Paid(flows, kind, a, b)) + Sum(Paid(flows, kind, b, c))
  {
    assert Paid(flows, kind, a, c) == Paid(flows, kind, a, b) + Paid(flows, kind, b, c);
    SumUnion(Paid(flows, kind, a, b), Paid(flows, kind, b, c));
  }

  // ---------- Purchase, tax, annual yield ----------

  function CalculatePurchase(value: PurchaseInput): Result<PurchaseResult, EngineError> {
    if value.quantity <= 0.0 then Err(NonPositiveQuantity)
    else if value.cleanPrice < 0.0 || value.accruedInterest < 0.0 || value.commission < 0.0
    then Err(NegativePurchase)
    else
      var clean := value.cleanPrice * value.quantity;
      var accrued := value.accruedInterest * value.quantity;
      var commission := value.commission * value.quantity;
      Ok(PurchaseResult(clean, accrued, commission, clean + accrued + commission))
  }

  function AfterFlatTax(profit: real, rate: real): real {
    profit * (1.0 - rate)
  }

  function ApplyTax(profit: real, policy: TaxPolicy): Result<real, EngineError> {
    if profit <= 0.0 || policy.mode == NoTax then Ok(profit)
    else if policy.mode == FlatRate then
      if !(0.0 <= policy.rate <= 1.0) then Err(RateOutOfRange)
      else Ok(AfterFlatTax(profit, policy.rate))
    else Ok(profit / 1.13)
  }

  function Annualize(profit: real, purchaseTotal: real, purchaseDate: int, exitDate: int)
    : Result<real, EngineError>
  {
    var days := exitDate - purchaseDate;
    if days <= 0 then Err(ExitNotAfterPurchase)
    else if purchaseTotal <= 0.0 then Err(NonPositivePurchaseTotal)
    else Ok(profit / purchaseTotal * 365.0 / days as real * 100.0)
  }

  function Finish(
    purchase: PurchaseResult, totals: Totals, redemptionOrMarket: real, accrued: real,
    saleCommission: real, exitTotal: real, purchaseDate: int, exitDate: int, tax: TaxPolicy)
    : Result<YieldResult, EngineError>
  {
    var before := exitTotal - purchase.purchaseTotal;
    match ApplyTax(before, tax)
    case Err(e) => Err(e)
    case Ok(afterTax) =>
      match (Annualize(before, purchase.purchaseTotal, purchaseDate, exitDate),
             Annualize(afterTax, purchase.purchaseTotal, purchaseDate, exitDate))
      case (Ok(annualBefore), Ok(annualAfter)) =>
        Ok(YieldResult(purchase, totals.coupons, totals.amortizations, redemptionOrMarket, accrued,
                       saleCommission, exitTotal, before, afterTax, annualBefore, annualAfter,
                       exitDate - purchaseDate))
      case (Err(e), _) => Err(e)
      case (_, Err(e)) => Err(e)
  }

  function PlannedExit(v: PlannedInput, totals: Totals): real {
    var q := v.purchase.quantity;
    totals.coupons + totals.amortizations + v.redemption * q - v.saleCommission * q
  }

  function PlannedFrom(v: PlannedInput, purchase: PurchaseResult, totals: Totals): Result<YieldResult, EngineError> {
    var q := v.purchase.quantity;
    Finish(purchase, totals, v.redemption * q, 0.0, v.saleCommission * q, PlannedExit(v, totals),
           v.purchase.purchaseDate, v.targetDate, v.tax)
  }

  ghost function PlannedYield(v: PlannedInput): Result<YieldResult, EngineError> {
    if v.redemption < 0.0 || v.saleCommission < 0.0 then Err(NegativeExitAmount)
    else
      match CalculatePurchase(v.purchase)
      case Err(e) => Err(e)
      case Ok(purchase) =>
        match CashflowTotals(v.cashflows, v.purchase.purchaseDate, v.targetDate, v.purchase.quantity)
        case Err(e) => Err(e)
        case Ok(totals) => PlannedFrom(v, purchase, totals)
  }

  function CurrentExit(v: CurrentInput, totals: Totals): real {
    var q := v.purchase.quantity;
    v.bid * q + v.currentAccrued * q + totals.coupons + totals.amortizations - v.saleCommission * q
  }

  function CurrentFrom(v: CurrentInput, purchase: PurchaseResult, totals: Totals): Result<YieldResult, EngineError> {
    var q := v.purchase.quantity;
    Finish(purchase, totals, v.bid * q, v.currentAccrued * q, v.saleCommission * q, CurrentExit(v, totals),
           v.purchase.purchaseDate, v.valuationDate, v.tax)
  }

  ghost function CurrentYield(v: CurrentInput): Result<YieldResult, EngineError> {
    if v.bid < 0.0 || v.currentAccrued < 0.0 || v.saleCommission < 0.0 then Err(NegativeCurrentExit)
    else
      match CalculatePurchase(v.purchase)
      case Err(e) => Err(e)
      case Ok(purchase) =>
        match CashflowTotals(v.cashflows, v.purchase.purchaseDate, v.valuationDate, v.purchase.quantity)
        case Err(e) => Err(e)
        case Ok(totals) => CurrentFrom(v, purchase, totals)
  }

  // ---------- The engine, with its loop ----------

  method ComputePlannedYield(v: PlannedInput) returns (r: Result<YieldResult, EngineError>)
    ensures r == PlannedYield(v)
  {
    if v.redemption < 0.0 || v.saleCommission < 0.0 {
      return Err(NegativeExitAmount);
    }
    match CalculatePurchase(v.purchase)
    case Err(e) => return Err(e);
    case Ok(purchase) =>
      var totals := ComputeCashflowTotals(v.cashflows, v.purchase.purchaseDate, v.targetDate, v.purchase.quantity);
      match totals
      case Err(e) => return Err(e);
      case Ok(t) => return PlannedFrom(v, purchase, t);
  }

  method ComputeCurrentYield(v: CurrentInput) returns (r: Result<YieldResult, EngineError>)
    ensures r == CurrentYield(v)
  {
    if v.bid < 0.0 || v.currentAccrued < 0.0 || v.saleCommission < 0.0 {
      return Err(NegativeCurrentExit);
    }
    match CalculatePurchase(v.purchase)
    case Err(e) => return Err(e);
    case Ok(purchase) =>
      var totals := ComputeCashflowTotals(v.cashflows, v.purchase.purchaseDate, v.valuationDate, v.purchase.quantity);
      match totals
      case Err(e) => return Err(e);
      case Ok(t) => return CurrentFrom(v, purchase, t);
  }
}
