/** The calculation of one sheet row: reading the purchase, summing paid coupons and the
    current yield, with every outcome a row can report. */
module SheetCalculations {
  import opened Prelude
  import opened Cells
  import opened YieldEngine

  const DEFAULT_COMMISSION: real := 0.4

  datatype RowStatus =
    | Calculated
    | RefreshFailed
    | BadCommission
    | MissingInputs(columns: seq<string>)
    | NoPurchaseAccrued
    | NonPositiveAmount
    | NegativeAmount
    | NoOffer
    | NoBid
    | NoCurrentAccrued
    | CalculationFailed(error: EngineError)

  function Join(parts: seq<string>): string {
    if parts == [] then "" else if |parts| == 1 then parts[0] else parts[0] + ", " + Join(parts[1..])
  }

  function Message(error: EngineError): string {
    match error
    case NegativeExitAmount => "Exit amounts cannot be negative"
    case NegativeCurrentExit => "Current exit amounts cannot be negative"
    case NegativeCashFlow => "Cash flow amount cannot be negative"
    case NonPositiveQuantity => "Quantity must be positive"
    case NegativePurchase => "Purchase amounts cannot be negative"
    case RateOutOfRange => "Tax rate must be between zero and one"
    case ExitNotAfterPurchase => "Exit date must be after purchase date"
    case NonPositivePurchaseTotal => "Purchase total must be positive"
  }

  /** The text that column AL shows. */
  function Label(status: RowStatus): string {
    match status
    case Calculated => "РАССЧИТАНО"
    case RefreshFailed => "ОШИБКА ОБНОВЛЕНИЯ MOEX"
    case BadCommission => "НЕКОРРЕКТНАЯ КОМИССИЯ В L"
    case MissingInputs(columns) => "НЕТ ДАННЫХ: " + Join(columns)
    case NoPurchaseAccrued => "НКД НА ДАТУ ПОКУПКИ НЕ НАЙДЕН"
    case NonPositiveAmount => "КОЛИЧЕСТВО ДОЛЖНО БЫТЬ БОЛЬШЕ НУЛЯ"
    case NegativeAmount => "ЦЕНА, НКД И КОМИССИЯ " + "НЕ МОГУТ БЫТЬ ОТРИЦАТЕЛЬНЫМИ"
    case NoOffer => "НЕТ ЛУЧШЕГО ПРЕДЛОЖЕНИЯ"
    case NoBid => "НЕТ ЛУЧШЕЙ ЗАЯВКИ НА ПОКУПКУ"
    case NoCurrentAccrued => "MOEX НЕ ВЕРНУЛ ТЕКУЩИЙ НКД"
    case CalculationFailed(error) => "ОШИБКА РАСЧЁТА: " + Message(error)
  }

  const INVALID_ISIN_LABEL: string := "НЕВЕРНЫЙ ISIN"

  /** Only a finished calculation is labelled as one. */
  lemma LabelTellsCalculated(status: RowStatus)
    ensures Label(status) == Label(Calculated) <==> status == Calculated
    ensures Label(status) != "" && INVALID_ISIN_LABEL != Label(Calculated)
  {
    assert Label(Calculated)[0] == 'Р';
    match status
    case Calculated =>
    case MissingInputs(columns) => assert Label(status)[0] == "НЕТ ДАННЫХ: "[0] == 'Н';
    case CalculationFailed(error) => assert Label(status)[0] == "ОШИБКА РАСЧЁТА: "[0] == 'О';
    case RefreshFailed => assert Label(status)[0] == 'О';
    case BadCommission => assert Label(status)[0] == 'Н';
    case NoPurchaseAccrued => assert Label(status)[0] == 'Н';
    case NonPositiveAmount => assert Label(status)[0] == 'К';
    case NegativeAmount => assert Label(status)[0] == 'Ц';
    case NoOffer => assert Label(status)[0] == 'Н';
    case NoBid => assert Label(status)[0] == 'Н';
    case NoCurrentAccrued => assert Label(status)[0] == 'M';
    assert INVALID_ISIN_LABEL[0] == 'Н';
  }

  /** The complaint about a negative amount is not the label of any other outcome. */
  lemma LabelTellsNegativeAmount(status: RowStatus)
    ensures Label(status) == Label(NegativeAmount) <==> status == NegativeAmount
  {
    assert Label(NegativeAmount)[0] == "ЦЕНА, НКД И КОМИССИЯ "[0] == 'Ц';
    match status
    case NegativeAmount =>
    case Calculated => assert Label(status)[0] == 'Р';
    case MissingInputs(columns) => assert Label(status)[0] == "НЕТ ДАННЫХ: "[0] == 'Н';
    case CalculationFailed(error) => assert Label(status)[0] == "ОШИБКА РАСЧЁТА: "[0] == 'О';
    case RefreshFailed => assert Label(status)[0] == 'О';
    case BadCommission => assert Label(status)[0] == 'Н';
    case NoPurchaseAccrued => assert Label(status)[0] == 'Н';
    case NonPositiveAmount => assert Label(status)[0] == 'К';
    case NoOffer => assert Label(status)[0] == 'Н';
    case NoBid => assert Label(status)[0] == 'Н';
    case NoCurrentAccrued => assert Label(status)[0] == 'M';
  }

  // ---------- The stored calendar of an instrument ----------

  datatype Action = Action(actionType: ActionType, eventDate: int, amount: Option<real>, updatedAt: int)

  function Rank(kind: ActionType): nat {
    match kind
    case Amortization => 0
    case Coupon => 1
    case Maturity => 2
    case Offer => 3
  }

  /** The sort key (event_date, action_type), types in the order of their stored names. */
  predicate Before(f: CashFlow, g: CashFlow) {
    f.eventDate < g.eventDate || (f.eventDate == g.eventDate && Rank(f.actionType) <= Rank(g.actionType))
  }

  function StoredName(kind: ActionType): string {
    match kind
    case Coupon => "coupon"
    case Amortization => "amortization"
    case Offer => "offer"
    case Maturity => "maturity"
  }

  /** Types are ordered as their stored names are, by their first letters. */
  lemma RankFollowsNames(a: ActionType, b: ActionType)
    ensures Rank(a) < Rank(b) <==> StoredName(a)[0] < StoredName(b)[0]
  {
  }

  predicate Sorted(flows: seq<CashFlow>) {
    forall i, j :: 0 <= i < j < |flows| ==> Before(flows[i], flows[j])
  }

  predicate SameIdentity(f: CashFlow, g: CashFlow) {
    f.actionType == g.actionType && f.eventDate == g.eventDate
  }

  predicate DistinctIdentities(flows: seq<CashFlow>) {
    forall i, j :: 0 <= i < |flows| && 0 <= j < |flows| && SameIdentity(flows[i], flows[j]) ==> i == j
  }

  predicate Gives(a: Action, f: CashFlow) {
    a.actionType == f.actionType && a.eventDate == f.eventDate && a.amount.Some?
  }

  /** Flow f carries the amount of the first action that has one for its type and date. */
  ghost predicate FirstGiven(actions: seq<Action>, f: CashFlow) {
    exists i :: 0 <= i < |actions| && Gives(actions[i], f) && actions[i].amount.value == f.amount
      && forall k :: 0 <= k < i ==> !Gives(actions[k], f)
  }

  predicate Known(a: Action, flows: seq<CashFlow>) {
    exists f :: f in flows && a.actionType == f.actionType && a.eventDate == f.eventDate
  }

  ghost predicate Collected(actions: seq<Action>, flows: seq<CashFlow>) {
    && DistinctIdentities(flows)
    && (forall f :: f in flows ==> FirstGiven(actions, f))
    && (forall a :: a in actions && a.amount.Some? ==> Known(a, flows))
  }

  /** Where a flow goes in a sorted list. */
  function Position(f: CashFlow, flows: seq<CashFlow>): (p: nat)
    ensures p <= |flows|
    ensures forall i :: 0 <= i < p ==> !Before(f, flows[i])
    ensures p < |flows| ==> Before(f, flows[p])
  {
    if flows == [] || Before(f, flows[0]) then 0 else 1 + Position(f, flows[1..])
  }

  function Insert(f: CashFlow, flows: seq<CashFlow>): seq<CashFlow> {
    var p := Position(f, flows);
    flows[..p] + [f] + flows[p..]
  }

  /** What `sorted` returns for this key. */
  function SortFlows(flows: seq<CashFlow>): seq<CashFlow> {
    if flows == [] then []
    else Insert(flows[|flows| - 1], SortFlows(flows[..|flows| - 1]))
  }

  predicate Unlike(f: CashFlow, flows: seq<CashFlow>) {
    forall i :: 0 <= i < |flows| ==> !SameIdentity(f, flows[i])
  }

  lemma InsertElements(f: CashFlow, flows: seq<CashFlow>)
    ensures forall g :: g in Insert(f, flows) <==> g == f || g in flows
  {
    var p := Position(f, flows);
    assert flows == flows[..p] + flows[p..];
  }

  lemma InsertKeepsOrder(f: CashFlow, flows: seq<CashFlow>)
    requires Sorted(flows)
    ensures Sorted(Insert(f, flows))
  {
    var p := Position(f, flows);
    var r := Insert(f, flows);
    forall i, j | 0 <= i < j < |r|
      ensures Before(r[i], r[j])
    {
      assert i < p ==> r[i] == flows[i];
      assert i > p ==> r[i] == flows[i - 1];
      assert j < p ==> r[j] == flows[j];
      assert j > p ==> r[j] == flows[j - 1];
    }
  }

  lemma InsertKeepsDistinct(f: CashFlow, flows: seq<CashFlow>)
    requires DistinctIdentities(flows) && Unlike(f, flows)
    ensures DistinctIdentities(Insert(f, flows))
  {
    var p := Position(f, flows);
    var r := Insert(f, flows);
    forall i, j | 0 <= i < |r| && 0 <= j < |r| && SameIdentity(r[i], r[j])
      ensures i == j
    {
      assert i < p ==> r[i] == flows[i];
      assert i > p ==> r[i] == flows[i - 1];
      assert j < p ==> r[j] == flows[j];
      assert j > p ==> r[j] == flows[j - 1];
    }
  }

  lemma {:induction false} SortFlowsIsSorted(flows: seq<CashFlow>)
    requires DistinctIdentities(flows)
    ensures Sorted(SortFlows(flows)) && DistinctIdentities(SortFlows(flows))
    ensures forall f :: f in SortFlows(flows) <==> f in flows
  {
    if flows != [] {
      var front, last := flows[..|flows| - 1], flows[|flows| - 1];
      assert flows == front + [last];
      SortFlowsIsSorted(front);
      InsertKeepsOrder(last, SortFlows(front));
      InsertElements(last, SortFlows(front));
      assert Unlike(last, SortFlows(front)) by {
        forall i | 0 <= i < |SortFlows(front)|
          ensures !SameIdentity(last, SortFlows(front)[i])
        {
          assert SortFlows(front)[i] in front;
        }
      }
      InsertKeepsDistinct(last, SortFlows(front));
    }
  }

  /** The stored actions, newest first, become one cash flow for each type and date that has
      an amount, carrying the newest amount, in calendar order. */
  method InstrumentCashflows(actions: seq<Action>) returns (flows: seq<CashFlow>)
    ensures Collected(actions, flows) && Sorted(flows)
  {
    var seen: set<(ActionType, int)> := {};
    var cashflows: seq<CashFlow> := [];
    for i := 0 to |actions|
      invariant Collected(actions[..i], cashflows)
      invariant forall key :: key in seen <==> exists f :: f in cashflows && key == (f.actionType, f.eventDate)
    {
      var action := actions[i];
      var identity := (action.actionType, action.eventDate);
      assert actions[..i + 1] == actions[..i] + [action];
      assert identity in seen <==> Known(action, cashflows);
      if identity in seen || action.amount.None? {
        SkipAction(actions[..i], action, cashflows);
        continue;
      }
      AddAction(actions[..i], action, cashflows);
      seen := seen + {identity};
      cashflows := cashflows + [CashFlow(action.actionType, action.eventDate, action.amount.value)];
    }
    assert actions[..|actions|] == actions;
    SortFlowsIsSorted(cashflows);
    flows := SortFlows(cashflows);
  }

  lemma FirstGivenExtends(actions: seq<Action>, a: Action, f: CashFlow)
    requires FirstGiven(actions, f)
    ensures FirstGiven(actions + [a], f)
  {
    var more := actions + [a];
    var k :| 0 <= k < |actions| && Gives(actions[k], f) && actions[k].amount.value == f.amount
      && forall m :: 0 <= m < k ==> !Gives(actions[m], f);
    assert more[k] == actions[k];
    assert forall m :: 0 <= m < k ==> more[m] == actions[m];
  }

  lemma SkipAction(actions: seq<Action>, a: Action, flows: seq<CashFlow>)
    requires Collected(actions, flows) && (Known(a, flows) || a.amount.None?)
    ensures Collected(actions + [a], flows)
  {
    hide FirstGiven, Known;
    forall f | f in flows
      ensures FirstGiven(actions + [a], f)
    {
      FirstGivenExtends(actions, a, f);
    }
  }

  lemma NewlyGiven(actions: seq<Action>, a: Action, flows: seq<CashFlow>)
    requires !Known(a, flows) && a.amount.Some?
    requires forall b :: b in actions && b.amount.Some? ==> Known(b, flows)
    ensures FirstGiven(actions + [a], CashFlow(a.actionType, a.eventDate, a.amount.value))
  {
    var g := CashFlow(a.actionType, a.eventDate, a.amount.value);
    var more := actions + [a];
    forall m | 0 <= m < |actions|
      ensures !Gives(more[m], g)
    {
      assert more[m] == actions[m] && actions[m] in actions;
    }
    assert Gives(more[|actions|], g);
  }

  lemma StillDistinct(flows: seq<CashFlow>, g: CashFlow)
    requires DistinctIdentities(flows) && forall f :: f in flows ==> !SameIdentity(f, g)
    ensures DistinctIdentities(flows + [g])
  {
    var grown := flows + [g];
    forall i, j | 0 <= i < |grown| && 0 <= j < |grown| && SameIdentity(grown[i], grown[j])
      ensures i == j
    {
      assert i < |flows| ==> grown[i] == flows[i] && flows[i] in flows;
      assert j < |flows| ==> grown[j] == flows[j] && flows[j] in flows;
    }
  }

  lemma KnownGrows(a: Action, flows: seq<CashFlow>, g: CashFlow)
    ensures Known(a, flows) ==> Known(a, flows + [g])
    ensures a.actionType == g.actionType && a.eventDate == g.eventDate ==> Known(a, flows + [g])
  {
    assert g in flows + [g];
    if f :| f in flows && a.actionType == f.actionType && a.eventDate == f.eventDate {
      assert f in flows + [g];
    }
  }

  lemma AddAction(actions: seq<Action>, a: Action, flows: seq<CashFlow>)
    requires Collected(actions, flows) && !Known(a, flows) && a.amount.Some?
    ensures Collected(actions + [a], flows + [CashFlow(a.actionType, a.eventDate, a.amount.value)])
  {
    var g := CashFlow(a.actionType, a.eventDate, a.amount.value);
    NewlyGiven(actions, a, flows);
    assert forall f :: f in flows ==> !SameIdentity(f, g);
    StillDistinct(flows, g);
    hide FirstGiven, Known, DistinctIdentities;
    forall f | f in flows + [g]
      ensures FirstGiven(actions + [a], f)
    {
      if f != g {
        FirstGivenExtends(actions, a, f);
      }
    }
    forall b | b in actions + [a] && b.amount.Some?
      ensures Known(b, flows + [g])
    {
      KnownGrows(b, flows, g);
    }
  }

  /** With the actions ordered newest first, the amount of every flow is the newest non-null
      amount stored for its type and date. */
  lemma FlowsAreLatest(actions: seq<Action>, flows: seq<CashFlow>, f: CashFlow, k: nat)
    requires Collected(actions, flows) && f in flows
    requires forall i, j :: 0 <= i < j < |actions| ==> actions[i].updatedAt >= actions[j].updatedAt
    requires k < |actions| && Gives(actions[k], f)
    ensures exists i :: 0 <= i < |actions| && Gives(actions[i], f)
              && actions[i].amount.value == f.amount && actions[i].updatedAt >= actions[k].updatedAt
  {
    assert FirstGiven(actions, f);
  }

  // ---------- Two computations of the paid coupons ----------

  function PaidCoupons(flows: seq<CashFlow>, after: int, until: int): seq<CashFlow> {
    if flows == [] then []
    else
      var last := flows[|flows| - 1];
      PaidCoupons(flows[..|flows| - 1], after, until)
      + if InWindow(last, Coupon, after, until) then [last] else []
  }

  function SumTimes(flows: seq<CashFlow>, quantity: real): real {
    if flows == [] then 0.0
    else SumTimes(flows[..|flows| - 1], quantity) + flows[|flows| - 1].amount * quantity
  }

  function Dates(flows: seq<CashFlow>): set<int> {
    set f | f in flows :: f.eventDate
  }

  /** The number of coupon dates and the money received, without removing duplicates. */
  function SummarizePaidCoupons(after: int, until: int, quantity: real, flows: seq<CashFlow>): (nat, real) {
    var paid := PaidCoupons(flows, after, until);
    (|Dates(paid)|, SumTimes(paid, quantity))
  }

  lemma {:induction false} PaidCouponsElements(flows: seq<CashFlow>, after: int, until: int)
    ensures forall f :: f in PaidCoupons(flows, after, until) <==> f in Paid(flows, Coupon, after, until)
  {
    if flows != [] {
      var front, last := flows[..|flows| - 1], flows[|flows| - 1];
      assert flows == front + [last];
      PaidCouponsElements(front, after, until);
    }
  }

  function DatesOf(coupons: set<CashFlow>): set<int> {
    set f | f in coupons :: f.eventDate
  }

  lemma {:induction false} AtMostOneDateEach(coupons: set<CashFlow>)
    ensures |DatesOf(coupons)| <= |coupons|
    decreases |coupons|
  {
    if f :| f in coupons {
      AtMostOneDateEach(coupons - {f});
      assert DatesOf(coupons) == DatesOf(coupons - {f}) + {f.eventDate};
    }
  }

  /** Two different coupons of one day. */
  ghost predicate ShareDay(coupons: set<CashFlow>) {
    exists f, g :: f in coupons && g in coupons && f != g && f.eventDate == g.eventDate
  }

  lemma {:induction false} CouponDates(coupons: set<CashFlow>)
    ensures |DatesOf(coupons)| == |coupons| <==> !ShareDay(coupons)
    decreases |coupons|
  {
    if ShareDay(coupons) {
      var f, g :| f in coupons && g in coupons && f != g && f.eventDate == g.eventDate;
      assert DatesOf(coupons) == DatesOf(coupons - {f}) by {
        assert g in coupons - {f};
      }
      AtMostOneDateEach(coupons - {f});
    } else if f :| f in coupons {
      var rest := coupons - {f};
      CouponDates(rest);
      assert DatesOf(coupons) == DatesOf(rest) + {f.eventDate};
      assert f.eventDate !in DatesOf(rest);
    }
  }

  lemma SummaryDates(flows: seq<CashFlow>, after: int, until: int)
    ensures Dates(PaidCoupons(flows, after, until)) == DatesOf(Paid(flows, Coupon, after, until))
  {
    PaidCouponsElements(flows, after, until);
  }

  lemma NothingPaid(after: int, until: int, quantity: real)
    ensures PaidTotal([], Coupon, after, until, quantity) == 0.0
  {
    assert Paid([], Coupon, after, until) == {};
  }

  /** The amounts of paid coupons that occurred earlier in the list. */
  function Repeated(flows: seq<CashFlow>, after: int, until: int): real {
    if flows == [] then 0.0
    else
      var front, last := flows[..|flows| - 1], flows[|flows| - 1];
      Repeated(front, after, until) + if InWindow(last, Coupon, after, until) && last in front then last.amount else 0.0
  }

  lemma SummarySnoc(front: seq<CashFlow>, last: CashFlow, after: int, until: int, quantity: real)
    ensures SumTimes(PaidCoupons(front + [last], after, until), quantity)
            == SumTimes(PaidCoupons(front, after, until), quantity)
               + if InWindow(last, Coupon, after, until) then last.amount * quantity else 0.0
  {
    var flows := front + [last];
    assert flows[..|flows| - 1] == front;
    var paid, now := PaidCoupons(front, after, until), PaidCoupons(flows, after, until);
    if InWindow(last, Coupon, after, until) {
      assert now == paid + [last];
      assert now[..|now| - 1] == paid;
    } else {
      assert now == paid;
    }
  }

  lemma RepeatedSnoc(front: seq<CashFlow>, last: CashFlow, after: int, until: int)
    ensures Repeated(front + [last], after, until)
            == Repeated(front, after, until)
               + if InWindow(last, Coupon, after, until) && last in front then last.amount else 0.0
  {
    assert (front + [last])[..|front|] == front;
  }

  function Scaled(q: real, x: real): real {
    q * x
  }

  lemma ScaledStep(q: real, before: real, now: real, amount: real, adds: bool)
    requires now == before + if adds then amount else 0.0
    ensures Scaled(q, now) == Scaled(q, before) + if adds then amount * q else 0.0
  {
    Distribute(q, before, amount);
    Distribute(q, amount, 0.0);
  }

  /** One coupon goes to the summary, and to the engine's total or to the repeated ones. */
  lemma Balanced(s: real, s': real, t: real, t': real, r: real, r': real, amount: real, paid: bool, repeated: bool)
    requires s == t + r
    requires s' == s + if paid then amount else 0.0
    requires t' == t + if paid && !repeated then amount else 0.0
    requires r' == r + if paid && repeated then amount else 0.0
    ensures s' == t' + r'
  {
  }

  /** The summary exceeds the engine's total by what is repeated. */
  lemma {:induction false} SummaryAddsRepeats(flows: seq<CashFlow>, after: int, until: int, quantity: real)
    ensures SumTimes(PaidCoupons(flows, after, until), quantity)
            == PaidTotal(flows, Coupon, after, until, quantity) + Scaled(quantity, Repeated(flows, after, until))
  {
    if flows == [] {
      NothingPaid(after, until, quantity);
    } else {
      hide PaidTotal, SumTimes, PaidCoupons, Repeated, InWindow, Scaled;
      var front, last := flows[..|flows| - 1], flows[|flows| - 1];
      assert flows == front + [last];
      var paid, repeated := InWindow(last, Coupon, after, until), last in front;
      var before, now := Repeated(front, after, until), Repeated(flows, after, until);
      SummaryAddsRepeats(front, after, until, quantity);
      PaidTotalSnoc(front, last, Coupon, after, until, quantity);
      SummarySnoc(front, last, after, until, quantity);
      RepeatedSnoc(front, last, after, until);
      ScaledStep(quantity, before, now, last.amount, paid && repeated);
      Balanced(SumTimes(PaidCoupons(front, after, until), quantity),
               SumTimes(PaidCoupons(flows, after, until), quantity),
               PaidTotal(front, Coupon, after, until, quantity), PaidTotal(flows, Coupon, after, until, quantity),
               Scaled(quantity, before), Scaled(quantity, now), last.amount * quantity, paid, repeated);
    }
  }

  predicate PaidAmount(f: CashFlow, after: int, until: int) {
    InWindow(f, Coupon, after, until) && f.amount > 0.0
  }

  /** Some paid coupon with a positive amount occurs at two positions. */
  ghost predicate PaysTwice(flows: seq<CashFlow>, after: int, until: int) {
    exists i, j :: 0 <= i < j < |flows| && flows[i] == flows[j] && PaidAmount(flows[j], after, until)
  }

  lemma PaysTwiceSnoc(front: seq<CashFlow>, last: CashFlow, after: int, until: int)
    ensures PaysTwice(front + [last], after, until)
            <==> PaysTwice(front, after, until)
                 || (InWindow(last, Coupon, after, until) && last in front && last.amount > 0.0)
  {
    hide InWindow;
    var flows := front + [last];
    assert forall i :: 0 <= i < |front| ==> flows[i] == front[i];
    if PaysTwice(front, after, until) {
      var i, j :| 0 <= i < j < |front| && front[i] == front[j] && PaidAmount(front[j], after, until);
      assert flows[i] == flows[j] && PaidAmount(flows[j], after, until);
    }
    if PaidAmount(last, after, until) && last in front {
      var i :| 0 <= i < |front| && front[i] == last;
      assert flows[i] == flows[|front|];
    }
  }

  lemma {:induction false} RepeatedSign(flows: seq<CashFlow>, after: int, until: int)
    requires forall f :: f in flows ==> f.amount >= 0.0
    ensures Repeated(flows, after, until) >= 0.0
    ensures Repeated(flows, after, until) > 0.0 <==> PaysTwice(flows, after, until)
  {
    hide PaysTwice, InWindow;
    if flows == [] {
      NeverPaysTwice(after, until);
    } else {
      var front, last := flows[..|flows| - 1], flows[|flows| - 1];
      assert flows == front + [last];
      assert last in flows;
      RepeatedSign(front, after, until);
      PaysTwiceSnoc(front, last, after, until);
    }
  }

  lemma NeverPaysTwice(after: int, until: int)
    ensures !PaysTwice([], after, until)
  {
  }

  lemma {:induction false} DistinctNeverRepeat(flows: seq<CashFlow>, after: int, until: int)
    requires DistinctIdentities(flows)
    ensures Repeated(flows, after, until) == 0.0 && !ShareDay(Paid(flows, Coupon, after, until))
  {
    if flows != [] {
      var front, last := flows[..|flows| - 1], flows[|flows| - 1];
      assert forall i :: 0 <= i < |front| ==> flows[i] == front[i];
      DistinctNeverRepeat(front, after, until);
      assert last !in front;
    }
    forall f, g | && f in Paid(flows, Coupon, after, until) && g in Paid(flows, Coupon, after, until)
                  && f.eventDate == g.eventDate
      ensures f == g
    {
      var i :| 0 <= i < |flows| && flows[i] == f;
      var j :| 0 <= j < |flows| && flows[j] == g;
      assert SameIdentity(flows[i], flows[j]);
    }
  }

  lemma TimesZero(q: real, x: real)
    requires x == 0.0
    ensures Scaled(q, x) == 0.0
  {
  }

  lemma SummaryMeaning(flows: seq<CashFlow>, after: int, until: int, quantity: real)
    requires DistinctIdentities(flows)
    ensures SummarizePaidCoupons(after, until, quantity, flows)
            == (|Paid(flows, Coupon, after, until)|, PaidTotal(flows, Coupon, after, until, quantity))
  {
    hide PaidTotal, Paid, Repeated, Scaled;
    DistinctNeverRepeat(flows, after, until);
    TimesZero(quantity, Repeated(flows, after, until));
    SummaryAddsRepeats(flows, after, until, quantity);
    SummaryDates(flows, after, until);
    CouponDates(Paid(flows, Coupon, after, until));
  }

  /** On one flow for each type and date, the summary of the sheet and the engine agree: the
      same money, and as many coupons as the engine counts paid ones. */
  lemma CouponComputationsAgree(flows: seq<CashFlow>, after: int, until: int, quantity: real)
    requires DistinctIdentities(flows)
    requires forall f :: f in flows ==> f.amount >= 0.0
    ensures CashflowTotals(flows, after, until, quantity).Ok?
    ensures SummarizePaidCoupons(after, until, quantity, flows)
            == (|Paid(flows, Coupon, after, until)|, CashflowTotals(flows, after, until, quantity).value.coupons)
  {
    SummaryMeaning(flows, after, until, quantity);
  }

  lemma ProductZero(q: real, x: real)
    requires q > 0.0
    ensures Scaled(q, x) == 0.0 <==> x == 0.0
  {
    if x > 0.0 {
      assert q * x > 0.0;
    } else if x < 0.0 {
      assert q * -x > 0.0;
    }
  }

  /** On any list without negative amounts, the money agrees exactly if no paid coupon of a
      positive amount is repeated, and the numbers agree exactly if no two different paid coupons
      fall on one day. A collected calendar meets both conditions. */
  lemma CouponComputationsAgreeIff(flows: seq<CashFlow>, after: int, until: int, quantity: real)
    requires quantity > 0.0 && forall f :: f in flows ==> f.amount >= 0.0
    ensures CashflowTotals(flows, after, until, quantity).Ok?
    ensures SummarizePaidCoupons(after, until, quantity, flows).1
            == CashflowTotals(flows, after, until, quantity).value.coupons
            <==> !PaysTwice(flows, after, until)
    ensures SummarizePaidCoupons(after, until, quantity, flows).0 == |Paid(flows, Coupon, after, until)|
            <==> !ShareDay(Paid(flows, Coupon, after, until))
    ensures DistinctIdentities(flows) ==>
              !PaysTwice(flows, after, until) && !ShareDay(Paid(flows, Coupon, after, until))
  {
    hide PaidTotal, Paid, PaysTwice, ShareDay, DistinctIdentities, Repeated, SumTimes, PaidCoupons, Dates, DatesOf,
      Scaled;
    SummaryAddsRepeats(flows, after, until, quantity);
    RepeatedSign(flows, after, until);
    var repeated := Repeated(flows, after, until);
    ProductZero(quantity, repeated);
    SummaryDates(flows, after, until);
    CouponDates(Paid(flows, Coupon, after, until));
    if DistinctIdentities(flows) {
      DistinctNeverRepeat(flows, after, until);
    }
  }

  // ---------- The purchase of a row ----------

  datatype SheetPurchase = SheetPurchase(
    purchaseDate: int, quantity: real, price: real, accrued: real, commissionTotal: real, plan: Option<real>)

  type RowValues = map<Column, Value>

  function Cell(values: RowValues, c: Column): Value {
    if c in values then values[c] else Blank
  }

  /** The names of the missing inputs, in column order. */
  function Missing(values: RowValues, parser: Parser): seq<string> {
    (if ParseDate(Cell(values, E_DATE), parser).None? then ["E"] else [])
    + (if ParseDecimal(Cell(values, H_QUANTITY), parser).None? then ["H"] else [])
    + (if ParseDecimal(Cell(values, I_PRICE), parser).None? then ["I"] else [])
  }

  function ParsePurchase(values: RowValues, accrued: Option<real>, commission: real, parser: Parser)
    : (r: Result<SheetPurchase, RowStatus>)
    ensures r.Ok? ==> r.value.quantity > 0.0
  {
    var date := ParseDate(Cell(values, E_DATE), parser);
    var quantity := ParseDecimal(Cell(values, H_QUANTITY), parser);
    var price := ParseDecimal(Cell(values, I_PRICE), parser);
    if date.None? || quantity.None? || price.None? then Err(MissingInputs(Missing(values, parser)))
    else if accrued.None? then Err(NoPurchaseAccrued)
    else if quantity.value <= 0.0 then Err(NonPositiveAmount)
    else if price.value < 0.0 || accrued.value < 0.0 || commission < 0.0 then Err(NegativeAmount)
    else Ok(SheetPurchase(date.value, quantity.value, price.value, accrued.value, commission,
                          ParseDecimal(Cell(values, V_PLAN), parser)))
  }

  // ---------- The current yield of a row ----------

  datatype SheetCurrent = SheetCurrent(
    couponCount: nat, coupons: real, exitTotal: real, profitBeforeTax: real, profitAfterTax: real,
    annualAfterTax: real, planDelta: Option<real>)

  const CUSTOMER_TAX := TaxPolicy(LegacyDivide, 0.13)

  function EnginePurchase(p: SheetPurchase): PurchaseInput
    requires p.quantity != 0.0
  {
    PurchaseInput(p.purchaseDate, p.quantity, p.price, p.accrued, p.commissionTotal / p.quantity)
  }

  ghost function CalculateCurrent(
    p: SheetPurchase, valuationDate: int, offer: real, currentAccrued: real, flows: seq<CashFlow>)
    : Result<SheetCurrent, EngineError>
    requires p.quantity != 0.0
  {
    match CurrentYield(CurrentInput(EnginePurchase(p), valuationDate, offer, currentAccrued, flows, 0.0, CUSTOMER_TAX))
    case Err(e) => Err(e)
    case Ok(r) =>
      Ok(SheetCurrent(
        SummarizePaidCoupons(p.purchaseDate, valuationDate, p.quantity, flows).0,
        r.coupons, r.exitTotal, r.profitBeforeTax, r.profitAfterTax, r.annualAfterTax,
        match p.plan case Some(plan) => Some(r.annualAfterTax - plan) case None => None))
  }

  /** The commission of column L enters the purchase total once, whatever the quantity. */
  lemma SheetPurchaseTotal(values: RowValues, accrued: Option<real>, commission: real, parser: Parser)
    requires ParsePurchase(values, accrued, commission, parser).Ok?
    ensures var p := ParsePurchase(values, accrued, commission, parser).value;
            && p.quantity > 0.0
            && CalculatePurchase(EnginePurchase(p)).Ok?
            && CalculatePurchase(EnginePurchase(p)).value.purchaseTotal
               == p.price * p.quantity + p.accrued * p.quantity + commission
  {
    var p := ParsePurchase(values, accrued, commission, parser).value;
    var share := commission / p.quantity;
    assert share * p.quantity == commission;
    assert share >= 0.0;
  }

  // ---------- What a finished row reports ----------

  function PurchaseTotal(p: SheetPurchase): real {
    p.price * p.quantity + p.accrued * p.quantity + p.commissionTotal
  }

  ghost function ExitTotal(p: SheetPurchase, date: int, offer: real, accrued: real, flows: seq<CashFlow>): real {
    offer * p.quantity + accrued * p.quantity
    + PaidTotal(flows, Coupon, p.purchaseDate, date, p.quantity)
    + PaidTotal(flows, Amortization, p.purchaseDate, date, p.quantity)
  }

  /** The legacy tax is divided out of a gain only. */
  function Net(gain: real): real {
    if gain <= 0.0 then gain else gain / 1.13
  }

  /** The figures of a row, from the exit value of the position and the distinct flows paid. */
  ghost function ReferenceCurrent(p: SheetPurchase, date: int, offer: real, accrued: real,
      flows: seq<CashFlow>): SheetCurrent
    requires date > p.purchaseDate && PurchaseTotal(p) > 0.0
  {
    var exit := ExitTotal(p, date, offer, accrued, flows);
    var gain := exit - PurchaseTotal(p);
    var annual := Net(gain) / PurchaseTotal(p) * 365.0 / (date - p.purchaseDate) as real * 100.0;
    SheetCurrent(
      |Paid(flows, Coupon, p.purchaseDate, date)|, PaidTotal(flows, Coupon, p.purchaseDate, date, p.quantity),
      exit, gain, Net(gain), annual, if p.plan.Some? then Some(annual - p.plan.value) else None)
  }

  ghost predicate Calculable(p: SheetPurchase, date: int, offer: real, accrued: real, flows: seq<CashFlow>) {
    && offer >= 0.0 && accrued >= 0.0
    && p.price >= 0.0 && p.accrued >= 0.0 && p.commissionTotal >= 0.0
    && (forall f :: f in flows ==> f.amount >= 0.0)
    && date > p.purchaseDate && PurchaseTotal(p) > 0.0
  }

  lemma EnginePurchaseMeaning(p: SheetPurchase)
    requires p.quantity > 0.0
    ensures CalculatePurchase(EnginePurchase(p)).Ok? <==> p.price >= 0.0 && p.accrued >= 0.0 && p.commissionTotal >= 0.0
    ensures CalculatePurchase(EnginePurchase(p)).Ok? ==>
              CalculatePurchase(EnginePurchase(p)).value.purchaseTotal == PurchaseTotal(p)
  {
    var share := p.commissionTotal / p.quantity;
    assert share * p.quantity == p.commissionTotal;
    assert share >= 0.0 <==> p.commissionTotal >= 0.0;
  }

  lemma CurrentExitMeaning(p: SheetPurchase, date: int, offer: real, accrued: real, flows: seq<CashFlow>,
      totals: Totals)
    requires p.quantity != 0.0
    requires totals == Totals(PaidTotal(flows, Coupon, p.purchaseDate, date, p.quantity),
                              PaidTotal(flows, Amortization, p.purchaseDate, date, p.quantity))
    ensures CurrentExit(CurrentInput(EnginePurchase(p), date, offer, accrued, flows, 0.0, CUSTOMER_TAX), totals)
            == ExitTotal(p, date, offer, accrued, flows)
  {
    hide PaidTotal;
  }

  lemma CurrentFromMeaning(v: CurrentInput, purchase: PurchaseResult, totals: Totals)
    requires v.tax == CUSTOMER_TAX
    ensures var f := CurrentFrom(v, purchase, totals);
            var gain := CurrentExit(v, totals) - purchase.purchaseTotal;
            && (f.Ok? <==> v.valuationDate > v.purchase.purchaseDate && purchase.purchaseTotal > 0.0)
            && (f.Ok? ==> && f.value.coupons == totals.coupons && f.value.exitTotal == CurrentExit(v, totals)
                          && f.value.profitBeforeTax == gain && f.value.profitAfterTax == Net(gain)
                          && f.value.annualAfterTax == Net(gain) / purchase.purchaseTotal * 365.0
                                                       / (v.valuationDate - v.purchase.purchaseDate) as real * 100.0)
  {
    hide CurrentExit;
  }

  /** A row is calculable exactly when no amount is negative, the purchase lies before the
      valuation and cost something; then it reports the reference figures. */
  lemma CurrentMeaning(p: SheetPurchase, date: int, offer: real, accrued: real, flows: seq<CashFlow>)
    requires p.quantity > 0.0 && DistinctIdentities(flows)
    ensures CalculateCurrent(p, date, offer, accrued, flows).Ok? <==> Calculable(p, date, offer, accrued, flows)
    ensures Calculable(p, date, offer, accrued, flows) ==>
              CalculateCurrent(p, date, offer, accrued, flows).value == ReferenceCurrent(p, date, offer, accrued, flows)
  {
    hide PaidTotal, PurchaseTotal, ExitTotal, Net, Finish, CurrentExit, CalculatePurchase, SummarizePaidCoupons,
      DistinctIdentities, Paid, CurrentFrom;
    var input := CurrentInput(EnginePurchase(p), date, offer, accrued, flows, 0.0, CUSTOMER_TAX);
    var totals := Totals(PaidTotal(flows, Coupon, p.purchaseDate, date, p.quantity),
                         PaidTotal(flows, Amortization, p.purchaseDate, date, p.quantity));
    EnginePurchaseMeaning(p);
    SummaryMeaning(flows, p.purchaseDate, date, p.quantity);
    if offer >= 0.0 && accrued >= 0.0 && CalculatePurchase(EnginePurchase(p)).Ok?
       && CashflowTotals(flows, p.purchaseDate, date, p.quantity).Ok? {
      var purchase := CalculatePurchase(EnginePurchase(p)).value;
      CurrentExitMeaning(p, date, offer, accrued, flows, totals);
      CurrentFromMeaning(input, purchase, totals);
    }
  }
}
