/**
 * The domain records: payment methods, orders, the payment options computed for
 * an order, and the plan entries the optimizer produces; together with the sums
 * over spend breakdowns that the rest of the model uses.
 */
module Domain {
  import opened Money
  import opened Wrappers

  /** The identifier under which the points balance is registered. */
  const PointsId: string := "PUNKTY"

  /** Whether a method is the points balance or a card. The source asks
      PaymentMethod.isPoints(); the model carries the answer as a tag. */
  datatype MethodKind = Points | Card

  /** A payment method: an id, a discount percentage, the budget rounded to
      cents, and an unrounded copy of the budget that nothing reads. */
  datatype PaymentMethod = PaymentMethod(
    id: string,
    kind: MethodKind,
    discountPercentage: Decimal,
    methodLimit: Money,
    currentLimit: Decimal)

  /** The PaymentMethod constructor: id and percentage are kept as given, with
      no range or sign check, and the limit is rounded half-up to 2 decimals. */
  function NewPaymentMethod(id: string, kind: MethodKind, discountPercentage: Decimal, methodLimit: Decimal): (m: PaymentMethod)
    ensures m.id == id && m.kind == kind && m.discountPercentage == discountPercentage
    ensures m.methodLimit % Cent == 0 && IsHalfUpRounding(m.methodLimit / Cent, methodLimit, 2)
    ensures methodLimit.scale <= 2 ==> SameValue(Decimal(m.methodLimit, 4), methodLimit)
    ensures m.currentLimit == methodLimit
  {
    var limit := Cent * SetScale(methodLimit, 2);
    assert limit / Cent == SetScale(methodLimit, 2);
    PaymentMethod(id, kind, discountPercentage, limit, methodLimit)
  }

  /** A purchase order. Its value is in money units; a constructed order holds a
      non-negative whole number of cents. */
  datatype Order = Order(id: string, value: Money, applicablePromotions: seq<PaymentMethod>) {
    predicate Valid() {
      value >= 0 && value % Cent == 0
    }
  }

  datatype OrderError = NegativeValue(value: Decimal) | TooManyDecimals(value: Decimal)

  /** The Order constructor: a negative value is rejected first, then a value
      written with more than two decimal places; otherwise the value is kept
      numerically unchanged at two decimals and the promotions as given. */
  function NewOrder(id: string, value: Decimal, applicablePromotions: seq<PaymentMethod>): (r: Result<Order, OrderError>)
    ensures value.unscaled < 0 ==> r == Err(NegativeValue(value))
    ensures value.unscaled >= 0 && value.scale > 2 ==> r == Err(TooManyDecimals(value))
    ensures value.unscaled >= 0 && value.scale <= 2 ==>
      && r.Ok?
      && r.value.id == id
      && r.value.applicablePromotions == applicablePromotions
      && r.value.Valid()
      && SameValue(Decimal(r.value.value, 4), value)
  {
    if value.unscaled < 0 then Err(NegativeValue(value))
    else if value.scale > 2 then Err(TooManyDecimals(value))
    else
      var cents := SetScale(value, 2);
      assert cents >= 0;
      Ok(Order(id, Cent * cents, applicablePromotions))
  }

  /** The four ways an order can be paid. */
  datatype PaymentStrategyType =
    | FullCardWithPromotion
    | FullPointsOwnDiscount
    | PartialPointsTenPercentGlobalDiscount
    | FullPaymentNoPromotion

  /** One entry of a spend breakdown: an amount charged to a method. */
  datatype Charge = Charge(paymentMethod: PaymentMethod, amount: Money)

  /** A spend breakdown, the source's Map<PaymentMethod, BigDecimal>. */
  type Spend = seq<Charge>

  /** A candidate way to pay one order, before budgets are consulted. */
  datatype CalculatedPaymentOption = CalculatedPaymentOption(
    order: Order,
    finalPrice: Money,
    discountAmount: Money,
    paymentStrategyType: PaymentStrategyType,
    spent: Spend)

  /** The CalculatedPaymentOption constructor: the caller's discount is
      ignored and recomputed as the order value minus the final price, rounded
      half-up to cents, with no sign check. */
  function NewCalculatedPaymentOption(order: Order, finalPrice: Money, discountAmount: Money,
                                      paymentStrategyType: PaymentStrategyType, spent: Spend): (o: CalculatedPaymentOption)
    ensures o.order == order && o.finalPrice == finalPrice
    ensures o.paymentStrategyType == paymentStrategyType && o.spent == spent
    ensures o.discountAmount % Cent == 0
    ensures IsHalfUpRounding(o.discountAmount / Cent, Decimal(order.value - finalPrice, 4), 2)
    ensures order.value % Cent == 0 && finalPrice % Cent == 0 ==> o.finalPrice + o.discountAmount == order.value
  {
    var recomputed := Cent * SetScale(Decimal(order.value - finalPrice, 4), 2);
    assert recomputed / Cent == SetScale(Decimal(order.value - finalPrice, 4), 2);
    CentsDifferenceExact(order.value, finalPrice);
    CalculatedPaymentOption(order, finalPrice, recomputed, paymentStrategyType, spent)
  }

  /** The difference of two whole-cent amounts survives rounding to cents. */
  lemma CentsDifferenceExact(v: Money, p: Money)
    ensures v % Cent == 0 && p % Cent == 0 ==> Cent * SetScale(Decimal(v - p, 4), 2) == v - p
  {
    if v % Cent == 0 && p % Cent == 0 {
      var c := (v - p) / Cent;
      assert v - p == c * Pow10(4 - 2);
      HalfUpRoundingOfMultiple(SetScale(Decimal(v - p, 4), 2), c, 4, 2);
    }
  }

  /** The decision recorded for one order in a payment plan. */
  datatype AppliedPayment = AppliedPayment(
    orderId: string,
    finalPricePaid: Money,
    strategyType: PaymentStrategyType,
    actualAmountSpent: Spend)

  /** The sum of all amounts of a spend breakdown. */
  function SpendTotal(s: Spend): Money {
    if s == [] then 0 else SpendTotal(s[..|s| - 1]) + s[|s| - 1].amount
  }

  /** The amount a spend breakdown charges to the method with the given id. */
  function AmountOn(s: Spend, id: string): Money {
    if s == [] then 0
    else AmountOn(s[..|s| - 1], id) + (if s[|s| - 1].paymentMethod.id == id then s[|s| - 1].amount else 0)
  }

  /** The amount a whole plan charges to the method with the given id. */
  function SpentOn(plan: seq<AppliedPayment>, id: string): Money {
    if plan == [] then 0 else SpentOn(plan[..|plan| - 1], id) + AmountOn(plan[|plan| - 1].actualAmountSpent, id)
  }

  /** A plan's charges on id split over its first entry and the rest. */
  lemma {:induction false} SpentOnFirst(plan: seq<AppliedPayment>, id: string)
    requires plan != []
    ensures SpentOn(plan, id) == AmountOn(plan[0].actualAmountSpent, id) + SpentOn(plan[1..], id)
  {
    if |plan| > 1 {
      var init := plan[..|plan| - 1];
      SpentOnFirst(init, id);
      assert init[0] == plan[0];
      assert init[1..] == plan[1..][..|plan[1..]| - 1];
    } else {
      assert plan[1..] == [];
      assert plan[..0] == [];
    }
  }

  /** A breakdown charges nothing to an id none of its charges carries. */
  lemma {:induction false} AmountOnUncharged(s: Spend, id: string)
    requires forall c :: c in s ==> c.paymentMethod.id != id
    ensures AmountOn(s, id) == 0
  {
    if s != [] {
      assert forall c :: c in s[..|s| - 1] ==> c in s;
      AmountOnUncharged(s[..|s| - 1], id);
    }
  }

  /** A plan charges nothing to an id none of its entries' charges carries. */
  lemma {:induction false} SpentOnUncharged(plan: seq<AppliedPayment>, id: string)
    requires forall k, j :: 0 <= k < |plan| && 0 <= j < |plan[k].actualAmountSpent| ==>
      plan[k].actualAmountSpent[j].paymentMethod.id != id
    ensures SpentOn(plan, id) == 0
  {
    if plan != [] {
      var init := plan[..|plan| - 1];
      assert forall k :: 0 <= k < |init| ==> init[k] == plan[k];
      SpentOnUncharged(init, id);
      var last := plan[|plan| - 1].actualAmountSpent;
      forall c | c in last
        ensures c.paymentMethod.id != id
      {
        var j :| 0 <= j < |last| && last[j] == c;
      }
      AmountOnUncharged(last, id);
    }
  }
}
