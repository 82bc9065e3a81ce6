/**
 * The driver: what it reports for degenerate inputs, how it wires the option
 * generator and the optimizer to the same payment methods, and how it adds
 * up the chosen plan per payment method.
 */
module App {
  import opened Money
  import opened Wrappers
  import opened Domain
  import opened Logic
  import opened LogicProperties
  import opened SearchSpec
  import opened Optimizer

  const NoPaymentMethodsMessage: string := "No payment methods available."
  const AllOrdersZeroMessage: string := "All orders have zero value."
  const NoPlanMessage: string := "Could not find payment plan for orders."

  /** The sum of the order values. */
  function TotalValue(orders: seq<Order>): Money {
    if orders == [] then 0 else TotalValue(orders[..|orders| - 1]) + orders[|orders| - 1].value
  }

  /** With no negative values the total is non-negative, and it is zero exactly
      when every order is. */
  lemma {:induction false} TotalValueZero(orders: seq<Order>)
    requires forall i :: 0 <= i < |orders| ==> orders[i].value >= 0
    ensures TotalValue(orders) >= 0
    ensures TotalValue(orders) == 0 <==> forall i :: 0 <= i < |orders| ==> orders[i].value == 0
  {
    if orders != [] {
      var init := orders[..|orders| - 1];
      assert forall i :: 0 <= i < |init| ==> init[i] == orders[i];
      TotalValueZero(init);
    }
  }

  /** Filtering cards twice is filtering them once. */
  lemma {:induction false} CardsOnlyIdempotent(methods: seq<PaymentMethod>)
    ensures CardsOnly(CardsOnly(methods)) == CardsOnly(methods)
  {
    if methods != [] {
      var init := methods[..|methods| - 1];
      var last := methods[|methods| - 1];
      CardsOnlyIdempotent(init);
      var once := CardsOnly(methods);
      if last.kind == Card {
        assert once == CardsOnly(init) + [last];
        assert once[..|once| - 1] == CardsOnly(init) && once[|once| - 1] == last;
        assert CardsOnly(once) == CardsOnly(once[..|once| - 1]) + [last];
      } else {
        assert once == CardsOnly(init) + [];
        assert once == CardsOnly(init);
      }
    }
  }

  /** The running totals after adding each charge of spend under its method's id. */
  function MergeSpend(totals: map<string, Money>, spend: Spend): map<string, Money> {
    if spend == [] then totals
    else
      var before := MergeSpend(totals, spend[..|spend| - 1]);
      var c := spend[|spend| - 1];
      before[c.paymentMethod.id := (if c.paymentMethod.id in before then before[c.paymentMethod.id] else 0) + c.amount]
  }

  /** The totals per method id over a whole plan. */
  function Aggregated(plan: seq<AppliedPayment>): map<string, Money> {
    if plan == [] then map[] else MergeSpend(Aggregated(plan[..|plan| - 1]), plan[|plan| - 1].actualAmountSpent)
  }

  /** Whether some entry of plan charges the method with the given id. */
  ghost predicate Charged(plan: seq<AppliedPayment>, id: string) {
    exists k, j :: 0 <= k < |plan| && 0 <= j < |plan[k].actualAmountSpent| && plan[k].actualAmountSpent[j].paymentMethod.id == id
  }

  lemma {:induction false} MergeSpendCorrect(totals: map<string, Money>, spend: Spend, id: string)
    ensures id in MergeSpend(totals, spend) <==> id in totals || exists j :: 0 <= j < |spend| && spend[j].paymentMethod.id == id
    ensures Balance(MergeSpend(totals, spend), id) == Balance(totals, id) + AmountOn(spend, id)
  {
    if spend != [] {
      var init := spend[..|spend| - 1];
      MergeSpendCorrect(totals, init, id);
      if exists j :: 0 <= j < |spend| && spend[j].paymentMethod.id == id {
        var j :| 0 <= j < |spend| && spend[j].paymentMethod.id == id;
        if j < |init| {
          assert init[j] == spend[j];
        }
      }
      if exists j :: 0 <= j < |init| && init[j].paymentMethod.id == id {
        var j :| 0 <= j < |init| && init[j].paymentMethod.id == id;
        assert spend[j] == init[j];
      }
    }
  }

  /** The aggregation has a key exactly for each method the plan charges, and
      under it the plan's total charge to that method. */
  lemma {:induction false} AggregatedCorrect(plan: seq<AppliedPayment>, id: string)
    ensures id in Aggregated(plan) <==> Charged(plan, id)
    ensures Balance(Aggregated(plan), id) == SpentOn(plan, id)
  {
    if plan != [] {
      var init := plan[..|plan| - 1];
      var last := plan[|plan| - 1];
      AggregatedCorrect(init, id);
      MergeSpendCorrect(Aggregated(init), last.actualAmountSpent, id);
      if Charged(plan, id) {
        var k, j :| 0 <= k < |plan| && 0 <= j < |plan[k].actualAmountSpent| && plan[k].actualAmountSpent[j].paymentMethod.id == id;
        if k < |init| {
          assert init[k] == plan[k];
        }
      }
      if Charged(init, id) {
        var k, j :| 0 <= k < |init| && 0 <= j < |init[k].actualAmountSpent| && init[k].actualAmountSpent[j].paymentMethod.id == id;
        assert plan[k] == init[k];
      }
    } else {
      assert !Charged(plan, id);
    }
  }

  /** The totals per method id over the plan, added up entry by entry and charge by charge. */
  method AggregateExpenses(paymentPlan: seq<AppliedPayment>) returns (totalSpentByMethod: map<string, Money>)
    ensures totalSpentByMethod == Aggregated(paymentPlan)
  {
    totalSpentByMethod := map[];
    for k := 0 to |paymentPlan|
      invariant totalSpentByMethod == Aggregated(paymentPlan[..k])
    {
      var spend := paymentPlan[k].actualAmountSpent;
      assert paymentPlan[..k + 1][..k] == paymentPlan[..k];
      ghost var start := totalSpentByMethod;
      for j := 0 to |spend|
        invariant totalSpentByMethod == MergeSpend(start, spend[..j])
      {
        var methodId := spend[j].paymentMethod.id;
        var amount := spend[j].amount;
        assert spend[..j + 1][..j] == spend[..j];
        if methodId in totalSpentByMethod {
          totalSpentByMethod := totalSpentByMethod[methodId := totalSpentByMethod[methodId] + amount];
        } else {
          totalSpentByMethod := totalSpentByMethod[methodId := amount];
        }
      }
      assert spend[..|spend|] == spend;
    }
    assert paymentPlan[..|paymentPlan|] == paymentPlan;
  }

  /** What a run reports: lines on standard output, lines on standard error,
      and the per-method totals when the optimizer ran. */
  datatype Report = Report(out: seq<string>, err: seq<string>, expenses: Option<map<string, Money>>)

  /** The setting the driver builds: generator and optimizer both see the
      method with id "PUNKTY" and the card methods of the same list. */
  function AppSetting(orders: seq<Order>, methods: seq<PaymentMethod>): Setting {
    var pointsMethod := Lookup(methods, PointsId);
    var clientCards := CardsOnly(methods);
    Setting(orders, order => OptionsFor(order, pointsMethod, CardsOnly(clientCards)), pointsMethod, CardsOnly(clientCards),
            pointsMethod, clientCards)
  }

  /** What a run reports for the loaded orders and payment methods. */
  function ExpectedReport(orders: seq<Order>, methods: seq<PaymentMethod>): Report {
    var total := TotalValue(orders);
    if orders == [] then Report([], [], None)
    else if total > 0 && methods == [] then Report([NoPaymentMethodsMessage], [], None)
    else if total <= 0 then Report([AllOrdersZeroMessage], [], None)
    else
      var plan := Search(AppSetting(orders, methods), methods).plan;
      Report([], if plan == [] && total > 0 then [NoPlanMessage] else [], Some(Aggregated(plan)))
  }

  /** The driver after loading: the degenerate cases, then the optimizer and the aggregation. */
  method Process(orders: seq<Order>, allPaymentMethods: seq<PaymentMethod>) returns (report: Report)
    ensures report == ExpectedReport(orders, allPaymentMethods)
  {
    if |orders| == 0 {
      return Report([], [], None);
    }
    var totalOrderValueToPay := 0;
    for i := 0 to |orders|
      invariant totalOrderValueToPay == TotalValue(orders[..i])
    {
      assert orders[..i + 1][..i] == orders[..i];
      totalOrderValueToPay := totalOrderValueToPay + orders[i].value;
    }
    assert orders[..|orders|] == orders;
    if totalOrderValueToPay > 0 && |allPaymentMethods| == 0 {
      return Report([NoPaymentMethodsMessage], [], None);
    }
    if totalOrderValueToPay <= 0 {
      return Report([AllOrdersZeroMessage], [], None);
    }

    var pointsMethod := Lookup(allPaymentMethods, PointsId);
    var clientCards := CardsOnly(allPaymentMethods);
    var discountCalculator := new DiscountCalculator(pointsMethod, clientCards);
    var optimizer := new PaymentOptimizer(orders, discountCalculator, allPaymentMethods);
    var optimalPaymentPlan := optimizer.FindOptimalPaymentPlan();
    assert optimizer.SearchSetting() == AppSetting(orders, allPaymentMethods);
    var err := [];
    if |optimalPaymentPlan| == 0 && totalOrderValueToPay > 0 {
      err := [NoPlanMessage];
    }
    var aggregatedExpenses := AggregateExpenses(optimalPaymentPlan);
    report := Report([], err, Some(aggregatedExpenses));
  }
}

module AppProperties {
  import opened Money
  import opened Wrappers
  import opened Domain
  import opened Logic
  import opened SearchSpec
  import opened Optimizer
  import opened App

  /** A payment-method table as the loader builds it: ids are unique, limits
      non-negative, and exactly the method with id "PUNKTY" is the points method. */
  predicate WellFormedMethods(methods: seq<PaymentMethod>) {
    && DistinctIds(methods)
    && (forall m :: m in methods ==> m.methodLimit >= 0)
    && (forall m :: m in methods ==> (m.kind == Points <==> m.id == PointsId))
  }

  /** The generator and the optimizer agree on the points method and the cards,
      and the setting's generator is the option generator. */
  lemma AppSettingConsistent(orders: seq<Order>, methods: seq<PaymentMethod>)
    ensures var s := AppSetting(orders, methods);
      s.Generated() && s.optionCards == s.cards && s.optionPoints == s.points
  {
    CardsOnlyIdempotent(methods);
  }

  /** On a well-formed table no card shares the id of the points method. */
  lemma AppPointsApart(orders: seq<Order>, methods: seq<PaymentMethod>)
    requires WellFormedMethods(methods)
    ensures PointsApart(AppSetting(orders, methods))
  {
    var s := AppSetting(orders, methods);
    if s.points.Some? {
      forall c | c in s.cards
        ensures c.id != s.points.value.id
      {
        assert c in methods && c.kind == Card;
      }
    }
  }

  /** Whatever the driver aggregates never exceeds a method's limit, and is
      at most 0 for an id that is not in the table. */
  lemma ExpensesWithinLimits(orders: seq<Order>, methods: seq<PaymentMethod>)
    requires WellFormedMethods(methods)
    ensures var e := ExpectedReport(orders, methods).expenses;
      e.Some? ==>
        && (forall m :: m in methods ==> Balance(e.value, m.id) <= m.methodLimit)
        && (forall id :: (forall m :: m in methods ==> m.id != id) ==> Balance(e.value, id) <= 0)
  {
    ReportExpenses(orders, methods);
    AppSettingConsistent(orders, methods);
    AppPointsApart(orders, methods);
    SearchWithinLimits(AppSetting(orders, methods), methods);
  }

  /** With every order's promotions among the methods, as the order loader
      resolves them, the reported expenses have no entry for an id that no
      method carries. */
  lemma ExpensesOnlyListedIds(orders: seq<Order>, methods: seq<PaymentMethod>)
    requires forall i, m :: 0 <= i < |orders| && m in orders[i].applicablePromotions ==> m in methods
    ensures var e := ExpectedReport(orders, methods).expenses;
      e.Some? ==> forall id :: (forall m :: m in methods ==> m.id != id) ==> id !in e.value
  {
    var s := AppSetting(orders, methods);
    var r := Search(s, methods);
    ReportExpenses(orders, methods);
    AppSettingConsistent(orders, methods);
    SearchOptimal(s, methods);
    if r != InitialBest {
      assert MethodsKnown(s, methods);
      ValidPlanChargesKnown(s, methods, r.plan, r.discount);
    }
    forall id | forall m :: m in methods ==> m.id != id
      ensures id !in Aggregated(r.plan)
    {
      AggregatedCorrect(r.plan, id);
      forall k, j | 0 <= k < |r.plan| && 0 <= j < |r.plan[k].actualAmountSpent|
        ensures r.plan[k].actualAmountSpent[j].paymentMethod.id != id
      {
        assert ChargesAmong(r.plan[k].actualAmountSpent, methods);
      }
    }
  }

  /** The expenses the driver reports, when it reports any, are the aggregation of the search's plan. */
  lemma ReportExpenses(orders: seq<Order>, methods: seq<PaymentMethod>)
    ensures var e := ExpectedReport(orders, methods).expenses;
      e.Some? ==> e.value == Aggregated(Search(AppSetting(orders, methods), methods).plan)
  {
  }

  /** The aggregation of the search's plan respects every limit. */
  lemma SearchWithinLimits(s: Setting, methods: seq<PaymentMethod>)
    requires s.Generated() && PointsApart(s) && DistinctIds(methods)
    requires forall m :: m in methods ==> m.methodLimit >= 0
    ensures var e := Aggregated(Search(s, methods).plan);
      && (forall m :: m in methods ==> Balance(e, m.id) <= m.methodLimit)
      && (forall id :: (forall m :: m in methods ==> m.id != id) ==> Balance(e, id) <= 0)
  {
    var r := Search(s, methods);
    var e := Aggregated(r.plan);
    SearchOptimal(s, methods);
    forall id
      ensures SpentOn(r.plan, id) == Balance(e, id)
    {
      AggregatedCorrect(r.plan, id);
    }
    if r != InitialBest {
      ValidPlanWithinLimits(s, methods, r.plan, r.discount);
    }
  }

  /** When the driver reports that no plan was found, orders that are valid and
      discounts that are non-negative admit no valid plan at all. */
  lemma NoPlanMeansInfeasible(orders: seq<Order>, methods: seq<PaymentMethod>)
    requires forall i :: 0 <= i < |orders| ==> orders[i].Valid()
    requires forall i, m :: 0 <= i < |orders| && m in orders[i].applicablePromotions ==> m.discountPercentage.unscaled >= 0
    requires forall m :: m in methods && m.id == PointsId ==> m.discountPercentage.unscaled >= 0
    ensures NoPlanMessage in ExpectedReport(orders, methods).err ==>
      forall plan, d :: !ValidPlan(AppSetting(orders, methods), methods, plan, d)
  {
    var s := AppSetting(orders, methods);
    var r := Search(s, methods);
    if NoPlanMessage in ExpectedReport(orders, methods).err {
      assert |orders| > 0 && r.plan == [];
      AppNonNegativeDiscounts(orders, methods);
      AppSettingConsistent(orders, methods);
      SearchFindsPlan(s, methods);
    }
  }

  lemma AppNonNegativeDiscounts(orders: seq<Order>, methods: seq<PaymentMethod>)
    requires forall i :: 0 <= i < |orders| ==> orders[i].Valid()
    requires forall i, m :: 0 <= i < |orders| && m in orders[i].applicablePromotions ==> m.discountPercentage.unscaled >= 0
    requires forall m :: m in methods && m.id == PointsId ==> m.discountPercentage.unscaled >= 0
    ensures NonNegativeDiscounts(AppSetting(orders, methods))
  {
    var s := AppSetting(orders, methods);
    if s.optionPoints.Some? {
      assert s.optionPoints.value in methods;
    }
  }

  /** When the driver aggregates a non-empty plan, it is the aggregation of a
      valid plan with the most discount, and among those with the most points. */
  lemma ExpensesOfOptimalPlan(orders: seq<Order>, methods: seq<PaymentMethod>)
    ensures var rep := ExpectedReport(orders, methods);
      rep.expenses.Some? && rep.err == [] ==>
        exists plan, d :: rep.expenses.value == Aggregated(plan) && ValidPlan(AppSetting(orders, methods), methods, plan, d) &&
          forall plan', d' :: ValidPlan(AppSetting(orders, methods), methods, plan', d') ==>
            d' < d || (d' == d && PointsSpent(Lookup(methods, PointsId), plan') <= PointsSpent(Lookup(methods, PointsId), plan))
  {
    var rep := ExpectedReport(orders, methods);
    if rep.expenses.Some? && rep.err == [] {
      var s := AppSetting(orders, methods);
      var r := Search(s, methods);
      SearchOptimal(s, methods);
      assert r.plan != [];
      assert r != InitialBest;
      assert rep.expenses.value == Aggregated(r.plan);
    }
  }
}
