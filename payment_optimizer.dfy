/**
 * The optimizer object: it holds the orders, the option generator and the
 * payment methods, and keeps the best plan found so far in fields that a
 * depth-first search over all orders updates. Its methods are proved to do
 * exactly what the search of SearchSpec describes.
 */
module Optimizer {
  import opened Money
  import opened Wrappers
  import opened Domain
  import opened Logic
  import opened SearchSpec

  /** The method with the given id, if any; the first one when ids repeat. */
  function Lookup(methods: seq<PaymentMethod>, id: string): (r: Option<PaymentMethod>)
    ensures r.Some? ==> r.value in methods && r.value.id == id
    ensures r.None? <==> forall m :: m in methods ==> m.id != id
  {
    if methods == [] then None
    else if methods[0].id == id then Some(methods[0])
    else Lookup(methods[1..], id)
  }

  class PaymentOptimizer {
    const allOrders: seq<Order>
    const discountCalculator: DiscountCalculator
    const initialPaymentMethods: seq<PaymentMethod>
    const pointsPaymentMethodGlobalReference: Option<PaymentMethod>
    const clientCardPaymentMethods: seq<PaymentMethod>

    var bestTotalDiscountSoFar: Money
    var bestPaymentPlanSoFar: seq<AppliedPayment>
    var pointsSpentInBestPlan: Money
    /** The entries chosen for the orders before the one being decided; shared
        by every level of the search, which appends and then removes its entry. */
    var currentPath: seq<AppliedPayment>

    constructor (allOrders: seq<Order>, discountCalculator: DiscountCalculator, allClientInitialPaymentMethods: seq<PaymentMethod>)
      ensures this.allOrders == allOrders && this.discountCalculator == discountCalculator
      ensures initialPaymentMethods == allClientInitialPaymentMethods
      ensures pointsPaymentMethodGlobalReference == Lookup(allClientInitialPaymentMethods, PointsId)
      ensures clientCardPaymentMethods == CardsOnly(allClientInitialPaymentMethods)
    {
      this.allOrders := allOrders;
      this.discountCalculator := discountCalculator;
      initialPaymentMethods := allClientInitialPaymentMethods;
      pointsPaymentMethodGlobalReference := Lookup(allClientInitialPaymentMethods, PointsId);
      clientCardPaymentMethods := CardsOnly(allClientInitialPaymentMethods);
    }

    /** What this optimizer searches over. */
    function SearchSetting(): (s: Setting)
      ensures s.orders == allOrders && s.points == pointsPaymentMethodGlobalReference && s.cards == clientCardPaymentMethods
    {
      var optionPoints := discountCalculator.pointsPaymentMethod;
      var optionCards := discountCalculator.clientCardPaymentMethods;
      Setting(allOrders, order => OptionsFor(order, optionPoints, optionCards), optionPoints, optionCards,
              pointsPaymentMethodGlobalReference, clientCardPaymentMethods)
    }

    /** The record of the best plan so far. */
    function BestSoFar(): Best
      reads this`bestTotalDiscountSoFar, this`bestPaymentPlanSoFar, this`pointsSpentInBestPlan
    {
      Best(bestTotalDiscountSoFar, bestPaymentPlanSoFar, pointsSpentInBestPlan)
    }

    /** Runs the whole search and returns the best plan it found, or the empty
        plan when no complete plan beat the starting record. */
    method FindOptimalPaymentPlan() returns (plan: seq<AppliedPayment>)
      modifies this
      ensures BestSoFar() == Search(SearchSetting(), initialPaymentMethods)
      ensures plan == Search(SearchSetting(), initialPaymentMethods).plan
    {
      bestTotalDiscountSoFar := -10000;
      bestPaymentPlanSoFar := [];
      pointsSpentInBestPlan := 9223372036854775807 * 10000;

      var initialLimits: Ledger := map[];
      for i := 0 to |initialPaymentMethods|
        invariant initialLimits == InitialLedger(initialPaymentMethods[..i])
      {
        var pm := initialPaymentMethods[i];
        assert initialPaymentMethods[..i + 1][..i] == initialPaymentMethods[..i];
        initialLimits := initialLimits[pm.id := pm.methodLimit];
      }
      assert initialPaymentMethods[..|initialPaymentMethods|] == initialPaymentMethods;

      currentPath := [];
      SolveRecursively(0, initialLimits, 0);
      plan := bestPaymentPlanSoFar;
    }

    /** Decides orders orderIndex.. in every possible way, updating the best
        record at each complete plan; currentPath is left as it was found. */
    method SolveRecursively(orderIndex: nat, currentLimits: Ledger, currentAccumulatedDiscount: Money)
      requires orderIndex <= |allOrders|
      modifies this
      ensures currentPath == old(currentPath)
      ensures BestSoFar() == SelectBest(pointsPaymentMethodGlobalReference, old(BestSoFar()),
                                        Leaves(SearchSetting(), orderIndex, currentLimits, currentAccumulatedDiscount, old(currentPath)))
      decreases |allOrders| - orderIndex, 2
    {
      var s := SearchSetting();
      if orderIndex == |allOrders| {
        RecordCompletePlan(currentAccumulatedDiscount);
        return;
      }

      var currentOrder := allOrders[orderIndex];
      if currentOrder.value <= 0 {
        ghost var path := currentPath;
        currentPath := currentPath + [AppliedPayment(currentOrder.id, 0, FullPaymentNoPromotion, [])];
        SolveRecursively(orderIndex + 1, currentLimits, currentAccumulatedDiscount);
        currentPath := currentPath[..|currentPath| - 1];
        assert currentPath == path;
        return;
      }

      var optionsForThisOrder := discountCalculator.CalculateOptionsForOrder(currentOrder);
      assert optionsForThisOrder == s.optionsFor(currentOrder);
      if |optionsForThisOrder| == 0 {
        return;
      }

      ghost var path := currentPath;
      ghost var start := BestSoFar();
      for i := 0 to |optionsForThisOrder|
        invariant currentPath == path
        invariant BestSoFar() == SelectBest(pointsPaymentMethodGlobalReference, start,
                                            OptionsLeaves(s, orderIndex, currentLimits, currentAccumulatedDiscount, path, optionsForThisOrder[..i]))
      {
        var option := optionsForThisOrder[i];
        var possibleCombinations := DetermineActualSpentAmountsAndFeasibility(option, currentOrder, currentLimits);
        ghost var done := OptionsLeaves(s, orderIndex, currentLimits, currentAccumulatedDiscount, path, optionsForThisOrder[..i]);
        TryRealizations(orderIndex, currentLimits, currentAccumulatedDiscount, option, possibleCombinations);
        OptionsLeavesStep(s, orderIndex, currentLimits, currentAccumulatedDiscount, path, optionsForThisOrder, i);
        SelectBestAppend(pointsPaymentMethodGlobalReference, start, done,
                         RealLeaves(s, orderIndex, currentLimits, currentAccumulatedDiscount, path, option, possibleCombinations));
      }
      assert optionsForThisOrder[..|optionsForThisOrder|] == optionsForThisOrder;
    }

    /** A complete plan is reached: it replaces the record when it has more
        discount, or as much discount and more points. */
    method RecordCompletePlan(currentAccumulatedDiscount: Money)
      modifies this
      ensures currentPath == old(currentPath)
      ensures BestSoFar() == Consider(pointsPaymentMethodGlobalReference, old(BestSoFar()), Leaf(currentPath, currentAccumulatedDiscount))
      ensures BestSoFar() == SelectBest(pointsPaymentMethodGlobalReference, old(BestSoFar()), [Leaf(currentPath, currentAccumulatedDiscount)])
    {
      var totalPointsSpentOnThisPath := CalculateTotalPointsSpentFromPath(currentPath);
      if currentAccumulatedDiscount > bestTotalDiscountSoFar {
        bestTotalDiscountSoFar := currentAccumulatedDiscount;
        bestPaymentPlanSoFar := currentPath;
        pointsSpentInBestPlan := totalPointsSpentOnThisPath;
      } else if currentAccumulatedDiscount == bestTotalDiscountSoFar {
        if totalPointsSpentOnThisPath > pointsSpentInBestPlan {
          bestPaymentPlanSoFar := currentPath;
          pointsSpentInBestPlan := totalPointsSpentOnThisPath;
        }
      }
      assert [Leaf(currentPath, currentAccumulatedDiscount)][..0] == [];
    }

    /** Continues the search from order orderIndex + 1 once for each non-empty
        realization of option, in order. */
    method TryRealizations(orderIndex: nat, currentLimits: Ledger, currentAccumulatedDiscount: Money,
                           option: CalculatedPaymentOption, possibleCombinations: seq<Spend>)
      requires orderIndex < |allOrders|
      modifies this
      ensures currentPath == old(currentPath)
      ensures BestSoFar() == SelectBest(pointsPaymentMethodGlobalReference, old(BestSoFar()),
                                        RealLeaves(SearchSetting(), orderIndex, currentLimits, currentAccumulatedDiscount,
                                                   old(currentPath), option, possibleCombinations))
      decreases |allOrders| - orderIndex, 1
    {
      var s := SearchSetting();
      ghost var path := currentPath;
      ghost var before := BestSoFar();
      for j := 0 to |possibleCombinations|
        invariant currentPath == path
        invariant BestSoFar() == SelectBest(pointsPaymentMethodGlobalReference, before,
                                            RealLeaves(s, orderIndex, currentLimits, currentAccumulatedDiscount, path, option, possibleCombinations[..j]))
      {
        var actualSpentAmounts := possibleCombinations[j];
        ghost var reached := RealLeaves(s, orderIndex, currentLimits, currentAccumulatedDiscount, path, option, possibleCombinations[..j]);
        RealLeavesStep(s, orderIndex, currentLimits, currentAccumulatedDiscount, path, option, possibleCombinations, j);
        if |actualSpentAmounts| == 0 {
          assert reached + [] == reached;
          continue;
        }
        ghost var below := Leaves(s, orderIndex + 1, Deduct(currentLimits, actualSpentAmounts),
                                  currentAccumulatedDiscount + option.discountAmount,
                                  path + [EntryFor(allOrders[orderIndex], option, actualSpentAmounts)]);
        TryRealization(orderIndex, currentLimits, currentAccumulatedDiscount, option, actualSpentAmounts);
        SelectBestAppend(pointsPaymentMethodGlobalReference, before, reached, below);
      }
      assert possibleCombinations[..|possibleCombinations|] == possibleCombinations;
    }

    /** Pays order orderIndex with actualSpentAmounts and searches the orders after it. */
    method TryRealization(orderIndex: nat, currentLimits: Ledger, currentAccumulatedDiscount: Money,
                          option: CalculatedPaymentOption, actualSpentAmounts: Spend)
      requires orderIndex < |allOrders|
      modifies this
      ensures currentPath == old(currentPath)
      ensures BestSoFar() == SelectBest(pointsPaymentMethodGlobalReference, old(BestSoFar()),
                                        Leaves(SearchSetting(), orderIndex + 1, Deduct(currentLimits, actualSpentAmounts),
                                               currentAccumulatedDiscount + option.discountAmount,
                                               old(currentPath) + [EntryFor(allOrders[orderIndex], option, actualSpentAmounts)]))
      decreases |allOrders| - orderIndex, 0
    {
      var currentOrder := allOrders[orderIndex];
      var newLimits := LimitsAfter(currentLimits, actualSpentAmounts);
      ghost var before := currentPath;
      var payment := AppliedPayment(currentOrder.id, option.finalPrice, option.paymentStrategyType, actualSpentAmounts);
      assert payment == EntryFor(currentOrder, option, actualSpentAmounts);
      currentPath := currentPath + [payment];
      SolveRecursively(orderIndex + 1, newLimits, currentAccumulatedDiscount + option.discountAmount);
      assert currentPath[..|currentPath| - 1] == before;
      currentPath := currentPath[..|currentPath| - 1];
    }

    /** A copy of currentLimits with each charge of actualSpentAmounts taken off its method. */
    static method LimitsAfter(currentLimits: Ledger, actualSpentAmounts: Spend) returns (newLimits: Ledger)
      ensures newLimits == Deduct(currentLimits, actualSpentAmounts)
    {
      newLimits := currentLimits;
      for k := 0 to |actualSpentAmounts|
        invariant newLimits == Deduct(currentLimits, actualSpentAmounts[..k])
      {
        var methodId := actualSpentAmounts[k].paymentMethod.id;
        var amountToSpend := actualSpentAmounts[k].amount;
        assert actualSpentAmounts[..k + 1][..k] == actualSpentAmounts[..k];
        var newLimit := Balance(newLimits, methodId) - amountToSpend;
        newLimits := newLimits[methodId := newLimit];
      }
      assert actualSpentAmounts[..|actualSpentAmounts|] == actualSpentAmounts;
    }

    /** The ways option can actually be paid from currentLimits. */
    method DetermineActualSpentAmountsAndFeasibility(option: CalculatedPaymentOption, order: Order, currentLimits: Ledger)
      returns (possibleCombinations: seq<Spend>)
      ensures possibleCombinations == Realizations(SearchSetting(), order, option, currentLimits)
    {
      possibleCombinations := [];
      if option.paymentStrategyType != PartialPointsTenPercentGlobalDiscount {
        var proposedSpentAmount := option.spent;
        var possible := WithinLimits(currentLimits, proposedSpentAmount);
        if possible && |proposedSpentAmount| != 0 {
          possibleCombinations := possibleCombinations + [proposedSpentAmount];
        }
      } else if pointsPaymentMethodGlobalReference.Some? {
        var pointsMethod := pointsPaymentMethodGlobalReference.value;
        var finalPrice := option.finalPrice;
        var minPointsRequired := MinPointsRequired(order.value);
        var pointsAvailable := Balance(currentLimits, pointsMethod.id);
        if pointsAvailable < minPointsRequired {
          return;
        }
        var maxPointsToSpendLeavingMinimalAmountForCard := finalPrice - Cent;
        if maxPointsToSpendLeavingMinimalAmountForCard < 0 {
          maxPointsToSpendLeavingMinimalAmountForCard := 0;
        }
        var actualPointsToSpend := Min(pointsAvailable, maxPointsToSpendLeavingMinimalAmountForCard);
        if actualPointsToSpend < minPointsRequired {
          actualPointsToSpend := minPointsRequired;
        }
        assert actualPointsToSpend == PartialPoints(pointsAvailable, finalPrice, minPointsRequired);
        var cardAmount := finalPrice - actualPointsToSpend;
        if cardAmount <= 0 {
          return;
        }
        possibleCombinations := CardCombinations(currentLimits, pointsMethod, actualPointsToSpend, cardAmount,
                                                 clientCardPaymentMethods);
      }
    }

    /** Whether every charge of proposedSpentAmount fits in what currentLimits
        leaves its method; stops at the first that does not. */
    static method WithinLimits(currentLimits: Ledger, proposedSpentAmount: Spend) returns (possible: bool)
      ensures possible == Affordable(currentLimits, proposedSpentAmount)
    {
      possible := true;
      for i := 0 to |proposedSpentAmount|
        invariant possible
        invariant forall k :: 0 <= k < i ==> proposedSpentAmount[k].amount <= Balance(currentLimits, proposedSpentAmount[k].paymentMethod.id)
      {
        var amountNeeded := proposedSpentAmount[i].amount;
        if Balance(currentLimits, proposedSpentAmount[i].paymentMethod.id) < amountNeeded {
          possible := false;
          break;
        }
      }
    }

    /** The points-and-card pairs for each card that covers cardAmount, in card order. */
    static method CardCombinations(currentLimits: Ledger, pointsMethod: PaymentMethod, actualPointsToSpend: Money,
                                   cardAmount: Money, cards: seq<PaymentMethod>)
      returns (possibleCombinations: seq<Spend>)
      ensures possibleCombinations == CardRealizations(currentLimits, pointsMethod, actualPointsToSpend, cardAmount, cards)
    {
      possibleCombinations := [];
      for i := 0 to |cards|
        invariant possibleCombinations == CardRealizations(currentLimits, pointsMethod, actualPointsToSpend, cardAmount, cards[..i])
      {
        var card := cards[i];
        assert cards[..i + 1][..i] == cards[..i];
        if Balance(currentLimits, card.id) >= cardAmount {
          possibleCombinations := possibleCombinations + [[Charge(pointsMethod, actualPointsToSpend), Charge(card, cardAmount)]];
        }
      }
      assert cards[..|cards|] == cards;
    }

    /** The points a path spends on the points method. */
    method CalculateTotalPointsSpentFromPath(path: seq<AppliedPayment>) returns (total: Money)
      ensures total == PointsSpent(pointsPaymentMethodGlobalReference, path)
    {
      total := 0;
      for i := 0 to |path|
        invariant total == PointsSpent(pointsPaymentMethodGlobalReference, path[..i])
      {
        assert path[..i + 1][..i] == path[..i];
        var pointsInPayment := match pointsPaymentMethodGlobalReference
          case None => 0
          case Some(pm) => AmountOn(path[i].actualAmountSpent, pm.id);
        total := total + pointsInPayment;
      }
      assert path[..|path|] == path;
    }
  }
}
