# StoreDiscountOptimizer — a verified Dafny model

StoreDiscountOptimizer decides how a shopper should pay a list of orders. The
shopper holds a set of payment methods: a loyalty-points method with id
`PUNKTY` and a number of cards. Each method has a discount percentage and a
spending limit. The program finds the assignment of methods to orders that
gives the largest total discount. Among plans with equal discount it prefers
the one that spends the most points.

The program has two parts, and the model covers both.

- **Option generation.** `DiscountCalculator` lists, for one order, every way
  to pay it. The ways come in four groups, in this order:
  1. one promotion card, at that card's percentage;
  2. all points, at the points method's own percentage;
  3. at least 10 % of the value in points plus one card for the rest, at a
     global 10 % discount, offered once per card;
  4. one card at full price.

  Exact duplicates are then removed.
- **Search.** `PaymentOptimizer` walks the orders in sequence and keeps a
  ledger of the budget left on each method. At each order it turns every
  option into the spend breakdowns the ledger can afford, which the model
  calls realizations. It recurses on each realization and undoes the path
  afterwards. At a complete plan it keeps the best record so far.
- **Around both.** The model also covers:
  - the entity constructors (`Order`, `PaymentMethod`, `CalculatedPaymentOption`, `AppliedPayment`);
  - the per-method expense aggregation;
  - the outcome decisions of `App.main`.

## Modelling choices

- **Money and decimals.** Money is an `int` counted in units of 0.0001
  (`Money.Cent == 100`). A `BigDecimal` input is a `Decimal(unscaled, scale)`.
  `setScale(t, HALF_UP)` becomes `Money.SetScale`, whose result is the unique
  half-up rounding (`Money.IsHalfUpRounding`, `Money.HalfUpRoundingUnique`).
- **Prices.** A price is `Cent * SetScale(Decimal(value * multiplier, 8), 2)`.
  The multiplier is `1 − pct/100`, rounded half-up to 4 decimals.
- **The two 10 % thresholds differ, as in the source.**
  - The generator rounds `value × 0.10` to 2 decimals (`Logic.MinPointsToActivateDiscount`).
  - The search compares against `value × 0.10` unrounded (`SearchSpec.MinPointsRequired`).
- **Spend maps are sequences of charges.** A `Map<PaymentMethod, BigDecimal>`
  becomes a sequence of `Charge`s in insertion order. The ledger is a
  `map<string, Money>`, read with a default of 0 (`SearchSpec.Balance`).
- **Methods are ordered.** The methods are a fixed sequence, and the card list
  is that sequence filtered to cards (`Logic.CardsOnly`). It stands in for the
  unordered `HashMap` and `Map.copyOf` iteration, so any ordering-dependent
  result, such as which equal plan wins, is relative to that sequence.
- **The mutable search is a class.** `Optimizer.PaymentOptimizer` holds the
  best-record fields and the current path, which its methods update in place.
  It is proved equal to a pure specification in `SearchSpec`:
  - `Leaves` is the sequence of complete plans in depth-first order;
  - `SelectBest` is the leaf-by-leaf record update;
  - `Search` combines them from the starting record.
- **What the search optimises over.** `ValidPlan` is a relational definition
  of the feasible complete plans. The lemmas relate `Search` and `ValidPlan`
  in both directions.
- **Starting record.** The record starts as in the source: discount −1.00, an
  empty plan, and `Long.MAX_VALUE` as the points count (`SearchSpec.InitialBest`).
  A leaf replaces it only with strictly more discount, so a plan whose total
  discount is −1.00 or less is never recorded. That needs a negative
  percentage, which the source does not reject. This is why
  `SearchSpec.SearchFindsPlan` assumes non-negative discounts.
  Without that assumption a feasible plan could exist while the search returns an empty one.
- **`solveRecursively` is split into methods.** The option loop, the
  realization loop and the leaf update are methods of their own.
  `currentPath` becomes a field.
  - `SolveRecursively`, `TryRealizations`, `TryRealization` and
    `RecordCompletePlan` each state the new record as the `SelectBest` fold over
    the leaves under them, and that the path is restored. The `newLimits`
    loop of `solveRecursively` is `LimitsAfter`, proved equal to `Deduct`.
  - `DetermineActualSpentAmountsAndFeasibility` and its loops
    (`WithinLimits`, `CardCombinations`) are each proved equal to
    their specification function.

## Model

| member | source | states |
|---|---|---|
| Money.SetScale | app/src/main/java/org/example/domain/PaymentMethod.java:15 | rounding to t decimals gives the nearest value with t decimals, ties away from zero (the HALF_UP mode) |
| Domain.NewPaymentMethod | app/src/main/java/org/example/domain/PaymentMethod.java:12-17 | id, kind and percentage are kept as given with no checks; the limit is the half-up rounding to 2 decimals and equals the input when it already has at most 2 decimals; currentLimit is the raw input |
| Domain.NewOrder | app/src/main/java/org/example/domain/Order.java:7-17 | a negative value is rejected first, then a value with more than 2 decimals; otherwise the order keeps id and promotions and stores a whole-cent value numerically equal to the input |
| Domain.NewCalculatedPaymentOption | app/src/main/java/org/example/domain/CalculatedPaymentOption.java:7-15 | order, price, strategy and spend are stored unchanged; the discount ignores the caller's value and is the half-up rounding of value − price, so price + discount == value for whole-cent prices |
| Logic.CardsOnly | app/src/main/java/org/example/logic/DiscountCalculator.java:22-24 | a method is kept exactly when it is in the list and is tagged as a card |
| Logic.CardsOnlyAppend | app/src/main/java/org/example/logic/DiscountCalculator.java:22-24 | filtering a concatenation is concatenating the filtered parts, so the kept cards stay in list order |
| Logic.DiscountedPrice | app/src/main/java/org/example/logic/DiscountCalculator.java:43-45 | the price is a whole number of cents and the half-up rounding of value × rounded multiplier; it is at most the value for a non-negative percentage and equals the value at 0 % |
| Logic.MinPointsToActivateDiscount | app/src/main/java/org/example/logic/DiscountCalculator.java:77 | the threshold is whole cents, the half-up rounding of value × 0.10, and non-negative for a non-negative value |
| Logic.PartialSplit | app/src/main/java/org/example/logic/DiscountCalculator.java:87-95 | points + card == the discounted price, points ≥ the minimum, and the card share is 0.01 whenever price − 0.01 ≥ the minimum |
| Logic.DiscountCalculator.constructor | app/src/main/java/org/example/logic/DiscountCalculator.java:20-25 | keeps the points method and filters the given methods to cards |
| Logic.DiscountCalculator.CalculateOptionsForOrder | app/src/main/java/org/example/logic/DiscountCalculator.java:27-37 | the result is the duplicate-free form of the four groups in rule order, equal to OptionsFor |
| Logic.DiscountCalculator.CardWithPromotion | app/src/main/java/org/example/logic/DiscountCalculator.java:39-56 | appends one promotion option per non-points promotion, in promotion order |
| Logic.DiscountCalculator.FullPointsPayment | app/src/main/java/org/example/logic/DiscountCalculator.java:58-73 | appends the full-points option when a points method exists, nothing otherwise |
| Logic.DiscountCalculator.MinTenPctPointsPayment | app/src/main/java/org/example/logic/DiscountCalculator.java:75-113 | appends one partial option per card when the rule applies and the card share is positive, nothing otherwise |
| Logic.DiscountCalculator.PartialScenario | app/src/main/java/org/example/logic/DiscountCalculator.java:84-109 | the split for one card, and the option only when the card share is positive |
| Logic.DiscountCalculator.FullCardPaymentNoPromotion | app/src/main/java/org/example/logic/DiscountCalculator.java:115-127 | appends one full-price, zero-discount option per card, in card order |
| LogicProperties.PromotionOptionsWellFormed | app/src/main/java/org/example/logic/DiscountCalculator.java:39-55 | every promotion option has the promotion strategy, charges one card from the promotions at the discounted price, and its charges sum to the price |
| LogicProperties.PromotionOptionsComplete | app/src/main/java/org/example/logic/DiscountCalculator.java:40-41 | every non-points promotion yields its option |
| LogicProperties.FullPointsOptionsWellFormed | app/src/main/java/org/example/logic/DiscountCalculator.java:58-72 | there is one full-points option exactly when a points method exists, and it charges only that method at its price |
| LogicProperties.PartialOptionWellFormed | app/src/main/java/org/example/logic/DiscountCalculator.java:96-108 | a partial option charges points then one card, the two amounts add up to the price, the points share is at least the minimum, and the card share is positive |
| LogicProperties.PartialOptionsForCardsComplete | app/src/main/java/org/example/logic/DiscountCalculator.java:83-97 | with a positive card share every card gets its partial option; otherwise none is emitted |
| LogicProperties.FullCardOptionsWellFormed | app/src/main/java/org/example/logic/DiscountCalculator.java:115-126 | every card gets an option charging the full value to that card, with zero discount |
| LogicProperties.OptionsForWellFormed | app/src/main/java/org/example/logic/DiscountCalculator.java:27-37 | every generated option is well-formed for its strategy: the right methods, amounts summing to the price, and price + discount == value |
| LogicProperties.OptionsForSpendShape | app/src/main/java/org/example/logic/DiscountCalculator.java:47-48 | a generated option charges exactly one method, or the points method then one card for a partial option, and its charges sum to the price |
| LogicProperties.OptionChargesDistinct | app/src/main/java/org/example/logic/DiscountCalculator.java:98-100 | when the points method shares its id with no card, no generated option charges one id twice |
| LogicProperties.FullPointsOfferedIff | app/src/main/java/org/example/logic/DiscountCalculator.java:58-59 | a full-points option is offered if and only if a points method exists |
| LogicProperties.PartialOfferedIff | app/src/main/java/org/example/logic/DiscountCalculator.java:75-81 | a partial option is offered if and only if a points method and a card exist, the threshold is positive, value − threshold ≥ 0.01, and the card share is positive |
| LogicProperties.OptionsForComplete | app/src/main/java/org/example/logic/DiscountCalculator.java:27-37 | every non-points promotion's option and every card's full-price option survive into the result |
| LogicProperties.OptionsForRuleOrder | app/src/main/java/org/example/logic/DiscountCalculator.java:31-36 | the result lists promotion, full-points, partial and full-card options in that order and has no duplicates |
| LogicProperties.OptionDiscountNonNegative | app/src/main/java/org/example/logic/DiscountCalculator.java:43-52 | for valid orders and non-negative percentages every option's discount is value − price and is ≥ 0 |
| SeqUtil.DistinctSpec | app/src/main/java/org/example/logic/DiscountCalculator.java:36 | duplicate removal keeps the same elements, has no duplicates, and keeps first occurrences in their original order |
| SeqUtil.DistinctOfDuplicateFree | app/src/main/java/org/example/logic/DiscountCalculator.java:36 | duplicate removal leaves a duplicate-free sequence unchanged |
| SearchSpec.DeductBalance | app/src/main/java/org/example/domain/PaymentOptimizer.java:95-101 | after a realization each id's balance drops by exactly the amount charged to that id |
| SearchSpec.InitialLedgerBalance | app/src/main/java/org/example/domain/PaymentOptimizer.java:38-41 | the starting ledger holds each method's rounded limit and no unknown id |
| SearchSpec.PartialPoints | app/src/main/java/org/example/domain/PaymentOptimizer.java:155-164 | the points spent are at least the minimum and at most the balance; they are price − 0.01 when the balance allows it, and the whole balance when it does not |
| SearchSpec.MinPointsRequired | app/src/main/java/org/example/domain/PaymentOptimizer.java:147-148 | the minimum is exactly one tenth of a whole-cent value, with no rounding |
| SearchSpec.RealizationsExactly | app/src/main/java/org/example/domain/PaymentOptimizer.java:127-180 | a single-method option is realized exactly when its spend is non-empty and affordable; a partial option with a card is realized exactly when the points balance meets the minimum, the card share is positive, and the card's balance covers it |
| SearchSpec.RealizationShape | app/src/main/java/org/example/domain/PaymentOptimizer.java:131-177 | every realization is affordable on the current ledger and sums to the price; it is the option's own spend, or points (at least the minimum) plus a card with a positive share |
| SearchSpec.SelectBestCorrect | app/src/main/java/org/example/domain/PaymentOptimizer.java:52-66 | after the leaf updates no leaf beats the record, the record is no worse than the starting one, and it is the start or comes from a leaf |
| SearchSpec.SelectBestFirst | app/src/main/java/org/example/domain/PaymentOptimizer.java:55-65 | the kept leaf beats every leaf reached before it, so of equal plans the first one reached wins |
| SearchSpec.LeavesSound | app/src/main/java/org/example/domain/PaymentOptimizer.java:47-118 | every leaf the search reaches extends the current path with a plan that follows the rules, and its discount is the accumulated one plus the plan's |
| SearchSpec.LeavesComplete | app/src/main/java/org/example/domain/PaymentOptimizer.java:47-118 | every plan that follows the rules from a node is reached by the search from that node |
| SearchSpec.SearchOptimal | app/src/main/java/org/example/domain/PaymentOptimizer.java:33-45 | the result is the starting record or a feasible plan with its points count, and no feasible plan has more discount, or equal discount and more points |
| SearchSpec.ValidPlanShape | app/src/main/java/org/example/domain/PaymentOptimizer.java:69-113 | a feasible plan has one entry per order, in order, and each entry's charges sum to its recorded price |
| SearchSpec.ValidPlanWithinLimits | app/src/main/java/org/example/domain/PaymentOptimizer.java:95-101 | with non-negative limits a feasible plan charges each method at most its limit, and an id no method has at most 0 in total |
| SearchSpec.ValidPlanChargesKnown | app/src/main/java/org/example/domain/PaymentOptimizer.java:95-101 | when the promotions, points method and cards are all among the methods, every charge of a feasible plan is on a listed method and an id no method has is charged exactly 0 |
| SearchSpec.RealizationChargesDistinct | app/src/main/java/org/example/domain/PaymentOptimizer.java:172-177 | when the points method shares its id with no card, a realization never charges one id twice |
| SearchSpec.SearchFindsPlan | app/src/main/java/org/example/domain/PaymentOptimizer.java:34-44 | when discounts are non-negative and a feasible plan exists, the search returns one; an empty result for a non-empty order list means that no plan is feasible |
| Optimizer.Lookup | app/src/main/java/org/example/domain/PaymentOptimizer.java:27 | a found method is in the list and has the id; nothing is found exactly when no method has the id |
| Optimizer.PaymentOptimizer.constructor | app/src/main/java/org/example/domain/PaymentOptimizer.java:20-31 | keeps orders, calculator and methods; the points reference is the method with id PUNKTY, and the cards are the card methods |
| Optimizer.PaymentOptimizer.FindOptimalPaymentPlan | app/src/main/java/org/example/domain/PaymentOptimizer.java:33-45 | the final record and the returned plan are those of Search |
| Optimizer.PaymentOptimizer.SolveRecursively | app/src/main/java/org/example/domain/PaymentOptimizer.java:47-118 | the record becomes the leaf-by-leaf update over every leaf below the node, and the path is restored |
| Optimizer.PaymentOptimizer.RecordCompletePlan | app/src/main/java/org/example/domain/PaymentOptimizer.java:52-66 | at a complete plan the record is replaced on more discount, or on equal discount and more points; otherwise it is kept |
| Optimizer.PaymentOptimizer.TryRealizations | app/src/main/java/org/example/domain/PaymentOptimizer.java:90-116 | the record after trying every realization of one option, in order, with the path restored |
| Optimizer.PaymentOptimizer.TryRealization | app/src/main/java/org/example/domain/PaymentOptimizer.java:95-115 | one realization pushes its entry, recurses on the reduced ledger and the increased discount, and pops the entry |
| Optimizer.PaymentOptimizer.LimitsAfter | app/src/main/java/org/example/domain/PaymentOptimizer.java:95-101 | the new ledger is the old one with each charge deducted |
| Optimizer.PaymentOptimizer.DetermineActualSpentAmountsAndFeasibility | app/src/main/java/org/example/domain/PaymentOptimizer.java:120-183 | the list of realizations equals the specification Realizations |
| Optimizer.PaymentOptimizer.WithinLimits | app/src/main/java/org/example/domain/PaymentOptimizer.java:132-140 | the spend is affordable exactly when every charge fits the balance of its method |
| Optimizer.PaymentOptimizer.CardCombinations | app/src/main/java/org/example/domain/PaymentOptimizer.java:172-179 | one points-plus-card realization per card, in card order, whose balance covers the card share |
| Optimizer.PaymentOptimizer.CalculateTotalPointsSpentFromPath | app/src/main/java/org/example/domain/PaymentOptimizer.java:185-195 | the total is the points charged along the path, and zero without a points method |
| App.TotalValueZero | app/src/main/java/org/example/App.java:41-53 | with non-negative order values the total is non-negative, and it is zero exactly when every order is zero |
| App.MergeSpendCorrect | app/src/main/java/org/example/App.java:90-94 | merging one spend adds each charge to its id's total; an id is a key exactly when it was already a key or is charged |
| App.AggregatedCorrect | app/src/main/java/org/example/App.java:85-98 | an id is a key exactly when some entry charges it, even with 0, and its total is the plan's spend on it |
| App.AggregateExpenses | app/src/main/java/org/example/App.java:85-98 | the loop computes the aggregated per-id totals |
| App.Process | app/src/main/java/org/example/App.java:37-70 | the outcome: nothing for no orders; "No payment methods available." for a positive total with no methods; "All orders have zero value." for a total ≤ 0; otherwise the expenses of the chosen plan, plus "Could not find payment plan for orders." when the plan is empty |
| AppProperties.AppSettingConsistent | app/src/main/java/org/example/App.java:55-61 | the calculator and the optimizer see the same points method and the same cards |
| AppProperties.ExpensesWithinLimits | app/src/main/java/org/example/App.java:63-69 | with distinct ids, non-negative limits and the points tag on PUNKTY alone, the reported expenses never exceed a method's limit, and an id no method has totals at most 0 |
| AppProperties.ExpensesOnlyListedIds | app/src/main/java/org/example/App.java:63-69 | when every order's promotions are among the methods, the reported expenses have no entry for an id that no method carries |
| AppProperties.NoPlanMeansInfeasible | app/src/main/java/org/example/App.java:65-67 | with valid orders and non-negative percentages, the no-plan message is given only when no feasible plan exists |
| AppProperties.ExpensesOfOptimalPlan | app/src/main/java/org/example/App.java:63-70 | reported expenses with no error message are the totals of a feasible plan that no feasible plan beats on discount, then on points |

## Left out

- JSON loading (`OrdersLoader`, `PaymentMethodsLoader`), argument checks, file existence, exit codes and `printResult` formatting are I/O. They are not modelled, and `App.Process` returns the messages and expenses as a value instead of printing them.
- `isPoints()` has no body in the source; a method carries an explicit `Points`/`Card` tag instead.
- The iteration orders of `HashMap`, `Map.copyOf` and `values()` are unspecified. A fixed sequence of methods replaces them, so tie winners are proved relative to that sequence only.
- Spend maps keyed by `PaymentMethod` identity are sequences of charges looked up by id. A Java map cannot hold one method twice, but a sequence can: a points method tagged as a card would be charged twice by a partial option. This cannot happen when the points method shares its id with no card (`SearchSpec.PointsApart`; `AppProperties.AppPointsApart` derives it from `AppProperties.WellFormedMethods`). Under that condition no generated option (`LogicProperties.OptionChargesDistinct`) and no realization (`SearchSpec.RealizationChargesDistinct`) charges one id twice. Without it, the model does not capture `HashMap.put` overwriting the points share.
- `distinct()` uses Java equality (scale-sensitive `BigDecimal`, identity for methods). The model removes structurally equal option values.
- Null checks (a null plan, a null spend map, a null method in a list) are left out because the model has no null.
- Optimizer.PaymentOptimizer.LimitsAfter: the source throws a `NullPointerException` when a charged id is missing from the ledger; the model reads a missing balance as 0 instead. So when a promotion is not among the shopper's methods, the model accepts a 0 charge on it where the source throws. The order loader resolves promotions in the shopper's list. Under that condition every charge is on a listed method (`SearchSpec.ValidPlanChargesKnown`), and the starting ledger holds every listed id (`SearchSpec.InitialLedgerBalance`). `SearchSpec.ValidPlanWithinLimits` and `AppProperties.ExpensesWithinLimits` do not assume that condition, so for an unlisted id they promise only a total of at most 0.
- SearchSpec.Realizations: a partial option with no points method would throw in the source; the model gives it no realization. The generator never emits such an option.
- `BigDecimal.valueOf(0.10)` is modelled as the exact constant 0.10.
- `currentLimit` of `PaymentMethod` is stored but never read by the search, and no getters are modelled beyond field access.
- The search's exponential running time and lack of pruning are not modelled.
- Each partial option, created once per card, re-enumerates every card in the search. This is reproduced as written, repeated realizations included.
