/**
 * The exhaustive search, as values. Orders are taken in list order; an order
 * of value zero or less gets an empty entry, every other order tries each
 * generated option under each of its realizations against what is left of
 * the budget. The complete plans are enumerated in the order the depth-first
 * search reaches them (Leaves), and the best of them is kept by a left fold
 * (SelectBest): strictly more discount wins, and on equal discount strictly
 * more points spent wins.
 */
module SearchSpec {
  import opened Money
  import opened Wrappers
  import opened Domain
  import opened Logic
  import opened LogicProperties

  /** The remaining limit of each payment method, by id. */
  type Ledger = map<string, Money>

  /** What the search consults: the orders, the option generator (optionsFor)
      with the points method and cards it was built with, and the points
      method and cards the search itself holds. */
  datatype Setting = Setting(orders: seq<Order>,
                             optionsFor: Order -> seq<CalculatedPaymentOption>,
                             optionPoints: Option<PaymentMethod>, optionCards: seq<PaymentMethod>,
                             points: Option<PaymentMethod>, cards: seq<PaymentMethod>)
  {
    /** optionsFor is the option generator for optionPoints and optionCards. */
    ghost predicate Generated() {
      forall order :: optionsFor(order) == OptionsFor(order, optionPoints, optionCards)
    }
  }

  /** The remaining limit of id; a method the ledger does not know has none. */
  function Balance(ledger: Ledger, id: string): Money {
    if id in ledger then ledger[id] else 0
  }

  /** The ledger after every charge of spend is taken off its method's limit. */
  function Deduct(ledger: Ledger, spend: Spend): Ledger {
    if spend == [] then ledger
    else
      var before := Deduct(ledger, spend[..|spend| - 1]);
      var c := spend[|spend| - 1];
      before[c.paymentMethod.id := Balance(before, c.paymentMethod.id) - c.amount]
  }

  /** Deducting a spend lowers each method's limit by exactly what it charges there. */
  lemma {:induction false} DeductBalance(ledger: Ledger, spend: Spend, id: string)
    ensures Balance(Deduct(ledger, spend), id) == Balance(ledger, id) - AmountOn(spend, id)
  {
    if spend != [] {
      DeductBalance(ledger, spend[..|spend| - 1], id);
    }
  }

  /** The starting ledger: every method's limit under its id, a later method
      with the same id replacing an earlier one. */
  function InitialLedger(methods: seq<PaymentMethod>): Ledger {
    if methods == [] then map[]
    else
      var last := methods[|methods| - 1];
      InitialLedger(methods[..|methods| - 1])[last.id := last.methodLimit]
  }

  /** Methods with pairwise distinct ids. */
  predicate DistinctIds(methods: seq<PaymentMethod>) {
    forall i, j :: 0 <= i < j < |methods| ==> methods[i].id != methods[j].id
  }

  /** The starting ledger knows exactly the listed ids, each with its method's limit. */
  lemma {:induction false} InitialLedgerBalance(methods: seq<PaymentMethod>, id: string)
    requires DistinctIds(methods)
    ensures (forall m :: m in methods ==> m.id != id) ==> id !in InitialLedger(methods) && Balance(InitialLedger(methods), id) == 0
    ensures forall m :: m in methods && m.id == id ==> Balance(InitialLedger(methods), id) == m.methodLimit
  {
    if methods != [] {
      var init := methods[..|methods| - 1];
      var last := methods[|methods| - 1];
      assert DistinctIds(init);
      assert forall m :: m in init ==> m in methods;
      InitialLedgerBalance(init, id);
      forall m | m in init && m.id == id
        ensures m.id != last.id
      {
        var i :| 0 <= i < |init| && init[i] == m;
        assert methods[i] == m;
      }
    }
  }

  /** Every charge of spend fits in what is left of its method's limit. */
  predicate Affordable(ledger: Ledger, spend: Spend) {
    forall i :: 0 <= i < |spend| ==> spend[i].amount <= Balance(ledger, spend[i].paymentMethod.id)
  }

  /** The search's own 10% of the order value, in exact arithmetic (no rounding). */
  function MinPointsRequired(value: Money): (minRequired: Money)
    ensures value % Cent == 0 ==> 10 * minRequired == value
  {
    value / 10
  }

  /** The points actually spent on a partial-points payment: as many as are
      available while leaving at least a cent for the card, but never fewer
      than the minimum. */
  function PartialPoints(available: Money, finalPrice: Money, minRequired: Money): (p: Money)
    ensures p >= minRequired
    ensures minRequired <= available ==> p <= available
    ensures minRequired <= available && Max(minRequired, 0) <= finalPrice - Cent <= available ==> p == finalPrice - Cent
    ensures minRequired <= available < finalPrice - Cent ==> p == available
  {
    Max(Min(available, Max(finalPrice - Cent, 0)), minRequired)
  }

  /** One (points, card) realization per card, in card order, whose remaining
      limit covers the card's share. */
  function CardRealizations(ledger: Ledger, pointsMethod: PaymentMethod, pointsAmount: Money,
                            cardAmount: Money, cards: seq<PaymentMethod>): seq<Spend> {
    if cards == [] then []
    else
      var card := cards[|cards| - 1];
      CardRealizations(ledger, pointsMethod, pointsAmount, cardAmount, cards[..|cards| - 1])
        + (if Balance(ledger, card.id) >= cardAmount
           then [[Charge(pointsMethod, pointsAmount), Charge(card, cardAmount)]] else [])
  }

  /** The ways an option can actually be paid from the ledger. A single-method
      option is its own spend when every charge fits; a partial-points option
      re-balances points against the current points limit and may then be paid
      with any card that covers the rest. */
  function Realizations(s: Setting, order: Order, opt: CalculatedPaymentOption, ledger: Ledger): seq<Spend> {
    if opt.paymentStrategyType != PartialPointsTenPercentGlobalDiscount then
      if Affordable(ledger, opt.spent) && opt.spent != [] then [opt.spent] else []
    else
      match s.points
      case None => []
      case Some(pm) =>
        var minRequired := MinPointsRequired(order.value);
        var available := Balance(ledger, pm.id);
        if available < minRequired then []
        else
          var pointsAmount := PartialPoints(available, opt.finalPrice, minRequired);
          var cardAmount := opt.finalPrice - pointsAmount;
          if cardAmount <= 0 then [] else CardRealizations(ledger, pm, pointsAmount, cardAmount, s.cards)
  }

  /** The entry for an order of value zero or less: nothing paid, nothing charged. */
  function ZeroEntry(order: Order): AppliedPayment {
    AppliedPayment(order.id, 0, FullPaymentNoPromotion, [])
  }

  /** The entry recording that order is paid by option with the charges r. */
  function EntryFor(order: Order, opt: CalculatedPaymentOption, r: Spend): AppliedPayment {
    AppliedPayment(order.id, opt.finalPrice, opt.paymentStrategyType, r)
  }

  /** A complete plan reached by the search, with the discount accumulated along it. */
  datatype Leaf = Leaf(plan: seq<AppliedPayment>, discount: Money)

  /** All complete plans reachable from order idx, in depth-first order, each
      extending path. */
  function Leaves(s: Setting, idx: nat, ledger: Ledger, acc: Money, path: seq<AppliedPayment>): seq<Leaf>
    requires idx <= |s.orders|
    decreases |s.orders| - idx, 2, 0
  {
    if idx == |s.orders| then [Leaf(path, acc)]
    else
      var order := s.orders[idx];
      if order.value <= 0 then Leaves(s, idx + 1, ledger, acc, path + [ZeroEntry(order)])
      else OptionsLeaves(s, idx, ledger, acc, path, s.optionsFor(order))
  }

  /** The plans reached through the options opts of order idx, option by option. */
  function OptionsLeaves(s: Setting, idx: nat, ledger: Ledger, acc: Money, path: seq<AppliedPayment>,
                         opts: seq<CalculatedPaymentOption>): seq<Leaf>
    requires idx < |s.orders|
    decreases |s.orders| - idx, 1, |opts|
  {
    if opts == [] then []
    else
      var opt := opts[|opts| - 1];
      OptionsLeaves(s, idx, ledger, acc, path, opts[..|opts| - 1])
        + RealLeaves(s, idx, ledger, acc, path, opt, Realizations(s, s.orders[idx], opt, ledger))
  }

  /** The plans reached through the realizations rs of option opt of order idx;
      an empty realization is skipped. */
  function RealLeaves(s: Setting, idx: nat, ledger: Ledger, acc: Money, path: seq<AppliedPayment>,
                      opt: CalculatedPaymentOption, rs: seq<Spend>): seq<Leaf>
    requires idx < |s.orders|
    decreases |s.orders| - idx, 0, |rs|
  {
    if rs == [] then []
    else
      var r := rs[|rs| - 1];
      RealLeaves(s, idx, ledger, acc, path, opt, rs[..|rs| - 1])
        + (if r == [] then []
           else Leaves(s, idx + 1, Deduct(ledger, r), acc + opt.discountAmount, path + [EntryFor(s.orders[idx], opt, r)]))
  }

  /** The plans reached through the first j + 1 options: those through the first j, then those through option j. */
  lemma OptionsLeavesStep(s: Setting, idx: nat, ledger: Ledger, acc: Money, path: seq<AppliedPayment>,
                          opts: seq<CalculatedPaymentOption>, j: nat)
    requires idx < |s.orders| && j < |opts|
    ensures OptionsLeaves(s, idx, ledger, acc, path, opts[..j + 1])
            == OptionsLeaves(s, idx, ledger, acc, path, opts[..j])
               + RealLeaves(s, idx, ledger, acc, path, opts[j], Realizations(s, s.orders[idx], opts[j], ledger))
  {
    assert opts[..j + 1][..j] == opts[..j];
  }

  /** The plans reached through the first j + 1 realizations: those through the
      first j, then those below realization j unless it is empty. */
  lemma RealLeavesStep(s: Setting, idx: nat, ledger: Ledger, acc: Money, path: seq<AppliedPayment>,
                       opt: CalculatedPaymentOption, rs: seq<Spend>, j: nat)
    requires idx < |s.orders| && j < |rs|
    ensures RealLeaves(s, idx, ledger, acc, path, opt, rs[..j + 1])
            == RealLeaves(s, idx, ledger, acc, path, opt, rs[..j])
               + (if rs[j] == [] then []
                  else Leaves(s, idx + 1, Deduct(ledger, rs[j]), acc + opt.discountAmount, path + [EntryFor(s.orders[idx], opt, rs[j])]))
  {
    assert rs[..j + 1][..j] == rs[..j];
  }

  /** The search's record of the best plan so far. */
  datatype Best = Best(discount: Money, plan: seq<AppliedPayment>, points: Money)

  /** The starting record: discount -1.00, an empty plan, and Long.MAX_VALUE points. */
  const InitialBest: Best := Best(-10000, [], 9223372036854775807 * 10000)

  /** The points a plan spends: its charges on the points method, or none without one. */
  function PointsSpent(points: Option<PaymentMethod>, plan: seq<AppliedPayment>): Money {
    match points
    case None => 0
    case Some(pm) => SpentOn(plan, pm.id)
  }

  /** The record a leaf would become. */
  function Chosen(points: Option<PaymentMethod>, leaf: Leaf): Best {
    Best(leaf.discount, leaf.plan, PointsSpent(points, leaf.plan))
  }

  /** Whether leaf displaces the record b: strictly more discount, or equal
      discount and strictly more points. */
  predicate Beats(points: Option<PaymentMethod>, leaf: Leaf, b: Best) {
    leaf.discount > b.discount || (leaf.discount == b.discount && PointsSpent(points, leaf.plan) > b.points)
  }

  /** The record after the search reaches leaf. */
  function Consider(points: Option<PaymentMethod>, b: Best, leaf: Leaf): Best {
    var p := PointsSpent(points, leaf.plan);
    if leaf.discount > b.discount then Best(leaf.discount, leaf.plan, p)
    else if leaf.discount == b.discount && p > b.points then Best(b.discount, leaf.plan, p)
    else b
  }

  /** The record after the search reaches each of leaves in turn. */
  function SelectBest(points: Option<PaymentMethod>, b: Best, leaves: seq<Leaf>): Best {
    if leaves == [] then b
    else Consider(points, SelectBest(points, b, leaves[..|leaves| - 1]), leaves[|leaves| - 1])
  }

  /** Reaching x and then y is reaching x + y. */
  lemma {:induction false} SelectBestAppend(points: Option<PaymentMethod>, b: Best, x: seq<Leaf>, y: seq<Leaf>)
    ensures SelectBest(points, b, x + y) == SelectBest(points, SelectBest(points, b, x), y)
  {
    if y == [] {
      assert x + y == x;
    } else {
      assert (x + y)[..|x + y| - 1] == x + y[..|y| - 1];
      SelectBestAppend(points, b, x, y[..|y| - 1]);
    }
  }

  /** (discount, points) of b2 are at least those of b1, lexicographically. */
  predicate NotWorse(b2: Best, b1: Best) {
    b2.discount > b1.discount || (b2.discount == b1.discount && b2.points >= b1.points)
  }

  /** The fold keeps a record that no leaf displaces, that is no worse than the
      start, and that is the start or comes from a leaf. */
  lemma {:induction false} SelectBestCorrect(points: Option<PaymentMethod>, b: Best, leaves: seq<Leaf>)
    ensures var r := SelectBest(points, b, leaves);
      && NotWorse(r, b)
      && (forall leaf :: leaf in leaves ==> !Beats(points, leaf, r))
      && (r == b || exists leaf :: leaf in leaves && r == Chosen(points, leaf))
  {
    if leaves != [] {
      var init := leaves[..|leaves| - 1];
      var last := leaves[|leaves| - 1];
      SelectBestCorrect(points, b, init);
      var prev := SelectBest(points, b, init);
      var r := SelectBest(points, b, leaves);
      assert NotWorse(r, prev);
      forall leaf | leaf in leaves
        ensures !Beats(points, leaf, r)
      {
        if leaf != last {
          assert leaf in init;
        }
      }
      if r != prev {
        assert r == Chosen(points, last);
      } else if r != b {
        var leaf :| leaf in init && prev == Chosen(points, leaf);
        assert leaf in leaves;
      }
    }
  }

  /** The record that ends the search: first the leaf with the most discount,
      then among those the one spending the most points, and of equals the
      first one reached. */
  lemma {:induction false} SelectBestFirst(points: Option<PaymentMethod>, b: Best, leaves: seq<Leaf>)
    ensures var r := SelectBest(points, b, leaves);
      r == b || exists k :: (0 <= k < |leaves| && r == Chosen(points, leaves[k])
                             && forall j :: 0 <= j < k ==> Beats(points, leaves[k], Chosen(points, leaves[j])))
  {
    if leaves != [] {
      var init := leaves[..|leaves| - 1];
      var last := leaves[|leaves| - 1];
      SelectBestFirst(points, b, init);
      SelectBestCorrect(points, b, init);
      var prev := SelectBest(points, b, init);
      var r := SelectBest(points, b, leaves);
      if r != prev {
        var k := |leaves| - 1;
        assert r == Chosen(points, leaves[k]);
        forall j | 0 <= j < k
          ensures Beats(points, leaves[k], Chosen(points, leaves[j]))
        {
          assert leaves[j] == init[j];
          assert !Beats(points, init[j], prev);
        }
      } else if r != b {
        var k :| 0 <= k < |init| && prev == Chosen(points, init[k])
          && forall j :: 0 <= j < k ==> Beats(points, init[k], Chosen(points, init[j]));
        assert leaves[k] == init[k];
        forall j | 0 <= j < k
          ensures Beats(points, leaves[k], Chosen(points, leaves[j]))
        {
          assert leaves[j] == init[j];
        }
      }
    }
  }

  /** An option's charges add up to its price, in a single charge unless it is partial-points. */
  predicate SpendMatchesPrice(o: CalculatedPaymentOption) {
    && SpendTotal(o.spent) == o.finalPrice
    && (o.paymentStrategyType != PartialPointsTenPercentGlobalDiscount ==> |o.spent| == 1)
  }

  /** Every option the setting's generator offers has charges matching its price. */
  ghost predicate OptionsPriced(s: Setting) {
    forall order, o :: o in s.optionsFor(order) ==> SpendMatchesPrice(o)
  }

  lemma GeneratedOptionsPriced(s: Setting)
    requires s.Generated()
    ensures OptionsPriced(s)
  {
    forall order, o | o in s.optionsFor(order)
      ensures SpendMatchesPrice(o)
    {
      OptionsForSpendShape(order, s.optionPoints, s.optionCards, o);
    }
  }

  /** A realization of a generated option is affordable and charges exactly the
      option's price: a single-method option its own single charge, a
      partial-points option at least the minimum in points and a positive
      rest on one of the search's cards. */
  lemma RealizationShape(s: Setting, order: Order, opt: CalculatedPaymentOption, ledger: Ledger, r: Spend)
    requires OptionsPriced(s) && opt in s.optionsFor(order)
    requires r in Realizations(s, order, opt, ledger)
    ensures Affordable(ledger, r)
    ensures SpendTotal(r) == opt.finalPrice
    ensures opt.paymentStrategyType != PartialPointsTenPercentGlobalDiscount ==> r == opt.spent && |r| == 1
    ensures opt.paymentStrategyType == PartialPointsTenPercentGlobalDiscount ==>
      && s.points.Some? && |r| == 2
      && r[0].paymentMethod == s.points.value && r[1].paymentMethod in s.cards
      && r[0].amount >= MinPointsRequired(order.value) && r[1].amount > 0
  {
    if opt.paymentStrategyType == PartialPointsTenPercentGlobalDiscount {
      PartialRealizationShape(s, order, opt, ledger, r);
    } else {
      assert SpendMatchesPrice(opt);
    }
  }

  lemma PartialRealizationShape(s: Setting, order: Order, opt: CalculatedPaymentOption, ledger: Ledger, r: Spend)
    requires opt.paymentStrategyType == PartialPointsTenPercentGlobalDiscount
    requires r in Realizations(s, order, opt, ledger)
    ensures Affordable(ledger, r)
    ensures SpendTotal(r) == opt.finalPrice
    ensures && s.points.Some? && |r| == 2
      && r[0].paymentMethod == s.points.value && r[1].paymentMethod in s.cards
      && r[0].amount >= MinPointsRequired(order.value) && r[1].amount > 0
  {
    var pm := s.points.value;
    var minRequired := MinPointsRequired(order.value);
    var pointsAmount := PartialPoints(Balance(ledger, pm.id), opt.finalPrice, minRequired);
    var cardAmount := opt.finalPrice - pointsAmount;
    CardRealizationsShape(ledger, pm, pointsAmount, cardAmount, s.cards, r);
    PairSpendTotal(r[0], r[1]);
  }

  lemma {:induction false} CardRealizationsShape(ledger: Ledger, pointsMethod: PaymentMethod, pointsAmount: Money,
                                                 cardAmount: Money, cards: seq<PaymentMethod>, r: Spend)
    requires r in CardRealizations(ledger, pointsMethod, pointsAmount, cardAmount, cards)
    ensures exists card :: card in cards && Balance(ledger, card.id) >= cardAmount
                           && r == [Charge(pointsMethod, pointsAmount), Charge(card, cardAmount)]
  {
    var init := cards[..|cards| - 1];
    var card := cards[|cards| - 1];
    if r in CardRealizations(ledger, pointsMethod, pointsAmount, cardAmount, init) {
      CardRealizationsShape(ledger, pointsMethod, pointsAmount, cardAmount, init, r);
      var c :| c in init && Balance(ledger, c.id) >= cardAmount
               && r == [Charge(pointsMethod, pointsAmount), Charge(c, cardAmount)];
      assert c in cards;
    } else {
      assert card in cards;
    }
  }

  lemma {:induction false} CardRealizationsComplete(ledger: Ledger, pointsMethod: PaymentMethod, pointsAmount: Money,
                                                    cardAmount: Money, cards: seq<PaymentMethod>, card: PaymentMethod)
    requires card in cards && Balance(ledger, card.id) >= cardAmount
    ensures [Charge(pointsMethod, pointsAmount), Charge(card, cardAmount)] in CardRealizations(ledger, pointsMethod, pointsAmount, cardAmount, cards)
  {
    var init := cards[..|cards| - 1];
    if card != cards[|cards| - 1] {
      assert cards == init + [cards[|cards| - 1]];
      CardRealizationsComplete(ledger, pointsMethod, pointsAmount, cardAmount, init, card);
    }
  }

  /** When a single-method option is realizable and when a partial-points
      option is realizable with a given card, both directions. */
  lemma RealizationsExactly(s: Setting, order: Order, opt: CalculatedPaymentOption, ledger: Ledger)
    ensures opt.paymentStrategyType != PartialPointsTenPercentGlobalDiscount ==>
      (opt.spent in Realizations(s, order, opt, ledger) <==> Affordable(ledger, opt.spent) && opt.spent != [])
    ensures opt.paymentStrategyType == PartialPointsTenPercentGlobalDiscount && s.points.Some? ==>
      var pm := s.points.value;
      var minRequired := MinPointsRequired(order.value);
      var available := Balance(ledger, pm.id);
      var pointsAmount := PartialPoints(available, opt.finalPrice, minRequired);
      var cardAmount := opt.finalPrice - pointsAmount;
      forall card :: card in s.cards ==>
        ([Charge(pm, pointsAmount), Charge(card, cardAmount)] in Realizations(s, order, opt, ledger)
         <==> available >= minRequired && cardAmount > 0 && Balance(ledger, card.id) >= cardAmount)
  {
    if opt.paymentStrategyType == PartialPointsTenPercentGlobalDiscount && s.points.Some? {
      var pm := s.points.value;
      var minRequired := MinPointsRequired(order.value);
      var available := Balance(ledger, pm.id);
      var pointsAmount := PartialPoints(available, opt.finalPrice, minRequired);
      var cardAmount := opt.finalPrice - pointsAmount;
      forall card | card in s.cards
        ensures [Charge(pm, pointsAmount), Charge(card, cardAmount)] in Realizations(s, order, opt, ledger)
                <==> available >= minRequired && cardAmount > 0 && Balance(ledger, card.id) >= cardAmount
      {
        var r := [Charge(pm, pointsAmount), Charge(card, cardAmount)];
        if available >= minRequired && cardAmount > 0 {
          if Balance(ledger, card.id) >= cardAmount {
            CardRealizationsComplete(ledger, pm, pointsAmount, cardAmount, s.cards, card);
          } else if r in Realizations(s, order, opt, ledger) {
            CardRealizationsShape(ledger, pm, pointsAmount, cardAmount, s.cards, r);
          }
        }
      }
    }
  }

  /** Paying order idx with realization r of option opt is a step the rules allow. */
  predicate ValidStep(s: Setting, idx: nat, ledger: Ledger, opt: CalculatedPaymentOption, r: Spend)
    requires idx < |s.orders|
  {
    && opt in s.optionsFor(s.orders[idx])
    && r in Realizations(s, s.orders[idx], opt, ledger)
    && r != []
  }

  /** suffix is a valid way to pay orders idx.. from ledger, with total discount
      d: an order of value zero or less gets the empty entry, every other order
      an entry made of one of its options, realized within the ledger left by
      the entries before it. */
  ghost predicate ValidFrom(s: Setting, idx: nat, ledger: Ledger, suffix: seq<AppliedPayment>, d: Money)
    requires idx <= |s.orders|
    decreases |s.orders| - idx
  {
    if idx == |s.orders| then suffix == [] && d == 0
    else if s.orders[idx].value <= 0 then
      suffix != [] && suffix[0] == ZeroEntry(s.orders[idx]) && ValidFrom(s, idx + 1, ledger, suffix[1..], d)
    else
      suffix != [] &&
      exists opt, r :: ValidStep(s, idx, ledger, opt, r) && suffix[0] == EntryFor(s.orders[idx], opt, r)
        && ValidFrom(s, idx + 1, Deduct(ledger, r), suffix[1..], d - opt.discountAmount)
  }

  lemma ValidFromIntro(s: Setting, idx: nat, ledger: Ledger, suffix: seq<AppliedPayment>, d: Money,
                       opt: CalculatedPaymentOption, r: Spend)
    requires idx < |s.orders| && s.orders[idx].value > 0
    requires ValidStep(s, idx, ledger, opt, r)
    requires suffix != [] && suffix[0] == EntryFor(s.orders[idx], opt, r)
    requires ValidFrom(s, idx + 1, Deduct(ledger, r), suffix[1..], d - opt.discountAmount)
    ensures ValidFrom(s, idx, ledger, suffix, d)
  {
  }

  /** Every plan the search reaches extends the path it started from by a valid suffix. */
  lemma {:induction false} LeavesSound(s: Setting, idx: nat, ledger: Ledger, acc: Money, path: seq<AppliedPayment>, leaf: Leaf)
    requires idx <= |s.orders|
    requires leaf in Leaves(s, idx, ledger, acc, path)
    ensures |path| <= |leaf.plan| && leaf.plan[..|path|] == path
    ensures ValidFrom(s, idx, ledger, leaf.plan[|path|..], leaf.discount - acc)
    decreases |s.orders| - idx, 2, 0
  {
    if idx == |s.orders| {
      assert leaf == Leaf(path, acc);
    } else if s.orders[idx].value <= 0 {
      var path' := path + [ZeroEntry(s.orders[idx])];
      LeavesSound(s, idx + 1, ledger, acc, path', leaf);
      assert leaf.plan[..|path'|][..|path|] == leaf.plan[..|path|];
      assert leaf.plan[|path|..][1..] == leaf.plan[|path'|..];
    } else {
      OptionsLeavesSound(s, idx, ledger, acc, path, s.optionsFor(s.orders[idx]), leaf);
    }
  }

  lemma {:induction false} OptionsLeavesSound(s: Setting, idx: nat, ledger: Ledger, acc: Money, path: seq<AppliedPayment>,
                                              opts: seq<CalculatedPaymentOption>, leaf: Leaf)
    requires idx < |s.orders| && s.orders[idx].value > 0
    requires forall o :: o in opts ==> o in s.optionsFor(s.orders[idx])
    requires leaf in OptionsLeaves(s, idx, ledger, acc, path, opts)
    ensures |path| <= |leaf.plan| && leaf.plan[..|path|] == path
    ensures ValidFrom(s, idx, ledger, leaf.plan[|path|..], leaf.discount - acc)
    decreases |s.orders| - idx, 1, |opts|
  {
    var init := opts[..|opts| - 1];
    var opt := opts[|opts| - 1];
    if leaf in OptionsLeaves(s, idx, ledger, acc, path, init) {
      assert forall o :: o in init ==> o in opts;
      OptionsLeavesSound(s, idx, ledger, acc, path, init, leaf);
    } else {
      RealLeavesSound(s, idx, ledger, acc, path, opt, Realizations(s, s.orders[idx], opt, ledger), leaf);
    }
  }

  lemma {:induction false} RealLeavesSound(s: Setting, idx: nat, ledger: Ledger, acc: Money, path: seq<AppliedPayment>,
                                           opt: CalculatedPaymentOption, rs: seq<Spend>, leaf: Leaf)
    requires idx < |s.orders| && s.orders[idx].value > 0
    requires opt in s.optionsFor(s.orders[idx])
    requires forall r :: r in rs ==> r in Realizations(s, s.orders[idx], opt, ledger)
    requires leaf in RealLeaves(s, idx, ledger, acc, path, opt, rs)
    ensures |path| <= |leaf.plan| && leaf.plan[..|path|] == path
    ensures ValidFrom(s, idx, ledger, leaf.plan[|path|..], leaf.discount - acc)
    decreases |s.orders| - idx, 0, |rs|
  {
    var init := rs[..|rs| - 1];
    var r := rs[|rs| - 1];
    if leaf in RealLeaves(s, idx, ledger, acc, path, opt, init) {
      assert forall r :: r in init ==> r in rs;
      RealLeavesSound(s, idx, ledger, acc, path, opt, init, leaf);
    } else {
      RealLeafSound(s, idx, ledger, acc, path, opt, r, leaf);
    }
  }

  lemma {:induction false} RealLeafSound(s: Setting, idx: nat, ledger: Ledger, acc: Money, path: seq<AppliedPayment>,
                                         opt: CalculatedPaymentOption, r: Spend, leaf: Leaf)
    requires idx < |s.orders| && s.orders[idx].value > 0
    requires ValidStep(s, idx, ledger, opt, r)
    requires leaf in Leaves(s, idx + 1, Deduct(ledger, r), acc + opt.discountAmount, path + [EntryFor(s.orders[idx], opt, r)])
    ensures |path| <= |leaf.plan| && leaf.plan[..|path|] == path
    ensures ValidFrom(s, idx, ledger, leaf.plan[|path|..], leaf.discount - acc)
    decreases |s.orders| - idx, 0, 0
  {
    var entry := EntryFor(s.orders[idx], opt, r);
    LeavesSound(s, idx + 1, Deduct(ledger, r), acc + opt.discountAmount, path + [entry], leaf);
    StepSound(s, idx, ledger, acc, path, opt, r, leaf);
  }

  /** A leaf below the entry paying order idx with opt realized as r has a valid suffix from idx. */
  lemma StepSound(s: Setting, idx: nat, ledger: Ledger, acc: Money, path: seq<AppliedPayment>,
                  opt: CalculatedPaymentOption, r: Spend, leaf: Leaf)
    requires idx < |s.orders| && s.orders[idx].value > 0
    requires ValidStep(s, idx, ledger, opt, r)
    requires var path' := path + [EntryFor(s.orders[idx], opt, r)];
      && |path'| <= |leaf.plan| && leaf.plan[..|path'|] == path'
      && ValidFrom(s, idx + 1, Deduct(ledger, r), leaf.plan[|path'|..], leaf.discount - (acc + opt.discountAmount))
    ensures |path| <= |leaf.plan| && leaf.plan[..|path|] == path
    ensures ValidFrom(s, idx, ledger, leaf.plan[|path|..], leaf.discount - acc)
  {
    var entry := EntryFor(s.orders[idx], opt, r);
    var path' := path + [entry];
    PrefixStep(leaf.plan, path, entry);
    var suffix := leaf.plan[|path|..];
    var rest := leaf.plan[|path'|..];
    var d := leaf.discount - acc;
    assert suffix[1..] == rest && leaf.discount - (acc + opt.discountAmount) == d - opt.discountAmount;
    ValidFromIntro(s, idx, ledger, suffix, d, opt, r);
  }

  /** A plan that extends path + [e] extends path, and its part after path is e followed by its part after path + [e]. */
  lemma PrefixStep(plan: seq<AppliedPayment>, path: seq<AppliedPayment>, e: AppliedPayment)
    requires |path + [e]| <= |plan| && plan[..|path + [e]|] == path + [e]
    ensures plan[..|path|] == path
    ensures plan[|path|..] != [] && plan[|path|..][0] == e && plan[|path|..][1..] == plan[|path + [e]|..]
  {
    assert plan[..|path + [e]|][..|path|] == plan[..|path|];
    assert plan[|path|] == plan[..|path + [e]|][|path|];
  }

  lemma {:induction false} RealLeavesContain(s: Setting, idx: nat, ledger: Ledger, acc: Money, path: seq<AppliedPayment>,
                                             opt: CalculatedPaymentOption, rs: seq<Spend>, r: Spend, leaf: Leaf)
    requires idx < |s.orders|
    requires r in rs && r != []
    requires leaf in Leaves(s, idx + 1, Deduct(ledger, r), acc + opt.discountAmount, path + [EntryFor(s.orders[idx], opt, r)])
    ensures leaf in RealLeaves(s, idx, ledger, acc, path, opt, rs)
  {
    var init := rs[..|rs| - 1];
    if r != rs[|rs| - 1] {
      assert rs == init + [rs[|rs| - 1]];
      RealLeavesContain(s, idx, ledger, acc, path, opt, init, r, leaf);
    }
  }

  lemma {:induction false} OptionsLeavesContain(s: Setting, idx: nat, ledger: Ledger, acc: Money, path: seq<AppliedPayment>,
                                                opts: seq<CalculatedPaymentOption>, opt: CalculatedPaymentOption, r: Spend, leaf: Leaf)
    requires idx < |s.orders|
    requires opt in opts && r in Realizations(s, s.orders[idx], opt, ledger) && r != []
    requires leaf in Leaves(s, idx + 1, Deduct(ledger, r), acc + opt.discountAmount, path + [EntryFor(s.orders[idx], opt, r)])
    ensures leaf in OptionsLeaves(s, idx, ledger, acc, path, opts)
  {
    var init := opts[..|opts| - 1];
    if opt != opts[|opts| - 1] {
      assert opts == init + [opts[|opts| - 1]];
      OptionsLeavesContain(s, idx, ledger, acc, path, init, opt, r, leaf);
    } else {
      RealLeavesContain(s, idx, ledger, acc, path, opt, Realizations(s, s.orders[idx], opt, ledger), r, leaf);
    }
  }

  /** Every valid suffix is reached by the search, with its discount. */
  lemma {:induction false} LeavesComplete(s: Setting, idx: nat, ledger: Ledger, acc: Money, path: seq<AppliedPayment>,
                                          suffix: seq<AppliedPayment>, d: Money)
    requires idx <= |s.orders|
    requires ValidFrom(s, idx, ledger, suffix, d)
    ensures Leaf(path + suffix, acc + d) in Leaves(s, idx, ledger, acc, path)
    decreases |s.orders| - idx, 1
  {
    if idx == |s.orders| {
      assert path + suffix == path;
    } else if s.orders[idx].value <= 0 {
      var path' := path + [ZeroEntry(s.orders[idx])];
      LeavesComplete(s, idx + 1, ledger, acc, path', suffix[1..], d);
      assert path' + suffix[1..] == path + suffix;
    } else {
      var opt, r :| ValidStep(s, idx, ledger, opt, r) && suffix[0] == EntryFor(s.orders[idx], opt, r)
        && ValidFrom(s, idx + 1, Deduct(ledger, r), suffix[1..], d - opt.discountAmount);
      StepComplete(s, idx, ledger, acc, path, suffix, d, opt, r);
    }
  }

  /** A valid suffix whose first entry pays order idx with opt realized as r is reached by the search. */
  lemma {:induction false} StepComplete(s: Setting, idx: nat, ledger: Ledger, acc: Money, path: seq<AppliedPayment>,
                                        suffix: seq<AppliedPayment>, d: Money, opt: CalculatedPaymentOption, r: Spend)
    requires idx < |s.orders| && s.orders[idx].value > 0
    requires ValidStep(s, idx, ledger, opt, r)
    requires suffix != [] && suffix[0] == EntryFor(s.orders[idx], opt, r)
    requires ValidFrom(s, idx + 1, Deduct(ledger, r), suffix[1..], d - opt.discountAmount)
    ensures Leaf(path + suffix, acc + d) in Leaves(s, idx, ledger, acc, path)
    decreases |s.orders| - idx, 0
  {
    var path' := path + [EntryFor(s.orders[idx], opt, r)];
    LeavesComplete(s, idx + 1, Deduct(ledger, r), acc + opt.discountAmount, path', suffix[1..], d - opt.discountAmount);
    assert path' + suffix[1..] == path + suffix;
    assert acc + opt.discountAmount + (d - opt.discountAmount) == acc + d;
    OptionsLeavesContain(s, idx, ledger, acc, path, s.optionsFor(s.orders[idx]),
                         opt, r, Leaf(path + suffix, acc + d));
  }

  /** The whole search: every order from the first, the starting ledger, nothing accumulated. */
  function Search(s: Setting, methods: seq<PaymentMethod>): Best {
    SelectBest(s.points, InitialBest, Leaves(s, 0, InitialLedger(methods), 0, []))
  }

  /** plan is a valid way to pay all orders from the methods' limits, with total discount d. */
  ghost predicate ValidPlan(s: Setting, methods: seq<PaymentMethod>, plan: seq<AppliedPayment>, d: Money) {
    ValidFrom(s, 0, InitialLedger(methods), plan, d)
  }

  /** The search returns the starting record or a valid plan with its discount
      and points, and no valid plan has more discount, or as much discount and
      more points. */
  lemma SearchOptimal(s: Setting, methods: seq<PaymentMethod>)
    ensures var r := Search(s, methods);
      r == InitialBest || (ValidPlan(s, methods, r.plan, r.discount) && r.points == PointsSpent(s.points, r.plan))
    ensures var r := Search(s, methods);
      forall plan, d :: ValidPlan(s, methods, plan, d) ==>
        d < r.discount || (d == r.discount && PointsSpent(s.points, plan) <= r.points)
  {
    var ledger := InitialLedger(methods);
    var leaves := Leaves(s, 0, ledger, 0, []);
    var r := Search(s, methods);
    SelectBestCorrect(s.points, InitialBest, leaves);
    if r != InitialBest {
      var leaf :| leaf in leaves && r == Chosen(s.points, leaf);
      LeavesSound(s, 0, ledger, 0, [], leaf);
      assert leaf.plan[0..] == leaf.plan;
    }
    forall plan, d | ValidPlan(s, methods, plan, d)
      ensures d < r.discount || (d == r.discount && PointsSpent(s.points, plan) <= r.points)
    {
      LeavesComplete(s, 0, ledger, 0, [], plan, d);
      assert [] + plan == plan;
      assert !Beats(s.points, Leaf(plan, d), r);
    }
  }

  /** A valid suffix has one entry per remaining order, in order, each charging
      exactly the price it records. */
  lemma {:induction false} ValidFromShape(s: Setting, idx: nat, ledger: Ledger, suffix: seq<AppliedPayment>, d: Money)
    requires OptionsPriced(s)
    requires idx <= |s.orders| && ValidFrom(s, idx, ledger, suffix, d)
    ensures |suffix| == |s.orders| - idx
    ensures forall k :: 0 <= k < |suffix| ==> suffix[k].orderId == s.orders[idx + k].id
    ensures forall k :: 0 <= k < |suffix| ==> SpendTotal(suffix[k].actualAmountSpent) == suffix[k].finalPricePaid
    decreases |s.orders| - idx
  {
    if idx < |s.orders| {
      var ledger', d' := ValidFromHead(s, idx, ledger, suffix, d);
      ValidFromShape(s, idx + 1, ledger', suffix[1..], d');
      forall k | 0 < k < |suffix|
        ensures suffix[k] == suffix[1..][k - 1]
      {
      }
    }
  }

  /** The first entry of a valid suffix names its order and charges its price,
      and the rest is valid from the ledger and discount it leaves. */
  lemma ValidFromHead(s: Setting, idx: nat, ledger: Ledger, suffix: seq<AppliedPayment>, d: Money)
    returns (ledger': Ledger, d': Money)
    requires OptionsPriced(s)
    requires idx < |s.orders| && ValidFrom(s, idx, ledger, suffix, d)
    ensures suffix != [] && ValidFrom(s, idx + 1, ledger', suffix[1..], d')
    ensures suffix[0].orderId == s.orders[idx].id
    ensures SpendTotal(suffix[0].actualAmountSpent) == suffix[0].finalPricePaid
  {
    ledger', d' := ledger, d;
    if s.orders[idx].value > 0 {
      var opt, r :| ValidStep(s, idx, ledger, opt, r) && suffix[0] == EntryFor(s.orders[idx], opt, r)
        && ValidFrom(s, idx + 1, Deduct(ledger, r), suffix[1..], d - opt.discountAmount);
      RealizationShape(s, s.orders[idx], opt, ledger, r);
      ledger', d' := Deduct(ledger, r), d - opt.discountAmount;
    }
  }

  /** A valid plan has one entry per order, in order, each charging exactly the price it records. */
  lemma ValidPlanShape(s: Setting, methods: seq<PaymentMethod>, plan: seq<AppliedPayment>, d: Money)
    requires s.Generated() && ValidPlan(s, methods, plan, d)
    ensures |plan| == |s.orders|
    ensures forall k :: 0 <= k < |plan| ==> plan[k].orderId == s.orders[k].id
    ensures forall k :: 0 <= k < |plan| ==> SpendTotal(plan[k].actualAmountSpent) == plan[k].finalPricePaid
  {
    GeneratedOptionsPriced(s);
    ValidFromShape(s, 0, InitialLedger(methods), plan, d);
  }

  /** The search's own points method is not one of its cards. */
  predicate PointsApart(s: Setting) {
    s.points.Some? ==> forall c :: c in s.cards ==> c.id != s.points.value.id
  }

  lemma SingleAmountOn(c: Charge, id: string)
    ensures AmountOn([c], id) == if c.paymentMethod.id == id then c.amount else 0
  {
    assert [c][..0] == [];
  }

  lemma PairAmountOn(a: Charge, b: Charge, id: string)
    ensures AmountOn([a, b], id) == (if a.paymentMethod.id == id then a.amount else 0) + (if b.paymentMethod.id == id then b.amount else 0)
  {
    assert [a, b][..1] == [a];
    SingleAmountOn(a, id);
  }

  /** Paying a realization leaves every limit that was non-negative non-negative. */
  lemma RealizationKeepsLimits(s: Setting, order: Order, opt: CalculatedPaymentOption, ledger: Ledger, r: Spend, id: string)
    requires OptionsPriced(s) && opt in s.optionsFor(order) && r in Realizations(s, order, opt, ledger)
    requires PointsApart(s)
    requires Balance(ledger, id) >= 0
    ensures AmountOn(r, id) <= Balance(ledger, id)
  {
    RealizationShape(s, order, opt, ledger, r);
    assert Affordable(ledger, r);
    if |r| == 1 {
      SingleAmountOn(r[0], id);
      assert r == [r[0]];
    } else {
      PairAmountOn(r[0], r[1], id);
      assert r == [r[0], r[1]];
    }
  }

  /** A valid suffix charges no method more than what the ledger leaves it,
      when no limit is negative and the points method is not a card. */
  lemma {:induction false} ValidFromWithinLimits(s: Setting, idx: nat, ledger: Ledger, suffix: seq<AppliedPayment>, d: Money, id: string)
    requires OptionsPriced(s) && PointsApart(s)
    requires idx <= |s.orders| && ValidFrom(s, idx, ledger, suffix, d)
    requires forall i :: Balance(ledger, i) >= 0
    ensures SpentOn(suffix, id) <= Balance(ledger, id)
    decreases |s.orders| - idx, 1
  {
    if idx < |s.orders| {
      if s.orders[idx].value <= 0 {
        SpentOnFirst(suffix, id);
        ValidFromWithinLimits(s, idx + 1, ledger, suffix[1..], d, id);
        assert suffix[0].actualAmountSpent == [];
      } else {
        var opt, r :| ValidStep(s, idx, ledger, opt, r) && suffix[0] == EntryFor(s.orders[idx], opt, r)
          && ValidFrom(s, idx + 1, Deduct(ledger, r), suffix[1..], d - opt.discountAmount);
        StepWithinLimits(s, idx, ledger, suffix, d, id, opt, r);
      }
    } else {
      assert suffix == [];
    }
  }

  /** The same, for a suffix whose first entry pays order idx with opt realized as r. */
  lemma {:induction false} StepWithinLimits(s: Setting, idx: nat, ledger: Ledger, suffix: seq<AppliedPayment>, d: Money,
                                            id: string, opt: CalculatedPaymentOption, r: Spend)
    requires OptionsPriced(s) && PointsApart(s)
    requires idx < |s.orders| && ValidStep(s, idx, ledger, opt, r)
    requires suffix != [] && suffix[0] == EntryFor(s.orders[idx], opt, r)
    requires ValidFrom(s, idx + 1, Deduct(ledger, r), suffix[1..], d - opt.discountAmount)
    requires forall i :: Balance(ledger, i) >= 0
    ensures SpentOn(suffix, id) <= Balance(ledger, id)
    decreases |s.orders| - idx, 0
  {
    SpentOnFirst(suffix, id);
    forall i
      ensures Balance(Deduct(ledger, r), i) >= 0
    {
      DeductBalance(ledger, r, i);
      RealizationKeepsLimits(s, s.orders[idx], opt, ledger, r, i);
    }
    ValidFromWithinLimits(s, idx + 1, Deduct(ledger, r), suffix[1..], d - opt.discountAmount, id);
    DeductBalance(ledger, r, id);
  }

  /** A valid plan charges each method at most its limit, and at most 0 in
      total to an id that no listed method has, when no limit is negative. */
  lemma ValidPlanWithinLimits(s: Setting, methods: seq<PaymentMethod>, plan: seq<AppliedPayment>, d: Money)
    requires s.Generated() && PointsApart(s) && DistinctIds(methods)
    requires forall m :: m in methods ==> m.methodLimit >= 0
    requires ValidPlan(s, methods, plan, d)
    ensures forall m :: m in methods ==> SpentOn(plan, m.id) <= m.methodLimit
    ensures forall id :: (forall m :: m in methods ==> m.id != id) ==> SpentOn(plan, id) <= 0
  {
    var ledger := InitialLedger(methods);
    GeneratedOptionsPriced(s);
    forall i
      ensures Balance(ledger, i) >= 0
    {
      InitialLedgerBalance(methods, i);
      if exists m :: m in methods && m.id == i {
        var m :| m in methods && m.id == i;
      }
    }
    forall id
      ensures SpentOn(plan, id) <= Balance(ledger, id)
    {
      ValidFromWithinLimits(s, 0, ledger, plan, d, id);
    }
    forall m | m in methods
      ensures SpentOn(plan, m.id) <= m.methodLimit
    {
      InitialLedgerBalance(methods, m.id);
    }
    forall id | forall m :: m in methods ==> m.id != id
      ensures SpentOn(plan, id) <= 0
    {
      InitialLedgerBalance(methods, id);
    }
  }

  /** Every method the setting can charge is one of methods: each order's
      promotions, and the points method and cards of both the generator and
      the search. The order loader resolves promotions in the shopper's list. */
  predicate MethodsKnown(s: Setting, methods: seq<PaymentMethod>) {
    && (forall i, m :: 0 <= i < |s.orders| && m in s.orders[i].applicablePromotions ==> m in methods)
    && (s.optionPoints.Some? ==> s.optionPoints.value in methods)
    && (forall c :: c in s.optionCards ==> c in methods)
    && (s.points.Some? ==> s.points.value in methods)
    && (forall c :: c in s.cards ==> c in methods)
  }

  /** Every charge of spend is on a method of the list. */
  predicate ChargesAmong(spend: Spend, methods: seq<PaymentMethod>) {
    forall j :: 0 <= j < |spend| ==> spend[j].paymentMethod in methods
  }

  /** Every option offered to an order of the setting charges listed methods only. */
  ghost predicate OptionsKnown(s: Setting, methods: seq<PaymentMethod>) {
    forall i, o :: 0 <= i < |s.orders| && o in s.optionsFor(s.orders[i]) ==> ChargesAmong(o.spent, methods)
  }

  lemma GeneratedOptionsKnown(s: Setting, methods: seq<PaymentMethod>)
    requires s.Generated() && MethodsKnown(s, methods)
    ensures OptionsKnown(s, methods)
  {
    forall i, o | 0 <= i < |s.orders| && o in s.optionsFor(s.orders[i])
      ensures ChargesAmong(o.spent, methods)
    {
      OptionsForWellFormed(s.orders[i], s.optionPoints, s.optionCards);
      assert WellFormedOption(s.orders[i], s.optionPoints, s.optionCards, o);
    }
  }

  /** A realization of an offered option charges listed methods only. */
  lemma RealizationKnown(s: Setting, idx: nat, ledger: Ledger, opt: CalculatedPaymentOption, r: Spend,
                         methods: seq<PaymentMethod>)
    requires OptionsKnown(s, methods) && MethodsKnown(s, methods)
    requires idx < |s.orders| && ValidStep(s, idx, ledger, opt, r)
    ensures ChargesAmong(r, methods)
  {
    if opt.paymentStrategyType == PartialPointsTenPercentGlobalDiscount {
      PartialRealizationShape(s, s.orders[idx], opt, ledger, r);
    } else {
      assert r == opt.spent;
    }
  }

  /** Every entry of a valid suffix charges listed methods only. */
  lemma {:induction false} ValidFromChargesKnown(s: Setting, idx: nat, ledger: Ledger, suffix: seq<AppliedPayment>, d: Money,
                                                 methods: seq<PaymentMethod>)
    requires OptionsKnown(s, methods) && MethodsKnown(s, methods)
    requires idx <= |s.orders| && ValidFrom(s, idx, ledger, suffix, d)
    ensures forall k :: 0 <= k < |suffix| ==> ChargesAmong(suffix[k].actualAmountSpent, methods)
    decreases |s.orders| - idx
  {
    if idx < |s.orders| {
      var ledger', d' := ledger, d;
      if s.orders[idx].value <= 0 {
        assert suffix[0].actualAmountSpent == [];
      } else {
        var opt, r :| ValidStep(s, idx, ledger, opt, r) && suffix[0] == EntryFor(s.orders[idx], opt, r)
          && ValidFrom(s, idx + 1, Deduct(ledger, r), suffix[1..], d - opt.discountAmount);
        RealizationKnown(s, idx, ledger, opt, r, methods);
        ledger', d' := Deduct(ledger, r), d - opt.discountAmount;
      }
      ValidFromChargesKnown(s, idx + 1, ledger', suffix[1..], d', methods);
      forall k | 0 < k < |suffix|
        ensures ChargesAmong(suffix[k].actualAmountSpent, methods)
      {
        assert suffix[k] == suffix[1..][k - 1];
      }
    }
  }

  /** When every method the setting can charge is listed, a valid plan charges
      listed methods only, and an id that no listed method has is charged
      nothing at all. */
  lemma ValidPlanChargesKnown(s: Setting, methods: seq<PaymentMethod>, plan: seq<AppliedPayment>, d: Money)
    requires s.Generated() && MethodsKnown(s, methods)
    requires ValidPlan(s, methods, plan, d)
    ensures forall k :: 0 <= k < |plan| ==> ChargesAmong(plan[k].actualAmountSpent, methods)
    ensures forall id :: (forall m :: m in methods ==> m.id != id) ==> SpentOn(plan, id) == 0
  {
    GeneratedOptionsKnown(s, methods);
    ValidFromChargesKnown(s, 0, InitialLedger(methods), plan, d, methods);
    forall id | forall m :: m in methods ==> m.id != id
      ensures SpentOn(plan, id) == 0
    {
      SpentOnUncharged(plan, id);
    }
  }

  /** A realization never charges one id twice when the points method shares
      its id with no card. */
  lemma RealizationChargesDistinct(s: Setting, order: Order, opt: CalculatedPaymentOption, ledger: Ledger, r: Spend)
    requires OptionsPriced(s) && opt in s.optionsFor(order) && r in Realizations(s, order, opt, ledger)
    requires PointsApart(s)
    ensures forall j, k :: 0 <= j < k < |r| ==> r[j].paymentMethod.id != r[k].paymentMethod.id
  {
    RealizationShape(s, order, opt, ledger, r);
  }

  /** Orders are valid and every percentage the generator can apply is non-negative. */
  predicate NonNegativeDiscounts(s: Setting) {
    && (forall i :: 0 <= i < |s.orders| ==> s.orders[i].Valid())
    && (forall i, m :: 0 <= i < |s.orders| && m in s.orders[i].applicablePromotions ==> m.discountPercentage.unscaled >= 0)
    && (s.optionPoints.Some? ==> s.optionPoints.value.discountPercentage.unscaled >= 0)
  }

  /** Every option the generator offers any order has a non-negative discount. */
  ghost predicate OptionsDiscountNonNegative(s: Setting) {
    forall i, o :: 0 <= i < |s.orders| && o in s.optionsFor(s.orders[i]) ==> o.discountAmount >= 0
  }

  lemma GeneratedDiscountNonNegative(s: Setting)
    requires s.Generated() && NonNegativeDiscounts(s)
    ensures OptionsDiscountNonNegative(s)
  {
    forall i, o | 0 <= i < |s.orders| && o in s.optionsFor(s.orders[i])
      ensures o.discountAmount >= 0
    {
      OptionDiscountNonNegative(s.orders[i], s.optionPoints, s.optionCards, o);
    }
  }

  lemma {:induction false} ValidFromDiscountNonNegative(s: Setting, idx: nat, ledger: Ledger, suffix: seq<AppliedPayment>, d: Money)
    requires OptionsDiscountNonNegative(s)
    requires idx <= |s.orders| && ValidFrom(s, idx, ledger, suffix, d)
    ensures d >= 0
    decreases |s.orders| - idx
  {
    if idx < |s.orders| {
      if s.orders[idx].value <= 0 {
        ValidFromDiscountNonNegative(s, idx + 1, ledger, suffix[1..], d);
      } else {
        var opt, r :| ValidStep(s, idx, ledger, opt, r) && suffix[0] == EntryFor(s.orders[idx], opt, r)
          && ValidFrom(s, idx + 1, Deduct(ledger, r), suffix[1..], d - opt.discountAmount);
        ValidFromDiscountNonNegative(s, idx + 1, Deduct(ledger, r), suffix[1..], d - opt.discountAmount);
      }
    }
  }

  /** With non-negative percentages the starting record never survives a valid
      plan: whenever some valid plan exists the search returns one, so an
      empty result for a non-empty order list means there is none. */
  lemma SearchFindsPlan(s: Setting, methods: seq<PaymentMethod>)
    requires s.Generated() && NonNegativeDiscounts(s)
    ensures var r := Search(s, methods);
      (exists plan, d :: ValidPlan(s, methods, plan, d)) ==> ValidPlan(s, methods, r.plan, r.discount)
    ensures var r := Search(s, methods);
      |s.orders| > 0 && r.plan == [] ==> forall plan, d :: !ValidPlan(s, methods, plan, d)
  {
    var r := Search(s, methods);
    SearchOptimal(s, methods);
    GeneratedDiscountNonNegative(s);
    GeneratedOptionsPriced(s);
    if plan, d :| ValidPlan(s, methods, plan, d) {
      ValidFromDiscountNonNegative(s, 0, InitialLedger(methods), plan, d);
      assert r != InitialBest;
      if |s.orders| > 0 {
        ValidFromShape(s, 0, InitialLedger(methods), r.plan, r.discount);
      }
    }
  }
}
