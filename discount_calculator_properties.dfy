/**
 * What the generated options promise: each rule's options have the rule's
 * price and spend shape, every option's spend adds up to its price and its
 * discount is the value minus its price, every eligible card gets its
 * options, and the output is grouped in rule order without duplicates.
 */
module LogicProperties {
  import opened Money
  import opened Wrappers
  import opened Domain
  import opened SeqUtil
  import opened Logic

  /** What every generated option satisfies, for the rule that produced it. */
  predicate WellFormedOption(order: Order, points: Option<PaymentMethod>, cards: seq<PaymentMethod>, o: CalculatedPaymentOption) {
    && o.order == order
    && SpendTotal(o.spent) == o.finalPrice
    && (order.value % Cent == 0 ==> o.finalPrice % Cent == 0 && o.discountAmount == order.value - o.finalPrice)
    && match o.paymentStrategyType
       case FullCardWithPromotion =>
         && |o.spent| == 1
         && o.spent[0].paymentMethod in order.applicablePromotions
         && o.spent[0].paymentMethod.kind == Card
         && o.finalPrice == DiscountedPrice(order.value, o.spent[0].paymentMethod.discountPercentage)
       case FullPointsOwnDiscount =>
         && points.Some?
         && o.spent == [Charge(points.value, o.finalPrice)]
         && o.finalPrice == DiscountedPrice(order.value, points.value.discountPercentage)
       case PartialPointsTenPercentGlobalDiscount =>
         var minPoints := MinPointsToActivateDiscount(order.value);
         && points.Some?
         && PartialRuleApplies(order.value)
         && o.finalPrice == order.value - minPoints
         && |o.spent| == 2
         && o.spent[0].paymentMethod == points.value
         && o.spent[1].paymentMethod in cards
         && o.spent[0].amount >= minPoints
         && o.spent[1].amount > 0
         && (o.finalPrice - Cent >= minPoints ==> o.spent[1].amount == Cent)
       case FullPaymentNoPromotion =>
         && |o.spent| == 1
         && o.spent[0].paymentMethod in cards
         && o.finalPrice == order.value
         && o.discountAmount == 0
  }

  /** The rank of a strategy in the order the rules are tried. */
  function Rank(s: PaymentStrategyType): nat {
    match s
    case FullCardWithPromotion => 0
    case FullPointsOwnDiscount => 1
    case PartialPointsTenPercentGlobalDiscount => 2
    case FullPaymentNoPromotion => 3
  }

  predicate RankSorted(s: seq<CalculatedPaymentOption>) {
    forall i, j :: 0 <= i < j < |s| ==> Rank(s[i].paymentStrategyType) <= Rank(s[j].paymentStrategyType)
  }

  predicate AllOfStrategy(s: seq<CalculatedPaymentOption>, t: PaymentStrategyType) {
    forall o :: o in s ==> o.paymentStrategyType == t
  }

  lemma SingleSpendTotal(c: Charge)
    ensures SpendTotal([c]) == c.amount
  {
    assert [c][..0] == [];
  }

  lemma PairSpendTotal(c: Charge, d: Charge)
    ensures SpendTotal([c, d]) == c.amount + d.amount
  {
    assert [c, d][..1] == [c];
    SingleSpendTotal(c);
  }

  lemma {:induction false} PromotionOptionsWellFormed(order: Order, points: Option<PaymentMethod>, cards: seq<PaymentMethod>,
                                                      promotions: seq<PaymentMethod>)
    requires forall c :: c in promotions ==> c in order.applicablePromotions
    ensures AllOfStrategy(PromotionOptions(order, promotions), FullCardWithPromotion)
    ensures forall o :: o in PromotionOptions(order, promotions) ==> WellFormedOption(order, points, cards, o)
  {
    if promotions != [] {
      var init := promotions[..|promotions| - 1];
      var last := promotions[|promotions| - 1];
      assert forall c :: c in init ==> c in promotions;
      PromotionOptionsWellFormed(order, points, cards, init);
      var price := DiscountedPrice(order.value, last.discountPercentage);
      SingleSpendTotal(Charge(last, price));
    }
  }

  lemma {:induction false} PromotionOptionsComplete(order: Order, promotions: seq<PaymentMethod>)
    ensures forall c :: c in promotions && c.kind == Card ==> PromotionOption(order, c) in PromotionOptions(order, promotions)
  {
    if promotions != [] {
      var init := promotions[..|promotions| - 1];
      PromotionOptionsComplete(order, init);
      assert promotions == init + [promotions[|promotions| - 1]];
    }
  }

  lemma FullPointsOptionsWellFormed(order: Order, points: Option<PaymentMethod>, cards: seq<PaymentMethod>)
    ensures |FullPointsOptions(order, points)| == (if points.Some? then 1 else 0)
    ensures AllOfStrategy(FullPointsOptions(order, points), FullPointsOwnDiscount)
    ensures forall o :: o in FullPointsOptions(order, points) ==> WellFormedOption(order, points, cards, o)
  {
    if points.Some? {
      var price := DiscountedPrice(order.value, points.value.discountPercentage);
      SingleSpendTotal(Charge(points.value, price));
    }
  }

  lemma PartialOptionWellFormed(order: Order, pointsMethod: PaymentMethod, cards: seq<PaymentMethod>, card: PaymentMethod)
    requires PartialRuleApplies(order.value)
    requires card in cards
    requires var minPoints := MinPointsToActivateDiscount(order.value);
      PartialSplit(minPoints, order.value - minPoints).1 > 0
    ensures var minPoints := MinPointsToActivateDiscount(order.value);
      var o := PartialOption(order, pointsMethod, card, minPoints, order.value - minPoints);
      o.paymentStrategyType == PartialPointsTenPercentGlobalDiscount && WellFormedOption(order, Some(pointsMethod), cards, o)
  {
    var minPoints := MinPointsToActivateDiscount(order.value);
    var finalPrice := order.value - minPoints;
    var split := PartialSplit(minPoints, finalPrice);
    var o := PartialOption(order, pointsMethod, card, minPoints, finalPrice);
    assert o.spent == [Charge(pointsMethod, split.0), Charge(card, split.1)];
    PairSpendTotal(Charge(pointsMethod, split.0), Charge(card, split.1));
    CentAlignedDifference(order.value, minPoints);
  }

  /** The difference of two whole-cent amounts is a whole-cent amount. */
  lemma CentAlignedDifference(a: Money, b: Money)
    requires b % Cent == 0
    ensures a % Cent == 0 ==> (a - b) % Cent == 0
  {
    if a % Cent == 0 {
      var i, j := a / Cent, b / Cent;
      assert a - b == Cent * (i - j);
    }
  }

  lemma {:induction false} PartialOptionsForCardsWellFormed(order: Order, pointsMethod: PaymentMethod, cards: seq<PaymentMethod>,
                                                            part: seq<PaymentMethod>)
    requires PartialRuleApplies(order.value)
    requires forall c :: c in part ==> c in cards
    ensures var minPoints := MinPointsToActivateDiscount(order.value);
      var r := PartialOptionsForCards(order, pointsMethod, minPoints, order.value - minPoints, part);
      && AllOfStrategy(r, PartialPointsTenPercentGlobalDiscount)
      && forall o :: o in r ==> WellFormedOption(order, Some(pointsMethod), cards, o)
  {
    var minPoints := MinPointsToActivateDiscount(order.value);
    var finalPrice := order.value - minPoints;
    if part != [] {
      var init := part[..|part| - 1];
      var last := part[|part| - 1];
      assert forall c :: c in init ==> c in part;
      PartialOptionsForCardsWellFormed(order, pointsMethod, cards, init);
      var head := PartialOptionsForCards(order, pointsMethod, minPoints, finalPrice, init);
      var tail := if PartialSplit(minPoints, finalPrice).1 > 0
                  then [PartialOption(order, pointsMethod, last, minPoints, finalPrice)] else [];
      if tail != [] {
        PartialOptionWellFormed(order, pointsMethod, cards, last);
      }
      var r := PartialOptionsForCards(order, pointsMethod, minPoints, finalPrice, part);
      assert r == head + tail;
      forall o | o in r
        ensures o.paymentStrategyType == PartialPointsTenPercentGlobalDiscount
        ensures WellFormedOption(order, Some(pointsMethod), cards, o)
      {
        if o !in head {
          assert o == tail[0];
        }
      }
    }
  }

  lemma {:induction false} PartialOptionsForCardsComplete(order: Order, pointsMethod: PaymentMethod, minPoints: Money,
                                                          finalPrice: Money, cards: seq<PaymentMethod>)
    ensures PartialSplit(minPoints, finalPrice).1 <= 0 ==> PartialOptionsForCards(order, pointsMethod, minPoints, finalPrice, cards) == []
    ensures PartialSplit(minPoints, finalPrice).1 > 0 ==> forall c :: c in cards ==>
      PartialOption(order, pointsMethod, c, minPoints, finalPrice) in PartialOptionsForCards(order, pointsMethod, minPoints, finalPrice, cards)
  {
    if cards != [] {
      var init := cards[..|cards| - 1];
      PartialOptionsForCardsComplete(order, pointsMethod, minPoints, finalPrice, init);
      assert cards == init + [cards[|cards| - 1]];
    }
  }

  lemma {:induction false} FullCardOptionsWellFormed(order: Order, points: Option<PaymentMethod>, cards: seq<PaymentMethod>,
                                                     part: seq<PaymentMethod>)
    requires forall c :: c in part ==> c in cards
    ensures AllOfStrategy(FullCardOptions(order, part), FullPaymentNoPromotion)
    ensures forall o :: o in FullCardOptions(order, part) ==> WellFormedOption(order, points, cards, o)
    ensures forall c :: c in part ==> FullCardOption(order, c) in FullCardOptions(order, part)
  {
    if part != [] {
      var init := part[..|part| - 1];
      var last := part[|part| - 1];
      assert forall c :: c in init ==> c in part;
      assert part == init + [last];
      FullCardOptionsWellFormed(order, points, cards, init);
      FullCardOptionWellFormed(order, points, cards, last);
      assert FullCardOptions(order, part) == FullCardOptions(order, init) + [FullCardOption(order, last)];
    }
  }

  lemma FullCardOptionWellFormed(order: Order, points: Option<PaymentMethod>, cards: seq<PaymentMethod>, card: PaymentMethod)
    requires card in cards
    ensures FullCardOption(order, card).paymentStrategyType == FullPaymentNoPromotion
    ensures WellFormedOption(order, points, cards, FullCardOption(order, card))
  {
    var o := FullCardOption(order, card);
    SingleSpendTotal(Charge(card, order.value));
    assert o.spent == [Charge(card, order.value)];
    assert SetScale(Decimal(0, 4), 2) == 0;
  }

  predicate AllWellFormed(order: Order, points: Option<PaymentMethod>, cards: seq<PaymentMethod>, s: seq<CalculatedPaymentOption>) {
    forall o :: o in s ==> WellFormedOption(order, points, cards, o)
  }

  lemma ConcatWellFormed(order: Order, points: Option<PaymentMethod>, cards: seq<PaymentMethod>,
                         a: seq<CalculatedPaymentOption>, b: seq<CalculatedPaymentOption>)
    requires AllWellFormed(order, points, cards, a) && AllWellFormed(order, points, cards, b)
    ensures AllWellFormed(order, points, cards, a + b)
  {
    forall o | o in a + b
      ensures WellFormedOption(order, points, cards, o)
    {
      if o in a {} else { assert o in b; }
    }
  }

  lemma GroupsWellFormed(order: Order, points: Option<PaymentMethod>, cards: seq<PaymentMethod>)
    ensures AllWellFormed(order, points, cards,
                          PromotionOptions(order, order.applicablePromotions) + FullPointsOptions(order, points)
                          + PartialOptions(order, points, cards) + FullCardOptions(order, cards))
  {
    var a := PromotionOptions(order, order.applicablePromotions);
    var b := FullPointsOptions(order, points);
    var c := PartialOptions(order, points, cards);
    var d := FullCardOptions(order, cards);
    assert AllWellFormed(order, points, cards, a) by {
      PromotionOptionsWellFormed(order, points, cards, order.applicablePromotions);
    }
    assert AllWellFormed(order, points, cards, b) by {
      FullPointsOptionsWellFormed(order, points, cards);
    }
    assert AllWellFormed(order, points, cards, c) by {
      if points.Some? && PartialRuleApplies(order.value) {
        PartialOptionsForCardsWellFormed(order, points.value, cards, cards);
      }
    }
    assert AllWellFormed(order, points, cards, d) by {
      FullCardOptionsWellFormed(order, points, cards, cards);
    }
    ConcatFourWellFormed(order, points, cards, a, b, c, d);
  }

  lemma ConcatFourWellFormed(order: Order, points: Option<PaymentMethod>, cards: seq<PaymentMethod>,
                             a: seq<CalculatedPaymentOption>, b: seq<CalculatedPaymentOption>,
                             c: seq<CalculatedPaymentOption>, d: seq<CalculatedPaymentOption>)
    requires AllWellFormed(order, points, cards, a) && AllWellFormed(order, points, cards, b)
    requires AllWellFormed(order, points, cards, c) && AllWellFormed(order, points, cards, d)
    ensures AllWellFormed(order, points, cards, a + b + c + d)
  {
    ConcatWellFormed(order, points, cards, a, b);
    ConcatWellFormed(order, points, cards, a + b, c);
    ConcatWellFormed(order, points, cards, a + b + c, d);
  }

  /** Every option the generator returns is well formed for its rule. */
  lemma OptionsForWellFormed(order: Order, points: Option<PaymentMethod>, cards: seq<PaymentMethod>)
    ensures forall o :: o in OptionsFor(order, points, cards) ==> WellFormedOption(order, points, cards, o)
  {
    GroupsWellFormed(order, points, cards);
    DistinctSpec(Candidates(order, points, cards));
  }

  /** Every option pays with one method, or with points and one card. */
  lemma OptionsForSpendShape(order: Order, points: Option<PaymentMethod>, cards: seq<PaymentMethod>, o: CalculatedPaymentOption)
    requires o in OptionsFor(order, points, cards)
    ensures o.paymentStrategyType != PartialPointsTenPercentGlobalDiscount ==> |o.spent| == 1
    ensures o.paymentStrategyType == PartialPointsTenPercentGlobalDiscount ==>
      |o.spent| == 2 && points.Some? && o.spent[0].paymentMethod == points.value && o.spent[1].paymentMethod in cards
    ensures SpendTotal(o.spent) == o.finalPrice
  {
    OptionsForWellFormed(order, points, cards);
    assert WellFormedOption(order, points, cards, o);
  }

  /** When the points method shares its id with no card, no generated option
      charges one id twice. */
  lemma OptionChargesDistinct(order: Order, points: Option<PaymentMethod>, cards: seq<PaymentMethod>, o: CalculatedPaymentOption)
    requires o in OptionsFor(order, points, cards)
    requires points.Some? ==> forall c :: c in cards ==> c.id != points.value.id
    ensures forall j, k :: 0 <= j < k < |o.spent| ==> o.spent[j].paymentMethod.id != o.spent[k].paymentMethod.id
  {
    OptionsForWellFormed(order, points, cards);
    assert WellFormedOption(order, points, cards, o);
  }

  /** The full-points option is offered exactly when there is a points method. */
  lemma FullPointsOfferedIff(order: Order, points: Option<PaymentMethod>, cards: seq<PaymentMethod>)
    ensures (exists o :: o in OptionsFor(order, points, cards) && o.paymentStrategyType == FullPointsOwnDiscount)
            <==> points.Some?
  {
    OptionsForWellFormed(order, points, cards);
    if points.Some? {
      var price := DiscountedPrice(order.value, points.value.discountPercentage);
      var o := NewCalculatedPaymentOption(order, price, order.value - price, FullPointsOwnDiscount, [Charge(points.value, price)]);
      assert o in FullPointsOptions(order, points);
      assert o in Candidates(order, points, cards);
      DistinctSpec(Candidates(order, points, cards));
    }
  }

  lemma {:induction false} PromotionStrategies(order: Order, promotions: seq<PaymentMethod>)
    ensures AllOfStrategy(PromotionOptions(order, promotions), FullCardWithPromotion)
  {
    if promotions != [] {
      PromotionStrategies(order, promotions[..|promotions| - 1]);
    }
  }

  lemma {:induction false} PartialStrategies(order: Order, pointsMethod: PaymentMethod, minPoints: Money,
                                             finalPrice: Money, cards: seq<PaymentMethod>)
    ensures AllOfStrategy(PartialOptionsForCards(order, pointsMethod, minPoints, finalPrice, cards), PartialPointsTenPercentGlobalDiscount)
  {
    if cards != [] {
      PartialStrategies(order, pointsMethod, minPoints, finalPrice, cards[..|cards| - 1]);
    }
  }

  lemma {:induction false} FullCardStrategies(order: Order, cards: seq<PaymentMethod>)
    ensures AllOfStrategy(FullCardOptions(order, cards), FullPaymentNoPromotion)
  {
    if cards != [] {
      FullCardStrategies(order, cards[..|cards| - 1]);
    }
  }

  /** The four groups, each made of its own rule's strategy. */
  lemma GroupStrategies(order: Order, points: Option<PaymentMethod>, cards: seq<PaymentMethod>)
    ensures AllOfStrategy(PromotionOptions(order, order.applicablePromotions), FullCardWithPromotion)
    ensures AllOfStrategy(FullPointsOptions(order, points), FullPointsOwnDiscount)
    ensures AllOfStrategy(PartialOptions(order, points, cards), PartialPointsTenPercentGlobalDiscount)
    ensures AllOfStrategy(FullCardOptions(order, cards), FullPaymentNoPromotion)
  {
    PromotionStrategies(order, order.applicablePromotions);
    if points.Some? {
      var minPoints := MinPointsToActivateDiscount(order.value);
      PartialStrategies(order, points.value, minPoints, order.value - minPoints, cards);
    }
    FullCardStrategies(order, cards);
  }

  /** The condition under which rule 3 yields options. */
  predicate PartialOffered(order: Order, points: Option<PaymentMethod>, cards: seq<PaymentMethod>) {
    var minPoints := MinPointsToActivateDiscount(order.value);
    points.Some? && PartialRuleApplies(order.value) && cards != []
    && PartialSplit(minPoints, order.value - minPoints).1 > 0
  }

  lemma PartialOfferedOnlyIf(order: Order, points: Option<PaymentMethod>, cards: seq<PaymentMethod>, o: CalculatedPaymentOption)
    requires o in OptionsFor(order, points, cards) && o.paymentStrategyType == PartialPointsTenPercentGlobalDiscount
    ensures PartialOffered(order, points, cards)
  {
    var a := PromotionOptions(order, order.applicablePromotions);
    var b := FullPointsOptions(order, points);
    var c := PartialOptions(order, points, cards);
    var d := FullCardOptions(order, cards);
    GroupStrategies(order, points, cards);
    DistinctSpec(Candidates(order, points, cards));
    assert o in Candidates(order, points, cards);
    assert Candidates(order, points, cards) == a + b + c + d;
    ThirdGroupMember(a, b, c, d, o);
    PartialOptionsNonEmpty(order, points, cards);
  }

  /** Rule 3 yields something only when its condition holds. */
  lemma PartialOptionsNonEmpty(order: Order, points: Option<PaymentMethod>, cards: seq<PaymentMethod>)
    requires PartialOptions(order, points, cards) != []
    ensures PartialOffered(order, points, cards)
  {
    var minPoints := MinPointsToActivateDiscount(order.value);
    PartialOptionsForCardsComplete(order, points.value, minPoints, order.value - minPoints, cards);
  }

  lemma PartialOfferedIf(order: Order, points: Option<PaymentMethod>, cards: seq<PaymentMethod>)
    requires PartialOffered(order, points, cards)
    ensures var minPoints := MinPointsToActivateDiscount(order.value);
      PartialOption(order, points.value, cards[0], minPoints, order.value - minPoints) in OptionsFor(order, points, cards)
  {
    var minPoints := MinPointsToActivateDiscount(order.value);
    var a := PromotionOptions(order, order.applicablePromotions);
    var b := FullPointsOptions(order, points);
    var c := PartialOptions(order, points, cards);
    var d := FullCardOptions(order, cards);
    var o := PartialOption(order, points.value, cards[0], minPoints, order.value - minPoints);
    assert o in c by {
      PartialOptionsForCardsComplete(order, points.value, minPoints, order.value - minPoints, cards);
    }
    assert o in Candidates(order, points, cards) by {
      assert o in a + b + c + d;
    }
    DistinctSpec(Candidates(order, points, cards));
  }

  /** An option of the partial-points strategy among the four groups comes from the third. */
  lemma ThirdGroupMember(a: seq<CalculatedPaymentOption>, b: seq<CalculatedPaymentOption>,
                         c: seq<CalculatedPaymentOption>, d: seq<CalculatedPaymentOption>, o: CalculatedPaymentOption)
    requires AllOfStrategy(a, FullCardWithPromotion) && AllOfStrategy(b, FullPointsOwnDiscount)
    requires AllOfStrategy(d, FullPaymentNoPromotion)
    requires o in a + b + c + d && o.paymentStrategyType == PartialPointsTenPercentGlobalDiscount
    ensures o in c
  {
  }

  /** A partial-points option is offered exactly when there is a points method
      and a card, the 10% minimum is positive, at least a cent remains to pay,
      and the split leaves something for the card. */
  lemma PartialOfferedIff(order: Order, points: Option<PaymentMethod>, cards: seq<PaymentMethod>)
    ensures (exists o :: o in OptionsFor(order, points, cards) && o.paymentStrategyType == PartialPointsTenPercentGlobalDiscount)
            <==> PartialOffered(order, points, cards)
  {
    if o :| o in OptionsFor(order, points, cards) && o.paymentStrategyType == PartialPointsTenPercentGlobalDiscount {
      PartialOfferedOnlyIf(order, points, cards, o);
    }
    if PartialOffered(order, points, cards) {
      PartialOfferedIf(order, points, cards);
      var minPoints := MinPointsToActivateDiscount(order.value);
      var o := PartialOption(order, points.value, cards[0], minPoints, order.value - minPoints);
      assert o.paymentStrategyType == PartialPointsTenPercentGlobalDiscount;
    }
  }

  /** Every card among the promotions gets its promotion option, and every card
      its full-value option. */
  lemma OptionsForComplete(order: Order, points: Option<PaymentMethod>, cards: seq<PaymentMethod>)
    ensures forall c :: c in order.applicablePromotions && c.kind == Card ==> PromotionOption(order, c) in OptionsFor(order, points, cards)
    ensures forall c :: c in cards ==> FullCardOption(order, c) in OptionsFor(order, points, cards)
  {
    PromotionOptionsComplete(order, order.applicablePromotions);
    FullCardOptionsWellFormed(order, points, cards, cards);
    DistinctSpec(Candidates(order, points, cards));
  }

  lemma DistinctRankSorted(s: seq<CalculatedPaymentOption>)
    requires RankSorted(s)
    ensures RankSorted(Distinct(s))
  {
    var r := Distinct(s);
    DistinctSpec(s);
    forall i, j | 0 <= i < j < |r|
      ensures Rank(r[i].paymentStrategyType) <= Rank(r[j].paymentStrategyType)
    {
      assert r[i] in s && r[j] in s;
      var fi := FirstIndex(s, r[i]);
      var fj := FirstIndex(s, r[j]);
      assert s[fi] == r[i] && s[fj] == r[j];
    }
  }

  /** The output lists promotion options, then the full-points option, then
      partial-points options, then full-card options; no option twice. */
  lemma OptionsForRuleOrder(order: Order, points: Option<PaymentMethod>, cards: seq<PaymentMethod>)
    ensures RankSorted(OptionsFor(order, points, cards))
    ensures NoDuplicates(OptionsFor(order, points, cards))
  {
    CandidatesRankSorted(order, points, cards);
    DistinctRankSorted(Candidates(order, points, cards));
    DistinctSpec(Candidates(order, points, cards));
  }

  /** The four groups, one after the other, are in rule order. */
  lemma CandidatesRankSorted(order: Order, points: Option<PaymentMethod>, cards: seq<PaymentMethod>)
    ensures RankSorted(Candidates(order, points, cards))
  {
    var a := PromotionOptions(order, order.applicablePromotions);
    var b := FullPointsOptions(order, points);
    var c := PartialOptions(order, points, cards);
    var d := FullCardOptions(order, cards);
    GroupStrategies(order, points, cards);
    FourGroupsRankSorted(a, b, c, d);
  }

  lemma FourGroupsRankSorted(a: seq<CalculatedPaymentOption>, b: seq<CalculatedPaymentOption>,
                             c: seq<CalculatedPaymentOption>, d: seq<CalculatedPaymentOption>)
    requires AllOfStrategy(a, FullCardWithPromotion) && AllOfStrategy(b, FullPointsOwnDiscount)
    requires AllOfStrategy(c, PartialPointsTenPercentGlobalDiscount) && AllOfStrategy(d, FullPaymentNoPromotion)
    ensures RankSorted(a + b + c + d)
  {
    AppendGroup([], a, FullCardWithPromotion);
    assert [] + a == a;
    AppendGroup(a, b, FullPointsOwnDiscount);
    AppendGroup(a + b, c, PartialPointsTenPercentGlobalDiscount);
    AppendGroup(a + b + c, d, FullPaymentNoPromotion);
  }

  /** Appending a group of one strategy whose rank is at least every rank so far keeps the order. */
  lemma AppendGroup(a: seq<CalculatedPaymentOption>, b: seq<CalculatedPaymentOption>, t: PaymentStrategyType)
    requires RankSorted(a) && AllOfStrategy(b, t)
    requires forall x :: x in a ==> Rank(x.paymentStrategyType) <= Rank(t)
    ensures RankSorted(a + b)
    ensures forall x :: x in a + b ==> Rank(x.paymentStrategyType) <= Rank(t)
  {
    forall i, j | 0 <= i < j < |a + b|
      ensures Rank((a + b)[i].paymentStrategyType) <= Rank((a + b)[j].paymentStrategyType)
    {
      if j < |a| {
        assert (a + b)[i] == a[i] && (a + b)[j] == a[j];
      } else {
        assert (a + b)[j] == b[j - |a|];
        assert (a + b)[i] in a || (a + b)[i] in b;
      }
    }
  }

  /** With non-negative percentages on a valid order, no option costs more than the order. */
  lemma OptionDiscountNonNegative(order: Order, points: Option<PaymentMethod>, cards: seq<PaymentMethod>, o: CalculatedPaymentOption)
    requires order.Valid()
    requires forall m :: m in order.applicablePromotions ==> m.discountPercentage.unscaled >= 0
    requires points.Some? ==> points.value.discountPercentage.unscaled >= 0
    requires o in OptionsFor(order, points, cards)
    ensures o.discountAmount == order.value - o.finalPrice
    ensures o.discountAmount >= 0
  {
    OptionsForWellFormed(order, points, cards);
    assert WellFormedOption(order, points, cards, o);
  }
}
