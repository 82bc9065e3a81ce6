/**
 * Option generation: for one order, every way it could be paid, before any
 * budget is consulted. Four rules are tried in turn (a promotion card, all in
 * points, at least 10% in points with the rest on a card, a card with no
 * discount), and exact duplicates are dropped.
 */
module Logic {
  import opened Money
  import opened Wrappers
  import opened Domain
  import opened SeqUtil

  /** The card methods of a list, in list order (the filter on !isPoints()). */
  function CardsOnly(methods: seq<PaymentMethod>): (r: seq<PaymentMethod>)
    ensures forall m :: m in r <==> m in methods && m.kind == Card
  {
    if methods == [] then []
    else
      var init := methods[..|methods| - 1];
      var last := methods[|methods| - 1];
      assert methods == init + [last];
      CardsOnly(init) + (if last.kind == Card then [last] else [])
  }

  /** Filtering a concatenation filters each part, so the cards keep their list order. */
  lemma {:induction false} CardsOnlyAppend(a: seq<PaymentMethod>, b: seq<PaymentMethod>)
    ensures CardsOnly(a + b) == CardsOnly(a) + CardsOnly(b)
  {
    if b == [] {
      assert a + b == a;
    } else {
      var init := b[..|b| - 1];
      var last := b[|b| - 1];
      assert (a + b)[..|a + b| - 1] == a + init;
      assert (a + b)[|a + b| - 1] == last;
      CardsOnlyAppend(a, init);
      var tail := if last.kind == Card then [last] else [];
      assert CardsOnly(a + b) == CardsOnly(a + init) + tail;
      assert CardsOnly(b) == CardsOnly(init) + tail;
    }
  }

  /** 1 - percent / 100, the quotient rounded half-up to 4 decimals; in units of 0.0001. */
  function DiscountMultiplier(discountPercentage: Decimal): int {
    10000 - SetScale(Decimal(discountPercentage.unscaled, discountPercentage.scale + 2), 4)
  }

  /** value * DiscountMultiplier(percent), rounded half-up to cents. A non-negative
      percentage never raises the price, and a zero one leaves it unchanged. */
  function DiscountedPrice(value: Money, discountPercentage: Decimal): (price: Money)
    ensures price % Cent == 0
    ensures IsHalfUpRounding(price / Cent, Decimal(value * DiscountMultiplier(discountPercentage), 8), 2)
    ensures value >= 0 && value % Cent == 0 && discountPercentage.unscaled >= 0 ==> price <= value
    ensures value % Cent == 0 && discountPercentage.unscaled == 0 ==> price == value
  {
    var cents := SetScale(Decimal(value * DiscountMultiplier(discountPercentage), 8), 2);
    assert (Cent * cents) / Cent == cents;
    DiscountedPriceBounds(value, discountPercentage);
    Cent * cents
  }

  /** A non-negative percentage gives a multiplier of at most 1. */
  lemma MultiplierAtMostOne(discountPercentage: Decimal)
    requires discountPercentage.unscaled >= 0
    ensures DiscountMultiplier(discountPercentage) <= 10000
  {
    var p := Decimal(discountPercentage.unscaled, discountPercentage.scale + 2);
    if p.scale > 4 {
      HalfUpRoundingBounds(SetScale(p, 4), p.unscaled, p.scale, 4, 0);
    }
  }

  lemma DiscountedPriceBounds(value: Money, discountPercentage: Decimal)
    ensures var cents := SetScale(Decimal(value * DiscountMultiplier(discountPercentage), 8), 2);
      && (value >= 0 && value % Cent == 0 && discountPercentage.unscaled >= 0 ==> Cent * cents <= value)
      && (value % Cent == 0 && discountPercentage.unscaled == 0 ==> Cent * cents == value)
  {
    if value % Cent == 0 {
      if discountPercentage.unscaled == 0 {
        ZeroPercentPrice(value, discountPercentage);
      }
      if value >= 0 && discountPercentage.unscaled >= 0 {
        NonNegativePercentPrice(value, discountPercentage);
      }
    }
  }

  lemma ZeroPercentPrice(value: Money, discountPercentage: Decimal)
    requires value % Cent == 0 && discountPercentage.unscaled == 0
    ensures Cent * SetScale(Decimal(value * DiscountMultiplier(discountPercentage), 8), 2) == value
  {
    var m := DiscountMultiplier(discountPercentage);
    var c := value / Cent;
    assert value == c * 100;
    var p := Decimal(0, discountPercentage.scale + 2);
    if p.scale > 4 {
      assert p.unscaled == 0 * Pow10(p.scale - 4);
      HalfUpRoundingOfMultiple(SetScale(p, 4), 0, p.scale, 4);
    }
    assert m == 10000;
    assert value * m == c * 1000000;
    assert Pow10(8 - 2) == 1000000;
    HalfUpRoundingOfMultiple(SetScale(Decimal(value * m, 8), 2), c, 8, 2);
  }

  lemma NonNegativePercentPrice(value: Money, discountPercentage: Decimal)
    requires value >= 0 && value % Cent == 0 && discountPercentage.unscaled >= 0
    ensures Cent * SetScale(Decimal(value * DiscountMultiplier(discountPercentage), 8), 2) <= value
  {
    var m := DiscountMultiplier(discountPercentage);
    var c := value / Cent;
    assert value == c * 100;
    MultiplierAtMostOne(discountPercentage);
    MulLeMono(value, m, 10000);
    assert value * m <= c * 1000000;
    assert Pow10(8 - 2) == 1000000;
    HalfUpRoundingBounds(SetScale(Decimal(value * m, 8), 2), value * m, 8, 2, c);
  }


  lemma MulLeMono(a: int, b: int, c: int)
    requires a >= 0 && b <= c
    ensures a * b <= a * c
  {
    assert a * c - a * b == a * (c - b);
  }

  /** value * 0.10 rounded half-up to cents: the points needed for the global discount. */
  function MinPointsToActivateDiscount(value: Money): (minPoints: Money)
    ensures minPoints % Cent == 0
    ensures IsHalfUpRounding(minPoints / Cent, Decimal(value * 10, 6), 2)
    ensures value >= 0 ==> minPoints >= 0
  {
    var cents := SetScale(Decimal(value * 10, 6), 2);
    assert (Cent * cents) / Cent == cents;
    HalfUpRoundingBounds(cents, value * 10, 6, 2, 0);
    Cent * cents
  }

  /** The option for paying the whole order with a promotion card. */
  function PromotionOption(order: Order, card: PaymentMethod): CalculatedPaymentOption {
    var price := DiscountedPrice(order.value, card.discountPercentage);
    NewCalculatedPaymentOption(order, price, order.value - price, FullCardWithPromotion, [Charge(card, price)])
  }

  /** Rule 1: one option per card among the promotions, in promotion order; a
      points method found there is skipped. */
  function PromotionOptions(order: Order, promotions: seq<PaymentMethod>): seq<CalculatedPaymentOption> {
    if promotions == [] then []
    else
      var last := promotions[|promotions| - 1];
      PromotionOptions(order, promotions[..|promotions| - 1]) + (if last.kind == Points then [] else [PromotionOption(order, last)])
  }

  /** Rule 2: the option for paying everything in points, when there is a points method. */
  function FullPointsOptions(order: Order, points: Option<PaymentMethod>): seq<CalculatedPaymentOption> {
    match points
    case None => []
    case Some(pm) =>
      var price := DiscountedPrice(order.value, pm.discountPercentage);
      [NewCalculatedPaymentOption(order, price, order.value - price, FullPointsOwnDiscount, [Charge(pm, price)])]
  }

  /** The provisional (points, card) split of a partial-points payment of
      finalPrice: everything but one cent in points when that reaches minPoints,
      otherwise minPoints in points and the rest on the card. */
  function PartialSplit(minPoints: Money, finalPrice: Money): (split: (Money, Money))
    ensures split.0 + split.1 == finalPrice
    ensures split.0 >= minPoints
    ensures finalPrice - Cent >= minPoints ==> split.1 == Cent
  {
    var preferred := finalPrice - Cent;
    if preferred >= minPoints then (preferred, Cent) else (minPoints, finalPrice - minPoints)
  }

  function PartialOption(order: Order, pointsMethod: PaymentMethod, card: PaymentMethod,
                         minPoints: Money, finalPrice: Money): CalculatedPaymentOption {
    var split := PartialSplit(minPoints, finalPrice);
    NewCalculatedPaymentOption(order, finalPrice, minPoints, PartialPointsTenPercentGlobalDiscount,
                               [Charge(pointsMethod, split.0), Charge(card, split.1)])
  }

  /** One partial-points option per card, in card order, unless the split leaves nothing for the card. */
  function PartialOptionsForCards(order: Order, pointsMethod: PaymentMethod, minPoints: Money,
                                  finalPrice: Money, cards: seq<PaymentMethod>): seq<CalculatedPaymentOption> {
    if cards == [] then []
    else
      PartialOptionsForCards(order, pointsMethod, minPoints, finalPrice, cards[..|cards| - 1])
        + (if PartialSplit(minPoints, finalPrice).1 > 0
           then [PartialOption(order, pointsMethod, cards[|cards| - 1], minPoints, finalPrice)] else [])
  }

  /** Whether rule 3 applies at all: the 10% minimum is positive and leaves at least a cent to pay. */
  predicate PartialRuleApplies(value: Money) {
    var minPoints := MinPointsToActivateDiscount(value);
    minPoints > 0 && value - minPoints >= Cent
  }

  /** Rule 3: at least 10% in points, with a fixed 10% discount and the rest on a card. */
  function PartialOptions(order: Order, points: Option<PaymentMethod>, cards: seq<PaymentMethod>): seq<CalculatedPaymentOption> {
    match points
    case None => []
    case Some(pm) =>
      var minPoints := MinPointsToActivateDiscount(order.value);
      if PartialRuleApplies(order.value)
      then PartialOptionsForCards(order, pm, minPoints, order.value - minPoints, cards)
      else []
  }

  function FullCardOption(order: Order, card: PaymentMethod): CalculatedPaymentOption {
    NewCalculatedPaymentOption(order, order.value, 0, FullPaymentNoPromotion, [Charge(card, order.value)])
  }

  /** Rule 4: one option per card for the full value, with no discount. */
  function FullCardOptions(order: Order, cards: seq<PaymentMethod>): seq<CalculatedPaymentOption> {
    if cards == [] then []
    else FullCardOptions(order, cards[..|cards| - 1]) + [FullCardOption(order, cards[|cards| - 1])]
  }

  /** The four rules' outputs in rule order. */
  function Candidates(order: Order, points: Option<PaymentMethod>, cards: seq<PaymentMethod>): seq<CalculatedPaymentOption> {
    PromotionOptions(order, order.applicablePromotions)
      + FullPointsOptions(order, points)
      + PartialOptions(order, points, cards)
      + FullCardOptions(order, cards)
  }

  /** Every option for an order: the candidates with duplicates dropped. */
  function OptionsFor(order: Order, points: Option<PaymentMethod>, cards: seq<PaymentMethod>): seq<CalculatedPaymentOption> {
    Distinct(Candidates(order, points, cards))
  }

  /** The option generator. It holds the points method, if any, and the card methods. */
  class DiscountCalculator {
    const pointsPaymentMethod: Option<PaymentMethod>
    const clientCardPaymentMethods: seq<PaymentMethod>

    constructor (pointsPaymentMethod: Option<PaymentMethod>, allClientCardPaymentMethods: seq<PaymentMethod>)
      ensures this.pointsPaymentMethod == pointsPaymentMethod
      ensures clientCardPaymentMethods == CardsOnly(allClientCardPaymentMethods)
    {
      this.pointsPaymentMethod := pointsPaymentMethod;
      clientCardPaymentMethods := CardsOnly(allClientCardPaymentMethods);
    }

    method CalculateOptionsForOrder(order: Order) returns (options: seq<CalculatedPaymentOption>)
      ensures options == OptionsFor(order, pointsPaymentMethod, clientCardPaymentMethods)
    {
      options := [];
      options := CardWithPromotion(options, order);
      assert options == PromotionOptions(order, order.applicablePromotions);
      options := FullPointsPayment(options, order);
      options := MinTenPctPointsPayment(options, order);
      options := FullCardPaymentNoPromotion(options, order);
      options := Distinct(options);
    }

    method CardWithPromotion(options: seq<CalculatedPaymentOption>, order: Order) returns (result: seq<CalculatedPaymentOption>)
      ensures result == options + PromotionOptions(order, order.applicablePromotions)
    {
      result := options;
      var promotions := order.applicablePromotions;
      for i := 0 to |promotions|
        invariant result == options + PromotionOptions(order, promotions[..i])
      {
        var promoCard := promotions[i];
        assert promotions[..i + 1][..i] == promotions[..i];
        if promoCard.kind == Points {
          continue;
        }
        var finalPrice := DiscountedPrice(order.value, promoCard.discountPercentage);
        var spent := [Charge(promoCard, finalPrice)];
        result := result + [NewCalculatedPaymentOption(order, finalPrice, order.value - finalPrice, FullCardWithPromotion, spent)];
      }
      assert promotions[..|promotions|] == promotions;
    }

    method FullPointsPayment(options: seq<CalculatedPaymentOption>, order: Order) returns (result: seq<CalculatedPaymentOption>)
      ensures result == options + FullPointsOptions(order, pointsPaymentMethod)
    {
      result := options;
      if pointsPaymentMethod.Some? {
        var pointsOwnDiscountPercent := pointsPaymentMethod.value.discountPercentage;
        var finalPrice := DiscountedPrice(order.value, pointsOwnDiscountPercent);
        var spent := [Charge(pointsPaymentMethod.value, finalPrice)];
        result := result + [NewCalculatedPaymentOption(order, finalPrice, order.value - finalPrice, FullPointsOwnDiscount, spent)];
      }
    }

    method MinTenPctPointsPayment(options: seq<CalculatedPaymentOption>, order: Order) returns (result: seq<CalculatedPaymentOption>)
      ensures result == options + PartialOptions(order, pointsPaymentMethod, clientCardPaymentMethods)
    {
      result := options;
      if pointsPaymentMethod.Some? {
        var minPointsToActivateDiscount := MinPointsToActivateDiscount(order.value);
        var finalPriceWithGlobal10PctDiscount := order.value - minPointsToActivateDiscount;
        if minPointsToActivateDiscount > 0 && finalPriceWithGlobal10PctDiscount >= Cent {
          var cards := clientCardPaymentMethods;
          for i := 0 to |cards|
            invariant result == options + PartialOptionsForCards(order, pointsPaymentMethod.value,
              minPointsToActivateDiscount, finalPriceWithGlobal10PctDiscount, cards[..i])
          {
            assert cards[..i + 1][..i] == cards[..i];
            var scenario := PartialScenario(order, pointsPaymentMethod.value, cards[i],
                                            minPointsToActivateDiscount, finalPriceWithGlobal10PctDiscount);
            result := result + scenario;
          }
          assert cards[..|cards|] == cards;
          assert PartialRuleApplies(order.value);
        }
      }
    }

    /** The body of the partial-points loop for one card: the option, or nothing
        when the split leaves no amount for the card. */
    static method PartialScenario(order: Order, pointsMethod: PaymentMethod, card: PaymentMethod,
                                  minPointsToActivateDiscount: Money, finalPriceWithGlobal10PctDiscount: Money)
      returns (scenario: seq<CalculatedPaymentOption>)
      ensures scenario == if PartialSplit(minPointsToActivateDiscount, finalPriceWithGlobal10PctDiscount).1 > 0
                          then [PartialOption(order, pointsMethod, card, minPointsToActivateDiscount, finalPriceWithGlobal10PctDiscount)]
                          else []
    {
      var pointsSpentInScenario: Money;
      var cardAmountInScenario: Money;
      var preferredPointsToSpend := finalPriceWithGlobal10PctDiscount - Cent;
      if preferredPointsToSpend >= minPointsToActivateDiscount {
        pointsSpentInScenario := preferredPointsToSpend;
        cardAmountInScenario := Cent;
      } else {
        pointsSpentInScenario := minPointsToActivateDiscount;
        cardAmountInScenario := finalPriceWithGlobal10PctDiscount - pointsSpentInScenario;
      }
      scenario := [];
      if cardAmountInScenario > 0 {
        var spent := [Charge(pointsMethod, pointsSpentInScenario), Charge(card, cardAmountInScenario)];
        scenario := [NewCalculatedPaymentOption(order, finalPriceWithGlobal10PctDiscount,
          minPointsToActivateDiscount, PartialPointsTenPercentGlobalDiscount, spent)];
      }
    }

    method FullCardPaymentNoPromotion(options: seq<CalculatedPaymentOption>, order: Order) returns (result: seq<CalculatedPaymentOption>)
      ensures result == options + FullCardOptions(order, clientCardPaymentMethods)
    {
      result := options;
      var cards := clientCardPaymentMethods;
      for i := 0 to |cards|
        invariant result == options + FullCardOptions(order, cards[..i])
      {
        assert cards[..i + 1][..i] == cards[..i];
        var spent := [Charge(cards[i], order.value)];
        result := result + [NewCalculatedPaymentOption(order, order.value, 0, FullPaymentNoPromotion, spent)];
      }
      assert cards[..|cards|] == cards;
    }
  }
}
