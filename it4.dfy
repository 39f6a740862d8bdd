/**
 * The snapshot with vegetables: aubergines two for 1, tomatoes by the kilo,
 * and a basket whose `total` (the second of its two definitions, which
 * replaces the first) runs the cucumber pass and returns the untaxed sum.
 */
module It4 {
  import opened Pricing
  import opened Promotions
  import opened Taxes
  import opened Baskets

  /** The `product` calls of this snapshot. */
  const Catalog: map<Category, Strategy> := map[
    Banana := Each(1.00), Apple := Each(2.00), Orange := Each(1.50),
    Cucumber := Each(1.00), Lettuce := Each(0.50), Aubergine := For(2, 1.00),
    Strawberry := PerKilo(1.00), Cherry := PerKilo(2.00), Raspberry := PerKilo(2.00),
    Tomato := PerKilo(1.00)]

  /** `Basket#total` as finally defined: the cucumber pass, then the sum, with no tax. */
  const ShopBasket: Policy := Policy(CucumberFreebie, NoTax)

  /** Aubergines are two for 1.00: two cost 1.00 and three cost 2.00. */
  lemma AubergineBundles()
    ensures Price(Catalog[Aubergine], 2.0) == 1.0
    ensures Price(Catalog[Aubergine], 3.0) == 2.0
  {
    BundlePricing(2, 1.0, 1, 0);
    BundlePricing(2, 1.0, 1, 1);
  }

  /** Twelve bananas, twenty-four oranges and an apple at 2.00: 50.00. */
  lemma FruitsTotal()
    ensures var items := [New(Catalog, Banana, 12.0), New(Catalog, Orange, 24.0), New(Catalog, Apple)];
            CanTotal(ShopBasket, items) && TotalOf(ShopBasket, items) == 50.0
  {
    var items := [New(Catalog, Banana, 12.0), New(Catalog, Orange, 24.0), New(Catalog, Apple)];
    assert !FreebieApplies(items);
    SumPricesOfThree(items[0], items[1], items[2]);
  }

  /** Three aubergines, five cucumbers and a lettuce: 2.00 + 5.00 + 0.50 = 7.50. */
  lemma VeggiesTotal()
    ensures var items := [New(Catalog, Aubergine, 3.0), New(Catalog, Cucumber, 5.0), New(Catalog, Lettuce)];
            CanTotal(ShopBasket, items) && TotalOf(ShopBasket, items) == 7.5
  {
    var items := [New(Catalog, Aubergine, 3.0), New(Catalog, Cucumber, 5.0), New(Catalog, Lettuce)];
    assert !FreebieApplies(items);
    AubergineBundles();
    SumPricesOfThree(items[0], items[1], items[2]);
  }

  /** The two baskets above in one: 57.50, the sum of the two totals. */
  lemma FruitsAndVeggiesTotal()
    ensures var items := [New(Catalog, Banana, 12.0), New(Catalog, Orange, 24.0), New(Catalog, Apple)] +
                         [New(Catalog, Aubergine, 3.0), New(Catalog, Cucumber, 5.0), New(Catalog, Lettuce)];
            CanTotal(ShopBasket, items) && TotalOf(ShopBasket, items) == 57.5
  {
    var fruits := [New(Catalog, Banana, 12.0), New(Catalog, Orange, 24.0), New(Catalog, Apple)];
    var veggies := [New(Catalog, Aubergine, 3.0), New(Catalog, Cucumber, 5.0), New(Catalog, Lettuce)];
    var items := fruits + veggies;
    assert AllPriceable(fruits) && SumPrices(fruits) == 50.0 by {
      SumPricesOfThree(fruits[0], fruits[1], fruits[2]);
    }
    assert AllPriceable(veggies) && SumPrices(veggies) == 7.5 by {
      AubergineBundles();
      SumPricesOfThree(veggies[0], veggies[1], veggies[2]);
    }
    assert AllPriceable(items) && SumPrices(items) == 57.5 by {
      SumPricesAppend(fruits, veggies);
    }
    assert Promote(ShopBasket.promotion, items) == items by {
      assert forall i | 0 <= i < |items| :: items[i].category != Tomato;
      FreeCucumbersEffect(items);
    }
  }

  /** A kilo of strawberries, two of raspberries and half a kilo of cherries: 6.00. */
  lemma SmallFruitsTotal()
    ensures var items := [New(Catalog, Strawberry), New(Catalog, Raspberry, 2.0), New(Catalog, Cherry, 0.5)];
            CanTotal(ShopBasket, items) && TotalOf(ShopBasket, items) == 6.0
  {
    var items := [New(Catalog, Strawberry), New(Catalog, Raspberry, 2.0), New(Catalog, Cherry, 0.5)];
    assert !FreebieApplies(items);
    SumPricesOfThree(items[0], items[1], items[2]);
  }

  /** Two aubergines on their own: 1.00. */
  lemma TwoForOneAubergines()
    ensures var items := [New(Catalog, Aubergine, 2.0)];
            CanTotal(ShopBasket, items) && TotalOf(ShopBasket, items) == 1.0
  {
    var items := [New(Catalog, Aubergine, 2.0)];
    assert !FreebieApplies(items);
    AubergineBundles();
    SumPricesOfOne(items[0]);
  }

  /** A kilo of tomatoes and two cucumbers: one cucumber is free, so 1.00 + 1.00 = 2.00. */
  lemma CucumberFreeForEveryKgOfTomatoes()
    ensures var items := [New(Catalog, Tomato), New(Catalog, Cucumber, 2.0)];
            && FreebieApplies(items)
            && CanTotal(ShopBasket, items) && TotalOf(ShopBasket, items) == 2.0
  {
    var items := [New(Catalog, Tomato), New(Catalog, Cucumber, 2.0)];
    var r := FreeCucumbers(items);
    assert FreebieApplies(items);
    assert r == [items[0], items[1].(quantity := 1.0)];
    SumPricesOfTwo(r[0], r[1]);
  }

  /**
   * The quantity is not floored at zero: three kilos of tomatoes with one
   * cucumber leave the cucumber at -2, and the basket totals 3.00 - 2.00 = 1.00.
   */
  lemma CucumberQuantityGoesNegative()
    ensures var items := [New(Catalog, Tomato, 3.0), New(Catalog, Cucumber)];
            && FreeCucumbers(items)[1].quantity == -2.0
            && CanTotal(ShopBasket, items) && TotalOf(ShopBasket, items) == 1.0
  {
    var items := [New(Catalog, Tomato, 3.0), New(Catalog, Cucumber)];
    var r := FreeCucumbers(items);
    assert FreebieApplies(items);
    assert r == [items[0], items[1].(quantity := -2.0)];
    SumPricesOfTwo(r[0], r[1]);
  }

  /**
   * The tomato test on product objects, with `total` called twice: the second
   * call takes another cucumber off, so the basket totals 2.00 and then 1.00.
   */
  method CucumberBasketTotalTwice() returns (first: real, second: real)
    ensures first == 2.0 && second == 1.0
  {
    var tomato := new Product(Tomato, Catalog[Tomato]);
    var cucumber := new Product(Cucumber, Catalog[Cucumber], 2.0);
    var basket := new Basket(ShopBasket, [tomato, cucumber]);
    var items := basket.Items();
    assert items == [New(Catalog, Tomato), New(Catalog, Cucumber, 2.0)];
    CucumberFreeForEveryKgOfTomatoes();
    CucumberTotalDropsEachCall(items, 1.0, 1.0);
    first := basket.Total();
    second := basket.Total();
  }
}
