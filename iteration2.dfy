/**
 * The second snapshot: fruit and vegetables sold by the unit, and a basket
 * whose `total` is the plain sum of its products' prices.
 */
module Iteration2 {
  import opened Pricing
  import opened Promotions
  import opened Taxes
  import opened Baskets

  /** The `product` calls of this snapshot. */
  const Catalog: map<Category, Strategy> := map[
    Banana := Each(1.00), Apple := Each(2.00), Orange := Each(1.50),
    Cucumber := Each(1.00), Lettuce := Each(0.50), Aubergine := Each(1.50)]

  /** `Basket#total`: the sum of the prices, no promotion and no tax. */
  const PlainBasket: Policy := Policy(NoPromotion, NoTax)

  /** `total` only reads the products: the basket it sums is the one it was given, and the total is that sum. */
  lemma TotalIsPlainSum(items: seq<Item>)
    requires AllPriceable(items)
    ensures Promote(PlainBasket.promotion, items) == items
    ensures CanTotal(PlainBasket, items) && TotalOf(PlainBasket, items) == SumPrices(items)
  {
  }

  /** The fold is seeded with 0: an empty basket totals 0. */
  lemma EmptyBasket()
    ensures CanTotal(PlainBasket, []) && TotalOf(PlainBasket, []) == 0.0
  {
    EmptyBasketTotal(PlainBasket);
  }

  /** Twelve bananas, twenty-four oranges and an apple at 2.00: 50.00. */
  lemma FruitsTotal()
    ensures var items := [New(Catalog, Banana, 12.0), New(Catalog, Orange, 24.0), New(Catalog, Apple)];
            CanTotal(PlainBasket, items) && TotalOf(PlainBasket, items) == 50.0
  {
    var items := [New(Catalog, Banana, 12.0), New(Catalog, Orange, 24.0), New(Catalog, Apple)];
    SumPricesOfThree(items[0], items[1], items[2]);
  }

  /** Three aubergines at 1.50, five cucumbers and a lettuce: 10.00. */
  lemma VeggiesTotal()
    ensures var items := [New(Catalog, Aubergine, 3.0), New(Catalog, Cucumber, 5.0), New(Catalog, Lettuce)];
            CanTotal(PlainBasket, items) && TotalOf(PlainBasket, items) == 10.0
  {
    var items := [New(Catalog, Aubergine, 3.0), New(Catalog, Cucumber, 5.0), New(Catalog, Lettuce)];
    SumPricesOfThree(items[0], items[1], items[2]);
  }

  /** Putting two baskets' products in one basket totals the sum of the two totals. */
  lemma {:induction false} CombinedBasketTotal(a: seq<Item>, b: seq<Item>)
    requires AllPriceable(a) && AllPriceable(b)
    ensures CanTotal(PlainBasket, a + b)
    ensures TotalOf(PlainBasket, a + b) == TotalOf(PlainBasket, a) + TotalOf(PlainBasket, b)
  {
    SumPricesAppend(a, b);
  }

  /** The fruit and the vegetables in one basket: 60.00. */
  lemma FruitsAndVeggiesTotal()
    ensures var items := [New(Catalog, Banana, 12.0), New(Catalog, Orange, 24.0), New(Catalog, Apple)] +
                         [New(Catalog, Aubergine, 3.0), New(Catalog, Cucumber, 5.0), New(Catalog, Lettuce)];
            CanTotal(PlainBasket, items) && TotalOf(PlainBasket, items) == 60.0
  {
    var fruits := [New(Catalog, Banana, 12.0), New(Catalog, Orange, 24.0), New(Catalog, Apple)];
    var veggies := [New(Catalog, Aubergine, 3.0), New(Catalog, Cucumber, 5.0), New(Catalog, Lettuce)];
    FruitsTotal();
    VeggiesTotal();
    CombinedBasketTotal(fruits, veggies);
  }
}
