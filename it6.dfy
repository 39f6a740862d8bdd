/**
 * The snapshot whose basket runs the grapefruit pass and returns the plain,
 * untaxed sum.
 */
module It6 {
  import opened Pricing
  import opened Promotions
  import opened Taxes
  import opened Baskets

  /** The `product` calls of this snapshot. */
  const Catalog: map<Category, Strategy> := map[
    Banana := Each(1.00), Apple := Each(1.00), Orange := Each(1.50),
    Strawberry := PerKilo(1.00), Cherry := PerKilo(2.00), Raspberry := PerKilo(2.00),
    Blackberry := PerKilo(2.00), Cranberry := PerKilo(2.00), Plum := Each(1.50),
    Grapefruit := Each(1.00)]

  /** `Basket#total`: the grapefruit pass, then the sum, with no tax. */
  const ShopBasket: Policy := Policy(GrapefruitDeal, NoTax)

  /** With no tax step the total is the sum of the promoted basket, unrounded. */
  lemma TotalIsPromotedSum(items: seq<Item>)
    requires AllPriceable(items)
    ensures CanTotal(ShopBasket, items)
    ensures TotalOf(ShopBasket, items) == SumPrices(CheaperGrapefruits(items))
  {
  }

  /** Twelve bananas, twenty-four oranges and an apple: 49.00. */
  lemma FruitsTotal()
    ensures var items := [New(Catalog, Banana, 12.0), New(Catalog, Orange, 24.0), New(Catalog, Apple)];
            CanTotal(ShopBasket, items) && TotalOf(ShopBasket, items) == 49.0
  {
    var items := [New(Catalog, Banana, 12.0), New(Catalog, Orange, 24.0), New(Catalog, Apple)];
    assert !DealApplies(items);
    SumPricesOfThree(items[0], items[1], items[2]);
  }

  /** A kilo of strawberries, two of raspberries and half a kilo of cherries: 6.00. */
  lemma SmallFruitsTotal()
    ensures var items := [New(Catalog, Strawberry), New(Catalog, Raspberry, 2.0), New(Catalog, Cherry, 0.5)];
            CanTotal(ShopBasket, items) && TotalOf(ShopBasket, items) == 6.0
  {
    var items := [New(Catalog, Strawberry), New(Catalog, Raspberry, 2.0), New(Catalog, Cherry, 0.5)];
    assert !DealApplies(items);
    SumPricesOfThree(items[0], items[1], items[2]);
  }

  /** A grapefruit and four oranges: 7.00, the grapefruit at 1.00 under the deal. */
  lemma GrapefruitWithFourOranges()
    ensures var items := [New(Catalog, Grapefruit), New(Catalog, Orange, 4.0)];
            && DealApplies(items)
            && CanTotal(ShopBasket, items) && TotalOf(ShopBasket, items) == 7.0
  {
    var items := [New(Catalog, Grapefruit), New(Catalog, Orange, 4.0)];
    var r := CheaperGrapefruits(items);
    assert DealApplies(items);
    assert r == [items[0].(priceOverride := Some(GrapefruitOverride)), items[1]];
    SumPricesOfTwo(r[0], r[1]);
  }
}
