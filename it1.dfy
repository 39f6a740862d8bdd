/**
 * The first snapshot: three fruits sold by the unit and a basket whose
 * `total` is the plain sum of its products' prices.
 */
module It1 {
  import opened Pricing
  import opened Promotions
  import opened Taxes
  import opened Baskets

  /** The `product` calls of this snapshot. */
  const Catalog: map<Category, Strategy> := map[Banana := Each(1.00), Apple := Each(2.00), Orange := Each(1.50)]

  /** `Basket#total`: the sum of the prices, no promotion and no tax. */
  const PlainBasket: Policy := Policy(NoPromotion, NoTax)

  /** A fresh product is one unit, priced at the catalog's unit value. */
  lemma NewProductIsOneUnit(c: Category)
    requires c in Catalog
    ensures New(Catalog, c).quantity == 1.0
    ensures Priceable(New(Catalog, c)) && LinePrice(New(Catalog, c)) == Catalog[c].unit
  {
    UnitPricing(Catalog[c], 1.0, 0.0);
  }

  /** The fold is seeded with 0: an empty basket totals 0. */
  lemma EmptyBasket()
    ensures CanTotal(PlainBasket, []) && TotalOf(PlainBasket, []) == 0.0
  {
    EmptyBasketTotal(PlainBasket);
  }

  /** Twelve bananas, twenty-four oranges and an apple at 2.00: 50.00. */
  lemma FruitsTotal()
    ensures var items := [New(Catalog, Banana, 12.0), New(Catalog, Orange, 24.0), New(Catalog, Apple)];
            CanTotal(PlainBasket, items) && TotalOf(PlainBasket, items) == 50.0
  {
    var items := [New(Catalog, Banana, 12.0), New(Catalog, Orange, 24.0), New(Catalog, Apple)];
    SumPricesOfThree(items[0], items[1], items[2]);
  }
}
