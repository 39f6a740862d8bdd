/**
 * The final snapshot: a fourteen-product catalog, a basket that runs the
 * grapefruit pass and adds VAT, and an export basket that skips the pass
 * and adds the export tax. Its unit tests are stated as lemmas.
 */
module Exercise {
  import opened Pricing
  import opened Promotions
  import opened Taxes
  import opened Baskets

  /** The `product` calls of this snapshot. */
  const Catalog: map<Category, Strategy> := map[
    Banana := Each(1.00), Apple := Each(1.00), Orange := Each(1.50), Plum := Each(1.50),
    Grapefruit := Each(1.50), Strawberry := PerKilo(1.00), Cherry := PerKilo(2.00),
    Raspberry := PerKilo(2.00), Blackberry := PerKilo(2.00), Cranberry := PerKilo(2.00),
    Cucumber := Each(1.00), Lettuce := Each(0.50), Aubergine := For(2, 1.0), Tomato := Each(1.0)]

  /** `Basket#total`: the grapefruit pass, the sum, then VAT. */
  const ShopBasket: Policy := Policy(GrapefruitDeal, Vat)

  /** `ExportBasket#total`: no promotion pass, the sum, then the export tax. */
  const ExportBasket: Policy := Policy(NoPromotion, ExportTax)

  /** Aubergines are two for 1: two cost 1 and three cost 2, not 1.50. */
  lemma AubergineBundles()
    ensures Price(Catalog[Aubergine], 2.0) == 1.0
    ensures Price(Catalog[Aubergine], 3.0) == 2.0
  {
    BundlePricing(2, 1.0, 1, 0);
    BundlePricing(2, 1.0, 1, 1);
  }

  /**
   * Twelve bananas, twenty-four oranges and an apple: 49.00 before VAT. With
   * VAT that is exactly 57.575, a half penny, which rounds to 57.57 or 57.58.
   */
  lemma FruitsTotal()
    ensures var items := [New(Catalog, Banana, 12.0), New(Catalog, Orange, 24.0), New(Catalog, Apple)];
            && CanTotal(ShopBasket, items)
            && SumPrices(Promote(ShopBasket.promotion, items)) == 49.0
            && (TotalOf(ShopBasket, items) == 57.57 || TotalOf(ShopBasket, items) == 57.58)
  {
    var items := [New(Catalog, Banana, 12.0), New(Catalog, Orange, 24.0), New(Catalog, Apple)];
    assert !DealApplies(items);
    SumPricesOfThree(items[0], items[1], items[2]);
    Round2OfHalfPenny(57.57);
  }

  /** A kilo of strawberries, two of raspberries and half a kilo of cherries: 6.00, and 7.05 with VAT. */
  lemma SmallFruitsTotal()
    ensures var items := [New(Catalog, Strawberry), New(Catalog, Raspberry, 2.0), New(Catalog, Cherry, 0.5)];
            && CanTotal(ShopBasket, items)
            && SumPrices(Promote(ShopBasket.promotion, items)) == 6.0
            && TotalOf(ShopBasket, items) == 7.05
  {
    var items := [New(Catalog, Strawberry), New(Catalog, Raspberry, 2.0), New(Catalog, Cherry, 0.5)];
    assert !DealApplies(items);
    SumPricesOfThree(items[0], items[1], items[2]);
    Round2Nearest(6.0 * 1.175, 7.05);
  }

  /**
   * A grapefruit and four oranges: the deal prices the grapefruit at 1.00, so
   * 7.00 before VAT; with VAT that is exactly 8.225, which rounds to 8.22 or 8.23.
   */
  lemma GrapefruitWithFourOranges()
    ensures var items := [New(Catalog, Grapefruit), New(Catalog, Orange, 4.0)];
            && DealApplies(items)
            && CanTotal(ShopBasket, items)
            && SumPrices(Promote(ShopBasket.promotion, items)) == 7.0
            && (TotalOf(ShopBasket, items) == 8.22 || TotalOf(ShopBasket, items) == 8.23)
  {
    var items := [New(Catalog, Grapefruit), New(Catalog, Orange, 4.0)];
    var r := CheaperGrapefruits(items);
    assert DealApplies(items);
    assert r == [items[0].(priceOverride := Some(GrapefruitOverride)), items[1]];
    SumPricesOfTwo(r[0], r[1]);
    Round2OfHalfPenny(8.22);
  }

  /** Three oranges are not more than 3: the grapefruit keeps its 1.50 price. */
  lemma ThreeOrangesAreNotEnough()
    ensures var items := [New(Catalog, Grapefruit), New(Catalog, Orange, 3.0)];
            && !DealApplies(items)
            && CanTotal(ShopBasket, items)
            && SumPrices(Promote(ShopBasket.promotion, items)) == 6.0
  {
    var items := [New(Catalog, Grapefruit), New(Catalog, Orange, 3.0)];
    SumPricesOfTwo(items[0], items[1]);
  }

  /** Three plums: 4.50, and 5.2875 with VAT, which rounds to 5.29. */
  lemma PlumsWithVat()
    ensures var items := [New(Catalog, Plum, 3.0)];
            && CanTotal(ShopBasket, items)
            && TotalOf(ShopBasket, items) == 5.29
  {
    var items := [New(Catalog, Plum, 3.0)];
    assert !DealApplies(items);
    SumPricesOfOne(items[0]);
    Round2Nearest(4.5 * 1.175, 5.29);
  }

  /**
   * Three plums for export: 4.50 times 1.05 plus the fee of 1 is exactly
   * 5.725, which rounds to 5.72 or 5.73; no VAT is added.
   */
  lemma PlumsForExport()
    ensures var items := [New(Catalog, Plum, 3.0)];
            && CanTotal(ExportBasket, items)
            && SumPrices(Promote(ExportBasket.promotion, items)) == 4.5
            && (TotalOf(ExportBasket, items) == 5.72 || TotalOf(ExportBasket, items) == 5.73)
  {
    var items := [New(Catalog, Plum, 3.0)];
    SumPricesOfOne(items[0]);
    Round2OfHalfPenny(5.72);
  }

  /**
   * The export basket does not run the grapefruit pass: two grapefruits and
   * four oranges cost 8.00 in the shop but 9.00, so 10.45 after the export
   * tax, for export.
   */
  lemma ExportSkipsGrapefruitDeal()
    ensures var items := [New(Catalog, Grapefruit, 2.0), New(Catalog, Orange, 4.0)];
            && DealApplies(items)
            && CanTotal(ShopBasket, items) && CanTotal(ExportBasket, items)
            && SumPrices(Promote(ShopBasket.promotion, items)) == 8.0
            && TotalOf(ExportBasket, items) == 10.45
  {
    var items := [New(Catalog, Grapefruit, 2.0), New(Catalog, Orange, 4.0)];
    var r := CheaperGrapefruits(items);
    assert DealApplies(items);
    assert r == [items[0].(priceOverride := Some(GrapefruitOverride)), items[1]];
    SumPricesOfTwo(r[0], r[1]);
    SumPricesOfTwo(items[0], items[1]);
    Round2Nearest(9.0 * 1.05 + 1.0, 10.45);
  }

  /**
   * The grapefruit test on product objects, with `total` called twice: the
   * second call reinstalls the same `price` and returns the same amount.
   */
  method GrapefruitBasketTotalTwice() returns (first: real, second: real)
    ensures first == second
    ensures first == 8.22 || first == 8.23
  {
    var grapefruit := new Product(Grapefruit, Catalog[Grapefruit]);
    var orange := new Product(Orange, Catalog[Orange], 4.0);
    var basket := new Basket(ShopBasket, [grapefruit, orange]);
    var items := basket.Items();
    assert items == [New(Catalog, Grapefruit), New(Catalog, Orange, 4.0)];
    GrapefruitWithFourOranges();
    first := basket.Total();
    GrapefruitTotalIdempotent(Vat, items);
    second := basket.Total();
  }
}
