/**
 * The snapshot in which `per_kilo` is an alias of `each` and grapefruit
 * already costs 1.00 each: a VAT basket with the grapefruit pass and an
 * export basket without it.
 */
module It9 {
  import opened Pricing
  import opened Promotions
  import opened Taxes
  import opened Baskets

  /** The `product` calls of this snapshot; `per_kilo` prices the same as `each`. */
  const Catalog: map<Category, Strategy> := map[
    Banana := Each(1.00), Apple := Each(1.00), Orange := Each(1.50),
    Strawberry := PerKilo(1.00), Cherry := PerKilo(2.00), Raspberry := PerKilo(2.00),
    Blackberry := PerKilo(2.00), Cranberry := PerKilo(2.00), Plum := Each(1.50),
    Grapefruit := Each(1.00)]

  /** `Basket#total`: the grapefruit pass, the sum, then VAT. */
  const ShopBasket: Policy := Policy(GrapefruitDeal, Vat)

  /** `ExportBasket#total`: no promotion pass, the sum, then the export tax. */
  const ExportBasket: Policy := Policy(NoPromotion, ExportTax)

  /**
   * Grapefruit already costs 1.00 each here, so the `quantity * 1.00` the deal
   * installs leaves every basket's sum as it was, whichever products it holds.
   */
  lemma {:induction false} GrapefruitDealChangesNoSum(items: seq<Item>)
    requires AllPriceable(items)
    requires forall i | 0 <= i < |items| && items[i].category == Grapefruit :: items[i].Rule() == Catalog[Grapefruit]
    ensures AllPriceable(CheaperGrapefruits(items))
    ensures SumPrices(CheaperGrapefruits(items)) == SumPrices(items)
  {
    if DealApplies(items) {
      var g := FirstOf(items, Grapefruit).value;
      CheaperGrapefruitsSubtotal(items);
      assert LinePrice(items[g]) == items[g].quantity * 1.00;
    }
  }

  /** Twelve bananas, twenty-four oranges and an apple: 49.00, exactly 57.575 with VAT, which rounds to 57.57 or 57.58. */
  lemma FruitsTotal()
    ensures var items := [New(Catalog, Banana, 12.0), New(Catalog, Orange, 24.0), New(Catalog, Apple)];
            && CanTotal(ShopBasket, items)
            && SumPrices(Promote(ShopBasket.promotion, items)) == 49.0
            && (TotalOf(ShopBasket, items) == 57.57 || TotalOf(ShopBasket, items) == 57.58)
  {
    var items := [New(Catalog, Banana, 12.0), New(Catalog, Orange, 24.0), New(Catalog, Apple)];
    assert !DealApplies(items);
    SumPricesOfThree(items[0], items[1], items[2]);
    Round2OfHalfPenny(57.57);
  }

  /** A kilo of strawberries, two of raspberries and half a kilo of cherries: 6.00, and 7.05 with VAT. */
  lemma SmallFruitsTotal()
    ensures var items := [New(Catalog, Strawberry), New(Catalog, Raspberry, 2.0), New(Catalog, Cherry, 0.5)];
            && CanTotal(ShopBasket, items)
            && TotalOf(ShopBasket, items) == 7.05
  {
    var items := [New(Catalog, Strawberry), New(Catalog, Raspberry, 2.0), New(Catalog, Cherry, 0.5)];
    assert !DealApplies(items);
    SumPricesOfThree(items[0], items[1], items[2]);
    Round2Nearest(6.0 * 1.175, 7.05);
  }

  /** A grapefruit and four oranges: the deal applies but the sum stays 7.00; exactly 8.225 with VAT, which rounds to 8.22 or 8.23. */
  lemma GrapefruitWithFourOranges()
    ensures var items := [New(Catalog, Grapefruit), New(Catalog, Orange, 4.0)];
            && DealApplies(items)
            && CanTotal(ShopBasket, items)
            && SumPrices(Promote(ShopBasket.promotion, items)) == 7.0
            && (TotalOf(ShopBasket, items) == 8.22 || TotalOf(ShopBasket, items) == 8.23)
  {
    var items := [New(Catalog, Grapefruit), New(Catalog, Orange, 4.0)];
    assert DealApplies(items);
    SumPricesOfTwo(items[0], items[1]);
    GrapefruitDealChangesNoSum(items);
    Round2OfHalfPenny(8.22);
  }

  /** Three plums: 4.50, and 5.2875 with VAT, which rounds to 5.29. */
  lemma PlumsWithVat()
    ensures var items := [New(Catalog, Plum, 3.0)];
            && CanTotal(ShopBasket, items)
            && TotalOf(ShopBasket, items) == 5.29
  {
    var items := [New(Catalog, Plum, 3.0)];
    assert !DealApplies(items);
    SumPricesOfOne(items[0]);
    Round2Nearest(4.5 * 1.175, 5.29);
  }

  /** Three plums for export: exactly 5.725, which rounds to 5.72 or 5.73; no VAT is added. */
  lemma PlumsForExport()
    ensures var items := [New(Catalog, Plum, 3.0)];
            && CanTotal(ExportBasket, items)
            && SumPrices(Promote(ExportBasket.promotion, items)) == 4.5
            && (TotalOf(ExportBasket, items) == 5.72 || TotalOf(ExportBasket, items) == 5.73)
  {
    var items := [New(Catalog, Plum, 3.0)];
    SumPricesOfOne(items[0]);
    Round2OfHalfPenny(5.72);
  }
}
