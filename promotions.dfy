/**
 * The two promotion passes `Basket#total` runs before summing: they look up
 * the first product of a class with `find` and change that one product.
 */
module Promotions {
  import opened Pricing

  /** `@products.find {|p| p.is_a? c }`: the index of the first product of class `c`, if any. */
  function FirstOf(items: seq<Item>, c: Category): (r: Option<nat>)
    ensures r.Some? ==> r.value < |items| && items[r.value].category == c
    ensures r.Some? ==> forall j | 0 <= j < r.value :: items[j].category != c
    ensures r.None? ==> forall j | 0 <= j < |items| :: items[j].category != c
  {
    if items == [] then None
    else if items[0].category == c then Some(0)
    else match FirstOf(items[1..], c)
      case None => None
      case Some(k) => Some(k + 1)
  }

  /** `find` only looks at classes: baskets with the same classes at the same places find the same product. */
  lemma {:induction false} FirstOfSameCategories(a: seq<Item>, b: seq<Item>, c: Category)
    requires |a| == |b|
    requires forall i | 0 <= i < |a| :: a[i].category == b[i].category
    ensures FirstOf(a, c) == FirstOf(b, c)
  {
  }

  /** More than this many oranges make grapefruit cheaper. */
  const OrangeThreshold: real := 3.0

  /** The singleton `price` installed on the grapefruit: `@quantity * 1.00`. */
  const GrapefruitOverride: Strategy := Each(1.00)

  /** A grapefruit and an orange are both found, and the first orange's quantity is strictly greater than 3. */
  predicate DealApplies(items: seq<Item>) {
    var g, o := FirstOf(items, Grapefruit), FirstOf(items, Orange);
    g.Some? && o.Some? && items[o.value].quantity > OrangeThreshold
  }

  /**
   * `cheaper_grapefruits_when_bought_with_oranges!`: when the deal applies,
   * the first grapefruit is priced at 1.00 per unit from then on. Only that
   * product's pricing rule can change: no quantity, class or catalog rule does.
   */
  function CheaperGrapefruits(items: seq<Item>): (r: seq<Item>)
    ensures |r| == |items|
    ensures forall i | 0 <= i < |r| ::
              && r[i].category == items[i].category
              && r[i].strategy == items[i].strategy
              && r[i].quantity == items[i].quantity
    ensures AllPriceable(items) ==> AllPriceable(r)
  {
    if DealApplies(items) then
      var g := FirstOf(items, Grapefruit).value;
      items[g := items[g].(priceOverride := Some(GrapefruitOverride))]
    else
      items
  }

  /**
   * When the deal applies the first grapefruit costs its quantity times 1.00
   * and every other product is untouched; otherwise nothing changes.
   */
  lemma {:induction false} CheaperGrapefruitsEffect(items: seq<Item>)
    ensures !DealApplies(items) ==> CheaperGrapefruits(items) == items
    ensures DealApplies(items) ==>
              var g, r := FirstOf(items, Grapefruit).value, CheaperGrapefruits(items);
              && Priceable(r[g])
              && LinePrice(r[g]) == items[g].quantity * 1.00
              && forall i | 0 <= i < |items| && i != g :: r[i] == items[i]
  {
  }

  /** The pass changes the basket exactly when the deal applies and the grapefruit is not yet on the deal. */
  lemma {:induction false} CheaperGrapefruitsChangesIff(items: seq<Item>)
    ensures CheaperGrapefruits(items) != items <==>
              DealApplies(items) &&
              items[FirstOf(items, Grapefruit).value].priceOverride != Some(GrapefruitOverride)
  {
    if DealApplies(items) {
      var g := FirstOf(items, Grapefruit).value;
      var r := CheaperGrapefruits(items);
      if items[g].priceOverride != Some(GrapefruitOverride) {
        assert r[g] != items[g];
      }
    }
  }

  /**
   * Running the pass again changes nothing: it finds the same products,
   * sees the same orange quantity and installs the same `price` again.
   */
  lemma {:induction false} CheaperGrapefruitsIdempotent(items: seq<Item>)
    ensures CheaperGrapefruits(CheaperGrapefruits(items)) == CheaperGrapefruits(items)
  {
    var r := CheaperGrapefruits(items);
    FirstOfSameCategories(items, r, Grapefruit);
    FirstOfSameCategories(items, r, Orange);
    assert DealApplies(r) == DealApplies(items);
    if DealApplies(items) {
      var g := FirstOf(items, Grapefruit).value;
      assert r[g].priceOverride == Some(GrapefruitOverride);
      assert r[g := r[g].(priceOverride := Some(GrapefruitOverride))] == r;
    }
  }

  /** The deal lowers the sum by the grapefruit's old price and adds back its quantity times 1.00. */
  lemma {:induction false} CheaperGrapefruitsSubtotal(items: seq<Item>)
    requires AllPriceable(items) && DealApplies(items)
    ensures AllPriceable(CheaperGrapefruits(items))
    ensures var g := FirstOf(items, Grapefruit).value;
            SumPrices(CheaperGrapefruits(items)) ==
              SumPrices(items) - LinePrice(items[g]) + items[g].quantity * 1.00
  {
    var g := FirstOf(items, Grapefruit).value;
    SumPricesUpdate(items, g, items[g].(priceOverride := Some(GrapefruitOverride)));
  }

  /** A tomato and a cucumber are both found. */
  predicate FreebieApplies(items: seq<Item>) {
    FirstOf(items, Tomato).Some? && FirstOf(items, Cucumber).Some?
  }

  /**
   * `free_cucumbers_for_every_kg_of_tomatoes!`: when the freebie applies, the
   * first cucumber's quantity drops by the first tomato's quantity, with no
   * floor at zero. Only that product's quantity can change.
   */
  function FreeCucumbers(items: seq<Item>): (r: seq<Item>)
    ensures |r| == |items|
    ensures forall i | 0 <= i < |r| ::
              && r[i].category == items[i].category
              && r[i].strategy == items[i].strategy
              && r[i].priceOverride == items[i].priceOverride
  {
    if FreebieApplies(items) then
      var t, c := FirstOf(items, Tomato).value, FirstOf(items, Cucumber).value;
      items[c := items[c].(quantity := items[c].quantity - items[t].quantity)]
    else
      items
  }

  /**
   * When the freebie applies the first cucumber loses the first tomato's
   * quantity and every other product, the tomato included, is untouched;
   * otherwise nothing changes.
   */
  lemma {:induction false} FreeCucumbersEffect(items: seq<Item>)
    ensures !FreebieApplies(items) ==> FreeCucumbers(items) == items
    ensures FreebieApplies(items) ==>
              var t, c, r := FirstOf(items, Tomato).value, FirstOf(items, Cucumber).value, FreeCucumbers(items);
              && r[c].quantity == items[c].quantity - items[t].quantity
              && forall i | 0 <= i < |items| && i != c :: r[i] == items[i]
  {
  }

  /** The pass is not idempotent: a second run takes the tomato's quantity off the cucumber again. */
  lemma {:induction false} FreeCucumbersTwice(items: seq<Item>)
    requires FreebieApplies(items)
    ensures var t, c := FirstOf(items, Tomato).value, FirstOf(items, Cucumber).value;
            FreeCucumbers(FreeCucumbers(items))[c].quantity == items[c].quantity - 2.0 * items[t].quantity
  {
    var r := FreeCucumbers(items);
    FirstOfSameCategories(items, r, Tomato);
    FirstOfSameCategories(items, r, Cucumber);
  }

  /**
   * With a cucumber priced per unit at `u`, the freebie lowers the sum by
   * `u` times the tomato's quantity `q`.
   */
  lemma {:induction false} FreeCucumbersSubtotal(items: seq<Item>, u: real, q: real)
    requires AllPriceable(items) && FreebieApplies(items)
    requires var c := FirstOf(items, Cucumber).value;
             items[c].Rule() == Each(u) || items[c].Rule() == PerKilo(u)
    requires q == items[FirstOf(items, Tomato).value].quantity
    ensures AllPriceable(FreeCucumbers(items))
    ensures SumPrices(FreeCucumbers(items)) == SumPrices(items) - u * q
  {
    var t, c := FirstOf(items, Tomato).value, FirstOf(items, Cucumber).value;
    var x := items[c].(quantity := items[c].quantity - q);
    assert FreeCucumbers(items) == items[c := x];
    assert Priceable(x) && LinePrice(x) == LinePrice(items[c]) - u * q by {
      LinePriceReduce(items[c], q, u);
    }
    SumPricesUpdate(items, c, x);
  }

  /** The promotion pass a basket class runs at the start of `total`. */
  datatype Promotion = NoPromotion | GrapefruitDeal | CucumberFreebie

  function Promote(p: Promotion, items: seq<Item>): (r: seq<Item>)
    ensures |r| == |items|
    ensures forall i | 0 <= i < |r| :: r[i].category == items[i].category
  {
    match p
    case NoPromotion => items
    case GrapefruitDeal => CheaperGrapefruits(items)
    case CucumberFreebie => FreeCucumbers(items)
  }
}
