/**
 * `Basket#total` and the objects it works on. Each snapshot's basket class
 * runs at most one promotion pass, sums the line prices and applies at most
 * one tax step; a `Policy` names which, so one `Basket` class stands for all
 * of them (and for `ExportBasket`, which overrides `total`).
 */
module Baskets {
  import opened Pricing
  import opened Promotions
  import opened Taxes

  /** What a basket class's `total` does: a promotion pass (or none), then the sum, then a tax step (or none). */
  datatype Policy = Policy(promotion: Promotion, tax: Tax)

  /** Every product can still be priced after the promotion pass. */
  predicate CanTotal(policy: Policy, items: seq<Item>) {
    AllPriceable(Promote(policy.promotion, items))
  }

  /** The value `total` returns on a basket whose products are `items` when it is called. */
  function TotalOf(policy: Policy, items: seq<Item>): (r: real)
    requires CanTotal(policy, items)
  {
    ApplyTax(policy.tax, SumPrices(Promote(policy.promotion, items)))
  }

  /**
   * The fold starts at 0: an empty basket totals 0 untaxed and under VAT, and
   * the export fee of 1 under export tax.
   */
  lemma EmptyBasketTotal(policy: Policy)
    ensures CanTotal(policy, [])
    ensures TotalOf(policy, []) == if policy.tax.ExportTax? then 1.0 else 0.0
  {
    assert Promote(policy.promotion, []) == [];
    Round2OfCents(0.0);
    Round2OfCents(1.0);
  }

  /**
   * The VAT is taken once on the unrounded sum of the promoted basket: the
   * total is a whole number of pence within half a penny of 1.175 times that sum.
   */
  lemma VatTotalWithinHalfPenny(promotion: Promotion, items: seq<Item>)
    requires CanTotal(Policy(promotion, Vat), items)
    ensures var subtotal := SumPrices(Promote(promotion, items));
            && IsCents(TotalOf(Policy(promotion, Vat), items))
            && -0.005 <= TotalOf(Policy(promotion, Vat), items) - subtotal * VatMultiplier <= 0.005
  {
  }

  /**
   * With the grapefruit pass, `total` may be called again: the second call
   * sees the promoted basket and returns the same value as the first.
   */
  lemma {:induction false} GrapefruitTotalIdempotent(tax: Tax, items: seq<Item>)
    requires CanTotal(Policy(GrapefruitDeal, tax), items)
    ensures CanTotal(Policy(GrapefruitDeal, tax), CheaperGrapefruits(items))
    ensures TotalOf(Policy(GrapefruitDeal, tax), CheaperGrapefruits(items)) ==
            TotalOf(Policy(GrapefruitDeal, tax), items)
  {
    CheaperGrapefruitsIdempotent(items);
  }

  /**
   * With the cucumber pass, `total` is not idempotent: with a cucumber sold
   * per unit at `u`, each call takes another `u` times the tomato's quantity `q`
   * off the untaxed total.
   */
  lemma {:induction false} CucumberTotalDropsEachCall(items: seq<Item>, u: real, q: real)
    requires AllPriceable(items) && FreebieApplies(items)
    requires var c := FirstOf(items, Cucumber).value;
             items[c].Rule() == Each(u) || items[c].Rule() == PerKilo(u)
    requires q == items[FirstOf(items, Tomato).value].quantity
    ensures CanTotal(Policy(CucumberFreebie, NoTax), items)
    ensures CanTotal(Policy(CucumberFreebie, NoTax), FreeCucumbers(items))
    ensures TotalOf(Policy(CucumberFreebie, NoTax), FreeCucumbers(items)) ==
            TotalOf(Policy(CucumberFreebie, NoTax), items) - u * q
  {
    var t, c := FirstOf(items, Tomato).value, FirstOf(items, Cucumber).value;
    var r := FreeCucumbers(items);
    assert FirstOf(r, Tomato) == Some(t) && FirstOf(r, Cucumber) == Some(c) by {
      FirstOfSameCategories(items, r, Tomato);
      FirstOfSameCategories(items, r, Cucumber);
    }
    assert r[t] == items[t] && r[c].Rule() == items[c].Rule() by {
      FreeCucumbersEffect(items);
    }
    FreeCucumbersSubtotal(items, u, q);
    FreeCucumbersSubtotal(r, u, q);
  }

  /**
   * An instance of a class built by `product`: the class (its catalog name and
   * pricing rule) and the two things a promotion may change in place, the
   * quantity and a singleton `price`.
   */
  class Product {
    const category: Category
    const strategy: Strategy
    var quantity: real
    var priceOverride: Option<Strategy>

    /** `initialize(quantity = 1)`: quantity 1 unless given, and the class's own `price`. */
    constructor (category: Category, strategy: Strategy, quantity: real := 1.0)
      ensures Value() == Item(category, strategy, quantity, None)
    {
      this.category := category;
      this.strategy := strategy;
      this.quantity := quantity;
      this.priceOverride := None;
    }

    /** The instance's current state. */
    function Value(): (r: Item)
      reads this
    {
      Item(category, strategy, quantity, priceOverride)
    }
  }

  class Basket {
    const products: seq<Product>
    const policy: Policy

    /** No product object is in the basket twice. */
    ghost predicate Valid() {
      forall i, j | 0 <= i < j < |products| :: products[i] != products[j]
    }

    /** `Basket.new(*args)`: the basket keeps the products it is given, in order. */
    constructor (policy: Policy, products: seq<Product>)
      requires forall i, j | 0 <= i < j < |products| :: products[i] != products[j]
      ensures this.policy == policy && this.products == products
      ensures Valid()
    {
      this.policy := policy;
      this.products := products;
    }

    /** The products' current states, in basket order. */
    function Items(): (r: seq<Item>)
      reads products
    {
      seq(|products|, i requires 0 <= i < |products| reads products => products[i].Value())
    }

    /**
     * `cheaper_grapefruits_when_bought_with_oranges!`: installs the 1.00 per
     * unit `price` on the first grapefruit object when the deal applies.
     */
    method CheaperGrapefruitsWhenBoughtWithOranges()
      requires Valid()
      modifies products
      ensures Items() == CheaperGrapefruits(old(Items()))
    {
      var items := Items();
      var grapefruit := FirstOf(items, Grapefruit);
      var orange := FirstOf(items, Orange);
      if grapefruit.Some? && orange.Some? && products[orange.value].quantity > OrangeThreshold {
        var g := grapefruit.value;
        products[g].priceOverride := Some(GrapefruitOverride);
        assert Items() == items[g := items[g].(priceOverride := Some(GrapefruitOverride))];
      }
    }

    /**
     * `free_cucumbers_for_every_kg_of_tomatoes!`: takes the first tomato's
     * quantity off the first cucumber object, with no floor at zero.
     */
    method FreeCucumbersForEveryKgOfTomatoes()
      requires Valid()
      modifies products
      ensures Items() == FreeCucumbers(old(Items()))
    {
      var items := Items();
      var tomato := FirstOf(items, Tomato);
      var cucumber := FirstOf(items, Cucumber);
      if tomato.Some? && cucumber.Some? {
        var t, c := tomato.value, cucumber.value;
        products[c].quantity := products[c].quantity - products[t].quantity;
        assert Items() == items[c := items[c].(quantity := items[c].quantity - items[t].quantity)];
      }
    }

    /**
     * `total`: run the promotion pass on the products in place, fold their
     * prices from 0, then apply the tax step once to the unrounded sum.
     */
    method Total() returns (total: real)
      requires Valid() && CanTotal(policy, Items())
      modifies products
      ensures Items() == Promote(policy.promotion, old(Items()))
      ensures total == TotalOf(policy, old(Items()))
    {
      match policy.promotion {
        case NoPromotion =>
        case GrapefruitDeal => CheaperGrapefruitsWhenBoughtWithOranges();
        case CucumberFreebie => FreeCucumbersForEveryKgOfTomatoes();
      }
      total := ApplyTax(policy.tax, SumPrices(Items()));
    }
  }
}
