/**
 * Unit pricing of the basket kata: the pricing rules that `Numeric#each`,
 * `Numeric#per_kilo` and `Numeric#for` build, the product instances they
 * price, and the `inject` fold that sums a basket's line prices.
 */
module Pricing {

  datatype Option<+T> = None | Some(value: T)

  /** The catalog names registered by the `product` calls of the six snapshots (their union). */
  datatype Category =
    | Banana | Apple | Orange | Plum | Grapefruit
    | Strawberry | Cherry | Raspberry | Blackberry | Cranberry
    | Cucumber | Lettuce | Aubergine | Tomato

  /**
   * A pricing rule: `u.each` and `u.per_kilo` charge `u` per unit of quantity,
   * `n.for(p)` charges `p` for every full bundle of `n` and `p` again for every
   * unit left over.
   */
  datatype Strategy =
    | Each(unit: real)
    | PerKilo(unit: real)
    | For(bundle: int, bundlePrice: real)

  /** A quantity that Ruby would hold as an Integer. */
  predicate Whole(q: real) {
    q.Floor as real == q
  }

  /**
   * The rule can price `q`: `n.for(p)` divides by `n` and is only modelled on
   * Integer quantities (a Float quantity, even a whole one, takes float division).
   */
  predicate Defined(s: Strategy, q: real) {
    s.For? ==> s.bundle > 0 && Whole(q)
  }

  /**
   * The closure a rule stands for, applied to a quantity. For `n.for(p)` the
   * integer `/` and `%` of Ruby round toward negative infinity; for a positive
   * divisor that is exactly Dafny's Euclidean `/` and `%`.
   */
  function Price(s: Strategy, q: real): (r: real)
    requires Defined(s, q)
  {
    match s
    case Each(u) => u * q
    case PerKilo(u) => u * q
    case For(n, p) =>
      var k := q.Floor;
      (k / n + k % n) as real * p
  }

  /** `each` and `per_kilo` are linear: one unit costs the unit value, and a line split in two costs the same. */
  lemma UnitPricing(s: Strategy, a: real, b: real)
    requires s.Each? || s.PerKilo?
    ensures Price(s, 1.0) == s.unit
    ensures Price(s, a) == a * s.unit
    ensures Price(s, a + b) == Price(s, a) + Price(s, b)
  {
  }

  /** In the later snapshot `per_kilo` is an alias of `each`: both rules give the same price. */
  lemma PerKiloIsEach(u: real, q: real)
    ensures Price(PerKilo(u), q) == Price(Each(u), q)
  {
  }

  /** Ruby's integer `/` and `%` by a positive divisor determine quotient and remainder uniquely. */
  lemma DivModUnique(q: int, n: int, d: int, m: int)
    requires n > 0 && 0 <= m < n && q == d * n + m
    ensures q / n == d && q % n == m
  {
    var d', m' := q / n, q % n;
    assert q == d' * n + m' && 0 <= m' < n;
    if d' < d {
      assert (d - d') * n >= n by { MulAtLeastOnce(d - d', n); }
      assert false;
    } else if d' > d {
      assert (d' - d) * n >= n by { MulAtLeastOnce(d' - d, n); }
      assert false;
    }
  }

  lemma MulAtLeastOnce(k: int, n: int)
    requires k >= 1 && n > 0
    ensures k * n >= n
  {
  }

  /**
   * `n.for(p)` on `bundles * n + rest` units (with `rest < n`) charges `p`
   * for each bundle and `p` for each unit left over.
   */
  lemma {:induction false} BundlePricing(n: int, p: real, bundles: nat, rest: nat)
    requires n > 0 && rest < n
    ensures Defined(For(n, p), (bundles * n + rest) as real)
    ensures Price(For(n, p), (bundles * n + rest) as real) == (bundles + rest) as real * p
  {
    var q := bundles * n + rest;
    assert (q as real).Floor == q;
    DivModUnique(q, n, bundles, rest);
  }

  /** Remainders are not prorated: `2.for(1)` charges 2 for three units, not 1.5. */
  lemma BundleRemainderNotProrated()
    ensures Price(For(2, 1.0), 3.0) == 2.0
  {
    BundlePricing(2, 1.0, 1, 1);
  }

  /** Because leftovers cost a full bundle each, `n.for(p)` with `n > 2` charges more for `n - 1` units than for `n`. */
  lemma BundlePriceNotMonotone(n: int, p: real)
    requires n > 2 && p > 0.0
    ensures Price(For(n, p), (n - 1) as real) > Price(For(n, p), n as real)
  {
    BundlePricing(n, p, 0, n - 1);
    BundlePricing(n, p, 1, 0);
  }

  /**
   * One product instance: the product class it belongs to, the class's
   * pricing rule, its quantity (`attr_accessor :quantity`), and the singleton
   * `price` method a promotion may install on this one object.
   */
  datatype Item = Item(category: Category, strategy: Strategy, quantity: real, priceOverride: Option<Strategy>)
  {
    /** The rule `price` dispatches to: the singleton method if one is installed, else the class's. */
    function Rule(): (r: Strategy) {
      if priceOverride.Some? then priceOverride.value else strategy
    }
  }

  /** `Banana.new(12)`: an instance of a catalog class, quantity 1 when omitted. */
  function New(catalog: map<Category, Strategy>, c: Category, quantity: real := 1.0): (r: Item)
    requires c in catalog
  {
    Item(c, catalog[c], quantity, None)
  }

  /** `initialize(quantity = 1)`: a fresh instance has quantity 1 unless given one, and no singleton `price`. */
  lemma NewDefaultsToOne(catalog: map<Category, Strategy>, c: Category)
    requires c in catalog
    ensures New(catalog, c).quantity == 1.0
    ensures New(catalog, c).Rule() == catalog[c]
  {
  }

  predicate Priceable(it: Item) {
    Defined(it.Rule(), it.quantity)
  }

  /** A product's `price`. */
  function LinePrice(it: Item): (r: real)
    requires Priceable(it)
  {
    Price(it.Rule(), it.quantity)
  }

  /** A singleton `price` wins over the class's rule, and without one the class's rule prices the instance. */
  lemma OverrideWins(it: Item, s: Strategy)
    requires Defined(s, it.quantity)
    ensures LinePrice(it.(priceOverride := Some(s))) == Price(s, it.quantity)
    ensures Defined(it.strategy, it.quantity) ==>
              LinePrice(it.(priceOverride := None)) == Price(it.strategy, it.quantity)
  {
  }

  /** Under `each` or `per_kilo` at `u`, taking `d` off a product's quantity takes `u * d` off its price. */
  lemma LinePriceReduce(it: Item, d: real, u: real)
    requires it.Rule() == Each(u) || it.Rule() == PerKilo(u)
    ensures Priceable(it.(quantity := it.quantity - d))
    ensures LinePrice(it.(quantity := it.quantity - d)) == LinePrice(it) - u * d
  {
    UnitPricing(it.Rule(), it.quantity, -d);
  }

  predicate AllPriceable(items: seq<Item>) {
    forall i | 0 <= i < |items| :: Priceable(items[i])
  }

  /** `@products.inject(0) {|x,y| x + y.price }`: a left fold of the line prices seeded with 0. */
  function SumPrices(items: seq<Item>): (r: real)
    requires AllPriceable(items)
  {
    if items == [] then 0.0
    else SumPrices(items[..|items| - 1]) + LinePrice(items[|items| - 1])
  }

  /** The fold seed is 0, so an empty basket sums to 0. */
  lemma SumPricesEmpty()
    ensures SumPrices([]) == 0.0
  {
  }

  /** Adding one product to the end of a basket adds its price to the sum. */
  lemma SumPricesSnoc(items: seq<Item>, x: Item)
    requires AllPriceable(items) && Priceable(x)
    ensures AllPriceable(items + [x])
    ensures SumPrices(items + [x]) == SumPrices(items) + LinePrice(x)
  {
    assert (items + [x])[..|items|] == items;
  }

  /** A basket of one product sums to that product's price. */
  lemma SumPricesOfOne(a: Item)
    requires Priceable(a)
    ensures AllPriceable([a]) && SumPrices([a]) == LinePrice(a)
  {
    SumPricesSnoc([], a);
    assert [] + [a] == [a];
  }

  /** A basket of two products sums their prices from left to right. */
  lemma SumPricesOfTwo(a: Item, b: Item)
    requires Priceable(a) && Priceable(b)
    ensures AllPriceable([a, b]) && SumPrices([a, b]) == LinePrice(a) + LinePrice(b)
  {
    SumPricesOfOne(a);
    SumPricesSnoc([a], b);
    assert [a] + [b] == [a, b];
  }

  /** A basket of three products sums their prices from left to right. */
  lemma SumPricesOfThree(a: Item, b: Item, c: Item)
    requires Priceable(a) && Priceable(b) && Priceable(c)
    ensures AllPriceable([a, b, c]) && SumPrices([a, b, c]) == LinePrice(a) + LinePrice(b) + LinePrice(c)
  {
    SumPricesOfTwo(a, b);
    SumPricesSnoc([a, b], c);
    assert [a, b] + [c] == [a, b, c];
  }

  /** The sum of a basket made of two parts is the sum of the parts' sums. */
  lemma {:induction false} SumPricesAppend(a: seq<Item>, b: seq<Item>)
    requires AllPriceable(a) && AllPriceable(b)
    ensures AllPriceable(a + b)
    ensures SumPrices(a + b) == SumPrices(a) + SumPrices(b)
  {
    if b == [] {
      assert a + b == a;
    } else {
      var b' := b[..|b| - 1];
      SumPricesAppend(a, b');
      assert (a + b)[..|a + b| - 1] == a + b';
    }
  }

  /** Changing one product changes the sum by exactly the change of that product's price. */
  lemma {:induction false} SumPricesUpdate(items: seq<Item>, k: nat, x: Item)
    requires AllPriceable(items) && k < |items| && Priceable(x)
    ensures AllPriceable(items[k := x])
    ensures SumPrices(items[k := x]) == SumPrices(items) - LinePrice(items[k]) + LinePrice(x)
  {
    var n := |items|;
    var u := items[k := x];
    assert u[..n - 1] == if k == n - 1 then items[..n - 1] else items[..n - 1][k := x];
    if k < n - 1 {
      SumPricesUpdate(items[..n - 1], k, x);
    }
  }
}
