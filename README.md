# Shopping-basket kata, modelled in Dafny

The repository is a shopping-basket price calculator written in Ruby in six
snapshots (`it1.rb`, `src/ruby/iteration-2.rb`, `it4.rb`, `it6.rb`, `it9.rb`
and `exercise.rb`). Each snapshot redefines the same small engine and grows
it step by step. In full, the engine has:

- pricing rules built on `Numeric`: `u.each` in every snapshot, `u.per_kilo`
  in `it4.rb`, `it6.rb`, `it9.rb` and `exercise.rb`, and `n.for(p)` only in `it4.rb` and `exercise.rb`;
- one product class per catalog name, whose instances carry a mutable
  `quantity` (1 by default) and a `price`;
- a `Basket` whose `total` may run one promotion pass that changes products
  in place, then folds `price` over the products from 0, then may apply one
  tax step.

The basket in `it1.rb` and `src/ruby/iteration-2.rb` only sums. The basket
in `it4.rb` runs the cucumber pass. The basket in `it6.rb` runs the
grapefruit pass. Only `it9.rb` and `exercise.rb` add VAT and have an
`ExportBasket`.

The model is split into modules:

- `Pricing` (`pricing.dfy`): the `Strategy` datatype for the three rules;
  `Price` for the closure a rule stands for; `Item` for a product instance,
  including an optional per-object `price` override; `SumPrices` for the
  `inject(0)` fold; and their laws.
- `Promotions` (`promotions.dfy`): `FirstOf` for Ruby's `find`, and the two
  promotion passes as functions on the basket's items. One is the grapefruit
  deal (`CheaperGrapefruits`); the other takes the tomato's quantity off the
  cucumber (`FreeCucumbers`).
- `Taxes` (`taxes.dfy`): `Round2` for `sprintf("%0.2f", x).to_f`, specified
  by its error bound; `ApplyVat`; and `ApplyExportTax`.
- `Baskets` (`baskets.dfy`): `Policy` is the promotion and the tax one
  snapshot's basket class uses. `TotalOf` is the value `total` returns.
  The classes `Product` and `Basket` hold products whose fields the
  promotion methods update in place. `Basket.Total` is proved to leave the
  promoted products behind and to return `TotalOf` of the products it
  started with.
- `It1`, `Iteration2`, `It4`, `It6`, `It9` and `Exercise`: one module per
  snapshot, with its catalog, its basket's policy and its unit tests as lemmas.

Money and quantities are exact `real`s. `n.for(p)` is defined on quantities
that Ruby holds as Integers (whole reals in the model) with `n > 0`. For a positive divisor, Ruby's integer `/` rounds
toward negative infinity and `%` takes the divisor's sign, so both agree with
Dafny's.

The model follows the code:

- no quantity is floored at zero;
- no error is raised on construction;
- `ExportBasket#total` skips the grapefruit pass.

## Model

| member | source | states |
|---|---|---|
| Pricing.Price | exercise.rb:18-33 | the price each rule's closure gives for a quantity; defined by its body, laws in UnitPricing, PerKiloIsEach and BundlePricing |
| Pricing.Item.Rule | exercise.rb:99-101 | the rule `price` dispatches to, the singleton one if installed; laws in OverrideWins and NewDefaultsToOne |
| Pricing.New | exercise.rb:40-42 | an instance of a catalog class with the given quantity, 1 when omitted; laws in NewDefaultsToOne |
| Pricing.LinePrice | exercise.rb:46 | a product's `price`; laws in OverrideWins and LinePriceReduce |
| Pricing.SumPrices | exercise.rb:81 | the `inject(0)` fold of line prices; defined by its body, laws in SumPricesEmpty, SumPricesSnoc, SumPricesAppend and SumPricesUpdate |
| Pricing.UnitPricing | exercise.rb:18-26 | `each` and `per_kilo` charge the unit value for one unit, value times quantity in general, and split additively over quantities |
| Pricing.PerKiloIsEach | it9.rb:10-15 | `per_kilo` gives the same price as `each` for every unit value and quantity |
| Pricing.DivModUnique | exercise.rb:31 | for a positive divisor, integer quotient and remainder are the unique pair with `q == d*n + m` and `0 <= m < n` |
| Pricing.BundlePricing | exercise.rb:28-33 | `n.for(p)` on `bundles*n + rest` units (with `rest < n`) costs `(bundles + rest) * p` |
| Pricing.BundleRemainderNotProrated | exercise.rb:70 | `2.for(1)` charges 2 for three units, not 1.50 |
| Pricing.BundlePriceNotMonotone | exercise.rb:28-33 | for `n > 2` and a positive price, `n - 1` units cost more than `n` units |
| Pricing.NewDefaultsToOne | exercise.rb:40-42 | an instance made without a quantity has quantity 1 and is priced by its class's rule |
| Pricing.OverrideWins | exercise.rb:99-101 | a singleton `price` decides the line price; without one, the class's rule does |
| Pricing.LinePriceReduce | it4.rb:92 | under `each` or `per_kilo` at `u`, taking `d` off the quantity takes `u*d` off the price |
| Pricing.SumPricesEmpty | exercise.rb:81 | the fold is seeded with 0 |
| Pricing.SumPricesSnoc | exercise.rb:81 | one more product at the end adds its price to the sum |
| Pricing.SumPricesOfOne | exercise.rb:81 | a basket of one product sums to its line price |
| Pricing.SumPricesOfTwo | exercise.rb:81 | a basket of two products sums their line prices from left to right |
| Pricing.SumPricesOfThree | exercise.rb:81 | a basket of three products sums their line prices from left to right |
| Pricing.SumPricesAppend | src/ruby/iteration-2.rb:59-61 | the sum of a concatenated basket is the sum of the two parts' sums |
| Pricing.SumPricesUpdate | exercise.rb:81 | replacing one product changes the sum by exactly the change in that product's price |
| Promotions.FirstOf | exercise.rb:95-96 | the result is the index of the first product of the class, or none when no product is of that class |
| Promotions.FirstOfSameCategories | exercise.rb:95-96 | `find` depends only on the classes at each position |
| Promotions.DealApplies | exercise.rb:95-98 | a grapefruit and an orange are found and the first orange's quantity is over 3; its consequences in CheaperGrapefruitsEffect and CheaperGrapefruitsChangesIff |
| Promotions.CheaperGrapefruits | exercise.rb:94-103 | the pass keeps the length and every product's class, class rule and quantity, and keeps every product priceable |
| Promotions.CheaperGrapefruitsEffect | exercise.rb:94-103 | when a grapefruit and an orange are found and the first orange's quantity is over 3, the first grapefruit costs quantity times 1.00 and nothing else changes; otherwise the basket is unchanged |
| Promotions.CheaperGrapefruitsChangesIff | exercise.rb:98-102 | the pass changes the basket if and only if the deal applies and the grapefruit is not already on it |
| Promotions.CheaperGrapefruitsIdempotent | exercise.rb:94-103 | running the pass twice equals running it once |
| Promotions.CheaperGrapefruitsSubtotal | exercise.rb:80-81 | the deal replaces the grapefruit's old price in the sum by its quantity times 1.00 |
| Promotions.FreebieApplies | it4.rb:89-91 | a tomato and a cucumber are both found; its consequences in FreeCucumbersEffect |
| Promotions.FreeCucumbers | it4.rb:88-94 | the pass keeps the length and every product's class, class rule and singleton price |
| Promotions.FreeCucumbersEffect | it4.rb:88-94 | with a tomato and a cucumber, the first cucumber's quantity drops by the first tomato's quantity, with no floor, and nothing else changes; with either missing the basket is unchanged |
| Promotions.FreeCucumbersTwice | it4.rb:92 | a second pass takes the tomato's quantity off the cucumber again |
| Promotions.FreeCucumbersSubtotal | it4.rb:82-83 | with a cucumber sold per unit at `u`, the pass lowers the sum by `u` times the tomato's quantity |
| Promotions.Promote | exercise.rb:80 | a promotion pass keeps the length and the class at every position |
| Taxes.Round2 | exercise.rb:106 | the result is a whole number of pence within half a penny of the input |
| Taxes.Round2Nearest | exercise.rb:106 | when a whole number of pence lies closer than half a penny to the input, that is the result |
| Taxes.Round2OfCents | exercise.rb:106 | an amount already in whole pence is unchanged |
| Taxes.Round2OfHalfPenny | exercise.rb:106 | an exact half penny rounds to one of its two neighbours |
| Taxes.ApplyVat | exercise.rb:105-107 | whole pence within half a penny of the subtotal times 1.175 |
| Taxes.ApplyExportTax | exercise.rb:117-119 | whole pence within half a penny of the subtotal times 1.05, plus 1 |
| Baskets.TotalOf | exercise.rb:78-82 | the value `total` returns: the tax step on the sum of the promoted basket; laws in EmptyBasketTotal, VatTotalWithinHalfPenny, GrapefruitTotalIdempotent and CucumberTotalDropsEachCall, and Basket.Total returns it |
| Baskets.EmptyBasketTotal | exercise.rb:110-119 | an empty basket totals 0, untaxed or with VAT, and 1 with the export tax |
| Baskets.VatTotalWithinHalfPenny | exercise.rb:78-82 | the VAT total is whole pence within half a penny of 1.175 times the unrounded promoted sum |
| Baskets.GrapefruitTotalIdempotent | exercise.rb:78-82 | a second `total` on the promoted basket returns the same value as the first |
| Baskets.CucumberTotalDropsEachCall | it4.rb:81-84 | each `total` on the promoted basket returns `u` times the tomato's quantity less than the previous call |
| Baskets.Product.constructor | exercise.rb:40-42 | a new instance has the given quantity (1 by default) and no singleton `price` |
| Baskets.Basket.constructor | exercise.rb:74-76 | the basket keeps the products it is given, in order |
| Baskets.Basket.CheaperGrapefruitsWhenBoughtWithOranges | exercise.rb:94-103 | the product objects end in the state `CheaperGrapefruits` gives for their old states |
| Baskets.Basket.FreeCucumbersForEveryKgOfTomatoes | it4.rb:88-94 | the product objects end in the state `FreeCucumbers` gives for their old states |
| Baskets.Basket.Total | exercise.rb:78-82 | the products are left promoted, and the result is the tax step applied to the promoted sum of the products' old states |
| Exercise.AubergineBundles | exercise.rb:70 | two aubergines cost 1 and three cost 2 |
| Exercise.FruitsTotal | exercise.rb:124-127 | the sum is 49.00, and the VAT total is 57.57 or 57.58 |
| Exercise.SmallFruitsTotal | exercise.rb:139-142 | the sum is 6.00 and the VAT total is 7.05 |
| Exercise.GrapefruitWithFourOranges | exercise.rb:158-161 | the deal applies, the sum is 7.00, and the VAT total is 8.22 or 8.23 |
| Exercise.ThreeOrangesAreNotEnough | exercise.rb:98 | with exactly three oranges the deal does not apply and the sum is 6.00 |
| Exercise.PlumsWithVat | exercise.rb:163-166 | three plums total 5.29 with VAT |
| Exercise.PlumsForExport | exercise.rb:168-171 | three plums sum to 4.50, and the export total is 5.72 or 5.73 |
| Exercise.ExportSkipsGrapefruitDeal | exercise.rb:110-113 | for a basket where the deal applies, the shop sum is 8.00, but the export total is 10.45 on the undiscounted 9.00 |
| Exercise.GrapefruitBasketTotalTwice | exercise.rb:78-82 | on product objects, two calls of `total` return the same amount, 8.22 or 8.23 |
| It9.GrapefruitDealChangesNoSum | it9.rb:71-80 | with grapefruit already at 1.00 each, the deal leaves every basket's sum unchanged |
| It9.FruitsTotal | it9.rb:102-105 | the sum is 49.00, and the VAT total is 57.57 or 57.58 |
| It9.SmallFruitsTotal | it9.rb:107-110 | the VAT total is 7.05 |
| It9.GrapefruitWithFourOranges | it9.rb:116-119 | the deal applies, the sum stays 7.00, and the VAT total is 8.22 or 8.23 |
| It9.PlumsWithVat | it9.rb:121-124 | three plums total 5.29 with VAT |
| It9.PlumsForExport | it9.rb:126-129 | three plums sum to 4.50, and the export total is 5.72 or 5.73 |
| It6.TotalIsPromotedSum | it6.rb:67-70 | the total is the unrounded sum of the basket after the grapefruit pass |
| It6.FruitsTotal | it6.rb:89-92 | the total is 49.00 |
| It6.SmallFruitsTotal | it6.rb:94-97 | the total is 6.00 |
| It6.GrapefruitWithFourOranges | it6.rb:103-106 | the deal applies and the total is 7.00 |
| It4.AubergineBundles | it4.rb:64 | two aubergines cost 1.00 and three cost 2.00 |
| It4.FruitsTotal | it4.rb:100-103 | the total is 50.00 |
| It4.VeggiesTotal | it4.rb:105-108 | the total is 7.50 |
| It4.FruitsAndVeggiesTotal | it4.rb:110-113 | the combined basket totals 57.50 |
| It4.SmallFruitsTotal | it4.rb:115-118 | the total is 6.00 |
| It4.TwoForOneAubergines | it4.rb:120-123 | two aubergines total 1.00 |
| It4.CucumberFreeForEveryKgOfTomatoes | it4.rb:125-128 | the freebie applies and the total is 2.00 |
| It4.CucumberQuantityGoesNegative | it4.rb:88-94 | three kilos of tomatoes with one cucumber leave the cucumber at -2, and the total is 1.00 |
| It4.CucumberBasketTotalTwice | it4.rb:81-84 | on product objects, the first `total` returns 2.00 and the second 1.00 |
| Iteration2.TotalIsPlainSum | src/ruby/iteration-2.rb:59-61 | `total` leaves the products unchanged and returns their sum |
| Iteration2.EmptyBasket | src/ruby/iteration-2.rb:59-61 | an empty basket totals 0 |
| Iteration2.FruitsTotal | src/ruby/iteration-2.rb:66-69 | the total is 50.00 |
| Iteration2.VeggiesTotal | src/ruby/iteration-2.rb:71-74 | the total is 10.00 |
| Iteration2.CombinedBasketTotal | src/ruby/iteration-2.rb:59-61 | the total of two baskets' products together is the sum of their totals |
| Iteration2.FruitsAndVeggiesTotal | src/ruby/iteration-2.rb:76-79 | the combined basket totals 60.00 |
| It1.NewProductIsOneUnit | it1.rb:29-31 | a fresh product is one unit and costs its unit value |
| It1.EmptyBasket | it1.rb:55-57 | an empty basket totals 0 |
| It1.FruitsTotal | it1.rb:62-65 | the total is 50.00 |

## Left out

- Display formatting is not modelled. This covers `p`, `Numeric#to_formatted_s` and `to_s`, with their `sprintf` strings and ActiveSupport's `pluralize`. It is presentation only and relies on a foreign library.
- Ruby metaprogramming is replaced by a `Category` tag and a `Strategy` value. This covers `Class.new`, `define_method`, `Products.const_set`, reopening `Numeric` and the per-object `def grapefruit.price`.
- Test::Unit, the `require` lines and the `test_should_not_sell_veggies` placeholder are not modelled.
- Taxes.Round2: rounds exact reals half up, while the source rounds the nearest binary float. Its contract therefore promises only whole pence within half a penny, which both agree on.
- Exercise.FruitsTotal: states 57.57 or 57.58 rather than the test's 57.58, because 49.00 times 1.175 is exactly a half penny and its rounding depends on binary floating point.
- Exercise.GrapefruitWithFourOranges: states 8.22 or 8.23 rather than 8.22, for the same reason (exactly 8.225).
- Exercise.PlumsForExport: states 5.72 or 5.73 rather than 5.73, for the same reason (exactly 5.725).
- Exercise.GrapefruitBasketTotalTwice: states 8.22 or 8.23 for the amount, for the same reason.
- It9.FruitsTotal: states 57.57 or 57.58 rather than 57.58, for the same reason.
- It9.GrapefruitWithFourOranges: states 8.22 or 8.23 rather than 8.22, for the same reason.
- It9.PlumsForExport: states 5.72 or 5.73 rather than 5.73, for the same reason.
- `n.for(p)` is modelled for Integer quantities only, with `n > 0`. Any Float quantity, whole like 3.0 or not, takes float division in the source (`Aubergine.new(3.0)` costs 2.5, not 2) and is not modelled.
- Integer and float arithmetic is not distinguished. Ruby Integers and Floats are both modelled as exact reals.
- Baskets.Basket.constructor: requires the products to be distinct objects. Passing the same product object twice (aliasing) is not modelled.
- The first `def total` in `it4.rb` (lines 77-79) is not modelled. The second definition replaces it, so it is never run.
- The commented-out cucumber pass, its call and the commented-out tests in `exercise.rb` are not modelled.
- Zero-quantity clamping, validation errors and configurable promotion parameters are not modelled. The code has none of them.
- `Taxes.ApplyTax` only selects a tax step and carries no contract of its own. Its cases are stated by `ApplyVat` and `ApplyExportTax`.
