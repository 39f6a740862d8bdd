/**
 * The tax step at the end of `Basket#total`: `apply_vat` and
 * `apply_export_tax`, each a single multiplication (plus a fee) followed by
 * one rounding to two decimals.
 */
module Taxes {

  /** An amount that is a whole number of pence. */
  predicate IsCents(x: real) {
    (x * 100.0).Floor as real == x * 100.0
  }

  /**
   * `sprintf("%0.2f", x).to_f`: the amount to the nearest penny. On exact
   * reals this rounds a half penny up; the source rounds the binary float
   * nearest to `x`, so on exact half pennies the two may differ. The contract
   * promises only what both agree on.
   */
  function Round2(x: real): (r: real)
    ensures IsCents(r)
    ensures -0.005 <= r - x <= 0.005
  {
    (x * 100.0 + 0.5).Floor as real / 100.0
  }

  /** Two whole numbers of pence less than a penny apart are equal. */
  lemma {:induction false} CentsLessThanPennyApart(a: real, b: real)
    requires IsCents(a) && IsCents(b) && -0.01 < a - b < 0.01
    ensures a == b
  {
    var ia, ib := (a * 100.0).Floor, (b * 100.0).Floor;
    assert -1.0 < (ia - ib) as real < 1.0;
    assert ia == ib;
  }

  /**
   * Away from an exact half penny the contract fixes the result: the only
   * whole number of pence closer than half a penny to `x` is `Round2(x)`.
   */
  lemma {:induction false} Round2Nearest(x: real, c: real)
    requires IsCents(c) && -0.005 < c - x < 0.005
    ensures Round2(x) == c
  {
    CentsLessThanPennyApart(Round2(x), c);
  }

  /** An amount already in whole pence is not changed by rounding. */
  lemma {:induction false} Round2OfCents(x: real)
    requires IsCents(x)
    ensures Round2(x) == x
  {
    Round2Nearest(x, x);
  }

  /** On an exact half penny, the result is one of the two neighbouring pence. */
  lemma {:induction false} Round2OfHalfPenny(lo: real)
    requires IsCents(lo)
    ensures Round2(lo + 0.005) == lo || Round2(lo + 0.005) == lo + 0.01
  {
  }

  /** VAT multiplier: 17.5 per cent. */
  const VatMultiplier: real := 1.175
  /** Export surcharge multiplier: 5 per cent. */
  const ExportMultiplier: real := 1.05
  /** Fixed export fee, added after the surcharge. */
  const ExportFee: real := 1.0

  /** `apply_vat`: VAT on the whole subtotal, rounded once, after multiplying. */
  function ApplyVat(subtotal: real): (r: real)
    ensures IsCents(r)
    ensures -0.005 <= r - subtotal * VatMultiplier <= 0.005
  {
    Round2(subtotal * VatMultiplier)
  }

  /** `apply_export_tax`: 5 per cent plus a fee of 1, rounded once, at the end. */
  function ApplyExportTax(subtotal: real): (r: real)
    ensures IsCents(r)
    ensures -0.005 <= r - (subtotal * ExportMultiplier + ExportFee) <= 0.005
  {
    Round2(subtotal * ExportMultiplier + ExportFee)
  }

  /** The tax step a basket class ends `total` with. */
  datatype Tax = NoTax | Vat | ExportTax

  function ApplyTax(t: Tax, subtotal: real): (r: real) {
    match t
    case NoTax => subtotal
    case Vat => ApplyVat(subtotal)
    case ExportTax => ApplyExportTax(subtotal)
  }
}
