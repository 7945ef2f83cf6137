/** The flat 10% tax that the purchase screen and the bill generator add on
    top of a subtotal (`tax = subtotal * 0.1; total = subtotal + tax`). */
module Tax {

  datatype TaxedTotals = TaxedTotals(subtotal: real, tax: real, total: real)

  /** Tax is one tenth of the subtotal, so the total is eleven tenths of it. */
  function WithTax(subtotal: real): (t: TaxedTotals)
    ensures t.subtotal == subtotal
    ensures 10.0 * t.tax == subtotal
    ensures 10.0 * t.total == 11.0 * subtotal
    ensures subtotal >= 0.0 ==> subtotal <= t.total
  {
    var tax := subtotal / 10.0;
    TaxedTotals(subtotal, tax, subtotal + tax)
  }
}
