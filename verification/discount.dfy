/** The `calculate_discount` tool: validates a discount percentage and
    computes the price left after the discount. Prices are exact reals. */
module Discount {
  import opened Wrappers

  /** The `ValueError` raised for a percentage outside [0, 100]. */
  datatype DiscountError = PercentageOutOfRange {
    /** The message the `ValueError` carries, kept as documentation of the
        error; nothing in the model depends on its text. */
    function Message(): string {
      "Discount percentage must be between 0 and 100"
    }
  }

  /** True when `pct` is accepted: 0 and 100 included. */
  predicate ValidPercentage(pct: real) {
    0.0 <= pct <= 100.0
  }

  /** The final price after a `pct` percent discount on `price`: the buyer
      pays the remaining (100 - pct) percent, which for a non-negative price
      lies between nothing and the full price. */
  function CalculateDiscount(price: real, pct: real): (r: Result<real, DiscountError>)
    ensures r.Err? <==> pct < 0.0 || 100.0 < pct
    ensures r.Err? ==> r.error == PercentageOutOfRange
    ensures r.Ok? ==> r.value * 100.0 == price * (100.0 - pct)
    ensures r.Ok? && 0.0 <= price ==> 0.0 <= r.value <= price
    ensures r.Ok? && price <= 0.0 ==> price <= r.value <= 0.0
  {
    if !ValidPercentage(pct) then Err(PercentageOutOfRange)
    else
      var discountAmount := price * (pct / 100.0);
      PayShareBounds(price, 100.0 - pct);
      Ok(price - discountAmount)
  }

  /** Paying a share `keep` in [0, 100] percent of `price` stays between
      nothing and the full price. */
  lemma PayShareBounds(price: real, keep: real)
    requires 0.0 <= keep <= 100.0
    ensures 0.0 <= price ==> 0.0 <= price * keep <= price * 100.0
    ensures price <= 0.0 ==> price * 100.0 <= price * keep <= 0.0
  {
    assert price * 100.0 - price * keep == price * (100.0 - keep);
    if 0.0 <= price {
      MulNonNeg(price, keep);
      MulNonNeg(price, 100.0 - keep);
    } else {
      MulNonNeg(-price, keep);
      MulNonNeg(-price, 100.0 - keep);
    }
  }

  lemma MulNonNeg(a: real, b: real)
    requires 0.0 <= a && 0.0 <= b
    ensures 0.0 <= a * b
  {
  }

  /** The accepted percentages are exactly those the range check lets through. */
  lemma AcceptedIffValid(price: real, pct: real)
    ensures CalculateDiscount(price, pct).Ok? <==> ValidPercentage(pct)
  {
  }

  /** The boundaries are inclusive: no discount keeps the price, a full
      discount leaves nothing. */
  lemma DiscountBoundaries(price: real)
    ensures CalculateDiscount(price, 0.0) == Ok(price)
    ensures CalculateDiscount(price, 100.0) == Ok(0.0)
  {
  }

  /** The percentage is a percent, not a fraction: 20 off 100 leaves 80. */
  lemma TwentyPercentOffHundred()
    ensures CalculateDiscount(100.0, 20.0) == Ok(80.0)
  {
  }

  /** For a non-negative price, a larger discount never costs more. */
  lemma DiscountAntitone(price: real, p: real, q: real)
    requires 0.0 <= price
    requires 0.0 <= p <= q <= 100.0
    ensures CalculateDiscount(price, q).value <= CalculateDiscount(price, p).value
  {
    assert price * (100.0 - p) - price * (100.0 - q) == price * (q - p);
    MulNonNeg(price, q - p);
  }

  /** For a positive price, a strictly larger discount strictly lowers it. */
  lemma DiscountStrictlyAntitone(price: real, p: real, q: real)
    requires 0.0 < price
    requires 0.0 <= p < q <= 100.0
    ensures CalculateDiscount(price, q).value < CalculateDiscount(price, p).value
  {
    var vp, vq := CalculateDiscount(price, p).value, CalculateDiscount(price, q).value;
    assert vp * 100.0 == price * (100.0 - p);
    assert vq * 100.0 == price * (100.0 - q);
    var keep, extra := 100.0 - q, q - p;
    Distribute(price, keep, extra);
    assert keep + extra == 100.0 - p;
    assert vp * 100.0 == price * keep + price * extra;
    MulPos(price, extra);
  }

  lemma Distribute(a: real, b: real, c: real)
    ensures a * (b + c) == a * b + a * c
  {
  }

  lemma MulPos(a: real, b: real)
    requires 0.0 < a && 0.0 < b
    ensures 0.0 < a * b
  {
  }
}
