/**
 * validateCoupon of tests/unit/coupon.test.ts: a null check, three rejections
 * in a fixed order, then the discount with its two clamps. Amounts are reals,
 * dates are millisecond timestamps and the current time is a parameter.
 */
module Coupon {
  import opened Wrappers

  datatype Kind = Percentage | Fixed

  /** The Coupon interface (coupon.test.ts:6-15); an absent maxDiscount is None. */
  datatype Coupon = Coupon(
    code: string,
    kind: Kind,
    value: real,
    minPurchase: real,
    maxDiscount: Option<real>,
    validUntil: int,
    usageLimit: int,
    usageCount: int)

  /**
   * The result messages: 'Invalid coupon code', 'Coupon has expired', 'Coupon
   * usage limit reached', 'Minimum purchase of $<minPurchase> required' and
   * 'Coupon applied successfully'.
   */
  datatype Message = InvalidCode | Expired | LimitReached | BelowMinimum(minPurchase: real) | Applied

  datatype Verdict = Verdict(valid: bool, discount: real, message: Message)

  function Min(a: real, b: real): real
  {
    if a <= b then a else b
  }

  /** `coupon.maxDiscount && ...`: a cap of 0, like no cap, is falsy. */
  predicate Capped(c: Coupon)
  {
    c.maxDiscount.Some? && c.maxDiscount.value != 0.0
  }

  predicate IsExpired(c: Coupon, now: int)
  {
    c.validUntil < now
  }

  predicate LimitHit(c: Coupon)
  {
    c.usageCount >= c.usageLimit
  }

  /** The discount before the cart-total clamp (coupon.test.ts:41-49). */
  function RawDiscount(c: Coupon, cartTotal: real): (d: real)
    ensures c.kind == Fixed ==> d == c.value
    ensures c.kind == Percentage && !Capped(c) ==> d == cartTotal * (c.value / 100.0)
    ensures c.kind == Percentage && Capped(c) ==> d == Min(cartTotal * (c.value / 100.0), c.maxDiscount.value)
  {
    if c.kind == Percentage then
      var pct := cartTotal * (c.value / 100.0);
      if Capped(c) && pct > c.maxDiscount.value then c.maxDiscount.value else pct
    else
      c.value
  }

  /** validateCoupon (coupon.test.ts:17-61), without the final cent rounding. */
  function ValidateCoupon(coupon: Option<Coupon>, cartTotal: real, now: int): (r: Verdict)
    ensures coupon.None? ==> r == Verdict(false, 0.0, InvalidCode)
    ensures r.valid <==> coupon.Some? && !IsExpired(coupon.value, now) && !LimitHit(coupon.value)
                         && cartTotal >= coupon.value.minPurchase
    ensures !r.valid ==> r.discount == 0.0
    ensures r.valid ==> r.message == Applied && r.discount <= cartTotal
    ensures r.valid ==> r.discount == Min(RawDiscount(coupon.value, cartTotal), cartTotal)
    ensures coupon.Some? && IsExpired(coupon.value, now) ==> r.message == Expired
    ensures coupon.Some? && !IsExpired(coupon.value, now) && LimitHit(coupon.value) ==> r.message == LimitReached
    ensures coupon.Some? && !IsExpired(coupon.value, now) && !LimitHit(coupon.value) && cartTotal < coupon.value.minPurchase
      ==> r.message == BelowMinimum(coupon.value.minPurchase)
  {
    match coupon
    case None => Verdict(false, 0.0, InvalidCode)
    case Some(c) =>
      if IsExpired(c, now) then Verdict(false, 0.0, Expired)
      else if LimitHit(c) then Verdict(false, 0.0, LimitReached)
      else if cartTotal < c.minPurchase then Verdict(false, 0.0, BelowMinimum(c.minPurchase))
      else
        var discount := RawDiscount(c, cartTotal);
        Verdict(true, if discount > cartTotal then cartTotal else discount, Applied)
  }

  /** A percentage discount never exceeds a (truthy) maxDiscount, nor the cart total. */
  lemma PercentageCapped(c: Coupon, cartTotal: real, now: int)
    requires c.kind == Percentage && Capped(c)
    requires ValidateCoupon(Some(c), cartTotal, now).valid
    ensures ValidateCoupon(Some(c), cartTotal, now).discount <= c.maxDiscount.value
  {
  }

  /** A maxDiscount of 0 caps nothing: the coupon behaves as if it had none. */
  lemma ZeroCapIsNoCap(c: Coupon, cartTotal: real, now: int)
    requires c.maxDiscount == Some(0.0)
    ensures ValidateCoupon(Some(c), cartTotal, now) == ValidateCoupon(Some(c.(maxDiscount := None)), cartTotal, now)
  {
    assert RawDiscount(c, cartTotal) == RawDiscount(c.(maxDiscount := None), cartTotal);
  }

  /** An uncapped percentage of at most 100 on a non-negative cart is exactly that share of the cart. */
  lemma PlainPercentage(c: Coupon, cartTotal: real, now: int)
    requires c.kind == Percentage && !Capped(c) && 0.0 <= c.value <= 100.0 && 0.0 <= cartTotal
    requires ValidateCoupon(Some(c), cartTotal, now).valid
    ensures ValidateCoupon(Some(c), cartTotal, now).discount == cartTotal * c.value / 100.0
    ensures 0.0 <= ValidateCoupon(Some(c), cartTotal, now).discount <= cartTotal
  {
    var share := c.value / 100.0;
    assert 0.0 <= share <= 1.0;
    assert cartTotal * share <= cartTotal * 1.0 by {
      assert cartTotal * (1.0 - share) >= 0.0;
    }
    assert cartTotal * share == cartTotal * c.value / 100.0;
  }

  /** With non-negative amounts the discount of a valid coupon lies between 0 and the cart total. */
  lemma DiscountInRange(c: Coupon, cartTotal: real, now: int)
    requires 0.0 <= c.value && 0.0 <= cartTotal
    requires c.maxDiscount.None? || 0.0 <= c.maxDiscount.value
    requires ValidateCoupon(Some(c), cartTotal, now).valid
    ensures 0.0 <= ValidateCoupon(Some(c), cartTotal, now).discount <= cartTotal
  {
    assert 0.0 <= cartTotal * (c.value / 100.0);
  }

  /** A coupon valid now was valid at every earlier time. */
  lemma ValidEarlier(c: Coupon, cartTotal: real, now: int, earlier: int)
    requires earlier <= now && ValidateCoupon(Some(c), cartTotal, now).valid
    ensures ValidateCoupon(Some(c), cartTotal, earlier) == ValidateCoupon(Some(c), cartTotal, now)
  {
  }

  // The coupons and cases of the test suite (coupon.test.ts:64-132); both
  // coupons are valid until 2030-12-31.

  const Until2030: int := 1924905600000
  const Until2020: int := 1577836800000

  const SavePercent: Coupon := Coupon("SAVE10", Percentage, 10.0, 20.0, Some(50.0), Until2030, 100, 0)
  const FlatFive: Coupon := Coupon("FLAT5", Fixed, 5.0, 10.0, None, Until2030, 100, 0)

  lemma SuiteCases(now: int)
    requires Until2020 < now <= Until2030
    ensures ValidateCoupon(Some(SavePercent), 100.0, now) == Verdict(true, 10.0, Applied)
    ensures ValidateCoupon(Some(FlatFive), 50.0, now) == Verdict(true, 5.0, Applied)
    ensures ValidateCoupon(None, 100.0, now) == Verdict(false, 0.0, InvalidCode)
    ensures ValidateCoupon(Some(SavePercent.(validUntil := Until2020)), 100.0, now).message == Expired
    ensures ValidateCoupon(Some(SavePercent.(usageCount := 100)), 100.0, now).message == LimitReached
    ensures ValidateCoupon(Some(SavePercent), 15.0, now).message == BelowMinimum(20.0)
    ensures ValidateCoupon(Some(SavePercent), 1000.0, now).discount == 50.0
    ensures ValidateCoupon(Some(FlatFive.(value := 100.0, minPurchase := 0.0)), 30.0, now).discount == 30.0
  {
  }
}
